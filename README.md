# Kidney cancer staging and treatment decision core

This project models the decision core of an oncology case-management app for
renal cell carcinoma (RCC) and Wilms tumour, and proves properties about it:

- **Staging** (`staging_engine.dfy`, module `StagingEngine`). The clinical and
  pathological kidney staging functions assign the AJCC 8th edition anatomic
  stage groups (Kidney chapter) from T/N/M codes. They are a first-match-wins
  cascade: M1, then T4 with M0, then N1 with M0, then T3/T2/T1 with N0 and M0,
  then "Unknown". The codes are compared case-insensitively. An incomplete
  input gives no result. The pathological path first strips the `p` prefix and
  then appends the findings from the pathology report to the factor list. The
  stage-to-severity colour mapping is included. The cascade is also written
  independently as an ordered rule table (`AjccKidneyRules`), and both staging
  functions are proved to agree with it.
- **Treatment recommendation** (`treatment_engine.dfy`, module
  `TreatmentEngine`). There are three recommenders: pre-operative kidney,
  post-operative kidney (driven by pathology risk) and Wilms (SIOP-RTSG 2016).
  Each one fills four buckets (neoadjuvant, adjuvant, primary treatment,
  alternative options) with entries from a constant catalog. Each recommender
  is written as the original does it, pushing into a fresh recommendation
  under stage branches. Each is proved equal to a declarative plan function
  (`KidneyPlan`, `PostOpPlan`, `WilmsPlan`), and the plan functions carry the
  properties.
- **Case store** (`case_context.dfy`, module `CaseContext`). This covers:
  - the case record and its sub-records;
  - the blank case;
  - the partial-record merges behind the `update*Data` operations;
  - a `CaseStore` class whose two fields, `currentCase` and `savedCases`, are
    changed by its methods (save as upsert by id, load as find, delete as
    filter, reset).
- **JavaScript string built-ins** (`js_string.dfy`, module `JsString`). These
  are the parts the core relies on: `toLowerCase`/`toUpperCase` (ASCII),
  `startsWith`, and `String.prototype.replace` with a string pattern, which
  replaces only the first occurrence. Only replacement strings without `$`
  patterns are modelled; the core passes no others. `wrappers.dfy` holds the `Option` type.

JavaScript "falsy" tests (`!t`, `x || 'default'`) are modelled explicitly: a
code is missing when it is absent or the empty string (`StagingEngine.Missing`).

## Model

| member | source | states |
|---|---|---|
| StagingEngine.CalculateKidneyStage | src/lib/stagingEngine.ts:11-132 | no result exactly when T, N or M is absent or empty; otherwise stage and stage number agree (IV/4 … I/1, Unknown/0) and the factor list is non-empty |
| StagingEngine.ClinicalFollowsRuleTable | src/lib/stagingEngine.ts:18-131 | for complete input, the clinical stage is the first matching rule of the ordered AJCC table applied to the lower-cased codes (0 when none matches) |
| StagingEngine.RuleTableUnfolded | src/lib/stagingEngine.ts:23-131 | the ordered rule table means: M1 → 4; else T4 and M0 → 4; else N1 and M0 → 3; else T3*/T2*/T1* with N0 and M0 → 3/2/1; else 0 |
| StagingEngine.DistantMetastasisIsStageIV | src/lib/stagingEngine.ts:23-35 | an M code lower-casing to m1 gives stage IV whatever T and N are |
| StagingEngine.T4TakesPrecedenceOverN1 | src/lib/stagingEngine.ts:37-63 | T4 with M0 gives stage IV, even when N is N1 |
| StagingEngine.NodePositiveIsStageIII | src/lib/stagingEngine.ts:51-63 | any T other than T4, with N1 and M0, gives stage III |
| StagingEngine.NodeNegativeStagesByTumor | src/lib/stagingEngine.ts:65-118 | with N0 and M0, a T code starting t3/t2/t1 gives III/II/I |
| StagingEngine.UnknownListsCodes | src/lib/stagingEngine.ts:120-131 | an Unknown result is one that no rule matches, and its factors begin with "T: ", "N: ", "M: " followed by the upper-cased codes, in that order |
| StagingEngine.ClinicalCaseInsensitive | src/lib/stagingEngine.ts:18-21 | codes that lower-case equally give identical results (stage, explanation and factors) |
| StagingEngine.CalculatePostOpKidneyStage | src/lib/stagingEngine.ts:135-284 | no result exactly when pT or pN is absent or empty; otherwise well-formed, with the pathology findings as a proper suffix of the factor list |
| StagingEngine.PostOpFollowsRuleTable | src/lib/stagingEngine.ts:145-147 | the pathological stage is the first matching AJCC rule applied to the normalised (prefix-stripped, lower-cased) codes |
| StagingEngine.PostOpSameCascadeAsClinical | src/lib/stagingEngine.ts:145-147 | the pathological stage equals the clinical stage of the normalised codes, a missing pM counting as pm0 |
| StagingEngine.NormalizedCodes | src/lib/stagingEngine.ts:145-147 | normalised pT/pN/pM codes are non-empty and contain no upper-case letter |
| StagingEngine.NormalizeStripsPrefix | src/lib/stagingEngine.ts:145 | a pT code starting "pt" (in any case) becomes "t" followed by the rest of the lower-cased code |
| StagingEngine.PathologyNeverChangesStage | src/lib/stagingEngine.ts:149-283 | two different pathology reports never give different stages or stage numbers for the same pTNM |
| StagingEngine.PathologyFactors | src/lib/stagingEngine.ts:149-173 | no pathology report gives no findings; at most seven findings |
| StagingEngine.PathologyFactorsOrdered | src/lib/stagingEngine.ts:149-173 | findings appear in the fixed order histology, grade, positive margin, vascular invasion, lymphovascular invasion, sarcomatoid, necrosis, each at most once, and each only when its condition holds |
| StagingEngine.HistologyListed | src/lib/stagingEngine.ts:152-154 | with a histology the first finding names it; without one no finding is a histology line |
| StagingEngine.GradeListed | src/lib/stagingEngine.ts:155-157 | with a grade the "Grade: g/4 (ISUP/WHO)" finding is listed; without one no finding is a grade line |
| StagingEngine.LymphovascularListed | src/lib/stagingEngine.ts:164-166 | the lymphovascular invasion finding is listed exactly when lymph node invasion is reported |
| StagingEngine.PositiveMarginListed | src/lib/stagingEngine.ts:158-160 | the positive-margin warning is listed exactly when the margin status is positive |
| StagingEngine.VascularInvasionListed | src/lib/stagingEngine.ts:161-163 | the vascular-invasion warning is listed exactly when vascular invasion is reported |
| StagingEngine.SarcomatoidListed | src/lib/stagingEngine.ts:167-169 | the sarcomatoid warning is listed exactly when sarcomatoid features are reported |
| StagingEngine.NecrosisListed | src/lib/stagingEngine.ts:170-172 | the necrosis finding is listed exactly when necrosis is reported |
| StagingEngine.GetStageColor | src/lib/stagingEngine.ts:286-299 | muted exactly outside 1..4; for 1..4 the colour's severity rank equals the stage number (success, info, warning, destructive) |
| StagingEngine.StageColorOfClinicalResult | src/lib/stagingEngine.ts:286-299 | a clinical result is shown muted exactly when its stage is Unknown |
| StagingEngine.EmptyCaseHasNoStage | src/contexts/CaseContext.tsx:95-139 | a blank case can be staged neither clinically nor pathologically |
| JsString.ToLower | src/lib/stagingEngine.ts:18-21 | same length, each character mapped by the ASCII lower-case map, no upper-case letter left |
| JsString.ToUpper | src/lib/stagingEngine.ts:126-130 | same length, each character mapped by the ASCII upper-case map |
| JsString.ToLowerIdempotent | src/lib/stagingEngine.ts:18-21 | lower-casing twice equals lower-casing once |
| JsString.ToUpperDeterminedByLower | src/lib/stagingEngine.ts:126-130 | strings that lower-case equally also upper-case equally |
| JsString.ReplaceFirst | src/lib/stagingEngine.ts:145-147 | a non-empty string with a non-empty replacement stays non-empty; lower-case input and replacement give lower-case output |
| JsString.ReplaceFirstAt | src/lib/stagingEngine.ts:145-147 | only the first occurrence of the pattern is replaced; text before and after it is unchanged |
| JsString.ReplaceFirstAbsent | src/lib/stagingEngine.ts:145-147 | a string without the pattern is returned unchanged |
| JsString.ReplaceFirstPrefix | src/lib/stagingEngine.ts:145-147 | a string starting with the pattern has exactly that prefix replaced |
| TreatmentEngine.CatalogsWellFormed | src/lib/treatmentEngine.ts:46-436 | every catalog entry cites at least one guideline, and ids are unique across the kidney and Wilms catalogs |
| TreatmentEngine.GetKidneyTreatmentRecommendations | src/lib/treatmentEngine.ts:482-539 | the pushes into a fresh recommendation produce exactly the pre-operative kidney plan for the case and stage number |
| TreatmentEngine.KidneyPlanByStage | src/lib/treatmentEngine.ts:486-536 | never neoadjuvant; all buckets empty outside stages 1..4; exactly one primary option in 1..4, surgical for I-III and systemic for IV; by stage: I partial nephrectomy with surveillance (T1a) or radical nephrectomy as the alternative, II radical with partial as the alternative, III radical alone, IV advanced systemic therapy with radical nephrectomy as the alternative |
| TreatmentEngine.SurveillanceOnlyForT1a | src/lib/treatmentEngine.ts:496-507 | active surveillance is an alternative exactly for stage I with T lower-casing to t1a |
| TreatmentEngine.KidneyAdjuvantOnlyClearCell | src/lib/treatmentEngine.ts:509-528 | adjuvant therapy is pembrolizumab or nothing, and only for clear cell at stage II or III; at stage II it is given exactly for clear cell of grade 3 or 4, at stage III exactly for clear cell |
| TreatmentEngine.KidneyPlanWellFormed | src/lib/treatmentEngine.ts:482-539 | no bucket repeats an id, every option is cited, and no alternative repeats the primary option |
| TreatmentEngine.HighRiskIgnoresLymphovascularAndNecrosis | src/lib/treatmentEngine.ts:559-564 | lymphovascular invasion and necrosis do not affect whether the pathology is high risk |
| TreatmentEngine.GetPostOpTreatmentRecommendations | src/lib/treatmentEngine.ts:542-617 | the pushes into a fresh recommendation produce exactly the post-operative plan for the case and stage number |
| TreatmentEngine.PostOpPlanByStage | src/lib/treatmentEngine.ts:546-614 | never neoadjuvant; all buckets empty outside stages 1..4; within 1..4 exactly one of adjuvant therapy and primary treatment is given |
| TreatmentEngine.PostOpNonClearCell | src/lib/treatmentEngine.ts:586-613 | without clear-cell histology: no adjuvant and no alternative option; surveillance as the sole primary option in stages I-III, systemic therapy in IV |
| TreatmentEngine.PostOpHighRiskStageOne | src/lib/treatmentEngine.ts:566-572 | clear cell, stage I, high risk: adjuvant pembrolizumab, surveillance as the alternative, no primary option |
| TreatmentEngine.PostOpLowRiskStageOne | src/lib/treatmentEngine.ts:566-576 | any stage I case that is not both clear cell and high risk gets surveillance as the only option |
| TreatmentEngine.PostOpStageTwoTiers | src/lib/treatmentEngine.ts:577-594 | stage II: clear cell with grade 4 or sarcomatoid features gets adjuvant pembrolizumab alone; clear cell grade 3 gets pembrolizumab with surveillance as the alternative; every other case gets surveillance as primary |
| TreatmentEngine.PostOpClearCellAdvanced | src/lib/treatmentEngine.ts:596-614 | clear cell at stage III gets adjuvant pembrolizumab alone; at stage IV with systemic therapy as the alternative |
| TreatmentEngine.PostOpStageTwoIgnoresInvasionAndMargins | src/lib/treatmentEngine.ts:577-594 | in stage II, changing vascular invasion or margin status never changes the plan |
| TreatmentEngine.PostOpStageFourSystemic | src/lib/treatmentEngine.ts:606-614 | stage IV always offers first-line systemic therapy, as primary or as the alternative |
| TreatmentEngine.PostOpPlanWellFormed | src/lib/treatmentEngine.ts:542-617 | no bucket repeats an id, every option is cited, and no alternative repeats the primary option |
| TreatmentEngine.GetWilmsTreatmentRecommendations | src/lib/treatmentEngine.ts:438-479 | the pushes into a fresh recommendation produce exactly the Wilms plan for the case and stage number |
| TreatmentEngine.WilmsIntensityByStage | src/lib/treatmentEngine.ts:453-476 | pre-op VA always; never an alternative; VAD-28w exactly for high-risk II, III and IV; abdominal RT exactly for high-risk II and III; VA-9w exactly for non-low-risk I and non-high-risk II; whole lists in order: low-risk I gets only the renamed VA-9w as primary, other stage I gets adjuvant [VA-9w], high-risk II and III get [VAD-28w, RT], other II gets [VA-9w], IV gets [VAD-28w]; the primary option appears only at stage I; nothing adjuvant outside stages 1..4 |
| TreatmentEngine.WilmsObservationIsRenamedVA | src/lib/treatmentEngine.ts:458-459 | a primary option is the VA-9w entry with its id, category and references kept and only its display name changed |
| TreatmentEngine.WilmsPlanWellFormed | src/lib/treatmentEngine.ts:438-479 | no bucket repeats an id, every option is cited, and no alternative repeats a primary option |
| CaseContext.CreateEmptyCase | src/contexts/CaseContext.tsx:95-139 | the new case has the given id, is primary, has no cancer type or stage, no T/N/M or pT/pN/pM, and all pathology findings off |
| CaseContext.FirstIndexOf | src/contexts/CaseContext.tsx:251 | the index found holds the id and no earlier case does; no index means no case holds the id |
| CaseContext.FindCase | src/contexts/CaseContext.tsx:262 | a found case is the first saved case with the id; nothing is found exactly when no saved case has the id |
| CaseContext.Upsert | src/contexts/CaseContext.tsx:251-258 | the saved case is in the resulting list |
| CaseContext.UpsertReplacesFirst | src/contexts/CaseContext.tsx:251-255 | with the id already saved, the first such entry is replaced; length and all other entries are unchanged |
| CaseContext.UpsertAppendsNew | src/contexts/CaseContext.tsx:256-258 | with a new id, the case is appended at the end and the length grows by one |
| CaseContext.UpsertKeepsIdsUnique | src/contexts/CaseContext.tsx:249-259 | saving keeps saved ids unique |
| CaseContext.WithoutId | src/contexts/CaseContext.tsx:269 | the survivors are exactly the cases whose id differs |
| CaseContext.WithoutIdAppend | src/contexts/CaseContext.tsx:269 | deleting distributes over concatenation, so survivors keep their original order |
| CaseContext.WithoutIdAbsent | src/contexts/CaseContext.tsx:269 | deleting an id that no case has changes nothing |
| CaseContext.WithoutIdKeepsIdsUnique | src/contexts/CaseContext.tsx:268-273 | deleting keeps saved ids unique |
| CaseContext.MergeEmptyPatchesIdentity | src/contexts/CaseContext.tsx:168-220 | merging a patch that supplies no field changes nothing |
| CaseContext.MergeIdempotent | src/contexts/CaseContext.tsx:186-202 | merging the same patch twice equals merging it once |
| CaseContext.CaseStore.constructor | src/contexts/CaseContext.tsx:142-158 | no current case; the saved list is the loaded one |
| CaseContext.CaseStore.CreateNewCase | src/contexts/CaseContext.tsx:164-166 | the current case becomes a blank case; saved cases unchanged |
| CaseContext.CaseStore.UpdatePatientData | src/contexts/CaseContext.tsx:168-175 | no-op without a current case; otherwise only the patient sub-record changes, with supplied fields overriding |
| CaseContext.CaseStore.UpdateTumorData | src/contexts/CaseContext.tsx:177-184 | no-op without a current case; otherwise only the tumour sub-record changes, with supplied fields overriding |
| CaseContext.CaseStore.UpdateTNMData | src/contexts/CaseContext.tsx:186-193 | no-op without a current case; otherwise only the TNM sub-record changes, with supplied fields overriding |
| CaseContext.CaseStore.UpdatePathologyData | src/contexts/CaseContext.tsx:195-202 | no-op without a current case; otherwise only the pathology sub-record changes, with supplied fields overriding |
| CaseContext.CaseStore.UpdatePreOpData | src/contexts/CaseContext.tsx:204-211 | no-op without a current case; otherwise only the pre-op sub-record changes, with supplied fields overriding |
| CaseContext.CaseStore.UpdatePostOpTNMData | src/contexts/CaseContext.tsx:213-220 | no-op without a current case; otherwise only the pTNM sub-record changes, with supplied fields overriding |
| CaseContext.CaseStore.SetCancerType | src/contexts/CaseContext.tsx:222-229 | no-op without a current case; otherwise only the cancer type changes |
| CaseContext.CaseStore.SetCaseType | src/contexts/CaseContext.tsx:231-238 | no-op without a current case; otherwise only the case type changes |
| CaseContext.CaseStore.SetStage | src/contexts/CaseContext.tsx:240-247 | no-op without a current case; otherwise only the stage changes |
| CaseContext.CaseStore.SaveCase | src/contexts/CaseContext.tsx:249-259 | saved list unchanged without a current case; otherwise it becomes the upsert of the current case, grows by at most one, and keeps ids unique |
| CaseContext.CaseStore.LoadCase | src/contexts/CaseContext.tsx:261-266 | the current case becomes the first saved case with the id, or stays as it was when there is none; the saved list never changes |
| CaseContext.CaseStore.DeleteCase | src/contexts/CaseContext.tsx:268-273 | every case with the id is removed and the others keep their order; the current case is cleared exactly when its id matches; ids stay unique |
| CaseContext.CaseStore.ResetCurrentCase | src/contexts/CaseContext.tsx:275-277 | only the current case is cleared |

## Left out

- Case mapping: `toLowerCase`/`toUpperCase` are modelled over ASCII letters only. Full Unicode case mapping is not modelled.
- Display text: the bilingual name, description, indication, warning and note texts of the catalog entries are not modelled. An entry keeps its id, type, English name and guideline references. The English name is kept only to express the renamed Wilms observation entry.
- Clock and storage: localStorage loading and saving of cases (src/contexts/CaseContext.tsx:143-162) is not modelled. The loaded list is the `CaseStore` constructor's parameter. `generateCaseId` and the `createdAt`/`updatedAt` timestamps read the clock. The case id is a parameter of `CreateEmptyCase` and `CreateNewCase`, and timestamps are omitted.
- React plumbing: the context provider, `useCase` and all pages and components are UI plumbing and are not modelled. So is the language context.
- Wilms staging: no Wilms staging function exists in the modelled files. The Wilms recommender takes the stage number as given.
- CaseContext.CaseStore.UpdatePathologyData: when the case has no pathology sub-record yet, the original spreads `undefined` and stores only the supplied keys. The model merges into the blank pathology record instead. A blank case always has this sub-record, so this only matters for cases loaded without it.
- CaseContext.CaseStore.UpdatePreOpData: the same simplification for a case without a pre-operative sub-record.
- CaseContext.CaseStore.UpdatePostOpTNMData: the same simplification for a case without a post-operative TNM sub-record.
- Render snapshots: the model runs the store operations in sequence, so each call sees the state the previous call left. In the original, every function the context hands out reads the `currentCase` and `savedCases` of the render that created it. Two calls in one event handler or effect therefore do not compose: after `createNewCase()`, a `setCaseType` in the same effect still sees the old `currentCase` (null for a fresh page) and does nothing. The model does not capture these stale snapshots or React's batching of state updates.
- Patches: a key passed explicitly as `undefined` in a partial update overwrites the field in the original. In the model, an absent key and an `undefined` key are the same (`None`), and both keep the old value.
- Null and undefined: `null` and `undefined` in the optional case fields are not told apart. Both are `None`.
- Unused local: the post-operative recommender lower-cases the pT code into a local that it never reads (src/lib/treatmentEngine.ts:557). The model leaves it out.
- Codes as strings: codes are kept as strings rather than enumerations, since the original compares them as text. Unknown codes therefore fall through to "Unknown" exactly as they do there.

Behaviour of the code worth noting:

- An empty-string T/N/M (or pT/pN) code counts as missing, like an absent one, because the original tests falsiness rather than null.
- On the pathological path, a T3 code with an unrecognised subcode contributes no T3 factor. The clinical path gives a generic one (`StagingEngine.PathologicalStage`).
- The Wilms low-risk stage I primary option is a renamed copy of the 9-week VA entry, not the catalog entry itself.
- The necrosis finding carries no warning mark, unlike the other four pathology warnings.
