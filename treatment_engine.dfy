/**
 * Treatment recommendations of src/lib/treatmentEngine.ts: each recommender
 * starts from an empty recommendation and pushes catalog entries into its four
 * buckets (neoadjuvant, adjuvant, primary treatment, alternative options) under
 * stage branches. Catalog entries keep their id, category, English display name
 * and guideline references; the remaining bilingual text is not modelled.
 */
module TreatmentEngine {
  import opened Wrappers
  import opened JsString
  import opened CaseContext
  import opened StagingEngine

  // ---------------------------------------------------------------------------
  // Catalog
  // ---------------------------------------------------------------------------

  datatype TreatmentCategory = Surgery | TargetedTherapy | Immunotherapy | Surveillance | Combination

  datatype GuidelineSource = NCCN | ESMO | WHO

  datatype GuidelineReference = GuidelineReference(source: GuidelineSource, version: string, year: int)

  datatype TreatmentOption = TreatmentOption(
    id: string,
    category: TreatmentCategory,
    name: string,
    references: seq<GuidelineReference>)

  datatype TreatmentRecommendation = TreatmentRecommendation(
    neoadjuvant: seq<TreatmentOption>,
    adjuvant: seq<TreatmentOption>,
    primaryTreatment: seq<TreatmentOption>,
    alternativeOptions: seq<TreatmentOption>)

  const NoRecommendation := TreatmentRecommendation([], [], [], [])

  const Nccn2024 := GuidelineReference(NCCN, "4.2024", 2024)
  const Esmo2024 := GuidelineReference(ESMO, "2024", 2024)
  const SiopRtsg2016 := GuidelineReference(WHO, "SIOP-RTSG 2016", 2016)

  const PartialNephrectomyId := "partial-nephrectomy"
  const RadicalNephrectomyId := "radical-nephrectomy"
  const ActiveSurveillanceId := "active-surveillance"
  const PembrolizumabId := "pembrolizumab-adjuvant"
  const SystemicTherapyId := "systemic-therapy-advanced"
  const PreOpVAId := "pre-op-va"
  const PostOpVA9wId := "post-op-va-9w"
  const PostOpVAD28wId := "post-op-vad-28w"
  const RadiotherapyAbdominalId := "radiotherapy-abdominal"

  // `kidneyTreatments`
  const PartialNephrectomy := TreatmentOption(PartialNephrectomyId, Surgery, "Partial Nephrectomy", [Nccn2024, Esmo2024])
  const RadicalNephrectomy := TreatmentOption(RadicalNephrectomyId, Surgery, "Radical Nephrectomy", [Nccn2024, Esmo2024])
  const ActiveSurveillance := TreatmentOption(ActiveSurveillanceId, Surveillance, "Active Surveillance", [Nccn2024])
  const Pembrolizumab := TreatmentOption(PembrolizumabId, Immunotherapy, "Pembrolizumab (Adjuvant)", [Nccn2024, Esmo2024])
  const SystemicTherapyAdvanced :=
    TreatmentOption(SystemicTherapyId, Combination, "First-Line Systemic Therapy", [Nccn2024, Esmo2024])

  const KidneyTreatments: seq<TreatmentOption> :=
    [PartialNephrectomy, RadicalNephrectomy, ActiveSurveillance, Pembrolizumab, SystemicTherapyAdvanced]

  // `wilmsTreatments` (SIOP-RTSG 2016)
  const PreOpVA := TreatmentOption(PreOpVAId, Combination, "Pre-op VA (Vincristine + Actinomycin D)", [SiopRtsg2016])
  const PostOpVA9w := TreatmentOption(PostOpVA9wId, Combination, "Post-op VA (9 Weeks)", [SiopRtsg2016])
  const PostOpVAD28w := TreatmentOption(PostOpVAD28wId, Combination, "Post-op VAD (28 Weeks)", [SiopRtsg2016])
  const RadiotherapyAbdominal :=
    TreatmentOption(RadiotherapyAbdominalId, Combination, "Abdominal Radiotherapy", [SiopRtsg2016])

  const WilmsTreatments: seq<TreatmentOption> := [PreOpVA, PostOpVA9w, PostOpVAD28w, RadiotherapyAbdominal]

  /** Display name of the 9-week VA entry when it is offered as the primary option for low-risk stage 1. */
  const ObservationName := "Observation or 4w VA"

  // ---------------------------------------------------------------------------
  // Invariants of catalog lists and recommendations
  // ---------------------------------------------------------------------------

  /** No two entries of the list share an id. */
  predicate DistinctIds(options: seq<TreatmentOption>) {
    forall i, j :: 0 <= i < j < |options| ==> options[i].id != options[j].id
  }

  /** Every entry cites at least one guideline. */
  predicate Cited(options: seq<TreatmentOption>) {
    forall i :: 0 <= i < |options| ==> |options[i].references| > 0
  }

  /** No bucket holds the same option twice and every option returned is traceable to a guideline. */
  predicate WellFormedRecommendation(r: TreatmentRecommendation) {
    && DistinctIds(r.neoadjuvant) && DistinctIds(r.adjuvant)
    && DistinctIds(r.primaryTreatment) && DistinctIds(r.alternativeOptions)
    && Cited(r.neoadjuvant) && Cited(r.adjuvant) && Cited(r.primaryTreatment) && Cited(r.alternativeOptions)
  }

  /** No option is offered both as primary treatment and as an alternative to it. */
  predicate PrimaryAndAlternativesDisjoint(r: TreatmentRecommendation) {
    forall i, j :: 0 <= i < |r.primaryTreatment| && 0 <= j < |r.alternativeOptions| ==>
      r.primaryTreatment[i].id != r.alternativeOptions[j].id
  }

  /** A bucket of at most one cited option is well formed. */
  lemma SingleCitedOption(options: seq<TreatmentOption>)
    requires |options| <= 1
    requires |options| == 1 ==> |options[0].references| > 0
    ensures DistinctIds(options) && Cited(options)
  {
  }

  /** The kidney catalog entries have pairwise different ids. */
  lemma KidneyIdsDiffer()
    ensures PartialNephrectomyId != RadicalNephrectomyId && PartialNephrectomyId != ActiveSurveillanceId
    ensures RadicalNephrectomyId != ActiveSurveillanceId && ActiveSurveillanceId != SystemicTherapyId
    ensures RadicalNephrectomyId != SystemicTherapyId
  {
    // These character facts only serve to show that the ids differ.
    assert PartialNephrectomyId[0] == 'p' && RadicalNephrectomyId[0] == 'r' && ActiveSurveillanceId[0] == 'a';
  }

  /** The catalogs: every entry cited, and ids unique across both catalogs. */
  lemma CatalogsWellFormed()
    ensures Cited(KidneyTreatments) && Cited(WilmsTreatments)
    ensures DistinctIds(KidneyTreatments + WilmsTreatments)
  {
    var all := KidneyTreatments + WilmsTreatments;
    // These character facts only serve to show that the ids differ.
    assert PartialNephrectomyId[0] == 'p' && RadicalNephrectomyId[0] == 'r' && ActiveSurveillanceId[0] == 'a';
    assert PembrolizumabId[0] == 'p' && RadiotherapyAbdominalId[0] == 'r';
    forall i, j | 0 <= i < j < |all| ensures all[i].id != all[j].id {
    }
  }

  // ---------------------------------------------------------------------------
  // Case attributes the recommenders read
  // ---------------------------------------------------------------------------

  const T1aCode := "t1a"

  /** The clinical T code in lower case, or "" when it is absent. */
  function LowerT(caseData: CaseData): string {
    if caseData.tnm.t.Some? then ToLower(caseData.tnm.t.value) else ""
  }

  /** The clinical T code lower-cases to "t1a". */
  predicate ClinicalT1a(caseData: CaseData) {
    LowerT(caseData) == T1aCode
  }

  predicate TumorClearCell(caseData: CaseData) {
    caseData.tumor.histology == Some(TumorHistology.ClearCell)
  }

  predicate TumorGradeAtLeast3(caseData: CaseData) {
    caseData.tumor.grade.Some? && caseData.tumor.grade.value >= 3
  }

  function PathologyHistologyOf(caseData: CaseData): Option<PathologyHistology> {
    if caseData.pathology.Some? then caseData.pathology.value.histology else None
  }

  function PathologyGradeOf(caseData: CaseData): Option<Grade> {
    if caseData.pathology.Some? then caseData.pathology.value.grade else None
  }

  predicate PathologyClearCell(caseData: CaseData) {
    PathologyHistologyOf(caseData) == Some(PathologyHistology.ClearCell)
  }

  predicate Sarcomatoid(caseData: CaseData) {
    caseData.pathology.Some? && caseData.pathology.value.sarcomatoidFeatures
  }

  /**
   * Post-operative high-risk pathology: sarcomatoid features, vascular invasion,
   * a positive margin or grade 3 or 4. Lymphovascular invasion and necrosis do not count.
   */
  predicate HighRisk(caseData: CaseData) {
    && caseData.pathology.Some?
    && var p := caseData.pathology.value;
       p.sarcomatoidFeatures || p.vascularInvasion || p.marginStatus == Some(Positive)
       || (p.grade.Some? && p.grade.value >= 3)
  }

  lemma HighRiskIgnoresLymphovascularAndNecrosis(caseData: CaseData, p: PathologyData, lvi: bool, necrosis: bool)
    requires caseData.pathology == Some(p)
    ensures HighRisk(caseData) == HighRisk(caseData.(pathology := Some(p.(lymphNodeInvasion := lvi, necrosis := necrosis))))
  {
  }

  // ---------------------------------------------------------------------------
  // Plans: what each recommender returns, bucket by bucket
  // ---------------------------------------------------------------------------

  /** Pre-operative kidney plan for a clinical stage. */
  function KidneyPlan(caseData: CaseData, stage: int): TreatmentRecommendation {
    var adjuvantIndicated :=
      || (stage == 2 && TumorClearCell(caseData) && TumorGradeAtLeast3(caseData))
      || (stage == 3 && TumorClearCell(caseData));
    TreatmentRecommendation(
      neoadjuvant := [],
      adjuvant := if adjuvantIndicated then [Pembrolizumab] else [],
      primaryTreatment :=
        if stage == 1 then [PartialNephrectomy]
        else if stage == 2 || stage == 3 then [RadicalNephrectomy]
        else if stage == 4 then [SystemicTherapyAdvanced]
        else [],
      alternativeOptions :=
        if stage == 1 then [if ClinicalT1a(caseData) then ActiveSurveillance else RadicalNephrectomy]
        else if stage == 2 then [PartialNephrectomy]
        else if stage == 4 then [RadicalNephrectomy]
        else [])
  }

  /** Adjuvant pembrolizumab after surgery: clear cell, and a stage-dependent pathology trigger. */
  predicate PostOpAdjuvantIndicated(caseData: CaseData, stage: int) {
    && PathologyClearCell(caseData)
    && (|| (stage == 1 && HighRisk(caseData))
        || (stage == 2 && (Sarcomatoid(caseData) || (PathologyGradeOf(caseData).Some? && PathologyGradeOf(caseData).value >= 3)))
        || stage == 3
        || stage == 4)
  }

  /** Post-operative kidney plan for a pathological stage. */
  function PostOpPlan(caseData: CaseData, stage: int): TreatmentRecommendation {
    var adjuvantIndicated := PostOpAdjuvantIndicated(caseData, stage);
    TreatmentRecommendation(
      neoadjuvant := [],
      adjuvant := if adjuvantIndicated then [Pembrolizumab] else [],
      primaryTreatment :=
        if 1 <= stage <= 3 && !adjuvantIndicated then [ActiveSurveillance]
        else if stage == 4 && !PathologyClearCell(caseData) then [SystemicTherapyAdvanced]
        else [],
      alternativeOptions :=
        if stage == 1 && adjuvantIndicated then [ActiveSurveillance]
        else if stage == 2 && adjuvantIndicated && !Sarcomatoid(caseData) && PathologyGradeOf(caseData) == Some(3)
        then [ActiveSurveillance]
        else if stage == 4 && PathologyClearCell(caseData) then [SystemicTherapyAdvanced]
        else [])
  }

  /** Wilms plan for a stage under SIOP-RTSG 2016. */
  function WilmsPlan(caseData: CaseData, stage: int): TreatmentRecommendation {
    var lowRisk := PathologyHistologyOf(caseData) == Some(WilmsLow);
    var highRisk := PathologyHistologyOf(caseData) == Some(WilmsHigh);
    TreatmentRecommendation(
      neoadjuvant := [PreOpVA],
      adjuvant :=
        if stage == 1 then (if lowRisk then [] else [PostOpVA9w])
        else if stage == 2 then (if highRisk then [PostOpVAD28w, RadiotherapyAbdominal] else [PostOpVA9w])
        else if stage == 3 then [PostOpVAD28w, RadiotherapyAbdominal]
        else if stage == 4 then [PostOpVAD28w]
        else [],
      primaryTreatment := if stage == 1 && lowRisk then [PostOpVA9w.(name := ObservationName)] else [],
      alternativeOptions := [])
  }

  // ---------------------------------------------------------------------------
  // Properties of the plans
  // ---------------------------------------------------------------------------

  /**
   * Pre-operative kidney plan: nothing neoadjuvant; no treatment at all outside
   * stages I-IV (the "Unknown" stage 0 included); exactly one primary option
   * in stages I-IV, a surgical one in I-III and systemic therapy in IV.
   * Primary and alternative options by stage: I partial nephrectomy, with
   * surveillance for T1a and radical nephrectomy otherwise; II radical with
   * partial as the alternative; III radical alone; IV systemic therapy with
   * cytoreductive radical nephrectomy as the alternative.
   */
  lemma KidneyPlanByStage(caseData: CaseData, stage: int)
    ensures KidneyPlan(caseData, stage).neoadjuvant == []
    ensures !(1 <= stage <= 4) ==> KidneyPlan(caseData, stage) == NoRecommendation
    ensures 1 <= stage <= 4 ==> |KidneyPlan(caseData, stage).primaryTreatment| == 1
    ensures 1 <= stage <= 4 ==>
      (KidneyPlan(caseData, stage).primaryTreatment[0].category == Surgery <==> stage <= 3)
    ensures KidneyPlan(caseData, 1).primaryTreatment == [PartialNephrectomy]
    ensures ClinicalT1a(caseData) ==> KidneyPlan(caseData, 1).alternativeOptions == [ActiveSurveillance]
    ensures !ClinicalT1a(caseData) ==> KidneyPlan(caseData, 1).alternativeOptions == [RadicalNephrectomy]
    ensures KidneyPlan(caseData, 2).primaryTreatment == [RadicalNephrectomy]
    ensures KidneyPlan(caseData, 2).alternativeOptions == [PartialNephrectomy]
    ensures KidneyPlan(caseData, 3).primaryTreatment == [RadicalNephrectomy]
    ensures KidneyPlan(caseData, 3).alternativeOptions == []
    ensures KidneyPlan(caseData, 4).primaryTreatment == [SystemicTherapyAdvanced]
    ensures KidneyPlan(caseData, 4).alternativeOptions == [RadicalNephrectomy]
  {
  }

  /** Active surveillance is offered pre-operatively exactly for a stage I tumour coded T1a. */
  lemma SurveillanceOnlyForT1a(caseData: CaseData, stage: int)
    ensures ActiveSurveillance in KidneyPlan(caseData, stage).alternativeOptions
      <==> stage == 1 && ClinicalT1a(caseData)
  {
    KidneyIdsDiffer();
  }

  /**
   * Pre-operative adjuvant therapy is pembrolizumab or nothing. It needs
   * clear-cell histology and stage II or III. At stage II it is given exactly
   * for grade 3 or 4, and at stage III for every clear-cell tumour.
   */
  lemma KidneyAdjuvantOnlyClearCell(caseData: CaseData, stage: int)
    ensures KidneyPlan(caseData, stage).adjuvant != [Pembrolizumab] ==> KidneyPlan(caseData, stage).adjuvant == []
    ensures KidneyPlan(caseData, stage).adjuvant != [] ==> TumorClearCell(caseData) && (stage == 2 || stage == 3)
    ensures KidneyPlan(caseData, 2).adjuvant == [Pembrolizumab]
      <==> TumorClearCell(caseData) && TumorGradeAtLeast3(caseData)
    ensures KidneyPlan(caseData, 3).adjuvant == [Pembrolizumab] <==> TumorClearCell(caseData)
  {
  }

  /** Every bucket of the kidney plan is free of duplicates and cited, and the alternatives differ from the primary option. */
  lemma KidneyPlanWellFormed(caseData: CaseData, stage: int)
    ensures WellFormedRecommendation(KidneyPlan(caseData, stage))
    ensures PrimaryAndAlternativesDisjoint(KidneyPlan(caseData, stage))
  {
    KidneyIdsDiffer();
    var r := KidneyPlan(caseData, stage);
    SingleCitedOption(r.neoadjuvant);
    SingleCitedOption(r.adjuvant);
    SingleCitedOption(r.primaryTreatment);
    SingleCitedOption(r.alternativeOptions);
  }

  /**
   * Post-operative kidney plan: nothing neoadjuvant, nothing outside stages
   * I-IV, and in stages I-IV exactly one of "adjuvant therapy" and "primary
   * treatment" is given.
   */
  lemma PostOpPlanByStage(caseData: CaseData, stage: int)
    ensures PostOpPlan(caseData, stage).neoadjuvant == []
    ensures !(1 <= stage <= 4) ==> PostOpPlan(caseData, stage) == NoRecommendation
    ensures 1 <= stage <= 4 ==>
      (PostOpPlan(caseData, stage).adjuvant == []) != (PostOpPlan(caseData, stage).primaryTreatment == [])
  {
  }

  /**
   * Without clear-cell histology there is never adjuvant therapy nor an
   * alternative option: surveillance in stages I-III, systemic therapy in IV.
   */
  lemma PostOpNonClearCell(caseData: CaseData, stage: int)
    requires !PathologyClearCell(caseData)
    ensures PostOpPlan(caseData, stage).adjuvant == []
    ensures PostOpPlan(caseData, stage).alternativeOptions == []
    ensures 1 <= stage <= 3 ==> PostOpPlan(caseData, stage).primaryTreatment == [ActiveSurveillance]
    ensures stage == 4 ==> PostOpPlan(caseData, stage).primaryTreatment == [SystemicTherapyAdvanced]
  {
  }

  /** Clear cell, stage I, any high-risk finding: adjuvant pembrolizumab with surveillance as the alternative. */
  lemma PostOpHighRiskStageOne(caseData: CaseData)
    requires PathologyClearCell(caseData) && HighRisk(caseData)
    ensures PostOpPlan(caseData, 1).adjuvant == [Pembrolizumab]
    ensures PostOpPlan(caseData, 1).alternativeOptions == [ActiveSurveillance]
    ensures PostOpPlan(caseData, 1).primaryTreatment == []
  {
  }

  /** Any stage I case other than a high-risk clear-cell one gets surveillance alone. */
  lemma PostOpLowRiskStageOne(caseData: CaseData)
    requires !(PathologyClearCell(caseData) && HighRisk(caseData))
    ensures PostOpPlan(caseData, 1) == TreatmentRecommendation([], [], [ActiveSurveillance], [])
  {
  }

  /**
   * The three stage II tiers: a clear-cell tumour of grade 4 or with sarcomatoid
   * features gets adjuvant pembrolizumab alone; a clear-cell grade 3 tumour gets
   * adjuvant pembrolizumab with surveillance as the alternative; every other
   * case, non-clear-cell histology included, gets surveillance as primary.
   */
  lemma PostOpStageTwoTiers(caseData: CaseData)
    ensures PathologyClearCell(caseData) && (PathologyGradeOf(caseData) == Some(4) || Sarcomatoid(caseData))
      ==> PostOpPlan(caseData, 2) == TreatmentRecommendation([], [Pembrolizumab], [], [])
    ensures PathologyClearCell(caseData) && !Sarcomatoid(caseData) && PathologyGradeOf(caseData) == Some(3)
      ==> PostOpPlan(caseData, 2) == TreatmentRecommendation([], [Pembrolizumab], [], [ActiveSurveillance])
    ensures !PathologyClearCell(caseData)
         || (!Sarcomatoid(caseData) && PathologyGradeOf(caseData) != Some(3) && PathologyGradeOf(caseData) != Some(4))
      ==> PostOpPlan(caseData, 2) == TreatmentRecommendation([], [], [ActiveSurveillance], [])
  {
  }

  /** Clear cell at stages III and IV: adjuvant pembrolizumab, with systemic therapy as the stage IV alternative. */
  lemma PostOpClearCellAdvanced(caseData: CaseData)
    requires PathologyClearCell(caseData)
    ensures PostOpPlan(caseData, 3) == TreatmentRecommendation([], [Pembrolizumab], [], [])
    ensures PostOpPlan(caseData, 4) == TreatmentRecommendation([], [Pembrolizumab], [], [SystemicTherapyAdvanced])
  {
  }

  /**
   * In stage II only sarcomatoid features and grade count: vascular invasion
   * and the margin status, which trigger adjuvant therapy in stage I, leave the
   * stage II plan unchanged.
   */
  lemma PostOpStageTwoIgnoresInvasionAndMargins(caseData: CaseData, p: PathologyData, vascular: bool, margin: Option<MarginStatus>)
    requires caseData.pathology == Some(p)
    ensures PostOpPlan(caseData.(pathology := Some(p.(vascularInvasion := vascular, marginStatus := margin))), 2)
      == PostOpPlan(caseData, 2)
  {
  }

  /** Stage IV after surgery always includes first-line systemic therapy, as primary treatment or alongside adjuvant therapy. */
  lemma PostOpStageFourSystemic(caseData: CaseData)
    ensures SystemicTherapyAdvanced in PostOpPlan(caseData, 4).primaryTreatment + PostOpPlan(caseData, 4).alternativeOptions
  {
  }

  /** Every bucket of the post-operative plan is free of duplicates and cited, and the alternatives differ from the primary option. */
  lemma PostOpPlanWellFormed(caseData: CaseData, stage: int)
    ensures WellFormedRecommendation(PostOpPlan(caseData, stage))
    ensures PrimaryAndAlternativesDisjoint(PostOpPlan(caseData, stage))
  {
    var r := PostOpPlan(caseData, stage);
    SingleCitedOption(r.neoadjuvant);
    SingleCitedOption(r.adjuvant);
    SingleCitedOption(r.primaryTreatment);
    SingleCitedOption(r.alternativeOptions);
  }

  /**
   * Wilms plan: pre-operative VA always, never an alternative option; the
   * 28-week VAD course exactly for high-risk stage II and stages III-IV;
   * abdominal radiotherapy exactly for high-risk stage II and stage III; the
   * 9-week VA course exactly for the remaining stage I-II cases except low-risk
   * stage I, which is offered observation instead. The adjuvant lists are
   * given in full, in order of preference: VAD before radiotherapy.
   */
  lemma WilmsIntensityByStage(caseData: CaseData, stage: int)
    ensures WilmsPlan(caseData, stage).neoadjuvant == [PreOpVA]
    ensures WilmsPlan(caseData, stage).alternativeOptions == []
    ensures PostOpVAD28w in WilmsPlan(caseData, stage).adjuvant <==>
      (stage == 2 && PathologyHistologyOf(caseData) == Some(WilmsHigh)) || stage == 3 || stage == 4
    ensures RadiotherapyAbdominal in WilmsPlan(caseData, stage).adjuvant <==>
      (stage == 2 && PathologyHistologyOf(caseData) == Some(WilmsHigh)) || stage == 3
    ensures PostOpVA9w in WilmsPlan(caseData, stage).adjuvant <==>
      (stage == 1 && PathologyHistologyOf(caseData) != Some(WilmsLow))
      || (stage == 2 && PathologyHistologyOf(caseData) != Some(WilmsHigh))
    ensures 1 <= stage <= 4 ==>
      |WilmsPlan(caseData, stage).adjuvant| + |WilmsPlan(caseData, stage).primaryTreatment| >= 1
    ensures WilmsPlan(caseData, 1).primaryTreatment ==
      (if PathologyHistologyOf(caseData) == Some(WilmsLow) then [PostOpVA9w.(name := ObservationName)] else [])
    ensures WilmsPlan(caseData, 1).adjuvant ==
      (if PathologyHistologyOf(caseData) == Some(WilmsLow) then [] else [PostOpVA9w])
    ensures stage != 1 ==> WilmsPlan(caseData, stage).primaryTreatment == []
    ensures WilmsPlan(caseData, 2).adjuvant ==
      (if PathologyHistologyOf(caseData) == Some(WilmsHigh) then [PostOpVAD28w, RadiotherapyAbdominal] else [PostOpVA9w])
    ensures WilmsPlan(caseData, 3).adjuvant == [PostOpVAD28w, RadiotherapyAbdominal]
    ensures WilmsPlan(caseData, 4).adjuvant == [PostOpVAD28w]
    ensures !(1 <= stage <= 4) ==> WilmsPlan(caseData, stage).adjuvant == []
  {
    // These length facts only serve to show that the ids differ.
    assert |PostOpVA9wId| != |PostOpVAD28wId| && |PostOpVA9wId| != |RadiotherapyAbdominalId|;
    assert |PostOpVAD28wId| != |RadiotherapyAbdominalId|;
  }

  /** The low-risk stage I "observation" entry is the 9-week VA entry renamed: same id, category and references. */
  lemma WilmsObservationIsRenamedVA(caseData: CaseData, stage: int)
    ensures forall o :: o in WilmsPlan(caseData, stage).primaryTreatment ==>
      o.id == PostOpVA9wId && o.category == PostOpVA9w.category && o.references == PostOpVA9w.references
      && o.name == ObservationName
  {
  }

  /** Every bucket of the Wilms plan is free of duplicates and cited. */
  lemma WilmsPlanWellFormed(caseData: CaseData, stage: int)
    ensures WellFormedRecommendation(WilmsPlan(caseData, stage))
    ensures PrimaryAndAlternativesDisjoint(WilmsPlan(caseData, stage))
  {
    var r := WilmsPlan(caseData, stage);
    // This length fact only serves to show that the ids differ.
    assert |PostOpVAD28wId| != |RadiotherapyAbdominalId|;
    SingleCitedOption(r.neoadjuvant);
    SingleCitedOption(r.primaryTreatment);
    SingleCitedOption(r.alternativeOptions);
  }

  // ---------------------------------------------------------------------------
  // Recommenders
  // ---------------------------------------------------------------------------

  /** `getKidneyTreatmentRecommendations`: the pre-operative (clinical) path. */
  method GetKidneyTreatmentRecommendations(caseData: CaseData, staging: StagingResult)
    returns (recommendation: TreatmentRecommendation)
    ensures recommendation == KidneyPlan(caseData, staging.stageNumeric)
  {
    recommendation := NoRecommendation;
    var stageNumeric := staging.stageNumeric;
    var histology := caseData.tumor.histology;
    var grade := caseData.tumor.grade;
    var tValue := LowerT(caseData);

    if stageNumeric == 1 {
      if tValue == T1aCode {
        recommendation := recommendation.(primaryTreatment := recommendation.primaryTreatment + [PartialNephrectomy]);
        recommendation := recommendation.(alternativeOptions := recommendation.alternativeOptions + [ActiveSurveillance]);
      } else {
        recommendation := recommendation.(primaryTreatment := recommendation.primaryTreatment + [PartialNephrectomy]);
        recommendation := recommendation.(alternativeOptions := recommendation.alternativeOptions + [RadicalNephrectomy]);
      }
    }

    if stageNumeric == 2 {
      recommendation := recommendation.(primaryTreatment := recommendation.primaryTreatment + [RadicalNephrectomy]);
      recommendation := recommendation.(alternativeOptions := recommendation.alternativeOptions + [PartialNephrectomy]);
      if histology == Some(TumorHistology.ClearCell) && grade.Some? && grade.value >= 3 {
        recommendation := recommendation.(adjuvant := recommendation.adjuvant + [Pembrolizumab]);
      }
    }

    if stageNumeric == 3 {
      recommendation := recommendation.(primaryTreatment := recommendation.primaryTreatment + [RadicalNephrectomy]);
      if histology == Some(TumorHistology.ClearCell) {
        recommendation := recommendation.(adjuvant := recommendation.adjuvant + [Pembrolizumab]);
      }
    }

    if stageNumeric == 4 {
      recommendation := recommendation.(primaryTreatment := recommendation.primaryTreatment + [SystemicTherapyAdvanced]);
      recommendation := recommendation.(alternativeOptions := recommendation.alternativeOptions + [RadicalNephrectomy]);
    }
  }

  /** `getPostOpTreatmentRecommendations`: the post-operative path, driven by pathology risk. */
  method GetPostOpTreatmentRecommendations(caseData: CaseData, staging: StagingResult)
    returns (recommendation: TreatmentRecommendation)
    ensures recommendation == PostOpPlan(caseData, staging.stageNumeric)
  {
    recommendation := NoRecommendation;
    var stageNumeric := staging.stageNumeric;
    var pathology := caseData.pathology;
    var histology := if pathology.Some? then pathology.value.histology else None;
    var grade := if pathology.Some? then pathology.value.grade else None;

    var hasHighRiskFeatures :=
      pathology.Some? &&
      (pathology.value.sarcomatoidFeatures
       || pathology.value.vascularInvasion
       || pathology.value.marginStatus == Some(Positive)
       || (grade.Some? && grade.value >= 3));

    if stageNumeric == 1 {
      if hasHighRiskFeatures && histology == Some(PathologyHistology.ClearCell) {
        recommendation := recommendation.(adjuvant := recommendation.adjuvant + [Pembrolizumab]);
        recommendation := recommendation.(alternativeOptions := recommendation.alternativeOptions + [ActiveSurveillance]);
      } else {
        recommendation := recommendation.(primaryTreatment := recommendation.primaryTreatment + [ActiveSurveillance]);
      }
    }

    if stageNumeric == 2 {
      if histology == Some(PathologyHistology.ClearCell) {
        if grade == Some(4) || (pathology.Some? && pathology.value.sarcomatoidFeatures) {
          recommendation := recommendation.(adjuvant := recommendation.adjuvant + [Pembrolizumab]);
        } else if grade.Some? && grade.value >= 3 {
          recommendation := recommendation.(adjuvant := recommendation.adjuvant + [Pembrolizumab]);
          recommendation := recommendation.(alternativeOptions := recommendation.alternativeOptions + [ActiveSurveillance]);
        } else {
          recommendation := recommendation.(primaryTreatment := recommendation.primaryTreatment + [ActiveSurveillance]);
        }
      } else {
        recommendation := recommendation.(primaryTreatment := recommendation.primaryTreatment + [ActiveSurveillance]);
      }
    }

    if stageNumeric == 3 {
      if histology == Some(PathologyHistology.ClearCell) {
        recommendation := recommendation.(adjuvant := recommendation.adjuvant + [Pembrolizumab]);
      } else {
        recommendation := recommendation.(primaryTreatment := recommendation.primaryTreatment + [ActiveSurveillance]);
      }
    }

    if stageNumeric == 4 {
      if histology == Some(PathologyHistology.ClearCell) {
        recommendation := recommendation.(adjuvant := recommendation.adjuvant + [Pembrolizumab]);
        recommendation := recommendation.(alternativeOptions := recommendation.alternativeOptions + [SystemicTherapyAdvanced]);
      } else {
        recommendation := recommendation.(primaryTreatment := recommendation.primaryTreatment + [SystemicTherapyAdvanced]);
      }
    }
  }

  /** `getWilmsTreatmentRecommendations`: SIOP-RTSG 2016 for Wilms tumour. */
  method GetWilmsTreatmentRecommendations(caseData: CaseData, staging: StagingResult)
    returns (recommendation: TreatmentRecommendation)
    ensures recommendation == WilmsPlan(caseData, staging.stageNumeric)
  {
    recommendation := NoRecommendation;
    var stageNumeric := staging.stageNumeric;
    var pathology := caseData.pathology;
    var histology := if pathology.Some? then pathology.value.histology else None;

    recommendation := recommendation.(neoadjuvant := recommendation.neoadjuvant + [PreOpVA]);

    if stageNumeric == 1 {
      if histology == Some(WilmsLow) {
        recommendation := recommendation.(primaryTreatment :=
          recommendation.primaryTreatment + [PostOpVA9w.(name := ObservationName)]);
      } else {
        recommendation := recommendation.(adjuvant := recommendation.adjuvant + [PostOpVA9w]);
      }
    } else if stageNumeric == 2 {
      if histology == Some(WilmsHigh) {
        recommendation := recommendation.(adjuvant := recommendation.adjuvant + [PostOpVAD28w]);
        recommendation := recommendation.(adjuvant := recommendation.adjuvant + [RadiotherapyAbdominal]);
      } else {
        recommendation := recommendation.(adjuvant := recommendation.adjuvant + [PostOpVA9w]);
      }
    } else if stageNumeric == 3 {
      recommendation := recommendation.(adjuvant := recommendation.adjuvant + [PostOpVAD28w]);
      recommendation := recommendation.(adjuvant := recommendation.adjuvant + [RadiotherapyAbdominal]);
    } else if stageNumeric == 4 {
      recommendation := recommendation.(adjuvant := recommendation.adjuvant + [PostOpVAD28w]);
    }
  }
}
