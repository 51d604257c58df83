/**
 * Kidney (renal cell carcinoma) staging of src/lib/stagingEngine.ts: the anatomic
 * stage groups of the AJCC Cancer Staging Manual, 8th edition, for the kidney,
 * from clinical TNM codes or from pathological pTNM codes plus pathology findings.
 *
 * Both stagers are first-match-wins cascades over lower-cased codes. The
 * ordered rule table `AjccKidneyRules` states the stage grouping on its own,
 * and the lemmas below show that both cascades compute exactly its first match.
 */
module StagingEngine {
  import opened Wrappers
  import opened JsString
  import opened CaseContext

  datatype StagingResult = StagingResult(
    stage: string,
    stageNumeric: int,
    explanation: string,
    factors: seq<string>)

  /** The stage label that goes with a numeric stage: 0 is "Unknown", 1..4 are I..IV. */
  function StageLabel(k: int): string {
    if k == 1 then "I"
    else if k == 2 then "II"
    else if k == 3 then "III"
    else if k == 4 then "IV"
    else "Unknown"
  }

  /** What every staging result promises: a stage pair from the five groups and at least one factor. */
  predicate WellFormed(r: StagingResult) {
    0 <= r.stageNumeric <= 4 && r.stage == StageLabel(r.stageNumeric) && |r.factors| > 0
  }

  /** JavaScript falsiness of an optional code: `null` and the empty string are both missing. */
  predicate Missing(s: Option<string>) {
    s.None? || s.value == ""
  }

  // ---------------------------------------------------------------------------
  // The AJCC stage grouping as an ordered table (the first rule that holds wins)
  // ---------------------------------------------------------------------------

  datatype Criterion =
    | MetastasisIs(m: string)
    | TumorAndMetastasisAre(t: string, m: string)
    | NodeAndMetastasisAre(n: string, m: string)
    | TumorPrefixNodeAndMetastasisAre(tPrefix: string, n: string, m: string)

  datatype Rule = Rule(criterion: Criterion, stageNumeric: nat)

  /** Whether a criterion holds of lower-cased codes `t`, `n`, `m`. */
  predicate Holds(c: Criterion, t: string, n: string, m: string) {
    match c
    case MetastasisIs(m') => m == m'
    case TumorAndMetastasisAre(t', m') => t == t' && m == m'
    case NodeAndMetastasisAre(n', m') => n == n' && m == m'
    case TumorPrefixNodeAndMetastasisAre(p, n', m') => StartsWith(t, p) && n == n' && m == m'
  }

  /** M1 → IV; T4 M0 → IV; N1 M0 → III; T3 N0 M0 → III; T2 N0 M0 → II; T1 N0 M0 → I. */
  const AjccKidneyRules: seq<Rule> := [
    Rule(MetastasisIs("m1"), 4),
    Rule(TumorAndMetastasisAre("t4", "m0"), 4),
    Rule(NodeAndMetastasisAre("n1", "m0"), 3),
    Rule(TumorPrefixNodeAndMetastasisAre("t3", "n0", "m0"), 3),
    Rule(TumorPrefixNodeAndMetastasisAre("t2", "n0", "m0"), 2),
    Rule(TumorPrefixNodeAndMetastasisAre("t1", "n0", "m0"), 1)
  ]

  /** The numeric stage of the first rule that holds, or 0 (Unknown) when none does. */
  function FirstMatchStage(rules: seq<Rule>, t: string, n: string, m: string): (k: nat)
    ensures k == 0 || exists i :: 0 <= i < |rules| && rules[i].stageNumeric == k
  {
    if rules == [] then 0
    else if Holds(rules[0].criterion, t, n, m) then rules[0].stageNumeric
    else FirstMatchStage(rules[1..], t, n, m)
  }

  // ---------------------------------------------------------------------------
  // Clinical staging: calculateKidneyStage
  // ---------------------------------------------------------------------------

  /** `calculateKidneyStage`: `None` exactly when a code is missing. */
  function CalculateKidneyStage(tnm: TNMData): (r: Option<StagingResult>)
    ensures r.None? <==> Missing(tnm.t) || Missing(tnm.n) || Missing(tnm.m)
    ensures r.Some? ==> WellFormed(r.value)
  {
    if Missing(tnm.t) || Missing(tnm.n) || Missing(tnm.m) then None
    else Some(ClinicalStage(tnm.t.value, tnm.n.value, tnm.m.value))
  }

  // Message texts of the clinical path.
  const ExplainM1 := "Stage IV due to presence of distant metastasis (M1)"
  const ExplainT4 := "Stage IV due to tumor invasion beyond Gerota fascia (T4)"
  const ExplainN1 := "Stage III due to regional lymph node metastasis (N1)"
  const ExplainT3 := "Stage III due to tumor extension beyond kidney ("
  const ExplainT2 := "Stage II: Large tumor (>7 cm) limited to kidney ("
  const ExplainT1 := "Stage I: Small tumor (≤7 cm) limited to kidney ("
  const ExplainUnknown := "Unable to determine stage with provided TNM values"
  const DistantMetastasisPresent := "Distant metastasis present"
  const RegardlessOfSize := "Regardless of primary tumor size"
  const RegardlessOfNodes := "Regardless of lymph node involvement"
  const BeyondGerota := "Tumor extends beyond Gerota fascia"
  const AdjacentOrgans := "May involve adjacent organs"
  const AdrenalExtension := "Ipsilateral adrenal gland involvement via contiguous extension"
  const NodeMetastasisPresent := "Regional lymph node metastasis present"
  const NoDistantMetastasis := "No distant metastasis"
  const PrimaryTumorClassification := "Primary tumor classification: "
  const T3aFactor := "Tumor extends into renal vein or perinephric fat"
  const T3bFactor := "Tumor extends into vena cava below diaphragm"
  const T3cFactor := "Tumor extends into vena cava above diaphragm or invades vena cava wall"
  const T3OtherFactor := "Tumor extends into major veins or perinephric tissues"
  const NoRegionalNodeMetastasis := "No regional lymph node metastasis"
  const T2aFactor := "Tumor >7 cm and ≤10 cm"
  const T2bFactor := "Tumor >10 cm"
  const T1aFactor := "Tumor ≤4 cm"
  const T1bFactor := "Tumor >4 cm and ≤7 cm"
  const LimitedToKidney := "Tumor limited to kidney"
  const VerifyTNM := "Please verify TNM classification"

  /** `calculateKidneyStage` once all three codes are present. */
  function ClinicalStage(t: string, n: string, m: string): (r: StagingResult)
    ensures WellFormed(r)
  {
    ClinicalCascade(ToLower(t), ToLower(n), ToLower(m), ToUpper(t), ToUpper(n), ToUpper(m))
  }

  /**
   * The cascade of `calculateKidneyStage`: it branches on the lower-cased codes
   * `tValue`, `nValue`, `mValue` and shows the upper-cased codes `tUpper`, `nUpper`, `mUpper`.
   */
  function ClinicalCascade(tValue: string, nValue: string, mValue: string,
                           tUpper: string, nUpper: string, mUpper: string): (r: StagingResult)
    ensures WellFormed(r)
  {
    if mValue == "m1" then
      StagingResult("IV", 4, ExplainM1, [DistantMetastasisPresent, RegardlessOfSize, RegardlessOfNodes])
    else if tValue == "t4" && mValue == "m0" then
      StagingResult("IV", 4, ExplainT4, [BeyondGerota, AdjacentOrgans, AdrenalExtension])
    else if nValue == "n1" && mValue == "m0" then
      StagingResult("III", 3, ExplainN1,
        [NodeMetastasisPresent, NoDistantMetastasis, PrimaryTumorClassification + tUpper])
    else if StartsWith(tValue, "t3") && nValue == "n0" && mValue == "m0" then
      var t3Factors :=
        if tValue == "t3a" then [T3aFactor]
        else if tValue == "t3b" then [T3bFactor]
        else if tValue == "t3c" then [T3cFactor]
        else [T3OtherFactor];
      StagingResult("III", 3, ExplainT3 + tUpper + ")",
        t3Factors + [NoRegionalNodeMetastasis, NoDistantMetastasis])
    else if StartsWith(tValue, "t2") && nValue == "n0" && mValue == "m0" then
      StagingResult("II", 2, ExplainT2 + tUpper + ")",
        [if tValue == "t2a" then T2aFactor else T2bFactor,
         LimitedToKidney, NoRegionalNodeMetastasis, NoDistantMetastasis])
    else if StartsWith(tValue, "t1") && nValue == "n0" && mValue == "m0" then
      StagingResult("I", 1, ExplainT1 + tUpper + ")",
        [if tValue == "t1a" then T1aFactor else T1bFactor,
         LimitedToKidney, NoRegionalNodeMetastasis, NoDistantMetastasis])
    else
      StagingResult("Unknown", 0, ExplainUnknown,
        ["T: " + tUpper, "N: " + nUpper, "M: " + mUpper, VerifyTNM])
  }

  // ---------------------------------------------------------------------------
  // Pathological staging: calculatePostOpKidneyStage
  // ---------------------------------------------------------------------------

  function HistologyName(h: PathologyHistology): string {
    match h
    case ClearCell => "clearCell"
    case Papillary => "papillary"
    case Chromophobe => "chromophobe"
    case Sarcomatoid => "sarcomatoid"
    case Other => "other"
    case WilmsLow => "wilms-low"
    case WilmsIntermediate => "wilms-intermediate"
    case WilmsHigh => "wilms-high"
    case Mesoblastic => "mesoblastic"
  }

  /** The decimal digit of a grade. */
  function GradeText(g: Grade): string {
    [('0' as int + g) as char]
  }

  const HistologyPrefix := "Histology: "
  const GradePrefix := "Grade: "
  const GradeSuffix := "/4 (ISUP/WHO)"
  const PositiveMarginFactor := "⚠️ Positive surgical margins"
  const VascularInvasionFactor := "⚠️ Vascular invasion present"
  const LymphovascularInvasionFactor := "⚠️ Lymphovascular invasion"
  const SarcomatoidFactor := "⚠️ Sarcomatoid features present"
  const NecrosisFactor := "Tumor necrosis present"

  /**
   * The pathology findings that `calculatePostOpKidneyStage` appends to every
   * result, in the order they are pushed: histology, grade, positive margin,
   * vascular invasion, lymphovascular invasion, sarcomatoid features, necrosis.
   */
  function PathologyFactors(pathology: Option<PathologyData>): (f: seq<string>)
    ensures pathology.None? ==> f == []
    ensures |f| <= 7
  {
    match pathology
    case None => []
    case Some(p) =>
      (if p.histology.Some? then [HistologyPrefix + HistologyName(p.histology.value)] else [])
      + (if p.grade.Some? then [GradePrefix + GradeText(p.grade.value) + GradeSuffix] else [])
      + (if p.marginStatus == Some(Positive) then [PositiveMarginFactor] else [])
      + (if p.vascularInvasion then [VascularInvasionFactor] else [])
      + (if p.lymphNodeInvasion then [LymphovascularInvasionFactor] else [])
      + (if p.sarcomatoidFeatures then [SarcomatoidFactor] else [])
      + (if p.necrosis then [NecrosisFactor] else [])
  }

  /** `pT.toLowerCase().replace('pt', 't')` */
  function NormalizeT(pT: string): string { ReplaceFirst(ToLower(pT), "pt", "t") }

  /** `pN.toLowerCase().replace('pn', 'n')` */
  function NormalizeN(pN: string): string { ReplaceFirst(ToLower(pN), "pn", "n") }

  /** `(pM || 'pm0').toLowerCase().replace('pm', 'm')`: a missing pM reads as pM0. */
  function NormalizeM(pM: Option<string>): string {
    ReplaceFirst(ToLower(if Missing(pM) then "pm0" else pM.value), "pm", "m")
  }

  /**
   * `calculatePostOpKidneyStage`: `None` exactly when pT or pN is missing; the
   * pathology factors always close the factor list.
   */
  function CalculatePostOpKidneyStage(postOpTNM: PostOpTNMData, pathology: Option<PathologyData>)
    : (r: Option<StagingResult>)
    ensures r.None? <==> Missing(postOpTNM.pT) || Missing(postOpTNM.pN)
    ensures r.Some? ==> WellFormed(r.value)
    ensures r.Some? ==> |PathologyFactors(pathology)| < |r.value.factors|
    ensures r.Some? ==>
      r.value.factors[|r.value.factors| - |PathologyFactors(pathology)|..] == PathologyFactors(pathology)
  {
    if Missing(postOpTNM.pT) || Missing(postOpTNM.pN) then None
    else Some(PathologicalStage(postOpTNM.pT.value, postOpTNM.pN.value, postOpTNM.pM, pathology))
  }

  // Message texts of the pathological path.
  const ExplainPM1 := "Stage IV (Pathological) due to distant metastasis (pM1)"
  const ExplainPT4 := "Stage IV (Pathological) due to tumor beyond Gerota fascia (pT4)"
  const ExplainPN1 := "Stage III (Pathological) due to lymph node metastasis (pN1)"
  const ExplainPT3 := "Stage III (Pathological) - "
  const ExplainPT2 := "Stage II (Pathological) - Large tumor >7cm ("
  const ExplainPT1 := "Stage I (Pathological) - Small tumor ≤7cm ("
  const ExplainPUnknown := "Unable to determine pathological stage"
  const MetastasisConfirmed := "Distant metastasis confirmed pathologically"
  const NodeMetastasisConfirmed := "Regional lymph node metastasis confirmed"
  const NoNodeMetastasis := "No lymph node metastasis"
  const PT3aFactor := "Tumor in renal vein or perinephric fat (pT3a)"
  const PT3bFactor := "Tumor in vena cava below diaphragm (pT3b)"
  const PT3cFactor := "Tumor in vena cava above diaphragm (pT3c)"
  const PrimaryTumor := "Primary tumor: "
  const LymphNodes := "Lymph nodes: "
  const NotSpecified := "Not specified"

  /** The cascade of `calculatePostOpKidneyStage` once pT and pN are present. */
  function PathologicalStage(pT: string, pN: string, pM: Option<string>, pathology: Option<PathologyData>)
    : (r: StagingResult)
    ensures WellFormed(r)
    ensures |PathologyFactors(pathology)| < |r.factors|
    ensures r.factors[|r.factors| - |PathologyFactors(pathology)|..] == PathologyFactors(pathology)
  {
    var tValue := NormalizeT(pT);
    var nValue := NormalizeN(pN);
    var mValue := NormalizeM(pM);
    var pathologyFactors := PathologyFactors(pathology);
    if mValue == "m1" then
      StagingResult("IV", 4, ExplainPM1,
        [MetastasisConfirmed, PrimaryTumor + pT, LymphNodes + pN] + pathologyFactors)
    else if tValue == "t4" && mValue == "m0" then
      StagingResult("IV", 4, ExplainPT4, [BeyondGerota, LymphNodes + pN] + pathologyFactors)
    else if nValue == "n1" && mValue == "m0" then
      StagingResult("III", 3, ExplainPN1, [NodeMetastasisConfirmed, PrimaryTumor + pT] + pathologyFactors)
    else if StartsWith(tValue, "t3") && nValue == "n0" && mValue == "m0" then
      // Unlike the clinical path, an unrecognised T3 subcode contributes no factor.
      var t3Factors :=
        if tValue == "t3a" then [PT3aFactor]
        else if tValue == "t3b" then [PT3bFactor]
        else if tValue == "t3c" then [PT3cFactor]
        else [];
      StagingResult("III", 3, ExplainPT3 + pT,
        t3Factors + [NoNodeMetastasis, NoDistantMetastasis] + pathologyFactors)
    else if StartsWith(tValue, "t2") && nValue == "n0" && mValue == "m0" then
      StagingResult("II", 2, ExplainPT2 + pT + ")",
        [if tValue == "t2a" then T2aFactor else T2bFactor, LimitedToKidney, NoNodeMetastasis]
        + pathologyFactors)
    else if StartsWith(tValue, "t1") && nValue == "n0" && mValue == "m0" then
      StagingResult("I", 1, ExplainPT1 + pT + ")",
        [if tValue == "t1a" then T1aFactor else T1bFactor, LimitedToKidney, NoNodeMetastasis]
        + pathologyFactors)
    else
      StagingResult("Unknown", 0, ExplainPUnknown,
        ["pT: " + pT, "pN: " + pN, "pM: " + (if Missing(pM) then NotSpecified else pM.value)]
        + pathologyFactors)
  }

  // ---------------------------------------------------------------------------
  // Severity mapper: getStageColor
  // ---------------------------------------------------------------------------

  datatype StageColor = Success | Info | Warning | Destructive | Muted

  /** Severity rank of a colour: muted 0, then success, info, warning, destructive. */
  function Severity(c: StageColor): nat {
    match c
    case Muted => 0
    case Success => 1
    case Info => 2
    case Warning => 3
    case Destructive => 4
  }

  /** `getStageColor`: stages 1..4 map to colours of rising severity; anything else is muted. */
  function GetStageColor(stageNumeric: int): (c: StageColor)
    ensures c == Muted <==> !(1 <= stageNumeric <= 4)
    ensures 1 <= stageNumeric <= 4 ==> Severity(c) == stageNumeric
  {
    match stageNumeric
    case 1 => Success
    case 2 => Info
    case 3 => Warning
    case 4 => Destructive
    case _ => Muted
  }

  // ---------------------------------------------------------------------------
  // Properties
  // ---------------------------------------------------------------------------

  /** The rule table, read top-down, is the AJCC grouping written as one cascade. */
  lemma {:induction false} RuleTableUnfolded(t: string, n: string, m: string)
    ensures FirstMatchStage(AjccKidneyRules, t, n, m) ==
      if m == "m1" then 4
      else if t == "t4" && m == "m0" then 4
      else if n == "n1" && m == "m0" then 3
      else if StartsWith(t, "t3") && n == "n0" && m == "m0" then 3
      else if StartsWith(t, "t2") && n == "n0" && m == "m0" then 2
      else if StartsWith(t, "t1") && n == "n0" && m == "m0" then 1
      else 0
  {
    var rules := AjccKidneyRules;
    var k5 := FirstMatchStage(rules[5..], t, n, m);
    assert rules[5..][1..] == [];
    assert k5 == if StartsWith(t, "t1") && n == "n0" && m == "m0" then 1 else 0;
    var k4 := FirstMatchStage(rules[4..], t, n, m);
    assert rules[4..][1..] == rules[5..];
    assert k4 == if StartsWith(t, "t2") && n == "n0" && m == "m0" then 2 else k5;
    var k3 := FirstMatchStage(rules[3..], t, n, m);
    assert rules[3..][1..] == rules[4..];
    assert k3 == if StartsWith(t, "t3") && n == "n0" && m == "m0" then 3 else k4;
    var k2 := FirstMatchStage(rules[2..], t, n, m);
    assert rules[2..][1..] == rules[3..];
    assert k2 == if n == "n1" && m == "m0" then 3 else k3;
    var k1 := FirstMatchStage(rules[1..], t, n, m);
    assert rules[1..][1..] == rules[2..];
    assert k1 == if t == "t4" && m == "m0" then 4 else k2;
    assert FirstMatchStage(rules, t, n, m) == if m == "m1" then 4 else k1;
  }

  /** `calculateKidneyStage` assigns exactly the stage of the first AJCC rule that holds. */
  lemma ClinicalFollowsRuleTable(tnm: TNMData)
    requires !Missing(tnm.t) && !Missing(tnm.n) && !Missing(tnm.m)
    ensures var r := CalculateKidneyStage(tnm).value;
      var k := FirstMatchStage(AjccKidneyRules, ToLower(tnm.t.value), ToLower(tnm.n.value), ToLower(tnm.m.value));
      r.stageNumeric == k && r.stage == StageLabel(k)
  {
    RuleTableUnfolded(ToLower(tnm.t.value), ToLower(tnm.n.value), ToLower(tnm.m.value));
  }

  /**
   * `calculatePostOpKidneyStage` assigns exactly the stage of the first AJCC rule
   * that holds of the codes with their `p` prefix stripped (a missing pM read as M0).
   */
  lemma PostOpFollowsRuleTable(postOpTNM: PostOpTNMData, pathology: Option<PathologyData>)
    requires !Missing(postOpTNM.pT) && !Missing(postOpTNM.pN)
    ensures var r := CalculatePostOpKidneyStage(postOpTNM, pathology).value;
      var k := FirstMatchStage(AjccKidneyRules,
        NormalizeT(postOpTNM.pT.value), NormalizeN(postOpTNM.pN.value), NormalizeM(postOpTNM.pM));
      r.stageNumeric == k && r.stage == StageLabel(k)
  {
    RuleTableUnfolded(NormalizeT(postOpTNM.pT.value), NormalizeN(postOpTNM.pN.value), NormalizeM(postOpTNM.pM));
  }

  /** A normalised pathological code is lower-case and non-empty. */
  lemma NormalizedCodes(pT: string, pN: string, pM: Option<string>)
    requires pT != "" && pN != ""
    ensures NoUpper(NormalizeT(pT)) && NormalizeT(pT) != ""
    ensures NoUpper(NormalizeN(pN)) && NormalizeN(pN) != ""
    ensures NoUpper(NormalizeM(pM)) && NormalizeM(pM) != ""
  {
    assert NoUpper("t") && NoUpper("n") && NoUpper("m");
  }

  /**
   * The pathological path is the clinical cascade applied to the stripped codes:
   * both give the same stage.
   */
  lemma PostOpSameCascadeAsClinical(postOpTNM: PostOpTNMData, pathology: Option<PathologyData>)
    requires !Missing(postOpTNM.pT) && !Missing(postOpTNM.pN)
    ensures var tnm := TNMData(Some(NormalizeT(postOpTNM.pT.value)), Some(NormalizeN(postOpTNM.pN.value)),
                               Some(NormalizeM(postOpTNM.pM)));
      CalculateKidneyStage(tnm).Some?
      && CalculateKidneyStage(tnm).value.stage == CalculatePostOpKidneyStage(postOpTNM, pathology).value.stage
      && CalculateKidneyStage(tnm).value.stageNumeric
         == CalculatePostOpKidneyStage(postOpTNM, pathology).value.stageNumeric
  {
    var t, n, m := NormalizeT(postOpTNM.pT.value), NormalizeN(postOpTNM.pN.value), NormalizeM(postOpTNM.pM);
    NormalizedCodes(postOpTNM.pT.value, postOpTNM.pN.value, postOpTNM.pM);
    ToLowerOfNoUpper(t);
    ToLowerOfNoUpper(n);
    ToLowerOfNoUpper(m);
    ClinicalFollowsRuleTable(TNMData(Some(t), Some(n), Some(m)));
    PostOpFollowsRuleTable(postOpTNM, pathology);
  }

  /** A pathological code written with its `p` prefix has exactly that prefix removed. */
  lemma NormalizeStripsPrefix(pT: string)
    requires StartsWith(ToLower(pT), "pt")
    ensures NormalizeT(pT) == "t" + ToLower(pT)[2..]
  {
    ReplaceFirstPrefix(ToLower(pT), "pt", "t");
  }

  /** M1 gives stage IV whatever T and N are. */
  lemma DistantMetastasisIsStageIV(tnm: TNMData)
    requires !Missing(tnm.t) && !Missing(tnm.n) && !Missing(tnm.m)
    requires ToLower(tnm.m.value) == "m1"
    ensures CalculateKidneyStage(tnm).value.stage == "IV"
    ensures CalculateKidneyStage(tnm).value.stageNumeric == 4
  {
  }

  /** T4 takes precedence over N1: T4 with M0 is stage IV even when N is N1. */
  lemma T4TakesPrecedenceOverN1(tnm: TNMData)
    requires !Missing(tnm.t) && !Missing(tnm.n) && !Missing(tnm.m)
    requires ToLower(tnm.t.value) == "t4" && ToLower(tnm.m.value) == "m0"
    ensures CalculateKidneyStage(tnm).value.stage == "IV"
    ensures CalculateKidneyStage(tnm).value.stageNumeric == 4
  {
  }

  /** Any other T with N1 and M0 is stage III, before any T3/T2/T1 sub-rule is consulted. */
  lemma NodePositiveIsStageIII(tnm: TNMData)
    requires !Missing(tnm.t) && !Missing(tnm.n) && !Missing(tnm.m)
    requires ToLower(tnm.t.value) != "t4" && ToLower(tnm.n.value) == "n1" && ToLower(tnm.m.value) == "m0"
    ensures CalculateKidneyStage(tnm).value.stage == "III"
    ensures CalculateKidneyStage(tnm).value.stageNumeric == 3
  {
  }

  /** With N0 and M0, a T code starting t3, t2 or t1 gives stage III, II or I. */
  lemma NodeNegativeStagesByTumor(tnm: TNMData)
    requires !Missing(tnm.t) && !Missing(tnm.n) && !Missing(tnm.m)
    requires ToLower(tnm.n.value) == "n0" && ToLower(tnm.m.value) == "m0"
    ensures var t, r := ToLower(tnm.t.value), CalculateKidneyStage(tnm).value;
      && (StartsWith(t, "t3") ==> r.stage == "III" && r.stageNumeric == 3)
      && (StartsWith(t, "t2") ==> r.stage == "II" && r.stageNumeric == 2)
      && (StartsWith(t, "t1") ==> r.stage == "I" && r.stageNumeric == 1)
  {
  }

  /**
   * The Unknown fallback is reached exactly when no AJCC rule holds, and its
   * factors begin with the upper-cased T, N and M codes, in that order.
   */
  lemma UnknownListsCodes(tnm: TNMData)
    requires !Missing(tnm.t) && !Missing(tnm.n) && !Missing(tnm.m)
    requires CalculateKidneyStage(tnm).value.stageNumeric == 0
    ensures FirstMatchStage(AjccKidneyRules, ToLower(tnm.t.value), ToLower(tnm.n.value), ToLower(tnm.m.value)) == 0
    ensures CalculateKidneyStage(tnm).value.stage == "Unknown"
    ensures CalculateKidneyStage(tnm).value.factors[..3]
      == ["T: " + ToUpper(tnm.t.value), "N: " + ToUpper(tnm.n.value), "M: " + ToUpper(tnm.m.value)]
  {
    ClinicalFollowsRuleTable(tnm);
  }

  /** Codes are compared case-insensitively: codes that lower-case alike give identical results. */
  lemma ClinicalCaseInsensitive(t: string, n: string, m: string, t': string, n': string, m': string)
    requires ToLower(t) == ToLower(t') && ToLower(n) == ToLower(n') && ToLower(m) == ToLower(m')
    ensures CalculateKidneyStage(TNMData(Some(t), Some(n), Some(m)))
         == CalculateKidneyStage(TNMData(Some(t'), Some(n'), Some(m')))
  {
    ClinicalStageOfCodes(t, n, m);
    ClinicalStageOfCodes(t', n', m');
    assert |t| == |ToLower(t)| == |t'| && |n| == |ToLower(n)| == |n'| && |m| == |ToLower(m)| == |m'|;
    ToUpperDeterminedByLower(t, t');
    ToUpperDeterminedByLower(n, n');
    ToUpperDeterminedByLower(m, m');
  }

  /** `calculateKidneyStage` on three given codes, in terms of their lower- and upper-cased forms. */
  lemma ClinicalStageOfCodes(t: string, n: string, m: string)
    ensures CalculateKidneyStage(TNMData(Some(t), Some(n), Some(m))) ==
      if |t| == 0 || |n| == 0 || |m| == 0 then None
      else Some(ClinicalCascade(ToLower(t), ToLower(n), ToLower(m), ToUpper(t), ToUpper(n), ToUpper(m)))
  {
    if |t| == 0 { assert t == ""; }
    if |n| == 0 { assert n == ""; }
    if |m| == 0 { assert m == ""; }
  }

  /** Pathology findings never change the stage, only the factors. */
  lemma PathologyNeverChangesStage(postOpTNM: PostOpTNMData, p1: Option<PathologyData>, p2: Option<PathologyData>)
    requires !Missing(postOpTNM.pT) && !Missing(postOpTNM.pN)
    ensures CalculatePostOpKidneyStage(postOpTNM, p1).value.stage == CalculatePostOpKidneyStage(postOpTNM, p2).value.stage
    ensures CalculatePostOpKidneyStage(postOpTNM, p1).value.stageNumeric
         == CalculatePostOpKidneyStage(postOpTNM, p2).value.stageNumeric
  {
  }

  /** The first character of every finding text; these facts only serve to show that the texts differ. */
  lemma FindingTextsDiffer(h: string, g: string)
    ensures (HistologyPrefix + h)[0] == 'H' && (GradePrefix + g)[0] == 'G'
    ensures PositiveMarginFactor[3] == 'P' && VascularInvasionFactor[3] == 'V'
    ensures LymphovascularInvasionFactor[3] == 'L' && SarcomatoidFactor[3] == 'S'
    ensures PositiveMarginFactor[0] == VascularInvasionFactor[0] == LymphovascularInvasionFactor[0]
      == SarcomatoidFactor[0] == '⚠' && NecrosisFactor[0] == 'T'
  {
  }

  /** A positive margin is reported exactly when the margin status is positive. */
  lemma PositiveMarginListed(p: PathologyData)
    ensures PositiveMarginFactor in PathologyFactors(Some(p)) <==> p.marginStatus == Some(Positive)
  {
    FindingTextsDiffer(if p.histology.Some? then HistologyName(p.histology.value) else "",
                       if p.grade.Some? then GradeText(p.grade.value) + GradeSuffix else "");
  }

  /** Vascular invasion is reported exactly when it is present. */
  lemma VascularInvasionListed(p: PathologyData)
    ensures VascularInvasionFactor in PathologyFactors(Some(p)) <==> p.vascularInvasion
  {
    FindingTextsDiffer(if p.histology.Some? then HistologyName(p.histology.value) else "",
                       if p.grade.Some? then GradeText(p.grade.value) + GradeSuffix else "");
  }

  /** Sarcomatoid features are reported exactly when they are present. */
  lemma SarcomatoidListed(p: PathologyData)
    ensures SarcomatoidFactor in PathologyFactors(Some(p)) <==> p.sarcomatoidFeatures
  {
    FindingTextsDiffer(if p.histology.Some? then HistologyName(p.histology.value) else "",
                       if p.grade.Some? then GradeText(p.grade.value) + GradeSuffix else "");
  }

  /** Necrosis is reported exactly when it is present. */
  lemma NecrosisListed(p: PathologyData)
    ensures NecrosisFactor in PathologyFactors(Some(p)) <==> p.necrosis
  {
    FindingTextsDiffer(if p.histology.Some? then HistologyName(p.histology.value) else "",
                       if p.grade.Some? then GradeText(p.grade.value) + GradeSuffix else "");
  }

  /** Lymphovascular invasion is reported exactly when it is present. */
  lemma LymphovascularListed(p: PathologyData)
    ensures LymphovascularInvasionFactor in PathologyFactors(Some(p)) <==> p.lymphNodeInvasion
  {
    FindingTextsDiffer(if p.histology.Some? then HistologyName(p.histology.value) else "",
                       if p.grade.Some? then GradeText(p.grade.value) + GradeSuffix else "");
  }

  /**
   * The place of a finding text in the fixed order of the findings list:
   * histology 0, grade 1, positive margin 2, vascular invasion 3,
   * lymphovascular invasion 4, sarcomatoid features 5, necrosis 6; 7 for any
   * other text.
   */
  function FindingRank(s: string): nat {
    if StartsWith(s, HistologyPrefix) then 0
    else if StartsWith(s, GradePrefix) then 1
    else if s == PositiveMarginFactor then 2
    else if s == VascularInvasionFactor then 3
    else if s == LymphovascularInvasionFactor then 4
    else if s == SarcomatoidFactor then 5
    else if s == NecrosisFactor then 6
    else 7
  }

  /** Whether the report carries the finding of rank `k`. */
  predicate Reported(p: PathologyData, k: nat) {
    || (k == 0 && p.histology.Some?)
    || (k == 1 && p.grade.Some?)
    || (k == 2 && p.marginStatus == Some(Positive))
    || (k == 3 && p.vascularInvasion)
    || (k == 4 && p.lymphNodeInvasion)
    || (k == 5 && p.sarcomatoidFeatures)
    || (k == 6 && p.necrosis)
  }

  /** Each finding text has its own rank. */
  lemma FindingTextRanks(h: string, g: string)
    ensures FindingRank(HistologyPrefix + h) == 0
    ensures FindingRank(GradePrefix + g) == 1
    ensures FindingRank(PositiveMarginFactor) == 2
    ensures FindingRank(VascularInvasionFactor) == 3
    ensures FindingRank(LymphovascularInvasionFactor) == 4
    ensures FindingRank(SarcomatoidFactor) == 5
    ensures FindingRank(NecrosisFactor) == 6
  {
    FindingTextsDiffer(h, g);
    assert (HistologyPrefix + h)[..|HistologyPrefix|] == HistologyPrefix;
    assert (GradePrefix + g)[..|GradePrefix|] == GradePrefix;
    assert HistologyPrefix[0] == 'H' && GradePrefix[0] == 'G';
    assert !StartsWith(GradePrefix + g, HistologyPrefix) by {
      assert (GradePrefix + g)[0] != HistologyPrefix[0];
    }
    forall t | t in [PositiveMarginFactor, VascularInvasionFactor, LymphovascularInvasionFactor,
                     SarcomatoidFactor, NecrosisFactor]
      ensures !StartsWith(t, HistologyPrefix) && !StartsWith(t, GradePrefix)
    {
      assert t[0] != 'H' && t[0] != 'G';
    }
  }

  /** Ranks strictly increase along `f`. */
  predicate RanksIncrease(f: seq<string>) {
    forall i, j :: 0 <= i < j < |f| ==> FindingRank(f[i]) < FindingRank(f[j])
  }

  /** Ranks increase along `f`, stay below `k`, and every finding listed is one the report carries. */
  predicate RankedBelow(p: PathologyData, f: seq<string>, k: nat) {
    && RanksIncrease(f)
    && forall i :: 0 <= i < |f| ==> FindingRank(f[i]) < k && Reported(p, FindingRank(f[i]))
  }

  /** Appending the finding `x` of rank `k`, when the report carries it, keeps the findings ranked. */
  lemma AppendRanked(p: PathologyData, f: seq<string>, present: bool, x: string, k: nat)
    requires RankedBelow(p, f, k)
    requires FindingRank(x) == k && (present ==> Reported(p, k))
    ensures RankedBelow(p, f + (if present then [x] else []), k + 1)
  {
  }

  /** Two appends of `AppendRanked` in a row. */
  lemma AppendTwoRanked(p: PathologyData, f: seq<string>, c: bool, x: string, d: bool, y: string, k: nat)
    requires RankedBelow(p, f, k)
    requires FindingRank(x) == k && (c ==> Reported(p, k))
    requires FindingRank(y) == k + 1 && (d ==> Reported(p, k + 1))
    ensures RankedBelow(p, f + (if c then [x] else []) + (if d then [y] else []), k + 2)
  {
    AppendRanked(p, f, c, x, k);
    AppendRanked(p, f + (if c then [x] else []), d, y, k + 1);
  }

  /**
   * Texts of ranks 0 to 6, each present when the report carries that finding,
   * are ranked in that order.
   */
  lemma RankedSeven(p: PathologyData, x0: string, x1: string, x2: string, x3: string,
                    x4: string, x5: string, x6: string)
    requires FindingRank(x0) == 0 && FindingRank(x1) == 1 && FindingRank(x2) == 2 && FindingRank(x3) == 3
    requires FindingRank(x4) == 4 && FindingRank(x5) == 5 && FindingRank(x6) == 6
    ensures RankedBelow(p,
      [] + (if p.histology.Some? then [x0] else [])
      + (if p.grade.Some? then [x1] else [])
      + (if p.marginStatus == Some(Positive) then [x2] else [])
      + (if p.vascularInvasion then [x3] else [])
      + (if p.lymphNodeInvasion then [x4] else [])
      + (if p.sarcomatoidFeatures then [x5] else [])
      + (if p.necrosis then [x6] else []), 7)
  {
    var b1 := [] + (if p.histology.Some? then [x0] else []) + (if p.grade.Some? then [x1] else []);
    AppendTwoRanked(p, [], p.histology.Some?, x0, p.grade.Some?, x1, 0);
    var b3 := b1 + (if p.marginStatus == Some(Positive) then [x2] else []) + (if p.vascularInvasion then [x3] else []);
    AppendTwoRanked(p, b1, p.marginStatus == Some(Positive), x2, p.vascularInvasion, x3, 2);
    var b5 := b3 + (if p.lymphNodeInvasion then [x4] else []) + (if p.sarcomatoidFeatures then [x5] else []);
    AppendTwoRanked(p, b3, p.lymphNodeInvasion, x4, p.sarcomatoidFeatures, x5, 4);
    AppendRanked(p, b5, p.necrosis, x6, 6);
  }

  /**
   * The findings come in the fixed order histology, grade, positive margin,
   * vascular invasion, lymphovascular invasion, sarcomatoid features,
   * necrosis, and every finding listed is one the report carries.
   */
  lemma PathologyFactorsOrdered(p: PathologyData)
    ensures RanksIncrease(PathologyFactors(Some(p)))
    ensures forall i :: 0 <= i < |PathologyFactors(Some(p))| ==>
      Reported(p, FindingRank(PathologyFactors(Some(p))[i]))
  {
    var h := if p.histology.Some? then HistologyName(p.histology.value) else "";
    var g := if p.grade.Some? then GradeText(p.grade.value) + GradeSuffix else "";
    FindingTextRanks(h, g);
    RankedSeven(p, HistologyPrefix + h, GradePrefix + g, PositiveMarginFactor, VascularInvasionFactor,
                LymphovascularInvasionFactor, SarcomatoidFactor, NecrosisFactor);
    PathologyFactorsShape(p);
  }

  /** The findings list as seven optional entries, histology and grade texts included. */
  lemma PathologyFactorsShape(p: PathologyData)
    ensures var h := if p.histology.Some? then HistologyName(p.histology.value) else "";
      var g := if p.grade.Some? then GradeText(p.grade.value) + GradeSuffix else "";
      PathologyFactors(Some(p)) ==
        [] + (if p.histology.Some? then [HistologyPrefix + h] else [])
        + (if p.grade.Some? then [GradePrefix + g] else [])
        + (if p.marginStatus == Some(Positive) then [PositiveMarginFactor] else [])
        + (if p.vascularInvasion then [VascularInvasionFactor] else [])
        + (if p.lymphNodeInvasion then [LymphovascularInvasionFactor] else [])
        + (if p.sarcomatoidFeatures then [SarcomatoidFactor] else [])
        + (if p.necrosis then [NecrosisFactor] else [])
  {
    var h := if p.histology.Some? then HistologyName(p.histology.value) else "";
    assert [] + (if p.histology.Some? then [HistologyPrefix + h] else [])
        == (if p.histology.Some? then [HistologyPrefix + h] else []);
    if p.grade.Some? {
      assert GradePrefix + GradeText(p.grade.value) + GradeSuffix
          == GradePrefix + (GradeText(p.grade.value) + GradeSuffix);
    }
  }

  /** No text starts with both the histology and the grade prefix. */
  lemma PrefixesExclusive(s: string)
    ensures !(StartsWith(s, HistologyPrefix) && StartsWith(s, GradePrefix))
  {
    if StartsWith(s, HistologyPrefix) {
      assert s[0] == HistologyPrefix[0] == 'H';
      assert GradePrefix[0] == 'G';
    }
  }

  /** The histology comes first when reported; otherwise no finding reads as a histology. */
  lemma HistologyListed(p: PathologyData)
    ensures p.histology.Some? ==>
      PathologyFactors(Some(p))[0] == HistologyPrefix + HistologyName(p.histology.value)
    ensures p.histology.None? ==>
      forall i :: 0 <= i < |PathologyFactors(Some(p))| ==> !StartsWith(PathologyFactors(Some(p))[i], HistologyPrefix)
  {
    PathologyFactorsOrdered(p);
  }

  /** The grade is listed as "Grade: g/4 (ISUP/WHO)" when reported; otherwise no finding reads as a grade. */
  lemma GradeListed(p: PathologyData)
    ensures p.grade.Some? ==> GradePrefix + GradeText(p.grade.value) + GradeSuffix in PathologyFactors(Some(p))
    ensures p.grade.None? ==>
      forall i :: 0 <= i < |PathologyFactors(Some(p))| ==> !StartsWith(PathologyFactors(Some(p))[i], GradePrefix)
  {
    PathologyFactorsOrdered(p);
    forall s | s in PathologyFactors(Some(p)) ensures StartsWith(s, GradePrefix) ==> FindingRank(s) == 1 {
      PrefixesExclusive(s);
    }
  }

  /** The colour of a clinical result is muted exactly when its stage is Unknown. */
  lemma StageColorOfClinicalResult(tnm: TNMData)
    requires CalculateKidneyStage(tnm).Some?
    ensures GetStageColor(CalculateKidneyStage(tnm).value.stageNumeric) == Muted
        <==> CalculateKidneyStage(tnm).value.stage == "Unknown"
  {
  }

  /** A freshly created case cannot be staged on either path. */
  lemma EmptyCaseHasNoStage(id: string)
    ensures CalculateKidneyStage(CreateEmptyCase(id).tnm) == None
    ensures CalculatePostOpKidneyStage(CreateEmptyCase(id).postOpTNM.value, CreateEmptyCase(id).pathology) == None
  {
  }
}
