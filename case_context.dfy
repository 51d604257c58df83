/**
 * The case data interfaces and the in-memory case store (`currentCase` and
 * `savedCases`) of src/contexts/CaseContext.tsx.
 *
 * Timestamps (`createdAt`, `updatedAt`) are not modelled; the case id, which the
 * source derives from the clock, is a parameter; the list read back from
 * local storage is the constructor's parameter.
 */
module CaseContext {
  import opened Wrappers

  // ---------------------------------------------------------------------------
  // Data interfaces
  // ---------------------------------------------------------------------------

  datatype Gender = Male | Female

  datatype PatientData = PatientData(
    caseId: string,
    age: Option<int>,
    gender: Option<Gender>,
    comorbidities: seq<string>)

  /** ISUP/WHO grade: `1 | 2 | 3 | 4`. */
  type Grade = g: int | 1 <= g <= 4 witness 1

  /** Pre-operative (clinical) histology. */
  datatype TumorHistology = ClearCell | Papillary | Chromophobe | Other

  datatype TumorData = TumorData(
    size: Option<real>,
    grade: Option<Grade>,
    histology: Option<TumorHistology>)

  /** Clinical T, N and M codes, e.g. "T1a", "N0", "M0". */
  datatype TNMData = TNMData(t: Option<string>, n: Option<string>, m: Option<string>)

  /** Pathological histology, including the SIOP-RTSG risk groups for Wilms tumours. */
  datatype PathologyHistology =
    | ClearCell | Papillary | Chromophobe | Sarcomatoid | Other
    | WilmsLow | WilmsIntermediate | WilmsHigh | Mesoblastic

  datatype MarginStatus = Negative | Positive | Close

  datatype WilmsType = Necrotic | Epithelial | Stromal | Mixed | Regressive | Blastemal | Anaplastic

  datatype PathologyData = PathologyData(
    histology: Option<PathologyHistology>,
    grade: Option<Grade>,
    tumorSize: Option<real>,
    marginStatus: Option<MarginStatus>,
    vascularInvasion: bool,
    lymphNodeInvasion: bool,
    sarcomatoidFeatures: bool,
    necrosis: bool,
    isRuptured: Option<bool>,
    isBilateral: Option<bool>,
    wilmsType: Option<WilmsType>)

  datatype SurgeryType = Partial | Radical | Cytoreductive

  datatype PreOpData = PreOpData(
    clinicalStage: Option<string>,
    tumorSize: Option<real>,
    cT: Option<string>,
    surgeryType: Option<SurgeryType>)

  /** Pathological pT, pN and pM codes, e.g. "pT1a", "pN0". */
  datatype PostOpTNMData = PostOpTNMData(pT: Option<string>, pN: Option<string>, pM: Option<string>)

  datatype CaseType = Primary | PostOp

  datatype CancerType = Kidney | Wilms

  datatype CaseData = CaseData(
    id: string,
    caseType: CaseType,
    cancerType: Option<CancerType>,
    patient: PatientData,
    tumor: TumorData,
    tnm: TNMData,
    pathology: Option<PathologyData>,
    preOp: Option<PreOpData>,
    postOpTNM: Option<PostOpTNMData>,
    stage: Option<string>)

  // ---------------------------------------------------------------------------
  // Partial records (`Partial<T>`): `None` is a key the caller left out.
  // ---------------------------------------------------------------------------

  datatype PatientPatch = PatientPatch(
    caseId: Option<string>,
    age: Option<Option<int>>,
    gender: Option<Option<Gender>>,
    comorbidities: Option<seq<string>>)

  datatype TumorPatch = TumorPatch(
    size: Option<Option<real>>,
    grade: Option<Option<Grade>>,
    histology: Option<Option<TumorHistology>>)

  datatype TNMPatch = TNMPatch(t: Option<Option<string>>, n: Option<Option<string>>, m: Option<Option<string>>)

  datatype PathologyPatch = PathologyPatch(
    histology: Option<Option<PathologyHistology>>,
    grade: Option<Option<Grade>>,
    tumorSize: Option<Option<real>>,
    marginStatus: Option<Option<MarginStatus>>,
    vascularInvasion: Option<bool>,
    lymphNodeInvasion: Option<bool>,
    sarcomatoidFeatures: Option<bool>,
    necrosis: Option<bool>,
    isRuptured: Option<Option<bool>>,
    isBilateral: Option<Option<bool>>,
    wilmsType: Option<Option<WilmsType>>)

  datatype PreOpPatch = PreOpPatch(
    clinicalStage: Option<Option<string>>,
    tumorSize: Option<Option<real>>,
    cT: Option<Option<string>>,
    surgeryType: Option<Option<SurgeryType>>)

  datatype PostOpTNMPatch = PostOpTNMPatch(pT: Option<Option<string>>, pN: Option<Option<string>>, pM: Option<Option<string>>)

  /** One key of an object spread `{ ...old, ...patch }`: a supplied key overrides. */
  function Override<T>(current: T, supplied: Option<T>): T {
    supplied.GetOr(current)
  }

  function MergePatient(p: PatientData, d: PatientPatch): PatientData {
    PatientData(
      Override(p.caseId, d.caseId),
      Override(p.age, d.age),
      Override(p.gender, d.gender),
      Override(p.comorbidities, d.comorbidities))
  }

  function MergeTumor(p: TumorData, d: TumorPatch): TumorData {
    TumorData(Override(p.size, d.size), Override(p.grade, d.grade), Override(p.histology, d.histology))
  }

  function MergeTNM(p: TNMData, d: TNMPatch): TNMData {
    TNMData(Override(p.t, d.t), Override(p.n, d.n), Override(p.m, d.m))
  }

  function MergePathology(p: PathologyData, d: PathologyPatch): PathologyData {
    PathologyData(
      Override(p.histology, d.histology),
      Override(p.grade, d.grade),
      Override(p.tumorSize, d.tumorSize),
      Override(p.marginStatus, d.marginStatus),
      Override(p.vascularInvasion, d.vascularInvasion),
      Override(p.lymphNodeInvasion, d.lymphNodeInvasion),
      Override(p.sarcomatoidFeatures, d.sarcomatoidFeatures),
      Override(p.necrosis, d.necrosis),
      Override(p.isRuptured, d.isRuptured),
      Override(p.isBilateral, d.isBilateral),
      Override(p.wilmsType, d.wilmsType))
  }

  function MergePreOp(p: PreOpData, d: PreOpPatch): PreOpData {
    PreOpData(
      Override(p.clinicalStage, d.clinicalStage),
      Override(p.tumorSize, d.tumorSize),
      Override(p.cT, d.cT),
      Override(p.surgeryType, d.surgeryType))
  }

  function MergePostOpTNM(p: PostOpTNMData, d: PostOpTNMPatch): PostOpTNMData {
    PostOpTNMData(Override(p.pT, d.pT), Override(p.pN, d.pN), Override(p.pM, d.pM))
  }

  // ---------------------------------------------------------------------------
  // Empty case
  // ---------------------------------------------------------------------------

  const EmptyPatient := PatientData("", None, None, [])
  const EmptyTumor := TumorData(None, None, None)
  const EmptyTNM := TNMData(None, None, None)
  const EmptyPathology := PathologyData(None, None, None, None, false, false, false, false, None, None, None)
  const EmptyPreOp := PreOpData(None, None, None, None)
  const EmptyPostOpTNM := PostOpTNMData(None, None, None)

  /** A fresh primary case with every field blank; `id` stands for the generated case id. */
  function CreateEmptyCase(id: string): (c: CaseData)
    ensures c.id == id && c.caseType == Primary && c.cancerType == None && c.stage == None
    ensures c.tnm.t == None && c.tnm.n == None && c.tnm.m == None
    ensures c.postOpTNM.Some? && c.postOpTNM.value.pT == None && c.postOpTNM.value.pN == None
    ensures c.postOpTNM.value.pM == None
    ensures c.pathology.Some? && c.pathology.value.histology == None && c.pathology.value.grade == None
    ensures c.pathology.value.marginStatus == None
    ensures !c.pathology.value.vascularInvasion && !c.pathology.value.lymphNodeInvasion
    ensures !c.pathology.value.sarcomatoidFeatures && !c.pathology.value.necrosis
    ensures c.tumor.histology == None && c.tumor.grade == None
  {
    CaseData(id, Primary, None, EmptyPatient, EmptyTumor, EmptyTNM,
             Some(EmptyPathology), Some(EmptyPreOp), Some(EmptyPostOpTNM), None)
  }

  // ---------------------------------------------------------------------------
  // Saved-case list operations
  // ---------------------------------------------------------------------------

  /** No two saved cases share an id. */
  ghost predicate UniqueIds(cases: seq<CaseData>) {
    forall i, j :: 0 <= i < j < |cases| ==> cases[i].id != cases[j].id
  }

  /** `cases.findIndex(c => c.id === id)`, with `None` for -1. */
  function FirstIndexOf(cases: seq<CaseData>, id: string): (r: Option<nat>)
    ensures r.Some? ==> r.value < |cases| && cases[r.value].id == id
    ensures r.Some? ==> forall j :: 0 <= j < r.value ==> cases[j].id != id
    ensures r.None? ==> forall j :: 0 <= j < |cases| ==> cases[j].id != id
  {
    if cases == [] then None
    else if cases[0].id == id then Some(0)
    else match FirstIndexOf(cases[1..], id)
      case None => None
      case Some(k) => Some(k + 1)
  }

  /** `cases.find(c => c.id === id)` */
  function FindCase(cases: seq<CaseData>, id: string): (r: Option<CaseData>)
    ensures r.Some? ==> r.value in cases && r.value.id == id
    ensures r.Some? ==> exists i :: 0 <= i < |cases| && cases[i] == r.value && forall j :: 0 <= j < i ==> cases[j].id != id
    ensures r.None? <==> forall c :: c in cases ==> c.id != id
  {
    match FirstIndexOf(cases, id)
    case None => None
    case Some(i) => Some(cases[i])
  }

  /**
   * The list `saveCase` leaves: the first case with `c`'s id is replaced by `c`,
   * or `c` is appended when no saved case has its id.
   */
  function Upsert(cases: seq<CaseData>, c: CaseData): (r: seq<CaseData>)
    ensures c in r
  {
    match FirstIndexOf(cases, c.id)
    case Some(i) => assert cases[i := c][i] == c; cases[i := c]
    case None => cases + [c]
  }

  /** `cases.filter(c => c.id !== id)` */
  function WithoutId(cases: seq<CaseData>, id: string): (r: seq<CaseData>)
    ensures |r| <= |cases|
    ensures forall c :: c in r <==> c in cases && c.id != id
  {
    if cases == [] then []
    else if cases[0].id == id then WithoutId(cases[1..], id)
    else [cases[0]] + WithoutId(cases[1..], id)
  }

  // ---------------------------------------------------------------------------
  // Properties of the list operations
  // ---------------------------------------------------------------------------

  /** Saving a case whose id is already saved overwrites the first such entry and nothing else. */
  lemma UpsertReplacesFirst(cases: seq<CaseData>, c: CaseData, i: nat)
    requires i < |cases| && cases[i].id == c.id
    requires forall j :: 0 <= j < i ==> cases[j].id != c.id
    ensures |Upsert(cases, c)| == |cases|
    ensures Upsert(cases, c)[i] == c
    ensures forall j :: 0 <= j < |cases| && j != i ==> Upsert(cases, c)[j] == cases[j]
  {
  }

  /** Saving a case with a new id appends it at the end. */
  lemma UpsertAppendsNew(cases: seq<CaseData>, c: CaseData)
    requires forall d :: d in cases ==> d.id != c.id
    ensures Upsert(cases, c) == cases + [c]
    ensures |Upsert(cases, c)| == |cases| + 1
  {
  }

  /** `saveCase` keeps saved ids unique. */
  lemma UpsertKeepsIdsUnique(cases: seq<CaseData>, c: CaseData)
    requires UniqueIds(cases)
    ensures UniqueIds(Upsert(cases, c))
  {
    var r := Upsert(cases, c);
    match FirstIndexOf(cases, c.id)
    case Some(i) =>
      forall j, k | 0 <= j < k < |r| ensures r[j].id != r[k].id {
        if j == i || k == i {
          var o := if j == i then k else j;
          assert cases[o].id != cases[i].id;
        }
      }
    case None =>
      forall j, k | 0 <= j < k < |r| ensures r[j].id != r[k].id {
        if k == |cases| {
          assert cases[j].id != c.id;
        }
      }
  }

  /** Filtering distributes over concatenation: `deleteCase` keeps the survivors in their order. */
  lemma {:induction false} WithoutIdAppend(a: seq<CaseData>, b: seq<CaseData>, id: string)
    ensures WithoutId(a + b, id) == WithoutId(a, id) + WithoutId(b, id)
  {
    if a == [] {
      assert a + b == b;
    } else {
      assert (a + b)[1..] == a[1..] + b;
      WithoutIdAppend(a[1..], b, id);
    }
  }

  /** Deleting an id no saved case carries changes nothing. */
  lemma {:induction false} WithoutIdAbsent(cases: seq<CaseData>, id: string)
    requires forall c :: c in cases ==> c.id != id
    ensures WithoutId(cases, id) == cases
  {
    if cases != [] {
      assert cases[0] in cases;
      forall c | c in cases[1..] ensures c.id != id {
        assert c in cases;
      }
      WithoutIdAbsent(cases[1..], id);
      assert [cases[0]] + cases[1..] == cases;
    }
  }

  /** `deleteCase` keeps saved ids unique. */
  lemma {:induction false} WithoutIdKeepsIdsUnique(cases: seq<CaseData>, id: string)
    requires UniqueIds(cases)
    ensures UniqueIds(WithoutId(cases, id))
  {
    if cases != [] {
      var tail := cases[1..];
      assert UniqueIds(tail) by {
        forall j, k | 0 <= j < k < |tail| ensures tail[j].id != tail[k].id {
          assert cases[j + 1].id != cases[k + 1].id;
        }
      }
      WithoutIdKeepsIdsUnique(tail, id);
      if cases[0].id != id {
        var r := WithoutId(cases, id);
        forall k | 1 <= k < |r| ensures r[0].id != r[k].id {
          assert r[k] in WithoutId(tail, id);
          assert r[k] in tail;
          var m :| 0 <= m < |tail| && tail[m] == r[k];
          assert cases[0].id != cases[m + 1].id;
        }
      }
    }
  }

  /** Merging a patch that supplies no key changes nothing. */
  lemma MergeEmptyPatchesIdentity(c: CaseData)
    ensures MergePatient(c.patient, PatientPatch(None, None, None, None)) == c.patient
    ensures MergeTumor(c.tumor, TumorPatch(None, None, None)) == c.tumor
    ensures MergeTNM(c.tnm, TNMPatch(None, None, None)) == c.tnm
    ensures forall p :: MergePostOpTNM(p, PostOpTNMPatch(None, None, None)) == p
    ensures forall p :: MergePreOp(p, PreOpPatch(None, None, None, None)) == p
    ensures forall p :: MergePathology(p, PathologyPatch(None, None, None, None, None, None, None, None, None, None, None)) == p
  {
  }

  /** Applying the same patch twice is the same as applying it once. */
  lemma MergeIdempotent(p: TNMData, d: TNMPatch, q: PathologyData, e: PathologyPatch)
    ensures MergeTNM(MergeTNM(p, d), d) == MergeTNM(p, d)
    ensures MergePathology(MergePathology(q, e), e) == MergePathology(q, e)
  {
  }

  // ---------------------------------------------------------------------------
  // The store
  // ---------------------------------------------------------------------------

  /** The React context's state: the case being edited and the saved list. */
  class CaseStore {
    var currentCase: Option<CaseData>
    var savedCases: seq<CaseData>

    /** `loaded` is the list read back from local storage (empty when there is none). */
    constructor (loaded: seq<CaseData>)
      ensures currentCase == None && savedCases == loaded
    {
      currentCase := None;
      savedCases := loaded;
    }

    /** `createNewCase`: `id` stands for the clock-derived case id. */
    method CreateNewCase(id: string)
      modifies this
      ensures currentCase == Some(CreateEmptyCase(id))
      ensures savedCases == old(savedCases)
    {
      currentCase := Some(CreateEmptyCase(id));
    }

    method UpdatePatientData(data: PatientPatch)
      modifies this
      ensures savedCases == old(savedCases)
      ensures old(currentCase).None? ==> currentCase == None
      ensures old(currentCase).Some? ==>
        currentCase == Some(old(currentCase).value.(patient := MergePatient(old(currentCase).value.patient, data)))
    {
      if currentCase.None? { return; }
      var c := currentCase.value;
      currentCase := Some(c.(patient := MergePatient(c.patient, data)));
    }

    method UpdateTumorData(data: TumorPatch)
      modifies this
      ensures savedCases == old(savedCases)
      ensures old(currentCase).None? ==> currentCase == None
      ensures old(currentCase).Some? ==>
        currentCase == Some(old(currentCase).value.(tumor := MergeTumor(old(currentCase).value.tumor, data)))
    {
      if currentCase.None? { return; }
      var c := currentCase.value;
      currentCase := Some(c.(tumor := MergeTumor(c.tumor, data)));
    }

    method UpdateTNMData(data: TNMPatch)
      modifies this
      ensures savedCases == old(savedCases)
      ensures old(currentCase).None? ==> currentCase == None
      ensures old(currentCase).Some? ==>
        currentCase == Some(old(currentCase).value.(tnm := MergeTNM(old(currentCase).value.tnm, data)))
    {
      if currentCase.None? { return; }
      var c := currentCase.value;
      currentCase := Some(c.(tnm := MergeTNM(c.tnm, data)));
    }

    /** An absent pathology record is merged as if it were the empty one. */
    method UpdatePathologyData(data: PathologyPatch)
      modifies this
      ensures savedCases == old(savedCases)
      ensures old(currentCase).None? ==> currentCase == None
      ensures old(currentCase).Some? ==>
        currentCase == Some(old(currentCase).value.(pathology :=
          Some(MergePathology(old(currentCase).value.pathology.GetOr(EmptyPathology), data))))
    {
      if currentCase.None? { return; }
      var c := currentCase.value;
      currentCase := Some(c.(pathology := Some(MergePathology(c.pathology.GetOr(EmptyPathology), data))));
    }

    /** An absent pre-operative record is merged as if it were the empty one. */
    method UpdatePreOpData(data: PreOpPatch)
      modifies this
      ensures savedCases == old(savedCases)
      ensures old(currentCase).None? ==> currentCase == None
      ensures old(currentCase).Some? ==>
        currentCase == Some(old(currentCase).value.(preOp :=
          Some(MergePreOp(old(currentCase).value.preOp.GetOr(EmptyPreOp), data))))
    {
      if currentCase.None? { return; }
      var c := currentCase.value;
      currentCase := Some(c.(preOp := Some(MergePreOp(c.preOp.GetOr(EmptyPreOp), data))));
    }

    /** An absent pathological TNM record is merged as if it were the empty one. */
    method UpdatePostOpTNMData(data: PostOpTNMPatch)
      modifies this
      ensures savedCases == old(savedCases)
      ensures old(currentCase).None? ==> currentCase == None
      ensures old(currentCase).Some? ==>
        currentCase == Some(old(currentCase).value.(postOpTNM :=
          Some(MergePostOpTNM(old(currentCase).value.postOpTNM.GetOr(EmptyPostOpTNM), data))))
    {
      if currentCase.None? { return; }
      var c := currentCase.value;
      currentCase := Some(c.(postOpTNM := Some(MergePostOpTNM(c.postOpTNM.GetOr(EmptyPostOpTNM), data))));
    }

    method SetCancerType(kind: CancerType)
      modifies this
      ensures savedCases == old(savedCases)
      ensures old(currentCase).None? ==> currentCase == None
      ensures old(currentCase).Some? ==> currentCase == Some(old(currentCase).value.(cancerType := Some(kind)))
    {
      if currentCase.None? { return; }
      currentCase := Some(currentCase.value.(cancerType := Some(kind)));
    }

    method SetCaseType(kind: CaseType)
      modifies this
      ensures savedCases == old(savedCases)
      ensures old(currentCase).None? ==> currentCase == None
      ensures old(currentCase).Some? ==> currentCase == Some(old(currentCase).value.(caseType := kind))
    {
      if currentCase.None? { return; }
      currentCase := Some(currentCase.value.(caseType := kind));
    }

    method SetStage(stage: string)
      modifies this
      ensures savedCases == old(savedCases)
      ensures old(currentCase).None? ==> currentCase == None
      ensures old(currentCase).Some? ==> currentCase == Some(old(currentCase).value.(stage := Some(stage)))
    {
      if currentCase.None? { return; }
      currentCase := Some(currentCase.value.(stage := Some(stage)));
    }

    /** `saveCase`: upsert of the current case by id. */
    method SaveCase()
      modifies this
      ensures currentCase == old(currentCase)
      ensures old(currentCase).None? ==> savedCases == old(savedCases)
      ensures old(currentCase).Some? ==> savedCases == Upsert(old(savedCases), old(currentCase).value)
      ensures old(currentCase).Some? ==> |old(savedCases)| <= |savedCases| <= |old(savedCases)| + 1
      ensures UniqueIds(old(savedCases)) ==> UniqueIds(savedCases)
    {
      if currentCase.None? { return; }
      var c := currentCase.value;
      var existingIndex := FirstIndexOf(savedCases, c.id);
      if existingIndex.Some? {
        var updated := savedCases;
        updated := updated[existingIndex.value := c];
        savedCases := updated;
      } else {
        savedCases := savedCases + [c];
      }
      if UniqueIds(old(savedCases)) {
        UpsertKeepsIdsUnique(old(savedCases), c);
      }
    }

    /** `loadCase`: make the first saved case with `id` current; nothing happens when there is none. */
    method LoadCase(id: string)
      modifies this
      ensures savedCases == old(savedCases)
      ensures FindCase(old(savedCases), id).None? ==> currentCase == old(currentCase)
      ensures FindCase(old(savedCases), id).Some? ==> currentCase == FindCase(old(savedCases), id)
      ensures currentCase != old(currentCase) ==>
        currentCase.Some? && currentCase.value in savedCases && currentCase.value.id == id
    {
      var found := FindCase(savedCases, id);
      if found.Some? {
        currentCase := found;
      }
    }

    /** `deleteCase`: drop every saved case with `id`; clear the current case if it has that id. */
    method DeleteCase(id: string)
      modifies this
      ensures savedCases == WithoutId(old(savedCases), id)
      ensures forall c :: c in savedCases ==> c.id != id
      ensures (old(currentCase).Some? && old(currentCase).value.id == id) ==> currentCase == None
      ensures !(old(currentCase).Some? && old(currentCase).value.id == id) ==> currentCase == old(currentCase)
      ensures UniqueIds(old(savedCases)) ==> UniqueIds(savedCases)
    {
      savedCases := WithoutId(savedCases, id);
      if currentCase.Some? && currentCase.value.id == id {
        currentCase := None;
      }
      if UniqueIds(old(savedCases)) {
        WithoutIdKeepsIdsUnique(old(savedCases), id);
      }
    }

    /** `resetCurrentCase`: forget the current case; the saved list stays. */
    method ResetCurrentCase()
      modifies this
      ensures currentCase == None && savedCases == old(savedCases)
    {
      currentCase := None;
    }
  }
}
