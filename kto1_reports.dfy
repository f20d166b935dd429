/**
 * Kindergarten-to-grade-1 (KTo1) views: the performance-donut cards grouped by
 * PLD (performance level descriptor) stage, and the differentiated report, a
 * Building -> PLD stage -> PLD level -> class -> student-name tree built from a
 * flat list of building records.
 */
module Kto1Reports {
  import opened Wrappers
  import opened TextFormat

  /** Counts and percentages are passed through, never computed on. */
  type Number = real

  // ===========================================================================
  // Donut cards

  datatype ApiDonut = ApiDonut(pldStage: string, pldLevel: int, studentCount: int, percent: Number)

  datatype CardLevel = CardLevel(studentCount: int, percent: Number, pldLevel: int)

  datatype DonutCard = DonutCard(pldStage: string, cardLevels: seq<CardLevel>)

  function CardLevelOf(d: ApiDonut): CardLevel {
    CardLevel(d.studentCount, d.percent, d.pldLevel)
  }

  /** Reference definition of a card's contents: the donuts of `stage`, in input order. */
  function LevelsOfStage(ds: seq<ApiDonut>, stage: string): seq<CardLevel>
    decreases |ds|
  {
    if ds == [] then []
    else
      var last := ds[|ds| - 1];
      LevelsOfStage(ds[..|ds| - 1], stage) + (if last.pldStage == stage then [CardLevelOf(last)] else [])
  }

  /** Reference definition of the card order: each distinct stage once, in order of first appearance. */
  function StagesInOrder(ds: seq<ApiDonut>): seq<string>
    decreases |ds|
  {
    if ds == [] then []
    else
      var init := StagesInOrder(ds[..|ds| - 1]);
      var stage := ds[|ds| - 1].pldStage;
      if stage in init then init else init + [stage]
  }

  /** `model.Cards.FirstOrDefault(d => d.PldStage == stage)`, as an index. */
  function FindCard(cards: seq<DonutCard>, stage: string): (r: Option<nat>)
    ensures r.None? <==> forall i :: 0 <= i < |cards| ==> cards[i].pldStage != stage
    ensures r.Some? ==> r.value < |cards| && cards[r.value].pldStage == stage
  {
    if cards == [] then None
    else if cards[0].pldStage == stage then Some(0)
    else
      match FindCard(cards[1..], stage)
      case None => None
      case Some(i) => Some(i + 1)
  }

  lemma {:induction false} AbsentStageHasNoLevels(ds: seq<ApiDonut>, stage: string)
    requires stage !in StagesInOrder(ds)
    ensures LevelsOfStage(ds, stage) == []
    decreases |ds|
  {
    if ds != [] {
      AbsentStageHasNoLevels(ds[..|ds| - 1], stage);
    }
  }

  /**
   * GroupDonuts: one card per distinct stage in order of first appearance, each
   * holding exactly the donuts of its stage in input order.
   */
  method GroupDonuts(ds: seq<ApiDonut>) returns (cards: seq<DonutCard>)
    ensures |cards| == |StagesInOrder(ds)|
    ensures forall i :: 0 <= i < |cards| ==>
              cards[i].pldStage == StagesInOrder(ds)[i] && cards[i].cardLevels == LevelsOfStage(ds, cards[i].pldStage)
  {
    cards := [];
    var k := 0;
    while k < |ds|
      invariant 0 <= k <= |ds|
      invariant |cards| == |StagesInOrder(ds[..k])|
      invariant forall i :: 0 <= i < |cards| ==>
                  cards[i].pldStage == StagesInOrder(ds[..k])[i]
                  && cards[i].cardLevels == LevelsOfStage(ds[..k], cards[i].pldStage)
    {
      var apiDonut := ds[k];
      assert ds[..k + 1][..k] == ds[..k] && ds[..k + 1][k] == apiDonut;
      StagesInOrderDistinct(ds[..k]);
      ghost var prev := cards;
      var found := FindCard(cards, apiDonut.pldStage);
      var idx: nat;
      if found.None? {
        AbsentStageHasNoLevels(ds[..k], apiDonut.pldStage);
        cards := cards + [DonutCard(apiDonut.pldStage, [])];
        idx := |cards| - 1;
      } else {
        idx := found.value;
      }
      cards := cards[idx := cards[idx].(cardLevels := cards[idx].cardLevels + [CardLevelOf(apiDonut)])];
      forall i | 0 <= i < |cards|
        ensures cards[i].pldStage == StagesInOrder(ds[..k + 1])[i]
        ensures cards[i].cardLevels == LevelsOfStage(ds[..k + 1], cards[i].pldStage)
      {
        if i != idx {
          assert cards[i] == prev[i] && prev[i].pldStage != apiDonut.pldStage;
        }
      }
      k := k + 1;
    }
    assert ds[..|ds|] == ds;
  }

  predicate Distinct<T(==)>(xs: seq<T>) {
    forall i, j :: 0 <= i < j < |xs| ==> xs[i] != xs[j]
  }

  /** Cards never repeat a stage. */
  lemma {:induction false} StagesInOrderDistinct(ds: seq<ApiDonut>)
    ensures Distinct(StagesInOrder(ds))
    decreases |ds|
  {
    if ds != [] {
      var init := ds[..|ds| - 1];
      StagesInOrderDistinct(init);
      var st0, stage := StagesInOrder(init), ds[|ds| - 1].pldStage;
      if stage !in st0 {
        var st := st0 + [stage];
        assert StagesInOrder(ds) == st;
        forall i, j | 0 <= i < j < |st| ensures st[i] != st[j] {
          if j == |st0| {
            assert st[i] == st0[i] && st0[i] in st0;
          } else {
            assert st[i] == st0[i] && st[j] == st0[j];
          }
        }
      } else {
        assert StagesInOrder(ds) == st0;
      }
    }
  }

  /** There is a card for a stage exactly when some donut has that stage. */
  lemma {:induction false} StagesInOrderCover(ds: seq<ApiDonut>, stage: string)
    ensures stage in StagesInOrder(ds) <==> exists m :: 0 <= m < |ds| && ds[m].pldStage == stage
    decreases |ds|
  {
    if ds != [] {
      var init := ds[..|ds| - 1];
      StagesInOrderCover(init, stage);
      if exists m :: 0 <= m < |init| && init[m].pldStage == stage {
        var m :| 0 <= m < |init| && init[m].pldStage == stage;
        assert ds[m] == init[m];
      }
      if exists m :: 0 <= m < |ds| && ds[m].pldStage == stage {
        var m :| 0 <= m < |ds| && ds[m].pldStage == stage;
        if m < |init| { assert init[m] == ds[m]; }
      }
    }
  }

  /**
   * Cards come in order of first appearance: wherever the stage of a later card
   * occurs in the input, the stage of an earlier card has already occurred.
   */
  lemma {:induction false} StagesInFirstAppearanceOrder(ds: seq<ApiDonut>, i: nat, j: nat, m: nat)
    requires i < j < |StagesInOrder(ds)| && m < |ds| && ds[m].pldStage == StagesInOrder(ds)[j]
    ensures exists m' :: 0 <= m' < m && ds[m'].pldStage == StagesInOrder(ds)[i]
    decreases |ds|
  {
    var init := ds[..|ds| - 1];
    var st, st0 := StagesInOrder(ds), StagesInOrder(init);
    var last := ds[|ds| - 1];
    StagesInOrderCover(init, st[i]);
    if j < |st0| {
      assert st[i] == st0[i] && st[j] == st0[j];
      if m < |init| {
        assert init[m] == ds[m];
        StagesInFirstAppearanceOrder(init, i, j, m);
        var m' :| 0 <= m' < m && init[m'].pldStage == st0[i];
        assert ds[m'] == init[m'];
      } else {
        StagesInOrderCover(init, st[j]);
        var m0 :| 0 <= m0 < |init| && init[m0].pldStage == st[j];
        StagesInFirstAppearanceOrder(init, i, j, m0);
        var m' :| 0 <= m' < m0 && init[m'].pldStage == st0[i];
        assert ds[m'] == init[m'];
      }
    } else {
      assert st[j] == last.pldStage && last.pldStage !in st0;
      StagesInOrderCover(init, last.pldStage);
      assert m == |ds| - 1;
      assert st[i] == st0[i];
      var m' :| 0 <= m' < |init| && init[m'].pldStage == st[i];
      assert ds[m'] == init[m'];
    }
  }

  /** Total number of card levels over the cards of `stages`. */
  function TotalLevels(ds: seq<ApiDonut>, stages: seq<string>): nat
    decreases |stages|
  {
    if stages == [] then 0
    else TotalLevels(ds, stages[..|stages| - 1]) + |LevelsOfStage(ds, stages[|stages| - 1])|
  }

  lemma {:induction false} TotalLevelsStep(ds: seq<ApiDonut>, d: ApiDonut, stages: seq<string>)
    requires Distinct(stages)
    ensures TotalLevels(ds + [d], stages) == TotalLevels(ds, stages) + (if d.pldStage in stages then 1 else 0)
    decreases |stages|
  {
    var ds' := ds + [d];
    assert ds'[..|ds'| - 1] == ds;
    if stages != [] {
      var init := stages[..|stages| - 1];
      TotalLevelsStep(ds, d, init);
      assert d.pldStage in stages <==> d.pldStage in init || d.pldStage == stages[|stages| - 1] by {
        assert stages == init + [stages[|stages| - 1]];
      }
    }
  }

  /** Every donut lands in exactly one card: the card levels add up to the input length. */
  lemma {:induction false} EveryDonutAppendedOnce(ds: seq<ApiDonut>)
    ensures TotalLevels(ds, StagesInOrder(ds)) == |ds|
    decreases |ds|
  {
    if ds != [] {
      var init, d := ds[..|ds| - 1], ds[|ds| - 1];
      var st0 := StagesInOrder(init);
      EveryDonutAppendedOnce(init);
      StagesInOrderDistinct(init);
      assert init + [d] == ds;
      TotalLevelsStep(init, d, st0);
      if d.pldStage !in st0 {
        AbsentStageHasNoLevels(init, d.pldStage);
        assert (st0 + [d.pldStage])[..|st0|] == st0;
      }
    }
  }

  // ===========================================================================
  // Differentiated report

  datatype DiffStudent = DiffStudent(
    studentId: int, studentName: string, classId: int, className: Option<string>,
    pldStage: string, pldStageNum: int, pldLevel: int)

  datatype DiffRecord = DiffRecord(
    districtId: Option<int>, districtName: string, buildingId: Option<int>, buildingName: string,
    grade: Option<string>, subject: string, classId: int, className: string,
    studentList: seq<DiffStudent>)

  datatype Descriptor = Descriptor(pldDesc: string)

  datatype Statement = Statement(
    canStatement: string, practiceStatement: string, readyStatement: string,
    canDescription: string, needDescription: string, readyDescription: string)

  /** The descriptor lookup by stage name and the statement lookup by (stage name, level). */
  datatype Lookups = Lookups(descriptor: string -> Descriptor, statement: (string, int) -> Statement)

  datatype PldClass = PldClass(classId: string, className: string, studentNames: seq<string>)

  datatype PldLevel = PldLevel(levelNum: int, levelName: string, statement: Statement, classes: seq<PldClass>)

  datatype PldStage = PldStage(stageNum: int, stageName: string, descriptorText: string, levels: seq<PldLevel>)

  datatype Building = Building(buildingId: int, buildingName: string, stages: seq<PldStage>)

  datatype Report = Report(
    graphQlQuery: string, districtId: int, districtName: string, grade: string, subject: string,
    testEventName: string, testEventDate: string, buildings: seq<Building>)

  const AllNullRecords := "Differentiated report Kto1 returned all NULL records."

  predicate IsAnchor(r: DiffRecord) {
    r.districtId.Some? && r.buildingId.Some? && r.grade.Some?
  }

  /** `FirstOrDefault(r => r.DistrictId != null && r.BuildingId != null && r.Grade != null)`. */
  function FirstAnchor(recs: seq<DiffRecord>): (r: Option<DiffRecord>)
    ensures r.None? <==> forall i :: 0 <= i < |recs| ==> !IsAnchor(recs[i])
    ensures r.Some? ==> exists k :: 0 <= k < |recs| && recs[k] == r.value && IsAnchor(r.value)
                           && forall i :: 0 <= i < k ==> !IsAnchor(recs[i])
  {
    if recs == [] then None
    else if IsAnchor(recs[0]) then Some(recs[0])
    else
      var r := FirstAnchor(recs[1..]);
      assert r.Some? ==> exists k :: 1 <= k < |recs| && recs[k] == r.value && IsAnchor(r.value)
                           && forall i :: 0 <= i < k ==> !IsAnchor(recs[i]) by {
        if r.Some? {
          var k' :| 0 <= k' < |recs[1..]| && recs[1..][k'] == r.value
                    && forall i :: 0 <= i < k' ==> !IsAnchor(recs[1..][i]);
          forall i | 1 <= i < k' + 1 ensures !IsAnchor(recs[i]) { assert recs[i] == recs[1..][i - 1]; }
        }
      }
      r
  }

  /** A student whose id, as text, is one of the requested ids. */
  predicate IsRequested(s: DiffStudent, requested: seq<string>) {
    IntToString(s.studentId) in requested
  }

  /** Requesting the text of one id selects exactly the students with that id. */
  lemma RequestedIdSelectsThatStudent(s: DiffStudent, id: int)
    ensures IsRequested(s, [IntToString(id)]) <==> s.studentId == id
  {
    if IsRequested(s, [IntToString(id)]) {
      IntToStringInjective(s.studentId, id);
    }
  }

  /** The requested students of a record, in record order. */
  function RequestedStudents(ss: seq<DiffStudent>, requested: seq<string>): (r: seq<DiffStudent>)
    ensures forall s :: s in r <==> s in ss && IsRequested(s, requested)
    decreases |ss|
  {
    if ss == [] then []
    else
      var init, last := ss[..|ss| - 1], ss[|ss| - 1];
      assert ss == init + [last];
      RequestedStudents(init, requested) + (if IsRequested(last, requested) then [last] else [])
  }

  /** Each requested student is kept as often as it occurs, and no other student is kept. */
  lemma {:induction false} RequestedStudentsKeepMultiplicity(ss: seq<DiffStudent>, requested: seq<string>, x: DiffStudent)
    ensures multiset(RequestedStudents(ss, requested))[x] == if IsRequested(x, requested) then multiset(ss)[x] else 0
    decreases |ss|
  {
    if ss != [] {
      var init, last := ss[..|ss| - 1], ss[|ss| - 1];
      RequestedStudentsKeepMultiplicity(init, requested, x);
      assert ss == init + [last];
      FilterCountStep(init, last, RequestedStudents(init, requested), IsRequested(last, requested), x, IsRequested(x, requested));
    }
  }

  /** Filtering a concatenation filters each part and keeps their order. */
  lemma {:induction false} RequestedStudentsOfConcat(a: seq<DiffStudent>, b: seq<DiffStudent>, requested: seq<string>)
    ensures RequestedStudents(a + b, requested) == RequestedStudents(a, requested) + RequestedStudents(b, requested)
    decreases |b|
  {
    if b != [] {
      var init, last := b[..|b| - 1], b[|b| - 1];
      assert (a + b)[..|a + b| - 1] == a + init;
      assert (a + b)[|a + b| - 1] == last;
      RequestedStudentsOfConcat(a, init, requested);
    } else {
      assert a + b == a;
    }
  }

  predicate HasStage(fs: seq<DiffStudent>, n: int) {
    exists s :: s in fs && s.pldStageNum == n
  }

  predicate HasLevel(fs: seq<DiffStudent>, n: int, level: int) {
    exists s :: s in fs && s.pldStageNum == n && s.pldLevel == level
  }

  /** The stage name of the first student at stage number `n`. */
  function FirstStageName(fs: seq<DiffStudent>, n: int): (name: string)
    requires HasStage(fs, n)
    ensures exists k :: 0 <= k < |fs| && fs[k].pldStageNum == n && fs[k].pldStage == name
                        && forall j :: 0 <= j < k ==> fs[j].pldStageNum != n
  {
    if fs[0].pldStageNum == n then fs[0].pldStage
    else
      assert HasStage(fs[1..], n) by {
        var s :| s in fs && s.pldStageNum == n;
        assert s in fs[1..];
      }
      var name := FirstStageName(fs[1..], n);
      assert exists k :: 1 <= k < |fs| && fs[k].pldStageNum == n && fs[k].pldStage == name
                        && forall j :: 0 <= j < k ==> fs[j].pldStageNum != n by {
        var k' :| 0 <= k' < |fs[1..]| && fs[1..][k'].pldStageNum == n && fs[1..][k'].pldStage == name
                  && forall j :: 0 <= j < k' ==> fs[1..][j].pldStageNum != n;
        forall j | 1 <= j < k' + 1 ensures fs[j].pldStageNum != n { assert fs[j] == fs[1..][j - 1]; }
      }
      name
  }

  /**
   * The fixed PLD rule: "pre-emerging" and "transitioning" have no level 3,
   * "independent" has neither level 2 nor level 3 (stage names compared case-insensitively).
   */
  predicate Eligible(stageName: string, level: int) {
    var low := ToLower(stageName);
    !((low == "pre-emerging" && level == 3) ||
      (low == "transitioning" && level == 3) ||
      (low == "independent" && (level == 2 || level == 3)))
  }

  /** `pldLevel.Classes.FirstOrDefault(c => c.ClassId == key)`, as an index. */
  function FindClass(classes: seq<PldClass>, key: string): (r: Option<nat>)
    ensures r.None? <==> forall i :: 0 <= i < |classes| ==> classes[i].classId != key
    ensures r.Some? ==> r.value < |classes| && classes[r.value].classId == key
    ensures r.Some? ==> forall j :: 0 <= j < r.value ==> classes[j].classId != key
  {
    if classes == [] then None
    else if classes[0].classId == key then Some(0)
    else
      match FindClass(classes[1..], key)
      case None => None
      case Some(i) => Some(i + 1)
  }

  /**
   * Files one student under its class: the lookup keys on the student's class id,
   * while a new class takes the record's class id when the student's is 0.
   */
  function AddToClass(classes: seq<PldClass>, s: DiffStudent, rec: DiffRecord): seq<PldClass> {
    match FindClass(classes, IntToString(s.classId))
    case None =>
      classes + [PldClass(if s.classId != 0 then IntToString(s.classId) else IntToString(rec.classId),
                          GetOr(s.className, rec.className), [s.studentName])]
    case Some(i) =>
      classes[i := classes[i].(studentNames := classes[i].studentNames + [s.studentName])]
  }

  predicate AtLevel(s: DiffStudent, n: int, level: int) {
    s.pldStageNum == n && s.pldLevel == level
  }

  /** The classes of level `level` of stage `n`, built student by student. */
  function Classes(fs: seq<DiffStudent>, n: int, level: int, rec: DiffRecord): seq<PldClass>
    decreases |fs|
  {
    if fs == [] then []
    else
      var init := Classes(fs[..|fs| - 1], n, level, rec);
      var s := fs[|fs| - 1];
      if AtLevel(s, n, level) then AddToClass(init, s, rec) else init
  }

  function MakeLevel(fs: seq<DiffStudent>, n: int, stageName: string, level: int, rec: DiffRecord, lk: Lookups): PldLevel {
    PldLevel(level, "Level " + IntToString(level), lk.statement(stageName, level), Classes(fs, n, level, rec))
  }

  /** The levels 1 .. `upTo` - 1 of stage `n` that are eligible and held by some student. */
  function Levels(fs: seq<DiffStudent>, n: int, stageName: string, rec: DiffRecord, lk: Lookups, upTo: int): seq<PldLevel>
    decreases upTo
  {
    if upTo <= 1 then []
    else
      var level := upTo - 1;
      Levels(fs, n, stageName, rec, lk, level)
        + (if Eligible(stageName, level) && HasLevel(fs, n, level) then [MakeLevel(fs, n, stageName, level, rec, lk)] else [])
  }

  function MakeStage(fs: seq<DiffStudent>, n: int, rec: DiffRecord, lk: Lookups): PldStage
    requires HasStage(fs, n)
  {
    var name := FirstStageName(fs, n);
    PldStage(n, name, lk.descriptor(name).pldDesc, Levels(fs, n, name, rec, lk, 4))
  }

  /** The stages 1 .. `upTo` - 1 held by some requested student. */
  function Stages(fs: seq<DiffStudent>, rec: DiffRecord, lk: Lookups, upTo: int): seq<PldStage>
    decreases upTo
  {
    if upTo <= 1 then []
    else
      var n := upTo - 1;
      Stages(fs, rec, lk, n) + (if HasStage(fs, n) then [MakeStage(fs, n, rec, lk)] else [])
  }

  function BuildingOf(rec: DiffRecord, requested: seq<string>, lk: Lookups): Building
    requires rec.buildingId.Some?
  {
    Building(rec.buildingId.value, rec.buildingName, Stages(RequestedStudents(rec.studentList, requested), rec, lk, 6))
  }

  /** One building per record that has a building id, in record order. */
  function Buildings(recs: seq<DiffRecord>, requested: seq<string>, lk: Lookups): seq<Building>
    decreases |recs|
  {
    if recs == [] then []
    else
      var rec := recs[|recs| - 1];
      Buildings(recs[..|recs| - 1], requested, lk)
        + (if rec.buildingId.Some? then [BuildingOf(rec, requested, lk)] else [])
  }

  /**
   * The report: an error when no record has district, building and grade;
   * otherwise the header of the first such record and the buildings.
   */
  function DifferentiatedReport(
    recs: seq<DiffRecord>, requested: seq<string>, lk: Lookups,
    testEventName: string, testEventDate: string, query: string): (r: Result<Report, string>)
    ensures r.Failure? <==> forall i :: 0 <= i < |recs| ==> !IsAnchor(recs[i])
    ensures r.Failure? ==> r.error == AllNullRecords
    ensures r.Success? ==>
              exists k :: 0 <= k < |recs| && IsAnchor(recs[k]) && (forall i :: 0 <= i < k ==> !IsAnchor(recs[i]))
                && r.value.districtId == recs[k].districtId.value && r.value.districtName == recs[k].districtName
                && r.value.grade == recs[k].grade.value && r.value.subject == recs[k].subject
  {
    match FirstAnchor(recs)
    case None => Failure(AllNullRecords)
    case Some(a) =>
      Success(Report(query, a.districtId.value, a.districtName, a.grade.value, a.subject,
                     testEventName, testEventDate, Buildings(recs, requested, lk)))
  }

  // ---------------------------------------------------------------------------
  // The imperative aggregator

  /** GetDifferentiatedReportKto1Async, after the API call: the nested loops over records, stages, levels and students. */
  method GetDifferentiatedReport(
    recs: seq<DiffRecord>, requested: seq<string>, lk: Lookups,
    testEventName: string, testEventDate: string, query: string) returns (r: Result<Report, string>)
    ensures r == DifferentiatedReport(recs, requested, lk, testEventName, testEventDate, query)
  {
    var anchor := FirstAnchor(recs);
    if anchor.None? {
      return Failure(AllNullRecords);
    }
    var a := anchor.value;
    var buildings: seq<Building> := [];
    var i := 0;
    while i < |recs|
      invariant 0 <= i <= |recs|
      invariant buildings == Buildings(recs[..i], requested, lk)
    {
      var rec := recs[i];
      assert recs[..i + 1][..i] == recs[..i] && recs[..i + 1][i] == rec;
      if rec.buildingId.Some? {
        var building := BuildBuilding(rec, requested, lk);
        buildings := buildings + [building];
      }
      i := i + 1;
    }
    assert recs[..|recs|] == recs;
    r := Success(Report(query, a.districtId.value, a.districtName, a.grade.value, a.subject,
                        testEventName, testEventDate, buildings));
  }

  /** The requested students of a record (the foreach with `continue`). */
  method FilterRequested(ss: seq<DiffStudent>, requested: seq<string>) returns (fs: seq<DiffStudent>)
    ensures fs == RequestedStudents(ss, requested)
  {
    fs := [];
    var k := 0;
    while k < |ss|
      invariant 0 <= k <= |ss|
      invariant fs == RequestedStudents(ss[..k], requested)
    {
      assert ss[..k + 1][..k] == ss[..k] && ss[..k + 1][k] == ss[k];
      if IntToString(ss[k].studentId) in requested {
        fs := fs + [ss[k]];
      }
      k := k + 1;
    }
    assert ss[..|ss|] == ss;
  }

  /** One building: for stage numbers 1 to 5, the stage if some requested student holds it. */
  method BuildBuilding(rec: DiffRecord, requested: seq<string>, lk: Lookups) returns (b: Building)
    requires rec.buildingId.Some?
    ensures b == BuildingOf(rec, requested, lk)
  {
    var stages: seq<PldStage> := [];
    ghost var fs0 := RequestedStudents(rec.studentList, requested);
    var stageCount := 1;
    while stageCount < 6
      invariant 1 <= stageCount <= 6
      invariant stages == Stages(fs0, rec, lk, stageCount)
    {
      if |rec.studentList| == 0 {
        assert !HasStage(fs0, stageCount);
        stageCount := stageCount + 1;
        continue;
      }
      var fs := FilterRequested(rec.studentList, requested);
      if |fs| == 0 {
        stageCount := stageCount + 1;
        continue;
      }
      var holder := FirstAtStage(fs, stageCount);
      if holder.Some? {
        var stage := BuildStage(fs, stageCount, rec, lk);
        stages := stages + [stage];
      }
      stageCount := stageCount + 1;
    }
    b := Building(rec.buildingId.value, rec.buildingName, stages);
  }

  /** `filteredStudentList.FirstOrDefault(s => s.PldStageNum == n)`, as an option. */
  function FirstAtStage(fs: seq<DiffStudent>, n: int): (r: Option<DiffStudent>)
    ensures r.None? <==> !HasStage(fs, n)
    ensures r.Some? ==> HasStage(fs, n) && r.value.pldStage == FirstStageName(fs, n)
  {
    if fs == [] then None
    else if fs[0].pldStageNum == n then Some(fs[0])
    else
      var r := FirstAtStage(fs[1..], n);
      assert HasStage(fs, n) ==> HasStage(fs[1..], n) by {
        if HasStage(fs, n) {
          var s :| s in fs && s.pldStageNum == n;
          assert s in fs[1..];
        }
      }
      r
  }

  /** One stage: its descriptor, then levels 1 to 3 that are eligible and held by some student. */
  method BuildStage(fs: seq<DiffStudent>, n: int, rec: DiffRecord, lk: Lookups) returns (stage: PldStage)
    requires HasStage(fs, n)
    ensures stage == MakeStage(fs, n, rec, lk)
  {
    var name := FirstStageName(fs, n);
    var descriptor := lk.descriptor(name);
    var levels: seq<PldLevel> := [];
    var levelCount := 1;
    while levelCount < 4
      invariant 1 <= levelCount <= 4
      invariant levels == Levels(fs, n, name, rec, lk, levelCount)
    {
      var low := ToLower(name);
      if (low == "pre-emerging" && levelCount == 3) ||
         (low == "transitioning" && levelCount == 3) ||
         (low == "independent" && (levelCount == 2 || levelCount == 3)) {
        assert !Eligible(name, levelCount);
        levelCount := levelCount + 1;
        continue;
      }
      assert Eligible(name, levelCount);
      var statement := lk.statement(name, levelCount);
      if exists s :: s in fs && s.pldStageNum == n && s.pldLevel == levelCount {
        var classes := BuildClasses(fs, n, levelCount, rec);
        levels := levels + [PldLevel(levelCount, "Level " + IntToString(levelCount), statement, classes)];
        assert levels == Levels(fs, n, name, rec, lk, levelCount + 1);
      } else {
        assert !HasLevel(fs, n, levelCount);
      }
      levelCount := levelCount + 1;
    }
    stage := PldStage(n, name, descriptor.pldDesc, levels);
  }

  /** The classes of one (stage, level): each matching student's name filed under its class. */
  method BuildClasses(fs: seq<DiffStudent>, n: int, level: int, rec: DiffRecord) returns (classes: seq<PldClass>)
    ensures classes == Classes(fs, n, level, rec)
  {
    classes := [];
    var k := 0;
    while k < |fs|
      invariant 0 <= k <= |fs|
      invariant classes == Classes(fs[..k], n, level, rec)
    {
      var student := fs[k];
      assert fs[..k + 1][..k] == fs[..k] && fs[..k + 1][k] == student;
      if student.pldStageNum == n && student.pldLevel == level {
        var found := FindClass(classes, IntToString(student.classId));
        if found.None? {
          var current := PldClass(if student.classId != 0 then IntToString(student.classId) else IntToString(rec.classId),
                                  GetOr(student.className, rec.className), [student.studentName]);
          classes := classes + [current];
        } else {
          var c := classes[found.value];
          classes := classes[found.value := c.(studentNames := c.studentNames + [student.studentName])];
        }
      }
      k := k + 1;
    }
    assert fs[..|fs|] == fs;
  }

  // ---------------------------------------------------------------------------
  // Properties of the report tree

  /** Level list of stage `n`: ascending numbers below `upTo`, each eligible and held, and none missing. */
  predicate LevelsSound(ls: seq<PldLevel>, fs: seq<DiffStudent>, n: int, name: string, rec: DiffRecord, lk: Lookups, upTo: int) {
    LevelsMade(ls, fs, n, name, rec, lk, upTo) && LevelsAscending(ls) && LevelsComplete(ls, fs, n, name, upTo)
  }

  /** Every level is below `upTo`, eligible, held, and built from its own number. */
  predicate LevelsMade(ls: seq<PldLevel>, fs: seq<DiffStudent>, n: int, name: string, rec: DiffRecord, lk: Lookups, upTo: int) {
    forall i :: 0 <= i < |ls| ==>
      1 <= ls[i].levelNum < upTo && Eligible(name, ls[i].levelNum) && HasLevel(fs, n, ls[i].levelNum)
      && ls[i] == MakeLevel(fs, n, name, ls[i].levelNum, rec, lk)
  }

  predicate LevelsAscending(ls: seq<PldLevel>) {
    forall i, j :: 0 <= i < j < |ls| ==> ls[i].levelNum < ls[j].levelNum
  }

  /** Every eligible, held level below `upTo` is listed. */
  predicate LevelsComplete(ls: seq<PldLevel>, fs: seq<DiffStudent>, n: int, name: string, upTo: int) {
    forall v :: 1 <= v < upTo && Eligible(name, v) && HasLevel(fs, n, v) ==>
      exists i :: 0 <= i < |ls| && ls[i].levelNum == v
  }

  lemma {:induction false} LevelsAreEligibleAndHeld(fs: seq<DiffStudent>, n: int, name: string, rec: DiffRecord, lk: Lookups, upTo: int)
    ensures LevelsSound(Levels(fs, n, name, rec, lk, upTo), fs, n, name, rec, lk, upTo)
    decreases upTo
  {
    if upTo > 1 {
      var level := upTo - 1;
      LevelsAreEligibleAndHeld(fs, n, name, rec, lk, level);
      var ls0 := Levels(fs, n, name, rec, lk, level);
      if Eligible(name, level) && HasLevel(fs, n, level) {
        var l := MakeLevel(fs, n, name, level, rec, lk);
        assert Levels(fs, n, name, rec, lk, upTo) == ls0 + [l];
        assert l.levelNum == level;
        LevelsMadeStep(ls0, l, fs, n, name, rec, lk, level);
        LevelsAscendingStep(ls0, l, fs, n, name, rec, lk, level);
        LevelsCompleteStep(ls0, l, fs, n, name, level);
      } else {
        assert Levels(fs, n, name, rec, lk, upTo) == ls0;
        LevelsSoundSkip(ls0, fs, n, name, rec, lk, level);
      }
    }
  }

  lemma LevelsMadeStep(ls0: seq<PldLevel>, l: PldLevel, fs: seq<DiffStudent>, n: int, name: string, rec: DiffRecord, lk: Lookups, level: int)
    requires 1 <= level && LevelsMade(ls0, fs, n, name, rec, lk, level)
    requires Eligible(name, level) && HasLevel(fs, n, level) && l == MakeLevel(fs, n, name, level, rec, lk) && l.levelNum == level
    ensures LevelsMade(ls0 + [l], fs, n, name, rec, lk, level + 1)
  {
    var ls := ls0 + [l];
    forall i | 0 <= i < |ls|
      ensures 1 <= ls[i].levelNum < level + 1 && Eligible(name, ls[i].levelNum) && HasLevel(fs, n, ls[i].levelNum)
              && ls[i] == MakeLevel(fs, n, name, ls[i].levelNum, rec, lk)
    {
      if i < |ls0| { assert ls[i] == ls0[i]; }
    }
  }

  lemma LevelsAscendingStep(ls0: seq<PldLevel>, l: PldLevel, fs: seq<DiffStudent>, n: int, name: string, rec: DiffRecord, lk: Lookups, level: int)
    requires LevelsMade(ls0, fs, n, name, rec, lk, level) && LevelsAscending(ls0) && l.levelNum == level
    ensures LevelsAscending(ls0 + [l])
  {
    var ls := ls0 + [l];
    forall i, j | 0 <= i < j < |ls| ensures ls[i].levelNum < ls[j].levelNum {
      assert ls[i] == ls0[i];
      if j < |ls0| { assert ls[j] == ls0[j]; }
    }
  }

  lemma LevelsCompleteStep(ls0: seq<PldLevel>, l: PldLevel, fs: seq<DiffStudent>, n: int, name: string, level: int)
    requires LevelsComplete(ls0, fs, n, name, level) && l.levelNum == level
    ensures LevelsComplete(ls0 + [l], fs, n, name, level + 1)
  {
    var ls := ls0 + [l];
    forall v | 1 <= v < level + 1 && Eligible(name, v) && HasLevel(fs, n, v)
      ensures exists i :: 0 <= i < |ls| && ls[i].levelNum == v
    {
      if v < level {
        var i :| 0 <= i < |ls0| && ls0[i].levelNum == v;
        assert ls[i] == ls0[i];
      } else {
        assert ls[|ls0|].levelNum == v;
      }
    }
  }

  lemma LevelsSoundSkip(ls0: seq<PldLevel>, fs: seq<DiffStudent>, n: int, name: string, rec: DiffRecord, lk: Lookups, level: int)
    requires LevelsSound(ls0, fs, n, name, rec, lk, level)
    requires !(Eligible(name, level) && HasLevel(fs, n, level))
    ensures LevelsSound(ls0, fs, n, name, rec, lk, level + 1)
  {
  }

  /** Stage list of a building: ascending numbers below `upTo`, exactly the stages some requested student holds. */
  predicate StagesSound(sts: seq<PldStage>, fs: seq<DiffStudent>, rec: DiffRecord, lk: Lookups, upTo: int) {
    StagesMade(sts, fs, rec, lk, upTo) && StagesAscending(sts) && StagesComplete(sts, fs, upTo)
  }

  /** Every stage is below `upTo`, held, and built from its own number. */
  predicate StagesMade(sts: seq<PldStage>, fs: seq<DiffStudent>, rec: DiffRecord, lk: Lookups, upTo: int) {
    forall i :: 0 <= i < |sts| ==>
      1 <= sts[i].stageNum < upTo && HasStage(fs, sts[i].stageNum)
      && sts[i] == MakeStage(fs, sts[i].stageNum, rec, lk)
  }

  predicate StagesAscending(sts: seq<PldStage>) {
    forall i, j :: 0 <= i < j < |sts| ==> sts[i].stageNum < sts[j].stageNum
  }

  /** Every held stage below `upTo` is listed. */
  predicate StagesComplete(sts: seq<PldStage>, fs: seq<DiffStudent>, upTo: int) {
    forall n :: 1 <= n < upTo && HasStage(fs, n) ==> exists i :: 0 <= i < |sts| && sts[i].stageNum == n
  }

  lemma {:induction false} StagesAreThoseHeld(fs: seq<DiffStudent>, rec: DiffRecord, lk: Lookups, upTo: int)
    ensures StagesSound(Stages(fs, rec, lk, upTo), fs, rec, lk, upTo)
    decreases upTo
  {
    if upTo > 1 {
      var n := upTo - 1;
      StagesAreThoseHeld(fs, rec, lk, n);
      var sts0 := Stages(fs, rec, lk, n);
      if HasStage(fs, n) {
        var st := MakeStage(fs, n, rec, lk);
        assert Stages(fs, rec, lk, upTo) == sts0 + [st];
        assert st.stageNum == n;
        StagesMadeStep(sts0, st, fs, rec, lk, n);
        StagesAscendingStep(sts0, st, fs, rec, lk, n);
        StagesCompleteStep(sts0, st, fs, n);
      } else {
        assert Stages(fs, rec, lk, upTo) == sts0;
        StagesSoundSkip(sts0, fs, rec, lk, n);
      }
    }
  }

  lemma StagesMadeStep(sts0: seq<PldStage>, st: PldStage, fs: seq<DiffStudent>, rec: DiffRecord, lk: Lookups, n: int)
    requires 1 <= n && StagesMade(sts0, fs, rec, lk, n) && HasStage(fs, n) && st == MakeStage(fs, n, rec, lk) && st.stageNum == n
    ensures StagesMade(sts0 + [st], fs, rec, lk, n + 1)
  {
    var sts := sts0 + [st];
    forall i | 0 <= i < |sts|
      ensures 1 <= sts[i].stageNum < n + 1 && HasStage(fs, sts[i].stageNum)
              && sts[i] == MakeStage(fs, sts[i].stageNum, rec, lk)
    {
      if i < |sts0| { assert sts[i] == sts0[i]; }
    }
  }

  lemma StagesAscendingStep(sts0: seq<PldStage>, st: PldStage, fs: seq<DiffStudent>, rec: DiffRecord, lk: Lookups, n: int)
    requires StagesMade(sts0, fs, rec, lk, n) && StagesAscending(sts0) && st.stageNum == n
    ensures StagesAscending(sts0 + [st])
  {
    var sts := sts0 + [st];
    forall i, j | 0 <= i < j < |sts| ensures sts[i].stageNum < sts[j].stageNum {
      assert sts[i] == sts0[i];
      if j < |sts0| { assert sts[j] == sts0[j]; }
    }
  }

  lemma StagesCompleteStep(sts0: seq<PldStage>, st: PldStage, fs: seq<DiffStudent>, n: int)
    requires StagesComplete(sts0, fs, n) && st.stageNum == n
    ensures StagesComplete(sts0 + [st], fs, n + 1)
  {
    var sts := sts0 + [st];
    forall m | 1 <= m < n + 1 && HasStage(fs, m)
      ensures exists i :: 0 <= i < |sts| && sts[i].stageNum == m
    {
      if m < n {
        var i :| 0 <= i < |sts0| && sts0[i].stageNum == m;
        assert sts[i] == sts0[i];
      } else {
        assert sts[|sts0|].stageNum == m;
      }
    }
  }

  lemma StagesSoundSkip(sts0: seq<PldStage>, fs: seq<DiffStudent>, rec: DiffRecord, lk: Lookups, n: int)
    requires StagesSound(sts0, fs, rec, lk, n) && !HasStage(fs, n)
    ensures StagesSound(sts0, fs, rec, lk, n + 1)
  {
  }

  /** The records that carry a building id, in order. */
  function WithBuilding(recs: seq<DiffRecord>): (r: seq<DiffRecord>)
    ensures forall i :: 0 <= i < |r| ==> r[i].buildingId.Some? && r[i] in recs
    ensures forall j :: 0 <= j < |recs| && recs[j].buildingId.Some? ==> recs[j] in r
    decreases |recs|
  {
    if recs == [] then []
    else
      var init, rec := recs[..|recs| - 1], recs[|recs| - 1];
      var r := WithBuilding(init) + (if rec.buildingId.Some? then [rec] else []);
      assert forall j :: 0 <= j < |recs| - 1 ==> recs[j] == init[j];
      r
  }

  /** Each record with a building id is kept as often as it occurs, and no other record is kept. */
  lemma {:induction false} WithBuildingKeepsMultiplicity(recs: seq<DiffRecord>, x: DiffRecord)
    ensures multiset(WithBuilding(recs))[x] == if x.buildingId.Some? then multiset(recs)[x] else 0
    decreases |recs|
  {
    if recs != [] {
      var init, rec := recs[..|recs| - 1], recs[|recs| - 1];
      WithBuildingKeepsMultiplicity(init, x);
      assert recs == init + [rec];
      FilterCountStep(init, rec, WithBuilding(init), rec.buildingId.Some?, x, x.buildingId.Some?);
    }
  }

  /** One step of a filter's count: appending `last`, kept or not, to a filtered prefix. */
  lemma FilterCountStep<T>(init: seq<T>, last: T, kept: seq<T>, keepLast: bool, x: T, keepX: bool)
    requires x == last ==> keepLast == keepX
    requires multiset(kept)[x] == if keepX then multiset(init)[x] else 0
    ensures multiset(kept + (if keepLast then [last] else []))[x] == if keepX then multiset(init + [last])[x] else 0
  {
    assert multiset(init + [last]) == multiset(init) + multiset{last};
  }

  /** Filtering a concatenation filters each part and keeps their order. */
  lemma {:induction false} WithBuildingOfConcat(a: seq<DiffRecord>, b: seq<DiffRecord>)
    ensures WithBuilding(a + b) == WithBuilding(a) + WithBuilding(b)
    decreases |b|
  {
    if b != [] {
      var init, rec := b[..|b| - 1], b[|b| - 1];
      assert (a + b)[..|a + b| - 1] == a + init;
      assert (a + b)[|a + b| - 1] == rec;
      WithBuildingOfConcat(a, init);
    } else {
      assert a + b == a;
    }
  }

  /** One building per record with a building id, in record order; records without one are skipped. */
  lemma {:induction false} BuildingsFollowRecords(recs: seq<DiffRecord>, requested: seq<string>, lk: Lookups)
    ensures |Buildings(recs, requested, lk)| == |WithBuilding(recs)|
    ensures forall i :: 0 <= i < |WithBuilding(recs)| ==>
              Buildings(recs, requested, lk)[i] == BuildingOf(WithBuilding(recs)[i], requested, lk)
    decreases |recs|
  {
    if recs != [] {
      var init := recs[..|recs| - 1];
      BuildingsFollowRecords(init, requested, lk);
      var bs0, ws0 := Buildings(init, requested, lk), WithBuilding(init);
      var bs, ws := Buildings(recs, requested, lk), WithBuilding(recs);
      forall i | 0 <= i < |ws| ensures bs[i] == BuildingOf(ws[i], requested, lk) {
        if i < |ws0| {
          assert ws[i] == ws0[i] && bs[i] == bs0[i];
        }
      }
    }
  }

  /** A stage obeys the PLD rule: its number is 1 to 5, its levels are 1 to 3 and eligible. */
  predicate StageEligible(st: PldStage) {
    1 <= st.stageNum <= 5
    && forall l :: l in st.levels ==> 1 <= l.levelNum <= 3 && Eligible(st.stageName, l.levelNum)
  }

  /** Every stage of every building of a report obeys the PLD rule. */
  predicate AllLevelsEligible(bs: seq<Building>) {
    forall b, st :: b in bs && st in b.stages ==> StageEligible(st)
  }

  lemma MadeStageIsEligible(fs: seq<DiffStudent>, n: int, rec: DiffRecord, lk: Lookups)
    requires 1 <= n <= 5 && HasStage(fs, n)
    ensures StageEligible(MakeStage(fs, n, rec, lk))
  {
    var st := MakeStage(fs, n, rec, lk);
    LevelsAreEligibleAndHeld(fs, n, st.stageName, rec, lk, 4);
    forall l | l in st.levels ensures 1 <= l.levelNum <= 3 && Eligible(st.stageName, l.levelNum) {
      var j :| 0 <= j < |st.levels| && st.levels[j] == l;
    }
  }

  lemma BuildingIsEligible(rec: DiffRecord, requested: seq<string>, lk: Lookups)
    requires rec.buildingId.Some?
    ensures AllLevelsEligible([BuildingOf(rec, requested, lk)])
  {
    var b := BuildingOf(rec, requested, lk);
    var fs := RequestedStudents(rec.studentList, requested);
    StagesAreThoseHeld(fs, rec, lk, 6);
    forall st | st in b.stages ensures StageEligible(st) {
      var i :| 0 <= i < |b.stages| && b.stages[i] == st;
      MadeStageIsEligible(fs, st.stageNum, rec, lk);
    }
  }

  lemma ReportLevelsAreEligible(
    recs: seq<DiffRecord>, requested: seq<string>, lk: Lookups,
    testEventName: string, testEventDate: string, query: string)
    requires DifferentiatedReport(recs, requested, lk, testEventName, testEventDate, query).Success?
    ensures AllLevelsEligible(DifferentiatedReport(recs, requested, lk, testEventName, testEventDate, query).value.buildings)
  {
    BuildingsAreEligible(recs, requested, lk);
  }

  lemma BuildingsAreEligible(recs: seq<DiffRecord>, requested: seq<string>, lk: Lookups)
    ensures AllLevelsEligible(Buildings(recs, requested, lk))
  {
    var bs, ws := Buildings(recs, requested, lk), WithBuilding(recs);
    BuildingsFollowRecords(recs, requested, lk);
    forall b, st | b in bs && st in b.stages ensures StageEligible(st) {
      var k :| 0 <= k < |bs| && bs[k] == b;
      BuildingIsEligible(ws[k], requested, lk);
    }
  }

  /** The level rule on its own: an "independent" stage only ever shows level 1. */
  lemma IndependentShowsOnlyLevelOne(fs: seq<DiffStudent>, n: int, name: string, rec: DiffRecord, lk: Lookups)
    requires ToLower(name) == "independent"
    ensures forall l :: l in Levels(fs, n, name, rec, lk, 4) ==> l.levelNum == 1
  {
    var ls := Levels(fs, n, name, rec, lk, 4);
    LevelsAreEligibleAndHeld(fs, n, name, rec, lk, 4);
    forall l | l in ls ensures l.levelNum == 1 {
      var i :| 0 <= i < |ls| && ls[i] == l;
    }
  }

  /** Every student name filed under the classes, in class order. */
  function AllNames(cs: seq<PldClass>): seq<string>
    decreases |cs|
  {
    if cs == [] then [] else AllNames(cs[..|cs| - 1]) + cs[|cs| - 1].studentNames
  }

  /** Names of the students at (stage `n`, level `level`), in list order. */
  function NamesAtLevel(fs: seq<DiffStudent>, n: int, level: int): seq<string>
    decreases |fs|
  {
    if fs == [] then []
    else
      var s := fs[|fs| - 1];
      NamesAtLevel(fs[..|fs| - 1], n, level) + (if AtLevel(s, n, level) then [s.studentName] else [])
  }

  lemma {:induction false} AllNamesAppendAt(cs: seq<PldClass>, i: nat, x: string)
    requires i < |cs|
    ensures multiset(AllNames(cs[i := cs[i].(studentNames := cs[i].studentNames + [x])]))
            == multiset(AllNames(cs)) + multiset{x}
    decreases |cs|
  {
    var cs' := cs[i := cs[i].(studentNames := cs[i].studentNames + [x])];
    var init := cs[..|cs| - 1];
    if i == |cs| - 1 {
      assert cs'[..|cs'| - 1] == init;
    } else {
      AllNamesAppendAt(init, i, x);
      assert cs'[..|cs'| - 1] == init[i := init[i].(studentNames := init[i].studentNames + [x])];
    }
  }

  /** A class exists only with at least one student in it. */
  predicate NoEmptyClass(cs: seq<PldClass>) {
    forall i :: 0 <= i < |cs| ==> |cs[i].studentNames| > 0
  }

  /** Filing one student adds exactly that student's name. */
  lemma AddToClassNames(cs: seq<PldClass>, s: DiffStudent, rec: DiffRecord)
    ensures multiset(AllNames(AddToClass(cs, s, rec))) == multiset(AllNames(cs)) + multiset{s.studentName}
  {
    match FindClass(cs, IntToString(s.classId))
    case None =>
      var c := PldClass(if s.classId != 0 then IntToString(s.classId) else IntToString(rec.classId),
                        GetOr(s.className, rec.className), [s.studentName]);
      assert (cs + [c])[..|cs|] == cs;
    case Some(i) =>
      AllNamesAppendAt(cs, i, s.studentName);
  }

  /**
   * The classes of a level partition its students: every matching student's
   * name is filed exactly once.
   */
  lemma {:induction false} ClassesPartitionStudents(fs: seq<DiffStudent>, n: int, level: int, rec: DiffRecord)
    ensures multiset(AllNames(Classes(fs, n, level, rec))) == multiset(NamesAtLevel(fs, n, level))
    decreases |fs|
  {
    if fs != [] {
      var init, s := fs[..|fs| - 1], fs[|fs| - 1];
      ClassesPartitionStudents(init, n, level, rec);
      if AtLevel(s, n, level) {
        AddToClassNames(Classes(init, n, level, rec), s, rec);
      }
    }
  }

  /** No class of a level is empty. */
  lemma {:induction false} ClassesAreNonEmpty(fs: seq<DiffStudent>, n: int, level: int, rec: DiffRecord)
    ensures NoEmptyClass(Classes(fs, n, level, rec))
    decreases |fs|
  {
    if fs != [] {
      ClassesAreNonEmpty(fs[..|fs| - 1], n, level, rec);
    }
  }

  predicate DistinctClassIds(cs: seq<PldClass>) {
    forall i, j :: 0 <= i < j < |cs| ==> cs[i].classId != cs[j].classId
  }

  /** When every student at the level has a class id, the classes have distinct ids. */
  lemma {:induction false} ClassIdsDistinctWithoutClassZero(fs: seq<DiffStudent>, n: int, level: int, rec: DiffRecord)
    requires forall s :: s in fs && AtLevel(s, n, level) ==> s.classId != 0
    ensures DistinctClassIds(Classes(fs, n, level, rec))
    decreases |fs|
  {
    if fs != [] {
      var init, s := fs[..|fs| - 1], fs[|fs| - 1];
      assert forall t :: t in init ==> t in fs;
      ClassIdsDistinctWithoutClassZero(init, n, level, rec);
      var cs := Classes(init, n, level, rec);
      if AtLevel(s, n, level) {
        var found := FindClass(cs, IntToString(s.classId));
        if found.None? {
          var c := PldClass(IntToString(s.classId), GetOr(s.className, rec.className), [s.studentName]);
          var cs' := cs + [c];
          assert Classes(fs, n, level, rec) == cs';
          forall i, j | 0 <= i < j < |cs'| ensures cs'[i].classId != cs'[j].classId {
            if j == |cs| { assert cs'[i] == cs[i]; } else { assert cs'[i] == cs[i] && cs'[j] == cs[j]; }
          }
        }
      }
    }
  }

  /**
   * Students without a class id (0) are looked up under "0" but filed under the
   * record's class id, so two of them at one level give two classes with the same id.
   */
  lemma ClassZeroDuplicatesClass()
    ensures Classes([DiffStudent(1, "Ann", 0, None, "Emerging", 2, 1), DiffStudent(2, "Bo", 0, None, "Emerging", 2, 1)],
                    2, 1, DiffRecord(Some(1), "D", Some(2), "B", Some("K"), "Reading", 7, "Room 7", []))
            == [PldClass("7", "Room 7", ["Ann"]), PldClass("7", "Room 7", ["Bo"])]
  {
    var rec := DiffRecord(Some(1), "D", Some(2), "B", Some("K"), "Reading", 7, "Room 7", []);
    var a, b := DiffStudent(1, "Ann", 0, None, "Emerging", 2, 1), DiffStudent(2, "Bo", 0, None, "Emerging", 2, 1);
    assert IntToString(0) == "0" && IntToString(7) == "7";
    assert [a, b][..1] == [a] && [a][..0] == [];
    assert Classes([], 2, 1, rec) == [];
    assert FindClass([], "0") == None;
    var first := Classes([a], 2, 1, rec);
    assert first == AddToClass([], a, rec);
    assert first == [PldClass("7", "Room 7", ["Ann"])];
    assert FindClass(first, "0") == None;
  }
}
