/**
 * The two roster flatteners of the Iowa Flex dashboard: a location roster
 * (one row per child location, with student counts and percentages per
 * domain and performance level) and a student roster (one row per student,
 * with the performance level each student landed in per domain).
 *
 * A row is the provider's ExpandoObject: a map from field key to value. Keys
 * are kept structured (see FieldName for the text the provider writes).
 */
module Rosters {
  import opened Wrappers
  import opened TextFormat

  /** Scores, averages and percentages are passed through, never computed on. */
  type Number = real

  datatype PerformanceLevel = PerformanceLevel(id: int, numberOfStudents: int, percent: Number)

  datatype DomainScore = DomainScore(
    id: int, name: string, description: string, performanceLevels: seq<PerformanceLevel>)

  datatype Location = Location(
    id: int, name: string, averageScore: Number, nprAverageScore: Number, domainScores: seq<DomainScore>)

  datatype Student = Student(
    id: int, firstName: string, lastName: string, externalId: string,
    testScore: Number, npr: Number, domainScores: seq<DomainScore>)

  /** The keys a roster row can carry. */
  datatype Field =
    | NodeName | NodeId | NodeType | ExternalId | Link | SS | NPR
    | DomNum(domainId: int, levelId: int)
    | DomPer(domainId: int, levelId: int)
    | DomScore(domainId: int)

  /** The key text written into the row and the column headers. */
  function FieldName(f: Field): string {
    match f
    case NodeName => "node_name"
    case NodeId => "node_id"
    case NodeType => "node_type"
    case ExternalId => "externalId"
    case Link => "link"
    case SS => "SS"
    case NPR => "NPR"
    case DomNum(d, p) => "DOM_" + IntToString(d) + "_num_" + IntToString(p)
    case DomPer(d, p) => "DOM_" + IntToString(d) + "_per_" + IntToString(p)
    case DomScore(d) => "DOM_" + IntToString(d) + "_score"
  }

  predicate IsDomainKey(f: Field) {
    f.DomNum? || f.DomPer? || f.DomScore?
  }

  /** What follows `DOM_{domainId}` in a domain key. */
  function DomainKeySuffix(f: Field): string
    requires IsDomainKey(f)
  {
    match f
    case DomNum(_, p) => "_num_" + IntToString(p)
    case DomPer(_, p) => "_per_" + IntToString(p)
    case DomScore(_) => "_score"
  }

  /**
   * Different fields are written as different key texts, so a map keyed by
   * `Field` holds exactly what the provider's string-keyed row holds.
   */
  lemma FieldNameInjective(f: Field, g: Field)
    requires FieldName(f) == FieldName(g)
    ensures f == g
  {
    DomainKeyInitial(f);
    DomainKeyInitial(g);
    if IsDomainKey(f) && IsDomainKey(g) {
      var a, b := IntToString(f.domainId), IntToString(g.domainId);
      DomainKeyParts(f);
      DomainKeyParts(g);
      assert DomainKeySuffix(f)[0] == '_' && DomainKeySuffix(g)[0] == '_';
      SplitAtUnderscore(a, DomainKeySuffix(f), b, DomainKeySuffix(g));
      IntToStringInjective(f.domainId, g.domainId);
      DomainKeySuffixInjective(f, g);
    }
  }

  /** Domain keys, and only they, start with 'D'. */
  lemma DomainKeyInitial(f: Field)
    ensures |FieldName(f)| > 0 && (FieldName(f)[0] == 'D' <==> IsDomainKey(f))
  {
  }

  /** A domain key is `DOM_`, then the domain id, then its suffix. */
  lemma DomainKeyParts(f: Field)
    requires IsDomainKey(f)
    ensures |FieldName(f)| >= 4
    ensures FieldName(f)[4..] == IntToString(f.domainId) + DomainKeySuffix(f)
  {
    match f
    case DomNum(d, p) => DropKeyPrefix3(IntToString(d), "_num_", IntToString(p));
    case DomPer(d, p) => DropKeyPrefix3(IntToString(d), "_per_", IntToString(p));
    case DomScore(d) => DropKeyPrefix(IntToString(d), "_score");
  }

  lemma DropKeyPrefix(a: string, m: string)
    ensures ("DOM_" + a + m)[4..] == a + m
  {
  }

  lemma DropKeyPrefix3(a: string, m: string, b: string)
    ensures ("DOM_" + a + m + b)[4..] == a + (m + b)
  {
  }

  lemma DomainKeySuffixInjective(f: Field, g: Field)
    requires IsDomainKey(f) && IsDomainKey(g) && f.domainId == g.domainId
    requires DomainKeySuffix(f) == DomainKeySuffix(g)
    ensures f == g
  {
    var x, y := DomainKeySuffix(f), DomainKeySuffix(g);
    assert x[1] == y[1];
    if f.DomNum? || f.DomPer? {
      assert x[5..] == IntToString(f.levelId) && y[5..] == IntToString(g.levelId);
      IntToStringInjective(f.levelId, g.levelId);
    }
  }

  /** In `a + x`, with no '_' in `a` and `x` starting with one, the first '_' is at `|a|`. */
  lemma UnderscoreAt(a: string, x: string)
    requires forall i :: 0 <= i < |a| ==> a[i] != '_'
    requires |x| > 0 && x[0] == '_'
    ensures (a + x)[|a|] == '_'
    ensures forall i :: 0 <= i < |a| ==> (a + x)[i] != '_'
  {
  }

  /** Two texts that each run up to their first '_' split at the same place. */
  lemma SplitAtUnderscore(a: string, x: string, c: string, y: string)
    requires forall i :: 0 <= i < |a| ==> a[i] != '_'
    requires forall i :: 0 <= i < |c| ==> c[i] != '_'
    requires |x| > 0 && x[0] == '_' && |y| > 0 && y[0] == '_'
    requires a + x == c + y
    ensures a == c && x == y
  {
    UnderscoreAt(a, x);
    UnderscoreAt(c, y);
    assert |a| == |c|;
    assert a == (a + x)[..|a|] && c == (c + y)[..|c|];
    assert x == (a + x)[|a|..] && y == (c + y)[|c|..];
  }

  /** A cell. DrillDownLink stands for the drill-down URL built from id, name and roster level. */
  datatype Value =
    | Int(i: int)
    | Num(n: Number)
    | Text(s: string)
    | DrillDownLink(linkId: int, linkName: string, linkLevel: string)

  type Row = map<Field, Value>

  /** Header cells: `multi = 0` columns and the two `multi = 1` domain shapes. */
  datatype Column =
    | Plain(title: string, titleFull: string, field: Field)
    | LocationDomain(title: string, titleFull: string, fieldsNum: seq<Field>, fieldsPer: seq<Field>)
    | StudentDomain(title: string, titleFull: string, fields: seq<Field>)

  datatype Roster =
    | NoData
    | Table(graphQlQuery: string, rosterType: string, rosterLevel: string, columns: seq<Column>, values: seq<Row>)

  // ---------------------------------------------------------------------------
  // Canonical domain schema: the first entity with the most domain scores

  /** `Max(n => n.DomainScores.Count)`. */
  function MaxCount(counts: seq<nat>): (m: nat)
    requires |counts| > 0
    ensures m in counts
    ensures forall j :: 0 <= j < |counts| ==> counts[j] <= m
  {
    if |counts| == 1 then counts[0]
    else
      var rest := MaxCount(counts[1..]);
      if counts[0] >= rest then counts[0] else rest
  }

  /** `First(n => n.DomainScores.Count == m)`. */
  function FirstWithCount(counts: seq<nat>, m: nat): (k: nat)
    requires m in counts
    ensures k < |counts| && counts[k] == m
    ensures forall j :: 0 <= j < k ==> counts[j] != m
  {
    if counts[0] == m then 0 else 1 + FirstWithCount(counts[1..], m)
  }

  /** The entity whose domain scores define the columns. */
  function CanonicalIndex(counts: seq<nat>): (k: nat)
    requires |counts| > 0
    ensures k < |counts|
    ensures forall j :: 0 <= j < |counts| ==> counts[j] <= counts[k]
    ensures forall j :: 0 <= j < k ==> counts[j] < counts[k]
  {
    FirstWithCount(counts, MaxCount(counts))
  }

  /** `n.DomainScores.Count` of every location, in order. */
  function LocationCounts(ls: seq<Location>): seq<nat> {
    seq(|ls|, i requires 0 <= i < |ls| => |ls[i].domainScores|)
  }

  /** `n.DomainScores.Count` of every student, in order. */
  function StudentCounts(ss: seq<Student>): seq<nat> {
    seq(|ss|, i requires 0 <= i < |ss| => |ss[i].domainScores|)
  }

  function CanonicalLocationDomains(ls: seq<Location>): seq<DomainScore>
    requires |ls| > 0
  {
    ls[CanonicalIndex(LocationCounts(ls))].domainScores
  }

  function CanonicalStudentDomains(ss: seq<Student>): seq<DomainScore>
    requires |ss| > 0
  {
    ss[CanonicalIndex(StudentCounts(ss))].domainScores
  }

  /** The canonical domains come from the first location with the maximal domain count. */
  lemma CanonicalLocationDomainsAreFirstMaximal(ls: seq<Location>)
    requires |ls| > 0
    ensures exists k ::
      && 0 <= k < |ls|
      && CanonicalLocationDomains(ls) == ls[k].domainScores
      && (forall j :: 0 <= j < |ls| ==> |ls[j].domainScores| <= |ls[k].domainScores|)
      && (forall j :: 0 <= j < k ==> |ls[j].domainScores| < |ls[k].domainScores|)
  {
    var counts := LocationCounts(ls);
    var k := CanonicalIndex(counts);
    assert forall j :: 0 <= j < |ls| ==> counts[j] == |ls[j].domainScores|;
  }

  /** The canonical student domains come from the first student with the maximal domain count. */
  lemma CanonicalStudentDomainsAreFirstMaximal(ss: seq<Student>)
    requires |ss| > 0
    ensures exists k ::
      && 0 <= k < |ss|
      && CanonicalStudentDomains(ss) == ss[k].domainScores
      && (forall j :: 0 <= j < |ss| ==> |ss[j].domainScores| <= |ss[k].domainScores|)
      && (forall j :: 0 <= j < k ==> |ss[j].domainScores| < |ss[k].domainScores|)
  {
    var counts := StudentCounts(ss);
    var k := CanonicalIndex(counts);
    assert forall j :: 0 <= j < |ss| ==> counts[j] == |ss[j].domainScores|;
  }

  // ---------------------------------------------------------------------------
  // First-match lookups (FirstOrDefault)

  /** `FirstOrDefault(ds => ds.Name == name)`. */
  function FindByName(ds: seq<DomainScore>, name: string): (r: Option<DomainScore>)
    ensures r.None? <==> forall j :: 0 <= j < |ds| ==> ds[j].name != name
    ensures r.Some? ==> exists k :: 0 <= k < |ds| && ds[k] == r.value && ds[k].name == name
                           && forall j :: 0 <= j < k ==> ds[j].name != name
  {
    if ds == [] then None
    else if ds[0].name == name then Some(ds[0])
    else
      var r := FindByName(ds[1..], name);
      assert r.Some? ==> exists k :: 1 <= k < |ds| && ds[k] == r.value && ds[k].name == name
                           && forall j :: 0 <= j < k ==> ds[j].name != name by {
        if r.Some? {
          var k' :| 0 <= k' < |ds[1..]| && ds[1..][k'] == r.value && ds[1..][k'].name == name
                    && forall j :: 0 <= j < k' ==> ds[1..][j].name != name;
          assert forall j :: 1 <= j < k' + 1 ==> ds[j].name != name by {
            forall j | 1 <= j < k' + 1 ensures ds[j].name != name { assert ds[j] == ds[1..][j - 1]; }
          }
        }
      }
      r
  }

  /** `FirstOrDefault(ds => ds.Id == id)`. */
  function FindById(ds: seq<DomainScore>, id: int): (r: Option<DomainScore>)
    ensures r.None? <==> forall j :: 0 <= j < |ds| ==> ds[j].id != id
    ensures r.Some? ==> exists k :: 0 <= k < |ds| && ds[k] == r.value && ds[k].id == id
                           && forall j :: 0 <= j < k ==> ds[j].id != id
  {
    if ds == [] then None
    else if ds[0].id == id then Some(ds[0])
    else
      var r := FindById(ds[1..], id);
      assert r.Some? ==> exists k :: 1 <= k < |ds| && ds[k] == r.value && ds[k].id == id
                           && forall j :: 0 <= j < k ==> ds[j].id != id by {
        if r.Some? {
          var k' :| 0 <= k' < |ds[1..]| && ds[1..][k'] == r.value && ds[1..][k'].id == id
                    && forall j :: 0 <= j < k' ==> ds[1..][j].id != id;
          forall j | 1 <= j < k' + 1 ensures ds[j].id != id { assert ds[j] == ds[1..][j - 1]; }
        }
      }
      r
  }

  /** `FirstOrDefault(pl => pl.NumberOfStudents == 1)`: the bucket a single student fell into. */
  function FirstSingleLevel(ps: seq<PerformanceLevel>): (r: Option<PerformanceLevel>)
    ensures r.None? <==> forall j :: 0 <= j < |ps| ==> ps[j].numberOfStudents != 1
    ensures r.Some? ==> exists k :: 0 <= k < |ps| && ps[k] == r.value && ps[k].numberOfStudents == 1
                           && forall j :: 0 <= j < k ==> ps[j].numberOfStudents != 1
  {
    if ps == [] then None
    else if ps[0].numberOfStudents == 1 then Some(ps[0])
    else
      var r := FirstSingleLevel(ps[1..]);
      assert r.Some? ==> exists k :: 1 <= k < |ps| && ps[k] == r.value && ps[k].numberOfStudents == 1
                           && forall j :: 0 <= j < k ==> ps[j].numberOfStudents != 1 by {
        if r.Some? {
          var k' :| 0 <= k' < |ps[1..]| && ps[1..][k'] == r.value && ps[1..][k'].numberOfStudents == 1
                    && forall j :: 0 <= j < k' ==> ps[1..][j].numberOfStudents != 1;
          forall j | 1 <= j < k' + 1 ensures ps[j].numberOfStudents != 1 { assert ps[j] == ps[1..][j - 1]; }
        }
      }
      r
  }

  // ---------------------------------------------------------------------------
  // Location roster: specification of the header and of a row

  function FixedColumns(nodeTitle: string): seq<Column> {
    [ Plain(nodeTitle, nodeTitle, NodeName),
      Plain("SS", "Standard Score", SS),
      Plain("NPR", "National Percentile Rank", NPR) ]
  }

  /** One `DOM_{d}_num_{p}` per performance level of the canonical domain, in order. */
  function NumFields(domainId: int, ps: seq<PerformanceLevel>): seq<Field> {
    seq(|ps|, j requires 0 <= j < |ps| => DomNum(domainId, ps[j].id))
  }

  /** One `DOM_{d}_per_{p}` per performance level of the canonical domain, in order. */
  function PerFields(domainId: int, ps: seq<PerformanceLevel>): seq<Field> {
    seq(|ps|, j requires 0 <= j < |ps| => DomPer(domainId, ps[j].id))
  }

  function LocationDomainColumn(d: DomainScore): Column {
    LocationDomain(d.name, d.description,
                   NumFields(d.id, d.performanceLevels), PerFields(d.id, d.performanceLevels))
  }

  function BaseLocationRow(l: Location, rosterLevel: string): Row {
    map[NodeName := Text(l.name), NodeId := Int(l.id), NodeType := Int(l.id),
        Link := DrillDownLink(l.id, l.name, rosterLevel),
        SS := Num(l.averageScore), NPR := Num(l.nprAverageScore)]
  }

  function NumCell(p: PerformanceLevel, missing: bool): Value {
    if missing then Int(0) else Int(p.numberOfStudents)
  }

  function PerCell(p: PerformanceLevel, missing: bool): Value {
    if missing then Int(0) else Num(p.percent)
  }

  /** Adds the num/per pair of every level in `ps`, in order, under domain id `domainId`. */
  function PutLevels(row: Row, domainId: int, ps: seq<PerformanceLevel>, missing: bool): Row
    decreases |ps|
  {
    if ps == [] then row
    else
      var p := ps[|ps| - 1];
      PutLevels(row, domainId, ps[..|ps| - 1], missing)
        [DomNum(domainId, p.id) := NumCell(p, missing)]
        [DomPer(domainId, p.id) := PerCell(p, missing)]
  }

  /**
   * The levels written for canonical domain `d`: the canonical ones (with zeros)
   * when the location has no domain of that name, else the location's own.
   */
  function DomainLevels(l: Location, d: DomainScore): seq<PerformanceLevel> {
    match FindByName(l.domainScores, d.name)
    case None => d.performanceLevels
    case Some(own) => own.performanceLevels
  }

  function PutDomain(row: Row, l: Location, d: DomainScore): Row {
    PutLevels(row, d.id, DomainLevels(l, d), FindByName(l.domainScores, d.name).None?)
  }

  function PutDomains(row: Row, l: Location, cs: seq<DomainScore>): Row
    decreases |cs|
  {
    if cs == [] then row
    else PutDomain(PutDomains(row, l, cs[..|cs| - 1]), l, cs[|cs| - 1])
  }

  function LocationRow(l: Location, cs: seq<DomainScore>, rosterLevel: string): Row {
    PutDomains(BaseLocationRow(l, rosterLevel), l, cs)
  }

  // ---------------------------------------------------------------------------
  // Location roster: the imperative flattener

  /**
   * BuildRoster: a missing or empty location list gives NoData; otherwise a
   * header of three fixed columns and one column per canonical domain, and one
   * row per location in input order.
   */
  method BuildRoster(locations: Option<seq<Location>>, rosterLevel: string, query: string, isProd: bool)
    returns (r: Roster)
    ensures r.NoData? <==> locations.None? || |locations.value| == 0
    ensures r.Table? ==>
      var ls := locations.value;
      var cs := CanonicalLocationDomains(ls);
      && r.graphQlQuery == (if isProd then "" else query)
      && r.rosterType == "compare" && r.rosterLevel == rosterLevel
      && |r.columns| == 3 + |cs|
      && r.columns[..3] == FixedColumns(FirstCharToUpper(rosterLevel) + " Comparison")
      && (forall k :: 0 <= k < |cs| ==> r.columns[3..][k] == LocationDomainColumn(cs[k]))
      && |r.values| == |ls|
      && (forall i :: 0 <= i < |ls| ==> r.values[i] == LocationRow(ls[i], cs, rosterLevel))
  {
    if locations.None? || |locations.value| == 0 {
      return NoData;
    }
    var ls := locations.value;
    var title := FirstCharToUpper(rosterLevel) + " Comparison";
    var cs := CanonicalLocationDomains(ls);
    var heads := BuildDomainColumns(cs);
    var columns := FixedColumns(title) + heads;
    assert columns[..3] == FixedColumns(title) && columns[3..] == heads;
    var values := BuildLocationRows(ls, cs, rosterLevel);
    r := Table(if isProd then "" else query, "compare", rosterLevel, columns, values);
  }

  /** One header cell per canonical domain, in order. */
  method BuildDomainColumns(cs: seq<DomainScore>) returns (heads: seq<Column>)
    ensures |heads| == |cs|
    ensures forall k :: 0 <= k < |cs| ==> heads[k] == LocationDomainColumn(cs[k])
  {
    heads := [];
    var k := 0;
    while k < |cs|
      invariant 0 <= k <= |cs|
      invariant |heads| == k
      invariant forall t :: 0 <= t < k ==> heads[t] == LocationDomainColumn(cs[t])
    {
      var head := BuildDomainColumn(cs[k]);
      heads := heads + [head];
      k := k + 1;
    }
  }

  /** One row per location, in input order. */
  method BuildLocationRows(ls: seq<Location>, cs: seq<DomainScore>, rosterLevel: string) returns (values: seq<Row>)
    ensures |values| == |ls|
    ensures forall i :: 0 <= i < |ls| ==> values[i] == LocationRow(ls[i], cs, rosterLevel)
  {
    values := [];
    var i := 0;
    while i < |ls|
      invariant 0 <= i <= |ls|
      invariant |values| == i
      invariant forall t :: 0 <= t < i ==> values[t] == LocationRow(ls[t], cs, rosterLevel)
    {
      var row := BuildLocationRow(ls[i], cs, rosterLevel);
      ghost var done := values;
      values := values + [row];
      assert values[..i] == done && values[i] == row;
      i := i + 1;
    }
  }

  /** The header cell of one canonical domain, its two field lists built level by level. */
  method BuildDomainColumn(d: DomainScore) returns (head: Column)
    ensures head == LocationDomainColumn(d)
  {
    var nums: seq<Field> := [];
    var percents: seq<Field> := [];
    var ps := d.performanceLevels;
    var j := 0;
    while j < |ps|
      invariant 0 <= j <= |ps|
      invariant |nums| == j && forall t :: 0 <= t < j ==> nums[t] == DomNum(d.id, ps[t].id)
      invariant |percents| == j && forall t :: 0 <= t < j ==> percents[t] == DomPer(d.id, ps[t].id)
    {
      nums := nums + [DomNum(d.id, ps[j].id)];
      percents := percents + [DomPer(d.id, ps[j].id)];
      j := j + 1;
    }
    head := LocationDomain(d.name, d.description, nums, percents);
  }

  /** One location row, its domain fields added one at a time. */
  method BuildLocationRow(l: Location, cs: seq<DomainScore>, rosterLevel: string) returns (row: Row)
    ensures row == LocationRow(l, cs, rosterLevel)
  {
    row := BaseLocationRow(l, rosterLevel);
    var k := 0;
    while k < |cs|
      invariant 0 <= k <= |cs|
      invariant row == PutDomains(BaseLocationRow(l, rosterLevel), l, cs[..k])
    {
      row := AddDomainCells(row, l, cs[k]);
      assert cs[..k + 1][..k] == cs[..k];
      k := k + 1;
    }
    assert cs[..|cs|] == cs;
  }

  /** The cells of one canonical domain: zeros when the location lacks it by name, else its own values. */
  method AddDomainCells(row0: Row, l: Location, d: DomainScore) returns (row: Row)
    ensures row == PutDomain(row0, l, d)
  {
    var domain := FindByName(l.domainScores, d.name);
    if domain.None? {
      row := AddZeroCells(row0, d.id, d.performanceLevels);
    } else {
      row := AddLevelCells(row0, d.id, domain.value.performanceLevels);
    }
  }

  /** The cells of a canonical domain the location lacks: 0 for every canonical level. */
  method AddZeroCells(row0: Row, domainId: int, ps: seq<PerformanceLevel>) returns (row: Row)
    ensures row == PutLevels(row0, domainId, ps, true)
  {
    row := row0;
    var j := 0;
    while j < |ps|
      invariant 0 <= j <= |ps|
      invariant row == PutLevels(row0, domainId, ps[..j], true)
    {
      assert ps[..j + 1][..j] == ps[..j];
      row := row[DomNum(domainId, ps[j].id) := Int(0)];
      row := row[DomPer(domainId, ps[j].id) := Int(0)];
      j := j + 1;
    }
    assert ps[..|ps|] == ps;
  }

  /** The cells of a domain the location has: its own counts and percents, under the canonical domain id. */
  method AddLevelCells(row0: Row, domainId: int, ps: seq<PerformanceLevel>) returns (row: Row)
    ensures row == PutLevels(row0, domainId, ps, false)
  {
    row := row0;
    var j := 0;
    while j < |ps|
      invariant 0 <= j <= |ps|
      invariant row == PutLevels(row0, domainId, ps[..j], false)
    {
      assert ps[..j + 1][..j] == ps[..j];
      row := row[DomNum(domainId, ps[j].id) := Int(ps[j].numberOfStudents)];
      row := row[DomPer(domainId, ps[j].id) := Num(ps[j].percent)];
      j := j + 1;
    }
    assert ps[..|ps|] == ps;
  }

  // ---------------------------------------------------------------------------
  // Location roster: what a row holds

  /** Same presence and, when present, same value of `key` in both rows. */
  predicate SameAt(a: Row, b: Row, key: Field) {
    (key in a <==> key in b) && (key in a ==> a[key] == b[key])
  }

  /** `key` is a num or per field of domain `domainId`. */
  predicate Touches(key: Field, domainId: int) {
    (key.DomNum? || key.DomPer?) && key.domainId == domainId
  }

  predicate DistinctDomainIds(cs: seq<DomainScore>) {
    forall a, b :: 0 <= a < b < |cs| ==> cs[a].id != cs[b].id
  }

  predicate DistinctLevelIds(ps: seq<PerformanceLevel>) {
    forall a, b :: 0 <= a < b < |ps| ==> ps[a].id != ps[b].id
  }

  function Ids(ps: seq<PerformanceLevel>): set<int> {
    set p | p in ps :: p.id
  }

  function LevelKeys(domainId: int, ids: set<int>): set<Field> {
    (set p | p in ids :: DomNum(domainId, p)) + (set p | p in ids :: DomPer(domainId, p))
  }

  function LocationBaseKeys(): set<Field> {
    {NodeName, NodeId, NodeType, Link, SS, NPR}
  }

  /** The domain keys a location's row receives. */
  function RowDomainKeys(l: Location, cs: seq<DomainScore>): set<Field>
    decreases |cs|
  {
    if cs == [] then {}
    else RowDomainKeys(l, cs[..|cs| - 1]) + LevelKeys(cs[|cs| - 1].id, Ids(DomainLevels(l, cs[|cs| - 1])))
  }

  /** The domain keys the header announces: one num and one per key per canonical level. */
  function SchemaKeys(cs: seq<DomainScore>): set<Field>
    decreases |cs|
  {
    if cs == [] then {}
    else SchemaKeys(cs[..|cs| - 1]) + LevelKeys(cs[|cs| - 1].id, Ids(cs[|cs| - 1].performanceLevels))
  }

  /** A location lacking the domain, or carrying it with exactly the canonical level ids. */
  predicate MatchesSchema(l: Location, d: DomainScore) {
    match FindByName(l.domainScores, d.name)
    case None => true
    case Some(own) => Ids(own.performanceLevels) == Ids(d.performanceLevels)
  }

  lemma {:induction false} PutLevelsKeys(row: Row, domainId: int, ps: seq<PerformanceLevel>, missing: bool)
    ensures PutLevels(row, domainId, ps, missing).Keys == row.Keys + LevelKeys(domainId, Ids(ps))
    decreases |ps|
  {
    if ps != [] {
      var init, p := ps[..|ps| - 1], ps[|ps| - 1];
      PutLevelsKeys(row, domainId, init, missing);
      assert ps == init + [p];
      assert Ids(ps) == Ids(init) + {p.id};
      assert LevelKeys(domainId, Ids(ps))
          == LevelKeys(domainId, Ids(init)) + {DomNum(domainId, p.id), DomPer(domainId, p.id)};
    }
  }

  lemma {:induction false} PutDomainsKeys(row: Row, l: Location, cs: seq<DomainScore>)
    ensures PutDomains(row, l, cs).Keys == row.Keys + RowDomainKeys(l, cs)
    decreases |cs|
  {
    if cs != [] {
      var init, d := cs[..|cs| - 1], cs[|cs| - 1];
      PutDomainsKeys(row, l, init);
      PutLevelsKeys(PutDomains(row, l, init), d.id, DomainLevels(l, d), FindByName(l.domainScores, d.name).None?);
    }
  }

  /** A row holds the six fixed fields plus exactly the domain keys of its own domains. */
  lemma LocationRowKeys(l: Location, cs: seq<DomainScore>, rosterLevel: string)
    ensures LocationRow(l, cs, rosterLevel).Keys == LocationBaseKeys() + RowDomainKeys(l, cs)
  {
    PutDomainsKeys(BaseLocationRow(l, rosterLevel), l, cs);
  }

  lemma {:induction false} RowDomainKeysOfSchema(l: Location, cs: seq<DomainScore>)
    requires forall k :: 0 <= k < |cs| ==> MatchesSchema(l, cs[k])
    ensures RowDomainKeys(l, cs) == SchemaKeys(cs)
    decreases |cs|
  {
    if cs != [] {
      RowDomainKeysOfSchema(l, cs[..|cs| - 1]);
      assert MatchesSchema(l, cs[|cs| - 1]);
    }
  }

  /**
   * Rectangular table: when every location either lacks a canonical domain or
   * carries it with the canonical level ids, every row has the same keys, namely
   * the fixed ones plus one num and one per key per canonical level.
   */
  lemma LocationRowsRectangular(ls: seq<Location>, rosterLevel: string)
    requires |ls| > 0
    requires forall i, k :: 0 <= i < |ls| && 0 <= k < |CanonicalLocationDomains(ls)| ==>
               MatchesSchema(ls[i], CanonicalLocationDomains(ls)[k])
    ensures forall i :: 0 <= i < |ls| ==>
              LocationRow(ls[i], CanonicalLocationDomains(ls), rosterLevel).Keys
              == LocationBaseKeys() + SchemaKeys(CanonicalLocationDomains(ls))
  {
    var cs := CanonicalLocationDomains(ls);
    forall i | 0 <= i < |ls|
      ensures LocationRow(ls[i], cs, rosterLevel).Keys == LocationBaseKeys() + SchemaKeys(cs)
    {
      LocationRowKeys(ls[i], cs, rosterLevel);
      RowDomainKeysOfSchema(ls[i], cs);
    }
  }

  /**
   * Without that condition the table is ragged: a location whose domain of the
   * same name carries other level ids gets keys the header does not announce.
   */
  lemma LocationRowsCanBeRagged(a: Location, b: Location, da: DomainScore, db: DomainScore, rosterLevel: string)
    requires a.domainScores == [da] && b.domainScores == [db] && da.name == db.name
    requires Ids(da.performanceLevels) != Ids(db.performanceLevels)
    ensures CanonicalLocationDomains([a, b]) == [da]
    ensures LocationRow(a, [da], rosterLevel).Keys != LocationRow(b, [da], rosterLevel).Keys
  {
    FirstOfEqualCountsIsCanonical(a, b);
    SingleDomainRowKeys(a, da, da, rosterLevel);
    SingleDomainRowKeys(b, da, db, rosterLevel);
    var ia, ib := Ids(da.performanceLevels), Ids(db.performanceLevels);
    assert (ia - ib) + (ib - ia) != {};
    var x :| x in (ia - ib) + (ib - ia);
    var key := DomNum(da.id, x);
    assert key !in LocationBaseKeys();
    assert key in LevelKeys(da.id, ia) <==> x in ia;
    assert key in LevelKeys(da.id, ib) <==> x in ib;
  }

  lemma FirstOfEqualCountsIsCanonical(a: Location, b: Location)
    requires |a.domainScores| == |b.domainScores|
    ensures CanonicalLocationDomains([a, b]) == a.domainScores
  {
    var counts := LocationCounts([a, b]);
    assert counts[0] == counts[1];
  }

  /** Keys of the row of a location whose only domain `own` matches the single canonical domain `d`. */
  lemma SingleDomainRowKeys(l: Location, d: DomainScore, own: DomainScore, rosterLevel: string)
    requires l.domainScores == [own] && own.name == d.name
    ensures LocationRow(l, [d], rosterLevel).Keys == LocationBaseKeys() + LevelKeys(d.id, Ids(own.performanceLevels))
  {
    assert FindByName(l.domainScores, d.name) == Some(own);
    LocationRowKeys(l, [d], rosterLevel);
    assert [d][..0] == [];
  }

  lemma {:induction false} PutLevelsFrame(row: Row, domainId: int, ps: seq<PerformanceLevel>, missing: bool, key: Field)
    requires !Touches(key, domainId)
    ensures SameAt(PutLevels(row, domainId, ps, missing), row, key)
    decreases |ps|
  {
    if ps != [] {
      PutLevelsFrame(row, domainId, ps[..|ps| - 1], missing, key);
    }
  }

  lemma {:induction false} PutLevelsZero(row: Row, domainId: int, ps: seq<PerformanceLevel>, j: nat)
    requires j < |ps|
    ensures var r := PutLevels(row, domainId, ps, true);
            && DomNum(domainId, ps[j].id) in r && r[DomNum(domainId, ps[j].id)] == Int(0)
            && DomPer(domainId, ps[j].id) in r && r[DomPer(domainId, ps[j].id)] == Int(0)
    decreases |ps|
  {
    if j < |ps| - 1 && ps[j].id != ps[|ps| - 1].id {
      PutLevelsZero(row, domainId, ps[..|ps| - 1], j);
    }
  }

  lemma {:induction false} PutLevelsAt(row: Row, domainId: int, ps: seq<PerformanceLevel>, j: nat, missing: bool)
    requires j < |ps| && DistinctLevelIds(ps)
    ensures var r := PutLevels(row, domainId, ps, missing);
            && DomNum(domainId, ps[j].id) in r && r[DomNum(domainId, ps[j].id)] == NumCell(ps[j], missing)
            && DomPer(domainId, ps[j].id) in r && r[DomPer(domainId, ps[j].id)] == PerCell(ps[j], missing)
    decreases |ps|
  {
    if j < |ps| - 1 {
      var init := ps[..|ps| - 1];
      assert init[j] == ps[j];
      PutLevelsAt(row, domainId, init, j, missing);
    }
  }

  lemma {:induction false} PutDomainsAt(row: Row, l: Location, cs: seq<DomainScore>, k: nat, key: Field)
    requires k < |cs| && DistinctDomainIds(cs) && Touches(key, cs[k].id)
    ensures SameAt(PutDomains(row, l, cs), PutDomain(PutDomains(row, l, cs[..k]), l, cs[k]), key)
    decreases |cs|
  {
    var init, d := cs[..|cs| - 1], cs[|cs| - 1];
    if k < |cs| - 1 {
      var before := PutDomains(row, l, init);
      PutLevelsFrame(before, d.id, DomainLevels(l, d), FindByName(l.domainScores, d.name).None?, key);
      assert init[..k] == cs[..k] && init[k] == cs[k];
      PutDomainsAt(row, l, init, k, key);
    }
  }

  /** A location that lacks a canonical domain (by name) gets 0 for num and per of every canonical level. */
  lemma MissingDomainIsZero(l: Location, cs: seq<DomainScore>, rosterLevel: string, k: nat, j: nat)
    requires DistinctDomainIds(cs) && k < |cs| && j < |cs[k].performanceLevels|
    requires forall t :: 0 <= t < |l.domainScores| ==> l.domainScores[t].name != cs[k].name
    ensures var row := LocationRow(l, cs, rosterLevel);
            var p := cs[k].performanceLevels[j];
            && DomNum(cs[k].id, p.id) in row && row[DomNum(cs[k].id, p.id)] == Int(0)
            && DomPer(cs[k].id, p.id) in row && row[DomPer(cs[k].id, p.id)] == Int(0)
  {
    var base := BaseLocationRow(l, rosterLevel);
    var p := cs[k].performanceLevels[j];
    var before := PutDomains(base, l, cs[..k]);
    PutDomainsAt(base, l, cs, k, DomNum(cs[k].id, p.id));
    PutDomainsAt(base, l, cs, k, DomPer(cs[k].id, p.id));
    PutLevelsZero(before, cs[k].id, cs[k].performanceLevels, j);
  }

  /**
   * A location that has the domain gets its own count and percent for each of
   * its own levels, keyed by the canonical domain id and its own level id.
   */
  lemma PresentDomainIsCopied(l: Location, cs: seq<DomainScore>, rosterLevel: string, k: nat, own: DomainScore, j: nat)
    requires DistinctDomainIds(cs) && k < |cs|
    requires FindByName(l.domainScores, cs[k].name) == Some(own)
    requires j < |own.performanceLevels| && DistinctLevelIds(own.performanceLevels)
    ensures var row := LocationRow(l, cs, rosterLevel);
            var p := own.performanceLevels[j];
            && DomNum(cs[k].id, p.id) in row && row[DomNum(cs[k].id, p.id)] == Int(p.numberOfStudents)
            && DomPer(cs[k].id, p.id) in row && row[DomPer(cs[k].id, p.id)] == Num(p.percent)
  {
    var base := BaseLocationRow(l, rosterLevel);
    var p := own.performanceLevels[j];
    var before := PutDomains(base, l, cs[..k]);
    PutDomainsAt(base, l, cs, k, DomNum(cs[k].id, p.id));
    PutDomainsAt(base, l, cs, k, DomPer(cs[k].id, p.id));
    PutLevelsAt(before, cs[k].id, own.performanceLevels, j, false);
  }

  /** The fixed fields of a location row are never overwritten by domain fields. */
  lemma LocationRowFixedFields(l: Location, cs: seq<DomainScore>, rosterLevel: string, key: Field)
    requires key in LocationBaseKeys()
    ensures var row := LocationRow(l, cs, rosterLevel);
            key in row && row[key] == BaseLocationRow(l, rosterLevel)[key]
  {
    PutDomainsFrame(BaseLocationRow(l, rosterLevel), l, cs, key);
  }

  lemma {:induction false} PutDomainsFrame(row: Row, l: Location, cs: seq<DomainScore>, key: Field)
    requires !key.DomNum? && !key.DomPer?
    ensures SameAt(PutDomains(row, l, cs), row, key)
    decreases |cs|
  {
    if cs != [] {
      var init, d := cs[..|cs| - 1], cs[|cs| - 1];
      PutDomainsFrame(row, l, init, key);
      PutLevelsFrame(PutDomains(row, l, init), d.id, DomainLevels(l, d), FindByName(l.domainScores, d.name).None?, key);
    }
  }

  // ---------------------------------------------------------------------------
  // Student roster

  /**
   * The `DOM_{id}_score` cell: "*" when the student has no domain with that id,
   * else the id of the first level whose student count is 1, else "0".
   */
  function StudentScore(s: Student, domainId: int): string {
    match FindById(s.domainScores, domainId)
    case None => "*"
    case Some(d) =>
      match FirstSingleLevel(d.performanceLevels)
      case None => "0"
      case Some(p) => IntToString(p.id)
  }

  /** What the score cell says about the student's domains. */
  lemma StudentScoreMeaning(s: Student, domainId: int)
    ensures var score := StudentScore(s, domainId);
            && (score == "*" <==> forall j :: 0 <= j < |s.domainScores| ==> s.domainScores[j].id != domainId)
            && (score != "*" ==>
                  var ps := FindById(s.domainScores, domainId).value.performanceLevels;
                  || (score == "0" && forall j :: 0 <= j < |ps| ==> ps[j].numberOfStudents != 1)
                  || (exists k :: 0 <= k < |ps| && ps[k].numberOfStudents == 1 && score == IntToString(ps[k].id)
                        && forall j :: 0 <= j < k ==> ps[j].numberOfStudents != 1))
  {
    match FindById(s.domainScores, domainId)
    case None =>
    case Some(d) =>
      match FirstSingleLevel(d.performanceLevels)
      case None =>
      case Some(p) =>
        assert IntToString(p.id)[0] != '*';
  }

  function StudentBaseRow(s: Student): Row {
    map[NodeName := Text(s.lastName + ", " + s.firstName), NodeId := Int(s.id),
        ExternalId := Text(s.externalId), NodeType := Text("STUDENT"), Link := Text("#"),
        SS := Num(s.testScore), NPR := Num(s.npr)]
  }

  function StudentDomainColumn(d: DomainScore): Column {
    StudentDomain(d.name, d.description, [DomScore(d.id)])
  }

  function ScoreKeys(cs: seq<DomainScore>): set<Field> {
    set d | d in cs :: DomScore(d.id)
  }

  /**
   * A student row: the seven fixed fields plus exactly one `DOM_{id}_score` key
   * per canonical domain id, each holding the student's score for that id.
   */
  predicate IsStudentRow(row: Row, s: Student, cs: seq<DomainScore>) {
    && row.Keys == StudentBaseRow(s).Keys + ScoreKeys(cs)
    && (forall f :: f in StudentBaseRow(s) ==> row[f] == StudentBaseRow(s)[f])
    && (forall k :: 0 <= k < |cs| ==> row[DomScore(cs[k].id)] == Text(StudentScore(s, cs[k].id)))
  }

  /**
   * BuildStudentRoster: a missing or empty student list gives NoData; otherwise
   * the fixed columns plus one single-field column per canonical domain, and
   * one row per student in input order, all with the same keys.
   */
  method BuildStudentRoster(students: Option<seq<Student>>, query: string, isProd: bool) returns (r: Roster)
    ensures r.NoData? <==> students.None? || |students.value| == 0
    ensures r.Table? ==>
      var ss := students.value;
      var cs := CanonicalStudentDomains(ss);
      && r.graphQlQuery == (if isProd then "" else query)
      && r.rosterType == "students" && r.rosterLevel == "students"
      && |r.columns| == 3 + |cs|
      && r.columns[..3] == FixedColumns("Student Name")
      && (forall k :: 0 <= k < |cs| ==> r.columns[3..][k] == StudentDomainColumn(cs[k]))
      && |r.values| == |ss|
      && (forall i :: 0 <= i < |ss| ==> IsStudentRow(r.values[i], ss[i], cs))
  {
    if students.None? || |students.value| == 0 {
      return NoData;
    }
    var ss := students.value;
    var cs := CanonicalStudentDomains(ss);
    var heads: seq<Column> := [];
    var k := 0;
    while k < |cs|
      invariant 0 <= k <= |cs|
      invariant |heads| == k && forall t :: 0 <= t < k ==> heads[t] == StudentDomainColumn(cs[t])
    {
      heads := heads + [StudentDomainColumn(cs[k])];
      k := k + 1;
    }
    var columns := FixedColumns("Student Name") + heads;
    assert columns[..3] == FixedColumns("Student Name") && columns[3..] == heads;

    var values := BuildStudentRows(ss, cs);
    r := Table(if isProd then "" else query, "students", "students", columns, values);
  }

  /** One row per student, in input order. */
  method BuildStudentRows(ss: seq<Student>, cs: seq<DomainScore>) returns (values: seq<Row>)
    ensures |values| == |ss| && forall i :: 0 <= i < |ss| ==> IsStudentRow(values[i], ss[i], cs)
  {
    values := [];
    var i := 0;
    while i < |ss|
      invariant 0 <= i <= |ss|
      invariant |values| == i && forall t :: 0 <= t < i ==> IsStudentRow(values[t], ss[t], cs)
    {
      var row := BuildStudentRow(ss[i], cs);
      ghost var done := values;
      values := values + [row];
      assert values[..i] == done && values[i] == row;
      i := i + 1;
    }
  }

  /** The score cell of one domain id: the domain lookup, then the level lookup. */
  method ScoreCell(s: Student, domainId: int) returns (performanceLevelId: string)
    ensures performanceLevelId == StudentScore(s, domainId)
  {
    performanceLevelId := "*";
    var domain := FindById(s.domainScores, domainId);
    if domain.Some? {
      var level := FirstSingleLevel(domain.value.performanceLevels);
      performanceLevelId := if level.Some? then IntToString(level.value.id) else "0";
    }
  }

  /** One student row, one score field added per canonical domain id. */
  method BuildStudentRow(s: Student, cs: seq<DomainScore>) returns (row: Row)
    ensures IsStudentRow(row, s, cs)
  {
    row := StudentBaseRow(s);
    var k := 0;
    while k < |cs|
      invariant 0 <= k <= |cs|
      invariant IsStudentRow(row, s, cs[..k])
    {
      var performanceLevelId := ScoreCell(s, cs[k].id);
      StudentRowStep(row, s, cs, k);
      row := row[DomScore(cs[k].id) := Text(performanceLevelId)];
      k := k + 1;
    }
    assert cs[..|cs|] == cs;
  }

  lemma StudentRowStep(row: Row, s: Student, cs: seq<DomainScore>, k: nat)
    requires k < |cs| && IsStudentRow(row, s, cs[..k])
    ensures IsStudentRow(row[DomScore(cs[k].id) := Text(StudentScore(s, cs[k].id))], s, cs[..k + 1])
  {
    var score := Text(StudentScore(s, cs[k].id));
    var next := row[DomScore(cs[k].id) := score];
    var done, pre := cs[..k], cs[..k + 1];
    assert pre == done + [cs[k]];
    ScoreKeysAppend(done, cs[k]);
    assert next.Keys == StudentBaseRow(s).Keys + ScoreKeys(pre);
    assert forall f :: f in StudentBaseRow(s) ==> next[f] == StudentBaseRow(s)[f] by {
      assert DomScore(cs[k].id) !in StudentBaseRow(s);
    }
    forall t | 0 <= t < |done| ensures DomScore(done[t].id) in row {
      assert DomScore(done[t].id) in ScoreKeys(done);
    }
    ScoresStep(row, s, done, cs[k], score);
  }

  lemma ScoreKeysAppend(done: seq<DomainScore>, d: DomainScore)
    ensures ScoreKeys(done + [d]) == ScoreKeys(done) + {DomScore(d.id)}
  {
    var pre := done + [d];
    forall x | x in ScoreKeys(pre) ensures x in ScoreKeys(done) + {DomScore(d.id)} {
      var e :| e in pre && x == DomScore(e.id);
      if e != d { assert e in done; }
    }
    forall x | x in ScoreKeys(done) ensures x in ScoreKeys(pre) {
      var e :| e in done && x == DomScore(e.id);
      assert e in pre;
    }
    assert d in pre;
  }

  lemma ScoresStep(row: Row, s: Student, done: seq<DomainScore>, d: DomainScore, score: Value)
    requires forall t :: 0 <= t < |done| ==>
               DomScore(done[t].id) in row && row[DomScore(done[t].id)] == Text(StudentScore(s, done[t].id))
    requires score == Text(StudentScore(s, d.id))
    ensures forall t :: 0 <= t < |done| + 1 ==>
              row[DomScore(d.id) := score][DomScore((done + [d])[t].id)] == Text(StudentScore(s, (done + [d])[t].id))
  {
    var next, pre := row[DomScore(d.id) := score], done + [d];
    forall t | 0 <= t < |done| + 1 ensures next[DomScore(pre[t].id)] == Text(StudentScore(s, pre[t].id)) {
      if t < |done| {
        assert pre[t] == done[t];
      }
    }
  }
}
