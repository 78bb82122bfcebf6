/**
 * Polygon budgets (`check_polycount` and the two `_check_polycount` rules):
 * the file's polygons outside collision meshes against a budget, the
 * collision polygons against a cap (high poly only), and the non-triangle
 * polygons per object.
 */
module Polycount {
  import opened Text
  import opened Findings
  import opened Scene
  import opened Wrappers

  /** Collision meshes, told apart by a case-sensitive name part. */
  predicate IsUcx(o: Obj) {
    Contains(o.name, "UCX")
  }

  /** The polygons with more than three vertices. */
  function NonTriangles(ps: seq<int>): (n: nat)
    ensures n <= |ps|
  {
    if ps == [] then 0 else NonTriangles(ps[..|ps| - 1]) + (if ps[|ps| - 1] > 3 then 1 else 0)
  }

  /** The polygons of the meshes outside (`ucx` false) or inside (`ucx` true) collision meshes. */
  function Polygons(ms: seq<Obj>, ucx: bool): nat {
    if ms == [] then 0
    else
      var o := ms[|ms| - 1];
      Polygons(ms[..|ms| - 1], ucx) + (if IsMesh(o) && IsUcx(o) == ucx then |o.polygons| else 0)
  }

  /** `nontris_by_obj`: object names in first-seen order with their non-triangle counts. */
  type Tally = seq<(string, int)>

  function Lookup(d: Tally, name: string): int {
    if d == [] then 0
    else if d[|d| - 1].0 == name then d[|d| - 1].1
    else Lookup(d[..|d| - 1], name)
  }

  predicate Keyed(d: Tally, name: string) {
    exists k :: 0 <= k < |d| && d[k].0 == name
  }

  /** The existing entry for `name` grows by one; the names stay where they are. */
  function Inc(d: Tally, name: string): (r: Tally)
    ensures |r| == |d|
  {
    if d == [] then []
    else if d[|d| - 1].0 == name then d[..|d| - 1] + [(name, d[|d| - 1].1 + 1)]
    else Inc(d[..|d| - 1], name) + [d[|d| - 1]]
  }

  /** Growing an entry keeps every entry's name at its position. */
  lemma {:induction false} IncNames(d: Tally, name: string)
    ensures forall k :: 0 <= k < |d| ==> Inc(d, name)[k].0 == d[k].0
  {
    if d != [] {
      var n := |d| - 1;
      IncNames(d[..n], name);
    }
  }

  /**
   * One more non-triangle for `name`: its entry grows, or, as a dictionary
   * insertion does, a new entry with count 1 is appended at the end.
   */
  function Bump(d: Tally, name: string): (r: Tally)
    ensures |r| == |d| || |r| == |d| + 1
  {
    if Keyed(d, name) then Inc(d, name) else d + [(name, 1)]
  }

  function Bumps(d: Tally, name: string, k: nat): Tally {
    if k == 0 then d else Bump(Bumps(d, name, k - 1), name)
  }

  /** The tally over the meshes: each mesh adds its non-triangles under its name. */
  function NonTriTally(ms: seq<Obj>): Tally {
    if ms == [] then []
    else
      var o := ms[|ms| - 1];
      var d := NonTriTally(ms[..|ms| - 1]);
      if IsMesh(o) then Bumps(d, o.name, NonTriangles(o.polygons)) else d
  }

  /** The non-triangles of the meshes with the given name. */
  function NonTrianglesOf(ms: seq<Obj>, name: string): nat {
    if ms == [] then 0
    else
      var o := ms[|ms| - 1];
      NonTrianglesOf(ms[..|ms| - 1], name) + (if IsMesh(o) && o.name == name then NonTriangles(o.polygons) else 0)
  }

  /** Growing the entry for `name` adds one to its count when it has an entry, and leaves every other count alone. */
  lemma {:induction false} IncLookup(d: Tally, name: string, other: string)
    ensures Lookup(Inc(d, name), other) == Lookup(d, other) + (if other == name && Keyed(d, name) then 1 else 0)
  {
    if d != [] {
      var n := |d| - 1;
      var p := d[..n];
      assert d == p + [d[n]];
      KeyedAppend(p, d[n], name);
      if d[n].0 == name {
        var r := p + [(name, d[n].1 + 1)];
        assert r[..|r| - 1] == p;
      } else {
        IncLookup(p, name, other);
        var r := Inc(p, name) + [d[n]];
        assert r[..|r| - 1] == Inc(p, name);
      }
    }
  }

  /** A name without an entry counts 0. */
  lemma {:induction false} LookupAbsent(d: Tally, name: string)
    requires !Keyed(d, name)
    ensures Lookup(d, name) == 0
  {
    if d != [] {
      var n := |d| - 1;
      KeyedAppend(d[..n], d[n], name);
      assert d == d[..n] + [d[n]];
      LookupAbsent(d[..n], name);
    }
  }

  /** A bump adds one to its own name's count and leaves every other count alone. */
  lemma BumpLookup(d: Tally, name: string, other: string)
    ensures Lookup(Bump(d, name), other) == Lookup(d, other) + (if other == name then 1 else 0)
  {
    if Keyed(d, name) {
      IncLookup(d, name, other);
    } else {
      var r := d + [(name, 1)];
      assert r[..|r| - 1] == d;
      if other == name {
        LookupAbsent(d, name);
      }
    }
  }

  lemma {:induction false} BumpsLookup(d: Tally, name: string, k: nat, other: string)
    ensures Lookup(Bumps(d, name, k), other) == Lookup(d, other) + (if other == name then k else 0)
  {
    if k > 0 {
      BumpsLookup(d, name, k - 1, other);
      BumpLookup(Bumps(d, name, k - 1), name, other);
    }
  }

  /** The tally counts, for every name, exactly the non-triangles of the meshes with that name. */
  lemma {:induction false} TallyCounts(ms: seq<Obj>, name: string)
    ensures Lookup(NonTriTally(ms), name) == NonTrianglesOf(ms, name)
  {
    if ms != [] {
      var o := ms[|ms| - 1];
      TallyCounts(ms[..|ms| - 1], name);
      if IsMesh(o) {
        BumpsLookup(NonTriTally(ms[..|ms| - 1]), o.name, NonTriangles(o.polygons), name);
      }
    }
  }

  /** A bump never repeats a name. */
  predicate Distinct(d: Tally) {
    forall j, k :: 0 <= j < k < |d| ==> d[j].0 != d[k].0
  }

  lemma BumpKeys(d: Tally, name: string, x: string)
    ensures Keyed(Bump(d, name), x) <==> Keyed(d, x) || x == name
  {
    if Keyed(d, name) {
      var r := Inc(d, name);
      IncNames(d, name);
      if Keyed(d, x) {
        var k :| 0 <= k < |d| && d[k].0 == x;
        assert r[k].0 == x;
      }
      if Keyed(r, x) {
        var k :| 0 <= k < |r| && r[k].0 == x;
        assert d[k].0 == x;
      }
    } else {
      KeyedAppend(d, (name, 1), x);
    }
  }

  /** The keys of a tally with one more entry are the old keys and the entry's. */
  lemma KeyedAppend(a: Tally, e: (string, int), x: string)
    ensures Keyed(a + [e], x) <==> Keyed(a, x) || e.0 == x
  {
    var r := a + [e];
    if Keyed(a, x) {
      var k :| 0 <= k < |a| && a[k].0 == x;
      assert r[k].0 == x;
    }
    if e.0 == x {
      assert r[|a|].0 == x;
    }
    if Keyed(r, x) {
      var k :| 0 <= k < |r| && r[k].0 == x;
      if k < |a| {
        assert a[k].0 == x;
      }
    }
  }

  lemma BumpDistinct(d: Tally, name: string)
    requires Distinct(d)
    ensures Distinct(Bump(d, name))
  {
    if Keyed(d, name) {
      IncNames(d, name);
    } else {
      var r := d + [(name, 1)];
      forall j, k | 0 <= j < k < |r| ensures r[j].0 != r[k].0 {
        if k == |d| {
          assert r[j] == d[j];
        }
      }
    }
  }

  lemma {:induction false} TallyDistinct(ms: seq<Obj>)
    ensures Distinct(NonTriTally(ms))
  {
    if ms != [] {
      var o := ms[|ms| - 1];
      TallyDistinct(ms[..|ms| - 1]);
      if IsMesh(o) {
        BumpsDistinct(NonTriTally(ms[..|ms| - 1]), o.name, NonTriangles(o.polygons));
      }
    }
  }

  lemma {:induction false} BumpsDistinct(d: Tally, name: string, k: nat)
    requires Distinct(d)
    ensures Distinct(Bumps(d, name, k))
  {
    if k > 0 {
      BumpsDistinct(d, name, k - 1);
      BumpDistinct(Bumps(d, name, k - 1), name);
    }
  }

  /** The names of a tally's entries, in its order. */
  function Names(d: Tally): (r: seq<string>)
    ensures |r| == |d| && forall k :: 0 <= k < |d| ==> r[k] == d[k].0
  {
    if d == [] then [] else Names(d[..|d| - 1]) + [d[|d| - 1].0]
  }

  /**
   * The names of the meshes with a non-triangle, each once, in the order of
   * the first such mesh of each name; defined on the meshes alone.
   */
  function FirstSeen(ms: seq<Obj>): seq<string> {
    if ms == [] then []
    else
      var o := ms[|ms| - 1];
      var p := FirstSeen(ms[..|ms| - 1]);
      if IsMesh(o) && NonTriangles(o.polygons) > 0 && o.name !in p then p + [o.name] else p
  }

  lemma KeyedNames(d: Tally, x: string)
    ensures Keyed(d, x) <==> x in Names(d)
  {
    if x in Names(d) {
      var k :| 0 <= k < |Names(d)| && Names(d)[k] == x;
      assert d[k].0 == x;
    }
  }

  /** A bump keeps the names of a keyed tally and appends a new name at the end. */
  lemma BumpNames(d: Tally, name: string)
    ensures Names(Bump(d, name)) == if Keyed(d, name) then Names(d) else Names(d) + [name]
  {
    if Keyed(d, name) {
      IncNames(d, name);
    }
  }

  lemma {:induction false} BumpsNames(d: Tally, name: string, k: nat)
    ensures Names(Bumps(d, name, k)) == if k == 0 || Keyed(d, name) then Names(d) else Names(d) + [name]
    ensures k > 0 ==> Keyed(Bumps(d, name, k), name)
  {
    if k > 0 {
      var b := Bumps(d, name, k - 1);
      BumpsNames(d, name, k - 1);
      BumpNames(b, name);
      BumpKeys(b, name, name);
    }
  }

  /**
   * The tally lists the objects in the order the dictionary keeps them:
   * the names of meshes with a non-triangle, each once, in the order of
   * each name's first such mesh.
   */
  lemma {:induction false} TallyOrder(ms: seq<Obj>)
    ensures Names(NonTriTally(ms)) == FirstSeen(ms)
  {
    if ms != [] {
      var o := ms[|ms| - 1];
      var d := NonTriTally(ms[..|ms| - 1]);
      TallyOrder(ms[..|ms| - 1]);
      if IsMesh(o) {
        BumpsNames(d, o.name, NonTriangles(o.polygons));
        KeyedNames(d, o.name);
      }
    }
  }

  /** Two meshes with one quad each: the first one's entry comes first, as the dictionary prints them. */
  lemma TallyOrderExample()
    ensures var a := Obj("a", MeshKind, None, 1, [], [4], 0, false, "");
      var b := Obj("b", MeshKind, None, 1, [], [4], 0, false, "");
      NonTriTally([a, b]) == [("a", 1), ("b", 1)]
  {
    var a := Obj("a", MeshKind, None, 1, [], [4], 0, false, "");
    var b := Obj("b", MeshKind, None, 1, [], [4], 0, false, "");
    assert [a, b][..1] == [a] && [a][..0] == [];
    assert NonTriangles([4]) == 1 by {
      assert [4][..0] == [];
    }
    assert Bump([], "a") == [("a", 1)];
    var d := NonTriTally([a]);
    assert NonTriTally([a][..0]) == [];
    assert IsMesh(a) && a.name == "a" && NonTriangles(a.polygons) == 1;
    assert d == Bumps([], "a", 1) == [("a", 1)];
    assert !Keyed(d, "b");
    assert NonTriTally([a, b]) == Bumps(d, "b", 1) == Bump(d, "b") == d + [("b", 1)];
  }

  /** The counts of one walk over the file's objects. */
  datatype Stats = Stats(polycount: nat, ucxPolycount: nat, byObject: Tally)

  /** The walk over every polygon of every mesh. */
  method CountPolygons(ms: seq<Obj>) returns (s: Stats)
    ensures s.polycount == Polygons(ms, false) && s.ucxPolycount == Polygons(ms, true)
    ensures s.byObject == NonTriTally(ms)
  {
    s := Stats(0, 0, []);
    var i := 0;
    while i < |ms|
      invariant 0 <= i <= |ms|
      invariant s.polycount == Polygons(ms[..i], false) && s.ucxPolycount == Polygons(ms[..i], true)
      invariant s.byObject == NonTriTally(ms[..i])
    {
      assert ms[..i + 1][..i] == ms[..i];
      var o := ms[i];
      if IsMesh(o) {
        s := CountObject(o, s);
      }
      i := i + 1;
    }
    assert ms[..i] == ms;
  }

  /** The polygons of one mesh. */
  method CountObject(o: Obj, s0: Stats) returns (s: Stats)
    ensures s.polycount == s0.polycount + (if IsUcx(o) then 0 else |o.polygons|)
    ensures s.ucxPolycount == s0.ucxPolycount + (if IsUcx(o) then |o.polygons| else 0)
    ensures s.byObject == Bumps(s0.byObject, o.name, NonTriangles(o.polygons))
  {
    s := s0;
    var ucx := IsUcx(o);
    var ps := o.polygons;
    var j := 0;
    ghost var bumped := 0;
    while j < |ps|
      invariant 0 <= j <= |ps|
      invariant s.polycount == s0.polycount + (if ucx then 0 else j)
      invariant s.ucxPolycount == s0.ucxPolycount + (if ucx then j else 0)
      invariant bumped == NonTriangles(ps[..j]) && s.byObject == Bumps(s0.byObject, o.name, bumped)
    {
      NonTrianglesNext(ps, j);
      if ucx {
        s := s.(ucxPolycount := s.ucxPolycount + 1);
      } else {
        s := s.(polycount := s.polycount + 1);
      }
      if ps[j] > 3 {
        s := s.(byObject := Bump(s.byObject, o.name));
        bumped := bumped + 1;
      }
      j := j + 1;
    }
    assert ps[..j] == ps;
  }

  /** One more polygon adds one non-triangle exactly when it has more than three corners. */
  lemma NonTrianglesNext(ps: seq<int>, j: nat)
    requires j < |ps|
    ensures NonTriangles(ps[..j + 1]) == NonTriangles(ps[..j]) + (if ps[j] > 3 then 1 else 0)
  {
    assert ps[..j + 1][..j] == ps[..j];
  }

  /** The budget line: the polygons outside collision meshes over the budget. */
  function BudgetLines(fileName: string, polycount: int, budget: int): (r: seq<string>)
    ensures r == [] <==> polycount <= budget
  {
    if polycount > budget
    then [fileName + ": " + IntToString(polycount) + " полигонов, должно быть не более " + IntToString(budget)]
    else []
  }

  function TriangulationLines(d: Tally): (r: seq<string>)
    ensures |r| == |d|
  {
    if d == [] then []
    else
      var e := d[|d| - 1];
      TriangulationLines(d[..|d| - 1]) + [e.0 + ": не треугольных полигонов=" + IntToString(e.1)]
  }

  /** The 5 % ratio `ucx_polycount > polycount * 0.05`, in integers. */
  predicate OverRatio(ucx: int, polycount: int) {
    20 * ucx > polycount
  }

  const CollisionTail := " полигонов коллизий (максимальное кол-во полигонов - "

  /** A collision-cap line showing the count `shown` against the cap. */
  function CollisionLine(fileName: string, shown: int, cap: int): string {
    fileName + ": " + IntToString(shown) + CollisionTail + IntToString(cap) + ")"
  }

  /**
   * The two collision-cap checks (2.13.10 ratio, 2.13.11 absolute) as
   * written: a file under 50000 polygons allows 15000 collision polygons,
   * a larger one 5 % of its polygons. The line shows `polycount`.
   */
  function CapLinesAsWritten(fileName: string, polycount: nat, ucx: nat): (r: (seq<string>, seq<string>)) {
    if polycount < 50000 then
      ([], if ucx > 15000 then [CollisionLine(fileName, polycount, 15000)] else [])
    else
      (if OverRatio(ucx, polycount) then [CollisionLine(fileName, polycount, RoundHalfEven(polycount, 20))] else [], [])
  }

  /** The same checks showing the collision polygon count, which the message describes. */
  function CapLines(fileName: string, polycount: nat, ucx: nat): (r: (seq<string>, seq<string>))
    ensures r.1 != [] <==> polycount < 50000 && ucx > 15000
    ensures r.0 != [] <==> polycount >= 50000 && OverRatio(ucx, polycount)
  {
    if polycount < 50000 then
      ([], if ucx > 15000 then [CollisionLine(fileName, ucx, 15000)] else [])
    else
      (if OverRatio(ucx, polycount) then [CollisionLine(fileName, ucx, RoundHalfEven(polycount, 20))] else [], [])
  }

  /** Equal lines around parts of equal length have equal parts. */
  lemma Middle(head: string, x: string, y: string, tail: string)
    requires head + x + tail == head + y + tail && |x| == |y|
    ensures x == y
  {
    forall i | 0 <= i < |x| ensures x[i] == y[i] {
      assert (head + x + tail)[|head| + i] == x[i];
      assert (head + y + tail)[|head| + i] == y[i];
    }
  }

  /** Two lines built the same way around different middles are the same line only when the middles are. */
  lemma MiddleOf(head: string, x: string, y: string, t1: string, t2: string, t3: string)
    requires head + x + t1 + t2 + t3 == head + y + t1 + t2 + t3
    ensures x == y
  {
    var tail := t1 + t2 + t3;
    AppendAssoc(head + x, t1 + t2, t3);
    AppendAssoc(head + x, t1, t2);
    AppendAssoc(head + y, t1 + t2, t3);
    AppendAssoc(head + y, t1, t2);
    assert |head + x + tail| == |head + y + tail|;
    Middle(head, x, y, tail);
  }

  /** Different counts give different lines: the count shown reads back. */
  lemma CollisionLineCount(fileName: string, a: int, b: int, cap: int)
    ensures CollisionLine(fileName, a, cap) == CollisionLine(fileName, b, cap) ==> a == b
  {
    if CollisionLine(fileName, a, cap) == CollisionLine(fileName, b, cap) {
      MiddleOf(fileName + ": ", IntToString(a), IntToString(b), CollisionTail, IntToString(cap), ")");
      ParseIntToString(a);
      ParseIntToString(b);
    }
  }

  /** As written, a failing cap line shows the polygon count, so it misstates any collision count that differs from it. */
  lemma CapLineShowsPolycount(fileName: string, polycount: nat, ucx: nat)
    requires polycount < 50000 && ucx > 15000
    ensures CapLinesAsWritten(fileName, polycount, ucx).1 == [CollisionLine(fileName, polycount, 15000)]
    ensures polycount != ucx ==> CapLinesAsWritten(fileName, polycount, ucx).1 != CapLines(fileName, polycount, ucx).1
  {
    CollisionLineCount(fileName, polycount, ucx, 15000);
  }

  /** As written, a failing 5 % ratio line shows the polygon count as well, against the rounded 5 % cap. */
  lemma RatioLineShowsPolycount(fileName: string, polycount: nat, ucx: nat)
    requires polycount >= 50000 && OverRatio(ucx, polycount)
    ensures CapLinesAsWritten(fileName, polycount, ucx).0 == [CollisionLine(fileName, polycount, RoundHalfEven(polycount, 20))]
    ensures polycount != ucx ==> CapLinesAsWritten(fileName, polycount, ucx).0 != CapLines(fileName, polycount, ucx).0
  {
    CollisionLineCount(fileName, polycount, ucx, RoundHalfEven(polycount, 20));
  }

  /** The corrected lines report the collision polygon count: any count read off a line is `ucx`. */
  lemma CapLinesShowCollisions(fileName: string, polycount: nat, ucx: nat, n: int)
    ensures CollisionLine(fileName, n, 15000) in CapLines(fileName, polycount, ucx).1 ==> n == ucx
    ensures CollisionLine(fileName, n, RoundHalfEven(polycount, 20)) in CapLines(fileName, polycount, ucx).0 ==> n == ucx
  {
    CollisionLineCount(fileName, n, ucx, 15000);
    CollisionLineCount(fileName, n, ucx, RoundHalfEven(polycount, 20));
  }

  /** A report of a polygon check: every check of the rule counts the file's polygons. */
  method CountedReport(name: string, fileName: string, paragraph: string, id: string, errors: seq<string>, count: int)
    returns (f: Finding)
    ensures f == Finding(name, fileName, errors == [], paragraph, "полигонов", [id], "", errors, count)
  {
    var c := new Check(name, fileName, true, paragraph, "полигонов", [id]);
    c.checkedCount := count;
    AddErrors(c, errors);
    f := c.Snapshot();
  }

  const BudgetName := "Проверка геометрии. Количество полигонов"
  const TriangulationName := "Проверка геометрии. Триангуляция полигонов"
  const HpParagraph := "таблица 2, п. 3, п/п 12, п. 13, п/п 10-12"

  /** The four polygon reports of a high-poly file, in the order the rule returns them. */
  datatype HpPolyReports = HpPolyReports(budget: Finding, ratio: Finding, cap: Finding, triangulation: Finding)

  /**
   * The high-poly polygon rule for one file: a budget of two million
   * (2.3.12), the collision caps (2.13.10, 2.13.11) and triangulation
   * (2.3.19). Every report counts all polygons.
   */
  method CheckHpPolycount(fbx: Fbx) returns (t: HpPolyReports)
    ensures var n := Polygons(fbx.meshes, false) + Polygons(fbx.meshes, true);
      t.budget.checkedCount == n && t.triangulation.checkedCount == n
    ensures t.budget.ids == ["2.3.12"] && t.ratio.ids == ["2.13.10"] && t.cap.ids == ["2.13.11"] && t.triangulation.ids == ["2.3.19"]
    ensures t.budget.errors == BudgetLines(fbx.name, Polygons(fbx.meshes, false), 2000000)
    ensures t.ratio.errors == CapLines(fbx.name, Polygons(fbx.meshes, false), Polygons(fbx.meshes, true)).0
    ensures t.cap.errors == CapLines(fbx.name, Polygons(fbx.meshes, false), Polygons(fbx.meshes, true)).1
    ensures t.triangulation.errors == TriangulationLines(NonTriTally(fbx.meshes))
    ensures t.budget.verified <==> t.budget.errors == []
    ensures t.triangulation.verified <==> t.triangulation.errors == []
    ensures t.ratio.verified <==> t.ratio.errors == []
    ensures t.cap.verified <==> t.cap.errors == []
  {
    var s := CountPolygons(fbx.meshes);
    var total := s.polycount + s.ucxPolycount;
    var budget := CountedReport(BudgetName, fbx.name, HpParagraph, "2.3.12", BudgetLines(fbx.name, s.polycount, 2000000), total);
    var caps := CapLines(fbx.name, s.polycount, s.ucxPolycount);
    var ratio := CountedReport(BudgetName, fbx.name, HpParagraph, "2.13.10", caps.0, 0);
    var cap := CountedReport(BudgetName, fbx.name, HpParagraph, "2.13.11", caps.1, 0);
    var triangulation := CountedReport(TriangulationName, fbx.name, "таблица 2, п. 3, п/п 19", "2.3.19",
      TriangulationLines(s.byObject), total);
    t := HpPolyReports(budget, ratio, cap, triangulation);
  }

  /** The low-poly budget: 180000 polygons for a landscaping file, 150000 otherwise. */
  function LpBudget(fbx: Fbx): int {
    if HasLower(fbx.name, "ground") then 180000 else 150000
  }

  /**
   * The low-poly polygon rule for one file: the budget (2.3.6) and
   * triangulation (2.3.12), both counting all polygons.
   */
  method CheckLpPolycount(fbx: Fbx) returns (budget: Finding, triangulation: Finding)
    ensures var n := Polygons(fbx.meshes, false) + Polygons(fbx.meshes, true);
      budget.checkedCount == n && triangulation.checkedCount == n
    ensures budget.ids == ["2.3.6"] && triangulation.ids == ["2.3.12"]
    ensures budget.errors == BudgetLines(fbx.name, Polygons(fbx.meshes, false), LpBudget(fbx))
    ensures triangulation.errors == TriangulationLines(NonTriTally(fbx.meshes))
    ensures budget.verified <==> Polygons(fbx.meshes, false) <= LpBudget(fbx)
  {
    var s := CountPolygons(fbx.meshes);
    var total := s.polycount + s.ucxPolycount;
    var limit := if HasLower(fbx.name, "ground") then 180000 else 150000;
    budget := CountedReport(BudgetName, fbx.name, "таблица 2, п. 3, п/п 6", "2.3.6", BudgetLines(fbx.name, s.polycount, limit), total);
    triangulation := CountedReport(TriangulationName, fbx.name, "таблица 2, п. 3, п/п 12", "2.3.12",
      TriangulationLines(s.byObject), total);
  }

  /** Triangulation passes exactly when no mesh has a polygon with more than three vertices. */
  lemma {:induction false} TriangulationPasses(ms: seq<Obj>)
    ensures TriangulationLines(NonTriTally(ms)) == [] <==>
      forall i :: 0 <= i < |ms| && IsMesh(ms[i]) ==> NonTriangles(ms[i].polygons) == 0
  {
    if ms != [] {
      var n := |ms| - 1;
      var o := ms[n];
      TriangulationPasses(ms[..n]);
      assert forall i :: 0 <= i < n ==> ms[..n][i] == ms[i];
      if IsMesh(o) {
        BumpsGrow(NonTriTally(ms[..n]), o.name, NonTriangles(o.polygons));
      }
    }
  }

  /** Bumps never shrink the tally, and some bump makes it non-empty. */
  lemma {:induction false} BumpsGrow(d: Tally, name: string, k: nat)
    ensures |Bumps(d, name, k)| >= |d|
    ensures k > 0 ==> Bumps(d, name, k) != []
  {
    if k > 0 {
      BumpsGrow(d, name, k - 1);
    }
  }
}
