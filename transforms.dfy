/**
 * Applied transforms (`check_fbx_meshes_transforms` and the two rules that
 * call it): every object other than a spot or omni lamp must have no
 * location offset (unless the rule ignores location), no rotation and unit
 * scale. The errors are sorted by the first three letters of the object
 * name and grouped; a group of collision meshes ("UCX" in the name) is
 * shortened to its first line, "..." and its last line.
 */
module Transforms {
  import opened Text
  import opened Findings
  import opened Walks

  /**
   * An object as the transform check sees it: the three floating-point
   * tests kept as booleans (offset, rotation, scale off unity) and the
   * rounded values as the messages print them.
   */
  datatype Pose = Pose(name: string, moved: bool, turned: bool, resized: bool, location: string, rotation: string, scale: string)

  /** One error before grouping: its kind, its sort key, the object name and the printed values. */
  datatype Entry = Entry(kind: string, key: string, name: string, values: string)

  /** Lamps named "spot" or "omni", in any case, are not checked. */
  predicate Skipped(p: Pose) {
    Contains(Lower(p.name), "spot") || Contains(Lower(p.name), "omni")
  }

  /** `name[:3]`. */
  function Prefix3(s: string): (r: string)
    ensures |r| == if |s| < 3 then |s| else 3
    ensures r == s[..|r|]
  {
    if |s| <= 3 then s else s[..3]
  }

  /** The errors of one object, in the order Location, Rotation, Scale. */
  function PoseEntries(p: Pose, ignoreLocation: bool): seq<Entry> {
    if Skipped(p) then []
    else
      var key := Prefix3(p.name);
      (if !ignoreLocation && p.moved then [Entry("Location", key, p.name, p.location)] else [])
      + (if p.turned then [Entry("Rotation", key, p.name, p.rotation)] else [])
      + (if p.resized then [Entry("Scale", key, p.name, p.scale)] else [])
  }

  function Entries(ps: seq<Pose>, ignoreLocation: bool): seq<Entry> {
    Walk(ps, p => PoseEntries(p, ignoreLocation))
  }

  /** The objects the check counts: all but the skipped lamps. */
  function Checked(ps: seq<Pose>): (n: nat)
    ensures n <= |ps|
  {
    if ps == [] then 0 else Checked(ps[..|ps| - 1]) + (if Skipped(ps[|ps| - 1]) then 0 else 1)
  }

  /** Every entry of an object carries its name and the name's first three letters as key. */
  lemma PoseEntryKey(p: Pose, ignoreLocation: bool, j: int)
    requires 0 <= j < |PoseEntries(p, ignoreLocation)|
    ensures PoseEntries(p, ignoreLocation)[j].key == Prefix3(p.name)
    ensures PoseEntries(p, ignoreLocation)[j].name == p.name
  {
  }

  /** An object that is checked has errors exactly when one of its tests fails. */
  lemma PoseFails(p: Pose, ignoreLocation: bool)
    ensures PoseEntries(p, ignoreLocation) != [] <==> !Skipped(p) && ((!ignoreLocation && p.moved) || p.turned || p.resized)
  {
  }

  /** The tests of one object that is not skipped. */
  method PoseErrors(p: Pose, ignoreLocation: bool) returns (es: seq<Entry>)
    requires !Skipped(p)
    ensures es == PoseEntries(p, ignoreLocation)
  {
    es := [];
    var key := Prefix3(p.name);
    if !ignoreLocation && p.moved {
      es := es + [Entry("Location", key, p.name, p.location)];
    }
    if p.turned {
      es := es + [Entry("Rotation", key, p.name, p.rotation)];
    }
    if p.resized {
      es := es + [Entry("Scale", key, p.name, p.scale)];
    }
  }

  /** The walk over the objects: the counter and the error list. */
  method Collect(ps: seq<Pose>, ignoreLocation: bool) returns (es: seq<Entry>, count: nat)
    ensures es == Entries(ps, ignoreLocation)
    ensures count == Checked(ps)
  {
    es, count := [], 0;
    var i := 0;
    while i < |ps|
      invariant 0 <= i <= |ps|
      invariant es == Entries(ps[..i], ignoreLocation)
      invariant count == Checked(ps[..i])
    {
      assert ps[..i + 1][..i] == ps[..i];
      if !Skipped(ps[i]) {
        count := count + 1;
        var more := PoseErrors(ps[i], ignoreLocation);
        es := es + more;
      }
      i := i + 1;
    }
    assert ps[..i] == ps;
  }

  /** Ordered by key, as `sorted(errors, key=lambda i: i[1])` leaves them: each key at most the next one. */
  predicate SortedByKey(es: seq<Entry>) {
    forall i :: 0 < i < |es| ==> StrLe(es[i - 1].key, es[i].key)
  }

  lemma StrLtLe(a: string, b: string, c: string)
    requires StrLt(a, b) && StrLe(b, c)
    ensures StrLt(a, c)
  {
    if b != c {
      StrLtTrans(a, b, c);
    }
  }

  /** Inserts `e` after every entry whose key is not greater than its own. */
  function InsertEntry(s: seq<Entry>, e: Entry): (r: seq<Entry>)
    requires SortedByKey(s)
    ensures SortedByKey(r)
    ensures multiset(r) == multiset(s) + multiset{e}
    ensures r[0] == e || (s != [] && r[0] == s[0])
    decreases |s|
  {
    if s == [] then [e]
    else if StrLt(e.key, s[0].key) then
      [e] + s
    else
      var t := InsertEntry(s[1..], e);
      StrLtTotal(e.key, s[0].key);
      assert s == [s[0]] + s[1..];
      [s[0]] + t
  }

  /** Python's stable `sorted` by key. */
  function SortByKey(es: seq<Entry>): (r: seq<Entry>)
    ensures SortedByKey(r)
    ensures multiset(r) == multiset(es)
  {
    if es == [] then []
    else
      assert es == es[..|es| - 1] + [es[|es| - 1]];
      InsertEntry(SortByKey(es[..|es| - 1]), es[|es| - 1])
  }

  /** Adjacent order gives order between any two entries. */
  lemma {:induction false} SortedPairs(es: seq<Entry>, i: int, j: int)
    requires SortedByKey(es) && 0 <= i <= j < |es|
    ensures StrLe(es[i].key, es[j].key)
    decreases j - i
  {
    if i < j {
      SortedPairs(es, i, j - 1);
      StrLeTrans(es[i].key, es[j - 1].key, es[j].key);
    }
  }

  /** The entries with key `k`, in order. */
  function OfKey(es: seq<Entry>, k: string): seq<Entry> {
    if es == [] then [] else (if es[0].key == k then [es[0]] else []) + OfKey(es[1..], k)
  }

  lemma {:induction false} OfKeyAppend(a: seq<Entry>, b: seq<Entry>, k: string)
    ensures OfKey(a + b, k) == OfKey(a, k) + OfKey(b, k)
  {
    if a == [] {
      assert a + b == b;
    } else {
      var h := if a[0].key == k then [a[0]] else [];
      assert (a + b)[0] == a[0];
      assert (a + b)[1..] == a[1..] + b;
      OfKeyAppend(a[1..], b, k);
      assert OfKey(a + b, k) == h + OfKey(a[1..] + b, k);
      AppendAssoc(h, OfKey(a[1..], k), OfKey(b, k));
    }
  }

  /** In a sorted list that starts above `k`, no entry has key `k`. */
  lemma {:induction false} OfKeyAbove(s: seq<Entry>, k: string)
    requires SortedByKey(s) && s != [] && StrLt(k, s[0].key)
    ensures OfKey(s, k) == []
  {
    StrLtIrreflexive(k);
    if |s| > 1 {
      StrLtLe(k, s[0].key, s[1].key);
      OfKeyAbove(s[1..], k);
    }
  }

  lemma OfKeyCons(x: Entry, rest: seq<Entry>, k: string)
    ensures OfKey([x] + rest, k) == (if x.key == k then [x] else []) + OfKey(rest, k)
  {
    assert ([x] + rest)[1..] == rest;
  }

  lemma {:induction false} InsertOfKey(s: seq<Entry>, e: Entry, k: string)
    requires SortedByKey(s)
    ensures OfKey(InsertEntry(s, e), k) == OfKey(s, k) + (if e.key == k then [e] else [])
    decreases |s|
  {
    if s == [] {
      OfKeyCons(e, [], k);
    } else if StrLt(e.key, s[0].key) {
      InsertFront(s, e, k);
    } else {
      SortedTail(s);
      InsertOfKey(s[1..], e, k);
      InsertLater(s, e, k);
    }
  }

  lemma SortedTail(s: seq<Entry>)
    requires SortedByKey(s) && s != []
    ensures SortedByKey(s[1..])
  {
    var rest := s[1..];
    forall i | 0 < i < |rest| ensures StrLe(rest[i - 1].key, rest[i].key) {
      assert rest[i - 1] == s[i] && rest[i] == s[i + 1];
    }
  }

  /** Inserting before the first entry. */
  lemma InsertFront(s: seq<Entry>, e: Entry, k: string)
    requires SortedByKey(s) && s != [] && StrLt(e.key, s[0].key)
    ensures OfKey(InsertEntry(s, e), k) == OfKey(s, k) + (if e.key == k then [e] else [])
  {
    assert InsertEntry(s, e) == [e] + s;
    OfKeyCons(e, s, k);
    if e.key == k {
      OfKeyAbove(s, k);
    }
  }

  /** Inserting further down, given the insertion into the tail. */
  lemma InsertLater(s: seq<Entry>, e: Entry, k: string)
    requires SortedByKey(s) && s != [] && !StrLt(e.key, s[0].key)
    requires SortedByKey(s[1..])
    requires OfKey(InsertEntry(s[1..], e), k) == OfKey(s[1..], k) + (if e.key == k then [e] else [])
    ensures OfKey(InsertEntry(s, e), k) == OfKey(s, k) + (if e.key == k then [e] else [])
  {
    var rest := s[1..];
    var t := InsertEntry(rest, e);
    var me: seq<Entry> := if e.key == k then [e] else [];
    var h0: seq<Entry> := if s[0].key == k then [s[0]] else [];
    assert InsertEntry(s, e) == [s[0]] + t;
    OfKeyCons(s[0], t, k);
    assert OfKey(s, k) == h0 + OfKey(rest, k);
    AppendAssoc(h0, OfKey(rest, k), me);
  }

  /** The sort is stable: the entries of each key keep their order. */
  lemma {:induction false} SortStable(es: seq<Entry>, k: string)
    ensures OfKey(SortByKey(es), k) == OfKey(es, k)
  {
    if es != [] {
      var n := |es| - 1;
      SplitLast(es);
      OfKeyAppend(es[..n], [es[n]], k);
      SortStable(es[..n], k);
      InsertOfKey(SortByKey(es[..n]), es[n], k);
    }
  }

  /** The length of the leading run of entries with key `k` (what `groupby` hands out as one group). */
  function Run(es: seq<Entry>, k: string): (n: nat)
    ensures n <= |es|
  {
    if es == [] || es[0].key != k then 0 else 1 + Run(es[1..], k)
  }

  lemma {:induction false} RunKeys(es: seq<Entry>, k: string, j: int)
    requires 0 <= j < Run(es, k)
    ensures es[j].key == k
  {
    if j > 0 {
      RunKeys(es[1..], k, j - 1);
    }
  }

  /** The message of one entry. */
  function Line(e: Entry): string {
    e.name + ", " + e.kind + "=" + e.values
  }

  function Lines(es: seq<Entry>): (r: seq<string>)
    ensures |r| == |es|
  {
    if es == [] then [] else Lines(es[..|es| - 1]) + [Line(es[|es| - 1])]
  }

  /** A group of collision meshes shows its first and last entry around "..."; any other group shows every entry. */
  function GroupLines(g: seq<Entry>): seq<string>
    requires g != []
  {
    if Contains(g[0].key, "UCX") then [Line(g[0]), "...", Line(g[|g| - 1])] else Lines(g)
  }

  /** The messages of the grouping loop, group after group. */
  function GroupedLines(es: seq<Entry>): seq<string>
    decreases |es|
  {
    if es == [] then []
    else
      var n := Run(es, es[0].key);
      GroupLines(es[..n]) + GroupedLines(es[n..])
  }

  /** The lines a file's check receives. */
  function TransformLines(ps: seq<Pose>, ignoreLocation: bool): seq<string> {
    GroupedLines(SortByKey(Entries(ps, ignoreLocation)))
  }

  /** The inner scan of `groupby`: the length of the group starting at `i`. */
  method RunLength(es: seq<Entry>, i: nat) returns (n: nat)
    requires i < |es|
    ensures n == Run(es[i..], es[i].key) && n >= 1
  {
    var key := es[i].key;
    n := 1;
    while i + n < |es| && es[i + n].key == key
      invariant 1 <= n <= |es| - i
      invariant forall j :: i <= j < i + n ==> es[j].key == key
    {
      n := n + 1;
    }
    RunExact(es[i..], key, n);
  }

  /** One step of the grouping: the group in front, then the rest. */
  lemma GroupedStep(es: seq<Entry>, i: nat, n: nat)
    requires i < |es| && n == Run(es[i..], es[i].key)
    ensures GroupedLines(es[i..]) == GroupLines(es[i..i + n]) + GroupedLines(es[i + n..])
  {
    var rest := es[i..];
    assert rest[..n] == es[i..i + n] && rest[n..] == es[i + n..];
  }

  lemma Regroup(done: seq<string>, group: seq<string>, rest: seq<string>, tail: seq<string>, all: seq<string>)
    requires done + tail == all && tail == group + rest
    ensures (done + group) + rest == all
  {
    AppendAssoc(done, group, rest);
  }

  /** The grouping loop over the sorted entries. */
  method Grouped(es: seq<Entry>) returns (lines: seq<string>)
    ensures lines == GroupedLines(es)
  {
    lines := [];
    var i := 0;
    while i < |es|
      invariant 0 <= i <= |es|
      invariant lines + GroupedLines(es[i..]) == GroupedLines(es)
      decreases |es| - i
    {
      var n := RunLength(es, i);
      var group := GroupLines(es[i..i + n]);
      ghost var rest := es[i + n..];
      GroupedStep(es, i, n);
      Regroup(lines, group, GroupedLines(rest), GroupedLines(es[i..]), GroupedLines(es));
      lines := lines + group;
      i := i + n;
      assert es[i..] == rest;
    }
    assert lines + [] == lines;
  }

  /** A run of `n` equal keys followed by a different key or the end has length `n`. */
  lemma {:induction false} RunExact(es: seq<Entry>, k: string, n: nat)
    requires n <= |es|
    requires forall j :: 0 <= j < n ==> es[j].key == k
    requires n < |es| ==> es[n].key != k
    ensures Run(es, k) == n
    decreases n
  {
    if n > 0 {
      RunExact(es[1..], k, n - 1);
    }
  }

  /** The grouping yields no line exactly when there is no entry. */
  lemma GroupedEmpty(es: seq<Entry>)
    ensures GroupedLines(es) == [] <==> es == []
  {
    if es != [] {
      var n := Run(es, es[0].key);
      assert n >= 1;
      assert |GroupLines(es[..n])| >= 1;
    }
  }

  /** The grouping of entries that start with a group outside collisions: its lines, then the rest's. */
  lemma GroupedFront(es: seq<Entry>)
    requires es != [] && !Contains(es[0].key, "UCX")
    ensures var n := Run(es, es[0].key);
      GroupedLines(es) == Lines(es[..n]) + GroupedLines(es[n..]) && Lines(es) == Lines(es[..n]) + Lines(es[n..])
  {
    var n := Run(es, es[0].key);
    assert es[..n][0] == es[0];
    LinesAppend(es[..n], es[n..]);
    TakeDrop(es, n);
  }

  /** With no collision group, every entry is listed, in sorted order. */
  lemma {:induction false} GroupedAll(es: seq<Entry>)
    requires forall j :: 0 <= j < |es| ==> !Contains(es[j].key, "UCX")
    ensures GroupedLines(es) == Lines(es)
    decreases |es|
  {
    if es != [] {
      var n := Run(es, es[0].key);
      var rest := es[n..];
      assert forall j :: 0 <= j < |rest| ==> !Contains(rest[j].key, "UCX") by {
        forall j | 0 <= j < |rest| ensures !Contains(rest[j].key, "UCX") {
          assert rest[j] == es[n + j];
        }
      }
      GroupedAll(rest);
      GroupedFront(es);
    }
  }

  lemma {:induction false} LinesAt(es: seq<Entry>, i: int)
    requires 0 <= i < |es|
    ensures Lines(es)[i] == Line(es[i])
  {
    if i < |es| - 1 {
      LinesAt(es[..|es| - 1], i);
    }
  }

  lemma {:induction false} LinesAppend(a: seq<Entry>, b: seq<Entry>)
    ensures Lines(a + b) == Lines(a) + Lines(b)
  {
    if b == [] {
      assert a + b == a;
    } else {
      var n := |b| - 1;
      assert (a + b)[..|a + b| - 1] == a + b[..n];
      LinesAppend(a, b[..n]);
    }
  }

  /** Every entry outside a collision group has its line among the messages. */
  lemma {:induction false} GroupedHas(es: seq<Entry>, i: int)
    requires 0 <= i < |es| && !Contains(es[i].key, "UCX")
    ensures Line(es[i]) in GroupedLines(es)
    decreases |es|
  {
    var n := Run(es, es[0].key);
    assert es[0..] == es && es[0..0 + n] == es[..n];
    GroupedStep(es, 0, n);
    if i < n {
      RunKeys(es, es[0].key, i);
      LinesAt(es[..n], i);
      assert Line(es[i]) in GroupLines(es[..n]);
    } else {
      GroupedHas(es[n..], i - n);
      assert es[n..][i - n] == es[i];
    }
  }

  /** A lone collision entry is shown twice, around "...". */
  lemma LoneCollision(e: Entry)
    requires Contains(e.key, "UCX")
    ensures GroupedLines([e]) == [Line(e), "...", Line(e)]
  {
    CollisionGroup([e], e.key);
  }

  /** A collision group of any size shows three lines: its first entry, "..." and its last entry. */
  lemma CollisionGroup(g: seq<Entry>, k: string)
    requires g != [] && Contains(k, "UCX") && forall j :: 0 <= j < |g| ==> g[j].key == k
    ensures GroupedLines(g) == [Line(g[0]), "...", Line(g[|g| - 1])]
  {
    assert g[0..] == g && g[0..0 + |g|] == g;
    assert |g[0 + |g|..]| == 0;
    RunExact(g, k, |g|);
    GroupedStep(g, 0, |g|);
  }

  /**
   * A check of one file passes exactly when no checked object has a
   * failing test; every line of an object outside a collision group is
   * among the messages, and the report counts the objects checked.
   */
  method TransformReport(name: string, fileName: string, paragraph: string, id: string, ps: seq<Pose>, ignoreLocation: bool)
    returns (f: Finding)
    ensures f == Finding(name, fileName, f.errors == [], paragraph, "мешей", [id], "", TransformLines(ps, ignoreLocation), Checked(ps))
  {
    var es, count := Collect(ps, ignoreLocation);
    var lines := Grouped(SortByKey(es));
    var c := new Check(name, fileName, true, paragraph, "мешей", [id]);
    c.checkedCount := count;
    AddErrors(c, lines);
    f := c.Snapshot();
  }

  /** The entries are empty exactly when every checked object passes all its tests. */
  lemma TransformsPass(ps: seq<Pose>, ignoreLocation: bool)
    ensures TransformLines(ps, ignoreLocation) == [] <==>
      forall i :: 0 <= i < |ps| && !Skipped(ps[i]) ==> !(!ignoreLocation && ps[i].moved) && !ps[i].turned && !ps[i].resized
  {
    var es := Entries(ps, ignoreLocation);
    GroupedEmpty(SortByKey(es));
    assert SortByKey(es) == [] <==> es == [] by {
      assert |multiset(SortByKey(es))| == |SortByKey(es)| && |multiset(es)| == |es|;
    }
    WalkEmpty(ps, p => PoseEntries(p, ignoreLocation));
    forall i | 0 <= i < |ps| {
      PoseFails(ps[i], ignoreLocation);
    }
  }

  /** A failing test of an object outside a collision group shows up as its own line. */
  lemma TransformListed(ps: seq<Pose>, ignoreLocation: bool, i: int, j: int)
    requires 0 <= i < |ps| && 0 <= j < |PoseEntries(ps[i], ignoreLocation)|
    requires !Contains(Prefix3(ps[i].name), "UCX")
    ensures Line(PoseEntries(ps[i], ignoreLocation)[j]) in TransformLines(ps, ignoreLocation)
  {
    var e := PoseEntries(ps[i], ignoreLocation)[j];
    PoseEntryKey(ps[i], ignoreLocation, j);
    WalkHas(ps, p => PoseEntries(p, ignoreLocation), i, j);
    var s := SortByKey(Entries(ps, ignoreLocation));
    assert e in multiset(s);
    var k :| 0 <= k < |s| && s[k] == e;
    GroupedHas(s, k);
  }

  /** The lines of the grouping that name a location, in order (`if "Location" in err`). */
  function LocationLines(lines: seq<string>): (r: seq<string>)
    ensures |r| <= |lines|
    ensures forall j :: 0 <= j < |r| ==> Contains(r[j], "Location") && r[j] in lines
  {
    if lines == [] then []
    else
      var l := lines[|lines| - 1];
      LocationLines(lines[..|lines| - 1]) + (if Contains(l, "Location") then [l] else [])
  }

  /** The second high-poly check copies the first check's location lines. */
  method CopyLocations(lines: seq<string>) returns (r: seq<string>)
    ensures r == LocationLines(lines)
  {
    r := [];
    var i := 0;
    while i < |lines|
      invariant 0 <= i <= |lines|
      invariant r == LocationLines(lines[..i])
    {
      assert lines[..i + 1][..i] == lines[..i];
      if Contains(lines[i], "Location") {
        r := r + [lines[i]];
      }
      i := i + 1;
    }
    assert lines[..i] == lines;
  }

  const Name := "Проверка геометрии. Трансформации"
  const HpParagraph := "таблица 2, п. 3 п/п 21, п. 9, п/п 3"

  /**
   * The high-poly rule for one file: 2.3.21 receives every transform line,
   * 2.9.3 the lines that mention a location, without a count of its own.
   */
  method CheckHpTransforms(fileName: string, ps: seq<Pose>) returns (all: Finding, locations: Finding)
    ensures all.ids == ["2.3.21"] && locations.ids == ["2.9.3"]
    ensures all.errors == TransformLines(ps, false) && all.checkedCount == Checked(ps)
    ensures all.verified <==> all.errors == []
    ensures locations.errors == LocationLines(all.errors) && locations.checkedCount == 0
    ensures locations.verified <==> locations.errors == []
  {
    all := TransformReport(Name, fileName, HpParagraph, "2.3.21", ps, false);
    var c := new Check(Name, fileName, true, HpParagraph, "мешей", ["2.9.3"]);
    var copied := CopyLocations(all.errors);
    AddErrors(c, copied);
    locations := c.Snapshot();
  }

  /** The low-poly rule for one file (2.3.16) ignores location. */
  method CheckLpTransforms(fileName: string, ps: seq<Pose>) returns (f: Finding)
    ensures f.ids == ["2.3.16"] && f.checkedCount == Checked(ps)
    ensures f.errors == TransformLines(ps, true)
    ensures f.verified <==> f.errors == []
  {
    f := TransformReport(Name, fileName, "таблица 2, п. 3, п/п 16", "2.3.16", ps, true);
  }

  /** Ignoring location, no entry is a location entry. */
  lemma {:induction false} NoLocationEntries(ps: seq<Pose>, i: int)
    requires 0 <= i < |Entries(ps, true)|
    ensures Entries(ps, true)[i].kind != "Location"
  {
    var n := |ps| - 1;
    var lines := p => PoseEntries(p, true);
    assert Entries(ps, true) == Entries(ps[..n], true) + PoseEntries(ps[n], true);
    if i < |Entries(ps[..n], true)| {
      NoLocationEntries(ps[..n], i);
    }
  }
}
