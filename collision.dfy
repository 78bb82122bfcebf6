/**
 * The collision rule of the high-poly check (`_check_collision`): which UCX
 * proxies are open or not convex, which pairs of proxies are checked for
 * overlap and how overlaps are listed, and whether the proxies are numbered
 * 1, 2, 3, ... without gaps. The convexity test and the BVH overlap test are
 * inputs.
 */
module Collision {
  import opened Wrappers
  import opened Text
  import opened Findings

  /** A scene mesh as the rule sees it; `convex` is the outcome of the convexity test on it. */
  datatype Mesh = Mesh(name: string, isMesh: bool, vertices: int, edges: int, polygons: int, convex: bool)

  /** A collision proxy, by name. */
  predicate IsUcx(m: Mesh) {
    Contains(m.name, "UCX")
  }

  /** A collision proxy that is a mesh object: the meshes the overlap walk considers. */
  predicate IsUcxMesh(m: Mesh) {
    m.isMesh && IsUcx(m)
  }

  /** `name[-3:]` */
  function Last3(s: string): (r: string)
    ensures |r| == if |s| >= 3 then 3 else |s|
  {
    s[if |s| >= 3 then |s| - 3 else 0..]
  }

  /** Euler's formula for a closed surface of genus 0: V - E + F = 2. */
  predicate Closed(m: Mesh) {
    m.vertices - m.edges + m.polygons == 2
  }

  // ---------------------------------------------------------------------
  // Closed and convex proxies
  // ---------------------------------------------------------------------

  /** The proxies whose number is three digits at the end of the name, as integers, in mesh order. */
  function UcxNumbers(ms: seq<Mesh>): seq<int> {
    if |ms| == 0 then []
    else
      var m := ms[|ms| - 1];
      UcxNumbers(ms[..|ms| - 1]) + (if IsUcx(m) && IsDigits(Last3(m.name)) then [DigitsValue(Last3(m.name)) as int] else [])
  }

  /** The positions of the open proxies, in mesh order. */
  function UnclosedIdx(ms: seq<Mesh>): (r: seq<nat>)
    ensures forall k :: 0 <= k < |r| ==> r[k] < |ms|
  {
    if |ms| == 0 then []
    else
      var m := ms[|ms| - 1];
      UnclosedIdx(ms[..|ms| - 1]) + (if IsUcx(m) && !Closed(m) then [|ms| - 1] else [])
  }

  /** The positions of the closed proxies that are not convex; open ones are never checked. */
  function NonConvexIdx(ms: seq<Mesh>): (r: seq<nat>)
    ensures forall k :: 0 <= k < |r| ==> r[k] < |ms|
  {
    if |ms| == 0 then []
    else
      var m := ms[|ms| - 1];
      NonConvexIdx(ms[..|ms| - 1]) + (if IsUcx(m) && Closed(m) && !m.convex then [|ms| - 1] else [])
  }

  /** A proxy is listed as open exactly when it breaks Euler's formula, and as non-convex exactly when it is closed and fails the convexity test. */
  lemma {:induction false} ClosureMembers(ms: seq<Mesh>, i: nat)
    ensures i in UnclosedIdx(ms) <==> i < |ms| && IsUcx(ms[i]) && !Closed(ms[i])
    ensures i in NonConvexIdx(ms) <==> i < |ms| && IsUcx(ms[i]) && Closed(ms[i]) && !ms[i].convex
  {
    if |ms| > 0 {
      var p := ms[..|ms| - 1];
      ClosureMembers(p, i);
      if i < |p| {
        assert p[i] == ms[i];
      }
    }
  }

  /** The last three characters of the names of the meshes at the given positions. */
  function Labels(ms: seq<Mesh>, idx: seq<nat>): (r: seq<string>)
    requires forall k :: 0 <= k < |idx| ==> idx[k] < |ms|
    ensures |r| == |idx|
  {
    seq(|idx|, k requires 0 <= k < |idx| => Last3(ms[idx[k]].name))
  }

  const UnclosedHead: string := "Незамкнутая геометрия. "
  const NonConvexHead: string := "Невыпуклая геометрия. "

  /** The count and the labels, as both closure messages end. */
  function Tally(labels: seq<string>): string {
    IntToString(|labels|) + " шт., номера коллизий - " + Join(labels, ", ") + "."
  }

  function UnclosedMessage(labels: seq<string>): string {
    UnclosedHead + Tally(labels)
  }

  function NonConvexMessage(labels: seq<string>): string {
    NonConvexHead + Tally(labels)
  }

  /** Whatever follows them, a non-convex message sorts before an open-geometry one. */
  lemma HeadOrder(x: string, y: string)
    ensures StrLt(NonConvexHead + x, UnclosedHead + y)
  {
    assert NonConvexHead + x == "Не" + ['в'] + (NonConvexHead[3..] + x);
    assert UnclosedHead + y == "Не" + ['з'] + (UnclosedHead[3..] + y);
    StrLtAt("Не", 'в', NonConvexHead[3..] + x, 'з', UnclosedHead[3..] + y);
  }

  /** The messages of the closure check before the final sort: open proxies first, then non-convex ones. */
  function ClosureErrors(ms: seq<Mesh>): (r: seq<string>)
    ensures |r| <= 2
    ensures r == [] <==> UnclosedIdx(ms) == [] && NonConvexIdx(ms) == []
  {
    var u := UnclosedIdx(ms);
    var c := NonConvexIdx(ms);
    (if |u| > 0 then [UnclosedMessage(Labels(ms, u))] else []) + (if |c| > 0 then [NonConvexMessage(Labels(ms, c))] else [])
  }

  /** Sorting two strings puts the smaller first. */
  lemma SortTwo(a: string, b: string)
    requires StrLt(b, a)
    ensures SortStrings([a, b]) == [b, a]
  {
    assert [a, b][..1] == [a];
    assert [a][..0] == [];
    assert SortStrings([a]) == [a];
  }

  /** With both kinds of defect, the sort puts the non-convex message first ("Нев" before "Нез"). */
  lemma ClosureSortOrder(ms: seq<Mesh>)
    requires UnclosedIdx(ms) != [] && NonConvexIdx(ms) != []
    ensures SortStrings(ClosureErrors(ms)) ==
      [NonConvexMessage(Labels(ms, NonConvexIdx(ms))), UnclosedMessage(Labels(ms, UnclosedIdx(ms)))]
  {
    var u := UnclosedMessage(Labels(ms, UnclosedIdx(ms)));
    var c := NonConvexMessage(Labels(ms, NonConvexIdx(ms)));
    HeadOrder(Tally(Labels(ms, NonConvexIdx(ms))), Tally(Labels(ms, UnclosedIdx(ms))));
    SortTwo(u, c);
  }

  // ---------------------------------------------------------------------
  // Overlapping proxies
  // ---------------------------------------------------------------------

  /** Which meshes are UCX meshes, by position. */
  function UcxFlags(ms: seq<Mesh>): (u: seq<bool>)
    ensures |u| == |ms|
  {
    seq(|ms|, k requires 0 <= k < |ms| => IsUcxMesh(ms[k]))
  }

  /**
   * The first `m` steps of the inner walk for mesh `i` over `list2`, which
   * runs from the last mesh down: the pairs `(i, j)` with `j` another UCX
   * mesh (`u[j]`) that the overlap test `hits` reports.
   */
  function Found(u: seq<bool>, hits: set<(int, int)>, i: nat, m: nat): (r: seq<(int, int)>)
    requires i < |u| && m <= |u|
  {
    if m == 0 then []
    else
      var j := |u| - m;
      Found(u, hits, i, m - 1) + if u[j] && j != i && (i, j) in hits then [(i, j)] else []
  }

  /** The number of UCX meshes before position `i`. */
  function UcxBefore(u: seq<bool>, i: nat): (r: nat)
    requires i <= |u|
    ensures r <= i
  {
    if i == 0 then 0 else UcxBefore(u, i - 1) + (if u[i - 1] then 1 else 0)
  }

  /**
   * How many meshes have been popped from the end of `list2` when mesh `i`
   * is visited. As written the pop is skipped by the `continue` of every
   * mesh that is not a UCX mesh (`popAll == false`); as intended every mesh
   * pops one (`popAll == true`).
   */
  function Popped(u: seq<bool>, i: nat, popAll: bool): (r: nat)
    requires i <= |u|
    ensures r <= i
  {
    if popAll then i else UcxBefore(u, i)
  }

  /** The overlapping pairs found while the outer loop visits the first `k` meshes, in order. */
  function Walk(u: seq<bool>, hits: set<(int, int)>, k: nat, popAll: bool): (r: seq<(int, int)>)
    requires k <= |u|
  {
    if k == 0 then []
    else Walk(u, hits, k - 1, popAll) + (if u[k - 1] then Found(u, hits, k - 1, |u| - Popped(u, k - 1, popAll)) else [])
  }

  /** How many times `p` occurs in `ps`. */
  function Count(ps: seq<(int, int)>, p: (int, int)): nat {
    if |ps| == 0 then 0 else Count(ps[..|ps| - 1], p) + if ps[|ps| - 1] == p then 1 else 0
  }

  lemma {:induction false} CountAppend(a: seq<(int, int)>, b: seq<(int, int)>, p: (int, int))
    ensures Count(a + b, p) == Count(a, p) + Count(b, p)
    decreases |b|
  {
    if |b| == 0 {
      assert a + b == a;
    } else {
      CountAppend(a, b[..|b| - 1], p);
      assert (a + b)[..|a + b| - 1] == a + b[..|b| - 1];
    }
  }

  /** The inner walk for mesh `i` finds `(i, j)` once when `j` is another UCX mesh among the last `m` and the pair overlaps. */
  lemma {:induction false} FoundCount(u: seq<bool>, hits: set<(int, int)>, i: nat, m: nat, p: (int, int))
    requires i < |u| && m <= |u|
    ensures Count(Found(u, hits, i, m), p) ==
      if p.0 == i && |u| - m <= p.1 < |u| && p.1 != i && u[p.1] && p in hits then 1 else 0
  {
    if m > 0 {
      FoundCount(u, hits, i, m - 1, p);
      FoundStep(u, hits, i, m, p);
    }
  }

  /** One step of the inner walk adds one count for `p` exactly when it finds `p`. */
  lemma FoundStep(u: seq<bool>, hits: set<(int, int)>, i: nat, m: nat, p: (int, int))
    requires i < |u| && 0 < m <= |u|
    ensures Count(Found(u, hits, i, m), p) == Count(Found(u, hits, i, m - 1), p) +
      if p.0 == i && p.1 == |u| - m && p.1 != i && u[p.1] && p in hits then 1 else 0
  {
    var j := |u| - m;
    var step: seq<(int, int)> := if u[j] && j != i && (i, j) in hits then [(i, j)] else [];
    assert Found(u, hits, i, m) == Found(u, hits, i, m - 1) + step;
    CountAppend(Found(u, hits, i, m - 1), step, p);
    CountOne(step, p);
    assert p == (i, j) <==> p.0 == i && p.1 == j;
  }

  lemma CountOne(ps: seq<(int, int)>, p: (int, int))
    requires |ps| <= 1
    ensures Count(ps, p) == if |ps| == 1 && ps[0] == p then 1 else 0
  {
    if |ps| == 1 {
      assert ps[..0] == [];
    }
  }

  /** As intended, every unordered pair of overlapping UCX meshes is reported exactly once, as `(i, j)` with `i < j`, and no other pair is. */
  lemma {:induction false} ReportedOnce(u: seq<bool>, hits: set<(int, int)>, k: nat, p: (int, int))
    requires k <= |u|
    ensures Count(Walk(u, hits, k, true), p) ==
      if 0 <= p.0 < k && p.0 < p.1 < |u| && u[p.0] && u[p.1] && p in hits then 1 else 0
  {
    if k > 0 {
      ReportedOnce(u, hits, k - 1, p);
      RowCount(u, hits, k - 1, p);
    }
  }

  /** The row of mesh `i` in the intended walk holds `(i, j)` once for each later overlapping UCX mesh `j`. */
  lemma {:induction false} RowCount(u: seq<bool>, hits: set<(int, int)>, i: nat, p: (int, int))
    requires i < |u|
    ensures Count(Walk(u, hits, i + 1, true), p) == Count(Walk(u, hits, i, true), p) +
      if p.0 == i && i < p.1 < |u| && u[i] && u[p.1] && p in hits then 1 else 0
  {
    var row := if u[i] then Found(u, hits, i, |u| - i) else [];
    CountAppend(Walk(u, hits, i, true), row, p);
    if u[i] {
      FoundCount(u, hits, i, |u| - i, p);
    }
  }

  lemma {:induction false} UcxBeforeAll(u: seq<bool>, i: nat)
    requires i <= |u|
    requires forall k :: 0 <= k < |u| ==> u[k]
    ensures UcxBefore(u, i) == i
  {
    if i > 0 {
      UcxBeforeAll(u, i - 1);
    }
  }

  /** When every mesh is a UCX mesh, the walk as written reports the same pairs as the intended one. */
  lemma AllUcxSameWalk(u: seq<bool>, hits: set<(int, int)>, k: nat)
    requires k <= |u|
    requires forall i :: 0 <= i < |u| ==> u[i]
    ensures Walk(u, hits, k, false) == Walk(u, hits, k, true)
  {
    UcxBeforeAll(u, k);
    SameWalk(u, hits, k);
  }

  /** The two walks agree over a prefix of UCX meshes only. */
  lemma {:induction false} SameWalk(u: seq<bool>, hits: set<(int, int)>, k: nat)
    requires k <= |u| && UcxBefore(u, k) == k
    ensures Walk(u, hits, k, false) == Walk(u, hits, k, true)
  {
    if k > 0 {
      assert UcxBefore(u, k - 1) == k - 1;
      SameWalk(u, hits, k - 1);
      assert Popped(u, k - 1, false) == k - 1;
    }
  }

  /** A main mesh followed by two overlapping proxies: as written the overlap is reported both ways round. */
  lemma PairReportedTwice(hits: set<(int, int)>)
    requires (1, 2) in hits && (2, 1) in hits
    ensures Walk([false, true, true], hits, 3, false) == [(1, 2), (2, 1)]
    ensures Walk([false, true, true], hits, 3, true) == [(1, 2)]
  {
    var u := [false, true, true];
    assert !u[0] && u[1] && u[2];
    assert Walk(u, hits, 1, false) == Walk(u, hits, 0, false);
    assert Walk(u, hits, 1, true) == Walk(u, hits, 0, true);
    assert UcxBefore(u, 1) == 0 && UcxBefore(u, 2) == 1;
    assert Found(u, hits, 1, 1) == [(1, 2)];
    assert Found(u, hits, 1, 2) == [(1, 2)];
    assert Found(u, hits, 1, 3) == [(1, 2)];
    assert Found(u, hits, 2, 1) == [];
    assert Found(u, hits, 2, 2) == [(2, 1)];
    assert Walk(u, hits, 1, false) == [] && Walk(u, hits, 1, true) == [];
    assert Walk(u, hits, 2, false) == [(1, 2)] && Walk(u, hits, 2, true) == [(1, 2)];
  }

  /** The last three characters of the name of mesh `i` (the walk only ever names meshes that exist). */
  function LabelAt(ms: seq<Mesh>, i: int): string {
    if 0 <= i < |ms| then Last3(ms[i].name) else ""
  }

  /** `"(001 и 002)"`: the last three characters of both names. */
  function PairLabel(ms: seq<Mesh>, p: (int, int)): string {
    "(" + LabelAt(ms, p.0) + " и " + LabelAt(ms, p.1) + ")"
  }

  /** The labels of some pairs, in order. */
  function PairLabels(ms: seq<Mesh>, ps: seq<(int, int)>): (r: seq<string>)
    ensures |r| == |ps|
  {
    seq(|ps|, k requires 0 <= k < |ps| => PairLabel(ms, ps[k]))
  }

  /** The labels of the overlapping pairs, in the order the intended walk finds them. */
  function Overlaps(ms: seq<Mesh>, hits: set<(int, int)>): seq<string> {
    PairLabels(ms, Walk(UcxFlags(ms), hits, |ms|, true))
  }

  /** Every overlap is listed when there are at most 15; otherwise the first 15 and a trailing "и т. д.". */
  function Listed(items: seq<string>): string {
    if |items| > 15 then Join(items[..15], ", ") + ", и т. д." else Join(items, ", ")
  }

  /** The overlap message: the full count, then the (capped) list. */
  function IntersectionMessage(items: seq<string>): string {
    "Пересечение коллизий. " + IntToString(|items|) + " шт., номера коллизий - " + Listed(items)
  }

  /** The inner walk for mesh `i` over `list2`, the last `|list2|` positions from the end down: the overlapping pairs it finds. */
  method PairsOf(u: seq<bool>, hits: set<(int, int)>, i: nat, list2: seq<nat>) returns (found: seq<(int, int)>)
    requires i < |u| && |list2| <= |u|
    requires forall k :: 0 <= k < |list2| ==> list2[k] == |u| - 1 - k
    ensures found == Found(u, hits, i, |list2|)
  {
    found := [];
    var k := 0;
    while k < |list2|
      invariant 0 <= k <= |list2|
      invariant found == Found(u, hits, i, k)
    {
      var j := list2[k];
      if u[j] && j != i && (i, j) in hits {
        found := found + [(i, j)];
      }
      k := k + 1;
    }
  }

  /**
   * The overlap walk with the pop done for every mesh: `list2` holds the
   * positions of the meshes still to pair, last mesh first; each UCX mesh
   * is paired with every other UCX mesh in it. The walk gathers the
   * overlapping pairs and labels them as `"(001 и 002)"`.
   */
  method Intersections(ms: seq<Mesh>, hits: set<(int, int)>) returns (items: seq<string>)
    ensures items == Overlaps(ms, hits)
  {
    var u := UcxFlags(ms);
    var n := |ms|;
    var list2: seq<nat> := seq(n, k requires 0 <= k < n => n - 1 - k);
    var pairs: seq<(int, int)> := [];
    var i := 0;
    while i < n
      invariant 0 <= i <= n
      invariant |list2| == n - i && forall k :: 0 <= k < n - i ==> list2[k] == n - 1 - k
      invariant pairs == Walk(u, hits, i, true)
    {
      if u[i] {
        var found := PairsOf(u, hits, i, list2);
        pairs := pairs + found;
      }
      list2 := list2[..|list2| - 1];
      i := i + 1;
    }
    items := PairLabels(ms, pairs);
  }

  // ---------------------------------------------------------------------
  // Numbering
  // ---------------------------------------------------------------------

  predicate SortedInts(s: seq<int>) {
    forall i, j :: 0 <= i < j < |s| ==> s[i] <= s[j]
  }

  /** A number no greater than every element may be put in front of a sorted sequence. */
  lemma SortedIntsCons(a: int, t: seq<int>)
    requires SortedInts(t) && forall k :: 0 <= k < |t| ==> a <= t[k]
    ensures SortedInts([a] + t)
  {
    forall i, j | 0 <= i < j < |[a] + t| ensures ([a] + t)[i] <= ([a] + t)[j] {
      if i > 0 {
        assert ([a] + t)[i] == t[i - 1];
      }
      assert ([a] + t)[j] == t[j - 1];
    }
  }

  /** The head of a sorted sequence is no greater than `x` or anything after it. */
  lemma IntHeadBelow(x: int, s: seq<int>, t: seq<int>)
    requires SortedInts(s) && |s| > 0 && s[0] < x
    requires multiset(t) == multiset(s[1..]) + multiset{x}
    ensures forall k :: 0 <= k < |t| ==> s[0] <= t[k]
  {
    forall k | 0 <= k < |t| ensures s[0] <= t[k] {
      assert t[k] in multiset(t);
      if t[k] != x {
        assert t[k] in multiset(s[1..]);
        var m :| 0 <= m < |s[1..]| && s[1..][m] == t[k];
        assert s[m + 1] == t[k];
      }
    }
  }

  function InsertInt(x: int, s: seq<int>): (r: seq<int>)
    requires SortedInts(s)
    ensures SortedInts(r)
    ensures multiset(r) == multiset(s) + multiset{x}
    ensures |r| == |s| + 1
    decreases |s|
  {
    if |s| == 0 then [x]
    else if x <= s[0] then
      SortedIntsCons(x, s);
      [x] + s
    else
      var t := InsertInt(x, s[1..]);
      IntHeadBelow(x, s, t);
      SortedIntsCons(s[0], t);
      assert s == [s[0]] + s[1..];
      [s[0]] + t
  }

  /** `list.sort()` on integers: ordered, and a permutation of its input. */
  function SortInts(s: seq<int>): (r: seq<int>)
    ensures SortedInts(r)
    ensures multiset(r) == multiset(s)
    ensures |r| == |s|
  {
    if |s| == 0 then []
    else
      var front, last := s[..|s| - 1], s[|s| - 1];
      var sorted := SortInts(front);
      var r := InsertInt(last, sorted);
      assert s == front + [last];
      assert multiset(s) == multiset(front) + multiset{last};
      assert multiset(r) == multiset(sorted) + multiset{last};
      r
  }

  function NumberingMessage(x: int): string {
    "Ошибка нумерации коллизий (номер " + IntToString(x) + ")"
  }

  /** Number `s[i]` is its predecessor plus one. */
  predicate Follows(s: seq<int>, i: nat)
    requires 1 <= i < |s|
  {
    s[i] == s[i - 1] + 1
  }

  /** The message for number `s[i]` when it does not follow its predecessor. */
  function Break(s: seq<int>, i: nat): (r: seq<string>)
    requires 1 <= i < |s|
    ensures r == [] <==> Follows(s, i)
  {
    if s[i] != s[i - 1] + 1 then [NumberingMessage(s[i])] else []
  }

  /** One message per number `s[i]` (`1 <= i < k`) that does not follow its predecessor. */
  function Breaks(s: seq<int>, k: nat): (r: seq<string>)
    requires k <= |s|
    ensures |r| < k || k == 0
  {
    if k <= 1 then [] else Breaks(s, k - 1) + Break(s, k - 1)
  }

  /** No message among the first `k` numbers exactly when each of them follows its predecessor. */
  lemma {:induction false} BreaksClean(s: seq<int>, k: nat)
    requires k <= |s|
    ensures Breaks(s, k) == [] <==> forall i :: 1 <= i < k ==> Follows(s, i)
  {
    if k > 1 {
      BreaksClean(s, k - 1);
      var a, b := Breaks(s, k - 1), Break(s, k - 1);
      assert Breaks(s, k) == a + b;
      assert |a + b| == |a| + |b|;
      if a == [] && b == [] {
        forall i | 1 <= i < k ensures Follows(s, i) {
          if i == k - 1 {
            assert b == [];
          }
        }
      }
    }
  }

  /** The numbers are 1, 2, ..., n in this order. */
  predicate FromOne(s: seq<int>) {
    forall i :: 0 <= i < |s| ==> s[i] == i + 1
  }

  /** The numbering messages over the sorted numbers: a first number other than 1, then every gap or repeat. */
  function NumberingErrors(s: seq<int>): seq<string> {
    (if |s| > 0 && s[0] != 1 then [NumberingMessage(s[0])] else []) + Breaks(s, |s|)
  }

  /** The numbering check is clean exactly when the numbers are 1, 2, ..., n (or there are none). */
  lemma NumberingClean(s: seq<int>)
    ensures NumberingErrors(s) == [] <==> FromOne(s)
  {
    BreaksClean(s, |s|);
    if NumberingErrors(s) == [] {
      assert |s| > 0 ==> s[0] == 1;
      ConsecutiveFromOne(s, |s|);
    }
  }

  lemma {:induction false} ConsecutiveFromOne(s: seq<int>, k: nat)
    requires k <= |s|
    requires |s| > 0 ==> s[0] == 1
    requires forall i :: 1 <= i < |s| ==> Follows(s, i)
    ensures forall i :: 0 <= i < k ==> s[i] == i + 1
  {
    if k > 0 {
      ConsecutiveFromOne(s, k - 1);
      if k > 1 {
        assert Follows(s, k - 1);
      }
    }
  }

  /** The numbers 1, 2, ..., n. */
  function Ideal(n: nat): (r: seq<int>)
    ensures |r| == n && FromOne(r)
  {
    seq(n, i => i + 1)
  }

  /** A sorted numbering is clean exactly when the proxies carry the numbers 1 to n, each once. */
  lemma NumberingCleanSet(nums: seq<int>)
    ensures NumberingErrors(SortInts(nums)) == [] <==> multiset(nums) == multiset(Ideal(|nums|))
  {
    NumberingClean(SortInts(nums));
    SortedIsIdeal(nums);
  }

  /** The sorted numbers are 1, 2, ..., n exactly when they are a permutation of 1..n. */
  lemma SortedIsIdeal(nums: seq<int>)
    ensures FromOne(SortInts(nums)) <==> multiset(nums) == multiset(Ideal(|nums|))
  {
    var s := SortInts(nums);
    SortedIdealIff(s, nums, Ideal(|nums|));
  }

  /** The same for any sorted permutation `s` of `nums`. */
  lemma SortedIdealIff(s: seq<int>, nums: seq<int>, ideal: seq<int>)
    requires SortedInts(s) && multiset(s) == multiset(nums) && |s| == |nums|
    requires |ideal| == |nums| && FromOne(ideal)
    ensures FromOne(s) <==> multiset(nums) == multiset(ideal)
  {
    if FromOne(s) {
      assert s == ideal;
    }
    if multiset(nums) == multiset(ideal) {
      SortedPermutationOfIdeal(s, ideal);
    }
  }

  /** The only sorted arrangement of 1..n is 1..n itself. */
  lemma SortedPermutationOfIdeal(s: seq<int>, ideal: seq<int>)
    requires SortedInts(s) && |ideal| == |s| && FromOne(ideal)
    requires multiset(s) == multiset(ideal)
    ensures FromOne(s)
  {
    forall i | 0 <= i < |s| ensures s[i] == i + 1 {
      SortedRank(s, ideal, i);
    }
  }

  lemma SortedRank(s: seq<int>, ideal: seq<int>, i: nat)
    requires SortedInts(s) && |ideal| == |s| && (forall k :: 0 <= k < |ideal| ==> ideal[k] == k + 1)
    requires multiset(s) == multiset(ideal)
    requires i < |s|
    ensures s[i] == i + 1
  {
    // every element of s lies in 1..n and occurs once
    forall k | 0 <= k < |s| ensures 1 <= s[k] <= |s| {
      assert s[k] in multiset(ideal);
      var m :| 0 <= m < |ideal| && ideal[m] == s[k];
    }
    StrictlySorted(s, ideal);
    StrictRank(s, i);
  }

  lemma StrictlySorted(s: seq<int>, ideal: seq<int>)
    requires SortedInts(s) && |ideal| == |s| && (forall k :: 0 <= k < |ideal| ==> ideal[k] == k + 1)
    requires multiset(s) == multiset(ideal)
    ensures forall a, b :: 0 <= a < b < |s| ==> s[a] < s[b]
  {
    forall a, b | 0 <= a < b < |s| ensures s[a] < s[b] {
      if s[a] == s[b] {
        assert s[a] in multiset(ideal);
        var m :| 0 <= m < |ideal| && ideal[m] == s[a];
        DistinctCountOne(ideal, m);
        TwiceInSeq(s, a, b);
      }
    }
  }

  lemma DistinctCountOne(ideal: seq<int>, m: nat)
    requires m < |ideal| && (forall k :: 0 <= k < |ideal| ==> ideal[k] == k + 1)
    ensures multiset(ideal)[ideal[m]] == 1
  {
    if |ideal| > 0 {
      var p := ideal[..|ideal| - 1];
      assert ideal == p + [ideal[|ideal| - 1]];
      if m < |p| {
        DistinctCountOne(p, m);
      } else {
        assert ideal[m] !in p;
      }
    }
  }

  lemma TwiceInSeq(s: seq<int>, a: nat, b: nat)
    requires a < b < |s| && s[a] == s[b]
    ensures multiset(s)[s[a]] >= 2
  {
    assert s == s[..a] + [s[a]] + s[a + 1..b] + [s[b]] + s[b + 1..];
  }

  lemma {:induction false} StrictRank(s: seq<int>, i: nat)
    requires i < |s|
    requires forall k :: 0 <= k < |s| ==> 1 <= s[k] <= |s|
    requires forall a, b :: 0 <= a < b < |s| ==> s[a] < s[b]
    ensures s[i] == i + 1
  {
    LowerBound(s, i);
    UpperBound(s, i);
  }

  lemma {:induction false} LowerBound(s: seq<int>, i: nat)
    requires i < |s|
    requires forall k :: 0 <= k < |s| ==> 1 <= s[k]
    requires forall a, b :: 0 <= a < b < |s| ==> s[a] < s[b]
    ensures s[i] >= i + 1
  {
    if i > 0 {
      LowerBound(s, i - 1);
    }
  }

  lemma {:induction false} UpperBound(s: seq<int>, i: nat)
    requires i < |s|
    requires forall k :: 0 <= k < |s| ==> s[k] <= |s|
    requires forall a, b :: 0 <= a < b < |s| ==> s[a] < s[b]
    ensures s[i] <= i + 1
    decreases |s| - i
  {
    if i < |s| - 1 {
      UpperBound(s, i + 1);
    }
  }

  /** The loop over the sorted numbers from the second on: one message per number that does not follow its predecessor. */
  method ReportBreaks(c: Check, s: seq<int>)
    modifies c
    ensures c.errors == old(c.errors) + Breaks(s, |s|)
    ensures c.verified == (old(c.verified) && Breaks(s, |s|) == [])
    ensures c.ids == old(c.ids) && c.directory == old(c.directory) && c.checkedCount == old(c.checkedCount)
  {
    if |s| == 0 {
      return;
    }
    var i := 1;
    while i < |s|
      invariant 1 <= i <= |s|
      invariant c.errors == old(c.errors) + Breaks(s, i)
      invariant c.verified == (old(c.verified) && Breaks(s, i) == [])
      invariant c.ids == old(c.ids) && c.directory == old(c.directory) && c.checkedCount == old(c.checkedCount)
    {
      ReportBreak(c, s, i);
      BreaksNext(s, i, old(c.errors));
      i := i + 1;
    }
  }

  /** One pass of that loop: the message for `s[i]`, if any. */
  method ReportBreak(c: Check, s: seq<int>, i: nat)
    requires 1 <= i < |s|
    modifies c
    ensures c.errors == old(c.errors) + Break(s, i)
    ensures c.verified == (old(c.verified) && Break(s, i) == [])
    ensures c.ids == old(c.ids) && c.directory == old(c.directory) && c.checkedCount == old(c.checkedCount)
  {
    if s[i] != s[i - 1] + 1 {
      c.AddError(NumberingMessage(s[i]));
    }
  }

  /** One more number adds its message, if any, at the end. */
  lemma BreaksNext(s: seq<int>, i: nat, e: seq<string>)
    requires 1 <= i < |s|
    ensures e + Breaks(s, i) + Break(s, i) == e + Breaks(s, i + 1)
    ensures Breaks(s, i + 1) == [] <==> Breaks(s, i) == [] && Break(s, i) == []
  {
    AppendAssoc(e, Breaks(s, i), Break(s, i));
  }

  /** The messages for numbers already sorted: a first number other than 1, then every gap or repeat. */
  method ReportNumbering(c: Check, s: seq<int>)
    modifies c
    ensures c.errors == old(c.errors) + NumberingErrors(s)
    ensures c.verified == (old(c.verified) && NumberingErrors(s) == [])
    ensures c.ids == old(c.ids) && c.directory == old(c.directory) && c.checkedCount == old(c.checkedCount)
  {
    var head: seq<string> := [];
    if |s| > 0 && s[0] != 1 {
      head := [NumberingMessage(s[0])];
      c.AddError(head[0]);
    }
    ghost var e0 := old(c.errors);
    assert c.errors == e0 + head;
    ReportBreaks(c, s);
    AppendAssoc(e0, head, Breaks(s, |s|));
  }

  /** The numbering check: the proxy numbers sorted, then checked. */
  method CheckNumbering(c: Check, nums: seq<int>)
    modifies c
    ensures c.errors == old(c.errors) + NumberingErrors(SortInts(nums))
    ensures c.verified == (old(c.verified) && NumberingErrors(SortInts(nums)) == [])
    ensures c.ids == old(c.ids) && c.directory == old(c.directory) && c.checkedCount == old(c.checkedCount)
  {
    var s := SortInts(nums);
    ReportNumbering(c, s);
  }

  // ---------------------------------------------------------------------
  // The rule
  // ---------------------------------------------------------------------

  /**
   * Every object named as a proxy is a mesh object. The rule reads the mesh
   * data of every such object, and for any other kind of object that read
   * raises, which ends the whole rule with no reports.
   */
  predicate MeshProxies(ms: seq<Mesh>) {
    forall k :: 0 <= k < |ms| && IsUcx(ms[k]) ==> ms[k].isMesh
  }

  /**
   * The proxies scanned once in mesh order: their numbers, and the open and
   * non-convex ones; `ok` is false when the scan reaches a proxy that is not
   * a mesh object.
   */
  method ScanProxies(ms: seq<Mesh>) returns (ok: bool, nums: seq<int>, unclosed: seq<nat>, nonConvex: seq<nat>)
    ensures ok <==> MeshProxies(ms)
    ensures ok ==> nums == UcxNumbers(ms) && unclosed == UnclosedIdx(ms) && nonConvex == NonConvexIdx(ms)
  {
    nums, unclosed, nonConvex := [], [], [];
    var i: nat := 0;
    while i < |ms|
      invariant i <= |ms|
      invariant MeshProxies(ms[..i])
      invariant nums == UcxNumbers(ms[..i]) && unclosed == UnclosedIdx(ms[..i]) && nonConvex == NonConvexIdx(ms[..i])
    {
      var m := ms[i];
      ScanStep(ms, i);
      if IsUcx(m) {
        var num := Last3(m.name);
        if IsDigits(num) {
          nums := nums + [DigitsValue(num) as int];
        }
        if !m.isMesh {
          ok := false;
          return;
        }
        if !Closed(m) {
          unclosed := unclosed + [i];
        } else if !m.convex {
          nonConvex := nonConvex + [i];
        }
      }
      i := i + 1;
    }
    assert ms[..|ms|] == ms;
    ok := true;
  }

  /** One more mesh of the scan: each list grows by what that mesh contributes. */
  lemma ScanStep(ms: seq<Mesh>, i: nat)
    requires i < |ms|
    ensures var m := ms[i];
      && UcxNumbers(ms[..i + 1]) == UcxNumbers(ms[..i]) + (if IsUcx(m) && IsDigits(Last3(m.name)) then [DigitsValue(Last3(m.name)) as int] else [])
      && UnclosedIdx(ms[..i + 1]) == UnclosedIdx(ms[..i]) + (if IsUcx(m) && !Closed(m) then [i] else [])
      && NonConvexIdx(ms[..i + 1]) == NonConvexIdx(ms[..i]) + (if IsUcx(m) && Closed(m) && !m.convex then [i] else [])
      && (MeshProxies(ms[..i + 1]) <==> MeshProxies(ms[..i]) && (IsUcx(m) ==> m.isMesh))
  {
    assert ms[..i + 1][..i] == ms[..i] && ms[..i + 1][i] == ms[i];
  }

  /**
   * The closure messages, unsorted: one for the open proxies, one for the
   * non-convex ones; nothing is added when a proxy is not a mesh object.
   */
  method AddClosureErrors(c: Check, ms: seq<Mesh>) returns (ok: bool, nums: seq<int>)
    modifies c
    ensures ok <==> MeshProxies(ms)
    ensures ok ==> nums == UcxNumbers(ms)
    ensures !ok ==> c.errors == old(c.errors) && c.verified == old(c.verified)
    ensures ok ==> c.errors == old(c.errors) + ClosureErrors(ms)
    ensures ok ==> c.verified == (old(c.verified) && ClosureErrors(ms) == [])
    ensures c.ids == old(c.ids) && c.directory == old(c.directory) && c.checkedCount == old(c.checkedCount)
  {
    var unclosed, nonConvex;
    ok, nums, unclosed, nonConvex := ScanProxies(ms);
    if !ok {
      return;
    }
    var errs := (if |unclosed| > 0 then [UnclosedMessage(Labels(ms, unclosed))] else []) +
      (if |nonConvex| > 0 then [NonConvexMessage(Labels(ms, nonConvex))] else []);
    AddErrors(c, errs);
  }

  /** The closure half: the closure messages, then the error list sorted. */
  method CheckClosure(c: Check, ms: seq<Mesh>) returns (ok: bool, nums: seq<int>)
    modifies c
    ensures ok <==> MeshProxies(ms)
    ensures ok ==> nums == UcxNumbers(ms)
    ensures ok ==> c.errors == SortStrings(old(c.errors) + ClosureErrors(ms))
    ensures ok ==> c.verified == (old(c.verified) && ClosureErrors(ms) == [])
    ensures c.ids == old(c.ids) && c.directory == old(c.directory) && c.checkedCount == old(c.checkedCount)
  {
    ok, nums := AddClosureErrors(c, ms);
    if ok {
      c.errors := SortStrings(c.errors);
    }
  }

  /** The overlap half: a single message for all overlapping pairs, if any. */
  method CheckOverlap(c: Check, ms: seq<Mesh>, hits: set<(int, int)>)
    modifies c
    ensures var items := Overlaps(ms, hits);
      c.errors == old(c.errors) + (if items == [] then [] else [IntersectionMessage(items)]) &&
      c.verified == (old(c.verified) && items == [])
    ensures c.ids == old(c.ids) && c.directory == old(c.directory) && c.checkedCount == old(c.checkedCount)
  {
    var items := Intersections(ms, hits);
    if |items| > 0 {
      c.AddError(IntersectionMessage(items));
    }
  }

  /** The three reports of the rule for one fbx file. */
  datatype CollisionReports = CollisionReports(closure: Finding, numbering: Finding, overlap: Finding)

  /** The closure report of one fbx file, and the proxy numbers; `ok` is false when a proxy is not a mesh object. */
  method ClosureReport(fbxName: string, ms: seq<Mesh>) returns (ok: bool, nums: seq<int>, f: Finding)
    ensures ok <==> MeshProxies(ms)
    ensures ok ==> nums == UcxNumbers(ms)
    ensures ok ==> f.ids == ["2.13.1"] && f.errors == SortStrings(ClosureErrors(ms)) && (f.verified <==> ClosureErrors(ms) == [])
  {
    var closure := new Check("Проверка коллизий. Замкнутость, выпуклость", fbxName, true, "таблица 2, п. 13, п/п 1", "", ["2.13.1"]);
    ok, nums := CheckClosure(closure, ms);
    f := closure.Snapshot();
  }

  /** The overlap report of one fbx file. */
  method OverlapReport(fbxName: string, ms: seq<Mesh>, hits: set<(int, int)>) returns (f: Finding)
    ensures var items := Overlaps(ms, hits);
      f.ids == ["2.13.4"] && f.errors == (if items == [] then [] else [IntersectionMessage(items)]) && (f.verified <==> items == [])
  {
    var overlap := new Check("Проверка коллизий. Пересечения", fbxName, true, "таблица 2, п. 13, п/п 4", "", ["2.13.4"]);
    CheckOverlap(overlap, ms, hits);
    f := overlap.Snapshot();
  }

  /** The numbering report of one fbx file, from its proxy numbers. */
  method NumberingReport(fbxName: string, nums: seq<int>) returns (f: Finding)
    ensures f.ids == ["2.10.4.2"] && f.errors == NumberingErrors(SortInts(nums))
    ensures f.verified <==> NumberingErrors(SortInts(nums)) == []
  {
    var numbering := new Check("Проверка коллизий. Нумерация", fbxName, true, "таблица 2, п. 10, п/п 4.2", "", ["2.10.4.2"]);
    CheckNumbering(numbering, nums);
    f := numbering.Snapshot();
  }

  /**
   * `_check_collision` for one fbx file: the closure report holds the
   * sorted open/non-convex messages, the overlap report one message for all
   * overlapping pairs, and the numbering report the gaps in the sorted
   * proxy numbers. None when an object named as a proxy is not a mesh
   * object: reading its mesh data raises and the rule reports nothing.
   */
  method CheckCollision(fbxName: string, ms: seq<Mesh>, hits: set<(int, int)>) returns (r: Option<CollisionReports>)
    ensures r.None? <==> !MeshProxies(ms)
    ensures r.Some? ==> r.value.closure.ids == ["2.13.1"] && r.value.numbering.ids == ["2.10.4.2"] && r.value.overlap.ids == ["2.13.4"]
    ensures r.Some? ==> r.value.closure.errors == SortStrings(ClosureErrors(ms)) && (r.value.closure.verified <==> ClosureErrors(ms) == [])
    ensures r.Some? ==> var items := Overlaps(ms, hits);
      r.value.overlap.errors == (if items == [] then [] else [IntersectionMessage(items)]) && (r.value.overlap.verified <==> items == [])
    ensures r.Some? ==> r.value.numbering.errors == NumberingErrors(SortInts(UcxNumbers(ms)))
    ensures r.Some? ==> (r.value.numbering.verified <==> NumberingErrors(SortInts(UcxNumbers(ms))) == [])
  {
    var ok, nums, closure := ClosureReport(fbxName, ms);
    if !ok {
      return None;
    }
    var overlap := OverlapReport(fbxName, ms, hits);
    var numbering := NumberingReport(fbxName, nums);
    r := Some(CollisionReports(closure, numbering, overlap));
  }
}
