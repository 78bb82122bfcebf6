/**
 * The walk most rules make over a file's objects: each object adds zero or
 * more lines to a check, in object order.
 */
module Walks {
  import opened Findings
  import opened Scene

  /** What a walk gathers, item by item: a check's lines from the objects of a file or the materials of an object, a rule's reports from its files. */
  function Walk<T, U>(ms: seq<T>, lines: T -> seq<U>): seq<U> {
    if ms == [] then []
    else Walk(ms[..|ms| - 1], lines) + lines(ms[|ms| - 1])
  }

  /** Walking one more item adds that item's lines. */
  lemma WalkNext<T, U>(ms: seq<T>, lines: T -> seq<U>, i: nat)
    requires i < |ms|
    ensures Walk(ms[..i + 1], lines) == Walk(ms[..i], lines) + lines(ms[i])
  {
    assert ms[..i + 1][..i] == ms[..i];
  }

  /** A walk yields no line exactly when no item adds one. */
  lemma {:induction false} WalkEmpty<T, U>(ms: seq<T>, lines: T -> seq<U>)
    ensures Walk(ms, lines) == [] <==> forall i :: 0 <= i < |ms| ==> lines(ms[i]) == []
  {
    if ms != [] {
      var p := ms[..|ms| - 1];
      WalkEmpty(p, lines);
      assert forall i :: 0 <= i < |p| ==> p[i] == ms[i];
    }
  }

  /** Every line an item adds is among the walk's lines. */
  lemma {:induction false} WalkHas<T, U>(ms: seq<T>, lines: T -> seq<U>, i: int, j: int)
    requires 0 <= i < |ms| && 0 <= j < |lines(ms[i])|
    ensures lines(ms[i])[j] in Walk(ms, lines)
  {
    var n := |ms| - 1;
    if i < n {
      WalkHas(ms[..n], lines, i, j);
      assert ms[..n][i] == ms[i];
    }
  }

  /** The walk itself, appending each object's lines to the check. */
  method AddWalk(ms: seq<Obj>, lines: Obj -> seq<string>, c: Check)
    modifies c
    ensures c.errors == old(c.errors) + Walk(ms, lines)
    ensures c.verified == (old(c.verified) && Walk(ms, lines) == [])
    ensures c.name == old(c.name) && c.paragraph == old(c.paragraph)
    ensures c.ids == old(c.ids) && c.directory == old(c.directory)
    ensures c.unitsText == old(c.unitsText) && c.comment == old(c.comment) && c.checkedCount == old(c.checkedCount)
  {
    var i := 0;
    while i < |ms|
      invariant 0 <= i <= |ms|
      invariant c.errors == old(c.errors) + Walk(ms[..i], lines)
      invariant c.verified == (old(c.verified) && Walk(ms[..i], lines) == [])
      invariant c.name == old(c.name) && c.paragraph == old(c.paragraph)
      invariant c.ids == old(c.ids) && c.directory == old(c.directory)
      invariant c.unitsText == old(c.unitsText) && c.comment == old(c.comment) && c.checkedCount == old(c.checkedCount)
    {
      assert ms[..i + 1][..i] == ms[..i];
      AddErrors(c, lines(ms[i]));
      i := i + 1;
    }
    assert ms[..i] == ms;
  }

  /** The report of a check of one file that received exactly the walk's lines. */
  function WalkFinding(fbx: Fbx, name: string, paragraph: string, id: string, lines: Obj -> seq<string>): Finding {
    var errors := Walk(fbx.meshes, lines);
    Finding(name, fbx.name, errors == [], paragraph, "", [id], "", errors, 0)
  }

  /** A check of one file that receives exactly the walk's lines. */
  method WalkReport(fbx: Fbx, name: string, paragraph: string, id: string, lines: Obj -> seq<string>) returns (f: Finding)
    ensures f.name == name && f.paragraph == paragraph
    ensures f.ids == [id] && f.directory == fbx.name
    ensures f.errors == Walk(fbx.meshes, lines)
    ensures f.verified <==> f.errors == []
    ensures f == WalkFinding(fbx, name, paragraph, id, lines)
  {
    var c := new Check(name, fbx.name, true, paragraph, "", [id]);
    AddWalk(fbx.meshes, lines, c);
    f := c.Snapshot();
  }
}
