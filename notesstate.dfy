/**
 * What the editor's writes do to the checklists: reading back the first text
 * of a report leaves each tier's categories as they were, except that every
 * failed item's description and comment lose their surrounding blank space.
 */
module NotesState {
  import opened Text
  import opened Checklist
  import opened Report
  import opened ReportRoundTrip
  import opened Editor
  import opened NotesRoundTrip

  /** A failed item with its description and comment stripped; any other item as it is. */
  function Tidy(x: Item): (r: Item)
    ensures r.reqNum == x.reqNum
  {
    if x.checkState == Failed then x.(userDescription := Strip(x.userDescription), userComment := Strip(x.userComment)) else x
  }

  /** Tidied when some item of `done` carries the same number. */
  function TidyIn(done: seq<Item>, x: Item): (r: Item)
    ensures r.reqNum == x.reqNum
  {
    if HasReq(done, x.reqNum) then Tidy(x) else x
  }

  /** The writes one item adds to `Notes`. */
  function Extra(it: Item, high: bool): seq<Write> {
    if it.checkState == Failed then [Write(high, it.reqNum, false, Strip(it.userDescription)), Write(high, it.reqNum, true, Strip(it.userComment))] else []
  }

  lemma NotesLast(front: seq<Item>, it: Item, high: bool)
    ensures Notes(front + [it], high) == Notes(front, high) + Extra(it, high)
  {
    assert (front + [it])[..|front|] == front;
  }

  /** Every write of `Notes` is addressed to its tier. */
  lemma {:induction false} NotesTier(items: seq<Item>, high: bool)
    ensures forall k :: 0 <= k < |Notes(items, high)| ==> Notes(items, high)[k].high == high
    decreases |items|
  {
    if items != [] {
      var n := |items| - 1;
      NotesTier(items[..n], high);
      var nf: seq<Write>, ex: seq<Write> := Notes(items[..n], high), Extra(items[n], high);
      assert Notes(items, high) == nf + ex;
      forall k | 0 <= k < |nf + ex| ensures (nf + ex)[k].high == high {
        if k >= |nf| {
          assert (nf + ex)[k] == ex[k - |nf|];
        }
      }
    }
  }

  lemma HasReqLast(front: seq<Item>, it: Item, req: string)
    ensures HasReq(front + [it], req) <==> HasReq(front, req) || it.reqNum == req
  {
    if HasReq(front, req) {
      var j :| 0 <= j < |front| && front[j].reqNum == req;
      assert (front + [it])[j].reqNum == req;
    }
    if it.reqNum == req {
      assert (front + [it])[|front|].reqNum == req;
    }
  }

  /** Every entry of the flat list is an item of some category. */
  lemma {:induction false} FlatAt(cats: seq<Category>, k: int)
    requires 0 <= k < |Flat(cats)|
    ensures exists i, j :: 0 <= i < |cats| && 0 <= j < |cats[i].items| && Flat(cats)[k] == cats[i].items[j]
    decreases |cats|
  {
    var front := cats[..|cats| - 1];
    if k < |Flat(front)| {
      FlatAt(front, k);
      var i, j :| 0 <= i < |front| && 0 <= j < |front[i].items| && Flat(front)[k] == front[i].items[j];
      assert Flat(cats)[k] == cats[i].items[j];
    } else {
      assert Flat(cats)[k] == cats[|cats| - 1].items[k - |Flat(front)|];
    }
  }

  /** Every item of every category is in the flat list. */
  lemma {:induction false} FlatHas(cats: seq<Category>, i: int, j: int)
    requires 0 <= i < |cats| && 0 <= j < |cats[i].items|
    ensures HasReq(Flat(cats), cats[i].items[j].reqNum)
    decreases |cats|
  {
    var front := cats[..|cats| - 1];
    var req := cats[i].items[j].reqNum;
    if i < |cats| - 1 {
      FlatHas(front, i, j);
      var k :| 0 <= k < |Flat(front)| && Flat(front)[k].reqNum == req;
      assert Flat(cats)[k].reqNum == req;
    } else {
      assert Flat(cats)[|Flat(front)| + j].reqNum == req;
    }
  }

  /** Mapping with a function that keeps numbers keeps them unique. */
  lemma UniqueMapped(cats: seq<Category>, f: Item -> Item)
    requires UniqueNums(cats) && forall x :: f(x).reqNum == x.reqNum
    ensures UniqueNums(MapCats(cats, f))
  {
    var m := MapCats(cats, f);
    forall i1, j1, i2, j2 |
      0 <= i1 < |m| && 0 <= j1 < |m[i1].items| && 0 <= i2 < |m| && 0 <= j2 < |m[i2].items|
      && m[i1].items[j1].reqNum == m[i2].items[j2].reqNum
      ensures i1 == i2 && j1 == j2
    {
      assert m[i1].items[j1] == f(cats[i1].items[j1]);
      assert m[i2].items[j2] == f(cats[i2].items[j2]);
    }
  }

  /** Two functions that agree on every item of the categories map them alike. */
  lemma MapCatsOn(cats: seq<Category>, f: Item -> Item, g: Item -> Item)
    requires forall i, j :: 0 <= i < |cats| && 0 <= j < |cats[i].items| ==> f(cats[i].items[j]) == g(cats[i].items[j])
    ensures MapCats(cats, f) == MapCats(cats, g)
  {
    var a := MapCats(cats, f);
    var b := MapCats(cats, g);
    forall i | 0 <= i < |cats| ensures a[i] == b[i] {
      assert MapItems(cats[i].items, f) == MapItems(cats[i].items, g);
    }
  }

  /** The two writes of a failed item tidy exactly that item. */
  lemma {:induction false} FailedWrites(cats: seq<Category>, front: seq<Item>, it: Item, high: bool, i: int, j: int)
    requires UniqueNums(cats) && 0 <= i < |cats| && 0 <= j < |cats[i].items| && cats[i].items[j] == it
    requires it.checkState == Failed
    ensures Written(MapCats(cats, x => TidyIn(front, x)), Extra(it, high), high) == MapCats(cats, x => TidyIn(front + [it], x))
  {
    var r := it.reqNum;
    var d := Strip(it.userDescription);
    var c := Strip(it.userComment);
    var dw := Write(high, r, false, d);
    var cw := Write(high, r, true, c);
    var t := x => TidyIn(front, x);
    var r1 := x => Retexted(x, r, false, d);
    var r2 := x => Retexted(x, r, true, c);
    var p := MapCats(cats, t);
    assert Written(p, [dw, cw], high) == WriteCats(WriteCats(p, r, false, d), r, true, c) by {
      assert [dw][..0] == [];
      assert Written(p, [], high) == p;
      assert Written(p, [dw], high) == WriteCats(p, r, false, d);
      assert [dw, cw][..1] == [dw];
    }
    UniqueMapped(cats, t);
    WriteCatsOnce(p, r, false, d);
    UniqueMapped(p, r1);
    WriteCatsOnce(MapCats(p, r1), r, true, c);
    var tr1 := x => r1(t(x));
    var g := x => r2(tr1(x));
    MapCatsCompose(cats, t, r1, tr1);
    MapCatsCompose(cats, tr1, r2, g);
    forall i2, j2 | 0 <= i2 < |cats| && 0 <= j2 < |cats[i2].items|
      ensures g(cats[i2].items[j2]) == TidyIn(front + [it], cats[i2].items[j2])
    {
      var x := cats[i2].items[j2];
      HasReqLast(front, it, x.reqNum);
      if x.reqNum == r {
        assert i2 == i && j2 == j;
      }
    }
    MapCatsOn(cats, g, x => TidyIn(front + [it], x));
  }

  /** An item that did not fail adds no writes and needs no tidying. */
  lemma PassedWrites(cats: seq<Category>, front: seq<Item>, it: Item, high: bool, i: int, j: int)
    requires UniqueNums(cats) && 0 <= i < |cats| && 0 <= j < |cats[i].items| && cats[i].items[j] == it
    requires it.checkState != Failed
    ensures Written(MapCats(cats, x => TidyIn(front, x)), Extra(it, high), high) == MapCats(cats, x => TidyIn(front + [it], x))
  {
    forall i2, j2 | 0 <= i2 < |cats| && 0 <= j2 < |cats[i2].items|
      ensures TidyIn(front, cats[i2].items[j2]) == TidyIn(front + [it], cats[i2].items[j2])
    {
      var x := cats[i2].items[j2];
      HasReqLast(front, it, x.reqNum);
      if x.reqNum == it.reqNum {
        assert i2 == i && j2 == j;
      }
    }
    MapCatsOn(cats, x => TidyIn(front, x), x => TidyIn(front + [it], x));
  }

  /** The writes of the first `k` flat items tidy exactly those items. */
  lemma {:induction false} NotesPrefix(cats: seq<Category>, high: bool, k: nat)
    requires UniqueNums(cats) && k <= |Flat(cats)|
    ensures Written(cats, Notes(Flat(cats)[..k], high), high) == MapCats(cats, x => TidyIn(Flat(cats)[..k], x))
    decreases k
  {
    var all := Flat(cats);
    if k == 0 {
      assert Notes(all[..0], high) == [];
      MapCatsId(cats, x => TidyIn(all[..0], x));
    } else {
      var front := all[..k - 1];
      var it := all[k - 1];
      assert all[..k] == front + [it];
      NotesPrefix(cats, high, k - 1);
      NotesLast(front, it, high);
      WrittenAppend(cats, Notes(front, high), Extra(it, high), high);
      FlatAt(cats, k - 1);
      var i, j :| 0 <= i < |cats| && 0 <= j < |cats[i].items| && it == cats[i].items[j];
      if it.checkState == Failed {
        FailedWrites(cats, front, it, high, i, j);
      } else {
        PassedWrites(cats, front, it, high, i, j);
      }
    }
  }

  /** The writes of a whole tier tidy every failed item of it and change nothing else. */
  lemma NotesTidy(cats: seq<Category>, high: bool)
    requires UniqueNums(cats)
    ensures Written(cats, Notes(Flat(cats), high), high) == MapCats(cats, Tidy)
  {
    var all := Flat(cats);
    assert all[..|all|] == all;
    NotesPrefix(cats, high, |all|);
    forall i, j | 0 <= i < |cats| && 0 <= j < |cats[i].items|
      ensures TidyIn(all, cats[i].items[j]) == Tidy(cats[i].items[j])
    {
      FlatHas(cats, i, j);
    }
    MapCatsOn(cats, x => TidyIn(all, x), Tidy);
  }

  /**
   * Saving a report and reading its first text back through the editor
   * leaves each tier's checklist as it was, except that every failed item's
   * description and comment are stripped; nothing raises.
   */
  lemma NotesRestored(h: Header, low: seq<Category>, high: seq<Category>)
    requires Ready(h, low, high) && UniqueNums(low) && UniqueNums(high)
    ensures var e := Edit(Split(ReportText(h, low, high), '\n'));
      e.ok && Written(low, e.writes, false) == MapCats(low, Tidy) && Written(high, e.writes, true) == MapCats(high, Tidy)
  {
    NotesRead(h, low, high);
    var nl := Notes(Flat(low), false);
    var nh := Notes(Flat(high), true);
    NotesTier(Flat(low), false);
    NotesTier(Flat(high), true);
    WrittenAppend(low, nl, nh, false);
    WrittenOther(Written(low, nl, false), nh, false);
    NotesTidy(low, false);
    WrittenAppend(high, nl, nh, true);
    WrittenOther(high, nl, true);
    NotesTidy(high, true);
  }
}
