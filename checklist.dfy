/**
 * The inspector's checklist of one tier (low- or high-poly): requirement items
 * grouped in categories, each in one of three states. Covers folding a run's
 * findings into the items, the click cycle, building and refreshing the list
 * from the requirements catalogue, the progress counters, and the list of
 * requirements not yet checked.
 */
module Checklist {
  import opened Wrappers
  import opened Text
  import opened Findings

  /** The three states, in the order of the state table (index 0, 1, 2). */
  datatype CheckState = Undefined | Verified | Failed

  function StateIndex(s: CheckState): (i: nat)
    ensures i < 3
  {
    match s
    case Undefined => 0
    case Verified => 1
    case Failed => 2
  }

  function StateAt(i: nat): (s: CheckState)
    requires i < 3
    ensures StateIndex(s) == i
  {
    if i == 0 then Undefined else if i == 1 then Verified else Failed
  }

  /** A requirement of the checklist with what the inspector and the rules have recorded about it. */
  datatype Item = Item(
    reqId: string,
    reqNum: string,
    category: string,
    name: string,
    description: string,
    auto: bool,
    recomendation: bool,
    helpLink: string,
    highpoly: bool,
    indexInCategory: int,
    checkState: CheckState,
    check: bool,
    errorsCount: int,
    errorsText: string,
    userComment: string,
    userDescription: string,
    errorImages: seq<string>)

  /** A quotient as the source computes it with `/`; kept as numerator and denominator. */
  datatype Fraction = Fraction(num: int, den: int)

  datatype Category = Category(name: string, items: seq<Item>, progress: Fraction, progressText: string)

  /** A row of the requirements catalogue; `auto` and `recomendation` are the catalogue's text fields. */
  datatype Row = Row(
    reqId: string,
    reqNum: string,
    category: string,
    name: string,
    description: string,
    auto: string,
    recomendation: string,
    helpLink: string)

  /* ---------------------------------------------------------------- */
  /* Item-level operations                                             */
  /* ---------------------------------------------------------------- */

  function MapItems(items: seq<Item>, f: Item -> Item): (r: seq<Item>)
    ensures |r| == |items|
    ensures forall j :: 0 <= j < |items| ==> r[j] == f(items[j])
  {
    seq(|items|, j requires 0 <= j < |items| => f(items[j]))
  }

  /** Applies `f` to every item of every category; names and progress stay. */
  function MapCats(cats: seq<Category>, f: Item -> Item): (r: seq<Category>)
    ensures |r| == |cats|
    ensures forall i :: 0 <= i < |cats| ==> r[i] == cats[i].(items := MapItems(cats[i].items, f))
  {
    seq(|cats|, i requires 0 <= i < |cats| => cats[i].(items := MapItems(cats[i].items, f)))
  }

  lemma MapCatsCompose(cats: seq<Category>, f: Item -> Item, h: Item -> Item, fh: Item -> Item)
    requires forall x :: fh(x) == h(f(x))
    ensures MapCats(MapCats(cats, f), h) == MapCats(cats, fh)
  {
    var a := MapCats(MapCats(cats, f), h);
    var b := MapCats(cats, fh);
    forall i | 0 <= i < |cats| ensures a[i] == b[i] {
      assert a[i].items == b[i].items;
    }
  }

  lemma MapCatsId(cats: seq<Category>, f: Item -> Item)
    requires forall x :: f(x) == x
    ensures MapCats(cats, f) == cats
  {
    var a := MapCats(cats, f);
    forall i | 0 <= i < |cats| ensures a[i] == cats[i] {
      assert a[i].items == cats[i].items;
    }
  }

  /** The first pass of the aggregation: an item is automatic iff the run reported on its id. */
  function AutoStep(item: Item, g: Groups): (r: Item)
    ensures r == item.(auto := item.reqNum in g.entries)
  {
    if item.auto && item.reqNum !in g.entries then item.(auto := false)
    else if item.reqNum in g.entries then item.(auto := true)
    else item
  }

  function FirstIds(cs: seq<Finding>): seq<string> {
    if |cs| > 0 then cs[0].ids else []
  }

  function SumErrors(cs: seq<Finding>): (n: nat) {
    if |cs| == 0 then 0 else SumErrors(cs[..|cs| - 1]) + |cs[|cs| - 1].errors|
  }

  /** One key of the aggregation: items named by the key's first check take its verdict. */
  function KeyStep(item: Item, cs: seq<Finding>): Item {
    if item.reqNum in FirstIds(cs) then
      if AllVerified(cs) then
        item.(errorsCount := SumErrors(cs), check := true, checkState := Verified)
      else
        item.(errorsCount := SumErrors(cs), check := false, checkState := Failed, errorsText := ErrLines(cs))
    else item
  }

  /** Some key of `keys` names the item: the aggregation assigns its `check` flag. */
  predicate KeyNamed(item: Item, g: Groups, keys: seq<string>) {
    exists k | 0 <= k < |keys| :: item.reqNum in FirstIds(g.Get(keys[k]))
  }

  /** The aggregation over `keys` assigns the `check` flag of at least one item. */
  predicate KeysTouch(cats: seq<Category>, g: Groups, keys: seq<string>) {
    exists i, j | 0 <= i < |cats| && 0 <= j < |cats[i].items| :: KeyNamed(cats[i].items[j], g, keys)
  }

  lemma KeysTouchMap(cats: seq<Category>, f: Item -> Item, g: Groups, keys: seq<string>)
    requires forall x :: f(x).reqNum == x.reqNum
    ensures KeysTouch(MapCats(cats, f), g, keys) == KeysTouch(cats, g, keys)
  {
    var m := MapCats(cats, f);
    if KeysTouch(cats, g, keys) {
      var i, j :| 0 <= i < |cats| && 0 <= j < |cats[i].items| && KeyNamed(cats[i].items[j], g, keys);
      assert m[i].items[j].reqNum == cats[i].items[j].reqNum;
      assert KeyNamed(m[i].items[j], g, keys);
    }
    if KeysTouch(m, g, keys) {
      var i, j :| 0 <= i < |m| && 0 <= j < |m[i].items| && KeyNamed(m[i].items[j], g, keys);
      assert m[i].items[j].reqNum == cats[i].items[j].reqNum;
      assert KeyNamed(cats[i].items[j], g, keys);
    }
  }

  /** The keys processed in order, the last one applied last. */
  function KeySteps(item: Item, g: Groups, keys: seq<string>): Item {
    if |keys| == 0 then item
    else KeyStep(KeySteps(item, g, keys[..|keys| - 1]), g.Get(keys[|keys| - 1]))
  }

  /** What `calculate_all_checks` makes of one item. */
  function Aggregated(item: Item, g: Groups): Item {
    KeySteps(AutoStep(item, g), g, SortStrings(g.keys))
  }

  function Aggregate(cats: seq<Category>, g: Groups): seq<Category> {
    MapCats(cats, item => Aggregated(item, g))
  }

  /** The rules report under one id per check, so the key of a group is its first check's only id. */
  ghost predicate OneIdPerGroup(g: Groups) {
    forall k :: k in g.entries ==> |g.entries[k]| > 0 && g.entries[k][0].ids == [k]
  }

  lemma KeyStepKeeps(item: Item, cs: seq<Finding>)
    ensures KeyStep(item, cs).reqNum == item.reqNum && KeyStep(item, cs).auto == item.auto
  {
  }

  lemma {:induction false} KeyStepsOther(item: Item, g: Groups, keys: seq<string>)
    requires OneIdPerGroup(g)
    requires item.reqNum !in keys
    ensures KeySteps(item, g, keys) == item
  {
    if |keys| > 0 {
      KeyStepsOther(item, g, keys[..|keys| - 1]);
    }
  }

  lemma {:induction false} KeyStepsOnce(item: Item, g: Groups, keys: seq<string>)
    requires OneIdPerGroup(g)
    requires Distinct(keys) && item.reqNum in keys
    ensures KeySteps(item, g, keys) == KeyStep(item, g.Get(item.reqNum))
  {
    var n := |keys|;
    var front := keys[..n - 1];
    assert Distinct(front);
    if keys[n - 1] == item.reqNum {
      assert item.reqNum !in front;
      KeyStepsOther(item, g, front);
    } else {
      assert item.reqNum in front;
      KeyStepsOnce(item, g, front);
      var mid := KeyStep(item, g.Get(item.reqNum));
      KeyStepKeeps(item, g.Get(item.reqNum));
      assert mid.reqNum !in FirstIds(g.Get(keys[n - 1]));
    }
  }

  /** After aggregation an item is automatic exactly when its id is a key of the results. */
  lemma {:induction false} AggregatedAuto(item: Item, g: Groups)
    ensures Aggregated(item, g).auto == (item.reqNum in g.entries)
  {
    KeyStepsKeep(AutoStep(item, g), g, SortStrings(g.keys));
  }

  lemma {:induction false} KeyStepsKeep(item: Item, g: Groups, keys: seq<string>)
    ensures KeySteps(item, g, keys).auto == item.auto && KeySteps(item, g, keys).reqNum == item.reqNum
  {
    if |keys| > 0 {
      KeyStepsKeep(item, g, keys[..|keys| - 1]);
    }
  }

  /**
   * An item whose id is a key becomes verified with `check` set iff every check under the key
   * passed, and failed otherwise; either way `errors_count` is the number of messages under
   * the key; only a failure rewrites `errors_text`, from the unverified checks.
   */
  lemma AggregatedKeyed(item: Item, g: Groups)
    requires g.Valid() && OneIdPerGroup(g)
    requires item.reqNum in g.entries
    ensures var r := Aggregated(item, g); var cs := g.entries[item.reqNum];
      && r.checkState == (if AllVerified(cs) then Verified else Failed)
      && r.check == AllVerified(cs)
      && r.errorsCount == SumErrors(cs)
      && r.errorsText == (if AllVerified(cs) then item.errorsText else ErrLines(Unverified(cs)))
      && r.auto
  {
    SummaryKeysSorted(g);
    var a := AutoStep(item, g);
    KeyStepsOnce(a, g, SortStrings(g.keys));
    ErrLinesUnverified(g.entries[item.reqNum]);
  }

  /** Items whose id is not a key keep their state, count and error text. */
  lemma AggregatedUntouched(item: Item, g: Groups)
    requires g.Valid() && OneIdPerGroup(g)
    requires item.reqNum !in g.entries
    ensures Aggregated(item, g) == item.(auto := false)
  {
    SummaryKeysSorted(g);
    KeyStepsOther(AutoStep(item, g), g, SortStrings(g.keys));
  }

  /** A failed item can carry `errors_count == 0`: a rule may fail a check without a message. */
  lemma FailedWithoutMessages(item: Item, f: Finding)
    requires !f.verified && f.errors == [] && f.ids == [item.reqNum]
    ensures KeyStep(item, [f]).checkState == Failed && KeyStep(item, [f]).errorsCount == 0
  {
    assert [f][..0] == [] && [f][0] == f;
    assert SumErrors([f]) == SumErrors([]) + |f.errors|;
    assert !AllVerified([f]);
    assert item.reqNum in FirstIds([f]);
  }

  /** The state cycle of a click; in the geojson list an undefined item goes straight to failed. */
  function NextState(s: CheckState, geojson: bool): (r: CheckState) {
    var i := StateIndex(s);
    if geojson && i == 0 then StateAt((i + 2) % 3) else StateAt((i + 1) % 3)
  }

  function ClickItem(item: Item, geojson: bool): (r: Item) {
    var next := NextState(item.checkState, geojson);
    item.(checkState := next,
          errorsCount := if !item.auto then (if next == Failed then 1 else 0) else item.errorsCount,
          check := next == Verified)
  }

  /** Ordinary clicks go undefined, verified, failed and back, so three clicks restore the state. */
  lemma ClickCycle(s: CheckState)
    ensures NextState(Undefined, false) == Verified
    ensures NextState(Verified, false) == Failed
    ensures NextState(Failed, false) == Undefined
    ensures NextState(NextState(NextState(s, false), false), false) == s
  {
  }

  /** In the geojson list an item that starts undefined only alternates between undefined and failed. */
  lemma GeojsonClicks(s: CheckState)
    requires s == Undefined || s == Failed
    ensures NextState(s, true) == (if s == Undefined then Failed else Undefined)
    ensures NextState(NextState(s, true), true) == s
  {
  }

  /** After a click `check` says "verified"; a manual item counts one error iff failed; an automatic one keeps its count. */
  lemma ClickFlags(item: Item, geojson: bool)
    ensures ClickItem(item, geojson).check <==> ClickItem(item, geojson).checkState == Verified
    ensures !item.auto ==> ClickItem(item, geojson).errorsCount == (if ClickItem(item, geojson).checkState == Failed then 1 else 0)
    ensures item.auto ==> ClickItem(item, geojson).errorsCount == item.errorsCount
    ensures ClickItem(item, geojson) == item.(checkState := NextState(item.checkState, geojson),
              check := ClickItem(item, geojson).check, errorsCount := ClickItem(item, geojson).errorsCount)
  {
  }

  /** Some category is named `catName`: the click assigns the `check` flag of its item. */
  predicate HasCategory(cats: seq<Category>, catName: string) {
    exists i | 0 <= i < |cats| :: cats[i].name == catName
  }

  function ClickCats(cats: seq<Category>, catName: string, index: nat, geojson: bool): seq<Category>
    requires forall i :: 0 <= i < |cats| && cats[i].name == catName ==> index < |cats[i].items|
  {
    seq(|cats|, i requires 0 <= i < |cats| =>
      if cats[i].name == catName then cats[i].(items := cats[i].items[index := ClickItem(cats[i].items[index], geojson)])
      else cats[i])
  }

  /* ---------------------------------------------------------------- */
  /* Building from the catalogue                                        */
  /* ---------------------------------------------------------------- */

  function CategorySet(rows: seq<Row>): set<string> {
    set r | r in rows :: r.category
  }

  /** Category names in the order the rows first mention them. */
  function CategoryOrder(rows: seq<Row>): (r: seq<string>)
    ensures Distinct(r)
    ensures forall c :: c in r <==> c in CategorySet(rows)
  {
    if |rows| == 0 then []
    else
      var front := CategoryOrder(rows[..|rows| - 1]);
      var c := rows[|rows| - 1].category;
      assert rows == rows[..|rows| - 1] + [rows[|rows| - 1]];
      assert CategorySet(rows) == CategorySet(rows[..|rows| - 1]) + {c};
      if c in front then front else front + [c]
  }

  /** The rows of one category, in catalogue order. */
  function RowsOf(rows: seq<Row>, c: string): (r: seq<Row>)
    ensures forall j :: 0 <= j < |r| ==> r[j].category == c
  {
    if |rows| == 0 then []
    else RowsOf(rows[..|rows| - 1], c) + (if rows[|rows| - 1].category == c then [rows[|rows| - 1]] else [])
  }

  /** A fresh item: the catalogue's fields, every other field at its default. */
  function NewItem(row: Row, c: string, i: int, highpoly: bool): (item: Item)
    ensures item.auto == (row.auto != "0") && item.indexInCategory == i && item.checkState == Undefined
  {
    Item(row.reqId, row.reqNum, c, row.name, row.description, row.auto != "0", row.recomendation != "0",
         row.helpLink, highpoly, i, Undefined, false, 0, "", "", "", [])
  }

  function NewItems(rs: seq<Row>, c: string, highpoly: bool): (r: seq<Item>)
    ensures |r| == |rs|
    ensures forall j :: 0 <= j < |rs| ==> r[j] == NewItem(rs[j], c, j, highpoly)
  {
    seq(|rs|, j requires 0 <= j < |rs| => NewItem(rs[j], c, j, highpoly))
  }

  function Built(rows: seq<Row>, highpoly: bool): seq<Category> {
    var order := CategoryOrder(rows);
    seq(|order|, k requires 0 <= k < |order| =>
      Category(order[k], NewItems(RowsOf(rows, order[k]), order[k], highpoly), Fraction(0, 0), ""))
  }

  /**
   * A built checklist has a category per distinct catalogue category, in first-appearance
   * order; each item stands at its `index_in_category`, comes from the row at that position
   * among the category's rows, is automatic unless that row says "0", and starts undefined.
   */
  lemma BuiltShape(rows: seq<Row>, highpoly: bool)
    ensures var b := Built(rows, highpoly);
      && |b| == |CategoryOrder(rows)|
      && (forall k :: 0 <= k < |b| ==>
            b[k].name == CategoryOrder(rows)[k] && |b[k].items| == |RowsOf(rows, b[k].name)|)
      && (forall k, j :: 0 <= k < |b| && 0 <= j < |b[k].items| ==>
            var row := RowsOf(rows, b[k].name)[j];
            && b[k].items[j].indexInCategory == j
            && b[k].items[j].reqNum == row.reqNum
            && b[k].items[j].category == b[k].name
            && (b[k].items[j].auto <==> row.auto != "0")
            && b[k].items[j].checkState == Undefined)
  {
  }

  /** The refresh of one item: every row of its category with the same id rewrites the catalogue fields. */
  function Refreshed(item: Item, rs: seq<Row>): (r: Item)
    ensures r.reqNum == item.reqNum && r.checkState == item.checkState && r.check == item.check
    ensures r.userComment == item.userComment && r.errorImages == item.errorImages
    ensures r.userDescription == item.userDescription && r.errorsText == item.errorsText
    ensures r.errorsCount == item.errorsCount && r.category == item.category
  {
    if |rs| == 0 then item
    else
      var prev := Refreshed(item, rs[..|rs| - 1]);
      var row := rs[|rs| - 1];
      if row.reqNum == item.reqNum then
        prev.(name := row.name, description := row.description, auto := row.auto != "0",
              recomendation := row.recomendation != "0")
      else prev
  }

  /** The position of the last row of `rs` with id `num`, or -1 when there is none. */
  function LastWith(rs: seq<Row>, num: string): (r: int)
    ensures -1 <= r < |rs|
    ensures r == -1 ==> forall j :: 0 <= j < |rs| ==> rs[j].reqNum != num
    ensures r >= 0 ==> rs[r].reqNum == num && forall j :: r < j < |rs| ==> rs[j].reqNum != num
  {
    if |rs| == 0 then -1
    else if rs[|rs| - 1].reqNum == num then |rs| - 1
    else
      var front := rs[..|rs| - 1];
      var r := LastWith(front, num);
      assert forall j :: 0 <= j < |front| ==> front[j] == rs[j];
      r
  }

  /** The last catalogue row with the item's id wins; with no such row the item is unchanged. */
  lemma {:induction false} RefreshedLastWins(item: Item, rs: seq<Row>)
    ensures var k := LastWith(rs, item.reqNum);
      Refreshed(item, rs) ==
        if k < 0 then item
        else item.(name := rs[k].name, description := rs[k].description,
                   auto := rs[k].auto != "0", recomendation := rs[k].recomendation != "0")
  {
    if |rs| > 0 {
      var front := rs[..|rs| - 1];
      RefreshedLastWins(item, front);
      var k := LastWith(front, item.reqNum);
      if k >= 0 {
        assert front[k] == rs[k];
      }
    }
  }

  /** Every category present in the catalogue: the refresh looks each item's category up. */
  predicate CategoriesKnown(cats: seq<Category>, rows: seq<Row>) {
    forall i, j :: 0 <= i < |cats| && 0 <= j < |cats[i].items| ==>
      exists r :: 0 <= r < |rows| && rows[r].category == cats[i].items[j].category
  }

  /* ---------------------------------------------------------------- */
  /* Counters                                                          */
  /* ---------------------------------------------------------------- */

  datatype Counts = Counts(all: nat, trueN: nat, auto: nat, autoTrue: nat, manual: nat, manualTrue: nat)

  function CountItems(c: Counts, items: seq<Item>): Counts {
    if |items| == 0 then c
    else
      var prev := CountItems(c, items[..|items| - 1]);
      var item := items[|items| - 1];
      Counts(prev.all + 1,
             prev.trueN + (if item.check then 1 else 0),
             prev.auto + (if item.auto then 1 else 0),
             prev.autoTrue + (if item.check && item.auto then 1 else 0),
             prev.manual + (if item.auto then 0 else 1),
             prev.manualTrue + (if item.check && !item.auto then 1 else 0))
  }

  function Tally(cats: seq<Category>): Counts {
    if |cats| == 0 then Counts(0, 0, 0, 0, 0, 0)
    else CountItems(Tally(cats[..|cats| - 1]), cats[|cats| - 1].items)
  }

  ghost predicate Balanced(c: Counts) {
    c.all == c.auto + c.manual && c.trueN == c.autoTrue + c.manualTrue
    && c.autoTrue <= c.auto && c.manualTrue <= c.manual
  }

  lemma {:induction false} CountItemsBalanced(c: Counts, items: seq<Item>)
    requires Balanced(c)
    ensures Balanced(CountItems(c, items))
    ensures CountItems(c, items).all == c.all + |items|
  {
    if |items| > 0 {
      CountItemsBalanced(c, items[..|items| - 1]);
    }
  }

  /**
   * Every item is either automatic or manual, and the true count splits the same way;
   * "true" is the `check` flag, so neither part exceeds its total.
   */
  lemma {:induction false} TallyBalanced(cats: seq<Category>)
    ensures Balanced(Tally(cats))
  {
    if |cats| > 0 {
      TallyBalanced(cats[..|cats| - 1]);
      CountItemsBalanced(Tally(cats[..|cats| - 1]), cats[|cats| - 1].items);
    }
  }

  function Checked(items: seq<Item>): (n: nat)
    ensures n <= |items|
  {
    if |items| == 0 then 0
    else Checked(items[..|items| - 1]) + (if items[|items| - 1].checkState != Undefined then 1 else 0)
  }

  /** A category with its progress recomputed: "k/n", k the items no longer undefined. */
  function WithProgress(c: Category): Category
    requires |c.items| > 0
  {
    var k := Checked(c.items);
    c.(progress := Fraction(k, |c.items|), progressText := NatToString(k) + "/" + NatToString(|c.items|))
  }

  /** The index of the first empty category, where the division by its size raises. */
  function FirstEmpty(cats: seq<Category>): (k: nat)
    ensures k <= |cats|
    ensures forall i :: 0 <= i < k ==> |cats[i].items| > 0
    ensures k < |cats| ==> |cats[k].items| == 0
  {
    if |cats| == 0 then 0
    else if |cats[0].items| == 0 then 0
    else 1 + FirstEmpty(cats[1..])
  }

  /** The three overall ratios of a tier and their captions. */
  datatype Totals = Totals(all: Fraction, allText: string, auto: Fraction, autoText: string,
                           manual: Fraction, manualText: string)

  /** No total is zero, so none of the three divisions raises. */
  predicate TotalsDefined(c: Counts) {
    c.all > 0 && c.auto > 0 && c.manual > 0
  }

  /** The overall ratios written one after another until a division by zero stops the update. */
  function Totaled(t: Totals, c: Counts): Totals {
    if c.all == 0 then t
    else
      var t1 := t.(all := Fraction(c.trueN, c.all), allText := PercentText("Требований выполнено: ", c.trueN, c.all));
      if c.auto == 0 then t1
      else
        var t2 := t1.(auto := Fraction(c.autoTrue, c.auto), autoText := PercentText("Авто: ", c.autoTrue, c.auto));
        if c.manual == 0 then t2
        else t2.(manual := Fraction(c.manualTrue, c.manual), manualText := PercentText("Ручные: ", c.manualTrue, c.manual))
  }

  /**
   * The overall ratio is true items over all items; the automatic and manual ratios use the
   * automatic and manual parts, and a checklist with only automatic (or only manual) items
   * never gets its manual (or automatic) ratio: the division raises first.
   */
  lemma TotaledRatios(t: Totals, cats: seq<Category>)
    ensures var c := Tally(cats); var r := Totaled(t, c);
      && (c.all > 0 ==> r.all == Fraction(c.autoTrue + c.manualTrue, c.auto + c.manual))
      && (c.all > 0 && c.auto > 0 ==> r.auto == Fraction(c.autoTrue, c.auto) && r.auto.num <= r.auto.den)
      && (c.all > 0 && c.auto > 0 && c.manual > 0 ==> r.manual == Fraction(c.manualTrue, c.manual) && r.manual.num <= r.manual.den)
      && (c.auto == 0 ==> r.auto == t.auto && r.manual == t.manual)
      && (c.manual == 0 ==> r.manual == t.manual)
  {
    TallyBalanced(cats);
  }

  /** The categories with the first `k` progress values recomputed, the rest as they were. */
  function ProgressUpTo(cats: seq<Category>, k: nat): (r: seq<Category>)
    requires k <= FirstEmpty(cats)
    ensures |r| == |cats|
  {
    seq(|cats|, i requires 0 <= i < |cats| => if i < k then WithProgress(cats[i]) else cats[i])
  }

  lemma ProgressStep(cats: seq<Category>, i: nat)
    requires i < FirstEmpty(cats)
    ensures ProgressUpTo(cats, i)[i := WithProgress(cats[i])] == ProgressUpTo(cats, i + 1)
  {
  }

  /**
   * What `update_checklist` leaves: the progress of every category before the first
   * empty one, and the overall ratios written until a division by zero stops it.
   */
  function Updated(cats: seq<Category>, t: Totals): (r: (seq<Category>, Totals))
    ensures |r.0| == |cats|
    ensures forall i :: 0 <= i < |cats| ==> r.0[i].items == cats[i].items && r.0[i].name == cats[i].name
    ensures forall i :: 0 <= i < FirstEmpty(cats) ==> r.0[i].progress == Fraction(Checked(cats[i].items), |cats[i].items|)
    ensures forall i :: FirstEmpty(cats) <= i < |cats| ==> r.0[i] == cats[i]
    ensures FirstEmpty(cats) < |cats| ==> r.1 == t
  {
    var k := FirstEmpty(cats);
    (ProgressUpTo(cats, k), if k == |cats| then Totaled(t, Tally(cats)) else t)
  }

  /** `b` is `a` with items edited in place: same categories, same sizes, same automatic flags. */
  ghost predicate EditedItems(a: seq<Category>, b: seq<Category>) {
    && |a| == |b|
    && (forall i :: 0 <= i < |a| ==> b[i] == a[i].(items := b[i].items) && |b[i].items| == |a[i].items|)
    && (forall i, j :: 0 <= i < |a| && 0 <= j < |a[i].items| ==> b[i].items[j].auto == a[i].items[j].auto)
  }

  /** The categories of `x` holding the items of `b`. */
  function Reitemed(x: seq<Category>, b: seq<Category>): (r: seq<Category>)
    requires |x| == |b|
    ensures |r| == |x| && forall i :: 0 <= i < |x| ==> r[i] == x[i].(items := b[i].items)
  {
    seq(|x|, i requires 0 <= i < |x| => x[i].(items := b[i].items))
  }

  lemma {:induction false} FirstEmptySizes(a: seq<Category>, b: seq<Category>)
    requires |a| == |b| && forall i :: 0 <= i < |a| ==> |a[i].items| == |b[i].items|
    ensures FirstEmpty(a) == FirstEmpty(b)
  {
    if |a| > 0 && |a[0].items| > 0 {
      FirstEmptySizes(a[1..], b[1..]);
    }
  }

  lemma {:induction false} TallyItems(a: seq<Category>, b: seq<Category>)
    requires |a| == |b| && forall i :: 0 <= i < |a| ==> a[i].items == b[i].items
    ensures Tally(a) == Tally(b)
  {
    if |a| > 0 {
      TallyItems(a[..|a| - 1], b[..|b| - 1]);
    }
  }

  /** Lists of the same size and automatic flags give the same totals and automatic and manual counts. */
  lemma {:induction false} CountItemsShape(c: Counts, xs: seq<Item>, ys: seq<Item>)
    requires |xs| == |ys| && forall j :: 0 <= j < |xs| ==> xs[j].auto == ys[j].auto
    ensures var p, q := CountItems(c, xs), CountItems(c, ys); p.all == q.all && p.auto == q.auto && p.manual == q.manual
  {
    if |xs| > 0 {
      CountItemsShape(c, xs[..|xs| - 1], ys[..|ys| - 1]);
    }
  }

  lemma {:induction false} TallyShape(a: seq<Category>, b: seq<Category>)
    requires EditedItems(a, b)
    ensures var p, q := Tally(a), Tally(b); p.all == q.all && p.auto == q.auto && p.manual == q.manual
  {
    if |a| > 0 {
      var n := |a| - 1;
      assert EditedItems(a[..n], b[..n]);
      TallyShape(a[..n], b[..n]);
      var p, q := Tally(a[..n]), Tally(b[..n]);
      CountItemsShapeFrom(p, q, a[n].items, b[n].items);
    }
  }

  /** Counting on from starts with equal totals keeps them equal. */
  lemma {:induction false} CountItemsShapeFrom(c: Counts, d: Counts, xs: seq<Item>, ys: seq<Item>)
    requires c.all == d.all && c.auto == d.auto && c.manual == d.manual
    requires |xs| == |ys| && forall j :: 0 <= j < |xs| ==> xs[j].auto == ys[j].auto
    ensures var p, q := CountItems(c, xs), CountItems(d, ys); p.all == q.all && p.auto == q.auto && p.manual == q.manual
  {
    if |xs| > 0 {
      CountItemsShapeFrom(c, d, xs[..|xs| - 1], ys[..|ys| - 1]);
    }
  }

  /** Two updates in a row stop at the same division when the totals agree; the second one's ratios remain. */
  lemma TotaledTwice(t: Totals, c: Counts, d: Counts)
    requires c.all == d.all && c.auto == d.auto && c.manual == d.manual
    ensures Totaled(Totaled(t, c), d) == Totaled(t, d)
  {
  }

  /**
   * The source runs `update_checklist` after every assignment of an item's `check` flag.
   * An update followed by more item edits and another update leaves exactly what the
   * last update alone leaves, so only the update after the last assignment is visible.
   */
  lemma LastUpdateWins(a: seq<Category>, b: seq<Category>, t: Totals)
    requires EditedItems(a, b)
    ensures var u := Updated(a, t); Updated(Reitemed(u.0, b), u.1) == Updated(b, t)
  {
    LastCategoriesWin(a, b, t);
    LastTotalsWin(a, b, t);
  }

  /** The categories of `LastUpdateWins`. */
  lemma LastCategoriesWin(a: seq<Category>, b: seq<Category>, t: Totals)
    requires EditedItems(a, b)
    ensures var u := Updated(a, t); Updated(Reitemed(u.0, b), u.1).0 == Updated(b, t).0
  {
    var u := Updated(a, t);
    var s := Reitemed(u.0, b);
    forall i | 0 <= i < |b|
      ensures Updated(s, u.1).0[i] == Updated(b, t).0[i]
    {
      LastUpdateAt(a, b, t, i);
    }
  }

  /** The totals of `LastUpdateWins`: both updates stop at the same division, and the second one's ratios remain. */
  lemma LastTotalsWin(a: seq<Category>, b: seq<Category>, t: Totals)
    requires EditedItems(a, b)
    ensures var u := Updated(a, t); Updated(Reitemed(u.0, b), u.1).1 == Updated(b, t).1
  {
    var u := Updated(a, t);
    var s := Reitemed(u.0, b);
    FirstEmptySizes(a, b);
    FirstEmptySizes(s, b);
    if FirstEmpty(b) == |b| {
      TallyItems(s, b);
      TallyShape(a, b);
      TotaledTwice(t, Tally(a), Tally(b));
    }
  }

  /** One category of `LastUpdateWins`: its progress is recomputed from the edited items either way. */
  lemma LastUpdateAt(a: seq<Category>, b: seq<Category>, t: Totals, i: nat)
    requires EditedItems(a, b) && i < |b|
    ensures var u := Updated(a, t); Updated(Reitemed(u.0, b), u.1).0[i] == Updated(b, t).0[i]
  {
    var u := Updated(a, t);
    var s := Reitemed(u.0, b);
    FirstEmptySizes(a, b);
    FirstEmptySizes(s, b);
    if i < FirstEmpty(b) {
      assert s[i] == WithProgress(a[i]).(items := b[i].items);
    } else {
      assert s[i] == b[i];
    }
  }

  function PercentText(caption: string, k: nat, n: nat): string
    requires n > 0
  {
    caption + NatToString(RoundHalfEven(100 * k, n)) + "%" + " (" + NatToString(k) + "/" + NatToString(n) + ")"
  }

  /* ---------------------------------------------------------------- */
  /* Not yet checked                                                   */
  /* ---------------------------------------------------------------- */

  function UndefinedIn(items: seq<Item>): seq<string> {
    if |items| == 0 then []
    else UndefinedIn(items[..|items| - 1]) + (if items[|items| - 1].checkState == Undefined then [items[|items| - 1].reqNum] else [])
  }

  /** `get_dont_checked_nums`: the ids of undefined items, category by category, item by item. */
  function Unchecked(cats: seq<Category>): seq<string> {
    if |cats| == 0 then []
    else Unchecked(cats[..|cats| - 1]) + UndefinedIn(cats[|cats| - 1].items)
  }

  /** The item is still undefined and carries the number `x`. */
  predicate UndefinedWith(it: Item, x: string) {
    it.checkState == Undefined && it.reqNum == x
  }

  /** Some item of the list is undefined with the number `x`. */
  predicate PendingIn(items: seq<Item>, x: string) {
    exists j :: 0 <= j < |items| && UndefinedWith(items[j], x)
  }

  /** Some item of some category is undefined with the number `x`. */
  predicate Pending(cats: seq<Category>, x: string) {
    exists i :: 0 <= i < |cats| && PendingIn(cats[i].items, x)
  }

  lemma {:induction false} UndefinedInMembers(items: seq<Item>, x: string)
    ensures x in UndefinedIn(items) <==> PendingIn(items, x)
  {
    if |items| > 0 {
      var front := items[..|items| - 1];
      UndefinedInMembers(front, x);
      if PendingIn(front, x) {
        var j :| 0 <= j < |front| && UndefinedWith(front[j], x);
        assert items[j] == front[j];
      }
      if PendingIn(items, x) {
        var j :| 0 <= j < |items| && UndefinedWith(items[j], x);
        if j < |front| { assert front[j] == items[j]; }
      }
    }
  }

  /** An id is listed as not checked iff some item with that id is still undefined. */
  lemma {:induction false} UncheckedMembers(cats: seq<Category>, x: string)
    ensures x in Unchecked(cats) <==> Pending(cats, x)
  {
    if |cats| > 0 {
      var front := cats[..|cats| - 1];
      var last := cats[|cats| - 1];
      UncheckedMembers(front, x);
      UndefinedInMembers(last.items, x);
      if Pending(front, x) {
        var i :| 0 <= i < |front| && PendingIn(front[i].items, x);
        assert cats[i] == front[i];
      }
      if Pending(cats, x) {
        var i :| 0 <= i < |cats| && PendingIn(cats[i].items, x);
        if i < |front| { assert cats[i] == front[i]; }
      }
    }
  }

  /* ---------------------------------------------------------------- */
  /* Writing a text into the first item with a number                   */
  /* ---------------------------------------------------------------- */

  /** An item with its comment or its description replaced. */
  function SetText(it: Item, comment: bool, text: string): Item {
    if comment then it.(userComment := text) else it.(userDescription := text)
  }

  predicate HasReq(items: seq<Item>, req: string) {
    exists j :: 0 <= j < |items| && items[j].reqNum == req
  }

  /** The first item numbered `req` takes the text; the others stay. */
  function WriteItems(items: seq<Item>, req: string, comment: bool, text: string): (r: seq<Item>)
    ensures |r| == |items|
    decreases |items|
  {
    if items == [] then []
    else if items[0].reqNum == req then [SetText(items[0], comment, text)] + items[1..]
    else [items[0]] + WriteItems(items[1..], req, comment, text)
  }

  /** The first category holding an item numbered `req` has that item's text replaced. */
  function WriteCats(cats: seq<Category>, req: string, comment: bool, text: string): (r: seq<Category>)
    ensures |r| == |cats|
    decreases |cats|
  {
    if cats == [] then []
    else if HasReq(cats[0].items, req) then [cats[0].(items := WriteItems(cats[0].items, req, comment, text))] + cats[1..]
    else [cats[0]] + WriteCats(cats[1..], req, comment, text)
  }

  /** Without an item numbered `req`, nothing is written. */
  lemma {:induction false} WriteItemsAbsent(items: seq<Item>, req: string, comment: bool, text: string)
    requires !HasReq(items, req)
    ensures WriteItems(items, req, comment, text) == items
    decreases |items|
  {
    if items != [] {
      assert !HasReq(items[1..], req) by {
        forall j | 0 <= j < |items[1..]| ensures items[1..][j].reqNum != req {
          assert items[1..][j] == items[j + 1];
        }
      }
      WriteItemsAbsent(items[1..], req, comment, text);
      assert items == [items[0]] + items[1..];
    }
  }

  /** The update every item numbered `req` would get. */
  function Retexted(it: Item, req: string, comment: bool, text: string): Item {
    if it.reqNum == req then SetText(it, comment, text) else it
  }

  /** No two positions hold items with the same number. */
  predicate UniqueNums(cats: seq<Category>) {
    forall i1, j1, i2, j2 ::
      0 <= i1 < |cats| && 0 <= j1 < |cats[i1].items| && 0 <= i2 < |cats| && 0 <= j2 < |cats[i2].items|
      && cats[i1].items[j1].reqNum == cats[i2].items[j2].reqNum
      ==> i1 == i2 && j1 == j2
  }

  /** At most one item is numbered `req`. */
  predicate OnceIn(items: seq<Item>, req: string) {
    forall a, b :: 0 <= a < |items| && 0 <= b < |items| && items[a].reqNum == req && items[b].reqNum == req ==> a == b
  }

  lemma {:induction false} WriteItemsOnce(items: seq<Item>, req: string, comment: bool, text: string)
    requires OnceIn(items, req)
    ensures WriteItems(items, req, comment, text) == MapItems(items, it => Retexted(it, req, comment, text))
    decreases |items|
  {
    var f := it => Retexted(it, req, comment, text);
    if items != [] {
      if items[0].reqNum == req {
        assert !HasReq(items[1..], req) by {
          forall j | 0 <= j < |items[1..]| ensures items[1..][j].reqNum != req {
            assert items[1..][j] == items[j + 1];
          }
        }
        WriteItemsAbsent(items[1..], req, comment, text);
        forall j | 1 <= j < |items| ensures f(items[j]) == items[j] {
          assert items[j] == items[1..][j - 1];
        }
      } else {
        WriteItemsOnce(items[1..], req, comment, text);
      }
    }
  }

  lemma UniqueTail(cats: seq<Category>)
    requires UniqueNums(cats) && cats != []
    ensures UniqueNums(cats[1..])
  {
    forall i1, j1, i2, j2 |
      0 <= i1 < |cats[1..]| && 0 <= j1 < |cats[1..][i1].items| && 0 <= i2 < |cats[1..]| && 0 <= j2 < |cats[1..][i2].items|
      && cats[1..][i1].items[j1].reqNum == cats[1..][i2].items[j2].reqNum
      ensures i1 == i2 && j1 == j2
    {
      assert cats[1..][i1] == cats[i1 + 1] && cats[1..][i2] == cats[i2 + 1];
    }
  }

  /** Once the first category holds `req`, the others do not. */
  lemma OthersLack(cats: seq<Category>, req: string, i: int)
    requires UniqueNums(cats) && 1 <= i < |cats| && HasReq(cats[0].items, req)
    ensures !HasReq(cats[i].items, req)
  {
    var j0 :| 0 <= j0 < |cats[0].items| && cats[0].items[j0].reqNum == req;
    forall j | 0 <= j < |cats[i].items| ensures cats[i].items[j].reqNum != req {
      assert cats[i].items[j].reqNum != cats[0].items[j0].reqNum;
    }
  }

  /** With numbers unique, writing the first item numbered `req` writes every item numbered `req`. */
  lemma {:induction false} WriteCatsOnce(cats: seq<Category>, req: string, comment: bool, text: string)
    requires UniqueNums(cats)
    ensures WriteCats(cats, req, comment, text) == MapCats(cats, it => Retexted(it, req, comment, text))
    decreases |cats|
  {
    if cats != [] {
      if HasReq(cats[0].items, req) {
        UniqueFirst(cats, req);
        forall i | 1 <= i < |cats| ensures !HasReq(cats[i].items, req) {
          OthersLack(cats, req, i);
        }
        WriteCatsHit(cats, req, comment, text);
      } else {
        UniqueTail(cats);
        WriteCatsOnce(cats[1..], req, comment, text);
        WriteCatsMiss(cats, req, comment, text);
      }
    }
  }

  /** No two items of the first category share the number `req`. */
  lemma UniqueFirst(cats: seq<Category>, req: string)
    requires UniqueNums(cats) && cats != []
    ensures OnceIn(cats[0].items, req)
  {
    var items := cats[0].items;
    forall a, b | 0 <= a < |items| && 0 <= b < |items| && items[a].reqNum == req && items[b].reqNum == req ensures a == b {
      assert cats[0].items[a].reqNum == cats[0].items[b].reqNum;
    }
  }

  /** The first category holds `req` once and no later one holds it: its items are written and the later categories stay. */
  lemma WriteCatsHit(cats: seq<Category>, req: string, comment: bool, text: string)
    requires cats != [] && HasReq(cats[0].items, req) && OnceIn(cats[0].items, req)
    requires forall i :: 1 <= i < |cats| ==> !HasReq(cats[i].items, req)
    ensures WriteCats(cats, req, comment, text) == MapCats(cats, it => Retexted(it, req, comment, text))
  {
    var f := it => Retexted(it, req, comment, text);
    var r := WriteCats(cats, req, comment, text);
    var m := MapCats(cats, f);
    assert r == [cats[0].(items := WriteItems(cats[0].items, req, comment, text))] + cats[1..];
    assert r[0] == m[0] by {
      WriteItemsOnce(cats[0].items, req, comment, text);
    }
    forall i | 1 <= i < |cats| ensures r[i] == m[i] {
      LacksStays(cats[i].items, req, comment, text);
    }
    assert |r| == |m|;
  }

  /** Items without the number `req` are left as they are. */
  lemma LacksStays(items: seq<Item>, req: string, comment: bool, text: string)
    requires !HasReq(items, req)
    ensures MapItems(items, it => Retexted(it, req, comment, text)) == items
  {
    var m := MapItems(items, it => Retexted(it, req, comment, text));
    forall j | 0 <= j < |items| ensures m[j] == items[j] {
    }
  }

  /** The first category lacks `req`: it stays, and the rest is written as before. */
  lemma WriteCatsMiss(cats: seq<Category>, req: string, comment: bool, text: string)
    requires cats != [] && !HasReq(cats[0].items, req)
    requires WriteCats(cats[1..], req, comment, text) == MapCats(cats[1..], it => Retexted(it, req, comment, text))
    ensures WriteCats(cats, req, comment, text) == MapCats(cats, it => Retexted(it, req, comment, text))
  {
    var f := it => Retexted(it, req, comment, text);
    var r := WriteCats(cats, req, comment, text);
    var m := MapCats(cats, f);
    var t := WriteCats(cats[1..], req, comment, text);
    assert r == [cats[0]] + t;
    assert r[0] == m[0] by {
      assert MapItems(cats[0].items, f) == cats[0].items;
    }
    forall i | 1 <= i < |cats| ensures r[i] == m[i] {
      assert r[i] == t[i - 1];
      assert cats[1..][i - 1] == cats[i];
    }
    assert |r| == |m|;
  }

  lemma ItemsPass(items: seq<Item>, j: int, req: string, comment: bool, text: string)
    requires 0 <= j < |items| && items[j].reqNum != req
    ensures WriteItems(items[j..], req, comment, text) == [items[j]] + WriteItems(items[j + 1..], req, comment, text)
  {
    assert items[j..][1..] == items[j + 1..];
  }

  /** The loop's step past an item with another number. */
  lemma ItemsStep(items: seq<Item>, j: int, req: string, comment: bool, text: string)
    requires 0 <= j < |items| && items[j].reqNum != req
    requires WriteItems(items, req, comment, text) == items[..j] + WriteItems(items[j..], req, comment, text)
    ensures WriteItems(items, req, comment, text) == items[..j + 1] + WriteItems(items[j + 1..], req, comment, text)
  {
    ItemsPass(items, j, req, comment, text);
    AppendAssoc(items[..j], [items[j]], WriteItems(items[j + 1..], req, comment, text));
    assert items[..j] + [items[j]] == items[..j + 1];
  }

  lemma ItemsFound(items: seq<Item>, j: int, req: string, comment: bool, text: string)
    requires 0 <= j < |items| && items[j].reqNum == req
    requires WriteItems(items, req, comment, text) == items[..j] + WriteItems(items[j..], req, comment, text)
    ensures WriteItems(items, req, comment, text) == items[j := SetText(items[j], comment, text)]
  {
    assert items[j..][1..] == items[j + 1..];
  }

  lemma CatsPass(cats: seq<Category>, i: int, req: string, comment: bool, text: string)
    requires 0 <= i < |cats| && !HasReq(cats[i].items, req)
    ensures WriteCats(cats[i..], req, comment, text) == [cats[i]] + WriteCats(cats[i + 1..], req, comment, text)
  {
    assert cats[i..][1..] == cats[i + 1..];
  }

  /** The loop's step past a category without the number. */
  lemma CatsStep(cats: seq<Category>, i: int, req: string, comment: bool, text: string)
    requires 0 <= i < |cats| && !HasReq(cats[i].items, req)
    requires WriteCats(cats, req, comment, text) == cats[..i] + WriteCats(cats[i..], req, comment, text)
    ensures WriteCats(cats, req, comment, text) == cats[..i + 1] + WriteCats(cats[i + 1..], req, comment, text)
  {
    CatsPass(cats, i, req, comment, text);
    AppendAssoc(cats[..i], [cats[i]], WriteCats(cats[i + 1..], req, comment, text));
    assert cats[..i] + [cats[i]] == cats[..i + 1];
  }

  lemma CatsFound(cats: seq<Category>, i: int, req: string, comment: bool, text: string)
    requires 0 <= i < |cats| && HasReq(cats[i].items, req)
    requires WriteCats(cats, req, comment, text) == cats[..i] + WriteCats(cats[i..], req, comment, text)
    ensures WriteCats(cats, req, comment, text) == cats[i := cats[i].(items := WriteItems(cats[i].items, req, comment, text))]
  {
    assert cats[i..][0] == cats[i] && cats[i..][1..] == cats[i + 1..];
  }

  /** The position of the first item numbered `req`, or `|items|` when there is none. */
  method FindReq(items: seq<Item>, req: string, comment: bool, text: string) returns (j: int)
    ensures 0 <= j <= |items|
    ensures j == |items| <==> !HasReq(items, req)
    ensures j < |items| ==> items[j].reqNum == req && WriteItems(items, req, comment, text) == items[j := SetText(items[j], comment, text)]
  {
    j := 0;
    while j < |items|
      invariant 0 <= j <= |items|
      invariant WriteItems(items, req, comment, text) == items[..j] + WriteItems(items[j..], req, comment, text)
      invariant forall k :: 0 <= k < j ==> items[k].reqNum != req
    {
      if items[j].reqNum == req {
        ItemsFound(items, j, req, comment, text);
        return;
      }
      ItemsStep(items, j, req, comment, text);
      j := j + 1;
    }
  }

  /* ---------------------------------------------------------------- */
  /* The checklist of one tier                                          */
  /* ---------------------------------------------------------------- */

  class Checklist {
    var categories: seq<Category>
    var totals: Totals

    constructor ()
      ensures categories == []
    {
      categories := [];
      totals := Totals(Fraction(0, 0), "", Fraction(0, 0), "", Fraction(0, 0), "");
    }

    /** Applies `f` to every item, category by category. */
    method UpdateItems(f: Item -> Item)
      modifies this
      ensures categories == MapCats(old(categories), f)
      ensures totals == old(totals)
    {
      var i := 0;
      while i < |categories|
        invariant 0 <= i <= |categories| == |old(categories)|
        invariant categories[..i] == MapCats(old(categories), f)[..i]
        invariant categories[i..] == old(categories)[i..]
        invariant totals == old(totals)
      {
        var items := categories[i].items;
        var j := 0;
        while j < |items|
          invariant 0 <= j <= |items| == |categories[i].items|
          invariant items[..j] == MapItems(categories[i].items, f)[..j]
          invariant items[j..] == categories[i].items[j..]
        {
          items := items[j := f(items[j])];
          j := j + 1;
        }
        assert items == MapItems(categories[i].items, f);
        assert categories[i] == old(categories)[i];
        categories := categories[i := categories[i].(items := items)];
        i := i + 1;
      }
      assert categories == MapCats(old(categories), f);
    }

    /** The search of `try_to_write_comment`: the first item numbered `req`, category by category, takes the text. */
    method WriteFirst(req: string, comment: bool, text: string)
      modifies this
      ensures categories == WriteCats(old(categories), req, comment, text)
      ensures totals == old(totals)
    {
      var i := 0;
      while i < |categories|
        invariant 0 <= i <= |categories|
        invariant categories == old(categories) && totals == old(totals)
        invariant WriteCats(categories, req, comment, text) == categories[..i] + WriteCats(categories[i..], req, comment, text)
      {
        var items := categories[i].items;
        var j := FindReq(items, req, comment, text);
        if j < |items| {
          CatsFound(categories, i, req, comment, text);
          ghost var done := categories[i := categories[i].(items := WriteItems(items, req, comment, text))];
          categories := categories[i := categories[i].(items := items[j := SetText(items[j], comment, text)])];
          assert categories == done;
          return;
        }
        CatsStep(categories, i, req, comment, text);
        i := i + 1;
      }
      assert categories[i..] == [] && categories[..i] == categories;
    }

    /**
     * `calculate_all_checks` for one tier: with no results the checklist is untouched;
     * otherwise the automatic flags are set, then the keys are applied in sorted order.
     */
    method ApplyResults(results: Option<Groups>)
      modifies this
      ensures results.None? ==> categories == old(categories) && totals == old(totals)
      ensures results.Some? ==>
        var x := Aggregate(old(categories), results.value);
        (categories, totals) == if KeysTouch(old(categories), results.value, SortStrings(results.value.keys))
                                then Updated(x, old(totals)) else (x, old(totals))
    {
      if results.None? {
        return;
      }
      var g := results.value;
      UpdateItems(item => AutoStep(item, g));
      var keys := SortStrings(g.keys);
      KeysTouchMap(old(categories), item => AutoStep(item, g), g, keys);
      ApplyKeys(g, keys);
      MapCatsCompose(old(categories), item => AutoStep(item, g), item => KeySteps(item, g, keys),
        item => Aggregated(item, g));
    }

    /** The loop over the sorted keys of the results. */
    method ApplyKeys(g: Groups, keys: seq<string>)
      modifies this
      ensures var x := MapCats(old(categories), item => KeySteps(item, g, keys));
        (categories, totals) == if KeysTouch(old(categories), g, keys) then Updated(x, old(totals)) else (x, old(totals))
    {
      var touched := KeysTouch(categories, g, keys);
      MapCatsId(categories, item => KeySteps(item, g, []));
      var i := 0;
      while i < |keys|
        invariant 0 <= i <= |keys|
        invariant categories == MapCats(old(categories), item => KeySteps(item, g, keys[..i]))
        invariant totals == old(totals)
      {
        var cs := g.Get(keys[i]);
        UpdateItems(item => KeyStep(item, cs));
        assert keys[..i + 1][..i] == keys[..i];
        MapCatsCompose(old(categories), item => KeySteps(item, g, keys[..i]), item => KeyStep(item, cs),
          item => KeySteps(item, g, keys[..i + 1]));
        i := i + 1;
      }
      assert keys[..i] == keys;
      AfterChecks(touched);
    }

    /** A click on item `index` of the category named `catName` (`CheckboxTestOperator.execute`). */
    method Click(catName: string, index: nat, geojson: bool)
      requires forall i :: 0 <= i < |categories| && categories[i].name == catName ==> index < |categories[i].items|
      modifies this
      ensures var x := ClickCats(old(categories), catName, index, geojson);
        (categories, totals) == if HasCategory(old(categories), catName) then Updated(x, old(totals)) else (x, old(totals))
    {
      var touched := HasCategory(categories, catName);
      ghost var target := ClickCats(categories, catName, index, geojson);
      var i := 0;
      while i < |categories|
        invariant 0 <= i <= |categories| == |old(categories)|
        invariant categories[..i] == target[..i]
        invariant categories[i..] == old(categories)[i..]
        invariant totals == old(totals)
      {
        if categories[i].name == catName {
          var items := categories[i].items;
          var item := items[index];
          var next := NextState(item.checkState, geojson);
          item := item.(checkState := next);
          if !item.auto {
            item := item.(errorsCount := if next == Failed then 1 else 0);
          }
          item := item.(check := next == Verified);
          categories := categories[i := categories[i].(items := items[index := item])];
        }
        i := i + 1;
      }
      assert categories == target;
      AfterChecks(touched);
    }

    /**
     * `update_requrements` on an empty checklist: one category per catalogue category in
     * first-appearance order, one fresh item per row. Assigning the first item's flag
     * afterwards runs `update_checklist`; an empty catalogue raises there instead, and
     * `ok` is false then.
     */
    method Build(rows: seq<Row>, highpoly: bool) returns (ok: bool)
      requires categories == []
      modifies this
      ensures ok <==> |rows| > 0
      ensures (categories, totals) == if ok then Updated(Built(rows, highpoly), old(totals))
                                      else (Built(rows, highpoly), old(totals))
    {
      var order := CategoryOrder(rows);
      var k := 0;
      while k < |order|
        invariant 0 <= k <= |order|
        invariant categories == Built(rows, highpoly)[..k]
        invariant totals == old(totals)
      {
        var rs := RowsOf(rows, order[k]);
        var items: seq<Item> := [];
        var j := 0;
        while j < |rs|
          invariant 0 <= j <= |rs|
          invariant items == NewItems(rs, order[k], highpoly)[..j]
        {
          items := items + [NewItem(rs[j], order[k], j, highpoly)];
          j := j + 1;
        }
        assert items == NewItems(rs, order[k], highpoly);
        categories := categories + [Category(order[k], items, Fraction(0, 0), "")];
        assert categories == Built(rows, highpoly)[..k + 1];
        k := k + 1;
      }
      assert categories == Built(rows, highpoly);
      NonEmptyBuilt(rows, highpoly);
      ok := |categories| > 0 && |categories[0].items| > 0;
      if ok {
        var first := categories[0].items[0];
        assert !first.check;
        categories := categories[0 := categories[0].(items := categories[0].items[0 := first.(check := false)])];
        assert categories[0].items == Built(rows, highpoly)[0].items;
        assert categories[0] == Built(rows, highpoly)[0];
      }
      assert categories == Built(rows, highpoly);
      AfterChecks(ok);
    }

    /**
     * `update_requrements` on a filled checklist: each item takes name, description and the two
     * flags from the rows of its category with the same id; nothing else changes.
     */
    method Refresh(rows: seq<Row>)
      requires CategoriesKnown(categories, rows)
      modifies this
      ensures categories == MapCats(old(categories), (item: Item) => Refreshed(item, RowsOf(rows, item.category)))
    {
      UpdateItems((item: Item) => Refreshed(item, RowsOf(rows, item.category)));
    }

    /** The category loop of `update_checklist`; `ok` is false where a category is empty. */
    method ProgressCategories() returns (counts: Counts, ok: bool)
      modifies this
      ensures categories == ProgressUpTo(old(categories), FirstEmpty(old(categories)))
      ensures ok <==> FirstEmpty(old(categories)) == |old(categories)|
      ensures ok ==> counts == Tally(old(categories))
      ensures totals == old(totals)
    {
      var cats0 := categories;
      var cats := cats0;
      counts := Counts(0, 0, 0, 0, 0, 0);
      var i := 0;
      while i < |cats0|
        invariant 0 <= i <= |cats0| && i <= FirstEmpty(cats0)
        invariant cats == ProgressUpTo(cats0, i)
        invariant counts == Tally(cats0[..i])
        invariant totals == old(totals)
      {
        var cat := cats0[i];
        var checkedCount;
        counts, checkedCount := CountCategory(counts, cat.items);
        assert cats0[..i + 1][..i] == cats0[..i];
        if |cat.items| == 0 {
          categories := cats;
          ok := false;
          return;
        }
        ProgressStep(cats0, i);
        cats := cats[i := WithProgress(cat)];
        i := i + 1;
      }
      assert cats0[..i] == cats0;
      categories := cats;
      ok := true;
    }

    /** `update_checklist`; `ok` is false where the source divides by zero and stops. */
    method UpdateCounters() returns (ok: bool)
      modifies this
      ensures categories == ProgressUpTo(old(categories), FirstEmpty(old(categories)))
      ensures var full := FirstEmpty(old(categories)) == |old(categories)|;
        && totals == (if full then Totaled(old(totals), Tally(old(categories))) else old(totals))
        && (ok <==> full && TotalsDefined(Tally(old(categories))))
    ensures (categories, totals) == Updated(old(categories), old(totals))
    {
      var counts;
      counts, ok := ProgressCategories();
      if !ok {
        return;
      }
      if counts.all == 0 {
        ok := false;
        return;
      }
      totals := totals.(all := Fraction(counts.trueN, counts.all),
                        allText := PercentText("Требований выполнено: ", counts.trueN, counts.all));
      if counts.auto == 0 {
        ok := false;
        return;
      }
      totals := totals.(auto := Fraction(counts.autoTrue, counts.auto),
                        autoText := PercentText("Авто: ", counts.autoTrue, counts.auto));
      if counts.manual == 0 {
        ok := false;
        return;
      }
      totals := totals.(manual := Fraction(counts.manualTrue, counts.manual),
                        manualText := PercentText("Ручные: ", counts.manualTrue, counts.manual));
      ok := true;
    }

    /**
     * The `update` hook of an item's `check` flag: when the operation assigned the flag
     * of some item, `update_checklist` has run; a division by zero in it only stops it.
     */
    method AfterChecks(touched: bool)
      modifies this
      ensures (categories, totals) == if touched then Updated(old(categories), old(totals)) else (old(categories), old(totals))
    {
      if touched {
        var _ := UpdateCounters();
      }
    }

    /** `get_dont_checked_nums` */
    method DontCheckedNums() returns (nums: seq<string>)
      ensures nums == Unchecked(categories)
    {
      nums := [];
      var i := 0;
      while i < |categories|
        invariant 0 <= i <= |categories| && nums == Unchecked(categories[..i])
      {
        var items := categories[i].items;
        var j := 0;
        while j < |items|
          invariant 0 <= j <= |items|
          invariant nums == Unchecked(categories[..i]) + UndefinedIn(items[..j])
        {
          assert items[..j + 1][..j] == items[..j];
          if items[j].checkState == Undefined {
            nums := nums + [items[j].reqNum];
          }
          j := j + 1;
        }
        assert items[..j] == items;
        assert categories[..i + 1][..i] == categories[..i];
        i := i + 1;
      }
      assert categories[..i] == categories;
    }
  }

  /** The inner loop of `update_checklist` over one category's items. */
  method CountCategory(c: Counts, items: seq<Item>) returns (counts: Counts, checkedCount: nat)
    ensures counts == CountItems(c, items) && checkedCount == Checked(items)
  {
    counts := c;
    checkedCount := 0;
    var j := 0;
    while j < |items|
      invariant 0 <= j <= |items|
      invariant counts == CountItems(c, items[..j]) && checkedCount == Checked(items[..j])
    {
      var item := items[j];
      CountStep(c, items, j);
      if item.checkState != Undefined {
        checkedCount := checkedCount + 1;
      }
      counts := Counts(counts.all + 1,
                       counts.trueN + (if item.check then 1 else 0),
                       counts.auto + (if item.auto then 1 else 0),
                       counts.autoTrue + (if item.check && item.auto then 1 else 0),
                       counts.manual + (if item.auto then 0 else 1),
                       counts.manualTrue + (if item.check && !item.auto then 1 else 0));
      j := j + 1;
    }
    assert items[..j] == items;
  }

  /** One more item of the prefix adds its marks to the counts. */
  lemma CountStep(c: Counts, items: seq<Item>, j: int)
    requires 0 <= j < |items|
    ensures var prev, item := CountItems(c, items[..j]), items[j];
      CountItems(c, items[..j + 1]) == Counts(prev.all + 1,
                                              prev.trueN + (if item.check then 1 else 0),
                                              prev.auto + (if item.auto then 1 else 0),
                                              prev.autoTrue + (if item.check && item.auto then 1 else 0),
                                              prev.manual + (if item.auto then 0 else 1),
                                              prev.manualTrue + (if item.check && !item.auto then 1 else 0))
    ensures Checked(items[..j + 1]) == Checked(items[..j]) + (if items[j].checkState != Undefined then 1 else 0)
  {
    var p := items[..j + 1];
    assert p != [] && p[..|p| - 1] == items[..j] && p[|p| - 1] == items[j];
  }

  lemma NonEmptyBuilt(rows: seq<Row>, highpoly: bool)
    ensures |rows| > 0 <==> |Built(rows, highpoly)| > 0 && |Built(rows, highpoly)[0].items| > 0
  {
    var order := CategoryOrder(rows);
    if |rows| > 0 {
      assert rows[0].category in order;
      var c := order[0];
      assert c in CategorySet(rows);
      var row :| row in rows && row.category == c;
      var i :| 0 <= i < |rows| && rows[i] == row;
      RowsOfMember(rows, c, i);
    }
  }

  lemma {:induction false} RowsOfMember(rows: seq<Row>, c: string, i: nat)
    requires i < |rows| && rows[i].category == c
    ensures |RowsOf(rows, c)| > 0
  {
    if i < |rows| - 1 {
      RowsOfMember(rows[..|rows| - 1], c, i);
    }
  }
}
