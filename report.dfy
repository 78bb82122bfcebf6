/**
 * The error report (`_generate_report`, `get_dont_checked_nums`,
 * `load_report`): the text written from both checklists, a shorter second
 * text for the document export, and the re-import of a saved report that
 * marks the listed requirements failed and the others verified.
 */
module Report {
  import opened Wrappers
  import opened Text
  import opened Lines
  import opened Checklist

  const ReportTitle := "--------Отчет об ошибках--------"
  const LowTitle := "Низкополигональная модель"
  const HighTitle := "Высокополигональная модель"
  const LowTag := "НПМ"
  const HighTag := "ВПМ"
  const LowExcept := "НПМ. Проверены все пункты, кроме"
  const HighExcept := "ВПМ. Проверены все пункты, кроме"
  const ProgressText := " модель соответствует требованиям на "
  const AddressLabel := "Address: "
  const DateLabel := "Дата проверки: "
  const AuthorLabel := "Проверяющий: "
  const Numbering := "Нумерация пунктов взята из " + "требований, сокращенная " + "запись - Таблица.Пункт.Подпункт"
  const RequirementsLink := "Ссылка на требования: " + "https://www.mos.ru/mka/" + "function/gosudarstvennye-" + "uslugi/svidetelstvo-ob-" + "utverzhdenii-agr/"
  const PreparedBy := "Отчет подготовлен с помощью " + "плагина Sintez AGR Checker: " + "https://sintez.space/"
  const ErrorMark := "----Ошибка"
  const ItemLabel := "Пункт "
  const DescriptionMark := "----Описание пункта:"
  const AutoMark := "----Автоматичсеские ошибки:"
  const CommentMark := "----Комментарий к ошибке:"

  /** The moment of the check, which the source reads from the clock. */
  datatype Stamp = Stamp(day: nat, month: nat, year: nat, hour: nat, minute: nat)

  /**
   * What the report's head is made of besides the checklists: the project
   * address, the moment, the inspector, which models are present, and each
   * model's rounded progress percentage.
   */
  datatype Header = Header(
    address: string,
    stamp: Stamp,
    author: string,
    hasLowpoly: bool,
    hasHighpoly: bool,
    lowPercent: int,
    highPercent: int)

  /**
   * `round(progress_all * 100)`, taken on the exact ratio of item counts:
   * rounded half to even as Python's `round` rounds an exact tie (the
   * source's single-precision ratio can tip a tie either way); before any
   * recount the property holds its default 0.0, which gives 0.
   */
  function Percent(f: Fraction): (p: int)
    ensures f.den > 0 && f.num >= 0 ==> 2 * (f.den * p) <= 200 * f.num + f.den && 200 * f.num <= 2 * (f.den * p) + f.den
    ensures f.den > 0 && f.num >= 0 && 2 * (f.den * p) == 200 * f.num + f.den ==> p % 2 == 0
    ensures f.den > 0 && f.num >= 0 && 200 * f.num == 2 * (f.den * p) + f.den ==> p % 2 == 0
    ensures f.den == 0 ==> p == 0
  {
    if f.den > 0 && f.num >= 0 then RoundHalfEven(100 * f.num, f.den) else 0
  }

  /** A ratio of true items to all items shows as a percentage from 0 to 100: 100 when every item is true, 0 when none is. */
  lemma PercentRange(f: Fraction)
    requires 0 <= f.num <= f.den && f.den > 0
    ensures 0 <= Percent(f) <= 100
    ensures f.num == f.den ==> Percent(f) == 100
    ensures f.num == 0 ==> Percent(f) == 0
  {
    var p, n, d := Percent(f), f.num, f.den;
    assert p >= 0;
    if p > 100 {
      MulLe(d, 101, p);
    }
    if n == d && p < 100 {
      MulLe(d, p, 99);
    }
    if n == 0 && p > 0 {
      MulLe(d, 1, p);
    }
  }

  lemma MulLe(d: nat, a: int, b: int)
    requires a <= b
    ensures d * a <= d * b
  {
    assert d * b - d * a == d * (b - a);
  }

  /** The head as the report shows it: each present model's percentage is its checklist's rounded overall ratio. */
  function WithPercents(h: Header, low: Totals, high: Totals): (r: Header)
    ensures r.lowPercent == Percent(low.all) && r.highPercent == Percent(high.all)
    ensures r.(lowPercent := h.lowPercent, highPercent := h.highPercent) == h
  {
    h.(lowPercent := Percent(low.all), highPercent := Percent(high.all))
  }

  /* ---------------------------------------------------------------- */
  /* The items of a tier                                               */
  /* ---------------------------------------------------------------- */

  /** The items of all categories, category after category. */
  function Flat(cats: seq<Category>): seq<Item> {
    if cats == [] then [] else Flat(cats[..|cats| - 1]) + cats[|cats| - 1].items
  }

  lemma {:induction false} UndefinedInAppend(a: seq<Item>, b: seq<Item>)
    ensures UndefinedIn(a + b) == UndefinedIn(a) + UndefinedIn(b)
    decreases |b|
  {
    if b == [] {
      assert a + b == a;
    } else {
      assert (a + b)[..|a + b| - 1] == a + b[..|b| - 1];
      UndefinedInAppend(a, b[..|b| - 1]);
    }
  }

  /** The unchecked numbers are those of the undefined items, category after category. */
  lemma {:induction false} UncheckedFlat(cats: seq<Category>)
    ensures Unchecked(cats) == UndefinedIn(Flat(cats))
    decreases |cats|
  {
    if cats != [] {
      UncheckedFlat(cats[..|cats| - 1]);
      UndefinedInAppend(Flat(cats[..|cats| - 1]), cats[|cats| - 1].items);
    }
  }

  /** Mapping every item of every category maps the flat list. */
  lemma {:induction false} FlatMap(cats: seq<Category>, f: Item -> Item)
    ensures Flat(MapCats(cats, f)) == MapItems(Flat(cats), f)
    decreases |cats|
  {
    if cats != [] {
      var front := cats[..|cats| - 1];
      assert MapCats(cats, f)[..|cats| - 1] == MapCats(front, f);
      FlatMap(front, f);
    }
  }

  /** The number of failed items. */
  function FailedCount(items: seq<Item>): (n: nat)
    ensures n <= |items|
  {
    if items == [] then 0
    else FailedCount(items[..|items| - 1]) + (if items[|items| - 1].checkState == Failed then 1 else 0)
  }

  /** The requirement numbers of the failed items, in order. */
  function FailedNums(items: seq<Item>): (r: seq<string>)
    ensures |r| == FailedCount(items)
  {
    if items == [] then []
    else FailedNums(items[..|items| - 1]) + (if items[|items| - 1].checkState == Failed then [items[|items| - 1].reqNum] else [])
  }

  /**
   * A failed item without a description of its own takes the catalogue's;
   * the indented copy `replace` computes is discarded in the source, so the
   * text is taken unchanged.
   */
  function Filled(it: Item): (r: Item)
    ensures it.checkState == Failed && it.userDescription == "" ==> r == it.(userDescription := it.description)
    ensures !(it.checkState == Failed && it.userDescription == "") ==> r == it
  {
    if it.checkState == Failed && it.userDescription == "" then it.(userDescription := it.description) else it
  }

  /* ---------------------------------------------------------------- */
  /* The report texts                                                  */
  /* ---------------------------------------------------------------- */

  /** `str(n).rjust(2, "0")` */
  function Pad2(n: nat): string {
    RJust(NatToString(n), 2, '0')
  }

  function DateLine(t: Stamp): string {
    DateLabel + Pad2(t.day) + "." + Pad2(t.month) + "." + NatToString(t.year) + " " + Pad2(t.hour) + ":" + Pad2(t.minute)
  }

  function ExceptLine(except: string, nums: seq<string>): string {
    except + " - " + Join(nums, ", ")
  }

  /** The progress line of a present model and, when some items are still undefined, their numbers. */
  function TierSummary(tag: string, except: string, percent: int, nums: seq<string>): string {
    (tag + ProgressText + IntToString(percent) + "%" + "\n")
    + (if nums != [] then ExceptLine(except, nums) + "\n" else "")
    + "\n"
  }

  function TitleBlock(): string {
    (ReportTitle + "\n") + "\n"
  }

  function AddressBlock(address: string): string {
    AddressLabel + address + "\n"
  }

  function DateBlock(t: Stamp): string {
    DateLine(t) + "\n"
  }

  function AuthorBlock(author: string): string {
    if author != "" then (AuthorLabel + author + "\n") + "\n" else "\n"
  }

  function SummaryBlock(present: bool, tag: string, except: string, percent: int, nums: seq<string>): string {
    if present then TierSummary(tag, except, percent, nums) else ""
  }

  function ClosingBlock(): string {
    (Numbering + "\n") + (RequirementsLink + "\n") + (PreparedBy + "\n") + "\n" + "\n"
  }

  /** The head shared by both texts. */
  function HeaderText(h: Header, lowNums: seq<string>, highNums: seq<string>): string {
    TitleBlock()
    + AddressBlock(h.address)
    + DateBlock(h.stamp)
    + AuthorBlock(h.author)
    + SummaryBlock(h.hasLowpoly, LowTag, LowExcept, h.lowPercent, lowNums)
    + SummaryBlock(h.hasHighpoly, HighTag, HighExcept, h.highPercent, highNums)
    + ClosingBlock()
  }

  function Banner(title: string): string {
    ("--------" + title + "--------" + "\n") + "\n"
  }

  function ErrorLine(it: Item, n: int): string {
    ErrorMark + " " + IntToString(n) + ". " + ItemLabel + it.reqNum + ". " + it.name
  }

  function DescriptionBlock(description: string): string {
    (DescriptionMark + "\n") + (description + "\n")
  }

  function AutoBlock(it: Item): string {
    if it.auto then (AutoMark + "\n") + it.errorsText else ""
  }

  function CommentBlock(comment: string): string {
    (CommentMark + "\n") + (comment + "\n")
  }

  /** The block of the `n`-th failed item in the first text; a non-empty comment is followed by one more blank line. */
  function ItemText(it: Item, n: int): string {
    ErrorLine(it, n) + "\n"
    + DescriptionBlock(it.userDescription)
    + AutoBlock(it)
    + CommentBlock(it.userComment)
    + "\n"
    + (if it.userComment != "" then "\n" else "")
  }

  /** The block of a failed item in the second text. */
  function ItemBrief(it: Item): string {
    ItemLabel + it.reqNum + "\n" + it.userDescription + "\n"
    + (if it.userComment != "" then it.userComment + "\n" else "")
    + (if it.auto then it.errorsText else "")
    + "\n"
  }

  /** The blocks of the failed items, each drawn with its number counted from 1. */
  function Numbered(items: seq<Item>, block: (Item, int) -> string): string {
    if items == [] then ""
    else
      var front := items[..|items| - 1];
      var it := items[|items| - 1];
      Numbered(front, block) + (if it.checkState == Failed then block(it, FailedCount(front) + 1) else "")
  }

  /** The failed items of a tier, numbered from 1. */
  function TierText(items: seq<Item>): string {
    Numbered(items, ItemText)
  }

  function TierBrief(items: seq<Item>): string {
    if items == [] then ""
    else
      var it := items[|items| - 1];
      TierBrief(items[..|items| - 1]) + (if it.checkState == Failed then ItemBrief(it) else "")
  }

  /** The first text: head, then each tier's failed items (both tiers always appear). */
  function ReportText(h: Header, low: seq<Category>, high: seq<Category>): string {
    HeaderText(h, Unchecked(low), Unchecked(high))
    + Banner(LowTitle) + TierText(Flat(low))
    + Banner(HighTitle) + TierText(Flat(high))
  }

  /** The second text, for the document export. */
  function BriefText(h: Header, low: seq<Category>, high: seq<Category>): string {
    HeaderText(h, Unchecked(low), Unchecked(high))
    + Banner(LowTitle) + TierBrief(Flat(low))
    + Banner(HighTitle) + TierBrief(Flat(high))
  }

  /* ---------------------------------------------------------------- */
  /* Generation                                                        */
  /* ---------------------------------------------------------------- */

  /** One more item extends both texts by its block when it failed, and nothing otherwise. */
  lemma TierStep(items: seq<Item>, it: Item)
    ensures TierText(items + [it]) == TierText(items) + (if it.checkState == Failed then ItemText(it, FailedCount(items) + 1) else "")
    ensures TierBrief(items + [it]) == TierBrief(items) + (if it.checkState == Failed then ItemBrief(it) else "")
    ensures FailedCount(items + [it]) == FailedCount(items) + (if it.checkState == Failed then 1 else 0)
  {
    LastOfAppend(items, it);
    TextStep(items, it);
    BriefStep(items, it);
  }

  lemma LastOfAppend<T>(items: seq<T>, it: T)
    ensures var s := items + [it]; s != [] && s[..|s| - 1] == items && s[|s| - 1] == it
  {
    var s := items + [it];
    assert s[..|s| - 1] == items;
  }

  lemma NumberedStep(items: seq<Item>, it: Item, block: (Item, int) -> string)
    ensures Numbered(items + [it], block) == Numbered(items, block) + (if it.checkState == Failed then block(it, FailedCount(items) + 1) else "")
  {
    LastOfAppend(items, it);
  }

  lemma TextStep(items: seq<Item>, it: Item)
    ensures TierText(items + [it]) == TierText(items) + (if it.checkState == Failed then ItemText(it, FailedCount(items) + 1) else "")
  {
    NumberedStep(items, it, ItemText);
  }

  lemma BriefStep(items: seq<Item>, it: Item)
    ensures TierBrief(items + [it]) == TierBrief(items) + (if it.checkState == Failed then ItemBrief(it) else "")
  {
    LastOfAppend(items, it);
  }

  /** The texts of one category's items, continuing those of the items before it. */
  method AddItems(done: seq<Item>, items: seq<Item>, text0: string, brief0: string, num0: int)
    returns (text: string, brief: string, num: int)
    requires text0 == TierText(done) && brief0 == TierBrief(done) && num0 == FailedCount(done) + 1
    ensures text == TierText(done + items) && brief == TierBrief(done + items)
    ensures num == FailedCount(done + items) + 1
  {
    text, brief, num := text0, brief0, num0;
    ghost var seen := done;
    var j := 0;
    while j < |items|
      invariant 0 <= j <= |items| && seen == done + items[..j]
      invariant text == TierText(seen) && brief == TierBrief(seen) && num == FailedCount(seen) + 1
    {
      text, brief, num := AddItem(seen, items[j], text, brief, num);
      PrefixNext(done, items, j);
      seen := seen + [items[j]];
      j := j + 1;
    }
    assert items[..j] == items;
  }

  /** One item's blocks, numbered after the failed items before it, when it failed. */
  method AddItem(ghost seen: seq<Item>, it: Item, text0: string, brief0: string, num0: int)
    returns (text: string, brief: string, num: int)
    requires text0 == TierText(seen) && brief0 == TierBrief(seen) && num0 == FailedCount(seen) + 1
    ensures text == TierText(seen + [it]) && brief == TierBrief(seen + [it]) && num == FailedCount(seen + [it]) + 1
  {
    TierStep(seen, it);
    text, brief, num := text0, brief0, num0;
    if it.checkState == Failed {
      text := text + ItemText(it, num);
      brief := brief + ItemBrief(it);
      num := num + 1;
    }
  }

  /** The two texts of one tier, walking categories and items with the error counter. */
  method TierTexts(cats: seq<Category>) returns (text: string, brief: string)
    ensures text == TierText(Flat(cats)) && brief == TierBrief(Flat(cats))
  {
    text := "";
    brief := "";
    var num := 1;
    var i := 0;
    while i < |cats|
      invariant 0 <= i <= |cats|
      invariant text == TierText(Flat(cats[..i])) && brief == TierBrief(Flat(cats[..i]))
      invariant num == FailedCount(Flat(cats[..i])) + 1
    {
      assert cats[..i + 1][..i] == cats[..i];
      text, brief, num := AddItems(Flat(cats[..i]), cats[i].items, text, brief, num);
      i := i + 1;
    }
    assert cats[..i] == cats;
  }

  /** Filling descriptions changes neither the states nor the numbers. */
  lemma FilledKeepsUnchecked(cats: seq<Category>)
    ensures Unchecked(MapCats(cats, Filled)) == Unchecked(cats)
  {
    UncheckedFlat(cats);
    UncheckedFlat(MapCats(cats, Filled));
    FlatMap(cats, Filled);
    MapUndefined(Flat(cats));
  }

  lemma {:induction false} MapUndefined(items: seq<Item>)
    ensures UndefinedIn(MapItems(items, Filled)) == UndefinedIn(items)
    decreases |items|
  {
    if items != [] {
      var front := items[..|items| - 1];
      assert MapItems(items, Filled)[..|front|] == MapItems(front, Filled);
      MapUndefined(front);
    }
  }

  /**
   * `_generate_report`: the head with each present model's undefined
   * numbers, then for each tier the failed items, whose empty descriptions
   * are first filled from the catalogue.
   */
  method GenerateReport(h: Header, lp: Checklist, hp: Checklist) returns (text: string, brief: string)
    requires lp != hp
    modifies lp, hp
    ensures lp.categories == MapCats(old(lp.categories), Filled) && lp.totals == old(lp.totals)
    ensures hp.categories == MapCats(old(hp.categories), Filled) && hp.totals == old(hp.totals)
    ensures text == ReportText(WithPercents(h, old(lp.totals), old(hp.totals)), lp.categories, hp.categories)
    ensures brief == BriefText(WithPercents(h, old(lp.totals), old(hp.totals)), lp.categories, hp.categories)
  {
    var hd := h.(lowPercent := Percent(lp.totals.all), highPercent := Percent(hp.totals.all));
    var lowNums := lp.DontCheckedNums();
    var highNums := hp.DontCheckedNums();
    var head := HeaderText(hd, lowNums, highNums);
    lp.UpdateItems(Filled);
    hp.UpdateItems(Filled);
    FilledKeepsUnchecked(old(lp.categories));
    FilledKeepsUnchecked(old(hp.categories));
    var lowText, lowBrief := TierTexts(lp.categories);
    var highText, highBrief := TierTexts(hp.categories);
    text := head + Banner(LowTitle) + lowText + Banner(HighTitle) + highText;
    brief := head + Banner(LowTitle) + lowBrief + Banner(HighTitle) + highBrief;
  }

  /* ---------------------------------------------------------------- */
  /* Loading a saved report                                            */
  /* ---------------------------------------------------------------- */

  /**
   * What the reader collects: the failed numbers of each tier, whether the
   * high-poly part has begun, and each tier's list of unchecked numbers.
   */
  datatype Loaded = Loaded(failedLow: seq<string>, failedHigh: seq<string>, high: bool, notLow: seq<string>, notHigh: seq<string>)

  const Start := Loaded([], [], false, [], [])

  /** The numbers after " - " on an "all checked except" line; `None` where indexing raises. */
  function ExceptNums(line: string): Option<seq<string>> {
    var parts := SplitStr(line, " - ");
    if |parts| < 2 then None else Some(SplitStr(Strip(parts[1]), ", "))
  }

  /** One line of the saved file, its line break included; `None` where the source raises. */
  function LoadLine(st: Loaded, line: string): Option<Loaded> {
    if Contains(line, LowExcept) then
      match ExceptNums(line)
      case None => None
      case Some(nums) => Some(st.(notLow := nums))
    else if Contains(line, HighExcept) then
      match ExceptNums(line)
      case None => None
      case Some(nums) => Some(st.(notHigh := nums))
    else if Contains(line, HighTitle) then Some(st.(high := true))
    else if StartsWith(line, ErrorMark) then
      var tokens := Split(line, ' ');
      if |tokens| < 4 then None
      else
        var num := StripChar(tokens[3], '.');
        Some(if st.high then st.(failedHigh := st.failedHigh + [num]) else st.(failedLow := st.failedLow + [num]))
    else Some(st)
  }

  function LoadLines(st: Option<Loaded>, lines: seq<string>): Option<Loaded> {
    if lines == [] then st
    else
      match LoadLines(st, lines[..|lines| - 1])
      case None => None
      case Some(s) => LoadLine(s, lines[|lines| - 1])
  }

  /** The reading of a whole saved report. */
  function LoadText(text: string): Option<Loaded> {
    LoadLines(Some(Start), ReadLines(text))
  }

  lemma {:induction false} LoadLinesNone(lines: seq<string>)
    ensures LoadLines(None, lines) == None
    decreases |lines|
  {
    if lines != [] {
      LoadLinesNone(lines[..|lines| - 1]);
    }
  }

  /** Reading two parts one after the other. */
  lemma {:induction false} LoadLinesAppend(st: Option<Loaded>, a: seq<string>, b: seq<string>)
    ensures LoadLines(st, a + b) == LoadLines(LoadLines(st, a), b)
    decreases |b|
  {
    if b == [] {
      assert a + b == a;
    } else {
      assert (a + b)[..|a + b| - 1] == a + b[..|b| - 1];
      LoadLinesAppend(st, a, b[..|b| - 1]);
    }
  }

  /** The state a loaded report gives an item: failed if listed as failed, verified unless listed as unchecked. */
  function Applied(it: Item, failed: seq<string>, notChecked: seq<string>): Item {
    if it.reqNum in failed then it.(checkState := Failed, check := false)
    else if it.reqNum !in notChecked then it.(checkState := Verified, check := true)
    else it
  }

  function ApplyFn(failed: seq<string>, notChecked: seq<string>): Item -> Item {
    it => Applied(it, failed, notChecked)
  }

  /** The loaded report assigns the `check` flag of at least one item of the checklist. */
  predicate LoadTouches(cats: seq<Category>, failed: seq<string>, notChecked: seq<string>) {
    exists i, j | 0 <= i < |cats| && 0 <= j < |cats[i].items| ::
      cats[i].items[j].reqNum in failed || cats[i].items[j].reqNum !in notChecked
  }

  /** A checklist after a loaded report: the new states, then the update run by the flags assigned. */
  function AfterLoad(cats: seq<Category>, t: Totals, failed: seq<string>, notChecked: seq<string>): (r: (seq<Category>, Totals))
    ensures LoadTouches(cats, failed, notChecked) ==> r == Updated(MapCats(cats, ApplyFn(failed, notChecked)), t)
    ensures !LoadTouches(cats, failed, notChecked) ==> r == (cats, t)
  {
    var x := MapCats(cats, ApplyFn(failed, notChecked));
    if LoadTouches(cats, failed, notChecked) then Updated(x, t)
    else
      UntouchedLoad(cats, failed, notChecked);
      (x, t)
  }

  lemma UntouchedLoad(cats: seq<Category>, failed: seq<string>, notChecked: seq<string>)
    requires !LoadTouches(cats, failed, notChecked)
    ensures MapCats(cats, ApplyFn(failed, notChecked)) == cats
  {
    var x := MapCats(cats, ApplyFn(failed, notChecked));
    forall i | 0 <= i < |cats|
      ensures x[i] == cats[i]
    {
      assert x[i].items == cats[i].items;
    }
  }

  /** The reading loop: each line is appended to the copy for the text editor and then inspected. */
  method ReadReport(text: string) returns (r: Option<Loaded>, copy: string)
    ensures r == LoadText(text)
    ensures r.Some? ==> copy == text
  {
    var lines := ReadLines(text);
    var st := Start;
    copy := "";
    var i := 0;
    while i < |lines|
      invariant 0 <= i <= |lines|
      invariant LoadLines(Some(Start), lines[..i]) == Some(st)
      invariant copy == Concat(lines[..i])
    {
      assert lines[..i + 1][..i] == lines[..i];
      copy := copy + lines[i];
      var next := LoadLine(st, lines[i]);
      if next.None? {
        LoadLinesNone(lines[i + 1..]);
        LoadLinesAppend(Some(Start), lines[..i + 1], lines[i + 1..]);
        assert lines[..i + 1] + lines[i + 1..] == lines;
        return None, copy;
      }
      st := next.value;
      i := i + 1;
    }
    assert lines[..i] == lines;
    ReadLinesConcat(text);
    r := Some(st);
  }

  /**
   * `load_report`: only a ".txt" path is read; if reading succeeds, the
   * failed numbers become failed and every other item not listed as
   * unchecked becomes verified, in both checklists.
   */
  method LoadReport(path: string, text: string, lp: Checklist, hp: Checklist) returns (r: Option<Loaded>)
    requires lp != hp
    modifies lp, hp
    ensures r == (if EndsWith(path, ".txt") then LoadText(text) else None)
    ensures r.None? ==> lp.categories == old(lp.categories) && hp.categories == old(hp.categories)
    ensures r.None? ==> lp.totals == old(lp.totals) && hp.totals == old(hp.totals)
    ensures r.Some? ==> (lp.categories, lp.totals) == AfterLoad(old(lp.categories), old(lp.totals), r.value.failedLow, r.value.notLow)
    ensures r.Some? ==> (hp.categories, hp.totals) == AfterLoad(old(hp.categories), old(hp.totals), r.value.failedHigh, r.value.notHigh)
  {
    if !EndsWith(path, ".txt") {
      return None;
    }
    var copy;
    r, copy := ReadReport(text);
    if r.Some? {
      var st := r.value;
      var lpTouched := LoadTouches(lp.categories, st.failedLow, st.notLow);
      var hpTouched := LoadTouches(hp.categories, st.failedHigh, st.notHigh);
      lp.UpdateItems(ApplyFn(st.failedLow, st.notLow));
      lp.AfterChecks(lpTouched);
      hp.UpdateItems(ApplyFn(st.failedHigh, st.notHigh));
      hp.AfterChecks(hpTouched);
    }
  }
}
