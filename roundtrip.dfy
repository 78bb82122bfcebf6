/**
 * Reading back a generated report: under the conditions an inspector's texts
 * normally meet, `load_report` recovers exactly the failed numbers and the
 * unchecked numbers of both tiers, so loading a generated report into a
 * freshly built checklist restores every item's state.
 */
module ReportRoundTrip {
  import opened Wrappers
  import opened Text
  import opened Lines
  import opened Checklist
  import opened Report

  /* ---------------------------------------------------------------- */
  /* Lines the reader passes over                                      */
  /* ---------------------------------------------------------------- */

  /** A line none of the reader's four tests picks up. */
  predicate Quiet(l: string) {
    !Contains(l, LowExcept) && !Contains(l, HighExcept) && !Contains(l, HighTitle) && !StartsWith(l, ErrorMark)
  }

  /** Lines without 'ы' contain none of the three searched phrases. */
  lemma LacksPhrases(l: string)
    requires !ContainsChar(l, 'ы')
    ensures !Contains(l, LowExcept) && !Contains(l, HighExcept) && !Contains(l, HighTitle)
  {
    assert LowExcept[13] == 'ы' && HighExcept[13] == 'ы' && HighTitle[1] == 'ы';
    CharBlocks(l, LowExcept, 13);
    CharBlocks(l, HighExcept, 13);
    CharBlocks(l, HighTitle, 1);
  }

  /** A line break added to a quiet line keeps it quiet. */
  lemma QuietNewline(l: string)
    requires Quiet(l)
    ensures Quiet(l + "\n")
  {
    assert !ContainsChar(LowExcept, '\n') && !ContainsChar(HighExcept, '\n') && !ContainsChar(HighTitle, '\n');
    assert !ContainsChar(ErrorMark, '\n');
    NewlineBlocks(l, LowExcept);
    NewlineBlocks(l, HighExcept);
    NewlineBlocks(l, HighTitle);
    StartsWithNewline(l, ErrorMark);
  }

  /** Lines of free text the reader passes over: no searched phrase and no "----" at the start. */
  predicate Plain(l: string) {
    !Contains(l, LowExcept) && !Contains(l, HighExcept) && !Contains(l, HighTitle) && !StartsWith(l, "----")
  }

  predicate PlainText(x: string) {
    var ls := Split(x, '\n');
    forall i :: 0 <= i < |ls| ==> Plain(ls[i])
  }

  /** A one-line plain text, such as an item's name. */
  predicate OneLine(l: string) {
    Plain(l) && !ContainsChar(l, '\n')
  }

  /** Empty, or plain lines each ended by a line break, as the automatic error lines are. */
  predicate PlainBlock(e: string) {
    e == "" || (e[|e| - 1] == '\n' && PlainText(e[..|e| - 1]))
  }

  /** A requirement number such as "2.3.6": digits and dots, neither first nor last a dot. */
  predicate IdText(s: string) {
    |s| > 0 && s[0] != '.' && s[|s| - 1] != '.' && forall i :: 0 <= i < |s| ==> IsDigit(s[i]) || s[i] == '.'
  }

  lemma PlainQuiet(l: string)
    requires Plain(l)
    ensures Quiet(l)
  {
    StartsWithShorter(l, ErrorMark, 4);
    assert ErrorMark[..4] == "----";
  }

  /* ---------------------------------------------------------------- */
  /* Reading a text part by part                                       */
  /* ---------------------------------------------------------------- */

  /** The reader run over the lines of a text, from a given state. */
  function Run(st: Option<Loaded>, text: string): Option<Loaded> {
    LoadLines(st, ReadLines(text))
  }

  lemma RunAppend(st: Option<Loaded>, a: string, b: string)
    requires Terminated(a)
    ensures Run(st, a + b) == Run(Run(st, a), b)
  {
    ReadLinesAppend(a, b);
    LoadLinesAppend(st, ReadLines(a), ReadLines(b));
  }

  lemma {:induction false} QuietLines(st: Loaded, ls: seq<string>)
    requires forall i :: 0 <= i < |ls| ==> Quiet(ls[i])
    ensures LoadLines(Some(st), ls) == Some(st)
    decreases |ls|
  {
    if ls != [] {
      QuietLines(st, ls[..|ls| - 1]);
    }
  }

  /** A text of one line is read as that line. */
  lemma OneLineRun(st: Loaded, l: string)
    requires !ContainsChar(l, '\n')
    ensures Run(Some(st), l + "\n") == LoadLine(st, l + "\n")
  {
    ReadLinesLine(l);
    var ls := [l + "\n"];
    assert ls[..0] == [];
    assert LoadLines(Some(st), ls[..0]) == Some(st);
    assert Run(Some(st), l + "\n") == LoadLines(Some(st), ls);
  }

  /** A quiet line with its line break leaves the reader as it was. */
  lemma QuietLine(st: Loaded, l: string)
    requires Quiet(l) && !ContainsChar(l, '\n')
    ensures Run(Some(st), l + "\n") == Some(st)
  {
    OneLineRun(st, l);
    QuietNewline(l);
  }

  /** So does a plain text with its line break. */
  lemma PlainRun(st: Loaded, x: string)
    requires PlainText(x)
    ensures Run(Some(st), x + "\n") == Some(st)
  {
    ReadLinesText(x);
    var ls := Split(x, '\n');
    forall i | 0 <= i < |ls| ensures Quiet(ls[i] + "\n") {
      PlainQuiet(ls[i]);
      QuietNewline(ls[i]);
    }
    QuietLines(st, Terminate(ls));
  }

  lemma PlainBlockRun(st: Loaded, e: string)
    requires PlainBlock(e)
    ensures Terminated(e) && Run(Some(st), e) == Some(st)
  {
    if e != "" {
      assert e == e[..|e| - 1] + "\n";
      PlainRun(st, e[..|e| - 1]);
    }
  }

  /** A label whose characters cannot begin a searched phrase or a "----" mark. */
  predicate Label(p: string) {
    p != "" && p[0] != '-' && !ContainsChar(p, '\n') && !ContainsChar(p, 'Н') && !ContainsChar(p, 'В')
  }

  lemma LabelledQuiet(p: string, l: string)
    requires Label(p) && Plain(l)
    ensures Quiet(p + l + "\n")
  {
    PlainQuiet(l);
    QuietNewline(l);
    assert p + l + "\n" == p + (l + "\n");
    assert LowExcept[0] == 'Н' && HighExcept[0] == 'В' && HighTitle[0] == 'В';
    FirstCharBlocks(p, l + "\n", LowExcept);
    FirstCharBlocks(p, l + "\n", HighExcept);
    FirstCharBlocks(p, l + "\n", HighTitle);
    StartsDiffer(p + l + "\n", ErrorMark, 0);
  }

  /** A labelled plain text, such as the address line, leaves the reader as it was. */
  lemma LabelledRun(st: Loaded, p: string, x: string)
    requires Label(p) && PlainText(x)
    ensures Run(Some(st), p + x + "\n") == Some(st)
  {
    ReadLinesPrefixed(p, x);
    var q := Split(x, '\n');
    var ls := [p + q[0]] + q[1..];
    forall i | 0 <= i < |ls| ensures Quiet(ls[i] + "\n") {
      if i == 0 {
        LabelledQuiet(p, q[0]);
      } else {
        assert ls[i] == q[i];
        PlainQuiet(q[i]);
        QuietNewline(q[i]);
      }
    }
    QuietLines(st, Terminate(ls));
  }

  /* ---------------------------------------------------------------- */
  /* The fixed lines                                                   */
  /* ---------------------------------------------------------------- */

  lemma EmptyLine(st: Loaded)
    ensures Run(Some(st), "\n") == Some(st)
  {
    assert "" + "\n" == "\n";
    assert !ContainsChar("", 'ы');
    LacksPhrases("");
    QuietLine(st, "");
  }

  /** A fixed line without 'ы' that differs from the error mark at `k`. */
  lemma FixedLine(st: Loaded, l: string, k: nat)
    requires !ContainsChar(l, 'ы') && !ContainsChar(l, '\n')
    requires k < |ErrorMark| && k < |l| && l[k] != ErrorMark[k]
    ensures Run(Some(st), l + "\n") == Some(st)
  {
    LacksPhrases(l);
    StartsDiffer(l, ErrorMark, k);
    QuietLine(st, l);
  }

  lemma TitleRun(st: Loaded)
    ensures Terminated(TitleBlock()) && Run(Some(st), TitleBlock()) == Some(st)
  {
    assert !ContainsChar(ReportTitle, 'ы') && !ContainsChar(ReportTitle, '\n') && ReportTitle[4] == '-';
    FixedLine(st, ReportTitle, 4);
    RunAppend(Some(st), ReportTitle + "\n", "\n");
    EmptyLine(st);
  }

  /** Long fixed lines are written in pieces; a character none of three pieces holds is not in the line. */
  lemma Lacks(a: string, b: string, c: string, ch: char)
    requires !ContainsChar(a, ch) && !ContainsChar(b, ch) && !ContainsChar(c, ch)
    ensures !ContainsChar(a + b + c, ch)
  {
    ContainsCharAppend(a, b, ch);
    ContainsCharAppend(a + b, c, ch);
  }

  lemma NumberingLine()
    ensures !ContainsChar(Numbering, 'ы') && !ContainsChar(Numbering, '\n')
  {
    var n1, n2, n3 := "Нумерация пунктов взята из ", "требований, сокращенная ", "запись - Таблица.Пункт.Подпункт";
    assert !ContainsChar(n1, 'ы') && !ContainsChar(n1, '\n');
    assert !ContainsChar(n2, 'ы') && !ContainsChar(n2, '\n');
    assert !ContainsChar(n3, 'ы') && !ContainsChar(n3, '\n');
    Lacks(n1, n2, n3, 'ы');
    Lacks(n1, n2, n3, '\n');
  }

  /** The link line has an 'ы' ("Ссылка"), but no capital 'П' or 'В'. */
  lemma LinkLine()
    ensures !ContainsChar(RequirementsLink, 'П') && !ContainsChar(RequirementsLink, 'В') && !ContainsChar(RequirementsLink, '\n')
  {
    var r1, r2, r3, r4, r5 := "Ссылка на требования: ", "https://www.mos.ru/mka/", "function/gosudarstvennye-", "uslugi/svidetelstvo-ob-", "utverzhdenii-agr/";
    assert !ContainsChar(r1, 'П') && !ContainsChar(r1, 'В') && !ContainsChar(r1, '\n');
    assert !ContainsChar(r2, 'П') && !ContainsChar(r2, 'В') && !ContainsChar(r2, '\n');
    assert !ContainsChar(r3, 'П') && !ContainsChar(r3, 'В') && !ContainsChar(r3, '\n');
    assert !ContainsChar(r4, 'П') && !ContainsChar(r4, 'В') && !ContainsChar(r4, '\n');
    assert !ContainsChar(r5, 'П') && !ContainsChar(r5, 'В') && !ContainsChar(r5, '\n');
    Lacks(r1, r2, r3, 'П');
    Lacks(r1 + r2 + r3, r4, r5, 'П');
    Lacks(r1, r2, r3, 'В');
    Lacks(r1 + r2 + r3, r4, r5, 'В');
    Lacks(r1, r2, r3, '\n');
    Lacks(r1 + r2 + r3, r4, r5, '\n');
  }

  /** Lines without a capital 'П' or 'В' contain none of the three searched phrases either. */
  lemma LacksCapitals(l: string)
    requires !ContainsChar(l, 'П') && !ContainsChar(l, 'В')
    ensures !Contains(l, LowExcept) && !Contains(l, HighExcept) && !Contains(l, HighTitle)
  {
    assert LowExcept[1] == 'П' && HighExcept[1] == 'П' && HighTitle[0] == 'В';
    CharBlocks(l, LowExcept, 1);
    CharBlocks(l, HighExcept, 1);
    CharBlocks(l, HighTitle, 0);
  }

  lemma PreparedLine()
    ensures !ContainsChar(PreparedBy, 'ы') && !ContainsChar(PreparedBy, '\n')
  {
    var p1, p2, p3 := "Отчет подготовлен с помощью ", "плагина Sintez AGR Checker: ", "https://sintez.space/";
    assert !ContainsChar(p1, 'ы') && !ContainsChar(p1, '\n');
    assert !ContainsChar(p2, 'ы') && !ContainsChar(p2, '\n');
    assert !ContainsChar(p3, 'ы') && !ContainsChar(p3, '\n');
    Lacks(p1, p2, p3, 'ы');
    Lacks(p1, p2, p3, '\n');
  }

  lemma ClosingRun(st: Loaded)
    ensures Terminated(ClosingBlock()) && Run(Some(st), ClosingBlock()) == Some(st)
  {
    NumberingLine();
    LinkLine();
    PreparedLine();
    FixedLine(st, Numbering, 0);
    LacksCapitals(RequirementsLink);
    StartsDiffer(RequirementsLink, ErrorMark, 0);
    QuietLine(st, RequirementsLink);
    FixedLine(st, PreparedBy, 0);
    EmptyLine(st);
    var a := Numbering + "\n";
    var b := RequirementsLink + "\n";
    var c := PreparedBy + "\n";
    RunAppend(Some(st), a, b);
    TerminatedAppend(a, b);
    RunAppend(Some(st), a + b, c);
    TerminatedAppend(a + b, c);
    RunAppend(Some(st), a + b + c, "\n");
    TerminatedAppend(a + b + c, "\n");
    RunAppend(Some(st), a + b + c + "\n", "\n");
  }

  /* ---------------------------------------------------------------- */
  /* The head of the report                                            */
  /* ---------------------------------------------------------------- */

  /** Two terminated parts are read one after the other. */
  lemma RunThen(st: Option<Loaded>, a: string, b: string)
    requires Terminated(a) && Terminated(b)
    ensures Terminated(a + b) && Run(st, a + b) == Run(Run(st, a), b)
  {
    TerminatedAppend(a, b);
    RunAppend(st, a, b);
  }

  lemma PadLacks(n: nat, c: char)
    requires !IsDigit(c)
    ensures !ContainsChar(Pad2(n), c)
  {
    var s := NatToString(n);
    NumeralLacks(n, c);
    var r := Pad2(n);
    var k := |r| - |s|;
    forall i | 0 <= i < |r| ensures r[i] != c {
      if i >= k {
        assert r[i] == r[k..][i - k];
      }
    }
  }

  /** A piece of the date line: a two-digit number between separators. */
  lemma PieceLacks(a: string, n: nat, sep: string, c: char)
    requires !IsDigit(c) && !ContainsChar(a, c) && !ContainsChar(sep, c)
    ensures !ContainsChar(a + Pad2(n) + sep, c)
  {
    PadLacks(n, c);
    Lacks(a, Pad2(n), sep, c);
  }

  /** The date line holds the label, digits, dots, a space and a colon only. */
  lemma DateLacks(t: Stamp, c: char)
    requires !IsDigit(c) && c != '.' && c != ' ' && c != ':' && !ContainsChar(DateLabel, c)
    ensures !ContainsChar(DateLine(t), c)
  {
    assert !ContainsChar(".", c) && !ContainsChar(" ", c) && !ContainsChar(":", c) && !ContainsChar("", c);
    var x1 := DateLabel + Pad2(t.day) + ".";
    PieceLacks(DateLabel, t.day, ".", c);
    var x2 := x1 + Pad2(t.month) + ".";
    PieceLacks(x1, t.month, ".", c);
    var x3 := x2 + NatToString(t.year) + " ";
    NumeralLacks(t.year, c);
    Lacks(x2, NatToString(t.year), " ", c);
    var x4 := x3 + Pad2(t.hour) + ":";
    PieceLacks(x3, t.hour, ":", c);
    PieceLacks(x4, t.minute, "", c);
    assert x4 + Pad2(t.minute) + "" == DateLine(t);
  }

  lemma DateRun(st: Loaded, t: Stamp)
    ensures Terminated(DateBlock(t)) && Run(Some(st), DateBlock(t)) == Some(st)
  {
    assert !ContainsChar(DateLabel, 'ы') && !ContainsChar(DateLabel, '\n');
    DateLacks(t, 'ы');
    DateLacks(t, '\n');
    assert DateLine(t)[0] == DateLabel[0];
    FixedLine(st, DateLine(t), 0);
  }

  lemma AddressRun(st: Loaded, address: string)
    requires PlainText(address)
    ensures Terminated(AddressBlock(address)) && Run(Some(st), AddressBlock(address)) == Some(st)
  {
    assert !ContainsChar(AddressLabel, '\n') && !ContainsChar(AddressLabel, 'Н') && !ContainsChar(AddressLabel, 'В');
    LabelledRun(st, AddressLabel, address);
  }

  lemma AuthorRun(st: Loaded, author: string)
    requires PlainText(author)
    ensures Terminated(AuthorBlock(author)) && Run(Some(st), AuthorBlock(author)) == Some(st)
  {
    EmptyLine(st);
    if author != "" {
      assert !ContainsChar(AuthorLabel, '\n') && !ContainsChar(AuthorLabel, 'Н') && !ContainsChar(AuthorLabel, 'В');
      LabelledRun(st, AuthorLabel, author);
      RunThen(Some(st), AuthorLabel + author + "\n", "\n");
    }
  }

  /** The progress line of a present model, such as "НПМ модель соответствует требованиям на 75%". */
  lemma ProgressRun(st: Loaded, tag: string, percent: int)
    requires tag == LowTag || tag == HighTag
    ensures Run(Some(st), tag + ProgressText + IntToString(percent) + "%" + "\n") == Some(st)
  {
    assert !ContainsChar(tag, 'ы') && !ContainsChar(tag, '\n');
    assert !ContainsChar(ProgressText, 'ы') && !ContainsChar(ProgressText, '\n');
    assert !ContainsChar("%", 'ы') && !ContainsChar("%", '\n');
    IntNumeralLacks(percent, 'ы');
    IntNumeralLacks(percent, '\n');
    var n := tag + ProgressText + IntToString(percent);
    Lacks(tag, ProgressText, IntToString(percent), 'ы');
    Lacks(tag, ProgressText, IntToString(percent), '\n');
    ContainsCharAppend(n, "%", 'ы');
    ContainsCharAppend(n, "%", '\n');
    assert (n + "%")[0] == tag[0];
    FixedLine(st, n + "%", 0);
  }

  /** Requirement numbers, each one `IdText`. */
  predicate IdTexts(nums: seq<string>) {
    forall k :: 0 <= k < |nums| ==> IdText(nums[k])
  }

  lemma IdLacks(s: string, c: char)
    requires IdText(s) && !IsDigit(c) && c != '.'
    ensures !ContainsChar(s, c)
  {
  }

  /** Requirement numbers joined by ", " lack a character that is neither a digit, a dot, a comma nor a space. */
  lemma IdsLack(nums: seq<string>, c: char)
    requires IdTexts(nums) && !IsDigit(c) && c != '.' && c != ',' && c != ' '
    ensures !ContainsChar(Join(nums, ", "), c)
  {
    forall k | 0 <= k < |nums| ensures !ContainsChar(nums[k], c) {
      IdLacks(nums[k], c);
    }
    assert !ContainsChar(", ", c);
    JoinLacks(nums, ", ", c);
  }

  /** What an "all checked except" line records. */
  function Noted(st: Loaded, low: bool, nums: seq<string>): Loaded {
    if low then st.(notLow := nums) else st.(notHigh := nums)
  }

  /** Neither "all checked except" phrase holds a hyphen. */
  lemma ExceptsLack()
    ensures !ContainsChar(LowExcept, '-') && !ContainsChar(HighExcept, '-')
  {
  }

  /** Split at " - ", the line falls into the phrase and the list with its line break. */
  lemma ExceptParts(except: string, j: string)
    requires !ContainsChar(except, '-') && !ContainsChar(j, '-')
    ensures SplitStr(except + " - " + j + "\n", " - ") == [except, j + "\n"]
  {
    var sep := " - ";
    assert !ContainsChar("\n", '-');
    ContainsCharAppend(j, "\n", '-');
    var x := sep + (j + "\n");
    AppendAssoc(except + sep, j, "\n");
    AppendAssoc(except, sep, j + "\n");
    SplitStrPrefix(except, x, sep);
    SplitStrSep(sep, j + "\n");
    SplitStrPrefix(j + "\n", "", sep);
    assert j + "\n" + "" == j + "\n";
    assert except + "" == except;
  }

  /** The listed numbers, joined, begin and end with a digit. */
  lemma JoinDigitEnds(nums: seq<string>)
    requires nums != [] && IdTexts(nums)
    ensures var j := Join(nums, ", "); |j| > 0 && IsDigit(j[0]) && IsDigit(j[|j| - 1])
  {
    JoinEnds(nums, ", ");
    var last := nums[|nums| - 1];
    assert IdText(nums[0]) && IdText(last);
  }

  /** ... and so have no white space to strip. */
  lemma JoinStrip(nums: seq<string>)
    requires nums != [] && IdTexts(nums)
    ensures Strip(Join(nums, ", ") + "\n") == Join(nums, ", ")
  {
    var j := Join(nums, ", ");
    JoinDigitEnds(nums);
    assert !IsSpace(j[0]) && !IsSpace(j[|j| - 1]);
    StripNoSpaceEnds(j);
    assert AllSpace("\n");
    StripAppendSpace(j, "\n");
  }

  /** The numbers of an "all checked except" line are read back as written. */
  lemma ExceptNumsJoin(except: string, nums: seq<string>)
    requires except == LowExcept || except == HighExcept
    requires nums != [] && IdTexts(nums)
    ensures ExceptNums(ExceptLine(except, nums) + "\n") == Some(nums)
  {
    var j := Join(nums, ", ");
    IdsLack(nums, '-');
    assert !ContainsChar(except, '-') by { ExceptsLack(); }
    ExceptParts(except, j);
    JoinStrip(nums);
    forall k | 0 <= k < |nums| ensures !ContainsChar(nums[k], ' ') {
      IdLacks(nums[k], ' ');
    }
    SplitStrJoin(nums, ", ");
  }

  /** An "all checked except" line is one line; the high-poly one has no capital 'Н'. */
  lemma ExceptLineLacks(except: string, nums: seq<string>, c: char)
    requires except == LowExcept || except == HighExcept
    requires IdTexts(nums) && (c == '\n' || (c == 'Н' && except == HighExcept))
    ensures !ContainsChar(ExceptLine(except, nums) + "\n", c) <==> c != '\n'
    ensures !ContainsChar(ExceptLine(except, nums), c)
  {
    IdsLack(nums, c);
    assert !ContainsChar(except, c) && !ContainsChar(" - ", c);
    Lacks(except, " - ", Join(nums, ", "), c);
    ContainsCharAppend(ExceptLine(except, nums), "\n", c);
    assert ("\n")[0] == '\n';
  }

  /** The reader's test of the low-poly "all checked except" line. */
  lemma ExceptLoadLow(st: Loaded, nums: seq<string>)
    requires nums != [] && IdTexts(nums)
    ensures LoadLine(st, ExceptLine(LowExcept, nums) + "\n") == Some(Noted(st, true, nums))
  {
    ExceptNumsJoin(LowExcept, nums);
    ContainsLead(LowExcept, " - ", Join(nums, ", "), "\n");
  }

  /** The reader's test of the high-poly "all checked except" line, which the low-poly phrase does not match. */
  lemma ExceptLoadHigh(st: Loaded, nums: seq<string>)
    requires nums != [] && IdTexts(nums)
    ensures LoadLine(st, ExceptLine(HighExcept, nums) + "\n") == Some(Noted(st, false, nums))
  {
    var l := ExceptLine(HighExcept, nums) + "\n";
    ExceptNumsJoin(HighExcept, nums);
    ContainsLead(HighExcept, " - ", Join(nums, ", "), "\n");
    ExceptLineLacks(HighExcept, nums, 'Н');
    CharBlocks(l, LowExcept, 0);
  }

  /** The reader's test of an "all checked except" line. */
  lemma ExceptLoad(st: Loaded, low: bool, nums: seq<string>)
    requires nums != [] && IdTexts(nums)
    ensures LoadLine(st, ExceptLine(if low then LowExcept else HighExcept, nums) + "\n") == Some(Noted(st, low, nums))
  {
    if low {
      ExceptLoadLow(st, nums);
    } else {
      ExceptLoadHigh(st, nums);
    }
  }

  /** An "all checked except" line records its numbers for its tier. */
  lemma ExceptRun(st: Loaded, low: bool, nums: seq<string>)
    requires nums != [] && IdTexts(nums)
    ensures Run(Some(st), ExceptLine(if low then LowExcept else HighExcept, nums) + "\n") == Some(Noted(st, low, nums))
  {
    var l := ExceptLine(if low then LowExcept else HighExcept, nums);
    ExceptLineLacks(if low then LowExcept else HighExcept, nums, '\n');
    OneLineRun(st, l);
    ExceptLoad(st, low, nums);
  }

  /** A present model's summary; its numbers are recorded when there are any. */
  lemma SummaryRun(st: Loaded, low: bool, present: bool, percent: int, nums: seq<string>)
    requires IdTexts(nums)
    ensures var b := SummaryBlock(present, if low then LowTag else HighTag, if low then LowExcept else HighExcept, percent, nums);
      Terminated(b) && Run(Some(st), b) == Some(if present && nums != [] then Noted(st, low, nums) else st)
  {
    var tag := if low then LowTag else HighTag;
    var except := if low then LowExcept else HighExcept;
    if present {
      var a := tag + ProgressText + IntToString(percent) + "%" + "\n";
      var b := if nums != [] then ExceptLine(except, nums) + "\n" else "";
      ProgressRun(st, tag, percent);
      var s1 := if nums != [] then Noted(st, low, nums) else st;
      if nums != [] {
        ExceptRun(st, low, nums);
      }
      RunThen(Some(st), a, b);
      EmptyLine(s1);
      RunThen(Some(st), a + b, "\n");
    }
  }

  /** The head records the unchecked numbers of each present model and nothing else. */
  lemma HeaderRun(h: Header, lowNums: seq<string>, highNums: seq<string>)
    requires PlainText(h.address) && PlainText(h.author) && IdTexts(lowNums) && IdTexts(highNums)
    ensures Terminated(HeaderText(h, lowNums, highNums))
    ensures Run(Some(Start), HeaderText(h, lowNums, highNums))
      == Some(Start.(notLow := if h.hasLowpoly then lowNums else [], notHigh := if h.hasHighpoly then highNums else []))
  {
    var t1, t2, t3, t4 := TitleBlock(), AddressBlock(h.address), DateBlock(h.stamp), AuthorBlock(h.author);
    var t5 := SummaryBlock(h.hasLowpoly, LowTag, LowExcept, h.lowPercent, lowNums);
    var t6 := SummaryBlock(h.hasHighpoly, HighTag, HighExcept, h.highPercent, highNums);
    var t7 := ClosingBlock();
    TitleRun(Start);
    AddressRun(Start, h.address);
    DateRun(Start, h.stamp);
    AuthorRun(Start, h.author);
    SummaryRun(Start, true, h.hasLowpoly, h.lowPercent, lowNums);
    var s1 := Start.(notLow := if h.hasLowpoly then lowNums else []);
    SummaryRun(s1, false, h.hasHighpoly, h.highPercent, highNums);
    var s2 := s1.(notHigh := if h.hasHighpoly then highNums else []);
    ClosingRun(s2);
    RunThen(Some(Start), t1, t2);
    RunThen(Some(Start), t1 + t2, t3);
    RunThen(Some(Start), t1 + t2 + t3, t4);
    RunThen(Some(Start), t1 + t2 + t3 + t4, t5);
    RunThen(Some(Start), t1 + t2 + t3 + t4 + t5, t6);
    RunThen(Some(Start), t1 + t2 + t3 + t4 + t5 + t6, t7);
  }

  /* ---------------------------------------------------------------- */
  /* The tier banners                                                  */
  /* ---------------------------------------------------------------- */

  lemma EmptyRun(st: Option<Loaded>)
    ensures Run(st, "") == st
  {
    assert Split("", '\n') == [""];
  }

  lemma LowBannerRun(st: Loaded)
    ensures Terminated(Banner(LowTitle)) && Run(Some(st), Banner(LowTitle)) == Some(st)
  {
    var d := "--------";
    assert !ContainsChar(d, 'ы') && !ContainsChar(d, '\n');
    assert !ContainsChar(LowTitle, 'ы') && !ContainsChar(LowTitle, '\n');
    Lacks(d, LowTitle, d, 'ы');
    Lacks(d, LowTitle, d, '\n');
    var l := d + LowTitle + d;
    assert l[4] == '-';
    FixedLine(st, l, 4);
    EmptyLine(st);
    RunThen(Some(st), l + "\n", "\n");
  }

  /** The high-poly banner switches the reader to the high-poly tier. */
  lemma HighBannerRun(st: Loaded)
    ensures Terminated(Banner(HighTitle)) && Run(Some(st), Banner(HighTitle)) == Some(st.(high := true))
  {
    var d := "--------";
    assert !ContainsChar(d, ',') && !ContainsChar(d, '\n');
    assert !ContainsChar(HighTitle, ',') && !ContainsChar(HighTitle, '\n');
    Lacks(d, HighTitle, d, ',');
    Lacks(d, HighTitle, d, '\n');
    var l := d + HighTitle + d;
    ContainsCharAppend(l, "\n", ',');
    assert LowExcept[25] == ',' && HighExcept[25] == ',';
    CharBlocks(l + "\n", LowExcept, 25);
    CharBlocks(l + "\n", HighExcept, 25);
    ContainsInfix(d, HighTitle, d + "\n");
    assert d + HighTitle + (d + "\n") == l + "\n";
    OneLineRun(st, l);
    EmptyLine(st.(high := true));
    RunThen(Some(st), l + "\n", "\n");
  }

  /* ---------------------------------------------------------------- */
  /* The failed items                                                  */
  /* ---------------------------------------------------------------- */

  /** What error lines record: their numbers, in the tier the reader is in. */
  function AddFailed(st: Loaded, nums: seq<string>): Loaded {
    if st.high then st.(failedHigh := st.failedHigh + nums) else st.(failedLow := st.failedLow + nums)
  }

  /** The texts of a failed item that the report shows and the reader passes over. */
  predicate ItemReady(it: Item) {
    IdText(it.reqNum) && OneLine(it.name) && PlainText(it.userDescription) && PlainText(it.userComment)
    && (it.auto ==> PlainBlock(it.errorsText))
  }

  /** Every item has a requirement number; every failed one is ready to be shown. */
  predicate TierReady(items: seq<Item>) {
    forall k :: 0 <= k < |items| ==> IdText(items[k].reqNum) && (items[k].checkState == Failed ==> ItemReady(items[k]))
  }

  /** The start of an error line, up to the item's name. */
  function ErrorHead(it: Item, n: int): string {
    ErrorMark + " " + IntToString(n) + ". " + ItemLabel + it.reqNum + ". "
  }

  lemma HeadLacks(it: Item, n: int, c: char)
    requires IdText(it.reqNum) && !IsDigit(c) && c != '-' && c != '.' && c != ' '
    requires !ContainsChar(ErrorMark, c) && !ContainsChar(ItemLabel, c)
    ensures !ContainsChar(ErrorHead(it, n), c)
  {
    assert !ContainsChar(" ", c) && !ContainsChar(". ", c);
    IntNumeralLacks(n, c);
    IdLacks(it.reqNum, c);
    var x1 := ErrorMark + " " + IntToString(n);
    Lacks(ErrorMark, " ", IntToString(n), c);
    var x2 := x1 + ". " + ItemLabel;
    Lacks(x1, ". ", ItemLabel, c);
    Lacks(x2, it.reqNum, ". ", c);
  }

  /** Four words without spaces, each followed by one space, are the first four tokens. */
  lemma FourTokens(a: string, b: string, c: string, d: string, e: string)
    requires !ContainsChar(a, ' ') && !ContainsChar(b, ' ') && !ContainsChar(c, ' ') && !ContainsChar(d, ' ')
    ensures Split(a + [' '] + b + [' '] + c + [' '] + d + [' '] + e, ' ') == [a, b, c, d] + Split(e, ' ')
  {
    SplitNoSep(a, ' ');
    SplitNoSep(b, ' ');
    SplitNoSep(c, ' ');
    SplitNoSep(d, ' ');
    var ab := a + [' '] + b;
    var abc := ab + [' '] + c;
    var abcd := abc + [' '] + d;
    SplitAround(a, ' ', b);
    SplitAround(ab, ' ', c);
    SplitAround(abc, ' ', d);
    SplitAround(abcd, ' ', e);
  }

  lemma ErrorLineShape(it: Item, n: int)
    ensures ErrorLine(it, n) + "\n"
      == ErrorMark + [' '] + (IntToString(n) + ".") + [' '] + "Пункт" + [' '] + (it.reqNum + ".") + [' '] + (it.name + "\n")
  {
    assert " " == [' '] && ". " == "." + [' '] && ItemLabel == "Пункт" + [' '];
  }

  /** The fourth space-separated token of an error line is the requirement number with its dot. */
  lemma ErrorTokens(it: Item, n: int)
    requires IdText(it.reqNum)
    ensures var ts := Split(ErrorLine(it, n) + "\n", ' '); |ts| >= 4 && ts[3] == it.reqNum + "."
  {
    assert !ContainsChar(ErrorMark, ' ') && !ContainsChar("Пункт", ' ') && !ContainsChar(".", ' ');
    IntNumeralLacks(n, ' ');
    ContainsCharAppend(IntToString(n), ".", ' ');
    IdLacks(it.reqNum, ' ');
    ContainsCharAppend(it.reqNum, ".", ' ');
    FourTokens(ErrorMark, IntToString(n) + ".", "Пункт", it.reqNum + ".", it.name + "\n");
    ErrorLineShape(it, n);
  }

  /** Stripping the dots from a requirement number with its dot gives the number. */
  lemma StripDot(r: string)
    requires IdText(r)
    ensures StripChar(r + ".", '.') == r
  {
    assert (r + ".")[..|r|] == r;
    StripChar0(r, '.');
  }

  /** An error line holds none of the three searched phrases. */
  lemma ErrorPhrases(it: Item, n: int)
    requires IdText(it.reqNum) && OneLine(it.name)
    ensures var l := ErrorLine(it, n) + "\n";
      !Contains(l, LowExcept) && !Contains(l, HighExcept) && !Contains(l, HighTitle)
  {
    var p := ErrorHead(it, n);
    assert ErrorLine(it, n) + "\n" == p + (it.name + "\n");
    assert !ContainsChar(ErrorMark, 'Н') && !ContainsChar(ItemLabel, 'Н');
    assert !ContainsChar(ErrorMark, 'В') && !ContainsChar(ItemLabel, 'В');
    HeadLacks(it, n, 'Н');
    HeadLacks(it, n, 'В');
    PlainQuiet(it.name);
    QuietNewline(it.name);
    assert LowExcept[0] == 'Н' && HighExcept[0] == 'В' && HighTitle[0] == 'В';
    FirstCharBlocks(p, it.name + "\n", LowExcept);
    FirstCharBlocks(p, it.name + "\n", HighExcept);
    FirstCharBlocks(p, it.name + "\n", HighTitle);
  }

  /** The regrouping that puts an error line's mark in front, with the parts kept as names. */
  lemma MarkFirst(a: string, b: string, c: string, d: string, e: string, f: string, g: string, h: string, i: string)
    ensures a + b + c + d + e + f + g + h + i == a + (b + c + d + e + f + g + h + i)
  {
  }

  /** The reader's test of an error line: its number is recorded in the current tier. */
  lemma ErrorLoad(st: Loaded, it: Item, n: int)
    requires IdText(it.reqNum) && OneLine(it.name)
    ensures LoadLine(st, ErrorLine(it, n) + "\n") == Some(AddFailed(st, [it.reqNum]))
  {
    var l := ErrorLine(it, n) + "\n";
    ErrorPhrases(it, n);
    MarkFirst(ErrorMark, " ", IntToString(n), ". ", ItemLabel, it.reqNum, ". ", it.name, "\n");
    StartsWithPrefix(ErrorMark, " " + IntToString(n) + ". " + ItemLabel + it.reqNum + ". " + it.name + "\n");
    ErrorTokens(it, n);
    StripDot(it.reqNum);
  }

  lemma ErrorRun(st: Loaded, it: Item, n: int)
    requires IdText(it.reqNum) && OneLine(it.name)
    ensures Run(Some(st), ErrorLine(it, n) + "\n") == Some(AddFailed(st, [it.reqNum]))
  {
    assert !ContainsChar(ErrorMark, '\n') && !ContainsChar(ItemLabel, '\n');
    HeadLacks(it, n, '\n');
    ContainsCharAppend(ErrorHead(it, n), it.name, '\n');
    OneLineRun(st, ErrorLine(it, n));
    ErrorLoad(st, it, n);
  }

  /** The three marks inside an item's block are quiet lines. */
  lemma MarksQuiet()
    ensures !ContainsChar(DescriptionMark, 'ы') && !ContainsChar(DescriptionMark, '\n') && DescriptionMark[5] != ErrorMark[5]
    ensures !ContainsChar(AutoMark, 'ы') && !ContainsChar(AutoMark, '\n') && AutoMark[4] != ErrorMark[4]
    ensures !ContainsChar(CommentMark, 'ы') && !ContainsChar(CommentMark, '\n') && CommentMark[4] != ErrorMark[4]
  {
  }

  lemma DescriptionRun(st: Loaded, d: string)
    requires PlainText(d)
    ensures Terminated(DescriptionBlock(d)) && Run(Some(st), DescriptionBlock(d)) == Some(st)
  {
    MarksQuiet();
    FixedLine(st, DescriptionMark, 5);
    PlainRun(st, d);
    RunThen(Some(st), DescriptionMark + "\n", d + "\n");
  }

  lemma AutoRun(st: Loaded, it: Item)
    requires it.auto ==> PlainBlock(it.errorsText)
    ensures Terminated(AutoBlock(it)) && Run(Some(st), AutoBlock(it)) == Some(st)
  {
    if it.auto {
      MarksQuiet();
      FixedLine(st, AutoMark, 4);
      PlainBlockRun(st, it.errorsText);
      RunThen(Some(st), AutoMark + "\n", it.errorsText);
    } else {
      EmptyRun(Some(st));
    }
  }

  lemma CommentRun(st: Loaded, c: string)
    requires PlainText(c)
    ensures Terminated(CommentBlock(c)) && Run(Some(st), CommentBlock(c)) == Some(st)
  {
    MarksQuiet();
    FixedLine(st, CommentMark, 4);
    PlainRun(st, c);
    RunThen(Some(st), CommentMark + "\n", c + "\n");
  }

  /** A failed item's block records exactly its number. */
  lemma ItemRun(st: Loaded, it: Item, n: int)
    requires ItemReady(it)
    ensures Terminated(ItemText(it, n)) && Run(Some(st), ItemText(it, n)) == Some(AddFailed(st, [it.reqNum]))
  {
    var s1 := AddFailed(st, [it.reqNum]);
    var p1 := ErrorLine(it, n) + "\n";
    var p2 := DescriptionBlock(it.userDescription);
    var p3 := AutoBlock(it);
    var p4 := CommentBlock(it.userComment);
    var p6 := if it.userComment != "" then "\n" else "";
    ErrorRun(st, it, n);
    DescriptionRun(s1, it.userDescription);
    AutoRun(s1, it);
    CommentRun(s1, it.userComment);
    EmptyLine(s1);
    EmptyRun(Some(s1));
    RunThen(Some(st), p1, p2);
    RunThen(Some(st), p1 + p2, p3);
    RunThen(Some(st), p1 + p2 + p3, p4);
    RunThen(Some(st), p1 + p2 + p3 + p4, "\n");
    RunThen(Some(st), p1 + p2 + p3 + p4 + "\n", p6);
  }

  /** One more failed item at the end of a tier adds its number at the end. */
  lemma FailedStepRun(st: Loaded, front: seq<Item>, it: Item)
    requires it.checkState == Failed && ItemReady(it)
    requires Terminated(TierText(front)) && Run(Some(st), TierText(front)) == Some(AddFailed(st, FailedNums(front)))
    ensures Terminated(TierText(front + [it])) && Run(Some(st), TierText(front + [it])) == Some(AddFailed(st, FailedNums(front + [it])))
  {
    var nums := FailedNums(front);
    var s1 := AddFailed(st, nums);
    var n := FailedCount(front) + 1;
    assert TierText(front + [it]) == TierText(front) + ItemText(it, n) by {
      TierStep(front, it);
    }
    ItemRun(s1, it, n);
    RunThen(Some(st), TierText(front), ItemText(it, n));
    assert FailedNums(front + [it]) == nums + [it.reqNum] by {
      assert (front + [it])[..|front|] == front;
    }
    AddFailedTwice(st, nums, [it.reqNum]);
  }

  /** Recording two runs of numbers records them one after the other. */
  lemma AddFailedTwice(st: Loaded, a: seq<string>, b: seq<string>)
    ensures AddFailed(AddFailed(st, a), b) == AddFailed(st, a + b)
  {
    AppendAssoc(st.failedLow, a, b);
    AppendAssoc(st.failedHigh, a, b);
  }

  /** An item that is not failed adds nothing to the tier's text. */
  lemma PassedStep(front: seq<Item>, it: Item)
    requires it.checkState != Failed
    ensures TierText(front + [it]) == TierText(front) && FailedNums(front + [it]) == FailedNums(front)
  {
    TierStep(front, it);
    assert (front + [it])[..|front|] == front;
    assert TierText(front) + "" == TierText(front);
    assert FailedNums(front) + [] == FailedNums(front);
  }

  /** A tier's text records the numbers of its failed items, in order. */
  lemma {:induction false} TierRun(st: Loaded, items: seq<Item>)
    requires TierReady(items)
    ensures Terminated(TierText(items)) && Run(Some(st), TierText(items)) == Some(AddFailed(st, FailedNums(items)))
    decreases |items|
  {
    if items == [] {
      EmptyRun(Some(st));
      assert st.failedLow + [] == st.failedLow && st.failedHigh + [] == st.failedHigh;
    } else {
      var front := items[..|items| - 1];
      var it := items[|items| - 1];
      assert TierReady(front) by {
        forall k | 0 <= k < |front| ensures IdText(front[k].reqNum) && (front[k].checkState == Failed ==> ItemReady(front[k])) {
          assert front[k] == items[k];
        }
      }
      TierRun(st, front);
      assert items == front + [it];
      if it.checkState == Failed {
        FailedStepRun(st, front, it);
      } else {
        PassedStep(front, it);
      }
    }
  }

  /* ---------------------------------------------------------------- */
  /* The whole report                                                  */
  /* ---------------------------------------------------------------- */

  /** The numbers of undefined items are requirement numbers. */
  lemma UncheckedIds(cats: seq<Category>)
    requires TierReady(Flat(cats))
    ensures IdTexts(Unchecked(cats))
  {
    UncheckedFlat(cats);
    var u := Unchecked(cats);
    forall k | 0 <= k < |u| ensures IdText(u[k]) {
      UndefinedInMembers(Flat(cats), u[k]);
    }
  }

  /**
   * What the report's free texts normally meet: the address and the
   * inspector's name, and every failed item's name, description, comment and
   * automatic errors, are plain; requirement numbers are digits and dots.
   */
  predicate Ready(h: Header, low: seq<Category>, high: seq<Category>) {
    PlainText(h.address) && PlainText(h.author) && TierReady(Flat(low)) && TierReady(Flat(high))
  }

  /** What reading a generated report gives back. */
  function ReadBack(h: Header, low: seq<Category>, high: seq<Category>): Loaded {
    Loaded(
      FailedNums(Flat(low)),
      FailedNums(Flat(high)),
      true,
      if h.hasLowpoly then Unchecked(low) else [],
      if h.hasHighpoly then Unchecked(high) else [])
  }

  /** The text after the head: the two banners, each followed by its tier's failed items. */
  lemma BodyRun(st: Loaded, low: seq<Category>, high: seq<Category>)
    requires TierReady(Flat(low)) && TierReady(Flat(high)) && !st.high
    ensures var body := Banner(LowTitle) + TierText(Flat(low)) + Banner(HighTitle) + TierText(Flat(high));
      Terminated(body)
      && Run(Some(st), body) == Some(st.(failedLow := st.failedLow + FailedNums(Flat(low)), high := true, failedHigh := st.failedHigh + FailedNums(Flat(high))))
  {
    var t2 := Banner(LowTitle);
    var t3 := TierText(Flat(low));
    var t4 := Banner(HighTitle);
    var t5 := TierText(Flat(high));
    LowBannerRun(st);
    TierRun(st, Flat(low));
    var s1 := AddFailed(st, FailedNums(Flat(low)));
    HighBannerRun(s1);
    TierRun(s1.(high := true), Flat(high));
    RunThen(Some(st), t2, t3);
    RunThen(Some(st), t2 + t3, t4);
    RunThen(Some(st), t2 + t3 + t4, t5);
  }

  /**
   * Reading the report written from two checklists gives back, for each
   * tier, the numbers of its failed items in order and, for each present
   * model, the numbers of its undefined items.
   */
  lemma ReportRun(h: Header, low: seq<Category>, high: seq<Category>)
    requires Ready(h, low, high)
    ensures LoadText(ReportText(h, low, high)) == Some(ReadBack(h, low, high))
  {
    UncheckedIds(low);
    UncheckedIds(high);
    var head := HeaderText(h, Unchecked(low), Unchecked(high));
    var body := Banner(LowTitle) + TierText(Flat(low)) + Banner(HighTitle) + TierText(Flat(high));
    HeaderRun(h, Unchecked(low), Unchecked(high));
    var s0 := Start.(notLow := if h.hasLowpoly then Unchecked(low) else [], notHigh := if h.hasHighpoly then Unchecked(high) else []);
    BodyRun(s0, low, high);
    RunThen(Some(Start), head, body);
    ReportParts(h, low, high);
    StartRead(h, low, high);
  }

  lemma ReportParts(h: Header, low: seq<Category>, high: seq<Category>)
    ensures ReportText(h, low, high)
      == HeaderText(h, Unchecked(low), Unchecked(high)) + (Banner(LowTitle) + TierText(Flat(low)) + Banner(HighTitle) + TierText(Flat(high)))
  {
    Regroup(HeaderText(h, Unchecked(low), Unchecked(high)), Banner(LowTitle), TierText(Flat(low)), Banner(HighTitle), TierText(Flat(high)));
  }

  lemma Regroup(a: string, b: string, c: string, d: string, e: string)
    ensures a + b + c + d + e == a + (b + c + d + e)
  {
  }

  lemma StartRead(h: Header, low: seq<Category>, high: seq<Category>)
    ensures var s0 := Start.(notLow := if h.hasLowpoly then Unchecked(low) else [], notHigh := if h.hasHighpoly then Unchecked(high) else []);
      s0.(failedLow := s0.failedLow + FailedNums(Flat(low)), high := true, failedHigh := s0.failedHigh + FailedNums(Flat(high)))
      == ReadBack(h, low, high)
  {
    assert [] + FailedNums(Flat(low)) == FailedNums(Flat(low));
    assert [] + FailedNums(Flat(high)) == FailedNums(Flat(high));
  }

  lemma {:induction false} FailedNumsMembers(items: seq<Item>, x: string)
    ensures x in FailedNums(items) <==> exists j :: 0 <= j < |items| && items[j].checkState == Failed && items[j].reqNum == x
    decreases |items|
  {
    if items != [] {
      var front := items[..|items| - 1];
      FailedNumsMembers(front, x);
      if x in FailedNums(items) && x !in FailedNums(front) {
        assert items[|items| - 1].reqNum == x;
      }
      forall j | 0 <= j < |front| ensures front[j] == items[j] {
      }
    }
  }

  /** Items with the same requirement number are in the same state. */
  predicate SameStates(items: seq<Item>) {
    forall i, j :: 0 <= i < |items| && 0 <= j < |items| && items[i].reqNum == items[j].reqNum ==> items[i].checkState == items[j].checkState
  }

  /** An undefined item takes back the state of the item with its number from the two lists. */
  lemma StateRestored(items: seq<Item>, k: int, x: Item)
    requires SameStates(items) && 0 <= k < |items| && x.reqNum == items[k].reqNum && x.checkState == Undefined
    ensures Applied(x, FailedNums(items), UndefinedIn(items)).checkState == items[k].checkState
  {
    FailedNumsMembers(items, x.reqNum);
    UndefinedInMembers(items, x.reqNum);
  }

  /** Every undefined item takes back the state of the listed item with its number. */
  ghost predicate RestoresTier(items: seq<Item>, failed: seq<string>, notChecked: seq<string>) {
    forall k: int, x: Item :: 0 <= k < |items| && x.reqNum == items[k].reqNum && x.checkState == Undefined
      ==> Applied(x, failed, notChecked).checkState == items[k].checkState
  }

  /** The two lists read back from a tier restore every state of it. */
  lemma TierRestored(items: seq<Item>)
    requires SameStates(items)
    ensures RestoresTier(items, FailedNums(items), UndefinedIn(items))
  {
    forall k: int, x: Item | 0 <= k < |items| && x.reqNum == items[k].reqNum && x.checkState == Undefined
      ensures Applied(x, FailedNums(items), UndefinedIn(items)).checkState == items[k].checkState
    {
      StateRestored(items, k, x);
    }
  }

  /**
   * Loading a generated report into a checklist whose items are all
   * undefined gives each item the state the item with its number had when
   * the report was written, in both tiers.
   */
  lemma ReportRestoresStates(h: Header, low: seq<Category>, high: seq<Category>)
    requires Ready(h, low, high) && h.hasLowpoly && h.hasHighpoly && SameStates(Flat(low)) && SameStates(Flat(high))
    ensures var r := LoadText(ReportText(h, low, high));
      r.Some? && RestoresTier(Flat(low), r.value.failedLow, r.value.notLow) && RestoresTier(Flat(high), r.value.failedHigh, r.value.notHigh)
  {
    ReportRun(h, low, high);
    UncheckedFlat(low);
    UncheckedFlat(high);
    TierRestored(Flat(low));
    TierRestored(Flat(high));
  }
}
