/**
 * Reading comments and descriptions back from a generated report: when the
 * first text of the report is in the text editor, the editor reader writes,
 * tier by tier and in item order, each failed item's description and then
 * its comment, stripped, under the item's number, and nothing else.
 */
module NotesRoundTrip {
  import opened Text
  import opened Lines
  import opened Checklist
  import opened Report
  import opened ReportRoundTrip
  import opened Editor

  /* ---------------------------------------------------------------- */
  /* The editor's lines of a text, and walking them part by part      */
  /* ---------------------------------------------------------------- */

  /** The lines of a text that ends with a line break, without their breaks. */
  function Ls(t: string): seq<string>
    requires Terminated(t)
  {
    if t == "" then [] else Split(t[..|t| - 1], '\n')
  }

  lemma LsAppend(a: string, b: string)
    requires Terminated(a) && Terminated(b)
    ensures Terminated(a + b) && Ls(a + b) == Ls(a) + Ls(b)
  {
    TerminatedAppend(a, b);
    if a == "" {
      assert a + b == b;
    } else if b == "" {
      assert a + b == a;
    } else {
      var x := a[..|a| - 1];
      var y := b[..|b| - 1];
      assert (a + b)[..|a + b| - 1] == x + ['\n'] + y;
      SplitAround(x, '\n', y);
    }
  }

  lemma LsText(x: string)
    ensures Terminated(x + "\n") && Ls(x + "\n") == Split(x, '\n')
  {
    assert (x + "\n")[..|x|] == x;
  }

  lemma LsLine(l: string)
    requires !ContainsChar(l, '\n')
    ensures Terminated(l + "\n") && Ls(l + "\n") == [l]
  {
    LsText(l);
    SplitNoSep(l, '\n');
  }

  /** Blender's lines of a text ending in a line break: its lines and a last empty one. */
  lemma SplitLs(t: string)
    requires Terminated(t)
    ensures Split(t, '\n') == Ls(t) + [""]
  {
    if t != "" {
      var x := t[..|t| - 1];
      assert t == x + ['\n'] + "";
      SplitAround(x, '\n', "");
    }
  }

  /** A walk over lines with a given step function, stopping at the first step that fails. */
  function Fold(c: Cursor, lines: seq<string>, f: (Cursor, string) -> Step): Step {
    if lines == [] then Step(c, [], true)
    else
      var s := Fold(c, lines[..|lines| - 1], f);
      if !s.ok then s
      else
        var t := f(s.cursor, lines[|lines| - 1]);
        Step(t.cursor, s.writes + t.writes, t.ok)
  }

  /** The editor reader from a given cursor. */
  function Go(c: Cursor, lines: seq<string>): Step {
    Fold(c, lines, LineStep)
  }

  /** Going on from a step over more lines. */
  function Then(s: Step, lines: seq<string>): Step {
    if !s.ok then s
    else
      var g := Go(s.cursor, lines);
      Step(g.cursor, s.writes + g.writes, g.ok)
  }

  lemma {:induction false} ScanGo(lines: seq<string>)
    ensures Scan(lines) == Go(Fresh, lines)
    decreases |lines|
  {
    if lines != [] {
      ScanGo(lines[..|lines| - 1]);
    }
  }

  lemma {:induction false} FoldAppend(c: Cursor, a: seq<string>, b: seq<string>, f: (Cursor, string) -> Step)
    ensures var s := Fold(c, a, f);
      Fold(c, a + b, f) == if !s.ok then s else var g := Fold(s.cursor, b, f); Step(g.cursor, s.writes + g.writes, g.ok)
    decreases |b|
  {
    if b == [] {
      assert a + b == a;
      assert Fold(c, a, f).writes + [] == Fold(c, a, f).writes;
    } else {
      var b' := b[..|b| - 1];
      assert (a + b)[..|a + b| - 1] == a + b';
      assert (a + b)[|a + b| - 1] == b[|b| - 1];
      FoldAppend(c, a, b', f);
      var s := Fold(c, a, f);
      if s.ok {
        var t' := Fold(s.cursor, b', f);
        if t'.ok {
          var u := f(t'.cursor, b[|b| - 1]);
          assert s.writes + t'.writes + u.writes == s.writes + (t'.writes + u.writes);
        }
      }
    }
  }

  lemma GoAppend(c: Cursor, a: seq<string>, b: seq<string>)
    ensures Go(c, a + b) == Then(Go(c, a), b)
  {
    FoldAppend(c, a, b, LineStep);
  }

  lemma ThenAppend(s: Step, a: seq<string>, b: seq<string>)
    ensures Then(s, a + b) == Then(Then(s, a), b)
  {
    if s.ok {
      var ga := Go(s.cursor, a);
      assert Go(s.cursor, a + b) == Then(ga, b) by {
        GoAppend(s.cursor, a, b);
      }
      var t := Then(s, a);
      assert t == Step(ga.cursor, s.writes + ga.writes, ga.ok);
      if ga.ok {
        var gb := Go(ga.cursor, b);
        assert Then(ga, b) == Step(gb.cursor, ga.writes + gb.writes, gb.ok);
        assert Then(t, b) == Step(gb.cursor, (s.writes + ga.writes) + gb.writes, gb.ok);
        AppendAssoc(s.writes, ga.writes, gb.writes);
      }
    }
  }

  /** Two terminated parts are walked one after the other. */
  lemma ThenText(s: Step, a: string, b: string)
    requires Terminated(a) && Terminated(b)
    ensures Terminated(a + b) && Then(s, Ls(a + b)) == Then(Then(s, Ls(a)), Ls(b))
  {
    LsAppend(a, b);
    ThenAppend(s, Ls(a), Ls(b));
  }

  lemma ThenLine(s: Step, l: string)
    requires s.ok
    ensures var t := LineStep(s.cursor, l); Then(s, [l]) == Step(t.cursor, s.writes + t.writes, t.ok)
  {
    var ls := [l];
    assert ls[..0] == [];
    assert Go(s.cursor, ls[..0]) == Step(s.cursor, [], true);
    var t := LineStep(s.cursor, l);
    assert Go(s.cursor, ls) == Step(t.cursor, [] + t.writes, t.ok);
    assert [] + t.writes == t.writes;
  }

  lemma ThenEmpty(s: Step)
    ensures Then(s, []) == s
  {
    assert s.writes + [] == s.writes;
  }

  /* ---------------------------------------------------------------- */
  /* Lines the editor reader only gathers                              */
  /* ---------------------------------------------------------------- */

  /** A line that begins with one of the four marks the reader acts on. */
  predicate Marked(l: string) {
    StartsWith(l, ErrorMark) || StartsWith(l, DescriptionMark) || StartsWith(l, AutoMark) || StartsWith(l, CommentMark)
  }

  /** A line the reader only adds to the field being filled. */
  predicate Idle(l: string) {
    !Contains(l, HighTitle) && !Marked(l)
  }

  /** The cursor with `t` added to the field being filled. */
  function Gathered(c: Cursor, t: string): Cursor {
    match c.field
    case DescriptionField => c.(description := c.description + t)
    case CommentField => c.(comment := c.comment + t)
    case NoField => c
  }

  lemma IdleStep(c: Cursor, l: string)
    requires Idle(l)
    ensures LineStep(c, l) == Step(Gathered(c, l + "\n"), [], true)
  {
    assert c.description + l + "\n" == c.description + (l + "\n");
    assert c.comment + l + "\n" == c.comment + (l + "\n");
  }

  /** Gathering twice is gathering the two texts joined. */
  lemma GatheredAppend(c: Cursor, x: string, y: string)
    ensures Gathered(Gathered(c, x), y) == Gathered(c, x + y)
  {
    AppendAssoc(c.description, x, y);
    AppendAssoc(c.comment, x, y);
  }

  /** The terminated text of lines grows by the last line and its break. */
  lemma ConcatTerminateLast(front: seq<string>, l: string)
    ensures Concat(Terminate(front + [l])) == Concat(Terminate(front)) + (l + "\n")
  {
    TerminateAppend(front, [l]);
    ConcatAppend(Terminate(front), Terminate([l]));
    assert Concat(Terminate([l])) == l + "\n" by {
      assert Terminate([l]) == [l + "\n"];
      assert Terminate([l])[..0] == [];
    }
  }

  lemma {:induction false} IdleGo(c: Cursor, ls: seq<string>)
    requires forall i :: 0 <= i < |ls| ==> Idle(ls[i])
    ensures Go(c, ls) == Step(Gathered(c, Concat(Terminate(ls))), [], true)
    decreases |ls|
  {
    if ls == [] {
      assert Concat(Terminate(ls)) == "";
      assert c.description + "" == c.description && c.comment + "" == c.comment;
    } else {
      var front := ls[..|ls| - 1];
      var l := ls[|ls| - 1];
      var x := Concat(Terminate(front));
      IdleGo(c, front);
      IdleStep(Gathered(c, x), l);
      assert ls == front + [l];
      ConcatTerminateLast(front, l);
      GatheredAppend(c, x, l + "\n");
      var none: seq<Write> := [];
      assert none + none == none;
    }
  }

  /** Idle lines add their text, line breaks included, to the field being filled. */
  lemma IdleRun(s: Step, ls: seq<string>)
    requires s.ok && forall i :: 0 <= i < |ls| ==> Idle(ls[i])
    ensures Then(s, ls) == s.(cursor := Gathered(s.cursor, Concat(Terminate(ls))))
  {
    IdleGo(s.cursor, ls);
    assert s.writes + [] == s.writes;
  }

  /** With no field being filled, idle lines change nothing. */
  lemma QuietRun(s: Step, ls: seq<string>)
    requires s.ok && s.cursor.field == NoField && forall i :: 0 <= i < |ls| ==> Idle(ls[i])
    ensures Then(s, ls) == s
  {
    IdleRun(s, ls);
  }

  /** A plain text's lines, gathered, give the text and a line break. */
  lemma PlainGathered(x: string)
    ensures Concat(Terminate(Split(x, '\n'))) == x + "\n"
  {
    ConcatTerminate(Split(x, '\n'));
    JoinSplit(x, '\n');
    assert [('\n')] == "\n";
  }

  /* ---------------------------------------------------------------- */
  /* Which lines are idle                                              */
  /* ---------------------------------------------------------------- */

  /** Every mark begins with four dashes and a letter. */
  lemma Unmarked(l: string)
    requires l == "" || l[0] != '-' || (|l| > 4 && l[4] == '-')
    ensures !Marked(l)
  {
    assert ErrorMark[0] == '-' && ErrorMark[4] != '-';
    assert DescriptionMark[0] == '-' && DescriptionMark[4] != '-';
    assert AutoMark[0] == '-' && AutoMark[4] != '-';
    assert CommentMark[0] == '-' && CommentMark[4] != '-';
  }

  /** A line lacking some letter of the high-poly heading, which cannot begin a mark. */
  lemma IdleLine(l: string, k: int)
    requires 0 <= k < |HighTitle| && !ContainsChar(l, HighTitle[k])
    requires l == "" || l[0] != '-' || (|l| > 4 && l[4] == '-')
    ensures Idle(l)
  {
    CharBlocks(l, HighTitle, k);
    Unmarked(l);
  }

  lemma PlainIdle(l: string)
    requires Plain(l)
    ensures Idle(l)
  {
    assert ErrorMark[..4] == "----" && DescriptionMark[..4] == "----";
    assert AutoMark[..4] == "----" && CommentMark[..4] == "----";
    StartsWithShorter(l, ErrorMark, 4);
    StartsWithShorter(l, DescriptionMark, 4);
    StartsWithShorter(l, AutoMark, 4);
    StartsWithShorter(l, CommentMark, 4);
  }

  lemma EmptyIdle()
    ensures Idle("")
  {
    assert !ContainsChar("", 'ы') && HighTitle[1] == 'ы';
    IdleLine("", 1);
  }

  /** A label and a plain line behind it. */
  lemma LabelledIdle(p: string, l: string)
    requires Label(p) && Plain(l)
    ensures Idle(p + l)
  {
    assert HighTitle[0] == 'В';
    FirstCharBlocks(p, l, HighTitle);
    assert (p + l)[0] == p[0];
    Unmarked(p + l);
  }

  /** A terminated text whose every line is idle. */
  predicate IdleText(t: string) {
    Terminated(t) && forall i :: 0 <= i < |Ls(t)| ==> Idle(Ls(t)[i])
  }

  lemma IdleTextAppend(a: string, b: string)
    requires IdleText(a) && IdleText(b)
    ensures IdleText(a + b)
  {
    LsAppend(a, b);
    var ls := Ls(a + b);
    forall i | 0 <= i < |ls| ensures Idle(ls[i]) {
      if i < |Ls(a)| {
        assert ls[i] == Ls(a)[i];
      } else {
        assert ls[i] == Ls(b)[i - |Ls(a)|];
      }
    }
  }

  lemma IdleLineText(l: string)
    requires Idle(l) && !ContainsChar(l, '\n')
    ensures IdleText(l + "\n")
  {
    LsLine(l);
  }

  lemma PlainIdleText(x: string)
    requires PlainText(x)
    ensures IdleText(x + "\n")
  {
    LsText(x);
    var ls := Split(x, '\n');
    forall i | 0 <= i < |ls| ensures Idle(ls[i]) {
      PlainIdle(ls[i]);
    }
  }

  lemma LabelledIdleText(p: string, x: string)
    requires Label(p) && PlainText(x)
    ensures IdleText(p + x + "\n")
  {
    LsText(p + x);
    SplitPrefix(p, x, '\n');
    var q := Split(x, '\n');
    var ls := [p + q[0]] + q[1..];
    forall i | 0 <= i < |ls| ensures Idle(ls[i]) {
      if i == 0 {
        LabelledIdle(p, q[0]);
      } else {
        assert ls[i] == q[i];
        PlainIdle(q[i]);
      }
    }
  }

  lemma EmptyIdleText()
    ensures IdleText("\n")
  {
    EmptyIdle();
    assert !ContainsChar("", '\n');
    assert "" + "\n" == "\n";
    IdleLineText("");
  }

  /* ---------------------------------------------------------------- */
  /* The head of the report                                            */
  /* ---------------------------------------------------------------- */

  lemma TitleIdle()
    ensures IdleText(TitleBlock())
  {
    assert !ContainsChar(ReportTitle, 'ы') && !ContainsChar(ReportTitle, '\n') && ReportTitle[4] == '-';
    IdleLine(ReportTitle, 1);
    IdleLineText(ReportTitle);
    EmptyIdleText();
    IdleTextAppend(ReportTitle + "\n", "\n");
  }

  lemma AddressIdle(address: string)
    requires PlainText(address)
    ensures IdleText(AddressBlock(address))
  {
    assert !ContainsChar(AddressLabel, '\n') && !ContainsChar(AddressLabel, 'Н') && !ContainsChar(AddressLabel, 'В');
    LabelledIdleText(AddressLabel, address);
  }

  lemma DateShape(t: Stamp)
    ensures !ContainsChar(DateLine(t), 'ы') && !ContainsChar(DateLine(t), '\n') && DateLine(t)[0] == 'Д'
  {
    assert !ContainsChar(DateLabel, 'ы') && !ContainsChar(DateLabel, '\n');
    DateLacks(t, 'ы');
    DateLacks(t, '\n');
    assert DateLine(t)[0] == DateLabel[0];
  }

  /** A one-line text lacking 'ы' and not beginning with a dash. */
  lemma FixedIdle(l: string)
    requires !ContainsChar(l, 'ы') && !ContainsChar(l, '\n') && (l == "" || l[0] != '-')
    ensures IdleText(l + "\n")
  {
    assert HighTitle[1] == 'ы';
    IdleLine(l, 1);
    IdleLineText(l);
  }

  lemma DateIdle(t: Stamp)
    ensures IdleText(DateBlock(t))
  {
    DateShape(t);
    FixedIdle(DateLine(t));
  }

  lemma AuthorIdle(author: string)
    requires PlainText(author)
    ensures IdleText(AuthorBlock(author))
  {
    EmptyIdleText();
    if author != "" {
      assert !ContainsChar(AuthorLabel, '\n') && !ContainsChar(AuthorLabel, 'Н') && !ContainsChar(AuthorLabel, 'В');
      LabelledIdleText(AuthorLabel, author);
      IdleTextAppend(AuthorLabel + author + "\n", "\n");
    }
  }

  lemma ProgressIdle(tag: string, percent: int)
    requires tag == LowTag || tag == HighTag
    ensures IdleText(tag + ProgressText + IntToString(percent) + "%" + "\n")
  {
    assert !ContainsChar(tag, 'ы') && !ContainsChar(tag, '\n');
    assert !ContainsChar(ProgressText, 'ы') && !ContainsChar(ProgressText, '\n');
    assert !ContainsChar("%", 'ы') && !ContainsChar("%", '\n');
    IntNumeralLacks(percent, 'ы');
    IntNumeralLacks(percent, '\n');
    var n := tag + ProgressText + IntToString(percent);
    Lacks(tag, ProgressText, IntToString(percent), 'ы');
    Lacks(tag, ProgressText, IntToString(percent), '\n');
    ContainsCharAppend(n, "%", 'ы');
    ContainsCharAppend(n, "%", '\n');
    assert (n + "%")[0] == tag[0];
    IdleLine(n + "%", 1);
    IdleLineText(n + "%");
  }

  /** An "all checked except" line has no 'л', the ninth letter of the heading. */
  lemma ExceptIdle(except: string, nums: seq<string>)
    requires except == LowExcept || except == HighExcept
    requires IdTexts(nums)
    ensures IdleText(ExceptLine(except, nums) + "\n")
  {
    IdsLack(nums, 'л');
    assert !ContainsChar(except, 'л') && !ContainsChar(" - ", 'л');
    Lacks(except, " - ", Join(nums, ", "), 'л');
    ExceptLineLacks(except, nums, '\n');
    assert HighTitle[8] == 'л';
    assert ExceptLine(except, nums)[0] == except[0];
    IdleLine(ExceptLine(except, nums), 8);
    IdleLineText(ExceptLine(except, nums));
  }

  lemma SummaryIdle(low: bool, present: bool, percent: int, nums: seq<string>)
    requires IdTexts(nums)
    ensures IdleText(SummaryBlock(present, if low then LowTag else HighTag, if low then LowExcept else HighExcept, percent, nums))
  {
    var tag := if low then LowTag else HighTag;
    var except := if low then LowExcept else HighExcept;
    if present {
      var a := tag + ProgressText + IntToString(percent) + "%" + "\n";
      var b := if nums != [] then ExceptLine(except, nums) + "\n" else "";
      ProgressIdle(tag, percent);
      if nums != [] {
        ExceptIdle(except, nums);
      } else {
        assert Ls(b) == [];
      }
      IdleTextAppend(a, b);
      EmptyIdleText();
      IdleTextAppend(a + b, "\n");
    } else {
      assert Ls("") == [];
    }
  }

  lemma ClosingIdle()
    ensures IdleText(ClosingBlock())
  {
    NumberingLine();
    LinkLine();
    PreparedLine();
    IdleLine(Numbering, 1);
    assert HighTitle[0] == 'В';
    IdleLine(RequirementsLink, 0);
    IdleLine(PreparedBy, 1);
    IdleLineText(Numbering);
    IdleLineText(RequirementsLink);
    IdleLineText(PreparedBy);
    EmptyIdleText();
    var a := Numbering + "\n";
    var b := RequirementsLink + "\n";
    var c := PreparedBy + "\n";
    IdleTextAppend(a, b);
    IdleTextAppend(a + b, c);
    IdleTextAppend(a + b + c, "\n");
    IdleTextAppend(a + b + c + "\n", "\n");
  }

  lemma HeaderIdle(h: Header, lowNums: seq<string>, highNums: seq<string>)
    requires PlainText(h.address) && PlainText(h.author) && IdTexts(lowNums) && IdTexts(highNums)
    ensures IdleText(HeaderText(h, lowNums, highNums))
  {
    var t1, t2, t3, t4 := TitleBlock(), AddressBlock(h.address), DateBlock(h.stamp), AuthorBlock(h.author);
    var t5 := SummaryBlock(h.hasLowpoly, LowTag, LowExcept, h.lowPercent, lowNums);
    var t6 := SummaryBlock(h.hasHighpoly, HighTag, HighExcept, h.highPercent, highNums);
    var t7 := ClosingBlock();
    TitleIdle();
    AddressIdle(h.address);
    DateIdle(h.stamp);
    AuthorIdle(h.author);
    SummaryIdle(true, h.hasLowpoly, h.lowPercent, lowNums);
    SummaryIdle(false, h.hasHighpoly, h.highPercent, highNums);
    ClosingIdle();
    IdleTextAppend(t1, t2);
    IdleTextAppend(t1 + t2, t3);
    IdleTextAppend(t1 + t2 + t3, t4);
    IdleTextAppend(t1 + t2 + t3 + t4, t5);
    IdleTextAppend(t1 + t2 + t3 + t4 + t5, t6);
    IdleTextAppend(t1 + t2 + t3 + t4 + t5 + t6, t7);
  }

  lemma LowBannerIdle()
    ensures IdleText(Banner(LowTitle))
  {
    var d := "--------";
    assert !ContainsChar(d, 'ы') && !ContainsChar(d, '\n');
    assert !ContainsChar(LowTitle, 'ы') && !ContainsChar(LowTitle, '\n');
    Lacks(d, LowTitle, d, 'ы');
    Lacks(d, LowTitle, d, '\n');
    var l := d + LowTitle + d;
    assert l[4] == '-';
    IdleLine(l, 1);
    IdleLineText(l);
    EmptyIdleText();
    IdleTextAppend(l + "\n", "\n");
  }

  /** An idle text adds itself to the field being filled. */
  lemma IdleTextRun(s: Step, t: string)
    requires s.ok && IdleText(t)
    ensures Then(s, Ls(t)) == s.(cursor := Gathered(s.cursor, t))
  {
    IdleRun(s, Ls(t));
    if t == "" {
      assert Concat(Terminate([])) == "";
    } else {
      var x := t[..|t| - 1];
      assert t == x + "\n";
      PlainGathered(x);
    }
  }

  /** Blank space added to a comment does not change what a comment flush writes. */
  lemma FlushGathered(c: Cursor)
    ensures Flush(Gathered(c, "\n"), true).writes == Flush(c, true).writes
  {
    var g := Gathered(c, "\n");
    assert g.req == c.req && g.high == c.high;
    if c.field == CommentField {
      assert g.comment == c.comment + "\n";
      assert AllSpace("\n");
      StripAppendSpace(c.comment, "\n");
    } else {
      assert g.comment == c.comment;
    }
  }

  /* ---------------------------------------------------------------- */
  /* The lines of a failed item                                        */
  /* ---------------------------------------------------------------- */

  lemma ContainsGrow(l: string, x: string, m: string)
    ensures Contains(l, m) ==> Contains(l + x, m)
  {
    if Contains(l, m) {
      var k :| 0 <= k <= |l| - |m| && OccursAt(l, m, k);
      assert (l + x)[k..k + |m|] == l[k..k + |m|];
      assert OccursAt(l + x, m, k);
    }
  }

  /** The regrouping behind `ErrorShape`, with the literals kept as names. */
  lemma Regroup(em: string, sp: string, num: string, dot: string, dsp: string, word: string, il: string, r: string, m: string)
    requires dsp == dot + sp && il == word + sp
    ensures em + sp + num + dsp + il + r + dsp + m == em + sp + (num + dot) + sp + word + sp + (r + dot) + sp + m
    ensures em + sp + num + dsp + il + r + dsp + m == em + (sp + num + dsp + il + r + dsp + m)
  {
  }

  lemma ErrorShape(it: Item, n: int)
    ensures ErrorLine(it, n) == ErrorMark + [' '] + (IntToString(n) + ".") + [' '] + "Пункт" + [' '] + (it.reqNum + ".") + [' '] + it.name
    ensures ErrorLine(it, n) == ErrorMark + (" " + IntToString(n) + ". " + ItemLabel + it.reqNum + ". " + it.name)
    ensures ErrorLine(it, n) == ErrorHead(it, n) + it.name
  {
    assert " " == [' '] && ". " == "." + [' '] && ItemLabel == "Пункт" + [' '];
    Regroup(ErrorMark, " ", IntToString(n), ".", ". ", "Пункт", ItemLabel, it.reqNum, it.name);
  }

  /** The fourth space-separated token of an error line is the number with its dot. */
  lemma ErrorSplit(it: Item, n: int)
    requires IdText(it.reqNum)
    ensures var ts := Split(ErrorLine(it, n), ' '); |ts| >= 4 && ts[3] == it.reqNum + "."
  {
    assert !ContainsChar(ErrorMark, ' ') && !ContainsChar("Пункт", ' ') && !ContainsChar(".", ' ');
    IntNumeralLacks(n, ' ');
    ContainsCharAppend(IntToString(n), ".", ' ');
    IdLacks(it.reqNum, ' ');
    ContainsCharAppend(it.reqNum, ".", ' ');
    FourTokens(ErrorMark, IntToString(n) + ".", "Пункт", it.reqNum + ".", it.name);
    ErrorShape(it, n);
  }

  /** An error line flushes the pending comment and makes the item's number current. */
  lemma ErrorStep(s: Step, it: Item, n: int)
    requires s.ok && IdText(it.reqNum) && OneLine(it.name)
    ensures Terminated(ErrorLine(it, n) + "\n")
    ensures Then(s, Ls(ErrorLine(it, n) + "\n")) == Step(s.cursor.(comment := "", req := it.reqNum), s.writes + Flush(s.cursor, true).writes, true)
  {
    var l := ErrorLine(it, n);
    ErrorShape(it, n);
    assert !ContainsChar(ErrorMark, '\n') && !ContainsChar(ItemLabel, '\n');
    HeadLacks(it, n, '\n');
    ContainsCharAppend(ErrorHead(it, n), it.name, '\n');
    LsLine(l);
    ErrorPhrases(it, n);
    ContainsGrow(l, "\n", HighTitle);
    StartsWithPrefix(ErrorMark, " " + IntToString(n) + ". " + ItemLabel + it.reqNum + ". " + it.name);
    ErrorSplit(it, n);
    StripDot(it.reqNum);
    ThenLine(s, l);
  }

  lemma DescriptionMarkStep(c: Cursor)
    ensures LineStep(c, DescriptionMark) == Step(c.(field := DescriptionField), [], true)
  {
    MarksQuiet();
    assert HighTitle[1] == 'ы';
    CharBlocks(DescriptionMark, HighTitle, 1);
    StartsDiffer(DescriptionMark, ErrorMark, 5);
  }

  lemma AutoMarkStep(c: Cursor)
    ensures var f := Flush(c, false); LineStep(c, AutoMark) == f.(cursor := f.cursor.(field := NoField))
  {
    MarksQuiet();
    assert HighTitle[1] == 'ы';
    CharBlocks(AutoMark, HighTitle, 1);
    StartsDiffer(AutoMark, ErrorMark, 4);
    assert AutoMark[4] != DescriptionMark[4];
    StartsDiffer(AutoMark, DescriptionMark, 4);
  }

  lemma CommentMarkStep(c: Cursor)
    ensures var f := if c.field == DescriptionField then Flush(c, false) else Step(c, [], true);
      LineStep(c, CommentMark) == f.(cursor := f.cursor.(field := CommentField))
  {
    MarksQuiet();
    assert HighTitle[1] == 'ы';
    CharBlocks(CommentMark, HighTitle, 1);
    StartsDiffer(CommentMark, ErrorMark, 4);
    assert CommentMark[4] != DescriptionMark[4] && CommentMark[4] != AutoMark[4];
    StartsDiffer(CommentMark, DescriptionMark, 4);
    StartsDiffer(CommentMark, AutoMark, 4);
  }

  /** A line of its own, ended by a line break, is one step of the reader. */
  lemma MarkThen(s: Step, l: string)
    requires s.ok && !ContainsChar(l, '\n')
    ensures Terminated(l + "\n")
    ensures var t := LineStep(s.cursor, l); Then(s, Ls(l + "\n")) == Step(t.cursor, s.writes + t.writes, t.ok)
  {
    LsLine(l);
    ThenLine(s, l);
  }

  lemma DescriptionThen(s: Step)
    requires s.ok
    ensures Terminated(DescriptionMark + "\n")
    ensures Then(s, Ls(DescriptionMark + "\n")) == s.(cursor := s.cursor.(field := DescriptionField))
  {
    assert !ContainsChar(DescriptionMark, '\n') by {
      MarksQuiet();
    }
    MarkThen(s, DescriptionMark);
    DescriptionMarkStep(s.cursor);
    assert s.writes + [] == s.writes;
  }

  lemma AutoThen(s: Step)
    requires s.ok
    ensures Terminated(AutoMark + "\n")
    ensures var f := Flush(s.cursor, false);
      Then(s, Ls(AutoMark + "\n")) == Step(f.cursor.(field := NoField), s.writes + f.writes, true)
  {
    assert !ContainsChar(AutoMark, '\n') by {
      MarksQuiet();
    }
    MarkThen(s, AutoMark);
    AutoMarkStep(s.cursor);
  }

  lemma CommentThen(s: Step)
    requires s.ok
    ensures Terminated(CommentMark + "\n")
    ensures var f := if s.cursor.field == DescriptionField then Flush(s.cursor, false) else Step(s.cursor, [], true);
      Then(s, Ls(CommentMark + "\n")) == Step(f.cursor.(field := CommentField), s.writes + f.writes, true)
  {
    assert !ContainsChar(CommentMark, '\n') by {
      MarksQuiet();
    }
    MarkThen(s, CommentMark);
    CommentMarkStep(s.cursor);
  }

  /** The error line and the description block: the item's description is gathered. */
  lemma DescribedStep(s: Step, it: Item, n: int)
    requires s.ok && s.cursor.description == "" && ItemReady(it)
    ensures var t := ErrorLine(it, n) + "\n" + DescriptionBlock(it.userDescription);
      Terminated(t)
      && Then(s, Ls(t)) == Step(Cursor(s.cursor.high, it.reqNum, "", it.userDescription + "\n", DescriptionField), s.writes + Flush(s.cursor, true).writes, true)
  {
    var d := it.userDescription;
    ErrorStep(s, it, n);
    var s1 := Step(s.cursor.(comment := "", req := it.reqNum), s.writes + Flush(s.cursor, true).writes, true);
    DescriptionStep(s1, d);
    ThenText(s, ErrorLine(it, n) + "\n", DescriptionBlock(d));
  }

  lemma DescriptionStep(s: Step, d: string)
    requires s.ok && s.cursor.description == "" && PlainText(d)
    ensures Terminated(DescriptionBlock(d))
    ensures Then(s, Ls(DescriptionBlock(d))) == s.(cursor := s.cursor.(field := DescriptionField, description := d + "\n"))
  {
    DescriptionThen(s);
    var s2 := s.(cursor := s.cursor.(field := DescriptionField));
    PlainIdleText(d);
    IdleTextRun(s2, d + "\n");
    assert "" + (d + "\n") == d + "\n";
    ThenText(s, DescriptionMark + "\n", d + "\n");
  }

  lemma ErrorsIdle(e: string)
    requires PlainBlock(e)
    ensures IdleText(e)
  {
    if e != "" {
      assert e == e[..|e| - 1] + "\n";
      PlainIdleText(e[..|e| - 1]);
    }
  }

  /** The automatic errors and the comment mark: the gathered description is written. */
  lemma MarkedStep(s: Step, it: Item)
    requires s.ok && s.cursor.req != "" && s.cursor.comment == "" && s.cursor.field == DescriptionField
    requires it.auto ==> PlainBlock(it.errorsText)
    ensures var t := AutoBlock(it) + (CommentMark + "\n");
      Terminated(t)
      && Then(s, Ls(t)) == Step(s.cursor.(description := "", field := CommentField), s.writes + [Write(s.cursor.high, s.cursor.req, false, Strip(s.cursor.description))], true)
  {
    var w := [Write(s.cursor.high, s.cursor.req, false, Strip(s.cursor.description))];
    if it.auto {
      AutoThen(s);
      var s1 := Step(s.cursor.(description := "", field := NoField), s.writes + w, true);
      var e := it.errorsText;
      ErrorsIdle(e);
      IdleTextRun(s1, e);
      CommentThen(s1);
      assert s1.writes + [] == s1.writes;
      ThenText(s, AutoMark + "\n", e);
      ThenText(s, AutoMark + "\n" + e, CommentMark + "\n");
    } else {
      assert AutoBlock(it) + (CommentMark + "\n") == CommentMark + "\n";
      CommentThen(s);
    }
  }

  /** The comment field when the next error line or heading comes: the comment and the blank lines after it. */
  function Pending(it: Item): string {
    it.userComment + "\n" + "\n" + (if it.userComment != "" then "\n" else "")
  }

  lemma PendingStrip(it: Item)
    ensures Strip(Pending(it)) == Strip(it.userComment)
  {
    var w := "\n" + "\n" + (if it.userComment != "" then "\n" else "");
    assert AllSpace(w);
    assert Pending(it) == it.userComment + w;
    StripAppendSpace(it.userComment, w);
  }

  lemma CommentStep(s: Step, it: Item)
    requires s.ok && s.cursor.comment == "" && s.cursor.field == CommentField && PlainText(it.userComment)
    ensures IdleText(Pending(it)) && Then(s, Ls(Pending(it))) == s.(cursor := s.cursor.(comment := Pending(it)))
  {
    var c := it.userComment;
    var p6 := if c != "" then "\n" else "";
    PlainIdleText(c);
    EmptyIdleText();
    IdleTextAppend(c + "\n", "\n");
    if c != "" {
      IdleTextAppend(c + "\n" + "\n", "\n");
    } else {
      assert c + "\n" + "\n" + p6 == c + "\n" + "\n";
    }
    IdleTextRun(s, Pending(it));
    assert "" + Pending(it) == Pending(it);
  }

  lemma ItemParts(p1: string, p2: string, p3: string, m: string, x: string, y: string, z: string)
    ensures p1 + p2 + p3 + (m + x) + y + z == (p1 + p2) + (p3 + m) + (x + y + z)
  {
  }

  lemma ThenThree(s: Step, a: string, b: string, c: string, s1: Step, s2: Step, s3: Step)
    requires Terminated(a) && Terminated(b) && Terminated(c)
    requires Then(s, Ls(a)) == s1 && Then(s1, Ls(b)) == s2 && Then(s2, Ls(c)) == s3
    ensures Terminated(a + b + c) && Then(s, Ls(a + b + c)) == s3
  {
    ThenText(s, a, b);
    ThenText(s, a + b, c);
  }

  /** An item's block: the error line and description, the automatic errors and comment mark, the comment. */
  lemma ItemSplit(it: Item, n: int)
    ensures ItemText(it, n) == (ErrorLine(it, n) + "\n" + DescriptionBlock(it.userDescription)) + (AutoBlock(it) + (CommentMark + "\n")) + Pending(it)
  {
    ItemParts(ErrorLine(it, n) + "\n", DescriptionBlock(it.userDescription), AutoBlock(it), CommentMark + "\n", it.userComment + "\n", "\n", if it.userComment != "" then "\n" else "");
  }

  /**
   * A failed item's block: the comment pending before it is written, then its
   * description, stripped; its own comment is left pending.
   */
  lemma ItemStep(s: Step, it: Item, n: int)
    requires s.ok && s.cursor.description == "" && ItemReady(it)
    ensures Terminated(ItemText(it, n))
    ensures Then(s, Ls(ItemText(it, n)))
      == Step(Cursor(s.cursor.high, it.reqNum, Pending(it), "", CommentField),
              s.writes + Flush(s.cursor, true).writes + [Write(s.cursor.high, it.reqNum, false, Strip(it.userDescription))], true)
  {
    var d := it.userDescription;
    var a := ErrorLine(it, n) + "\n" + DescriptionBlock(d);
    var b := AutoBlock(it) + (CommentMark + "\n");
    var w := Write(s.cursor.high, it.reqNum, false, Strip(d));
    var s1 := Step(Cursor(s.cursor.high, it.reqNum, "", d + "\n", DescriptionField), s.writes + Flush(s.cursor, true).writes, true);
    var s2 := Step(Cursor(s.cursor.high, it.reqNum, "", "", CommentField), s1.writes + [w], true);
    var s3 := s2.(cursor := s2.cursor.(comment := Pending(it)));
    assert Terminated(a) && Then(s, Ls(a)) == s1 by {
      DescribedStep(s, it, n);
    }
    assert Terminated(b) && Then(s1, Ls(b)) == s2 by {
      MarkedStep(s1, it);
      assert AllSpace("\n");
      StripAppendSpace(d, "\n");
    }
    assert Terminated(Pending(it)) && Then(s2, Ls(Pending(it))) == s3 by {
      CommentStep(s2, it);
    }
    ThenThree(s, a, b, Pending(it), s1, s2, s3);
    ItemSplit(it, n);
  }

  /* ---------------------------------------------------------------- */
  /* Tiers and the whole report                                        */
  /* ---------------------------------------------------------------- */

  /**
   * What reading a tier's blocks back writes into that tier: for each failed
   * item, its description and then its comment, both stripped.
   */
  function Notes(items: seq<Item>, high: bool): seq<Write> {
    if items == [] then []
    else
      var it := items[|items| - 1];
      Notes(items[..|items| - 1], high)
      + (if it.checkState == Failed then [Write(high, it.reqNum, false, Strip(it.userDescription)), Write(high, it.reqNum, true, Strip(it.userComment))] else [])
  }

  lemma TierFront(items: seq<Item>)
    requires items != [] && TierReady(items)
    ensures TierReady(items[..|items| - 1])
    ensures items[|items| - 1].checkState == Failed ==> ItemReady(items[|items| - 1])
  {
    var front := items[..|items| - 1];
    forall k | 0 <= k < |front| ensures IdText(front[k].reqNum) && (front[k].checkState == Failed ==> ItemReady(front[k])) {
      assert front[k] == items[k];
    }
  }

  /**
   * Reading a tier's blocks keeps the tier and leaves no description pending;
   * with the comment still pending flushed, it has written the tier's notes.
   */
  /**
   * Reading the lines of `x` from `s` raises nothing, ends in tier `high`
   * with no description pending, and, once the comment still pending is
   * flushed, has written `w` in all.
   */
  predicate ReadsTo(s: Step, x: string, high: bool, w: seq<Write>) {
    Terminated(x)
    && var t := Then(s, Ls(x));
      t.ok && t.cursor.high == high && t.cursor.description == "" && t.cursor.field != DescriptionField
      && t.writes + Flush(t.cursor, true).writes == w
  }

  lemma ReadsSame(s: Step, x: string, z: string, high: bool, w1: seq<Write>, w2: seq<Write>)
    requires ReadsTo(s, x, high, w1) && z == x && w1 == w2
    ensures ReadsTo(s, z, high, w2)
  {
  }

  /** Text that leads from `s` to `u` followed by text read from `u`. */
  lemma ReadsOn(s: Step, x: string, u: Step, y: string, high: bool, w: seq<Write>)
    requires Terminated(x) && Then(s, Ls(x)) == u && ReadsTo(u, y, high, w)
    ensures ReadsTo(s, x + y, high, w)
  {
    ThenText(s, x, y);
  }

  /**
   * Reading a tier's blocks keeps the tier and leaves no description pending;
   * with the comment still pending flushed, it has written the tier's notes.
   */
  lemma {:induction false} TierGo(s: Step, items: seq<Item>)
    requires s.ok && s.cursor.req == "" && s.cursor.description == "" && s.cursor.field != DescriptionField && TierReady(items)
    ensures ReadsTo(s, TierText(items), s.cursor.high, s.writes + Notes(items, s.cursor.high))
    decreases |items|
  {
    if items == [] {
      TierBase(s);
    } else {
      var front := items[..|items| - 1];
      var it := items[|items| - 1];
      var h := s.cursor.high;
      assert ReadsTo(s, TierText(front + [it]), h, s.writes + Notes(front + [it], h)) by {
        TierFront(items);
        TierGo(s, front);
        if it.checkState == Failed {
          TierNextFailed(s, front, it);
        } else {
          TierNextPassed(s, front, it);
        }
      }
      assert items == front + [it];
    }
  }

  lemma TierBase(s: Step)
    requires s.ok && s.cursor.req == "" && s.cursor.description == "" && s.cursor.field != DescriptionField
    ensures ReadsTo(s, TierText([]), s.cursor.high, s.writes + Notes([], s.cursor.high))
  {
    ThenEmpty(s);
    assert s.writes + [] == s.writes;
  }

  /** One more failed item adds its two notes. */
  lemma TierNextFailed(s: Step, front: seq<Item>, it: Item)
    requires s.ok && ReadsTo(s, TierText(front), s.cursor.high, s.writes + Notes(front, s.cursor.high))
    requires it.checkState == Failed && ItemReady(it)
    ensures ReadsTo(s, TierText(front + [it]), s.cursor.high, s.writes + Notes(front + [it], s.cursor.high))
  {
    var h := s.cursor.high;
    var n := FailedCount(front) + 1;
    var more := [Write(h, it.reqNum, false, Strip(it.userDescription)), Write(h, it.reqNum, true, Strip(it.userComment))];
    assert ReadsTo(s, TierText(front) + ItemText(it, n), h, s.writes + Notes(front, h) + more) by {
      TextThenItem(s, TierText(front), it, n, s.writes + Notes(front, h));
    }
    FailedText(front, it, n);
    assert s.writes + Notes(front, h) + more == s.writes + Notes(front + [it], h) by {
      FailedNotes(front, it, h, s.writes);
    }
    ReadsSame(s, TierText(front) + ItemText(it, n), TierText(front + [it]), h, s.writes + Notes(front, h) + more, s.writes + Notes(front + [it], h));
  }

  /** An item that is not failed adds nothing. */
  lemma TierNextPassed(s: Step, front: seq<Item>, it: Item)
    requires ReadsTo(s, TierText(front), s.cursor.high, s.writes + Notes(front, s.cursor.high)) && it.checkState != Failed
    ensures ReadsTo(s, TierText(front + [it]), s.cursor.high, s.writes + Notes(front + [it], s.cursor.high))
  {
    PassedText(front, it);
    PassedNotes(front, it, s.cursor.high);
    ReadsSame(s, TierText(front), TierText(front + [it]), s.cursor.high, s.writes + Notes(front, s.cursor.high), s.writes + Notes(front + [it], s.cursor.high));
  }

  lemma FailedText(front: seq<Item>, it: Item, n: int)
    requires it.checkState == Failed && n == FailedCount(front) + 1
    ensures TierText(front + [it]) == TierText(front) + ItemText(it, n)
  {
    TierStep(front, it);
  }

  lemma FailedNotes(front: seq<Item>, it: Item, h: bool, w: seq<Write>)
    requires it.checkState == Failed
    ensures w + Notes(front, h) + [Write(h, it.reqNum, false, Strip(it.userDescription)), Write(h, it.reqNum, true, Strip(it.userComment))]
         == w + Notes(front + [it], h)
  {
    var more := [Write(h, it.reqNum, false, Strip(it.userDescription)), Write(h, it.reqNum, true, Strip(it.userComment))];
    assert Notes(front + [it], h) == Notes(front, h) + more by {
      assert (front + [it])[..|front|] == front;
    }
    AppendAssoc(w, Notes(front, h), more);
  }

  lemma PassedText(front: seq<Item>, it: Item)
    requires it.checkState != Failed
    ensures TierText(front + [it]) == TierText(front)
  {
    TierStep(front, it);
    assert TierText(front) + "" == TierText(front);
  }

  lemma PassedNotes(front: seq<Item>, it: Item, h: bool)
    requires it.checkState != Failed
    ensures Notes(front + [it], h) == Notes(front, h)
  {
    assert (front + [it])[..|front|] == front;
    assert Notes(front + [it], h) == Notes(front, h) + [];
  }

  /** Reading one more failed item's block after some text adds the item's two notes. */
  lemma TextThenItem(s: Step, x: string, it: Item, n: int, w: seq<Write>)
    requires s.ok && ReadsTo(s, x, s.cursor.high, w) && ItemReady(it)
    ensures ReadsTo(s, x + ItemText(it, n), s.cursor.high,
                    w + [Write(s.cursor.high, it.reqNum, false, Strip(it.userDescription)), Write(s.cursor.high, it.reqNum, true, Strip(it.userComment))])
  {
    var t1 := Then(s, Ls(x));
    ItemNotes(t1, it, n);
    ItemStep(t1, it, n);
    ThenText(s, x, ItemText(it, n));
  }

  /** A failed item's block, with the comment pending after it flushed, adds its two notes. */
  lemma ItemNotes(s: Step, it: Item, n: int)
    requires s.ok && s.cursor.description == "" && ItemReady(it)
    ensures var t := Then(s, Ls(ItemText(it, n)));
      t.ok && t.cursor.high == s.cursor.high && t.cursor.description == "" && t.cursor.field == CommentField
      && t.writes + Flush(t.cursor, true).writes
         == s.writes + Flush(s.cursor, true).writes
            + [Write(s.cursor.high, it.reqNum, false, Strip(it.userDescription)), Write(s.cursor.high, it.reqNum, true, Strip(it.userComment))]
  {
    var t := Then(s, Ls(ItemText(it, n)));
    var w := s.writes + Flush(s.cursor, true).writes;
    assert t == Step(Cursor(s.cursor.high, it.reqNum, Pending(it), "", CommentField), w + [Write(s.cursor.high, it.reqNum, false, Strip(it.userDescription))], true) by {
      ItemStep(s, it, n);
    }
    PendingNotes(t, w, s.cursor.high, it);
  }

  lemma PendingNotes(t: Step, w: seq<Write>, h: bool, it: Item)
    requires IdText(it.reqNum)
    requires t == Step(Cursor(h, it.reqNum, Pending(it), "", CommentField), w + [Write(h, it.reqNum, false, Strip(it.userDescription))], true)
    ensures t.writes + Flush(t.cursor, true).writes == w + [Write(h, it.reqNum, false, Strip(it.userDescription)), Write(h, it.reqNum, true, Strip(it.userComment))]
  {
    var a := Write(h, it.reqNum, false, Strip(it.userDescription));
    var b := Write(h, it.reqNum, true, Strip(it.userComment));
    PendingStrip(it);
    assert it.reqNum != "";
    assert Flush(t.cursor, true).writes == [b];
    AppendAssoc(w, [a], [b]);
    assert [a] + [b] == [a, b];
  }

  /** The heading of the high-poly part flushes the pending comment and switches to the high tier. */
  lemma HighBannerStep(s: Step)
    requires s.ok
    ensures Terminated(Banner(HighTitle))
    ensures var f := Flush(s.cursor, true);
      Then(s, Ls(Banner(HighTitle))) == Step(Gathered(f.cursor.(high := true), "\n"), s.writes + f.writes, true)
  {
    var d := "--------";
    var l := d + HighTitle + d;
    assert Banner(HighTitle) == (l + "\n") + "\n";
    assert !ContainsChar(d, '\n') && !ContainsChar(HighTitle, '\n');
    Lacks(d, HighTitle, d, '\n');
    LsLine(l);
    ContainsInfix(d, HighTitle, d);
    ThenLine(s, l);
    var f := Flush(s.cursor, true);
    var s1 := Step(f.cursor.(high := true), s.writes + f.writes, true);
    assert Then(s, Ls(l + "\n")) == s1;
    EmptyIdleText();
    IdleTextRun(s1, "\n");
    ThenText(s, l + "\n", "\n");
  }

  /** Where reading starts: a fresh cursor and nothing written. */
  const Begin := Step(Fresh, [], true)

  /** The low-poly heading and tier, read from the start. */
  lemma LowHalf(low: seq<Item>)
    requires TierReady(low)
    ensures ReadsTo(Begin, Banner(LowTitle) + TierText(low), false, Notes(low, false))
  {
    LowBannerIdle();
    IdleTextRun(Begin, Banner(LowTitle));
    TierGo(Begin, low);
    assert [] + Notes(low, false) == Notes(low, false);
    ReadsOn(Begin, Banner(LowTitle), Begin, TierText(low), false, Notes(low, false));
  }

  /** The high-poly heading and tier, read after text that ends in the low tier. */
  lemma HighHalf(s: Step, x: string, w: seq<Write>, high: seq<Item>)
    requires s.ok && ReadsTo(s, x, false, w) && TierReady(high)
    ensures ReadsTo(s, x + (Banner(HighTitle) + TierText(high)), true, w + Notes(high, true))
  {
    var t := Then(s, Ls(x));
    HighBannerStep(t);
    var f := Flush(t.cursor, true);
    var t2 := Step(Gathered(f.cursor.(high := true), "\n"), t.writes + f.writes, true);
    assert t2.cursor.req == "" && t2.cursor.description == "" && t2.cursor.field != DescriptionField && t2.cursor.high;
    TierGo(t2, high);
    ReadsOn(t, Banner(HighTitle), t2, TierText(high), true, w + Notes(high, true));
    ReadsOn(s, x, t, Banner(HighTitle) + TierText(high), true, w + Notes(high, true));
  }

  lemma Assoc(a: string, b: string, c: string)
    ensures a + (b + c) == a + b + c
  {
  }

  lemma GoThen(c: Cursor, ls: seq<string>)
    ensures Then(Step(c, [], true), ls) == Go(c, ls)
  {
    assert [] + Go(c, ls).writes == Go(c, ls).writes;
  }

  /** Blender's lines of a text read from the start, the last (empty) line included, with the final flush. */
  lemma EditReads(r: string, high: bool, w: seq<Write>)
    requires ReadsTo(Begin, r, high, w)
    ensures Edit(Split(r, '\n')).ok && Edit(Split(r, '\n')).writes == w
  {
    var u := Then(Begin, Ls(r));
    var lines := Ls(r) + [""];
    SplitLs(r);
    assert Scan(lines) == Then(u, [""]) by {
      ScanGo(lines);
      GoThen(Fresh, lines);
      ThenAppend(Begin, Ls(r), [""]);
    }
    assert Then(u, [""]) == u.(cursor := Gathered(u.cursor, "\n")) by {
      EmptyIdleText();
      assert Ls("\n") == [""];
      IdleTextRun(u, "\n");
    }
    FlushGathered(u.cursor);
  }

  /**
   * Reading the first text of a report back through the editor writes, for
   * every failed item of each tier in order, its stripped description and its
   * stripped comment, addressed to that tier; no line raises.
   */
  lemma NotesRead(h: Header, low: seq<Category>, high: seq<Category>)
    requires Ready(h, low, high)
    ensures var e := Edit(Split(ReportText(h, low, high), '\n'));
      e.ok && e.writes == Notes(Flat(low), false) + Notes(Flat(high), true)
  {
    var head := HeaderText(h, Unchecked(low), Unchecked(high));
    var a := Banner(LowTitle) + TierText(Flat(low));
    var b := Banner(HighTitle) + TierText(Flat(high));
    var body := Banner(LowTitle) + TierText(Flat(low)) + Banner(HighTitle) + TierText(Flat(high));
    var w := Notes(Flat(low), false) + Notes(Flat(high), true);
    assert Terminated(head) && Then(Begin, Ls(head)) == Begin by {
      UncheckedIds(low);
      UncheckedIds(high);
      HeaderIdle(h, Unchecked(low), Unchecked(high));
      IdleTextRun(Begin, head);
    }
    assert ReadsTo(Begin, a + b, true, w) by {
      LowHalf(Flat(low));
      HighHalf(Begin, a, Notes(Flat(low), false), Flat(high));
    }
    assert ReadsTo(Begin, body, true, w) by {
      Assoc(a, Banner(HighTitle), TierText(Flat(high)));
      ReadsSame(Begin, a + b, body, true, w, w);
    }
    assert ReadsTo(Begin, head + body, true, w) by {
      ReadsOn(Begin, head, Begin, body, true, w);
    }
    assert ReportText(h, low, high) == head + body by {
      ReportParts(h, low, high);
    }
    ReadsSame(Begin, head + body, ReportText(h, low, high), true, w, w);
    EditReads(ReportText(h, low, high), true, w);
  }
}
