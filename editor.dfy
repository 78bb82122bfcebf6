/**
 * Reading the report back from the text editor (`update_checks_from_text_editor`):
 * the lines of the editor text are walked once; under each "----Ошибка" line the
 * text after "----Описание пункта:" becomes the item's own description and the
 * text after "----Комментарий к ошибке:" its comment. A state machine keeps the
 * current requirement number, the text gathered so far for each field and the
 * field being filled; the gathered text is written ("flushed") into the first
 * item of the current tier that has that number.
 */
module Editor {
  import opened Wrappers
  import opened Text
  import opened Checklist
  import opened Report

  /** The field the following plain lines are added to. */
  datatype Field = NoField | DescriptionField | CommentField

  /** The walk's state: the tier, the number of the current error and the text gathered for each field. */
  datatype Cursor = Cursor(high: bool, req: string, comment: string, description: string, field: Field)

  const Fresh := Cursor(false, "", "", "", NoField)

  /** One write into a checklist: the tier, the number, which field (comment or description) and the text. */
  datatype Write = Write(high: bool, req: string, comment: bool, text: string)

  /** The state after some lines, the writes they caused, and whether the walk is still going (false once a line raised). */
  datatype Step = Step(cursor: Cursor, writes: seq<Write>, ok: bool)

  /**
   * `try_to_write_comment`: with a current number, the gathered text, stripped, is
   * written; a comment flush then forgets the comment and the number, a
   * description flush only the description.
   */
  function Flush(c: Cursor, isComment: bool): (r: Step)
    ensures r.ok && |r.writes| <= 1
    ensures r.writes != [] <==> c.req != ""
    ensures r.writes != [] ==> r.writes[0] == Write(c.high, c.req, isComment, Strip(if isComment then c.comment else c.description))
    ensures isComment ==> r.cursor == c.(comment := "", req := "")
    ensures !isComment ==> r.cursor == c.(description := "")
  {
    var w := if c.req != "" then [Write(c.high, c.req, isComment, Strip(if isComment then c.comment else c.description))] else [];
    Step(if isComment then c.(comment := "", req := "") else c.(description := ""), w, true)
  }

  /** One line of the editor, in the order the source tests it; `ok` is false where the line raises. */
  function LineStep(c: Cursor, body: string): Step {
    if Contains(body, HighTitle) then
      var f := Flush(c, true);
      f.(cursor := f.cursor.(high := true))
    else if StartsWith(body, ErrorMark) then
      var f := Flush(c, true);
      var tokens := Split(body, ' ');
      if |tokens| < 4 then f.(ok := false)
      else f.(cursor := f.cursor.(req := StripChar(tokens[3], '.')))
    else if StartsWith(body, DescriptionMark) then
      Step(c.(field := DescriptionField), [], true)
    else if StartsWith(body, AutoMark) then
      var f := Flush(c, false);
      f.(cursor := f.cursor.(field := NoField))
    else if StartsWith(body, CommentMark) then
      var f := if c.field == DescriptionField then Flush(c, false) else Step(c, [], true);
      f.(cursor := f.cursor.(field := CommentField))
    else
      match c.field
      case DescriptionField => Step(c.(description := c.description + body + "\n"), [], true)
      case CommentField => Step(c.(comment := c.comment + body + "\n"), [], true)
      case NoField => Step(c, [], true)
  }

  /** The walk over the lines, stopping at the first line that raises. */
  function Scan(lines: seq<string>): Step {
    if lines == [] then Step(Fresh, [], true)
    else
      var s := Scan(lines[..|lines| - 1]);
      if !s.ok then s
      else
        var t := LineStep(s.cursor, lines[|lines| - 1]);
        Step(t.cursor, s.writes + t.writes, t.ok)
  }

  /** The whole reading: after the last line the pending comment is flushed (unless a line raised). */
  function Edit(lines: seq<string>): Step {
    var s := Scan(lines);
    if s.ok && lines != [] then
      var f := Flush(s.cursor, true);
      Step(f.cursor, s.writes + f.writes, true)
    else s
  }

  /** The categories of one tier after the writes addressed to that tier, in order. */
  function Written(cats: seq<Category>, ws: seq<Write>, high: bool): (r: seq<Category>)
    ensures |r| == |cats|
  {
    if ws == [] then cats
    else
      var w := ws[|ws| - 1];
      var prev := Written(cats, ws[..|ws| - 1], high);
      if w.high == high then WriteCats(prev, w.req, w.comment, w.text) else prev
  }

  lemma {:induction false} WrittenAppend(cats: seq<Category>, a: seq<Write>, b: seq<Write>, high: bool)
    ensures Written(cats, a + b, high) == Written(Written(cats, a, high), b, high)
    decreases |b|
  {
    if b == [] {
      assert a + b == a;
    } else {
      assert (a + b)[..|a + b| - 1] == a + b[..|b| - 1];
      WrittenAppend(cats, a, b[..|b| - 1], high);
    }
  }

  /** Writes addressed to the other tier leave a tier as it is. */
  lemma {:induction false} WrittenOther(cats: seq<Category>, ws: seq<Write>, high: bool)
    requires forall k :: 0 <= k < |ws| ==> ws[k].high != high
    ensures Written(cats, ws, high) == cats
    decreases |ws|
  {
    if ws != [] {
      WrittenOther(cats, ws[..|ws| - 1], high);
    }
  }

  /** A line writes only under a current number, to the current tier, and at most once. */
  lemma LineWrites(c: Cursor, body: string)
    ensures var ws := LineStep(c, body).writes;
      |ws| <= 1 && (ws != [] ==> c.req != "" && ws[0].req == c.req && ws[0].high == c.high)
  {
  }

  /** Every write carries a number: nothing is written while the number is empty. */
  lemma {:induction false} ScanNumbered(lines: seq<string>)
    ensures forall k :: 0 <= k < |Scan(lines).writes| ==> Scan(lines).writes[k].req != ""
    decreases |lines|
  {
    if lines != [] {
      var s := Scan(lines[..|lines| - 1]);
      ScanNumbered(lines[..|lines| - 1]);
      if s.ok {
        var t := LineStep(s.cursor, lines[|lines| - 1]);
        LineWrites(s.cursor, lines[|lines| - 1]);
        assert Scan(lines).writes == s.writes + t.writes;
        Numbered(s.writes, t.writes);
      }
    }
  }

  lemma Numbered(a: seq<Write>, b: seq<Write>)
    requires forall k :: 0 <= k < |a| ==> a[k].req != ""
    requires forall k :: 0 <= k < |b| ==> b[k].req != ""
    ensures forall k :: 0 <= k < |a + b| ==> (a + b)[k].req != ""
  {
  }

  lemma LowOnly(a: seq<Write>, b: seq<Write>)
    requires forall k :: 0 <= k < |a| ==> !a[k].high
    requires forall k :: 0 <= k < |b| ==> !b[k].high
    ensures forall k :: 0 <= k < |a + b| ==> !(a + b)[k].high
  {
  }

  /** Lines before the high-poly heading write only to the low-poly tier. */
  lemma {:induction false} ScanLowFirst(lines: seq<string>)
    ensures !Scan(lines).cursor.high ==> forall k :: 0 <= k < |Scan(lines).writes| ==> !Scan(lines).writes[k].high
    decreases |lines|
  {
    if lines != [] {
      var s := Scan(lines[..|lines| - 1]);
      ScanLowFirst(lines[..|lines| - 1]);
      if s.ok {
        var t := LineStep(s.cursor, lines[|lines| - 1]);
        LineWrites(s.cursor, lines[|lines| - 1]);
        HighStays(s.cursor, lines[|lines| - 1]);
        assert Scan(lines).writes == s.writes + t.writes && Scan(lines).cursor == t.cursor;
        LowStep(s, t);
      }
    }
  }

  lemma LowStep(s: Step, t: Step)
    requires s.cursor.high ==> t.cursor.high
    requires !s.cursor.high ==> forall k :: 0 <= k < |s.writes| ==> !s.writes[k].high
    requires |t.writes| <= 1 && (t.writes != [] ==> t.writes[0].high == s.cursor.high)
    ensures !t.cursor.high ==> forall k :: 0 <= k < |s.writes + t.writes| ==> !(s.writes + t.writes)[k].high
  {
    if !t.cursor.high {
      LowOnly(s.writes, t.writes);
    }
  }

  /** No line leaves the high-poly tier once it has begun. */
  lemma HighStays(c: Cursor, body: string)
    ensures c.high ==> LineStep(c, body).cursor.high
  {
  }

  /** Once a line raised, later lines change nothing. */
  lemma {:induction false} ScanStops(lines: seq<string>, more: seq<string>)
    requires !Scan(lines).ok
    ensures Scan(lines + more) == Scan(lines)
    decreases |more|
  {
    if more != [] {
      var all := lines + more;
      assert all[..|all| - 1] == lines + more[..|more| - 1];
      ScanStops(lines, more[..|more| - 1]);
      assert !Scan(all[..|all| - 1]).ok;
    } else {
      assert lines + more == lines;
    }
  }

  /** Writing one flush into the checklist of the cursor's tier. */
  method WriteBack(c: Cursor, isComment: bool, lp: Checklist, hp: Checklist) returns (next: Cursor)
    requires lp != hp
    modifies lp, hp
    ensures next == Flush(c, isComment).cursor
    ensures lp.categories == Written(old(lp.categories), Flush(c, isComment).writes, false)
    ensures hp.categories == Written(old(hp.categories), Flush(c, isComment).writes, true)
    ensures lp.totals == old(lp.totals) && hp.totals == old(hp.totals)
  {
    var f := Flush(c, isComment);
    assert f.writes == [] || f.writes[..0] == [];
    if c.req != "" {
      var text := Strip(if isComment then c.comment else c.description);
      if c.high {
        hp.WriteFirst(c.req, isComment, text);
      } else {
        lp.WriteFirst(c.req, isComment, text);
      }
    }
    next := if isComment then c.(comment := "", req := "") else c.(description := "");
  }

  /** One line of the editor text, acted on as `LineStep` says. */
  method ReadLine(c: Cursor, body: string, lp: Checklist, hp: Checklist) returns (next: Cursor, ok: bool)
    requires lp != hp
    modifies lp, hp
    ensures next == LineStep(c, body).cursor && ok == LineStep(c, body).ok
    ensures lp.categories == Written(old(lp.categories), LineStep(c, body).writes, false)
    ensures hp.categories == Written(old(hp.categories), LineStep(c, body).writes, true)
    ensures lp.totals == old(lp.totals) && hp.totals == old(hp.totals)
  {
    ok := true;
    if Contains(body, HighTitle) {
      next := WriteBack(c, true, lp, hp);
      next := next.(high := true);
    } else if StartsWith(body, ErrorMark) {
      next := WriteBack(c, true, lp, hp);
      var tokens := Split(body, ' ');
      if |tokens| < 4 {
        ok := false;
      } else {
        next := next.(req := StripChar(tokens[3], '.'));
      }
    } else if StartsWith(body, DescriptionMark) {
      next := c.(field := DescriptionField);
    } else if StartsWith(body, AutoMark) {
      next := WriteBack(c, false, lp, hp);
      next := next.(field := NoField);
    } else if StartsWith(body, CommentMark) {
      next := c;
      if c.field == DescriptionField {
        next := WriteBack(c, false, lp, hp);
      }
      next := next.(field := CommentField);
    } else {
      next := c;
      match c.field
      case DescriptionField =>
        next := c.(description := c.description + body + "\n");
      case CommentField =>
        next := c.(comment := c.comment + body + "\n");
      case NoField =>
    }
  }

  /**
   * `update_checks_from_text_editor`: without the report text nothing happens;
   * otherwise each tier receives, in order, the writes of `Edit` addressed to
   * it, and `ok` is false when a line raised (the writes made before it stay).
   */
  method UpdateChecksFromEditor(editor: Option<seq<string>>, lp: Checklist, hp: Checklist) returns (ok: bool)
    requires lp != hp
    modifies lp, hp
    ensures editor.None? ==> ok && lp.categories == old(lp.categories) && hp.categories == old(hp.categories)
    ensures editor.Some? ==> ok == Edit(editor.value).ok
    ensures editor.Some? ==> lp.categories == Written(old(lp.categories), Edit(editor.value).writes, false)
    ensures editor.Some? ==> hp.categories == Written(old(hp.categories), Edit(editor.value).writes, true)
    ensures lp.totals == old(lp.totals) && hp.totals == old(hp.totals)
  {
    if editor.None? {
      return true;
    }
    var lines := editor.value;
    var c := Fresh;
    ghost var ws: seq<Write> := [];
    ok := true;
    var i := 0;
    while i < |lines|
      invariant 0 <= i <= |lines|
      invariant Scan(lines[..i]) == Step(c, ws, true)
      invariant lp.categories == Written(old(lp.categories), ws, false)
      invariant hp.categories == Written(old(hp.categories), ws, true)
      invariant lp.totals == old(lp.totals) && hp.totals == old(hp.totals)
    {
      assert lines[..i + 1][..i] == lines[..i];
      ghost var step := LineStep(c, lines[i]);
      c, ok := ReadLine(c, lines[i], lp, hp);
      WrittenAppend(old(lp.categories), ws, step.writes, false);
      WrittenAppend(old(hp.categories), ws, step.writes, true);
      ws := ws + step.writes;
      if !ok {
        ScanStops(lines[..i + 1], lines[i + 1..]);
        assert lines[..i + 1] + lines[i + 1..] == lines;
        return;
      }
      i := i + 1;
    }
    assert lines[..i] == lines;
    // the source flushes the pending comment while handling the last line
    if lines != [] {
      ghost var f := Flush(c, true);
      c := WriteBack(c, true, lp, hp);
      WrittenAppend(old(lp.categories), ws, f.writes, false);
      WrittenAppend(old(hp.categories), ws, f.writes, true);
    }
  }

  /**
   * The whole of `load_report`: the saved text is loaded as `LoadReport` says,
   * then it is put into the text editor and the comments and descriptions are
   * read back from its lines.
   */
  method LoadReportWithNotes(path: string, text: string, lp: Checklist, hp: Checklist) returns (r: Option<Loaded>, ok: bool)
    requires lp != hp
    modifies lp, hp
    ensures r == (if EndsWith(path, ".txt") then LoadText(text) else None)
    ensures r.None? ==> ok && lp.categories == old(lp.categories) && hp.categories == old(hp.categories)
    ensures r.Some? ==> ok == Edit(Split(text, '\n')).ok
    ensures r.None? ==> lp.totals == old(lp.totals) && hp.totals == old(hp.totals)
    ensures r.Some? ==>
      var l := AfterLoad(old(lp.categories), old(lp.totals), r.value.failedLow, r.value.notLow);
      lp.categories == Written(l.0, Edit(Split(text, '\n')).writes, false) && lp.totals == l.1
    ensures r.Some? ==>
      var h := AfterLoad(old(hp.categories), old(hp.totals), r.value.failedHigh, r.value.notHigh);
      hp.categories == Written(h.0, Edit(Split(text, '\n')).writes, true) && hp.totals == h.1
  {
    r := LoadReport(path, text, lp, hp);
    ok := true;
    if r.Some? {
      ok := UpdateChecksFromEditor(Some(Split(text, '\n')), lp, hp);
    }
  }
}
