/**
 * Text seen as lines: the line list Python's `readlines` yields and the one
 * Blender's text editor holds (`Split(s, '\n')`), and the facts about
 * substring tests on single lines that the report round trips rest on.
 */
module Lines {
  import opened Text

  /** A text that is empty or ends with a line break. */
  predicate Terminated(s: string) {
    s == "" || s[|s| - 1] == '\n'
  }

  /** Each line followed by a line break. */
  function Terminate(ls: seq<string>): (r: seq<string>)
    ensures |r| == |ls|
    ensures forall i :: 0 <= i < |ls| ==> r[i] == ls[i] + "\n"
  {
    seq(|ls|, i requires 0 <= i < |ls| => ls[i] + "\n")
  }

  /**
   * `file.readlines()`: every line keeps its line break; a last line
   * without one is kept as it is, an empty last piece yields no line.
   */
  function ReadLines(s: string): seq<string> {
    var ps := Split(s, '\n');
    Terminate(ps[..|ps| - 1]) + (if ps[|ps| - 1] == "" then [] else [ps[|ps| - 1]])
  }

  /** The lines written one after the other, as `msg += line` accumulates them. */
  function Concat(ls: seq<string>): string {
    if ls == [] then "" else Concat(ls[..|ls| - 1]) + ls[|ls| - 1]
  }

  lemma {:induction false} ConcatAppend(a: seq<string>, b: seq<string>)
    ensures Concat(a + b) == Concat(a) + Concat(b)
    decreases |b|
  {
    if b == [] {
      assert a + b == a;
    } else {
      var front := b[..|b| - 1];
      assert (a + b)[..|a + b| - 1] == a + front;
      assert (a + b)[|a + b| - 1] == b[|b| - 1];
      ConcatAppend(a, front);
      AppendAssoc(Concat(a), Concat(front), b[|b| - 1]);
    }
  }

  lemma {:induction false} JoinLast(ps: seq<string>, sep: string)
    requires |ps| >= 2
    ensures Join(ps, sep) == Join(ps[..|ps| - 1], sep) + sep + ps[|ps| - 1]
    decreases |ps|
  {
    if |ps| > 2 {
      JoinLast(ps[1..], sep);
      assert ps[1..][..|ps| - 2] == ps[..|ps| - 1][1..];
    }
  }

  lemma {:induction false} ConcatTerminate(ps: seq<string>)
    requires |ps| >= 1
    ensures Concat(Terminate(ps)) == Join(ps, "\n") + "\n"
    decreases |ps|
  {
    var t := Terminate(ps);
    assert t[..|t| - 1] == Terminate(ps[..|ps| - 1]);
    if |ps| >= 2 {
      ConcatTerminate(ps[..|ps| - 1]);
      JoinLast(ps, "\n");
    }
  }

  /** Writing out what `readlines` returned gives back the text. */
  lemma ReadLinesConcat(s: string)
    ensures Concat(ReadLines(s)) == s
  {
    var ps := Split(s, '\n');
    var n := |ps|;
    JoinSplit(s, '\n');
    ConcatAppend(Terminate(ps[..n - 1]), if ps[n - 1] == "" then [] else [ps[n - 1]]);
    if n >= 2 {
      ConcatTerminate(ps[..n - 1]);
      JoinLast(ps, "\n");
    } else {
      assert [ps[0]][..0] == [];
    }
  }

  lemma TerminateAppend(a: seq<string>, b: seq<string>)
    ensures Terminate(a + b) == Terminate(a) + Terminate(b)
  {
  }

  /** A text ending in a line break splits into its lines, as `readlines` reads them, independently of what follows. */
  lemma ReadLinesAppend(a: string, b: string)
    requires Terminated(a)
    ensures ReadLines(a + b) == ReadLines(a) + ReadLines(b)
  {
    if a == "" {
      assert a + b == b;
    } else {
      var a' := a[..|a| - 1];
      assert a + b == a' + ['\n'] + b;
      SplitAround(a', '\n', b);
      assert a == a' + "\n";
      ReadLinesText(a');
      var p := Split(a', '\n');
      var q := Split(b, '\n');
      assert (p + q)[..|p| + |q| - 1] == p + q[..|q| - 1];
      assert (p + q)[|p| + |q| - 1] == q[|q| - 1];
      TerminateAppend(p, q[..|q| - 1]);
      var tail: seq<string> := if q[|q| - 1] == "" then [] else [q[|q| - 1]];
      AppendAssoc(Terminate(p), Terminate(q[..|q| - 1]), tail);
    }
  }

  /** A prefix without line breaks joins the first line of what follows it. */
  lemma {:induction false} SplitPrefix(p: string, x: string, c: char)
    requires !ContainsChar(p, c)
    ensures Split(p + x, c) == [p + Split(x, c)[0]] + Split(x, c)[1..]
    decreases |p|
  {
    if p == "" {
      var q := Split(x, c);
      assert p + x == x && p + q[0] == q[0];
      assert [q[0]] + q[1..] == q;
    } else {
      assert !ContainsChar(p[1..], c) by {
        forall i | 0 <= i < |p[1..]| ensures p[1..][i] != c {
          assert p[1..][i] == p[i + 1];
        }
      }
      SplitPrefix(p[1..], x, c);
      assert (p + x)[0] == p[0] != c;
      assert (p + x)[1..] == p[1..] + x;
      assert [p[0]] + (p[1..] + Split(x, c)[0]) == p + Split(x, c)[0];
    }
  }

  /** The lines `readlines` yields for a text followed by a line break: the text's pieces, each terminated. */
  lemma ReadLinesText(x: string)
    ensures ReadLines(x + "\n") == Terminate(Split(x, '\n'))
  {
    assert x + "\n" == x + ['\n'] + "";
    SplitAround(x, '\n', "");
    var p := Split(x, '\n');
    assert (p + [""])[..|p|] == p;
  }

  /** The same for a text behind a line-break-free prefix. */
  lemma ReadLinesPrefixed(p: string, x: string)
    requires !ContainsChar(p, '\n')
    ensures var q := Split(x, '\n');
      ReadLines(p + x + "\n") == Terminate([p + q[0]] + q[1..])
  {
    ReadLinesText(p + x);
    SplitPrefix(p, x, '\n');
  }

  /** A one-line text read with its line break. */
  lemma ReadLinesLine(l: string)
    requires !ContainsChar(l, '\n')
    ensures ReadLines(l + "\n") == [l + "\n"]
  {
    ReadLinesText(l);
    SplitNoSep(l, '\n');
  }

  lemma ContainsCharAppend(a: string, b: string, c: char)
    ensures ContainsChar(a + b, c) <==> ContainsChar(a, c) || ContainsChar(b, c)
  {
    if ContainsChar(a + b, c) {
      var i :| 0 <= i < |a + b| && (a + b)[i] == c;
      if i >= |a| {
        assert b[i - |a|] == c;
      }
    }
    if ContainsChar(a, c) {
      var i :| 0 <= i < |a| && a[i] == c;
      assert (a + b)[i] == c;
    }
    if ContainsChar(b, c) {
      var i :| 0 <= i < |b| && b[i] == c;
      assert (a + b)[|a| + i] == c;
    }
  }

  /** A string lacking one of the characters of `m` does not contain `m`. */
  lemma CharBlocks(s: string, m: string, i: int)
    requires 0 <= i < |m| && !ContainsChar(s, m[i])
    ensures !Contains(s, m)
  {
    forall k | 0 <= k <= |s| - |m| ensures !OccursAt(s, m, k) {
      assert s[k..k + |m|][i] == s[k + i] != m[i];
    }
  }

  /** An occurrence of `m` cannot start inside a prefix that lacks its first character. */
  lemma FirstCharBlocks(p: string, x: string, m: string)
    requires |m| > 0 && !ContainsChar(p, m[0])
    ensures Contains(p + x, m) ==> Contains(x, m)
  {
    if Contains(p + x, m) {
      var k :| 0 <= k <= |p + x| - |m| && OccursAt(p + x, m, k);
      assert (p + x)[k..k + |m|][0] == (p + x)[k];
      assert k >= |p|;
      assert x[k - |p|..k - |p| + |m|] == (p + x)[k..k + |m|];
      assert OccursAt(x, m, k - |p|);
    }
  }

  /** An occurrence of a line-break-free `m` in a line with its break lies in the line. */
  lemma NewlineBlocks(s: string, m: string)
    requires |m| > 0 && !ContainsChar(m, '\n')
    ensures Contains(s + "\n", m) ==> Contains(s, m)
  {
    if Contains(s + "\n", m) {
      var k :| 0 <= k <= |s + "\n"| - |m| && OccursAt(s + "\n", m, k);
      assert (s + "\n")[k..k + |m|][|m| - 1] == (s + "\n")[k + |m| - 1];
      assert m[|m| - 1] != '\n';
      assert k + |m| <= |s|;
      assert s[k..k + |m|] == (s + "\n")[k..k + |m|];
      assert OccursAt(s, m, k);
    }
  }

  lemma StartsWithNewline(s: string, m: string)
    requires !ContainsChar(m, '\n')
    ensures StartsWith(s + "\n", m) ==> StartsWith(s, m)
  {
    if |m| == |s| + 1 {
      assert (s + "\n")[..|m|][|s|] == '\n' != m[|s|];
    } else if |m| <= |s| {
      assert s[..|m|] == (s + "\n")[..|m|];
    }
  }

  /** A string whose `k`-th character differs from the prefix's does not start with it. */
  lemma StartsDiffer(s: string, m: string, k: int)
    requires 0 <= k < |m| && k < |s| && s[k] != m[k]
    ensures !StartsWith(s, m)
  {
    if |m| <= |s| {
      assert s[..|m|][k] == s[k];
    }
  }

  /** A string starting with `m` starts with every prefix of `m`. */
  lemma StartsWithShorter(s: string, m: string, n: int)
    requires 0 <= n <= |m|
    ensures StartsWith(s, m) ==> StartsWith(s, m[..n])
  {
    if StartsWith(s, m) {
      assert s[..n] == s[..|m|][..n];
    }
  }

  lemma StartsWithPrefix(p: string, x: string)
    ensures StartsWith(p + x, p)
  {
    assert (p + x)[..|p|] == p;
  }

  lemma ContainsInfix(a: string, m: string, b: string)
    ensures Contains(a + m + b, m)
  {
    assert OccursAt(a + m + b, m, |a|) by {
      assert (a + m + b)[|a|..|a| + |m|] == m;
    }
  }

  lemma ContainsLead(m: string, b: string, c: string, d: string)
    ensures Contains(m + b + c + d, m)
  {
    assert OccursAt(m + b + c + d, m, 0) by {
      assert (m + b + c + d)[0..|m|] == m;
    }
  }

  lemma TerminatedAppend(a: string, b: string)
    requires Terminated(a) && Terminated(b)
    ensures Terminated(a + b)
  {
    if b == "" {
      assert a + b == a;
    }
  }

  /**
   * `split(sep)` passes over a prefix that cannot hold the start of a
   * separator: it lacks the separator's second character, and so does the
   * first character after it.
   */
  /** One step of the split when the text does not open with the separator. */
  lemma SplitStrStep(s: string, sep: string)
    requires |sep| > 0 && |s| > 0 && !StartsWith(s, sep)
    ensures var u := SplitStr(s[1..], sep);
      SplitStr(s, sep) == [[s[0]] + u[0]] + u[1..]
  {
  }

  lemma {:induction false} SplitStrPrefix(p: string, x: string, sep: string)
    requires |sep| >= 2 && !ContainsChar(p, sep[1]) && (x == "" || x[0] != sep[1])
    ensures var t := SplitStr(x, sep);
      SplitStr(p + x, sep) == [p + t[0]] + t[1..]
    decreases |p|
  {
    var t := SplitStr(x, sep);
    if p == "" {
      assert p + x == x && p + t[0] == t[0];
      assert [t[0]] + t[1..] == t;
    } else {
      var s := p + x;
      if |p| >= 2 {
        assert s[1] == p[1];
        StartsDiffer(s, sep, 1);
      } else if x != "" {
        assert s[1] == x[0];
        StartsDiffer(s, sep, 1);
      }
      assert !ContainsChar(p[1..], sep[1]) by {
        forall i | 0 <= i < |p[1..]| ensures p[1..][i] != sep[1] {
          assert p[1..][i] == p[i + 1];
        }
      }
      SplitStrPrefix(p[1..], x, sep);
      assert s[1..] == p[1..] + x;
      var u := SplitStr(s[1..], sep);
      assert u == [p[1..] + t[0]] + t[1..];
      assert u[0] == p[1..] + t[0] && u[1..] == t[1..];
      SplitStrStep(s, sep);
      assert [s[0]] + u[0] == p + t[0] by {
        ConsTail(p, t[0]);
      }
    }
  }

  lemma SplitStrSep(sep: string, x: string)
    requires |sep| > 0
    ensures SplitStr(sep + x, sep) == [""] + SplitStr(x, sep)
  {
    StartsWithPrefix(sep, x);
    assert (sep + x)[|sep|..] == x;
  }

  /** Splitting a join at its separator gives back the parts when no part holds the separator's second character. */
  lemma {:induction false} SplitStrJoin(ps: seq<string>, sep: string)
    requires |sep| >= 2 && sep[0] != sep[1] && |ps| >= 1
    requires forall i :: 0 <= i < |ps| ==> !ContainsChar(ps[i], sep[1])
    ensures SplitStr(Join(ps, sep), sep) == ps
    decreases |ps|
  {
    if |ps| == 1 {
      SplitStrPrefix(ps[0], "", sep);
      assert ps[0] + "" == ps[0];
    } else {
      var rest := Join(ps[1..], sep);
      var t := SplitStr(sep + rest, sep);
      assert t[0] == "" && t[1..] == ps[1..] by {
        assert forall i :: 0 <= i < |ps[1..]| ==> !ContainsChar(ps[1..][i], sep[1]) by {
          forall i | 0 <= i < |ps[1..]| ensures !ContainsChar(ps[1..][i], sep[1]) {
            assert ps[1..][i] == ps[i + 1];
          }
        }
        SplitStrJoin(ps[1..], sep);
        SplitStrSep(sep, rest);
      }
      assert SplitStr(ps[0] + (sep + rest), sep) == [ps[0] + t[0]] + t[1..] by {
        SplitStrPrefix(ps[0], sep + rest, sep);
      }
      assert Join(ps, sep) == ps[0] + (sep + rest);
      assert ps[0] + t[0] == ps[0];
      assert ps == [ps[0]] + ps[1..];
    }
  }

  /** A join lacks a character that neither the parts nor the separator hold. */
  lemma {:induction false} JoinLacks(ps: seq<string>, sep: string, c: char)
    requires !ContainsChar(sep, c)
    requires forall i :: 0 <= i < |ps| ==> !ContainsChar(ps[i], c)
    ensures !ContainsChar(Join(ps, sep), c)
    decreases |ps|
  {
    if |ps| >= 2 {
      JoinLacks(ps[1..], sep, c);
      ContainsCharAppend(ps[0], sep, c);
      ContainsCharAppend(ps[0] + sep, Join(ps[1..], sep), c);
    }
  }

  /** A join of non-empty parts begins with the first part's first character and ends with the last part's last one. */
  lemma JoinEnds(ps: seq<string>, sep: string)
    requires |ps| >= 1 && ps[0] != "" && ps[|ps| - 1] != ""
    ensures var j := Join(ps, sep);
      |j| > 0 && j[0] == ps[0][0] && j[|j| - 1] == ps[|ps| - 1][|ps[|ps| - 1]| - 1]
  {
    if |ps| >= 2 {
      JoinLast(ps, sep);
    }
  }

  /** Decimal numerals hold digits only. */
  lemma NumeralLacks(n: nat, c: char)
    requires !IsDigit(c)
    ensures !ContainsChar(NatToString(n), c)
  {
  }

  lemma IntNumeralLacks(i: int, c: char)
    requires !IsDigit(c) && c != '-'
    ensures !ContainsChar(IntToString(i), c)
  {
    if i < 0 {
      ContainsCharAppend("-", NatToString(-i), c);
    }
  }
}
