/**
 * The Python `str` operations the checker relies on, as functions on
 * `seq<char>`: substring search, `split`, `join`, `strip`, `replace`,
 * `ljust`, `lower` (ASCII letters only), `str(int)` and `int(str)`, and
 * `round` of an exact quotient.
 */
module Text {
  import opened Wrappers

  /** Characters for which Python's `str.isspace` holds (ASCII and the common Unicode ones). */
  predicate IsSpace(c: char) {
    c == ' ' || c == '\t' || c == '\n' || c == '\r' || c == '\U{000B}' || c == '\U{000C}'
    || c == '\U{001C}' || c == '\U{001D}' || c == '\U{001E}' || c == '\U{001F}'
    || c == '\U{0085}' || c == ' ' || c == ' ' || c == ' ' || c == ' '
    || c == ' ' || c == ' ' || c == '　' || (' ' <= c <= ' ')
  }

  predicate AllSpace(s: string) {
    forall i :: 0 <= i < |s| ==> IsSpace(s[i])
  }

  predicate NoSpace(s: string) {
    forall i :: 0 <= i < |s| ==> !IsSpace(s[i])
  }

  predicate IsDigit(c: char) {
    '0' <= c <= '9'
  }

  /** `s.isdigit()` restricted to ASCII digits: non-empty and every character a digit. */
  predicate IsDigits(s: string) {
    |s| > 0 && forall i :: 0 <= i < |s| ==> IsDigit(s[i])
  }

  predicate StartsWith(s: string, p: string) {
    |p| <= |s| && s[..|p|] == p
  }

  predicate EndsWith(s: string, p: string) {
    |p| <= |s| && s[|s| - |p|..] == p
  }

  /** `t` occurs in `s` starting at index `k`. */
  predicate OccursAt(s: string, t: string, k: int) {
    0 <= k && k + |t| <= |s| && s[k..k + |t|] == t
  }

  /** `t in s` for strings: some window of `s` equals `t`. */
  predicate Contains(s: string, t: string) {
    exists k :: 0 <= k <= |s| - |t| && OccursAt(s, t, k)
  }

  predicate ContainsChar(s: string, c: char) {
    exists i :: 0 <= i < |s| && s[i] == c
  }

  /** An occurrence in the tail is one in the whole string, one place further on. */
  lemma ContainsTail(s: string, t: string)
    requires |s| > 0
    ensures Contains(s[1..], t) ==> Contains(s, t)
  {
    if Contains(s[1..], t) {
      var k :| 0 <= k <= |s[1..]| - |t| && OccursAt(s[1..], t, k);
      assert s[k + 1..k + 1 + |t|] == s[1..][k..k + |t|] == t;
      assert OccursAt(s, t, k + 1);
    }
  }

  /** ASCII lower-casing, as `str.lower` acts on the file and object names checked here. */
  function LowerChar(c: char): (r: char)
    ensures !('A' <= r <= 'Z')
    ensures !('A' <= c <= 'Z') ==> r == c
  {
    if 'A' <= c <= 'Z' then (c as int + 32) as char else c
  }

  function Lower(s: string): (r: string)
    ensures |r| == |s|
    ensures forall i :: 0 <= i < |s| ==> r[i] == LowerChar(s[i])
  {
    if |s| == 0 then [] else [LowerChar(s[0])] + Lower(s[1..])
  }

  /** `s.lstrip()` */
  function TrimLeft(s: string): (r: string)
    ensures |r| <= |s| && r == s[|s| - |r|..]
    ensures |r| == 0 || !IsSpace(r[0])
    ensures AllSpace(s[..|s| - |r|])
  {
    if |s| > 0 && IsSpace(s[0]) then
      var r := TrimLeft(s[1..]);
      assert s[..|s| - |r|] == [s[0]] + s[1..][..|s| - 1 - |r|];
      r
    else s
  }

  /** `s.rstrip()` */
  function TrimRight(s: string): (r: string)
    ensures |r| <= |s| && r == s[..|r|]
    ensures |r| == 0 || !IsSpace(r[|r| - 1])
    ensures AllSpace(s[|r|..])
  {
    if |s| > 0 && IsSpace(s[|s| - 1]) then
      var r := TrimRight(s[..|s| - 1]);
      assert s[|r|..] == s[..|s| - 1][|r|..] + [s[|s| - 1]];
      r
    else s
  }

  /** `s.strip()` */
  function Strip(s: string): string {
    TrimRight(TrimLeft(s))
  }

  /** `s.strip(c)` for a single character `c`. */
  function StripChar(s: string, c: char): (r: string)
    ensures |r| <= |s|
    ensures |r| == 0 || (r[0] != c && r[|r| - 1] != c)
    ensures forall i :: 0 <= i < |s| && s[i] != c ==> |r| > 0
  {
    if |s| > 0 && s[0] == c then StripChar(s[1..], c)
    else if |s| > 0 && s[|s| - 1] == c then StripChar(s[..|s| - 1], c)
    else s
  }

  lemma StripChar0(s: string, c: char)
    requires |s| == 0 || (s[0] != c && s[|s| - 1] != c)
    ensures StripChar(s, c) == s
  {
  }

  lemma TrimRightAppendSpace(s: string, w: string)
    requires AllSpace(w)
    ensures TrimRight(s + w) == TrimRight(s)
    decreases |w|
  {
    if |w| > 0 {
      assert (s + w)[..|s + w| - 1] == s + w[..|w| - 1];
      TrimRightAppendSpace(s, w[..|w| - 1]);
    } else {
      assert s + w == s;
    }
  }

  lemma TrimLeftAppend(s: string, w: string)
    requires !AllSpace(s)
    ensures TrimLeft(s + w) == TrimLeft(s) + w
    decreases |s|
  {
    if IsSpace(s[0]) {
      assert (s + w)[1..] == s[1..] + w;
      TrimLeftAppend(s[1..], w);
    }
  }

  lemma TrimLeftAllSpace(s: string)
    requires AllSpace(s)
    ensures TrimLeft(s) == []
    decreases |s|
  {
    if |s| > 0 {
      TrimLeftAllSpace(s[1..]);
    }
  }

  /** Trailing white space, such as the newline a report line carries, does not change `strip()`. */
  lemma {:induction false} StripAppendSpace(s: string, w: string)
    requires AllSpace(w)
    ensures Strip(s + w) == Strip(s)
  {
    if AllSpace(s) {
      TrimLeftAllSpace(s);
      TrimLeftAllSpace(s + w);
    } else {
      TrimLeftAppend(s, w);
      TrimRightAppendSpace(TrimLeft(s), w);
    }
  }

  lemma StripNoSpaceEnds(s: string)
    requires |s| == 0 || (!IsSpace(s[0]) && !IsSpace(s[|s| - 1]))
    ensures Strip(s) == s
  {
  }

  /** `s.split(c)` for a one-character separator `c`. */
  function Split(s: string, c: char): (r: seq<string>)
    ensures |r| >= 1
    ensures forall k :: 0 <= k < |r| ==> !ContainsChar(r[k], c)
    decreases |s|
  {
    if |s| == 0 then [""]
    else if s[0] == c then [""] + Split(s[1..], c)
    else
      var t := Split(s[1..], c);
      [[s[0]] + t[0]] + t[1..]
  }

  /** `sep.join(parts)` */
  function Join(parts: seq<string>, sep: string): (r: string)
    decreases |parts|
  {
    if |parts| == 0 then ""
    else if |parts| == 1 then parts[0]
    else parts[0] + sep + Join(parts[1..], sep)
  }

  /** Joining the pieces of a split with the separator gives back the string. */
  lemma {:induction false} JoinSplit(s: string, c: char)
    ensures Join(Split(s, c), [c]) == s
    decreases |s|
  {
    if |s| == 0 {
    } else if s[0] == c {
      JoinSplit(s[1..], c);
      var t := Split(s[1..], c);
      assert Split(s, c) == [""] + t;
      assert Join([""] + t, [c]) == "" + [c] + Join(t, [c]) by {
        assert ([""] + t)[1..] == t;
      }
      assert s == [c] + s[1..];
    } else {
      JoinSplit(s[1..], c);
      var t := Split(s[1..], c);
      var h := [s[0]] + t[0];
      assert Split(s, c) == [h] + t[1..];
      if |t| == 1 {
        assert s == [s[0]] + s[1..];
      } else {
        assert Join([h] + t[1..], [c]) == h + [c] + Join(t[1..], [c]) by {
          assert ([h] + t[1..])[1..] == t[1..];
        }
        assert Join(t, [c]) == t[0] + [c] + Join(t[1..], [c]);
        assert s == [s[0]] + s[1..];
      }
    }
  }

  /** Splitting at a separator occurrence concatenates the splits of both sides. */
  lemma {:induction false} SplitAround(a: string, c: char, b: string)
    ensures Split(a + [c] + b, c) == Split(a, c) + Split(b, c)
    decreases |a|
  {
    var s := a + [c] + b;
    if |a| == 0 {
      assert s[0] == c && s[1..] == b;
    } else {
      assert s[0] == a[0] && s[1..] == a[1..] + [c] + b;
      SplitAround(a[1..], c, b);
      if a[0] != c {
        var t := Split(a[1..], c);
        assert Split(a[1..] + [c] + b, c) == t + Split(b, c);
      }
    }
  }

  lemma SplitNoSep(s: string, c: char)
    requires !ContainsChar(s, c)
    ensures Split(s, c) == [s]
    decreases |s|
  {
    if |s| > 0 {
      assert !ContainsChar(s[1..], c) by {
        forall i | 0 <= i < |s[1..]| ensures s[1..][i] != c {
          assert s[1..][i] == s[i + 1];
        }
      }
      SplitNoSep(s[1..], c);
      assert s[0] != c;
      assert [s[0]] + s[1..] == s;
    }
  }

  /** A split has at least two pieces exactly when the separator occurs. */
  lemma SplitHasSep(s: string, c: char)
    ensures |Split(s, c)| >= 2 <==> ContainsChar(s, c)
  {
    if ContainsChar(s, c) {
      var i :| 0 <= i < |s| && s[i] == c;
      assert s == s[..i] + [c] + s[i + 1..];
      SplitAround(s[..i], c, s[i + 1..]);
    } else {
      SplitNoSep(s, c);
    }
  }

  /** Splitting the join of separator-free pieces gives back the pieces. */
  lemma {:induction false} SplitJoin(parts: seq<string>, c: char)
    requires |parts| >= 1
    requires forall k :: 0 <= k < |parts| ==> !ContainsChar(parts[k], c)
    ensures Split(Join(parts, [c]), c) == parts
    decreases |parts|
  {
    if |parts| == 1 {
      SplitNoSep(parts[0], c);
    } else {
      SplitJoin(parts[1..], c);
      SplitNoSep(parts[0], c);
      SplitAround(parts[0], c, Join(parts[1..], [c]));
      assert parts == [parts[0]] + parts[1..];
    }
  }

  /** `s.split(sep)` for a non-empty separator string, scanning left to right. */
  function SplitStr(s: string, sep: string): (r: seq<string>)
    requires |sep| > 0
    ensures |r| >= 1
    decreases |s|
  {
    if StartsWith(s, sep) then [""] + SplitStr(s[|sep|..], sep)
    else if |s| == 0 then [""]
    else
      var t := SplitStr(s[1..], sep);
      [[s[0]] + t[0]] + t[1..]
  }

  /** `s.replace(old, new)`: every non-overlapping occurrence, scanning left to right. */
  function ReplaceAll(s: string, pat: string, rep: string): (r: string)
    requires |pat| > 0
    ensures StartsWith(s, pat) ==> StartsWith(r, rep)
    decreases |s|
  {
    if StartsWith(s, pat) then rep + ReplaceAll(s[|pat|..], pat, rep)
    else if |s| == 0 then s
    else [s[0]] + ReplaceAll(s[1..], pat, rep)
  }

  /** A string without the pattern is left as it is. */
  lemma {:induction false} ReplaceAllAbsent(s: string, pat: string, rep: string)
    requires |pat| > 0 && !Contains(s, pat)
    ensures ReplaceAll(s, pat, rep) == s
    decreases |s|
  {
    assert !OccursAt(s, pat, 0);
    if |s| > 0 {
      ContainsTail(s, pat);
      ReplaceAllAbsent(s[1..], pat, rep);
    }
  }

  /** `round` of `n / d` with ties to even, as Python rounds. */
  function RoundHalfEven(n: nat, d: nat): (r: nat)
    requires d > 0
    ensures 2 * (d * r) <= 2 * n + d && 2 * n <= 2 * (d * r) + d
    ensures 2 * (d * r) == 2 * n + d ==> r % 2 == 0
    ensures 2 * n == 2 * (d * r) + d ==> r % 2 == 0
  {
    var q := n / d;
    var rem := n % d;
    QuotientParts(n, d);
    if 2 * rem > d then q + 1
    else if 2 * rem < d then q
    else if q % 2 == 0 then q else q + 1
  }

  lemma QuotientParts(n: nat, d: nat)
    requires d > 0
    ensures n == d * (n / d) + n % d && 0 <= n % d < d
    ensures d * (n / d + 1) == d * (n / d) + d
  {
  }

  /** `s.ljust(w, c)`: pad on the right with `c` up to width `w`; longer strings stay as they are. */
  function LJust(s: string, w: nat, c: char): (r: string)
    ensures |r| == if |s| >= w then |s| else w
    ensures r[..|s|] == s
    ensures forall i :: |s| <= i < |r| ==> r[i] == c
  {
    if |s| >= w then s else s + seq(w - |s|, _ => c)
  }

  /** `s.rjust(w, c)`: pad on the left with `c` up to width `w`; longer strings stay as they are. */
  function RJust(s: string, w: nat, c: char): (r: string)
    ensures |r| == if |s| >= w then |s| else w
    ensures r[|r| - |s|..] == s
    ensures forall i :: 0 <= i < |r| - |s| ==> r[i] == c
  {
    if |s| >= w then s else seq(w - |s|, _ => c) + s
  }

  function DigitChar(d: nat): (c: char)
    requires d < 10
    ensures IsDigit(c)
  {
    ('0' as int + d) as char
  }

  function DigitValue(c: char): nat
    requires IsDigit(c)
  {
    c as int - '0' as int
  }

  /** `str(n)` for a natural number: decimal, no leading zeros. */
  function NatToString(n: nat): (r: string)
    ensures IsDigits(r)
    ensures |r| > 1 ==> r[0] != '0'
    decreases n
  {
    if n < 10 then [DigitChar(n)] else NatToString(n / 10) + [DigitChar(n % 10)]
  }

  /** `str(i)` */
  function IntToString(i: int): string {
    if i < 0 then "-" + NatToString(-i) else NatToString(i)
  }

  /** The digits of `s` read as a decimal number, ignoring `_` separators. */
  function DigitsValue(s: string): nat
    requires forall i :: 0 <= i < |s| ==> IsDigit(s[i]) || s[i] == '_'
  {
    if |s| == 0 then 0
    else if s[|s| - 1] == '_' then DigitsValue(s[..|s| - 1])
    else DigitsValue(s[..|s| - 1]) * 10 + DigitValue(s[|s| - 1])
  }

  /** What Python's `int()` accepts after the sign: digits, with single `_` between digits. */
  predicate WellFormedDigits(s: string) {
    |s| > 0 && IsDigit(s[0]) && IsDigit(s[|s| - 1])
    && (forall i :: 0 <= i < |s| ==> IsDigit(s[i]) || s[i] == '_')
    && (forall i :: 0 <= i < |s| - 1 ==> !DoubleUnderscore(s, i))
  }

  /** Two `_` in a row at `i`. */
  predicate DoubleUnderscore(s: string, i: int) {
    0 <= i < |s| - 1 && s[i] == '_' && s[i + 1] == '_'
  }

  /** `int(s)` for ASCII decimal text; `None` where Python raises `ValueError`. */
  function ParseInt(s: string): (r: Option<int>)
    ensures r.Some? ==> |Strip(s)| > 0
  {
    ParseStripped(Strip(s))
  }

  /** `int()` once the surrounding white space is gone: an optional sign, then digits. */
  function ParseStripped(t: string): (r: Option<int>)
    ensures r.Some? ==> |t| > 0
  {
    if |t| > 0 && (t[0] == '-' || t[0] == '+') then
      if WellFormedDigits(t[1..]) then
        var v: int := DigitsValue(t[1..]);
        Some(if t[0] == '-' then -v else v)
      else None
    else if WellFormedDigits(t) then Some(DigitsValue(t))
    else None
  }

  lemma {:induction false} DigitsValueNat(n: nat)
    ensures DigitsValue(NatToString(n)) == n
    decreases n
  {
    var s := NatToString(n);
    if n >= 10 {
      DigitsValueNat(n / 10);
      assert s[..|s| - 1] == NatToString(n / 10);
    }
  }

  /** A digit string is what `int()` accepts after the sign. */
  lemma DigitsWellFormed(d: string)
    requires IsDigits(d)
    ensures WellFormedDigits(d)
  {
  }

  /** The text of a number has no white space to strip. */
  lemma IntTextStripped(i: int)
    ensures Strip(IntToString(i)) == IntToString(i)
  {
    var s := IntToString(i);
    var d := NatToString(if i < 0 then -i else i);
    assert s[|s| - 1] == d[|d| - 1];
    StripNoSpaceEnds(s);
  }

  /** `int(str(i)) == i` for a negative number. */
  lemma ParseIntNegative(i: int)
    requires i < 0
    ensures ParseStripped(IntToString(i)) == Some(i)
  {
    var d := NatToString(-i);
    var s := IntToString(i);
    assert s[0] == '-' && s[1..] == d by {
      assert s == "-" + d;
    }
    DigitsValueNat(-i);
    DigitsWellFormed(d);
  }

  /** `int(str(i)) == i` for a number that is not negative. */
  lemma ParseIntNatural(i: int)
    requires i >= 0
    ensures ParseStripped(IntToString(i)) == Some(i)
  {
    var s := NatToString(i);
    DigitsValueNat(i);
    DigitsWellFormed(s);
  }

  /** `int(str(i)) == i` */
  lemma ParseIntToString(i: int)
    ensures ParseInt(IntToString(i)) == Some(i)
  {
    IntTextStripped(i);
    if i < 0 {
      ParseIntNegative(i);
    } else {
      ParseIntNatural(i);
    }
  }

  /** An ASCII digit string always parses, to the value of its digits. */
  lemma ParseIntDigits(s: string)
    requires IsDigits(s)
    ensures ParseInt(s) == Some(DigitsValue(s))
  {
    DigitsStripped(s);
    DigitsParsed(s);
  }

  lemma DigitsStripped(s: string)
    requires IsDigits(s)
    ensures Strip(s) == s
  {
    assert IsDigit(s[0]) && IsDigit(s[|s| - 1]);
    StripNoSpaceEnds(s);
  }

  lemma DigitsParsed(s: string)
    requires IsDigits(s)
    ensures ParseStripped(s) == Some(DigitsValue(s))
  {
    assert IsDigit(s[0]);
    DigitsWellFormed(s);
  }

  /** Python's `<` on strings: code-point lexicographic order. */
  predicate StrLt(a: string, b: string)
    decreases |a|
  {
    (|a| == 0 && |b| > 0)
    || (|a| > 0 && |b| > 0 && (a[0] < b[0] || (a[0] == b[0] && StrLt(a[1..], b[1..]))))
  }

  predicate StrLe(a: string, b: string) {
    a == b || StrLt(a, b)
  }

  lemma StrLtIrreflexive(a: string)
    ensures !StrLt(a, a)
  {
  }

  lemma {:induction false} StrLtTrans(a: string, b: string, c: string)
    requires StrLt(a, b) && StrLt(b, c)
    ensures StrLt(a, c)
    decreases |a|
  {
    if |a| > 0 && a[0] == b[0] && b[0] == c[0] {
      StrLtTrans(a[1..], b[1..], c[1..]);
    }
  }

  lemma {:induction false} StrLtTotal(a: string, b: string)
    ensures a == b || StrLt(a, b) || StrLt(b, a)
    decreases |a|
  {
    if |a| > 0 && |b| > 0 && a[0] == b[0] {
      StrLtTotal(a[1..], b[1..]);
      if a[1..] == b[1..] {
        assert a == [a[0]] + a[1..] && b == [b[0]] + b[1..];
      }
    }
  }

  /** Concatenation regroups; stated once so that proofs about message lists need not rediscover it. */
  lemma AppendAssoc<T>(a: seq<T>, b: seq<T>, c: seq<T>)
    ensures (a + b) + c == a + (b + c)
  {
  }

  /** Putting a sequence's head back in front of its tail and a suffix gives the sequence and the suffix. */
  lemma ConsTail<T>(p: seq<T>, y: seq<T>)
    requires |p| > 0
    ensures [p[0]] + (p[1..] + y) == p + y
  {
    assert p == [p[0]] + p[1..];
    AppendAssoc([p[0]], p[1..], y);
  }

  /** A non-empty sequence is its front and its last element. */
  lemma SplitLast<T>(s: seq<T>)
    requires s != []
    ensures s == s[..|s| - 1] + [s[|s| - 1]]
  {
  }

  /** A sequence is its first `n` elements followed by the rest. */
  lemma TakeDrop<T>(s: seq<T>, n: nat)
    requires n <= |s|
    ensures s[..n] + s[n..] == s
  {
  }

  /** A prefix one longer, after a fixed front, is the shorter one and the next element. */
  lemma PrefixNext<T>(a: seq<T>, s: seq<T>, j: nat)
    requires j < |s|
    ensures a + s[..j + 1] == a + s[..j] + [s[j]]
  {
    assert s[..j + 1] == s[..j] + [s[j]];
    AppendAssoc(a, s[..j], [s[j]]);
  }

  /** Strings that agree up to a first differing character are ordered by that character. */
  lemma {:induction false} StrLtAt(p: string, x: char, a: string, y: char, b: string)
    requires x < y
    ensures StrLt(p + [x] + a, p + [y] + b)
    decreases |p|
  {
    if |p| > 0 {
      StrLtAt(p[1..], x, a, y, b);
      assert (p + [x] + a)[1..] == p[1..] + [x] + a;
      assert (p + [y] + b)[1..] == p[1..] + [y] + b;
    }
  }

  lemma StrLeTrans(a: string, b: string, c: string)
    requires StrLe(a, b) && StrLe(b, c)
    ensures StrLe(a, c)
  {
    if a != b && b != c {
      StrLtTrans(a, b, c);
    }
  }

  predicate SortedStrings(s: seq<string>) {
    forall i, j :: 0 <= i < j < |s| ==> StrLe(s[i], s[j])
  }

  /** A string no greater than every element may be put in front of a sorted sequence. */
  lemma SortedCons(a: string, t: seq<string>)
    requires SortedStrings(t) && forall j :: 0 <= j < |t| ==> StrLe(a, t[j])
    ensures SortedStrings([a] + t)
  {
    forall i, j | 0 <= i < j < |[a] + t| ensures StrLe(([a] + t)[i], ([a] + t)[j]) {
      if i > 0 {
        assert ([a] + t)[i] == t[i - 1];
      }
      assert ([a] + t)[j] == t[j - 1];
    }
  }

  /** A string no greater than the head of a sorted sequence is no greater than all of it. */
  lemma BelowHead(x: string, s: seq<string>)
    requires SortedStrings(s) && |s| > 0 && StrLe(x, s[0])
    ensures forall j :: 0 <= j < |s| ==> StrLe(x, s[j])
  {
    forall j | 0 <= j < |s| ensures StrLe(x, s[j]) {
      if j > 0 { StrLeTrans(x, s[0], s[j]); }
    }
  }

  /** The head of a sorted sequence is no greater than `x` or anything after it. */
  lemma HeadBelow(x: string, s: seq<string>, t: seq<string>)
    requires SortedStrings(s) && |s| > 0 && StrLe(s[0], x)
    requires multiset(t) == multiset(s[1..]) + multiset{x}
    ensures forall j :: 0 <= j < |t| ==> StrLe(s[0], t[j])
  {
    forall j | 0 <= j < |t| ensures StrLe(s[0], t[j]) {
      assert t[j] in multiset(t);
      if t[j] != x {
        assert t[j] in multiset(s[1..]);
        var k :| 0 <= k < |s[1..]| && s[1..][k] == t[j];
        assert s[k + 1] == t[j];
      }
    }
  }

  /** Inserts `x` into a sorted sequence after the elements not greater than it. */
  function InsertSorted(x: string, s: seq<string>): (r: seq<string>)
    requires SortedStrings(s)
    ensures SortedStrings(r)
    ensures multiset(r) == multiset(s) + multiset{x}
    decreases |s|
  {
    if |s| == 0 then [x]
    else if StrLe(x, s[0]) then
      BelowHead(x, s);
      SortedCons(x, s);
      [x] + s
    else
      var t := InsertSorted(x, s[1..]);
      StrLtTotal(x, s[0]);
      HeadBelow(x, s, t);
      SortedCons(s[0], t);
      assert s == [s[0]] + s[1..];
      [s[0]] + t
  }

  /** Python's `sorted` on a list of strings: ordered, and a permutation of its input. */
  function SortStrings(s: seq<string>): (r: seq<string>)
    ensures SortedStrings(r)
    ensures multiset(r) == multiset(s)
    ensures |r| == |s|
  {
    if |s| == 0 then []
    else
      var front, last := s[..|s| - 1], s[|s| - 1];
      var t := SortStrings(front);
      assert s == front + [last];
      assert multiset(s) == multiset(front) + multiset{last};
      InsertSorted(last, t)
  }
}
