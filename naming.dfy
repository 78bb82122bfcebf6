/**
 * Name validation: the restricted regular expressions the naming rules
 * build (literal characters, `.`, `\d` and `\d{1,2}`), the extension
 * normalisation applied before matching, the one-call check that records
 * a mismatch, the suffix and address derivations that feed the masks, the
 * file-name character and length limits, and the throttling of the
 * collision and light lines of the geometry-naming check.
 */
module Naming {
  import opened Wrappers
  import opened Text
  import opened Findings

  /** One element of a mask as Python's `re` reads it. */
  datatype Atom = Lit(c: char) | AnyChar | Digit | Digit12

  const D12: string := "\\d{1,2}"
  const D1: string := "\\d"

  /** The atoms of a mask: `\d{1,2}`, `\d` and `.` are special, every other character stands for itself. */
  function Atoms(mask: string): (p: seq<Atom>)
    ensures |p| <= |mask|
    decreases |mask|
  {
    if |mask| == 0 then []
    else if StartsWith(mask, D12) then [Digit12] + Atoms(mask[|D12|..])
    else if StartsWith(mask, D1) then [Digit] + Atoms(mask[|D1|..])
    else if mask[0] == '.' then [AnyChar] + Atoms(mask[1..])
    else [Lit(mask[0])] + Atoms(mask[1..])
  }

  /** Whether one atom accepts one character (`.` refuses only a newline). */
  predicate Accepts(a: Atom, c: char) {
    match a
    case Lit(l) => c == l
    case AnyChar => c != '\n'
    case Digit => IsDigit(c)
    case Digit12 => IsDigit(c)
  }

  /** How many `\d{1,2}` a pattern holds. */
  function Repeats(p: seq<Atom>): nat {
    if |p| == 0 then 0 else (if p[0].Digit12? then 1 else 0) + Repeats(p[1..])
  }

  /** Declarative full match: some way of giving each atom its characters uses up the whole name. */
  predicate FullMatch(p: seq<Atom>, s: string)
    decreases |p|
  {
    if |p| == 0 then |s| == 0
    else if p[0].Digit12? then
      |s| > 0 && IsDigit(s[0]) &&
      (FullMatch(p[1..], s[1..]) || (|s| > 1 && IsDigit(s[1]) && FullMatch(p[1..], s[2..])))
    else |s| > 0 && Accepts(p[0], s[0]) && FullMatch(p[1..], s[1..])
  }

  function Shift(m: Option<nat>, k: nat): Option<nat> {
    if m.Some? then Some(m.value + k) else None
  }

  /**
   * `re.match`: anchored at the start, `\d{1,2}` greedy with backtracking;
   * the result is the length of the matched prefix (`group(0)`).
   */
  function ReMatch(p: seq<Atom>, s: string): Option<nat>
    decreases |p|
  {
    if |p| == 0 then Some(0)
    else if |s| == 0 || !Accepts(p[0], s[0]) then None
    else if p[0].Digit12? && |s| > 1 && IsDigit(s[1]) && ReMatch(p[1..], s[2..]).Some? then
      Shift(ReMatch(p[1..], s[2..]), 2)
    else Shift(ReMatch(p[1..], s[1..]), 1)
  }

  /** Whatever prefix `re.match` reports is matched by the pattern as a whole. */
  lemma {:induction false} ReMatchSound(p: seq<Atom>, s: string)
    requires ReMatch(p, s).Some?
    ensures ReMatch(p, s).value <= |s|
    ensures FullMatch(p, s[..ReMatch(p, s).value])
    decreases |p|
  {
    if |p| > 0 {
      var n := ReMatch(p, s).value;
      if p[0].Digit12? && |s| > 1 && IsDigit(s[1]) && ReMatch(p[1..], s[2..]).Some? {
        ReMatchSound(p[1..], s[2..]);
        assert s[..n][2..] == s[2..][..n - 2];
      } else {
        ReMatchSound(p[1..], s[1..]);
        assert s[..n][1..] == s[1..][..n - 1];
      }
    }
  }

  /** Without `\d{1,2}` every match has exactly one character per atom. */
  lemma {:induction false} FixedWidth(p: seq<Atom>, s: string)
    requires Repeats(p) == 0
    requires FullMatch(p, s)
    ensures |s| == |p|
    decreases |p|
  {
    if |p| > 0 {
      FixedWidth(p[1..], s[1..]);
    }
  }

  /** With at most one `\d{1,2}`, a full match is what `re.match` finds first. */
  lemma {:induction false} ReMatchComplete(p: seq<Atom>, s: string)
    requires Repeats(p) <= 1
    requires FullMatch(p, s)
    ensures ReMatch(p, s) == Some(|s|)
    decreases |p|
  {
    if |p| > 0 {
      var rest := p[1..];
      if p[0].Digit12? {
        assert Repeats(rest) == 0;
        if |s| > 1 && IsDigit(s[1]) && FullMatch(rest, s[2..]) {
          ReMatchComplete(rest, s[2..]);
        } else {
          assert FullMatch(rest, s[1..]);
          FixedWidth(rest, s[1..]);
          ReMatchComplete(rest, s[1..]);
          if |s| > 1 && IsDigit(s[1]) && ReMatch(rest, s[2..]).Some? {
            ReMatchSound(rest, s[2..]);
            var n := ReMatch(rest, s[2..]).value;
            FixedWidth(rest, s[2..][..n]);
            assert false;
          }
        }
      } else {
        ReMatchComplete(rest, s[1..]);
      }
    }
  }

  /**
   * `re.match(mask, name).group(0) == name` agrees with a full match
   * whenever the mask has at most one `\d{1,2}`, as every mask built here does.
   */
  lemma ReMatchIsFullMatch(p: seq<Atom>, s: string)
    requires Repeats(p) <= 1
    ensures ReMatch(p, s) == Some(|s|) <==> FullMatch(p, s)
  {
    if ReMatch(p, s) == Some(|s|) {
      ReMatchSound(p, s);
      assert s[..|s|] == s;
    }
    if FullMatch(p, s) {
      ReMatchComplete(p, s);
    }
  }

  /** The mask as shown to the user: each digit class becomes `N`, everything else is shown as written. */
  function Shown(p: seq<Atom>): string {
    if |p| == 0 then ""
    else
      (match p[0]
       case Lit(c) => [c]
       case AnyChar => "."
       case Digit => "N"
       case Digit12 => "N")
      + Shown(p[1..])
  }

  /** `mask.replace(r"\d{1,2}", "N").replace(r"\d", "N")` */
  function MaskText(mask: string): string {
    ReplaceAll(ReplaceAll(mask, D12, "N"), D1, "N")
  }

  /** A replacement pass keeps a first character that does not begin the pattern. */
  lemma ReplaceKeepsHead(c: char, x: string, pat: string, rep: string)
    requires |pat| > 0 && !StartsWith([c] + x, pat)
    ensures ReplaceAll([c] + x, pat, rep) == [c] + ReplaceAll(x, pat, rep)
  {
    assert ([c] + x)[1..] == x;
  }

  /** Showing a pattern shows its first atom, then the rest. */
  lemma ShownCons(a: Atom, rest: seq<Atom>)
    ensures Shown([a] + rest) == Shown([a]) + Shown(rest)
  {
    assert ([a] + rest)[1..] == rest;
    assert [a][1..] == [];
  }

  /** A leading `\d{1,2}` is shown as one `N` by both sides. */
  lemma MaskStepD12(mask: string)
    requires StartsWith(mask, D12)
    ensures MaskText(mask) == "N" + MaskText(mask[|D12|..])
    ensures Shown(Atoms(mask)) == "N" + Shown(Atoms(mask[|D12|..]))
  {
    var x := ReplaceAll(mask[|D12|..], D12, "N");
    assert ReplaceAll(mask, D12, "N") == ['N'] + x;
    assert !StartsWith(['N'] + x, D1) by {
      if |D1| <= |['N'] + x| {
        assert (['N'] + x)[..|D1|][0] != D1[0];
      }
    }
    ReplaceKeepsHead('N', x, D1, "N");
    ShownCons(Digit12, Atoms(mask[|D12|..]));
  }

  /** A leading `\d` that is not `\d{1,2}` is shown as one `N` by both sides. */
  lemma MaskStepD1(mask: string)
    requires !StartsWith(mask, D12) && StartsWith(mask, D1)
    ensures MaskText(mask) == "N" + MaskText(mask[|D1|..])
    ensures Shown(Atoms(mask)) == "N" + Shown(Atoms(mask[|D1|..]))
  {
    var tail := mask[1..];
    assert !StartsWith(tail, D12) && tail[0] == 'd';
    assert ReplaceAll(tail, D12, "N") == ['d'] + ReplaceAll(tail[1..], D12, "N");
    assert tail[1..] == mask[|D1|..];
    var y := ReplaceAll(mask[|D1|..], D12, "N");
    assert ReplaceAll(mask, D12, "N") == D1 + y;
    assert (D1 + y)[|D1|..] == y;
    ShownCons(Digit, Atoms(mask[|D1|..]));
  }

  /** After a first character that is not a backslash, the first pass leaves no `\d` at the front. */
  lemma FirstPassHead(mask: string)
    requires |mask| > 0 && !StartsWith(mask, D12) && !StartsWith(mask, D1)
    ensures ReplaceAll(mask, D12, "N") == [mask[0]] + ReplaceAll(mask[1..], D12, "N")
    ensures !StartsWith(ReplaceAll(mask, D12, "N"), D1)
  {
    var tail := mask[1..];
    var y := ReplaceAll(tail, D12, "N");
    assert ReplaceAll(mask, D12, "N") == [mask[0]] + y;
    if mask[0] == '\\' && |tail| > 0 {
      assert tail[0] != 'd';
      if StartsWith(tail, D12) {
        assert y == "N" + ReplaceAll(tail[|D12|..], D12, "N");
      } else {
        assert y == [tail[0]] + ReplaceAll(tail[1..], D12, "N");
      }
      assert y[0] != 'd';
    }
  }

  /** Any other first character is shown as written by both sides. */
  lemma MaskStepOther(mask: string)
    requires |mask| > 0 && !StartsWith(mask, D12) && !StartsWith(mask, D1)
    ensures MaskText(mask) == [mask[0]] + MaskText(mask[1..])
    ensures Shown(Atoms(mask)) == [mask[0]] + Shown(Atoms(mask[1..]))
  {
    FirstPassHead(mask);
    ReplaceKeepsHead(mask[0], ReplaceAll(mask[1..], D12, "N"), D1, "N");
    var a := if mask[0] == '.' then AnyChar else Lit(mask[0]);
    assert Atoms(mask) == [a] + Atoms(mask[1..]);
    ShownCons(a, Atoms(mask[1..]));
  }

  /** The two replacements together show every `\\d{1,2}` and `\\d` of the mask as `N` and leave the rest. */
  lemma {:induction false} MaskTextShown(mask: string)
    ensures MaskText(mask) == Shown(Atoms(mask))
    decreases |mask|
  {
    if |mask| > 0 {
      if StartsWith(mask, D12) {
        MaskStepD12(mask);
        MaskTextShown(mask[|D12|..]);
      } else if StartsWith(mask, D1) {
        MaskStepD1(mask);
        MaskTextShown(mask[|D1|..]);
      } else {
        MaskStepOther(mask);
        MaskTextShown(mask[1..]);
      }
    }
  }

  // ---------------------------------------------------------------------
  // Extension normalisation and the one-call name check
  // ---------------------------------------------------------------------

  const Extensions: seq<string> := ["png", "fbx", "geojson", "zip"]

  /**
   * `file_name_lower_extention`: the text after the last dot is lower-cased
   * when it is one of the four known extensions; a name without a dot is
   * its own "extension", so `PNG` becomes `.png`.
   */
  function LowerExtension(name: string): string {
    var parts := Split(name, '.');
    var ext := parts[|parts| - 1];
    if Lower(ext) in Extensions then Join(parts[..|parts| - 1], ".") + "." + Lower(ext) else name
  }

  lemma LowerIdempotent(s: string)
    ensures Lower(Lower(s)) == Lower(s)
  {
  }

  lemma LowerNoDot(s: string)
    requires !ContainsChar(s, '.')
    ensures !ContainsChar(Lower(s), '.')
  {
    forall i | 0 <= i < |s| ensures Lower(s)[i] != '.' {
      assert s[i] != '.';
    }
  }

  /** The split of `stem.ext` when `ext` has no dot: the stem's pieces, then `ext`. */
  lemma SplitLastDot(stem: string, ext: string)
    requires !ContainsChar(ext, '.')
    ensures Split(stem + "." + ext, '.') == Split(stem, '.') + [ext]
  {
    SplitAround(stem, '.', ext);
    SplitNoSep(ext, '.');
  }

  /** A name with a dot keeps everything up to its last dot and at most lower-cases the rest. */
  lemma LowerExtensionWithDot(stem: string, ext: string)
    requires !ContainsChar(ext, '.')
    ensures LowerExtension(stem + "." + ext) ==
      stem + "." + (if Lower(ext) in Extensions then Lower(ext) else ext)
  {
    SplitLastDot(stem, ext);
    var parts := Split(stem + "." + ext, '.');
    assert parts[..|parts| - 1] == Split(stem, '.');
    JoinSplit(stem, '.');
  }

  /** A name without a dot is left alone unless it is itself a known extension, which gains a leading dot. */
  lemma LowerExtensionNoDot(name: string)
    requires !ContainsChar(name, '.')
    ensures LowerExtension(name) == if Lower(name) in Extensions then "." + Lower(name) else name
  {
    SplitNoSep(name, '.');
  }

  /** Normalising twice is normalising once. */
  lemma LowerExtensionIdempotent(name: string)
    ensures LowerExtension(LowerExtension(name)) == LowerExtension(name)
  {
    var parts := Split(name, '.');
    var ext := parts[|parts| - 1];
    if Lower(ext) in Extensions {
      var stem := Join(parts[..|parts| - 1], ".");
      assert !ContainsChar(ext, '.');
      LowerNoDot(ext);
      LowerIdempotent(ext);
      LowerExtensionWithDot(stem, Lower(ext));
    }
  }

  /** The message `check_mask_re` records for a name that does not match. */
  function MaskMessage(name: string, mask: string): string {
    "-->" + name + ", должно быть \n           " + MaskText(mask) + "\n"
  }

  /** Whether the normalised name is matched as a whole, decided as Python's `re.match` decides it. */
  predicate NameMatches(name: string, mask: string) {
    var n := LowerExtension(name);
    ReMatch(Atoms(mask), n) == Some(|n|)
  }

  /**
   * `check_mask_re`: one error naming the normalised name and the shown
   * mask exactly when the name does not match; otherwise nothing changes.
   */
  method CheckMaskRe(check: Check, name: string, mask: string)
    modifies check
    ensures NameMatches(name, mask) ==> check.errors == old(check.errors) && check.verified == old(check.verified)
    ensures !NameMatches(name, mask) ==>
      check.errors == old(check.errors) + [MaskMessage(LowerExtension(name), mask)] && !check.verified
    ensures Repeats(Atoms(mask)) <= 1 ==>
      (NameMatches(name, mask) <==> FullMatch(Atoms(mask), LowerExtension(name)))
    ensures check.name == old(check.name) && check.ids == old(check.ids)
    ensures check.checkedCount == old(check.checkedCount) && check.directory == old(check.directory)
  {
    var n := LowerExtension(name);
    var p := Atoms(mask);
    if Repeats(p) <= 1 {
      ReMatchIsFullMatch(p, n);
    }
    if ReMatch(p, n) != Some(|n|) {
      check.AddError(MaskMessage(n, mask));
    }
  }

  // ---------------------------------------------------------------------
  // Low-poly suffixes and the address the masks are built from
  // ---------------------------------------------------------------------

  /** A word inside a longer word is found wherever the longer one is. */
  lemma ContainsInner(s: string, t: string, u: string, k: nat)
    requires OccursAt(t, u, k)
    requires Contains(s, t)
    ensures Contains(s, u)
  {
    var j :| 0 <= j <= |s| - |t| && OccursAt(s, t, j);
    assert s[j + k..j + k + |u|] == u by {
      forall i | 0 <= i < |u| ensures s[j + k + i] == u[i] {
        assert s[j..j + |t|][k + i] == t[k + i];
        assert t[k..k + |u|][i] == t[k + i];
      }
    }
    assert OccursAt(s, u, j + k);
  }

  lemma SuffixWords(l: string)
    ensures Contains(l, "groundel") ==> Contains(l, "ground")
    ensures Contains(l, "groundglass") ==> Contains(l, "ground") && Contains(l, "glass")
  {
    if Contains(l, "groundel") {
      ContainsInner(l, "groundel", "ground", 0);
    }
    if Contains(l, "groundglass") {
      ContainsInner(l, "groundglass", "ground", 0);
      ContainsInner(l, "groundglass", "glass", 6);
    }
  }

  /**
   * `lp_get_suffix`: the mask fragment a low-poly mesh name calls for, by
   * the first matching (case-insensitive) word: flora, groundel with glass,
   * groundel, groundglass, ground, glass, and otherwise the numbered main part.
   */
  function LpSuffix(meshName: string): (r: string)
    ensures (r == "_\\d\\d\\d_Main" || r == "_\\d\\d\\d_MainGlass") <==>
      !Contains(Lower(meshName), "flora") && !Contains(Lower(meshName), "ground")
    ensures EndsWith(r, "Glass") ==> Contains(Lower(meshName), "glass")
    ensures !Contains(Lower(meshName), "flora") && !Contains(Lower(meshName), "ground") ==>
      (EndsWith(r, "Glass") <==> Contains(Lower(meshName), "glass"))
  {
    var l := Lower(meshName);
    SuffixWords(l);
    if Contains(l, "flora") then "_Flora"
    else if Contains(l, "groundel") && Contains(l, "glass") then "_GroundElGlass"
    else if Contains(l, "groundel") then "_GroundEl"
    else if Contains(l, "groundglass") then "_GroundGlass"
    else if Contains(l, "ground") then "_Ground"
    else if Contains(l, "glass") then "_\\d\\d\\d_MainGlass"
    else "_\\d\\d\\d_Main"
  }

  /** A high-poly file that names the address: a ground file that is not a light file. */
  predicate IsAddressFile(name: string) {
    Contains(Lower(name), "ground") && !Contains(Lower(name), "light")
  }

  /** `name.replace("_Ground", "").replace("SM_", "")` */
  function HpAddressOf(name: string): string {
    ReplaceAll(ReplaceAll(name, "_Ground", ""), "SM_", "")
  }

  /** `pat` occurs in `s` only as its suffix. */
  predicate OnlyAtEnd(s: string, pat: string) {
    forall k :: 0 <= k < |s| - |pat| ==> !OccursAt(s, pat, k)
  }

  lemma {:induction false} ReplaceAllLast(a: string, pat: string, rep: string)
    requires |pat| > 0
    requires OnlyAtEnd(a + pat, pat)
    ensures ReplaceAll(a + pat, pat, rep) == a + rep
    decreases |a|
  {
    var s := a + pat;
    if |a| == 0 {
      assert s == pat && StartsWith(s, pat) && s[|pat|..] == [];
    } else {
      assert !OccursAt(s, pat, 0);
      assert !StartsWith(s, pat);
      assert s[1..] == a[1..] + pat;
      OnlyAtEndTail(s, pat);
      ReplaceAllLast(a[1..], pat, rep);
      assert ReplaceAll(s, pat, rep) == [s[0]] + ReplaceAll(s[1..], pat, rep);
    }
  }

  lemma OnlyAtEndTail(s: string, pat: string)
    requires |s| > 0 && OnlyAtEnd(s, pat)
    ensures OnlyAtEnd(s[1..], pat)
  {
    forall k | 0 <= k < |s[1..]| - |pat| ensures !OccursAt(s[1..], pat, k) {
      assert !OccursAt(s, pat, k + 1);
      assert s[1..][k..k + |pat|] == s[k + 1..k + 1 + |pat|];
    }
  }

  /** The address is recovered from a ground file named `SM_<address>_Ground`. */
  lemma HpAddressRoundTrip(address: string)
    requires OnlyAtEnd("SM_" + address + "_Ground", "_Ground")
    requires !Contains(address, "SM_")
    ensures HpAddressOf("SM_" + address + "_Ground") == address
  {
    assert "SM_" + address + "_Ground" == ("SM_" + address) + "_Ground";
    ReplaceAllLast("SM_" + address, "_Ground", "");
    assert ("SM_" + address) + "" == "SM_" + address;
    assert StartsWith("SM_" + address, "SM_");
    assert ("SM_" + address)[3..] == address;
    ReplaceAllAbsent(address, "SM_", "");
  }

  /** The address the last address file of a list names, or "" when there is none. */
  function LastHpAddress(names: seq<string>): string {
    if |names| == 0 then ""
    else if IsAddressFile(names[|names| - 1]) then HpAddressOf(names[|names| - 1])
    else LastHpAddress(names[..|names| - 1])
  }

  /**
   * The high-poly address: the one already known, or else the address of the
   * last ground (non-light) file; the loop does not stop at the first one.
   */
  method HpAddress(known: string, names: seq<string>) returns (address: string)
    ensures known != "" ==> address == known
    ensures known == "" ==> address == LastHpAddress(names)
  {
    address := known;
    if address == "" {
      var i := 0;
      while i < |names|
        invariant 0 <= i <= |names|
        invariant address == LastHpAddress(names[..i])
      {
        assert names[..i + 1][..i] == names[..i];
        if IsAddressFile(names[i]) {
          address := HpAddressOf(names[i]);
        }
        i := i + 1;
      }
      assert names[..|names|] == names;
    }
  }

  /** `"_".join(name.split("_")[1:-1])`: everything between the first and the last underscore. */
  function LpAddressOf(name: string): string {
    var parts := Split(name, '_');
    if |parts| < 2 then "" else Join(parts[1..|parts| - 1], "_")
  }

  /** The address is recovered from a low-poly name `<prefix>_<address>_<suffix>`. */
  lemma LpAddressRoundTrip(prefix: string, address: string, suffix: string)
    requires !ContainsChar(prefix, '_') && !ContainsChar(suffix, '_')
    ensures LpAddressOf(prefix + "_" + address + "_" + suffix) == address
  {
    SplitAround(address, '_', suffix);
    SplitNoSep(suffix, '_');
    assert prefix + "_" + address + "_" + suffix == prefix + ['_'] + (address + ['_'] + suffix);
    SplitAround(prefix, '_', address + ['_'] + suffix);
    SplitNoSep(prefix, '_');
    var parts := Split(prefix + "_" + address + "_" + suffix, '_');
    assert parts == [prefix] + Split(address, '_') + [suffix];
    assert parts[1..|parts| - 1] == Split(address, '_');
    JoinSplit(address, '_');
  }

  /** The low-poly address of the last file with "ground" in its name, or "" when there is none. */
  function LastLpAddress(names: seq<string>): string {
    if |names| == 0 then ""
    else if Contains(Lower(names[|names| - 1]), "ground") then LpAddressOf(names[|names| - 1])
    else LastLpAddress(names[..|names| - 1])
  }

  /** The low-poly address: the one already known, or else the address of the last ground file. */
  method LpAddress(known: string, names: seq<string>) returns (address: string)
    ensures known != "" ==> address == known
    ensures known == "" ==> address == LastLpAddress(names)
  {
    address := known;
    if address == "" {
      var i := 0;
      while i < |names|
        invariant 0 <= i <= |names|
        invariant address == LastLpAddress(names[..i])
      {
        assert names[..i + 1][..i] == names[..i];
        if Contains(Lower(names[i]), "ground") {
          address := LpAddressOf(names[i]);
        }
        i := i + 1;
      }
      assert names[..|names|] == names;
    }
  }

  // ---------------------------------------------------------------------
  // File-name characters and length
  // ---------------------------------------------------------------------

  /** The characters `[a-zA-Z0-9_.]` allowed in a file name. */
  predicate AllowedChar(c: char) {
    'a' <= c <= 'z' || 'A' <= c <= 'Z' || IsDigit(c) || c == '_' || c == '.'
  }

  /** `re.search(r'[^a-zA-Z0-9_.]', file)` finds something. */
  predicate HasForbiddenChar(file: string) {
    exists i :: 0 <= i < |file| && !AllowedChar(file[i])
  }

  const MaxNameLength := 254

  /** The character and length checks of one file name, each adding at most one error to its own check. */
  method CheckFileName(chars: Check, length: Check, file: string)
    requires chars != length
    modifies chars, length
    ensures chars.errors == old(chars.errors) + (if HasForbiddenChar(file) then ["Недопустимые символы: " + file] else [])
    ensures length.errors == old(length.errors) + (if |file| > MaxNameLength then ["Недопустимая длина имени файла: " + file] else [])
    ensures chars.verified == (old(chars.verified) && !HasForbiddenChar(file))
    ensures length.verified == (old(length.verified) && |file| <= MaxNameLength)
  {
    if HasForbiddenChar(file) {
      chars.AddError("Недопустимые символы: " + file);
    }
    if |file| > MaxNameLength {
      length.AddError("Недопустимая длина имени файла: " + file);
    }
  }

  /** A name made of allowed characters only has no digit classes when read as a mask, and matches itself. */
  lemma {:induction false} AllowedNameMatchesItself(file: string)
    requires !HasForbiddenChar(file)
    ensures Repeats(Atoms(file)) == 0
    ensures FullMatch(Atoms(file), file)
    decreases |file|
  {
    if |file| > 0 {
      assert AllowedChar(file[0]);
      assert !HasForbiddenChar(file[1..]) by {
        forall i | 0 <= i < |file[1..]| ensures AllowedChar(file[1..][i]) {
          assert file[1..][i] == file[i + 1];
        }
      }
      AllowedNameMatchesItself(file[1..]);
      assert !StartsWith(file, D12) && !StartsWith(file, D1);
      assert Atoms(file)[1..] == Atoms(file[1..]);
    }
  }

  // ---------------------------------------------------------------------
  // Throttling the geometry-naming lines
  // ---------------------------------------------------------------------

  predicate IsUcxLine(e: string) {
    Contains(e, "UCX")
  }

  predicate IsLightLine(e: string) {
    Contains(e, "Omni") || Contains(e, "Spot")
  }

  function CountUcx(s: seq<string>): nat {
    if |s| == 0 then 0 else (if IsUcxLine(s[0]) then 1 else 0) + CountUcx(s[1..])
  }

  function CountLight(s: seq<string>): nat {
    if |s| == 0 then 0 else (if IsLightLine(s[0]) then 1 else 0) + CountLight(s[1..])
  }

  /** How many lines of each kind survive, counted from the end of the list. */
  const Quota := 6

  /** The first line goes over the collision quota: at least six collision lines follow it. */
  predicate OverUcx(s: seq<string>)
    requires |s| > 0
  {
    IsUcxLine(s[0]) && CountUcx(s[1..]) >= Quota
  }

  /** The first line goes over the light quota: at least six light lines follow it. */
  predicate OverLight(s: seq<string>)
    requires |s| > 0
  {
    IsLightLine(s[0]) && CountLight(s[1..]) >= Quota
  }

  /** The lines that are kept: every line that is over neither quota, in the original order. */
  function Throttled(s: seq<string>): seq<string> {
    if |s| == 0 then []
    else (if OverUcx(s) || OverLight(s) then [] else [s[0]]) + Throttled(s[1..])
  }

  function Min(a: nat, b: nat): nat {
    if a <= b then a else b
  }

  /** At most six collision lines and six light lines remain, and never more than there were. */
  lemma {:induction false} ThrottledQuota(s: seq<string>)
    ensures CountUcx(Throttled(s)) <= Min(Quota, CountUcx(s))
    ensures CountLight(Throttled(s)) <= Min(Quota, CountLight(s))
    decreases |s|
  {
    if |s| > 0 {
      ThrottledQuota(s[1..]);
      var head := if OverUcx(s) || OverLight(s) then [] else [s[0]];
      assert Throttled(s) == head + Throttled(s[1..]);
      CountsAppend(head, Throttled(s[1..]));
    }
  }

  lemma {:induction false} CountsAppend(a: seq<string>, b: seq<string>)
    ensures CountUcx(a + b) == CountUcx(a) + CountUcx(b)
    ensures CountLight(a + b) == CountLight(a) + CountLight(b)
    decreases |a|
  {
    if |a| > 0 {
      assert (a + b)[0] == a[0];
      assert (a + b)[1..] == a[1..] + b;
      CountsAppend(a[1..], b);
    } else {
      assert a + b == b;
    }
  }

  /** The lines that mention neither a collision proxy nor a light. */
  function Plain(s: seq<string>): seq<string> {
    if |s| == 0 then []
    else (if IsUcxLine(s[0]) || IsLightLine(s[0]) then [] else [s[0]]) + Plain(s[1..])
  }

  /** Throttling never drops a line that mentions neither kind. */
  lemma {:induction false} ThrottledKeepsPlain(s: seq<string>)
    ensures Plain(Throttled(s)) == Plain(s)
    decreases |s|
  {
    if |s| > 0 {
      ThrottledKeepsPlain(s[1..]);
      if OverUcx(s) || OverLight(s) {
        assert Throttled(s) == Throttled(s[1..]);
        assert Plain(s) == Plain(s[1..]);
      } else {
        assert Throttled(s) == [s[0]] + Throttled(s[1..]);
        assert ([s[0]] + Throttled(s[1..]))[0] == s[0];
        assert ([s[0]] + Throttled(s[1..]))[1..] == Throttled(s[1..]);
      }
    }
  }

  /** Every kept line was a line of the input. */
  lemma {:induction false} ThrottledSubset(s: seq<string>)
    ensures multiset(Throttled(s)) <= multiset(s)
    decreases |s|
  {
    if |s| > 0 {
      ThrottledSubset(s[1..]);
      assert s == [s[0]] + s[1..];
    }
  }

  /** Lines visited from the end: the first `k` are not yet visited, the rest are already throttled. */
  lemma ThrottledStep(s: seq<string>, k: nat)
    requires 0 < k <= |s|
    ensures Throttled(s[k - 1..]) ==
      (if OverUcx(s[k - 1..]) || OverLight(s[k - 1..]) then [] else [s[k - 1]]) + Throttled(s[k..])
    ensures OverUcx(s[k - 1..]) <==> IsUcxLine(s[k - 1]) && CountUcx(s[k..]) >= Quota
    ensures OverLight(s[k - 1..]) <==> IsLightLine(s[k - 1]) && CountLight(s[k..]) >= Quota
    ensures CountUcx(s[k - 1..]) == (if IsUcxLine(s[k - 1]) then 1 else 0) + CountUcx(s[k..])
    ensures CountLight(s[k - 1..]) == (if IsLightLine(s[k - 1]) then 1 else 0) + CountLight(s[k..])
  {
    assert s[k - 1..][1..] == s[k..];
  }

  /** Removing the line at `k - 1`, or keeping it, leaves the list one visited line further on. */
  lemma ThrottleNext(lines: seq<string>, k: nat, errors: seq<string>)
    requires 0 < k <= |lines| && errors == lines[..k] + Throttled(lines[k..])
    ensures errors[k - 1] == lines[k - 1]
    ensures errors[..k - 1] + errors[k..] == lines[..k - 1] + Throttled(lines[k..])
    ensures errors == lines[..k - 1] + ([lines[k - 1]] + Throttled(lines[k..]))
  {
    assert lines[..k] == lines[..k - 1] + [lines[k - 1]];
    assert errors[..k - 1] == lines[..k - 1];
    assert errors[k..] == Throttled(lines[k..]);
  }

  /**
   * The throttle as evidently intended: walking the lines from the end,
   * a collision line after six others is removed, and so is a light line
   * after six others; each line is removed at most once.
   */
  method ThrottleLines(check: Check)
    modifies check
    ensures check.errors == Throttled(old(check.errors))
    ensures check.verified == old(check.verified) && check.name == old(check.name)
    ensures check.ids == old(check.ids) && check.checkedCount == old(check.checkedCount)
  {
    ghost var lines := check.errors;
    var ucx := 0;
    var light := 0;
    var k := |check.errors|;
    assert lines[k..] == [];
    while k > 0
      invariant 0 <= k <= |lines|
      invariant check.errors == lines[..k] + Throttled(lines[k..])
      invariant ucx == Min(Quota, CountUcx(lines[k..]))
      invariant light == Min(Quota, CountLight(lines[k..]))
      invariant check.verified == old(check.verified) && check.name == old(check.name)
      invariant check.ids == old(check.ids) && check.checkedCount == old(check.checkedCount)
    {
      ThrottledStep(lines, k);
      var e := check.errors[k - 1];
      assert e == lines[k - 1];
      var drop := false;
      if IsUcxLine(e) {
        if ucx >= Quota { drop := true; } else { ucx := ucx + 1; }
      }
      if IsLightLine(e) {
        if light >= Quota { drop := true; } else { light := light + 1; }
      }
      ThrottleNext(lines, k, check.errors);
      if drop {
        check.errors := check.errors[..k - 1] + check.errors[k..];
      }
      k := k - 1;
    }
    assert lines[0..] == lines;
  }

  /** `list.remove(x)`: drops the first occurrence of `x`, or fails (`ValueError`) when there is none. */
  function RemoveFirst(s: seq<string>, x: string): (r: Option<seq<string>>)
    ensures r.None? <==> x !in s
    ensures r.Some? ==> |r.value| == |s| - 1
  {
    if |s| == 0 then None
    else if s[0] == x then Some(s[1..])
    else
      match RemoveFirst(s[1..], x)
      case None => None
      case Some(t) => Some([s[0]] + t)
  }

  /** Removing a line that occurs nowhere else takes out exactly that position. */
  lemma {:induction false} RemoveFirstAt(a: seq<string>, x: string, b: seq<string>)
    requires x !in a
    ensures RemoveFirst(a + [x] + b, x) == Some(a + b)
    decreases |a|
  {
    var s := a + [x] + b;
    if |a| > 0 {
      assert s[0] == a[0] && s[0] != x;
      assert s[1..] == a[1..] + [x] + b;
      RemoveFirstAt(a[1..], x, b);
      assert RemoveFirst(s, x) == Some([a[0]] + (a[1..] + b));
      assert a + b == [a[0]] + (a[1..] + b);
    } else {
      assert s[0] == x;
      assert s[1..] == b;
      assert a + b == b;
    }
  }

  /** The first line is over both quotas at once. */
  predicate OverBoth(s: seq<string>)
    requires |s| > 0
  {
    OverUcx(s) && OverLight(s)
  }

  /** Some line of the list is over both quotas when the walk reaches it. */
  predicate Raises(s: seq<string>) {
    |s| > 0 && (OverBoth(s) || Raises(s[1..]))
  }

  /** One visit of the walk over distinct lines: what each `remove` of the visited line does. */
  lemma WalkRemove(lines: seq<string>, k: nat)
    requires Distinct(lines) && 0 < k <= |lines|
    ensures RemoveFirst(lines[..k] + Throttled(lines[k..]), lines[k - 1]) ==
      Some(lines[..k - 1] + Throttled(lines[k..]))
    ensures RemoveFirst(lines[..k - 1] + Throttled(lines[k..]), lines[k - 1]).None?
  {
    var e := lines[k - 1];
    var rest := Throttled(lines[k..]);
    assert lines[..k] == lines[..k - 1] + [e];
    assert e !in lines[..k - 1];
    assert e !in lines[k..];
    ThrottledSubset(lines[k..]);
    assert e !in multiset(rest);
    RemoveFirstAt(lines[..k - 1], e, rest);
  }

  /** One visit of the walk: what the kept lines and the failure become. */
  lemma WalkKeep(lines: seq<string>, k: nat)
    requires 0 < k <= |lines|
    ensures OverUcx(lines[k - 1..]) || OverLight(lines[k - 1..]) ==>
      lines[..k - 1] + Throttled(lines[k - 1..]) == lines[..k - 1] + Throttled(lines[k..])
    ensures !(OverUcx(lines[k - 1..]) || OverLight(lines[k - 1..])) ==>
      lines[..k - 1] + Throttled(lines[k - 1..]) == lines[..k] + Throttled(lines[k..])
    ensures Raises(lines[k - 1..]) <==> OverBoth(lines[k - 1..]) || Raises(lines[k..])
  {
    ThrottledStep(lines, k);
    assert lines[k - 1..][1..] == lines[k..];
    assert lines[..k] == lines[..k - 1] + [lines[k - 1]];
  }

  /** A failure on a suffix of the walk is a failure of the whole walk. */
  lemma {:induction false} RaisesSuffix(lines: seq<string>, j: nat)
    requires j <= |lines| && Raises(lines[j..])
    ensures Raises(lines)
    decreases j
  {
    if j > 0 {
      assert lines[j - 1..][1..] == lines[j..];
      RaisesSuffix(lines, j - 1);
    } else {
      assert lines[0..] == lines;
    }
  }

  /**
   * The throttle as the source writes it: `reversed` walks the live list by
   * index and each quota removes the line by value, so a line over both
   * quotas is removed twice and the second `remove` fails; `ok` is false
   * when that happens. For a list of distinct lines it fails exactly when
   * some line is over both quotas, and otherwise ends as `ThrottleLines` does.
   */
  method ThrottleAsWritten(check: Check) returns (ok: bool)
    modifies check
    ensures Distinct(old(check.errors)) ==> (ok <==> !Raises(old(check.errors)))
    ensures Distinct(old(check.errors)) && ok ==> check.errors == Throttled(old(check.errors))
  {
    ghost var lines := check.errors;
    ghost var distinct := Distinct(lines);
    var ucx := 0;
    var light := 0;
    var k := |check.errors|;
    ok := true;
    assert lines[k..] == [];
    while k > 0 && k <= |check.errors|
      invariant 0 <= k <= |lines|
      invariant distinct ==> check.errors == lines[..k] + Throttled(lines[k..])
      invariant distinct ==> ucx == Min(Quota, CountUcx(lines[k..]))
      invariant distinct ==> light == Min(Quota, CountLight(lines[k..]))
      invariant distinct ==> !Raises(lines[k..])
      decreases k
    {
      var e := check.errors[k - 1];
      if distinct {
        WalkRemove(lines, k);
        WalkKeep(lines, k);
        ThrottledStep(lines, k);
        assert e == lines[k - 1];
      }
      var removed := false;
      if IsUcxLine(e) {
        if ucx > 5 {
          var r := RemoveFirst(check.errors, e);
          if r.None? {
            ok := false;
            return;
          }
          check.errors := r.value;
          removed := true;
        } else {
          ucx := ucx + 1;
        }
      }
      if IsLightLine(e) {
        if light > 5 {
          var r := RemoveFirst(check.errors, e);
          if r.None? {
            if distinct {
              RaisesSuffix(lines, k - 1);
            }
            ok := false;
            return;
          }
          check.errors := r.value;
          removed := true;
        } else {
          light := light + 1;
        }
      }
      k := k - 1;
    }
    if distinct {
      assert k == 0 && lines[0..] == lines;
    }
  }

  /** A collision-naming line that also mentions a spot light, numbered by one digit. */
  function SpotLine(d: char): string {
    "UCX_Spot" + [d]
  }

  lemma SpotLineKinds(d: char)
    ensures IsUcxLine(SpotLine(d)) && IsLightLine(SpotLine(d))
  {
    assert OccursAt(SpotLine(d), "UCX", 0);
    assert OccursAt(SpotLine(d), "Spot", 4);
  }

  /**
   * Seven distinct lines that each mention a collision proxy and a spot
   * light (as every line does when the address contains "Spot") make the
   * throttle remove the first line twice, so it raises.
   */
  lemma ThrottleRaisesOnSharedLines()
    ensures Distinct(SpotLines())
    ensures Raises(SpotLines())
  {
    var s := SpotLines();
    forall i | 0 <= i < |s| ensures IsUcxLine(s[i]) && IsLightLine(s[i]) {
      SpotLineKinds(s[i][8]);
      assert s[i] == SpotLine(s[i][8]);
    }
    forall i, j | 0 <= i < j < |s| ensures s[i] != s[j] {
      assert s[i][8] != s[j][8];
    }
    CountAllShared(s[1..]);
    assert OverBoth(s);
  }

  lemma {:induction false} CountAllShared(t: seq<string>)
    requires forall i :: 0 <= i < |t| ==> IsUcxLine(t[i]) && IsLightLine(t[i])
    ensures CountUcx(t) == |t| && CountLight(t) == |t|
    decreases |t|
  {
    if |t| > 0 {
      CountAllShared(t[1..]);
    }
  }

  function SpotLines(): seq<string> {
    [SpotLine('1'), SpotLine('2'), SpotLine('3'), SpotLine('4'), SpotLine('5'), SpotLine('6'), SpotLine('7')]
  }
}
