/**
 * What a rule reports (`Check`), how the reports of a run are grouped by
 * rule name and by first requirement id (`add_checks`), and the plain-text
 * summary written from the by-name grouping (`generate_result`).
 */
module Findings {
  import opened Text

  /** A rule's report once the rule has returned: nothing updates it afterwards. */
  datatype Finding = Finding(
    name: string,
    directory: string,
    verified: bool,
    paragraph: string,
    unitsText: string,
    ids: seq<string>,
    comment: string,
    errors: seq<string>,
    checkedCount: int)

  /** A report being filled in by a rule. */
  class Check {
    var name: string
    var directory: string
    var verified: bool
    var paragraph: string
    var unitsText: string
    var ids: seq<string>
    var comment: string
    var errors: seq<string>
    var checkedCount: int

    constructor (name: string, directory: string, verified: bool, paragraph: string, unitsText: string, ids: seq<string>)
      ensures this.name == name && this.directory == directory && this.verified == verified
      ensures this.paragraph == paragraph && this.unitsText == unitsText && this.ids == ids
      ensures comment == "" && errors == [] && checkedCount == 0
    {
      this.name := name;
      this.directory := directory;
      this.verified := verified;
      this.paragraph := paragraph;
      this.unitsText := unitsText;
      this.ids := ids;
      comment := "";
      errors := [];
      checkedCount := 0;
    }

    /** Recording an error fails the check and appends exactly that message; nothing else changes. */
    method AddError(err: string)
      modifies this
      ensures !verified
      ensures errors == old(errors) + [err]
      ensures name == old(name) && directory == old(directory) && paragraph == old(paragraph)
      ensures unitsText == old(unitsText) && ids == old(ids) && comment == old(comment)
      ensures checkedCount == old(checkedCount)
    {
      verified := false;
      errors := errors + [err];
    }

    function Snapshot(): (f: Finding)
      reads this
      ensures f.errors == errors && f.verified == verified && f.ids == ids && f.name == name
    {
      Finding(name, directory, verified, paragraph, unitsText, ids, comment, errors, checkedCount)
    }
  }

  /** `add_error` once per message, in order. */
  method AddErrors(c: Check, errs: seq<string>)
    modifies c
    ensures c.errors == old(c.errors) + errs
    ensures c.verified == (old(c.verified) && errs == [])
    ensures c.name == old(c.name) && c.directory == old(c.directory) && c.paragraph == old(c.paragraph)
    ensures c.unitsText == old(c.unitsText) && c.ids == old(c.ids) && c.comment == old(c.comment)
    ensures c.checkedCount == old(c.checkedCount)
  {
    var i := 0;
    while i < |errs|
      invariant 0 <= i <= |errs|
      invariant c.errors == old(c.errors) + errs[..i]
      invariant c.verified == (old(c.verified) && i == 0)
      invariant c.name == old(c.name) && c.directory == old(c.directory) && c.paragraph == old(c.paragraph)
      invariant c.unitsText == old(c.unitsText) && c.ids == old(c.ids) && c.comment == old(c.comment)
      invariant c.checkedCount == old(c.checkedCount)
    {
      c.AddError(errs[i]);
      assert errs[..i + 1] == errs[..i] + [errs[i]];
      i := i + 1;
    }
    assert errs[..i] == errs;
  }

  /** A check that receives at most the one message: it fails exactly when `failed` holds. */
  method Verdict(name: string, directory: string, paragraph: string, ids: seq<string>, failed: bool, msg: string) returns (f: Finding)
    ensures f.name == name && f.directory == directory && f.paragraph == paragraph && f.ids == ids
    ensures f.verified <==> !failed
    ensures f.errors == if failed then [msg] else []
    ensures f == Finding(name, directory, !failed, paragraph, "", ids, "", if failed then [msg] else [], 0)
  {
    var c := new Check(name, directory, true, paragraph, "", ids);
    if failed {
      c.AddError(msg);
    }
    f := c.Snapshot();
  }

  /** A finding about the given file that failed exactly when it received a line. */
  predicate Settled(f: Finding, directory: string) {
    f.directory == directory && (f.verified <==> f.errors == [])
  }

  /** Every finding of the list is `Settled`. */
  predicate AllSettled(r: seq<Finding>, directory: string) {
    forall k :: 0 <= k < |r| ==> Settled(r[k], directory)
  }

  lemma SettledJoin(xs: seq<Finding>, ys: seq<Finding>, directory: string)
    requires AllSettled(xs, directory) && AllSettled(ys, directory)
    ensures AllSettled(xs + ys, directory)
  {
    forall k | 0 <= k < |xs + ys|
      ensures Settled((xs + ys)[k], directory)
    {
      if k >= |xs| {
        assert (xs + ys)[k] == ys[k - |xs|];
      }
    }
  }

  /* ---------------------------------------------------------------- */
  /* Grouping                                                          */
  /* ---------------------------------------------------------------- */

  /** A Python dict from keys to lists of findings: keys in insertion order, each with its list. */
  datatype Groups = Groups(keys: seq<string>, entries: map<string, seq<Finding>>)
  {
    ghost predicate Valid() {
      Distinct(keys)
      && (forall k :: k in entries <==> k in keys)
      && (forall k :: k in entries ==> |entries[k]| > 0)
    }

    function Get(k: string): seq<Finding> {
      if k in entries then entries[k] else []
    }
  }

  const NoGroups := Groups([], map[])

  datatype GroupKey = ByName | ById

  predicate HasKey(f: Finding, kind: GroupKey) {
    kind == ByName || |f.ids| > 0
  }

  function KeyOf(f: Finding, kind: GroupKey): string
    requires HasKey(f, kind)
  {
    if kind == ByName then f.name else f.ids[0]
  }

  /** One step of `add_checks`: create the list on first sight of the key, then append. */
  function AddTo(g: Groups, f: Finding, k: string): Groups {
    if k in g.entries then Groups(g.keys, g.entries[k := g.entries[k] + [f]])
    else Groups(g.keys + [k], g.entries[k := [f]])
  }

  /** `add_checks` over a batch, with the list for each key in arrival order. */
  function GroupAll(g: Groups, batch: seq<Finding>, kind: GroupKey): Groups
    requires forall i :: 0 <= i < |batch| ==> HasKey(batch[i], kind)
    decreases |batch|
  {
    if |batch| == 0 then g
    else
      var last := batch[|batch| - 1];
      AddTo(GroupAll(g, batch[..|batch| - 1], kind), last, KeyOf(last, kind))
  }

  /** The findings of `batch` whose key is `k`, in arrival order. */
  function WithKey(batch: seq<Finding>, kind: GroupKey, k: string): (r: seq<Finding>)
    requires forall i :: 0 <= i < |batch| ==> HasKey(batch[i], kind)
    ensures |r| <= |batch|
    decreases |batch|
  {
    if |batch| == 0 then []
    else
      var last := batch[|batch| - 1];
      WithKey(batch[..|batch| - 1], kind, k) + (if KeyOf(last, kind) == k then [last] else [])
  }

  lemma AddToValid(g: Groups, f: Finding, k: string)
    requires g.Valid()
    ensures AddTo(g, f, k).Valid()
  {
  }

  lemma {:induction false} GroupAllValid(g: Groups, batch: seq<Finding>, kind: GroupKey)
    requires g.Valid()
    requires forall i :: 0 <= i < |batch| ==> HasKey(batch[i], kind)
    ensures GroupAll(g, batch, kind).Valid()
    decreases |batch|
  {
    if |batch| > 0 {
      GroupAllValid(g, batch[..|batch| - 1], kind);
      AddToValid(GroupAll(g, batch[..|batch| - 1], kind), batch[|batch| - 1], KeyOf(batch[|batch| - 1], kind));
    }
  }

  lemma AddToGet(g: Groups, f: Finding, k: string, k': string)
    ensures AddTo(g, f, k).Get(k') == g.Get(k') + (if k == k' then [f] else [])
  {
  }

  lemma AddToKeys(g: Groups, f: Finding, k: string, k': string)
    requires g.Valid()
    ensures k' in AddTo(g, f, k).keys <==> k' in g.keys || k' == k
    ensures |g.keys| <= |AddTo(g, f, k).keys| && AddTo(g, f, k).keys[..|g.keys|] == g.keys
  {
  }

  /** Every finding lands exactly once, under its own key, after those already there and in arrival order. */
  lemma {:induction false} GroupAllContents(g: Groups, batch: seq<Finding>, kind: GroupKey, k: string)
    requires forall i :: 0 <= i < |batch| ==> HasKey(batch[i], kind)
    ensures GroupAll(g, batch, kind).Get(k) == g.Get(k) + WithKey(batch, kind, k)
    decreases |batch|
  {
    if |batch| > 0 {
      var front := batch[..|batch| - 1];
      var last := batch[|batch| - 1];
      GroupAllContents(g, front, kind, k);
      AddToGet(GroupAll(g, front, kind), last, KeyOf(last, kind), k);
      var w := WithKey(front, kind, k);
      if KeyOf(last, kind) == k {
        assert (g.Get(k) + w) + [last] == g.Get(k) + (w + [last]);
      } else {
        assert w + [] == w;
      }
    }
  }

  /** Keys keep their first-appearance order; a key is new iff it was absent and some finding carries it. */
  lemma {:induction false} GroupAllKeys(g: Groups, batch: seq<Finding>, kind: GroupKey, k: string)
    requires g.Valid()
    requires forall i :: 0 <= i < |batch| ==> HasKey(batch[i], kind)
    ensures k in GroupAll(g, batch, kind).keys <==> k in g.keys || |WithKey(batch, kind, k)| > 0
    ensures |g.keys| <= |GroupAll(g, batch, kind).keys| && GroupAll(g, batch, kind).keys[..|g.keys|] == g.keys
    decreases |batch|
  {
    if |batch| > 0 {
      var front := batch[..|batch| - 1];
      var last := batch[|batch| - 1];
      GroupAllKeys(g, front, kind, k);
      var prefix := GroupAll(g, front, kind);
      GroupAllValid(g, front, kind);
      AddToKeys(prefix, last, KeyOf(last, kind), k);
      var r := AddTo(prefix, last, KeyOf(last, kind));
      assert r.keys[..|g.keys|] == prefix.keys[..|g.keys|];
      assert |WithKey(batch, kind, k)| > 0 <==> |WithKey(front, kind, k)| > 0 || KeyOf(last, kind) == k;
    }
  }

  /** One loop of `add_checks`: every check of the batch appended to the list of its key. */
  method AddEach(g: Groups, batch: seq<Finding>, kind: GroupKey) returns (r: Groups)
    requires g.Valid()
    requires forall i :: 0 <= i < |batch| ==> HasKey(batch[i], kind)
    ensures r == GroupAll(g, batch, kind) && r.Valid()
  {
    r := g;
    var i := 0;
    while i < |batch|
      invariant 0 <= i <= |batch| && r.Valid()
      invariant r == GroupAll(g, batch[..i], kind)
    {
      AddToValid(r, batch[i], KeyOf(batch[i], kind));
      r := AddTo(r, batch[i], KeyOf(batch[i], kind));
      assert batch[..i + 1][..i] == batch[..i];
      i := i + 1;
    }
    assert batch[..i] == batch;
  }

  /** The dictionaries that `HighpolyChecks`/`LowpolyChecks` keep for a run. */
  class CheckGroups {
    var byName: Groups
    var byId: Groups
    var report: string

    ghost predicate Valid()
      reads this
    {
      byName.Valid() && byId.Valid()
    }

    constructor ()
      ensures Valid() && byName == NoGroups && byId == NoGroups && report == ""
    {
      byName := NoGroups;
      byId := NoGroups;
      report := "";
    }

    /** `add_checks`: first every check under its name, then every check under its first id. */
    method AddChecks(batch: seq<Finding>)
      requires Valid()
      requires forall i :: 0 <= i < |batch| ==> |batch[i].ids| > 0
      modifies this
      ensures Valid()
      ensures byName == GroupAll(old(byName), batch, ByName)
      ensures byId == GroupAll(old(byId), batch, ById)
      ensures report == old(report)
    {
      byName := AddEach(byName, batch, ByName);
      byId := AddEach(byId, batch, ById);
    }

    /** The summary of the by-name grouping, stored as the tier's result report. */
    method GenerateResult(tier: Tier)
      requires Valid()
      modifies this
      ensures report == Summary(byName, tier)
      ensures byName == old(byName) && byId == old(byId)
    {
      var keys := SortStrings(byName.keys);
      var msg1, msg2 := SummaryParts(byName, keys, tier);
      report := "\n\n" + Banner(tier) + "\nПроверки:\n" + msg1 + "\n\nОшибки:\n" + msg2 + "\n" + Rule;
    }
  }

  /* ---------------------------------------------------------------- */
  /* Summary text                                                      */
  /* ---------------------------------------------------------------- */

  /** The two rule sets; they differ in the banner and in how the paragraph is printed. */
  datatype Tier = Highpoly | Lowpoly

  function Banner(tier: Tier): string {
    if tier == Highpoly then "----------------------Высокополигональная модель---------------------------"
    else "-----------------------Низкополигональная модель---------------------------"
  }

  const Rule := "-----------------------------------------------------------------------------"

  /** Python's `str(b)` for a bool. */
  function BoolText(b: bool): string {
    if b then "True" else "False"
  }

  /** The high tier always prints " (p)"; the low tier prints " (p)" only for a non-empty p, else " ". */
  function ParagraphSuffix(p: string, tier: Tier): (r: string)
    ensures |r| > 0 && r[0] == ' '
    ensures tier == Lowpoly && p == "" ==> r == " "
  {
    if tier == Highpoly || p != "" then " (" + p + ")" else " "
  }

  predicate AllVerified(cs: seq<Finding>) {
    forall i :: 0 <= i < |cs| ==> cs[i].verified
  }

  function Unverified(cs: seq<Finding>): (r: seq<Finding>)
    ensures |r| <= |cs|
    ensures forall i :: 0 <= i < |r| ==> !r[i].verified
  {
    if |cs| == 0 then []
    else Unverified(cs[..|cs| - 1]) + (if cs[|cs| - 1].verified then [] else [cs[|cs| - 1]])
  }

  /** Each message of a check on its own line, indented by eight spaces. */
  function MessageLines(errs: seq<string>): string {
    if |errs| == 0 then ""
    else MessageLines(errs[..|errs| - 1]) + ("        " + errs[|errs| - 1] + "\n")
  }

  /** The error lines of a group: for each unverified check its directory, then its messages. */
  function ErrLines(cs: seq<Finding>): string {
    if |cs| == 0 then ""
    else
      var c := cs[|cs| - 1];
      ErrLines(cs[..|cs| - 1])
      + (if c.verified then "" else "    " + c.directory + "\n" + MessageLines(c.errors))
  }

  /** The error lines of a group come from its unverified checks alone. */
  lemma {:induction false} ErrLinesUnverified(cs: seq<Finding>)
    ensures ErrLines(cs) == ErrLines(Unverified(cs))
  {
    if |cs| > 0 {
      ErrLinesUnverified(cs[..|cs| - 1]);
      var u := Unverified(cs[..|cs| - 1]);
      var c := cs[|cs| - 1];
      if !c.verified {
        assert (u + [c])[..|u|] == u;
      } else {
        assert u + [] == u;
      }
    }
  }

  /** A group has error lines iff one of its checks is unverified. */
  lemma {:induction false} ErrLinesEmpty(cs: seq<Finding>)
    ensures ErrLines(cs) == "" <==> AllVerified(cs)
  {
    if |cs| > 0 {
      ErrLinesEmpty(cs[..|cs| - 1]);
      var c := cs[|cs| - 1];
      if !c.verified {
        assert |ErrLines(cs)| >= |"    " + c.directory + "\n"| > 0;
      } else {
        assert AllVerified(cs) <==> AllVerified(cs[..|cs| - 1]) by {
          if AllVerified(cs[..|cs| - 1]) {
            forall i | 0 <= i < |cs| ensures cs[i].verified {
              if i < |cs| - 1 { assert cs[i] == cs[..|cs| - 1][i]; }
            }
          }
        }
      }
    }
  }

  /** Builds the error lines of a group check by check, message by message. */
  method ErrorLinesOf(cs: seq<Finding>) returns (s: string)
    ensures s == ErrLines(cs)
  {
    s := "";
    var i := 0;
    while i < |cs|
      invariant 0 <= i <= |cs| && s == ErrLines(cs[..i])
    {
      var c := cs[i];
      if !c.verified {
        var msgs := MessageLinesOf(c.errors);
        s := s + ("    " + c.directory + "\n" + msgs);
      } else {
        assert s + "" == s;
      }
      assert cs[..i + 1][..i] == cs[..i];
      i := i + 1;
    }
    assert cs[..i] == cs;
  }

  method MessageLinesOf(errs: seq<string>) returns (s: string)
    ensures s == MessageLines(errs)
  {
    s := "";
    var j := 0;
    while j < |errs|
      invariant 0 <= j <= |errs| && s == MessageLines(errs[..j])
    {
      assert errs[..j + 1][..j] == errs[..j];
      s := s + ("        " + errs[j] + "\n");
      j := j + 1;
    }
    assert errs[..j] == errs;
  }

  /** The loop of `generate_result`: a status line per key, an error block per failed key. */
  method SummaryParts(g: Groups, keys: seq<string>, tier: Tier) returns (msg1: string, msg2: string)
    ensures msg1 == CheckLines(g, keys, tier)
    ensures msg2 == ErrorBlocks(g, keys, tier)
  {
    msg1 := "";
    msg2 := "";
    var i := 0;
    while i < |keys|
      invariant 0 <= i <= |keys|
      invariant msg1 == CheckLines(g, keys[..i], tier)
      invariant msg2 == ErrorBlocks(g, keys[..i], tier)
    {
      var key := keys[i];
      var checks := g.Get(key);
      var verifiedAll := AllVerified(checks);
      var para := FirstParagraph(checks);
      SummaryStep(g, keys, i, tier);
      msg1 := msg1 + CheckLine(g, key, tier);
      if !verifiedAll {
        var errLines := ErrorLinesOf(checks);
        var block := "\n" + key + ParagraphSuffix(para, tier) + "\n" + errLines;
        assert block == ErrorBlock(g, key, tier);
        msg2 := msg2 + block;
      } else {
        assert ErrorBlock(g, key, tier) == "";
        assert msg2 + ErrorBlock(g, key, tier) == msg2;
      }
      i := i + 1;
    }
    assert keys[..i] == keys;
  }

  /** One more key adds its status line and its error block at the end. */
  lemma SummaryStep(g: Groups, keys: seq<string>, i: nat, tier: Tier)
    requires i < |keys|
    ensures CheckLines(g, keys[..i + 1], tier) == CheckLines(g, keys[..i], tier) + CheckLine(g, keys[i], tier)
    ensures ErrorBlocks(g, keys[..i + 1], tier) == ErrorBlocks(g, keys[..i], tier) + ErrorBlock(g, keys[i], tier)
  {
    assert keys[..i + 1][..i] == keys[..i];
  }

  function FirstParagraph(cs: seq<Finding>): string {
    if |cs| > 0 then cs[0].paragraph else ""
  }

  /** The status line of one rule name: name padded with dots to 70, True/False padded to 6, paragraph. */
  function CheckLine(g: Groups, key: string, tier: Tier): (r: string)
    ensures StartsWith(r, key)
    ensures |r| >= 76
  {
    var cs := g.Get(key);
    var line := LJust(key, 70, '.') + LJust(BoolText(AllVerified(cs)), 6, ' ') + ParagraphSuffix(FirstParagraph(cs), tier) + "\n";
    assert line[..|key|] == LJust(key, 70, '.')[..|key|];
    line
  }

  /** The error-section block of one rule name; empty when all its checks passed. */
  function ErrorBlock(g: Groups, key: string, tier: Tier): string {
    var cs := g.Get(key);
    if AllVerified(cs) then ""
    else "\n" + key + ParagraphSuffix(FirstParagraph(cs), tier) + "\n" + ErrLines(cs)
  }

  function CheckLines(g: Groups, keys: seq<string>, tier: Tier): string {
    if |keys| == 0 then ""
    else CheckLines(g, keys[..|keys| - 1], tier) + CheckLine(g, keys[|keys| - 1], tier)
  }

  function ErrorBlocks(g: Groups, keys: seq<string>, tier: Tier): string {
    if |keys| == 0 then ""
    else ErrorBlocks(g, keys[..|keys| - 1], tier) + ErrorBlock(g, keys[|keys| - 1], tier)
  }

  /** `generate_result`: a status line for every rule name in sorted order, then the error blocks. */
  function Summary(g: Groups, tier: Tier): string {
    var keys := SortStrings(g.keys);
    "\n\n" + Banner(tier) + "\nПроверки:\n" + CheckLines(g, keys, tier)
    + "\n\nОшибки:\n" + ErrorBlocks(g, keys, tier) + "\n" + Rule
  }

  /**
   * A rule name has a block in the error section iff some check under it is
   * unverified; the block opens with the name and lists unverified checks only.
   */
  lemma ErrorBlockIff(g: Groups, key: string, tier: Tier)
    ensures ErrorBlock(g, key, tier) != "" <==> !AllVerified(g.Get(key))
    ensures ErrorBlock(g, key, tier) != "" ==>
      ErrorBlock(g, key, tier)
        == "\n" + key + ParagraphSuffix(FirstParagraph(g.Get(key)), tier) + "\n" + ErrLines(Unverified(g.Get(key)))
  {
    ErrLinesUnverified(g.Get(key));
  }

  /** The summary's status lines are those of the keys in sorted order, each key exactly once. */
  lemma SummaryKeysSorted(g: Groups)
    requires g.Valid()
    ensures SortedStrings(SortStrings(g.keys))
    ensures forall k :: k in SortStrings(g.keys) <==> k in g.entries
    ensures forall i, j :: 0 <= i < j < |SortStrings(g.keys)| ==> StrLt(SortStrings(g.keys)[i], SortStrings(g.keys)[j])
    ensures Distinct(SortStrings(g.keys))
  {
    var s := SortStrings(g.keys);
    forall k ensures k in s <==> k in g.entries {
      assert k in s <==> k in multiset(s);
      assert k in g.keys <==> k in multiset(g.keys);
    }
    DistinctCount(g.keys);
    CountDistinct(s);
    forall i, j | 0 <= i < j < |s| ensures StrLt(s[i], s[j]) {
      assert StrLe(s[i], s[j]) && s[i] != s[j];
    }
  }

  predicate Distinct(s: seq<string>) {
    forall i, j :: 0 <= i < j < |s| ==> s[i] != s[j]
  }

  lemma {:induction false} DistinctCount(s: seq<string>)
    requires Distinct(s)
    ensures forall x :: multiset(s)[x] <= 1
    decreases |s|
  {
    if |s| > 0 {
      var front := s[..|s| - 1];
      DistinctCount(front);
      assert s == front + [s[|s| - 1]];
      assert s[|s| - 1] !in front;
    }
  }

  lemma {:induction false} CountDistinct(s: seq<string>)
    requires forall x :: multiset(s)[x] <= 1
    ensures Distinct(s)
    decreases |s|
  {
    if |s| > 0 {
      var front := s[..|s| - 1];
      var x := s[|s| - 1];
      assert s == front + [x];
      assert multiset(s) == multiset(front) + multiset{x};
      assert multiset(s)[x] == multiset(front)[x] + 1;
      assert x !in multiset(front);
      forall y ensures multiset(front)[y] <= 1 {
        assert multiset(front)[y] <= multiset(s)[y];
      }
      CountDistinct(front);
      forall i, j | 0 <= i < j < |s| ensures s[i] != s[j] {
        if j == |s| - 1 {
          assert s[i] == front[i];
        } else {
          assert s[i] == front[i] && s[j] == front[j];
        }
      }
    }
  }
}
