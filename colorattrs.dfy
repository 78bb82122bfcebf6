/**
 * The colour-attribute check (`check_color_attributes`), run on the
 * high-poly and the low-poly files alike: a mesh must carry no colour
 * attributes. Offending meshes are listed by name; collision meshes ("ucx"
 * in the name, in any case) are listed after the others and at most five of
 * them, followed by "и т. д." when the list was cut.
 */
module ColorAttributes {
  import opened Text
  import opened Findings
  import opened Scene
  import opened Walks

  const CheckName := "Проверка FBX. Color attributes"
  const EtcLine := "и т. д."
  const UcxQuota := 5

  /** A mesh with at least one colour attribute. */
  predicate Painted(o: Obj) {
    IsMesh(o) && o.colorAttributes > 0
  }

  predicate IsCollision(o: Obj) {
    Contains(Lower(o.name), "ucx")
  }

  /** The names listed directly, in object order. */
  function PlainLines(o: Obj): seq<string> {
    if Painted(o) && !IsCollision(o) then [o.name] else []
  }

  /** The collision meshes that offend, in object order. */
  function CollisionLines(o: Obj): seq<string> {
    if Painted(o) && IsCollision(o) then [o.name] else []
  }

  /** The first `UcxQuota` collision names. */
  function Quota(s: seq<string>): (r: seq<string>)
    ensures |r| <= UcxQuota && r <= s
    ensures |s| <= UcxQuota ==> r == s
  {
    if |s| <= UcxQuota then s else s[..UcxQuota]
  }

  /** The quota of one more collision name: it is kept while there is room. */
  lemma QuotaNext(s: seq<string>, x: string)
    ensures Quota(s + [x]) == if |Quota(s)| < UcxQuota then Quota(s) + [x] else Quota(s)
  {
    if |s| >= UcxQuota {
      assert (s + [x])[..UcxQuota] == s[..UcxQuota];
    }
  }

  /**
   * The messages of one file; `asWritten` closes the list with "и т. д."
   * when the kept list is full (`len(ucx_errors) == 5`), otherwise only
   * when collision names were dropped.
   */
  function ColorLines(ms: seq<Obj>, asWritten: bool): seq<string> {
    var ucx := Walk(ms, CollisionLines);
    var etc := if asWritten then |Quota(ucx)| == UcxQuota else |ucx| > UcxQuota;
    Walk(ms, PlainLines) + Quota(ucx) + (if etc then [EtcLine] else [])
  }

  /**
   * The walk of one file: names of ordinary meshes go straight to the
   * check, collision names are kept up to the quota (and counted) and added
   * at the end.
   */
  method CheckColorAttributes(fbx: Fbx, asWritten: bool) returns (f: Finding)
    ensures f == Finding(CheckName, fbx.name, f.errors == [], "", "", ["4.1.1"], "", ColorLines(fbx.meshes, asWritten), 0)
  {
    var ms := fbx.meshes;
    var c := new Check(CheckName, fbx.name, true, "", "", ["4.1.1"]);
    var kept: seq<string> := [];
    var seen := 0;
    var i := 0;
    while i < |ms|
      invariant 0 <= i <= |ms|
      invariant c.errors == Walk(ms[..i], PlainLines) && c.verified == (c.errors == [])
      invariant kept == Quota(Walk(ms[..i], CollisionLines)) && seen == |Walk(ms[..i], CollisionLines)|
      invariant c.name == CheckName && c.directory == fbx.name && c.paragraph == "" && c.unitsText == ""
      invariant c.ids == ["4.1.1"] && c.comment == "" && c.checkedCount == 0
    {
      WalkNext(ms, PlainLines, i);
      WalkNext(ms, CollisionLines, i);
      var o := ms[i];
      if Painted(o) {
        if IsCollision(o) {
          assert PlainLines(o) == [] && CollisionLines(o) == [o.name];
          QuotaNext(Walk(ms[..i], CollisionLines), o.name);
          if |kept| < UcxQuota {
            kept := kept + [o.name];
          }
          seen := seen + 1;
        } else {
          assert PlainLines(o) == [o.name] && CollisionLines(o) == [];
          c.AddError(o.name);
        }
      } else {
        assert PlainLines(o) == [] && CollisionLines(o) == [];
      }
      i := i + 1;
    }
    assert ms[..i] == ms;
    AddErrors(c, kept);
    if (asWritten && |kept| == UcxQuota) || (!asWritten && seen > UcxQuota) {
      c.AddError(EtcLine);
    }
    f := c.Snapshot();
  }

  /** A file passes exactly when no mesh has a colour attribute. */
  lemma ColorCheckPasses(ms: seq<Obj>, asWritten: bool)
    ensures ColorLines(ms, asWritten) == [] <==> forall i :: 0 <= i < |ms| && IsMesh(ms[i]) ==> ms[i].colorAttributes == 0
  {
    WalkEmpty(ms, PlainLines);
    WalkEmpty(ms, CollisionLines);
    var ucx := Walk(ms, CollisionLines);
    if ucx != [] {
      assert |Quota(ucx)| > 0;
    }
  }

  /** Every ordinary mesh with colour attributes is named. */
  lemma PlainListed(ms: seq<Obj>, asWritten: bool, i: int)
    requires 0 <= i < |ms| && Painted(ms[i]) && !IsCollision(ms[i])
    ensures ms[i].name in ColorLines(ms, asWritten)
  {
    WalkHas(ms, PlainLines, i, 0);
  }

  /** Corrected: the list ends with "и т. д." exactly when collision names were dropped. */
  lemma EtcWhenCut(ms: seq<Obj>)
    ensures var ucx := Walk(ms, CollisionLines);
      |ColorLines(ms, false)| == |Walk(ms, PlainLines)| + |Quota(ucx)| + (if |ucx| > UcxQuota then 1 else 0)
    ensures var ucx := Walk(ms, CollisionLines);
      |ucx| <= UcxQuota ==> ColorLines(ms, false) == Walk(ms, PlainLines) + ucx
  {
  }

  /** As written: exactly five offending collision meshes are all listed and still followed by "и т. д.". */
  lemma EtcAtFive(ms: seq<Obj>)
    requires |Walk(ms, CollisionLines)| == UcxQuota
    ensures ColorLines(ms, true) == Walk(ms, PlainLines) + Walk(ms, CollisionLines) + [EtcLine]
    ensures ColorLines(ms, false) == Walk(ms, PlainLines) + Walk(ms, CollisionLines)
  {
  }
}
