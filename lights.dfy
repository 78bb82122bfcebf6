/**
 * The lighting rule of the high-poly model (`_check_lights`): only files
 * whose name contains "Light" are inspected. There, the root is an Empty
 * without a parent and every lamp hangs below it; lamps are point or spot
 * lamps without a custom distance; at most fifty lamps per file.
 */
module Lights {
  import opened Text
  import opened Findings
  import opened Scene
  import opened Walks

  const RootParentTail := ": Root не должен иметь родительских объектов"
  const LampRootTail := ": Источники освещения должны находиться в корневом элементе Root"
  const DistanceTail := ": Дальность распространения необходимо отключать"
  const TypeTail := ": Тип источника освещения не соответствует. Допустимы только точечные или конические источники"
  const TooManyMsg := "Более 50 источников освещения"
  const KindsName := "Проверка освещения. Типы источников и дальность распространения"
  const KindsParagraph := "таблица 2, п. 15, п/п 6, 8"
  const HierarchyName := "Проверка освещения. Иерархия"
  const HierarchyParagraph := "таблица 2, п. 15, п/п 9"
  const CountName := "Проверка освещения. Количество"
  const CountParagraph := "таблица 2, п. 15, п/п 3"

  /** Lighting files are told apart by a case-sensitive part of the file name. */
  predicate IsLightFile(fbx: Fbx) {
    Contains(fbx.name, "Light")
  }

  predicate IsLamp(o: Obj) {
    o.kind == LightKind
  }

  /** An object that is neither the root nor a lamp: it fails the hierarchy check without a message. */
  predicate Stray(o: Obj) {
    o.kind != EmptyKind && o.kind != LightKind
  }

  predicate HasStray(ms: seq<Obj>) {
    exists i :: 0 <= i < |ms| && Stray(ms[i])
  }

  /** The hierarchy lines: an Empty with a parent, a lamp without one. */
  function HierarchyLines(o: Obj): seq<string> {
    if o.kind == EmptyKind && o.parent.Some? then [o.name + RootParentTail]
    else if IsLamp(o) && o.parent.None? then [o.name + LampRootTail]
    else []
  }

  function DistanceLines(o: Obj): seq<string> {
    if IsLamp(o) && o.customDistance then [o.name + DistanceTail] else []
  }

  function TypeLines(o: Obj): seq<string> {
    if IsLamp(o) && o.lightType != "POINT" && o.lightType != "SPOT" then [o.name + TypeTail] else []
  }

  /** The lamp counter. */
  function Lamps(ms: seq<Obj>): (n: nat)
    ensures n <= |ms|
  {
    if ms == [] then 0 else Lamps(ms[..|ms| - 1]) + (if IsLamp(ms[|ms| - 1]) then 1 else 0)
  }

  /** A file whose objects are all lamps has as many lamps as objects, and only such a file. */
  lemma {:induction false} LampsAll(ms: seq<Obj>)
    ensures Lamps(ms) == |ms| <==> forall i :: 0 <= i < |ms| ==> IsLamp(ms[i])
  {
    if ms != [] {
      var p := ms[..|ms| - 1];
      LampsAll(p);
      assert forall i :: 0 <= i < |p| ==> p[i] == ms[i];
    }
  }

  /** One more object has a stray one exactly when it is stray or one was there before. */
  lemma StrayNext(ms: seq<Obj>, i: nat)
    requires i < |ms|
    ensures HasStray(ms[..i + 1]) <==> HasStray(ms[..i]) || Stray(ms[i])
  {
    assert forall j :: 0 <= j < i ==> ms[..i + 1][j] == ms[..i][j];
    assert ms[..i + 1][i] == ms[i];
  }

  /** The hierarchy walk: lines as `HierarchyLines` says, and a silent failure for a stray object. */
  method HierarchyReport(fbx: Fbx) returns (f: Finding)
    ensures f == Finding(HierarchyName, fbx.name, Walk(fbx.meshes, HierarchyLines) == [] && !HasStray(fbx.meshes),
      HierarchyParagraph, "", ["2.15.9"], "", Walk(fbx.meshes, HierarchyLines), 0)
  {
    var ms := fbx.meshes;
    var c := new Check(HierarchyName, fbx.name, true, HierarchyParagraph, "", ["2.15.9"]);
    var i := 0;
    while i < |ms|
      invariant 0 <= i <= |ms|
      invariant c.errors == Walk(ms[..i], HierarchyLines)
      invariant c.verified == (Walk(ms[..i], HierarchyLines) == [] && !HasStray(ms[..i]))
      invariant c.name == HierarchyName && c.directory == fbx.name && c.paragraph == HierarchyParagraph
      invariant c.unitsText == "" && c.ids == ["2.15.9"] && c.comment == "" && c.checkedCount == 0
    {
      var o := ms[i];
      WalkNext(ms, HierarchyLines, i);
      StrayNext(ms, i);
      if o.kind == EmptyKind {
        if o.parent.Some? {
          c.AddError(o.name + RootParentTail);
        } else {
          assert HierarchyLines(o) == [];
        }
      } else if o.kind != LightKind {
        assert HierarchyLines(o) == [];
        c.verified := false;
      } else if o.parent.None? {
        c.AddError(o.name + LampRootTail);
      } else {
        assert HierarchyLines(o) == [];
      }
      i := i + 1;
    }
    assert ms[..i] == ms;
    f := c.Snapshot();
  }

  /** The lamp counter of the walk. */
  method CountLamps(ms: seq<Obj>) returns (n: nat)
    ensures n == Lamps(ms)
  {
    n := 0;
    var i := 0;
    while i < |ms|
      invariant 0 <= i <= |ms|
      invariant n == Lamps(ms[..i])
    {
      assert ms[..i + 1][..i] == ms[..i];
      if ms[i].kind == LightKind {
        n := n + 1;
      }
      i := i + 1;
    }
    assert ms[..i] == ms;
  }

  /** The four lighting reports of one high-poly file. */
  datatype LightReports = LightReports(hierarchy: Finding, types: Finding, distance: Finding, count: Finding)
  {
    /** The reports in the order the rule returns them. */
    function List(): seq<Finding> {
      [hierarchy, types, distance, count]
    }
  }

  /** A report that received nothing. */
  predicate Clean(f: Finding) {
    f.verified && f.errors == []
  }

  /**
   * The lighting reports of one file: hierarchy (2.15.9), lamp types
   * (2.15.6), custom distance (2.15.8) and lamp count (2.15.3). A file that
   * is not a lighting file passes all four untouched.
   */
  method CheckLights(fbx: Fbx) returns (t: LightReports)
    ensures t.hierarchy.ids == ["2.15.9"] && t.types.ids == ["2.15.6"] && t.distance.ids == ["2.15.8"] && t.count.ids == ["2.15.3"]
    ensures t.hierarchy.directory == fbx.name && t.types.directory == fbx.name
    ensures t.distance.directory == fbx.name && t.count.directory == fbx.name
    ensures !IsLightFile(fbx) ==> Clean(t.hierarchy) && Clean(t.types) && Clean(t.distance) && Clean(t.count)
    ensures IsLightFile(fbx) ==>
      && t.hierarchy.errors == Walk(fbx.meshes, HierarchyLines)
      && (t.hierarchy.verified <==> t.hierarchy.errors == [] && !HasStray(fbx.meshes))
      && t.types.errors == Walk(fbx.meshes, TypeLines) && (t.types.verified <==> t.types.errors == [])
      && t.distance.errors == Walk(fbx.meshes, DistanceLines) && (t.distance.verified <==> t.distance.errors == [])
      && t.count.errors == (if Lamps(fbx.meshes) > 50 then [TooManyMsg] else [])
      && (t.count.verified <==> Lamps(fbx.meshes) <= 50)
  {
    if !IsLightFile(fbx) {
      var hierarchy := Verdict(HierarchyName, fbx.name, HierarchyParagraph, ["2.15.9"], false, "");
      var types := Verdict(KindsName, fbx.name, KindsParagraph, ["2.15.6"], false, "");
      var distance := Verdict(KindsName, fbx.name, KindsParagraph, ["2.15.8"], false, "");
      var count := Verdict(CountName, fbx.name, CountParagraph, ["2.15.3"], false, "");
      return LightReports(hierarchy, types, distance, count);
    }
    var hierarchy := HierarchyReport(fbx);
    var types := WalkReport(fbx, KindsName, KindsParagraph, "2.15.6", TypeLines);
    var distance := WalkReport(fbx, KindsName, KindsParagraph, "2.15.8", DistanceLines);
    var lamps := CountLamps(fbx.meshes);
    var count := Verdict(CountName, fbx.name, CountParagraph, ["2.15.3"], lamps > 50, TooManyMsg);
    t := LightReports(hierarchy, types, distance, count);
  }

  /** A lighting file passes the hierarchy check exactly when every object is a parentless Empty or a lamp with a parent. */
  lemma HierarchyPasses(ms: seq<Obj>)
    ensures Walk(ms, HierarchyLines) == [] && !HasStray(ms) <==>
      forall i :: 0 <= i < |ms| ==>
        (ms[i].kind == EmptyKind && ms[i].parent.None?) || (IsLamp(ms[i]) && ms[i].parent.Some?)
  {
    WalkEmpty(ms, HierarchyLines);
  }

  /** A lighting file passes the type check exactly when every lamp is a point or spot lamp. */
  lemma TypeCheckPasses(ms: seq<Obj>)
    ensures Walk(ms, TypeLines) == [] <==>
      forall i :: 0 <= i < |ms| && IsLamp(ms[i]) ==> ms[i].lightType == "POINT" || ms[i].lightType == "SPOT"
  {
    WalkEmpty(ms, TypeLines);
  }

  /** A lighting file passes the distance check exactly when no lamp uses a custom distance. */
  lemma DistanceCheckPasses(ms: seq<Obj>)
    ensures Walk(ms, DistanceLines) == [] <==> forall i :: 0 <= i < |ms| && IsLamp(ms[i]) ==> !ms[i].customDistance
  {
    WalkEmpty(ms, DistanceLines);
  }
}
