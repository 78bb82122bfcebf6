/**
 * The composition of the FBX files (`_check_fbx_objects`, once for the
 * high-poly and once for the low-poly model).
 *
 * High poly: which kinds of object a file may hold, no hierarchy, one
 * collision mesh at least, exactly one main mesh, at most one glazing mesh,
 * and no animations, cameras or extra collections. A file whose name
 * contains "light" holds the light sources and is checked only for kinds.
 *
 * Low poly: at most 21 files, exactly one landscaping ("ground") file,
 * which holds a Ground, a GroundEl and a Flora mesh, and in every file
 * meshes only, no hierarchy, no animations, cameras or extra collections.
 */
module Objects {
  import opened Wrappers
  import opened Text
  import opened Findings
  import opened Scene

  /** Which counter a mesh object of an ordinary file adds to. */
  datatype Role = UcxRole | GlassRole | OtherRole

  /** "ucx" wins over "glass", case-insensitively. */
  function RoleOf(o: Obj): Role {
    if HasLower(o.name, "ucx") then UcxRole
    else if HasLower(o.name, "glass") then GlassRole
    else OtherRole
  }

  /** An object the file may not hold: a light file holds lights and empties, any other file meshes. */
  predicate Foreign(o: Obj, isLight: bool) {
    if isLight then o.kind != LightKind && o.kind != EmptyKind else !IsMesh(o)
  }

  const ExtraObjectHead := "Лишний объект: "

  function ExtraObjectMsg(o: Obj): string {
    ExtraObjectHead + o.name + " (" + KindName(o.kind) + ")"
  }

  const ParentTail := ": Объекты геометрии не должны иметь иерархических связей между собой"

  function ParentMsg(parent: string): string {
    parent + ParentTail
  }

  /** The lines the kind check receives during the walk, one per foreign object, in order. */
  function ForeignLines(ms: seq<Obj>, isLight: bool): (r: seq<string>)
    ensures |r| <= |ms|
  {
    if ms == [] then []
    else
      var o := ms[|ms| - 1];
      ForeignLines(ms[..|ms| - 1], isLight) + (if Foreign(o, isLight) then [ExtraObjectMsg(o)] else [])
  }

  /** The hierarchy lines: in an ordinary file, one per object that has a parent, naming the parent. */
  function ParentLines(ms: seq<Obj>, isLight: bool): (r: seq<string>)
    ensures |r| <= |ms|
    ensures isLight ==> r == []
  {
    if ms == [] then []
    else
      var o := ms[|ms| - 1];
      ParentLines(ms[..|ms| - 1], isLight) + (if !isLight && o.parent.Some? then [ParentMsg(o.parent.value)] else [])
  }

  function MeshCount(ms: seq<Obj>): (n: int)
    ensures 0 <= n <= |ms|
  {
    if ms == [] then 0 else MeshCount(ms[..|ms| - 1]) + (if IsMesh(ms[|ms| - 1]) then 1 else 0)
  }

  /** The number of mesh objects of the given role. */
  function RoleCount(ms: seq<Obj>, role: Role): (n: int)
    ensures 0 <= n <= MeshCount(ms)
  {
    if ms == [] then 0
    else
      var o := ms[|ms| - 1];
      RoleCount(ms[..|ms| - 1], role) + (if HasRole(o, role) then 1 else 0)
  }

  /** A mesh object whose name gives it `role`. */
  predicate HasRole(o: Obj, role: Role) {
    IsMesh(o) && RoleOf(o) == role
  }

  /** Every mesh object is counted under exactly one role. */
  lemma {:induction false} RolesPartition(ms: seq<Obj>)
    ensures RoleCount(ms, UcxRole) + RoleCount(ms, GlassRole) + RoleCount(ms, OtherRole) == MeshCount(ms)
  {
    if ms != [] {
      RolesPartition(ms[..|ms| - 1]);
    }
  }

  /** A role has a positive count exactly when some mesh object has it. */
  lemma {:induction false} RoleCountPositive(ms: seq<Obj>, role: Role)
    ensures RoleCount(ms, role) > 0 <==> exists i :: 0 <= i < |ms| && HasRole(ms[i], role)
  {
    if ms != [] {
      var p := ms[..|ms| - 1];
      RoleCountPositive(p, role);
      if RoleCount(p, role) > 0 {
        var i :| 0 <= i < |p| && HasRole(p[i], role);
        assert ms[i] == p[i];
      }
      if exists i :: 0 <= i < |ms| && HasRole(ms[i], role) {
        var i :| 0 <= i < |ms| && HasRole(ms[i], role);
        if i < |p| {
          assert p[i] == ms[i];
        }
      }
    }
  }

  /** In an ordinary file the kind check receives one line per object that is not a mesh. */
  lemma {:induction false} ForeignLinesCount(ms: seq<Obj>)
    ensures |ForeignLines(ms, false)| + MeshCount(ms) == |ms|
    ensures ForeignLines(ms, false) == [] <==> MeshCount(ms) == |ms|
  {
    if ms != [] {
      ForeignLinesCount(ms[..|ms| - 1]);
    }
  }

  /** The counters of an ordinary file's walk. */
  method CountRoles(ms: seq<Obj>) returns (ucx: int, glass: int, other: int)
    ensures ucx == RoleCount(ms, UcxRole)
    ensures glass == RoleCount(ms, GlassRole)
    ensures other == RoleCount(ms, OtherRole)
  {
    ucx, glass, other := 0, 0, 0;
    var i := 0;
    while i < |ms|
      invariant 0 <= i <= |ms|
      invariant ucx == RoleCount(ms[..i], UcxRole)
      invariant glass == RoleCount(ms[..i], GlassRole)
      invariant other == RoleCount(ms[..i], OtherRole)
    {
      var o := ms[i];
      assert ms[..i + 1][..i] == ms[..i];
      if IsMesh(o) {
        var role := RoleOf(o);
        if role == UcxRole {
          ucx := ucx + 1;
        } else if role == GlassRole {
          glass := glass + 1;
        } else {
          other := other + 1;
        }
      }
      i := i + 1;
    }
    assert ms[..i] == ms;
  }

  /** The walk's lines for the kind check. */
  method AddForeignLines(ms: seq<Obj>, isLight: bool, kinds: Check)
    modifies kinds
    ensures kinds.errors == old(kinds.errors) + ForeignLines(ms, isLight)
    ensures kinds.verified == (old(kinds.verified) && ForeignLines(ms, isLight) == [])
    ensures kinds.ids == old(kinds.ids) && kinds.directory == old(kinds.directory)
    ensures kinds.name == old(kinds.name) && kinds.paragraph == old(kinds.paragraph) && kinds.unitsText == old(kinds.unitsText)
    ensures kinds.comment == old(kinds.comment) && kinds.checkedCount == old(kinds.checkedCount)
  {
    var i := 0;
    while i < |ms|
      invariant 0 <= i <= |ms|
      invariant kinds.errors == old(kinds.errors) + ForeignLines(ms[..i], isLight)
      invariant kinds.verified == (old(kinds.verified) && ForeignLines(ms[..i], isLight) == [])
      invariant kinds.ids == old(kinds.ids) && kinds.directory == old(kinds.directory)
      invariant kinds.name == old(kinds.name) && kinds.paragraph == old(kinds.paragraph) && kinds.unitsText == old(kinds.unitsText)
      invariant kinds.comment == old(kinds.comment) && kinds.checkedCount == old(kinds.checkedCount)
    {
      assert ms[..i + 1][..i] == ms[..i];
      if Foreign(ms[i], isLight) {
        kinds.AddError(ExtraObjectMsg(ms[i]));
      }
      i := i + 1;
    }
    assert ms[..i] == ms;
  }

  /** The walk's lines for the hierarchy check. */
  method AddParentLines(ms: seq<Obj>, isLight: bool, parents: Check)
    modifies parents
    ensures parents.errors == old(parents.errors) + ParentLines(ms, isLight)
    ensures parents.verified == (old(parents.verified) && ParentLines(ms, isLight) == [])
    ensures parents.ids == old(parents.ids) && parents.directory == old(parents.directory)
    ensures parents.name == old(parents.name) && parents.paragraph == old(parents.paragraph) && parents.unitsText == old(parents.unitsText)
    ensures parents.comment == old(parents.comment) && parents.checkedCount == old(parents.checkedCount)
  {
    var i := 0;
    while i < |ms|
      invariant 0 <= i <= |ms|
      invariant parents.errors == old(parents.errors) + ParentLines(ms[..i], isLight)
      invariant parents.verified == (old(parents.verified) && ParentLines(ms[..i], isLight) == [])
      invariant parents.ids == old(parents.ids) && parents.directory == old(parents.directory)
      invariant parents.name == old(parents.name) && parents.paragraph == old(parents.paragraph) && parents.unitsText == old(parents.unitsText)
      invariant parents.comment == old(parents.comment) && parents.checkedCount == old(parents.checkedCount)
    {
      assert ms[..i + 1][..i] == ms[..i];
      if !isLight && ms[i].parent.Some? {
        parents.AddError(ParentMsg(ms[i].parent.value));
      }
      i := i + 1;
    }
    assert ms[..i] == ms;
  }

  const Pieces := " шт."
  const ActionsHead := "Лишние анимации: "
  const CamerasHead := "Лишние камеры: "
  const CollectionsHead := "Лишние коллекции: "

  function CountLine(head: string, n: int): string {
    head + IntToString(n) + Pieces
  }

  /** The lines for animations and cameras that end the kind check. */
  function ExtrasLines(actions: int, cameras: int): (r: seq<string>)
    ensures r == [] <==> actions <= 0 && cameras <= 0
  {
    (if actions > 0 then [CountLine(ActionsHead, actions)] else [])
      + (if cameras > 0 then [CountLine(CamerasHead, cameras)] else [])
  }

  /** The kind check (2.3.1а): one line per foreign object, then the animation and camera lines. */
  method KindsReport(fbx: Fbx, isLight: bool, paragraph: string) returns (f: Finding)
    ensures f.ids == ["2.3.1а"] && f.directory == fbx.name
    ensures f.errors == ForeignLines(fbx.meshes, isLight) + ExtrasLines(fbx.actions, fbx.cameras)
    ensures f.verified <==> f.errors == []
  {
    var c := new Check("Проверка FBX. Состав файла", fbx.name, true, paragraph, "", ["2.3.1а"]);
    AddForeignLines(fbx.meshes, isLight, c);
    AddErrors(c, ExtrasLines(fbx.actions, fbx.cameras));
    f := c.Snapshot();
  }

  /** The hierarchy check (2.3.10). */
  method HierarchyReport(fbx: Fbx, isLight: bool, paragraph: string) returns (f: Finding)
    ensures f.ids == ["2.3.10"] && f.directory == fbx.name
    ensures f.errors == ParentLines(fbx.meshes, isLight)
    ensures f.verified <==> f.errors == []
  {
    var c := new Check("Проверка FBX. Состав файла", fbx.name, true, paragraph, "", ["2.3.10"]);
    AddParentLines(fbx.meshes, isLight, c);
    f := c.Snapshot();
  }

  /** The collision-geometry check (2.13.3): an ordinary file needs a UCX mesh. */
  method CollisionReport(fbx: Fbx, isLight: bool, ucx: int) returns (f: Finding)
    ensures f.ids == ["2.13.3"] && f.directory == fbx.name
    ensures f.verified <==> isLight || ucx != 0
    ensures f.verified <==> f.errors == []
    ensures f.errors == if !isLight && ucx == 0 then [CollisionMsg] else []
  {
    f := Verdict("Проверка FBX. Коллизии", fbx.name, "таблица 2, п. 13, п/п 3", ["2.13.3"],
      !isLight && ucx == 0, CollisionMsg);
  }

  const CollisionMsg := "Не найдено геометрии коллизий"

  const MainHead := "Вся геометрия (кроме остекления и коллизий) должна быть объединена в единый меш (Main или Ground). Найдено объектов геометрии - "

  /** The main-geometry check (2.3.7): an ordinary file has exactly one mesh that is neither collision nor glazing. */
  method MainReport(fbx: Fbx, isLight: bool, other: int) returns (f: Finding)
    ensures f.ids == ["2.3.7"] && f.directory == fbx.name
    ensures f.verified <==> isLight || other == 1
    ensures f.verified <==> f.errors == []
    ensures f.errors == if !isLight && other != 1 then [CountLine(MainHead, other)] else []
  {
    f := Verdict("Проверка FBX. Основная геометрия", fbx.name, "таблица 2, п. 3, п/п 7", ["2.3.7"],
      !isLight && other != 1,
      CountLine(MainHead, other));
  }

  /** The glazing check (2.8.1): at most one glazing mesh. */
  method GlazingReport(fbx: Fbx, glass: int) returns (f: Finding)
    ensures f.ids == ["2.8.1"] && f.directory == fbx.name
    ensures f.verified <==> glass <= 1
    ensures f.verified <==> f.errors == []
    ensures f.errors == if glass > 1 then [GlazingLine(fbx.name, glass)] else []
  {
    f := Verdict("Проверка FBX. Остекление", fbx.name, "таблица 2, п. 3, п/п 5-6", ["2.8.1"],
      glass > 1, GlazingLine(fbx.name, glass));
  }

  /** The glazing error line, which names the file. */
  function GlazingLine(name: string, glass: int): string {
    CountLine(name + ": Остекление необходимо объединять в единый объект. Мешей остекления найдено: ", glass)
  }

  /** The line for collections beyond the first. */
  function CollectionsLines(collections: int): (r: seq<string>)
    ensures |r| <= 1
    ensures r == [] <==> collections <= 1
  {
    if collections > 1 then [CountLine(CollectionsHead, collections - 1)] else []
  }

  /** The collections check (2.3.3): one collection at most. */
  method CollectionsReport(fbx: Fbx, paragraph: string) returns (f: Finding)
    ensures f.ids == ["2.3.3"] && f.directory == fbx.name
    ensures f.errors == CollectionsLines(fbx.collections)
    ensures f.verified <==> fbx.collections <= 1
    ensures f.verified <==> f.errors == []
  {
    var c := new Check("Проверка FBX. Состав файла", fbx.name, true, paragraph, "", ["2.3.3"]);
    AddErrors(c, CollectionsLines(fbx.collections));
    f := c.Snapshot();
  }

  /**
   * The six reports of one file, in the order the rule creates them:
   * kinds (2.3.1а), collections (2.3.3), hierarchy (2.3.10), collision
   * geometry (2.13.3), main geometry (2.3.7) and glazing (2.8.1).
   */
  method CheckHpObjects(fbx: Fbx) returns (r: seq<Finding>)
    ensures |r| == 6
    ensures r[0].ids == ["2.3.1а"] && r[1].ids == ["2.3.3"] && r[2].ids == ["2.3.10"]
    ensures r[3].ids == ["2.13.3"] && r[4].ids == ["2.3.7"] && r[5].ids == ["2.8.1"]
    ensures AllSettled(r, fbx.name)
    ensures var isLight := HasLower(fbx.name, "light");
      && r[0].errors == ForeignLines(fbx.meshes, isLight) + ExtrasLines(fbx.actions, fbx.cameras)
      && r[2].errors == ParentLines(fbx.meshes, isLight)
      && (r[3].verified <==> isLight || RoleCount(fbx.meshes, UcxRole) > 0)
      && (r[4].verified <==> isLight || RoleCount(fbx.meshes, OtherRole) == 1)
      && (r[5].verified <==> isLight || RoleCount(fbx.meshes, GlassRole) <= 1)
    ensures var isLight := HasLower(fbx.name, "light");
      && r[3].errors == (if !isLight && RoleCount(fbx.meshes, UcxRole) == 0 then [CollisionMsg] else [])
      && r[4].errors == (if !isLight && RoleCount(fbx.meshes, OtherRole) != 1
                         then [CountLine(MainHead, RoleCount(fbx.meshes, OtherRole))] else [])
      && r[5].errors == (if !isLight && RoleCount(fbx.meshes, GlassRole) > 1
                         then [GlazingLine(fbx.name, RoleCount(fbx.meshes, GlassRole))] else [])
    ensures r[1].verified <==> fbx.collections <= 1
    ensures r[1].errors == CollectionsLines(fbx.collections)
  {
    var paragraph := "таблица 2, п. 3, п/п 1-3";
    var isLight := HasLower(fbx.name, "light");
    var kinds := KindsReport(fbx, isLight, paragraph);
    var collections := CollectionsReport(fbx, paragraph);
    var hierarchy := HierarchyReport(fbx, isLight, paragraph);
    var roles := RoleReports(fbx, isLight);
    assert Settled(kinds, fbx.name) && Settled(collections, fbx.name) && Settled(hierarchy, fbx.name);
    SettledJoin([kinds, collections, hierarchy], roles, fbx.name);
    r := [kinds, collections, hierarchy] + roles;
    assert r[3..] == roles;
    assert r[0] == kinds && r[1] == collections && r[2] == hierarchy;
    assert r[3] == roles[0] && r[4] == roles[1] && r[5] == roles[2];
  }

  /** The collision, main-geometry and glazing reports; a lighting file counts no roles. */
  method RoleReports(fbx: Fbx, isLight: bool) returns (r: seq<Finding>)
    ensures |r| == 3
    ensures r[0].ids == ["2.13.3"] && r[1].ids == ["2.3.7"] && r[2].ids == ["2.8.1"]
    ensures AllSettled(r, fbx.name)
    ensures r[0].errors == (if !isLight && RoleCount(fbx.meshes, UcxRole) == 0 then [CollisionMsg] else [])
    ensures r[1].errors == (if !isLight && RoleCount(fbx.meshes, OtherRole) != 1
                            then [CountLine(MainHead, RoleCount(fbx.meshes, OtherRole))] else [])
    ensures r[2].errors == (if !isLight && RoleCount(fbx.meshes, GlassRole) > 1
                            then [GlazingLine(fbx.name, RoleCount(fbx.meshes, GlassRole))] else [])
  {
    var ucx, glass, other := 0, 0, 0;
    if !isLight {
      ucx, glass, other := CountRoles(fbx.meshes);
    }
    var collision := CollisionReport(fbx, isLight, ucx);
    var main := MainReport(fbx, isLight, other);
    var glazing := GlazingReport(fbx, glass);
    r := [collision, main, glazing];
  }

  /* ---------------------------------------------------------------- */
  /* Low poly                                                          */
  /* ---------------------------------------------------------------- */

  /** The meshes a landscaping file must hold, in the order they are reported missing. */
  datatype Required = Ground | GroundEl | Flora

  function RequiredName(m: Required): string {
    match m
    case Ground => "Ground"
    case GroundEl => "GroundEl"
    case Flora => "Flora"
  }

  /**
   * The required mesh an object provides: the first test its lower-cased
   * name passes, so "groundflora" provides Ground and not Flora. The
   * object's kind is not looked at.
   */
  function Provides(o: Obj): Option<Required> {
    var n := Lower(o.name);
    if Contains(n, "ground") && !Contains(n, "groundel") && !Contains(n, "glass") then Some(Ground)
    else if Contains(n, "groundel") && !Contains(n, "glass") then Some(GroundEl)
    else if Contains(n, "flora") then Some(Flora)
    else None
  }

  /** Some object of `ms` provides `m`. */
  predicate Provided(ms: seq<Obj>, m: Required) {
    ms != [] && (Provided(ms[..|ms| - 1], m) || Provides(ms[|ms| - 1]) == Some(m))
  }

  lemma {:induction false} ProvidedIff(ms: seq<Obj>, m: Required)
    ensures Provided(ms, m) <==> exists i :: 0 <= i < |ms| && Provides(ms[i]) == Some(m)
  {
    if ms != [] {
      var p := ms[..|ms| - 1];
      ProvidedIff(p, m);
      if Provided(p, m) {
        var i :| 0 <= i < |p| && Provides(p[i]) == Some(m);
        assert ms[i] == p[i];
      }
      if exists i :: 0 <= i < |ms| && Provides(ms[i]) == Some(m) {
        var i :| 0 <= i < |ms| && Provides(ms[i]) == Some(m);
        if i < |p| {
          assert p[i] == ms[i];
        }
      }
    }
  }

  /** The required meshes no object provides, in the order Ground, GroundEl, Flora. */
  function Missing(ms: seq<Obj>): (r: seq<Required>)
    ensures |r| <= 3
  {
    (if Provided(ms, Ground) then [] else [Ground])
      + (if Provided(ms, GroundEl) then [] else [GroundEl])
      + (if Provided(ms, Flora) then [] else [Flora])
  }

  /** `list.remove` when the item is present: the first occurrence goes. */
  function Remove<T(==)>(s: seq<T>, x: T): (r: seq<T>)
    ensures |r| == if x in s then |s| - 1 else |s|
  {
    if s == [] then []
    else if s[0] == x then s[1..]
    else [s[0]] + Remove(s[1..], x)
  }

  /** The list of still-missing meshes, shrunk object by object as the rule does. */
  method MissingMeshes(ms: seq<Obj>) returns (required: seq<Required>)
    ensures required == Missing(ms)
  {
    required := [Ground, GroundEl, Flora];
    var i := 0;
    while i < |ms|
      invariant 0 <= i <= |ms|
      invariant required == Missing(ms[..i])
    {
      assert ms[..i + 1][..i] == ms[..i];
      var p := Provides(ms[i]);
      if p.Some? && p.value in required {
        required := Remove(required, p.value);
      }
      i := i + 1;
    }
    assert ms[..i] == ms;
  }

  const MissingHead := "Неверный состав файла благоустройства. Отсутствует меш "

  function MissingLines(missing: seq<Required>): (r: seq<string>)
    ensures |r| == |missing|
    ensures forall k :: 0 <= k < |r| ==> r[k] == MissingHead + RequiredName(missing[k])
  {
    seq(|missing|, k requires 0 <= k < |missing| => MissingHead + RequiredName(missing[k]))
  }

  /** The landscaping-composition check (2.1.4): in a landscaping file, one line per missing mesh. */
  method LandscapeReport(fbx: Fbx, isGround: bool) returns (f: Finding)
    ensures f.ids == ["2.1.4"] && f.directory == fbx.name
    ensures f.errors == if isGround then MissingLines(Missing(fbx.meshes)) else []
    ensures f.verified <==> f.errors == []
    ensures f == LpFileOf(fbx, isGround).landscape
  {
    var c := new Check(LandscapeName, fbx.name, true, LandscapeParagraph, "", ["2.1.4"]);
    if isGround {
      var required := MissingMeshes(fbx.meshes);
      AddErrors(c, MissingLines(required));
    }
    f := c.Snapshot();
  }

  const LpParagraph := "таблица 2, п. 1, п/п 3, п. 3, п/п 5"

  /** The extra-objects check (2.1.3): non-meshes, animations, cameras and collections beyond the first. */
  method LpKindsReport(fbx: Fbx) returns (f: Finding)
    ensures f.ids == ["2.1.3"] && f.directory == fbx.name
    ensures f.errors == ForeignLines(fbx.meshes, false) + ExtrasLines(fbx.actions, fbx.cameras) + CollectionsLines(fbx.collections)
    ensures f.verified <==> f.errors == []
    ensures f == LpFileOf(fbx, false).kinds
  {
    var c := new Check(KindsName, fbx.name, true, LpParagraph, "", ["2.1.3"]);
    AddForeignLines(fbx.meshes, false, c);
    AddErrors(c, ExtrasLines(fbx.actions, fbx.cameras));
    AddErrors(c, CollectionsLines(fbx.collections));
    f := c.Snapshot();
  }

  /** The hierarchy check (2.3.5). */
  method LpHierarchyReport(fbx: Fbx) returns (f: Finding)
    ensures f.ids == ["2.3.5"] && f.directory == fbx.name
    ensures f.errors == ParentLines(fbx.meshes, false)
    ensures f.verified <==> f.errors == []
    ensures f == LpFileOf(fbx, false).hierarchy
  {
    var c := new Check(HierarchyName, fbx.name, true, LpParagraph, "", ["2.3.5"]);
    AddParentLines(fbx.meshes, false, c);
    f := c.Snapshot();
  }

  /** The three reports of one low-poly file. */
  datatype LpReports = LpReports(kinds: Finding, hierarchy: Finding, landscape: Finding)

  /** A report as a rule returns it: failed exactly when it holds an error line. */
  function Report(name: string, directory: string, paragraph: string, ids: seq<string>, errors: seq<string>): (f: Finding)
    ensures f.verified <==> f.errors == []
  {
    Finding(name, directory, errors == [], paragraph, "", ids, "", errors, 0)
  }

  const KindsName := "Проверка FBX. лишние обьекты"
  const HierarchyName := "Проверка FBX. иерархические связи"
  const LandscapeName := "Проверка FBX. Состав файла благоустройства"
  const LandscapeParagraph := "таблица 2, п. 1, п/п 4"

  /** What the three checks of one low-poly file report; `isGround` tells a landscaping file. */
  function LpFileOf(fbx: Fbx, isGround: bool): (t: LpReports)
    ensures LpFileLayout(fbx, t) && LpFileContents(fbx, isGround, t)
  {
    LpReports(
      Report(KindsName, fbx.name, LpParagraph, ["2.1.3"],
        ForeignLines(fbx.meshes, false) + ExtrasLines(fbx.actions, fbx.cameras) + CollectionsLines(fbx.collections)),
      Report(HierarchyName, fbx.name, LpParagraph, ["2.3.5"], ParentLines(fbx.meshes, false)),
      Report(LandscapeName, fbx.name, LandscapeParagraph, ["2.1.4"],
        if isGround then MissingLines(Missing(fbx.meshes)) else []))
  }

  /** Where the three reports of a low-poly file come from; what they say is `LpFileContents`. */
  predicate LpFileLayout(fbx: Fbx, t: LpReports) {
    && t.kinds.ids == ["2.1.3"] && t.kinds.directory == fbx.name
    && t.hierarchy.ids == ["2.3.5"] && t.hierarchy.directory == fbx.name
    && t.landscape.ids == ["2.1.4"] && t.landscape.directory == fbx.name
  }

  /** What the three reports of one low-poly file say; `isGround` tells a landscaping file. */
  predicate LpFileContents(fbx: Fbx, isGround: bool, t: LpReports) {
    && t.kinds.errors == ForeignLines(fbx.meshes, false) + ExtrasLines(fbx.actions, fbx.cameras) + CollectionsLines(fbx.collections)
    && t.hierarchy.errors == ParentLines(fbx.meshes, false)
    && t.landscape.errors == (if isGround then MissingLines(Missing(fbx.meshes)) else [])
    && (t.kinds.verified <==> t.kinds.errors == [])
    && (t.hierarchy.verified <==> t.hierarchy.errors == [])
    && (t.landscape.verified <==> t.landscape.errors == [])
  }

  /** `rs` holds `f` of the first `|rs|` pairs of `xs` and `ys`. */
  predicate PairwiseOf<X, Y, R(==)>(xs: seq<X>, ys: seq<Y>, rs: seq<R>, f: (X, Y) -> R) {
    |rs| <= |xs| == |ys| && forall k :: 0 <= k < |rs| ==> rs[k] == f(xs[k], ys[k])
  }

  lemma PairwiseNext<X, Y, R>(xs: seq<X>, ys: seq<Y>, rs: seq<R>, r: R, f: (X, Y) -> R)
    requires PairwiseOf(xs, ys, rs, f) && |rs| < |xs| && r == f(xs[|rs|], ys[|rs|])
    ensures PairwiseOf(xs, ys, rs + [r], f)
  {
  }

  lemma PairwiseAt<X, Y, R>(xs: seq<X>, ys: seq<Y>, rs: seq<R>, f: (X, Y) -> R, k: int)
    requires PairwiseOf(xs, ys, rs, f) && 0 <= k < |rs|
    ensures rs[k] == f(xs[k], ys[k])
  {
  }

  /** The reports of all files in one list, three per file in the order kinds, hierarchy, landscaping. */
  function Flatten(ts: seq<LpReports>): (r: seq<Finding>)
    ensures |r| == 3 * |ts|
    ensures forall j :: 0 <= j < |ts| ==> r[3 * j] == ts[j].kinds && r[3 * j + 1] == ts[j].hierarchy && r[3 * j + 2] == ts[j].landscape
  {
    if ts == [] then []
    else
      var t := ts[|ts| - 1];
      Flatten(ts[..|ts| - 1]) + [t.kinds, t.hierarchy, t.landscape]
  }

  /** Which files are landscaping files: those whose lower-cased name contains "ground". */
  function GroundFlags(files: seq<Fbx>): (gs: seq<bool>)
    ensures |gs| == |files|
  {
    seq(|files|, k requires 0 <= k < |files| => HasLower(files[k].name, "ground"))
  }

  function CountTrue(bs: seq<bool>): (n: int)
    ensures 0 <= n <= |bs|
  {
    if bs == [] then 0 else CountTrue(bs[..|bs| - 1]) + (if bs[|bs| - 1] then 1 else 0)
  }

  lemma {:induction false} CountTruePositive(bs: seq<bool>)
    ensures CountTrue(bs) > 0 <==> true in bs
  {
    if bs != [] {
      CountTruePositive(bs[..|bs| - 1]);
      assert bs == bs[..|bs| - 1] + [bs[|bs| - 1]];
    }
  }

  lemma CountTrueNext(bs: seq<bool>, i: int)
    requires 0 <= i < |bs|
    ensures CountTrue(bs[..i + 1]) == CountTrue(bs[..i]) + (if bs[i] then 1 else 0)
  {
    assert bs[..i + 1][..i] == bs[..i];
  }

  const FilesParagraph := "таблица 2, п. 1, п/п 4-5, п. 3, п/п 3"
  const TooManyFilesMsg := "Количество fbx-файлов превышает 21"
  const NoLandscapeMsg := "Файлы благоустройства - неотъемлемая часть АГР и являются обязательными к исполнению."
  const SplitLandscapeMsg := "Благоустройство, его элементы и элементы растительности должны быть сформированы в отдельный файл fbx"

  /** The three reports of one file. */
  method LpFileChecks(fbx: Fbx, isGround: bool) returns (t: LpReports)
    ensures t == LpFileOf(fbx, isGround)
  {
    var landscape := LandscapeReport(fbx, isGround);
    var kinds := LpKindsReport(fbx);
    var hierarchy := LpHierarchyReport(fbx);
    t := LpReports(kinds, hierarchy, landscape);
  }

  /** The per-file reports of all files, and the number of landscaping files. */
  method LpFilesReports(files: seq<Fbx>, gs: seq<bool>) returns (ts: seq<LpReports>, grounds: int)
    requires |gs| == |files|
    ensures |ts| == |files|
    ensures grounds == CountTrue(gs)
    ensures PairwiseOf(files, gs, ts, LpFileOf)
  {
    ts, grounds := [], 0;
    var i := 0;
    while i < |files|
      invariant 0 <= i <= |files|
      invariant |ts| == i
      invariant grounds == CountTrue(gs[..i])
      invariant PairwiseOf(files, gs, ts, LpFileOf)
    {
      var fbx := files[i];
      CountTrueNext(gs, i);
      if gs[i] {
        grounds := grounds + 1;
      }
      var t := LpFileChecks(fbx, gs[i]);
      PairwiseNext(files, gs, ts, t, LpFileOf);
      ts := ts + [t];
      i := i + 1;
    }
    assert gs[..i] == gs;
    assert files[..i] == files;
  }

  /** The file-count (2.1.2), landscaping-present (2.1.5) and single-landscaping (2.3.3) checks. */
  method FileSetReports(files: int, grounds: int) returns (r: seq<Finding>)
    ensures |r| == 3
    ensures r[0].ids == ["2.1.2"] && r[1].ids == ["2.1.5"] && r[2].ids == ["2.3.3"]
    ensures r[0].verified <==> files <= 21
    ensures r[1].verified <==> grounds != 0
    ensures r[2].verified <==> grounds <= 1
    ensures forall k :: 0 <= k < 3 ==> (r[k].verified <==> r[k].errors == [])
    ensures r[0].errors == (if files > 21 then [TooManyFilesMsg] else [])
    ensures r[1].errors == (if grounds == 0 then [NoLandscapeMsg] else [])
    ensures r[2].errors == (if grounds > 1 then [SplitLandscapeMsg] else [])
  {
    var count := Verdict("Проверка файлов. Количество fbx", "", "таблица 2, п. 1, п/п 2", ["2.1.2"],
      files > 21, TooManyFilesMsg);
    var landscape := Verdict("Проверка файлов. Благоустройство", "", FilesParagraph, ["2.1.5"], grounds == 0, NoLandscapeMsg);
    var single := Verdict("Проверка файлов. Благоустройство 2", "", FilesParagraph, ["2.3.3"], grounds > 1, SplitLandscapeMsg);
    r := [count, landscape, single];
  }

  /** Behind the three file-set reports, file `i`'s reports sit at `3 * i + 3`. */
  lemma PerFile(files: seq<Fbx>, ts: seq<LpReports>, head: seq<Finding>)
    requires |ts| == |files| && PairwiseOf(files, GroundFlags(files), ts, LpFileOf) && |head| == 3
    ensures var r := head + Flatten(ts);
      forall i :: 0 <= i < |files| ==>
        LpReports(r[3 * i + 3], r[3 * i + 4], r[3 * i + 5]) == LpFileOf(files[i], GroundFlags(files)[i])
  {
    var r := head + Flatten(ts);
    forall i | 0 <= i < |files|
      ensures LpReports(r[3 * i + 3], r[3 * i + 4], r[3 * i + 5]) == LpFileOf(files[i], GroundFlags(files)[i])
    {
      PairwiseAt(files, GroundFlags(files), ts, LpFileOf, i);
      FlattenIndex(ts, head, i);
    }
  }

  /** File `i`'s reports, placed behind a head of three. */
  lemma FlattenIndex(ts: seq<LpReports>, head: seq<Finding>, i: int)
    requires |head| == 3 && 0 <= i < |ts|
    ensures var r := head + Flatten(ts); LpReports(r[3 * i + 3], r[3 * i + 4], r[3 * i + 5]) == ts[i]
  {
  }


  /**
   * The low-poly rule: the three file-set checks, then three checks per file.
   */
  method CheckLpObjects(files: seq<Fbx>) returns (r: seq<Finding>)
    ensures |r| == 3 + 3 * |files|
    ensures r[0].ids == ["2.1.2"] && r[1].ids == ["2.1.5"] && r[2].ids == ["2.3.3"]
    ensures r[0].verified <==> |files| <= 21
    ensures r[1].verified <==> CountTrue(GroundFlags(files)) > 0
    ensures r[2].verified <==> CountTrue(GroundFlags(files)) <= 1
    ensures forall k :: 0 <= k < 3 ==> (r[k].verified <==> r[k].errors == [])
    ensures r[0].errors == (if |files| > 21 then [TooManyFilesMsg] else [])
    ensures r[1].errors == (if CountTrue(GroundFlags(files)) == 0 then [NoLandscapeMsg] else [])
    ensures r[2].errors == (if CountTrue(GroundFlags(files)) > 1 then [SplitLandscapeMsg] else [])
    ensures forall i :: 0 <= i < |files| ==>
      LpReports(r[3 * i + 3], r[3 * i + 4], r[3 * i + 5]) == LpFileOf(files[i], GroundFlags(files)[i])
  {
    var gs := GroundFlags(files);
    var ts, grounds := LpFilesReports(files, gs);
    var head := FileSetReports(|files|, grounds);
    r := head + Flatten(ts);
    PerFile(files, ts, head);
  }
}
