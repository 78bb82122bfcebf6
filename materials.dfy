/**
 * The material rules (`_check_materials`, once for the high-poly and once
 * for the low-poly model).
 *
 * High poly: one UV layout per mesh and none on collision meshes; at most
 * seven materials on glazing, none on collision meshes, exactly one on any
 * other mesh; no shader input linked except Normal; no image textures.
 *
 * Low poly: material counts per kind of mesh, one texture size per
 * material, small textures on landscaping elements, no textures on
 * glazing, and a diffuse map but no metallic or roughness map on flora.
 *
 * Each check receives its lines from one walk over the file's objects
 * (`Walks.Walk` with that check's per-object line function). The low-poly
 * rule is modelled twice: as written, where an Image Texture node without
 * an image makes the whole rule report nothing, and corrected.
 */
module Materials {
  import opened Wrappers
  import opened Text
  import opened Findings
  import opened Scene
  import Objects
  import opened Walks

  /* ---------------------------------------------------------------- */
  /* High poly                                                         */
  /* ---------------------------------------------------------------- */

  /** Collision and glazing meshes, told apart by case-sensitive name parts. */
  predicate IsUcx(o: Obj) {
    Contains(o.name, "UCX")
  }

  predicate IsGlass(o: Obj) {
    Contains(o.name, "Glass")
  }

  const ManyUvTail := " - Более одной UV-развертки"
  const NoUvTail := " - Не найдено UV-развертки"
  const GlazingCountTail := ": Более 7 материалов остекления"
  const ManyMaterialsTail := ": Более 7 материалов"
  const NoMaterialTail := ": отсутствует материал"
  const SingleMaterialTail := ": Более 1 материала допустимо использовать при кол-ве текстур более 100 шт. на один fbx файл"
  const LinkHead := "Лишняя ссылка в материале "
  const TexturesTail := ": материалы не должны включать в себя текстуры"

  /** One line per linked shader input other than Normal. */
  function SocketLines(mat: string, inputs: seq<Socket>): (r: seq<string>)
    ensures |r| <= |inputs|
  {
    if inputs == [] then []
    else
      var s := inputs[|inputs| - 1];
      SocketLines(mat, inputs[..|inputs| - 1])
        + (if s.linked && s.name != "Normal" then [LinkHead + mat + " (" + s.name + ")"] else [])
  }

  /** A material's lines for the link check; a material without a Principled BSDF node is skipped. */
  function MaterialLinks(m: Material): seq<string> {
    match m.bsdf
    case None => []
    case Some(inputs) => SocketLines(m.name, inputs)
  }

  /** A material's line for the texture check: any Image Texture node, unless the material has no Principled BSDF node. */
  function MaterialTextures(m: Material): seq<string> {
    if m.bsdf.Some? && |m.textures| > 0 then [m.name + TexturesTail] else []
  }

  /** The UV-layout check (2.5.2.1.3а): a mesh other than a collision mesh needs exactly one UV layout. */
  function UvLines(o: Obj): seq<string> {
    if !IsMesh(o) || IsUcx(o) then []
    else if o.uvLayers > 1 then [o.name + ManyUvTail]
    else if o.uvLayers == 0 then [o.name + NoUvTail]
    else []
  }

  /** The glazing-materials check (2.8.2): the count chain's first test. */
  function GlazingCountLines(o: Obj): seq<string> {
    if IsMesh(o) && IsGlass(o) && |o.materials| > 7 then [o.name + GlazingCountTail] else []
  }

  /** The material-count check (2.4.7): the chain's third and fourth tests. */
  function MaterialCountLines(o: Obj): seq<string> {
    if !IsMesh(o) || IsGlass(o) || IsUcx(o) then []
    else if |o.materials| > 7 then [o.name + ManyMaterialsTail]
    else if |o.materials| == 0 then [o.name + NoMaterialTail]
    else []
  }

  /** The single-material check (2.4.4): the chain's last test. */
  function SingleMaterialLines(o: Obj): seq<string> {
    if !IsMesh(o) || IsGlass(o) || IsUcx(o) || |o.materials| > 7 || |o.materials| == 0 then []
    else if |o.materials| > 1 then [o.name + SingleMaterialTail]
    else []
  }

  /** The link check (2.4.3). */
  function LinkLines(o: Obj): seq<string> {
    if IsMesh(o) then Walk(o.materials, MaterialLinks) else []
  }

  /** The texture check (2.4.2). */
  function TextureLines(o: Obj): seq<string> {
    if IsMesh(o) then Walk(o.materials, MaterialTextures) else []
  }

  /** Every mesh that is not a collision mesh has exactly one UV layout, or the UV check has a line for it. */
  lemma UvLayersRule(o: Obj)
    ensures UvLines(o) == [] <==> !IsMesh(o) || IsUcx(o) || o.uvLayers == 1
  {
  }

  /** A mesh that is neither glazing nor collision passes both count checks exactly when it has one material. */
  lemma MaterialCountRule(o: Obj)
    requires IsMesh(o) && !IsGlass(o) && !IsUcx(o)
    ensures MaterialCountLines(o) + SingleMaterialLines(o) == [] <==> |o.materials| == 1
    ensures MaterialCountLines(o) == [] || SingleMaterialLines(o) == []
  {
  }

  /** The count chain sends a mesh to at most one of the three count checks, and a collision mesh to none. */
  lemma CountChecksExclusive(o: Obj)
    ensures GlazingCountLines(o) != [] ==> MaterialCountLines(o) == [] && SingleMaterialLines(o) == []
    ensures IsUcx(o) && !IsGlass(o) ==> GlazingCountLines(o) == [] && MaterialCountLines(o) == [] && SingleMaterialLines(o) == []
  {
  }

  /** A material passes the link check exactly when, if it has a Principled BSDF node, only its Normal input is linked. */
  lemma {:induction false} SocketLinesEmpty(mat: string, inputs: seq<Socket>)
    ensures SocketLines(mat, inputs) == [] <==> forall j :: 0 <= j < |inputs| && inputs[j].linked ==> inputs[j].name == "Normal"
  {
    if inputs != [] {
      var p := inputs[..|inputs| - 1];
      SocketLinesEmpty(mat, p);
      assert forall j :: 0 <= j < |p| ==> p[j] == inputs[j];
    }
  }

  /** A file passes the texture check exactly when no mesh material that has a Principled BSDF node has an Image Texture node. */
  lemma TextureCheckPasses(ms: seq<Obj>)
    ensures Walk(ms, TextureLines) == [] <==>
      forall i, k :: 0 <= i < |ms| && IsMesh(ms[i]) && 0 <= k < |ms[i].materials| && ms[i].materials[k].bsdf.Some?
        ==> ms[i].materials[k].textures == []
  {
    WalkEmpty(ms, TextureLines);
    forall i | 0 <= i < |ms| && IsMesh(ms[i]) {
      WalkEmpty(ms[i].materials, MaterialTextures);
    }
  }

  /** A file passes the UV check exactly when every mesh but the collision meshes has one UV layout. */
  lemma UvCheckPasses(ms: seq<Obj>)
    ensures Walk(ms, UvLines) == [] <==> forall i :: 0 <= i < |ms| && IsMesh(ms[i]) && !IsUcx(ms[i]) ==> ms[i].uvLayers == 1
  {
    WalkEmpty(ms, UvLines);
    forall i | 0 <= i < |ms| {
      UvLayersRule(ms[i]);
    }
  }

  /** A file passes both count checks exactly when every mesh other than glazing and collision has one material. */
  lemma CountChecksPass(ms: seq<Obj>)
    ensures Walk(ms, MaterialCountLines) == [] && Walk(ms, SingleMaterialLines) == []
      <==> forall i :: 0 <= i < |ms| && IsMesh(ms[i]) && !IsGlass(ms[i]) && !IsUcx(ms[i]) ==> |ms[i].materials| == 1
  {
    WalkEmpty(ms, MaterialCountLines);
    WalkEmpty(ms, SingleMaterialLines);
    forall i | 0 <= i < |ms| && IsMesh(ms[i]) && !IsGlass(ms[i]) && !IsUcx(ms[i]) {
      MaterialCountRule(ms[i]);
    }
  }

  /** A material whose Principled BSDF node, if any, has no linked input other than Normal. */
  predicate LinksClean(m: Material) {
    m.bsdf.Some? ==> forall j :: 0 <= j < |m.bsdf.value| && m.bsdf.value[j].linked ==> m.bsdf.value[j].name == "Normal"
  }

  /** A material adds no link line exactly when its links are clean. */
  lemma MaterialLinksPass(m: Material)
    ensures MaterialLinks(m) == [] <==> LinksClean(m)
  {
    if m.bsdf.Some? {
      SocketLinesEmpty(m.name, m.bsdf.value);
    }
  }

  /** An object adds no link line exactly when it is not a mesh or all its materials' links are clean. */
  lemma ObjectLinksPass(o: Obj)
    ensures LinkLines(o) == [] <==> (IsMesh(o) ==> forall k :: 0 <= k < |o.materials| ==> LinksClean(o.materials[k]))
  {
    if IsMesh(o) {
      WalkEmpty(o.materials, MaterialLinks);
      forall k | 0 <= k < |o.materials| ensures MaterialLinks(o.materials[k]) == [] <==> LinksClean(o.materials[k]) {
        MaterialLinksPass(o.materials[k]);
      }
    }
  }

  /** A file passes the link check exactly when every mesh material's links are clean. */
  lemma LinkCheckPasses(ms: seq<Obj>)
    ensures Walk(ms, LinkLines) == [] <==>
      forall i, k :: 0 <= i < |ms| && IsMesh(ms[i]) && 0 <= k < |ms[i].materials| ==> LinksClean(ms[i].materials[k])
  {
    WalkEmpty(ms, LinkLines);
    forall i | 0 <= i < |ms|
      ensures LinkLines(ms[i]) == [] <==> (IsMesh(ms[i]) ==> forall k :: 0 <= k < |ms[i].materials| ==> LinksClean(ms[i].materials[k]))
    {
      ObjectLinksPass(ms[i]);
    }
  }

  /** The collision counters: collision meshes with a UV layout, and (outside glazing) with a material. */
  datatype UcxCounter = WithUv | WithMaterial

  predicate Counted(o: Obj, k: UcxCounter) {
    IsMesh(o) && IsUcx(o)
      && match k
         case WithUv => o.uvLayers > 0
         case WithMaterial => !IsGlass(o) && |o.materials| > 0
  }

  function Tally(ms: seq<Obj>, k: UcxCounter): (n: nat)
    ensures n <= |ms|
  {
    if ms == [] then 0
    else Tally(ms[..|ms| - 1], k) + (if Counted(ms[|ms| - 1], k) then 1 else 0)
  }

  lemma {:induction false} TallyPositive(ms: seq<Obj>, k: UcxCounter)
    ensures Tally(ms, k) > 0 <==> exists i :: 0 <= i < |ms| && Counted(ms[i], k)
  {
    if ms != [] {
      var p := ms[..|ms| - 1];
      TallyPositive(p, k);
      if exists i :: 0 <= i < |ms| && Counted(ms[i], k) {
        var i :| 0 <= i < |ms| && Counted(ms[i], k);
        if i < |p| {
          assert p[i] == ms[i];
        }
      }
      if Tally(p, k) > 0 {
        var i :| 0 <= i < |p| && Counted(p[i], k);
        assert ms[i] == p[i];
      }
    }
  }

  /** The walk's two collision counters. */
  method CountCollisions(ms: seq<Obj>) returns (withUv: nat, withMaterial: nat)
    ensures withUv == Tally(ms, WithUv) && withMaterial == Tally(ms, WithMaterial)
  {
    withUv, withMaterial := 0, 0;
    var i := 0;
    while i < |ms|
      invariant 0 <= i <= |ms|
      invariant withUv == Tally(ms[..i], WithUv) && withMaterial == Tally(ms[..i], WithMaterial)
    {
      assert ms[..i + 1][..i] == ms[..i];
      var o := ms[i];
      if IsMesh(o) {
        if IsUcx(o) && o.uvLayers > 0 {
          withUv := withUv + 1;
        }
        if !IsGlass(o) && IsUcx(o) && |o.materials| > 0 {
          withMaterial := withMaterial + 1;
        }
      }
      i := i + 1;
    }
    assert ms[..i] == ms;
  }

  const UvName := "Проверка UDIM. Наличие UV-развертки (UV-maps, UV-layers)"
  const UvParagraph := "таблица 2, п. 5, п/п 2.1.3, 2.2.6"
  const CountParagraph := "таблица 2, п. 8, п/п 2, п. 13, п/п 7"
  const CountName := "Проверка материалов. Количество материалов максимум"
  const LinksParagraph := "таблица 2, п. 4, п/п 3"

  const UcxUvHead := "У объектов коллизий не должно быть UV-развертки. Коллизий с разверткой: "
  const UcxMaterialHead := "У геометрии коллизий не должно быть материала. Коллизий с материалом - "

  /** The line a collision counter produces: none for zero, else the count. */
  function CollisionLines(head: string, n: nat): (r: seq<string>)
    ensures r == [] <==> n == 0
  {
    if n > 0 then [Objects.CountLine(head, n)] else []
  }

  /** The two collision reports (2.5.2.2.6 and 2.13.7): each fails, once, exactly when its counter is positive. */
  method CollisionReports(fbx: Fbx) returns (ucxUv: Finding, ucxMaterial: Finding)
    ensures ucxUv.ids == ["2.5.2.2.6"] && ucxMaterial.ids == ["2.13.7"]
    ensures Settled(ucxUv, fbx.name) && Settled(ucxMaterial, fbx.name)
    ensures ucxUv.errors == CollisionLines(UcxUvHead, Tally(fbx.meshes, WithUv))
    ensures ucxMaterial.errors == CollisionLines(UcxMaterialHead, Tally(fbx.meshes, WithMaterial))
  {
    var withUv, withMaterial := CountCollisions(fbx.meshes);
    ucxUv := Verdict(UvName, fbx.name, UvParagraph, ["2.5.2.2.6"], withUv > 0, Objects.CountLine(UcxUvHead, withUv));
    ucxMaterial := Verdict("Проверка материалов. Количество материалов коллизии", fbx.name, CountParagraph, ["2.13.7"],
      withMaterial > 0, Objects.CountLine(UcxMaterialHead, withMaterial));
  }

  /** The eight material reports of one high-poly file. */
  datatype HpMaterialReports = HpMaterialReports(
    uv: Finding, ucxUv: Finding, glazing: Finding, ucxMaterial: Finding,
    count: Finding, single: Finding, links: Finding, textures: Finding)
  {
    /** The reports in the order the rule returns them. */
    function List(): seq<Finding> {
      [uv, ucxUv, glazing, ucxMaterial, count, single, links, textures]
    }
  }

  /**
   * The material reports of one high-poly file: UV layouts (2.5.2.1.3а),
   * collision UV layouts (2.5.2.2.6), glazing materials (2.8.2), collision
   * materials (2.13.7), material count (2.4.7), single material (2.4.4),
   * links (2.4.3) and textures (2.4.2).
   */
  method CheckHpMaterials(fbx: Fbx) returns (t: HpMaterialReports)
    ensures t.uv.ids == ["2.5.2.1.3а"] && t.ucxUv.ids == ["2.5.2.2.6"] && t.glazing.ids == ["2.8.2"] && t.ucxMaterial.ids == ["2.13.7"]
    ensures t.count.ids == ["2.4.7"] && t.single.ids == ["2.4.4"] && t.links.ids == ["2.4.3"] && t.textures.ids == ["2.4.2"]
    ensures Settled(t.uv, fbx.name) && Settled(t.ucxUv, fbx.name) && Settled(t.glazing, fbx.name) && Settled(t.ucxMaterial, fbx.name)
    ensures Settled(t.count, fbx.name) && Settled(t.single, fbx.name) && Settled(t.links, fbx.name) && Settled(t.textures, fbx.name)
    ensures t.uv.errors == Walk(fbx.meshes, UvLines) && t.glazing.errors == Walk(fbx.meshes, GlazingCountLines)
    ensures t.count.errors == Walk(fbx.meshes, MaterialCountLines) && t.single.errors == Walk(fbx.meshes, SingleMaterialLines)
    ensures t.links.errors == Walk(fbx.meshes, LinkLines) && t.textures.errors == Walk(fbx.meshes, TextureLines)
    ensures t.ucxUv.errors == CollisionLines(UcxUvHead, Tally(fbx.meshes, WithUv))
    ensures t.ucxMaterial.errors == CollisionLines(UcxMaterialHead, Tally(fbx.meshes, WithMaterial))
  {
    var ucxUv, ucxMaterial := CollisionReports(fbx);
    var uv := WalkReport(fbx, UvName, UvParagraph, "2.5.2.1.3а", UvLines);
    var glazing := WalkReport(fbx, "Проверка материалов. Количество материалов стекло максимум", CountParagraph, "2.8.2", GlazingCountLines);
    var count := WalkReport(fbx, CountName, CountParagraph, "2.4.7", MaterialCountLines);
    var single := WalkReport(fbx, CountName, CountParagraph, "2.4.4", SingleMaterialLines);
    var links := WalkReport(fbx, "Проверка материалов. Ссылки", LinksParagraph, "2.4.3", LinkLines);
    var textures := WalkReport(fbx, "Проверка материалов. Текстуры в Glass", LinksParagraph, "2.4.2", TextureLines);
    t := HpMaterialReports(uv, ucxUv, glazing, ucxMaterial, count, single, links, textures);
  }

  /* ---------------------------------------------------------------- */
  /* Low poly                                                          */
  /* ---------------------------------------------------------------- */

  /** Landscaping meshes (but not landscaping elements or glazing), told apart by lower-cased name parts. */
  predicate IsLandscape(o: Obj) {
    HasLower(o.name, "ground") && !HasLower(o.name, "groundel") && !HasLower(o.name, "glass")
  }

  /** The most materials each kind of low-poly mesh may carry. */
  function MaterialLimit(o: Obj): nat {
    if IsLandscape(o) then 20 else if HasLower(o.name, "glass") then 7 else 1
  }

  const LandscapeCountTail := ": количество материалов благоустройства больше 20"
  const GlassCountTail := ": количество материалов остекления больше 7"
  const ExtraMaterialTail := ": количество материалов больше 1"
  const MixedSizeTail := ": все текстуры в материале должны иметь одинаковый размер"
  const LargeTextureTail := ": для элементов благоустройства разрешение текстур должно быть не более 512px"
  const GlassTextureTail := ": полупрозрачные детали не должны включать в себя текстуры"
  const NoMetallicMsg := "Для Flora нельзя использовать карту metallic"
  const NoRoughnessMsg := "Для Flora нельзя использовать карту roughness"
  const NoDiffuseTail := ": отсутствует карта диффузного цвета"

  /** The material-count checks: one chain of three branches per mesh. */
  function LandscapeCountLines(o: Obj): seq<string> {
    if IsMesh(o) && IsLandscape(o) && |o.materials| > 20 then [o.name + LandscapeCountTail] else []
  }

  function GlassCountLines(o: Obj): seq<string> {
    if IsMesh(o) && !IsLandscape(o) && HasLower(o.name, "glass") && |o.materials| > 7 then [o.name + GlassCountTail] else []
  }

  function ExtraMaterialLines(o: Obj): seq<string> {
    if IsMesh(o) && !IsLandscape(o) && !HasLower(o.name, "glass") && |o.materials| > 1 then [o.name + ExtraMaterialTail] else []
  }

  /** The widths of a material's loaded images, in node order; a node without an image has none. */
  function Sizes(ts: seq<Option<int>>): (r: seq<int>)
    ensures |r| <= |ts|
  {
    if ts == [] then []
    else
      var t := ts[|ts| - 1];
      Sizes(ts[..|ts| - 1]) + (if t.Some? then [t.value] else [])
  }

  /** A width is among the sizes exactly when some node's image has it. */
  lemma {:induction false} SizesHas(ts: seq<Option<int>>, w: int)
    ensures w in Sizes(ts) <==> Some(w) in ts
  {
    if ts != [] {
      var p := ts[..|ts| - 1];
      SizesHas(p, w);
      assert ts == p + [ts[|ts| - 1]];
    }
  }

  /** Without image-less nodes the sizes are exactly the nodes' widths. */
  lemma {:induction false} SizesAll(ts: seq<Option<int>>)
    requires None !in ts
    ensures |Sizes(ts)| == |ts|
    ensures forall i :: 0 <= i < |ts| ==> Sizes(ts)[i] == ts[i].value
  {
    if ts != [] {
      var p := ts[..|ts| - 1];
      assert None !in p by {
        assert forall i :: 0 <= i < |p| ==> p[i] == ts[i];
      }
      SizesAll(p);
      assert ts[|ts| - 1] in ts;
    }
  }

  /** `any(sizes[i] != sizes[0] ...)` fails to hold. */
  predicate Uniform(s: seq<int>) {
    forall i :: 0 <= i < |s| ==> s[i] == s[0]
  }

  /** The sizes are uniform exactly when no two loaded images differ in width. */
  lemma UniformIff(ts: seq<Option<int>>)
    ensures Uniform(Sizes(ts)) <==> forall v, w :: Some(v) in ts && Some(w) in ts ==> v == w
  {
    var s := Sizes(ts);
    forall w ensures w in s <==> Some(w) in ts {
      SizesHas(ts, w);
    }
    if Uniform(s) {
      forall v, w | Some(v) in ts && Some(w) in ts ensures v == w {
        var i :| 0 <= i < |s| && s[i] == v;
        var j :| 0 <= j < |s| && s[j] == w;
      }
    } else {
      var i :| 0 <= i < |s| && s[i] != s[0];
      assert s[i] in s && s[0] in s;
    }
  }

  /** A material whose images do not all have one width gets one line. */
  function MaterialSizeLines(m: Material): seq<string> {
    if !Uniform(Sizes(m.textures)) then [m.name + MixedSizeTail] else []
  }

  function MixedSizeLines(o: Obj): seq<string> {
    if IsMesh(o) then Walk(o.materials, MaterialSizeLines) else []
  }

  /** A landscaping element gets one line per material with an image wider than 512 pixels. */
  function LargeTextureLines(o: Obj): seq<string> {
    if IsMesh(o) && HasLower(o.name, "groundel")
    then Walk(o.materials, (m: Material) => if HasLargeImage(m) then [o.name + LargeTextureTail] else [])
    else []
  }

  /** A glazing mesh gets one line per material with a loaded image. */
  function GlassTextureLines(o: Obj): seq<string> {
    if IsMesh(o) && HasLower(o.name, "glass")
    then Walk(o.materials, (m: Material) => if |Sizes(m.textures)| > 0 then [o.name + GlassTextureTail] else [])
    else []
  }

  /**
   * A flora material's lines: its metallic (input 1) or roughness (input 2)
   * linked, its base colour (input 0) not linked or fed by an image-less
   * Image Texture node. A material without a Principled BSDF node is skipped.
   */
  function FloraMaterialLines(m: Material): seq<string> {
    match m.bsdf
    case None => []
    case Some(ins) =>
      if |ins| < 3 then []
      else
        (if ins[1].linked then [NoMetallicMsg] else [])
          + (if ins[2].linked then [NoRoughnessMsg] else [])
          + (if !ins[0].linked || ins[0].fromEmptyImage then [m.name + NoDiffuseTail] else [])
  }

  function FloraLines(o: Obj): seq<string> {
    if IsMesh(o) && HasLower(o.name, "flora") then Walk(o.materials, FloraMaterialLines) else []
  }

  /** A material the rule reads without fault: a flora mesh's Principled BSDF node has the three inputs read. */
  predicate ShortBsdf(o: Obj, m: Material) {
    HasLower(o.name, "flora") && m.bsdf.Some? && |m.bsdf.value| < 3
  }

  /**
   * A mesh material that makes the rule raise: a short shader node, and,
   * when `strict`, an Image Texture node without an image (its size is read
   * unconditionally).
   */
  predicate MaterialFaults(o: Obj, m: Material, strict: bool) {
    ShortBsdf(o, m) || (strict && None in m.textures)
  }

  predicate FileFaults(fbx: Fbx, strict: bool) {
    exists i, k :: 0 <= i < |fbx.meshes| && IsMesh(fbx.meshes[i]) && 0 <= k < |fbx.meshes[i].materials|
      && MaterialFaults(fbx.meshes[i], fbx.meshes[i].materials[k], strict)
  }

  predicate AnyFault(files: seq<Fbx>, strict: bool) {
    exists i :: 0 <= i < |files| && FileFaults(files[i], strict)
  }

  const LpCountParagraph := "2.4.5, 2.4.6, 2.5.10"
  const SizeParagraph := "таблица 2, п. 5, п/п 2, 4"

  /** The seven material reports of one low-poly file. */
  datatype LpMaterialReports = LpMaterialReports(
    landscapeCount: Finding, glassCount: Finding, mixedSize: Finding, largeTexture: Finding,
    glassTexture: Finding, extraMaterial: Finding, flora: Finding)
  {
    /** The reports in the order the rule returns them. */
    function List(): seq<Finding> {
      [landscapeCount, glassCount, mixedSize, largeTexture, glassTexture, extraMaterial, flora]
    }
  }

  /** What the seven reports of one low-poly file say. */
  function LpMaterialsOf(fbx: Fbx): LpMaterialReports {
    LpMaterialReports(
      WalkFinding(fbx, "Проверка материалов. Количество благо", LpCountParagraph, "2.5.10", LandscapeCountLines),
      WalkFinding(fbx, "Проверка материалов. Количество материалов остекления", LpCountParagraph, "2.4.6", GlassCountLines),
      WalkFinding(fbx, "Проверка текстур. Разрешение в наборе", SizeParagraph, "2.5.7", MixedSizeLines),
      WalkFinding(fbx, "Проверка текстур. Разрешение элементов благоустройства", SizeParagraph, "2.5.11", LargeTextureLines),
      WalkFinding(fbx, "Проверка текстур. Остекление", "таблица 2, п. 4, п/п 2", "2.4.2", GlassTextureLines),
      WalkFinding(fbx, "Проверка материалов. Количество", "", "2.5.9", ExtraMaterialLines),
      WalkFinding(fbx, "Проверка материалов. flora, обязательно diffuse", "", "2.5.12", FloraLines))
  }

  function LpFileList(fbx: Fbx): seq<Finding> {
    LpMaterialsOf(fbx).List()
  }

  /** The rule's result: nothing at all once any file faults, else every file's seven reports. */
  function LpMaterialsRule(files: seq<Fbx>, strict: bool): seq<Finding> {
    if AnyFault(files, strict) then [] else Walk(files, LpFileList)
  }

  /** The seven reports of one file. */
  method LpFileMaterials(fbx: Fbx) returns (t: LpMaterialReports)
    ensures t == LpMaterialsOf(fbx)
  {
    var landscapeCount := WalkReport(fbx, "Проверка материалов. Количество благо", LpCountParagraph, "2.5.10", LandscapeCountLines);
    var glassCount := WalkReport(fbx, "Проверка материалов. Количество материалов остекления", LpCountParagraph, "2.4.6", GlassCountLines);
    var mixedSize := WalkReport(fbx, "Проверка текстур. Разрешение в наборе", SizeParagraph, "2.5.7", MixedSizeLines);
    var largeTexture := WalkReport(fbx, "Проверка текстур. Разрешение элементов благоустройства", SizeParagraph, "2.5.11", LargeTextureLines);
    var glassTexture := WalkReport(fbx, "Проверка текстур. Остекление", "таблица 2, п. 4, п/п 2", "2.4.2", GlassTextureLines);
    var extraMaterial := WalkReport(fbx, "Проверка материалов. Количество", "", "2.5.9", ExtraMaterialLines);
    var flora := WalkReport(fbx, "Проверка материалов. flora, обязательно diffuse", "", "2.5.12", FloraLines);
    t := LpMaterialReports(landscapeCount, glassCount, mixedSize, largeTexture, glassTexture, extraMaterial, flora);
  }

  /**
   * The low-poly material rule over all files. A fault anywhere makes the
   * whole rule return no report, whatever was gathered before it; `strict`
   * selects whether an image-less Image Texture node is such a fault.
   */
  method CheckLpMaterials(files: seq<Fbx>, strict: bool) returns (r: seq<Finding>)
    ensures r == LpMaterialsRule(files, strict)
  {
    if AnyFault(files, strict) {
      return [];
    }
    r := [];
    var i := 0;
    while i < |files|
      invariant 0 <= i <= |files|
      invariant r == Walk(files[..i], LpFileList)
    {
      var t := LpFileMaterials(files[i]);
      assert files[..i + 1][..i] == files[..i];
      r := r + t.List();
      i := i + 1;
    }
    assert files[..i] == files;
  }

  /* Low-poly properties */

  /** Each mesh receives at most one material-count line, and none exactly when it is within its kind's limit. */
  lemma LpCountRule(o: Obj)
    requires IsMesh(o)
    ensures LandscapeCountLines(o) + GlassCountLines(o) + ExtraMaterialLines(o) == [] <==> |o.materials| <= MaterialLimit(o)
    ensures |LandscapeCountLines(o) + GlassCountLines(o) + ExtraMaterialLines(o)| <= 1
  {
  }

  /** The sizes are non-empty exactly when some node holds an image. */
  lemma SizesEmpty(ts: seq<Option<int>>)
    ensures Sizes(ts) == [] <==> forall w :: Some(w) !in ts
  {
    if Sizes(ts) != [] {
      SizesHas(ts, Sizes(ts)[0]);
    }
    forall w | Some(w) in ts ensures Sizes(ts) != [] {
      SizesHas(ts, w);
    }
  }

  /** A file passes the size check exactly when, within every mesh material, all loaded images share one width. */
  lemma MixedSizeCheckPasses(ms: seq<Obj>)
    ensures Walk(ms, MixedSizeLines) == [] <==>
      forall i, k, v, w :: 0 <= i < |ms| && IsMesh(ms[i]) && 0 <= k < |ms[i].materials|
        && Some(v) in ms[i].materials[k].textures && Some(w) in ms[i].materials[k].textures
        ==> v == w
  {
    WalkEmpty(ms, MixedSizeLines);
    forall i | 0 <= i < |ms| && IsMesh(ms[i])
      ensures MixedSizeLines(ms[i]) == [] <==> forall k :: 0 <= k < |ms[i].materials| ==> Uniform(Sizes(ms[i].materials[k].textures))
    {
      WalkEmpty(ms[i].materials, MaterialSizeLines);
    }
    forall i, k | 0 <= i < |ms| && 0 <= k < |ms[i].materials| {
      UniformIff(ms[i].materials[k].textures);
    }
  }

  /** A material with a loaded image wider than 512 pixels. */
  predicate HasLargeImage(m: Material) {
    exists w :: w in Sizes(m.textures) && w > 512
  }

  lemma LargeImageIff(m: Material)
    ensures HasLargeImage(m) <==> exists w :: Some(w) in m.textures && w > 512
  {
    forall w ensures w in Sizes(m.textures) <==> Some(w) in m.textures {
      SizesHas(m.textures, w);
    }
  }

  /** A landscaping element passes exactly when none of its materials has a loaded image wider than 512 pixels. */
  lemma ObjectLargeTexturePasses(o: Obj)
    requires IsMesh(o) && HasLower(o.name, "groundel")
    ensures LargeTextureLines(o) == [] <==> forall k :: 0 <= k < |o.materials| ==> !HasLargeImage(o.materials[k])
  {
    WalkEmpty(o.materials, (m: Material) => if HasLargeImage(m) then [o.name + LargeTextureTail] else []);
  }

  /** A file passes the landscaping-element check exactly when no such mesh has an image wider than 512 pixels. */
  lemma LargeTextureCheckPasses(ms: seq<Obj>)
    ensures Walk(ms, LargeTextureLines) == [] <==>
      forall i, k, w :: 0 <= i < |ms| && IsMesh(ms[i]) && HasLower(ms[i].name, "groundel") && 0 <= k < |ms[i].materials|
        && Some(w) in ms[i].materials[k].textures
        ==> w <= 512
  {
    WalkEmpty(ms, LargeTextureLines);
    forall i | 0 <= i < |ms| && IsMesh(ms[i]) && HasLower(ms[i].name, "groundel") {
      ObjectLargeTexturePasses(ms[i]);
    }
    forall i, k | 0 <= i < |ms| && 0 <= k < |ms[i].materials| {
      LargeImageIff(ms[i].materials[k]);
    }
  }

  /** A file passes the glazing-texture check exactly when no glazing mesh material holds a loaded image. */
  lemma GlassTextureCheckPasses(ms: seq<Obj>)
    ensures Walk(ms, GlassTextureLines) == [] <==>
      forall i, k, w :: 0 <= i < |ms| && IsMesh(ms[i]) && HasLower(ms[i].name, "glass") && 0 <= k < |ms[i].materials|
        ==> Some(w) !in ms[i].materials[k].textures
  {
    WalkEmpty(ms, GlassTextureLines);
    forall i | 0 <= i < |ms| && IsMesh(ms[i]) && HasLower(ms[i].name, "glass")
      ensures GlassTextureLines(ms[i]) == [] <==>
        forall k, w :: 0 <= k < |ms[i].materials| ==> Some(w) !in ms[i].materials[k].textures
    {
      var o := ms[i];
      WalkEmpty(o.materials, (m: Material) => if |Sizes(m.textures)| > 0 then [o.name + GlassTextureTail] else []);
      forall k | 0 <= k < |o.materials| {
        SizesEmpty(o.materials[k].textures);
      }
    }
  }

  /** A flora material with a full shader node passes exactly when only its base colour is linked, to a loaded image. */
  lemma FloraMaterialPasses(m: Material)
    requires m.bsdf.Some? && |m.bsdf.value| >= 3
    ensures FloraMaterialLines(m) == [] <==>
      var ins := m.bsdf.value;
      ins[0].linked && !ins[0].fromEmptyImage && !ins[1].linked && !ins[2].linked
  {
  }

  /** The missing-diffuse line is reported for a flora material exactly when its base colour is unlinked or fed by an image-less node. */
  lemma FloraDiffuseReported(m: Material)
    requires m.bsdf.Some? && |m.bsdf.value| >= 3
    ensures m.name + NoDiffuseTail in FloraMaterialLines(m) <==> !m.bsdf.value[0].linked || m.bsdf.value[0].fromEmptyImage
  {
    var line := m.name + NoDiffuseTail;
    assert line[|line| - 1] == 'а';
    assert NoMetallicMsg[|NoMetallicMsg| - 1] == 'c' && NoRoughnessMsg[|NoRoughnessMsg| - 1] == 's';
    assert line != NoMetallicMsg && line != NoRoughnessMsg;
  }

  /** The strict rule faults wherever the lenient one does. */
  lemma StrictFaultsMore(files: seq<Fbx>)
    ensures AnyFault(files, false) ==> AnyFault(files, true)
  {
    if AnyFault(files, false) {
      var f :| 0 <= f < |files| && FileFaults(files[f], false);
      var i, k :| 0 <= i < |files[f].meshes| && IsMesh(files[f].meshes[i]) && 0 <= k < |files[f].meshes[i].materials|
        && MaterialFaults(files[f].meshes[i], files[f].meshes[i].materials[k], false);
      assert MaterialFaults(files[f].meshes[i], files[f].meshes[i].materials[k], true);
    }
  }

  /** Without image-less Image Texture nodes both readings of the rule give the same reports. */
  lemma StrictAgrees(files: seq<Fbx>)
    requires forall f, i, k ::
      0 <= f < |files| && 0 <= i < |files[f].meshes| && 0 <= k < |files[f].meshes[i].materials|
      ==> None !in files[f].meshes[i].materials[k].textures
    ensures LpMaterialsRule(files, true) == LpMaterialsRule(files, false)
  {
    StrictFaultsMore(files);
    if AnyFault(files, true) {
      var f :| 0 <= f < |files| && FileFaults(files[f], true);
      var i, k :| 0 <= i < |files[f].meshes| && IsMesh(files[f].meshes[i]) && 0 <= k < |files[f].meshes[i].materials|
        && MaterialFaults(files[f].meshes[i], files[f].meshes[i].materials[k], true);
      assert MaterialFaults(files[f].meshes[i], files[f].meshes[i].materials[k], false);
    }
  }

  /*
   * The image-less diffuse map. The flora check means to report a base
   * colour fed by an Image Texture node without an image, but the size
   * loop before it reads every Image Texture node's image, so such a
   * material faults first and the whole rule reports nothing.
   */

  /** As written: a flora material whose base colour comes from an image-less node empties the rule's result. */
  lemma EmptyDiffuseLost(files: seq<Fbx>, f: int, i: int, k: int)
    requires 0 <= f < |files| && 0 <= i < |files[f].meshes|
    requires IsMesh(files[f].meshes[i]) && HasLower(files[f].meshes[i].name, "flora")
    requires 0 <= k < |files[f].meshes[i].materials|
    requires None in files[f].meshes[i].materials[k].textures
    ensures LpMaterialsRule(files, true) == []
  {
    var o := files[f].meshes[i];
    assert MaterialFaults(o, o.materials[k], true);
    assert FileFaults(files[f], true);
  }

  /** Corrected: the same material yields the missing-diffuse line in the flora report, which is part of the rule's result. */
  lemma EmptyDiffuseReported(files: seq<Fbx>, f: int, i: int, k: int)
    requires 0 <= f < |files| && 0 <= i < |files[f].meshes|
    requires IsMesh(files[f].meshes[i]) && HasLower(files[f].meshes[i].name, "flora")
    requires 0 <= k < |files[f].meshes[i].materials|
    requires files[f].meshes[i].materials[k].bsdf.Some? && |files[f].meshes[i].materials[k].bsdf.value| >= 3
    requires files[f].meshes[i].materials[k].bsdf.value[0].fromEmptyImage
    requires !AnyFault(files, false)
    ensures files[f].meshes[i].materials[k].name + NoDiffuseTail in LpMaterialsOf(files[f]).flora.errors
    ensures LpMaterialsOf(files[f]).flora in LpMaterialsRule(files, false)
  {
    var fbx := files[f];
    var o := fbx.meshes[i];
    var m := o.materials[k];
    var line := m.name + NoDiffuseTail;
    FloraDiffuseReported(m);
    var a :| 0 <= a < |FloraMaterialLines(m)| && FloraMaterialLines(m)[a] == line;
    WalkHas(o.materials, FloraMaterialLines, k, a);
    var b :| 0 <= b < |FloraLines(o)| && FloraLines(o)[b] == line;
    WalkHas(fbx.meshes, FloraLines, i, b);
    WalkHas(files, LpFileList, f, 6);
  }

  /** A flora file whose single material takes its base colour from an image-less node. */
  const EmptyDiffuseFile := Fbx("flora.fbx",
    [Obj(FloraName, MeshKind, None, 1,
      [Material("Leaves", Some([Socket("Base Color", true, true), Socket("Metallic", false, false), Socket("Roughness", false, false)]), [None])],
      [4], 0, false, "")],
    0, 0, 0, Unreadable, "")

  const FloraName := "flora"

  lemma FloraNameLower()
    ensures Lower(FloraName) == FloraName
  {
  }

  lemma EmptyDiffuseFileIsFlora()
    ensures HasLower(EmptyDiffuseFile.meshes[0].name, "flora")
  {
    FloraNameLower();
    assert OccursAt(FloraName, "flora", 0);
  }

  lemma EmptyDiffuseFileSound()
    ensures !AnyFault([EmptyDiffuseFile], false)
  {
    assert !FileFaults(EmptyDiffuseFile, false);
  }

  /** The input that shows it: as written the rule reports nothing for this file; corrected, it reports the missing diffuse map. */
  lemma EmptyDiffuseExample()
    ensures LpMaterialsRule([EmptyDiffuseFile], true) == []
    ensures LpMaterialsOf(EmptyDiffuseFile).flora in LpMaterialsRule([EmptyDiffuseFile], false)
    ensures "Leaves" + NoDiffuseTail in LpMaterialsOf(EmptyDiffuseFile).flora.errors
  {
    EmptyDiffuseFileIsFlora();
    EmptyDiffuseFileSound();
    EmptyDiffuseLost([EmptyDiffuseFile], 0, 0, 0);
    EmptyDiffuseReported([EmptyDiffuseFile], 0, 0, 0);
  }
}
