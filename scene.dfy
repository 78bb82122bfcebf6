/**
 * Blender seen as plain data: the objects of an imported FBX file, their
 * mesh and light data, their materials and shader sockets, and the file's
 * geojson companion. Every rule reads only these values.
 */
module Scene {
  import opened Wrappers
  import opened Text

  /** An input socket of a Principled BSDF node. */
  datatype Socket = Socket(
    name: string,
    linked: bool,
    /** the first link comes from an Image Texture node that holds no image */
    fromEmptyImage: bool)

  /** A material: its first Principled BSDF node's inputs, if it has one, and its Image Texture nodes. */
  datatype Material = Material(
    name: string,
    bsdf: Option<seq<Socket>>,
    /** the width of each Image Texture node's image, None for a node without an image */
    textures: seq<Option<int>>)

  /** `obj.type`: the three kinds the rules tell apart, and any other by its Blender name ("CAMERA", "CURVE", ...). */
  datatype Kind = MeshKind | LightKind | EmptyKind | OtherKind(typeName: string)

  function KindName(k: Kind): string {
    match k
    case MeshKind => "MESH"
    case LightKind => "LIGHT"
    case EmptyKind => "EMPTY"
    case OtherKind(t) => t
  }

  /** A scene object and the parts of its data the rules look at. */
  datatype Obj = Obj(
    name: string,
    kind: Kind,
    /** the parent object's name */
    parent: Option<string>,
    uvLayers: nat,
    materials: seq<Material>,
    /** the vertex count of each polygon */
    polygons: seq<int>,
    colorAttributes: nat,
    /** light data: `use_custom_distance` and the light type ("POINT", "SPOT", ...) */
    customDistance: bool,
    lightType: string)

  /** The first feature's properties of a geojson file, as far as the rules read them. */
  datatype GeoJson =
    | Unreadable                                  // no file, unparsable, or an empty document
    | Document(properties: Option<map<string, string>>)  // None: no `features[0]["properties"]`

  /** An imported FBX file with its companion geojson. */
  datatype Fbx = Fbx(
    name: string,
    meshes: seq<Obj>,
    actions: int,
    cameras: int,
    collections: int,
    json: GeoJson,
    jsonName: string)

  predicate IsMesh(o: Obj) {
    o.kind == MeshKind
  }

  /** Case-insensitive containment, as `t in x.lower()` for a lower-case `t`. */
  predicate HasLower(s: string, t: string) {
    Contains(Lower(s), t)
  }
}
