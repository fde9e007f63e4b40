/**
 * The scene document schema: shapes, materials, light kinds, animation settings,
 * objects, lights and the document itself, plus the mapping between each enum
 * and the string that stands for it in a JSON document.
 */
module SceneTypes {
  import opened Wrappers

  datatype ShapeType = Box | Sphere | Cylinder | Cone | Torus | Icosahedron | Dodecahedron

  datatype MaterialType = Standard | Physical | Normal | Wireframe

  datatype LightKind = Ambient | Directional | Point

  /** A position, rotation (radians) or scale: always exactly three components. */
  datatype Vec3 = Vec3(x: real, y: real, z: real)

  /** Per-object animation; every setting may be absent. */
  datatype AnimationConfig = AnimationConfig(
    rotateX: Option<real>,
    rotateY: Option<real>,
    rotateZ: Option<real>,
    float: Option<bool>,
    pulse: Option<bool>)

  /**
   * One primitive of a scene. The document field `type` is called `shape` here.
   * `name`, `roughness`, `metalness` and `opacity` are not required of a
   * generated document, so they are optional.
   */
  datatype SceneObject = SceneObject(
    id: string,
    name: Option<string>,
    shape: ShapeType,
    position: Vec3,
    rotation: Vec3,
    scale: Vec3,
    color: string,
    material: MaterialType,
    roughness: Option<real>,
    metalness: Option<real>,
    opacity: Option<real>,
    animation: Option<AnimationConfig>)

  datatype SceneLight = SceneLight(
    kind: LightKind,
    position: Option<Vec3>,
    intensity: real,
    color: string)

  datatype SceneData = SceneData(
    title: string,
    description: string,
    objects: seq<SceneObject>,
    lights: seq<SceneLight>,
    backgroundColor: string)

  /** Object ids are meant to be unique within one document. */
  predicate UniqueIds(objects: seq<SceneObject>) {
    forall i, j :: 0 <= i < j < |objects| ==> objects[i].id != objects[j].id
  }

  // ---------------------------------------------------------------------------
  // Shapes

  const ShapeNames: set<string> :=
    {"box", "sphere", "cylinder", "cone", "torus", "icosahedron", "dodecahedron"}

  /** The enum string of a shape. */
  function ShapeName(s: ShapeType): (r: string)
    ensures r in ShapeNames
  {
    match s
    case Box => "box"
    case Sphere => "sphere"
    case Cylinder => "cylinder"
    case Cone => "cone"
    case Torus => "torus"
    case Icosahedron => "icosahedron"
    case Dodecahedron => "dodecahedron"
  }

  /** The shape a string stands for; every string that names no shape is rejected. */
  function ParseShape(name: string): (r: Option<ShapeType>)
    ensures r.Some? ==> ShapeName(r.value) == name
    ensures r.None? ==> forall s :: ShapeName(s) != name
    ensures r.Some? <==> name in ShapeNames
  {
    if name == "box" then Some(Box)
    else if name == "sphere" then Some(Sphere)
    else if name == "cylinder" then Some(Cylinder)
    else if name == "cone" then Some(Cone)
    else if name == "torus" then Some(Torus)
    else if name == "icosahedron" then Some(Icosahedron)
    else if name == "dodecahedron" then Some(Dodecahedron)
    else None
  }

  lemma ShapeRoundTrip(s: ShapeType)
    ensures ParseShape(ShapeName(s)) == Some(s)
    ensures ShapeName(s) in ShapeNames
  {
  }

  lemma ShapeNameInjective(s: ShapeType, t: ShapeType)
    ensures ShapeName(s) == ShapeName(t) ==> s == t
  {
  }

  // ---------------------------------------------------------------------------
  // Materials

  const MaterialNames: set<string> := {"standard", "physical", "normal", "wireframe"}

  /** The enum string of a material. */
  function MaterialName(m: MaterialType): (r: string)
    ensures r in MaterialNames
  {
    match m
    case Standard => "standard"
    case Physical => "physical"
    case Normal => "normal"
    case Wireframe => "wireframe"
  }

  /** The material a string stands for; every other string is rejected. */
  function ParseMaterial(name: string): (r: Option<MaterialType>)
    ensures r.Some? ==> MaterialName(r.value) == name
    ensures r.None? ==> forall m :: MaterialName(m) != name
    ensures r.Some? <==> name in MaterialNames
  {
    if name == "standard" then Some(Standard)
    else if name == "physical" then Some(Physical)
    else if name == "normal" then Some(Normal)
    else if name == "wireframe" then Some(Wireframe)
    else None
  }

  lemma MaterialRoundTrip(m: MaterialType)
    ensures ParseMaterial(MaterialName(m)) == Some(m)
    ensures MaterialName(m) in MaterialNames
  {
  }

  // ---------------------------------------------------------------------------
  // Light kinds

  const LightKindNames: set<string> := {"ambient", "directional", "point"}

  /** The `type` string of a light kind. */
  function LightKindName(k: LightKind): (r: string)
    ensures r in LightKindNames
  {
    match k
    case Ambient => "ambient"
    case Directional => "directional"
    case Point => "point"
  }

  /** A light's `type` is exactly one of three strings. */
  function ParseLightKind(name: string): (r: Option<LightKind>)
    ensures r.Some? ==> LightKindName(r.value) == name
    ensures r.None? ==> forall k :: LightKindName(k) != name
    ensures r.Some? <==> name in LightKindNames
  {
    if name == "ambient" then Some(Ambient)
    else if name == "directional" then Some(Directional)
    else if name == "point" then Some(Point)
    else None
  }

  lemma LightKindRoundTrip(k: LightKind)
    ensures ParseLightKind(LightKindName(k)) == Some(k)
    ensures LightKindName(k) in LightKindNames
  {
  }

  /** The name sets have exactly seven, four and three members. */
  lemma NameSetSizes()
    ensures |ShapeNames| == 7 && |MaterialNames| == 4 && |LightKindNames| == 3
  {
  }
}
