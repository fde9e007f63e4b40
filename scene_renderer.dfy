/**
 * The interpreter that turns a scene document into render elements: geometry per
 * shape, resolved material per object, one light element per light entry, and
 * the per-frame animation step applied to each mesh.
 */
module SceneRenderer {
  import opened Wrappers
  import opened SceneTypes

  const HoverColor: string := "#ffffff"
  const DefaultRoughness: real := 0.5
  const DefaultMetalness: real := 0.5
  const DefaultOpacity: real := 1.0
  const Clearcoat: real := 1.0
  const ClearcoatRoughness: real := 0.1
  const FloatAmplitude: real := 0.2
  const PulseAmplitude: real := 0.1

  // ---------------------------------------------------------------------------
  // Geometry

  /** A geometry element: its element name and its constructor arguments. */
  datatype Geometry = Geometry(element: string, args: seq<real>)

  /**
   * The fixed geometry of each shape. The element is named after the shape,
   * and its leading size argument is 1 for the box (its side) and 0.5 for
   * every other shape (its radius).
   */
  function GeometryFor(shape: ShapeType): (g: Geometry)
    ensures g.element == ShapeName(shape) + "Geometry"
    ensures |g.args| >= 2
    ensures g.args[0] == if shape == Box then 1.0 else 0.5
  {
    match shape
    case Box => Geometry("boxGeometry", [1.0, 1.0, 1.0])
    case Sphere => Geometry("sphereGeometry", [0.5, 32.0, 32.0])
    case Cylinder => Geometry("cylinderGeometry", [0.5, 0.5, 1.0, 32.0])
    case Cone => Geometry("coneGeometry", [0.5, 1.0, 32.0])
    case Torus => Geometry("torusGeometry", [0.5, 0.2, 16.0, 100.0])
    case Icosahedron => Geometry("icosahedronGeometry", [0.5, 0.0])
    case Dodecahedron => Geometry("dodecahedronGeometry", [0.5, 0.0])
  }

  /** Different shapes never share a geometry. */
  lemma GeometryForInjective(s: ShapeType, t: ShapeType)
    ensures GeometryFor(s) == GeometryFor(t) ==> s == t
  {
  }

  /** The full table of geometry arguments. */
  lemma GeometryTable()
    ensures GeometryFor(Box).args == [1.0, 1.0, 1.0]
    ensures GeometryFor(Sphere).args == [0.5, 32.0, 32.0]
    ensures GeometryFor(Cylinder).args == [0.5, 0.5, 1.0, 32.0]
    ensures GeometryFor(Cone).args == [0.5, 1.0, 32.0]
    ensures GeometryFor(Torus).args == [0.5, 0.2, 16.0, 100.0]
    ensures GeometryFor(Icosahedron).args == [0.5, 0.0]
    ensures GeometryFor(Dodecahedron).args == [0.5, 0.0]
  {
  }

  // ---------------------------------------------------------------------------
  // Materials

  /** The shared material properties computed for every object. */
  datatype MaterialProps = MaterialProps(
    color: string,
    roughness: real,
    metalness: real,
    transparent: bool,
    opacity: real,
    wireframe: bool)

  /**
   * Absent roughness and metalness default to 0.5 and absent opacity to 1;
   * present values pass through. The colour is white while hovered.
   */
  function ResolveProps(obj: SceneObject, hovered: bool): (p: MaterialProps)
    ensures p.color == if hovered then HoverColor else obj.color
    ensures obj.roughness.Some? ==> p.roughness == obj.roughness.value
    ensures obj.roughness.None? ==> p.roughness == DefaultRoughness
    ensures obj.metalness.Some? ==> p.metalness == obj.metalness.value
    ensures obj.metalness.None? ==> p.metalness == DefaultMetalness
    ensures obj.opacity.Some? ==> p.opacity == obj.opacity.value
    ensures obj.opacity.None? ==> p.opacity == DefaultOpacity
    ensures p.transparent <==> p.opacity < 1.0
    ensures p.wireframe <==> obj.material == Wireframe
  {
    MaterialProps(
      if hovered then HoverColor else obj.color,
      obj.roughness.GetOr(DefaultRoughness),
      obj.metalness.GetOr(DefaultMetalness),
      obj.opacity.GetOr(DefaultOpacity) < 1.0,
      obj.opacity.GetOr(DefaultOpacity),
      obj.material == Wireframe)
  }

  datatype RenderedMaterial =
    | MeshPhysicalMaterial(props: MaterialProps, clearcoat: real, clearcoatRoughness: real)
    | MeshNormalMaterial(wireframe: bool)
    | MeshStandardMaterial(props: MaterialProps)

  /** Whether a rendered material draws only edges. */
  function DrawsWireframe(m: RenderedMaterial): bool {
    match m
    case MeshPhysicalMaterial(p, _, _) => p.wireframe
    case MeshNormalMaterial(w) => w
    case MeshStandardMaterial(p) => p.wireframe
  }

  /**
   * The material element of an object: `physical` gives the physical material
   * with a fixed clear coat; `normal` gives the normal material, never in
   * wireframe; `standard` and `wireframe` both give the standard material.
   */
  function SelectMaterial(obj: SceneObject, hovered: bool): (m: RenderedMaterial)
    ensures m.MeshPhysicalMaterial? <==> obj.material == Physical
    ensures m.MeshNormalMaterial? <==> obj.material == Normal
    ensures m.MeshStandardMaterial? <==> obj.material == Standard || obj.material == Wireframe
    ensures m.MeshPhysicalMaterial? ==>
      m.props == ResolveProps(obj, hovered) && m.clearcoat == 1.0 && m.clearcoatRoughness == 0.1
    ensures m.MeshStandardMaterial? ==> m.props == ResolveProps(obj, hovered)
    ensures m.MeshNormalMaterial? ==> !m.wireframe
  {
    var props := ResolveProps(obj, hovered);
    if obj.material == Physical then MeshPhysicalMaterial(props, Clearcoat, ClearcoatRoughness)
    else if obj.material == Normal then MeshNormalMaterial(props.wireframe)
    else MeshStandardMaterial(props)
  }

  /** Only the `wireframe` material draws edges only, whatever the branch. */
  lemma WireframeOnlyForWireframe(obj: SceneObject, hovered: bool)
    ensures DrawsWireframe(SelectMaterial(obj, hovered)) <==> obj.material == Wireframe
  {
  }

  /** The normal material ignores colour, so hovering changes nothing visible. */
  lemma NormalMaterialIgnoresHover(obj: SceneObject)
    requires obj.material == Normal
    ensures SelectMaterial(obj, true) == SelectMaterial(obj, false)
  {
  }

  // ---------------------------------------------------------------------------
  // Meshes

  /** The mesh element of one object; its React key is the object's id. */
  datatype RenderedMesh = RenderedMesh(
    key: string,
    geometry: Geometry,
    material: RenderedMaterial,
    position: Vec3,
    rotation: Vec3,
    scale: Vec3,
    castShadow: bool,
    receiveShadow: bool)

  /**
   * The mesh of one object: keyed by its id, with its document transform, its
   * shape's geometry, a material that draws only edges exactly for `wireframe`,
   * and both casting and receiving shadows.
   */
  function RenderObject(obj: SceneObject, hovered: bool): (r: RenderedMesh)
    ensures r.key == obj.id
    ensures r.geometry.element == ShapeName(obj.shape) + "Geometry"
    ensures DrawsWireframe(r.material) <==> obj.material == Wireframe
    ensures r.position == obj.position && r.rotation == obj.rotation && r.scale == obj.scale
    ensures r.castShadow && r.receiveShadow
  {
    RenderedMesh(obj.id, GeometryFor(obj.shape), SelectMaterial(obj, hovered),
                 obj.position, obj.rotation, obj.scale, true, true)
  }

  /**
   * One mesh per object, in order, keyed by the object's id; `hovered` holds
   * the ids of the objects the pointer is over.
   */
  function RenderObjects(objects: seq<SceneObject>, hovered: set<string>): (r: seq<RenderedMesh>)
    ensures |r| == |objects|
    ensures forall i :: 0 <= i < |objects| ==>
      r[i] == RenderObject(objects[i], objects[i].id in hovered)
    ensures forall i :: 0 <= i < |objects| ==>
      r[i].key == objects[i].id && r[i].geometry == GeometryFor(objects[i].shape)
  {
    if objects == [] then []
    else [RenderObject(objects[0], objects[0].id in hovered)] + RenderObjects(objects[1..], hovered)
  }

  // ---------------------------------------------------------------------------
  // Lights

  /** A light element; its React key is the index of its entry. */
  datatype RenderedLight =
    | AmbientLight(key: nat, intensity: real, color: string)
    | DirectionalLight(key: nat, position: Option<Vec3>, intensity: real, color: string, castShadow: bool)
    | PointLight(key: nat, position: Option<Vec3>, intensity: real, color: string)

  predicate CastsShadow(l: RenderedLight) {
    l.DirectionalLight? && l.castShadow
  }

  /**
   * The light element for an entry whose `type` is the string `kind`: nothing
   * for a string that names no light kind. Only the directional light casts
   * shadows, and the ambient light takes no position.
   */
  function LightElement(kind: string, key: nat, position: Option<Vec3>, intensity: real, color: string)
    : (r: Option<RenderedLight>)
    ensures r.None? <==> ParseLightKind(kind).None?
    ensures r.Some? ==> r.value.key == key && r.value.intensity == intensity && r.value.color == color
    ensures r.Some? ==> (r.value.AmbientLight? <==> kind == "ambient")
    ensures r.Some? ==> (r.value.PointLight? <==> kind == "point")
    ensures r.Some? ==> (CastsShadow(r.value) <==> kind == "directional")
    ensures r.Some? && !r.value.AmbientLight? ==> r.value.position == position
  {
    if kind == "ambient" then Some(AmbientLight(key, intensity, color))
    else if kind == "directional" then Some(DirectionalLight(key, position, intensity, color, true))
    else if kind == "point" then Some(PointLight(key, position, intensity, color))
    else None
  }

  /** The light elements of the entries `lights`, the first keyed `start`. */
  function RenderLightsFrom(lights: seq<SceneLight>, start: nat): (r: seq<RenderedLight>)
    ensures |r| == |lights|
    ensures forall i :: 0 <= i < |lights| ==>
      LightElement(LightKindName(lights[i].kind), start + i, lights[i].position,
                   lights[i].intensity, lights[i].color) == Some(r[i])
    decreases |lights|
  {
    if lights == [] then []
    else
      var l := lights[0];
      LightKindRoundTrip(l.kind);
      var e := LightElement(LightKindName(l.kind), start, l.position, l.intensity, l.color);
      [e.value] + RenderLightsFrom(lights[1..], start + 1)
  }

  /** One light element per light entry, in order, keyed by its index. */
  function RenderLights(lights: seq<SceneLight>): (r: seq<RenderedLight>)
    ensures |r| == |lights|
    ensures forall i :: 0 <= i < |lights| ==>
      r[i].key == i && r[i].intensity == lights[i].intensity && r[i].color == lights[i].color
    ensures forall i :: 0 <= i < |lights| ==>
      (CastsShadow(r[i]) <==> lights[i].kind == Directional)
    ensures forall i :: 0 <= i < |lights| ==>
      (r[i].AmbientLight? <==> lights[i].kind == Ambient)
    ensures forall i :: 0 <= i < |lights| ==>
      (r[i].PointLight? <==> lights[i].kind == Point)
    ensures forall i :: 0 <= i < |lights| ==>
      !r[i].AmbientLight? ==> r[i].position == lights[i].position
  {
    var r := RenderLightsFrom(lights, 0);
    forall i | 0 <= i < |lights|
      ensures r[i].PointLight? <==> lights[i].kind == Point
    {
      LightKindRoundTrip(lights[i].kind);
    }
    r
  }

  // ---------------------------------------------------------------------------
  // The whole scene

  datatype RenderedScene = RenderedScene(
    background: string,
    meshes: seq<RenderedMesh>,
    lights: seq<RenderedLight>)

  function RenderScene(doc: SceneData, hovered: set<string>): (r: RenderedScene)
    ensures r.background == doc.backgroundColor
    ensures |r.meshes| == |doc.objects|
    ensures forall i :: 0 <= i < |doc.objects| ==>
      && r.meshes[i].key == doc.objects[i].id
      && r.meshes[i].geometry == GeometryFor(doc.objects[i].shape)
      && r.meshes[i].material == SelectMaterial(doc.objects[i], doc.objects[i].id in hovered)
      && r.meshes[i].position == doc.objects[i].position
      && r.meshes[i].rotation == doc.objects[i].rotation
      && r.meshes[i].scale == doc.objects[i].scale
      && r.meshes[i].castShadow && r.meshes[i].receiveShadow
    ensures |r.lights| == |doc.lights|
    ensures forall i :: 0 <= i < |doc.lights| ==>
      && r.lights[i].key == i
      && r.lights[i].intensity == doc.lights[i].intensity
      && r.lights[i].color == doc.lights[i].color
      && (CastsShadow(r.lights[i]) <==> doc.lights[i].kind == Directional)
      && (r.lights[i].AmbientLight? <==> doc.lights[i].kind == Ambient)
      && (r.lights[i].PointLight? <==> doc.lights[i].kind == Point)
      && (!r.lights[i].AmbientLight? ==> r.lights[i].position == doc.lights[i].position)
  {
    RenderedScene(doc.backgroundColor, RenderObjects(doc.objects, hovered), RenderLights(doc.lights))
  }

  /** A document without objects or lights renders an empty scene. */
  lemma EmptySceneRenders(doc: SceneData, hovered: set<string>)
    requires doc.objects == [] && doc.lights == []
    ensures RenderScene(doc, hovered).meshes == [] && RenderScene(doc, hovered).lights == []
  {
  }

  /** The mesh keys are distinct exactly when the object ids are. */
  lemma MeshKeysUnique(doc: SceneData, hovered: set<string>)
    ensures var m := RenderScene(doc, hovered).meshes;
      UniqueIds(doc.objects) <==> forall i, j :: 0 <= i < j < |m| ==> m[i].key != m[j].key
  {
  }

  // ---------------------------------------------------------------------------
  // Per-frame animation

  /** The transform a mesh carries between frames. */
  datatype Transform = Transform(position: Vec3, rotation: Vec3, scale: Vec3)

  /** `sin(t)` and `sin(2t)` for the clock's elapsed time `t`. */
  datatype FrameClock = FrameClock(sinT: real, sin2T: real)

  function RotateX(obj: SceneObject): Option<real> {
    if obj.animation.Some? then obj.animation.value.rotateX else None
  }

  function RotateY(obj: SceneObject): Option<real> {
    if obj.animation.Some? then obj.animation.value.rotateY else None
  }

  function RotateZ(obj: SceneObject): Option<real> {
    if obj.animation.Some? then obj.animation.value.rotateZ else None
  }

  /** `animation?.float` is truthy. */
  predicate Floats(obj: SceneObject) {
    obj.animation.Some? && obj.animation.value.float == Some(true)
  }

  /** `animation?.pulse` is truthy. */
  predicate Pulses(obj: SceneObject) {
    obj.animation.Some? && obj.animation.value.pulse == Some(true)
  }

  /** A speed taken as a number is truthy when present and not zero. */
  predicate Truthy(speed: Option<real>) {
    speed.Some? && speed.value != 0.0
  }

  /** The amount a rotation axis advances per frame: 0 when absent. */
  function Speed(speed: Option<real>): real {
    if speed.Some? then speed.value else 0.0
  }

  function Spin(angle: real, speed: Option<real>): real {
    if Truthy(speed) then angle + speed.value else angle
  }

  function PulseFactor(clock: FrameClock): real {
    1.0 + clock.sin2T * PulseAmplitude
  }

  /** The transform after one frame, from the previous one and the object's base values. */
  function Animate(t: Transform, obj: SceneObject, clock: FrameClock): (r: Transform)
    ensures !Floats(obj) ==> r.position == t.position
    ensures Floats(obj) ==> r.position.x == t.position.x && r.position.z == t.position.z
    ensures !Pulses(obj) ==> r.scale == t.scale
  {
    var rotation := Vec3(Spin(t.rotation.x, RotateX(obj)),
                         Spin(t.rotation.y, RotateY(obj)),
                         Spin(t.rotation.z, RotateZ(obj)));
    var position := if Floats(obj)
      then t.position.(y := obj.position.y + clock.sinT * FloatAmplitude)
      else t.position;
    var f := PulseFactor(clock);
    var scale := if Pulses(obj)
      then Vec3(obj.scale.x * f, obj.scale.y * f, obj.scale.z * f)
      else t.scale;
    Transform(position, rotation, scale)
  }

  /** Each rotation axis advances by its speed; an absent or zero speed leaves it. */
  lemma AnimateRotation(t: Transform, obj: SceneObject, clock: FrameClock)
    ensures Animate(t, obj, clock).rotation ==
      Vec3(t.rotation.x + Speed(RotateX(obj)), t.rotation.y + Speed(RotateY(obj)),
           t.rotation.z + Speed(RotateZ(obj)))
    ensures !Truthy(RotateX(obj)) ==> Animate(t, obj, clock).rotation.x == t.rotation.x
    ensures !Truthy(RotateY(obj)) ==> Animate(t, obj, clock).rotation.y == t.rotation.y
    ensures !Truthy(RotateZ(obj)) ==> Animate(t, obj, clock).rotation.z == t.rotation.z
  {
  }

  /** `float` sets only the height, from the base height; otherwise the position stays. */
  lemma AnimateFloat(t: Transform, obj: SceneObject, clock: FrameClock)
    ensures var p := Animate(t, obj, clock).position;
      p.x == t.position.x && p.z == t.position.z &&
      p.y == if Floats(obj) then obj.position.y + 0.2 * clock.sinT else t.position.y
  {
  }

  /** `pulse` scales all three base axes by one shared factor; otherwise the scale stays. */
  lemma AnimatePulse(t: Transform, obj: SceneObject, clock: FrameClock)
    ensures PulseFactor(clock) == 1.0 + 0.1 * clock.sin2T
    ensures Pulses(obj) ==>
      Animate(t, obj, clock).scale ==
        Vec3(PulseFactor(clock) * obj.scale.x, PulseFactor(clock) * obj.scale.y,
             PulseFactor(clock) * obj.scale.z)
    ensures !Pulses(obj) ==> Animate(t, obj, clock).scale == t.scale
  {
  }

  /** At `sin(t) = 0` a floating object is at its base height, at `sin(t) = 1` 0.2 above it. */
  lemma FloatExtremes(t: Transform, obj: SceneObject)
    requires Floats(obj)
    ensures Animate(t, obj, FrameClock(0.0, 0.0)).position.y == obj.position.y
    ensures Animate(t, obj, FrameClock(1.0, 0.0)).position.y == obj.position.y + 0.2
  {
  }

  /** At `sin(2t) = 0` a pulsing object has its base scale, at `sin(2t) = 1` 1.1 times it. */
  lemma PulseExtremes(t: Transform, obj: SceneObject)
    requires Pulses(obj)
    ensures Animate(t, obj, FrameClock(0.0, 0.0)).scale == obj.scale
    ensures Animate(t, obj, FrameClock(0.0, 1.0)).scale ==
      Vec3(1.1 * obj.scale.x, 1.1 * obj.scale.y, 1.1 * obj.scale.z)
  {
  }

  /** The transform after a sequence of frames. */
  function Run(t: Transform, obj: SceneObject, frames: seq<FrameClock>): (r: Transform)
    ensures !Floats(obj) ==> r.position == t.position
    ensures r.position.x == t.position.x && r.position.z == t.position.z
    ensures !Pulses(obj) ==> r.scale == t.scale
    decreases |frames|
  {
    if frames == [] then t else Run(Animate(t, obj, frames[0]), obj, frames[1..])
  }

  /** Rotation accumulates by the speed once per frame, whatever time passes. */
  lemma {:induction false} RunRotation(t: Transform, obj: SceneObject, frames: seq<FrameClock>)
    ensures Run(t, obj, frames).rotation ==
      Vec3(t.rotation.x + |frames| as real * Speed(RotateX(obj)),
           t.rotation.y + |frames| as real * Speed(RotateY(obj)),
           t.rotation.z + |frames| as real * Speed(RotateZ(obj)))
    decreases |frames|
  {
    if frames != [] {
      var n := |frames| - 1;
      AnimateRotation(t, obj, frames[0]);
      RunRotation(Animate(t, obj, frames[0]), obj, frames[1..]);
      var sx, sy, sz := Speed(RotateX(obj)), Speed(RotateY(obj)), Speed(RotateZ(obj));
      assert (n + 1) as real * sx == sx + n as real * sx;
      assert (n + 1) as real * sy == sy + n as real * sy;
      assert (n + 1) as real * sz == sz + n as real * sz;
    }
  }

  /**
   * Floating and pulsing overwrite from the base values, so after any non-empty
   * run the position and scale depend only on the last frame and never drift.
   */
  lemma {:induction false} RunOverwritesFromBase(t: Transform, obj: SceneObject, frames: seq<FrameClock>)
    requires frames != []
    ensures Run(t, obj, frames).position == Animate(t, obj, frames[|frames| - 1]).position
    ensures Run(t, obj, frames).scale == Animate(t, obj, frames[|frames| - 1]).scale
    decreases |frames|
  {
    if |frames| > 1 {
      RunOverwritesFromBase(Animate(t, obj, frames[0]), obj, frames[1..]);
    }
  }

  // ---------------------------------------------------------------------------
  // Mesh state, updated in place every frame

  /** The live mesh of one object: its rotation, position and scale. */
  class MeshState {
    var position: Vec3
    var rotation: Vec3
    var scale: Vec3

    function Current(): Transform
      reads this
    {
      Transform(position, rotation, scale)
    }

    /** A mesh starts with the object's position, rotation and scale. */
    constructor (obj: SceneObject)
      ensures Current() == Transform(obj.position, obj.rotation, obj.scale)
    {
      position := obj.position;
      rotation := obj.rotation;
      scale := obj.scale;
    }

    /**
     * One frame: advance each rotation axis, then overwrite the height when
     * floating and the scale when pulsing. `delta` is not used.
     */
    method FrameStep(obj: SceneObject, clock: FrameClock, delta: real)
      modifies this
      ensures Current() == Animate(old(Current()), obj, clock)
    {
      if Truthy(RotateX(obj)) { rotation := rotation.(x := rotation.x + RotateX(obj).value); }
      if Truthy(RotateY(obj)) { rotation := rotation.(y := rotation.y + RotateY(obj).value); }
      if Truthy(RotateZ(obj)) { rotation := rotation.(z := rotation.z + RotateZ(obj).value); }
      if Floats(obj) {
        position := position.(y := obj.position.y + clock.sinT * FloatAmplitude);
      }
      if Pulses(obj) {
        var scaleFactor := 1.0 + clock.sin2T * PulseAmplitude;
        scale := Vec3(obj.scale.x * scaleFactor, obj.scale.y * scaleFactor, obj.scale.z * scaleFactor);
      }
    }
  }

  /** One rendered object: its document entry, its hover flag and its mesh reference. */
  class AnimatedObject {
    const data: SceneObject
    var hovered: bool
    var mesh: MeshState?

    constructor (data: SceneObject)
      ensures this.data == data && !hovered && mesh == null
    {
      this.data := data;
      hovered := false;
      mesh := null;
    }

    /** The renderer attaches the mesh, built from the object's transform. */
    method Mount()
      modifies this
      ensures hovered == old(hovered)
      ensures mesh != null && fresh(mesh)
      ensures mesh.Current() == Transform(data.position, data.rotation, data.scale)
    {
      mesh := new MeshState(data);
    }

    method PointerOver()
      modifies this
      ensures hovered && mesh == old(mesh)
    {
      hovered := true;
    }

    method PointerOut()
      modifies this
      ensures !hovered && mesh == old(mesh)
    {
      hovered := false;
    }

    /** The mesh element as rendered now; it reflects the hover flag. */
    function Element(): (m: RenderedMesh)
      reads this
      ensures m.key == data.id
      ensures m.material == SelectMaterial(data, hovered)
    {
      RenderObject(data, hovered)
    }

    /** The frame callback: nothing happens before the mesh is attached. */
    method Frame(clock: FrameClock, delta: real)
      modifies mesh
      ensures mesh != null ==> mesh.Current() == Animate(old(mesh.Current()), data, clock)
    {
      if mesh == null { return; }
      mesh.FrameStep(data, clock, delta);
    }
  }
}
