/** The built-in default scene and the example prompts offered as suggestions. */
module SceneConstants {
  import opened Wrappers
  import opened SceneTypes
  import opened JsText
  import SceneRenderer
  import PromptInputControl

  const DemoCube: SceneObject := SceneObject(
    "demo-cube",
    Some("Spinning Cube"),
    Box,
    Vec3(0.0, 0.0, 0.0),
    Vec3(0.0, 0.0, 0.0),
    Vec3(1.5, 1.5, 1.5),
    "#6366f1",
    Standard,
    Some(0.2),
    Some(0.8),
    Some(1.0),
    Some(AnimationConfig(Some(0.005), Some(0.01), None, Some(true), None)))

  const DefaultLights: seq<SceneLight> := [
    SceneLight(Ambient, None, 0.5, "#ffffff"),
    SceneLight(Directional, Some(Vec3(5.0, 5.0, 5.0)), 1.0, "#ffffff"),
    SceneLight(Point, Some(Vec3(-5.0, -5.0, -5.0)), 0.5, "#ff0000")
  ]

  const DefaultScene: SceneData := SceneData(
    "Welcome to GenShape",
    "Enter a prompt to generate a 3D scene.",
    [DemoCube],
    DefaultLights,
    "#101010")

  const SuggestedPrompts: seq<string> := [
    "A futuristic cyberpunk skyscraper with neon accents",
    "A low-poly tree with pink leaves in spring",
    "A retro arcade machine with glowing screen",
    "A solar system model with planets orbiting",
    "A cute robot made of rounded shapes",
    "An abstract sculpture representing chaos and order"
  ]

  /** Exactly one object: the standard-material box `demo-cube`; ids are unique. */
  lemma DefaultSceneObjects()
    ensures |DefaultScene.objects| == 1
    ensures DefaultScene.objects[0].id == "demo-cube"
    ensures DefaultScene.objects[0].shape == Box
    ensures DefaultScene.objects[0].material == Standard
    ensures UniqueIds(DefaultScene.objects)
  {
  }

  /** One light of each kind; the directional and point lights carry positions. */
  lemma DefaultLightsOnePerKind()
    ensures |DefaultScene.lights| == 3
    ensures DefaultScene.lights[0].kind == Ambient
    ensures DefaultScene.lights[1].kind == Directional && DefaultScene.lights[1].position.Some?
    ensures DefaultScene.lights[2].kind == Point && DefaultScene.lights[2].position.Some?
  {
  }

  /** The default material values lie in [0, 1], and opacity 1 is not transparent. */
  lemma DefaultMaterialInRange(hovered: bool)
    ensures var o := DemoCube;
      && o.roughness.Some? && 0.0 <= o.roughness.value <= 1.0
      && o.metalness.Some? && 0.0 <= o.metalness.value <= 1.0
      && o.opacity.Some? && 0.0 <= o.opacity.value <= 1.0
    ensures !SceneRenderer.ResolveProps(DemoCube, hovered).transparent
  {
  }

  /** rotateY 0.01, rotateX 0.005 and float on; no rotateZ and no pulse. */
  lemma DefaultAnimation()
    ensures SceneRenderer.RotateY(DemoCube) == Some(0.01)
    ensures SceneRenderer.RotateX(DemoCube) == Some(0.005)
    ensures SceneRenderer.RotateZ(DemoCube) == None
    ensures SceneRenderer.Floats(DemoCube) && !SceneRenderer.Pulses(DemoCube)
  {
  }

  /** The default document renders one mesh and has an ambient light among its lights. */
  lemma DefaultSceneRenders(hovered: set<string>)
    ensures var r := SceneRenderer.RenderScene(DefaultScene, hovered);
      |r.meshes| == 1 && r.meshes[0].key == "demo-cube" &&
      exists i :: 0 <= i < |r.lights| && r.lights[i].AmbientLight?
  {
  }

  /** Every suggested prompt has a non-white-space character, so it would pass the prompt guard. */
  lemma SuggestedPromptsPassGuard()
    ensures forall i :: 0 <= i < |SuggestedPrompts| ==> HasNonWhitespace(SuggestedPrompts[i])
    ensures forall i :: 0 <= i < |SuggestedPrompts| ==>
      PromptInputControl.CanSubmit(SuggestedPrompts[i], false)
  {
    forall i | 0 <= i < |SuggestedPrompts|
      ensures HasNonWhitespace(SuggestedPrompts[i])
    {
      var p := SuggestedPrompts[i];
      // The last character of each prompt is a letter.
      assert !IsWhitespace(p[|p| - 1]) by {
        if i == 0 {} else if i == 1 {} else if i == 2 {} else if i == 3 {} else if i == 4 {} else {}
      }
    }
  }
}
