# GenShape 3D: a Dafny model of its scene interpreter and UI state

GenShape 3D turns a text prompt into a declarative 3D scene document (objects
built from seven primitive shapes, four material kinds, three light kinds,
simple animations), obtained from a hosted language model, and renders that
document in a 3D viewport. This project models the repository's own logic:

- `scene_types.dfy` (module `SceneTypes`): the scene document schema of
  `types.ts` as datatypes, and the mapping between each enum and its string.
  `name`, `roughness`, `metalness` and `opacity` are `Option`s, because the
  schema sent to the service does not require them. The document field `type`
  of an object or light is called `shape` / `kind` here.
- `scene_renderer.dfy` (module `SceneRenderer`): the interpreter of
  `components/SceneRenderer.tsx` as pure functions (geometry per shape,
  material properties with their defaults, the material branch, mesh and
  light elements), the per-frame animation step as a pure function
  `Animate`, and the mutable mesh state (`MeshState`) and component instance
  (`AnimatedObject`: hover flag, mesh reference) as classes whose methods are
  proved against those functions.
- `js_text.dfy` (module `JsText`): JavaScript's `String.prototype.trim`, on
  which the prompt guard relies, with the white-space set of ECMAScript.
- `prompt_input.dfy` (module `PromptInputControl`): the prompt input of
  `components/PromptInput.tsx`: its `text` state, the submit guard, the
  Enter-key handler, the button and text-area `disabled` conditions.
- `constants.dfy` (module `SceneConstants`): `DEFAULT_SCENE` and
  `SUGGESTED_PROMPTS` of `constants.ts`, with lemmas checking them against
  the schema's invariants and the prompt guard.
- `app.dfy` (module `AppShell`): the shell of `App.tsx`. The class `App`
  holds `sceneData`, `isGenerating`, `error` and `showCode`; its methods are
  proved against pure transitions on `AppState`. The awaited generator call is
  two events: `BeginGeneration` and `CompleteGeneration` with a
  `GenerationResult` (a document, or a failure message). Traces of events
  (`Replay`) show that at most one generation is ever in flight.
- `wrappers.dfy` (module `Wrappers`): the `Option` datatype.

Inputs the code takes from its environment are parameters: the generator's
answer (`GenerationResult`), `sin(elapsedTime)` and `sin(2·elapsedTime)`
(`FrameClock`), the frame delta (unused, as in the source), the key and Shift
state of a key press, and the set of object ids the pointer is over.

The code looks a shape up in a table (an unknown one gives no geometry) and
sends every material other than `physical` and `normal` to the standard
material; the model's typed documents cannot hold such strings.

## Model

| member | source | states |
|---|---|---|
| SceneTypes.ParseShape | types.ts:2-10 | a parsed shape prints back to the same string; exactly the seven shape names are accepted, every other string is rejected |
| SceneTypes.ShapeRoundTrip | types.ts:2-10 | printing a shape and parsing it back gives the same shape |
| SceneTypes.ShapeNameInjective | types.ts:2-10 | two shapes with the same name are the same shape |
| SceneTypes.ShapeName | types.ts:2-10 | each shape prints as one of the seven names; `ShapeRoundTrip` and `ShapeNameInjective` show the printing is inverted by `ParseShape` and one-to-one |
| SceneTypes.ParseMaterial | types.ts:12-17 | a parsed material prints back to the same string; exactly the four material names are accepted |
| SceneTypes.MaterialRoundTrip | types.ts:12-17 | printing a material and parsing it back gives the same material |
| SceneTypes.MaterialName | types.ts:12-17 | each material prints as one of the four names; `MaterialRoundTrip` shows `ParseMaterial` inverts it |
| SceneTypes.ParseLightKind | types.ts:43 | a light kind is exactly one of `ambient`, `directional`, `point`; every other string is rejected |
| SceneTypes.LightKindRoundTrip | types.ts:43 | printing a light kind and parsing it back gives the same kind |
| SceneTypes.LightKindName | types.ts:43 | each light kind prints as one of the three `type` strings; `LightKindRoundTrip` shows `ParseLightKind` inverts it |
| SceneTypes.NameSetSizes | types.ts:2-17 | there are exactly seven shape names, four material names and three light-kind names |
| JsText.LeadingWhitespace | components/PromptInput.tsx:13 | the count of leading characters `trim` removes: all of them white space, the next one not |
| JsText.TrailingWhitespaceStart | components/PromptInput.tsx:13 | where the trailing white space `trim` removes begins: all after it white space, the one before not |
| JsText.Trim | components/PromptInput.tsx:13 | `text.trim()` is empty exactly when the text has no non-white-space character; otherwise it begins and ends with one |
| JsText.TrimIdempotent | components/PromptInput.tsx:13 | trimming twice is trimming once |
| JsText.TrimKeepsInner | components/PromptInput.tsx:13 | a string without surrounding white space is unchanged by `trim` |
| SceneRenderer.GeometryFor | components/SceneRenderer.tsx:39-47 | each shape has one geometry element named after it, whose leading size is 1 for the box and 0.5 (a radius) for all others |
| SceneRenderer.GeometryForInjective | components/SceneRenderer.tsx:39-47 | different shapes never get the same geometry |
| SceneRenderer.GeometryTable | components/SceneRenderer.tsx:39-47 | the fixed argument list of each of the seven geometries |
| SceneRenderer.ResolveProps | components/SceneRenderer.tsx:49-56 | absent roughness and metalness become 0.5 and absent opacity 1, present values pass through; transparent exactly when the effective opacity is below 1; white while hovered, the object's colour otherwise; wireframe exactly for the `wireframe` material |
| SceneRenderer.SelectMaterial | components/SceneRenderer.tsx:70-76 | `physical` gives the physical material with clear coat 1 and clear-coat roughness 0.1, `normal` the normal material never in wireframe, `standard` and `wireframe` the standard material, each carrying the resolved properties |
| SceneRenderer.WireframeOnlyForWireframe | components/SceneRenderer.tsx:55-76 | whatever the branch, the rendered material draws only edges exactly when the material is `wireframe` |
| SceneRenderer.NormalMaterialIgnoresHover | components/SceneRenderer.tsx:72-73 | the normal material takes no colour, so hovering does not change it |
| SceneRenderer.RenderObject | components/SceneRenderer.tsx:58-77 | the mesh is keyed by the object's id, carries the document's position, rotation and scale, casts and receives shadows, has the geometry named after its shape, and draws only edges exactly for `wireframe`; `SelectMaterial` gives its material |
| SceneRenderer.RenderObjects | components/SceneRenderer.tsx:92-94 | one mesh per object, in order, keyed by the object's id, with the geometry of its shape and the material for its hover state |
| SceneRenderer.LightElement | components/SceneRenderer.tsx:99-102 | a light type string that names no kind renders nothing; otherwise the element carries the entry's intensity and colour, only `directional` casts shadows, and only `ambient` ignores the position |
| SceneRenderer.RenderLightsFrom | components/SceneRenderer.tsx:98-103 | one light element per entry, in order, each the element of its kind's string, keyed by its index |
| SceneRenderer.RenderLights | components/SceneRenderer.tsx:98-103 | one light per entry, keyed by index, with its intensity and colour; it casts shadows exactly when directional, is ambient exactly when the entry is, is a point light exactly when the entry is, and every non-ambient light carries the entry's position |
| SceneRenderer.RenderScene | components/SceneRenderer.tsx:59-103 | the scene takes the document's background; one mesh per object, in order, keyed by its id, with the document's position, rotation and scale, casting and receiving shadows, with its shape's geometry and the material for its hover state; one light per entry, keyed by its index, with the entry's intensity and colour, casting shadows exactly when directional, ambient exactly when the entry is, a point light exactly when the entry is, and every non-ambient light at the entry's position |
| SceneRenderer.EmptySceneRenders | components/SceneRenderer.tsx:91-103 | a document without objects and lights renders no mesh and no light |
| SceneRenderer.MeshKeysUnique | components/SceneRenderer.tsx:93 | the mesh keys are distinct exactly when the document's object ids are |
| SceneRenderer.Animate | components/SceneRenderer.tsx:15-37 | one frame leaves x and z of the position alone, moves nothing without `float` and scales nothing without `pulse`; `AnimateRotation`, `AnimateFloat` and `AnimatePulse` give the new values and `MeshState.FrameStep` performs it in place |
| SceneRenderer.AnimateRotation | components/SceneRenderer.tsx:18-21 | one frame adds each axis's speed to that axis; an absent or zero speed leaves the axis unchanged |
| SceneRenderer.AnimateFloat | components/SceneRenderer.tsx:23-26 | `float` sets only the height, to the base height plus 0.2·sin(t); without it the position stays |
| SceneRenderer.AnimatePulse | components/SceneRenderer.tsx:28-36 | `pulse` sets the three scale axes to the base scale times one shared factor 1 + 0.1·sin(2t); without it the scale stays |
| SceneRenderer.FloatExtremes | components/SceneRenderer.tsx:25 | at sin(t) = 0 a floating object is at its base height, at sin(t) = 1 it is 0.2 above it |
| SceneRenderer.PulseExtremes | components/SceneRenderer.tsx:30-35 | at sin(2t) = 0 the multiplier is 1, at sin(2t) = 1 it is 1.1 |
| SceneRenderer.Run | components/SceneRenderer.tsx:15-37 | over any run of frames, x and z of the position never change, and without `float` or `pulse` the position or scale stays; `RunRotation` and `RunOverwritesFromBase` give the rest |
| SceneRenderer.RunRotation | components/SceneRenderer.tsx:15-21 | after n frames each rotation axis has advanced by n times its speed, whatever the elapsed time: rotation depends on the frame count |
| SceneRenderer.RunOverwritesFromBase | components/SceneRenderer.tsx:24-36 | after any frames, position and scale depend only on the last frame and the document's base values, so they never drift |
| SceneRenderer.MeshState.constructor | components/SceneRenderer.tsx:59-63 | a mesh starts with the object's position, rotation and scale |
| SceneRenderer.MeshState.FrameStep | components/SceneRenderer.tsx:15-37 | the in-place frame update leaves the mesh in the transform `Animate` gives for the old transform; the frame delta is not used |
| SceneRenderer.AnimatedObject.constructor | components/SceneRenderer.tsx:12-13 | a component instance starts not hovered and with no mesh attached |
| SceneRenderer.AnimatedObject.Mount | components/SceneRenderer.tsx:59-63 | attaching the mesh gives it the object's transform and leaves the hover flag |
| SceneRenderer.AnimatedObject.PointerOver | components/SceneRenderer.tsx:66 | pointer-over sets the hover flag |
| SceneRenderer.AnimatedObject.PointerOut | components/SceneRenderer.tsx:67 | pointer-out clears the hover flag |
| SceneRenderer.AnimatedObject.Element | components/SceneRenderer.tsx:58-77 | the rendered mesh is keyed by the object's id and its material follows the current hover flag |
| SceneRenderer.AnimatedObject.Frame | components/SceneRenderer.tsx:15-16 | before the mesh is attached a frame does nothing; afterwards it performs the frame update |
| PromptInputControl.CanSubmit | components/PromptInput.tsx:13 | a submit goes through only for text with a non-white-space character while nothing is in flight; `CanSubmitIff` gives the converse |
| PromptInputControl.CanSubmitIff | components/PromptInput.tsx:13 | the submit guard holds exactly when the text has a non-white-space character and no generation is in flight |
| PromptInputControl.SendButtonDisabled | components/PromptInput.tsx:40 | the send button is disabled exactly when a submit would not go through: whitespace-only text or a generation in flight |
| PromptInputControl.TextareaDisabled | components/PromptInput.tsx:36 | the text area is disabled exactly while generating |
| PromptInputControl.TextareaLocksButton | components/PromptInput.tsx:36-40 | whatever the text, while the text area is disabled the send button is disabled too |
| PromptInputControl.PromptInput.constructor | components/PromptInput.tsx:10 | the text starts empty |
| PromptInputControl.PromptInput.OnChange | components/PromptInput.tsx:34 | `onChange` replaces the text with the new value |
| PromptInputControl.PromptInput.HandleSubmit | components/PromptInput.tsx:12-16 | `onGenerate` is called exactly when the text has a non-white-space character and nothing is in flight, exactly when the button is enabled, and with the untrimmed text; the text is left unchanged |
| PromptInputControl.PromptInput.HandleKeyDown | components/PromptInput.tsx:18-23 | Enter without Shift prevents the default and submits; Shift+Enter and other keys do neither |
| PromptInputControl.PromptInput.Click | components/PromptInput.tsx:38-40 | a click on the button reaches `onGenerate` exactly when the submit guard holds |
| SceneConstants.DefaultSceneObjects | constants.ts:12-21 | the default scene has exactly one object, `demo-cube`, a standard-material box, and its object ids are unique |
| SceneConstants.DefaultLightsOnePerKind | constants.ts:7-11 | the default lights are one ambient, one directional and one point light, the latter two with positions |
| SceneConstants.DefaultMaterialInRange | constants.ts:22-24 | the default object's roughness, metalness and opacity lie in [0, 1], and it renders non-transparent |
| SceneConstants.DefaultAnimation | constants.ts:25-29 | the default animation is rotateY 0.01, rotateX 0.005 and float, with no rotateZ and no pulse |
| SceneConstants.DefaultSceneRenders | constants.ts:3-32 | the default document renders exactly one mesh, keyed `demo-cube`, and an ambient light |
| SceneConstants.SuggestedPromptsPassGuard | constants.ts:34-41 | every suggested prompt has a non-white-space character and would pass the prompt guard |
| AppShell.ErrorText | App.tsx:23 | the error shown is the failure's message, or "Failed to generate scene. Please try again." when that is empty; never empty |
| AppShell.Begin | App.tsx:15-17 | starting a generation sets `isGenerating`, leaves a consistent state, and keeps the document and the code view; `TransitionsKeepConsistent` and `GenerationOutcome` relate it to the other events |
| AppShell.Complete | App.tsx:19-26 | a completion ends generating, keeps the code view and the invariant, and on failure keeps the document and shows an error; `GenerationOutcome` gives both outcomes in full |
| AppShell.SuggestionClicked | App.tsx:97 | after a suggestion click a generation is in flight; while one already was, nothing changes, otherwise the error is cleared; `SuggestionWhileGeneratingIgnored` restates the no-op case |
| AppShell.Toggled | App.tsx:110 | the toggle flips `showCode` and changes nothing else; `ToggleOnlyFlipsShowCode` and `ToggleCommutesWithGeneration` relate it to the other events |
| AppShell.InitialIsConsistent | App.tsx:10-13 | the initial state is the default scene, not generating, no error, code view hidden |
| AppShell.TransitionsKeepConsistent | App.tsx:15-27 | every event keeps the invariant: no error while generating, and a shown error is never empty |
| AppShell.GenerationOutcome | App.tsx:15-27 | a generation ends not generating; on success the document is replaced wholesale and no error is shown; on failure the document stays and the error text is shown |
| AppShell.SuggestionWhileGeneratingIgnored | App.tsx:97 | a suggestion clicked while generating changes nothing |
| AppShell.ToggleOnlyFlipsShowCode | App.tsx:110 | the code-view toggle flips only `showCode`, and toggling twice restores the state |
| AppShell.ToggleCommutesWithGeneration | App.tsx:110 | the code view is independent of generation: toggling commutes with starting and completing one |
| AppShell.AtMostOneInFlight | App.tsx:53-97 | over any sequence of submits, suggestion clicks, completions and toggles, at most one generator call is awaited, `isGenerating` is true exactly when one is, and the invariant holds |
| AppShell.App.constructor | App.tsx:10-13 | the shell starts in the initial state |
| AppShell.App.BeginGeneration | App.tsx:15-17 | starting a generation sets `isGenerating` and clears `error`, and hands the prompt to the generator |
| AppShell.App.CompleteGeneration | App.tsx:19-26 | the completion stores the document or the error text, then clears `isGenerating` |
| AppShell.App.HandleGenerate | App.tsx:15-27 | `handleGenerate` run to its end is the start followed by the completion |
| AppShell.App.ClickSuggestion | App.tsx:97 | a suggestion starts a generation with its prompt exactly when none is in flight, and otherwise changes nothing |
| AppShell.App.SubmitPrompt | App.tsx:53 | a submit from the prompt input starts a generation with the untrimmed text exactly when the text has a non-white-space character and none is in flight, and otherwise changes nothing |
| AppShell.App.ToggleCode | App.tsx:110 | the code-view button flips `showCode` and nothing else |

## Left out

- The generator service (`services/geminiService.ts`): the network call, the credential read from the environment, the fixed system instruction and schema, the empty-response check and the unchecked `JSON.parse`. The model takes the generator's answer as a `GenerationResult` parameter: a document or a failure message.
- JSON parsing and serialisation: the raw-JSON code view (`JSON.stringify`) and any check that a generated document is well formed. The model's documents are typed, so vectors have three components and shapes and materials are enum values by construction.
- Shape and material strings outside the enums: the source's behaviour on them (no geometry; the standard material) is not represented, since the document is typed. For lights, `SceneRenderer.LightElement` models the dispatch on the raw `type` string, including the branch that renders nothing.
- Trigonometry and floating point: `sin(elapsedTime)` and `sin(2·elapsedTime)` are given as real parameters, and all arithmetic is on reals (no rounding, no NaN). A NaN speed, which JavaScript treats as false, has no counterpart.
- The rendering engine and its fixed decorations (canvas, camera, environment, contact shadows, grid, stars, orbit controls): foreign library components.
- Re-rendering: the engine applying changed `position`/`rotation`/`scale` props to a mounted mesh is not modelled; a mesh takes the document's transform when it is attached.
- Hover state is per component instance; `RenderObjects` takes it as the set of hovered object ids, so in the model two objects that share an id share one hover flag (hovering one hovers both), where the source keeps a separate flag per instance.
- Async scheduling: a generation is two events, its start and its completion; there is no cancellation or timeout in the source either.
- Layout and styling, the inert Share button and the unused `GenerationState` type.
- JsText.Trim: its contract states when the result is empty and that it begins and ends with a non-white-space character, not that it is exactly the middle part of the input (its body computes that part from `LeadingWhitespace` and `TrailingWhitespaceStart`).
- SceneRenderer.GeometryFor: its contract states the element name and the leading size; the remaining arguments are stated by `SceneRenderer.GeometryTable`.
