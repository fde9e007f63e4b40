/**
 * The application shell: the current scene document, the in-flight flag, the
 * last error and the code-view flag, and the events that change them. The
 * awaited generator call is split into two events, its start and its completion.
 */
module AppShell {
  import opened Wrappers
  import opened SceneTypes
  import opened JsText
  import SceneConstants
  import opened PromptInputControl

  const GenerationFailedMessage: string := "Failed to generate scene. Please try again."

  /** How an awaited generator call ends: with a document, or failing with a message. */
  datatype GenerationResult = Generated(scene: SceneData) | Failed(message: string)

  /**
   * `err.message || "Failed to generate scene. Please try again."`: the message
   * shown for a failure is never empty. A missing message is the empty string.
   */
  function ErrorText(message: string): (r: string)
    ensures r != []
    ensures message != [] ==> r == message
    ensures message == [] ==> r == GenerationFailedMessage
  {
    if message != [] then message else GenerationFailedMessage
  }

  // ---------------------------------------------------------------------------
  // The shell's state and its transitions

  datatype AppState = AppState(
    sceneData: SceneData,
    isGenerating: bool,
    error: Option<string>,
    showCode: bool)

  /** The default document, not generating, no error, code view hidden. */
  const InitialState: AppState := AppState(SceneConstants.DefaultScene, false, None, false)

  /** While a generation is in flight no error is shown, and a shown error is never empty. */
  predicate Consistent(s: AppState) {
    && (s.isGenerating ==> s.error == None)
    && (s.error.Some? ==> s.error.value != [])
  }

  /** The start of `handleGenerate`: generating, error cleared. */
  function Begin(s: AppState): (r: AppState)
    ensures r.isGenerating && Consistent(r)
    ensures r.sceneData == s.sceneData && r.showCode == s.showCode
  {
    s.(isGenerating := true, error := None)
  }

  /** The end of `handleGenerate`: store the document or the error, then stop generating. */
  function Complete(s: AppState, result: GenerationResult): (r: AppState)
    ensures !r.isGenerating && r.showCode == s.showCode
    ensures Consistent(s) ==> Consistent(r)
    ensures result.Failed? ==> r.sceneData == s.sceneData && r.error.Some?
  {
    var t := match result
      case Generated(doc) => s.(sceneData := doc)
      case Failed(message) => s.(error := Some(ErrorText(message)));
    t.(isGenerating := false)
  }

  /** A suggestion click starts a generation only when none is in flight. */
  function SuggestionClicked(s: AppState): (r: AppState)
    ensures r.isGenerating
    ensures s.isGenerating ==> r == s
    ensures !s.isGenerating ==> r.error == None
  {
    if s.isGenerating then s else Begin(s)
  }

  /** The code-view flag flips; toggling back restores the state. */
  function Toggled(s: AppState): (r: AppState)
    ensures r.showCode != s.showCode
    ensures r.(showCode := s.showCode) == s
  {
    s.(showCode := !s.showCode)
  }

  lemma InitialIsConsistent()
    ensures Consistent(InitialState)
    ensures InitialState.sceneData == SceneConstants.DefaultScene
    ensures !InitialState.isGenerating && InitialState.error == None && !InitialState.showCode
  {
  }

  /** Every transition keeps the shell consistent. */
  lemma TransitionsKeepConsistent(s: AppState, result: GenerationResult)
    requires Consistent(s)
    ensures Consistent(Begin(s))
    ensures Consistent(Complete(s, result))
    ensures Consistent(SuggestionClicked(s))
    ensures Consistent(Toggled(s))
  {
  }

  /**
   * A whole generation, start to completion: on success the document is replaced
   * wholesale and no error is shown; on failure the document stays and the
   * failure's message (or the fallback) is shown; either way it ends not generating.
   */
  lemma GenerationOutcome(s: AppState, result: GenerationResult)
    ensures var r := Complete(Begin(s), result);
      && !r.isGenerating
      && r.showCode == s.showCode
      && (result.Generated? ==> r.sceneData == result.scene && r.error == None)
      && (result.Failed? ==> r.sceneData == s.sceneData && r.error == Some(ErrorText(result.message)))
  {
  }

  /** A suggestion clicked while generating changes nothing. */
  lemma SuggestionWhileGeneratingIgnored(s: AppState)
    requires s.isGenerating
    ensures SuggestionClicked(s) == s
  {
  }

  /** Toggling changes only the code-view flag, and toggling twice restores the state. */
  lemma ToggleOnlyFlipsShowCode(s: AppState)
    ensures Toggled(s).showCode == !s.showCode
    ensures Toggled(s).(showCode := s.showCode) == s
    ensures Toggled(Toggled(s)) == s
  {
  }

  /** The code view is independent of generation: toggling commutes with both events. */
  lemma ToggleCommutesWithGeneration(s: AppState, result: GenerationResult)
    ensures Toggled(Begin(s)) == Begin(Toggled(s))
    ensures Toggled(Complete(s, result)) == Complete(Toggled(s), result)
  {
  }

  // ---------------------------------------------------------------------------
  // Traces of user events and completions

  /** A submit from the prompt input with its current text, a suggestion click,
      the completion of the call in flight, or the code-view button. */
  datatype Event =
    | Submit(text: string)
    | Suggest(prompt: string)
    | Finish(result: GenerationResult)
    | ToggleView

  /** Whether an event hands a prompt to the generator. */
  predicate Starts(s: AppState, e: Event) {
    match e
    case Submit(text) => CanSubmit(text, s.isGenerating)
    case Suggest(_) => !s.isGenerating
    case _ => false
  }

  function Step(s: AppState, e: Event): AppState {
    match e
    case Submit(text) => if CanSubmit(text, s.isGenerating) then Begin(s) else s
    case Suggest(_) => SuggestionClicked(s)
    case Finish(result) => Complete(s, result)
    case ToggleView => Toggled(s)
  }

  /** The state after `events`, with the number of generator calls still awaited. */
  function Replay(s: AppState, pending: nat, events: seq<Event>): (AppState, nat)
    decreases |events|
  {
    if events == [] then (s, pending)
    else
      var e := events[0];
      var p := if Starts(s, e) then pending + 1 else if e.Finish? && pending > 0 then pending - 1 else pending;
      Replay(Step(s, e), p, events[1..])
  }

  /** A completion arrives only for a call that is awaited. */
  predicate WellFormed(s: AppState, pending: nat, events: seq<Event>)
    decreases |events|
  {
    events != [] ==>
      var e := events[0];
      && (e.Finish? ==> pending > 0)
      && var p := if Starts(s, e) then pending + 1 else if e.Finish? then pending - 1 else pending;
         WellFormed(Step(s, e), p, events[1..])
  }

  /**
   * At most one generation is ever in flight, and the in-flight flag says
   * exactly whether one is: the guards in front of `handleGenerate` keep a
   * second call from starting while the first is awaited.
   */
  lemma {:induction false} AtMostOneInFlight(s: AppState, pending: nat, events: seq<Event>)
    requires pending <= 1 && (s.isGenerating <==> pending == 1)
    requires Consistent(s)
    requires WellFormed(s, pending, events)
    ensures var (t, p) := Replay(s, pending, events);
      p <= 1 && (t.isGenerating <==> p == 1) && Consistent(t)
    decreases |events|
  {
    if events != [] {
      var e := events[0];
      var p := if Starts(s, e) then pending + 1 else if e.Finish? && pending > 0 then pending - 1 else pending;
      TransitionsKeepConsistent(s, if e.Finish? then e.result else Failed(""));
      AtMostOneInFlight(Step(s, e), p, events[1..]);
    }
  }

  // ---------------------------------------------------------------------------
  // The shell component

  class App {
    var sceneData: SceneData
    var isGenerating: bool
    var error: Option<string>
    var showCode: bool

    function State(): AppState
      reads this
    {
      AppState(sceneData, isGenerating, error, showCode)
    }

    constructor ()
      ensures State() == InitialState
    {
      sceneData := SceneConstants.DefaultScene;
      isGenerating := false;
      error := None;
      showCode := false;
    }

    /** `handleGenerate` up to the awaited call; `request` is the prompt handed to the generator. */
    method BeginGeneration(prompt: string) returns (request: string)
      modifies this
      ensures State() == Begin(old(State()))
      ensures request == prompt
    {
      isGenerating := true;
      error := None;
      request := prompt;
    }

    /** `handleGenerate` after the awaited call: the `try`, `catch` and `finally` branches. */
    method CompleteGeneration(result: GenerationResult)
      modifies this
      ensures State() == Complete(old(State()), result)
    {
      match result {
        case Generated(doc) =>
          sceneData := doc;
        case Failed(message) =>
          error := Some(ErrorText(message));
      }
      isGenerating := false;
    }

    /** `handleGenerate` run to its end, with `result` the generator's answer to `prompt`. */
    method HandleGenerate(prompt: string, result: GenerationResult) returns (request: string)
      modifies this
      ensures State() == Complete(Begin(old(State())), result)
      ensures request == prompt
    {
      request := BeginGeneration(prompt);
      CompleteGeneration(result);
    }

    /** A suggestion button: `!isGenerating && handleGenerate(p)`. */
    method ClickSuggestion(prompt: string) returns (request: Option<string>)
      modifies this
      ensures State() == SuggestionClicked(old(State()))
      ensures request.Some? <==> !old(isGenerating)
      ensures request.Some? ==> request.value == prompt
    {
      if !isGenerating {
        var p := BeginGeneration(prompt);
        request := Some(p);
      } else {
        request := None;
      }
    }

    /** The prompt input submits (button or Enter) with this shell's in-flight flag. */
    method SubmitPrompt(input: PromptInput) returns (request: Option<string>)
      modifies this
      ensures request.Some? <==> HasNonWhitespace(input.text) && !old(isGenerating)
      ensures request.Some? ==> request.value == input.text
      ensures State() == if request.Some? then Begin(old(State())) else old(State())
    {
      var generated := input.HandleSubmit(isGenerating);
      if generated.Some? {
        var p := BeginGeneration(generated.value);
        request := Some(p);
      } else {
        request := None;
      }
    }

    /** The code-view button: `setShowCode(!showCode)`. */
    method ToggleCode()
      modifies this
      ensures State() == Toggled(old(State()))
    {
      showCode := !showCode;
    }
  }
}
