/**
 * The prompt input control: its text state, the submit guard, the Enter-key
 * handler and the disabled conditions of the send button and the text area.
 */
module PromptInputControl {
  import opened Wrappers
  import opened JsText

  /** `text.trim() && !isGenerating`: a submit goes through. */
  predicate CanSubmit(text: string, isGenerating: bool): (r: bool)
    ensures r ==> HasNonWhitespace(text) && !isGenerating
  {
    Trim(text) != [] && !isGenerating
  }

  /** The guard holds exactly when the text has a non-white-space character and nothing is in flight. */
  lemma CanSubmitIff(text: string, isGenerating: bool)
    ensures CanSubmit(text, isGenerating) <==> HasNonWhitespace(text) && !isGenerating
  {
  }

  /** `!text.trim() || isGenerating`: the send button is disabled exactly when a submit would not go through. */
  function SendButtonDisabled(text: string, isGenerating: bool): (r: bool)
    ensures r <==> !CanSubmit(text, isGenerating)
    ensures r <==> !HasNonWhitespace(text) || isGenerating
  {
    Trim(text) == [] || isGenerating
  }

  /** The text area is disabled exactly while a generation is in flight. */
  function TextareaDisabled(isGenerating: bool): (r: bool)
    ensures r <==> isGenerating
  {
    isGenerating
  }

  /** Whatever the text, a disabled text area comes with a disabled send button. */
  lemma TextareaLocksButton(text: string, isGenerating: bool)
    requires TextareaDisabled(isGenerating)
    ensures SendButtonDisabled(text, isGenerating)
  {
  }

  class PromptInput {
    var text: string

    constructor ()
      ensures text == ""
    {
      text := "";
    }

    /** `onChange`: the only way `text` is replaced. */
    method OnChange(value: string)
      modifies this
      ensures text == value
    {
      text := value;
    }

    /**
     * `handleSubmit`: calls `onGenerate` with the untrimmed text exactly when the
     * text has a non-white-space character and nothing is in flight. The text stays.
     */
    method HandleSubmit(isGenerating: bool) returns (generated: Option<string>)
      ensures generated.Some? <==> HasNonWhitespace(text) && !isGenerating
      ensures generated.Some? ==> generated.value == text
      ensures generated.Some? <==> !SendButtonDisabled(text, isGenerating)
    {
      if Trim(text) != [] && !isGenerating {
        generated := Some(text);
      } else {
        generated := None;
      }
    }

    /** `handleKeyDown`: Enter without Shift prevents the default and submits; other keys do nothing. */
    method HandleKeyDown(key: string, shiftKey: bool, isGenerating: bool)
      returns (preventDefault: bool, generated: Option<string>)
      ensures preventDefault <==> key == "Enter" && !shiftKey
      ensures generated.Some? <==> preventDefault && HasNonWhitespace(text) && !isGenerating
      ensures generated.Some? ==> generated.value == text
    {
      if key == "Enter" && !shiftKey {
        preventDefault := true;
        generated := HandleSubmit(isGenerating);
      } else {
        preventDefault := false;
        generated := None;
      }
    }

    /** A click reaches `handleSubmit` only while the button is enabled. */
    method Click(isGenerating: bool) returns (generated: Option<string>)
      ensures generated.Some? <==> HasNonWhitespace(text) && !isGenerating
      ensures generated.Some? ==> generated.value == text
    {
      if SendButtonDisabled(text, isGenerating) {
        generated := None;
      } else {
        generated := HandleSubmit(isGenerating);
      }
    }
  }
}
