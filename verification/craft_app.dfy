/** The page's prompt state: the prompt being typed and the final prompt
    shown, and what sending does to them. */
module CraftApp {

  import Text

  /** The prompt being typed and the final prompt. */
  datatype PromptState = PromptState(prompt: string, finalPrompt: string)

  /** The final prompt before anything is sent. */
  const InitialFinalPrompt := "A futuristic cityscape at night, neon lights reflecting on wet streets, flying vehicles, diverse people walking, high-resolution, cinematic lighting"

  /** The page as first shown: nothing typed, the initial final prompt. */
  const InitialState := PromptState("", InitialFinalPrompt)

  /** `handleSendPrompt`: a prompt that is blank once trimmed is ignored;
      any other becomes the final prompt exactly as typed, and the input is
      cleared. */
  function SendPrompt(st: PromptState): (r: PromptState)
    ensures Text.AllSpace(st.prompt) ==> r == st
    ensures !Text.AllSpace(st.prompt) ==> r.finalPrompt == st.prompt && r.prompt == ""
  {
    Text.TrimEmptyIffAllSpace(st.prompt);
    if Text.Trim(st.prompt) != "" then PromptState("", st.prompt) else st
  }

  /** Sending twice in a row is sending once. */
  lemma SendTwiceIsSendOnce(st: PromptState)
    ensures SendPrompt(SendPrompt(st)) == SendPrompt(st)
  {
    assert Text.AllSpace("");
  }

  /** Sending changes the state exactly when the typed prompt has a character
      that is not white space, and the final prompt keeps surrounding space. */
  lemma SendChangesIffNonBlank(st: PromptState)
    ensures SendPrompt(st) != st <==> exists i :: 0 <= i < |st.prompt| && !Text.IsSpace(st.prompt[i])
  {
  }

  /** Nothing typed leaves the initial final prompt; a typed prompt with
      surrounding space replaces it untrimmed. */
  lemma SendExamples()
    ensures SendPrompt(InitialState) == InitialState
    ensures SendPrompt(PromptState("  ", InitialFinalPrompt)) == PromptState("  ", InitialFinalPrompt)
    ensures SendPrompt(PromptState(" a cat ", InitialFinalPrompt)) == PromptState("", " a cat ")
  {
    assert Text.AllSpace("  ");
    assert !Text.IsSpace(" a cat "[1]);
  }
}
