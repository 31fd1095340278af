/** app/services/ai_service.py: the Gemini wrapper. It embeds the message and
    the conversation history in a fixed prompt, takes the first candidate's
    first part, strips it and caps it at one SMS (160 characters), and turns
    every failure into a fixed fallback sentence. The SDK call is the
    nondeterministic input `ModelOutcome`. */
module AiService {
  import opened Wrappers
  import opened Text

  /** One SMS: the cap on a reply's length. */
  const SmsLength: nat := 160
  const Ellipsis: string := "..."
  /** Characters kept from an over-long reply before the ellipsis. */
  const KeptLength: nat := SmsLength - |Ellipsis|

  const Unavailable: string := "Sorry, I'm currently unavailable. Please try again later."
  const Rephrase: string := "I'm having trouble understanding. Could you rephrase?"
  const TechnicalError: string := "Technical error. Please try again."

  datatype Part = Part(text: string)
  datatype Candidate = Candidate(parts: seq<Part>)

  /** `rating.probability.name` of a safety rating. */
  datatype Probability = Negligible | Low | Medium | High | Unspecified

  datatype PromptFeedback = PromptFeedback(safetyRatings: seq<Probability>)

  /** What `model.generate_content(prompt)` did: raised, or returned
      candidates and (when truthy) prompt feedback. */
  datatype ModelOutcome =
    | ModelRaised
    | ModelResponse(candidates: seq<Candidate>, feedback: Option<PromptFeedback>)

  /** `response.candidates[0].content.parts[0].text`, when the guard
      `response.candidates and response.candidates[0].content.parts` holds. */
  function FirstText(outcome: ModelOutcome): Option<string>
  {
    if outcome.ModelResponse? && |outcome.candidates| > 0 && |outcome.candidates[0].parts| > 0
    then Some(outcome.candidates[0].parts[0].text)
    else None
  }

  /** The SMS-friendly cap (lines 51-55): an over-long reply keeps its first
      157 characters and gains "...". */
  function CapForSms(t: string): (r: string)
    ensures |r| <= SmsLength
    ensures |t| <= SmsLength <==> r == t
    ensures |t| > SmsLength ==> |r| == SmsLength && StartsWith(r, t[..KeptLength]) && EndsWith(r, Ellipsis)
  {
    if |t| > SmsLength then t[..KeptLength] + Ellipsis else t
  }

  /** Capping a capped reply changes nothing. */
  lemma CapIdempotent(t: string)
    ensures CapForSms(CapForSms(t)) == CapForSms(t)
  {
  }

  /** The fixed instructions that open every prompt, up to the history. */
  const PromptHead: string :=
    "You are an AI SMS Learning Tutor for skilled artisans and workers in Nairobi, Kenya.\n\n"
    + "Your role:\n"
    + "- Help with work-related questions, business advice, and skill development\n"
    + "- Provide practical solutions for craftspeople, technicians, and small business owners\n"
    + "- Keep responses SHORT (under 160 characters for SMS)\n"
    + "- Be encouraging, supportive, and culturally aware\n"
    + "- Focus on actionable advice that works in Nairobi context\n"
    + "- Use simple, clear language\n\n"
    + "Conversation history:\n"
  const PromptMiddle: string := "\n\nCurrent message: "
  const PromptTail: string := "\n\nProvide a helpful, concise SMS response (max 160 characters):"

  /** The prompt of lines 29-44: the fixed template filled with the
      conversation history and the current message. */
  datatype PromptFill = PromptFill(history: string, message: string)

  /** The text the model receives for a filled template. */
  function RenderPrompt(p: PromptFill): (text: string)
    ensures StartsWith(text, PromptHead)
    ensures |PromptHead| + |p.history| <= |text|
    ensures text[|PromptHead|..|PromptHead| + |p.history|] == p.history
    ensures var at := |PromptHead| + |p.history| + |PromptMiddle|;
            at + |p.message| <= |text| && text[at..at + |p.message|] == p.message
  {
    var text := PromptHead + p.history + PromptMiddle + p.message + PromptTail;
    assert text[..|PromptHead|] == PromptHead;
    assert text[|PromptHead|..|PromptHead| + |p.history|] == p.history;
    var at := |PromptHead| + |p.history| + |PromptMiddle|;
    assert text[at..at + |p.message|] == p.message;
    text
  }

  /** The prompt sent to the model, if any, and the reply returned. */
  datatype Generation = Generation(prompt: Option<PromptFill>, reply: string)

  /** `AIService.generate_response(message_text, conversation_history)`. */
  function GenerateResponse(initialized: bool, message: string, history: string, outcome: ModelOutcome): (g: Generation)
    ensures |g.reply| <= SmsLength
    ensures !initialized ==> g == Generation(None, Unavailable)
    ensures initialized ==> g.prompt == Some(PromptFill(history, message))
    ensures initialized && outcome.ModelRaised? ==> g.reply == TechnicalError
    ensures initialized && outcome.ModelResponse? && FirstText(outcome).None? ==> g.reply == Rephrase
    ensures initialized && FirstText(outcome).Some? ==>
              g.reply == CapForSms(Strip(FirstText(outcome).value))
  {
    if !initialized then Generation(None, Unavailable)
    else
      var prompt := PromptFill(history, message);
      match outcome
      case ModelRaised => Generation(Some(prompt), TechnicalError)
      case ModelResponse(_, _) =>
        match FirstText(outcome)
        case Some(text) => Generation(Some(prompt), CapForSms(Strip(text)))
        case None => Generation(Some(prompt), Rephrase)
  }

  /** A model reply of at most 160 characters after stripping reaches the
      caller exactly as stripped; a longer one is cut to exactly 160. */
  lemma ModelTextReturned(message: string, history: string, text: string)
    ensures var g := GenerateResponse(true, message, history, ModelResponse([Candidate([Part(text)])], None));
            && (|Strip(text)| <= SmsLength ==> g.reply == Strip(text))
            && (|Strip(text)| > SmsLength ==> |g.reply| == SmsLength && EndsWith(g.reply, "..."))
  {
  }
}
