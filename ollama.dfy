/** The client for a locally running language-model endpoint: its two
    settings, the prompt it wraps around the user's words, and the canned
    offline reply it falls back to whenever the call does not succeed. The
    HTTP exchange itself is not modelled: its outcome is a parameter. */
module Ollama {
  import opened Util
  import opened Text

  const DefaultBaseUrl: string := "http://localhost:11434"
  const DefaultModel: string := "llama2"

  /** The body POSTed to `/api/generate`. */
  datatype GenerateRequest = GenerateRequest(model: string, prompt: string, stream: bool)

  /** How the generate call ended: a response with its `ok` status and the
      `response` field of its JSON body, or an exception (network failure,
      unreadable body). */
  datatype HttpReply =
    | Answered(ok: bool, response: string)
    | Threw

  // ---------------------------------------------------------------------
  // The prompt

  const PromptOpening: string := "You are an expert movie budgeting " + "assistant. You help filmmakers "

  const PromptRemit: string := "create" + " and manage budgets for their projects.\n\n"

  const PromptHead: string :=
    PromptOpening + (PromptRemit
    + ("Context: You have access to industry-standard movie budgeting categories and can provide intelligent recommendations.\n\n"
    + "User input: "))

  const PromptTail: string :=
    "\n\nPlease provide a helpful, professional response that includes:\n"
    + ("- Clear explanations\n"
    + "- Industry best practices\n"
    + "- Specific recommendations when appropriate\n"
    + "- Professional tone\n\n"
    + "Response:")

  /** `formatPrompt`: the fixed preamble, the input verbatim, the fixed suffix. */
  function FormatPrompt(userInput: string): string
  {
    PromptHead + userInput + PromptTail
  }

  /** Reads the user's input back out of a formatted prompt. */
  function UserInputOf(prompt: string): Option<string>
  {
    if |PromptHead| + |PromptTail| <= |prompt|
       && prompt[..|PromptHead|] == PromptHead
       && prompt[|prompt| - |PromptTail|..] == PromptTail
    then Some(prompt[|PromptHead|..|prompt| - |PromptTail|])
    else None
  }

  /** The input sits verbatim between preamble and suffix: it can be read
      back from the prompt, so different inputs give different prompts. */
  lemma PromptRoundTrip(userInput: string)
    ensures UserInputOf(FormatPrompt(userInput)) == Some(userInput)
  {
    var p := FormatPrompt(userInput);
    assert p[..|PromptHead|] == PromptHead;
    assert p[|p| - |PromptTail|..] == PromptTail;
    assert p[|PromptHead|..|p| - |PromptTail|] == userInput;
  }

  lemma FormatPromptInjective(a: string, b: string)
    requires FormatPrompt(a) == FormatPrompt(b)
    ensures a == b
  {
    PromptRoundTrip(a);
    PromptRoundTrip(b);
  }

  // ---------------------------------------------------------------------
  // The offline fallback

  const TemplateAdviceText: string :=
    "I'd be happy to help you "
    + ("create a budget template! \n\n"
    + "For a feature film, I recommend starting with these categories:\n"
    + "• Above the Line (Director, Producer, Cast)\n"
    + "• Production (Equipment, Location, Props)\n"
    + "• Post-Production (Editing, VFX, Sound)\n"
    + "• Other (Insurance, Legal, Marketing)\n"
    + "• Contingency (Emergency Fund)\n\n"
    + "Would you like me to create a detailed template for your specific project type?")

  const AnalysisRequestText: string :=
    "I can help you analyze your budget! \n\n"
    + ("To provide the best analysis, I'll need to know:\n"
    + "• Your total budget vs. actual spending\n"
    + "• Which categories are over/under budget\n"
    + "• Your project timeline and scope\n\n"
    + "Would you like me to analyze your current budget data?")

  const RecommendationsText: string :=
    "Here are some general movie "
    + ("budgeting recommendations:\n\n"
    + "1. **Always include a contingency fund** (10-15% of total budget)\n"
    + "2. **Track actual vs. budgeted amounts** regularly\n"
    + "3. **Break down large expenses** into smaller, manageable items\n"
    + "4. **Consider post-production costs** early in planning\n"
    + "5. **Plan for unexpected expenses** in each category\n\n"
    + "What specific aspect would you like advice on?")

  const CatchAllHead: string := "I understand you're asking about \""

  const CatchAllTail: string :=
    "\". \n\n"
    + ("As a movie budgeting assistant, I can help you with:\n"
    + "• Creating budget templates\n"
    + "• Analyzing spending patterns\n"
    + "• Providing industry recommendations\n"
    + "• Organizing categories and subcategories\n"
    + "• Tracking variances and trends\n\n"
    + "What specific aspect of movie budgeting would you like to explore?")

  /** The catch-all reply, quoting the input as the user typed it. */
  function CatchAllText(userInput: string): string
  {
    CatchAllHead + userInput + CatchAllTail
  }

  predicate AsksForTemplate(lower: string)
  {
    Contains(lower, "template") || Contains(lower, "create")
  }

  predicate AsksForAnalysis(lower: string)
  {
    Contains(lower, "analyze") || Contains(lower, "report")
  }

  predicate AsksForAdvice(lower: string)
  {
    Contains(lower, "recommend") || Contains(lower, "advice")
  }

  /** `getFallbackResponse`: the first rule matching the lower-cased input
      picks one of four canned paragraphs. */
  function FallbackResponse(userInput: string): string
  {
    var lower := Lower(userInput);
    if AsksForTemplate(lower) then TemplateAdviceText
    else if AsksForAnalysis(lower) then AnalysisRequestText
    else if AsksForAdvice(lower) then RecommendationsText
    else CatchAllText(userInput)
  }

  /** The four replies are told apart by their third character, so the
      reply names the rule that fired: each reply is given exactly when its
      rule is the first to match. */
  lemma FallbackIdentifiesRule(userInput: string)
    ensures FallbackResponse(userInput) == TemplateAdviceText <==> AsksForTemplate(Lower(userInput))
    ensures FallbackResponse(userInput) == AnalysisRequestText <==>
      !AsksForTemplate(Lower(userInput)) && AsksForAnalysis(Lower(userInput))
    ensures FallbackResponse(userInput) == RecommendationsText <==>
      !AsksForTemplate(Lower(userInput)) && !AsksForAnalysis(Lower(userInput)) && AsksForAdvice(Lower(userInput))
    ensures FallbackResponse(userInput) == CatchAllText(userInput) <==>
      !AsksForTemplate(Lower(userInput)) && !AsksForAnalysis(Lower(userInput)) && !AsksForAdvice(Lower(userInput))
  {
    assert TemplateAdviceText[2] == 'd';
    assert AnalysisRequestText[2] == 'c';
    assert RecommendationsText[2] == 'r';
    assert CatchAllText(userInput)[2] == 'u';
  }

  /** The catch-all reply quotes the original input, not its lower-cased form. */
  lemma CatchAllQuotesInput(userInput: string)
    ensures OccursAt(CatchAllText(userInput), userInput, |CatchAllHead|)
  {
    assert CatchAllText(userInput)[|CatchAllHead|..|CatchAllHead| + |userInput|] == userInput;
  }

  /** `generateResponse` without its network exchange: the body's `response`
      field on success, otherwise the fallback for the raw input. */
  function ResponseText(userInput: string, reply: HttpReply): string
  {
    if reply.Answered? && reply.ok then reply.response else FallbackResponse(userInput)
  }

  /** The preamble says "create" at offset 65, where its remit begins. */
  lemma PreambleSaysCreate()
    ensures 71 <= |PromptHead|
    ensures forall k :: 0 <= k < 6 ==> PromptHead[65 + k] == "create"[k]
  {
    assert |PromptOpening| == 65;
    assert PromptRemit[..6] == "create";
    forall k | 0 <= k < 6
      ensures PromptHead[65 + k] == "create"[k]
    {
      assert PromptHead[65 + k] == PromptRemit[k];
    }
  }

  /** Why the fallback must classify the raw input: the preamble itself
      says "create", so every formatted prompt would get the template
      advice. */
  lemma FormattedPromptAlwaysAsksForTemplate(userInput: string)
    ensures FallbackResponse(FormatPrompt(userInput)) == TemplateAdviceText
  {
    var p := FormatPrompt(userInput);
    var lower := Lower(p);
    PreambleSaysCreate();
    forall k | 0 <= k < 6
      ensures lower[65 + k] == "create"[k]
    {
      assert p[65 + k] == PromptHead[65 + k];
    }
    assert lower[65..71] == "create";
    assert OccursAt(lower, "create", 65);
  }

  /** The service object: where the endpoint lives and which model to ask. */
  class OllamaService {
    var baseUrl: string
    var model: string

    /** The arguments default (when omitted) to the local endpoint and llama2. */
    constructor (baseUrl: Option<string>, model: Option<string>)
      ensures this.baseUrl == if baseUrl.Some? then baseUrl.value else DefaultBaseUrl
      ensures this.model == if model.Some? then model.value else DefaultModel
    {
      this.baseUrl := if baseUrl.Some? then baseUrl.value else DefaultBaseUrl;
      this.model := if model.Some? then model.value else DefaultModel;
    }

    method SetModel(model: string)
      modifies this
      ensures this.model == model && baseUrl == old(baseUrl)
    {
      this.model := model;
    }

    method SetBaseUrl(url: string)
      modifies this
      ensures baseUrl == url && model == old(model)
    {
      baseUrl := url;
    }

    /** `generateResponse(prompt, model?)`: sends the formatted prompt to the
        given model (or, when that is missing or empty, the configured one)
        without streaming, and answers with the body's `response` on success
        and with the offline fallback for the raw prompt on any failure. */
    method GenerateResponse(prompt: string, modelOverride: Option<string>, reply: HttpReply)
      returns (request: GenerateRequest, text: string)
      ensures request.prompt == FormatPrompt(prompt) && !request.stream
      ensures request.model == if modelOverride.Some? && modelOverride.value != "" then modelOverride.value else model
      ensures reply.Answered? && reply.ok ==> text == reply.response
      ensures !(reply.Answered? && reply.ok) ==> text == FallbackResponse(prompt)
      ensures text == ResponseText(prompt, reply)
    {
      var chosen := if modelOverride.Some? && modelOverride.value != "" then modelOverride.value else model;
      request := GenerateRequest(chosen, FormatPrompt(prompt), false);
      match reply {
        case Answered(ok, response) =>
          if ok {
            text := response;
          } else {
            text := FallbackResponse(prompt);
          }
        case Threw =>
          text := FallbackResponse(prompt);
      }
    }
  }
}
