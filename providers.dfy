/**
 * Provider selection (`getAIClient`) and the hybrid provider, which sends copy
 * generation and refinement to Claude and image analysis to Gemini.
 */
module Providers {
  import opened JsRuntime
  import opened ReplyText
  import opened AiTypes
  import Gemini
  import Anthropic

  datatype Provider = AnthropicProvider | GeminiProvider | HybridProvider

  /** `getAIClient()`, given `process.env.AI_PROVIDER`. */
  function GetAIClient(aiProvider: Option<string>): (p: Provider)
    ensures p == GeminiProvider <==> aiProvider.Some? && Lower(aiProvider.value) == "gemini"
    ensures p == HybridProvider <==> aiProvider.Some? && Lower(aiProvider.value) == "hybrid"
  {
    var provider := if aiProvider.Some? then Some(Lower(aiProvider.value)) else None;
    if provider == Some("gemini") then GeminiProvider
    else if provider == Some("hybrid") then HybridProvider
    else AnthropicProvider
  }

  /** Selection ignores the case of the variable: "GEMINI" and "gemini" choose the same provider. */
  lemma SelectionIgnoresCase(name: string)
    ensures GetAIClient(Some(name)) == GetAIClient(Some(Lower(name)))
  {
    assert Lower(Lower(name)) == Lower(name);
  }

  /** An unset or unknown variable falls back to Claude. */
  lemma DefaultsToClaude(aiProvider: Option<string>)
    requires aiProvider.Some? ==> Lower(aiProvider.value) != "gemini" && Lower(aiProvider.value) != "hybrid"
    ensures GetAIClient(aiProvider) == AnthropicProvider
  {
  }

  /** What the outside services answer during one operation. */
  datatype Services = Services(claude: ClaudeCall, gemini: nat -> Gemini.CallOutcome, parse: Parser)

  /**
   * `provider.generateCopy(params)`. Only the Gemini provider builds a prompt
   * that can throw; otherwise an error is one that a call or round threw.
   */
  function GenerateCopy(p: Provider, context: CopyContext, s: Services): (r: Result<Json>)
    ensures p == GeminiProvider && context.platform == Some("app_store") && context.category.None? ==>
              r == Err(ReadError("undefined", "toLowerCase"))
    ensures p == GeminiProvider && r.Err? && Gemini.SystemPrompt(context).Ok? ==>
              exists n: nat :: Gemini.CopyRound(context.language, s.gemini, s.parse, n) == Gemini.Threw(r.message)
    ensures p != GeminiProvider && s.claude.ClaudeThrows? ==> r == Err(s.claude.message)
  {
    match p
    case GeminiProvider =>
      var prompt := Gemini.SystemPrompt(context);
      if prompt.Err? then Err(prompt.message)
      else
        Gemini.CopyErrorsComeFromRounds(context.language, s.gemini, s.parse, 0, 0);
        Gemini.CopyRounds(context.language, s.gemini, s.parse, 0, 0).0
    case _ => Anthropic.GenerateCopy(s.claude, s.parse)
  }

  /** `provider.refineText(params)`: Gemini fails only when every model failed, Claude with the SDK's error. */
  function RefineText(p: Provider, s: Services): (r: Result<string>)
    ensures p == GeminiProvider && r.Err? ==> r == Err(Gemini.ALL_MODELS_FAILED)
    ensures p != GeminiProvider && s.claude.ClaudeThrows? ==> r == Err(s.claude.message)
    ensures p != GeminiProvider && s.claude.ClaudeReplied? ==> (r.Err? <==> s.claude.reply.content == [])
  {
    match p
    case GeminiProvider => Gemini.RefineText(s.gemini, 0)
    case _ => Anthropic.RefineText(s.claude)
  }

  /** `provider.analyzeImage(file)`: Claude for the Claude provider, Gemini for the other two. */
  function AnalyzeImage(p: Provider, s: Services): (r: Result<Json>)
    ensures p != AnthropicProvider && r.Err? ==> r == Err(Gemini.ALL_MODELS_FAILED) || r == Err(Gemini.INVALID_JSON)
    ensures p == AnthropicProvider && s.claude.ClaudeThrows? ==> r == Err(s.claude.message)
    ensures p == AnthropicProvider && s.claude.ClaudeReplied? && s.claude.reply.content == [] ==> r == Err(EMPTY_CONTENT_ERROR)
  {
    match p
    case AnthropicProvider => Anthropic.AnalyzeImage(s.claude, s.parse)
    case _ => Gemini.AnalyzeImage(s.gemini, 0, s.parse)
  }

  /** The hybrid provider answers like Claude for copy and refinement and like Gemini for image analysis. */
  lemma HybridDelegates(context: CopyContext, s: Services)
    ensures GenerateCopy(HybridProvider, context, s) == GenerateCopy(AnthropicProvider, context, s)
    ensures RefineText(HybridProvider, s) == RefineText(AnthropicProvider, s)
    ensures AnalyzeImage(HybridProvider, s) == AnalyzeImage(GeminiProvider, s)
  {
  }

  /** Every provider's refined text comes back trimmed. */
  lemma RefinedTextTrimmed(p: Provider, s: Services)
    ensures var r := RefineText(p, s);
            r.Ok? ==> r.value == "" || (!IsWhite(r.value[0]) && !IsWhite(r.value[|r.value| - 1]))
  {
    if p == GeminiProvider {
      var r := Gemini.RefineText(s.gemini, 0);
      assert RefineText(p, s) == r;
    } else {
      var r := Anthropic.RefineText(s.claude);
      assert RefineText(p, s) == r;
    }
  }
}
