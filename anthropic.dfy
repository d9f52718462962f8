/**
 * The Claude provider: one Messages API call per operation, no retries; the
 * reply's first block becomes the result through the shared fence stripper.
 */
module Anthropic {
  import opened JsRuntime
  import opened ReplyText
  import opened AiTypes
  import opened CopyQuality
  import Gemini

  const MODEL := "claude-sonnet-4-5"

  /** The banned lists of this provider's quality check: Gemini's without "다운로드하세요" and "download now". */
  const BANNED := BannedLists(
    ["혁신적", "최고의", "놀라운", "소개합니다"],
    ["revolutionary", "amazing", "best ever", "excited to", "game-changer"])

  /** `generateCopy`: the parsed reply, thrown errors passed on. */
  function GenerateCopy(call: ClaudeCall, parse: Parser): (r: Result<Json>)
    ensures call.ClaudeThrows? ==> r == Err(call.message)
    ensures call.ClaudeReplied? && call.reply.content == [] ==> r == Err(EMPTY_CONTENT_ERROR)
  {
    ParseReply(call, parse)
  }

  /** A reply whose first block is not text is parsed as "{}", not rejected. */
  lemma NonTextReplyParsesEmptyObject(rest: seq<ContentBlock>, parse: Parser)
    ensures GenerateCopy(ClaudeReplied(Reply([OtherBlock] + rest)), parse) == parse("{}")
  {
    assert StripFences("") == "";
  }

  /** A reply fenced as json yields the body, whatever the body is, when it is backtick-free and non-empty. */
  lemma FencedReplyParsesBody(body: string, rest: seq<ContentBlock>, parse: Parser)
    requires NoBacktick(body) && body != ""
    ensures GenerateCopy(ClaudeReplied(Reply([TextBlock(OPEN_FENCE + body + CLOSE_FENCE)] + rest)), parse) == parse(body)
  {
    FenceRoundTrip(body);
  }

  /** `refineText`: the first block's text trimmed, or "" when that block is not text. */
  function RefineText(call: ClaudeCall): (r: Result<string>)
    ensures call.ClaudeThrows? ==> r == Err(call.message)
    ensures call.ClaudeReplied? ==> (r.Err? <==> call.reply.content == [])
    ensures r.Ok? ==> r.value == "" || (!IsWhite(r.value[0]) && !IsWhite(r.value[|r.value| - 1]))
    ensures r.Ok? && call.reply.content[0].OtherBlock? ==> r.value == ""
  {
    match call
    case ClaudeThrows(m) => Err(m)
    case ClaudeReplied(reply) =>
      if reply.content == [] then Err(EMPTY_CONTENT_ERROR)
      else match reply.content[0]
        case TextBlock(t) => Ok(Trim(t))
        case OtherBlock => Ok("")
  }

  /** `analyzeImage`: the parsed reply, like `generateCopy`. */
  function AnalyzeImage(call: ClaudeCall, parse: Parser): (r: Result<Json>)
    ensures call.ClaudeThrows? ==> r == Err(call.message)
    ensures call.ClaudeReplied? && call.reply.content == [] ==> r == Err(EMPTY_CONTENT_ERROR)
  {
    ParseReply(call, parse)
  }

  /** `validateCopyQuality` of this provider (present in the class although nothing calls it). */
  function ValidateCopyQuality(generated: Json, context: CopyContext): Result<Quality> {
    QualityOf(generated, context.language, BANNED)
  }

  /** Copy that passes Gemini's check passes this one: its banned lists are Gemini's with words removed. */
  lemma GeminiCheckIsStricter(generated: Json, context: CopyContext)
    ensures QualityOf(generated, context.language, Gemini.BANNED).Ok? && QualityOf(generated, context.language, Gemini.BANNED).value.passed
            ==> ValidateCopyQuality(generated, context).Ok? && ValidateCopyQuality(generated, context).value.passed
  {
    assert Gemini.BANNED == BannedLists(BANNED.korean + ["다운로드하세요"], BANNED.english + ["download now"]);
    MoreBannedWordsStricter(generated, context.language, BANNED, ["다운로드하세요"], ["download now"]);
  }

  /** A word with a character the text lacks does not occur in it. */
  lemma AbsentCharacter(text: string, word: string, i: nat)
    requires i < |word| && forall k | 0 <= k < |text| :: text[k] != word[i]
    ensures !Contains(text, word)
  {
    forall k: nat | k <= |text| ensures !OccursAt(text, word, k) {
      assert k + |word| > |text| || text[k + i] != word[i];
    }
  }

  /** "download now" is banned by Gemini's check only. */
  function DownloadNowSlide(): Json {
    JArr([JObj(map["headline" := JStr("Download now"), "subtext" := JStr("")])])
  }

  lemma DownloadNowText()
    ensures SlideText(Some(JStr("Download now")), Some(JStr(""))) == "download now "
  {
  }

  /** On the one-slide copy every check is about which English words occur in "download now ". */
  lemma DownloadNowQuality(lists: BannedLists)
    ensures QualityOf(DownloadNowSlide(), None, lists).Ok?
    ensures QualityOf(DownloadNowSlide(), None, lists).value.passed <==>
            forall w | w in lists.english :: !Contains("download now ", Lower(w))
  {
    var item := DownloadNowSlide().items[0];
    DownloadNowText();
    var items := DownloadNowSlide().items;
    assert ItemIssues(item, false, lists.english).Ok?;
    assert items[1..] == [];
    assert ItemsIssues(items, false, Words(lists, false)).Ok?;
    SlidesPassIff(DownloadNowSlide().items, None, lists);
    assert SlideAcceptable(item, false, lists.english) <==>
           forall w | w in lists.english :: !Contains("download now ", Lower(w));
  }

  lemma ClaudeCheckAllowsDownloadNow()
    ensures ValidateCopyQuality(DownloadNowSlide(), CopyContext(None, None, None, None, None, None, None, None)) == Ok(Quality(true, []))
  {
    var text := "download now ";
    AbsentCharacter(text, Lower("revolutionary"), 0);
    AbsentCharacter(text, Lower("amazing"), 1);
    AbsentCharacter(text, Lower("best ever"), 0);
    AbsentCharacter(text, Lower("excited to"), 0);
    AbsentCharacter(text, Lower("game-changer"), 0);
    DownloadNowQuality(BANNED);
  }

  lemma GeminiCheckRejectsDownloadNow()
    ensures QualityOf(DownloadNowSlide(), None, Gemini.BANNED).Ok?
    ensures !QualityOf(DownloadNowSlide(), None, Gemini.BANNED).value.passed
  {
    var text := "download now ";
    assert OccursAt(text, Lower("download now"), 0) by { assert text[0..12] == Lower("download now"); }
    assert "download now" in Gemini.BANNED.english;
    DownloadNowQuality(Gemini.BANNED);
  }

  /** The reference line of `getSystemPrompt`: like Gemini's chain, but with no finance line. */
  function Benchmark(category: Option<string>): (b: Gemini.Benchmark)
    ensures b != Gemini.FinanceBench
    ensures category != Some("finance") ==> b == Gemini.BenchmarkFor(category)
  {
    if category == Some("finance") then Gemini.GenericBench else Gemini.BenchmarkFor(category)
  }

  /** Which prompt `getOptimizedPrompts` (and the unused `getSystemPrompt`) writes. */
  datatype PromptChoice = PromptChoice(appStore: bool, korean: bool)

  function OptimizedPrompts(context: CopyContext): (r: PromptChoice)
    ensures r.appStore <==> context.platform == Some("app_store")
    ensures r.korean <==> Gemini.PromptKorean(context.language)
  {
    PromptChoice(context.platform == Some("app_store"), Gemini.PromptKorean(context.language))
  }

  /**
   * Both providers pick the same prompt family and language for the same
   * context; where Gemini's prompt throws (an App Store call without a
   * category) Claude still writes its App Store prompt.
   */
  lemma ProvidersPickSamePrompt(context: CopyContext)
    ensures Gemini.SystemPrompt(context).Ok? ==>
              OptimizedPrompts(context).appStore == Gemini.SystemPrompt(context).value.AppStorePrompt?
              && OptimizedPrompts(context).korean == Gemini.SystemPrompt(context).value.korean
    ensures Gemini.SystemPrompt(context).Err? ==> OptimizedPrompts(context).appStore && context.category.None?
  {
  }
}
