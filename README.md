# ScreenCopy AI: a verified model of the generation, credit and editing core

ScreenCopy AI turns an app screenshot and a short context form into marketing
copy. This can be App Store slide copy (an array of headline/subtext
variants) or a "ghostwriter" week of social threads (an object holding a
`weekly_batch`). Users spend one credit per generation. Credits are bought
through a Stripe checkout, and a test route grants a bonus.

This project models the parts of the Next.js code base that decide things:

- **The generate route.** In order, it runs:
  - the input guards;
  - the optimistic credit charge;
  - the screenshot upload;
  - the bounded Claude retry loop with its shape check;
  - the weaker check after the loop;
  - the non-fatal auto-design step;
  - the insert and ledger entry;
  - the compensating refund.

  It is written as imperative methods over a `Ledger` (credits, transactions
  and generations tables) and a storage `Bucket`. Each method is proved
  equal to a functional specification, and the guarantees are proved about
  that specification.
- **The AI providers.** For Gemini:
  - the retry-and-model-fallback wrapper;
  - the validate-and-regenerate loop;
  - `extractJSON`;
  - the category examples;
  - prompt selection.

  For Claude, the reply parsing. Both providers share the quality validator
  and the language tests. The provider selection (`getAIClient`) and the
  hybrid routing are modelled too.
- **The code-fence stripper.** This is `replace(/```json\n|\n```/g, '') || '{}'`,
  written as the left-to-right scan it performs.
- **The other routes.** These are the Stripe webhook, the test add-credits
  route, and the refine, refine-tweet, analyze-image and generate-preview
  routes. Each keeps its own guard order, its `||` defaults and its fixed
  messages.
- **Small pure pieces:**
  - `adjustColor` channel arithmetic, including `parseInt`, the 32-bit
    shifts, the clamping, `toString(16)` and `padStart`;
  - the device and template tables and their lookups;
  - the context form's schema.
- **Client-side state.** These are the generate page, the history page, the
  weekly schedule view and the preview editor. Each is a class whose
  methods change its fields as the React handlers change component state.

Foreign calls become inputs: the LLM SDKs, Supabase, Stripe's signature
check, `fetch`, `JSON.parse` and the clock. These are an outcome, a scripted
function from call number to outcome, or a `Parser` function over strings.
`JsRuntime` gives the JavaScript semantics the code relies on:
- a JSON value type;
- truthiness and `||`;
- property reads that throw on `null`;
- `in`;
- `for…of`;
- `toLowerCase`, `indexOf`, `trim`, `String(n)`, `Number(s)`;
- `find` and `join`.

Modules follow the source files. `js_runtime`, `ai_types`, `http`,
`supabase` and `ui` are shared. `reply_text` holds the fence stripper and
reply parsing. `copy_quality` and `language` hold the validator and the
language tests shared by both providers. Every other file is named after
the source file it models.

## Model

| member | source | states |
|---|---|---|
| AiTypes.StringsToJson | src/types/generation.ts:11 | the encoded tweet list has one JSON string per tweet, in order |
| AiTypes.ThreadsToJson | src/types/generation.ts:7-12 | the encoded batch has one object per thread, in order |
| AiTypes.OutputToJson | src/types/generation.ts:14-17 | an encoded ghostwriter output is an object with `design_config` and `weekly_batch` keys |
| AiTypes.AnalysisToJson | src/lib/ai/types.ts:32-41 | an encoded image analysis is an object whose every member is a string |
| AiTypes.AnalysisOf | src/lib/ai/types.ts:32-41 | a parsed value is an `ImageAnalysisResult` exactly when it is an object with a string under each of the eight keys; the result carries those strings |
| AiTypes.AnalysisRoundTrip | src/lib/ai/types.ts:32-41 | round trip: reading an encoded image analysis gives it back |
| Http.ErrorJson | src/app/api/generate/route.ts:38-40 | an error response has the given status and a body whose only key is `error`, holding the message |
| JsRuntime.Or | src/app/api/generate/route.ts:286 | `a \|\| b` is `a` when `a` is truthy and `b` otherwise |
| JsRuntime.OrString | src/app/api/generate/route.ts:286 | on a string, `s \|\| d` is `s` exactly when `s` is non-empty |
| JsRuntime.Member | src/app/generate/page.tsx:64 | reading a property throws exactly on `null`; on an object it is the key's value or `undefined` |
| JsRuntime.HasKey | src/app/generate/page.tsx:133 | `key in v` throws exactly when `v` is not an object or array |
| JsRuntime.Iterate | src/lib/ai/gemini.ts:792 | `for…of` visits an array's items in order and throws exactly on values that are neither arrays nor strings |
| JsRuntime.Lower | src/lib/ai/client.ts:8 | lower-casing keeps the length and maps each character |
| JsRuntime.IndexOf | src/lib/ai/gemini.ts:20 | `indexOf` gives the first occurrence at or after `from`, and `None` only when there is none |
| JsRuntime.LastIndexOf | src/app/api/generate/route.ts:79 | the index of the last occurrence of a character, and `None` only when it does not occur |
| JsRuntime.LastSegment | src/app/api/generate/route.ts:79 | `split('.').pop()` is the dot-free suffix after the last '.', or the whole name when there is no '.' |
| JsRuntime.TrimStart | src/lib/ai/anthropic.ts:109 | only leading white space is removed, and the result does not start with white space |
| JsRuntime.TrimEnd | src/lib/ai/anthropic.ts:109 | only trailing white space is removed, and the result does not end with white space |
| JsRuntime.NatToString | src/app/api/stripe/checkout/route.ts:28 | `String(n)` is a non-empty run of decimal digits |
| JsRuntime.NumberOf | src/app/api/stripe/webhook/route.ts:32 | `Number(s)` of a blank string is 0 |
| JsRuntime.NumberOfPrefixed | src/app/api/stripe/webhook/route.ts:32 | `Number` reads "0x…", "0o…" and "0b…" digits in base 16, 8 and 2, and a sign in front of such a prefix gives `NaN` |
| JsRuntime.DigitsOfNat | src/app/api/stripe/checkout/route.ts:28 | the digits `String(n)` writes have the value `n` |
| JsRuntime.NumberOfDigits | src/app/api/stripe/webhook/route.ts:32 | `Number` of a run of digits is its decimal value |
| JsRuntime.NumberOfNatToString | src/app/api/stripe/webhook/route.ts:32 | round trip: `Number(String(n)) == n` |
| JsRuntime.FindByKey | src/lib/devices.ts:183-185 | `find` returns an element with the key, and none earlier in the list has it; it returns `undefined` exactly when no element has it |
| JsRuntime.FindUniqueKey | src/lib/devices.ts:183-185 | with distinct keys, finding an element's own key returns that element |
| JsRuntime.JoinCons | src/components/weekly-schedule-view.tsx:84 | joining `[x] ++ xs` is `x` followed by the separator and the join of `xs`, or just `x` when `xs` is empty |
| JsRuntime.JoinContainsParts | src/components/weekly-schedule-view.tsx:84 | every part occurs in the joined text |
| JsRuntime.FindAfterEdit | src/components/weekly-schedule-view.tsx:161-163 | finding by day after a map that keeps days gives the mapped version of what was found before |
| ReplyText.FirstBlockText | src/lib/ai/anthropic.ts:46-47 | reading the first block throws exactly when the reply has no blocks; a non-empty text means the first block is that text block |
| ReplyText.StripFences | src/lib/ai/anthropic.ts:48 | stripping never makes the text longer |
| ReplyText.CleanContent | src/lib/ai/anthropic.ts:48 | the cleaned text is never empty, and it is the stripped text whenever that text is non-empty |
| ReplyText.ParseReply | src/lib/ai/anthropic.ts:46-49 | SDK errors are passed on, an empty reply throws, and otherwise the parser receives the cleaned text of the first block |
| ReplyText.StripFencesNoBacktick | src/lib/ai/anthropic.ts:48 | text without a backtick is left unchanged |
| ReplyText.StripFencesBeforeClose | src/lib/ai/anthropic.ts:48 | a backtick-free body followed by the closing marker loses exactly the marker |
| ReplyText.FenceRoundTrip | src/lib/ai/anthropic.ts:48 | round trip: a backtick-free body wrapped in a json code fence strips back to the body, and cleans to the body or "{}" |
| ReplyText.LeftmostMarkerWins | src/lib/ai/anthropic.ts:48 | markers are removed leftmost first and never overlap |
| Anthropic.GenerateCopy | src/lib/ai/anthropic.ts:46-51 | SDK errors are passed on, and a reply with no content blocks throws |
| Anthropic.NonTextReplyParsesEmptyObject | src/lib/ai/anthropic.ts:46-51 | a first block that is not text is parsed as "{}", not rejected |
| Anthropic.FencedReplyParsesBody | src/lib/ai/anthropic.ts:46-51 | a json-fenced reply yields the parse of its body, with no shape check |
| Anthropic.RefineText | src/lib/ai/anthropic.ts:108-109 | SDK errors are passed on, the result is trimmed, it throws exactly on an empty reply, and it is "" for a non-text block |
| Anthropic.AnalyzeImage | src/lib/ai/anthropic.ts:160-163 | the same parsing as `generateCopy`: SDK errors are passed on and an empty reply throws |
| Anthropic.GeminiCheckIsStricter | src/lib/ai/anthropic.ts:744-797 | copy that passes Gemini's `validateCopyQuality` passes Claude's, because Claude's banned lists are Gemini's minus two words |
| Anthropic.DownloadNowQuality | src/lib/ai/anthropic.ts:744-797 | on a one-slide copy "Download now", whether the check passes depends only on which English banned words occur in "download now " |
| Anthropic.ClaudeCheckAllowsDownloadNow | src/lib/ai/anthropic.ts:766-768 | Claude's check passes "Download now" |
| Anthropic.GeminiCheckRejectsDownloadNow | src/lib/ai/gemini.ts:778-780 | Gemini's check rejects "Download now" |
| Anthropic.Benchmark | src/lib/ai/anthropic.ts:203-209 | Claude's benchmark line is never the finance one, and otherwise agrees with Gemini's chain |
| Anthropic.ProvidersPickSamePrompt | src/lib/ai/anthropic.ts:413-420 | for every context: where Gemini builds its prompt, Claude chooses the same family (App Store exactly for platform "app_store") and the same language; where Gemini's prompt throws (App Store without a category), Claude still writes its App Store prompt |
| Language.ValidationKoreanImpliesPromptKorean | src/lib/ai/gemini.ts:359 | whatever the validator treats as Korean, the prompt builders treat as Korean too |
| Language.HangulLanguageNameDisagrees | src/lib/ai/gemini.ts:761 | the converse fails: "한국어" gets the Korean prompt but the English limits |
| Language.LanguageTestsIgnoreCase | src/lib/ai/gemini.ts:359 | both language tests give the same answer for a language and its lower-cased form |
| Language.HangulTextDetected | src/lib/ai/gemini.ts:220 | the Hangul-range test finds Korean text and rejects English |
| CopyQuality.FindBanned | src/lib/ai/gemini.ts:777-787 | the loop collects exactly the banned words, lower-cased, that occur in the slide text, in list order |
| CopyQuality.CheckItem | src/lib/ai/gemini.ts:765-787 | the loop over one slide returns exactly the issues of its specification (lengths, then banned words) |
| CopyQuality.CheckThread | src/lib/ai/gemini.ts:792-802 | the loop over one thread returns exactly the issues of its specification (hook, then each tweet) |
| CopyQuality.Validate | src/lib/ai/gemini.ts:756-809 | the method computes the specification's result, and `passed` holds exactly when no issue was pushed |
| CopyQuality.BannedInEmptyIff | src/lib/ai/gemini.ts:783-787 | no banned-word issue arises exactly when no lower-cased banned word occurs in the text |
| CopyQuality.ItemIssuesEmptyIff | src/lib/ai/gemini.ts:765-787 | a slide raises no issue exactly when it is not `null`, its headline and subtext are within 15/30 (Korean) or 30/60, and no banned word occurs |
| CopyQuality.ItemsIssuesEmptyIff | src/lib/ai/gemini.ts:763-788 | a list of slides raises no issue exactly when every slide is acceptable |
| CopyQuality.SlidesPassIff | src/lib/ai/gemini.ts:763-808 | an array passes exactly when every slide is acceptable |
| CopyQuality.TweetIssuesEmptyIff | src/lib/ai/gemini.ts:797-801 | tweets raise no issue exactly when none is `null` and each is at most 240 long |
| CopyQuality.ThreadIssuesEmptyIff | src/lib/ai/gemini.ts:792-802 | a thread raises no issue exactly when it is not `null`, its hook is within 50 (Korean) or 60, and its tweets are iterable and acceptable |
| CopyQuality.ThreadsIssuesEmptyIff | src/lib/ai/gemini.ts:791-802 | a batch raises no issue exactly when every thread is acceptable |
| CopyQuality.BatchPassesIff | src/lib/ai/gemini.ts:789-808 | a non-array passes exactly when `weekly_batch \|\| []` is iterable and every thread in it is acceptable, so a missing batch passes |
| CopyQuality.NullThrows | src/lib/ai/gemini.ts:791 | validating `null` throws |
| CopyQuality.MoreBannedWordsStricter | src/lib/ai/gemini.ts:778-787 | monotonicity: adding banned words never lets more copy pass |
| Gemini.GenerateWithFallback | src/lib/ai/gemini.ts:60-92 | the nested model/attempt loop computes exactly the wrapper's specification: its answer and the calls it made |
| Gemini.ResumeAfterFailure | src/lib/ai/gemini.ts:75-87 | after a failed call the loop resumes the specification at the same model's next attempt (a retryable failure short of the third) or at the next model |
| Gemini.RunFromLength | src/lib/ai/gemini.ts:67-89 | at least one call for each model left and at most three each |
| Gemini.RunFromResult | src/lib/ai/gemini.ts:67-91 | the result is the first answer and every earlier call failed; with no answer it fails with 'All Gemini models failed after retries' |
| Gemini.RunFromDelays | src/lib/ai/gemini.ts:76-82 | a sleep follows only a retryable failure short of the third attempt and lasts 3000 ms times the attempt number |
| Gemini.FallbackFacts | src/lib/ai/gemini.ts:60-91 | the two-model wrapper makes between 1 and 6 calls, returns the first answer, and otherwise fails with its own message after only failures |
| Gemini.AllRetryableFailures | src/lib/ai/gemini.ts:67-91 | with only 503/429 failures, each model is tried three times, sleeping 3 s and 6 s, and the wrapper gives up |
| Gemini.NonRetryableFailures | src/lib/ai/gemini.ts:76-91 | a non-retryable failure moves to the next model at once, without sleeping |
| Gemini.Candidates | src/lib/ai/gemini.ts:18-27 | there are four patterns, tried in order |
| Gemini.ExtractJson | src/lib/ai/gemini.ts:16-48 | the pattern loop computes `extractJSON`'s specification |
| Gemini.ExtractFromFails | src/lib/ai/gemini.ts:28-47 | scanning the captures fails exactly when no capture and not the trimmed text parses, and then with 'Gemini returned invalid JSON format' |
| Gemini.ExtractFailsIff | src/lib/ai/gemini.ts:16-47 | extraction fails, with its own message, exactly when no usable capture and not the trimmed whole text parses |
| Gemini.ExtractFromFirstParsing | src/lib/ai/gemini.ts:28-38 | the first usable capture that parses is the result, ahead of every later candidate |
| Gemini.ExtractFencedJson | src/lib/ai/gemini.ts:20-33 | a json code fence around a backtick-free body yields the body's parse |
| Gemini.RunCopyRound | src/lib/ai/gemini.ts:195-200 | one round of the loop body computes the round's specification: the generated copy and whether it passed, or what was thrown |
| Gemini.GenerateCopy | src/lib/ai/gemini.ts:94-213 | the prompt is built first: when that throws, the error comes back and no round runs; otherwise the `while` loop computes the specification's copy and number of rounds |
| Gemini.CopyRoundsStep | src/lib/ai/gemini.ts:194-211 | a thrown round ends the loop with its error; a passing round or the second round ends it with that copy; otherwise it goes on |
| Gemini.FirstRoundPasses | src/lib/ai/gemini.ts:199-202 | a first copy that passes is the only round and is returned |
| Gemini.SecondCopyKeptEvenIfFailing | src/lib/ai/gemini.ts:204-213 | after two failed checks the second copy is returned without an error |
| Gemini.CopyErrorsComeFromRounds | src/lib/ai/gemini.ts:194-213 | an error comes only from a round that threw, and at most 2 rounds run |
| Gemini.RefineText | src/lib/ai/gemini.ts:286-287 | the wrapper's answer comes back trimmed; the only failure is the wrapper's own |
| Gemini.AnalyzeImage | src/lib/ai/gemini.ts:353-354 | it fails only with the wrapper's or `extractJSON`'s message |
| Gemini.CategoryExamples | src/lib/ai/gemini.ts:888-889 | the corrected lookup: a missing category throws, and anything else gives an example set in the requested language |
| Gemini.PrototypeKeyLeaksUndefined | src/lib/ai/gemini.ts:888-889 | the category "constructor" yields `undefined` as written, where productivity examples are intended |
| Gemini.CategoryExamplesAgree | src/lib/ai/gemini.ts:888-889 | apart from the two prototype keys, the as-written and corrected lookups agree |
| Gemini.CategoryCaseMismatch | src/lib/ai/gemini.ts:484-495 | "Productivity" gets productivity examples but the generic benchmark line |
| Gemini.SystemPrompt | src/lib/ai/gemini.ts:357-361 | the App Store prompt exactly for platform "app_store", Korean exactly by the prompt test; it throws only for an App Store call without a category, with the `toLowerCase` TypeError; its examples are `undefined` exactly for the categories "constructor" and "__proto__" (any case), and otherwise the intended example set |
| Gemini.PromptAndValidationDisagree | src/lib/ai/gemini.ts:359 | "한국어" selects the Korean prompt but not the Korean length limits |
| Providers.GetAIClient | src/lib/ai/client.ts:7-20 | Gemini exactly for a lower-cased "gemini", hybrid exactly for "hybrid", otherwise Claude |
| Providers.GenerateCopy | src/lib/ai/gemini.ts:94-101 | Gemini throws the prompt's TypeError for an App Store call without a category; any other Gemini error is one a round threw; Claude and the hybrid provider pass on the SDK's error |
| Providers.RefineText | src/lib/ai/hybrid.ts:25-28 | Gemini fails only when every model failed; Claude and the hybrid provider pass on the SDK's error and fail on a reply without content exactly |
| Providers.AnalyzeImage | src/lib/ai/hybrid.ts:33-36 | Gemini and the hybrid provider fail only with the wrapper's or `extractJSON`'s message; Claude passes on the SDK's error and rejects an empty reply |
| Providers.SelectionIgnoresCase | src/lib/ai/client.ts:8 | a name and its lower-cased form select the same provider |
| Providers.DefaultsToClaude | src/lib/ai/client.ts:18-19 | an unset or unknown name selects Claude |
| Providers.HybridDelegates | src/lib/ai/hybrid.ts:17-36 | the hybrid provider answers like Claude for copy and refinement and like Gemini for image analysis |
| Providers.RefinedTextTrimmed | src/lib/ai/anthropic.ts:109 | every provider's refined text comes back trimmed |
| GenerateRoute.Platform | src/app/api/generate/route.ts:105 | the platform defaults to "app_store", so it is never empty |
| GenerateRoute.AppStorePromptIff | src/app/api/generate/route.ts:105-151 | the App Store prompt is written exactly when the platform is missing, empty or "app_store"; any other value gets the ghostwriter prompt |
| GenerateRoute.PromptLanguage | src/app/api/generate/route.ts:117 | the prompt's language is the sent one when non-empty, and "English" otherwise |
| GenerateRoute.EvalAttempt | src/app/api/generate/route.ts:238-253 | an attempt is accepted exactly when its reply parses to a non-empty array or an object with `weekly_batch`; a rejection keeps what parsed |
| GenerateRoute.RunProviderLoop | src/app/api/generate/route.ts:208-262 | the `for` loop computes the loop's specification, with between 1 and 3 attempts |
| GenerateRoute.AfterLoop | src/app/api/generate/route.ts:264-266 | the post-loop check passes exactly for a truthy copy, and otherwise throws a non-empty message |
| GenerateRoute.LoopFromRejected | src/app/api/generate/route.ts:211-262 | when every remaining attempt is rejected, the loop runs to 3 attempts, sleeps 1000 and 2000 ms, and keeps the last copy that parsed and the last error |
| GenerateRoute.LoopExhausted | src/app/api/generate/route.ts:211-262 | three rejected attempts mean sleeps of 1000 and 2000 ms, the third attempt's error and the last parsed copy |
| GenerateRoute.LoopFromAccepted | src/app/api/generate/route.ts:211-262 | from any attempt, the loop stops at the first accepted one with its copy |
| GenerateRoute.LoopStopsAtFirstAccepted | src/app/api/generate/route.ts:211-262 | the loop stops at the first accepted attempt, keeps its copy, and sleeps 1000·(k+1) ms after each earlier attempt only |
| GenerateRoute.NothingParsedThrowsLastError | src/app/api/generate/route.ts:264-265 | when no attempt parsed, the route throws the third attempt's message, or the default one if that is empty |
| GenerateRoute.EmptyArrayPassesAfterLoop | src/app/api/generate/route.ts:243-266 | a reply "[]" rejected three times still passes the post-loop check and goes on as the copy |
| GenerateRoute.LeadingDigits | src/app/api/generate/route.ts:280 | the count is the length of the leading run of digits |
| GenerateRoute.StripTweetPrefix | src/app/api/generate/route.ts:280 | the result is a suffix of the tweet |
| GenerateRoute.TweetPrefixStripped | src/app/api/generate/route.ts:280 | "Tweet " plus one or more digits plus ": " is removed from the front |
| GenerateRoute.TweetWithoutNumberKept | src/app/api/generate/route.ts:280 | without digits after "Tweet " the tweet is kept whole |
| GenerateRoute.TweetWithoutColonKept | src/app/api/generate/route.ts:280 | digits not followed by ": " keep the tweet whole |
| GenerateRoute.LeadingDigitsOf | src/app/api/generate/route.ts:280 | a run of digits followed by a non-digit is counted exactly |
| GenerateRoute.Take | src/app/api/generate/route.ts:280 | `substring(0, n)` is the prefix of length `min(n, len)` |
| GenerateRoute.BentoItem | src/app/api/generate/route.ts:280 | a string tweet becomes at most 60 characters followed by "..."; anything else throws |
| GenerateRoute.BentoItems | src/app/api/generate/route.ts:280 | the items succeed exactly when every tweet is a string, with one item per tweet |
| GenerateRoute.Bento | src/app/api/generate/route.ts:280 | one bento item per tweet |
| GenerateRoute.BentoItemsOfStrings | src/app/api/generate/route.ts:280 | the items of encoded string tweets are the bento of those tweets |
| GenerateRoute.FindMonday | src/app/api/generate/route.ts:274 | a found thread is in the batch and has day "Monday" |
| GenerateRoute.FindMondayOfThreads | src/app/api/generate/route.ts:274 | on an encoded batch, `find` returns the first Monday thread |
| GenerateRoute.DesignRequest | src/app/api/generate/route.ts:273-287 | a design request has the subtitle "Monday: Origin Story" and at most four items |
| GenerateRoute.MondayDesign | src/app/api/generate/route.ts:276-287 | a request from the Monday thread has the fixed subtitle and at most four items |
| GenerateRoute.DesignRequestFound | src/app/api/generate/route.ts:273-287 | the request has the thread's hook, the bento of its first four tweets, and the accent colour or '#3B82F6' |
| GenerateRoute.DesignWithoutMonday | src/app/api/generate/route.ts:274-276 | a batch without a Monday thread requests no image |
| GenerateRoute.DesignWithMonday | src/app/api/generate/route.ts:273-287 | for a ghostwriter output, the request is its first Monday thread's hook, the bento of its first four tweets and the accent (default '#3B82F6') |
| GenerateRoute.DesignCheck | src/app/api/generate/route.ts:271 | the weekly test throws exactly for a non-object copy, and is true exactly for an object with `weekly_batch` |
| GenerateRoute.RouteGuards | src/app/api/generate/route.ts:25-76 | a body that is not a form answers 500 with the rejection's message; then a missing file gives 400, no user 401, no profile or no credit 403; none of them writes, and a failed charge throws with nothing changed and no refund |
| GenerateRoute.AfterChargeSucceedsIff | src/app/api/generate/route.ts:78-336 | after the charge, the route answers with copy exactly when every later step succeeds |
| GenerateRoute.RouteSucceedsIff | src/app/api/generate/route.ts:19-375 | copy is returned exactly when the guards and the charge pass and every later step succeeds |
| GenerateRoute.AfterChargeSuccess | src/app/api/generate/route.ts:269-336 | a success returns the loop's copy and the design step's image URL, and saves exactly that row |
| GenerateRoute.RouteSuccess | src/app/api/generate/route.ts:66-336 | a success spends one credit, appends one generation row with the returned copy and image URL, and logs −1 when that insert succeeds |
| GenerateRoute.AfterChargeFailure | src/app/api/generate/route.ts:338-373 | every failure after the charge is handled by the catch block's refund |
| GenerateRoute.RouteFailureRefunds | src/app/api/generate/route.ts:338-373 | a failure saves no generation; after the charge it answers 500 with the thrown message and restores the balance and logs a refund when the refund's calls succeed |
| GenerateRoute.Restore | src/app/api/generate/route.ts:338-373 | after a charge the catch block has the route's failure effect (the credit back and a refund logged when those calls succeed); it always answers 500 with the message or the fallback; without a charge nothing changes |
| GenerateRoute.StoreFailure | src/app/api/generate/route.ts:79-100 | storing fails exactly unless the form value is a file, its upload under the storage key succeeds, and fetching it back is OK |
| GenerateRoute.StoreScreenshot | src/app/api/generate/route.ts:79-100 | the upload is named `userId/now.ext`; the bucket gains exactly that object when the upload succeeded, even if the fetch after it fails, and nothing otherwise |
| GenerateRoute.GenerateAndSave | src/app/api/generate/route.ts:206-336 | the steps after storing compute their specification; the bucket gains exactly the rendered image when a checked copy reaches the design step and it succeeds |
| GenerateRoute.AfterCharge | src/app/api/generate/route.ts:78-336 | storing, generating, designing, saving and logging compute the after-charge specification, and the bucket gains exactly the uploads those steps made, on failures as on success |
| GenerateRoute.CheckedCopy | src/app/api/generate/route.ts:264-271 | the copy survives exactly when it passes the post-loop check and the weekly test, and it is then an array or an object |
| GenerateRoute.ProduceCopy | src/app/api/generate/route.ts:208-271 | the loop and the checks after it compute `CheckedCopy` |
| GenerateRoute.SaveGeneration | src/app/api/generate/route.ts:269-336 | auto-design, insert and log compute their specification; the rendered image is uploaded before the insert, so the bucket keeps it even when the insert fails |
| GenerateRoute.AutoDesign | src/app/api/generate/route.ts:269-308 | the image URL is the generated one exactly when every design step succeeds, and the bucket gains that one object then and nothing otherwise |
| GenerateRoute.Post | src/app/api/generate/route.ts:19-375 | the handler on the live tables computes the route's specification, and the bucket ends as the specification's uploads added to it: none unless the guards and the charge pass |
| GenerateRoute.FailureKeepsScreenshot | src/app/api/generate/route.ts:80-89 | once the screenshot uploaded it stays, first among the route's uploads, whatever the route answers: no catch block removes it |
| GenerateRoute.RouteObjectsBound | src/app/api/generate/route.ts:79-336 | the route uploads at most the screenshot and the rendered image, in that order, and the image only after a copy passed every check |
| GenerateRoute.InsertFailureLeavesRenderedImage | src/app/api/generate/route.ts:269-322 | a failed generation insert answers 500, yet both the screenshot and the rendered image stay in the bucket |
| Supabase.Ledger.UpdateCredits | src/app/api/generate/route.ts:66-69 | `update … eq(id)` changes the balance of an existing row only, and nothing else |
| Supabase.Ledger.UpsertCredits | src/app/api/test/add-credits/route.ts:30-33 | `upsert` creates or overwrites the row, and nothing else |
| Supabase.Ledger.LogTransaction | src/app/api/generate/route.ts:326-330 | a transaction is appended, and nothing else changes |
| Supabase.Ledger.InsertGeneration | src/app/api/generate/route.ts:311-318 | a generation row is appended, and nothing else changes |
| Supabase.Bucket.Upload | src/app/api/generate/route.ts:81-84 | the object key is appended to the bucket |
| StripeWebhook.Post | src/app/api/stripe/webhook/route.ts:7-78 | the handler on the live tables computes the webhook's specification |
| StripeWebhook.HandleCompleted | src/app/api/stripe/webhook/route.ts:31-74 | a completed checkout with metadata is handled as its specification says |
| StripeWebhook.CreditBuyer | src/app/api/stripe/webhook/route.ts:39-66 | the RPC or its read-then-write fallback credits the buyer; a failed direct update changes nothing and is reported |
| StripeWebhook.NoChangeUnlessCompletedWithMetadata | src/app/api/stripe/webhook/route.ts:13-36 | a bad signature or missing metadata gives 400, another event type 200, and no table changes |
| StripeWebhook.OnlyBuyerBalanceChanges | src/app/api/stripe/webhook/route.ts:38-66 | no generation changes, no profile appears or disappears, and only the buyer's balance can change |
| StripeWebhook.PurchasedCreditsAdded | src/app/api/stripe/webhook/route.ts:39-66 | a buyer with a profile gains exactly the purchased credits when either update path works, and gets 200 |
| StripeWebhook.PurchaseRecordedIff | src/app/api/stripe/webhook/route.ts:45-74 | one purchase row is appended exactly when a completed checkout with metadata gets past the updates and the insert works |
| StripeWebhook.PaidWithoutProfileNotCredited | src/app/api/stripe/webhook/route.ts:49-77 | a buyer without a profile row is recorded as a purchase and answered 200, but gains no credits |
| StripeWebhook.RedeliveryCreditsTwice | src/app/api/stripe/webhook/route.ts:25-42 | delivering the same completed event twice credits it twice |
| StripeWebhook.CreditsMetadataRoundTrip | src/app/api/stripe/webhook/route.ts:31-34 | credits written as `String(n)` for a positive `n` pass the guard and are read back as `n` |
| StripeWebhook.PrefixedCreditsMetadata | src/app/api/stripe/webhook/route.ts:31-35 | credits written as "0x…", "0o…" or "0b…" are read in that base, and pass the guard exactly when that value is not 0 |
| StripeWebhook.SignedPrefixedCreditsRejected | src/app/api/stripe/webhook/route.ts:31-35 | credits written as a signed prefixed number are `NaN` and fail the guard |
| AddCredits.Post | src/app/api/test/add-credits/route.ts:4-41 | the handler on the live tables computes the route's specification |
| AddCredits.GrantsBonus | src/app/api/test/add-credits/route.ts:26-40 | a success sets the user's balance to the old one (0 for a missing row) plus 50, creates a missing row, reports the new balance, and changes nothing else |
| AddCredits.ErrorsChangeNothing | src/app/api/test/add-credits/route.ts:7-38 | an error is 401 without a session and 500 otherwise, and no table changes |
| AddCredits.TwiceAddsTwice | src/app/api/test/add-credits/route.ts:26-32 | two successful calls add 100 |
| RefineRoute.Field | src/app/api/refine/route.ts:29-32 | a truthy context field is rendered into the prompt, and a missing or falsy one is replaced by the route's default |
| RefineRoute.FieldsCheckedBeforeSession | src/app/api/refine/route.ts:11-17 | a missing `originalCopy` or `instruction` gives 400 before the session is read |
| RefineRoute.RefineSucceedsIff | src/app/api/refine/route.ts:9-107 | 200 exactly for both fields, a session and a reply that parses; the data is the parsed reply |
| RefineRoute.ErrorsHaveMessages | src/app/api/refine/route.ts:100-105 | every failure carries a non-empty message |
| RefineTweetRoute.UserCheckedFirst | src/app/api/refine-tweet/route.ts:10-13 | without a user the answer is 401, whatever the body |
| RefineTweetRoute.FailuresAreOpaque | src/app/api/refine-tweet/route.ts:31-34 | every 500 carries the fixed message 'Failed to refine text' |
| RefineTweetRoute.RefinedTextReturned | src/app/api/refine-tweet/route.ts:22-29 | a 200 returns the selected provider's refined text unchanged, and that text is trimmed |
| AnalyzeImageRoute.AnalyzeSucceedsIff | src/app/api/analyze-image/route.ts:11-105 | 200 exactly for a session, a file upload and a reply that parses |
| AnalyzeImageRoute.SameParsingAsProvider | src/app/api/analyze-image/route.ts:86-95 | the route reads a reply exactly as the Claude provider's `analyzeImage` does |
| AnalyzeImageRoute.TextFieldFailsLate | src/app/api/analyze-image/route.ts:24-34 | a non-empty text value passes the file guard and then throws when read |
| AnalyzeImageRoute.DeclaredShapeReachesClient | src/app/api/analyze-image/route.ts:86-95 | a reply in the `ImageAnalysisResult` shape is answered 200 with `data` reading back as that result |
| AnalyzeImageRoute.UncheckedShapeStillSucceeds | src/app/api/analyze-image/route.ts:52-59 | a reply without `accentColor`, as the route's own six-key prompt asks for, is no `ImageAnalysisResult` and is still answered 200 with that reply as `data` |
| Devices.GetDeviceById | src/lib/devices.ts:183-185 | a found frame is in the table with that id; `undefined` exactly when no frame has it |
| Devices.GetTemplateById | src/lib/devices.ts:188-190 | a found template is in the table with that id; `undefined` exactly when no template has it |
| Devices.DeviceOrFirst | src/components/preview-generator/preview-editor.tsx:57 | the selected frame is in the table: the one with the id, or the first |
| Devices.TemplateOrFirst | src/components/preview-generator/preview-editor.tsx:58 | the selected template is in the table: the one with the id, or the first |
| Devices.DeviceIdsDistinct | src/lib/devices.ts:23-87 | frame ids are pairwise distinct |
| Devices.TemplateIdsDistinct | src/lib/devices.ts:100-141 | template ids are pairwise distinct |
| Devices.DeviceLookupRoundTrip | src/lib/devices.ts:183-185 | looking up a frame's own id returns that frame |
| Devices.TemplateLookupRoundTrip | src/lib/devices.ts:188-190 | looking up a template's own id returns that template |
| Devices.DefaultConfigResolves | src/lib/devices.ts:167-180 | the default config's ids resolve to the first frame and the second template |
| Devices.ScalesInRange | src/lib/devices.ts:95 | every template's device scale lies in 0.0–1.0 |
| PreviewEditor.DigitValue | src/components/preview-generator/preview-editor.tsx:205 | a hex digit's value is below 16 |
| PreviewEditor.HexPrefix | src/components/preview-generator/preview-editor.tsx:205 | `parseInt` reads the longest prefix of hex digits |
| PreviewEditor.ToInt32 | src/components/preview-generator/preview-editor.tsx:206 | `>>` converts to a signed 32-bit value, leaving values below 2^31 unchanged |
| PreviewEditor.Clamp | src/components/preview-generator/preview-editor.tsx:206-208 | the clamp lies in 0..255 and leaves values there unchanged |
| PreviewEditor.HexString | src/components/preview-generator/preview-editor.tsx:209 | `toString(16)` is a non-empty run of lower-case hex digits |
| PreviewEditor.HexStringValue | src/components/preview-generator/preview-editor.tsx:209 | round trip: `toString(16)` read back as hex is the number |
| PreviewEditor.HexStringLength | src/components/preview-generator/preview-editor.tsx:209 | a number below 16^k needs at most k hex digits |
| PreviewEditor.PadStart | src/components/preview-generator/preview-editor.tsx:209 | `padStart` prepends the fill character up to the width and keeps the text |
| PreviewEditor.LeadingZeros | src/components/preview-generator/preview-editor.tsx:209 | leading zeros do not change a hex value |
| PreviewEditor.RemoveFirstHash | src/components/preview-generator/preview-editor.tsx:205 | `replace('#', '')` drops a leading '#', and text without '#' is unchanged |
| PreviewEditor.Shift | src/components/preview-generator/preview-editor.tsx:206-208 | each shifted channel lies in 0..255 |
| PreviewEditor.Pack | src/components/preview-generator/preview-editor.tsx:209 | three channels pack into a value below 2^24 |
| PreviewEditor.PackChannels | src/components/preview-generator/preview-editor.tsx:206-209 | round trip: unpacking packed channels gives them back |
| PreviewEditor.UnpackChannels | src/components/preview-generator/preview-editor.tsx:206-208 | round trip: the channels of a 24-bit value pack back into it |
| PreviewEditor.ParseHexDigits | src/components/preview-generator/preview-editor.tsx:205 | `parseInt(s, 16)` of hex digits is their value |
| PreviewEditor.HexValueBound | src/components/preview-generator/preview-editor.tsx:205 | k hex digits have a value below 16^k |
| PreviewEditor.AllHexPrefix | src/components/preview-generator/preview-editor.tsx:205 | a text of hex digits is its own hex prefix |
| PreviewEditor.LowerHexInjective | src/components/preview-generator/preview-editor.tsx:209 | lower-case hex texts of equal length with equal values are equal |
| PreviewEditor.LowerKeepsValue | src/components/preview-generator/preview-editor.tsx:209 | lower-casing hex digits keeps their value |
| PreviewEditor.SixDigits | src/components/preview-generator/preview-editor.tsx:209 | a 24-bit value padded to six digits is six lower-case hex digits with that value |
| PreviewEditor.ShiftPacks | src/components/preview-generator/preview-editor.tsx:206-209 | shifted channels pack into a 24-bit value that unpacks to them |
| PreviewEditor.HexColorReadBack | src/components/preview-generator/preview-editor.tsx:205-209 | a written colour is '#' and six lower-case hex digits, and reads back as the same channels |
| PreviewEditor.AdjustColorFormat | src/components/preview-generator/preview-editor.tsx:209 | the result is '#' followed by exactly six lower-case hex digits |
| PreviewEditor.AdjustColorChannels | src/components/preview-generator/preview-editor.tsx:204-210 | read back, each channel of the result is the input's channel moved by `percent` and clamped to 0..255 |
| PreviewEditor.ShiftedColorReadBack | src/components/preview-generator/preview-editor.tsx:205-209 | shifted channels written as a colour read back as themselves |
| PreviewEditor.AdjustByZeroRewrites | src/components/preview-generator/preview-editor.tsx:204-210 | for '#RRGGBB', adjusting by 0 rewrites the colour from its value |
| PreviewEditor.WrittenDigitsAreLowered | src/components/preview-generator/preview-editor.tsx:209 | six hex digits written back from their value are the digits lower-cased |
| PreviewEditor.AdjustByZeroLowercases | src/components/preview-generator/preview-editor.tsx:204-210 | for '#RRGGBB', `adjustColor(h, 0)` is `h` lower-cased |
| PreviewEditor.ReadDigits | src/components/preview-generator/preview-editor.tsx:205-208 | '#' and hex digits read as the channels of their value, through the 32-bit conversion |
| PreviewEditor.NonHexReadsAsBlack | src/components/preview-generator/preview-editor.tsx:205-208 | input with no hex digit after '#' reads as black (NaN shifts to 0), so every result channel is `clamp(percent)` |
| PreviewEditor.MergeOverwritesSuppliedFields | src/components/preview-generator/preview-editor.tsx:60-62 | a merge overwrites exactly the supplied fields; an empty patch changes nothing |
| PreviewEditor.MergeIdempotent | src/components/preview-generator/preview-editor.tsx:60-62 | idempotence: the same patch applied twice is applied once |
| PreviewEditor.MergeComposes | src/components/preview-generator/preview-editor.tsx:60-62 | two successive updates act as one with the combined patch |
| PreviewEditor.AccentOrDefault | src/components/preview-generator/preview-editor.tsx:45 | a missing accent becomes '#3B82F6', and a given one is kept |
| PreviewEditor.InitialConfigFromDefaults | src/components/preview-generator/preview-editor.tsx:47-53 | the initial config is the defaults except the two texts and the gradient, which runs from the accent to the accent darkened by 30 on every channel |
| PreviewEditor.Editor.constructor | src/components/preview-generator/preview-editor.tsx:47-55 | the state starts from the initial config, not generating, on the "device" tab |
| PreviewEditor.Editor.SelectedDevice | src/components/preview-generator/preview-editor.tsx:57 | the selected frame is in the table, and is the first for an unknown id |
| PreviewEditor.Editor.SelectedTemplate | src/components/preview-generator/preview-editor.tsx:58 | the selected template is in the table, and is the first for an unknown id |
| PreviewEditor.Editor.UpdateConfig | src/components/preview-generator/preview-editor.tsx:60-62 | the config becomes the merge of the old one and the patch; nothing else changes |
| PreviewEditor.Editor.HandleDownload | src/components/preview-generator/preview-editor.tsx:64-100 | posts the current config; an OK answer saves `app-preview-<device>-<now>.png`, anything else shows the error toast; `isGenerating` ends false |
| PreviewRoute.GetTextStyle | src/app/api/generate-preview/route.tsx:47-60 | the text is overlaid exactly for the two overlay positions, anchored at the bottom exactly for the two bottom positions, and at the top otherwise |
| PreviewRoute.TextOffsets | src/app/api/generate-preview/route.tsx:47-60 | offsets are 80, or the frame's inset plus 100 for overlays |
| PreviewRoute.OverlayFurtherIn | src/app/api/generate-preview/route.tsx:47-60 | on every table frame, overlay text sits further in than non-overlay text |
| PreviewRoute.ShadowStyle | src/app/api/generate-preview/route.tsx:76-83 | the shadow is 'none' exactly for intensities other than light, medium and heavy |
| PreviewRoute.BezelColor | src/app/api/generate-preview/route.tsx:86-92 | white gives '#f5f5f5', natural '#e5c890', and anything else '#1a1a1a', each exactly |
| PreviewRoute.DeviceFor | src/app/api/generate-preview/route.tsx:29 | the frame is the one with a known id, else the first |
| PreviewRoute.TemplateFor | src/app/api/generate-preview/route.tsx:30 | the template is the one with a known id, else the first |
| PreviewRoute.Fields | src/app/api/generate-preview/route.tsx:15-19 | destructuring throws exactly on a `null` body |
| PreviewRoute.PostOutcomes | src/app/api/generate-preview/route.tsx:13-346 | an image exactly for a non-null body with a truthy url and config and a fetched screenshot; every failure is one of three fixed responses |
| PreviewRoute.FieldsCheckedBeforeFetch | src/app/api/generate-preview/route.tsx:22-27 | missing fields give 400 before the screenshot is fetched |
| PreviewRoute.ImageUsesResolvedDevice | src/app/api/generate-preview/route.tsx:29-337 | the image has the resolved frame's size, and an unknown device id renders at the first frame's 1290×2796 |
| ContextForm.Issues | src/components/context-form.tsx:21-27 | there are never more issues than the schema has fields |
| ContextForm.ReportsFailingFields | src/components/context-form.tsx:21-27 | a field is reported exactly when it breaks its rule |
| ContextForm.IssueMessages | src/components/context-form.tsx:22-26 | each issue carries its own field's message |
| ContextForm.ValidIff | src/components/context-form.tsx:21-27 | the form passes exactly for an app name of ≥ 2, a category of ≥ 1, an audience of ≥ 5, one of the four tones and a description of ≥ 10 |
| ContextForm.DefaultsFailTextFields | src/components/context-form.tsx:38-46 | the defaults fail exactly on the four text fields, each with its message, and the default tone passes |
| WeeklySchedule.FullThreadParts | src/components/weekly-schedule-view.tsx:84 | the full thread is the hook and the tweets joined by "\n\n": it starts with the hook and contains every tweet |
| WeeklySchedule.DayContent | src/components/weekly-schedule-view.tsx:161-163 | the entry found is in the batch and has the day, and none earlier has it; `undefined` exactly when no entry has the day |
| WeeklySchedule.WithHook | src/components/weekly-schedule-view.tsx:89-95 | length, order, days, themes and threads are kept; the hook is replaced exactly on the matching days |
| WeeklySchedule.WithTweet | src/components/weekly-schedule-view.tsx:97-108 | length, order and everything else are kept; only element `index` of the matching days' threads is replaced |
| WeeklySchedule.HookEditLastWins | src/components/weekly-schedule-view.tsx:89-95 | editing one day's hook twice keeps the second edit |
| WeeklySchedule.HookEditsCommute | src/components/weekly-schedule-view.tsx:89-95 | edits to two different days commute |
| WeeklySchedule.TweetEditLastWins | src/components/weekly-schedule-view.tsx:97-108 | editing the same tweet twice keeps the second edit |
| WeeklySchedule.DayContentAfterHookEdit | src/components/weekly-schedule-view.tsx:89-95 | after a hook edit, the day's content is the old content with the new hook |
| WeeklySchedule.DayContentAfterTweetEdit | src/components/weekly-schedule-view.tsx:97-108 | after a tweet edit, the day's content is the old content with that tweet replaced |
| WeeklySchedule.RefineRequest | src/components/weekly-schedule-view.tsx:116-120 | the body has the text and instruction, and a `context` exactly when the day exists, holding its theme |
| WeeklySchedule.RefinedText | src/components/weekly-schedule-view.tsx:123-129 | a refinement is applied exactly when the reply parses to a non-null value with a truthy `refinedText` |
| WeeklySchedule.RouteAnswers | src/components/weekly-schedule-view.tsx:124-128 | against the refine-tweet route, a non-empty refined text is applied, and an error answer never is |
| WeeklySchedule.ScheduleView.constructor | src/components/weekly-schedule-view.tsx:27-34 | the state starts from the results on the Monday tab, with nothing changed, saving or refining |
| WeeklySchedule.ScheduleView.ResetTo | src/components/weekly-schedule-view.tsx:36-40 | new results replace the edits, and clear the change flag and the feedback |
| WeeklySchedule.ScheduleView.UpdateHook | src/components/weekly-schedule-view.tsx:89-95 | the batch becomes `WithHook` of the old one and changes are flagged; nothing else changes |
| WeeklySchedule.ScheduleView.UpdateThread | src/components/weekly-schedule-view.tsx:97-108 | the batch becomes `WithTweet` of the old one and changes are flagged; nothing else changes |
| WeeklySchedule.ScheduleView.RefineTweet | src/components/weekly-schedule-view.tsx:110-135 | sends the request; the tweet is replaced only when the reply has a refined text; `refiningIndex` is cleared in every case |
| WeeklySchedule.ScheduleView.Save | src/components/weekly-schedule-view.tsx:138-158 | nothing happens without a generation id; otherwise the batch is sent, changes clear only on an OK answer, and `isSaving` ends false |
| History.Keep | src/app/history/page.tsx:66 | `filter` keeps exactly the occurrences that satisfy the predicate |
| History.KeepNewestFirst | src/app/history/page.tsx:66 | filtering keeps the newest-first order |
| History.HeadIsNewest | src/app/history/page.tsx:43 | the head of a newest-first list is no older than the rest, which is newest first too |
| History.ConsNewestFirst | src/app/history/page.tsx:43 | a row no older than a newest-first list keeps it newest first when put in front |
| History.Insert | src/app/history/page.tsx:43 | insertion into a newest-first list keeps it newest first and adds exactly the row |
| History.SortNewestFirst | src/app/history/page.tsx:43 | the ordering is newest first and a permutation of its input |
| History.Query | src/app/history/page.tsx:39-46 | the list is exactly the session user's rows, newest first |
| History.DeleteRemovesExactly | src/app/history/page.tsx:66 | exactly the entries with the id are removed; the rest keep their multiplicity and order |
| History.WithFavorite | src/app/history/page.tsx:83-87 | only the matching entries' favourite flag changes, and everything else is kept |
| History.ToggleFlips | src/app/history/page.tsx:83-88 | toggling flips the entry's flag, with a missing flag read as false; other entries and the newest-first order are kept; toggling back restores the flag |
| History.Headlines | src/app/history/page.tsx:157-161 | reading headlines throws exactly on a `null` copy, and gives one headline per copy |
| History.WeeklyOutputBreaksCard | src/app/history/page.tsx:157-164 | as written, a ghostwriter output breaks the card |
| History.CardCountsEveryCopy | src/app/history/page.tsx:157-166 | corrected card: the first two headlines, and "+ (n−2) more" exactly when n > 2; a ghostwriter output shows an empty card |
| History.HistoryPage.constructor | src/app/history/page.tsx:29-30 | the list starts empty and loading |
| History.HistoryPage.Load | src/app/history/page.tsx:33-55 | with a session, the list becomes the query result or an error toast is shown; without a session nothing is loaded; loading ends in every case |
| History.HistoryPage.Delete | src/app/history/page.tsx:57-72 | the entries are removed only after the call succeeds, with the matching toast; newest-first order is kept |
| History.HistoryPage.ToggleFavorite | src/app/history/page.tsx:74-93 | the flag is set to the negated status only after the call succeeds, with the matching toast; newest-first order is kept |
| GeneratePage.EntryValue | src/app/api/generate/route.ts:27-35 | `formData.get` finds a value exactly when some text entry has the key |
| GeneratePage.EntryValueAt | src/app/api/generate/route.ts:27-35 | the first text entry under a key decides what `get` returns |
| GeneratePage.FormEntriesCarryFields | src/app/generate/page.tsx:41-50 | the route receives the file first, each form field under its key, no keywords, and "undefined" as language and platform |
| GeneratePage.RequestContext | src/app/api/generate/route.ts:27-35 | the route's context holds what `formData.get` finds under `platform`, `language` and `keywords` |
| GeneratePage.PageGetsGhostwriterPrompt | src/app/generate/page.tsx:49-50 | a request from the page has platform "undefined", so the route never writes its App Store prompt; it writes the ghostwriter prompt in the language "undefined" with no keywords |
| GeneratePage.Settle | src/app/generate/page.tsx:52-67 | success exactly for an OK response whose body parses to a non-null value, with its `data` and `imageUrl`; the success toast precedes a throw only for an OK `null` body |
| GeneratePage.RouteAnswersSettle | src/app/generate/page.tsx:57-67 | against the generate route, a generated answer yields its copy and image URL, and an error answer fails with the route's message |
| GeneratePage.ScreenOf | src/app/generate/page.tsx:131-133 | the weekly view exactly when `'weekly_batch' in results`, the list exactly for an array, a render failure for any other truthy value, then loader, error and empty panel in that order |
| GeneratePage.Page.constructor | src/app/generate/page.tsx:19-27 | everything starts empty and not generating |
| GeneratePage.Page.HandleGenerate | src/app/generate/page.tsx:31-78 | without a file only a toast and no request; otherwise the form is posted and the answer sets the results (and the preview when an image URL came back) or the error with the credit-restored note; `isGenerating` ends false |
| GeneratePage.Page.ResetGeneration | src/app/generate/page.tsx:118-122 | results, file and preview are cleared, and nothing else changes |
| GeneratePage.Page.HandleRefine | src/app/generate/page.tsx:124-129 | nothing happens unless the results are an array; otherwise a copy with only `index` replaced becomes the results |

## Left out

- Prompt texts: the prompt bodies are prose and are not modelled. What is modelled is which prompt is chosen: in the providers by platform, language, category and benchmark line; in the generate route by platform (GenerateRoute.AppStorePromptIff) and the language the prompt names (GenerateRoute.PromptLanguage).
- Foreign services: the Claude and Gemini SDKs, Supabase auth, tables and storage, Stripe's `constructEvent`, `fetch`, `Buffer`/base64, `JSON.parse` and the image renderers (`ImageResponse`, `generateSocialImage`). Each is an input: an outcome, a scripted outcome per call number, or a parser function.
- Time: `sleep` and `Date.now()`. Delays are computed as numbers, and timestamps are input naturals.
- Concurrency: the read-then-write races on `credits` in the charge, the refund, the webhook fallback and add-credits are not modelled. The model is sequential.
- WeeklySchedule.ScheduleView.RefineTweet is atomic. In the component, `handleRefineTweet` awaits the refinement and then calls `handleUpdateThread`, which spreads the `editableResults` in the closure that started the request (src/components/weekly-schedule-view.tsx:97-108 and 110-124). Edits made while a refinement is pending are therefore lost; the model has no such interleaving.
- Floating point: layout scaling in the preview route (`getDeviceY`, scaled sizes), template scales (kept as reals and only range-checked), and the webhook's `amount_total / 100` (a real).
- The `increment_credits` database function is not part of this model. Its effect is taken to be adding the amount to an existing profile row.
- Text: strings are sequences of code points, not UTF-16. `toLowerCase` is modelled for ASCII letters only. `trim` removes exactly ECMAScript's WhiteSpace and LineTerminator characters (`JsRuntime.IsWhite`).
- JsRuntime.NumberOf: `Number(s)` is modelled on integers. Blank text, signed or unsigned decimal digits, and unsigned "0x…", "0o…" and "0b…" digits are read as JavaScript does. A decimal fraction ("1.5"), a decimal point or exponent with an integral value ("1.0", "1e3", the latter 1000 in JavaScript) and "Infinity"/"-Infinity" are read as not a number here, so such `credits` metadata fails the guard in the model; in JavaScript "1e3" would pass it. `parseInt` is likewise modelled on integer digits.
- AiTypes.ImageAnalysisResult: the source only casts `JSON.parse`'s value with `as ImageAnalysisResult` and never checks it, so the providers and the analyze route keep the parsed `Json`. `AiTypes.AnalysisOf` says when the cast is true.
- Error wording: V8's and zod's own messages are written in the form the model uses ("x is not a function", zod 3's enum message). Their exact text is not claimed.
- PreviewEditor.AdjustColor: `percent` is an integer; a fractional `percent`, possible in JavaScript, is not modelled.
- The weekly view's `handleFeedback`, `handleRegenerate` and `handleCopy`, and the generate page's `handleImageSelect` (analysis autofill) and upload clearing: these only raise toasts or fire requests whose answers are ignored.
- WeeklySchedule.WithTweet, WeeklySchedule.ScheduleView.UpdateThread and WeeklySchedule.ScheduleView.RefineTweet require the tweet index to exist. In JavaScript, an index past the end would grow the thread with holes; the UI only passes existing indices.
- GeneratePage.Page.HandleRefine requires the index to lie inside the results array for the same reason.
- Postgres returns rows with equal `created_at` in an unspecified order. History.Query promises only newest-first order and the right rows. `created_at` is modelled as a natural number, not an ISO string.
- The refine-tweet reply and the weekly view: a truthy `refinedText` that is not a string is turned into text as JavaScript's `String` would, without modelling objects' `toString`.
- The generate page's "An error occurred" branch: it only handles a thrown non-`Error`, which neither the route nor `fetch` throws.
- `null` and `undefined` are one value wherever the code only tests truthiness (`previewUrl`, `results`, optional fields).
- The preview editor's initial gradient end is proved by its channels (InitialConfigFromDefaults), not as a literal string for each accent.
- CopyQuality.CheckItem: a `headline` or `subtext` that is an object with its own `length` member is measured as length 0; JavaScript reads that member (`{"headline": {"length": 31}}` gives a too-long headline there). Values are parsed JSON, where only strings and arrays have a built-in `length`. CopyQuality.ItemIssues, CopyQuality.SlidesPassIff and CopyQuality.Validate share this.
- CopyQuality.CheckThread: likewise for a `hook` or a tweet that is an object with its own `length` member. CopyQuality.ThreadIssues and CopyQuality.BatchPassesIff share this.
- PreviewEditor.ParseHexDigits: the value of the digits is exact. JavaScript rounds a `parseInt` result above 2^53 to a double before the 32-bit shifts, so a colour of 14 or more hex digits can differ: `adjustColor("#ffffffffffffffff", 0)` is "#000000" there and "#00ffff" in the model. PreviewEditor.ParseIntHex, PreviewEditor.InputChannels and PreviewEditor.AdjustColorChannels share this.
- GenerateRoute.Platform: its contract states only that the platform is never empty; its `||` default is `JsRuntime.OrString`'s.
- Gemini.RefineText and Gemini.AnalyzeImage: their contracts name the wrapper's failure messages and the trimming, not the call numbering of the scripted outcomes.
- The hybrid provider's two delegates are created once and never reassigned. The model has no provider objects at all: a provider is a tag, so the delegation is a fixed mapping (Providers.HybridDelegates).

## Findings

| source | as written | input that shows it | evidently intended | confidence | as-written member | corrected member |
|---|---|---|---|---|---|---|
| src/lib/ai/gemini.ts:888-889 | `examples[category.toLowerCase()] \|\| examples['productivity']` on a plain object literal, so keys inherited from `Object.prototype` are found | category "constructor" (or "__proto__") puts `undefined` into the prompt instead of example text | unknown categories, these two included, get the productivity examples | not executed | Gemini.PrototypeKeyLeaksUndefined (about CategoryExamplesAsWritten) | Gemini.CategoryExamples (with Gemini.CategoryExamplesAgree) |
| src/app/history/page.tsx:157-164 | the card calls `output_copy.slice(0, 2)` and reads `output_copy.length`, whose type assumes an array of slide copies | a saved ghostwriter output (an object with `weekly_batch`) has no `slice`, so the card throws while rendering | the card shows slide headlines for arrays and nothing for other outputs | not executed | History.WeeklyOutputBreaksCard (about CardAsWritten) | History.CardCountsEveryCopy (about CardPreview) |

Where the written behaviour differs from what the design describes, the model follows the code:

- The generate route calls Claude directly; it does not go through `getAIClient`.
- Its check after the loop tests only truthiness, not the in-loop shape test (GenerateRoute.EmptyArrayPassesAfterLoop).
- The generate route's success response carries the copy and the image URL but no generation id.
- The generate page sends the text "undefined" for the language and the platform, because the context form has no such fields (GeneratePage.FormEntriesCarryFields).
