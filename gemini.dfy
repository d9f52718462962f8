/**
 * The Gemini provider: every call goes through a retry-and-fallback wrapper
 * over two models, replies are mined for JSON by four patterns before a last
 * whole-text parse, and copy generation runs at most two rounds, returning
 * the last copy even when it failed the quality check.
 */
module Gemini {
  import opened JsRuntime
  import opened AiTypes
  import opened CopyQuality
  import Language

  const MAX_RETRIES := 3
  const RETRY_DELAY := 3000
  const PRIMARY_MODEL := "gemini-3-flash"
  const DEFAULT_FALLBACK_MODEL := "gemini-2.5-flash"
  const ALL_MODELS_FAILED := "All Gemini models failed after retries"
  const INVALID_JSON := "Gemini returned invalid JSON format"
  const MAX_VALIDATION_ROUNDS := 2

  const BANNED := BannedLists(
    ["혁신적", "최고의", "놀라운", "소개합니다", "다운로드하세요"],
    ["revolutionary", "amazing", "best ever", "excited to", "game-changer", "download now"])

  /** What one `generateContent` call does: answer with text, or throw an error with an optional HTTP status. */
  datatype CallOutcome = Responded(text: string) | Failed(status: Option<int>, message: string)

  /** `error.status === 503 || error.status === 429` */
  predicate Retryable(o: CallOutcome) {
    o.Failed? && (o.status == Some(503) || o.status == Some(429))
  }

  /** One call made: the model, the attempt number on that model, and the sleep that followed (0 for none). */
  datatype Call = Call(model: string, attempt: nat, delay: nat)

  // ---------------------------------------------------------------
  // generateWithFallback
  // ---------------------------------------------------------------

  /** The calls from model `m`, attempt `attempt`, on, where call number `i` meets `outcome(i)`. */
  function RunFrom(models: seq<string>, m: nat, attempt: nat, outcome: nat -> CallOutcome, i: nat): (Result<string>, seq<Call>)
    requires m <= |models| && 1 <= attempt <= MAX_RETRIES
    decreases |models| - m, MAX_RETRIES - attempt
  {
    if m == |models| then (Err(ALL_MODELS_FAILED), [])
    else
      var o := outcome(i);
      if o.Responded? then (Ok(o.text), [Call(models[m], attempt, 0)])
      else if Retryable(o) && attempt < MAX_RETRIES then
        var rest := RunFrom(models, m, attempt + 1, outcome, i + 1);
        (rest.0, [Call(models[m], attempt, RETRY_DELAY * attempt)] + rest.1)
      else
        var rest := RunFrom(models, m + 1, 1, outcome, i + 1);
        (rest.0, [Call(models[m], attempt, 0)] + rest.1)
  }

  function Fallback(modelName: string, fallbackModel: string, outcome: nat -> CallOutcome, start: nat): (Result<string>, seq<Call>) {
    RunFrom([modelName, fallbackModel], 0, 1, outcome, start)
  }

  /** The calls made so far, followed by the rest of the run from model `m`, attempt `attempt`, give the whole run. */
  ghost predicate Resumes(models: seq<string>, m: nat, attempt: nat, calls: seq<Call>, outcome: nat -> CallOutcome, start: nat, run: (Result<string>, seq<Call>))
    requires m <= |models| && 1 <= attempt <= MAX_RETRIES
  {
    var rest := RunFrom(models, m, attempt, outcome, start + |calls|);
    rest.0 == run.0 && calls + rest.1 == run.1
  }

  /** `generateWithFallback(modelName, prompt, fallbackModelName)`, with calls numbered from `start`. */
  method GenerateWithFallback(modelName: string, fallbackModel: string, outcome: nat -> CallOutcome, start: nat)
    returns (r: Result<string>, calls: seq<Call>)
    ensures (r, calls) == Fallback(modelName, fallbackModel, outcome, start)
  {
    ghost var run := Fallback(modelName, fallbackModel, outcome, start);
    var models := [modelName, fallbackModel];
    calls := [];
    assert calls + run.1 == run.1;
    for m := 0 to |models|
      invariant Resumes(models, m, 1, calls, outcome, start, run)
    {
      var attempt := 1;
      while true
        invariant 1 <= attempt <= MAX_RETRIES
        invariant Resumes(models, m, attempt, calls, outcome, start, run)
        decreases MAX_RETRIES - attempt
      {
        var o := outcome(start + |calls|);
        var call := Call(models[m], attempt, if Retryable(o) && attempt < MAX_RETRIES then RETRY_DELAY * attempt else 0);
        if o.Responded? {
          return Ok(o.text), calls + [call];
        }
        ResumeAfterFailure(models, m, attempt, calls, outcome, start, run);
        calls := calls + [call];
        if Retryable(o) && attempt < MAX_RETRIES {
          attempt := attempt + 1;
        } else {
          break;
        }
      }
    }
    assert calls + [] == calls;
    return Err(ALL_MODELS_FAILED), calls;
  }

  lemma ResumeAfterFailure(models: seq<string>, m: nat, attempt: nat, calls: seq<Call>, outcome: nat -> CallOutcome, start: nat, run: (Result<string>, seq<Call>))
    requires m < |models| && 1 <= attempt <= MAX_RETRIES
    requires Resumes(models, m, attempt, calls, outcome, start, run)
    requires outcome(start + |calls|).Failed?
    ensures var o := outcome(start + |calls|);
            var calls' := calls + [Call(models[m], attempt, if Retryable(o) && attempt < MAX_RETRIES then RETRY_DELAY * attempt else 0)];
            if Retryable(o) && attempt < MAX_RETRIES then Resumes(models, m, attempt + 1, calls', outcome, start, run)
            else Resumes(models, m + 1, 1, calls', outcome, start, run)
  {
    var o := outcome(start + |calls|);
    var call := Call(models[m], attempt, if Retryable(o) && attempt < MAX_RETRIES then RETRY_DELAY * attempt else 0);
    var m', a' := if Retryable(o) && attempt < MAX_RETRIES then m else m + 1,
                  if Retryable(o) && attempt < MAX_RETRIES then attempt + 1 else 1;
    var rest := RunFrom(models, m', a', outcome, start + |calls| + 1);
    assert RunFrom(models, m, attempt, outcome, start + |calls|) == (rest.0, [call] + rest.1);
    assert calls + ([call] + rest.1) == (calls + [call]) + rest.1;
  }

  /** The wrapper makes at least one call for each model left, and at most three. */
  lemma {:induction false} RunFromLength(models: seq<string>, m: nat, attempt: nat, outcome: nat -> CallOutcome, i: nat)
    requires m <= |models| && 1 <= attempt <= MAX_RETRIES
    ensures m < |models| ==> 1 <= |RunFrom(models, m, attempt, outcome, i).1|
    ensures m < |models| ==> |RunFrom(models, m, attempt, outcome, i).1| + attempt - 1 <= MaxCalls(|models| - m)
    ensures m == |models| ==> RunFrom(models, m, attempt, outcome, i).1 == []
    decreases |models| - m, MAX_RETRIES - attempt
  {
    if m < |models| {
      var o := outcome(i);
      if o.Responded? {
      } else if Retryable(o) && attempt < MAX_RETRIES {
        RunFromLength(models, m, attempt + 1, outcome, i + 1);
      } else {
        RunFromLength(models, m + 1, 1, outcome, i + 1);
      }
    }
  }

  /** Three calls for each of `n` models. */
  function MaxCalls(n: nat): nat { if n == 0 then 0 else MAX_RETRIES + MaxCalls(n - 1) }

  /**
   * It stops at the first answer and returns it; every call before that
   * failed; and when no call answers it gives up with its own message.
   */
  lemma {:induction false} RunFromResult(models: seq<string>, m: nat, attempt: nat, outcome: nat -> CallOutcome, i: nat)
    requires m <= |models| && 1 <= attempt <= MAX_RETRIES
    ensures var run := RunFrom(models, m, attempt, outcome, i);
            run.0.Ok? ==> |run.1| >= 1 && outcome(i + |run.1| - 1) == Responded(run.0.value)
    ensures var run := RunFrom(models, m, attempt, outcome, i);
            run.0.Err? ==> run.0 == Err(ALL_MODELS_FAILED)
    ensures var run := RunFrom(models, m, attempt, outcome, i);
            forall k | i <= k < i + |run.1| && (k < i + |run.1| - 1 || run.0.Err?) :: outcome(k).Failed?
    decreases |models| - m, MAX_RETRIES - attempt
  {
    if m < |models| {
      var o := outcome(i);
      if o.Responded? {
      } else {
        var m', a' := if Retryable(o) && attempt < MAX_RETRIES then m else m + 1,
                      if Retryable(o) && attempt < MAX_RETRIES then attempt + 1 else 1;
        RunFromResult(models, m', a', outcome, i + 1);
        var rest := RunFrom(models, m', a', outcome, i + 1);
        var run := RunFrom(models, m, attempt, outcome, i);
        assert run.0 == rest.0 && |run.1| == 1 + |rest.1|;
      }
    }
  }

  /** Every sleep in `cs` follows a retryable failure short of the last attempt and lasts 3000 ms times the attempt number. */
  predicate DelaysOk(cs: seq<Call>, outcome: nat -> CallOutcome, i: nat) {
    forall j | 0 <= j < |cs| && cs[j].delay > 0 ::
      Retryable(outcome(i + j)) && cs[j].attempt < MAX_RETRIES && cs[j].delay == RETRY_DELAY * cs[j].attempt
  }

  /** It sleeps only after a retryable failure short of the last attempt, 3000 ms times the attempt number. */
  lemma {:induction false} RunFromDelays(models: seq<string>, m: nat, attempt: nat, outcome: nat -> CallOutcome, i: nat)
    requires m <= |models| && 1 <= attempt <= MAX_RETRIES
    ensures DelaysOk(RunFrom(models, m, attempt, outcome, i).1, outcome, i)
    decreases |models| - m, MAX_RETRIES - attempt
  {
    if m < |models| {
      var o := outcome(i);
      if o.Failed? {
        var m', a' := if Retryable(o) && attempt < MAX_RETRIES then m else m + 1,
                      if Retryable(o) && attempt < MAX_RETRIES then attempt + 1 else 1;
        RunFromDelays(models, m', a', outcome, i + 1);
        var rest := RunFrom(models, m', a', outcome, i + 1).1;
        var cs := RunFrom(models, m, attempt, outcome, i).1;
        assert cs == [Call(models[m], attempt, if Retryable(o) && attempt < MAX_RETRIES then RETRY_DELAY * attempt else 0)] + rest;
        forall j | 0 <= j < |cs| && cs[j].delay > 0
          ensures Retryable(outcome(i + j)) && cs[j].attempt < MAX_RETRIES && cs[j].delay == RETRY_DELAY * cs[j].attempt
        {
          if j > 0 {
            assert cs[j] == rest[j - 1];
            assert i + j == (i + 1) + (j - 1);
          }
        }
      }
    }
  }

  /** The same promises for the two-model wrapper: between one and six calls. */
  lemma FallbackFacts(modelName: string, fallbackModel: string, outcome: nat -> CallOutcome, start: nat)
    ensures var run := Fallback(modelName, fallbackModel, outcome, start);
            1 <= |run.1| <= 2 * MAX_RETRIES
            && (run.0.Ok? ==> outcome(start + |run.1| - 1) == Responded(run.0.value)
                              && forall k | start <= k < start + |run.1| - 1 :: outcome(k).Failed?)
            && (run.0.Err? ==> run.0 == Err(ALL_MODELS_FAILED) && forall k | start <= k < start + |run.1| :: outcome(k).Failed?)
  {
    RunFromLength([modelName, fallbackModel], 0, 1, outcome, start);
    RunFromResult([modelName, fallbackModel], 0, 1, outcome, start);
  }

  /** When every call fails retryably, each model is tried three times, sleeping 3 s then 6 s between tries. */
  lemma AllRetryableFailures(modelName: string, fallbackModel: string, outcome: nat -> CallOutcome, start: nat)
    requires forall j: nat :: Retryable(outcome(j))
    ensures Fallback(modelName, fallbackModel, outcome, start)
            == (Err(ALL_MODELS_FAILED),
                [Call(modelName, 1, 3000), Call(modelName, 2, 6000), Call(modelName, 3, 0),
                 Call(fallbackModel, 1, 3000), Call(fallbackModel, 2, 6000), Call(fallbackModel, 3, 0)])
  {
    var ms := [modelName, fallbackModel];
    var r6 := RunFrom(ms, 2, 1, outcome, start + 6);
    assert r6 == (Err(ALL_MODELS_FAILED), []);
    var r5 := RunFrom(ms, 1, 3, outcome, start + 5);
    assert Retryable(outcome(start + 5));
    assert r5.0 == r6.0 && r5.1 == [Call(fallbackModel, 3, 0)] + r6.1;
    var r4 := RunFrom(ms, 1, 2, outcome, start + 4);
    assert Retryable(outcome(start + 4));
    assert r4.0 == r5.0 && r4.1 == [Call(fallbackModel, 2, 6000)] + r5.1;
    var r3 := RunFrom(ms, 1, 1, outcome, start + 3);
    assert Retryable(outcome(start + 3));
    assert r3.0 == r4.0 && r3.1 == [Call(fallbackModel, 1, 3000)] + r4.1;
    var r2 := RunFrom(ms, 0, 3, outcome, start + 2);
    assert Retryable(outcome(start + 2));
    assert r2.0 == r3.0 && r2.1 == [Call(modelName, 3, 0)] + r3.1;
    var r1 := RunFrom(ms, 0, 2, outcome, start + 1);
    assert Retryable(outcome(start + 1));
    assert r1.0 == r2.0 && r1.1 == [Call(modelName, 2, 6000)] + r2.1;
    var r0 := RunFrom(ms, 0, 1, outcome, start);
    assert Retryable(outcome(start));
    assert r0.0 == r1.0 && r0.1 == [Call(modelName, 1, 3000)] + r1.1;
    assert r5.1 == [Call(fallbackModel, 3, 0)];
    assert r4.1 == [Call(fallbackModel, 2, 6000), Call(fallbackModel, 3, 0)];
    assert r3.1 == [Call(fallbackModel, 1, 3000), Call(fallbackModel, 2, 6000), Call(fallbackModel, 3, 0)];
    assert r0 == Fallback(modelName, fallbackModel, outcome, start);
    assert r0.0 == Err(ALL_MODELS_FAILED);
    assert r0.1 == [Call(modelName, 1, 3000), Call(modelName, 2, 6000), Call(modelName, 3, 0),
                    Call(fallbackModel, 1, 3000), Call(fallbackModel, 2, 6000), Call(fallbackModel, 3, 0)];
  }

  /** A failure that is not retryable moves straight on to the next model, without sleeping. */
  lemma NonRetryableFailures(modelName: string, fallbackModel: string, outcome: nat -> CallOutcome, start: nat)
    requires forall j: nat :: outcome(j).Failed? && !Retryable(outcome(j))
    ensures Fallback(modelName, fallbackModel, outcome, start)
            == (Err(ALL_MODELS_FAILED), [Call(modelName, 1, 0), Call(fallbackModel, 1, 0)])
  {
    var ms := [modelName, fallbackModel];
    var r2 := RunFrom(ms, 2, 1, outcome, start + 2);
    assert r2 == (Err(ALL_MODELS_FAILED), []);
    var r1 := RunFrom(ms, 1, 1, outcome, start + 1);
    assert outcome(start + 1).Failed? && !Retryable(outcome(start + 1));
    assert r1.0 == r2.0 && r1.1 == [Call(fallbackModel, 1, 0)] + r2.1;
    var r0 := RunFrom(ms, 0, 1, outcome, start);
    assert outcome(start).Failed? && !Retryable(outcome(start));
    assert r0.0 == r1.0 && r0.1 == [Call(modelName, 1, 0)] + r1.1;
    assert r1.1 == [Call(fallbackModel, 1, 0)];
    assert r0 == Fallback(modelName, fallbackModel, outcome, start);
    assert r0.0 == Err(ALL_MODELS_FAILED);
    assert r0.1 == [Call(modelName, 1, 0), Call(fallbackModel, 1, 0)];
    assert r0 == (Err(ALL_MODELS_FAILED), [Call(modelName, 1, 0), Call(fallbackModel, 1, 0)]);
  }

  // ---------------------------------------------------------------
  // extractJSON
  // ---------------------------------------------------------------

  /**
   * `/<open>\s*([\s\S]*?)\s*```/` followed by `match[1].trim()`: the text
   * between the first `open` and the first "```" after it, trimmed. (Trimming
   * the lazy group gives the same text as trimming the whole span, because
   * `trim` and `\s` agree on what is white space.)
   */
  function FenceCapture(text: string, open: string): Option<string> {
    match IndexOf(text, open, 0)
    case None => None
    case Some(s) =>
      match IndexOf(text, "```", s + |open|)
      case None => None
      case Some(t) => Some(Trim(text[s + |open|..t]))
  }

  /** `/(\{[\s\S]*\})/` and `/(\[[\s\S]*\])/`: from the first opening character to the last closing one after it. */
  function SpanCapture(text: string, open: char, close: char): Option<string> {
    match IndexOf(text, [open], 0)
    case None => None
    case Some(a) =>
      match LastIndexOf(text, close)
      case None => None
      case Some(b) => if b > a then Some(Trim(text[a..b + 1])) else None
  }

  /** The four patterns, in the order they are tried. */
  function Candidates(text: string): (cs: seq<Option<string>>)
    ensures |cs| == 4
  {
    [FenceCapture(text, "```json"), FenceCapture(text, "```"), SpanCapture(text, '{', '}'), SpanCapture(text, '[', ']')]
  }

  /** `if (match && match[1])`: a pattern that matched with a non-empty capture. */
  predicate Usable(c: Option<string>) { c.Some? && c.value != "" }

  function ExtractFrom(cands: seq<Option<string>>, text: string, parse: string -> Result<Json>): Result<Json> {
    if cands == [] then
      if parse(Trim(text)).Ok? then parse(Trim(text)) else Err(INVALID_JSON)
    else if Usable(cands[0]) && parse(cands[0].value).Ok? then parse(cands[0].value)
    else ExtractFrom(cands[1..], text, parse)
  }

  function Extract(text: string, parse: string -> Result<Json>): Result<Json> {
    ExtractFrom(Candidates(text), text, parse)
  }

  /** `extractJSON(text)` */
  method ExtractJson(text: string, parse: string -> Result<Json>) returns (r: Result<Json>)
    ensures r == Extract(text, parse)
  {
    var patterns := Candidates(text);
    for k := 0 to |patterns|
      invariant ExtractFrom(patterns[k..], text, parse) == Extract(text, parse)
    {
      assert patterns[k..][1..] == patterns[k + 1..];
      var found := patterns[k];
      if found.Some? && found.value != "" {
        var parsed := parse(found.value);
        if parsed.Ok? {
          return parsed;
        }
      }
    }
    assert patterns[|patterns|..] == [];
    var whole := parse(Trim(text));
    if whole.Ok? {
      return whole;
    }
    return Err(INVALID_JSON);
  }

  /** Extraction that fails does so with its own message. */
  lemma {:induction false} ExtractFromErr(cands: seq<Option<string>>, text: string, parse: string -> Result<Json>)
    ensures ExtractFrom(cands, text, parse).Err? ==> ExtractFrom(cands, text, parse) == Err(INVALID_JSON)
  {
    if cands != [] {
      ExtractFromErr(cands[1..], text, parse);
    }
  }

  lemma {:induction false} ExtractFromFails(cands: seq<Option<string>>, text: string, parse: string -> Result<Json>)
    ensures ExtractFrom(cands, text, parse).Err? <==>
            (forall k | 0 <= k < |cands| && Usable(cands[k]) :: parse(cands[k].value).Err?) && parse(Trim(text)).Err?
    ensures ExtractFrom(cands, text, parse).Err? ==> ExtractFrom(cands, text, parse) == Err(INVALID_JSON)
  {
    ExtractFromErr(cands, text, parse);
    if cands != [] {
      var rest := cands[1..];
      ExtractFromFails(rest, text, parse);
      assert forall k | 1 <= k < |cands| :: cands[k] == rest[k - 1];
    }
  }

  /**
   * Extraction fails, with its own message, exactly when no usable capture
   * and not the trimmed whole text parses.
   */
  lemma ExtractFailsIff(text: string, parse: string -> Result<Json>)
    ensures Extract(text, parse).Err? <==>
            (forall k | 0 <= k < 4 && Usable(Candidates(text)[k]) :: parse(Candidates(text)[k].value).Err?)
            && parse(Trim(text)).Err?
    ensures Extract(text, parse).Err? ==> Extract(text, parse) == Err(INVALID_JSON)
  {
    ExtractFromFails(Candidates(text), text, parse);
  }

  /** A good capture wins: the first usable capture that parses is the result. */
  lemma {:induction false} ExtractFromFirstParsing(cands: seq<Option<string>>, text: string, parse: string -> Result<Json>, k: nat)
    requires k < |cands| && Usable(cands[k]) && parse(cands[k].value).Ok?
    requires forall j | 0 <= j < k :: !Usable(cands[j]) || parse(cands[j].value).Err?
    ensures ExtractFrom(cands, text, parse) == parse(cands[k].value)
  {
    if k > 0 {
      assert forall j | 0 <= j < k - 1 :: cands[1..][j] == cands[j + 1];
      ExtractFromFirstParsing(cands[1..], text, parse, k - 1);
    }
  }

  lemma TrimNonWhiteEnds(x: string)
    requires x != "" && !IsWhite(x[0]) && !IsWhite(x[|x| - 1])
    ensures Trim("\n" + x + "\n") == x
  {
    var s := "\n" + x + "\n";
    assert s[1..] == x + "\n";
    assert TrimStart(s) == TrimStart(x + "\n");
    assert TrimStart(x + "\n") == x + "\n" by { assert (x + "\n")[0] == x[0]; }
    assert (x + "\n")[..|x|] == x;
    assert TrimEnd(x + "\n") == TrimEnd(x);
  }

  /**
   * A reply that is a json code fence around a backtick-free body yields the
   * body through the first pattern, when the body parses.
   */
  lemma ExtractFencedJson(body: string, parse: string -> Result<Json>)
    requires body != "" && !IsWhite(body[0]) && !IsWhite(body[|body| - 1])
    requires forall k | 0 <= k < |body| :: body[k] != '`'
    requires parse(body).Ok?
    ensures Extract("```json\n" + body + "\n```", parse) == parse(body)
  {
    var text := "```json\n" + body + "\n```";
    var t := 9 + |body|;
    assert OccursAt(text, "```json", 0) by { assert text[..7] == "```json"; }
    assert IndexOf(text, "```json", 0) == Some(0);
    assert OccursAt(text, "```", t) by { assert text[t..t + 3] == "```"; }
    forall k: nat | 7 <= k < t
      ensures !OccursAt(text, "```", k)
    {
      if k == 7 || k == t - 1 { assert text[k] == '\n'; } else { assert text[k] == body[k - 8]; }
    }
    assert IndexOf(text, "```", 7) == Some(t);
    assert text[7..t] == "\n" + body + "\n";
    TrimNonWhiteEnds(body);
    assert Candidates(text)[0] == Some(body);
    ExtractFromFirstParsing(Candidates(text), text, parse, 0);
  }

  // ---------------------------------------------------------------
  // generateCopy, refineText, analyzeImage
  // ---------------------------------------------------------------

  /** One round of `generateCopy`: an error thrown, or a copy with its verdict and the number of calls spent. */
  datatype Round = Threw(message: string) | Produced(copy: Json, passed: bool, calls: nat)

  function CopyRound(language: Option<string>, outcome: nat -> CallOutcome, parse: string -> Result<Json>, start: nat): Round {
    var (text, calls) := Fallback(PRIMARY_MODEL, DEFAULT_FALLBACK_MODEL, outcome, start);
    if text.Err? then Threw(text.message)
    else
      var copy := Extract(text.value, parse);
      if copy.Err? then Threw(copy.message)
      else
        var q := QualityOf(copy.value, language, BANNED);
        if q.Err? then Threw(q.message)
        else Produced(copy.value, q.value.passed, |calls|)
  }

  /**
   * Rounds of `generateCopy` from round `attempts` on, with calls numbered
   * from `start`: the copy returned (or the error thrown) and how many rounds ran.
   */
  function CopyRounds(language: Option<string>, outcome: nat -> CallOutcome, parse: string -> Result<Json>, start: nat, attempts: nat): (Result<Json>, nat)
    requires attempts < MAX_VALIDATION_ROUNDS
    decreases MAX_VALIDATION_ROUNDS - attempts
  {
    match CopyRound(language, outcome, parse, start)
    case Threw(message) => (Err(message), attempts + 1)
    case Produced(copy, passed, calls) =>
      if passed || attempts + 1 == MAX_VALIDATION_ROUNDS then (Ok(copy), attempts + 1)
      else CopyRounds(language, outcome, parse, start + calls, attempts + 1)
  }

  /** The body of the `while (attempts < maxAttempts)` loop of `generateCopy`, up to its `break`. */
  method RunCopyRound(language: Option<string>, outcome: nat -> CallOutcome, parse: string -> Result<Json>, start: nat)
    returns (round: Round)
    ensures round == CopyRound(language, outcome, parse, start)
  {
    var text, calls := GenerateWithFallback(PRIMARY_MODEL, DEFAULT_FALLBACK_MODEL, outcome, start);
    if text.Err? {
      return Threw(text.message);
    }
    var copy := ExtractJson(text.value, parse);
    if copy.Err? {
      return Threw(copy.message);
    }
    var validation := Validate(copy.value, language, BANNED);
    if validation.Err? {
      return Threw(validation.message);
    }
    return Produced(copy.value, validation.value.passed, |calls|);
  }

  /**
   * `generateCopy(params)`: the `generatedCopy` it returns, and how many rounds
   * it ran. Building the prompt comes first, so when that throws no round runs.
   */
  method GenerateCopy(context: CopyContext, outcome: nat -> CallOutcome, parse: string -> Result<Json>)
    returns (r: Result<Json>, rounds: nat)
    ensures SystemPrompt(context).Err? ==> r == Err(SystemPrompt(context).message) && rounds == 0
    ensures SystemPrompt(context).Ok? ==> (r, rounds) == CopyRounds(context.language, outcome, parse, 0, 0)
  {
    var prompt := SystemPrompt(context);
    if prompt.Err? {
      return Err(prompt.message), 0;
    }
    ghost var goal := CopyRounds(context.language, outcome, parse, 0, 0);
    var generatedCopy := JNull;
    var attempts := 0;
    var next: nat := 0;
    while attempts < MAX_VALIDATION_ROUNDS
      invariant 0 <= attempts <= MAX_VALIDATION_ROUNDS
      invariant attempts < MAX_VALIDATION_ROUNDS ==> CopyRounds(context.language, outcome, parse, next, attempts) == goal
      invariant attempts == MAX_VALIDATION_ROUNDS ==> (Ok(generatedCopy), attempts) == goal
    {
      var round := RunCopyRound(context.language, outcome, parse, next);
      CopyRoundsStep(context.language, outcome, parse, next, attempts, round);
      if round.Threw? {
        return Err(round.message), attempts + 1;
      }
      generatedCopy := round.copy;
      if round.passed {
        return Ok(generatedCopy), attempts + 1;
      }
      attempts := attempts + 1;
      next := next + round.calls;
    }
    return Ok(generatedCopy), attempts;
  }

  lemma CopyRoundsStep(language: Option<string>, outcome: nat -> CallOutcome, parse: string -> Result<Json>, start: nat, attempts: nat, round: Round)
    requires attempts < MAX_VALIDATION_ROUNDS && round == CopyRound(language, outcome, parse, start)
    ensures round.Threw? ==> CopyRounds(language, outcome, parse, start, attempts) == (Err(round.message), attempts + 1)
    ensures round.Produced? && (round.passed || attempts + 1 == MAX_VALIDATION_ROUNDS) ==>
              CopyRounds(language, outcome, parse, start, attempts) == (Ok(round.copy), attempts + 1)
    ensures round.Produced? && !(round.passed || attempts + 1 == MAX_VALIDATION_ROUNDS) ==>
              CopyRounds(language, outcome, parse, start, attempts) == CopyRounds(language, outcome, parse, start + round.calls, attempts + 1)
  {
  }

  /** A first round whose copy passes is the only round, and its copy is returned. */
  lemma FirstRoundPasses(language: Option<string>, outcome: nat -> CallOutcome, parse: string -> Result<Json>, copy: Json)
    requires CopyRound(language, outcome, parse, 0).Produced?
    requires CopyRound(language, outcome, parse, 0).passed
    ensures CopyRounds(language, outcome, parse, 0, 0) == (Ok(CopyRound(language, outcome, parse, 0).copy), 1)
  {
  }

  /**
   * A copy that fails the quality check twice is still returned: the second
   * round's copy comes back without an error.
   */
  lemma SecondCopyKeptEvenIfFailing(language: Option<string>, outcome: nat -> CallOutcome, parse: string -> Result<Json>)
    requires CopyRound(language, outcome, parse, 0).Produced? && !CopyRound(language, outcome, parse, 0).passed
    requires CopyRound(language, outcome, parse, CopyRound(language, outcome, parse, 0).calls).Produced?
    ensures CopyRounds(language, outcome, parse, 0, 0)
            == (Ok(CopyRound(language, outcome, parse, CopyRound(language, outcome, parse, 0).calls).copy), 2)
  {
  }

  /** `generateCopy` throws only what a round threw: a failed quality check is never an error. */
  lemma {:induction false} CopyErrorsComeFromRounds(language: Option<string>, outcome: nat -> CallOutcome, parse: string -> Result<Json>, start: nat, attempts: nat)
    requires attempts < MAX_VALIDATION_ROUNDS
    ensures CopyRounds(language, outcome, parse, start, attempts).0.Err? ==>
            exists s: nat :: CopyRound(language, outcome, parse, s) == Threw(CopyRounds(language, outcome, parse, start, attempts).0.message)
    ensures attempts < CopyRounds(language, outcome, parse, start, attempts).1 <= MAX_VALIDATION_ROUNDS
    decreases MAX_VALIDATION_ROUNDS - attempts
  {
    match CopyRound(language, outcome, parse, start)
    case Threw(message) =>
    case Produced(copy, passed, calls) =>
      if !(passed || attempts + 1 == MAX_VALIDATION_ROUNDS) {
        CopyErrorsComeFromRounds(language, outcome, parse, start + calls, attempts + 1);
      }
  }

  /** `refineText`: the wrapper's answer, trimmed. */
  function RefineText(outcome: nat -> CallOutcome, start: nat): (r: Result<string>)
    ensures r.Ok? ==> r.value == "" || (!IsWhite(r.value[0]) && !IsWhite(r.value[|r.value| - 1]))
    ensures r.Err? ==> r == Err(ALL_MODELS_FAILED)
  {
    var (text, _) := Fallback(PRIMARY_MODEL, DEFAULT_FALLBACK_MODEL, outcome, start);
    FallbackFacts(PRIMARY_MODEL, DEFAULT_FALLBACK_MODEL, outcome, start);
    if text.Ok? then Ok(Trim(text.value)) else text
  }

  /** `analyzeImage`: the wrapper's answer, mined for JSON. */
  function AnalyzeImage(outcome: nat -> CallOutcome, start: nat, parse: string -> Result<Json>): (r: Result<Json>)
    ensures r.Err? ==> r == Err(ALL_MODELS_FAILED) || r == Err(INVALID_JSON)
  {
    var (text, _) := Fallback(PRIMARY_MODEL, DEFAULT_FALLBACK_MODEL, outcome, start);
    FallbackFacts(PRIMARY_MODEL, DEFAULT_FALLBACK_MODEL, outcome, start);
    if text.Err? then Err(text.message)
    else
      ExtractFailsIff(text.value, parse);
      Extract(text.value, parse)
  }

  // ---------------------------------------------------------------
  // Prompt decisions (the prompt texts themselves are not modelled)
  // ---------------------------------------------------------------

  /** `language?.toLowerCase().includes('korean') || ...includes('한국어')` */
  predicate PromptKorean(language: Option<string>) {
    language.Some? && Language.PromptIsKorean(language.value)
  }

  /** The `<category_benchmarks>` line, chosen by exact, case-sensitive comparison. */
  datatype Benchmark = ProductivityBench | GameBench | HealthBench | SocialBench | EducationBench
                     | BusinessBench | FinanceBench | GenericBench

  function BenchmarkFor(category: Option<string>): Benchmark {
    if category == Some("productivity") then ProductivityBench
    else if category == Some("game") then GameBench
    else if category == Some("health") then HealthBench
    else if category == Some("social") then SocialBench
    else if category == Some("education") then EducationBench
    else if category == Some("business") then BusinessBench
    else if category == Some("finance") then FinanceBench
    else GenericBench
  }

  /** The seven example sets of `getCategoryExamples`, each in Korean and English. */
  datatype ExampleSet = ProductivityEx | GameEx | HealthEx | FinanceEx | SocialEx | EducationEx | BusinessEx

  /** The own keys of the `examples` record. */
  function OwnExampleKey(key: string): Option<ExampleSet> {
    if key == "productivity" then Some(ProductivityEx)
    else if key == "game" then Some(GameEx)
    else if key == "health" then Some(HealthEx)
    else if key == "finance" then Some(FinanceEx)
    else if key == "social" then Some(SocialEx)
    else if key == "education" then Some(EducationEx)
    else if key == "business" then Some(BusinessEx)
    else None
  }

  /** The text `getCategoryExamples` puts into the prompt: one example set in one language, or "undefined". */
  datatype ExamplesText = Examples(exampleSet: ExampleSet, korean: bool) | UndefinedText

  /**
   * As written: `examples[category.toLowerCase()] || examples['productivity']`
   * on a plain object literal, so the lower-cased keys that `Object.prototype`
   * provides ("constructor", "__proto__") find a truthy value that has no
   * `kr` or `en`, and the prompt receives `undefined`. A missing category throws.
   */
  function CategoryExamplesAsWritten(category: Option<string>, korean: bool): Result<ExamplesText> {
    if category.None? then Err(ReadError("undefined", "toLowerCase"))
    else
      var key := Lower(category.value);
      if OwnExampleKey(key).Some? then Ok(Examples(OwnExampleKey(key).value, korean))
      else if key == "constructor" || key == "__proto__" then Ok(UndefinedText)
      else Ok(Examples(ProductivityEx, korean))
  }

  /** The evident intent: the category's own example set, else the productivity one. */
  function CategoryExamples(category: Option<string>, korean: bool): (r: Result<ExamplesText>)
    ensures r.Err? <==> category.None?
    ensures r.Ok? ==> r.value.Examples? && r.value.korean == korean
  {
    if category.None? then Err(ReadError("undefined", "toLowerCase"))
    else
      var key := Lower(category.value);
      Ok(Examples(if OwnExampleKey(key).Some? then OwnExampleKey(key).value else ProductivityEx, korean))
  }

  /** The category "constructor" puts "undefined" into the prompt instead of an example set. */
  lemma PrototypeKeyLeaksUndefined()
    ensures CategoryExamplesAsWritten(Some("constructor"), false) == Ok(UndefinedText)
    ensures CategoryExamples(Some("constructor"), false) == Ok(Examples(ProductivityEx, false))
  {
    assert Lower("constructor") == "constructor";
  }

  /** Apart from the two prototype keys, the written lookup and the intended one agree. */
  lemma CategoryExamplesAgree(category: Option<string>, korean: bool)
    requires category.Some? ==> Lower(category.value) != "constructor" && Lower(category.value) != "__proto__"
    ensures CategoryExamplesAsWritten(category, korean) == CategoryExamples(category, korean)
  {
  }

  /** Lookups ignore ASCII case, but the benchmark line does not: "Productivity" gets productivity examples and the generic benchmark. */
  lemma CategoryCaseMismatch()
    ensures CategoryExamples(Some("Productivity"), false) == Ok(Examples(ProductivityEx, false))
    ensures BenchmarkFor(Some("Productivity")) == GenericBench
  {
    assert Lower("Productivity") == "productivity";
  }

  /** Which of the two prompts `getSystemPrompt` builds, and the choices inside it. */
  datatype PromptPlan =
    | AppStorePrompt(korean: bool, benchmark: Benchmark, examples: ExamplesText)
    | GhostwriterPrompt(korean: bool)

  /**
   * `getSystemPrompt(context)`: the App Store prompt exactly when the platform
   * is "app_store", with the examples of the written lookup, which are the
   * intended ones except for the two prototype keys.
   */
  function SystemPrompt(context: CopyContext): (r: Result<PromptPlan>)
    ensures r.Ok? ==> (r.value.AppStorePrompt? <==> context.platform == Some("app_store"))
    ensures r.Ok? ==> r.value.korean == PromptKorean(context.language)
    ensures r.Err? <==> context.platform == Some("app_store") && context.category.None?
    ensures r.Err? ==> r.message == ReadError("undefined", "toLowerCase")
    ensures r.Ok? && r.value.AppStorePrompt? && context.category.Some? ==>
              (r.value.examples.UndefinedText? <==>
               Lower(context.category.value) == "constructor" || Lower(context.category.value) == "__proto__")
    ensures r.Ok? && r.value.AppStorePrompt? && r.value.examples.Examples? ==>
              r.value.examples == CategoryExamples(context.category, r.value.korean).value
  {
    var korean := PromptKorean(context.language);
    if context.platform == Some("app_store") then
      var examples :- CategoryExamplesAsWritten(context.category, korean);
      Ok(AppStorePrompt(korean, BenchmarkFor(context.category), examples))
    else Ok(GhostwriterPrompt(korean))
  }

  /**
   * The prompt and the quality check can disagree on the language: a
   * language written "한국어" gets the Korean prompt but English limits.
   */
  lemma PromptAndValidationDisagree()
    ensures PromptKorean(Some("한국어")) && !KoreanLimits(Some("한국어"))
  {
    Language.HangulLanguageNameDisagrees();
  }
}
