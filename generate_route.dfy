/**
 * `POST /api/generate`: check the form, the session and the balance, charge
 * one credit up front, store the screenshot, ask Claude for copy up to three
 * times, optionally render a social image for a weekly batch, save the
 * generation and log the charge. Any failure after the charge refunds it.
 */
module GenerateRoute {
  import opened JsRuntime
  import opened ReplyText
  import opened AiTypes
  import opened Supabase

  const MAX_RETRIES := 3
  const RETRY_DELAY := 1000

  const NO_IMAGE := "No image provided. Please upload a screenshot to continue."
  const SIGN_IN := "Please sign in to generate copy."
  const NO_CREDITS := "You have no credits left. Purchase more credits to continue generating copy."
  const CREDIT_FAILED := "Failed to process credit. Please try again."
  const UPLOAD_FAILED := "Failed to upload image. Your credit has been restored."
  const FETCH_FAILED := "Failed to retrieve uploaded image."
  const INVALID_FORMAT := "AI returned invalid response format"
  const ALL_FAILED := "AI generation failed after multiple attempts. Your credit has been restored."
  const UNEXPECTED := "An unexpected error occurred. Please try again."
  const DEFAULT_ACCENT := "#3B82F6"
  const MONDAY_SUBTITLE := "Monday: Origin Story"

  function SaveFailed(message: string): string { "Failed to save history: " + message }
  function RefundReason(message: string): string { "Generation failed: " + message }

  /** What `formData.get('file')` holds: an uploaded file, or a plain text value. */
  datatype FormFile = FileField(name: string) | TextField(text: string)

  datatype GenerateForm = GenerateForm(file: Option<FormFile>, context: CopyContext)

  /**
   * What the route's collaborators do, fixed in advance: the error that
   * `request.formData()` rejects with when the body is not a form, the
   * signed-in user, whether each Supabase call reports an error, the clock,
   * `fetch`, Claude's replies by attempt, `JSON.parse`, and the social-image
   * renderer.
   */
  datatype Collaborators = Collaborators(
    formDataError: Option<string>,
    user: Option<string>,
    deductOk: bool,
    now: nat,
    uploadOk: string -> bool,
    publicUrl: string -> string,
    fetchResult: Result<bool>,
    claude: nat -> ClaudeCall,
    parse: Parser,
    renderOk: SocialImageRequest -> bool,
    genNow: nat,
    insertError: Option<string>,
    generationTxOk: bool,
    refundReadOk: bool,
    refundWriteOk: bool,
    refundTxOk: bool)

  datatype GenerateResponse = Generated(data: Json, imageUrl: string) | Failed(status: int, error: string)

  /** `!file`: no file field, or an empty text value. */
  predicate FileMissing(f: Option<FormFile>) {
    f.None? || f == Some(TextField(""))
  }

  /** `formData.get('platform') || 'app_store'` */
  function Platform(form: GenerateForm): (p: string)
    ensures p != ""
  {
    if form.context.platform.Some? && form.context.platform.value != "" then form.context.platform.value
    else "app_store"
  }

  /** `platform === 'app_store'`: the App Store prompt; every other platform gets the ghostwriter prompt. */
  predicate UsesAppStorePrompt(form: GenerateForm) {
    Platform(form) == "app_store"
  }

  /** The App Store prompt is chosen exactly when the platform is missing, empty or "app_store". */
  lemma AppStorePromptIff(form: GenerateForm)
    ensures UsesAppStorePrompt(form) <==>
            form.context.platform.None? || form.context.platform.value == "" || form.context.platform.value == "app_store"
  {
  }

  /** `language || 'English'`: the language both prompts name. */
  function PromptLanguage(form: GenerateForm): (l: string)
    ensures l != ""
    ensures form.context.language.Some? && form.context.language.value != "" ==> l == form.context.language.value
    ensures form.context.language.None? || form.context.language.value == "" ==> l == "English"
  {
    if form.context.language.Some? && form.context.language.value != "" then form.context.language.value
    else "English"
  }

  /** `${userId}/${Date.now()}.${fileExt}` with `fileExt = file.name.split('.').pop()`. */
  function StorageKey(userId: string, now: nat, fileName: string): string {
    userId + "/" + NatToString(now) + "." + LastSegment(fileName)
  }

  /** `${userId}/gen_${Date.now()}.png` */
  function GeneratedKey(userId: string, now: nat): string {
    userId + "/gen_" + NatToString(now) + ".png"
  }

  // ---------------------------------------------------------------
  // The retry loop
  // ---------------------------------------------------------------

  /** Accepted: a non-empty array (v1) or an object with a `weekly_batch` key (v2). */
  predicate ValidShape(g: Json) {
    (g.JArr? && |g.items| > 0) || (g.JObj? && "weekly_batch" in g.fields)
  }

  /** One attempt: accepted with its copy, or rejected with the copy it parsed (if any) and its error. */
  datatype Attempt = Accepted(copy: Json) | Rejected(parsed: Option<Json>, error: string)

  function EvalAttempt(call: ClaudeCall, parse: Parser): (r: Attempt)
    ensures r.Accepted? <==> ParseReply(call, parse).Ok? && ValidShape(ParseReply(call, parse).value)
    ensures r.Accepted? ==> Ok(r.copy) == ParseReply(call, parse)
    ensures r.Rejected? ==> r.parsed == (if ParseReply(call, parse).Ok? then Some(ParseReply(call, parse).value) else None)
  {
    match ParseReply(call, parse)
    case Err(m) => Rejected(None, m)
    case Ok(g) =>
      if g.JArr? then
        if |g.items| > 0 then Accepted(g) else Rejected(Some(g), INVALID_FORMAT)
      else
        match HasKey("weekly_batch", Some(g))
        case Err(m) => Rejected(Some(g), m)
        case Ok(b) => if b then Accepted(g) else Rejected(Some(g), INVALID_FORMAT)
  }

  datatype LoopOutcome = LoopOutcome(copy: Option<Json>, lastError: Option<string>, attempts: nat, delays: seq<nat>)

  /** The attempts from `attempt` on, given what the earlier ones left behind. */
  function LoopFrom(claude: nat -> ClaudeCall, parse: Parser, attempt: nat, acc: LoopOutcome): LoopOutcome
    requires attempt <= MAX_RETRIES
    decreases MAX_RETRIES - attempt
  {
    if attempt == MAX_RETRIES then acc.(attempts := attempt)
    else
      match EvalAttempt(claude(attempt), parse)
      case Accepted(g) => acc.(copy := Some(g), attempts := attempt + 1)
      case Rejected(parsed, e) =>
        LoopFrom(claude, parse, attempt + 1,
                 LoopOutcome(if parsed.Some? then parsed else acc.copy, Some(e), attempt + 1,
                             acc.delays + if attempt < MAX_RETRIES - 1 then [RETRY_DELAY * (attempt + 1)] else []))
  }

  function ProviderLoop(claude: nat -> ClaudeCall, parse: Parser): LoopOutcome {
    LoopFrom(claude, parse, 0, LoopOutcome(None, None, 0, []))
  }

  /**
   * The `for (let attempt = 0; attempt < MAX_RETRIES; attempt++)` loop: the
   * copy it leaves in `generatedCopy`, the last error, how many attempts ran,
   * and the sleeps between them.
   */
  method RunProviderLoop(claude: nat -> ClaudeCall, parse: Parser)
    returns (copy: Option<Json>, lastError: Option<string>, attempts: nat, delays: seq<nat>)
    ensures LoopOutcome(copy, lastError, attempts, delays) == ProviderLoop(claude, parse)
    ensures 1 <= attempts <= MAX_RETRIES
  {
    copy, lastError, delays := None, None, [];
    var attempt := 0;
    while attempt < MAX_RETRIES
      invariant 0 <= attempt <= MAX_RETRIES
      invariant LoopFrom(claude, parse, attempt, LoopOutcome(copy, lastError, attempt, delays)) == ProviderLoop(claude, parse)
    {
      var failure: string;
      var parsed := ParseReply(claude(attempt), parse);
      if parsed.Err? {
        failure := parsed.message;
      } else {
        copy := Some(parsed.value);
        var g := parsed.value;
        if g.JArr? {
          if |g.items| > 0 {
            attempts := attempt + 1;
            return;
          }
          failure := INVALID_FORMAT;
        } else {
          var has := HasKey("weekly_batch", Some(g));
          if has.Err? {
            failure := has.message;
          } else if has.value {
            attempts := attempt + 1;
            return;
          } else {
            failure := INVALID_FORMAT;
          }
        }
      }
      lastError := Some(failure);
      if attempt < MAX_RETRIES - 1 {
        delays := delays + [RETRY_DELAY * (attempt + 1)];
      }
      attempt := attempt + 1;
    }
    attempts := attempt;
  }

  /** `if (!generatedCopy) throw new Error(lastError?.message || ...)`: only truthiness is checked. */
  function AfterLoop(copy: Option<Json>, lastError: Option<string>): (r: Result<Json>)
    ensures r.Ok? <==> Truthy(copy)
    ensures r.Ok? ==> copy == Some(r.value)
    ensures r.Err? ==> r.message != ""
  {
    if Truthy(copy) then Ok(copy.value)
    else Err(if lastError.Some? && lastError.value != "" then lastError.value else ALL_FAILED)
  }

  /** The delays slept after the first `failed` attempts: 1000 ms, then 2000 ms, none after the third. */
  function Backoff(failed: nat): seq<nat> {
    if failed == 0 then [] else if failed == 1 then [1000] else [1000, 2000]
  }

  predicate RejectedBefore(claude: nat -> ClaudeCall, parse: Parser, k: nat) {
    forall j | 0 <= j < k :: EvalAttempt(claude(j), parse).Rejected?
  }

  /** The copy left by the last of the first `n` attempts that parsed. */
  function LastParsed(claude: nat -> ClaudeCall, parse: Parser, n: nat): Option<Json> {
    if n == 0 then None
    else
      var a := EvalAttempt(claude(n - 1), parse);
      if a.Rejected? && a.parsed.Some? then a.parsed
      else if a.Accepted? then Some(a.copy)
      else LastParsed(claude, parse, n - 1)
  }

  lemma {:induction false} LoopFromRejected(claude: nat -> ClaudeCall, parse: Parser, attempt: nat, acc: LoopOutcome)
    requires attempt <= MAX_RETRIES
    requires acc.copy == LastParsed(claude, parse, attempt)
    requires acc.delays == Backoff(attempt)
    requires forall j | attempt <= j < MAX_RETRIES :: EvalAttempt(claude(j), parse).Rejected?
    ensures var r := LoopFrom(claude, parse, attempt, acc);
            r.attempts == MAX_RETRIES && r.delays == [1000, 2000]
            && r.copy == LastParsed(claude, parse, MAX_RETRIES)
            && (attempt < MAX_RETRIES ==> r.lastError == Some(EvalAttempt(claude(MAX_RETRIES - 1), parse).error))
            && (attempt == MAX_RETRIES ==> r.lastError == acc.lastError)
    decreases MAX_RETRIES - attempt
  {
    if attempt < MAX_RETRIES {
      var a := EvalAttempt(claude(attempt), parse);
      var next := LoopOutcome(if a.parsed.Some? then a.parsed else acc.copy, Some(a.error), attempt + 1,
                              acc.delays + if attempt < MAX_RETRIES - 1 then [RETRY_DELAY * (attempt + 1)] else []);
      assert LoopFrom(claude, parse, attempt, acc) == LoopFrom(claude, parse, attempt + 1, next);
      assert next.copy == LastParsed(claude, parse, attempt + 1);
      assert next.delays == Backoff(attempt + 1);
      LoopFromRejected(claude, parse, attempt + 1, next);
    }
  }

  /** Three rejected attempts: two sleeps, the third attempt's error, and the last copy that parsed. */
  lemma LoopExhausted(claude: nat -> ClaudeCall, parse: Parser)
    requires RejectedBefore(claude, parse, MAX_RETRIES)
    ensures var r := ProviderLoop(claude, parse);
            r.attempts == 3 && r.delays == [1000, 2000]
            && r.lastError == Some(EvalAttempt(claude(2), parse).error)
            && r.copy == LastParsed(claude, parse, 3)
  {
    LoopFromRejected(claude, parse, 0, LoopOutcome(None, None, 0, []));
  }

  lemma {:induction false} LoopFromAccepted(claude: nat -> ClaudeCall, parse: Parser, attempt: nat, k: nat, acc: LoopOutcome)
    requires attempt <= k < MAX_RETRIES
    requires acc.delays == Backoff(attempt)
    requires EvalAttempt(claude(k), parse).Accepted?
    requires forall j | attempt <= j < k :: EvalAttempt(claude(j), parse).Rejected?
    ensures var r := LoopFrom(claude, parse, attempt, acc);
            r.attempts == k + 1 && r.delays == Backoff(k) && r.copy == Some(EvalAttempt(claude(k), parse).copy)
    decreases k - attempt
  {
    var a := EvalAttempt(claude(attempt), parse);
    if attempt < k {
      assert a.Rejected?;
      var next := LoopOutcome(if a.parsed.Some? then a.parsed else acc.copy, Some(a.error), attempt + 1,
                              acc.delays + [RETRY_DELAY * (attempt + 1)]);
      assert LoopFrom(claude, parse, attempt, acc) == LoopFrom(claude, parse, attempt + 1, next);
      assert next.delays == Backoff(attempt + 1);
      LoopFromAccepted(claude, parse, attempt + 1, k, next);
    } else {
      assert a.Accepted?;
      assert LoopFrom(claude, parse, attempt, acc) == acc.(copy := Some(a.copy), attempts := attempt + 1);
    }
  }

  /** The loop stops at the first accepted attempt, keeps its copy, and slept once per earlier attempt. */
  lemma LoopStopsAtFirstAccepted(claude: nat -> ClaudeCall, parse: Parser, k: nat)
    requires k < MAX_RETRIES && EvalAttempt(claude(k), parse).Accepted?
    requires RejectedBefore(claude, parse, k)
    ensures var r := ProviderLoop(claude, parse);
            r.attempts == k + 1 && r.delays == Backoff(k)
            && r.copy == Some(EvalAttempt(claude(k), parse).copy)
            && AfterLoop(r.copy, r.lastError) == Ok(EvalAttempt(claude(k), parse).copy)
  {
    LoopFromAccepted(claude, parse, 0, k, LoopOutcome(None, None, 0, []));
    var g := EvalAttempt(claude(k), parse).copy;
    assert ValidShape(g);
  }

  /** When no attempt produces a truthy value, the route throws the last error (or the default message). */
  lemma NothingParsedThrowsLastError(claude: nat -> ClaudeCall, parse: Parser)
    requires forall j | 0 <= j < MAX_RETRIES :: ParseReply(claude(j), parse).Err?
    ensures var r := ProviderLoop(claude, parse);
            var m := ParseReply(claude(2), parse).message;
            AfterLoop(r.copy, r.lastError) == Err(if m != "" then m else ALL_FAILED)
  {
    LoopExhausted(claude, parse);
  }

  /**
   * The post-loop check is weaker than the in-loop validation: a reply of
   * "[]" on every attempt is rejected three times, yet the empty array goes
   * on to be saved and returned.
   */
  lemma EmptyArrayPassesAfterLoop(claude: nat -> ClaudeCall, parse: Parser)
    requires forall j | 0 <= j < MAX_RETRIES :: claude(j) == ClaudeReplied(Reply([TextBlock("[]")]))
    requires parse("[]") == Ok(JArr([]))
    ensures var r := ProviderLoop(claude, parse);
            r.attempts == 3 && AfterLoop(r.copy, r.lastError) == Ok(JArr([]))
  {
    assert StripFences("[]") == "[]" by { StripFencesNoBacktick("[]"); }
    assert CleanContent("[]") == "[]";
    LoopExhausted(claude, parse);
  }

  // ---------------------------------------------------------------
  // The auto-design step
  // ---------------------------------------------------------------

  /** The arguments of `generateSocialImage(title, subtitle, items, accent)`. */
  datatype SocialImageRequest = SocialImageRequest(title: Value, subtitle: string, items: seq<string>, accent: Json)

  predicate IsDigit(c: char) { '0' <= c <= '9' }

  function LeadingDigits(s: string): (n: nat)
    ensures n <= |s| && forall k | 0 <= k < n :: IsDigit(s[k])
    ensures n < |s| ==> !IsDigit(s[n])
  {
    if s != [] && IsDigit(s[0]) then 1 + LeadingDigits(s[1..]) else 0
  }

  const TWEET := "Tweet "

  /** `t.replace(/^Tweet \d+: /, '')` */
  function StripTweetPrefix(t: string): (r: string)
    ensures |r| <= |t| && r == t[|t| - |r|..]
  {
    if StartsWith(t, TWEET) then
      var n := LeadingDigits(t[6..]);
      if n > 0 && OccursAt(t, ": ", 6 + n) then t[6 + n + 2..] else t
    else t
  }

  /** `s.substring(0, n)` */
  function Take(s: string, n: nat): (r: string)
    ensures |r| == if |s| < n then |s| else n
    ensures r == s[..|r|]
  {
    if |s| <= n then s else s[..n]
  }

  /** One bento item: prefix stripped, cut to 60, then "..."; a non-string throws. */
  function BentoItem(t: Json): (r: Result<string>)
    ensures r.Ok? <==> t.JStr?
    ensures r.Ok? ==> 3 <= |r.value| <= 63 && r.value[|r.value| - 3..] == "..."
  {
    if t.JStr? then Ok(Take(StripTweetPrefix(t.s), 60) + "...")
    else if t.JNull? then Err(ReadError("null", "replace"))
    else Err(NotAFunction("t.replace"))
  }

  function BentoItems(tweets: seq<Json>): (r: Result<seq<string>>)
    ensures r.Ok? ==> |r.value| == |tweets|
    ensures r.Ok? <==> forall k | 0 <= k < |tweets| :: tweets[k].JStr?
  {
    if tweets == [] then Ok([])
    else
      var first :- BentoItem(tweets[0]);
      var rest :- BentoItems(tweets[1..]);
      Ok([first] + rest)
  }

  /** `weekly_batch.find(d => d.day === 'Monday')`: a `null` thread before a match throws. */
  function FindMonday(threads: seq<Json>): (r: Result<Option<Json>>)
    ensures r.Ok? && r.value.Some? ==> r.value.value in threads && OptionalMember(r.value, "day") == Some(JStr("Monday"))
  {
    if threads == [] then Ok(None)
    else if threads[0].JNull? then Err(ReadError("null", "day"))
    else if OptionalMember(Some(threads[0]), "day") == Some(JStr("Monday")) then Ok(Some(threads[0]))
    else FindMonday(threads[1..])
  }

  /**
   * The design step for an object with a `weekly_batch`: the image to
   * request, none when there is no Monday thread, or the error it throws
   * (which the route only logs).
   */
  function DesignRequest(copy: Json): (r: Result<Option<SocialImageRequest>>)
    requires copy.JObj? && "weekly_batch" in copy.fields
    ensures r.Ok? && r.value.Some? ==> r.value.value.subtitle == MONDAY_SUBTITLE && |r.value.value.items| <= 4
  {
    var batch := copy.fields["weekly_batch"];
    if !batch.JArr? then Err(if batch.JNull? then ReadError("null", "find") else NotAFunction(BATCH_FIND))
    else
      var monday :- FindMonday(batch.items);
      match monday
      case None => Ok(None)
      case Some(thread) => MondayDesign(copy, thread)
  }

  const BATCH_FIND := "output.weekly_batch.find"
  const THREAD_MAP := "mondayThread.thread.slice(...).map"

  /** The request built from the Monday thread: its hook, its first four tweets and the accent colour. */
  function MondayDesign(copy: Json, thread: Json): (r: Result<Option<SocialImageRequest>>)
    ensures r.Ok? && r.value.Some? ==> r.value.value.subtitle == MONDAY_SUBTITLE && |r.value.value.items| <= 4
  {
    var tweets := OptionalMember(Some(thread), "thread");
    if !(tweets.Some? && tweets.value.JArr?) then Err(NotAFunction(THREAD_MAP))
    else
      var items :- BentoItems(if |tweets.value.items| <= 4 then tweets.value.items else tweets.value.items[..4]);
      var config := OptionalMember(Some(copy), "design_config");
      if config.None? || config == Some(JNull) then Err(ReadError(if config.None? then "undefined" else "null", "accent_color"))
      else
        Ok(Some(SocialImageRequest(OptionalMember(Some(thread), "hook"), MONDAY_SUBTITLE, items,
                                   Or(OptionalMember(config, "accent_color"), JStr(DEFAULT_ACCENT)))))
  }

  /** The image URL the route returns: the rendered image's when every design step succeeds, else the screenshot's. */
  function ImageUrl(copy: Json, userId: string, key: string, env: Collaborators): string {
    var genKey := GeneratedKey(userId, env.genNow);
    if DesignSucceeds(copy, genKey, env) then env.publicUrl(genKey) else env.publicUrl(key)
  }

  /** A weekly batch with a Monday thread whose image renders and uploads. */
  predicate DesignSucceeds(copy: Json, genKey: string, env: Collaborators) {
    copy.JObj? && "weekly_batch" in copy.fields
    && var request := DesignRequest(copy);
       request.Ok? && request.value.Some? && env.renderOk(request.value.value) && env.uploadOk(genKey)
  }

  /** `generatedCopy && !Array.isArray(generatedCopy) && 'weekly_batch' in generatedCopy` for a truthy copy. */
  function DesignCheck(copy: Json): (r: Result<bool>)
    ensures r.Err? <==> !(copy.JArr? || copy.JObj?)
    ensures r == Ok(true) <==> copy.JObj? && "weekly_batch" in copy.fields
  {
    if copy.JArr? then Ok(false) else HasKey("weekly_batch", Some(copy))
  }

  // ---------------------------------------------------------------
  // The route
  // ---------------------------------------------------------------

  /** The guards before the charge pass: a readable form with a file, a user, a profile with at least one credit. */
  predicate Admitted(form: GenerateForm, env: Collaborators, credits: map<string, int>) {
    env.formDataError.None? && !FileMissing(form.file) && env.user.Some? && env.user.value in credits && credits[env.user.value] >= 1
  }

  /** The copy the route saves, if the loop and the checks after it let one through. */
  function CopyAfterLoop(env: Collaborators): Result<Json> {
    var r := ProviderLoop(env.claude, env.parse);
    AfterLoop(r.copy, r.lastError)
  }

  /** Every step after the charge succeeds. */
  predicate Succeeds(form: GenerateForm, env: Collaborators) {
    form.file.Some? && form.file.value.FileField? && env.user.Some?
    && env.uploadOk(StorageKey(env.user.value, env.now, form.file.value.name))
    && env.fetchResult == Ok(true)
    && CopyAfterLoop(env).Ok? && DesignCheck(CopyAfterLoop(env).value).Ok?
    && env.insertError.None?
  }

  /** The context saved with a generation: the form fields, with the defaulted platform. */
  function SavedContext(form: GenerateForm): CopyContext {
    form.context.(platform := Some(Platform(form)))
  }

  /**
   * The tables after a failure past the charge: the user's balance set back
   * to `balance` when the refund's read and write succeed, and the refund
   * logged when its read and insert succeed.
   */
  function Refunded(db: Db, u: string, balance: int, thrown: string, env: Collaborators): Db {
    var refund := u != "" && env.refundReadOk;
    Db(if refund && env.refundWriteOk then db.credits[u := balance] else db.credits,
       db.transactions + (if refund && env.refundTxOk then [Transaction(u, 1.0, RefundTx, Some(RefundReason(thrown)))] else []),
       db.generations)
  }

  /** The tables after a success: the generation saved, and the charge logged when that insert succeeds. */
  function Saved(db: Db, row: GenerationRow, env: Collaborators): Db {
    Db(db.credits,
       db.transactions + (if env.generationTxOk then [Transaction(row.userId, -1.0, GenerationTx, None)] else []),
       db.generations + [row])
  }

  /** What the route answers, the message its catch block was given ("" for none), and the tables after it. */
  datatype RouteResult = RouteResult(resp: GenerateResponse, thrown: string, db: Db)

  /** The catch block after the charge: the message, or the generic one when it is empty, and the refund. */
  function Fail(db: Db, u: string, balance: int, thrown: string, env: Collaborators): RouteResult {
    RouteResult(Failed(500, if thrown != "" then thrown else UNEXPECTED), thrown, Refunded(db, u, balance, thrown, env))
  }

  /** The copy checked: save it with the image URL the design step leaves, then log the charge. */
  function SaveModel(db: Db, form: GenerateForm, env: Collaborators, u: string, key: string, copy: Json, balance: int)
    : RouteResult
  {
    if env.insertError.Some? then Fail(db, u, balance, SaveFailed(env.insertError.value), env)
    else
      var url := ImageUrl(copy, u, key, env);
      RouteResult(Generated(copy, url), "", Saved(db, GenerationRow(u, url, SavedContext(form), copy), env))
  }

  /** The screenshot stored under `key`: generate, check, then save. */
  function AfterStore(db: Db, form: GenerateForm, env: Collaborators, u: string, key: string, balance: int): RouteResult {
    match CheckedCopy(env)
    case Err(m) => Fail(db, u, balance, m, env)
    case Ok(copy) => SaveModel(db, form, env, u, key, copy, balance)
  }

  /** The credit taken: store and fetch the screenshot, then the rest. */
  function AfterChargeModel(db: Db, form: GenerateForm, env: Collaborators, u: string, balance: int): RouteResult
    requires form.file.Some?
  {
    var failure := StoreFailure(form, env, u);
    if failure.Some? then Fail(db, u, balance, failure.value, env)
    else AfterStore(db, form, env, u, StorageKey(u, env.now, form.file.value.name), balance)
  }

  /** The whole handler: the guards, the charge, and what follows it. */
  function Route(db: Db, form: GenerateForm, env: Collaborators): RouteResult {
    if env.formDataError.Some? then
      var m := env.formDataError.value;
      RouteResult(Failed(500, if m != "" then m else UNEXPECTED), m, db)
    else if FileMissing(form.file) then RouteResult(Failed(400, NO_IMAGE), "", db)
    else if env.user.None? then RouteResult(Failed(401, SIGN_IN), "", db)
    else
      var u := env.user.value;
      if u !in db.credits || db.credits[u] < 1 then RouteResult(Failed(403, NO_CREDITS), "", db)
      else if !env.deductOk then RouteResult(Failed(500, CREDIT_FAILED), CREDIT_FAILED, db)
      else AfterChargeModel(db.(credits := db.credits[u := db.credits[u] - 1]), form, env, u, db.credits[u])
  }

  // ---------------------------------------------------------------
  // What the route leaves in the screenshots bucket
  // ---------------------------------------------------------------

  /** Storing the screenshot adds the upload once it succeeded, whether or not the fetch after it does. */
  function StoredObjects(form: GenerateForm, env: Collaborators, u: string): seq<string>
    requires form.file.Some?
  {
    if form.file.value.FileField? && env.uploadOk(StorageKey(u, env.now, form.file.value.name))
    then [StorageKey(u, env.now, form.file.value.name)] else []
  }

  /** The design step adds the rendered image when every part of it succeeds. */
  function DesignObjects(copy: Json, u: string, env: Collaborators): seq<string> {
    var genKey := GeneratedKey(u, env.genNow);
    if DesignSucceeds(copy, genKey, env) then [genKey] else []
  }

  /** The steps after storing add the design step's image when a checked copy reaches that step. */
  function AfterStoreObjects(env: Collaborators, u: string): seq<string> {
    match CheckedCopy(env)
    case Err(_) => []
    case Ok(copy) => DesignObjects(copy, u, env)
  }

  /** Everything after the charge: the screenshot, then, when it was stored and fetched, the design step's image. */
  function AfterChargeObjects(form: GenerateForm, env: Collaborators, u: string): seq<string>
    requires form.file.Some?
  {
    StoredObjects(form, env, u) + (if StoreFailure(form, env, u).None? then AfterStoreObjects(env, u) else [])
  }

  /** The whole handler adds nothing unless the guards and the charge pass. */
  function RouteObjects(credits: map<string, int>, form: GenerateForm, env: Collaborators): seq<string> {
    if Admitted(form, env, credits) && env.deductOk then AfterChargeObjects(form, env, env.user.value) else []
  }

  /**
   * No catch block removes an upload: once the screenshot was stored it stays
   * in the bucket, whatever the route answers, and it comes first.
   */
  lemma FailureKeepsScreenshot(db: Db, form: GenerateForm, env: Collaborators)
    requires Admitted(form, env, db.credits) && env.deductOk && form.file.value.FileField?
    requires env.uploadOk(StorageKey(env.user.value, env.now, form.file.value.name))
    ensures |RouteObjects(db.credits, form, env)| >= 1
    ensures RouteObjects(db.credits, form, env)[0] == StorageKey(env.user.value, env.now, form.file.value.name)
  {
  }

  /**
   * The route adds at most the screenshot and the rendered image, in that
   * order, and the rendered image only after a copy passed every check.
   */
  lemma RouteObjectsBound(db: Db, form: GenerateForm, env: Collaborators)
    ensures |RouteObjects(db.credits, form, env)| <= 2
    ensures |RouteObjects(db.credits, form, env)| == 2 ==>
              form.file.value.FileField? && StoreFailure(form, env, env.user.value).None?
              && RouteObjects(db.credits, form, env)
                 == [StorageKey(env.user.value, env.now, form.file.value.name), GeneratedKey(env.user.value, env.genNow)]
              && CheckedCopy(env).Ok? && DesignSucceeds(CheckedCopy(env).value, GeneratedKey(env.user.value, env.genNow), env)
  {
  }

  /**
   * A failed insert of the generation answers 500 and refunds the credit,
   * but the rendered image uploaded before the insert stays in the bucket.
   */
  lemma InsertFailureLeavesRenderedImage(db: Db, form: GenerateForm, env: Collaborators)
    requires Admitted(form, env, db.credits) && env.deductOk
    requires StoreFailure(form, env, env.user.value).None? && CheckedCopy(env).Ok?
    requires DesignSucceeds(CheckedCopy(env).value, GeneratedKey(env.user.value, env.genNow), env)
    requires env.insertError.Some?
    ensures Route(db, form, env).resp.Failed?
    ensures RouteObjects(db.credits, form, env)
            == [StorageKey(env.user.value, env.now, form.file.value.name), GeneratedKey(env.user.value, env.genNow)]
  {
  }

  /**
   * The guards answer without touching a table, and a body that is not a form
   * or a failed charge throws before anything changed, so no refund follows.
   */
  lemma RouteGuards(db: Db, form: GenerateForm, env: Collaborators)
    ensures env.formDataError.Some? ==>
              Route(db, form, env).resp.Failed? && Route(db, form, env).resp.status == 500
              && Route(db, form, env).thrown == env.formDataError.value
    ensures env.formDataError.None? && FileMissing(form.file) ==> Route(db, form, env).resp == Failed(400, NO_IMAGE)
    ensures env.formDataError.None? && !FileMissing(form.file) && env.user.None? ==> Route(db, form, env).resp == Failed(401, SIGN_IN)
    ensures env.formDataError.None? && !FileMissing(form.file) && env.user.Some? && (env.user.value !in db.credits || db.credits[env.user.value] < 1)
            ==> Route(db, form, env).resp == Failed(403, NO_CREDITS)
    ensures !Admitted(form, env, db.credits) ==> Route(db, form, env).db == db
    ensures Admitted(form, env, db.credits) && !env.deductOk ==>
              Route(db, form, env) == RouteResult(Failed(500, CREDIT_FAILED), CREDIT_FAILED, db)
  {
  }

  /** The steps after the charge succeed exactly when the route answers with copy. */
  lemma AfterChargeSucceedsIff(db: Db, form: GenerateForm, env: Collaborators, u: string, balance: int)
    requires form.file.Some? && env.user == Some(u)
    ensures AfterChargeModel(db, form, env, u, balance).resp.Generated? <==> Succeeds(form, env)
  {
  }

  /** A copy is returned exactly when the guards and the charge pass and every later step succeeds. */
  lemma RouteSucceedsIff(db: Db, form: GenerateForm, env: Collaborators)
    ensures Route(db, form, env).resp.Generated? <==> Admitted(form, env, db.credits) && env.deductOk && Succeeds(form, env)
  {
    if Admitted(form, env, db.credits) && env.deductOk {
      var u := env.user.value;
      AfterChargeSucceedsIff(db.(credits := db.credits[u := db.credits[u] - 1]), form, env, u, db.credits[u]);
    }
  }

  /** After the charge, a success keeps the charged balance, saves the copy the loop returned and logs the charge. */
  lemma AfterChargeSuccess(db: Db, form: GenerateForm, env: Collaborators, u: string, balance: int)
    requires form.file.Some?
    ensures var r := AfterChargeModel(db, form, env, u, balance);
            r.resp.Generated? ==>
              Ok(r.resp.data) == CopyAfterLoop(env)
              && (r.resp.data.JArr? || r.resp.data.JObj?)
              && r.resp.imageUrl == ImageUrl(r.resp.data, u, StorageKey(u, env.now, form.file.value.name), env)
              && r.db == Saved(db, GenerationRow(u, r.resp.imageUrl, SavedContext(form), r.resp.data), env)
  {
  }

  /**
   * Success: one credit spent, the copy saved as the loop returned it with
   * the image URL the design step left, and the charge logged when that
   * insert succeeds.
   */
  lemma RouteSuccess(db: Db, form: GenerateForm, env: Collaborators)
    ensures var r := Route(db, form, env);
            r.resp.Generated? ==>
              var u := env.user.value;
              r.db.credits == db.credits[u := db.credits[u] - 1]
              && Ok(r.resp.data) == CopyAfterLoop(env)
              && (r.resp.data.JArr? || r.resp.data.JObj?)
              && r.resp.imageUrl == ImageUrl(r.resp.data, u, StorageKey(u, env.now, form.file.value.name), env)
              && r.db.generations == db.generations + [GenerationRow(u, r.resp.imageUrl, SavedContext(form), r.resp.data)]
              && r.db.transactions == db.transactions
                   + (if env.generationTxOk then [Transaction(u, -1.0, GenerationTx, None)] else [])
  {
    var r := Route(db, form, env);
    if r.resp.Generated? {
      var u := env.user.value;
      AfterChargeSuccess(db.(credits := db.credits[u := db.credits[u] - 1]), form, env, u, db.credits[u]);
    }
  }

  /** After the charge, every failure is the catch block's. */
  lemma AfterChargeFailure(db: Db, form: GenerateForm, env: Collaborators, u: string, balance: int)
    requires form.file.Some?
    ensures var r := AfterChargeModel(db, form, env, u, balance);
            r.resp.Failed? ==> r == Fail(db, u, balance, r.thrown, env)
  {
  }

  /**
   * A failure saves nothing; one after the charge answers 500 with the
   * thrown message and gives the credit back when the refund's calls succeed.
   */
  lemma RouteFailureRefunds(db: Db, form: GenerateForm, env: Collaborators)
    ensures var r := Route(db, form, env);
            r.resp.Failed? ==> r.db.generations == db.generations
    ensures var r := Route(db, form, env);
            Admitted(form, env, db.credits) && env.deductOk && r.resp.Failed? ==>
              var u := env.user.value;
              var refund := u != "" && env.refundReadOk;
              r.resp == Failed(500, if r.thrown != "" then r.thrown else UNEXPECTED)
              && r.db.credits == (if refund && env.refundWriteOk then db.credits else db.credits[u := db.credits[u] - 1])
              && r.db.transactions == db.transactions
                   + (if refund && env.refundTxOk then [Transaction(u, 1.0, RefundTx, Some(RefundReason(r.thrown)))] else [])
  {
    var r := Route(db, form, env);
    if Admitted(form, env, db.credits) && env.deductOk {
      var u := env.user.value;
      var charged := db.(credits := db.credits[u := db.credits[u] - 1]);
      AfterChargeFailure(charged, form, env, u, db.credits[u]);
      assert charged.credits[u := db.credits[u]] == db.credits;
    }
  }

  /** The catch block: refund the charge when there was one, then report the message. */
  method Restore(ledger: Ledger, creditDeducted: bool, userId: string, message: string, env: Collaborators)
    returns (resp: GenerateResponse)
    modifies ledger
    ensures creditDeducted && userId in old(ledger.credits) ==>
              RouteResult(resp, message, ledger.Snapshot())
                == Fail(old(ledger.Snapshot()), userId, old(ledger.credits)[userId] + 1, message, env)
    ensures resp == Failed(500, if message != "" then message else UNEXPECTED)
    ensures !creditDeducted ==> ledger.Snapshot() == old(ledger.Snapshot())
  {
    if creditDeducted && userId != "" && env.refundReadOk && userId in ledger.credits {
      var current := ledger.credits[userId];
      if env.refundWriteOk {
        ledger.UpdateCredits(userId, current + 1);
      }
      if env.refundTxOk {
        ledger.LogTransaction(Transaction(userId, 1.0, RefundTx, Some(RefundReason(message))));
      }
    }
    resp := Failed(500, if message != "" then message else UNEXPECTED);
  }

  /**
   * Everything after the charge, for a user whose balance was `balance` and is
   * now one less: store the screenshot, generate, design, save and log.
   */
  method AfterCharge(ledger: Ledger, bucket: Bucket, form: GenerateForm, env: Collaborators, u: string, ghost balance: int)
    returns (resp: GenerateResponse, thrown: string)
    requires form.file.Some?
    requires u in ledger.credits && ledger.credits[u] == balance - 1
    modifies ledger, bucket
    ensures RouteResult(resp, thrown, ledger.Snapshot()) == AfterChargeModel(old(ledger.Snapshot()), form, env, u, balance)
    ensures resp.Generated? ==>
              |bucket.objects| >= |old(bucket.objects)| + 1
              && bucket.objects[|old(bucket.objects)|] == StorageKey(u, env.now, form.file.value.name)
    ensures bucket.objects == old(bucket.objects) + AfterChargeObjects(form, env, u)
  {
    var failure := StoreScreenshot(bucket, form, env, u);
    if failure.Some? {
      thrown := failure.value;
      resp := Restore(ledger, true, u, thrown, env);
      return;
    }
    var key := StorageKey(u, env.now, form.file.value.name);
    ghost var n := |old(bucket.objects)|;
    ghost var stored := bucket.objects;
    assert stored[n] == key;
    resp, thrown := GenerateAndSave(ledger, bucket, form, env, u, key, balance);
    assert bucket.objects[..|stored|] == stored;
    assert bucket.objects[n] == bucket.objects[..|stored|][n];
  }

  /** The message thrown while storing and fetching the screenshot, if any. */
  function StoreFailure(form: GenerateForm, env: Collaborators, u: string): (r: Option<string>)
    requires form.file.Some?
    ensures r.None? <==>
            form.file.value.FileField? && env.uploadOk(StorageKey(u, env.now, form.file.value.name)) && env.fetchResult == Ok(true)
  {
    if form.file.value.TextField? then Some(ReadError("undefined", "split"))
    else if !env.uploadOk(StorageKey(u, env.now, form.file.value.name)) then Some(UPLOAD_FAILED)
    else if env.fetchResult.Err? then Some(env.fetchResult.message)
    else if !env.fetchResult.value then Some(FETCH_FAILED)
    else None
  }

  /** Name the upload after the user, the time and the file's extension, store it, then fetch it back. */
  method StoreScreenshot(bucket: Bucket, form: GenerateForm, env: Collaborators, u: string) returns (failure: Option<string>)
    requires form.file.Some?
    modifies bucket
    ensures failure == StoreFailure(form, env, u)
    ensures failure.None? ==> bucket.objects == old(bucket.objects) + [StorageKey(u, env.now, form.file.value.name)]
    ensures bucket.objects == old(bucket.objects) + StoredObjects(form, env, u)
  {
    if form.file.value.TextField? {
      return Some(ReadError("undefined", "split"));
    }
    var key := StorageKey(u, env.now, form.file.value.name);
    if !env.uploadOk(key) {
      return Some(UPLOAD_FAILED);
    }
    bucket.Upload(key);
    if env.fetchResult.Err? {
      return Some(env.fetchResult.message);
    }
    if !env.fetchResult.value {
      return Some(FETCH_FAILED);
    }
    return None;
  }

  /**
   * The steps after the screenshot is stored and fetched: generate, check,
   * design, save and log, refunding the charge on a failure.
   */
  method GenerateAndSave(ledger: Ledger, bucket: Bucket, form: GenerateForm, env: Collaborators, u: string, key: string,
                         ghost balance: int)
    returns (resp: GenerateResponse, thrown: string)
    requires u in ledger.credits && ledger.credits[u] == balance - 1
    modifies ledger, bucket
    ensures RouteResult(resp, thrown, ledger.Snapshot()) == AfterStore(old(ledger.Snapshot()), form, env, u, key, balance)
    ensures |bucket.objects| >= |old(bucket.objects)| && bucket.objects[..|old(bucket.objects)|] == old(bucket.objects)
    ensures bucket.objects == old(bucket.objects) + AfterStoreObjects(env, u)
  {
    var checked := ProduceCopy(env);
    if checked.Err? {
      thrown := checked.message;
      resp := Restore(ledger, true, u, thrown, env);
      return;
    }
    resp, thrown := SaveGeneration(ledger, bucket, form, env, u, key, checked.value, balance);
  }

  /** The copy that passes the loop and the design check, or the message of the step that threw. */
  function CheckedCopy(env: Collaborators): (r: Result<Json>)
    ensures r.Ok? <==> CopyAfterLoop(env).Ok? && DesignCheck(CopyAfterLoop(env).value).Ok?
    ensures r.Ok? ==> Ok(r.value) == CopyAfterLoop(env) && (r.value.JArr? || r.value.JObj?)
  {
    var copy :- CopyAfterLoop(env);
    var weekly :- DesignCheck(copy);
    Ok(copy)
  }

  /** The provider loop, then the checks after it. */
  method ProduceCopy(env: Collaborators) returns (checked: Result<Json>)
    ensures checked == CheckedCopy(env)
  {
    var copy, lastError, attempts, delays := RunProviderLoop(env.claude, env.parse);
    checked := AfterLoop(copy, lastError);
    if checked.Err? {
      return;
    }
    var design := DesignCheck(checked.value);
    if design.Err? {
      return Err(design.message);
    }
  }

  /** Auto-design, then save the generation and log the charge; a failed insert refunds it. */
  method SaveGeneration(ledger: Ledger, bucket: Bucket, form: GenerateForm, env: Collaborators, u: string, key: string,
                        generated: Json, ghost balance: int)
    returns (resp: GenerateResponse, thrown: string)
    requires u in ledger.credits && ledger.credits[u] == balance - 1
    modifies ledger, bucket
    ensures RouteResult(resp, thrown, ledger.Snapshot()) == SaveModel(old(ledger.Snapshot()), form, env, u, key, generated, balance)
    ensures |bucket.objects| >= |old(bucket.objects)| && bucket.objects[..|old(bucket.objects)|] == old(bucket.objects)
    ensures bucket.objects == old(bucket.objects) + DesignObjects(generated, u, env)
  {
    var imageUrl := AutoDesign(bucket, generated, u, key, env);
    assert bucket.objects[..|old(bucket.objects)|] == old(bucket.objects);
    if env.insertError.Some? {
      thrown := SaveFailed(env.insertError.value);
      resp := Restore(ledger, true, u, thrown, env);
      return;
    }
    ledger.InsertGeneration(GenerationRow(u, imageUrl, SavedContext(form), generated));
    if env.generationTxOk {
      ledger.LogTransaction(Transaction(u, -1.0, GenerationTx, None));
    }
    resp, thrown := Generated(generated, imageUrl), "";
  }

  /** The auto-design step: upload a rendered image when every part of it succeeds; errors are swallowed. */
  method AutoDesign(bucket: Bucket, generated: Json, u: string, key: string, env: Collaborators) returns (imageUrl: string)
    modifies bucket
    ensures imageUrl == ImageUrl(generated, u, key, env)
    ensures bucket.objects == old(bucket.objects)
              + if DesignSucceeds(generated, GeneratedKey(u, env.genNow), env) then [GeneratedKey(u, env.genNow)] else []
  {
    imageUrl := env.publicUrl(key);
    var genKey := GeneratedKey(u, env.genNow);
    if generated.JObj? && "weekly_batch" in generated.fields {
      var request := DesignRequest(generated);
      if request.Ok? && request.value.Some? {
        if env.renderOk(request.value.value) && env.uploadOk(genKey) {
          bucket.Upload(genKey);
          imageUrl := env.publicUrl(genKey);
        }
      }
    }
  }

  /** `POST(request)` on the live tables and bucket. */
  method Post(ledger: Ledger, bucket: Bucket, form: GenerateForm, env: Collaborators)
    returns (resp: GenerateResponse, thrown: string)
    modifies ledger, bucket
    ensures RouteResult(resp, thrown, ledger.Snapshot()) == Route(old(ledger.Snapshot()), form, env)
    ensures !(Admitted(form, env, old(ledger.credits)) && env.deductOk) ==> bucket.objects == old(bucket.objects)
    ensures resp.Generated? ==>
              |bucket.objects| >= |old(bucket.objects)| + 1
              && bucket.objects[|old(bucket.objects)|] == StorageKey(env.user.value, env.now, form.file.value.name)
    ensures bucket.objects == old(bucket.objects) + RouteObjects(old(ledger.credits), form, env)
  {
    thrown := "";
    if env.formDataError.Some? {
      thrown := env.formDataError.value;
      resp := Restore(ledger, false, "", thrown, env);
      return;
    }
    if FileMissing(form.file) {
      return Failed(400, NO_IMAGE), thrown;
    }
    if env.user.None? {
      return Failed(401, SIGN_IN), thrown;
    }
    var u := env.user.value;
    if u !in ledger.credits || ledger.credits[u] < 1 {
      return Failed(403, NO_CREDITS), thrown;
    }
    var balance := ledger.credits[u];
    if !env.deductOk {
      thrown := CREDIT_FAILED;
      resp := Restore(ledger, false, u, thrown, env);
      return;
    }
    ghost var c0 := ledger.credits;
    ledger.UpdateCredits(u, balance - 1);
    resp, thrown := AfterCharge(ledger, bucket, form, env, u, balance);
    assert RouteObjects(c0, form, env) == AfterChargeObjects(form, env, u);
  }

  // ---------------------------------------------------------------
  // The design step on output of the documented shape
  // ---------------------------------------------------------------

  function FirstMonday(ts: seq<WeeklyThread>): Option<WeeklyThread> {
    if ts == [] then None else if ts[0].day == Monday then Some(ts[0]) else FirstMonday(ts[1..])
  }

  /** The bento items of a list of tweets: prefix stripped, cut to 60 characters, "..." appended. */
  function Bento(tweets: seq<string>): (r: seq<string>)
    ensures |r| == |tweets|
  {
    if tweets == [] then [] else [Take(StripTweetPrefix(tweets[0]), 60) + "..."] + Bento(tweets[1..])
  }

  lemma {:induction false} BentoItemsOfStrings(tweets: seq<string>)
    ensures BentoItems(StringsToJson(tweets)) == Ok(Bento(tweets))
  {
    if tweets != [] {
      assert StringsToJson(tweets)[1..] == StringsToJson(tweets[1..]);
      BentoItemsOfStrings(tweets[1..]);
    }
  }

  lemma {:induction false} FindMondayOfThreads(ts: seq<WeeklyThread>)
    ensures FindMonday(ThreadsToJson(ts)) == Ok(if FirstMonday(ts).Some? then Some(ThreadToJson(FirstMonday(ts).value)) else None)
  {
    if ts != [] {
      assert ThreadsToJson(ts)[1..] == ThreadsToJson(ts[1..]);
      assert OptionalMember(Some(ThreadToJson(ts[0])), "day") == Some(JStr(DayName(ts[0].day)));
      FindMondayOfThreads(ts[1..]);
    }
  }

  lemma StringsToJsonTake(xs: seq<string>)
    requires |xs| > 4
    ensures StringsToJson(xs)[..4] == StringsToJson(xs[..4])
  {
  }

  /** The design step once the Monday thread, its tweets and the design config are in hand. */
  lemma DesignRequestFound(copy: Json, thread: Json, tweets: seq<Json>, items: seq<string>, config: Json)
    requires copy.JObj? && "weekly_batch" in copy.fields && copy.fields["weekly_batch"].JArr?
    requires FindMonday(copy.fields["weekly_batch"].items) == Ok(Some(thread))
    requires OptionalMember(Some(thread), "thread") == Some(JArr(tweets))
    requires BentoItems(if |tweets| <= 4 then tweets else tweets[..4]) == Ok(items)
    requires OptionalMember(Some(copy), "design_config") == Some(config) && config.JObj?
    ensures DesignRequest(copy) == Ok(Some(SocialImageRequest(OptionalMember(Some(thread), "hook"), MONDAY_SUBTITLE, items,
                                                              Or(OptionalMember(Some(config), "accent_color"), JStr(DEFAULT_ACCENT)))))
  {
    assert MondayDesign(copy, thread).Ok?;
  }

  lemma DesignWithoutMonday(o: GhostwriterOutput)
    requires FirstMonday(o.weeklyBatch).None?
    ensures DesignRequest(OutputToJson(o)) == Ok(None)
  {
    var copy := OutputToJson(o);
    assert copy.fields["weekly_batch"] == JArr(ThreadsToJson(o.weeklyBatch));
    FindMondayOfThreads(o.weeklyBatch);
  }

  lemma DesignWithMonday(o: GhostwriterOutput, t: WeeklyThread)
    requires FirstMonday(o.weeklyBatch) == Some(t)
    ensures var accent := if o.accentColor != "" then o.accentColor else DEFAULT_ACCENT;
            var first4 := if |t.thread| <= 4 then t.thread else t.thread[..4];
            DesignRequest(OutputToJson(o))
              == Ok(Some(SocialImageRequest(Some(JStr(t.hook)), MONDAY_SUBTITLE, Bento(first4), JStr(accent))))
  {
    var copy := OutputToJson(o);
    var config := JObj(map["accent_color" := JStr(o.accentColor), "suggested_layout" := JStr(LayoutName(o.layout))]);
    OutputMembers(o);
    FindMondayOfThreads(o.weeklyBatch);
    var first4 := if |t.thread| <= 4 then t.thread else t.thread[..4];
    ThreadMembers(t);
    assert FindMonday(copy.fields["weekly_batch"].items) == Ok(Some(ThreadToJson(t)));
    DesignRequestFound(copy, ThreadToJson(t), StringsToJson(t.thread), Bento(first4), config);
    OrString(o.accentColor, JStr(DEFAULT_ACCENT));
  }

  /** The members of an encoded output that the design step reads. */
  lemma OutputMembers(o: GhostwriterOutput)
    ensures var copy := OutputToJson(o);
            var config := JObj(map["accent_color" := JStr(o.accentColor), "suggested_layout" := JStr(LayoutName(o.layout))]);
            copy.fields["weekly_batch"] == JArr(ThreadsToJson(o.weeklyBatch)) &&
            OptionalMember(Some(copy), "design_config") == Some(config) &&
            OptionalMember(Some(config), "accent_color") == Some(JStr(o.accentColor))
  {
  }

  /** The members of an encoded thread that the design step reads, and its first four tweets as items. */
  lemma ThreadMembers(t: WeeklyThread)
    ensures var tj := ThreadToJson(t);
            var tweets := StringsToJson(t.thread);
            var first4 := if |t.thread| <= 4 then t.thread else t.thread[..4];
            OptionalMember(Some(tj), "thread") == Some(JArr(tweets)) &&
            OptionalMember(Some(tj), "hook") == Some(JStr(t.hook)) &&
            BentoItems(if |tweets| <= 4 then tweets else tweets[..4]) == Ok(Bento(first4))
  {
    FirstFourItems(t.thread);
  }

  /** The bento items of the first four encoded tweets are those of the first four tweets. */
  lemma FirstFourItems(tweets: seq<string>)
    ensures var js := StringsToJson(tweets);
            var first4 := if |tweets| <= 4 then tweets else tweets[..4];
            BentoItems(if |js| <= 4 then js else js[..4]) == Ok(Bento(first4))
  {
    var js := StringsToJson(tweets);
    var first4 := if |tweets| <= 4 then tweets else tweets[..4];
    if |tweets| > 4 { StringsToJsonTake(tweets); }
    assert (if |js| <= 4 then js else js[..4]) == StringsToJson(first4);
    BentoItemsOfStrings(first4);
  }

  /** A run of digits followed by a non-digit (or nothing) is counted exactly. */
  lemma {:induction false} LeadingDigitsOf(digits: string, rest: string)
    requires forall k | 0 <= k < |digits| :: IsDigit(digits[k])
    requires rest == [] || !IsDigit(rest[0])
    ensures LeadingDigits(digits + rest) == |digits|
  {
    if digits == [] {
      assert digits + rest == rest;
    } else {
      assert (digits + rest)[1..] == digits[1..] + rest;
      LeadingDigitsOf(digits[1..], rest);
    }
  }

  /** "Tweet ", one or more digits and ": " are stripped from the front of a tweet. */
  lemma TweetPrefixStripped(digits: string, rest: string)
    requires digits != [] && forall k | 0 <= k < |digits| :: IsDigit(digits[k])
    ensures StripTweetPrefix(TWEET + digits + ": " + rest) == rest
  {
    var t := TWEET + digits + ": " + rest;
    assert t[..6] == TWEET;
    assert t[6..] == digits + (": " + rest);
    LeadingDigitsOf(digits, ": " + rest);
    var n := |digits|;
    assert t[6 + n..6 + n + 2] == ": ";
    assert t[6 + n + 2..] == rest;
  }

  /** Without digits after "Tweet " the tweet is kept whole. */
  lemma TweetWithoutNumberKept(rest: string)
    requires rest == [] || !IsDigit(rest[0])
    ensures StripTweetPrefix(TWEET + rest) == TWEET + rest
  {
    var t := TWEET + rest;
    assert t[..6] == TWEET;
    assert t[6..] == rest;
    LeadingDigitsOf([], rest);
    assert [] + rest == rest;
  }

  /** With digits after "Tweet " but no ": " right after them, the tweet is kept whole. */
  lemma TweetWithoutColonKept(digits: string, rest: string)
    requires forall k | 0 <= k < |digits| :: IsDigit(digits[k])
    requires rest == [] || !IsDigit(rest[0])
    requires !StartsWith(rest, ": ")
    ensures StripTweetPrefix(TWEET + digits + rest) == TWEET + digits + rest
  {
    var t := TWEET + digits + rest;
    assert t[..6] == TWEET;
    assert t[6..] == digits + rest;
    LeadingDigitsOf(digits, rest);
  }
}
