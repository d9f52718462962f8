/**
 * `POST /api/refine`: check the two required fields and the session, then ask
 * Claude for a refined slide and return its parsed reply. No credit is charged.
 */
module RefineRoute {
  import opened JsRuntime
  import opened ReplyText
  import opened Http

  const MISSING_FIELDS := "Missing required fields: originalCopy and instruction"
  const SIGN_IN := "Please sign in to refine copy."
  const FALLBACK_ERROR := "Failed to refine copy. Please try again."

  /** V8's TypeError for destructuring a `null` request body. */
  const DESTRUCTURE_NULL := "Cannot destructure property 'originalCopy' of '(intermediate value)' as it is null."

  /** Whether a session exists, Claude's answer, and `JSON.parse`. */
  datatype Services = Services(signedIn: bool, claude: ClaudeCall, parse: Parser)

  /** The four context values the prompt quotes. */
  datatype PromptContext = PromptContext(appName: string, category: string, targetAudience: string, tone: string)

  /** `context?.x || default`, rendered into the prompt. */
  function Field(context: Value, key: string, default: string): (r: string)
    ensures !Truthy(OptionalMember(context, key)) ==> r == default
    ensures Truthy(OptionalMember(context, key)) ==> r == Interpolate(OptionalMember(context, key))
  {
    var v := OptionalMember(context, key);
    if Truthy(v) then Interpolate(v) else default
  }

  function PromptFields(context: Value): PromptContext {
    PromptContext(Field(context, "appName", "App"), Field(context, "category", "General"),
                  Field(context, "targetAudience", "General Users"), Field(context, "tone", "Professional"))
  }

  /** `NextResponse.json({ error: errorMessage || '...' }, { status: 500 })` */
  function Crash(message: string): Response {
    ErrorJson(500, if message != "" then message else FALLBACK_ERROR)
  }

  /** The response to a request whose body `request.json()` read as `body`. */
  function Refine(body: Result<Json>, env: Services): Response {
    match body
    case Err(m) => Crash(m)
    case Ok(JNull) => Crash(DESTRUCTURE_NULL)
    case Ok(j) =>
      var originalCopy := OptionalMember(Some(j), "originalCopy");
      var instruction := OptionalMember(Some(j), "instruction");
      if !Truthy(originalCopy) || !Truthy(instruction) then ErrorJson(400, MISSING_FIELDS)
      else if !env.signedIn then ErrorJson(401, SIGN_IN)
      else
        match ParseReply(env.claude, env.parse)
        case Ok(refined) => JsonResponse(200, JObj(map["success" := JBool(true), "data" := refined]))
        case Err(m) => Crash(m)
  }

  /** The required fields are checked before the session: an anonymous request without them gets 400. */
  lemma FieldsCheckedBeforeSession(body: Json, env: Services)
    requires !body.JNull?
    requires !Truthy(OptionalMember(Some(body), "originalCopy")) || !Truthy(OptionalMember(Some(body), "instruction"))
    ensures Refine(Ok(body), env) == ErrorJson(400, MISSING_FIELDS)
  {
  }

  /** The route answers 200 exactly when the body has both fields, a session exists and the reply parses; the data is the parsed reply. */
  lemma RefineSucceedsIff(body: Result<Json>, env: Services)
    ensures Refine(body, env).status == 200 <==>
            body.Ok? && !body.value.JNull?
            && Truthy(OptionalMember(Some(body.value), "originalCopy")) && Truthy(OptionalMember(Some(body.value), "instruction"))
            && env.signedIn && ParseReply(env.claude, env.parse).Ok?
    ensures Refine(body, env).status == 200 ==>
            Refine(body, env).body == JObj(map["success" := JBool(true), "data" := ParseReply(env.claude, env.parse).value])
  {
  }

  /** Every failure carries a non-empty message. */
  lemma ErrorsHaveMessages(body: Result<Json>, env: Services)
    requires Refine(body, env).status != 200
    ensures ErrorOf(Refine(body, env)).Some? && ErrorOf(Refine(body, env)).value != ""
  {
  }
}
