/**
 * `POST /api/analyze-image`: check the session and the uploaded file, ask
 * Claude to read the screenshot's metadata, and return the parsed reply.
 */
module AnalyzeImageRoute {
  import opened JsRuntime
  import opened ReplyText
  import opened Http
  import GenerateRoute
  import Anthropic
  import opened AiTypes

  const SIGN_IN := "Please sign in to analyze images."
  const NO_IMAGE := "No image provided."

  /** Whether a session exists, what `request.formData()` gives for `file`, Claude's answer and `JSON.parse`. */
  datatype Services = Services(signedIn: bool, file: Result<Option<GenerateRoute.FormFile>>, claude: ClaudeCall, parse: Parser)

  function Analyze(env: Services): Response {
    if !env.signedIn then ErrorJson(401, SIGN_IN)
    else match env.file
      case Err(m) => ErrorJson(500, m)
      case Ok(file) =>
        if GenerateRoute.FileMissing(file) then ErrorJson(400, NO_IMAGE)
        else if file.value.TextField? then ErrorJson(500, NotAFunction("file.arrayBuffer"))
        else
          match ParseReply(env.claude, env.parse)
          case Ok(result) => JsonResponse(200, JObj(map["success" := JBool(true), "data" := result]))
          case Err(m) => ErrorJson(500, m)
  }

  /** The route answers 200 exactly for a signed-in upload of a file whose reply parses. */
  lemma AnalyzeSucceedsIff(env: Services)
    ensures Analyze(env).status == 200 <==>
            env.signedIn && env.file.Ok? && env.file.value.Some? && env.file.value.value.FileField?
            && ParseReply(env.claude, env.parse).Ok?
  {
  }

  /** The route reads a reply exactly as the Claude provider's `analyzeImage` does. */
  lemma SameParsingAsProvider(env: Services)
    requires Analyze(env).status == 200
    ensures Anthropic.AnalyzeImage(env.claude, env.parse).Ok?
    ensures Analyze(env).body == JObj(map["success" := JBool(true), "data" := Anthropic.AnalyzeImage(env.claude, env.parse).value])
  {
  }

  /** A form value that is text rather than a file gets past the emptiness check and fails when read. */
  lemma TextFieldFailsLate(text: string, claude: ClaudeCall, parse: Parser)
    requires text != ""
    ensures Analyze(Services(true, Ok(Some(GenerateRoute.TextField(text))), claude, parse))
            == ErrorJson(500, "file.arrayBuffer is not a function")
  {
    assert NotAFunction("file.arrayBuffer") == "file.arrayBuffer is not a function";
  }

  /** A reply that has the declared `ImageAnalysisResult` shape reaches the client as that result. */
  lemma DeclaredShapeReachesClient(env: Services, a: ImageAnalysisResult)
    requires env.signedIn && env.file.Ok? && env.file.value.Some? && env.file.value.value.FileField?
    requires ParseReply(env.claude, env.parse) == Ok(AnalysisToJson(a))
    ensures Analyze(env).status == 200 && Analyze(env).JsonResponse?
    ensures Analyze(env).body.JObj? && "data" in Analyze(env).body.fields
    ensures AnalysisOf(Analyze(env).body.fields["data"]) == Some(a)
  {
    AnalysisRoundTrip(a);
  }

  /**
   * The route only casts: a reply in the six-key shape its own prompt asks
   * for, without `accentColor`, is no `ImageAnalysisResult` and still
   * answers 200 with that reply as `data`.
   */
  lemma UncheckedShapeStillSucceeds(env: Services, j: Json)
    requires env.signedIn && env.file.Ok? && env.file.value.Some? && env.file.value.value.FileField?
    requires ParseReply(env.claude, env.parse) == Ok(j)
    requires j.JObj? && "accentColor" !in j.fields
    ensures AnalysisOf(j).None?
    ensures Analyze(env) == JsonResponse(200, JObj(map["success" := JBool(true), "data" := j]))
  {
  }
}
