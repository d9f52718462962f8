/**
 * `POST /api/refine-tweet`: check the user, then the two required fields, and
 * ask the configured provider to refine one tweet.
 */
module RefineTweetRoute {
  import opened JsRuntime
  import opened Http
  import Providers

  const UNAUTHORIZED := "Unauthorized"
  const MISSING_FIELDS := "Missing text or instruction"
  const FAILED := "Failed to refine text"

  /** The user `getUser` returns (`None` also for an auth error), `AI_PROVIDER`, and the provider's services. */
  datatype Services = Services(user: Option<string>, aiProvider: Option<string>, ai: Providers.Services)

  function RefineTweet(body: Result<Json>, env: Services): Response {
    if env.user.None? then ErrorJson(401, UNAUTHORIZED)
    else if body.Err? || body.value.JNull? then ErrorJson(500, FAILED)
    else
      var text := OptionalMember(Some(body.value), "text");
      var instruction := OptionalMember(Some(body.value), "instruction");
      if !Truthy(text) || !Truthy(instruction) then ErrorJson(400, MISSING_FIELDS)
      else
        match Providers.RefineText(Providers.GetAIClient(env.aiProvider), env.ai)
        case Ok(refined) => JsonResponse(200, JObj(map["refinedText" := JStr(refined)]))
        case Err(_) => ErrorJson(500, FAILED)
  }

  /** The user is checked first: without one the answer is 401 whatever the body. */
  lemma UserCheckedFirst(body: Result<Json>, env: Services)
    requires env.user.None?
    ensures RefineTweet(body, env) == ErrorJson(401, UNAUTHORIZED)
  {
  }

  /** Provider and parse errors never reach the client: every 500 carries the same fixed message. */
  lemma FailuresAreOpaque(body: Result<Json>, env: Services)
    requires RefineTweet(body, env).status == 500
    ensures RefineTweet(body, env) == ErrorJson(500, FAILED)
  {
  }

  /** A 200 answer carries the provider's refined text, trimmed. */
  lemma RefinedTextReturned(body: Result<Json>, env: Services)
    requires RefineTweet(body, env).status == 200
    ensures var r := Providers.RefineText(Providers.GetAIClient(env.aiProvider), env.ai);
            r.Ok? && RefineTweet(body, env).body == JObj(map["refinedText" := JStr(r.value)])
            && (r.value == "" || (!IsWhite(r.value[0]) && !IsWhite(r.value[|r.value| - 1])))
  {
    Providers.RefinedTextTrimmed(Providers.GetAIClient(env.aiProvider), env.ai);
  }
}
