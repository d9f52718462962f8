/**
 * The responses the route handlers build with `NextResponse`: a JSON body
 * (`NextResponse.json(body, { status })`) or a plain-text one
 * (`new NextResponse(text, { status })`).
 */
module Http {
  import opened JsRuntime

  datatype Response = JsonResponse(status: nat, body: Json) | TextResponse(status: nat, text: Option<string>)

  /** `NextResponse.json({ error: message }, { status })` */
  function ErrorJson(status: nat, message: string): (r: Response)
    ensures r.status == status && r.JsonResponse?
    ensures r.body.JObj? && r.body.fields.Keys == {"error"} && r.body.fields["error"] == JStr(message)
  {
    JsonResponse(status, JObj(map["error" := JStr(message)]))
  }

  /** The message of an error response, when it has one. */
  function ErrorOf(r: Response): Option<string> {
    if r.JsonResponse? && r.body.JObj? && "error" in r.body.fields && r.body.fields["error"].JStr?
    then Some(r.body.fields["error"].s) else None
  }
}
