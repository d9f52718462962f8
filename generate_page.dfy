/**
 * The generate page: it posts the screenshot and the context form to the
 * generate route, keeps the route's answer as the results to show, lets one
 * copy variant be replaced by its refinement, and picks the screen to render
 * from the shape of the results.
 */
module GeneratePage {
  import opened JsRuntime
  import opened Ui
  import opened ContextForm
  import GenerateRoute
  import AiTypes

  const NO_FILE := "Please upload a screenshot first"
  const GENERATED := "Content generated successfully!"
  const GENERATE_FAILED := "Failed to generate copy"
  const CREDIT_RESTORED := "Don't worry, your credit has been restored."

  /** The screenshot the user picked, known by its file name. */
  datatype Upload = Upload(name: string)

  /** A `FormData` entry: the file, or a text field. */
  datatype Entry = FileEntry(file: Upload) | TextEntry(key: string, value: string)

  /** The key each form field is sent under. */
  function FieldKey(f: Field): string {
    match f
    case AppName => "appName"
    case Category => "category"
    case TargetAudience => "targetAudience"
    case Tone => "tone"
    case Description => "description"
  }

  /**
   * The request's entries. The values come from the context form's schema,
   * which has no `keywords`, `language` or `platform` field, so the optional
   * `keywords` entry is skipped and `append` turns the two missing values into
   * the text "undefined".
   */
  function FormEntries(file: Upload, d: FormData): seq<Entry> {
    [FileEntry(file),
     TextEntry("appName", d.appName),
     TextEntry("category", d.category),
     TextEntry("targetAudience", d.targetAudience),
     TextEntry("tone", d.tone),
     TextEntry("description", d.description),
     TextEntry("language", "undefined"),
     TextEntry("platform", "undefined")]
  }

  /** `formData.get(key)` for a text field: the first entry under that key. */
  function EntryValue(entries: seq<Entry>, key: string): (r: Option<string>)
    ensures r.Some? <==> exists i :: 0 <= i < |entries| && entries[i].TextEntry? && entries[i].key == key
  {
    if entries == [] then None
    else if entries[0].TextEntry? && entries[0].key == key then Some(entries[0].value)
    else
      assert forall i :: 1 <= i < |entries| ==> entries[i] == entries[1..][i - 1];
      EntryValue(entries[1..], key)
  }

  /** The first text entry under `key` decides what `formData.get(key)` returns. */
  lemma {:induction false} EntryValueAt(entries: seq<Entry>, key: string, i: nat)
    requires i < |entries| && entries[i].TextEntry? && entries[i].key == key
    requires forall j | 0 <= j < i :: !(entries[j].TextEntry? && entries[j].key == key)
    ensures EntryValue(entries, key) == Some(entries[i].value)
  {
    if i > 0 {
      assert forall j | 0 <= j < |entries| - 1 :: entries[1..][j] == entries[j + 1];
      EntryValueAt(entries[1..], key, i - 1);
    }
  }

  /**
   * The route receives the file first, each form field under its own key,
   * no keywords, and "undefined" as the language and the platform.
   */
  lemma FormEntriesCarryFields(file: Upload, d: FormData)
    ensures FormEntries(file, d)[0] == FileEntry(file)
    ensures forall f :: EntryValue(FormEntries(file, d), FieldKey(f)) == Some(ValueOf(d, f))
    ensures EntryValue(FormEntries(file, d), "keywords") == None
    ensures EntryValue(FormEntries(file, d), "language") == Some("undefined")
    ensures EntryValue(FormEntries(file, d), "platform") == Some("undefined")
  {
    var e := FormEntries(file, d);
    forall f ensures EntryValue(e, FieldKey(f)) == Some(ValueOf(d, f)) {
      match f
      case AppName => EntryValueAt(e, "appName", 1);
      case Category => EntryValueAt(e, "category", 2);
      case TargetAudience => EntryValueAt(e, "targetAudience", 3);
      case Tone => EntryValueAt(e, "tone", 4);
      case Description => EntryValueAt(e, "description", 5);
    }
    EntryValueAt(e, "language", 6);
    EntryValueAt(e, "platform", 7);
  }

  /** The route's reading of a request's text fields, each by `formData.get`. */
  function RequestContext(entries: seq<Entry>): (c: AiTypes.CopyContext)
    ensures c.platform == EntryValue(entries, "platform") && c.language == EntryValue(entries, "language")
    ensures c.keywords == EntryValue(entries, "keywords")
  {
    AiTypes.CopyContext(
      EntryValue(entries, "appName"), EntryValue(entries, "category"), EntryValue(entries, "targetAudience"),
      EntryValue(entries, "tone"), EntryValue(entries, "description"), EntryValue(entries, "keywords"),
      EntryValue(entries, "language"), EntryValue(entries, "platform"))
  }

  /**
   * A request from this page never gets the route's App Store prompt: the
   * platform arrives as the text "undefined", which the route's
   * `|| 'app_store'` default keeps, so the ghostwriter prompt is written,
   * in the language "undefined" and with no keywords.
   */
  lemma PageGetsGhostwriterPrompt(file: Upload, d: FormData, form: GenerateRoute.GenerateForm)
    requires form.context == RequestContext(FormEntries(file, d))
    ensures GenerateRoute.Platform(form) == "undefined"
    ensures !GenerateRoute.UsesAppStorePrompt(form)
    ensures GenerateRoute.PromptLanguage(form) == "undefined"
    ensures form.context.keywords.None?
  {
    FormEntriesCarryFields(file, d);
  }

  /**
   * What `fetch('/api/generate')` and `response.json()` do: the fetch throws,
   * or a response arrives with its `ok` flag and a body that parses or throws.
   */
  datatype Reply = FetchFailed(message: string) | Responded(ok: bool, body: Result<Json>)

  /**
   * How the handler settles: with the reply's `data` and `imageUrl`, or with
   * the message of what was thrown; `announced` says the success toast was
   * already shown when the throw came.
   */
  datatype Settled = Succeeded(data: Value, imageUrl: Value) | FailedWith(message: string, announced: bool)

  /** The `try` block of `handleGenerate`, from the fetch to the results. */
  function Settle(reply: Reply): (r: Settled)
    ensures r.Succeeded? <==> reply.Responded? && reply.ok && reply.body.Ok? && reply.body.value != JNull
    ensures r.Succeeded? ==>
              Member(reply.body.value, "data") == Ok(r.data) && Member(reply.body.value, "imageUrl") == Ok(r.imageUrl)
    ensures (r.FailedWith? && r.announced) <==> reply == Responded(true, Ok(JNull))
  {
    match reply
    case FetchFailed(m) => FailedWith(m, false)
    case Responded(ok, body) =>
      match body
      case Err(m) => FailedWith(m, false)
      case Ok(result) =>
        if !ok then
          match Member(result, "error")
          case Err(m) => FailedWith(m, false)
          case Ok(e) => FailedWith(if Truthy(e) then JsString(e.value) else GENERATE_FAILED, false)
        else
          match Member(result, "data")
          case Err(m) => FailedWith(m, true)
          case Ok(d) => Succeeded(d, Member(result, "imageUrl").value)
  }

  /** The body the generate route answers with, as the page's fetch sees it. */
  function RouteReply(resp: GenerateRoute.GenerateResponse): Reply {
    match resp
    case Generated(data, imageUrl) =>
      Responded(true, Ok(JObj(map["success" := JBool(true), "data" := data, "imageUrl" := JStr(imageUrl)])))
    case Failed(status, error) =>
      Responded(200 <= status < 300, Ok(JObj(map["error" := JStr(error)])))
  }

  /**
   * Against the generate route: a generated answer gives the page its copy
   * and image URL, and an error answer fails with the route's message, or the
   * page's own when that message is empty.
   */
  lemma RouteAnswersSettle(resp: GenerateRoute.GenerateResponse)
    ensures resp.Generated? ==> Settle(RouteReply(resp)) == Succeeded(Some(resp.data), Some(JStr(resp.imageUrl)))
    ensures resp.Failed? && !(200 <= resp.status < 300) ==>
              Settle(RouteReply(resp)) == FailedWith(if resp.error != "" then resp.error else GENERATE_FAILED, false)
  {
  }

  /** What the page renders. */
  datatype Screen =
    | Loading
    | ErrorScreen(message: string)
    | EmptyScreen
    | WeeklyScreen(output: Json)
    | CopyListScreen(copies: seq<Json>)
    | RenderFailed(message: string)

  /**
   * The render: truthy results are shown by shape (`'weekly_batch' in
   * results`, else `results.map`); otherwise the loader, the error, or the
   * empty panel, in that order.
   */
  function ScreenOf(results: Value, isGenerating: bool, error: Option<string>): (s: Screen)
    ensures s.WeeklyScreen? <==> results.Some? && results.value.JObj? && "weekly_batch" in results.value.fields
    ensures s.CopyListScreen? <==> results.Some? && results.value.JArr?
    ensures s.Loading? <==> !Truthy(results) && isGenerating
    ensures s.ErrorScreen? <==> !Truthy(results) && !isGenerating && error.Some? && error.value != ""
    ensures s.RenderFailed? <==> Truthy(results) && !(results.value.JObj? && "weekly_batch" in results.value.fields) &&
                                 !results.value.JArr?
  {
    if Truthy(results) then
      match HasKey("weekly_batch", results)
      case Err(m) => RenderFailed(m)
      case Ok(weekly) =>
        if weekly then WeeklyScreen(results.value)
        else if results.value.JArr? then CopyListScreen(results.value.items)
        else RenderFailed(NotAFunction("results.map"))
    else if isGenerating then Loading
    else if error.Some? && error.value != "" then ErrorScreen(error.value)
    else EmptyScreen
  }

  class Page {
    var file: Option<Upload>
    /** `null` and `undefined` are both `None`; the page only tests them for truthiness. */
    var previewUrl: Value
    var isGenerating: bool
    var error: Option<string>
    var results: Value
    var contextData: Option<FormData>

    constructor()
      ensures file.None? && previewUrl.None? && !isGenerating && error.None? && results.None? && contextData.None?
    {
      file := None;
      previewUrl := None;
      isGenerating := false;
      error := None;
      results := None;
      contextData := None;
    }

    /** The screen the page renders now. */
    function View(): Screen
      reads this
    {
      ScreenOf(results, isGenerating, error)
    }

    /**
     * `handleGenerate(data)`: without a file only a toast; otherwise the form
     * is posted, and the answer sets either the results (and the preview
     * image, when an image URL came back) or the error, with the
     * credit-restored note; `isGenerating` ends false either way.
     */
    method HandleGenerate(data: FormData, reply: Reply) returns (request: Option<seq<Entry>>, toasts: seq<Toast>)
      modifies this
      ensures old(file).None? ==>
                request.None? && toasts == [ToastError(NO_FILE, None)] &&
                results == old(results) && previewUrl == old(previewUrl) && error == old(error) &&
                isGenerating == old(isGenerating) && contextData == old(contextData)
      ensures old(file).Some? ==>
                request == Some(FormEntries(old(file).value, data)) && contextData == Some(data) && !isGenerating
      ensures old(file).Some? && Settle(reply).Succeeded? ==>
                var s := Settle(reply);
                results == s.data && error.None? && toasts == [ToastSuccess(GENERATED)] &&
                previewUrl == (if Truthy(s.imageUrl) then s.imageUrl else old(previewUrl))
      ensures old(file).Some? && Settle(reply).FailedWith? ==>
                var s := Settle(reply);
                results == old(results) && previewUrl == old(previewUrl) && error == Some(s.message) &&
                toasts == (if s.announced then [ToastSuccess(GENERATED)] else []) +
                          [ToastError(s.message, Some(CREDIT_RESTORED))]
      ensures file == old(file)
    {
      if file.None? {
        return None, [ToastError(NO_FILE, None)];
      }
      error := None;
      isGenerating := true;
      contextData := Some(data);
      request := Some(FormEntries(file.value, data));
      match Settle(reply) {
        case Succeeded(d, imageUrl) =>
          toasts := [ToastSuccess(GENERATED)];
          results := d;
          if Truthy(imageUrl) {
            previewUrl := imageUrl;
          }
        case FailedWith(message, announced) =>
          toasts := (if announced then [ToastSuccess(GENERATED)] else []) + [ToastError(message, Some(CREDIT_RESTORED))];
          error := Some(message);
      }
      isGenerating := false;
    }

    /** `resetGeneration()`: back to the empty form. */
    method ResetGeneration()
      modifies this
      ensures results.None? && file.None? && previewUrl.None?
      ensures isGenerating == old(isGenerating) && error == old(error) && contextData == old(contextData)
    {
      results := None;
      file := None;
      previewUrl := None;
    }

    /**
     * `handleRefine(index, refinedCopy)`: nothing happens unless the results
     * are an array; otherwise a copy of the array with that one variant
     * replaced becomes the results.
     */
    method HandleRefine(index: nat, refined: Json)
      requires IsArray(results) ==> index < |results.value.items|
      modifies this
      ensures !IsArray(old(results)) ==> results == old(results)
      ensures IsArray(old(results)) ==> results == Some(JArr(old(results).value.items[index := refined]))
      ensures file == old(file) && previewUrl == old(previewUrl) && isGenerating == old(isGenerating) &&
              error == old(error) && contextData == old(contextData)
    {
      if !Truthy(results) || !IsArray(results) {
        return;
      }
      var items := results.value.items;
      var copy := new Json[|items|](i requires 0 <= i < |items| => items[i]);
      copy[index] := refined;
      assert copy[..] == items[index := refined];
      results := Some(JArr(copy[..]));
    }
  }
}
