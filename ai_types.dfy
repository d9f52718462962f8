/**
 * The records the AI layer passes around: the copy context a generation is
 * asked for, the parameters of a refinement, the result an image analysis is
 * declared to have, and the shape of the weekly batch the ghostwriter prompt
 * asks for.
 */
module AiTypes {
  import opened JsRuntime

  /**
   * `GenerateCopyParams.context`. The fields are typed `string`, but they come
   * from form fields, so each may be missing (`null`).
   */
  datatype CopyContext = CopyContext(
    appName: Option<string>,
    category: Option<string>,
    targetAudience: Option<string>,
    tone: Option<string>,
    description: Option<string>,
    keywords: Option<string>,
    language: Option<string>,
    platform: Option<string>)

  datatype RefineTextParams = RefineTextParams(text: string, instruction: string, context: string)

  /** `ImageAnalysisResult`: the declared result of `analyzeImage`, eight strings. */
  datatype ImageAnalysisResult = ImageAnalysisResult(
    appName: string,
    category: string,
    targetAudience: string,
    tone: string,
    description: string,
    keywords: string,
    accentColor: string,
    suggestedLayout: string)

  /** The JSON object of an `ImageAnalysisResult`, under its TypeScript field names. */
  function AnalysisToJson(a: ImageAnalysisResult): (r: Json)
    ensures r.JObj? && forall k | k in r.fields :: r.fields[k].JStr?
  {
    JObj(map[
      "appName" := JStr(a.appName), "category" := JStr(a.category),
      "targetAudience" := JStr(a.targetAudience), "tone" := JStr(a.tone),
      "description" := JStr(a.description), "keywords" := JStr(a.keywords),
      "accentColor" := JStr(a.accentColor), "suggestedLayout" := JStr(a.suggestedLayout)])
  }

  /** The string under `key` of an object, if there is one. */
  function StringField(j: Json, key: string): (r: Option<string>)
    ensures r.Some? <==> j.JObj? && key in j.fields && j.fields[key].JStr?
  {
    if j.JObj? && key in j.fields && j.fields[key].JStr? then Some(j.fields[key].s) else None
  }

  /**
   * Whether a parsed value is what `as ImageAnalysisResult` claims: an
   * object with a string under each of the eight keys (other keys allowed).
   */
  function AnalysisOf(j: Json): (r: Option<ImageAnalysisResult>)
    ensures r.Some? <==>
            StringField(j, "appName").Some? && StringField(j, "category").Some?
            && StringField(j, "targetAudience").Some? && StringField(j, "tone").Some?
            && StringField(j, "description").Some? && StringField(j, "keywords").Some?
            && StringField(j, "accentColor").Some? && StringField(j, "suggestedLayout").Some?
    ensures r.Some? ==> r.value.appName == StringField(j, "appName").value && r.value.tone == StringField(j, "tone").value
  {
    if StringField(j, "appName").Some? && StringField(j, "category").Some?
       && StringField(j, "targetAudience").Some? && StringField(j, "tone").Some?
       && StringField(j, "description").Some? && StringField(j, "keywords").Some?
       && StringField(j, "accentColor").Some? && StringField(j, "suggestedLayout").Some?
    then
      Some(ImageAnalysisResult(
        j.fields["appName"].s, j.fields["category"].s, j.fields["targetAudience"].s, j.fields["tone"].s,
        j.fields["description"].s, j.fields["keywords"].s, j.fields["accentColor"].s, j.fields["suggestedLayout"].s))
    else None
  }

  /** Reading an encoded result gives it back. */
  lemma AnalysisRoundTrip(a: ImageAnalysisResult)
    ensures AnalysisOf(AnalysisToJson(a)) == Some(a)
  {
  }

  datatype Layout = Bento | Device | Viral
  datatype Day = Monday | Wednesday | Friday

  function DayName(d: Day): string {
    match d
    case Monday => "Monday"
    case Wednesday => "Wednesday"
    case Friday => "Friday"
  }

  function LayoutName(l: Layout): string {
    match l
    case Bento => "bento"
    case Device => "device"
    case Viral => "viral"
  }

  /** `WeeklyThread`: a day, its theme and hook, and the tweets of its thread. */
  datatype WeeklyThread = WeeklyThread(day: Day, theme: string, hook: string, thread: seq<string>)

  /** `GhostwriterOutput`: the design hint and the three threads of a week. */
  datatype GhostwriterOutput = GhostwriterOutput(accentColor: string, layout: Layout, weeklyBatch: seq<WeeklyThread>)

  function StringsToJson(xs: seq<string>): (r: seq<Json>)
    ensures |r| == |xs| && forall i | 0 <= i < |xs| :: r[i] == JStr(xs[i])
  {
    if xs == [] then [] else [JStr(xs[0])] + StringsToJson(xs[1..])
  }

  function ThreadToJson(t: WeeklyThread): Json {
    JObj(map["day" := JStr(DayName(t.day)), "theme" := JStr(t.theme), "hook" := JStr(t.hook),
             "thread" := JArr(StringsToJson(t.thread))])
  }

  function ThreadsToJson(ts: seq<WeeklyThread>): (r: seq<Json>)
    ensures |r| == |ts| && forall i | 0 <= i < |ts| :: r[i] == ThreadToJson(ts[i])
  {
    if ts == [] then [] else [ThreadToJson(ts[0])] + ThreadsToJson(ts[1..])
  }

  /** The JSON text of a `GhostwriterOutput` as `JSON.parse` returns it. */
  function OutputToJson(o: GhostwriterOutput): (r: Json)
    ensures r.JObj? && "weekly_batch" in r.fields && "design_config" in r.fields
  {
    JObj(map[
      "design_config" := JObj(map["accent_color" := JStr(o.accentColor),
                                  "suggested_layout" := JStr(LayoutName(o.layout))]),
      "weekly_batch" := JArr(ThreadsToJson(o.weeklyBatch))])
  }
}
