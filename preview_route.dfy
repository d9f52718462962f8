/**
 * `POST /api/generate-preview`: check the body, resolve the device and the
 * template with a fallback to the first table entry, fetch the screenshot,
 * and render the preview image. Only the integer and enumerated parts of the
 * layout are modelled.
 */
module PreviewRoute {
  import opened JsRuntime
  import opened Http
  import opened Devices

  const MISSING_FIELDS := "Missing required fields"
  const FETCH_FAILED := "Failed to fetch screenshot"
  const GENERATION_FAILED := "Failed to generate preview"

  /** Where the copy sits: one of `top`/`bottom` is set, in pixels. */
  datatype TextStyle = TextStyle(top: Option<int>, bottom: Option<int>, isOverlay: bool)

  /** `getTextStyle()` */
  function GetTextStyle(template: LayoutTemplate, device: DeviceFrame): (s: TextStyle)
    ensures s.isOverlay <==> template.textPosition == OverlayTop || template.textPosition == OverlayBottom
    ensures s.bottom.Some? <==> template.textPosition == Bottom || template.textPosition == OverlayBottom
    ensures s.top.Some? <==> !s.bottom.Some?
  {
    match template.textPosition
    case Top => TextStyle(Some(80), None, false)
    case Bottom => TextStyle(None, Some(80), false)
    case OverlayTop => TextStyle(Some(device.screenInset.top + 100), None, true)
    case OverlayBottom => TextStyle(None, Some(device.screenInset.bottom + 100), true)
    case _ => TextStyle(Some(80), None, false)
  }

  /** The distance of the copy from the edge it is anchored to. */
  function Offset(s: TextStyle): int {
    if s.top.Some? then s.top.value else if s.bottom.Some? then s.bottom.value else 0
  }

  /**
   * Copy laid over the device clears the screen inset at its edge by 100
   * pixels; copy beside the device sits 80 pixels from the edge.
   */
  lemma TextOffsets(template: LayoutTemplate, device: DeviceFrame)
    ensures var s := GetTextStyle(template, device);
            (!s.isOverlay ==> Offset(s) == 80) &&
            (template.textPosition == OverlayTop ==> Offset(s) == device.screenInset.top + 100) &&
            (template.textPosition == OverlayBottom ==> Offset(s) == device.screenInset.bottom + 100)
  {
  }

  /** For every frame in the table, overlaid copy sits further in than copy beside the device. */
  lemma OverlayFurtherIn(template: LayoutTemplate, other: LayoutTemplate, i: nat)
    requires i < |DEVICE_FRAMES|
    requires GetTextStyle(template, DEVICE_FRAMES[i]).isOverlay
    requires !GetTextStyle(other, DEVICE_FRAMES[i]).isOverlay
    ensures Offset(GetTextStyle(template, DEVICE_FRAMES[i])) > Offset(GetTextStyle(other, DEVICE_FRAMES[i]))
  {
    var d := DEVICE_FRAMES[i];
    assert d.screenInset.top >= 0 && d.screenInset.bottom >= 0;
  }

  const SHADOW_LIGHT := "0 20px 60px rgba(0,0,0,0.3)"
  const SHADOW_MEDIUM := "0 40px 100px rgba(0,0,0,0.4)"
  const SHADOW_HEAVY := "0 60px 140px rgba(0,0,0,0.6)"

  /** `getShadowStyle()`: a `switch` with strict equality on the parsed value. */
  function ShadowStyle(intensity: Value): (r: string)
    ensures r == "none" <==> !(intensity in {Some(JStr("light")), Some(JStr("medium")), Some(JStr("heavy"))})
  {
    match intensity
    case Some(JStr("light")) => SHADOW_LIGHT
    case Some(JStr("medium")) => SHADOW_MEDIUM
    case Some(JStr("heavy")) => SHADOW_HEAVY
    case _ => "none"
  }

  /** `getBezelColor()`: "black" and every unknown value share the dark bezel. */
  function BezelColor(color: Value): (r: string)
    ensures r == "#f5f5f5" <==> color == Some(JStr("white"))
    ensures r == "#e5c890" <==> color == Some(JStr("natural"))
    ensures r == "#1a1a1a" <==> !(color in {Some(JStr("white")), Some(JStr("natural"))})
  {
    match color
    case Some(JStr("white")) => "#f5f5f5"
    case Some(JStr("natural")) => "#e5c890"
    case _ => "#1a1a1a"
  }

  /** `getDeviceById(config.deviceId) || DEVICE_FRAMES[0]`; a non-string id matches nothing. */
  function DeviceFor(id: Value): (d: DeviceFrame)
    ensures d in DEVICE_FRAMES
    ensures (id.Some? && id.value.JStr? && GetDeviceById(id.value.s).Some?) ==> d.id == id.value.s
    ensures !(id.Some? && id.value.JStr? && GetDeviceById(id.value.s).Some?) ==> d == DEVICE_FRAMES[0]
  {
    if id.Some? && id.value.JStr? then DeviceOrFirst(id.value.s) else DEVICE_FRAMES[0]
  }

  /** `getTemplateById(config.templateId) || LAYOUT_TEMPLATES[0]` */
  function TemplateFor(id: Value): (t: LayoutTemplate)
    ensures t in LAYOUT_TEMPLATES
    ensures (id.Some? && id.value.JStr? && GetTemplateById(id.value.s).Some?) ==> t.id == id.value.s
    ensures !(id.Some? && id.value.JStr? && GetTemplateById(id.value.s).Some?) ==> t == LAYOUT_TEMPLATES[0]
  {
    if id.Some? && id.value.JStr? then TemplateOrFirst(id.value.s) else LAYOUT_TEMPLATES[0]
  }

  /** The integer and enumerated parts of the rendered image. */
  datatype PreviewImage = PreviewImage(
    width: nat,
    height: nat,
    device: DeviceFrame,
    template: LayoutTemplate,
    textStyle: TextStyle,
    shadow: string,
    bezel: string)

  datatype Outcome = Image(image: PreviewImage) | Failed(response: Response)

  /** `request.json()`'s result and whether fetching the screenshot and reading its bytes succeeded. */
  datatype Services = Services(body: Result<Json>, screenshotFetched: bool)

  /** The fields the handler destructures from the body, or the error destructuring throws. */
  function Fields(body: Json): (r: Result<(Value, Value)>)
    ensures r.Err? <==> body == JNull
  {
    match Member(body, "screenshotUrl")
    case Err(m) => Err(m)
    case Ok(url) => Ok((url, Member(body, "config").value))
  }

  function Render(config: Json): PreviewImage
    requires config != JNull
  {
    var device := DeviceFor(Member(config, "deviceId").value);
    var template := TemplateFor(Member(config, "templateId").value);
    PreviewImage(device.width, device.height, device, template, GetTextStyle(template, device),
                 ShadowStyle(Member(config, "shadowIntensity").value),
                 BezelColor(Member(config, "deviceColor").value))
  }

  /** `POST(request)` */
  function Post(env: Services): Outcome {
    if env.body.Err? then Failed(ErrorJson(500, GENERATION_FAILED))
    else match Fields(env.body.value)
      case Err(_) => Failed(ErrorJson(500, GENERATION_FAILED))
      case Ok((url, config)) =>
        if !Truthy(url) || !Truthy(config) then Failed(ErrorJson(400, MISSING_FIELDS))
        else if !env.screenshotFetched then Failed(ErrorJson(400, FETCH_FAILED))
        else Image(Render(config.value))
  }

  /**
   * An image is produced exactly when the body parses to a non-null value
   * with a truthy `screenshotUrl` and `config` and the screenshot could be
   * fetched; every failure is one of the three fixed error responses.
   */
  lemma PostOutcomes(env: Services)
    ensures Post(env).Image? <==>
            env.body.Ok? && env.body.value != JNull && env.screenshotFetched &&
            Truthy(Member(env.body.value, "screenshotUrl").value) && Truthy(Member(env.body.value, "config").value)
    ensures Post(env).Failed? ==>
            Post(env).response in {ErrorJson(400, MISSING_FIELDS), ErrorJson(400, FETCH_FAILED), ErrorJson(500, GENERATION_FAILED)}
  {
  }

  /** Missing fields are reported before the screenshot is fetched. */
  lemma FieldsCheckedBeforeFetch(body: Json, fetched: bool)
    requires body.JObj? && ("screenshotUrl" !in body.fields || "config" !in body.fields)
    ensures Post(Services(Ok(body), fetched)) == Failed(ErrorJson(400, MISSING_FIELDS))
  {
  }

  /**
   * The image has the resolved frame's own size, and an id the tables do not
   * know renders with the first frame and the first template.
   */
  lemma ImageUsesResolvedDevice(env: Services)
    requires Post(env).Image?
    ensures var img := Post(env).image;
            img.device in DEVICE_FRAMES && img.template in LAYOUT_TEMPLATES &&
            img.width == img.device.width && img.height == img.device.height
    ensures var config := Member(env.body.value, "config").value.value;
            var id := Member(config, "deviceId").value;
            !(id.Some? && id.value.JStr? && GetDeviceById(id.value.s).Some?) ==>
              Post(env).image.device == DEVICE_FRAMES[0] && Post(env).image.width == 1290 && Post(env).image.height == 2796
  {
  }
}
