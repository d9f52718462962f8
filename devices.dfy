/**
 * The App Store preview generator's constant tables: the device frames a
 * screenshot can be placed in, the layout templates, the default preview
 * configuration, and the `find`-based lookups by id.
 */
module Devices {
  import opened JsRuntime

  datatype Inset = Inset(top: int, bottom: int, left: int, right: int)

  /** A device frame, sized at its App Store submission resolution. */
  datatype DeviceFrame = DeviceFrame(
    id: string,
    name: string,
    displayName: string,
    width: nat,
    height: nat,
    screenInset: Inset,
    bezelWidth: nat,
    cornerRadius: nat,
    dynamicIsland: Option<bool>,
    notch: Option<bool>,
    homeIndicator: Option<bool>)

  datatype TextPosition = Top | Bottom | Left | Right | OverlayTop | OverlayBottom

  /** A layout; `deviceScale` is documented as lying between 0.0 and 1.0. */
  datatype LayoutTemplate = LayoutTemplate(
    id: string,
    name: string,
    displayName: string,
    description: string,
    textPosition: TextPosition,
    deviceScale: real,
    deviceOffsetY: int,
    showGradientBg: bool)

  /**
   * What the editor sends to the preview route. The three style fields are
   * literal unions in the type, but the route receives them as JSON strings
   * and maps every other string to a default, so they are kept as strings.
   */
  datatype PreviewConfig = PreviewConfig(
    deviceId: string,
    templateId: string,
    backgroundColor: string,
    gradientFrom: Option<string>,
    gradientTo: Option<string>,
    gradientAngle: Option<int>,
    headline: string,
    subtext: string,
    textColor: string,
    fontFamily: string,
    shadowIntensity: string,
    deviceColor: string)

  const DEVICE_FRAMES: seq<DeviceFrame> := [
    DeviceFrame("iphone-15-pro-max", "iPhone 15 Pro Max", "iPhone 15 Pro Max", 1290, 2796,
                Inset(68, 34, 0, 0), 12, 55, Some(true), None, Some(true)),
    DeviceFrame("iphone-15-pro", "iPhone 15 Pro", "iPhone 15 Pro", 1179, 2556,
                Inset(59, 34, 0, 0), 10, 50, Some(true), None, Some(true)),
    DeviceFrame("iphone-15", "iPhone 15", "iPhone 15", 1179, 2556,
                Inset(59, 34, 0, 0), 10, 50, Some(true), None, Some(true)),
    DeviceFrame("iphone-se", "iPhone SE", "iPhone SE", 750, 1334,
                Inset(20, 0, 0, 0), 16, 0, None, None, Some(false)),
    DeviceFrame("ipad-pro-12-9", "iPad Pro 12.9\"", "iPad Pro 12.9\"", 2048, 2732,
                Inset(24, 20, 0, 0), 20, 18, None, None, Some(true))
  ]

  const LAYOUT_TEMPLATES: seq<LayoutTemplate> := [
    LayoutTemplate("device-only", "Device Only", "디바이스 전용", "깔끔한 디바이스 프레임만",
                   OverlayTop, 0.85, 0, false),
    LayoutTemplate("headline-top", "Headline Top", "상단 헤드라인", "상단에 카피, 하단에 디바이스",
                   Top, 0.7, 15, true),
    LayoutTemplate("headline-bottom", "Headline Bottom", "하단 헤드라인", "상단에 디바이스, 하단에 카피",
                   Bottom, 0.7, -10, true),
    LayoutTemplate("overlay-gradient", "Overlay Gradient", "오버레이 그라디언트",
                   "풀스크린 디바이스 + 그라디언트 오버레이 카피", OverlayBottom, 0.95, 0, true)
  ]

  const DEFAULT_PREVIEW_CONFIG := PreviewConfig(
    "iphone-15-pro-max", "headline-top", "#000000", Some("#1a1a2e"), Some("#16213e"), Some(135),
    "", "", "#ffffff", "inter", "medium", "black")

  function DeviceKey(d: DeviceFrame): string { d.id }
  function TemplateKey(t: LayoutTemplate): string { t.id }

  /** `getDeviceById`: the first frame with that id, or `undefined`. */
  function GetDeviceById(id: string): (r: Option<DeviceFrame>)
    ensures r.Some? ==> r.value in DEVICE_FRAMES && r.value.id == id
    ensures r.None? <==> forall i :: 0 <= i < |DEVICE_FRAMES| ==> DEVICE_FRAMES[i].id != id
  {
    FindByKey(DEVICE_FRAMES, DeviceKey, id)
  }

  /** `getTemplateById`: the first template with that id, or `undefined`. */
  function GetTemplateById(id: string): (r: Option<LayoutTemplate>)
    ensures r.Some? ==> r.value in LAYOUT_TEMPLATES && r.value.id == id
    ensures r.None? <==> forall i :: 0 <= i < |LAYOUT_TEMPLATES| ==> LAYOUT_TEMPLATES[i].id != id
  {
    FindByKey(LAYOUT_TEMPLATES, TemplateKey, id)
  }

  /** `getDeviceById(id) || DEVICE_FRAMES[0]`, as the editor and the preview route write it. */
  function DeviceOrFirst(id: string): (r: DeviceFrame)
    ensures r in DEVICE_FRAMES
    ensures GetDeviceById(id).None? ==> r == DEVICE_FRAMES[0]
    ensures GetDeviceById(id).Some? ==> r.id == id
  {
    match GetDeviceById(id)
    case Some(d) => d
    case None => DEVICE_FRAMES[0]
  }

  /** `getTemplateById(id) || LAYOUT_TEMPLATES[0]` */
  function TemplateOrFirst(id: string): (r: LayoutTemplate)
    ensures r in LAYOUT_TEMPLATES
    ensures GetTemplateById(id).None? ==> r == LAYOUT_TEMPLATES[0]
    ensures GetTemplateById(id).Some? ==> r.id == id
  {
    match GetTemplateById(id)
    case Some(t) => t
    case None => LAYOUT_TEMPLATES[0]
  }

  /** No two frames share an id. */
  lemma DeviceIdsDistinct()
    ensures forall i, j :: 0 <= i < j < |DEVICE_FRAMES| ==> DEVICE_FRAMES[i].id != DEVICE_FRAMES[j].id
  {
  }

  /** No two templates share an id. */
  lemma TemplateIdsDistinct()
    ensures forall i, j :: 0 <= i < j < |LAYOUT_TEMPLATES| ==> LAYOUT_TEMPLATES[i].id != LAYOUT_TEMPLATES[j].id
  {
  }

  /** Looking up any frame's own id finds that frame. */
  lemma DeviceLookupRoundTrip(i: nat)
    requires i < |DEVICE_FRAMES|
    ensures GetDeviceById(DEVICE_FRAMES[i].id) == Some(DEVICE_FRAMES[i])
  {
    DeviceIdsDistinct();
    FindUniqueKey(DEVICE_FRAMES, DeviceKey, i);
  }

  /** Looking up any template's own id finds that template. */
  lemma TemplateLookupRoundTrip(i: nat)
    requires i < |LAYOUT_TEMPLATES|
    ensures GetTemplateById(LAYOUT_TEMPLATES[i].id) == Some(LAYOUT_TEMPLATES[i])
  {
    TemplateIdsDistinct();
    FindUniqueKey(LAYOUT_TEMPLATES, TemplateKey, i);
  }

  /** The default configuration names the first frame and the second template. */
  lemma DefaultConfigResolves()
    ensures GetDeviceById(DEFAULT_PREVIEW_CONFIG.deviceId) == Some(DEVICE_FRAMES[0])
    ensures GetTemplateById(DEFAULT_PREVIEW_CONFIG.templateId) == Some(LAYOUT_TEMPLATES[1])
  {
    DeviceLookupRoundTrip(0);
    TemplateLookupRoundTrip(1);
  }

  /** Every template's scale lies in the documented range. */
  lemma ScalesInRange()
    ensures forall t :: t in LAYOUT_TEMPLATES ==> 0.0 <= t.deviceScale <= 1.0
  {
  }
}
