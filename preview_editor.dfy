/**
 * The preview editor dialog: its colour helper `adjustColor`, the initial
 * configuration built from the copy being previewed, the `updateConfig`
 * merge, the device/template fallback, and the download handler's state.
 */
module PreviewEditor {
  import opened JsRuntime
  import opened Devices
  import opened Ui

  // ---------------------------------------------------------------
  // Hexadecimal digits
  // ---------------------------------------------------------------

  predicate IsHexDigit(c: char) {
    '0' <= c <= '9' || 'a' <= c <= 'f' || 'A' <= c <= 'F'
  }

  predicate IsLowerHexDigit(c: char) {
    '0' <= c <= '9' || 'a' <= c <= 'f'
  }

  predicate AllHex(s: string) {
    forall k | 0 <= k < |s| :: IsHexDigit(s[k])
  }

  predicate AllLowerHex(s: string) {
    forall k | 0 <= k < |s| :: IsLowerHexDigit(s[k])
  }

  function DigitValue(c: char): (r: nat)
    requires IsHexDigit(c)
    ensures r < 16
  {
    if '0' <= c <= '9' then c as int - '0' as int
    else if 'a' <= c <= 'f' then c as int - 'a' as int + 10
    else c as int - 'A' as int + 10
  }

  /** The value of a string of hexadecimal digits, most significant first. */
  function HexValue(s: string): nat
    requires AllHex(s)
  {
    if s == [] then 0 else HexValue(s[..|s| - 1]) * 16 + DigitValue(s[|s| - 1])
  }

  /** The longest prefix made of hexadecimal digits. */
  function HexPrefix(s: string): (r: string)
    ensures AllHex(r) && |r| <= |s| && r == s[..|r|]
    ensures |r| < |s| ==> !IsHexDigit(s[|r|])
  {
    if s != [] && IsHexDigit(s[0]) then [s[0]] + HexPrefix(s[1..]) else []
  }

  /**
   * `parseInt(s, 16)`: leading white space is skipped, one sign is read, a
   * "0x" or "0X" prefix is dropped, and the longest run of hexadecimal digits
   * that follows is the value. `None` stands for `NaN` (no digits at all).
   */
  function ParseIntHex(s: string): (r: Option<int>)
  {
    var t := TrimStart(s);
    var negative := t != [] && t[0] == '-';
    var u := if t != [] && (t[0] == '-' || t[0] == '+') then t[1..] else t;
    var w := if |u| >= 2 && u[0] == '0' && (u[1] == 'x' || u[1] == 'X') then u[2..] else u;
    var digits := HexPrefix(w);
    if digits == [] then None
    else Some(if negative then -(HexValue(digits) as int) else HexValue(digits))
  }

  const TWO_32 := 0x1_0000_0000
  const TWO_31 := 0x8000_0000

  /**
   * The ToInt32 conversion the bitwise operators apply: the value modulo 2^32,
   * read as a two's-complement 32-bit integer; `NaN` converts to 0.
   */
  function ToInt32(n: Option<int>): (r: int)
    ensures -TWO_31 <= r < TWO_31
    ensures n.Some? && 0 <= n.value < TWO_31 ==> r == n.value
  {
    if n.None? then 0
    else
      var m := n.value % TWO_32;
      if m >= TWO_31 then m - TWO_32 else m
  }

  /**
   * `(n >> 16, (n >> 8) & 0xFF, n & 0xFF)` for a 32-bit `n`: an arithmetic
   * shift right is a floor division, and masking the low byte is the
   * non-negative remainder modulo 256.
   */
  function ShiftChannels(n: int): (int, int, int) {
    (n / 65536, (n / 256) % 256, n % 256)
  }

  /** `Math.min(255, Math.max(0, x))` */
  function Clamp(x: int): (r: int)
    ensures 0 <= r <= 255
    ensures 0 <= x <= 255 ==> r == x
  {
    if x < 0 then 0 else if x > 255 then 255 else x
  }

  const HEX_CHARS := "0123456789abcdef"

  /** `n.toString(16)`: lowercase digits without leading zeros. */
  function HexString(n: nat): (r: string)
    ensures r != [] && AllLowerHex(r)
  {
    if n < 16 then [HEX_CHARS[n]] else HexString(n / 16) + [HEX_CHARS[n % 16]]
  }

  /** `s.padStart(width, c)` for a one-character filler. */
  function PadStart(s: string, width: nat, c: char): (r: string)
    ensures |r| == if |s| >= width then |s| else width
    ensures r == seq(|r| - |s|, _ => c) + s
  {
    if |s| >= width then s else seq(width - |s|, _ => c) + s
  }

  /** `hex.replace('#', '')`: only the first '#' is removed. */
  function RemoveFirstHash(hex: string): (r: string)
    ensures '#' !in hex ==> r == hex
    ensures hex != [] && hex[0] == '#' ==> r == hex[1..]
  {
    match IndexOf(hex, "#", 0)
    case None =>
      assert forall k | 0 <= k < |hex| :: hex[k] != '#' by {
        forall k | 0 <= k < |hex| ensures hex[k] != '#' {
          assert !OccursAt(hex, "#", k);
          assert hex[k..k + 1] == [hex[k]];
        }
      }
      hex
    case Some(k) =>
      assert hex[k..k + 1] == "#" && hex[k] == '#';
      assert hex != [] && hex[0] == '#' ==> k == 0 by {
        if hex != [] && hex[0] == '#' {
          assert OccursAt(hex, "#", 0) by { assert hex[0..1] == "#"; }
        }
      }
      hex[..k] + hex[k + 1..]
  }

  /** The three channels `adjustColor` reads out of a colour string. */
  function InputChannels(hex: string): (int, int, int) {
    ShiftChannels(ToInt32(ParseIntHex(RemoveFirstHash(hex))))
  }

  /** Each channel moved by `percent` and clamped to 0..255. */
  function Shift(channels: (int, int, int), percent: int): (r: (int, int, int))
    ensures 0 <= r.0 <= 255 && 0 <= r.1 <= 255 && 0 <= r.2 <= 255
  {
    (Clamp(channels.0 + percent), Clamp(channels.1 + percent), Clamp(channels.2 + percent))
  }

  /**
   * `(r << 16) | (g << 8) | b` for bytes `r`, `g`, `b`: they occupy disjoint
   * bits, so the bitwise or is a sum.
   */
  function Pack(channels: (int, int, int)): (v: nat)
    requires 0 <= channels.0 <= 255 && 0 <= channels.1 <= 255 && 0 <= channels.2 <= 255
    ensures v < 0x100_0000
  {
    channels.0 * 65536 + channels.1 * 256 + channels.2
  }

  /** `` `#${v.toString(16).padStart(6, '0')}` `` */
  function HexColor(v: nat): string {
    "#" + PadStart(HexString(v), 6, '0')
  }

  /** `adjustColor(hex, percent)` */
  function AdjustColor(hex: string, percent: int): string {
    var channels := Shift(InputChannels(hex), percent);
    HexColor(Pack(channels))
  }

  // ---------------------------------------------------------------
  // Facts about the digit arithmetic
  // ---------------------------------------------------------------

  function Pow16(k: nat): (r: nat)
    ensures r >= 1
  {
    if k == 0 then 1 else 16 * Pow16(k - 1)
  }

  lemma {:induction false} HexStringValue(n: nat)
    ensures AllHex(HexString(n)) && HexValue(HexString(n)) == n
  {
    var s := HexString(n);
    if n >= 16 {
      HexStringValue(n / 16);
      assert s[..|s| - 1] == HexString(n / 16);
    }
  }

  lemma {:induction false} HexStringLength(n: nat, k: nat)
    requires 1 <= k && n < Pow16(k)
    ensures |HexString(n)| <= k
  {
    if n >= 16 {
      assert n / 16 < Pow16(k - 1);
      HexStringLength(n / 16, k - 1);
    }
  }

  lemma {:induction false} HexValueBound(s: string)
    requires AllHex(s)
    ensures HexValue(s) < Pow16(|s|)
  {
    if s != [] {
      HexValueBound(s[..|s| - 1]);
    }
  }

  lemma {:induction false} LeadingZeros(k: nat, s: string)
    requires AllHex(s)
    ensures AllHex(seq(k, _ => '0') + s)
    ensures HexValue(seq(k, _ => '0') + s) == HexValue(s)
    decreases |s|, k
  {
    var z: string := seq(k, _ => '0');
    if s == [] {
      assert z + s == z;
      if k > 0 {
        assert z[..k - 1] == seq(k - 1, _ => '0');
        LeadingZeros(k - 1, []);
        assert seq(k - 1, _ => '0') + [] == seq(k - 1, _ => '0');
      }
    } else {
      var t := z + s;
      assert t[..|t| - 1] == z + s[..|s| - 1];
      LeadingZeros(k, s[..|s| - 1]);
    }
  }

  lemma DivideOut(q: int, rem: int, d: int)
    requires d == 16 || d == 256 || d == 65536
    requires 0 <= rem < d
    ensures (q * d + rem) / d == q && (q * d + rem) % d == rem
  {
    if d == 16 {
      assert (q * 16 + rem) / 16 == q;
    } else if d == 256 {
      assert (q * 256 + rem) / 256 == q;
    } else {
      assert (q * 65536 + rem) / 65536 == q;
    }
  }

  /** Three bytes pack into a 24-bit value from which the shifts recover them. */
  lemma PackChannels(r: int, g: int, b: int)
    requires 0 <= r <= 255 && 0 <= g <= 255 && 0 <= b <= 255
    ensures 0 <= r * 65536 + g * 256 + b < Pow16(6)
    ensures ShiftChannels(r * 65536 + g * 256 + b) == (r, g, b)
  {
    var v := r * 65536 + g * 256 + b;
    assert v == (r * 256 + g) * 256 + b;
    DivideOut(r * 256 + g, b, 256);
    DivideOut(r, g, 256);
    assert v == r * 65536 + (g * 256 + b);
    DivideOut(r, g * 256 + b, 65536);
    assert Pow16(6) == 16777216;
  }

  /** A 24-bit value is the packing of its own three bytes. */
  lemma UnpackChannels(v: int)
    requires 0 <= v < Pow16(6)
    ensures var c := ShiftChannels(v);
            0 <= c.0 <= 255 && 0 <= c.1 <= 255 && 0 <= c.2 <= 255 && Pack(c) == v
  {
    assert Pow16(6) == 16777216;
    var q := v / 256;
    var b := v % 256;
    assert v == q * 256 + b;
    var r := q / 256;
    var g := q % 256;
    assert q == r * 256 + g;
    DivideOut(r, g * 256 + b, 65536);
    assert v == r * 65536 + (g * 256 + b);
  }

  /** `parseInt(s, 16)` of a string made only of hexadecimal digits is its value. */
  lemma ParseHexDigits(s: string)
    requires s != [] && AllHex(s)
    ensures ParseIntHex(s) == Some(HexValue(s))
  {
    assert !IsWhite(s[0]) by { assert IsHexDigit(s[0]); }
    assert TrimStart(s) == s;
    assert s[0] != '-' && s[0] != '+';
    assert |s| >= 2 ==> s[1] != 'x' && s[1] != 'X' by {
      if |s| >= 2 { assert IsHexDigit(s[1]); }
    }
    AllHexPrefix(s);
  }

  lemma {:induction false} AllHexPrefix(s: string)
    requires AllHex(s)
    ensures HexPrefix(s) == s
  {
    if s != [] {
      AllHexPrefix(s[1..]);
      assert [s[0]] + s[1..] == s;
    }
  }

  /** Equal-length lowercase digit strings with the same value are equal. */
  lemma {:induction false} LowerHexInjective(a: string, b: string)
    requires AllLowerHex(a) && AllLowerHex(b) && |a| == |b|
    ensures AllHex(a) && AllHex(b)
    ensures HexValue(a) == HexValue(b) ==> a == b
  {
    assert AllHex(a) && AllHex(b) by {
      forall k | 0 <= k < |a| ensures IsHexDigit(a[k]) && IsHexDigit(b[k]) {
        assert IsLowerHexDigit(a[k]) && IsLowerHexDigit(b[k]);
      }
    }
    if a != [] && HexValue(a) == HexValue(b) {
      var n := |a| - 1;
      LowerHexInjective(a[..n], b[..n]);
      DivideOut(HexValue(a[..n]), DigitValue(a[n]), 16);
      DivideOut(HexValue(b[..n]), DigitValue(b[n]), 16);
      assert DigitValue(a[n]) == DigitValue(b[n]);
      assert a[n] == b[n] by { assert IsLowerHexDigit(a[n]) && IsLowerHexDigit(b[n]); }
      assert a == a[..n] + [a[n]] && b == b[..n] + [b[n]];
    }
  }

  /** Lowercasing hexadecimal digits keeps their value. */
  lemma {:induction false} LowerKeepsValue(s: string)
    requires AllHex(s)
    ensures AllLowerHex(Lower(s)) && AllHex(Lower(s)) && HexValue(Lower(s)) == HexValue(s)
  {
    var l := Lower(s);
    assert AllLowerHex(l) by {
      forall k | 0 <= k < |l| ensures IsLowerHexDigit(l[k]) { assert IsHexDigit(s[k]); }
    }
    assert AllHex(l) by {
      forall k | 0 <= k < |l| ensures IsHexDigit(l[k]) { assert IsLowerHexDigit(l[k]); }
    }
    if s != [] {
      var n := |s| - 1;
      assert l[..n] == Lower(s[..n]);
      LowerKeepsValue(s[..n]);
      assert DigitValue(l[n]) == DigitValue(s[n]);
    }
  }

  /** The six digits `adjustColor` writes for a packed 24-bit value. */
  lemma SixDigits(v: nat)
    requires v < Pow16(6)
    ensures var p := PadStart(HexString(v), 6, '0');
            |p| == 6 && AllLowerHex(p) && AllHex(p) && HexValue(p) == v
  {
    var h := HexString(v);
    HexStringLength(v, 6);
    HexStringValue(v);
    var p := PadStart(h, 6, '0');
    LeadingZeros(6 - |h|, h);
    assert AllLowerHex(p) by {
      forall k | 0 <= k < |p| ensures IsLowerHexDigit(p[k]) {
        if k >= 6 - |h| { assert p[k] == h[k - (6 - |h|)]; }
      }
    }
  }

  // ---------------------------------------------------------------
  // What adjustColor promises
  // ---------------------------------------------------------------

  lemma ShiftPacks(channels: (int, int, int), percent: int)
    ensures var v := Pack(Shift(channels, percent));
            0 <= v < Pow16(6) && ShiftChannels(v) == Shift(channels, percent)
  {
    var c := Shift(channels, percent);
    PackChannels(c.0, c.1, c.2);
  }

  /** What a packed value written as a colour looks like, and how `adjustColor` reads it back. */
  lemma HexColorReadBack(v: nat)
    requires v < Pow16(6)
    ensures var c := HexColor(v);
            |c| == 7 && c[0] == '#' && AllLowerHex(c[1..]) && InputChannels(c) == ShiftChannels(v)
  {
    var p := PadStart(HexString(v), 6, '0');
    SixDigits(v);
    var c := "#" + p;
    assert c[1..] == p;
    assert RemoveFirstHash(c) == p;
    ParseHexDigits(p);
    assert Pow16(6) < TWO_31;
  }

  /** The result is always '#' followed by exactly six lowercase hexadecimal digits. */
  lemma AdjustColorFormat(hex: string, percent: int)
    ensures var c := AdjustColor(hex, percent);
            |c| == 7 && c[0] == '#' && AllLowerHex(c[1..])
  {
    ShiftPacks(InputChannels(hex), percent);
    HexColorReadBack(Pack(Shift(InputChannels(hex), percent)));
  }

  /**
   * Read back the way `adjustColor` reads its input, the result has each
   * channel of the input moved by `percent` and clamped to 0..255.
   */
  lemma AdjustColorChannels(hex: string, percent: int)
    ensures InputChannels(AdjustColor(hex, percent)) == Shift(InputChannels(hex), percent)
  {
    ShiftedColorReadBack(InputChannels(hex), percent);
  }

  /** Shifted channels written as a colour read back as themselves. */
  lemma ShiftedColorReadBack(channels: (int, int, int), percent: int)
    ensures InputChannels(HexColor(Pack(Shift(channels, percent)))) == Shift(channels, percent)
  {
    ShiftPacks(channels, percent);
    HexColorReadBack(Pack(Shift(channels, percent)));
  }

  /** Adjusting a '#RRGGBB' colour by 0 writes its value back out. */
  lemma AdjustByZeroRewrites(digits: string)
    requires |digits| == 6 && AllHex(digits)
    ensures HexValue(digits) < Pow16(6)
    ensures AdjustColor("#" + digits, 0) == HexColor(HexValue(digits))
  {
    var v := HexValue(digits);
    ReadDigits(digits);
    HexValueBound(digits);
    assert Pow16(6) < TWO_31;
    assert ToInt32(Some(v)) == v;
    var c := ShiftChannels(v);
    UnpackChannels(v);
    assert Shift(c, 0) == c;
  }

  /** The six lowercase digits written for a value are the lowercased digits it was read from. */
  lemma WrittenDigitsAreLowered(digits: string)
    requires |digits| == 6 && AllHex(digits) && HexValue(digits) < Pow16(6)
    ensures PadStart(HexString(HexValue(digits)), 6, '0') == Lower(digits)
  {
    var v := HexValue(digits);
    SixDigits(v);
    LowerKeepsValue(digits);
    LowerHexInjective(PadStart(HexString(v), 6, '0'), Lower(digits));
  }

  lemma LowerAfterHash(digits: string)
    ensures Lower("#" + digits) == "#" + Lower(digits)
  {
    var hex := "#" + digits;
    assert Lower(hex)[0] == '#';
    assert Lower(hex)[1..] == Lower(digits);
  }

  /** Adjusting a '#RRGGBB' colour by 0 only lowercases it. */
  lemma AdjustByZeroLowercases(digits: string)
    requires |digits| == 6 && AllHex(digits)
    ensures AdjustColor("#" + digits, 0) == Lower("#" + digits)
  {
    AdjustByZeroRewrites(digits);
    WrittenDigitsAreLowered(digits);
    LowerAfterHash(digits);
  }

  /** Behind a leading '#', a string of hexadecimal digits is read as its value. */
  lemma ReadDigits(digits: string)
    requires digits != [] && AllHex(digits)
    ensures InputChannels("#" + digits) == ShiftChannels(ToInt32(Some(HexValue(digits))))
  {
    var hex := "#" + digits;
    assert hex[1..] == digits;
    assert RemoveFirstHash(hex) == digits;
    ParseHexDigits(digits);
  }

  /**
   * A colour whose first character after '#' is neither white space, a sign
   * nor a hexadecimal digit parses as `NaN`, reads as black, and so adjusts
   * to the grey `Clamp(percent)` on every channel.
   */
  lemma NonHexParsesNaN(rest: string)
    requires rest != [] && !IsWhite(rest[0]) && rest[0] != '-' && rest[0] != '+' && !IsHexDigit(rest[0])
    ensures ParseIntHex(rest) == None
  {
    assert TrimStart(rest) == rest;
    assert rest[0] != '0';
    assert HexPrefix(rest) == [];
  }

  lemma NonHexReadsAsBlack(rest: string, percent: int)
    requires rest != [] && !IsWhite(rest[0]) && rest[0] != '-' && rest[0] != '+' && !IsHexDigit(rest[0])
    ensures InputChannels("#" + rest) == (0, 0, 0)
    ensures InputChannels(AdjustColor("#" + rest, percent)) == (Clamp(percent), Clamp(percent), Clamp(percent))
  {
    var hex := "#" + rest;
    assert hex[1..] == rest;
    assert RemoveFirstHash(hex) == rest;
    NonHexParsesNaN(rest);
    assert ToInt32(None) == 0;
    assert ShiftChannels(0) == (0, 0, 0);
    assert InputChannels(hex) == (0, 0, 0);
    AdjustBlack(hex, percent);
  }

  lemma AdjustBlack(hex: string, percent: int)
    requires InputChannels(hex) == (0, 0, 0)
    ensures InputChannels(AdjustColor(hex, percent)) == (Clamp(percent), Clamp(percent), Clamp(percent))
  {
    AdjustColorChannels(hex, percent);
  }

  // ---------------------------------------------------------------
  // Configuration
  // ---------------------------------------------------------------

  /**
   * A `Partial<PreviewConfig>`: `None` is a key the object does not have.
   * For the optional fields, `Some(None)` is a key present with value
   * `undefined`, which the spread copies like any other.
   */
  datatype ConfigPatch = ConfigPatch(
    deviceId: Option<string>,
    templateId: Option<string>,
    backgroundColor: Option<string>,
    gradientFrom: Option<Option<string>>,
    gradientTo: Option<Option<string>>,
    gradientAngle: Option<Option<int>>,
    headline: Option<string>,
    subtext: Option<string>,
    textColor: Option<string>,
    fontFamily: Option<string>,
    shadowIntensity: Option<string>,
    deviceColor: Option<string>)

  const NO_CHANGES := ConfigPatch(None, None, None, None, None, None, None, None, None, None, None, None)

  function Pick<T>(update: Option<T>, current: T): T {
    if update.Some? then update.value else current
  }

  /** `{ ...prev, ...updates }` */
  function Merge(prev: PreviewConfig, updates: ConfigPatch): PreviewConfig {
    PreviewConfig(
      Pick(updates.deviceId, prev.deviceId),
      Pick(updates.templateId, prev.templateId),
      Pick(updates.backgroundColor, prev.backgroundColor),
      Pick(updates.gradientFrom, prev.gradientFrom),
      Pick(updates.gradientTo, prev.gradientTo),
      Pick(updates.gradientAngle, prev.gradientAngle),
      Pick(updates.headline, prev.headline),
      Pick(updates.subtext, prev.subtext),
      Pick(updates.textColor, prev.textColor),
      Pick(updates.fontFamily, prev.fontFamily),
      Pick(updates.shadowIntensity, prev.shadowIntensity),
      Pick(updates.deviceColor, prev.deviceColor))
  }

  /** `{ ...first, ...second }` on two patches: the later one wins key by key. */
  function Then(first: ConfigPatch, second: ConfigPatch): ConfigPatch {
    ConfigPatch(
      if second.deviceId.Some? then second.deviceId else first.deviceId,
      if second.templateId.Some? then second.templateId else first.templateId,
      if second.backgroundColor.Some? then second.backgroundColor else first.backgroundColor,
      if second.gradientFrom.Some? then second.gradientFrom else first.gradientFrom,
      if second.gradientTo.Some? then second.gradientTo else first.gradientTo,
      if second.gradientAngle.Some? then second.gradientAngle else first.gradientAngle,
      if second.headline.Some? then second.headline else first.headline,
      if second.subtext.Some? then second.subtext else first.subtext,
      if second.textColor.Some? then second.textColor else first.textColor,
      if second.fontFamily.Some? then second.fontFamily else first.fontFamily,
      if second.shadowIntensity.Some? then second.shadowIntensity else first.shadowIntensity,
      if second.deviceColor.Some? then second.deviceColor else first.deviceColor)
  }

  /** A merge overwrites exactly the keys the patch has: a field keeps its value iff the patch lacks it or repeats it. */
  lemma MergeOverwritesSuppliedFields(prev: PreviewConfig, updates: ConfigPatch)
    ensures (updates.deviceId.None? ==> Merge(prev, updates).deviceId == prev.deviceId) && (updates.deviceId.Some? ==> Merge(prev, updates).deviceId == updates.deviceId.value)
    ensures (updates.templateId.None? ==> Merge(prev, updates).templateId == prev.templateId) && (updates.templateId.Some? ==> Merge(prev, updates).templateId == updates.templateId.value)
    ensures (updates.backgroundColor.None? ==> Merge(prev, updates).backgroundColor == prev.backgroundColor) && (updates.backgroundColor.Some? ==> Merge(prev, updates).backgroundColor == updates.backgroundColor.value)
    ensures (updates.gradientFrom.None? ==> Merge(prev, updates).gradientFrom == prev.gradientFrom) && (updates.gradientFrom.Some? ==> Merge(prev, updates).gradientFrom == updates.gradientFrom.value)
    ensures (updates.gradientTo.None? ==> Merge(prev, updates).gradientTo == prev.gradientTo) && (updates.gradientTo.Some? ==> Merge(prev, updates).gradientTo == updates.gradientTo.value)
    ensures (updates.gradientAngle.None? ==> Merge(prev, updates).gradientAngle == prev.gradientAngle) && (updates.gradientAngle.Some? ==> Merge(prev, updates).gradientAngle == updates.gradientAngle.value)
    ensures (updates.headline.None? ==> Merge(prev, updates).headline == prev.headline) && (updates.headline.Some? ==> Merge(prev, updates).headline == updates.headline.value)
    ensures (updates.subtext.None? ==> Merge(prev, updates).subtext == prev.subtext) && (updates.subtext.Some? ==> Merge(prev, updates).subtext == updates.subtext.value)
    ensures (updates.textColor.None? ==> Merge(prev, updates).textColor == prev.textColor) && (updates.textColor.Some? ==> Merge(prev, updates).textColor == updates.textColor.value)
    ensures (updates.fontFamily.None? ==> Merge(prev, updates).fontFamily == prev.fontFamily) && (updates.fontFamily.Some? ==> Merge(prev, updates).fontFamily == updates.fontFamily.value)
    ensures (updates.shadowIntensity.None? ==> Merge(prev, updates).shadowIntensity == prev.shadowIntensity) && (updates.shadowIntensity.Some? ==> Merge(prev, updates).shadowIntensity == updates.shadowIntensity.value)
    ensures (updates.deviceColor.None? ==> Merge(prev, updates).deviceColor == prev.deviceColor) && (updates.deviceColor.Some? ==> Merge(prev, updates).deviceColor == updates.deviceColor.value)
    ensures updates == NO_CHANGES ==> Merge(prev, updates) == prev
  {
  }

  /** Merging the same patch twice changes nothing more. */
  lemma MergeIdempotent(prev: PreviewConfig, updates: ConfigPatch)
    ensures Merge(Merge(prev, updates), updates) == Merge(prev, updates)
  {
  }

  /** Two successive `updateConfig` calls act as one call with the combined patch. */
  lemma MergeComposes(prev: PreviewConfig, first: ConfigPatch, second: ConfigPatch)
    ensures Merge(Merge(prev, first), second) == Merge(prev, Then(first, second))
  {
  }

  const DEFAULT_ACCENT := "#3B82F6"
  const DARKEN := -30

  /** `accentColor = '#3B82F6'`: the default parameter replaces only `undefined`. */
  function AccentOrDefault(accentColor: Option<string>): (r: string)
    ensures accentColor.Some? ==> r == accentColor.value
    ensures accentColor.None? ==> r == "#3B82F6"
  {
    if accentColor.Some? then accentColor.value else DEFAULT_ACCENT
  }

  /** The keys the initial state overrides in the defaults. */
  function InitialPatch(headline: string, subtext: string, accent: string): ConfigPatch {
    NO_CHANGES.(headline := Some(headline), subtext := Some(subtext),
                gradientFrom := Some(Some(accent)),
                gradientTo := Some(Some(AdjustColor(accent, DARKEN))))
  }

  /** `{ ...DEFAULT_PREVIEW_CONFIG, headline, subtext, gradientFrom, gradientTo }` */
  function InitialConfig(headline: string, subtext: string, accentColor: Option<string>): PreviewConfig {
    Merge(DEFAULT_PREVIEW_CONFIG, InitialPatch(headline, subtext, AccentOrDefault(accentColor)))
  }

  /**
   * The initial configuration differs from the defaults in the two texts and
   * the gradient only: the gradient starts at the accent and ends at the
   * accent darkened by 30 on every channel.
   */
  lemma InitialConfigFromDefaults(headline: string, subtext: string, accentColor: Option<string>)
    ensures var c := InitialConfig(headline, subtext, accentColor);
            var accent := AccentOrDefault(accentColor);
            var (r, g, b) := InputChannels(accent);
            c.(headline := "", subtext := "", gradientFrom := Some("#1a1a2e"), gradientTo := Some("#16213e"))
              == DEFAULT_PREVIEW_CONFIG &&
            c.headline == headline && c.subtext == subtext && c.gradientFrom == Some(accent) &&
            c.gradientTo.Some? && InputChannels(c.gradientTo.value) == (Clamp(r - 30), Clamp(g - 30), Clamp(b - 30))
  {
    AdjustColorChannels(AccentOrDefault(accentColor), DARKEN);
  }

  // ---------------------------------------------------------------
  // The dialog's state
  // ---------------------------------------------------------------

  /** What the download fetch does: throw, or resolve with a response whose `ok` is given. */
  datatype FetchOutcome = FetchThrew | FetchResponded(ok: bool)

  const DOWNLOADED := "프리뷰 이미지가 다운로드되었습니다!"
  const DOWNLOAD_FAILED := "이미지 생성에 실패했습니다"

  /** The request body the download posts to the preview route. */
  datatype PreviewRequest = PreviewRequest(screenshotUrl: string, config: PreviewConfig)

  /** `app-preview-${selectedDevice.id}-${Date.now()}.png` */
  function DownloadName(deviceId: string, now: nat): string {
    "app-preview-" + deviceId + "-" + NatToString(now) + ".png"
  }

  class Editor {
    const screenshotUrl: string
    var config: PreviewConfig
    var isGenerating: bool
    var activeTab: string

    constructor(screenshotUrl: string, headline: string, subtext: string, accentColor: Option<string>)
      ensures this.screenshotUrl == screenshotUrl
      ensures config == InitialConfig(headline, subtext, accentColor)
      ensures !isGenerating && activeTab == "device"
    {
      this.screenshotUrl := screenshotUrl;
      config := InitialConfig(headline, subtext, accentColor);
      isGenerating := false;
      activeTab := "device";
    }

    /** The frame being shown: the configured one, or the first frame when the id is unknown. */
    function SelectedDevice(): (d: DeviceFrame)
      reads this
      ensures d in DEVICE_FRAMES
      ensures GetDeviceById(config.deviceId).None? ==> d == DEVICE_FRAMES[0]
    {
      DeviceOrFirst(config.deviceId)
    }

    /** The template being shown, with the same fallback to the first entry. */
    function SelectedTemplate(): (t: LayoutTemplate)
      reads this
      ensures t in LAYOUT_TEMPLATES
      ensures GetTemplateById(config.templateId).None? ==> t == LAYOUT_TEMPLATES[0]
    {
      TemplateOrFirst(config.templateId)
    }

    /** `updateConfig(updates)` */
    method UpdateConfig(updates: ConfigPatch)
      modifies this
      ensures config == Merge(old(config), updates)
      ensures isGenerating == old(isGenerating) && activeTab == old(activeTab)
    {
      config := Merge(config, updates);
    }

    /**
     * `handleDownload()`: post the current configuration, and on an OK
     * response save the image under a name made of the selected device's id
     * and the current time; `isGenerating` is back to false however it ends.
     */
    method HandleDownload(fetch: FetchOutcome, now: nat) returns (request: PreviewRequest, saved: Option<string>, toast: Toast)
      modifies this
      ensures request == PreviewRequest(screenshotUrl, old(config))
      ensures fetch == FetchResponded(true) ==>
                saved == Some(DownloadName(old(SelectedDevice()).id, now)) && toast == ToastSuccess(DOWNLOADED)
      ensures fetch != FetchResponded(true) ==> saved == None && toast == ToastError(DOWNLOAD_FAILED, None)
      ensures config == old(config) && activeTab == old(activeTab) && !isGenerating
    {
      isGenerating := true;
      request := PreviewRequest(screenshotUrl, config);
      if fetch == FetchResponded(true) {
        saved := Some(DownloadName(SelectedDevice().id, now));
        toast := ToastSuccess(DOWNLOADED);
      } else {
        saved := None;
        toast := ToastError(DOWNLOAD_FAILED, None);
      }
      isGenerating := false;
    }
  }
}
