/** The capability descriptors the control routes send upstream, built from a
    validated intent, and the colour packing `(r << 16) | (g << 8) | b`. */
module Capability {
  import opened Wrappers
  import opened Js
  import Int32

  /** A validated high-level request of one control route. */
  datatype Intent =
    | Power(on: bool)
    | Brightness(level: int)
    | Color(r: int, g: int, b: int)
    | ColorTemp(kelvin: int)

  /** A capability descriptor `{type, instance, value}` as the vendor reads it. */
  datatype Descriptor = Descriptor(kind: string, instance: string, value: int)

  const OnOff := "devices.capabilities.on_off"
  const Range := "devices.capabilities.range"
  const ColorSetting := "devices.capabilities.color_setting"

  const Two24: int := 0x100_0000

  predicate IsChannel(c: int) {
    0 <= c <= 255
  }

  /** Intents the vendor can read back: colour channels are bytes. */
  predicate WellFormed(i: Intent) {
    i.Color? ==> IsChannel(i.r) && IsChannel(i.g) && IsChannel(i.b)
  }

  /** `(r << 16) | (g << 8) | b` with JavaScript's 32-bit semantics. */
  function PackRgb(r: int, g: int, b: int): int {
    Int32.Or(Int32.Or(Int32.Shl(r, 16), Int32.Shl(g, 8)), b)
  }

  /** For byte channels the packed value is r*65536 + g*256 + b, a 24-bit value. */
  lemma PackRgbBytes(r: int, g: int, b: int)
    requires IsChannel(r) && IsChannel(g) && IsChannel(b)
    ensures PackRgb(r, g, b) == r * 65536 + g * 256 + b
    ensures 0 <= PackRgb(r, g, b) < Two24
  {
    ShiftedChannels(r, g);
    OrChannels(r, g, b);
  }

  /** Shifting byte channels into place stays within 32 bits. */
  lemma ShiftedChannels(r: int, g: int)
    requires IsChannel(r) && IsChannel(g)
    ensures Int32.Shl(r, 16) == r * 65536 && Int32.Shl(g, 8) == g * 256
  {
    Pow2Values();
    Int32.ShlSmall(r, 16);
    Int32.ShlSmall(g, 8);
  }

  /** Or-ing shifted byte channels is adding them. */
  lemma OrChannels(r: int, g: int, b: int)
    requires IsChannel(r) && IsChannel(g) && IsChannel(b)
    ensures Int32.Or(Int32.Or(r * 65536, g * 256), b) == r * 65536 + g * 256 + b
  {
    Pow2Values();
    Int32.OrDisjoint(r, g * 256, 16);
    assert r * 65536 + g * 256 == (r * 256 + g) * 256;
    Int32.OrDisjoint(r * 256 + g, b, 8);
  }

  lemma Pow2Values()
    ensures Int32.Pow2(8) == 256 && Int32.Pow2(16) == 65536
  {
    assert Int32.Pow2(4) == 16;
    assert Int32.Pow2(8) == 256;
    assert Int32.Pow2(12) == 4096;
  }

  /** The channels a 24-bit colour value holds, most significant first. */
  function UnpackRgb(v: int): (int, int, int)
    requires 0 <= v < Two24
  {
    (v / 65536, (v / 256) % 256, v % 256)
  }

  lemma DivMod256(q: int, m: int)
    requires 0 <= m < 256
    ensures (q * 256 + m) / 256 == q && (q * 256 + m) % 256 == m
  {
  }

  /** Packing byte channels and unpacking gives the channels back. */
  lemma UnpackPackRgb(r: int, g: int, b: int)
    requires IsChannel(r) && IsChannel(g) && IsChannel(b)
    ensures 0 <= PackRgb(r, g, b) < Two24
    ensures UnpackRgb(PackRgb(r, g, b)) == (r, g, b)
  {
    PackRgbBytes(r, g, b);
    var v := r * 65536 + g * 256 + b;
    DivMod256(r * 256 + g, b);
    DivMod256(r, g);
    assert v / 65536 == r;
  }

  /** Outside the byte range channels overlap: green 256 packs like red 1. */
  lemma ChannelOverflowAliases()
    ensures PackRgb(0, 256, 0) == PackRgb(1, 0, 0) == 65536
  {
    Pow2Values();
    Int32.ShlSmall(256, 8);
    Int32.ShlSmall(1, 16);
    Int32.ShlSmall(0, 8);
    Int32.ShlSmall(0, 16);
    Int32.ToInt32Small(65536);
    assert Int32.Or(0, 65536) == 65536 && Int32.Or(65536, 0) == 65536;
  }

  /** The descriptor each route sends: fixed (type, instance), value from the intent. */
  function Build(i: Intent): (c: Descriptor)
    ensures i.Power? ==> c.kind == OnOff && c.instance == "powerSwitch"
                         && (c.value == 1 <==> i.on) && (c.value == 0 <==> !i.on)
    ensures i.Brightness? ==> c.kind == Range && c.instance == "brightness"
    ensures i.ColorTemp? ==> c.kind == ColorSetting && c.instance == "colorTemperatureK"
    ensures i.Color? ==> c.kind == ColorSetting && c.instance == "colorRgb"
    ensures i.Color? && WellFormed(i) ==> 0 <= c.value < Two24
  {
    match i
    case Power(on) => Descriptor(OnOff, "powerSwitch", if on then 1 else 0)
    case Brightness(level) => Descriptor(Range, "brightness", level)
    case Color(r, g, b) =>
      var v := PackRgb(r, g, b);
      assert WellFormed(i) ==> 0 <= v < Two24 by {
        if IsChannel(r) && IsChannel(g) && IsChannel(b) {
          PackRgbBytes(r, g, b);
        }
      }
      Descriptor(ColorSetting, "colorRgb", v)
    case ColorTemp(k) => Descriptor(ColorSetting, "colorTemperatureK", k)
  }

  /** How a reader of the descriptor recovers the intent; None for a descriptor
      no intent produces. */
  function Decode(c: Descriptor): Option<Intent> {
    if c.kind == OnOff && c.instance == "powerSwitch" && (c.value == 0 || c.value == 1) then
      Some(Power(c.value == 1))
    else if c.kind == Range && c.instance == "brightness" then
      Some(Brightness(c.value))
    else if c.kind == ColorSetting && c.instance == "colorRgb" && 0 <= c.value < Two24 then
      var (r, g, b) := UnpackRgb(c.value);
      Some(Color(r, g, b))
    else if c.kind == ColorSetting && c.instance == "colorTemperatureK" then
      Some(ColorTemp(c.value))
    else None
  }

  /** Every well-formed intent survives the round trip through its descriptor. */
  lemma DecodeBuild(i: Intent)
    requires WellFormed(i)
    ensures Decode(Build(i)) == Some(i)
  {
    if i.Color? {
      UnpackPackRgb(i.r, i.g, i.b);
      PackRgbBytes(i.r, i.g, i.b);
    }
  }

  /** Conversely, a descriptor that decodes is exactly what its intent builds. */
  lemma BuildDecode(c: Descriptor)
    requires Decode(c).Some?
    ensures WellFormed(Decode(c).value)
    ensures Build(Decode(c).value) == c
  {
    if c.kind == ColorSetting && c.instance == "colorRgb" && 0 <= c.value < Two24 {
      var v := c.value;
      var r, g, b := v / 65536, (v / 256) % 256, v % 256;
      assert v == r * 65536 + g * 256 + b;
      PackRgbBytes(r, g, b);
    }
  }

  /** The colour descriptor for byte channels carries r*65536 + g*256 + b. */
  lemma BuildColorBytes(r: int, g: int, b: int)
    requires IsChannel(r) && IsChannel(g) && IsChannel(b)
    ensures Build(Color(r, g, b)) == Descriptor(ColorSetting, "colorRgb", r * 65536 + g * 256 + b)
  {
    PackRgbBytes(r, g, b);
  }

  /** The end-to-end example: pure red packs to 0xFF0000. */
  lemma RedPacksTo16711680()
    ensures Build(Color(255, 0, 0)) == Descriptor(ColorSetting, "colorRgb", 16711680)
  {
    PackRgbBytes(255, 0, 0);
  }
}
