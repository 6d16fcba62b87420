/** `hslToHex` and the stroke style the render loop derives from the
    envelopes. Colours are packed as `0xRRGGBB`. */
module Color {
  import opened Numeric

  datatype Rgb = Rgb(r: int, g: int, b: int)

  predicate InByte(c: Rgb)
  {
    0 <= c.r <= 255 && 0 <= c.g <= 255 && 0 <= c.b <= 255
  }

  /** The hue sector `hslToHex` picks: 0 for [0,60), 1 for [60,120), ...,
      4 for [240,300), and 5 for every other hue, negative ones included. */
  function Sector(h: real): (k: int)
    ensures 0 <= k <= 5
    ensures 0.0 <= h < 360.0 ==> k as real * 60.0 <= h < (k + 1) as real * 60.0
  {
    if 0.0 <= h < 60.0 then 0
    else if 60.0 <= h < 120.0 then 1
    else if 120.0 <= h < 180.0 then 2
    else if 180.0 <= h < 240.0 then 3
    else if 240.0 <= h < 300.0 then 4
    else 5
  }

  /** Where the chroma `c` and the second component `x` go in each sector. */
  function Spread(k: int, c: real, x: real): (real, real, real)
  {
    if k == 0 then (c, x, 0.0)
    else if k == 1 then (x, c, 0.0)
    else if k == 2 then (0.0, c, x)
    else if k == 3 then (0.0, x, c)
    else if k == 4 then (x, 0.0, c)
    else (c, 0.0, x)
  }

  /** `1 - |2l - 1|`: the most chroma lightness `l` leaves room for, which
      keeps the channels between 0 and 1 around `l`. */
  function Span(l: real): (w: real)
    ensures 0.0 <= l <= 1.0 ==> 0.0 <= w <= 1.0 && w <= 2.0 * l && w <= 2.0 * (1.0 - l)
  {
    1.0 - Abs(2.0 * l - 1.0)
  }

  /** The chroma of lightness `l` at saturation `s`. */
  function Chroma(s: real, l: real): real
  {
    Span(l) * s
  }

  /** The second-largest component before the lightness offset. */
  function SecondComponent(h: real, c: real): real
  {
    c * (1.0 - Abs(Rem(h / 60.0, 2.0) - 1.0))
  }

  /** The three rounded channels `hslToHex` packs. */
  function Channels(h: real, s: real, l: real): Rgb
  {
    var c := Chroma(s, l);
    var x := SecondComponent(h, c);
    var m := l - c / 2.0;
    var (r, g, b) := Spread(Sector(h), c, x);
    Rgb(Round((r + m) * 255.0), Round((g + m) * 255.0), Round((b + m) * 255.0))
  }

  /** `(R << 16) | (G << 8) | B`, read arithmetically. */
  function Pack(c: Rgb): int
  {
    c.r * 65536 + c.g * 256 + c.b
  }

  /** Splits `0xRRGGBB` into its channels. */
  function Unpack(v: int): Rgb
  {
    Rgb(v / 65536, (v / 256) % 256, v % 256)
  }

  function HslToHex(h: real, s: real, l: real): int
  {
    Pack(Channels(h, s, l))
  }

  /** Packing channels that fit in a byte loses nothing, and stays within 24 bits. */
  lemma UnpackPack(c: Rgb)
    requires InByte(c)
    ensures 0 <= Pack(c) <= 0xFF_FFFF
    ensures Unpack(Pack(c)) == c
  {
    var v := Pack(c);
    var low := c.g * 256 + c.b;
    assert 0 <= low < 65536;
    assert v / 65536 == c.r;
    assert v % 65536 == low;
    assert v / 256 == c.r * 256 + c.g;
    assert (v / 256) % 256 == c.g;
    assert v % 256 == c.b;
  }

  /** A value in [0, 1] scaled to 255 rounds into a byte. */
  lemma ByteOfUnit(v: real)
    requires 0.0 <= v <= 1.0
    ensures 0 <= Round(v * 255.0) <= 255
  {
  }

  /** The chroma never exceeds the room the lightness leaves. */
  lemma ChromaBounds(s: real, l: real)
    requires 0.0 <= s <= 1.0 && 0.0 <= l <= 1.0
    ensures 0.0 <= Chroma(s, l) <= Span(l)
  {
    var w := Span(l);
    assert 0.0 <= w <= 1.0;
    ScaleDown(w, s);
    assert Chroma(s, l) == w * s;
  }

  /** The second component lies between 0 and the chroma. */
  lemma SecondComponentBounds(h: real, c: real)
    requires 0.0 <= h && 0.0 <= c
    ensures 0.0 <= SecondComponent(h, c) <= c
  {
    var f := 1.0 - Abs(Rem(h / 60.0, 2.0) - 1.0);
    assert 0.0 <= h / 60.0;
    assert 0.0 <= f <= 1.0;
    MulMono(f, 1.0, c);
    MulMono(0.0, f, c);
  }

  /** For a non-negative hue and saturation and lightness in [0, 1], every
      channel lies in [0, 255]. */
  lemma {:induction false} ChannelsInByte(h: real, s: real, l: real)
    requires 0.0 <= h && 0.0 <= s <= 1.0 && 0.0 <= l <= 1.0
    ensures InByte(Channels(h, s, l))
  {
    var c := Chroma(s, l);
    ChromaBounds(s, l);
    var x := SecondComponent(h, c);
    SecondComponentBounds(h, c);
    var m := l - c / 2.0;
    assert 0.0 <= m && c + m <= 1.0;
    var (r, g, b) := Spread(Sector(h), c, x);
    ByteOfUnit(r + m);
    ByteOfUnit(g + m);
    ByteOfUnit(b + m);
  }

  /** `hslToHex` yields a 24-bit colour whose bytes are the channels. */
  lemma HslToHexInGamut(h: real, s: real, l: real)
    requires 0.0 <= h && 0.0 <= s <= 1.0 && 0.0 <= l <= 1.0
    ensures 0 <= HslToHex(h, s, l) <= 0xFF_FFFF
    ensures Unpack(HslToHex(h, s, l)) == Channels(h, s, l)
  {
    ChannelsInByte(h, s, l);
    UnpackPack(Channels(h, s, l));
  }

  /** With no saturation every hue gives the same grey, round(255 * l). */
  lemma UnsaturatedIsGrey(h: real, l: real)
    ensures Channels(h, 0.0, l) == Rgb(Round(255.0 * l), Round(255.0 * l), Round(255.0 * l))
  {
    assert Chroma(0.0, l) == 0.0;
    assert SecondComponent(h, 0.0) == 0.0;
  }

  /** In each hue sector the channel that carries the chroma is the largest
      and the channel left at zero is the smallest. */
  lemma {:induction false} SectorOrder(h: real, s: real, l: real)
    requires 0.0 <= h && 0.0 <= s <= 1.0 && 0.0 <= l <= 1.0
    ensures var k := Channels(h, s, l);
      && (Sector(h) == 0 ==> k.r >= k.g >= k.b)
      && (Sector(h) == 1 ==> k.g >= k.r >= k.b)
      && (Sector(h) == 2 ==> k.g >= k.b >= k.r)
      && (Sector(h) == 3 ==> k.b >= k.g >= k.r)
      && (Sector(h) == 4 ==> k.b >= k.r >= k.g)
      && (Sector(h) == 5 ==> k.r >= k.b >= k.g)
  {
    var c := Chroma(s, l);
    ChromaBounds(s, l);
    var x := SecondComponent(h, c);
    SecondComponentBounds(h, c);
    var m := l - c / 2.0;
    RoundMonotone(m * 255.0, (x + m) * 255.0);
    RoundMonotone((x + m) * 255.0, (c + m) * 255.0);
  }

  /** The stroke hue: the spin phase as degrees, pushed by the high band. */
  function StrokeHue(phaseOffset: real, hiEnv: real): (hue: real)
    ensures 0.0 <= phaseOffset && 0.0 <= hiEnv ==> 0.0 <= hue < 360.0
  {
    Rem(360.0 * Rem(phaseOffset, 1.0) + 20.0 * hiEnv, 360.0)
  }

  /** The stroke saturation, before `Math.min(1, ...)`. */
  function StrokeSaturation(hiEnv: real): real
  {
    0.65 + 0.25 * hiEnv
  }

  /** The stroke lightness, brightened by the kick and darkened by hovering, before `Math.min(1, ...)`. */
  function StrokeLightness(kickEnv: real, hoverValue: real): real
  {
    (0.70 + 0.18 * kickEnv) * (1.0 - hoverValue * 0.14)
  }

  function StrokeColor(phaseOffset: real, hiEnv: real, kickEnv: real, hoverValue: real): int
  {
    HslToHex(StrokeHue(phaseOffset, hiEnv), Min(1.0, StrokeSaturation(hiEnv)),
             Min(1.0, StrokeLightness(kickEnv, hoverValue)))
  }

  /** While the envelopes keep their ranges, the stroke colour is a valid
      24-bit colour: its hue, saturation and lightness meet `hslToHex`'s
      in-gamut conditions. */
  lemma StrokeColorInGamut(phaseOffset: real, hiEnv: real, kickEnv: real, hoverValue: real)
    requires 0.0 <= phaseOffset && 0.0 <= hiEnv && 0.0 <= kickEnv && 0.0 <= hoverValue <= 1.0
    ensures 0 <= StrokeColor(phaseOffset, hiEnv, kickEnv, hoverValue) <= 0xFF_FFFF
  {
    var light := StrokeLightness(kickEnv, hoverValue);
    MulMono(0.0, 0.70 + 0.18 * kickEnv, 1.0 - hoverValue * 0.14);
    assert 0.0 <= light;
    HslToHexInGamut(StrokeHue(phaseOffset, hiEnv), Min(1.0, StrokeSaturation(hiEnv)), Min(1.0, light));
  }

  /** The stroke width grows from 1 to 40 with the envelopes and saturates at 40. */
  function LineWidth(kickEnv: real, hiEnv: real): (w: real)
    ensures 0.0 <= kickEnv && 0.0 <= hiEnv ==> 1.0 <= w <= 40.0
    ensures 0.85 * kickEnv + 0.25 * hiEnv >= 1.0 ==> w == 40.0
  {
    1.0 + (40.0 - 1.0) * Min(1.0, 0.85 * kickEnv + 0.25 * hiEnv)
  }
}
