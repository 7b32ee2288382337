/**
 * Colour constants (src/draw/colors.py): `hex_to_rgb` turns a "#RRGGBB"
 * string into an RGB triple scaled to [0, 1], and the palette is built from it.
 *
 * Components are exact reals; Python computes `n / 255` in floating point.
 * A `None` result stands for the `ValueError` that `int(..., 16)` raises.
 */
module Colors {
  import opened Wrappers
  import Python

  /** A colour as cairo's `set_source_rgb` takes it. */
  datatype Rgb = Rgb(red: real, green: real, blue: real)

  predicate InUnitRange(x: real) { 0.0 <= x <= 1.0 }

  predicate InUnitCube(c: Rgb) { InUnitRange(c.red) && InUnitRange(c.green) && InUnitRange(c.blue) }

  /** x is n / 255 for an integer n. */
  predicate IsOver255(x: real) { (x * 255.0).Floor as real == x * 255.0 }

  predicate IsHexDigit(c: char) { '0' <= c <= '9' || 'a' <= c <= 'f' || 'A' <= c <= 'F' }

  function HexDigitValue(c: char): (v: nat)
    requires IsHexDigit(c)
    ensures v < 16
  {
    if '0' <= c <= '9' then c as int - '0' as int
    else if 'a' <= c <= 'f' then c as int - 'a' as int + 10
    else c as int - 'A' as int + 10
  }

  /** The byte that two hex digits spell, most significant first. */
  function HexByte(hi: char, lo: char): (b: nat)
    requires IsHexDigit(hi) && IsHexDigit(lo)
    ensures b <= 255
  {
    16 * HexDigitValue(hi) + HexDigitValue(lo)
  }

  /**
   * The white space Python's `int()` strips from both ends: tab, line feed,
   * vertical tab, form feed, carriage return and space among the ASCII
   * characters, and every non-ASCII character `str.isspace` accepts (`int()`
   * turns those into a space first). U+001C to U+001F pass `str.isspace` but
   * not `int()`'s ASCII test, so they stay and make the parse fail.
   */
  predicate IsSpace(c: char)
  {
    || '\U{9}' <= c <= '\U{D}' || c == ' '
    || c == '\U{85}' || c == '\U{A0}' || c == '\U{1680}'
    || '\U{2000}' <= c <= '\U{200A}' || c == '\U{2028}' || c == '\U{2029}'
    || c == '\U{202F}' || c == '\U{205F}' || c == '\U{3000}'
  }

  /** What `int()` parses of a string of at most two characters, once white space is dropped from both ends. */
  function StripShort(s: string): (r: string)
    requires |s| <= 2
    ensures |r| <= |s|
    ensures r != [] ==> !IsSpace(r[0]) && !IsSpace(r[|r| - 1])
    ensures forall k :: 0 <= k < |s| && !IsSpace(s[k]) ==> s[k] in r
  {
    if s == [] then s
    else if |s| == 1 then (if IsSpace(s[0]) then [] else s)
    else if IsSpace(s[0]) then (if IsSpace(s[1]) then [] else s[1..])
    else if IsSpace(s[1]) then s[..1]
    else s
  }

  /**
   * Python `int(s, 16)` for a string of at most two characters, the only kind
   * `hex_to_rgb` passes: surrounding white space is dropped, then what is left
   * must be one or two hex digits, or a sign followed by one hex digit.
   * (A "0x" prefix or an underscore needs at least three characters.)
   */
  function ParseHex(s: string): (r: Option<int>)
    requires |s| <= 2
    ensures r.Some? ==> -15 <= r.value <= 255
    ensures r.Some? && r.value < 0 ==> '-' in s
    ensures |s| == 2 && IsHexDigit(s[0]) && IsHexDigit(s[1]) ==> r == Some(HexByte(s[0], s[1]))
  {
    var t := StripShort(s);
    if |t| == 1 && IsHexDigit(t[0]) then Some(HexDigitValue(t[0]))
    else if |t| == 2 && IsHexDigit(t[0]) && IsHexDigit(t[1]) then Some(HexByte(t[0], t[1]))
    else if |t| == 2 && t[0] == '+' && IsHexDigit(t[1]) then Some(HexDigitValue(t[1]))
    else if |t| == 2 && t[0] == '-' && IsHexDigit(t[1]) then Some(-(HexDigitValue(t[1]) as int))
    else None
  }

  /**
   * When `int(s, 16)` raises: a single character parses iff it is a hex digit,
   * nothing parses without a hex digit, and any character that is not a hex
   * digit, white space or a sign makes the parse fail.
   */
  lemma ParseHexFailure(s: string)
    requires |s| <= 2
    ensures |s| == 1 ==> (ParseHex(s).Some? <==> IsHexDigit(s[0]))
    ensures ParseHex(s).Some? ==> exists k :: 0 <= k < |s| && IsHexDigit(s[k])
    ensures (exists k :: 0 <= k < |s| && !IsHexDigit(s[k]) && !IsSpace(s[k]) && s[k] != '+' && s[k] != '-') ==> ParseHex(s).None?
  {
  }

  /**
   * White space that `int()` strips around a digit is accepted, and a
   * character that only `str.isspace` counts as white space is refused.
   */
  lemma ParseHexWhiteSpace()
    ensures ParseHex(" F") == Some(15) && ParseHex("F\n") == Some(15) && ParseHex("\U{A0}F") == Some(15)
    ensures ParseHex("\U{1C}F") == None && HexToRgb("#\U{1C}F0000") == None
  {
    assert StripShort(" F") == "F";
    assert StripShort("F\n") == "F";
    assert StripShort("\U{A0}F") == "F";
    assert ChannelByte("#\U{1C}F0000", 1) == ParseHex("\U{1C}F");
  }

  /** One channel as an integer, `int(hex_color[i:i+2], 16)`. */
  function ChannelByte(hexColor: string, i: nat): (r: Option<int>)
    ensures r.Some? ==> -15 <= r.value <= 255
  {
    ParseHex(Python.Slice(hexColor, i, i + 2))
  }

  /**
   * `hex_to_rgb`, as written: red from characters 1-2, green from 3-4, blue
   * from 5-6, each divided by 255; the first character and anything after the
   * seventh are never read.
   */
  function HexToRgb(hexColor: string): (r: Option<Rgb>)
    ensures r.Some? ==> r.value.red <= 1.0 && r.value.green <= 1.0 && r.value.blue <= 1.0
    ensures r.Some? ==> r.value.red >= -15.0 / 255.0 && r.value.green >= -15.0 / 255.0 && r.value.blue >= -15.0 / 255.0
  {
    ScaleBytes(ChannelByte(hexColor, 1), ChannelByte(hexColor, 3), ChannelByte(hexColor, 5))
  }

  /** The three channel integers, each divided by 255; `None` if any of them failed to parse. */
  function ScaleBytes(red: Option<int>, green: Option<int>, blue: Option<int>): (r: Option<Rgb>)
    requires red.Some? ==> -15 <= red.value <= 255
    requires green.Some? ==> -15 <= green.value <= 255
    requires blue.Some? ==> -15 <= blue.value <= 255
    ensures r.Some? <==> red.Some? && green.Some? && blue.Some?
    ensures r.Some? ==> r.value.red <= 1.0 && r.value.green <= 1.0 && r.value.blue <= 1.0
    ensures r.Some? ==> r.value.red >= -15.0 / 255.0 && r.value.green >= -15.0 / 255.0 && r.value.blue >= -15.0 / 255.0
  {
    if red.Some? && green.Some? && blue.Some? then
      Some(Rgb(red.value as real / 255.0, green.value as real / 255.0, blue.value as real / 255.0))
    else None
  }

  /** Every component `hex_to_rgb` returns is exactly an integer divided by 255. */
  lemma HexToRgbComponentsOver255(s: string)
    requires HexToRgb(s).Some?
    ensures IsOver255(HexToRgb(s).value.red)
    ensures IsOver255(HexToRgb(s).value.green)
    ensures IsOver255(HexToRgb(s).value.blue)
  {
    var red, green, blue := ChannelByte(s, 1).value, ChannelByte(s, 3).value, ChannelByte(s, 5).value;
    assert HexToRgb(s).value == Rgb(red as real / 255.0, green as real / 255.0, blue as real / 255.0);
    assert (red as real / 255.0) * 255.0 == red as real;
    assert (green as real / 255.0) * 255.0 == green as real;
    assert (blue as real / 255.0) * 255.0 == blue as real;
  }

  predicate HasSixHexDigits(s: string)
  {
    |s| >= 7 && forall k :: 1 <= k < 7 ==> IsHexDigit(s[k])
  }

  /** On a well-formed "#RRGGBB" string each channel is the pair's byte value over 255, in [0, 1]. */
  lemma HexToRgbOfHexDigits(s: string)
    requires HasSixHexDigits(s)
    ensures HexToRgb(s) == Some(Rgb(HexByte(s[1], s[2]) as real / 255.0,
                                    HexByte(s[3], s[4]) as real / 255.0,
                                    HexByte(s[5], s[6]) as real / 255.0))
    ensures InUnitCube(HexToRgb(s).value)
  {
    var red, green, blue := HexByte(s[1], s[2]), HexByte(s[3], s[4]), HexByte(s[5], s[6]);
    ChannelOfHexDigits(s, 1, red);
    ChannelOfHexDigits(s, 3, green);
    ChannelOfHexDigits(s, 5, blue);
    HexToRgbOfChannels(s, red, green, blue);
  }

  /** A channel of two hex digits is their byte value. */
  lemma ChannelOfHexDigits(s: string, i: nat, b: nat)
    requires i + 2 <= |s| && IsHexDigit(s[i]) && IsHexDigit(s[i + 1])
    requires b == HexByte(s[i], s[i + 1])
    ensures ChannelByte(s, i) == Some(b)
  {
    assert Python.Slice(s, i, i + 2) == [s[i], s[i + 1]];
  }

  /** Three channels that parse give the colour of their bytes over 255. */
  lemma HexToRgbOfChannels(s: string, red: int, green: int, blue: int)
    requires 0 <= red <= 255 && 0 <= green <= 255 && 0 <= blue <= 255
    requires ChannelByte(s, 1) == Some(red) && ChannelByte(s, 3) == Some(green) && ChannelByte(s, 5) == Some(blue)
    ensures HexToRgb(s) == Some(Rgb(red as real / 255.0, green as real / 255.0, blue as real / 255.0))
  {
  }

  /** Only characters 1 to 6 matter: the leading '#' and any tail are ignored. */
  lemma HexToRgbReadsOnlyDigits(s: string, t: string)
    requires Python.Slice(s, 1, 7) == Python.Slice(t, 1, 7)
    ensures HexToRgb(s) == HexToRgb(t)
  {
    ChannelReadsOnlyDigits(s, t, 1);
    ChannelReadsOnlyDigits(s, t, 3);
    ChannelReadsOnlyDigits(s, t, 5);
  }

  lemma ChannelReadsOnlyDigits(s: string, t: string, i: nat)
    requires Python.Slice(s, 1, 7) == Python.Slice(t, 1, 7)
    requires 1 <= i <= 5
    ensures ChannelByte(s, i) == ChannelByte(t, i)
  {
    Python.SliceOfSlice(s, 1, 7, i - 1, i + 1);
    Python.SliceOfSlice(t, 1, 7, i - 1, i + 1);
    assert Python.Slice(s, i, i + 2) == Python.Slice(t, i, i + 2);
  }

  /** Fewer than six characters leave the blue slice empty, and `int("", 16)` raises. */
  lemma HexToRgbRejectsShort(s: string)
    requires |s| <= 5
    ensures HexToRgb(s) == None
  {
    assert Python.Slice(s, 5, 7) == [];
  }

  /**
   * As written, `int(..., 16)` accepts a sign: "#-10000" is read with red
   * -1/255, outside the [0, 1] range the docstring promises.
   */
  lemma HexToRgbAcceptsSignedPair()
    ensures HexToRgb("#-10000").Some?
    ensures HexToRgb("#-10000").value.red == -1.0 / 255.0 < 0.0
  {
    var s := "#-10000";
    assert Python.Slice(s, 1, 3) == "-1";
    assert Python.Slice(s, 3, 5) == "00";
    assert Python.Slice(s, 5, 7) == "00";
    assert StripShort("-1") == "-1";
    assert StripShort("00") == "00";
    assert ParseHex("-1") == Some(-1);
    assert ParseHex("00") == Some(0);
  }

  /** The parse the docstring describes: exactly six hex digits after the first character. */
  function StrictHexToRgb(hexColor: string): (r: Option<Rgb>)
    ensures r.Some? <==> HasSixHexDigits(hexColor)
    ensures r.Some? ==> InUnitCube(r.value)
  {
    if HasSixHexDigits(hexColor) then
      Some(Rgb(HexByte(hexColor[1], hexColor[2]) as real / 255.0,
               HexByte(hexColor[3], hexColor[4]) as real / 255.0,
               HexByte(hexColor[5], hexColor[6]) as real / 255.0))
    else None
  }

  /** Wherever the strict parse succeeds, `hex_to_rgb` as written gives the same colour. */
  lemma StrictAgreesWithHexToRgb(s: string)
    requires StrictHexToRgb(s).Some?
    ensures HexToRgb(s) == StrictHexToRgb(s)
  {
    HexToRgbOfHexDigits(s);
  }

  const SUBWAY_RED := Rgb(238.0 / 255.0, 53.0 / 255.0, 46.0 / 255.0)
  const SUBWAY_ORANGE := Rgb(1.0, 99.0 / 255.0, 25.0 / 255.0)
  const SUBWAY_YELLOW := Rgb(252.0 / 255.0, 204.0 / 255.0, 10.0 / 255.0)

  const NEUTRAL_000 := Rgb(1.0, 1.0, 1.0)
  const NEUTRAL_100 := Rgb(248.0 / 255.0, 243.0 / 255.0, 239.0 / 255.0)
  const NEUTRAL_200 := Rgb(228.0 / 255.0, 219.0 / 255.0, 212.0 / 255.0)
  const NEUTRAL_300 := Rgb(182.0 / 255.0, 169.0 / 255.0, 159.0 / 255.0)
  const NEUTRAL_900 := Rgb(0.0, 0.0, 0.0)

  const STATUS_OK := Rgb(52.0 / 255.0, 145.0 / 255.0, 90.0 / 255.0)
  const STATUS_WARNING := Rgb(226.0 / 255.0, 178.0 / 255.0, 68.0 / 255.0)

  lemma PaletteEntry(hex: string, c: Rgb)
    requires |hex| == 7
    requires IsHexDigit(hex[1]) && IsHexDigit(hex[2]) && IsHexDigit(hex[3])
    requires IsHexDigit(hex[4]) && IsHexDigit(hex[5]) && IsHexDigit(hex[6])
    requires c == Rgb(HexByte(hex[1], hex[2]) as real / 255.0,
                      HexByte(hex[3], hex[4]) as real / 255.0,
                      HexByte(hex[5], hex[6]) as real / 255.0)
    ensures StrictHexToRgb(hex) == HexToRgb(hex) == Some(c)
  {
    assert HasSixHexDigits(hex);
    StrictAgreesWithHexToRgb(hex);
  }

  /** The route colours are what their hex literals parse to, under either parse. */
  lemma RouteColoursFromHex()
    ensures StrictHexToRgb("#EE352E") == HexToRgb("#EE352E") == Some(SUBWAY_RED)
    ensures StrictHexToRgb("#FF6319") == HexToRgb("#FF6319") == Some(SUBWAY_ORANGE)
    ensures StrictHexToRgb("#FCCC0A") == HexToRgb("#FCCC0A") == Some(SUBWAY_YELLOW)
  {
    PaletteEntry("#EE352E", SUBWAY_RED);
    PaletteEntry("#FF6319", SUBWAY_ORANGE);
    PaletteEntry("#FCCC0A", SUBWAY_YELLOW);
  }

  /** The light neutral colours are what their hex literals parse to, under either parse. */
  lemma NeutralColoursFromHex()
    ensures StrictHexToRgb("#FFFFFF") == HexToRgb("#FFFFFF") == Some(NEUTRAL_000) == Some(Rgb(1.0, 1.0, 1.0))
    ensures StrictHexToRgb("#F8F3EF") == HexToRgb("#F8F3EF") == Some(NEUTRAL_100)
    ensures StrictHexToRgb("#E4DBD4") == HexToRgb("#E4DBD4") == Some(NEUTRAL_200)
  {
    PaletteEntry("#FFFFFF", NEUTRAL_000);
    PaletteEntry("#F8F3EF", NEUTRAL_100);
    PaletteEntry("#E4DBD4", NEUTRAL_200);
  }

  /** The text colours, grey and black, are what their hex literals parse to, under either parse. */
  lemma TextColoursFromHex()
    ensures StrictHexToRgb("#B6A99F") == HexToRgb("#B6A99F") == Some(NEUTRAL_300)
    ensures StrictHexToRgb("#000000") == HexToRgb("#000000") == Some(NEUTRAL_900) == Some(Rgb(0.0, 0.0, 0.0))
  {
    PaletteEntry("#B6A99F", NEUTRAL_300);
    PaletteEntry("#000000", NEUTRAL_900);
  }

  lemma StatusColoursFromHex()
    ensures StrictHexToRgb("#34915A") == HexToRgb("#34915A") == Some(STATUS_OK)
    ensures StrictHexToRgb("#E2B244") == HexToRgb("#E2B244") == Some(STATUS_WARNING)
  {
    PaletteEntry("#34915A", STATUS_OK);
    PaletteEntry("#E2B244", STATUS_WARNING);
  }
}
