/** The colour helpers of the game: `interpolateColor`, `lightenColor` and
    `darkenColor` (game.js:86-113). Colours are strings `#rrggbb`; the
    helpers parse the hexadecimal digits (either case, as `parseInt(_, 16)`
    does), work on the three 8-bit channels as integers and print them back
    in lower case (as `Number.prototype.toString(16)` does). */
module Colors {
  import opened Util

  // ---------------------------------------------------------------------
  // Hexadecimal digits and numbers
  // ---------------------------------------------------------------------

  predicate IsHexDigit(c: char) {
    ('0' <= c <= '9') || ('a' <= c <= 'f') || ('A' <= c <= 'F')
  }

  /** The digits `toString(16)` prints: lower case only. */
  predicate IsLowerHexDigit(c: char) {
    ('0' <= c <= '9') || ('a' <= c <= 'f')
  }

  predicate IsHexString(s: string) {
    forall i :: 0 <= i < |s| ==> IsHexDigit(s[i])
  }

  predicate IsLowerHexString(s: string) {
    forall i :: 0 <= i < |s| ==> IsLowerHexDigit(s[i])
  }

  function DigitValue(c: char): (v: nat)
    requires IsHexDigit(c)
    ensures v < 16
    ensures '0' <= c <= '9' ==> v < 10
  {
    if '0' <= c <= '9' then c as int - '0' as int
    else if 'a' <= c <= 'f' then c as int - 'a' as int + 10
    else c as int - 'A' as int + 10
  }

  /** The lower-case digit for `d`; `DigitValue` inverts it. */
  function DigitChar(d: nat): (c: char)
    requires d < 16
    ensures IsLowerHexDigit(c) && IsHexDigit(c)
    ensures DigitValue(c) == d
  {
    if d < 10 then ('0' as int + d) as char else ('a' as int + d - 10) as char
  }

  function Pow16(n: nat): (p: nat)
    ensures p >= 1
  {
    if n == 0 then 1 else 16 * Pow16(n - 1)
  }

  /** `parseInt(s, 16)` on a non-empty string of hexadecimal digits. */
  function ParseHex(s: string): (n: nat)
    requires |s| > 0 && IsHexString(s)
    ensures n < Pow16(|s|)
    decreases |s|
  {
    if |s| == 1 then DigitValue(s[0])
    else ParseHex(s[..|s| - 1]) * 16 + DigitValue(s[|s| - 1])
  }

  /** `n.toString(16)` for a non-negative integer: the shortest
      lower-case digit string. */
  function ToHex(n: nat): (s: string)
    ensures |s| > 0 && IsLowerHexString(s) && IsHexString(s)
    ensures n < 16 <==> |s| == 1
  {
    if n < 16 then [DigitChar(n)] else ToHex(n / 16) + [DigitChar(n % 16)]
  }

  /** `parseInt(n.toString(16), 16) == n`. */
  lemma {:induction false} ToHexRoundTrip(n: nat)
    ensures ParseHex(ToHex(n)) == n
  {
    if n >= 16 {
      var prefix := ToHex(n / 16);
      var s := ToHex(n);
      assert s == prefix + [DigitChar(n % 16)];
      assert s[..|s| - 1] == prefix;
      ToHexRoundTrip(n / 16);
    }
  }

  /** `s.padStart(width, fill)`. */
  function PadStart(s: string, width: nat, fill: char): (r: string)
    ensures |r| == if |s| < width then width else |s|
    decreases width - |s|
  {
    if |s| >= width then s else PadStart([fill] + s, width, fill)
  }

  /** The two lower-case digits of an 8-bit channel, most significant first. */
  function TwoDigits(c: nat): (s: string)
    requires c < 256
  {
    [DigitChar(c / 16), DigitChar(c % 16)]
  }

  lemma TwoDigitsRoundTrip(c: nat)
    requires c < 256
    ensures IsLowerHexString(TwoDigits(c)) && IsHexString(TwoDigits(c))
    ensures ParseHex(TwoDigits(c)) == c
  {
    var s := TwoDigits(c);
    assert s[..1] == [s[0]];
  }

  /** `c.toString(16).padStart(2, '0')` prints a channel as two digits. */
  lemma {:induction false} PaddedChannel(c: nat)
    requires c < 256
    ensures PadStart(ToHex(c), 2, '0') == TwoDigits(c)
  {
    if c < 16 {
      assert ToHex(c) == [DigitChar(c)];
      assert PadStart(ToHex(c), 2, '0') == PadStart(['0'] + ToHex(c), 2, '0');
    } else {
      assert ToHex(c / 16) == [DigitChar(c / 16)];
    }
  }

  /** Appending one digit to a number of at least one digit. */
  lemma ToHexStep(a: nat, d: nat)
    requires a >= 1 && d < 16
    ensures ToHex(a * 16 + d) == ToHex(a) + [DigitChar(d)]
  {
    var n := a * 16 + d;
    assert n / 16 == a && n % 16 == d;
  }

  /** Appending the two digits of a channel. */
  lemma ToHexChannel(a: nat, c: nat)
    requires a >= 1 && c < 256
    ensures ToHex(a * 256 + c) == ToHex(a) + TwoDigits(c)
  {
    ToHexStep(a, c / 16);
    ToHexStep(a * 16 + c / 16, c % 16);
    assert (a * 16 + c / 16) * 16 + c % 16 == a * 256 + c;
  }

  /** `(1 << 24 | R << 16 | G << 8 | B).toString(16)` is `1` followed by
      the six digits of the three channels. */
  lemma ToHexPacked(r: nat, g: nat, b: nat)
    requires r < 256 && g < 256 && b < 256
    ensures ToHex(0x100_0000 + r * 0x1_0000 + g * 0x100 + b)
         == "1" + TwoDigits(r) + TwoDigits(g) + TwoDigits(b)
  {
    var a1 := 1 * 256 + r;
    var a2 := a1 * 256 + g;
    assert ToHex(1) == "1";
    AppendChannel(1, "1", r, a1);
    AppendChannel(a1, "1" + TwoDigits(r), g, a2);
    AppendChannel(a2, "1" + TwoDigits(r) + TwoDigits(g), b, 0x100_0000 + r * 0x1_0000 + g * 0x100 + b);
  }

  /** `ToHexChannel` for a number whose spelling is already known. */
  lemma AppendChannel(a: nat, spelled: string, c: nat, n: nat)
    requires a >= 1 && c < 256 && ToHex(a) == spelled && n == a * 256 + c
    ensures ToHex(n) == spelled + TwoDigits(c)
  {
    ToHexChannel(a, c);
  }

  /** Parsing a string followed by two more digits. */
  lemma ParseHexAppendTwo(u: string, v: string)
    requires |u| > 0 && IsHexString(u) && |v| == 2 && IsHexString(v)
    ensures IsHexString(u + v)
    ensures ParseHex(u + v) == ParseHex(u) * 256 + ParseHex(v)
  {
    var w := u + v;
    assert w[..|w| - 1] == u + [v[0]];
    assert (u + [v[0]])[..|u|] == u;
    assert v[..1] == [v[0]];
  }

  // ---------------------------------------------------------------------
  // Colours
  // ---------------------------------------------------------------------

  /** A colour string `#rrggbb`. */
  predicate IsHexColor(s: string) {
    |s| == 7 && s[0] == '#' && IsHexString(s[1..])
  }

  /** Channel `i` (1 red, 2 green, 3 blue) read as interpolateColor does:
      `parseInt(color.substr(i*2-1, 2), 16)`. */
  function Channel(s: string, i: nat): (c: nat)
    requires 1 <= i && 2 * i + 1 <= |s| && IsHexString(s[2 * i - 1..2 * i + 1])
    ensures c < 256
  {
    ParseHex(s[2 * i - 1..2 * i + 1])
  }

  function Red(s: string): (c: nat) requires IsHexColor(s) ensures c < 256 { Channel(s, 1) }
  function Green(s: string): (c: nat) requires IsHexColor(s) ensures c < 256 { Channel(s, 2) }
  function Blue(s: string): (c: nat) requires IsHexColor(s) ensures c < 256 { Channel(s, 3) }

  /** `parseInt(color.slice(1), 16)` packs the three channels of a colour
      into one number, which is why `lightenColor` can take them apart with
      shifts and masks: `num >> 16`, `num >> 8 & 0xFF`, `num & 0xFF`. */
  lemma PackedChannels(color: string)
    requires IsHexColor(color)
    ensures ParseHex(color[1..]) == Red(color) * 0x1_0000 + Green(color) * 0x100 + Blue(color)
    ensures ParseHex(color[1..]) / 0x1_0000 == Red(color)
    ensures ParseHex(color[1..]) / 0x100 % 0x100 == Green(color)
    ensures ParseHex(color[1..]) % 0x100 == Blue(color)
  {
    var s := color[1..];
    var r, g, b := Red(color), Green(color), Blue(color);
    assert ParseHex(s) == r * 0x1_0000 + g * 0x100 + b by {
      assert s == s[..4] + s[4..];
      assert s[..4] == s[..2] + s[2..4];
      assert s[..2] == color[1..3] && s[2..4] == color[3..5] && s[4..] == color[5..7];
      ParseHexAppendTwo(s[..2], s[2..4]);
      ParseHexAppendTwo(s[..4], s[4..]);
    }
    UnpackChannels(r, g, b);
  }

  /** Shifting and masking a packed colour number recovers its channels. */
  lemma UnpackChannels(r: nat, g: nat, b: nat)
    requires r < 256 && g < 256 && b < 256
    ensures (r * 0x1_0000 + g * 0x100 + b) / 0x1_0000 == r
    ensures (r * 0x1_0000 + g * 0x100 + b) / 0x100 % 0x100 == g
    ensures (r * 0x1_0000 + g * 0x100 + b) % 0x100 == b
  {
    var n := r * 0x1_0000 + g * 0x100 + b;
    assert n / 0x100 == r * 0x100 + g;
  }

  /** The string `"#" + (1 << 24 | R << 16 | G << 8 | B).toString(16).slice(1)`
      that both `lightenColor` and `darkenColor` return, for channels that
      are already within [0, 255]. */
  function Encode(r: nat, g: nat, b: nat): (s: string)
    requires r < 256 && g < 256 && b < 256
    ensures IsHexColor(s) && IsLowerHexString(s[1..])
    ensures Red(s) == r && Green(s) == g && Blue(s) == b
  {
    var packed := 0x100_0000 + r * 0x1_0000 + g * 0x100 + b;
    ToHexPacked(r, g, b);
    TwoDigitsColor(r, g, b);
    var s := "#" + ToHex(packed)[1..];
    assert s == "#" + TwoDigits(r) + TwoDigits(g) + TwoDigits(b);
    s
  }

  /** A `#` followed by the two-digit spelling of three channels is a
      colour whose channels read back as those three. */
  lemma TwoDigitsColor(r: nat, g: nat, b: nat)
    requires r < 256 && g < 256 && b < 256
    ensures var s := "#" + TwoDigits(r) + TwoDigits(g) + TwoDigits(b);
      IsHexColor(s) && IsLowerHexString(s[1..]) &&
      Red(s) == r && Green(s) == g && Blue(s) == b
  {
    var s := "#" + TwoDigits(r) + TwoDigits(g) + TwoDigits(b);
    TwoDigitsRoundTrip(r);
    TwoDigitsRoundTrip(g);
    TwoDigitsRoundTrip(b);
    assert s[1..] == TwoDigits(r) + TwoDigits(g) + TwoDigits(b);
    assert s[1..3] == TwoDigits(r) && s[3..5] == TwoDigits(g) && s[5..7] == TwoDigits(b);
  }

  /** `lightenColor(color, percent)` with `amt = Math.round(2.55 * percent)`
      given: every channel is raised by `amt` and capped at 255. */
  function LightenColor(color: string, amt: nat): (r: string)
    requires IsHexColor(color)
    ensures IsHexColor(r)
    ensures Red(r) == MinI(255, Red(color) + amt)
    ensures Green(r) == MinI(255, Green(color) + amt)
    ensures Blue(r) == MinI(255, Blue(color) + amt)
  {
    var num := ParseHex(color[1..]);
    PackedChannels(color);
    var red := MinI(255, num / 0x1_0000 + amt);
    var green := MinI(255, num / 0x100 % 0x100 + amt);
    var blue := MinI(255, num % 0x100 + amt);
    Encode(red, green, blue)
  }

  /** `darkenColor(color, percent)` with `amt` given: every channel is
      lowered by `amt` and floored at 0. */
  function DarkenColor(color: string, amt: nat): (r: string)
    requires IsHexColor(color)
    ensures IsHexColor(r)
    ensures Red(r) == MaxI(0, Red(color) - amt)
    ensures Green(r) == MaxI(0, Green(color) - amt)
    ensures Blue(r) == MaxI(0, Blue(color) - amt)
  {
    var num := ParseHex(color[1..]);
    PackedChannels(color);
    var red := MaxI(0, num / 0x1_0000 - amt);
    var green := MaxI(0, num / 0x100 % 0x100 - amt);
    var blue := MaxI(0, num % 0x100 - amt);
    Encode(red, green, blue)
  }

  /** Lightening never darkens a channel and darkening never lightens one;
      both stay within [0, 255] (the bound is in `Channel`'s contract). */
  lemma LightenDarkenMonotone(color: string, amt: nat)
    requires IsHexColor(color)
    ensures Red(LightenColor(color, amt)) >= Red(color)
    ensures Green(LightenColor(color, amt)) >= Green(color)
    ensures Blue(LightenColor(color, amt)) >= Blue(color)
    ensures Red(DarkenColor(color, amt)) <= Red(color)
    ensures Green(DarkenColor(color, amt)) <= Green(color)
    ensures Blue(DarkenColor(color, amt)) <= Blue(color)
  {
  }

  /** Darkening undoes lightening by the same amount whenever no channel hit
      the 255 cap. */
  lemma DarkenUndoesLighten(color: string, amt: nat)
    requires IsHexColor(color)
    requires Red(color) + amt <= 255 && Green(color) + amt <= 255 && Blue(color) + amt <= 255
    ensures var back := DarkenColor(LightenColor(color, amt), amt);
      Red(back) == Red(color) && Green(back) == Green(color) && Blue(back) == Blue(color)
  {
  }

  /** Lightening by 0 a second time changes nothing: re-encoding a colour
      that `LightenColor` already encoded returns the same string. */
  lemma LightenByZeroIsIdempotent(color: string)
    requires IsHexColor(color)
    ensures LightenColor(LightenColor(color, 0), 0) == LightenColor(color, 0)
  {
  }

  // ---------------------------------------------------------------------
  // interpolateColor
  // ---------------------------------------------------------------------

  /** `Math.round(v)`: the nearest integer, halves rounded up. */
  function Round(v: real): (n: int)
    ensures v - 0.5 < n as real <= v + 0.5
  {
    (v + 0.5).Floor
  }

  /** `Math.round(c1 + factor * (c2 - c1))`, one channel of interpolateColor. */
  function Mix(a: int, b: int, f: real): (c: int)
    ensures 0.0 <= f <= 1.0 ==> MinI(a, b) <= c <= MaxI(a, b)
    ensures f == 0.0 ==> c == a
    ensures f == 1.0 ==> c == b
  {
    var v := a as real + f * (b - a) as real;
    if 0.0 <= f <= 1.0 then
      ScaledBetween(f, (b - a) as real);
      Round(v)
    else Round(v)
  }

  /** A fraction `f` of `d` lies between 0 and `d`. */
  lemma ScaledBetween(f: real, d: real)
    requires 0.0 <= f <= 1.0
    ensures 0.0 <= d ==> 0.0 <= f * d <= d
    ensures d <= 0.0 ==> d <= f * d <= 0.0
  {
    if 0.0 <= d {
      assert d - f * d == (1.0 - f) * d;
    } else {
      assert f * d - d == (1.0 - f) * -d;
    }
  }

  /** A mix of two 8-bit channels is an 8-bit channel. */
  lemma MixInRange(a: int, b: int, f: real)
    requires 0 <= a < 256 && 0 <= b < 256 && 0.0 <= f <= 1.0
    ensures 0 <= Mix(a, b, f) < 256
  {
  }

  /** interpolateColor(color1, color2, factor): a loop over the three
      channels appends each mixed channel as two digits. */
  method InterpolateColor(color1: string, color2: string, factor: real) returns (result: string)
    requires IsHexColor(color1) && IsHexColor(color2)
    requires 0.0 <= factor <= 1.0
    ensures IsHexColor(result) && IsLowerHexString(result[1..])
    ensures Red(result) == Mix(Red(color1), Red(color2), factor)
    ensures Green(result) == Mix(Green(color1), Green(color2), factor)
    ensures Blue(result) == Mix(Blue(color1), Blue(color2), factor)
  {
    MixInRange(Red(color1), Red(color2), factor);
    MixInRange(Green(color1), Green(color2), factor);
    MixInRange(Blue(color1), Blue(color2), factor);
    ghost var mixed: seq<nat> := [Mix(Red(color1), Red(color2), factor),
                                  Mix(Green(color1), Green(color2), factor),
                                  Mix(Blue(color1), Blue(color2), factor)];
    assert InRange(mixed);
    result := "#";
    for i := 1 to 4
      invariant result == "#" + Spell(mixed[..i - 1])
    {
      InterpolateStep(color1, color2, factor, mixed, i, result);
      var c1: int := ParseHex(color1[i * 2 - 1..i * 2 + 1]);
      var c2: int := ParseHex(color2[i * 2 - 1..i * 2 + 1]);
      var c := Mix(c1, c2, factor);
      var digits := PadStart(ToHex(c), 2, '0');
      result := result + digits;
    }
    assert mixed[..3] == mixed;
    SpelledColor(mixed);
  }

  /** One pass of the `interpolateColor` loop appends the two digits of the
      next mixed channel to what the earlier passes built. */
  lemma InterpolateStep(color1: string, color2: string, factor: real, mixed: seq<nat>, i: nat,
                        result: string)
    requires IsHexColor(color1) && IsHexColor(color2) && 0.0 <= factor <= 1.0 && 1 <= i <= 3
    requires mixed == [Mix(Red(color1), Red(color2), factor),
                       Mix(Green(color1), Green(color2), factor),
                       Mix(Blue(color1), Blue(color2), factor)]
    requires InRange(mixed)
    requires result == "#" + Spell(mixed[..i - 1])
    ensures IsHexString(color1[i * 2 - 1..i * 2 + 1]) && IsHexString(color2[i * 2 - 1..i * 2 + 1])
    ensures var c := Mix(ParseHex(color1[i * 2 - 1..i * 2 + 1]), ParseHex(color2[i * 2 - 1..i * 2 + 1]), factor);
      0 <= c && result + PadStart(ToHex(c), 2, '0') == "#" + Spell(mixed[..i])
  {
    MixedChannelDigits(color1, color2, factor, i);
    SpellStep(mixed, i);
  }

  /** `TwoDigitsColor` for three channels given as a sequence and spelled
      by `Spell`. */
  lemma SpelledColor(cs: seq<nat>)
    requires |cs| == 3 && InRange(cs)
    ensures var s := "#" + Spell(cs);
      IsHexColor(s) && IsLowerHexString(s[1..]) &&
      Red(s) == cs[0] && Green(s) == cs[1] && Blue(s) == cs[2]
  {
    assert "#" + Spell(cs) == "#" + TwoDigits(cs[0]) + TwoDigits(cs[1]) + TwoDigits(cs[2]) by {
      assert cs[..3] == cs && cs[..0] == [];
      SpellStep(cs, 1);
      SpellStep(cs, 2);
      SpellStep(cs, 3);
    }
    TwoDigitsColor(cs[0], cs[1], cs[2]);
  }

  lemma ChannelSlice(color: string, i: nat)
    requires IsHexColor(color) && 1 <= i <= 3
    ensures IsHexString(color[2 * i - 1..2 * i + 1])
  {
    assert color[2 * i - 1..2 * i + 1] == color[1..][2 * i - 2..2 * i];
  }

  /** One pass of the `interpolateColor` loop: the padded hex spelling of
      the mix of channel `i` of both colours is the two-digit spelling of
      the `i`-th mixed channel. */
  lemma MixedChannelDigits(color1: string, color2: string, factor: real, i: nat)
    requires IsHexColor(color1) && IsHexColor(color2) && 1 <= i <= 3
    requires 0.0 <= factor <= 1.0
    ensures IsHexString(color1[i * 2 - 1..i * 2 + 1]) && IsHexString(color2[i * 2 - 1..i * 2 + 1])
    ensures var c := Mix(ParseHex(color1[i * 2 - 1..i * 2 + 1]), ParseHex(color2[i * 2 - 1..i * 2 + 1]), factor);
      0 <= c < 256 &&
      PadStart(ToHex(c), 2, '0') ==
        TwoDigits([Mix(Red(color1), Red(color2), factor),
                   Mix(Green(color1), Green(color2), factor),
                   Mix(Blue(color1), Blue(color2), factor)][i - 1])
  {
    MixedChannel(color1, color2, factor, i);
    var c := Mix(Channel(color1, i), Channel(color2, i), factor);
    PaddedChannel(c);
  }

  /** Mixing channel `i` of two colours gives the `i`-th of the mixed red,
      green and blue channels. */
  lemma MixedChannel(color1: string, color2: string, factor: real, i: nat)
    requires IsHexColor(color1) && IsHexColor(color2) && 1 <= i <= 3
    ensures IsHexString(color1[2 * i - 1..2 * i + 1]) && IsHexString(color2[2 * i - 1..2 * i + 1])
    ensures Mix(Channel(color1, i), Channel(color2, i), factor) ==
      [Mix(Red(color1), Red(color2), factor),
       Mix(Green(color1), Green(color2), factor),
       Mix(Blue(color1), Blue(color2), factor)][i - 1]
  {
    ChannelNumber(color1, i);
    ChannelNumber(color2, i);
  }

  /** Channel number `i` of a colour is its red, green or blue channel. */
  lemma ChannelNumber(color: string, i: nat)
    requires IsHexColor(color) && 1 <= i <= 3
    ensures IsHexString(color[2 * i - 1..2 * i + 1])
    ensures Channel(color, i) == [Red(color), Green(color), Blue(color)][i - 1]
  {
    ChannelSlice(color, i);
    if i == 1 {
      assert Channel(color, i) == Red(color);
    } else if i == 2 {
      assert Channel(color, i) == Green(color);
    } else {
      assert Channel(color, i) == Blue(color);
    }
  }

  lemma SpellStep(cs: seq<nat>, i: nat)
    requires InRange(cs)
    requires 1 <= i <= |cs|
    ensures Spell(cs[..i]) == Spell(cs[..i - 1]) + TwoDigits(cs[i - 1])
  {
    assert cs[..i][..i - 1] == cs[..i - 1];
  }

  /** The two-digit spellings of a list of channels, one after another. */
  function Spell(cs: seq<nat>): (s: string)
    requires InRange(cs)
    ensures |s| == 2 * |cs|
  {
    if cs == [] then [] else Spell(cs[..|cs| - 1]) + TwoDigits(cs[|cs| - 1])
  }

  /** Every entry is an 8-bit channel. */
  predicate InRange(cs: seq<nat>) {
    forall k :: 0 <= k < |cs| ==> cs[k] < 256
  }
}
