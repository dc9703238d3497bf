// Contrast repair (quickshell/state/ThemePalette.js), over real arithmetic,
// with WCAG 2.2's relative luminance and contrast ratio (Success Criterion
// 1.4.3). The sRGB transfer curve is a parameter known only by its ends and
// that it rises.

module ThemePalette {
  const BLACK := "#000000"
  const WHITE := "#ffffff"

  type Transfer = int -> real

  predicate Curve(linear: Transfer) {
    && linear(0) == 0.0 && linear(255) == 1.0
    && (forall c, d :: 0 <= c <= d <= 255 ==> linear(c) <= linear(d))
  }

  // ---- Colour text ----

  predicate IsHex(c: char) {
    '0' <= c <= '9' || 'a' <= c <= 'f' || 'A' <= c <= 'F'
  }

  function HexValue(c: char): (v: int)
    requires IsHex(c)
    ensures 0 <= v < 16
  {
    if c <= '9' then c as int - '0' as int
    else if c <= 'F' then c as int - 'A' as int + 10
    else c as int - 'a' as int + 10
  }

  function HexDigit(v: int): (c: char)
    requires 0 <= v < 16
    ensures IsHex(c) && HexValue(c) == v
  {
    if v < 10 then ('0' as int + v) as char else ('a' as int + v - 10) as char
  }

  predicate ValidColor(value: string) {
    |value| == 7 && value[0] == '#' && forall i :: 1 <= i < 7 ==> IsHex(value[i])
  }

  datatype Channels = Channels(red: int, green: int, blue: int)

  predicate InGamut(c: Channels) {
    0 <= c.red <= 255 && 0 <= c.green <= 255 && 0 <= c.blue <= 255
  }

  function ColorChannels(value: string): (c: Channels)
    ensures InGamut(c)
  {
    if !ValidColor(value) then Channels(0, 0, 0)
    else Channels(HexValue(value[1]) * 16 + HexValue(value[2]),
                  HexValue(value[3]) * 16 + HexValue(value[4]),
                  HexValue(value[5]) * 16 + HexValue(value[6]))
  }

  // `Math.max(0, Math.min(255, Math.round(x)))`.
  function ToByte(x: real): (b: int)
    ensures 0 <= b <= 255
  {
    var rounded := (x + 0.5).Floor;
    if rounded < 0 then 0 else if rounded > 255 then 255 else rounded
  }

  // The nearest channel value, halves upwards.
  lemma ToByteRounds(x: real)
    ensures 0.0 <= x <= 255.0 ==> -0.5 <= x - ToByte(x) as real < 0.5
    ensures x < 0.0 ==> ToByte(x) == 0
    ensures x > 255.0 ==> ToByte(x) == 255
  {
  }

  // Digits in either case.
  lemma HexMeaning(c: char)
    requires IsHex(c)
    ensures c == "0123456789abcdef"[HexValue(c)] || c == "0123456789ABCDEF"[HexValue(c)]
  {
  }

  function TwoDigits(b: int): string
    requires 0 <= b <= 255
  {
    [HexDigit(b / 16), HexDigit(b % 16)]
  }

  function ColorText(c: Channels): string
    requires InGamut(c)
  {
    "#" + TwoDigits(c.red) + TwoDigits(c.green) + TwoDigits(c.blue)
  }

  method ColorString(channels: array<real>) returns (result: string)
    requires channels.Length == 3
    ensures result == ColorText(Channels(ToByte(channels[0]), ToByte(channels[1]), ToByte(channels[2])))
  {
    result := "#";
    for index := 0 to 3
      invariant result == "#" + (if index > 0 then TwoDigits(ToByte(channels[0])) else [])
                              + (if index > 1 then TwoDigits(ToByte(channels[1])) else [])
                              + (if index > 2 then TwoDigits(ToByte(channels[2])) else [])
    {
      result := result + TwoDigits(ToByte(channels[index]));
    }
  }

  // Writing a colour and reading it back gives its channels.
  lemma ColorTextRoundTrip(c: Channels)
    requires InGamut(c)
    ensures ValidColor(ColorText(c)) && ColorChannels(ColorText(c)) == c
  {
    var t := ColorText(c);
    assert t[1..3] == TwoDigits(c.red) && t[3..5] == TwoDigits(c.green) && t[5..7] == TwoDigits(c.blue);
    assert t[1] == t[1..3][0] && t[2] == t[1..3][1];
    assert t[3] == t[3..5][0] && t[4] == t[3..5][1];
    assert t[5] == t[5..7][0] && t[6] == t[5..7][1];
  }

  function Weight(amount: real): real {
    if amount > 1.0 then 1.0 else if amount < 0.0 then 0.0 else amount
  }

  function Between(l: real, r: real, weight: real): real {
    l * (1.0 - weight) + r * weight
  }

  function Blend(left: int, right: int, weight: real): int {
    ToByte(Between(left as real, right as real, weight))
  }

  function MixColors(first: string, second: string, amount: real): string {
    var left, right, w := ColorChannels(first), ColorChannels(second), Weight(amount);
    ColorText(
      Channels(Blend(left.red, right.red, w), Blend(left.green, right.green, w), Blend(left.blue, right.blue, w)))
  }

  // ---- Contrast ----

  function Luminance(c: Channels, linear: Transfer): real {
    0.2126 * linear(c.red) + 0.7152 * linear(c.green) + 0.0722 * linear(c.blue)
  }

  function RelativeLuminance(value: string, linear: Transfer): real {
    Luminance(ColorChannels(value), linear)
  }

  // The primaries have the weights of WCAG 2.2, whatever the curve between its ends.
  lemma PrimaryLuminance(linear: Transfer)
    requires Curve(linear)
    ensures RelativeLuminance("#ff0000", linear) == 0.2126
    ensures RelativeLuminance("#00ff00", linear) == 0.7152
    ensures RelativeLuminance("#0000ff", linear) == 0.0722
  {
    assert ColorChannels("#ff0000") == Channels(255, 0, 0);
    assert ColorChannels("#00ff00") == Channels(0, 255, 0);
    assert ColorChannels("#0000ff") == Channels(0, 0, 255);
  }

  // And a grey has the light of its channels.
  lemma GreyLuminance(v: int, linear: Transfer)
    requires 0 <= v <= 255
    ensures Luminance(Channels(v, v, v), linear) == linear(v)
  {
  }

  function Ratio(a: real, b: real): real
    requires a >= 0.0 && b >= 0.0
  {
    if a >= b then (a + 0.05) / (b + 0.05) else (b + 0.05) / (a + 0.05)
  }

  lemma LuminanceRange(c: Channels, linear: Transfer)
    requires InGamut(c) && Curve(linear)
    ensures 0.0 <= Luminance(c, linear) <= 1.0
  {
    assert linear(0) <= linear(c.red) <= linear(255);
    assert linear(0) <= linear(c.green) <= linear(255);
    assert linear(0) <= linear(c.blue) <= linear(255);
  }

  function ContrastRatio(first: string, second: string, linear: Transfer): real
    requires Curve(linear)
  {
    LuminanceRange(ColorChannels(first), linear);
    LuminanceRange(ColorChannels(second), linear);
    Ratio(RelativeLuminance(first, linear), RelativeLuminance(second, linear))
  }

  lemma Quotient(a: real, b: real, c: real, d: real)
    requires 0.0 < b && 0.0 < d && 0.0 <= a && a <= c && d <= b
    ensures a / b <= c / d
  {
    assert a / b <= c / b;
    assert c / b <= c / d;
  }

  // Further from the background is never less contrast.
  lemma RatioGrows(near: real, far: real, b: real)
    requires 0.0 <= near && 0.0 <= far && 0.0 <= b
    requires b <= near <= far || far <= near <= b
    ensures Ratio(near, b) <= Ratio(far, b)
  {
    if b <= near <= far {
      Quotient(near + 0.05, b + 0.05, far + 0.05, b + 0.05);
    } else {
      Quotient(b + 0.05, near + 0.05, b + 0.05, far + 0.05);
    }
  }

  lemma EndsLuminance(linear: Transfer)
    requires Curve(linear)
    ensures RelativeLuminance(BLACK, linear) == 0.0 && RelativeLuminance(WHITE, linear) == 1.0
  {
    assert ColorChannels(BLACK) == Channels(0, 0, 0);
    assert ColorChannels(WHITE) == Channels(255, 255, 255);
  }

  function Target(background: string, linear: Transfer): string
    requires Curve(linear)
  {
    if ContrastRatio(BLACK, background, linear) >= ContrastRatio(WHITE, background, linear) then BLACK else WHITE
  }

  // No colour beats the better of black and white.
  lemma TargetIsBest(color: string, background: string, linear: Transfer)
    requires Curve(linear)
    ensures ContrastRatio(color, background, linear) <= ContrastRatio(Target(background, linear), background, linear)
  {
    var l, b := RelativeLuminance(color, linear), RelativeLuminance(background, linear);
    LuminanceRange(ColorChannels(color), linear);
    LuminanceRange(ColorChannels(background), linear);
    EndsLuminance(linear);
    if b <= l { RatioGrows(l, 1.0, b); } else { RatioGrows(l, 0.0, b); }
  }

  lemma EndRatios(b: real)
    requires 0.0 <= b <= 1.0
    ensures Ratio(0.0, b) * Ratio(1.0, b) == 21.0
    ensures Ratio(0.0, b) >= 4.5 || Ratio(1.0, b) >= 4.5
  {
    var dark, light := Ratio(0.0, b), Ratio(1.0, b);
    assert dark == 20.0 * (b + 0.05);
    assert light * (b + 0.05) == 1.05;
    assert dark * light == 20.0 * (light * (b + 0.05));
    if dark < 4.5 {
      Quotient(1.05, 0.225, 1.05, b + 0.05);
    }
  }

  // Black's and white's ratios multiply to 21, so the better is at least 4.5.
  lemma TargetReachesBodyText(background: string, linear: Transfer)
    requires Curve(linear)
    ensures ContrastRatio(BLACK, background, linear) * ContrastRatio(WHITE, background, linear) == 21.0
    ensures ContrastRatio(Target(background, linear), background, linear) >= 4.5
  {
    EndsLuminance(linear);
    LuminanceRange(ColorChannels(background), linear);
    EndRatios(RelativeLuminance(background, linear));
  }

  // ---- Along the way to black or white ----

  lemma ToByteRises(x: real, y: real)
    requires x <= y
    ensures ToByte(x) <= ToByte(y)
  {
    assert (x + 0.5).Floor <= (y + 0.5).Floor;
  }

  lemma ToByteKeeps(b: int)
    requires 0 <= b <= 255
    ensures ToByte(b as real) == b
  {
  }

  lemma Scale(d: real, v: real, w: real)
    requires 0.0 <= d && 0.0 <= v <= w
    ensures 0.0 <= d * v <= d * w
  {
  }

  lemma BetweenIs(l: real, r: real, d: real, v: real)
    requires d == r - l
    ensures Between(l, r, v) == l + d * v
  {
  }

  // Mixing in more moves steadily from `l` towards `r`.
  lemma BetweenRises(l: real, r: real, v: real, w: real)
    requires 0.0 <= v <= w && l <= r
    ensures l <= Between(l, r, v) <= Between(l, r, w)
  {
    var d := r - l;
    BetweenIs(l, r, d, v);
    BetweenIs(l, r, d, w);
    Scale(d, v, w);
  }

  lemma BetweenFalls(l: real, v: real, w: real)
    requires 0.0 <= v <= w && 0.0 <= l
    ensures Between(l, 0.0, w) <= Between(l, 0.0, v) <= l
  {
    assert Between(l, 0.0, v) == l - l * v && Between(l, 0.0, w) == l - l * w;
    Scale(l, v, w);
  }

  lemma BlendMoves(left: int, right: int, v: real, w: real)
    requires 0 <= left <= 255 && (right == 0 || right == 255) && 0.0 <= v <= w <= 1.0
    ensures right == 0 ==> Blend(left, right, w) <= Blend(left, right, v) <= left
    ensures right == 255 ==> left <= Blend(left, right, v) <= Blend(left, right, w)
  {
    var l, r := left as real, right as real;
    ToByteKeeps(left);
    if right == 0 {
      BetweenFalls(l, v, w);
      ToByteRises(Between(l, r, w), Between(l, r, v));
      ToByteRises(Between(l, r, v), l);
    } else {
      BetweenRises(l, r, v, w);
      ToByteRises(Between(l, r, v), Between(l, r, w));
      ToByteRises(l, Between(l, r, v));
    }
  }

  lemma BlendEnds(left: int, right: int)
    requires 0 <= left <= 255 && 0 <= right <= 255
    ensures Blend(left, right, 0.0) == left && Blend(left, right, 1.0) == right
  {
    ToByteKeeps(left);
    ToByteKeeps(right);
  }

  function Mixed(c: Channels, end: int, w: real): (m: Channels)
    ensures InGamut(m)
  {
    Channels(Blend(c.red, end, w), Blend(c.green, end, w), Blend(c.blue, end, w))
  }

  function End(target: string): int {
    if target == BLACK then 0 else 255
  }

  lemma MixChannels(candidate: string, target: string, w: real)
    requires (target == BLACK || target == WHITE) && 0.0 <= w <= 1.0
    ensures MixColors(candidate, target, w) == ColorText(Mixed(ColorChannels(candidate), End(target), w))
    ensures ColorChannels(MixColors(candidate, target, w)) == Mixed(ColorChannels(candidate), End(target), w)
  {
    assert ColorChannels(target) == Channels(End(target), End(target), End(target));
    ColorTextRoundTrip(Mixed(ColorChannels(candidate), End(target), w));
  }

  lemma LuminanceRises(c: Channels, d: Channels, linear: Transfer)
    requires Curve(linear) && InGamut(c) && InGamut(d)
    requires c.red <= d.red && c.green <= d.green && c.blue <= d.blue
    ensures Luminance(c, linear) <= Luminance(d, linear)
  {
  }

  lemma MixMoves(candidate: string, target: string, v: real, w: real, linear: Transfer)
    requires Curve(linear) && (target == BLACK || target == WHITE) && 0.0 <= v <= w <= 1.0
    ensures var c, m, n := RelativeLuminance(candidate, linear),
                           RelativeLuminance(MixColors(candidate, target, v), linear),
                           RelativeLuminance(MixColors(candidate, target, w), linear);
      if target == BLACK then n <= m <= c else c <= m <= n
  {
    var left, end := ColorChannels(candidate), End(target);
    MixChannels(candidate, target, v);
    MixChannels(candidate, target, w);
    BlendMoves(left.red, end, v, w);
    BlendMoves(left.green, end, v, w);
    BlendMoves(left.blue, end, v, w);
    if target == BLACK {
      LuminanceRises(Mixed(left, end, w), Mixed(left, end, v), linear);
      LuminanceRises(Mixed(left, end, v), left, linear);
    } else {
      LuminanceRises(Mixed(left, end, v), Mixed(left, end, w), linear);
      LuminanceRises(left, Mixed(left, end, v), linear);
    }
  }

  lemma EndText(target: string)
    requires target == BLACK || target == WHITE
    ensures ColorText(Channels(End(target), End(target), End(target))) == target
  {
  }

  lemma EndsOfTheMix(candidate: string, target: string)
    requires target == BLACK || target == WHITE
    ensures MixColors(candidate, target, 1.0) == target
    ensures ColorChannels(MixColors(candidate, target, 0.0)) == ColorChannels(candidate)
  {
    var left, end := ColorChannels(candidate), End(target);
    BlendEnds(left.red, end);
    BlendEnds(left.green, end);
    BlendEnds(left.blue, end);
    MixChannels(candidate, target, 0.0);
    MixChannels(candidate, target, 1.0);
    EndText(target);
  }

  predicate Meets(candidate: string, target: string, background: string, minimum: real, weight: real, linear: Transfer)
    requires Curve(linear)
  {
    ContrastRatio(MixColors(candidate, target, weight), background, linear) >= minimum
  }

  // Once enough of the target is mixed in, more never hurts: the candidate
  // itself fails, so the path has already crossed the background.
  lemma MeetsIsMonotone(candidate: string, background: string, minimum: real, v: real, w: real, linear: Transfer)
    requires Curve(linear) && 0.0 <= v <= w <= 1.0
    ensures var target := Target(background, linear);
      ContrastRatio(candidate, background, linear) < minimum && Meets(candidate, target, background, minimum, v, linear)
      ==> Meets(candidate, target, background, minimum, w, linear)
  {
    var target := Target(background, linear);
    if ContrastRatio(candidate, background, linear) < minimum
      && Meets(candidate, target, background, minimum, v, linear)
    {
      var m, n := MixColors(candidate, target, v), MixColors(candidate, target, w);
      var c, b := RelativeLuminance(candidate, linear), RelativeLuminance(background, linear);
      LuminanceRange(ColorChannels(candidate), linear);
      LuminanceRange(ColorChannels(background), linear);
      LuminanceRange(ColorChannels(m), linear);
      LuminanceRange(ColorChannels(n), linear);
      MixMoves(candidate, target, v, w, linear);
      var lm, ln := RelativeLuminance(m, linear), RelativeLuminance(n, linear);
      if target == BLACK {
        if b <= lm { RatioGrows(lm, c, b); } else { RatioGrows(lm, ln, b); }
      } else {
        if lm <= b { RatioGrows(lm, c, b); } else { RatioGrows(lm, ln, b); }
      }
    }
  }

  // Twelve halvings of a range whose lower end fails and whose upper end is
  // either all target or meets the minimum.
  method Bisect(meets: real -> bool) returns (low: real, high: real)
    requires !meets(0.0)
    ensures 0.0 <= low < high <= 1.0 && high - low == 1.0 / 4096.0
    ensures !meets(low) && (high == 1.0 || meets(high))
  {
    low, high := 0.0, 1.0;
    ghost var width := 4096.0;
    for iteration := 0 to 12
      invariant 0.0 <= low < high <= 1.0
      invariant width == Power(12 - iteration) && (high - low) * 4096.0 == width
      invariant !meets(low) && (high == 1.0 || meets(high))
    {
      var middle := (low + high) / 2.0;
      width := width / 2.0;
      if meets(middle) {
        high := middle;
      } else {
        low := middle;
      }
    }
  }

  function Power(n: nat): real {
    if n == 0 then 1.0 else 2.0 * Power(n - 1)
  }

  ghost predicate Reachable(background: string, minimum: real, linear: Transfer)
    requires Curve(linear)
  {
    exists color: string :: ContrastRatio(color, background, linear) >= minimum
  }

  lemma ReachableIffTarget(background: string, minimum: real, linear: Transfer)
    requires Curve(linear)
    ensures Reachable(background, minimum, linear) <==>
      ContrastRatio(Target(background, linear), background, linear) >= minimum
    ensures minimum <= 4.5 ==> Reachable(background, minimum, linear)
  {
    TargetReachesBodyText(background, linear);
    if Reachable(background, minimum, linear) {
      var color: string :| ContrastRatio(color, background, linear) >= minimum;
      TargetIsBest(color, background, linear);
    }
  }

  // Where the bisection may end: a weight that meets the minimum if all target
  // does, with every weight 1/4096 short of it failing.
  ghost predicate JustEnough(candidate: string, background: string, minimum: real, weight: real, linear: Transfer)
    requires Curve(linear)
  {
    var target := Target(background, linear);
    && 0.0 < weight <= 1.0
    && (Meets(candidate, target, background, minimum, 1.0, linear) ==>
          Meets(candidate, target, background, minimum, weight, linear))
    && (Meets(candidate, target, background, minimum, weight, linear) || weight == 1.0)
    && (forall v :: 0.0 <= v <= weight - 1.0 / 4096.0 ==> !Meets(candidate, target, background, minimum, v, linear))
  }

  method FindWeight(candidate: string, background: string, minimum: real, linear: Transfer) returns (weight: real)
    requires Curve(linear) && ContrastRatio(candidate, background, linear) < minimum
    ensures JustEnough(candidate, background, minimum, weight, linear)
  {
    var target := Target(background, linear);
    EndsOfTheMix(candidate, target);
    var meets: real -> bool := w => Curve(linear) && Meets(candidate, target, background, minimum, w, linear);
    var low, high := Bisect(meets);
    weight := high;
    forall v | 0.0 <= v <= weight - 1.0 / 4096.0
      ensures !Meets(candidate, target, background, minimum, v, linear)
    {
      if Meets(candidate, target, background, minimum, v, linear) {
        MeetsIsMonotone(candidate, background, minimum, v, low, linear);
      }
    }
  }

  // The result meets the minimum whenever any colour does, and always for
  // minimums up to 4.5; a passing candidate is kept, and a failing one is moved
  // no more than 1/4096 of the way further than it had to be.
  method EnsureContrast(candidate: string, background: string, minimum: real, linear: Transfer)
      returns (result: string, ghost weight: real)
    requires Curve(linear)
    ensures ContrastRatio(candidate, background, linear) >= minimum ==> result == candidate
    ensures ContrastRatio(result, background, linear) >= minimum <==> Reachable(background, minimum, linear)
    ensures minimum <= 4.5 ==> ContrastRatio(result, background, linear) >= minimum
    ensures ContrastRatio(candidate, background, linear) < minimum ==>
      && result == MixColors(candidate, Target(background, linear), weight)
      && JustEnough(candidate, background, minimum, weight, linear)
  {
    ReachableIffTarget(background, minimum, linear);
    if ContrastRatio(candidate, background, linear) >= minimum {
      return candidate, 0.0;
    }
    var high := FindWeight(candidate, background, minimum, linear);
    EndsOfTheMix(candidate, Target(background, linear));
    result, weight := MixColors(candidate, Target(background, linear), high), high;
  }
}
