/** Album-art palette helpers (src/lib/color.ts): lightening a hex colour
    toward white, rewriting an album-art URL to its 300x300 variant, and the
    choice of a dominant swatch with a fixed fallback pair. */
module Color {
  import opened Wrappers
  import opened Text

  type Byte = x: int | 0 <= x < 256

  /** What `lightenHex` can parse: seven characters whose last six are hex
      digits. The first character is never read. */
  predicate IsHexColor(s: string) {
    && |s| == 7
    && IsHexDigit(s[1]) && IsHexDigit(s[2]) && IsHexDigit(s[3])
    && IsHexDigit(s[4]) && IsHexDigit(s[5]) && IsHexDigit(s[6])
  }

  predicate IsLowerHexDigit(c: char) {
    IsHexDigit(c) && !('A' <= c <= 'F')
  }

  /** What `lightenHex` writes: '#' and six lower-case hex digits. */
  predicate IsLowerHexColor(s: string) {
    && |s| == 7 && s[0] == '#'
    && IsLowerHexDigit(s[1]) && IsLowerHexDigit(s[2]) && IsLowerHexDigit(s[3])
    && IsLowerHexDigit(s[4]) && IsLowerHexDigit(s[5]) && IsLowerHexDigit(s[6])
  }

  /** Channel `k` (0 red, 1 green, 2 blue): `parseInt(hex.slice(1 + 2k, 3 + 2k), 16)`. */
  function Channel(hex: string, k: nat): (v: Byte)
    requires IsHexColor(hex) && k < 3
  {
    16 * DigitValue(hex[1 + 2 * k]) + DigitValue(hex[2 + 2 * k])
  }

  /** A channel in two lower-case hex digits, high digit first. */
  function Hex2(n: Byte): string {
    [DigitChar(n / 16), DigitChar(n % 16)]
  }

  /** `Hex2(n)` is `n.toString(16).padStart(2, "0")`. */
  lemma Hex2IsPaddedHex(n: Byte)
    ensures Hex2(n) == PadStart(Digits(n, 16), 2, '0')
  {
    PadTwoDigits(n, 16);
  }

  lemma HexPair(n: Byte)
    ensures 16 * DigitValue(DigitChar(n / 16)) + DigitValue(DigitChar(n % 16)) == n
  {
    DigitRoundTrip(n / 16);
    DigitRoundTrip(n % 16);
  }

  /** The colour string with the three given channels. */
  function FormatHex(r: Byte, g: Byte, b: Byte): (s: string)
    ensures IsLowerHexColor(s) && IsHexColor(s)
    ensures Channel(s, 0) == r && Channel(s, 1) == g && Channel(s, 2) == b
  {
    var s := "#" + Hex2(r) + Hex2(g) + Hex2(b);
    assert s == ['#', DigitChar(r / 16), DigitChar(r % 16), DigitChar(g / 16),
                 DigitChar(g % 16), DigitChar(b / 16), DigitChar(b % 16)];
    HexPair(r);
    HexPair(g);
    HexPair(b);
    s
  }

  /** `Math.min(255, Math.round(c + (255 - c) * amount))`, with `Math.round(x)`
      as `floor(x + 1/2)`. */
  function Lighten(c: Byte, amount: real): (v: Byte)
    requires 0.0 <= amount
    ensures c <= v
    ensures amount == 0.0 ==> v == c
    ensures c == 255 ==> v == 255
  {
    assert 0.0 <= (255 - c) as real * amount;
    var rounded := (c as real + (255 - c) as real * amount + 0.5).Floor;
    if rounded < 255 then rounded else 255
  }

  /** `lightenHex(hex, amount)`: each channel moved `amount` of the way to 255. */
  function LightenHex(hex: string, amount: real): (s: string)
    requires IsHexColor(hex) && 0.0 <= amount
    ensures IsLowerHexColor(s)
    ensures Channel(s, 0) == Lighten(Channel(hex, 0), amount)
    ensures Channel(s, 1) == Lighten(Channel(hex, 1), amount)
    ensures Channel(s, 2) == Lighten(Channel(hex, 2), amount)
  {
    var r := Lighten(Channel(hex, 0), amount);
    var g := Lighten(Channel(hex, 1), amount);
    var b := Lighten(Channel(hex, 2), amount);
    FormatHex(r, g, b)
  }

  lemma LowerDigitRoundTrip(c: char)
    requires IsLowerHexDigit(c)
    ensures DigitChar(DigitValue(c)) == c
  {
    var d := DigitValue(c);
    assert LowerDigits[d] == c by {
      if IsDigit(c) {
        assert LowerDigits[..10] == "0123456789";
      } else {
        assert LowerDigits[10..] == "abcdef";
        assert LowerDigits[d] == LowerDigits[10..][d - 10];
      }
    }
  }

  /** Two pairs of lower-case digits with the same value are the same pair. */
  lemma PairInjective(a: char, b: char, c: char, d: char)
    requires IsLowerHexDigit(a) && IsLowerHexDigit(b) && IsLowerHexDigit(c) && IsLowerHexDigit(d)
    requires 16 * DigitValue(a) + DigitValue(b) == 16 * DigitValue(c) + DigitValue(d)
    ensures a == c && b == d
  {
    LowerDigitRoundTrip(a);
    LowerDigitRoundTrip(b);
    LowerDigitRoundTrip(c);
    LowerDigitRoundTrip(d);
  }

  lemma SameSeven(s: string, t: string)
    requires |s| == 7 && |t| == 7
    requires s[0] == t[0] && s[1] == t[1] && s[2] == t[2] && s[3] == t[3]
    requires s[4] == t[4] && s[5] == t[5] && s[6] == t[6]
    ensures s == t
  {
  }

  /** A lower-case colour is rebuilt exactly from its channels. */
  lemma FormatChannels(hex: string)
    requires IsLowerHexColor(hex)
    ensures IsHexColor(hex)
    ensures FormatHex(Channel(hex, 0), Channel(hex, 1), Channel(hex, 2)) == hex
  {
    var s := FormatHex(Channel(hex, 0), Channel(hex, 1), Channel(hex, 2));
    PairInjective(s[1], s[2], hex[1], hex[2]);
    PairInjective(s[3], s[4], hex[3], hex[4]);
    PairInjective(s[5], s[6], hex[5], hex[6]);
    SameSeven(s, hex);
  }

  /** Amount 0 reproduces a lower-case colour string. */
  lemma LightenByZero(hex: string)
    requires IsLowerHexColor(hex)
    ensures IsHexColor(hex) && LightenHex(hex, 0.0) == hex
  {
    FormatChannels(hex);
  }

  /** White stays white whatever the amount. */
  lemma LightenWhite(amount: real)
    requires 0.0 <= amount
    ensures IsHexColor("#ffffff") && LightenHex("#ffffff", amount) == "#ffffff"
  {
    assert IsLowerHexColor("#ffffff");
    assert forall k :: 0 <= k < 3 ==> Channel("#ffffff", k) == 255;
    FormatChannels("#ffffff");
  }

  // ---------------------------------------------------------------------
  // Album-art URL rewrite: `imageUrl.replace(/\/\d+x\d+\//, "/300x300/")`

  /** Every character of `s[lo..hi]` is a decimal digit. */
  predicate DigitsBetween(s: string, lo: nat, hi: nat) {
    lo <= hi <= |s| && forall j :: lo <= j < hi ==> IsDigit(s[j])
  }

  /** `s[i..e]` is one whole `/<digits>x<digits>/` segment. */
  predicate SizeSegmentAt(s: string, i: nat, e: nat) {
    && i + 5 <= e <= |s| && s[i] == '/' && s[e - 1] == '/'
    && exists p :: i + 1 < p < e - 2 && s[p] == 'x' && DigitsBetween(s, i + 1, p) && DigitsBetween(s, p + 1, e - 1)
  }

  /** The end of the run of digits that starts at `i`. */
  function DigitRun(s: string, i: nat): (e: nat)
    requires i <= |s|
    ensures i <= e <= |s|
    ensures DigitsBetween(s, i, e)
    ensures e < |s| ==> !IsDigit(s[e])
    decreases |s| - i
  {
    if i < |s| && IsDigit(s[i]) then DigitRun(s, i + 1) else i
  }

  /** The end of the size segment that starts at `i`, if one does: a maximal
      run of digits, an 'x', another maximal run and a '/'. */
  function SegmentEnd(s: string, i: nat): (e: Option<nat>)
    requires i <= |s|
    ensures e.Some? ==> SizeSegmentAt(s, i, e.value)
  {
    if i < |s| && s[i] == '/' then
      var a := DigitRun(s, i + 1);
      if a > i + 1 && a < |s| && s[a] == 'x' then
        var b := DigitRun(s, a + 1);
        if b > a + 1 && b < |s| && s[b] == '/' then
          assert DigitsBetween(s, i + 1, a) && DigitsBetween(s, a + 1, b);
          Some(b + 1)
        else None
      else None
    else None
  }

  /** A segment is found wherever one starts, and ends where it ends. */
  lemma SegmentEndComplete(s: string, i: nat, e: nat)
    requires SizeSegmentAt(s, i, e)
    ensures SegmentEnd(s, i) == Some(e)
  {
    var p :| i + 1 < p < e - 2 && s[p] == 'x' && DigitsBetween(s, i + 1, p) && DigitsBetween(s, p + 1, e - 1);
    RunReaches(s, i + 1, p);
    RunReaches(s, p + 1, e - 1);
  }

  lemma {:induction false} RunReaches(s: string, i: nat, e: nat)
    requires e < |s| && DigitsBetween(s, i, e)
    requires !IsDigit(s[e])
    ensures DigitRun(s, i) == e
    decreases e - i
  {
    if i < e {
      RunReaches(s, i + 1, e);
    }
  }

  /** The leftmost size segment starting at or after `from`. */
  function FirstSegment(s: string, from: nat): (r: Option<(nat, nat)>)
    requires from <= |s|
    ensures r.Some? ==> (from <= r.value.0 < r.value.1 <= |s|
                         && SegmentEnd(s, r.value.0) == Some(r.value.1))
    ensures r.Some? ==> forall j :: from <= j < r.value.0 ==> SegmentEnd(s, j).None?
    ensures r.None? ==> forall j :: from <= j <= |s| ==> SegmentEnd(s, j).None?
    decreases |s| - from
  {
    match SegmentEnd(s, from)
    case Some(e) => Some((from, e))
    case None => if from == |s| then None else FirstSegment(s, from + 1)
  }

  const LargeArt: string := "/300x300/"

  /** Replaces the first size segment with "/300x300/"; a URL without one is
      returned as it is. */
  function UpscaleArtUrl(url: string): (r: string)
    ensures (forall i: nat, j: nat :: !SizeSegmentAt(url, i, j)) ==> r == url
    ensures forall i: nat, j: nat :: SizeSegmentAt(url, i, j) ==>
      exists i': nat, j': nat :: i' <= i && SizeSegmentAt(url, i', j')
                    && r == url[..i'] + LargeArt + url[j'..]
  {
    match FirstSegment(url, 0)
    case None =>
      assert forall i: nat, j: nat :: !SizeSegmentAt(url, i, j) by {
        forall i: nat, j: nat | SizeSegmentAt(url, i, j) ensures false {
          SegmentEndComplete(url, i, j);
        }
      }
      url
    case Some((i, e)) =>
      assert forall i0: nat, j0: nat :: SizeSegmentAt(url, i0, j0) ==> i <= i0 by {
        forall i0: nat, j0: nat | SizeSegmentAt(url, i0, j0) ensures i <= i0 {
          SegmentEndComplete(url, i0, j0);
        }
      }
      url[..i] + LargeArt + url[e..]
  }

  // ---------------------------------------------------------------------
  // Dominant colour

  /** A palette swatch; node-vibrant derives its `hex` from its channels. */
  datatype Swatch = Swatch(r: Byte, g: Byte, b: Byte) {
    function Hex(): string {
      FormatHex(r, g, b)
    }
  }

  /** The swatches node-vibrant found; any may be missing. */
  datatype Palette = Palette(vibrant: Option<Swatch>, muted: Option<Swatch>, darkVibrant: Option<Swatch>)

  datatype Colors = Colors(color: string, bgTint: string)

  const Fallback: Colors := Colors("#8a7a6a", "#a09080")

  /** The tint factor `extractColors` passes to `lightenHex`. */
  const TintAmount: real := 0.3

  /** `palette.Vibrant ?? palette.Muted ?? palette.DarkVibrant` */
  function ChooseSwatch(p: Palette): (w: Option<Swatch>)
    ensures p.vibrant.Some? ==> w == p.vibrant
    ensures p.vibrant.None? && p.muted.Some? ==> w == p.muted
    ensures p.vibrant.None? && p.muted.None? ==> w == p.darkVibrant
  {
    if p.vibrant.Some? then p.vibrant
    else if p.muted.Some? then p.muted
    else p.darkVibrant
  }

  lemma FallbackIsLowerHex()
    ensures IsLowerHexColor(Fallback.color) && IsLowerHexColor(Fallback.bgTint)
  {
  }

  /** The colour pair for what node-vibrant produced (`None` when it threw):
      the chosen swatch and its tint, or the fallback pair. */
  function PaletteColors(p: Option<Palette>): (c: Colors)
    ensures p.None? ==> c == Fallback
    ensures p.Some? && ChooseSwatch(p.value).None? ==> c == Fallback
    ensures p.Some? && ChooseSwatch(p.value).Some? ==>
      var w := ChooseSwatch(p.value).value;
      c.color == w.Hex() && c.bgTint == LightenHex(w.Hex(), TintAmount)
    ensures IsLowerHexColor(c.color) && IsLowerHexColor(c.bgTint)
  {
    FallbackIsLowerHex();
    match p
    case None => Fallback
    case Some(palette) =>
      match ChooseSwatch(palette)
      case None => Fallback
      case Some(w) => Colors(w.Hex(), LightenHex(w.Hex(), TintAmount))
  }

  /** `extractColors(imageUrl)`. `load(url)` is the palette node-vibrant
      derives from the image at `url`, `None` when that throws. Never fails:
      the palette is read from the upscaled URL, and without a palette or a
      swatch the fallback pair is returned. */
  function ExtractColors(imageUrl: string, load: string -> Option<Palette>): (c: Colors)
    ensures c == PaletteColors(load(UpscaleArtUrl(imageUrl)))
    ensures IsLowerHexColor(c.color) && IsLowerHexColor(c.bgTint)
  {
    PaletteColors(load(UpscaleArtUrl(imageUrl)))
  }
}
