/** The single-song pinning page (src/components/ChoosePage.tsx): the colour
    derived from a title and artist by a 32-bit string hash, the fixed colour
    options, when the page may be sent and the body it sends, and the numbers
    behind its preview card. */
module ChoosePage {
  import opened Wrappers
  import opened Text
  import opened Types
  import SongsRoute

  // ---------------------------------------------------------------------
  // The string hash

  const TwoTo31: int := 0x8000_0000
  const TwoTo32: int := 0x1_0000_0000

  /** ECMAScript ToInt32 of an integer: the value congruent to `x` modulo
      2^32 in [-2^31, 2^31). */
  function ToInt32(x: int): (r: int)
    ensures -TwoTo31 <= r < TwoTo31
    ensures (x - r) % TwoTo32 == 0
  {
    var m := x % TwoTo32;
    if m >= TwoTo31 then m - TwoTo32 else m
  }

  /** `h << 5`: `h` cut to 32 bits, shifted, and the result cut to 32 bits again. */
  function Shl5(h: int): (r: int)
    ensures -TwoTo31 <= r < TwoTo31
    ensures (r - 32 * h) % TwoTo32 == 0
  {
    var t := ToInt32(h);
    var r := ToInt32(t * 32);
    Combination(t * 32 - r, h - t, -1, -32);
    assert -1 * (t * 32 - r) + -32 * (h - t) == r - 32 * h;
    r
  }

  /** Multiples of 2^32 combine into a multiple of 2^32. */
  lemma Combination(a: int, b: int, c: int, d: int)
    requires a % TwoTo32 == 0 && b % TwoTo32 == 0
    ensures (c * a + d * b) % TwoTo32 == 0
  {
    var p, q := a / TwoTo32, b / TwoTo32;
    assert a == TwoTo32 * p && b == TwoTo32 * q;
    assert c * a + d * b == TwoTo32 * (c * p + d * q);
  }

  /** One step of the loop: `h = code + ((h << 5) - h)`, where the
      subtraction uses `h` as it is, not cut to 32 bits. */
  function HashStep(h: int, code: int): int {
    code + (Shl5(h) - h)
  }

  /** The loop's `h` after folding in the code units `u` from the left. */
  function HashCode(u: seq<int>): int {
    if u == [] then 0 else HashStep(HashCode(u[..|u| - 1]), u[|u| - 1])
  }

  const StepBound: int := TwoTo31 + 0x1_0000

  /** Each step moves `h` by less than 2^31 + 2^16 away from zero, so after
      `n` code units |h| is below n * (2^31 + 2^16): far below 2^53 for any
      realistic title, so the double-precision arithmetic of the source is
      exact on these values. */
  lemma {:induction false} HashCodeBound(u: seq<int>)
    requires forall i :: 0 <= i < |u| ==> 0 <= u[i] < 0x1_0000
    ensures -|u| * StepBound <= HashCode(u) <= |u| * StepBound
  {
    if u != [] {
      var init := u[..|u| - 1];
      assert forall i :: 0 <= i < |init| ==> init[i] == u[i];
      HashCodeBound(init);
      var n := |init|;
      var h := HashCode(init);
      var t := Shl5(h);
      assert HashCode(u) == u[n] + (t - h);
      assert n * StepBound + StepBound == |u| * StepBound;
    }
  }

  function Abs(x: int): nat {
    if x < 0 then -x else x
  }

  /** `strToHue(s)`: the hash of the UTF-16 code units of `s`, made
      non-negative, modulo 360. */
  function HueOf(s: string): (hue: nat)
    ensures hue < 360
    ensures s == [] ==> hue == 0
  {
    Abs(HashCode(Utf16(s))) % 360
  }

  /** A single Basic Multilingual Plane character hashes to its own code. */
  lemma HueOfOneChar(c: char)
    requires c as int < 0x1_0000
    ensures HueOf([c]) == c as int % 360
  {
    Utf16OfBmp([c]);
    var u := Utf16([c]);
    assert u == [c as int];
    assert u[..0] == [];
    assert HashCode(u) == HashStep(0, c as int);
  }

  /** The loop of `strToHue`, over the code units of `s`. */
  method StrToHue(s: string) returns (hue: nat)
    ensures hue == HueOf(s)
  {
    if s == [] {
      return 0;
    }
    var u := Utf16(s);
    var h := 0;
    for i := 0 to |u|
      invariant h == HashCode(u[..i])
    {
      assert u[..i + 1][..i] == u[..i];
      h := u[i] + (Shl5(h) - h);
    }
    assert u[..|u|] == u;
    hue := Abs(h) % 360;
  }

  // ---------------------------------------------------------------------
  // Colours

  /** A pair of CSS colours: the card's base and its darker shade. */
  datatype Colors = Colors(bgBase: string, bgDark: string)

  /** `hueToColors(hue)`. */
  function HueToColors(hue: nat): (c: Colors)
    ensures c.bgBase == "hsl(" + NatToString(hue) + ", 25%, 62%)"
    ensures c.bgDark == "hsl(" + NatToString(hue) + ", 20%, 52%)"
  {
    Colors("hsl(" + NatToString(hue) + ", 25%, 62%)", "hsl(" + NatToString(hue) + ", 20%, 52%)")
  }

  /** The hue can be read back from the base colour: different hues give
      different colours. */
  lemma HueToColorsInjective(a: nat, b: nat)
    requires HueToColors(a).bgBase == HueToColors(b).bgBase
    ensures a == b
  {
    var sa, sb := HueToColors(a).bgBase, HueToColors(b).bgBase;
    var da, db := NatToString(a), NatToString(b);
    assert |da| == |db|;
    assert sa[4..4 + |da|] == da;
    assert sb[4..4 + |db|] == db;
    DigitsInjective(a, b, 10);
  }

  datatype ColorOption = ColorOption(name: string, bgBase: string, bgDark: string, swatch: string)

  /** `COLOR_OPTIONS`. */
  const ColorOptions: seq<ColorOption> := [
    ColorOption("Warm Sand", "hsl(28, 25%, 62%)", "hsl(28, 20%, 52%)", "hsl(28, 25%, 62%)"),
    ColorOption("Ocean", "hsl(215, 25%, 62%)", "hsl(215, 20%, 52%)", "hsl(215, 25%, 62%)"),
    ColorOption("Rose", "hsl(340, 25%, 62%)", "hsl(340, 20%, 52%)", "hsl(340, 25%, 62%)"),
    ColorOption("Forest", "hsl(130, 25%, 62%)", "hsl(130, 20%, 52%)", "hsl(130, 25%, 62%)"),
    ColorOption("Plum", "hsl(280, 25%, 62%)", "hsl(280, 20%, 52%)", "hsl(280, 25%, 62%)"),
    ColorOption("Ember", "hsl(0, 25%, 62%)", "hsl(0, 20%, 52%)", "hsl(0, 25%, 62%)"),
    ColorOption("Slate", "hsl(195, 25%, 62%)", "hsl(195, 20%, 52%)", "hsl(195, 25%, 62%)"),
    ColorOption("Gold", "hsl(45, 25%, 62%)", "hsl(45, 20%, 52%)", "hsl(45, 25%, 62%)"),
    ColorOption("Lavender", "hsl(260, 30%, 72%)", "hsl(260, 25%, 58%)", "hsl(260, 30%, 72%)"),
    ColorOption("Sky", "hsl(200, 35%, 70%)", "hsl(200, 30%, 55%)", "hsl(200, 35%, 70%)"),
    ColorOption("Peach", "hsl(15, 40%, 72%)", "hsl(15, 30%, 58%)", "hsl(15, 40%, 72%)"),
    ColorOption("Mint", "hsl(160, 25%, 65%)", "hsl(160, 20%, 52%)", "hsl(160, 25%, 65%)"),
    ColorOption("Black", "#3a3a3a", "#1a1a1a", "#1a1a1a"),
    ColorOption("Charcoal", "#5a5a5a", "#3a3a3a", "#4a4a4a"),
    ColorOption("Grey", "#9a9a9a", "#7a7a7a", "#8a8a8a"),
    ColorOption("White", "#e8e8e8", "#c8c8c8", "#e0e0e0")
  ]

  /** The page state: `selectedSong`, `name`, `reason`, `selectedColorIdx`,
      `submitting` and `error`. A colour index is one of the options shown. */
  datatype Page = Page(
    selectedSong: Option<SearchResult>, name: string, reason: string,
    selectedColorIdx: Option<nat>, submitting: bool, error: string)

  const InitialPage: Page := Page(None, "", "", None, false, "")

  /** `selectedSong?.title || ""` */
  function Title(p: Page): (t: string)
    ensures p.selectedSong.Some? ==> t == p.selectedSong.value.title
    ensures p.selectedSong.None? ==> t == ""
  {
    if p.selectedSong.Some? then p.selectedSong.value.title else ""
  }

  /** `selectedSong?.artist || ""` */
  function ArtistOf(p: Page): (a: string)
    ensures p.selectedSong.Some? ==> a == p.selectedSong.value.artist
    ensures p.selectedSong.None? ==> a == ""
  {
    if p.selectedSong.Some? then p.selectedSong.value.artist else ""
  }

  /** The colour index, when there is one, names a shown option. */
  predicate ValidIndex(p: Page) {
    p.selectedColorIdx.Some? ==> p.selectedColorIdx.value < |ColorOptions|
  }

  /** The card colours: the chosen option's, or those of the hue of the
      title followed by the artist. */
  function ChosenColors(p: Page): (c: Colors)
    requires ValidIndex(p)
    ensures p.selectedColorIdx.Some? ==>
      c == Colors(ColorOptions[p.selectedColorIdx.value].bgBase, ColorOptions[p.selectedColorIdx.value].bgDark)
    ensures p.selectedColorIdx.None? ==> c == HueToColors(HueOf(Title(p) + ArtistOf(p)))
  {
    var auto := HueToColors(HueOf(Title(p) + ArtistOf(p)));
    var bgBase := if p.selectedColorIdx.Some? then ColorOptions[p.selectedColorIdx.value].bgBase else auto.bgBase;
    var bgDark := if p.selectedColorIdx.Some? then ColorOptions[p.selectedColorIdx.value].bgDark else auto.bgDark;
    Colors(bgBase, bgDark)
  }

  /** With no song and no option chosen the card is hue 0. */
  lemma InitialColors()
    ensures ChosenColors(InitialPage) == Colors("hsl(0, 25%, 62%)", "hsl(0, 20%, 52%)")
  {
    assert Title(InitialPage) + ArtistOf(InitialPage) == [];
    assert LowerDigits[0] == '0';
    assert Digits(0, 10) == [DigitChar(0)] == "0";
    var c := HueToColors(0);
    assert c.bgBase == "hsl(" + "0" + ", 25%, 62%)" == "hsl(0, 25%, 62%)";
    assert c.bgDark == "hsl(" + "0" + ", 20%, 52%)" == "hsl(0, 20%, 52%)";
  }

  // ---------------------------------------------------------------------
  // Submitting

  /** `canSubmit`: a song, a name and a reason, none trimmed, and no request
      under way. */
  predicate CanSubmit(p: Page) {
    p.selectedSong.Some? && p.name != [] && p.reason != [] && !p.submitting
  }

  /** The JSON body: the trimmed name and a single entry with the trimmed
      reason, the darker colour as `color` and the base as `bgTint`. */
  function RequestBody(p: Page): (body: PostBody)
    requires p.selectedSong.Some? && ValidIndex(p)
    ensures body.name == Some(Trim(p.name))
    ensures body.songs.Some? && |body.songs.value| == 1
    ensures var e := body.songs.value[0];
            && e.spotifyId == Some(p.selectedSong.value.spotifyId)
            && e.reason == Some(Trim(p.reason))
            && e.color == Some(ChosenColors(p).bgDark) && e.bgTint == Some(ChosenColors(p).bgBase)
  {
    var colors := ChosenColors(p);
    PostBody(Some(Trim(p.name)),
             Some([Entry(Some(p.selectedSong.value.spotifyId), Some(Trim(p.reason)),
                         Some(colors.bgDark), Some(colors.bgBase))]))
  }

  const SomethingWrong: string := "Something went wrong"
  const NetworkError: string := "Network error. Please try again."

  /** What `handleSubmit` did: the new page state, the body sent, and the
      songs handed to `onSubmit`. */
  datatype SubmitOutcome = SubmitOutcome(page: Page, request: Option<PostBody>, added: Option<seq<Song>>)

  /** `handleSubmit()`: nothing unless the page may be sent; then the reply's
      songs go to `onSubmit`, or its `error` (or a generic message), or the
      network message, is shown. */
  function HandleSubmit(p: Page, reply: SubmitReply): (o: SubmitOutcome)
    requires ValidIndex(p)
    ensures !CanSubmit(p) ==> o == SubmitOutcome(p, None, None)
    ensures CanSubmit(p) ==> o.request == Some(RequestBody(p))
    ensures o.added.Some? <==> CanSubmit(p) && reply.Created?
    ensures o.added.Some? ==> o.added.value == reply.songs && o.page.submitting
    ensures CanSubmit(p) && reply.Rejected? ==>
      !o.page.submitting && o.page.error == reply.error.GetOr(SomethingWrong)
    ensures CanSubmit(p) && reply.Threw? ==> !o.page.submitting && o.page.error == NetworkError
    ensures o.page.(submitting := p.submitting, error := p.error) == p
  {
    if !CanSubmit(p) then SubmitOutcome(p, None, None)
    else
      var sending := p.(submitting := true, error := "");
      var body := RequestBody(p);
      match reply
      case Created(songs) => SubmitOutcome(sending, Some(body), Some(songs))
      case Rejected(error) => SubmitOutcome(sending.(error := error.GetOr(SomethingWrong), submitting := false), Some(body), None)
      case Threw => SubmitOutcome(sending.(error := NetworkError, submitting := false), Some(body), None)
  }

  /** Unlike the multi-song form, this page checks the name and reason
      untrimmed: a name of spaces is sent, and the server's request checks
      refuse the body it becomes. */
  lemma BlankNameSent(p: Page, reply: SubmitReply)
    requires ValidIndex(p) && p.selectedSong.Some? && p.reason != [] && !p.submitting
    requires p.name == " "
    ensures HandleSubmit(p, reply).request.Some?
    ensures !SongsRoute.ValidRequest(HandleSubmit(p, reply).request.value)
  {
    assert AllSpace(p.name);
    TrimIdempotent(p.name);
  }

  /** A reason of spaces is sent too; the server answers it with its reason
      message. */
  lemma BlankReasonSent(p: Page)
    requires ValidIndex(p) && CanSubmit(p) && AllSpace(p.reason)
    requires SongsRoute.IsSpotifyId(p.selectedSong.value.spotifyId)
    ensures SongsRoute.EntryError(RequestBody(p).songs.value[0]) == Some(SongsRoute.InvalidReason)
  {
  }

  // ---------------------------------------------------------------------
  // Preview card

  /** `previewProgress`: how many of title, artist, name and reason are not empty. */
  function PreviewProgress(title: string, artist: string, name: string, reason: string): (n: nat)
    ensures n <= 4
    ensures n == 4 <==> title != [] && artist != [] && name != [] && reason != []
    ensures n == 0 <==> title == [] && artist == [] && name == [] && reason == []
  {
    (if title != [] then 1 else 0) + (if artist != [] then 1 else 0)
    + (if name != [] then 1 else 0) + (if reason != [] then 1 else 0)
  }

  /** The three hues of `PreviewGenArt`: the hue, 35 degrees on, and its opposite. */
  function PreviewHues(hue: nat): (h: (nat, nat, nat))
    requires hue < 360
    ensures h.0 == hue && h.1 < 360 && h.2 < 360
    ensures h.1 != hue && h.2 != hue
    ensures (h.2 + 180) % 360 == hue
    ensures (h.1 + 325) % 360 == hue
  {
    (hue, (hue + 35) % 360, (hue + 180) % 360)
  }

  /** The hue of any title and artist gives preview hues within a circle. */
  lemma PreviewHuesInRange(p: Page)
    ensures var h := PreviewHues(HueOf(Title(p) + ArtistOf(p)));
            h.0 < 360 && h.1 < 360 && h.2 < 360
  {
  }
}
