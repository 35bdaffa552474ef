/** The result panel's numeric helpers: the progress-bar width clamp, the
    alpha clamp and the `#RRGGBB` colour parser used for the tinted badge. */
module ResultPanel {
  import opened ClassifierTypes
  import opened Scaling
  import opened HexDigits

  /** The `fill` bar width in percent. */
  function FillWidth(pct: real): real {
    Clamp(pct, 0.0, 100.0)
  }

  function Clamp01(x: real): real {
    Clamp(x, 0.0, 1.0)
  }

  /** The bar never under- or overflows its track, and a percentage already
      in range is drawn as given; alpha likewise stays in 0..1. */
  lemma ClampsSpec(pct: real, x: real)
    ensures 0.0 <= FillWidth(pct) <= 100.0
    ensures 0.0 <= pct <= 100.0 ==> FillWidth(pct) == pct
    ensures 0.0 <= Clamp01(x) <= 1.0
    ensures 0.0 <= x <= 1.0 ==> Clamp01(x) == x
  {
    ClampSpec(pct, 0.0, 100.0);
    ClampSpec(x, 0.0, 1.0);
  }

  /** What `hexToRgba` produces: the `rgba(...)` components, or the input
      itself when it is not a six-digit hex colour. */
  datatype Rgba = Rgba(r: nat, g: nat, b: nat, a: real) | Verbatim(text: string)

  /** Six hex digits. */
  predicate SixHex(s: string) {
    |s| == 6 && forall k :: 0 <= k < 6 ==> IsHexDigit(s[k])
  }

  /** The digits matched by `^#?([a-f\d]{2}){3}$` (case-insensitive), if any. */
  function HexDigitsOf(hex: string): Option<string> {
    if SixHex(hex) then Some(hex)
    else if |hex| == 7 && hex[0] == '#' && SixHex(hex[1..]) then Some(hex[1..])
    else None
  }

  /** The value of the hex pair at `i`. */
  function PairValue(s: string, i: nat): nat
    requires i + 1 < |s| && IsHexDigit(s[i]) && IsHexDigit(s[i + 1])
  {
    16 * HexValue(s[i]) + HexValue(s[i + 1])
  }

  function HexToRgba(hex: string, alpha: real): Rgba {
    match HexDigitsOf(hex)
    case None => Verbatim(hex)
    case Some(d) => Rgba(PairValue(d, 0), PairValue(d, 2), PairValue(d, 4), Clamp01(alpha))
  }

  /** A hex colour, with or without `#`, yields the values of its three digit
      pairs, each in 0..255, and the clamped alpha; anything else comes back
      unchanged. */
  lemma HexToRgbaSpec(hex: string, alpha: real)
    ensures HexDigitsOf(hex).None? <==> HexToRgba(hex, alpha) == Verbatim(hex)
    ensures HexDigitsOf(hex).Some? ==>
      var d := HexDigitsOf(hex).value;
      && SixHex(d)
      && (hex == d || hex == "#" + d)
      && HexToRgba(hex, alpha) == Rgba(PairValue(d, 0), PairValue(d, 2), PairValue(d, 4), Clamp01(alpha))
      && PairValue(d, 0) < 256 && PairValue(d, 2) < 256 && PairValue(d, 4) < 256
      && 0.0 <= HexToRgba(hex, alpha).a <= 1.0
  {
    ClampsSpec(0.0, alpha);
    if HexDigitsOf(hex).Some? && !SixHex(hex) {
      assert hex == "#" + hex[1..];
    }
  }

  /** `#rrggbb` in lower case. */
  function FormatHex(r: nat, g: nat, b: nat): string
    requires r < 256 && g < 256 && b < 256
  {
    ['#', HexChar(r / 16), HexChar(r % 16), HexChar(g / 16), HexChar(g % 16), HexChar(b / 16), HexChar(b % 16)]
  }

  /** Parsing a formatted colour gives back its components. */
  lemma HexRoundTrip(r: nat, g: nat, b: nat, alpha: real)
    requires r < 256 && g < 256 && b < 256
    ensures HexToRgba(FormatHex(r, g, b), alpha) == Rgba(r, g, b, Clamp01(alpha))
  {
    var s := FormatHex(r, g, b);
    assert SixHex(s[1..]);
    assert !SixHex(s);
  }

  /** Every tier colour is a hex colour, so the badge is always tinted. */
  lemma TierColorsParse(t: Tier, alpha: real)
    ensures HexToRgba(TierColor(t), alpha).Rgba?
  {
    var c := TierColor(t);
    assert c[0] == '#' && |c| == 7;
    forall k | 0 <= k < 6 ensures IsHexDigit(c[1..][k]) {
      assert c[1..][k] == c[k + 1];
    }
  }
}
