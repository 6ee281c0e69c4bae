/** The pure selectors of the bubble chart: the fill colour of a bubble
    (`getColor`) and the text of its four labels, each chosen by radius. */
module BubbleLabels {
  import opened Stocks

  /** The nine fill colours, strongest gain first. */
  const Palette: seq<string> :=
    ["#00e676", "#00c853", "#2e7d32", "#1b5e20", "#37474f",
     "#b71c1c", "#c62828", "#d50000", "#ff1744"]

  /** Inclusive lower edges of colour bands 0 to 7; band i is bounded above,
      exclusively, by the edge of band i - 1, and band 8 has no lower edge. */
  const Edges: seq<real> := [5.0, 3.0, 1.0, 0.01, -0.01, -1.0, -3.0, -5.0]

  /** Change `c` lies in colour band `i`. */
  predicate InBand(c: real, i: nat)
    requires i < 9
  {
    (i == 0 || c < Edges[i - 1]) && (i == 8 || c >= Edges[i])
  }

  /** `parseFloat(change) || 0`: a value that does not parse (None) counts as 0. */
  function ParsedChange(change: Option<real>): real {
    match change
    case Some(c) => c
    case None => 0.0
  }

  /** The fill colour of a bubble: the colour of the band its change lies in. */
  function BubbleColor(change: Option<real>): (hex: string)
    ensures hex in Palette
    ensures forall i :: 0 <= i < 9 && InBand(ParsedChange(change), i) ==> hex == Palette[i]
  {
    var c := ParsedChange(change);
    if c >= 5.0 then "#00e676"
    else if c >= 3.0 then "#00c853"
    else if c >= 1.0 then "#2e7d32"
    else if c >= 0.01 then "#1b5e20"
    else if c >= -0.01 && c <= 0.01 then "#37474f"
    else if c >= -1.0 then "#b71c1c"
    else if c >= -3.0 then "#c62828"
    else if c >= -5.0 then "#d50000"
    else "#ff1744"
  }

  /** Every change lies in exactly one band, and the nine colours differ, so
      the colour determines the band. */
  lemma BandsPartition(c: real)
    ensures exists i :: 0 <= i < 9 && InBand(c, i)
    ensures forall i, j :: 0 <= i < 9 && 0 <= j < 9 && InBand(c, i) && InBand(c, j) ==> i == j
    ensures Distinct(Palette)
  {
    if c >= 5.0 { assert InBand(c, 0); }
    else if c >= 3.0 { assert InBand(c, 1); }
    else if c >= 1.0 { assert InBand(c, 2); }
    else if c >= 0.01 { assert InBand(c, 3); }
    else if c >= -0.01 { assert InBand(c, 4); }
    else if c >= -1.0 { assert InBand(c, 5); }
    else if c >= -3.0 { assert InBand(c, 6); }
    else if c >= -5.0 { assert InBand(c, 7); }
    else { assert InBand(c, 8); }
  }

  /** A change that does not parse gets the neutral colour, as a zero change does. */
  lemma UnparsedIsNeutral()
    ensures BubbleColor(None) == BubbleColor(Some(0.0)) == Palette[4]
  {
    assert InBand(0.0, 4);
  }

  /** A larger change never gets a colour from a weaker band. */
  lemma BandsOrdered(c: real, d: real, i: nat, j: nat)
    requires i < 9 && j < 9 && c <= d
    requires InBand(c, i) && InBand(d, j)
    ensures j <= i
  {
  }

  /** The symbol label: nothing below radius 18, then the first 3, the first
      5 or all of the symbol's characters. */
  function SymbolLabel(radius: real, symbol: string): (text: string)
    ensures text <= symbol
    ensures radius < 18.0 ==> |text| == 0
    ensures 18.0 <= radius < 26.0 ==> |text| == if |symbol| < 3 then |symbol| else 3
    ensures 26.0 <= radius < 36.0 ==> |text| == if |symbol| < 5 then |symbol| else 5
    ensures 36.0 <= radius ==> text == symbol
  {
    if radius < 18.0 then ""
    else if radius < 26.0 then Prefix(symbol, 3)
    else if radius < 36.0 then Prefix(symbol, 5)
    else symbol
  }

  /** `s.substring(0, n)`: the first n characters, or all of a shorter string. */
  function Prefix(s: string, n: nat): (p: string)
    ensures p <= s && |p| == if |s| < n then |s| else n
  {
    if |s| <= n then s else s[..n]
  }

  /** The change label, shown from radius 24: a "+" for a non-negative
      change, the number as `fmt` writes it, and a percent sign. */
  function ChangeLabel(radius: real, change: real, fmt: real -> string): (text: string)
    ensures text == "" <==> radius < 24.0
    ensures text != "" ==> text[|text| - 1] == '%'
    ensures text != "" ==> text == (if change >= 0.0 then "+" else "") + fmt(change) + "%"
  {
    if radius < 24.0 then "" else (if change >= 0.0 then "+" else "") + fmt(change) + "%"
  }

  /** The price label, shown from radius 42: the rupee sign and the price as
      `fmt` writes it. */
  function PriceLabel(radius: real, ltp: real, fmt: real -> string): (text: string)
    ensures text == "" <==> radius < 42.0
    ensures text != "" ==> text == "₹" + fmt(ltp)
  {
    if radius < 42.0 then "" else "₹" + fmt(ltp)
  }

  /** The company-name label, shown from radius 58; a name longer than 16
      characters is cut to 15 followed by an ellipsis. A missing name is "". */
  function NameLabel(radius: real, name: string): (text: string)
    ensures |text| <= 16
    ensures radius < 58.0 ==> text == ""
    ensures radius >= 58.0 && |name| <= 16 ==> text == name
    ensures radius >= 58.0 && |name| > 16 ==>
      |text| == 16 && text[..15] == name[..15] && text[15] == '…'
  {
    if radius < 58.0 then ""
    else if |name| > 16 then name[..15] + "…"
    else name
  }

  /** A bigger bubble shows at least what a smaller one shows: every label
      visible at r1 is visible at r2, and the symbol text only grows. */
  lemma LabelsGrowWithRadius(r1: real, r2: real, symbol: string, name: string, change: real, ltp: real, fmt: real -> string)
    requires r1 <= r2
    ensures SymbolLabel(r1, symbol) <= SymbolLabel(r2, symbol)
    ensures ChangeLabel(r1, change, fmt) != "" ==> ChangeLabel(r2, change, fmt) != ""
    ensures PriceLabel(r1, ltp, fmt) != "" ==> PriceLabel(r2, ltp, fmt) != ""
    ensures NameLabel(r1, name) != "" ==> NameLabel(r2, name) == NameLabel(r1, name)
  {
    var a, b := SymbolLabel(r1, symbol), SymbolLabel(r2, symbol);
    assert a <= symbol && b <= symbol && |a| <= |b|;
    assert a == symbol[..|a|] && b == symbol[..|b|];
    assert b[..|a|] == symbol[..|a|];
  }
}
