/**
 * The colour literals that the components share, written as the `#RRGGBB`
 * strings the components use, and the two text formats the alert banner
 * relates: a `#RRGGBB` hex colour and an `rgba(r, g, b, a)` colour.
 */
module Palette {
  import opened Wrappers

  const Red: string := "#FF453A"
  const Yellow: string := "#FFD60A"
  const Green: string := "#30D158"
  const Blue: string := "#0A84FF"
  const Orange: string := "#FF9500"
  const Indigo: string := "#5E5CE6"
  const Gray: string := "#8E8E93"
  const Pink: string := "#FF375F"
  const White: string := "#FFFFFF"
  const Black: string := "#000000"

  /** Red, green and blue channels of a colour, each 0..255. */
  datatype Rgb = Rgb(r: nat, g: nat, b: nat)

  predicate IsChannel(n: nat) { n < 256 }

  /** Value of one hexadecimal digit (either case). */
  function HexDigit(c: char): (d: Option<nat>)
    ensures d.Some? ==> d.value < 16
    ensures d.Some? <==> ('0' <= c <= '9' || 'A' <= c <= 'F' || 'a' <= c <= 'f')
  {
    if '0' <= c <= '9' then Some(c as nat - '0' as nat)
    else if 'A' <= c <= 'F' then Some(c as nat - 'A' as nat + 10)
    else if 'a' <= c <= 'f' then Some(c as nat - 'a' as nat + 10)
    else None
  }

  /** The channel written by two hex digits, high digit first. */
  function HexByte(hi: char, lo: char): (n: Option<nat>)
    ensures n.Some? ==> IsChannel(n.value)
    ensures n.Some? <==> HexDigit(hi).Some? && HexDigit(lo).Some?
  {
    match (HexDigit(hi), HexDigit(lo))
    case (Some(h), Some(l)) => Some(16 * h + l)
    case _ => None
  }

  /** Parses a `#RRGGBB` colour; anything else is rejected. */
  function ParseHex(s: string): (c: Option<Rgb>)
    ensures c.Some? ==> |s| == 7 && s[0] == '#'
    ensures c.Some? ==> IsChannel(c.value.r) && IsChannel(c.value.g) && IsChannel(c.value.b)
  {
    if |s| != 7 || s[0] != '#' then None
    else
      match (HexByte(s[1], s[2]), HexByte(s[3], s[4]), HexByte(s[5], s[6]))
      case (Some(r), Some(g), Some(b)) => Some(Rgb(r, g, b))
      case _ => None
  }

  /** Decimal numeral of `n`, without leading zeros. */
  function Decimal(n: nat): (s: string)
    ensures |s| > 0
    ensures forall i :: 0 <= i < |s| ==> '0' <= s[i] <= '9'
    ensures |s| > 1 ==> s[0] != '0'
    decreases n
  {
    if n < 10 then [('0' as nat + n) as char]
    else Decimal(n / 10) + [('0' as nat + n % 10) as char]
  }

  /** The CSS colour `rgba(r, g, b, alpha)` as React Native accepts it. */
  function Rgba(c: Rgb, alpha: string): (s: string)
    ensures |s| > 5 && s[..5] == "rgba("
    ensures s[|s| - 1] == ')'
  {
    "rgba(" + Decimal(c.r) + ", " + Decimal(c.g) + ", " + Decimal(c.b) + ", " + alpha + ")"
  }
}
