/** hexToRgb of the particle canvas: an anchored, case-insensitive match of
    `#?` followed by three two-digit hex pairs, with a grey fallback. */
module ParticleCanvas {
  import opened Types
  import opened Constants

  datatype Rgb = Rgb(r: int, g: int, b: int)

  /** The value returned for any string that does not match. */
  const Fallback := Rgb(100, 100, 100)

  /** `[a-f\d]` under the `i` flag. */
  predicate IsHexDigit(c: char)
  {
    ('0' <= c <= '9') || ('a' <= c <= 'f') || ('A' <= c <= 'F')
  }

  predicate AllHex(s: string)
  {
    forall i :: 0 <= i < |s| ==> IsHexDigit(s[i])
  }

  /** The digit's value, as `parseInt(_, 16)` reads it. */
  function HexValue(c: char): (v: int)
    requires IsHexDigit(c)
    ensures 0 <= v < 16
  {
    if '0' <= c <= '9' then c as int - '0' as int
    else if 'a' <= c <= 'f' then c as int - 'a' as int + 10
    else c as int - 'A' as int + 10
  }

  /** `parseInt` of one two-digit group. */
  function PairValue(hi: char, lo: char): (v: int)
    requires IsHexDigit(hi) && IsHexDigit(lo)
    ensures 0 <= v <= 255
  {
    16 * HexValue(hi) + HexValue(lo)
  }

  /** The strings the regular expression accepts: exactly six hex digits, or a
      '#' followed by exactly six hex digits. */
  predicate Accepted(hex: string)
  {
    (|hex| == 6 && AllHex(hex)) || (|hex| == 7 && hex[0] == '#' && AllHex(hex[1..]))
  }

  /** The six digits of an accepted string. */
  function DigitsOf(hex: string): (d: string)
    requires Accepted(hex)
    ensures |d| == 6 && AllHex(d)
  {
    if |hex| == 7 then hex[1..] else hex
  }

  /** hexToRgb: each channel is the value of its hex pair (0..255); anything
      that does not match gives the fallback grey. */
  function HexToRgb(hex: string): (c: Rgb)
    ensures Accepted(hex) ==>
      var d := DigitsOf(hex);
      c == Rgb(PairValue(d[0], d[1]), PairValue(d[2], d[3]), PairValue(d[4], d[5]))
    ensures Accepted(hex) ==> 0 <= c.r <= 255 && 0 <= c.g <= 255 && 0 <= c.b <= 255
    ensures !Accepted(hex) ==> c == Fallback
  {
    var body := if |hex| > 0 && hex[0] == '#' then hex[1..] else hex;
    if |body| == 6 && AllHex(body) then
      Rgb(PairValue(body[0], body[1]), PairValue(body[2], body[3]), PairValue(body[4], body[5]))
    else
      Fallback
  }

  /** Shorthand, eight digits and the empty string all fall back. */
  lemma WrongLengthFallsBack(hex: string)
    requires |hex| != 6 && |hex| != 7
    ensures HexToRgb(hex) == Fallback
  {
  }

  /** ASCII lower-casing of one character. */
  function LowerChar(c: char): char
  {
    if 'A' <= c <= 'Z' then (c as int + 32) as char else c
  }

  function Lower(s: string): (r: string)
    ensures |r| == |s|
    ensures forall i :: 0 <= i < |s| ==> r[i] == LowerChar(s[i])
  {
    seq(|s|, i requires 0 <= i < |s| => LowerChar(s[i]))
  }

  lemma LowerKeepsDigits(c: char)
    ensures IsHexDigit(LowerChar(c)) <==> IsHexDigit(c)
    ensures IsHexDigit(c) ==> HexValue(LowerChar(c)) == HexValue(c)
  {
  }

  /** Matching is case-insensitive: lower-casing the input changes nothing. */
  lemma HexToRgbIgnoresCase(hex: string)
    ensures HexToRgb(Lower(hex)) == HexToRgb(hex)
  {
    var low := Lower(hex);
    forall i | 0 <= i < |hex|
      ensures IsHexDigit(low[i]) <==> IsHexDigit(hex[i])
      ensures IsHexDigit(hex[i]) ==> HexValue(low[i]) == HexValue(hex[i])
    {
      LowerKeepsDigits(hex[i]);
    }
    if |hex| == 7 {
      assert AllHex(low[1..]) <==> AllHex(hex[1..]) by {
        assert forall i :: 0 <= i < 6 ==> low[1..][i] == low[i + 1] && hex[1..][i] == hex[i + 1];
      }
    }
    assert Accepted(low) <==> Accepted(hex);
  }

  /** The lower-case digit for a value below 16. */
  function HexChar(v: int): (c: char)
    requires 0 <= v < 16
    ensures IsHexDigit(c) && HexValue(c) == v
  {
    if v < 10 then ('0' as int + v) as char else ('a' as int + v - 10) as char
  }

  /** `#rrggbb` in lower case. */
  function FormatHex(c: Rgb): (s: string)
    requires 0 <= c.r <= 255 && 0 <= c.g <= 255 && 0 <= c.b <= 255
    ensures |s| == 7 && s[0] == '#'
  {
    ['#', HexChar(c.r / 16), HexChar(c.r % 16), HexChar(c.g / 16), HexChar(c.g % 16),
     HexChar(c.b / 16), HexChar(c.b % 16)]
  }

  /** Formatting a colour and parsing it back gives the same colour. */
  lemma FormatThenParse(c: Rgb)
    requires 0 <= c.r <= 255 && 0 <= c.g <= 255 && 0 <= c.b <= 255
    ensures HexToRgb(FormatHex(c)) == c
  {
    var s := FormatHex(c);
    assert AllHex(s[1..]) by {
      assert forall i :: 0 <= i < 6 ==> s[1..][i] == s[i + 1];
    }
  }

  /** A '#' and six hex digits parse pair by pair. */
  lemma HashFormParses(s: string)
    requires |s| == 7 && s[0] == '#'
    requires IsHexDigit(s[1]) && IsHexDigit(s[2]) && IsHexDigit(s[3])
    requires IsHexDigit(s[4]) && IsHexDigit(s[5]) && IsHexDigit(s[6])
    ensures HexToRgb(s) == Rgb(PairValue(s[1], s[2]), PairValue(s[3], s[4]), PairValue(s[5], s[6]))
  {
    assert AllHex(s[1..]) by {
      assert forall i :: 0 <= i < 6 ==> s[1..][i] == s[i + 1];
    }
  }

  /** The channels of each catalog colour; none of them falls back to grey. */
  lemma CatalogColoursParse()
    ensures HexToRgb(BreathingPatterns[Coherent].color) == Rgb(34, 211, 238)
    ensures HexToRgb(BreathingPatterns[Box].color) == Rgb(167, 139, 250)
    ensures HexToRgb(BreathingPatterns[Relax478].color) == Rgb(96, 165, 250)
    ensures HexToRgb(BreathingPatterns[Soldier].color) == Rgb(52, 211, 153)
    ensures HexToRgb(BreathingPatterns[Performance].color) == Rgb(251, 146, 60)
    ensures HexToRgb(BreathingPatterns[PanicRescue].color) == Rgb(248, 113, 113)
  {
    HashFormParses(BreathingPatterns[Coherent].color);
    HashFormParses(BreathingPatterns[Box].color);
    HashFormParses(BreathingPatterns[Relax478].color);
    HashFormParses(BreathingPatterns[Soldier].color);
    HashFormParses(BreathingPatterns[Performance].color);
    HashFormParses(BreathingPatterns[PanicRescue].color);
  }
}
