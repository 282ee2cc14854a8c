/** The number conversions the File resource performs: str.isdigit and int(s) for
    owner and group ids, oct(st_mode)[-4:] for the current mode, and int(mode, 8) for
    the configured one. Only ASCII digits are modelled. */
module Numerals {
  import opened Wrappers

  /** str.isdigit: non-empty and made only of decimal digits. */
  predicate IsDigits(s: string)
  {
    |s| > 0 && forall i :: 0 <= i < |s| ==> '0' <= s[i] <= '9'
  }

  /** int(s) for a string of decimal digits. */
  function DecimalValue(s: string): nat
    requires forall i :: 0 <= i < |s| ==> '0' <= s[i] <= '9'
  {
    if s == [] then 0 else 10 * DecimalValue(s[..|s| - 1]) + (s[|s| - 1] - '0') as nat
  }

  predicate IsOctalDigits(s: string)
  {
    |s| > 0 && forall i :: 0 <= i < |s| ==> '0' <= s[i] <= '7'
  }

  /** The value of a string of octal digits, most significant first. */
  function OctalValue(s: string): nat
    requires forall i :: 0 <= i < |s| ==> '0' <= s[i] <= '7'
  {
    if s == [] then 0 else 8 * OctalValue(s[..|s| - 1]) + (s[|s| - 1] - '0') as nat
  }

  /** int(s, 8): an optional "0o"/"0O" prefix followed by octal digits; anything else
      raises ValueError, modelled as None. */
  function ParseOctal(s: string): Option<nat>
  {
    var body := if |s| >= 2 && s[0] == '0' && (s[1] == 'o' || s[1] == 'O') then s[2..] else s;
    if IsOctalDigits(body) then Some(OctalValue(body)) else None
  }

  function OctalDigit(d: nat): char
    requires d < 8
  {
    ('0' as int + d) as char
  }

  /** The digits of oct(n) after its "0o" prefix. */
  function OctDigits(n: nat): (s: string)
    ensures |s| >= 1
  {
    if n < 8 then [OctalDigit(n)] else OctDigits(n / 8) + [OctalDigit(n % 8)]
  }

  /** oct(n) for a non-negative n. */
  function Oct(n: nat): string
  {
    "0o" + OctDigits(n)
  }

  /** s[-4:]: the last four characters, or all of s when it is shorter. */
  function LastFour(s: string): string
  {
    if |s| <= 4 then s else s[|s| - 4..]
  }

  /** oct(st_mode)[-4:], the text the File resource compares with the configured mode. */
  function ModeText(stMode: nat): string
  {
    LastFour(Oct(stMode))
  }

  /** The four octal digits of a permission value below 0o10000, zero-padded. */
  function FourOctal(p: nat): (s: string)
    requires p < 4096
  {
    [OctalDigit(p / 512), OctalDigit(p / 64 % 8), OctalDigit(p / 8 % 8), OctalDigit(p % 8)]
  }

  /** Dividing 8q + r by 8 moves r's low octal digit out and keeps q. */
  lemma DivByEight(q: nat, r: nat)
    ensures (8 * q + r) / 8 == q + r / 8 && (8 * q + r) % 8 == r % 8
  {
  }

  /** The low four octal places of fileType * 0o10000 + p are those of p, and
      fileType is what is left above them. */
  lemma OctalPlaces(fileType: nat, p: nat)
    requires p < 4096
    ensures var n := fileType * 4096 + p;
            && n % 8 == p % 8 && n / 8 % 8 == p / 8 % 8
            && n / 8 / 8 % 8 == p / 64 % 8 && n / 8 / 8 / 8 % 8 == p / 512
            && n / 8 / 8 / 8 / 8 == fileType
  {
    var n := fileType * 4096 + p;
    DivByEight(fileType * 512, p);
    assert n / 8 == fileType * 512 + p / 8;
    DivByEight(fileType * 64, p / 8);
    assert n / 8 / 8 == fileType * 64 + p / 64;
    DivByEight(fileType * 8, p / 64);
    assert n / 8 / 8 / 8 == fileType * 8 + p / 512;
    DivByEight(fileType, p / 512);
  }

  /** For a mode with file-type bits (fileType >= 1) and permission bits p, the last
      four characters of oct(mode) are exactly the four zero-padded octal digits of p. */
  lemma ModeTextOf(fileType: nat, p: nat)
    requires fileType >= 1 && p < 4096
    ensures ModeText(fileType * 4096 + p) == FourOctal(p)
  {
    var n := fileType * 4096 + p;
    OctalPlaces(fileType, p);
    var n1 := n / 8;
    var n2 := n1 / 8;
    var n3 := n2 / 8;
    assert n3 >= 8;
    assert OctDigits(n3) == OctDigits(fileType) + [OctalDigit(p / 512)];
    assert OctDigits(n2) == OctDigits(n3) + [OctalDigit(p / 64 % 8)];
    assert OctDigits(n1) == OctDigits(n2) + [OctalDigit(p / 8 % 8)];
    assert OctDigits(n) == OctDigits(n1) + [OctalDigit(p % 8)];
    assert OctDigits(n) == OctDigits(fileType) + FourOctal(p);
    var t := Oct(n);
    assert t == "0o" + OctDigits(fileType) + FourOctal(p);
    assert t[|t| - 4..] == FourOctal(p);
  }

  /** int(s, 8) of a four-digit octal string is a permission value whose zero-padded
      rendering is s again. */
  lemma FourOctalRoundTrip(s: string)
    requires |s| == 4 && IsOctalDigits(s)
    ensures ParseOctal(s).Some? && ParseOctal(s).value < 4096
    ensures FourOctal(ParseOctal(s).value) == s
  {
    var d0, d1, d2, d3 := (s[0] - '0') as nat, (s[1] - '0') as nat, (s[2] - '0') as nat, (s[3] - '0') as nat;
    assert OctalValue(s[..1]) == d0 by { assert s[..1][..0] == []; }
    assert OctalValue(s[..2]) == d0 * 8 + d1 by { assert s[..2][..1] == s[..1]; }
    assert OctalValue(s[..3]) == (d0 * 8 + d1) * 8 + d2 by { assert s[..3][..2] == s[..2]; }
    assert OctalValue(s) == ((d0 * 8 + d1) * 8 + d2) * 8 + d3 by { assert s[..3] == s[..|s| - 1]; }
    var v := d0 * 512 + d1 * 64 + d2 * 8 + d3;
    DigitsOfFour(d0, d1, d2, d3);
    assert FourOctal(v) == s;
  }

  lemma DigitsOfFour(d0: nat, d1: nat, d2: nat, d3: nat)
    requires d0 < 8 && d1 < 8 && d2 < 8 && d3 < 8
    ensures var v := d0 * 512 + d1 * 64 + d2 * 8 + d3;
      v < 4096 && v / 512 == d0 && v / 64 % 8 == d1 && v / 8 % 8 == d2 && v % 8 == d3
  {
    var v := d0 * 512 + d1 * 64 + d2 * 8 + d3;
    assert v / 8 == d0 * 64 + d1 * 8 + d2;
    assert v / 64 == d0 * 8 + d1;
  }

  /** After chmod to int(s, 8) for a four-digit octal s, the mode text read back is s:
      the mode facet of a File resource settles after one run. */
  lemma ChmodSettlesMode(fileType: nat, s: string)
    requires fileType >= 1
    requires |s| == 4 && IsOctalDigits(s)
    ensures ParseOctal(s).Some?
    ensures ModeText(fileType * 4096 + ParseOctal(s).value % 4096) == s
  {
    FourOctalRoundTrip(s);
    var v := ParseOctal(s).value;
    assert v % 4096 == v;
    ModeTextOf(fileType, v);
  }

  /** A configured mode of any length other than four (such as "644" or "0o644") never
      equals the mode text of a file with type bits: chmod fires on every run. */
  lemma OtherLengthNeverMatches(fileType: nat, p: nat, s: string)
    requires fileType >= 1 && p < 4096
    requires |s| != 4
    ensures ModeText(fileType * 4096 + p) != s
  {
    ModeTextOf(fileType, p);
  }
}
