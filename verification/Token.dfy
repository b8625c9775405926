/** Printing two 64-bit draws as a session token. */
module Token {
  import opened Protocol

  /** A draw of the 64-bit generator. */
  type Draw = d: nat | d < 0x1_0000_0000_0000_0000

  function HexDigit(d: nat): byte
    requires d < 16
  {
    if d < 10 then 48 + d as byte else 87 + d as byte
  }

  predicate IsHexDigit(c: byte) {
    48 <= c <= 57 || 97 <= c <= 102
  }

  function DigitValue(c: byte): (v: nat)
    requires IsHexDigit(c)
    ensures v < 16 && HexDigit(v) == c
  {
    if c <= 57 then (c - 48) as nat else (c - 87) as nat
  }

  /** `std::hex` output: no leading zeros, "0" for zero. */
  function Hex(n: nat): Text {
    if n < 16 then [HexDigit(n)] else Hex(n / 16) + [HexDigit(n % 16)]
  }

  function Zeros(n: nat): (s: Text)
    ensures |s| == n && forall k | 0 <= k < n :: s[k] == 48
  {
    seq(n, k => 48 as byte)
  }

  /** `setw(width) << setfill('0')`: short output is padded on the left, long output kept. */
  function Padded(s: Text, width: nat): Text {
    if |s| < width then Zeros(width - |s|) + s else s
  }

  function PrintToken(a: Draw, b: Draw): Text {
    Padded(Hex(a), 16) + Padded(Hex(b), 16)
  }

  predicate AllHex(s: Text) {
    forall k | 0 <= k < |s| :: IsHexDigit(s[k])
  }

  /** The number a string of hex digits stands for. */
  function Parse(s: Text): nat
    requires AllHex(s)
  {
    if s == [] then 0 else 16 * Parse(s[..|s| - 1]) + DigitValue(s[|s| - 1])
  }

  function Pow16(n: nat): nat {
    if n == 0 then 1 else 16 * Pow16(n - 1)
  }

  lemma {:induction false} ParseBelow(s: Text)
    requires AllHex(s)
    ensures Parse(s) < Pow16(|s|)
  {
    if s != [] {
      ParseBelow(s[..|s| - 1]);
    }
  }

  lemma {:induction false} HexParses(n: nat, width: nat)
    requires n < Pow16(width) && width > 0
    ensures AllHex(Hex(n)) && Parse(Hex(n)) == n && 0 < |Hex(n)| <= width
  {
    var s := Hex(n);
    if n < 16 {
      assert s[..0] == [];
    } else {
      assert width > 1;
      HexParses(n / 16, width - 1);
      assert s[..|s| - 1] == Hex(n / 16);
    }
  }

  lemma {:induction false} ZerosIgnored(k: nat, s: Text)
    requires AllHex(s)
    ensures AllHex(Zeros(k) + s) && Parse(Zeros(k) + s) == Parse(s)
  {
    var t := Zeros(k) + s;
    if s != [] {
      ZerosIgnored(k, s[..|s| - 1]);
      assert t[..|t| - 1] == Zeros(k) + s[..|s| - 1];
    } else if k > 0 {
      ZerosIgnored(k - 1, []);
      assert t[..|t| - 1] == Zeros(k - 1) + [];
      assert DigitValue(48) == 0;
    }
  }

  /** Equal-length digit strings of equal value are equal. */
  lemma {:induction false} ParseInjective(s: Text, t: Text)
    requires AllHex(s) && AllHex(t) && |s| == |t| && Parse(s) == Parse(t)
    ensures s == t
  {
    if s != [] {
      var m, n := |s| - 1, |t| - 1;
      var x, y := Parse(s[..m]), Parse(t[..n]);
      assert 16 * x + DigitValue(s[m]) == 16 * y + DigitValue(t[n]);
      assert x == y && DigitValue(s[m]) == DigitValue(t[n]);
      ParseInjective(s[..m], t[..n]);
      assert s == s[..m] + [s[m]] && t == t[..n] + [t[n]];
    }
  }

  lemma SixtyFourBits()
    ensures Pow16(16) == 0x1_0000_0000_0000_0000
  {
    assert Pow16(4) == 0x1_0000;
    assert Pow16(8) == 0x1_0000_0000;
    assert Pow16(12) == 0x1_0000_0000_0000;
  }

  lemma PaddedParses(a: Draw)
    ensures var s := Padded(Hex(a), 16);
            |s| == 16 && AllHex(s) && Parse(s) == a
  {
    SixtyFourBits();
    HexParses(a, 16);
    ZerosIgnored(16 - |Hex(a)|, Hex(a));
  }

  /** A token is exactly 32 lower-case hex characters and parsing returns both draws; so
      different draws print differently. */
  lemma TokenParses(a: Draw, b: Draw)
    ensures var t := PrintToken(a, b);
            && |t| == TOKEN_LENGTH && AllHex(t)
            && Parse(t[..16]) == a && Parse(t[16..]) == b
  {
    PaddedParses(a);
    PaddedParses(b);
    var t := PrintToken(a, b);
    assert t[..16] == Padded(Hex(a), 16) && t[16..] == Padded(Hex(b), 16);
  }

  lemma TokenLength(a: Draw, b: Draw)
    ensures |PrintToken(a, b)| == TOKEN_LENGTH
  {
    TokenParses(a, b);
  }

  lemma TokensDiffer(a: Draw, b: Draw, c: Draw, d: Draw)
    requires PrintToken(a, b) == PrintToken(c, d)
    ensures a == c && b == d
  {
    TokenParses(a, b);
    TokenParses(c, d);
  }

  /** Conversely every string of 32 hex characters is the token of the draws it parses to. */
  lemma EveryTokenIsPrinted(t: Text)
    requires |t| == TOKEN_LENGTH && AllHex(t)
    ensures Parse(t[..16]) < 0x1_0000_0000_0000_0000 && Parse(t[16..]) < 0x1_0000_0000_0000_0000
    ensures PrintToken(Parse(t[..16]), Parse(t[16..])) == t
  {
    SixtyFourBits();
    ParseBelow(t[..16]);
    ParseBelow(t[16..]);
    PaddedParses(Parse(t[..16]));
    PaddedParses(Parse(t[16..]));
    ParseInjective(t[..16], Padded(Hex(Parse(t[..16])), 16));
    ParseInjective(t[16..], Padded(Hex(Parse(t[16..])), 16));
    assert t == t[..16] + t[16..];
  }
}
