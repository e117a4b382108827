/** How the STUN client prints an IPv4 address: Swift's string interpolation
    of each `UInt8` in decimal, joined by dots (P2PDemo/SimpleStun.swift:154),
    and the parser that reads such a string back. */
module Dotted {
  import opened Types

  datatype IPv4 = IPv4(a: byte, b: byte, c: byte, d: byte)

  predicate IsDigit(ch: char)
  {
    '0' <= ch <= '9'
  }

  predicate AllDigits(s: string)
  {
    forall i :: 0 <= i < |s| ==> IsDigit(s[i])
  }

  function DigitChar(d: nat): (ch: char)
    requires d < 10
    ensures IsDigit(ch) && DigitValue(ch) == d
  {
    (('0' as int) + d) as char
  }

  function DigitValue(ch: char): nat
    requires IsDigit(ch)
  {
    (ch as int) - ('0' as int)
  }

  /** `"\(n)"`: decimal without leading zeros. */
  function Decimal(n: nat): (s: string)
    ensures 1 <= |s| && AllDigits(s)
    decreases n
  {
    if n < 10 then [DigitChar(n)] else Decimal(n / 10) + [DigitChar(n % 10)]
  }

  /** The value of a string of decimal digits. */
  function ParseDecimal(s: string): nat
    requires AllDigits(s)
    decreases |s|
  {
    if s == [] then 0 else ParseDecimal(s[..|s| - 1]) * 10 + DigitValue(s[|s| - 1])
  }

  lemma {:induction false} ParseDecimalOfDecimal(n: nat)
    ensures ParseDecimal(Decimal(n)) == n
    decreases n
  {
    if n >= 10 {
      var s := Decimal(n);
      assert s[..|s| - 1] == Decimal(n / 10);
      ParseDecimalOfDecimal(n / 10);
    }
  }

  /** The dotted-quad text of an address. */
  function Format(ip: IPv4): string
  {
    Decimal(ip.a as nat) + "." + Decimal(ip.b as nat) + "." + Decimal(ip.c as nat) + "." + Decimal(ip.d as nat)
  }

  /** No field separator in `x`. */
  predicate Dotless(x: string)
  {
    forall i :: 0 <= i < |x| ==> x[i] != '.'
  }

  /** Splits a string at every '.', keeping empty fields: "1..2" has three. */
  function Fields(s: string): (r: seq<string>)
    ensures |r| >= 1
    decreases |s|
  {
    if s == [] then [[]]
    else
      var rest := Fields(s[1..]);
      if s[0] == '.' then [[]] + rest else [[s[0]] + rest[0]] + rest[1..]
  }

  lemma {:induction false} FieldsOfDotless(x: string)
    requires Dotless(x)
    ensures Fields(x) == [x]
    decreases |x|
  {
    if x != [] {
      FieldsOfDotless(x[1..]);
      assert [x[0]] + x[1..] == x;
    }
  }

  lemma {:induction false} FieldsOfJoin(x: string, y: string)
    requires Dotless(x)
    ensures Fields(x + "." + y) == [x] + Fields(y)
    decreases |x|
  {
    if x == [] {
      assert x + "." + y == ['.'] + y;
      assert (x + "." + y)[1..] == y;
    } else {
      var s := x + "." + y;
      assert s[1..] == x[1..] + "." + y;
      FieldsOfJoin(x[1..], y);
      assert [x[0]] + x[1..] == x;
    }
  }

  /** A decimal octet as `Format` prints one: digits only, value below 256. */
  predicate IsOctet(t: string)
  {
    1 <= |t| && AllDigits(t) && ParseDecimal(t) < 256
  }

  /** Reads a dotted-quad address: four dot-separated decimal octets. */
  function Parse(s: string): Option<IPv4>
  {
    var f := Fields(s);
    if |f| == 4 && IsOctet(f[0]) && IsOctet(f[1]) && IsOctet(f[2]) && IsOctet(f[3]) then
      Some(IPv4(ParseDecimal(f[0]) as byte, ParseDecimal(f[1]) as byte,
                ParseDecimal(f[2]) as byte, ParseDecimal(f[3]) as byte))
    else None
  }

  lemma DecimalHasNoDot(n: nat)
    ensures Dotless(Decimal(n))
  {
  }

  lemma OctetOfByte(x: byte)
    ensures IsOctet(Decimal(x as nat)) && ParseDecimal(Decimal(x as nat)) as byte == x
  {
    ParseDecimalOfDecimal(x as nat);
  }

  lemma FieldsOfQuad(w: string, x: string, y: string, z: string)
    requires Dotless(w) && Dotless(x) && Dotless(y) && Dotless(z)
    ensures Fields(w + "." + x + "." + y + "." + z) == [w, x, y, z]
  {
    var yz := y + "." + z;
    var xyz := x + "." + yz;
    assert w + "." + x + "." + y + "." + z == w + "." + xyz;
    FieldsOfDotless(z);
    FieldsOfJoin(y, z);
    FieldsOfJoin(x, yz);
    FieldsOfJoin(w, xyz);
  }

  lemma FieldsOfFormat(ip: IPv4)
    ensures Fields(Format(ip)) == [Decimal(ip.a as nat), Decimal(ip.b as nat), Decimal(ip.c as nat), Decimal(ip.d as nat)]
  {
    DecimalHasNoDot(ip.a as nat);
    DecimalHasNoDot(ip.b as nat);
    DecimalHasNoDot(ip.c as nat);
    DecimalHasNoDot(ip.d as nat);
    FieldsOfQuad(Decimal(ip.a as nat), Decimal(ip.b as nat), Decimal(ip.c as nat), Decimal(ip.d as nat));
  }

  /** Parsing a formatted address gives the address back, so `Format` loses
      nothing: two addresses print the same text only when they are equal. */
  lemma {:induction false} ParseFormat(ip: IPv4)
    ensures Parse(Format(ip)) == Some(ip)
  {
    FieldsOfFormat(ip);
    OctetOfByte(ip.a);
    OctetOfByte(ip.b);
    OctetOfByte(ip.c);
    OctetOfByte(ip.d);
  }

  lemma FormatInjective(ip1: IPv4, ip2: IPv4)
    ensures Format(ip1) == Format(ip2) <==> ip1 == ip2
  {
    ParseFormat(ip1);
    ParseFormat(ip2);
  }
}
