/** IPv4 addresses in strict dotted decimal, the only syntax `std::net::Ipv4Addr` parses. */
module Ipv4 {
  import opened Results
  import opened Text
  import opened Mac

  datatype IpError = NotIpv4 | MulticastOrUnspecified

  predicate AllDigits(s: string) {
    forall i :: 0 <= i < |s| ==> IsDigit(s[i])
  }

  function DigitValue(c: char): (v: int)
    requires IsDigit(c)
    ensures 0 <= v < 10
  {
    c as int - '0' as int
  }

  function DigitChar(v: int): (c: char)
    requires 0 <= v < 10
    ensures IsDigit(c) && DigitValue(c) == v
  {
    (v + '0' as int) as char
  }

  function Decimal(s: string): nat
    requires AllDigits(s)
  {
    if s == [] then 0 else 10 * Decimal(s[..|s| - 1]) + DigitValue(s[|s| - 1])
  }

  /** One field: one to three digits, no leading zero unless it is the only digit, at most 255. */
  function ParseOctet(s: string): Option<Byte> {
    if && 1 <= |s| <= 3 && AllDigits(s)
       && (s[0] == '0' ==> |s| == 1)
       && Decimal(s) < 256
    then Some(Decimal(s))
    else None
  }

  function PrintOctet(b: Byte): string {
    if b < 10 then [DigitChar(b)]
    else if b < 100 then [DigitChar(b / 10), DigitChar(b % 10)]
    else [DigitChar(b / 100), DigitChar(b / 10 % 10), DigitChar(b % 10)]
  }

  function ParseIpv4(s: string): Option<seq<Byte>> {
    var fields := Split(s, '.');
    if ByteLen(s) > 15 || |fields| != 4 then None
    else match (ParseOctet(fields[0]), ParseOctet(fields[1]), ParseOctet(fields[2]), ParseOctet(fields[3]))
         case (Some(a), Some(b), Some(c), Some(d)) => Some([a, b, c, d])
         case _ => None
  }

  function PrintIpv4(address: seq<Byte>): string
    requires |address| == 4
  {
    Join([PrintOctet(address[0]), PrintOctet(address[1]), PrintOctet(address[2]), PrintOctet(address[3])], ".")
  }

  /** 224.0.0.0/4, or 0.0.0.0. */
  predicate Excluded(address: seq<Byte>)
    requires |address| == 4
  {
    224 <= address[0] <= 239 || address == [0, 0, 0, 0]
  }

  function NormalizeIp(input: string): Result<string, IpError> {
    match ParseIpv4(Trim(input))
    case None => Err(NotIpv4)
    case Some(address) => if Excluded(address) then Err(MulticastOrUnspecified) else Ok(PrintIpv4(address))
  }

  lemma DecimalOfDigits(s: string)
    requires 1 <= |s| <= 3 && AllDigits(s)
    ensures |s| == 1 ==> Decimal(s) == DigitValue(s[0])
    ensures |s| == 2 ==> Decimal(s) == 10 * DigitValue(s[0]) + DigitValue(s[1])
    ensures |s| == 3 ==> Decimal(s) == 100 * DigitValue(s[0]) + 10 * DigitValue(s[1]) + DigitValue(s[2])
  {
    if |s| == 1 {
      assert s[..0] == [];
    } else {
      DecimalOfDigits(s[..|s| - 1]);
    }
  }

  lemma OctetRoundTrip(b: Byte)
    ensures ParseOctet(PrintOctet(b)) == Some(b)
    ensures 1 <= |PrintOctet(b)| <= 3 && AllDigits(PrintOctet(b))
  {
    DecimalOfDigits(PrintOctet(b));
  }

  lemma OctetSpelling(s: string)
    requires ParseOctet(s).Some?
    ensures PrintOctet(ParseOctet(s).value) == s
  {
    DecimalOfDigits(s);
    DigitCharOfValue(s[0]);
    if |s| == 2 {
      DigitCharOfValue(s[1]);
      PrintTwo(DigitValue(s[0]), DigitValue(s[1]));
      assert s == [s[0], s[1]];
    } else if |s| == 3 {
      DigitCharOfValue(s[1]);
      DigitCharOfValue(s[2]);
      PrintThree(DigitValue(s[0]), DigitValue(s[1]), DigitValue(s[2]));
      assert s == [s[0], s[1], s[2]];
    } else {
      assert s == [s[0]];
    }
  }

  lemma PrintTwo(x: int, y: int)
    requires 1 <= x < 10 && 0 <= y < 10
    ensures PrintOctet(10 * x + y) == [DigitChar(x), DigitChar(y)]
  {
    assert (10 * x + y) / 10 == x;
  }

  lemma PrintThree(x: int, y: int, z: int)
    requires 1 <= x < 10 && 0 <= y < 10 && 0 <= z < 10 && 100 * x + 10 * y + z < 256
    ensures PrintOctet(100 * x + 10 * y + z) == [DigitChar(x), DigitChar(y), DigitChar(z)]
  {
    var b := 100 * x + 10 * y + z;
    assert b / 100 == x;
    assert b / 10 == 10 * x + y;
  }

  lemma DigitCharOfValue(c: char)
    requires IsDigit(c)
    ensures DigitChar(DigitValue(c)) == c
  {
  }

  /** Printed addresses are at most 15 characters of digits and dots, with no blank ends. */
  lemma PrintIpv4Shape(address: seq<Byte>)
    requires |address| == 4
    ensures 7 <= |PrintIpv4(address)| <= 15
    ensures forall c :: c in PrintIpv4(address) ==> IsDigit(c) || c == '.'
    ensures IsAscii(PrintIpv4(address)) && Trimmed(PrintIpv4(address))
  {
    var a, b, c, d := PrintOctet(address[0]), PrintOctet(address[1]), PrintOctet(address[2]), PrintOctet(address[3]);
    OctetRoundTrip(address[0]);
    OctetRoundTrip(address[1]);
    OctetRoundTrip(address[2]);
    OctetRoundTrip(address[3]);
    assert [a, b, c, d][1..] == [b, c, d] && [b, c, d][1..] == [c, d] && [c, d][1..] == [d];
    assert Join([c, d], ".") == c + "." + d;
    assert Join([b, c, d], ".") == b + "." + (c + "." + d);
    assert PrintIpv4(address) == a + "." + (b + "." + (c + "." + d));
  }

  /** Parsing inverts printing over all 2^32 addresses. */
  lemma PrintThenParse(address: seq<Byte>)
    requires |address| == 4
    ensures ParseIpv4(PrintIpv4(address)) == Some(address)
  {
    PrintIpv4Shape(address);
    AsciiByteLen(PrintIpv4(address));
    var fields := [PrintOctet(address[0]), PrintOctet(address[1]), PrintOctet(address[2]), PrintOctet(address[3])];
    forall i | 0 <= i < 4 ensures '.' !in fields[i] && ParseOctet(fields[i]) == Some(address[i]) {
      OctetRoundTrip(address[i]);
    }
    SplitJoin(fields, '.');
    assert [address[0], address[1], address[2], address[3]] == address;
  }

  /** Printing inverts parsing: an address has one spelling. */
  lemma ParseThenPrint(s: string)
    requires ParseIpv4(s).Some?
    ensures PrintIpv4(ParseIpv4(s).value) == s
  {
    var fields := Split(s, '.');
    var address := ParseIpv4(s).value;
    OctetSpelling(fields[0]);
    OctetSpelling(fields[1]);
    OctetSpelling(fields[2]);
    OctetSpelling(fields[3]);
    assert fields == [PrintOctet(address[0]), PrintOctet(address[1]), PrintOctet(address[2]), PrintOctet(address[3])];
    JoinSplit(s, '.');
  }

  /** The accepted language of `normalize_ip`, and that on it the function is plain trimming. */
  lemma NormalizeIpExact(input: string)
    ensures NormalizeIp(input).Ok? <==>
              exists address: seq<Byte> :: |address| == 4 && !Excluded(address) && Trim(input) == PrintIpv4(address)
    ensures NormalizeIp(input).Ok? ==> NormalizeIp(input).value == Trim(input)
    ensures NormalizeIp(input) == Err(MulticastOrUnspecified) <==>
              exists address: seq<Byte> :: |address| == 4 && Excluded(address) && Trim(input) == PrintIpv4(address)
  {
    var s := Trim(input);
    if ParseIpv4(s).Some? {
      ParseThenPrint(s);
      var address := ParseIpv4(s).value;
      assert s == PrintIpv4(address);
    }
    forall address: seq<Byte> | |address| == 4 && s == PrintIpv4(address)
      ensures ParseIpv4(s) == Some(address)
    {
      PrintThenParse(address);
    }
  }

  /** An accepted output is stable under normalising it again. */
  lemma NormalizeIpIdempotent(input: string)
    requires NormalizeIp(input).Ok?
    ensures NormalizeIp(NormalizeIp(input).value) == NormalizeIp(input)
  {
    NormalizeIpExact(input);
    TrimIdempotent(input);
  }
}
