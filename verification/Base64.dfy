/** The Base 64 encoding of RFC 4648 section 4, without padding and with canonical padding, decoded
    strictly: unused trailing bits must be zero (section 3.5). */
module Base64 {
  import opened Results
  import opened Text
  import opened Mac

  type Sextet = v: int | 0 <= v < 64

  predicate IsSymbol(c: char) {
    IsAsciiAlphanumeric(c) || c == '+' || c == '/'
  }

  predicate AllSymbols(s: string) {
    forall i :: 0 <= i < |s| ==> IsSymbol(s[i])
  }

  function Symbol(v: Sextet): (c: char)
    ensures IsSymbol(c)
  {
    if v < 26 then (v + 'A' as int) as char
    else if v < 52 then (v - 26 + 'a' as int) as char
    else if v < 62 then (v - 52 + '0' as int) as char
    else if v == 62 then '+' else '/'
  }

  function Value(c: char): (v: Sextet)
    requires IsSymbol(c)
    ensures Symbol(v) == c
  {
    if 'A' <= c <= 'Z' then c as int - 'A' as int
    else if 'a' <= c <= 'z' then c as int - 'a' as int + 26
    else if IsDigit(c) then c as int - '0' as int + 52
    else if c == '+' then 62 else 63
  }

  lemma ValueOfSymbol(v: Sextet)
    ensures Value(Symbol(v)) == v
  {
  }

  /** One to three bytes as two to four symbols. */
  function EncodeGroup(b: seq<Byte>): string
    requires 1 <= |b| <= 3
  {
    if |b| == 1 then [Symbol(b[0] / 4), Symbol(b[0] % 4 * 16)]
    else if |b| == 2 then [Symbol(b[0] / 4), Symbol(b[0] % 4 * 16 + b[1] / 16), Symbol(b[1] % 16 * 4)]
    else [Symbol(b[0] / 4), Symbol(b[0] % 4 * 16 + b[1] / 16), Symbol(b[1] % 16 * 4 + b[2] / 64), Symbol(b[2] % 64)]
  }

  function Encode(b: seq<Byte>): string {
    if b == [] then []
    else if |b| <= 3 then EncodeGroup(b)
    else EncodeGroup(b[..3]) + Encode(b[3..])
  }

  /** Two to four symbols as one to three bytes; unused bits that are not zero are an error. */
  function DecodeGroup(g: string): Option<seq<Byte>>
    requires 2 <= |g| <= 4
  {
    if !AllSymbols(g) then None
    else
      var first: Byte := Value(g[0]) * 4 + Value(g[1]) / 16;
      if |g| == 2 then
        if Value(g[1]) % 16 == 0 then Some([first]) else None
      else
        var second: Byte := Value(g[1]) % 16 * 16 + Value(g[2]) / 4;
        if |g| == 3 then
          if Value(g[2]) % 4 == 0 then Some([first, second]) else None
        else
          Some([first, second, (Value(g[2]) % 4 * 64 + Value(g[3])) as Byte])
  }

  /** Decodes symbols only; a final group of one symbol is an error. */
  function DecodeNoPad(s: string): Option<seq<Byte>> {
    if s == [] then Some([])
    else if |s| == 1 then None
    else if |s| <= 4 then DecodeGroup(s)
    else
      match (DecodeGroup(s[..4]), DecodeNoPad(s[4..]))
      case (Some(group), Some(rest)) => Some(group + rest)
      case _ => None
  }

  /** n signs of padding. */
  function Equals(n: nat): string {
    if n == 0 then "" else "=" + Equals(n - 1)
  }

  /** The number of trailing '=' the decoder strips, at most two. */
  function Padding(s: string): (n: nat)
    ensures n <= 2 && n <= |s|
  {
    if |s| >= 1 && s[|s| - 1] == '=' then
      if |s| >= 2 && s[|s| - 2] == '=' then 2 else 1
    else 0
  }

  /** Decodes with canonical padding: the length is a multiple of four. */
  function DecodePadded(s: string): Option<seq<Byte>> {
    if |s| % 4 != 0 then None else DecodeNoPad(s[..|s| - Padding(s)])
  }

  lemma SplitAt16(high: nat, low: nat)
    requires low < 16
    ensures (high * 16 + low) / 16 == high && (high * 16 + low) % 16 == low
  {
  }

  lemma SplitAt4(high: nat, low: nat)
    requires low < 4
    ensures (high * 4 + low) / 4 == high && (high * 4 + low) % 4 == low
  {
  }

  lemma OneByteGroup(a: Byte)
    ensures DecodeGroup(EncodeGroup([a])) == Some([a])
  {
    ValueOfSymbol(a / 4);
    ValueOfSymbol(a % 4 * 16);
  }

  lemma TwoByteGroup(a: Byte, b: Byte)
    ensures DecodeGroup(EncodeGroup([a, b])) == Some([a, b])
  {
    ValueOfSymbol(a / 4);
    ValueOfSymbol(a % 4 * 16 + b / 16);
    ValueOfSymbol(b % 16 * 4);
    SplitAt16(a % 4, b / 16);
    SplitAt4(b % 16, 0);
  }

  lemma ThreeSymbols(g: string)
    requires |g| == 4 && AllSymbols(g)
    ensures DecodeGroup(g) ==
              Some([Value(g[0]) * 4 + Value(g[1]) / 16, Value(g[1]) % 16 * 16 + Value(g[2]) / 4,
                    Value(g[2]) % 4 * 64 + Value(g[3])])
  {
  }

  lemma ThreeSextets(a: Byte, b: Byte, c: Byte)
    ensures a / 4 * 4 + (a % 4 * 16 + b / 16) / 16 == a
    ensures (a % 4 * 16 + b / 16) % 16 * 16 + (b % 16 * 4 + c / 64) / 4 == b
    ensures (b % 16 * 4 + c / 64) % 4 * 64 + c % 64 == c
  {
    SplitAt16(a % 4, b / 16);
    SplitAt4(b % 16, c / 64);
  }

  lemma ThreeByteGroup(a: Byte, b: Byte, c: Byte)
    ensures DecodeGroup(EncodeGroup([a, b, c])) == Some([a, b, c])
  {
    ValueOfSymbol(a / 4);
    ValueOfSymbol(a % 4 * 16 + b / 16);
    ValueOfSymbol(b % 16 * 4 + c / 64);
    ValueOfSymbol(c % 64);
    ThreeSextets(a, b, c);
    ThreeSymbols([Symbol(a / 4), Symbol(a % 4 * 16 + b / 16), Symbol(b % 16 * 4 + c / 64), Symbol(c % 64)]);
  }

  lemma DecodeOfEncodeGroup(b: seq<Byte>)
    requires 1 <= |b| <= 3
    ensures |EncodeGroup(b)| == |b| + 1
    ensures DecodeGroup(EncodeGroup(b)) == Some(b)
  {
    if |b| == 1 {
      OneByteGroup(b[0]);
      assert b == [b[0]];
    } else if |b| == 2 {
      TwoByteGroup(b[0], b[1]);
      assert b == [b[0], b[1]];
    } else {
      ThreeByteGroup(b[0], b[1], b[2]);
      assert b == [b[0], b[1], b[2]];
    }
  }

  lemma EncodeOfDecodeGroup(g: string)
    requires 2 <= |g| <= 4 && DecodeGroup(g).Some?
    ensures |DecodeGroup(g).value| == |g| - 1
    ensures EncodeGroup(DecodeGroup(g).value) == g
  {
    var b := DecodeGroup(g).value;
    assert Symbol(Value(g[0])) == g[0] && Symbol(Value(g[1])) == g[1];
    assert b[0] / 4 == Value(g[0]) && b[0] % 4 == Value(g[1]) / 16;
    if |g| >= 3 {
      assert Symbol(Value(g[2])) == g[2];
      assert b[1] / 16 == Value(g[1]) % 16 && b[1] % 16 == Value(g[2]) / 4;
      if |g| == 4 {
        assert Symbol(Value(g[3])) == g[3];
        assert b[2] / 64 == Value(g[2]) % 4 && b[2] % 64 == Value(g[3]);
      }
    }
    assert EncodeGroup(b) == g;
  }

  /** Decoding recovers every byte string. */
  lemma {:induction false} DecodeOfEncode(b: seq<Byte>)
    ensures DecodeNoPad(Encode(b)) == Some(b)
  {
    if b == [] {
    } else if |b| <= 3 {
      DecodeOfEncodeGroup(b);
    } else {
      DecodeOfEncodeGroup(b[..3]);
      DecodeOfEncode(b[3..]);
      EncodeShape(b[3..]);
      assert Encode(b)[..4] == EncodeGroup(b[..3]);
      assert Encode(b)[4..] == Encode(b[3..]);
      assert b[..3] + b[3..] == b;
    }
  }

  /** Every text that decodes is the encoding of what it decodes to. */
  lemma {:induction false} EncodeOfDecode(s: string)
    requires DecodeNoPad(s).Some?
    ensures Encode(DecodeNoPad(s).value) == s
    ensures AllSymbols(s)
    ensures s != [] ==> DecodeNoPad(s).value != []
  {
    if s == [] {
    } else if |s| <= 4 {
      EncodeOfDecodeGroup(s);
    } else {
      EncodeOfDecodeGroup(s[..4]);
      EncodeOfDecode(s[4..]);
      var b := DecodeNoPad(s).value;
      assert b[..3] == DecodeGroup(s[..4]).value;
      assert b[3..] == DecodeNoPad(s[4..]).value;
      assert s[..4] + s[4..] == s;
    }
  }

  lemma {:induction false} EncodeShape(b: seq<Byte>)
    ensures |Encode(b)| == |b| / 3 * 4 + if |b| % 3 == 0 then 0 else |b| % 3 + 1
    ensures AllSymbols(Encode(b))
  {
    if |b| > 3 {
      EncodeShape(b[3..]);
    }
  }

  /** The padded decoder reads exactly the encoding of some bytes followed by the '=' that make the
      length a multiple of four. */
  lemma DecodePaddedExact(s: string, b: seq<Byte>)
    ensures DecodePadded(s) == Some(b) <==>
              |s| % 4 == 0 && exists n: nat :: n <= 2 && s == Encode(b) + Equals(n)
  {
    if DecodePadded(s) == Some(b) {
      var n := Padding(s);
      EncodeOfDecode(s[..|s| - n]);
      EqualsTail(s);
      assert s == Encode(b) + Equals(n);
    }
    if |s| % 4 == 0 && exists n: nat :: n <= 2 && s == Encode(b) + Equals(n) {
      var n: nat :| n <= 2 && s == Encode(b) + Equals(n);
      EncodeShape(b);
      PaddingOfEncoded(Encode(b), n);
      DecodeOfEncode(b);
    }
  }

  lemma SignsAre()
    ensures Equals(0) == "" && Equals(1) == "=" && Equals(2) == "=="
  {
    assert Equals(1) == "=" + Equals(0);
    assert Equals(2) == "=" + Equals(1);
  }

  lemma EqualsTail(s: string)
    ensures s == s[..|s| - Padding(s)] + Equals(Padding(s))
  {
    SignsAre();
  }

  lemma SymbolIsNoSign(c: char)
    requires IsSymbol(c)
    ensures c != '='
  {
  }

  lemma PaddingCounts(s: string, n: nat)
    requires n <= 2 && n <= |s|
    requires forall i :: |s| - n <= i < |s| ==> s[i] == '='
    requires |s| > n ==> s[|s| - n - 1] != '='
    ensures Padding(s) == n
  {
  }

  lemma PaddingOfEncoded(body: string, n: nat)
    requires n <= 2 && AllSymbols(body)
    ensures Padding(body + Equals(n)) == n
    ensures (body + Equals(n))[..|body + Equals(n)| - n] == body
  {
    SignsAre();
    var s := body + Equals(n);
    assert s[..|s| - n] == body;
    if body != [] {
      assert s[|body| - 1] == body[|body| - 1];
      SymbolIsNoSign(body[|body| - 1]);
    }
    PaddingCounts(s, n);
  }

  /** Without padding: the decoder reads exactly the encoding. */
  lemma DecodeNoPadExact(s: string, b: seq<Byte>)
    ensures DecodeNoPad(s) == Some(b) <==> s == Encode(b)
    ensures DecodeNoPad(s + "=") == None
  {
    DecodeOfEncode(b);
    if DecodeNoPad(s).Some? {
      EncodeOfDecode(s);
    }
    assert (s + "=")[|s|] == '=';
    if DecodeNoPad(s + "=").Some? {
      EncodeOfDecode(s + "=");
    }
  }

  /** With padding, for a final group of two bytes: the encoding and one sign. */
  lemma DecodePaddedOne(s: string, b: seq<Byte>)
    requires |b| % 3 == 2
    ensures DecodePadded(s) == Some(b) <==> s == Encode(b) + "="
  {
    LastGroupOfTwo(b);
    DecodePaddedExact(s, b);
    OnlyOneSign(s, Encode(b), DecodePadded(s) == Some(b));
  }

  lemma OnlyOneSign(s: string, body: string, accepted: bool)
    requires |body| % 4 == 3
    requires accepted <==> |s| % 4 == 0 && exists n: nat :: n <= 2 && s == body + Equals(n)
    ensures accepted <==> s == body + "="
  {
    EqualsLength(0);
    EqualsLength(1);
    EqualsLength(2);
    assert Equals(1) == "=";
    if s == body + "=" {
      assert s == body + Equals(1);
    }
  }

  lemma LastGroupOfTwo(b: seq<Byte>)
    requires |b| % 3 == 2
    ensures |Encode(b)| % 4 == 3
  {
    EncodeShape(b);
    FourTimesPlusThree(|b| / 3);
  }

  lemma FourTimesPlusThree(q: nat)
    ensures (q * 4 + 3) % 4 == 3
  {
  }

  lemma EqualsLength(n: nat)
    ensures |Equals(n)| == n
  {
  }
}
