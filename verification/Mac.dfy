/** MAC addresses: the canonicaliser and an independent, positional reading of the same text. */
module Mac {
  import opened Results
  import opened Text

  type Byte = b: int | 0 <= b < 256

  datatype MacError = BadOctets | BadLength | AllZero | Multicast

  predicate IsHex(c: char) {
    IsDigit(c) || 'A' <= c <= 'F' || 'a' <= c <= 'f'
  }

  predicate IsSeparator(c: char) {
    c == ':' || c == '-'
  }

  function HexValue(c: char): (v: int)
    requires IsHex(c)
    ensures 0 <= v < 16
  {
    if IsDigit(c) then c as int - '0' as int
    else if 'A' <= c <= 'F' then c as int - 'A' as int + 10
    else c as int - 'a' as int + 10
  }

  /** The upper-case digit the `{:02X}` format prints. */
  function HexDigit(v: int): (c: char)
    requires 0 <= v < 16
    ensures IsHex(c) && HexValue(c) == v
  {
    if v < 10 then (v + '0' as int) as char else (v - 10 + 'A' as int) as char
  }

  /** The regular expression: n octets of two hexadecimal digits with one separator between. */
  predicate Groups(s: string, n: nat)
    requires n >= 1
  {
    && |s| == 3 * n - 1
    && IsHex(s[0]) && IsHex(s[1])
    && (n > 1 ==> IsSeparator(s[2]) && Groups(s[3..], n - 1))
  }

  /** `value.replace([':', '-'], "")`. */
  function RemoveSeparators(s: string): string {
    if s == [] then []
    else if IsSeparator(s[0]) then RemoveSeparators(s[1..])
    else [s[0]] + RemoveSeparators(s[1..])
  }

  /** The compact twelve-digit form `normalize_mac` works on. */
  function Compact(value: string): (r: Result<string, MacError>)
    ensures r.Ok? ==> |r.value| == 12 && forall i :: 0 <= i < 12 ==> IsHex(r.value[i])
  {
    if ByteLen(value) == 17 then
      if |value| == 17 && Groups(value, 6) then
        RemoveGroups(value, 6);
        Ok(RemoveSeparators(value))
      else Err(BadOctets)
    else if ByteLen(value) == 12 && forall i :: 0 <= i < |value| ==> IsHex(value[i]) then
      AsciiByteLen(value);
      Ok(value)
    else Err(BadLength)
  }

  function OctetAt(compact: string, i: nat): Byte
    requires 2 * i + 1 < |compact| && IsHex(compact[2 * i]) && IsHex(compact[2 * i + 1])
  {
    16 * HexValue(compact[2 * i]) + HexValue(compact[2 * i + 1])
  }

  predicate IsAllZero(bytes: seq<Byte>) {
    forall i :: 0 <= i < |bytes| ==> bytes[i] == 0
  }

  /** The individual/group bit: the low bit of the first octet. */
  predicate IsMulticast(bytes: seq<Byte>) {
    |bytes| > 0 && bytes[0] % 2 != 0
  }

  /** The colon-separated upper-case form. */
  function Render(bytes: seq<Byte>): string {
    if bytes == [] then []
    else if |bytes| == 1 then [HexDigit(bytes[0] / 16), HexDigit(bytes[0] % 16)]
    else [HexDigit(bytes[0] / 16), HexDigit(bytes[0] % 16), ':'] + Render(bytes[1..])
  }

  function NormalizeMac(input: string): Result<string, MacError> {
    var value := Trim(input);
    match Compact(value)
    case Err(e) => Err(e)
    case Ok(compact) =>
      var bytes: seq<Byte> := seq(6, i requires 0 <= i < 6 => OctetAt(compact, i));
      if IsAllZero(bytes) then Err(AllZero)
      else if IsMulticast(bytes) then Err(Multicast)
      else Ok(Render(bytes))
  }

  /** The six octets a text denotes, read by position from the text as written: twelve digits,
      or two digits at every third place with a separator after the first five pairs. */
  function Denoted(text: string): Option<seq<Byte>> {
    if |text| == 12 && forall i :: 0 <= i < 12 ==> IsHex(text[i]) then
      Some(seq(6, i requires 0 <= i < 6 => OctetAt(text, i)))
    else if && |text| == 17
            && (forall i :: 0 <= i < 6 ==> IsHex(text[3 * i]) && IsHex(text[3 * i + 1]))
            && (forall i :: 0 <= i < 5 ==> IsSeparator(text[3 * i + 2])) then
      Some(seq(6, i requires 0 <= i < 6 =>
        (16 * HexValue(text[3 * i]) + HexValue(text[3 * i + 1])) as Byte))
    else None
  }

  lemma {:induction false} GroupsPositions(s: string, n: nat)
    requires n >= 1 && |s| == 3 * n - 1
    ensures Groups(s, n) <==>
              && (forall i :: 0 <= i < n ==> IsHex(s[3 * i]) && IsHex(s[3 * i + 1]))
              && (forall i :: 0 <= i < n - 1 ==> IsSeparator(s[3 * i + 2]))
  {
    if n == 1 {
    } else {
      var t := s[3..];
      GroupsPositions(t, n - 1);
      forall i | 0 <= i < n - 1
        ensures t[3 * i] == s[3 * (i + 1)] && t[3 * i + 1] == s[3 * (i + 1) + 1]
        ensures i < n - 2 ==> t[3 * i + 2] == s[3 * (i + 1) + 2]
      {
      }
      if Groups(s, n) {
        forall i | 0 <= i < n ensures IsHex(s[3 * i]) && IsHex(s[3 * i + 1]) {
          if i > 0 { assert IsHex(t[3 * (i - 1)]) && IsHex(t[3 * (i - 1) + 1]); }
        }
        forall i | 0 <= i < n - 1 ensures IsSeparator(s[3 * i + 2]) {
          if i > 0 { assert IsSeparator(t[3 * (i - 1) + 2]); }
        }
      }
      if && (forall i :: 0 <= i < n ==> IsHex(s[3 * i]) && IsHex(s[3 * i + 1]))
         && (forall i :: 0 <= i < n - 1 ==> IsSeparator(s[3 * i + 2])) {
        assert IsHex(s[3 * 0]) && IsHex(s[3 * 0 + 1]) && IsSeparator(s[3 * 0 + 2]);
        forall i | 0 <= i < n - 1 ensures IsHex(t[3 * i]) && IsHex(t[3 * i + 1]) {
          assert IsHex(s[3 * (i + 1)]) && IsHex(s[3 * (i + 1) + 1]);
        }
        forall i | 0 <= i < n - 2 ensures IsSeparator(t[3 * i + 2]) {
          assert IsSeparator(s[3 * (i + 1) + 2]);
        }
      }
    }
  }

  lemma {:induction false} RemoveGroups(s: string, n: nat)
    requires n >= 1 && Groups(s, n)
    ensures |RemoveSeparators(s)| == 2 * n
    ensures forall i :: 0 <= i < 2 * n ==> IsHex(RemoveSeparators(s)[i])
    ensures forall i :: 0 <= i < n ==>
              RemoveSeparators(s)[2 * i] == s[3 * i] && RemoveSeparators(s)[2 * i + 1] == s[3 * i + 1]
  {
    var one := s[1..];
    var two := one[1..];
    assert RemoveSeparators(s) == [s[0], s[1]] + RemoveSeparators(two) by {
      assert RemoveSeparators(s) == [s[0]] + RemoveSeparators(one);
      assert RemoveSeparators(one) == [s[1]] + RemoveSeparators(two);
    }
    if n == 1 {
      assert two == [];
    } else {
      var rest := s[3..];
      assert two[1..] == rest;
      assert RemoveSeparators(two) == RemoveSeparators(rest);
      RemoveGroups(rest, n - 1);
      forall i | 0 <= i < n
        ensures RemoveSeparators(s)[2 * i] == s[3 * i] && RemoveSeparators(s)[2 * i + 1] == s[3 * i + 1]
      {
        if i > 0 {
          assert RemoveSeparators(rest)[2 * (i - 1)] == rest[3 * (i - 1)];
          assert RemoveSeparators(rest)[2 * (i - 1) + 1] == rest[3 * (i - 1) + 1];
        }
      }
    }
  }

  lemma {:induction false} RenderPositions(bytes: seq<Byte>)
    requires bytes != []
    ensures |Render(bytes)| == 3 * |bytes| - 1
    ensures forall i :: 0 <= i < |bytes| ==>
              Render(bytes)[3 * i] == HexDigit(bytes[i] / 16) && Render(bytes)[3 * i + 1] == HexDigit(bytes[i] % 16)
    ensures forall i :: 0 <= i < |bytes| - 1 ==> Render(bytes)[3 * i + 2] == ':'
  {
    if |bytes| > 1 {
      var rest := bytes[1..];
      RenderPositions(rest);
      forall i | 0 < i < |bytes|
        ensures Render(bytes)[3 * i] == HexDigit(bytes[i] / 16) && Render(bytes)[3 * i + 1] == HexDigit(bytes[i] % 16)
        ensures i < |bytes| - 1 ==> Render(bytes)[3 * i + 2] == ':'
      {
        assert Render(bytes)[3 * i] == Render(rest)[3 * (i - 1)];
        assert Render(bytes)[3 * i + 1] == Render(rest)[3 * (i - 1) + 1];
        assert i < |bytes| - 1 ==> Render(bytes)[3 * i + 2] == Render(rest)[3 * (i - 1) + 2];
        assert rest[i - 1] == bytes[i];
      }
    }
  }

  /** What the canonical form contains, and that it is read back as the same six octets. */
  lemma RenderDenotes(bytes: seq<Byte>)
    requires |bytes| == 6
    ensures Denoted(Render(bytes)) == Some(bytes)
    ensures |Render(bytes)| == 17 && IsAscii(Render(bytes)) && Trimmed(Render(bytes))
    ensures forall c :: c in Render(bytes) ==> IsHex(c) || c == ':'
  {
    RenderPositions(bytes);
    var s := Render(bytes);
    forall k | 0 <= k < 17 ensures IsHex(s[k]) || s[k] == ':' {
      var i := k / 3;
      assert k == 3 * i || k == 3 * i + 1 || k == 3 * i + 2;
      assert 0 <= i < 6;
      if k == 3 * i { assert s[3 * i] == HexDigit(bytes[i] / 16); }
      else if k == 3 * i + 1 { assert s[3 * i + 1] == HexDigit(bytes[i] % 16); }
      else { assert i < 5; assert s[3 * i + 2] == ':'; }
    }
    assert s[3 * 0] == HexDigit(bytes[0] / 16);
    assert s[3 * 5 + 1] == HexDigit(bytes[5] % 16);
    forall i | 0 <= i < 6 ensures IsHex(s[3 * i]) && IsHex(s[3 * i + 1]) {
    }
    forall i | 0 <= i < 5 ensures IsSeparator(s[3 * i + 2]) {
    }
    assert Denoted(s).Some?;
    forall i | 0 <= i < 6 ensures Denoted(s).value[i] == bytes[i] {
      assert Denoted(s).value[i] == 16 * HexValue(s[3 * i]) + HexValue(s[3 * i + 1]);
    }
    assert Denoted(s).value == bytes;
  }

  /** The stripping parser reads a text exactly when the positional reading does, and reads the
      same octets. */
  lemma CompactAgrees(value: string)
    ensures Compact(value).Ok? <==> Denoted(value).Some?
    ensures Compact(value).Ok? ==>
              forall i :: 0 <= i < 6 ==> OctetAt(Compact(value).value, i) == Denoted(value).value[i]
  {
    AsciiByteLen(value);
    if |value| == 17 {
      GroupsPositions(value, 6);
      if Groups(value, 6) {
        RemoveGroups(value, 6);
        HexIsAscii17(value);
      }
    } else if |value| == 12 && forall i :: 0 <= i < 12 ==> IsHex(value[i]) {
      assert IsAscii(value);
    }
  }

  lemma HexIsAscii17(value: string)
    requires |value| == 17 && Groups(value, 6)
    ensures IsAscii(value)
  {
    GroupsPositions(value, 6);
    forall k | 0 <= k < 17 ensures value[k] as int < 0x80 {
      var i := k / 3;
      assert k == 3 * i || k == 3 * i + 1 || k == 3 * i + 2;
      if k == 3 * i { assert IsHex(value[3 * i]); }
      else if k == 3 * i + 1 { assert IsHex(value[3 * i + 1]); }
      else { assert i < 5; assert IsSeparator(value[3 * i + 2]); }
    }
  }

  /** Over all strings: exactly which texts are accepted, what is returned, and which error each
      of the others gets, in terms of the octets the trimmed text denotes. */
  lemma NormalizeMacExact(input: string)
    ensures match Denoted(Trim(input))
            case None => NormalizeMac(input) == Err(if ByteLen(Trim(input)) == 17 then BadOctets else BadLength)
            case Some(bytes) =>
              NormalizeMac(input) ==
                if IsAllZero(bytes) then Err(AllZero)
                else if IsMulticast(bytes) then Err(Multicast)
                else Ok(Render(bytes))
  {
    var value := Trim(input);
    CompactAgrees(value);
    if Denoted(value).Some? {
      var bytes: seq<Byte> := seq(6, i requires 0 <= i < 6 => OctetAt(Compact(value).value, i));
      assert bytes == Denoted(value).value;
    }
  }

  /** The output is canonical: it denotes the octets of the input, and normalising it again
      changes nothing. */
  lemma NormalizeMacIdempotent(input: string)
    requires NormalizeMac(input).Ok?
    ensures var out := NormalizeMac(input).value;
            && NormalizeMac(out) == Ok(out)
            && Denoted(out) == Denoted(Trim(input))
            && |out| == 17 && IsAscii(out) && Trimmed(out)
  {
    NormalizeMacExact(input);
    var bytes := Denoted(Trim(input)).value;
    RenderDenotes(bytes);
    TrimmedIsFixed(Render(bytes));
    NormalizeMacExact(Render(bytes));
  }

  /** Two accepted spellings normalise to the same text exactly when they denote the same octets. */
  lemma NormalizeMacSameAddress(a: string, b: string)
    requires NormalizeMac(a).Ok? && NormalizeMac(b).Ok?
    ensures NormalizeMac(a) == NormalizeMac(b) <==> Denoted(Trim(a)) == Denoted(Trim(b))
  {
    NormalizeMacIdempotent(a);
    NormalizeMacIdempotent(b);
    NormalizeMacExact(a);
    NormalizeMacExact(b);
  }

  /** A text the canonicaliser leaves alone is the canonical spelling of a unicast address. */
  lemma CanonicalDenotes(a: string)
    requires NormalizeMac(a) == Ok(a)
    ensures Denoted(a).Some? && a == Render(Denoted(a).value)
    ensures !IsAllZero(Denoted(a).value) && !IsMulticast(Denoted(a).value)
  {
    NormalizeMacIdempotent(a);
    TrimmedIsFixed(a);
    NormalizeMacExact(a);
  }
}
