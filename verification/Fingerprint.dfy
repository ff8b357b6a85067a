/** SSH host-key fingerprints: `SHA256:` and the unpadded Base 64 of a 32-byte digest. */
module Fingerprint {
  import opened Results
  import opened Text
  import opened Mac
  import opened Base64

  datatype FingerprintError = BadPrefix | BadEncoding | NotSha256

  const PREFIX := "SHA256:"

  type Hash = h: seq<Byte> | |h| == 32 witness seq(32, _ => 0)

  /** The text the connection code prints for an observed key. */
  function PrintFingerprint(hash: seq<Byte>): string {
    PREFIX + Encode(hash)
  }

  function DecodeEither(encoded: string): Option<seq<Byte>> {
    match DecodeNoPad(encoded)
    case Some(bytes) => Some(bytes)
    case None => DecodePadded(encoded)
  }

  function ValidateFingerprint(input: string): Result<string, FingerprintError> {
    var value := Trim(input);
    if !(PREFIX <= value) then Err(BadPrefix)
    else match DecodeEither(value[|PREFIX|..])
         case None => Err(BadEncoding)
         case Some(decoded) => if |decoded| != 32 then Err(NotSha256) else Ok(PrintFingerprint(decoded))
  }

  lemma PrintedShape(hash: Hash)
    ensures |PrintFingerprint(hash)| == 50 && Trimmed(PrintFingerprint(hash))
  {
    EncodeShape(hash);
    var s := PrintFingerprint(hash);
    assert s[49] == Encode(hash)[42];
  }

  lemma PrintInjective(a: seq<Byte>, b: seq<Byte>)
    requires PrintFingerprint(a) == PrintFingerprint(b)
    ensures a == b
  {
    assert PrintFingerprint(a)[7..] == Encode(a) && PrintFingerprint(b)[7..] == Encode(b);
    DecodeOfEncode(a);
    DecodeOfEncode(b);
  }

  /** The digest a submitted text stands for: after trimming it is the printed form of that
      digest, with or without the one '=' of padding. */
  ghost predicate StandsFor(input: string, hash: Hash) {
    Trim(input) == PrintFingerprint(hash) || Trim(input) == PrintFingerprint(hash) + "="
  }

  /** Trying both decoders reads exactly the two spellings of a digest: bare, or with one '='. */
  lemma DecodeEitherExact(encoded: string, hash: seq<Byte>)
    requires |hash| % 3 == 2
    ensures DecodeEither(encoded) == Some(hash) <==> encoded == Encode(hash) || encoded == Encode(hash) + "="
  {
    DecodeNoPadExact(encoded, hash);
    DecodeNoPadExact(Encode(hash), hash);
    DecodePaddedOne(encoded, hash);
    if DecodeNoPad(encoded).Some? && DecodeEither(encoded) != Some(hash) {
      assert encoded != Encode(hash) + "=";
    }
  }

  /** Over all strings: the accepted language and the canonical output, in both directions. */
  lemma ValidateFingerprintExact(input: string, hash: Hash)
    ensures ValidateFingerprint(input) == Ok(PrintFingerprint(hash)) <==> StandsFor(input, hash)
  {
    var value := Trim(input);
    var s := PrintFingerprint(hash);
    if PREFIX <= value {
      var encoded := value[7..];
      assert value == PREFIX + encoded;
      DecodeEitherExact(encoded, hash);
      assert value == s <==> encoded == Encode(hash) by {
        assert s[7..] == Encode(hash);
      }
      assert value == s + "=" <==> encoded == Encode(hash) + "=" by {
        assert (s + "=")[7..] == Encode(hash) + "=";
        assert s + "=" == PREFIX + (Encode(hash) + "=");
      }
      if ValidateFingerprint(input) == Ok(s) {
        PrintInjective(DecodeEither(encoded).value, hash);
      }
    } else {
      assert PREFIX <= s && PREFIX <= s + "=";
    }
  }

  /** Every accepted text stands for one digest, whose printed form is the 50-character output. */
  lemma ValidateFingerprintAccepts(input: string)
    requires ValidateFingerprint(input).Ok?
    ensures exists hash: Hash :: StandsFor(input, hash) && ValidateFingerprint(input).value == PrintFingerprint(hash)
    ensures |ValidateFingerprint(input).value| == 50
  {
    var hash: Hash := DecodeEither(Trim(input)[|PREFIX|..]).value;
    ValidateFingerprintExact(input, hash);
    PrintedShape(hash);
  }

  /** A printed fingerprint comes back unchanged, also after validating twice. */
  lemma PrintedIsAccepted(hash: Hash)
    ensures ValidateFingerprint(PrintFingerprint(hash)) == Ok(PrintFingerprint(hash))
  {
    PrintedShape(hash);
    TrimmedIsFixed(PrintFingerprint(hash));
    ValidateFingerprintExact(PrintFingerprint(hash), hash);
  }
}
