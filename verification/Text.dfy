/** Text helpers with the meaning Rust's standard library gives them: a `string` is a sequence of
    Unicode scalar values, while `str::len` counts UTF-8 bytes and `str::trim` removes every
    character of the Unicode property White_Space. */
module Text {

  /** Unicode White_Space, the class `str::trim` and `char::is_whitespace` use. */
  predicate IsWhitespace(c: char) {
    var n := c as int;
    || 0x9 <= n <= 0xD || n == 0x20 || n == 0x85 || n == 0xA0 || n == 0x1680
    || 0x2000 <= n <= 0x200A || n == 0x2028 || n == 0x2029 || n == 0x202F || n == 0x205F || n == 0x3000
  }

  /** Unicode general category Cc, the class `char::is_control` uses. */
  predicate IsControl(c: char) {
    var n := c as int;
    n <= 0x1F || 0x7F <= n <= 0x9F
  }

  predicate IsDigit(c: char) {
    '0' <= c <= '9'
  }

  predicate IsAsciiAlphanumeric(c: char) {
    IsDigit(c) || 'A' <= c <= 'Z' || 'a' <= c <= 'z'
  }

  predicate IsAscii(s: string) {
    forall i :: 0 <= i < |s| ==> s[i] as int < 0x80
  }

  function Utf8Width(c: char): nat {
    var n := c as int;
    if n < 0x80 then 1 else if n < 0x800 then 2 else if n < 0x1_0000 then 3 else 4
  }

  /** `str::len`: the number of UTF-8 bytes. */
  function ByteLen(s: string): nat {
    if s == [] then 0 else Utf8Width(s[0]) + ByteLen(s[1..])
  }

  function TrimStart(s: string): string {
    if s == [] || !IsWhitespace(s[0]) then s else TrimStart(s[1..])
  }

  function TrimEnd(s: string): string {
    if s == [] || !IsWhitespace(s[|s| - 1]) then s else TrimEnd(s[..|s| - 1])
  }

  function Trim(s: string): string {
    TrimEnd(TrimStart(s))
  }

  predicate Blank(s: string) {
    forall i :: 0 <= i < |s| ==> IsWhitespace(s[i])
  }

  /** Neither end of the text is white space. */
  predicate Trimmed(s: string) {
    s == [] || (!IsWhitespace(s[0]) && !IsWhitespace(s[|s| - 1]))
  }

  lemma {:induction false} TrimStartSplits(s: string)
    ensures exists lead :: Blank(lead) && s == lead + TrimStart(s)
    ensures TrimStart(s) == [] || !IsWhitespace(TrimStart(s)[0])
  {
    if s == [] || !IsWhitespace(s[0]) {
      assert Blank([]) && s == [] + TrimStart(s);
    } else {
      TrimStartSplits(s[1..]);
      var lead :| Blank(lead) && s[1..] == lead + TrimStart(s[1..]);
      assert Blank([s[0]] + lead) && s == ([s[0]] + lead) + TrimStart(s);
    }
  }

  lemma {:induction false} TrimEndSplits(s: string)
    ensures exists trail :: Blank(trail) && s == TrimEnd(s) + trail
    ensures TrimEnd(s) == [] || !IsWhitespace(TrimEnd(s)[|TrimEnd(s)| - 1])
  {
    if s == [] || !IsWhitespace(s[|s| - 1]) {
      assert Blank([]) && s == TrimEnd(s) + [];
    } else {
      var init := s[..|s| - 1];
      TrimEndSplits(init);
      var trail :| Blank(trail) && init == TrimEnd(init) + trail;
      assert Blank(trail + [s[|s| - 1]]) && s == TrimEnd(s) + (trail + [s[|s| - 1]]);
    }
  }

  lemma Reassociate(a: string, b: string, c: string)
    ensures a + (b + c) == a + b + c
  {
  }

  lemma TrimIsTrimmed(s: string)
    ensures Trimmed(Trim(s))
  {
    TrimStartSplits(s);
    TrimEndSplits(TrimStart(s));
    var trail :| Blank(trail) && TrimStart(s) == Trim(s) + trail;
    if Trim(s) != [] {
      assert TrimStart(s)[0] == Trim(s)[0];
    }
  }

  /** `trim` cuts the text into white space, the result, and white space, and the result has
      no white space at either end. */
  lemma TrimSplits(s: string)
    ensures exists lead, trail :: Blank(lead) && Blank(trail) && s == lead + Trim(s) + trail
    ensures Trimmed(Trim(s))
  {
    TrimStartSplits(s);
    TrimEndSplits(TrimStart(s));
    var lead :| Blank(lead) && s == lead + TrimStart(s);
    var trail :| Blank(trail) && TrimStart(s) == Trim(s) + trail;
    Reassociate(lead, Trim(s), trail);
    TrimIsTrimmed(s);
  }

  lemma {:induction false} TrimmedIsFixed(s: string)
    requires Trimmed(s)
    ensures Trim(s) == s
  {
  }

  lemma TrimIdempotent(s: string)
    ensures Trim(Trim(s)) == Trim(s)
  {
    TrimSplits(s);
    TrimmedIsFixed(Trim(s));
  }

  lemma {:induction false} AsciiByteLen(s: string)
    ensures |s| <= ByteLen(s)
    ensures IsAscii(s) <==> ByteLen(s) == |s|
  {
    if s != [] {
      AsciiByteLen(s[1..]);
      if IsAscii(s) {
        assert IsAscii(s[1..]);
      } else if s[0] as int < 0x80 {
        var i :| 0 <= i < |s| && s[i] as int >= 0x80;
        assert s[1..][i - 1] == s[i];
        assert !IsAscii(s[1..]);
      }
    }
  }

  /** Splits at every separator, as `str::split` does: n separators give n + 1 fields. */
  function Split(s: string, sep: char): (fields: seq<string>)
    ensures |fields| >= 1
    ensures forall i :: 0 <= i < |fields| ==> sep !in fields[i]
  {
    if s == [] then [[]]
    else
      var rest := Split(s[1..], sep);
      if s[0] == sep then [[]] + rest else [[s[0]] + rest[0]] + rest[1..]
  }

  function Join(fields: seq<string>, sep: string): string {
    if fields == [] then []
    else if |fields| == 1 then fields[0]
    else fields[0] + sep + Join(fields[1..], sep)
  }

  lemma {:induction false} JoinSplit(s: string, sep: char)
    ensures Join(Split(s, sep), [sep]) == s
  {
    if s != [] {
      JoinSplit(s[1..], sep);
      var rest := Split(s[1..], sep);
      if s[0] == sep {
        assert ([[]] + rest)[1..] == rest;
        assert s == [] + [sep] + s[1..];
      } else if |rest| == 1 {
        assert s == [s[0]] + s[1..];
      } else {
        var all := [[s[0]] + rest[0]] + rest[1..];
        assert all[1..] == rest[1..];
        assert s == ([s[0]] + rest[0]) + [sep] + Join(rest[1..], [sep]);
      }
    }
  }

  lemma {:induction false} SplitField(head: string, tail: string, sep: char)
    requires sep !in head
    ensures Split(head + [sep] + tail, sep) == [head] + Split(tail, sep)
  {
    var s := head + [sep] + tail;
    if head == [] {
      assert s[1..] == tail;
    } else {
      assert s[1..] == head[1..] + [sep] + tail;
      SplitField(head[1..], tail, sep);
      assert ([head[1..]] + Split(tail, sep))[1..] == Split(tail, sep);
      assert [s[0]] + head[1..] == head;
    }
  }

  lemma {:induction false} SplitWhole(s: string, sep: char)
    requires sep !in s
    ensures Split(s, sep) == [s]
  {
    if s != [] {
      SplitWhole(s[1..], sep);
      assert [s[0]] + s[1..] == s;
    }
  }

  lemma {:induction false} SplitJoin(fields: seq<string>, sep: char)
    requires |fields| >= 1
    requires forall i :: 0 <= i < |fields| ==> sep !in fields[i]
    ensures Split(Join(fields, [sep]), sep) == fields
  {
    if |fields| == 1 {
      SplitWhole(fields[0], sep);
    } else {
      SplitJoin(fields[1..], sep);
      SplitField(fields[0], Join(fields[1..], [sep]), sep);
      assert [fields[0]] + fields[1..] == fields;
    }
  }
}
