/** Detecting the router prompt at the end of the output collected so far. */
module Prompt {
  import opened Text

  /** `str::lines` before line endings are removed: each line keeps its '\n'. */
  function SplitInclusive(s: string): seq<string>
  {
    if s == [] then []
    else if s[0] == '\n' then [[s[0]]] + SplitInclusive(s[1..])
    else
      var rest := SplitInclusive(s[1..]);
      if rest == [] then [[s[0]]] else [[s[0]] + rest[0]] + rest[1..]
  }

  function StripLineEnd(line: string): string {
    if line == [] || line[|line| - 1] != '\n' then line
    else
      var body := line[..|line| - 1];
      if body == [] || body[|body| - 1] != '\r' then body else body[..|body| - 1]
  }

  /** The reverse search: the last line that is not blank, if any, must end in a prompt mark. */
  predicate SearchBack(lines: seq<string>) {
    if lines == [] then false
    else
      var line := TrimEnd(StripLineEnd(lines[|lines| - 1]));
      if Trim(line) == [] then SearchBack(lines[..|lines| - 1])
      else
        var trimmed := Trim(line);
        trimmed[|trimmed| - 1] == '>' || trimmed[|trimmed| - 1] == '#'
  }

  predicate HasPrompt(output: string) {
    SearchBack(SplitInclusive(output))
  }

  /** The simple test: some prompt mark is followed by white space only. */
  ghost predicate EndsInPrompt(output: string) {
    exists k :: 0 <= k < |output| && (output[k] == '>' || output[k] == '#') && Blank(output[k + 1..])
  }

  function Concat(lines: seq<string>): string {
    if lines == [] then [] else Concat(lines[..|lines| - 1]) + lines[|lines| - 1]
  }

  lemma {:induction false} ConcatCons(first: string, rest: seq<string>)
    ensures Concat([first] + rest) == first + Concat(rest)
  {
    var all := [first] + rest;
    if rest == [] {
      assert all[..0] == [];
    } else {
      assert all[..|all| - 1] == [first] + rest[..|rest| - 1];
      ConcatCons(first, rest[..|rest| - 1]);
    }
  }

  lemma {:induction false} SplitInclusiveConcat(s: string)
    ensures Concat(SplitInclusive(s)) == s
  {
    if s != [] {
      SplitInclusiveConcat(s[1..]);
      var rest := SplitInclusive(s[1..]);
      if s[0] == '\n' {
        ConcatCons([s[0]], rest);
      } else if rest == [] {
        ConcatCons([s[0]], []);
        assert [[s[0]]] + [] == [[s[0]]];
      } else {
        ConcatCons([s[0]] + rest[0], rest[1..]);
        ConcatCons(rest[0], rest[1..]);
        assert [rest[0]] + rest[1..] == rest;
      }
    }
  }

  lemma BlankTrims(s: string)
    ensures Trim(s) == [] <==> Blank(s)
  {
    TrimSplits(s);
    var lead, trail :| Blank(lead) && Blank(trail) && s == lead + Trim(s) + trail;
    if Trim(s) != [] {
      assert s[|lead|] == Trim(s)[0];
    }
  }

  /** A prompt mark ends a text exactly when it is the last character left after trimming. */
  lemma EndsInPromptTrim(s: string)
    ensures EndsInPrompt(s) <==> Trim(s) != [] && (Trim(s)[|Trim(s)| - 1] == '>' || Trim(s)[|Trim(s)| - 1] == '#')
  {
    TrimSplits(s);
    var t := Trim(s);
    var lead, trail :| Blank(lead) && Blank(trail) && s == lead + t + trail;
    BlankTrims(s);
    if t != [] {
      var k := |lead| + |t| - 1;
      assert s[k] == t[|t| - 1];
      assert s[k + 1..] == trail;
      if EndsInPrompt(s) {
        var j :| 0 <= j < |s| && (s[j] == '>' || s[j] == '#') && Blank(s[j + 1..]);
        forall m | j < m < |s| ensures IsWhitespace(s[m]) {
          assert s[m] == s[j + 1..][m - j - 1];
        }
        assert forall i :: 0 <= i < |trail| ==> trail[i] == s[k + 1 + i];
        assert j == k;
      }
    }
  }

  /** Dropping trailing white space does not change whether the text ends in a prompt. */
  lemma EndsInPromptAppend(s: string, blank: string)
    requires Blank(blank)
    ensures EndsInPrompt(s + blank) <==> EndsInPrompt(s)
  {
    var whole := s + blank;
    if EndsInPrompt(whole) {
      var k :| 0 <= k < |whole| && (whole[k] == '>' || whole[k] == '#') && Blank(whole[k + 1..]);
      assert forall i :: 0 <= i < |blank| ==> blank[i] == whole[|s| + i];
      assert k < |s|;
      assert s[k + 1..] <= whole[k + 1..];
      assert s[k] == whole[k];
    }
    if EndsInPrompt(s) {
      var k :| 0 <= k < |s| && (s[k] == '>' || s[k] == '#') && Blank(s[k + 1..]);
      assert whole[k + 1..] == s[k + 1..] + blank;
      assert whole[k] == s[k];
    }
  }

  /** A text whose last part is not blank ends in a prompt when that part does. */
  lemma EndsInPromptPrepend(s: string, last: string)
    requires !Blank(last)
    ensures EndsInPrompt(s + last) <==> EndsInPrompt(last)
  {
    var whole := s + last;
    if EndsInPrompt(whole) {
      var k :| 0 <= k < |whole| && (whole[k] == '>' || whole[k] == '#') && Blank(whole[k + 1..]);
      if k < |s| {
        forall i | 0 <= i < |last| ensures IsWhitespace(last[i]) {
          assert whole[k + 1..][|s| - k - 1 + i] == last[i];
        }
      } else {
        assert whole[k + 1..] == last[k - |s| + 1..];
        assert last[k - |s|] == whole[k];
      }
    }
    if EndsInPrompt(last) {
      var k :| 0 <= k < |last| && (last[k] == '>' || last[k] == '#') && Blank(last[k + 1..]);
      assert whole[|s| + k] == last[k];
      assert whole[|s| + k + 1..] == last[k + 1..];
    }
  }

  lemma LineEndIsBlank(line: string)
    ensures exists tail :: Blank(tail) && line == TrimEnd(StripLineEnd(line)) + tail
  {
    var stripped := StripLineEnd(line);
    TrimEndSplits(stripped);
    var tail :| Blank(tail) && stripped == TrimEnd(stripped) + tail;
    var end := line[|stripped|..];
    assert Blank(end) && line == stripped + end;
    assert Blank(tail + end) && line == TrimEnd(stripped) + (tail + end);
  }

  lemma {:induction false} SearchBackExact(lines: seq<string>)
    ensures SearchBack(lines) <==> EndsInPrompt(Concat(lines))
  {
    if lines != [] {
      var init := lines[..|lines| - 1];
      var last := lines[|lines| - 1];
      var line := TrimEnd(StripLineEnd(last));
      LineEndIsBlank(last);
      var tail :| Blank(tail) && last == line + tail;
      BlankTrims(line);
      if Trim(line) == [] {
        assert Blank(last);
        SearchBackExact(init);
        EndsInPromptAppend(Concat(init), last);
      } else {
        assert !Blank(last) by {
          var i :| 0 <= i < |line| && !IsWhitespace(line[i]);
          assert last[i] == line[i];
        }
        EndsInPromptPrepend(Concat(init), last);
        EndsInPromptAppend(line, tail);
        EndsInPromptTrim(line);
      }
    }
  }

  /** For every output text the reverse line search is the simple test. */
  lemma HasPromptExact(output: string)
    ensures HasPrompt(output) <==> EndsInPrompt(output)
  {
    SplitInclusiveConcat(output);
    SearchBackExact(SplitInclusive(output));
  }
}
