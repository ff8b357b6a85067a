/** The router-side validators and the printer of the one Wake-on-LAN command. */
module Wol {
  import opened Results
  import opened Text
  import opened Mac
  import opened Ipv4

  datatype WolError = BadInterface | BadMac(mac: MacError) | BadIp(ip: IpError) | Unsafe

  predicate IsShellMark(c: char) {
    c == ';' || c == '|' || c == '&' || c == '`' || c == '$'
  }

  predicate HostOk(value: string) {
    && value != [] && ByteLen(value) <= 253
    && forall c | c in value :: !IsControl(c) && !IsWhitespace(c) && !IsShellMark(c)
  }

  predicate UsernameOk(value: string) {
    && value != [] && ByteLen(value) <= 64
    && forall c | c in value :: !IsControl(c) && !IsWhitespace(c) && c != ':'
  }

  predicate InterfaceOk(value: string) {
    && value != [] && ByteLen(value) <= 32
    && forall c | c in value :: IsAsciiAlphanumeric(c) || c == '.' || c == '_' || c == '-' || c == '/'
  }

  predicate IsSafeCommand(command: string) {
    && command != [] && ByteLen(command) <= 256
    && forall c | c in command :: c != '\r' && c != '\n' && !IsShellMark(c)
  }

  /** The words of the command for validated parts. */
  function Words(interface: string, mac: string, ip: Option<string>): seq<string> {
    ["wol", "send", "-i", "1", "-c", "3", interface, mac] + if ip.Some? then [ip.value, "udp", "9"] else []
  }

  function NormalizeOptionalIp(ip: Option<string>): Result<Option<string>, IpError> {
    if ip.None? then Ok(None)
    else match NormalizeIp(ip.value)
      case Err(e) => Err(e)
      case Ok(canonical) => Ok(Some(canonical))
  }

  /** The specification of the printer: validate each part in order, join the words, and check the
      result once more. */
  function WolCommand(interface: string, mac: string, ip: Option<string>): Result<string, WolError> {
    if !InterfaceOk(interface) then Err(BadInterface)
    else match NormalizeMac(mac)
      case Err(e) => Err(BadMac(e))
      case Ok(canonicalMac) =>
        match NormalizeOptionalIp(ip)
        case Err(e) => Err(BadIp(e))
        case Ok(canonicalIp) =>
          var command := Join(Words(interface, canonicalMac, canonicalIp), " ");
          if IsSafeCommand(command) then Ok(command) else Err(Unsafe)
  }

  /** The printer as written: a fixed format, then an optional suffix pushed onto the string. */
  method BuildWolCommand(interface: string, mac: string, ip: Option<string>) returns (r: Result<string, WolError>)
    ensures r == WolCommand(interface, mac, ip)
  {
    if !InterfaceOk(interface) {
      return Err(BadInterface);
    }
    var normalizedMac := NormalizeMac(mac);
    if normalizedMac.Err? {
      return Err(BadMac(normalizedMac.error));
    }
    var command := "wol send -i 1 -c 3 " + interface + " " + normalizedMac.value;
    JoinBase(interface, normalizedMac.value);
    if ip.Some? {
      var normalizedIp := NormalizeIp(ip.value);
      if normalizedIp.Err? {
        return Err(BadIp(normalizedIp.error));
      }
      command := command + (" " + normalizedIp.value + " udp 9");
      JoinWithIp(interface, normalizedMac.value, normalizedIp.value);
    }
    if !IsSafeCommand(command) {
      return Err(Unsafe);
    }
    return Ok(command);
  }

  lemma {:induction false} JoinAppend(a: seq<string>, b: seq<string>, sep: string)
    requires a != [] && b != []
    ensures Join(a + b, sep) == Join(a, sep) + sep + Join(b, sep)
  {
    if |a| == 1 {
      assert (a + b)[1..] == b;
    } else {
      assert (a + b)[1..] == a[1..] + b;
      JoinAppend(a[1..], b, sep);
    }
  }

  lemma JoinTwo(a: string, b: string)
    ensures Join([a, b], " ") == a + " " + b
  {
    assert [a, b][1..] == [b];
  }

  lemma JoinThree(a: string, b: string, c: string)
    ensures Join([a, b, c], " ") == a + " " + b + " " + c
  {
    assert [a, b, c][1..] == [b, c];
    JoinTwo(b, c);
  }

  const FIXED_WORDS := ["wol", "send", "-i", "1", "-c", "3"]
  const FIXED_TEXT := "wol send -i 1 -c 3"

  lemma JoinFixed()
    ensures Join(FIXED_WORDS, " ") == FIXED_TEXT
  {
    JoinThree("wol", "send", "-i");
    JoinThree("1", "-c", "3");
    JoinAppend(["wol", "send", "-i"], ["1", "-c", "3"], " ");
    assert ["wol", "send", "-i"] + ["1", "-c", "3"] == FIXED_WORDS;
  }

  lemma Regroup(a: string, b: string, c: string, d: string, e: string)
    ensures a + b + (c + d + e) == a + b + c + d + e
  {
  }

  lemma JoinBase(interface: string, mac: string)
    ensures Join(Words(interface, mac, None), " ") == "wol send -i 1 -c 3 " + interface + " " + mac
  {
    assert Words(interface, mac, None) == FIXED_WORDS + [interface, mac];
    JoinAppend(FIXED_WORDS, [interface, mac], " ");
    JoinFixed();
    JoinTwo(interface, mac);
    Regroup(FIXED_TEXT, " ", interface, " ", mac);
  }

  lemma JoinWithIp(interface: string, mac: string, ip: string)
    ensures Join(Words(interface, mac, Some(ip)), " ") ==
              "wol send -i 1 -c 3 " + interface + " " + mac + (" " + ip + " udp 9")
  {
    JoinBase(interface, mac);
    JoinAppend(Words(interface, mac, None), [ip, "udp", "9"], " ");
    assert Words(interface, mac, None) + [ip, "udp", "9"] == Words(interface, mac, Some(ip));
    JoinThree(ip, "udp", "9");
  }

  /** What a command line asks for, and the line that asks for it. */
  datatype WolRequest = WolRequest(interface: string, mac: seq<Byte>, ip: Option<seq<Byte>>)

  predicate RequestOk(q: WolRequest) {
    InterfaceOk(q.interface) && |q.mac| == 6 && (q.ip.Some? ==> |q.ip.value| == 4)
  }

  function RequestWords(q: WolRequest): seq<string>
    requires RequestOk(q)
  {
    Words(q.interface, Render(q.mac), if q.ip.Some? then Some(PrintIpv4(q.ip.value)) else None)
  }

  function Line(q: WolRequest): string
    requires RequestOk(q)
  {
    Join(RequestWords(q), " ")
  }

  function ParseLine(command: string): Option<WolRequest> {
    var words := Split(command, ' ');
    if && (|words| == 8 || |words| == 11)
       && words[..6] == ["wol", "send", "-i", "1", "-c", "3"]
       && Denoted(words[7]).Some?
    then
      if |words| == 8 then Some(WolRequest(words[6], Denoted(words[7]).value, None))
      else if ParseIpv4(words[8]).Some? && words[9..] == ["udp", "9"] then
        Some(WolRequest(words[6], Denoted(words[7]).value, ParseIpv4(words[8])))
      else None
    else None
  }

  /** The request the arguments mean: the octets the MAC text denotes, the address the IP text parses to. */
  function Meaning(interface: string, mac: string, ip: Option<string>): Option<WolRequest> {
    var bytes := Denoted(Trim(mac));
    var address := if ip.Some? then ParseIpv4(Trim(ip.value)) else None;
    if bytes.None? || (ip.Some? && address.None?) then None
    else Some(WolRequest(interface, bytes.value, address))
  }

  /** Splitting a line on spaces gives exactly its 8 or 11 words. */
  lemma LineWords(q: WolRequest)
    requires RequestOk(q)
    ensures Split(Line(q), ' ') == RequestWords(q)
    ensures |RequestWords(q)| == if q.ip.Some? then 11 else 8
  {
    RenderDenotes(q.mac);
    if q.ip.Some? {
      PrintIpv4Shape(q.ip.value);
    }
    NoSpaces(q);
    SplitJoin(RequestWords(q), ' ');
  }

  lemma NoSpaces(q: WolRequest)
    requires RequestOk(q)
    ensures forall i :: 0 <= i < |RequestWords(q)| ==> ' ' !in RequestWords(q)[i]
  {
    RenderDenotes(q.mac);
    assert ' ' !in Render(q.mac);
    assert ' ' !in q.interface;
    if q.ip.Some? {
      PrintIpv4Shape(q.ip.value);
      assert ' ' !in PrintIpv4(q.ip.value);
    }
  }

  /** Reading a printed line back recovers the request. */
  lemma LineRoundTrip(q: WolRequest)
    requires RequestOk(q)
    ensures ParseLine(Line(q)) == Some(q)
  {
    LineWords(q);
    RenderDenotes(q.mac);
    var words := RequestWords(q);
    assert words[..6] == ["wol", "send", "-i", "1", "-c", "3"];
    if q.ip.Some? {
      PrintThenParse(q.ip.value);
      assert words[9..] == ["udp", "9"];
    }
  }

  /** A line without the address: its text, its length and its characters. */
  lemma BaseIsPlain(interface: string, mac: string)
    requires InterfaceOk(interface)
    requires |mac| == 17 && forall c :: c in mac ==> IsHex(c) || c == ':'
    ensures var base := "wol send -i 1 -c 3 " + interface + " " + mac;
            |base| <= 69 && PlainText(base)
  {
    AsciiByteLen(interface);
    assert PlainText(interface) by {
      assert forall i :: 0 <= i < |interface| ==> interface[i] in interface;
    }
    assert PlainText(mac) by {
      assert forall i :: 0 <= i < |mac| ==> mac[i] in mac;
    }
    PlainConcat("wol send -i 1 -c 3 ", interface);
    PlainConcat("wol send -i 1 -c 3 " + interface, " ");
    PlainConcat("wol send -i 1 -c 3 " + interface + " ", mac);
  }

  lemma SuffixIsPlain(ip: string)
    requires |ip| <= 15 && forall c :: c in ip ==> IsDigit(c) || c == '.'
    ensures |" " + ip + " udp 9"| <= 22 && PlainText(" " + ip + " udp 9")
  {
    assert PlainText(ip) by {
      assert forall i :: 0 <= i < |ip| ==> ip[i] in ip;
    }
    PlainConcat(" ", ip);
    PlainConcat(" " + ip, " udp 9");
  }

  /** A line is at most 91 bytes and passes the safety check: no line ends, no shell characters. */
  lemma LineIsSafe(q: WolRequest)
    requires RequestOk(q)
    ensures ByteLen(Line(q)) <= 91 && IsSafeCommand(Line(q))
  {
    var mac := Render(q.mac);
    RenderDenotes(q.mac);
    JoinBase(q.interface, mac);
    BaseIsPlain(q.interface, mac);
    var base := "wol send -i 1 -c 3 " + q.interface + " " + mac;
    if q.ip.Some? {
      var ip := PrintIpv4(q.ip.value);
      PrintIpv4Shape(q.ip.value);
      JoinWithIp(q.interface, mac, ip);
      SuffixIsPlain(ip);
      PlainConcat(base, " " + ip + " udp 9");
    }
    PlainIsSafe(Line(q));
  }

  lemma PlainIsSafe(s: string)
    requires PlainText(s) && 0 < |s| <= 256
    ensures ByteLen(s) == |s| && IsSafeCommand(s)
  {
    AsciiByteLen(s);
  }

  predicate PlainText(s: string) {
    forall i :: 0 <= i < |s| ==> s[i] as int < 0x80 && s[i] != '\r' && s[i] != '\n' && !IsShellMark(s[i])
  }

  lemma PlainConcat(a: string, b: string)
    requires PlainText(a) && PlainText(b)
    ensures PlainText(a + b)
  {
  }

  /** An accepted command is the line of the request its arguments mean. */
  lemma WolCommandIsLine(interface: string, mac: string, ip: Option<string>)
    requires InterfaceOk(interface) && NormalizeMac(mac).Ok? && NormalizeOptionalIp(ip).Ok?
    ensures Meaning(interface, mac, ip).Some? && RequestOk(Meaning(interface, mac, ip).value)
    ensures WolCommand(interface, mac, ip) == Ok(Line(Meaning(interface, mac, ip).value))
  {
    NormalizeMacExact(mac);
    var q := Meaning(interface, mac, ip).value;
    if ip.Some? {
      NormalizeIpExact(ip.value);
      assert NormalizeOptionalIp(ip).value == Some(PrintIpv4(q.ip.value));
    }
    assert RequestWords(q) == Words(interface, NormalizeMac(mac).value, NormalizeOptionalIp(ip).value);
    LineIsSafe(q);
  }

  /** The printer succeeds exactly when its three parts are valid: the last check cannot fail. The
      command is at most 91 bytes against the limit of 256. */
  lemma WolCommandSucceeds(interface: string, mac: string, ip: Option<string>)
    ensures WolCommand(interface, mac, ip).Ok? <==>
              InterfaceOk(interface) && NormalizeMac(mac).Ok? && NormalizeOptionalIp(ip).Ok?
    ensures WolCommand(interface, mac, ip) != Err(Unsafe)
    ensures WolCommand(interface, mac, ip).Ok? ==> ByteLen(WolCommand(interface, mac, ip).value) <= 91
  {
    if InterfaceOk(interface) && NormalizeMac(mac).Ok? && NormalizeOptionalIp(ip).Ok? {
      WolCommandIsLine(interface, mac, ip);
      LineIsSafe(Meaning(interface, mac, ip).value);
    }
  }

  lemma WolCommandIsSafe(interface: string, mac: string, ip: Option<string>)
    requires WolCommand(interface, mac, ip).Ok?
    ensures IsSafeCommand(WolCommand(interface, mac, ip).value)
  {
  }

  /** Printing and reading back recovers what the arguments mean. */
  lemma WolCommandRoundTrip(interface: string, mac: string, ip: Option<string>)
    requires WolCommand(interface, mac, ip).Ok?
    ensures ParseLine(WolCommand(interface, mac, ip).value) == Meaning(interface, mac, ip)
  {
    WolCommandIsLine(interface, mac, ip);
    LineRoundTrip(Meaning(interface, mac, ip).value);
  }

  /** Two argument lists print the same command exactly when they mean the same request. */
  lemma WolCommandInjective(i1: string, m1: string, p1: Option<string>, i2: string, m2: string, p2: Option<string>)
    requires WolCommand(i1, m1, p1).Ok? && WolCommand(i2, m2, p2).Ok?
    ensures WolCommand(i1, m1, p1) == WolCommand(i2, m2, p2) <==> Meaning(i1, m1, p1) == Meaning(i2, m2, p2)
  {
    WolCommandRoundTrip(i1, m1, p1);
    WolCommandRoundTrip(i2, m2, p2);
    WolCommandIsLine(i1, m1, p1);
    WolCommandIsLine(i2, m2, p2);
  }
}
