/** Connecting to a router: the order of the host-key check, the password and the command. The
    peer's behaviour, failing writes and time running out are inputs; what is sent is recorded. */
module Ssh {
  import opened Results
  import opened Fingerprint
  import opened Prompt
  import opened Records
  import opened Forms
  import opened Wol

  /** One round of reading: the text that had arrived and whether the channel ended, or an error. */
  datatype Poll = Poll(text: string, eof: bool) | ReadError

  datatype Peer = Peer(
    resolves: bool,
    connects: bool,
    handshakes: bool,
    hostKey: Option<Hash>,
    authenticates: bool,
    opensShell: bool,
    drained: Poll,
    accepts: nat,
    flushes: bool,
    polls: seq<Poll>)

  /** What a peer has been sent: the password, if any, and the text written to its shell. A write
      that fails may have sent the beginning of its text; `accepts` is how much text the channel
      takes before that happens. */
  datatype Traffic = Traffic(login: Option<Login>, typed: string)

  datatype Login = Login(username: string, credential: string)

  const SILENCE := Traffic(None, "")

  datatype SshError =
    | InvalidHost | InvalidUsername | ProviderUnsupported | InvalidPort
    | Unreachable | NoHostKey | KeyMismatch | KeyNotTrusted | AuthenticationRejected
    | UnsafeCommand | ShellFailed | ReadFailed | WriteFailed | TimedOut | CommandRejected
    | NoTrustedKey | Command(wol: WolError) | KeyChanged

  datatype CommandResult = CommandResult(fingerprint: string, output: string)

  predicate Contains(s: string, part: string) {
    exists i :: 0 <= i <= |s| && part <= s[i..]
  }

  function LowerAscii(s: string): string {
    seq(|s|, i requires 0 <= i < |s| => if 'A' <= s[i] <= 'Z' then (s[i] as int + 32) as char else s[i])
  }

  predicate RejectedOutput(output: string) {
    var lower := LowerAscii(output);
    || Contains(lower, "invalid") || Contains(lower, "unknown command")
    || Contains(lower, "command error") || Contains(lower, "error:")
  }

  /** The output up to the first round after which it is done (a prompt shows) or the channel has
      ended; rounds that never come are time running out. */
  function Await(done: string -> bool, output: string, polls: seq<Poll>): Result<string, SshError>
    decreases |polls|
  {
    if polls == [] then Err(TimedOut)
    else match polls[0]
      case ReadError => Err(ReadFailed)
      case Poll(text, eof) =>
        if done(output + text) || eof then Ok(output + text) else Await(done, output + text, polls[1..])
  }

  function FinishCommand(awaited: Result<string, SshError>): Result<string, SshError> {
    match awaited
    case Err(e) => Err(e)
    case Ok(output) => if RejectedOutput(output) then Err(CommandRejected) else Ok(output)
  }

  /** The checks made before any address is resolved. */
  function StaticCheck(site: Site): Option<SshError> {
    if !HostOk(site.routerHost) then Some(InvalidHost)
    else if !UsernameOk(site.sshUsername) then Some(InvalidUsername)
    else if site.provider != "yamaha_rtx" then Some(SshError.ProviderUnsupported)
    else if site.sshPort == 0 then Some(InvalidPort)
    else None
  }

  /** Whether a key the peer showed may be used for this site. */
  function KeyCheck(site: Site, observed: string, requireTrustedKey: bool): Option<SshError> {
    match site.fingerprint
    case Some(expected) => if expected != observed then Some(KeyMismatch) else None
    case None => if requireTrustedKey then Some(KeyNotTrusted) else None
  }

  datatype Exchange = Exchange(result: Result<CommandResult, SshError>, sent: Traffic)

  function Least(a: nat, b: nat): nat {
    if a < b then a else b
  }

  /** As much of the text as the channel takes. */
  function Delivered(text: string, accepts: nat): string {
    text[..Least(accepts, |text|)]
  }

  function InteractiveExchange(observed: string, command: string, peer: Peer, login: Login): Exchange {
    if !IsSafeCommand(command) then Exchange(Err(UnsafeCommand), Traffic(Some(login), ""))
    else if !peer.opensShell then Exchange(Err(ShellFailed), Traffic(Some(login), ""))
    else if peer.drained.ReadError? then Exchange(Err(ReadFailed), Traffic(Some(login), ""))
    else
      var line := command + "\r";
      var sent := Traffic(Some(login), Delivered(line, peer.accepts));
      if peer.accepts < |line| || !peer.flushes then Exchange(Err(WriteFailed), sent)
      else
        var output := FinishCommand(Await(HasPrompt, peer.drained.text, peer.polls));
        Exchange(if output.Ok? then Ok(CommandResult(observed, output.value)) else Err(output.error), sent)
  }

  /** The specification of one connection. */
  function Connect(site: Site, credential: string, command: string, requireTrustedKey: bool, peer: Peer): Exchange {
    if StaticCheck(site).Some? then Exchange(Err(StaticCheck(site).value), SILENCE)
    else if !peer.resolves || !peer.connects || !peer.handshakes then Exchange(Err(Unreachable), SILENCE)
    else if peer.hostKey.None? then Exchange(Err(NoHostKey), SILENCE)
    else
      var observed := PrintFingerprint(peer.hostKey.value);
      if KeyCheck(site, observed, requireTrustedKey).Some? then
        Exchange(Err(KeyCheck(site, observed, requireTrustedKey).value), SILENCE)
      else
        var login := Login(site.sshUsername, credential);
        if !peer.authenticates then Exchange(Err(AuthenticationRejected), Traffic(Some(login), ""))
        else InteractiveExchange(observed, command, peer, login)
  }

  /** What the peer has been sent on one connection. */
  class Wire {
    var login: Option<Login>
    var typed: string

    ghost function Sent(): Traffic
      reads this
    {
      Traffic(login, typed)
    }

    constructor ()
      ensures Sent() == SILENCE
    {
      login, typed := None, "";
    }

    /** One `write_all`: the whole text, or its beginning and a failure. */
    method WriteAll(text: string, accepts: nat) returns (ok: bool)
      modifies this`typed
      ensures typed == old(typed) + Delivered(text, accepts)
      ensures ok <==> |text| <= accepts
    {
      var n := Least(accepts, |text|);
      typed := typed + text[..n];
      return n == |text|;
    }

    /** The shell session: drain, write the command and a carriage return, flush, then poll until a
        prompt shows, the channel ends, or time runs out. */
    method RunInteractiveCommand(command: string, peer: Peer) returns (r: Result<string, SshError>)
      requires login.Some? && typed == ""
      modifies this`typed
      ensures forall observed :: InteractiveExchange(observed, command, peer, login.value) ==
                Exchange(if r.Ok? then Ok(CommandResult(observed, r.value)) else Err(r.error), Sent())
    {
      if !IsSafeCommand(command) {
        return Err(UnsafeCommand);
      }
      if !peer.opensShell {
        return Err(ShellFailed);
      }
      if peer.drained.ReadError? {
        return Err(ReadFailed);
      }
      ghost var line := command + "\r";
      var written := WriteAll(command, peer.accepts);
      if !written {
        assert Delivered(command, peer.accepts) == Delivered(line, peer.accepts);
        return Err(WriteFailed);
      }
      written := WriteAll("\r", peer.accepts - |command|);
      assert typed == Delivered(line, peer.accepts);
      if !written || !peer.flushes {
        return Err(WriteFailed);
      }
      r := AwaitPrompt(peer);
    }

    /** The polling loop, and the look at the output afterwards. */
    method AwaitPrompt(peer: Peer) returns (r: Result<string, SshError>)
      requires peer.drained.Poll?
      ensures r == FinishCommand(Await(HasPrompt, peer.drained.text, peer.polls))
    {
      var output := peer.drained.text;
      var i := 0;
      while true
        invariant 0 <= i <= |peer.polls|
        invariant Await(HasPrompt, peer.drained.text, peer.polls) == Await(HasPrompt, output, peer.polls[i..])
        decreases |peer.polls| - i
      {
        if i == |peer.polls| {
          return Err(TimedOut);
        }
        if peer.polls[i].ReadError? {
          return Err(ReadFailed);
        }
        output := output + peer.polls[i].text;
        if HasPrompt(output) || peer.polls[i].eof {
          break;
        }
        assert peer.polls[i..][1..] == peer.polls[i + 1..];
        i := i + 1;
      }
      if RejectedOutput(output) {
        return Err(CommandRejected);
      }
      return Ok(output);
    }

    method ConnectAndRun(site: Site, credential: string, command: string, requireTrustedKey: bool, peer: Peer)
      returns (r: Result<CommandResult, SshError>)
      requires Sent() == SILENCE
      modifies this
      ensures Connect(site, credential, command, requireTrustedKey, peer) == Exchange(r, Sent())
    {
      if !HostOk(site.routerHost) {
        return Err(InvalidHost);
      }
      if !UsernameOk(site.sshUsername) {
        return Err(InvalidUsername);
      }
      if site.provider != "yamaha_rtx" {
        return Err(SshError.ProviderUnsupported);
      }
      if site.sshPort == 0 {
        return Err(InvalidPort);
      }
      if !peer.resolves || !peer.connects || !peer.handshakes {
        return Err(Unreachable);
      }
      if peer.hostKey.None? {
        return Err(NoHostKey);
      }
      var fingerprint := PrintFingerprint(peer.hostKey.value);
      if site.fingerprint.Some? {
        if site.fingerprint.value != fingerprint {
          return Err(KeyMismatch);
        }
      } else if requireTrustedKey {
        return Err(KeyNotTrusted);
      }
      login := Some(Login(site.sshUsername, credential));
      if !peer.authenticates {
        return Err(AuthenticationRejected);
      }
      var output := RunInteractiveCommand(command, peer);
      assert InteractiveExchange(fingerprint, command, peer, login.value) ==
             Exchange(if output.Ok? then Ok(CommandResult(fingerprint, output.value)) else Err(output.error), Sent());
      if output.Err? {
        return Err(output.error);
      }
      return Ok(CommandResult(fingerprint, output.value));
    }

    /** The wake provider. */
    method Wake(site: Site, device: Device, credential: string, peer: Peer) returns (r: Result<(), SshError>)
      requires Sent() == SILENCE
      modifies this
      ensures WakeExchange(site, device, credential, peer) == (r, Sent())
    {
      if site.fingerprint.None? {
        return Err(NoTrustedKey);
      }
      var expected := site.fingerprint.value;
      var command := BuildWolCommand(site.lanInterface, device.mac, device.ip);
      if command.Err? {
        return Err(Command(command.error));
      }
      var result := ConnectAndRun(site, credential, command.value, true, peer);
      if result.Err? {
        return Err(result.error);
      }
      if result.value.fingerprint != expected {
        return Err(KeyChanged);
      }
      return Ok(());
    }
  }

  /** The specification of one wake: its answer, and what was sent. */
  function WakeExchange(site: Site, device: Device, credential: string, peer: Peer)
    : (Result<(), SshError>, Traffic)
  {
    if site.fingerprint.None? then (Err(NoTrustedKey), SILENCE)
    else match WolCommand(site.lanInterface, device.mac, device.ip)
      case Err(e) => (Err(Command(e)), SILENCE)
      case Ok(command) =>
        var exchange := Connect(site, credential, command, true, peer);
        match exchange.result
        case Err(e) => (Err(e), exchange.sent)
        case Ok(result) =>
          (if result.fingerprint != site.fingerprint.value then Err(KeyChanged) else Ok(()), exchange.sent)
  }

  /** The connection test: `show version`, with any key when none is trusted yet. */
  function TestExchange(site: Site, credential: string, peer: Peer): Result<string, SshError> {
    match Connect(site, credential, "show version", false, peer).result
    case Err(e) => Err(e)
    case Ok(result) => Ok(result.fingerprint)
  }

  /** The key the peer showed is the one stored for the site. */
  predicate ShowsTrustedKey(site: Site, peer: Peer) {
    peer.hostKey.Some? && site.fingerprint == Some(PrintFingerprint(peer.hostKey.value))
  }

  lemma {:induction false} AwaitErrors(done: string -> bool, output: string, polls: seq<Poll>)
    ensures Await(done, output, polls).Err? ==> Await(done, output, polls).error in {TimedOut, ReadFailed}
    decreases |polls|
  {
    if polls != [] && polls[0].Poll? && !polls[0].eof {
      AwaitErrors(done, output + polls[0].text, polls[1..]);
    }
  }

  /** What may have been sent once the login is known: a beginning of the line, the whole of it if the
      exchange succeeded. */
  predicate SendsAtMost(x: Exchange, login: Login, command: string) {
    && x.sent.login == Some(login) && x.sent.typed <= command + "\r"
    && (x.result.Ok? ==> x.sent.typed == command + "\r")
  }

  /** One interactive command: what it can send, what it reports and how it can fail. */
  lemma InteractiveOutcome(observed: string, command: string, peer: Peer, login: Login)
    ensures var x := InteractiveExchange(observed, command, peer, login);
            && SendsAtMost(x, login, command)
            && (x.result.Ok? ==> x.result.value.fingerprint == observed)
            && (x.result.Err? ==>
                  x.result.error in {UnsafeCommand, ShellFailed, ReadFailed, WriteFailed, TimedOut, CommandRejected})
            && (x.result == Err(UnsafeCommand) ==> !IsSafeCommand(command))
  {
    if peer.drained.Poll? {
      AwaitErrors(HasPrompt, peer.drained.text, peer.polls);
    }
  }

  /** One connection: nothing is sent before the static checks and the key check pass; then at most the
      password and a beginning of the command line. */
  lemma ConnectOutcome(site: Site, credential: string, command: string, requireTrustedKey: bool, peer: Peer)
    ensures var x := Connect(site, credential, command, requireTrustedKey, peer);
            && (x.sent != SILENCE ==> SendsAtMost(x, Login(site.sshUsername, credential), command))
            && (x.result.Ok? ==> x.sent != SILENCE && peer.hostKey.Some?
                                 && x.result.value.fingerprint == PrintFingerprint(peer.hostKey.value))
            && (x.sent != SILENCE && requireTrustedKey ==> ShowsTrustedKey(site, peer))
            && (x.sent != SILENCE && site.fingerprint.Some? ==> ShowsTrustedKey(site, peer))
            && (StaticCheck(site).None? && IsSafeCommand(command) && site.fingerprint.Some? && x.result.Err? ==>
                  ExternalFailure(x.result.error))
  {
    if StaticCheck(site).None? && peer.hostKey.Some? {
      var observed := PrintFingerprint(peer.hostKey.value);
      InteractiveOutcome(observed, command, peer, Login(site.sshUsername, credential));
    }
  }

  /** In every wake, to every peer: nothing at all is sent, neither password nor command, unless the
      peer showed the trusted key; what is sent is the password and a beginning of the one command
      line, all of it if the wake succeeds; and the check repeated after the connection never fails. */
  lemma WakeOnlyTrustedPeer(site: Site, device: Device, credential: string, peer: Peer)
    ensures var (answer, sent) := WakeExchange(site, device, credential, peer);
            var command := WolCommand(site.lanInterface, device.mac, device.ip);
            && (sent != SILENCE ==>
                  && ShowsTrustedKey(site, peer) && command.Ok?
                  && sent.login == Some(Login(site.sshUsername, credential))
                  && sent.typed <= command.value + "\r")
            && answer != Err(KeyChanged)
            && (answer.Ok? ==> sent != SILENCE && sent.typed == command.value + "\r")
  {
    if site.fingerprint.Some? && WolCommand(site.lanInterface, device.mac, device.ip).Ok? {
      var command := WolCommand(site.lanInterface, device.mac, device.ip).value;
      ConnectOutcome(site, credential, command, true, peer);
    }
  }

  /** A test against a site with a trusted key succeeds only by showing that key again, and a
      successful test always reports the key the peer showed. */
  lemma TestReportsShownKey(site: Site, credential: string, peer: Peer)
    ensures TestExchange(site, credential, peer).Ok? ==>
              && peer.hostKey.Some?
              && TestExchange(site, credential, peer).value == PrintFingerprint(peer.hostKey.value)
              && (site.fingerprint.Some? ==> TestExchange(site, credential, peer).value == site.fingerprint.value)
  {
    ConnectOutcome(site, credential, "show version", false, peer);
  }

  predicate SiteOk(site: Site) {
    SiteDialable(site.provider, site.routerHost, site.sshPort, site.sshUsername) && InterfaceOk(site.lanInterface)
  }

  /** The failures a wake can still meet once the site and device rows are well formed: no key
      trusted yet, or something the peer or the network did. */
  predicate ExternalFailure(e: SshError) {
    || e.NoTrustedKey? || e.Unreachable? || e.NoHostKey? || e.KeyMismatch? || e.AuthenticationRejected?
    || e.ShellFailed? || e.ReadFailed? || e.WriteFailed? || e.TimedOut? || e.CommandRejected?
  }

  lemma WakeFailsOnlyExternally(site: Site, device: Device, credential: string, peer: Peer)
    requires SiteOk(site) && AddressesOk(device.mac, device.ip)
    ensures WolCommand(site.lanInterface, device.mac, device.ip).Ok?
    ensures var answer := WakeExchange(site, device, credential, peer).0;
            answer.Err? ==> ExternalFailure(answer.error)
  {
    WolCommandSucceeds(site.lanInterface, device.mac, device.ip);
    WakeOnlyTrustedPeer(site, device, credential, peer);
    if site.fingerprint.Some? {
      var command := WolCommand(site.lanInterface, device.mac, device.ip).value;
      WolCommandIsSafe(site.lanInterface, device.mac, device.ip);
      ConnectOutcome(site, credential, command, true, peer);
    }
  }

  /** What the polling loop returns: the shortest prefix of rounds after which a prompt shows or the
      channel ended, if one comes before an error. */
  lemma {:induction false} AwaitStopsAtFirstPrompt(done: string -> bool, output: string, polls: seq<Poll>)
    ensures Await(done, output, polls).Ok? ==>
              exists n :: 0 < n <= |polls| && StopsAt(done, output, polls, n)
                          && Await(done, output, polls).value == Collected(output, polls, n)
    decreases |polls|
  {
    if polls != [] && polls[0].Poll? {
      var more := output + polls[0].text;
      if done(more) || polls[0].eof {
        assert polls[..1][..0] == [] && polls[..0] == [];
        assert Collected(output, polls, 1) == more;
        assert StopsAt(done, output, polls, 1);
      } else if Await(done, more, polls[1..]).Ok? {
        AwaitStopsAtFirstPrompt(done, more, polls[1..]);
        var n :| 0 < n <= |polls[1..]| && StopsAt(done, more, polls[1..], n)
                 && Await(done, more, polls[1..]).value == Collected(more, polls[1..], n);
        CollectedCons(output, polls, n);
        StopsAtCons(done, output, polls, n);
      }
    }
  }

  lemma StopsAtCons(done: string -> bool, output: string, polls: seq<Poll>, n: nat)
    requires 0 < n < |polls| && polls[0].Poll? && !polls[0].eof && !done(output + polls[0].text)
    requires StopsAt(done, output + polls[0].text, polls[1..], n)
    ensures StopsAt(done, output, polls, n + 1)
  {
    var more := output + polls[0].text;
    CollectedCons(output, polls, n);
    assert polls[n] == polls[1..][n - 1];
    forall m | 0 < m < n + 1
      ensures Undecided(done, output, polls, m)
    {
      CollectedCons(output, polls, m - 1);
      if m > 1 {
        assert Undecided(done, more, polls[1..], m - 1);
        assert polls[m - 1] == polls[1..][m - 2];
      } else {
        assert Collected(output, polls, 1) == more;
      }
    }
  }

  /** The text after the first n rounds. */
  function Collected(output: string, polls: seq<Poll>, n: nat): string
    requires n <= |polls|
  {
    if n == 0 then output
    else Collected(output, polls, n - 1) + if polls[n - 1].Poll? then polls[n - 1].text else ""
  }

  ghost predicate StopsAt(done: string -> bool, output: string, polls: seq<Poll>, n: nat)
    requires 0 < n <= |polls|
  {
    && polls[n - 1].Poll?
    && (polls[n - 1].eof || done(Collected(output, polls, n)))
    && forall m :: 0 < m < n ==> Undecided(done, output, polls, m)
  }

  /** After round m the loop goes on. */
  ghost predicate Undecided(done: string -> bool, output: string, polls: seq<Poll>, m: nat)
    requires 0 < m <= |polls|
  {
    polls[m - 1].Poll? && !polls[m - 1].eof && !done(Collected(output, polls, m))
  }

  lemma {:induction false} CollectedCons(output: string, polls: seq<Poll>, n: nat)
    requires n + 1 <= |polls| && polls[0].Poll?
    ensures Collected(output, polls, n + 1) == Collected(output + polls[0].text, polls[1..], n)
  {
    if n > 0 {
      CollectedCons(output, polls, n - 1);
      assert polls[n] == polls[1..][n - 1];
    } else {
      assert Collected(output, polls, 0) == output;
    }
  }
}
