/** What is left over does come back: from every moment at which a key is left over, some run with real
    routers ends with the site trusting it, and no test reads the site's row on the way. */
module Returns {
  import opened Results
  import opened Fingerprint
  import opened Prompt
  import opened Records
  import opened Wol
  import opened Ssh
  import opened Handlers
  import opened WellFormed
  import opened DeadTokens
  import opened App
  import opened AloneRuns
  import opened Retrust

  // ----- a router that answers -----

  /** It shows this key, takes the password and the command, and prompts. */
  function Willing(hash: Hash): Peer {
    Peer(true, true, true, Some(hash), true, true, Poll("", false), 13, true, [Poll("#", false)])
  }

  lemma PromptsAtOnce()
    ensures Await(HasPrompt, "", [Poll("#", false)]) == Ok("#")
  {
    assert EndsInPrompt("#") by {
      assert "#"[0] == '#' && "#"[1..] == "";
    }
    HasPromptExact("#");
    assert "" + "#" == "#";
  }

  lemma TooShort(s: string, part: string)
    requires |s| < |part|
    ensures !Contains(s, part)
  {
  }

  lemma PromptIsNoError()
    ensures !RejectedOutput("#")
  {
    var lower := LowerAscii("#");
    TooShort(lower, "invalid");
    TooShort(lower, "unknown command");
    TooShort(lower, "command error");
    TooShort(lower, "error:");
  }

  lemma ShowVersionIsSafe()
    ensures IsSafeCommand("show version")
  {
    PlainConcat("show", " ");
    PlainConcat("show" + " ", "version");
    assert "show" + " " + "version" == "show version";
    PlainIsSafe("show version");
  }

  lemma WholeLineIsTaken(command: string)
    requires |command| == 12
    ensures Delivered(command + "\r", 13) == command + "\r" && |command + "\r"| == 13
  {
  }

  lemma WillingTypes(observed: string, command: string, login: Login, hash: Hash)
    requires IsSafeCommand(command) && |command| == 12
    ensures InteractiveExchange(observed, command, Willing(hash), login).result == Ok(CommandResult(observed, "#"))
  {
    WholeLineIsTaken(command);
    PromptsAtOnce();
    PromptIsNoError();
  }

  lemma WillingAnswers(site: Site, credential: string, hash: Hash)
    requires SiteOk(site)
    requires site.fingerprint.None? || site.fingerprint == Some(PrintFingerprint(hash))
    ensures TestExchange(site, credential, Willing(hash)) == Ok(PrintFingerprint(hash))
  {
    ShowVersionIsSafe();
    WillingTypes(PrintFingerprint(hash), "show version", Ssh.Login(site.sshUsername, credential), hash);
  }

  /** Nothing fails, and this router answers with this key. */
  function Good(hash: Hash): Env {
    Env(false, false, false, Willing(hash), Ok(PrintFingerprint(hash)), Err(Unreachable), "", "", true, "")
  }

  // ----- runs in which no test reads a row -----

  ghost predicate Unread(from: nat, log: seq<Entry>) {
    forall k :: from <= k < |log| ==> !(log[k].task.Busy? && log[k].task.pc.TestRead?)
  }

  ghost predicate Path(w: World, es: seq<Event>) {
    Genuine(w, es) && |w.log| <= |Run(w, es).log| && Unread(|w.log|, Run(w, es).log)
  }

  lemma UnreadIsNotSeen(from: nat, log: seq<Entry>, id: int, key: string)
    requires Unread(from, log)
    ensures !SeenAgain(log, from, id, key)
  {
    forall k, j | from <= j < k < |log| ensures !ReadsFor(log[..k][j], log[k].task) {
      assert log[..k][j] == log[j];
    }
  }

  /** One more step of a handler that reads no row for a test. */
  lemma Goes(w: World, es: seq<Event>, v: World, t: nat, env: Env) returns (longer: seq<Event>)
    requires Path(w, es) && v == Run(w, es) && t in v.tasks && v.tasks[t].Busy?
    requires !v.tasks[t].pc.TestRead? && RouterAnswers(Issue(v.tasks[t]), env)
    ensures Path(w, longer) && Enabled(v, t, env) && Run(w, longer) == StepTask(v, t, env)
  {
    longer := es + [Advance(t, env)];
    assert longer[..|es|] == es;
    assert !Issue(v.tasks[t]).CreateSession?;
  }

  lemma NoRouterAsked(task: Task, env: Env)
    requires task.Busy? && !task.pc.TestDial? && !task.pc.WakeSend?
    ensures RouterAnswers(Issue(task), env)
  {
    IssuesNoConnection(task);
    NoneAsked(Issue(task), env);
  }

  lemma IssuesNoConnection(task: Task)
    requires task.Busy? && !task.pc.TestDial? && !task.pc.WakeSend?
    ensures !Issue(task).Test? && !Issue(task).Wake?
  {
  }

  lemma NoneAsked(call: Call, env: Env)
    requires !call.Test? && !call.Wake?
    ensures RouterAnswers(call, env)
  {
  }

  /** A new request passes the guard. */
  lemma ArrivesAndEnters(w: World, es: seq<Event>, v: World, token: string, id: int, key: string, hash: Hash)
    returns (longer: seq<Event>, m: nat)
    requires Path(w, es) && v == Run(w, es) && LiveAdmin(v, token) && key == PrintFingerprint(hash)
    ensures Path(w, longer)
    ensures var u := Run(w, longer);
            && u.shared == v.shared && m in u.tasks && Deciding(u.tasks[m], token, id, key)
  {
    m := NewTask(v.tasks.Keys);
    var session := v.shared.auth.sessions[token];
    var request := WithSession(token, Some(session.csrf), Action.SiteTrust(id, key));
    PrintedIsAccepted(hash);
    var task := Guard(token, Some(session.csrf), SiteTrustJob(id, Ok(key)));
    longer := Arrives(w, es, v, m, request);
    AdmitsTrust(token, session.csrf, id, key);
    assert Run(w, longer) == v.(tasks := v.tasks[m := task]);
    GuardPasses(Run(w, longer), m, Good(hash), token, id, key);
    longer := GoesPast(w, longer, Run(w, longer), m, Good(hash));
  }

  lemma AdmitsTrust(token: string, csrf: string, id: int, key: string)
    requires ValidateFingerprint(key) == Ok(key)
    ensures Admit(WithSession(token, Some(csrf), Action.SiteTrust(id, key))) ==
              Guard(token, Some(csrf), SiteTrustJob(id, Ok(key)))
  {
  }

  lemma Arrives(w: World, es: seq<Event>, v: World, m: nat, request: Request) returns (longer: seq<Event>)
    requires Path(w, es) && v == Run(w, es) && m !in v.tasks
    ensures Path(w, longer) && Run(w, longer) == v.(tasks := v.tasks[m := Admit(request)])
  {
    longer := es + [Arrive(m, request)];
    assert longer[..|es|] == es;
  }

  lemma GoesPast(w: World, es: seq<Event>, v: World, m: nat, env: Env) returns (longer: seq<Event>)
    requires Path(w, es) && v == Run(w, es) && Enabled(v, m, env) && RouterAnswers(Issue(v.tasks[m]), env)
    requires !v.tasks[m].Busy?
    ensures Path(w, longer) && Run(w, longer) == StepTask(v, m, env)
  {
    longer := es + [Advance(m, env)];
    assert longer[..|es|] == es;
  }

  lemma GuardPasses(u: World, m: nat, env: Env, token: string, id: int, key: string)
    requires LiveAdmin(u, token) && m in u.tasks
    requires u.tasks[m] == Guard(token, Some(u.shared.auth.sessions[token].csrf), SiteTrustJob(id, Ok(key)))
    ensures Enabled(u, m, env) && RouterAnswers(Issue(u.tasks[m]), env)
    ensures var v := StepTask(u, m, env);
            v.shared == u.shared && Deciding(v.tasks[m], token, id, key)
  {
  }

  lemma {:induction false} NewTask(s: set<nat>) returns (m: nat)
    ensures m !in s && forall x :: x in s ==> x < m
  {
    m := 0;
    if s != {} {
      var y :| y in s;
      var below := NewTask(s - {y});
      m := if below <= y then y + 1 else below;
      assert forall x :: x in s ==> x == y || x in s - {y};
    }
  }

  // ----- from each kind of leftover to a stored key -----

  ghost predicate Ends(w: World, es: seq<Event>, id: int, key: string) {
    Path(w, es) && Stores(Run(w, es).shared.store, id, key)
  }

  lemma FromStoring(w: World, es: seq<Event>, v: World, t: nat, id: int, hash: Hash) returns (longer: seq<Event>)
    requires Path(w, es) && v == Run(w, es) && id in v.shared.store.sites
    requires t in v.tasks && Storing(v.tasks[t], id, PrintFingerprint(hash))
    ensures Ends(w, longer, id, PrintFingerprint(hash))
  {
    var env := Good(hash);
    NoRouterAsked(v.tasks[t], env);
    longer := Goes(w, es, v, t, env);
    AfterTrustWrite(v.shared, v.tasks[t].ctx, id, PrintFingerprint(hash), v.now, env);
    StepIsAlone(v, t, env);
  }

  lemma Takes(v: World, t: nat, env: Env, token: string, id: int, key: string)
    requires t in v.tasks && Deciding(v.tasks[t], token, id, key)
    requires Waits(v.shared.auth.pending, token, id, key)
    ensures Enabled(v, t, env)
    ensures var u := StepTask(v, t, env);
            u.shared.store == v.shared.store && Storing(u.tasks[t], id, key)
  {
    AfterTake(v.shared, v.tasks[t].ctx, id, key, v.now, env);
    StepIsAlone(v, t, env);
  }

  lemma FromDeciding(w: World, es: seq<Event>, v: World, t: nat, token: string, id: int, hash: Hash)
    returns (longer: seq<Event>)
    requires Path(w, es) && v == Run(w, es) && id in v.shared.store.sites
    requires t in v.tasks && Deciding(v.tasks[t], token, id, PrintFingerprint(hash))
    requires Waits(v.shared.auth.pending, token, id, PrintFingerprint(hash))
    ensures Ends(w, longer, id, PrintFingerprint(hash))
  {
    var env := Good(hash);
    NoRouterAsked(v.tasks[t], env);
    longer := Goes(w, es, v, t, env);
    Takes(v, t, env, token, id, PrintFingerprint(hash));
    longer := FromStoring(w, longer, Run(w, longer), t, id, hash);
  }

  lemma FromWaiting(w: World, es: seq<Event>, v: World, token: string, id: int, hash: Hash)
    returns (longer: seq<Event>)
    requires Path(w, es) && v == Run(w, es) && id in v.shared.store.sites
    requires CanDecide(v, token, id, PrintFingerprint(hash))
    requires Waits(v.shared.auth.pending, token, id, PrintFingerprint(hash))
    ensures Ends(w, longer, id, PrintFingerprint(hash))
  {
    if LiveAdmin(v, token) {
      var here, m := ArrivesAndEnters(w, es, v, token, id, PrintFingerprint(hash), hash);
      longer := FromDeciding(w, here, Run(w, here), m, token, id, hash);
    } else {
      var t :| t in v.tasks && Deciding(v.tasks[t], token, id, PrintFingerprint(hash));
      longer := FromDeciding(w, es, v, t, token, id, hash);
    }
  }

  /** A step that touches neither sessions nor clock nor who is deciding. */
  lemma StillDecides(v: World, u: World, t: nat, token: string, id: int, key: string)
    requires CanDecide(v, token, id, key) && t in v.tasks && !Deciding(v.tasks[t], token, id, key)
    requires u.now == v.now && u.shared.auth.sessions == v.shared.auth.sessions
    requires t in u.tasks && u.tasks == v.tasks[t := u.tasks[t]]
    ensures CanDecide(u, token, id, key)
  {
    if !LiveAdmin(v, token) {
      var d :| d in v.tasks && Deciding(v.tasks[d], token, id, key);
      assert Deciding(u.tasks[d], token, id, key);
    }
  }

  lemma FromShown(w: World, es: seq<Event>, v: World, t: nat, token: string, id: int, hash: Hash)
    returns (longer: seq<Event>)
    requires Path(w, es) && v == Run(w, es) && id in v.shared.store.sites
    requires CanDecide(v, token, id, PrintFingerprint(hash))
    requires t in v.tasks && Shows(v.tasks[t], token, id, PrintFingerprint(hash))
    ensures Ends(w, longer, id, PrintFingerprint(hash))
  {
    var env := Good(hash);
    NoRouterAsked(v.tasks[t], env);
    longer := Goes(w, es, v, t, env);
    var u := Run(w, longer);
    LeavesWaiting(v, t, env, token, id, PrintFingerprint(hash));
    StillDecides(v, u, t, token, id, PrintFingerprint(hash));
    longer := FromWaiting(w, longer, u, token, id, hash);
  }

  lemma LeavesWaiting(v: World, t: nat, env: Env, token: string, id: int, key: string)
    requires t in v.tasks && Shows(v.tasks[t], token, id, key)
    ensures Enabled(v, t, env)
    ensures var u := StepTask(v, t, env);
            && u.shared.store == v.shared.store && u.shared.auth.sessions == v.shared.auth.sessions && u.now == v.now
            && Waits(u.shared.auth.pending, token, id, key) && u.tasks == v.tasks[t := u.tasks[t]]
  {
  }

  lemma WillingTest(call: Call, hash: Hash)
    requires call.Test? && SiteOk(call.site)
    requires call.site.fingerprint.None? || call.site.fingerprint == Some(PrintFingerprint(hash))
    ensures RouterAnswers(call, Good(hash))
  {
    WillingAnswers(call.site, call.credential, hash);
  }

  lemma DialIsTest(task: Task)
    requires task.Busy? && task.pc.TestDial?
    ensures Issue(task).Test? && Issue(task).site == task.pc.site
  {
  }

  lemma DialAnswers(task: Task, id: int, token: string, hash: Hash)
    requires MaySee(task, token, id, PrintFingerprint(hash)) && task.pc.TestDial? && SiteOk(task.pc.site)
    ensures RouterAnswers(Issue(task), Good(hash))
  {
    DialIsTest(task);
    WillingTest(Issue(task), hash);
  }

  lemma FromDialling(w: World, es: seq<Event>, v: World, t: nat, token: string, id: int, hash: Hash)
    returns (longer: seq<Event>)
    requires Path(w, es) && v == Run(w, es) && id in v.shared.store.sites
    requires CanDecide(v, token, id, PrintFingerprint(hash))
    requires t in v.tasks && MaySee(v.tasks[t], token, id, PrintFingerprint(hash))
    requires v.tasks[t].pc.TestDial? && SiteOk(v.tasks[t].pc.site)
    ensures Ends(w, longer, id, PrintFingerprint(hash))
  {
    var env := Good(hash);
    DialAnswers(v.tasks[t], id, token, hash);
    longer := Goes(w, es, v, t, env);
    var u := Run(w, longer);
    SeesIt(v, t, env, token, id, PrintFingerprint(hash));
    StillDecides(v, u, t, token, id, PrintFingerprint(hash));
    longer := FromShown(w, longer, u, t, token, id, hash);
  }

  lemma SeesIt(v: World, t: nat, env: Env, token: string, id: int, key: string)
    requires t in v.tasks && MaySee(v.tasks[t], token, id, key) && v.tasks[t].pc.TestDial? && env.tested == Ok(key)
    ensures Enabled(v, t, env)
    ensures var u := StepTask(v, t, env);
            && u.shared == v.shared && u.now == v.now
            && Shows(u.tasks[t], token, id, key) && u.tasks == v.tasks[t := u.tasks[t]]
  {
  }

  lemma FromReading(w: World, es: seq<Event>, v: World, t: nat, token: string, id: int, hash: Hash)
    returns (longer: seq<Event>)
    requires Path(w, es) && v == Run(w, es) && id in v.shared.store.sites
    requires id in v.shared.store.secrets && v.shared.store.secrets[id].kind == SECRET_KIND
    requires CanDecide(v, token, id, PrintFingerprint(hash))
    requires t in v.tasks && MaySee(v.tasks[t], token, id, PrintFingerprint(hash))
    requires v.tasks[t].pc.TestCredential? && SiteOk(v.tasks[t].pc.site)
    ensures Ends(w, longer, id, PrintFingerprint(hash))
  {
    var env := Good(hash);
    NoRouterAsked(v.tasks[t], env);
    longer := Goes(w, es, v, t, env);
    var u := Run(w, longer);
    OpensIt(v, t, env, token, id, PrintFingerprint(hash));
    StillDecides(v, u, t, token, id, PrintFingerprint(hash));
    longer := FromDialling(w, longer, u, t, token, id, hash);
  }

  lemma OpensIt(v: World, t: nat, env: Env, token: string, id: int, key: string)
    requires id in v.shared.store.secrets && v.shared.store.secrets[id].kind == SECRET_KIND
    requires t in v.tasks && MaySee(v.tasks[t], token, id, key) && v.tasks[t].pc.TestCredential?
    requires !env.dbFails && !env.openFails
    ensures Enabled(v, t, env)
    ensures var u := StepTask(v, t, env);
            && u.shared == v.shared && u.now == v.now && u.tasks == v.tasks[t := u.tasks[t]]
            && MaySee(u.tasks[t], token, id, key) && u.tasks[t].pc.TestDial?
            && u.tasks[t].pc.site == v.tasks[t].pc.site
  {
  }

  // ----- exactly what can come back -----

  /** Some run with real routers ends with the site trusting this key, unseen by any test that read the
      site's row in it. */
  ghost predicate CanReturn(w: World, id: int, key: string) {
    exists es :: Genuine(w, es) && Stores(Run(w, es).shared.store, id, key)
                 && !SeenAgain(Run(w, es).log, |w.log|, id, key)
  }

  lemma FromHeld(w: World, token: string, id: int, hash: Hash) returns (es: seq<Event>)
    requires WorldOk(w) && id in w.shared.store.sites && id in w.shared.store.secrets
    requires CanDecide(w, token, id, PrintFingerprint(hash)) && Held(w, token, id, PrintFingerprint(hash))
    ensures Ends(w, es, id, PrintFingerprint(hash))
  {
    var key := PrintFingerprint(hash);
    if Waits(w.shared.auth.pending, token, id, key) {
      es := FromWaiting(w, [], w, token, id, hash);
    } else {
      var t :| t in w.tasks && (Shows(w.tasks[t], token, id, key) || MaySee(w.tasks[t], token, id, key));
      if Shows(w.tasks[t], token, id, key) {
        es := FromShown(w, [], w, t, token, id, hash);
      } else {
        es := FromTesting(w, t, token, id, hash);
      }
    }
  }

  lemma SnapshotIsOk(w: World, t: nat, token: string, id: int, key: string)
    requires WorldOk(w) && t in w.tasks && MaySee(w.tasks[t], token, id, key)
    ensures SiteOk(w.tasks[t].pc.site)
    ensures id in w.shared.store.secrets ==> w.shared.store.secrets[id].kind == SECRET_KIND
  {
    assert TaskOk(w.tasks[t]);
  }

  lemma FromTesting(w: World, t: nat, token: string, id: int, hash: Hash) returns (es: seq<Event>)
    requires WorldOk(w) && id in w.shared.store.sites && id in w.shared.store.secrets
    requires CanDecide(w, token, id, PrintFingerprint(hash))
    requires t in w.tasks && MaySee(w.tasks[t], token, id, PrintFingerprint(hash))
    ensures Ends(w, es, id, PrintFingerprint(hash))
  {
    SnapshotIsOk(w, t, token, id, PrintFingerprint(hash));
    if w.tasks[t].pc.TestDial? {
      es := FromDialling(w, [], w, t, token, id, hash);
    } else {
      es := FromReading(w, [], w, t, token, id, hash);
    }
  }

  lemma LeftoversReturn(w: World, id: int, hash: Hash)
    requires WorldOk(w) && id in w.shared.store.sites && id in w.shared.store.secrets
    requires Leftover(w, id, PrintFingerprint(hash))
    ensures CanReturn(w, id, PrintFingerprint(hash))
  {
    var key := PrintFingerprint(hash);
    var es: seq<Event> := [];
    if !Stores(w.shared.store, id, key) {
      if t :| t in w.tasks && Storing(w.tasks[t], id, key) {
        es := FromStoring(w, [], w, t, id, hash);
      } else {
        var token :| CanDecide(w, token, id, key) && Held(w, token, id, key);
        es := FromHeld(w, token, id, hash);
      }
    }
    assert Ends(w, es, id, key);
    UnreadIsNotSeen(|w.log|, Run(w, es).log, id, key);
  }

  /** At every moment of the service, for every site with its credential and every key: some run from
      then on ends with the site trusting that key, unseen by any test that read the site's row since
      then, exactly when the key is stored, about to be stored, or held for somebody who can decide. */
  lemma ReturnsExactly(w: World, id: int, hash: Hash)
    requires WorldOk(w) && TokensIssued(w) && id in w.shared.store.sites && id in w.shared.store.secrets
    ensures CanReturn(w, id, PrintFingerprint(hash)) <==> Leftover(w, id, PrintFingerprint(hash))
  {
    var key := PrintFingerprint(hash);
    if Leftover(w, id, key) {
      LeftoversReturn(w, id, hash);
    } else {
      forall es | Genuine(w, es) && Stores(Run(w, es).shared.store, id, key)
        ensures SeenAgain(Run(w, es).log, |w.log|, id, key)
      {
        OthersAreSeenAgain(w, es, id, key);
      }
    }
  }

  /** In particular at every moment of every run from a fresh installation. */
  lemma ReturnsExactlyInRuns(w: World, es: seq<Event>, id: int, hash: Hash)
    requires Fresh(w) && id in Run(w, es).shared.store.sites && id in Run(w, es).shared.store.secrets
    ensures CanReturn(Run(w, es), id, PrintFingerprint(hash)) <==> Leftover(Run(w, es), id, PrintFingerprint(hash))
  {
    FreshIsOk(w);
    RunKeeps(w, es);
    UnresolvedTokensAreDead(w, es, "", id);
    ReturnsExactly(Run(w, es), id, hash);
  }
}
