/** The login histories of the service are exactly the histories of the limiter: every one of those
    is produced by some run. */
module LoginHistories {
  import opened Results
  import opened Text
  import opened Records
  import opened Ssh
  import opened Store
  import opened Auth
  import opened Handlers
  import opened Counting
  import opened LoginRuns
  import L = Limiter
  import T = LimiterTight

  const SILENT_PEER := Peer(false, false, false, None, false, false, ReadError, 0, false, [])

  /** Choices under which the database works or fails, the password matches, and this token is drawn. */
  function Choice(works: bool, token: string): Env {
    Env(!works, false, false, SILENT_PEER, Err(Unreachable), Err(Unreachable), token, "", true, "")
  }

  /** The name belongs to a user who can log in. */
  predicate CanLogIn(s: StoreModel, name: string) {
    var user := Trim(name);
    user in s.users && s.users[user].enabled && s.users[user].role.Some?
  }

  /** A run that has this history and, besides finished handlers, only logins that were let in. */
  ghost predicate Realizes(w: World, es: seq<Event>, h: seq<L.LoginEvent>, k: nat, name: string) {
    var v := Run(w, es);
    && History(w, es) == h && AtMost(w, es, k)
    && CanLogIn(v.shared.store, name)
    && forall t :: t in v.tasks ==> v.tasks[t].Finished? || v.tasks[t] == LoggingIn(LoginFind(name))
  }

  // ----- extending a run by one event -----

  lemma Extend(w: World, es: seq<Event>, e: Event, k: nat) returns (longer: seq<Event>)
    requires AtMost(w, es, k) && InFlight(Step(Run(w, es), e)) <= k
    ensures Run(w, longer) == Step(Run(w, es), e) && AtMost(w, longer, k)
    ensures History(w, longer) == History(w, es) + Projected(Run(w, es), e)
  {
    longer := es + [e];
    assert longer[..|es|] == es;
  }

  lemma ProjectsNothing(h: seq<L.LoginEvent>)
    ensures h + [] == h
  {
  }

  /** The run goes on with one step of this login, to `next`, which adds these events to the history;
      users, clock and drawn tokens are as before. */
  ghost predicate Moved(
    w: World, es: seq<Event>, longer: seq<Event>, t: nat, k: nat, next: Task, p: seq<L.LoginEvent>)
  {
    && Run(w, longer).tasks == Run(w, es).tasks[t := next] && Run(w, longer).now == Run(w, es).now
    && Run(w, longer).shared.store.users == Run(w, es).shared.store.users
    && AtMost(w, longer, k) && History(w, longer) == History(w, es) + p
  }

  /** One step of a login, when only this many more attempts may be in flight. */
  lemma LoginStep(w: World, es: seq<Event>, v: World, t: nat, env: Env, k: nat, next: Task, p: seq<L.LoginEvent>)
    returns (longer: seq<Event>)
    requires v == Run(w, es) && AtMost(w, es, k) && Enabled(v, t, env) && v.tasks[t].LoggingIn?
    requires StepTask(v, t, env).tasks[t] == next && Projected(v, Advance(t, env)) == p
    requires StepTask(v, t, env).shared.store.users == v.shared.store.users
    requires Attempting()(next) ==> Attempting()(v.tasks[t]) || InFlight(v) < k
    ensures Moved(w, es, longer, t, k, next, p)
  {
    CountUpdate(v.tasks, t, next, Attempting());
    longer := Extend(w, es, Advance(t, env), k);
  }

  /** What the steps of a login come to, by themselves. */
  lemma Finds(v: World, t: nat, env: Env, name: string)
    requires t in v.tasks && v.tasks[t] == LoggingIn(LoginFind(name)) && CanLogIn(v.shared.store, name)
    requires env.passwordMatches
    ensures var next := if env.dbFails then LoginFailure else LoginReread(name);
            var after := StepTask(v, t, env);
            && after.tasks[t] == LoggingIn(next) && Projected(v, Advance(t, env)) == []
            && after.shared.store.users == v.shared.store.users
  {
  }

  lemma CountsFailure(v: World, t: nat, env: Env)
    requires t in v.tasks && v.tasks[t] == LoggingIn(LoginFailure)
    ensures var after := StepTask(v, t, env);
            && after.tasks[t] == LoggingIn(LoginFailureAudit)
            && Projected(v, Advance(t, env)) == [L.Failure(v.now)]
            && after.shared.store.users == v.shared.store.users
  {
  }

  lemma AuditsFailure(v: World, t: nat, env: Env)
    requires t in v.tasks && v.tasks[t] == LoggingIn(LoginFailureAudit)
    ensures var after := StepTask(v, t, env);
            && after.tasks[t] == Finished(Rejected) && Projected(v, Advance(t, env)) == []
            && after.shared.store.users == v.shared.store.users
  {
  }

  lemma Rereads(v: World, t: nat, env: Env, name: string)
    requires t in v.tasks && v.tasks[t] == LoggingIn(LoginReread(name)) && CanLogIn(v.shared.store, name)
    ensures var after := StepTask(v, t, env);
            && after.tasks[t] == (if env.dbFails then Finished(Rejected)
                                  else LoggingIn(LoginCreate(v.shared.store.users[Trim(name)])))
            && Projected(v, Advance(t, env)) == (if env.dbFails then [L.Abandoned(v.now)] else [])
            && after.shared.store.users == v.shared.store.users
  {
  }

  lemma Creates(v: World, t: nat, env: Env, user: User)
    requires t in v.tasks && v.tasks[t] == LoggingIn(LoginCreate(user))
    requires user.role.Some? && env.token !in v.issued
    ensures var after := StepTask(v, t, env);
            && after.tasks[t] == LoggingIn(LoginClear(user.id, env.token)) && Projected(v, Advance(t, env)) == []
            && after.shared.store.users == v.shared.store.users
  {
  }

  lemma Forgets(v: World, t: nat, env: Env, userId: int, token: string)
    requires t in v.tasks && v.tasks[t] == LoggingIn(LoginClear(userId, token))
    ensures var after := StepTask(v, t, env);
            && after.tasks[t] == LoggingIn(LoginAudit(userId, token))
            && Projected(v, Advance(t, env)) == [L.Success(v.now)]
            && after.shared.store.users == v.shared.store.users
  {
  }

  lemma Enters(v: World, t: nat, env: Env, userId: int, token: string)
    requires t in v.tasks && v.tasks[t] == LoggingIn(LoginAudit(userId, token))
    ensures var after := StepTask(v, t, env);
            && after.tasks[t] == Finished(LoggedIn(token)) && Projected(v, Advance(t, env)) == []
            && after.shared.store.users == v.shared.store.users
  {
  }

  // ----- a number and a token not used yet -----

  lemma {:induction false} Above(s: set<nat>) returns (m: nat)
    ensures forall x :: x in s ==> x < m
  {
    m := 0;
    if s != {} {
      var y :| y in s;
      var below := Above(s - {y});
      m := if below <= y then y + 1 else below;
      assert forall x :: x in s ==> x == y || x in s - {y};
    }
  }

  lemma {:induction false} LongerThanAll(s: set<string>) returns (long: string)
    ensures |long| > 0 && forall x :: x in s ==> |x| < |long|
  {
    long := "x";
    if s != {} {
      var y :| y in s;
      var rest := LongerThanAll(s - {y});
      long := rest + y;
      assert forall x :: x in s ==> x in s - {y} || x == y;
    }
  }

  // ----- the events of a history, one by one -----

  lemma TimePasses(w: World, es: seq<Event>, h: seq<L.LoginEvent>, k: nat, name: string, at: nat)
    returns (longer: seq<Event>)
    requires Realizes(w, es, h, k, name) && Run(w, es).now <= at
    ensures Realizes(w, longer, h, k, name) && Run(w, longer).now == at
  {
    longer := Extend(w, es, Tick(at - Run(w, es).now), k);
    ProjectsNothing(h);
  }

  lemma Arrives(w: World, es: seq<Event>, h: seq<L.LoginEvent>, k: nat, name: string)
    returns (longer: seq<Event>, m: nat)
    requires Realizes(w, es, h, k, name)
    ensures m !in Run(w, es).tasks
    ensures var v := Run(w, es);
            && Run(w, longer) == v.(tasks := v.tasks[m := LoggingIn(LoginCheck(name))])
            && AtMost(w, longer, k) && History(w, longer) == h && InFlight(Run(w, longer)) == InFlight(v)
  {
    var v := Run(w, es);
    m := Above(v.tasks.Keys);
    CountUpdate(v.tasks, m, Admit(Request.Login(name)), Attempting());
    longer := Extend(w, es, Arrive(m, Request.Login(name)), k);
    ProjectsNothing(h);
  }

  lemma IsAnswered(v: World, t: nat, env: Env, name: string)
    requires t in v.tasks && v.tasks[t] == LoggingIn(LoginCheck(name))
    ensures var after := StepTask(v, t, env);
            && after.tasks[t] == (if Admits(v.shared.auth.attempts, CLIENT_KEY, v.now) then LoggingIn(LoginFind(name))
                                  else Finished(Rejected))
            && Projected(v, Advance(t, env)) == [L.Check(v.now)]
            && after.shared.store.users == v.shared.store.users
  {
  }

  lemma Asks(w: World, es: seq<Event>, h: seq<L.LoginEvent>, k: nat, name: string) returns (longer: seq<Event>)
    requires Realizes(w, es, h, k, name)
    requires Admits(Run(w, es).shared.auth.attempts, CLIENT_KEY, Run(w, es).now) ==> InFlight(Run(w, es)) < k
    ensures Realizes(w, longer, h + [L.Check(Run(w, es).now)], k, name) && Run(w, longer).now == Run(w, es).now
  {
    var arrived, m := Arrives(w, es, h, k, name);
    var v := Run(w, arrived);
    var env := Choice(true, "");
    IsAnswered(v, m, env, name);
    var next := StepTask(v, m, env).tasks[m];
    longer := LoginStep(w, arrived, v, m, env, k, next, [L.Check(v.now)]);
  }

  lemma Fails(w: World, es: seq<Event>, h: seq<L.LoginEvent>, k: nat, name: string, t: nat)
    returns (longer: seq<Event>)
    requires Realizes(w, es, h, k, name)
    requires t in Run(w, es).tasks && Run(w, es).tasks[t] == LoggingIn(LoginFind(name))
    ensures Realizes(w, longer, h + [L.Failure(Run(w, es).now)], k, name) && Run(w, longer).now == Run(w, es).now
  {
    var env := Choice(false, "");
    Finds(Run(w, es), t, env, name);
    longer := LoginStep(w, es, Run(w, es), t, env, k, LoggingIn(LoginFailure), []);
    ProjectsNothing(h);
    CountsFailure(Run(w, longer), t, env);
    var now := Run(w, longer).now;
    longer := LoginStep(w, longer, Run(w, longer), t, env, k, LoggingIn(LoginFailureAudit), [L.Failure(now)]);
    AuditsFailure(Run(w, longer), t, env);
    ProjectsNothing(History(w, longer));
    longer := LoginStep(w, longer, Run(w, longer), t, env, k, Finished(Rejected), []);
  }

  /** The name is known and the password matches. */
  lemma Proves(w: World, es: seq<Event>, h: seq<L.LoginEvent>, k: nat, name: string, t: nat)
    returns (longer: seq<Event>)
    requires Realizes(w, es, h, k, name)
    requires t in Run(w, es).tasks && Run(w, es).tasks[t] == LoggingIn(LoginFind(name))
    ensures Moved(w, es, longer, t, k, LoggingIn(LoginReread(name)), [])
  {
    var env := Choice(true, "");
    Finds(Run(w, es), t, env, name);
    longer := LoginStep(w, es, Run(w, es), t, env, k, LoggingIn(LoginReread(name)), []);
  }

  lemma GivesUp(w: World, es: seq<Event>, h: seq<L.LoginEvent>, k: nat, name: string, t: nat)
    returns (longer: seq<Event>)
    requires Realizes(w, es, h, k, name)
    requires t in Run(w, es).tasks && Run(w, es).tasks[t] == LoggingIn(LoginFind(name))
    ensures Realizes(w, longer, h + [L.Abandoned(Run(w, es).now)], k, name) && Run(w, longer).now == Run(w, es).now
  {
    longer := Proves(w, es, h, k, name, t);
    ProjectsNothing(h);
    var v := Run(w, longer);
    var env := Choice(false, "");
    Rereads(v, t, env, name);
    longer := LoginStep(w, longer, v, t, env, k, Finished(Rejected), [L.Abandoned(v.now)]);
  }

  lemma Succeeds(w: World, es: seq<Event>, h: seq<L.LoginEvent>, k: nat, name: string, t: nat)
    returns (longer: seq<Event>)
    requires Realizes(w, es, h, k, name)
    requires t in Run(w, es).tasks && Run(w, es).tasks[t] == LoggingIn(LoginFind(name))
    ensures Realizes(w, longer, h + [L.Success(Run(w, es).now)], k, name) && Run(w, longer).now == Run(w, es).now
  {
    var user := Run(w, es).shared.store.users[Trim(name)];
    longer := Proves(w, es, h, k, name, t);
    ProjectsNothing(h);
    Rereads(Run(w, longer), t, Choice(true, ""), name);
    longer := LoginStep(w, longer, Run(w, longer), t, Choice(true, ""), k, LoggingIn(LoginCreate(user)), []);
    ProjectsNothing(h);
    var token := LongerThanAll(Run(w, longer).issued);
    assert token !in Run(w, longer).issued;
    Creates(Run(w, longer), t, Choice(true, token), user);
    var next := LoggingIn(LoginClear(user.id, token));
    longer := LoginStep(w, longer, Run(w, longer), t, Choice(true, token), k, next, []);
    ProjectsNothing(h);
    longer := EntersAtLast(w, longer, h, k, name, t, user.id, token);
  }

  /** Every handler but this one has finished or been let in to log in. */
  ghost predicate OthersIdle(tasks: map<nat, Task>, name: string, t: nat) {
    forall u :: u in tasks && u != t ==> tasks[u].Finished? || tasks[u] == LoggingIn(LoginFind(name))
  }

  lemma EntersAtLast(
    w: World, es: seq<Event>, h: seq<L.LoginEvent>, k: nat, name: string, t: nat, userId: int, token: string)
    returns (longer: seq<Event>)
    requires AtMost(w, es, k) && History(w, es) == h && CanLogIn(Run(w, es).shared.store, name)
    requires OthersIdle(Run(w, es).tasks, name, t)
    requires t in Run(w, es).tasks && Run(w, es).tasks[t] == LoggingIn(LoginClear(userId, token))
    ensures Realizes(w, longer, h + [L.Success(Run(w, es).now)], k, name) && Run(w, longer).now == Run(w, es).now
  {
    var env := Choice(true, "");
    var now := Run(w, es).now;
    Forgets(Run(w, es), t, env, userId, token);
    longer := LoginStep(w, es, Run(w, es), t, env, k, LoggingIn(LoginAudit(userId, token)), [L.Success(now)]);
    Enters(Run(w, longer), t, env, userId, token);
    ProjectsNothing(History(w, longer));
    longer := LoginStep(w, longer, Run(w, longer), t, env, k, Finished(LoggedIn(token)), []);
  }

  lemma StartsAgain(w: World, es: seq<Event>, h: seq<L.LoginEvent>, k: nat, name: string) returns (longer: seq<Event>)
    requires Realizes(w, es, h, k, name) && InFlight(Run(w, es)) == 0
    ensures Realizes(w, longer, h + [L.Restarted(Run(w, es).now)], k, name) && Run(w, longer).now == Run(w, es).now
  {
    var v := Run(w, es);
    assert Chosen(v.tasks, Attempting()) == {};
    forall t | t in v.tasks ensures v.tasks[t].Finished? {
      assert t !in Chosen(v.tasks, Attempting());
    }
    longer := Extend(w, es, Restart, k);
  }

  lemma SomeAttempt(v: World, name: string) returns (t: nat)
    requires forall t :: t in v.tasks ==> v.tasks[t].Finished? || v.tasks[t] == LoggingIn(LoginFind(name))
    requires InFlight(v) > 0
    ensures t in v.tasks && v.tasks[t] == LoggingIn(LoginFind(name))
  {
    t :| t in Chosen(v.tasks, Attempting());
  }

  lemma OneMore(w: World, es: seq<Event>, h: seq<L.LoginEvent>, k: nat, name: string, e: L.LoginEvent)
    returns (longer: seq<Event>)
    requires Realizes(w, es, h, k, name) && Run(w, es).now == e.at
    requires L.EndsAttempt(e, InFlight(Run(w, es)))
    requires e.Check? && Admits(Run(w, es).shared.auth.attempts, CLIENT_KEY, e.at) ==> InFlight(Run(w, es)) < k
    ensures Realizes(w, longer, h + [e], k, name) && Run(w, longer).now == e.at
  {
    match e
    case Check(_) => longer := Asks(w, es, h, k, name);
    case Restarted(_) => longer := StartsAgain(w, es, h, k, name);
    case Failure(_) =>
      var t := SomeAttempt(Run(w, es), name);
      longer := Fails(w, es, h, k, name, t);
    case Success(_) =>
      var t := SomeAttempt(Run(w, es), name);
      longer := Succeeds(w, es, h, k, name, t);
    case Abandoned(_) =>
      var t := SomeAttempt(Run(w, es), name);
      longer := GivesUp(w, es, h, k, name, t);
  }

  lemma ValidStep(h: seq<L.LoginEvent>, k: nat)
    requires L.ValidHistory(CLIENT_KEY, h, k) && h != []
    ensures var before := h[..|h| - 1];
            var e := h[|h| - 1];
            && before + [e] == h && L.ValidHistory(CLIENT_KEY, before, k) && L.LastTime(before) <= e.at
            && L.EndsAttempt(e, L.Run(CLIENT_KEY, before).inFlight) && L.Run(CLIENT_KEY, before + [e]).inFlight <= k
            && L.LastTime(h) == e.at
  {
  }

  lemma {:induction false} Realized(w: World, h: seq<L.LoginEvent>, k: nat, name: string) returns (es: seq<Event>)
    requires Fresh(w) && w.now == 0 && CanLogIn(w.shared.store, name) && L.ValidHistory(CLIENT_KEY, h, k)
    ensures Realizes(w, es, h, k, name) && Run(w, es).now == L.LastTime(h)
  {
    es := [];
    if h == [] {
      CountNone(w.tasks, Attempting());
    } else {
      var before := h[..|h| - 1];
      var e := h[|h| - 1];
      ValidStep(h, k);
      es := Realized(w, before, k, name);
      es := ThenOneMore(w, es, before, k, name, e);
    }
  }

  lemma ThenOneMore(w: World, es: seq<Event>, h: seq<L.LoginEvent>, k: nat, name: string, e: L.LoginEvent)
    returns (longer: seq<Event>)
    requires Fresh(w) && Realizes(w, es, h, k, name) && Run(w, es).now <= e.at
    requires L.EndsAttempt(e, L.Run(CLIENT_KEY, h).inFlight) && L.Run(CLIENT_KEY, h + [e]).inFlight <= k
    ensures Realizes(w, longer, h + [e], k, name) && Run(w, longer).now == e.at
  {
    longer := TimePasses(w, es, h, k, name, e.at);
    LoginsAreAHistory(w, longer);
    RunAppend(h, e);
    longer := OneMore(w, longer, h, k, name, e);
  }

  lemma SomeRunHas(w: World, h: seq<L.LoginEvent>, k: nat, name: string)
    requires Fresh(w) && w.now == 0 && CanLogIn(w.shared.store, name) && L.ValidHistory(CLIENT_KEY, h, k)
    ensures exists es :: AtMost(w, es, k) && History(w, es) == h
  {
    var es := Realized(w, h, k, name);
    assert AtMost(w, es, k) && History(w, es) == h;
  }

  /** A history of checks, failures, successes, abandoned attempts and restarts is the login history of
      some run with at most k attempts in flight exactly when the limiter allows it: the clock is
      monotone, only attempts in flight end, and at most k of them are. */
  lemma HistoriesAreExact(w: World, h: seq<L.LoginEvent>, k: nat, name: string)
    requires Fresh(w) && w.now == 0 && CanLogIn(w.shared.store, name)
    ensures L.ValidHistory(CLIENT_KEY, h, k) <==> exists es :: AtMost(w, es, k) && History(w, es) == h
  {
    if L.ValidHistory(CLIENT_KEY, h, k) {
      SomeRunHas(w, h, k, name);
    }
    if es :| AtMost(w, es, k) && History(w, es) == h {
      HistoryIsValid(w, es, k);
    }
  }

  /** The bounds of the login limiter are exact for the service: for every k, some run with at most k
      attempts in flight fills a window with 4 + k failures and records 2 * (4 + k) within fifteen
      minutes, with no success or restart in between. */
  lemma LoginBoundsAreReached(w: World, k: nat, name: string)
    requires Fresh(w) && w.now == 0 && CanLogIn(w.shared.store, name)
    requires 1 <= k && 4 + k <= U32_MAX
    ensures exists es, t: nat ::
              && AtMost(w, es, k) && Failures(Run(w, es)) == 4 + k
              && L.NoSuccessFrom(History(w, es), 0) && L.FailuresInSpan(History(w, es), 0, t) == 2 * (4 + k)
  {
    T.BoundsAreReached(CLIENT_KEY, k);
    var h, t: nat :| && L.ValidHistory(CLIENT_KEY, h, k) && L.NoSuccessFrom(h, 0)
                     && L.FailuresNow(L.Run(CLIENT_KEY, h).attempts, CLIENT_KEY) == 4 + k
                     && L.FailuresInSpan(h, 0, t) == 2 * (4 + k);
    var es := Realized(w, h, k, name);
    LoginsAreAHistory(w, es);
    assert L.FailuresInSpan(History(w, es), 0, t) == 2 * (4 + k);
  }
}
