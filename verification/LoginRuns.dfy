/** The login limiter inside the service: the handlers between check and record are the attempts in
    flight. */
module LoginRuns {
  import opened Auth
  import opened Handlers
  import opened Counting
  import L = Limiter

  /** Admitted by the limiter, and neither recorded as a failure nor cleared nor given up. */
  function Attempting(): Task -> bool {
    (task: Task) => && task.LoggingIn?
                    && ( || task.step.LoginFind? || task.step.LoginFailure? || task.step.LoginReread?
                         || task.step.LoginCreate? || task.step.LoginClear?)
  }

  ghost function InFlight(w: World): nat {
    CountTasks(w.tasks, Attempting())
  }

  function Failures(w: World): nat {
    L.FailuresNow(w.shared.auth.attempts, CLIENT_KEY)
  }

  /** In every state of the run at most k attempts are in flight. */
  ghost predicate AtMost(w: World, es: seq<Event>, k: nat) {
    InFlight(Run(w, es)) <= k && (es != [] ==> AtMost(w, es[..|es| - 1], k))
  }

  /** The limiter event a step of the service is, if it is one. */
  function Projected(before: World, e: Event): seq<L.LoginEvent> {
    if e.Restart? then
      if Quiescent(before) then [L.Restarted(before.now)] else []
    else if e.Advance? && Enabled(before, e.t, e.env) && before.tasks[e.t].LoggingIn? then
      var task := before.tasks[e.t];
      var next := StepTask(before, e.t, e.env).tasks[e.t];
      if task.step.LoginCheck? then [L.Check(before.now)]
      else if task.step.LoginFailure? then [L.Failure(before.now)]
      else if task.step.LoginClear? then [L.Success(before.now)]
      else if Attempting()(task) && next.Finished? then [L.Abandoned(before.now)]
      else []
    else []
  }

  /** The limiter events of a run, in the order the steps took place. */
  function History(w: World, es: seq<Event>): seq<L.LoginEvent> {
    if es == [] then []
    else History(w, es[..|es| - 1]) + Projected(Run(w, es[..|es| - 1]), es[|es| - 1])
  }

  ghost predicate Agrees(w: World, s: L.LimiterState, last: nat) {
    w.shared.auth.attempts == s.attempts && InFlight(w) == s.inFlight && last <= w.now
  }

  lemma RunAppend(h: seq<L.LoginEvent>, e: L.LoginEvent)
    ensures L.Run(CLIENT_KEY, h + [e]) == L.Next(L.Run(CLIENT_KEY, h), CLIENT_KEY, e)
    ensures L.LastTime(h + [e]) == e.at
  {
    assert (h + [e])[..|h|] == h;
  }

  /** What a step does to the limiter table. */
  lemma AttemptsStep(s: Shared, call: Call, now: nat, env: Env)
    ensures var (shared, reply) := Perform(s, call, now, env);
            && (call == CheckLogin ==> shared.auth.attempts == AfterCheck(s.auth.attempts, CLIENT_KEY, now)
                                       && reply == Verdict(Admits(s.auth.attempts, CLIENT_KEY, now)))
            && (call == RecordFailure ==> shared.auth.attempts == AfterFailure(s.auth.attempts, CLIENT_KEY, now))
            && (call == ClearFailures ==> shared.auth.attempts == Without(s.auth.attempts, CLIENT_KEY))
            && (call != CheckLogin && call != RecordFailure && call != ClearFailures ==>
                  shared.auth.attempts == s.auth.attempts)
  {
  }

  /** Which limiter call a handler makes. */
  lemma LoginCalls(task: Task)
    ensures Issue(task) == CheckLogin <==> task.LoggingIn? && task.step.LoginCheck?
    ensures Issue(task) == RecordFailure <==> task.LoggingIn? && task.step.LoginFailure?
    ensures Issue(task) == ClearFailures <==> task.LoggingIn? && task.step.LoginClear?
  {
  }

  /** No other handler turns into a login. */
  lemma OnlyLoginsLogIn(task: Task, reply: Reply, env: Env)
    requires !task.LoggingIn?
    ensures !Resume(task, reply, env).LoggingIn?
  {
  }

  /** A login is an attempt after a step if it was admitted, or was one and has not ended. */
  lemma AttemptsGoOn(step: LoginPc, reply: Reply, env: Env)
    ensures var next := ResumeLogin(step, reply, env);
            Attempting()(next) <==>
              || (step.LoginCheck? && reply == Verdict(true))
              || (Attempting()(LoggingIn(step)) && !step.LoginFailure? && !step.LoginClear? && !next.Finished?)
  {
  }

  lemma AttemptingStep(task: Task, reply: Reply, env: Env)
    ensures var next := Resume(task, reply, env);
            Attempting()(next) <==>
              || (task.LoggingIn? && task.step.LoginCheck? && reply == Verdict(true))
              || (Attempting()(task) && !task.step.LoginFailure? && !task.step.LoginClear? && !next.Finished?)
  {
    if task.LoggingIn? {
      AttemptsGoOn(task.step, reply, env);
    } else {
      OnlyLoginsLogIn(task, reply, env);
    }
  }

  lemma AdvanceAgrees(w: World, h: seq<L.LoginEvent>, t: nat, env: Env)
    requires Agrees(w, L.Run(CLIENT_KEY, h), L.LastTime(h)) && Enabled(w, t, env)
    ensures var h' := h + Projected(w, Advance(t, env));
            Agrees(StepTask(w, t, env), L.Run(CLIENT_KEY, h'), L.LastTime(h'))
  {
    var task := w.tasks[t];
    var call := Issue(task);
    var reply := Perform(w.shared, call, w.now, env).1;
    var next := Resume(task, reply, env);
    AttemptsStep(w.shared, call, w.now, env);
    LoginCalls(task);
    AttemptingStep(task, reply, env);
    CountUpdate(w.tasks, t, next, Attempting());
    var events := Projected(w, Advance(t, env));
    if events == [] {
      assert h + events == h;
    } else {
      RunAppend(h, events[0]);
    }
  }

  lemma StepAgrees(w: World, h: seq<L.LoginEvent>, e: Event)
    requires Agrees(w, L.Run(CLIENT_KEY, h), L.LastTime(h))
    ensures var h' := h + Projected(w, e);
            Agrees(Step(w, e), L.Run(CLIENT_KEY, h'), L.LastTime(h'))
  {
    assert h + [] == h;
    match e
    case Arrive(t, request) =>
      if t !in w.tasks {
        CountUpdate(w.tasks, t, Admit(request), Attempting());
      }
    case Advance(t, env) =>
      if Enabled(w, t, env) {
        AdvanceAgrees(w, h, t, env);
      }
    case Tick(_) =>
    case Restart =>
      if Quiescent(w) {
        RunAppend(h, L.Restarted(w.now));
      }
  }

  /** The login steps of every interleaved run are a limiter history: the table and the number of
      attempts in flight are those the history gives. */
  lemma {:induction false} LoginsAreAHistory(w: World, es: seq<Event>)
    requires Fresh(w)
    ensures Agrees(Run(w, es), L.Run(CLIENT_KEY, History(w, es)), L.LastTime(History(w, es)))
  {
    if es == [] {
      CountNone(w.tasks, Attempting());
    } else {
      LoginsAreAHistory(w, es[..|es| - 1]);
      StepAgrees(Run(w, es[..|es| - 1]), History(w, es[..|es| - 1]), es[|es| - 1]);
    }
  }

  /** What ends an attempt was in flight. */
  lemma ProjectedEnds(w: World, e: Event)
    requires Projected(w, e) != []
    ensures |Projected(w, e)| == 1 && Projected(w, e)[0].at == w.now
    ensures L.EndsAttempt(Projected(w, e)[0], InFlight(w))
  {
    if e.Restart? {
      CountNone(w.tasks, Attempting());
    } else if Attempting()(w.tasks[e.t]) {
      CountUpdate(w.tasks, e.t, Finished(Completed), Attempting());
    }
  }

  lemma {:induction false} HistoryIsValid(w: World, es: seq<Event>, k: nat)
    requires Fresh(w) && AtMost(w, es, k)
    ensures L.ValidHistory(CLIENT_KEY, History(w, es), k)
  {
    if es != [] {
      var init := es[..|es| - 1];
      HistoryIsValid(w, init, k);
      LoginsAreAHistory(w, init);
      LoginsAreAHistory(w, es);
      var h := History(w, init);
      var events := Projected(Run(w, init), es[|es| - 1]);
      if events == [] {
        assert h + events == h;
      } else {
        ProjectedEnds(Run(w, init), es[|es| - 1]);
        assert (h + events)[..|h|] == h && (h + events)[|h|] == events[0];
        assert |h + events| == |h| + 1;
      }
    }
  }

  /** Over every interleaved run with at most k login attempts in flight: the counter, together with
      the attempts that may still fail, never exceeds 4 + k; and any fifteen minutes without a
      successful login or a restart hold at most 2 * (4 + k) recorded failures. */
  lemma LoginBounds(w: World, es: seq<Event>, k: nat, i: nat, t: nat)
    requires Fresh(w) && AtMost(w, es, k)
    ensures Failures(Run(w, es)) + InFlight(Run(w, es)) <= 4 + k
    ensures i <= |History(w, es)| && L.NoSuccessFrom(History(w, es), i) ==>
              L.FailuresInSpan(History(w, es), i, t) <= 2 * (4 + k)
  {
    LoginsAreAHistory(w, es);
    HistoryIsValid(w, es, k);
    L.CounterBound(CLIENT_KEY, History(w, es), k);
    if i <= |History(w, es)| && L.NoSuccessFrom(History(w, es), i) {
      L.SpanBound(CLIENT_KEY, History(w, es), k, i, t);
    }
    assert InFlight(Run(w, es)) <= k;
  }

  // ----- lockout -----

  ghost predicate NoneAttempting(tasks: map<nat, Task>) {
    forall t :: t in tasks ==> !Attempting()(tasks[t])
  }

  /** The service does not restart during the run, and no login asks for admission at or after the
      deadline. */
  ghost predicate AsksBefore(w: World, es: seq<Event>, deadline: nat) {
    es == [] ||
    var before := Run(w, es[..|es| - 1]);
    var e := es[|es| - 1];
    && AsksBefore(w, es[..|es| - 1], deadline)
    && !e.Restart?
    && (e.Advance? && Enabled(before, e.t, e.env) && Issue(before.tasks[e.t]).CheckLogin? ==> before.now < deadline)
  }

  /** Every login that asked during the run, from w on, was refused. */
  ghost predicate AllRefused(w: World, es: seq<Event>) {
    forall k :: |w.log| <= k < |Run(w, es).log| && Run(w, es).log[k].call.CheckLogin? ==>
                  Run(w, es).log[k].reply == Verdict(false)
  }

  lemma RefusedStep(s: Shared, task: Task, now: nat, env: Env)
    requires L.LockedOut(s.auth.attempts, CLIENT_KEY) && !Attempting()(task)
    requires Issue(task).CheckLogin? ==> now < s.auth.attempts[CLIENT_KEY].windowStarted + RATE_LIMIT_WINDOW
    ensures var (shared, reply) := Perform(s, Issue(task), now, env);
            && shared.auth.attempts == s.auth.attempts
            && (Issue(task).CheckLogin? ==> reply == Verdict(false))
            && !Attempting()(Resume(task, reply, env))
  {
    LoginCalls(task);
    L.RefusedExactly(s.auth.attempts, CLIENT_KEY, now);
    AttemptingStep(task, Perform(s, Issue(task), now, env).1, env);
    if Issue(task).CheckLogin? {
      assert AfterCheck(s.auth.attempts, CLIENT_KEY, now) == s.auth.attempts;
    }
  }

  /** Over every interleaved run that starts locked out with no attempt in flight: however often
      clients log in before the window's end, all are refused, none gets in flight, and the table does
      not change. So a login is admitted again exactly from fifteen minutes after the window's start. */
  lemma {:induction false} LockoutEndsOnTime(w: World, es: seq<Event>)
    requires L.LockedOut(w.shared.auth.attempts, CLIENT_KEY) && NoneAttempting(w.tasks)
    requires AsksBefore(w, es, w.shared.auth.attempts[CLIENT_KEY].windowStarted + RATE_LIMIT_WINDOW)
    ensures var v := Run(w, es);
            && v.shared.auth.attempts == w.shared.auth.attempts && NoneAttempting(v.tasks)
            && (Admits(v.shared.auth.attempts, CLIENT_KEY, v.now) <==>
                  w.shared.auth.attempts[CLIENT_KEY].windowStarted + RATE_LIMIT_WINDOW <= v.now)
    ensures AllRefused(w, es)
  {
    L.RefusedExactly(w.shared.auth.attempts, CLIENT_KEY, Run(w, es).now);
    if es != [] {
      var init := es[..|es| - 1];
      var e := es[|es| - 1];
      var before := Run(w, init);
      var after := Run(w, es);
      LockoutEndsOnTime(w, init);
      LogGrows(w, init);
      if e.Advance? && Enabled(before, e.t, e.env) {
        var task := before.tasks[e.t];
        RefusedStep(before.shared, task, before.now, e.env);
        assert after.log == before.log + [after.log[|before.log|]];
        forall u | u in after.tasks ensures !Attempting()(after.tasks[u]) {
          if u != e.t {
            assert after.tasks[u] == before.tasks[u];
          }
        }
      }
      forall k | |w.log| <= k < |after.log|
          && after.log[k].call.CheckLogin? ensures after.log[k].reply == Verdict(false) {
        if k < |before.log| {
          assert after.log[k] == before.log[k];
        }
      }
    }
  }
}
