/** A handler left alone is a run of the service like any other: the one in which no other handler
    takes a step. What holds for every run therefore holds for the handlers as methods. */
module AloneRuns {
  import opened Handlers
  import opened App
  import opened WellFormed

  function Advances(t: nat, envs: seq<Env>): seq<Event> {
    seq(|envs|, (k: nat) requires k < |envs| => Advance(t, envs[k]))
  }

  /** The session tokens on offer are new and differ from each other. */
  predicate NewTokens(envs: seq<Env>, issued: set<string>) {
    && (forall k | 0 <= k < |envs| :: envs[k].token !in issued)
    && (forall j, k | 0 <= j < k < |envs| :: envs[j].token != envs[k].token)
  }

  /** One step in the service, when nothing else moves. */
  lemma AdvanceIsAlone(w: World, t: nat, env: Env)
    requires t in w.tasks && env.token !in w.issued
    ensures var next := Step(w, Advance(t, env));
            && (next.shared, next.tasks[t]) == Alone(w.shared, w.tasks[t], w.now, env)
            && next.tasks == w.tasks[t := next.tasks[t]] && next.now == w.now
            && next.issued <= w.issued + {env.token}
  {
    if w.tasks[t].Finished? {
      assert w.tasks == w.tasks[t := w.tasks[t]];
    }
  }

  /** One step of a handler, as a step of the service. */
  lemma StepIsAlone(w: World, t: nat, env: Env)
    requires t in w.tasks && w.tasks[t].Busy? && !Issue(w.tasks[t]).CreateSession?
    ensures var v := Step(w, Advance(t, env));
            && (v.shared, v.tasks[t]) == Alone(w.shared, w.tasks[t], w.now, env)
            && v.tasks == w.tasks[t := v.tasks[t]]
  {
  }

  lemma RunOn(w: World, es: seq<Event>, e: Event)
    ensures Run(w, es + [e]) == Step(Run(w, es), e)
  {
    assert (es + [e])[..|es|] == es;
  }

  lemma {:induction false} TraceIsRun(
    w: World, t: nat, envs: seq<Env>, trace: seq<(Shared, Task)>, after: Shared, r: Response, n: nat)
    requires t in w.tasks && NewTokens(envs, w.issued) && n <= |envs|
    requires IsTrace(trace, w.shared, w.tasks[t], w.now, envs, 0, after, r)
    ensures var v := Run(w, Advances(t, envs[..n]));
            && v.shared == trace[n].0 && v.tasks == w.tasks[t := trace[n].1] && v.now == w.now
            && forall k | n <= k < |envs| :: envs[k].token !in v.issued
  {
    if n == 0 {
      assert w.tasks == w.tasks[t := w.tasks[t]];
    } else {
      TraceIsRun(w, t, envs, trace, after, r, n - 1);
      var es := Advances(t, envs[..n]);
      assert es[..n - 1] == Advances(t, envs[..n - 1]);
      var before := Run(w, es[..n - 1]);
      AdvanceIsAlone(before, t, envs[n - 1]);
      assert StepAt(trace, w.now, envs, 0, n - 1);
      assert Run(w, es) == Step(before, Advance(t, envs[n - 1]));
    }
  }

  lemma AloneIsARun(w: World, t: nat, envs: seq<Env>, after: Shared, r: Response)
    requires t in w.tasks && NewTokens(envs, w.issued)
    requires EndsAs(w.shared, w.tasks[t], w.now, envs, 0, after, r)
    ensures var v := Run(w, Advances(t, envs));
            v.shared == after && v.tasks == w.tasks[t := Finished(r)] && v.now == w.now
  {
    var trace :| IsTrace(trace, w.shared, w.tasks[t], w.now, envs, 0, after, r);
    TraceIsRun(w, t, envs, trace, after, r, |envs|);
    assert envs[..|envs|] == envs;
  }

  /** What holds of every run holds of every handler method, since each ends as its handler does when
      left alone: whatever is asked and whatever fails, a handler leaves a well-formed store well
      formed, with distinct unicast addresses, unique names and no dangling device or secret. */
  lemma HandlersKeepStore(s: Shared, request: Request, now: nat, envs: seq<Env>, after: Shared, r: Response)
    requires StoreOk(s.store) && NewTokens(envs, {})
    requires EndsAs(s, Admit(request), now, envs, 0, after, r)
    ensures StoreOk(after.store)
  {
    var idle := World(s, now, map[], [], {});
    StepKeeps(idle, Arrive(0, request));
    var w := Step(idle, Arrive(0, request));
    AloneIsARun(w, 0, envs, after, r);
    RunKeeps(w, Advances(0, envs));
  }
}
