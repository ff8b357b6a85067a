/** A session token that stopped working has no effect any more, although the fingerprints that wait
    under it may still be in memory. */
module DeadTokens {
  import opened Results
  import opened Auth
  import opened Handlers

  /** The token was drawn, does not resolve, and no handler is under way for it. */
  ghost predicate Dead(w: World, token: string) {
    && token in w.issued
    && !Resolves(w.shared.auth.sessions, token, w.now)
    && forall t :: t in w.tasks ==> !ActsFor(w.tasks[t], token)
  }

  predicate ActsFor(task: Task, token: string) {
    task.Busy? && task.ctx.token == token
  }

  /** Steps that touch what waits under the token. */
  predicate Touches(entry: Entry, token: string) {
    || (entry.call.SetPending? && entry.call.token == token)
    || (entry.call.TakePending? && entry.call.token == token)
    || ActsFor(entry.task, token)
  }

  lemma StaysUnresolved(s: Shared, call: Call, now: nat, env: Env, token: string)
    requires !Resolves(s.auth.sessions, token, now)
    requires call.CreateSession? ==> env.token != token
    ensures var (shared, reply) := Perform(s, call, now, env);
            && !Resolves(shared.auth.sessions, token, now)
            && (call == LookupSession(token) ==> reply == SessionFound(None))
  {
  }

  /** Only a guard whose look-up succeeded starts to act for a token. */
  lemma ActingStarts(task: Task, reply: Reply, env: Env, token: string)
    requires !ActsFor(task, token) && ActsFor(Resume(task, reply, env), token)
    ensures task.Guard? && task.token == token && reply != SessionFound(None)
  {
  }

  lemma TouchesOnlyOwn(task: Task, token: string)
    requires !ActsFor(task, token)
    ensures !(Issue(task).SetPending? && Issue(task).token == token)
    ensures !(Issue(task).TakePending? && Issue(task).token == token)
  {
  }

  lemma DeadStep(w: World, t: nat, env: Env, token: string)
    requires Dead(w, token) && Enabled(w, t, env)
    ensures Dead(StepTask(w, t, env), token)
    ensures !Touches(StepTask(w, t, env).log[|w.log|], token)
  {
    var task := w.tasks[t];
    var call := Issue(task);
    var reply := Perform(w.shared, call, w.now, env).1;
    StaysUnresolved(w.shared, call, w.now, env, token);
    TouchesOnlyOwn(task, token);
    if ActsFor(Resume(task, reply, env), token) {
      ActingStarts(task, reply, env, token);
    }
    var w' := StepTask(w, t, env);
    forall u | u in w'.tasks ensures !ActsFor(w'.tasks[u], token) {
      if u != t {
        assert w'.tasks[u] == w.tasks[u];
      }
    }
  }

  ghost predicate NeverTouched(w: World, es: seq<Event>, token: string) {
    forall k :: |w.log| <= k < |Run(w, es).log| ==> !Touches(Run(w, es).log[k], token)
  }

  /** A dead token stays dead through every interleaved run, and no step of the run stores, takes or
      decides anything under it: the fingerprints left waiting there can never be used. */
  lemma {:induction false} DeadTokensHaveNoEffect(w: World, es: seq<Event>, token: string)
    requires Dead(w, token)
    ensures Dead(Run(w, es), token)
    ensures |w.log| <= |Run(w, es).log| && NeverTouched(w, es, token)
  {
    if es != [] {
      var init := es[..|es| - 1];
      var e := es[|es| - 1];
      var before := Run(w, init);
      var after := Run(w, es);
      DeadTokensHaveNoEffect(w, init, token);
      if e.Advance? && Enabled(before, e.t, e.env) {
        DeadStep(before, e.t, e.env, token);
        assert after.log == before.log + [after.log[|before.log|]];
      }
      forall k | |w.log| <= k < |after.log| ensures !Touches(after.log[k], token) {
        if k < |before.log| {
          assert after.log[k] == before.log[k];
        }
      }
    }
  }

  // ----- sessions and the tokens drawn for them -----

  /** Every session, and every handler, works under a token that was drawn; a session ends at most
      eight hours from now. */
  ghost predicate TokensIssued(w: World) {
    && (forall token :: token in w.shared.auth.sessions ==>
          token in w.issued && w.shared.auth.sessions[token].expiresAt <= w.now + SESSION_TTL)
    && (forall t :: t in w.tasks && w.tasks[t].Busy? ==> w.tasks[t].ctx.token in w.issued)
    && (forall k :: k in w.shared.auth.pending ==> k.0 in w.issued)
  }

  lemma IssuedShared(w: World, t: nat, env: Env)
    requires TokensIssued(w) && Enabled(w, t, env)
    ensures var shared := Perform(w.shared, Issue(w.tasks[t]), w.now, env).0;
            && (forall token :: token in shared.auth.sessions ==>
                  (token in w.issued || (Issue(w.tasks[t]).CreateSession? && token == env.token))
                  && shared.auth.sessions[token].expiresAt <= w.now + SESSION_TTL)
            && (forall k :: k in shared.auth.pending ==> k.0 in w.issued)
  {
    var task := w.tasks[t];
    if Issue(task).SetPending? {
      assert task.Busy? && Issue(task).token == task.ctx.token;
    }
  }

  lemma IssuedResume(w: World, t: nat, env: Env)
    requires TokensIssued(w) && Enabled(w, t, env)
    ensures var next := Resume(w.tasks[t], Perform(w.shared, Issue(w.tasks[t]), w.now, env).1, env);
            next.Busy? ==> next.ctx.token in w.issued
  {
    var task := w.tasks[t];
    var reply := Perform(w.shared, Issue(task), w.now, env).1;
    var next := Resume(task, reply, env);
    if next.Busy? && !ActsFor(task, next.ctx.token) {
      ActingStarts(task, reply, env, next.ctx.token);
    }
  }

  lemma IssuedStep(w: World, e: Event)
    requires TokensIssued(w)
    ensures TokensIssued(Step(w, e))
  {
    if e.Advance? && Enabled(w, e.t, e.env) {
      IssuedShared(w, e.t, e.env);
      IssuedResume(w, e.t, e.env);
      var w' := StepTask(w, e.t, e.env);
      forall u | u in w'.tasks && w'.tasks[u].Busy? ensures w'.tasks[u].ctx.token in w'.issued {
        if u != e.t {
          assert w'.tasks[u] == w.tasks[u];
        }
      }
    }
  }

  /** In every reachable state whatever waits, runs or is logged in does so under a drawn token, so a
      token that no longer resolves and has no handler under way is dead in the sense above. */
  lemma {:induction false} UnresolvedTokensAreDead(w: World, es: seq<Event>, token: string, id: int)
    requires Fresh(w)
    ensures TokensIssued(Run(w, es))
    ensures (token, id) in Run(w, es).shared.auth.pending
              && !Resolves(Run(w, es).shared.auth.sessions, token, Run(w, es).now)
            && (forall t :: t in Run(w, es).tasks ==> !ActsFor(Run(w, es).tasks[t], token)) ==>
              Dead(Run(w, es), token)
  {
    if es != [] {
      UnresolvedTokensAreDead(w, es[..|es| - 1], token, id);
      IssuedStep(Run(w, es[..|es| - 1]), es[|es| - 1]);
    }
  }

  // ----- eight hours -----

  /** When the session a token names was created, read off the run: the time of the step that drew
      the token, unless a logout or a restart came later. */
  ghost function CreatedAt(w: World, es: seq<Event>, token: string): Option<nat> {
    if es == [] then None
    else
      var before := Run(w, es[..|es| - 1]);
      var earlier := CreatedAt(w, es[..|es| - 1], token);
      CreatedAfter(before, es[|es| - 1], token, earlier)
  }

  ghost function CreatedAfter(before: World, e: Event, token: string, earlier: Option<nat>): Option<nat> {
    if e.Restart? then (if Quiescent(before) then None else earlier)
    else if e.Advance? && Enabled(before, e.t, e.env) then
      var call := Issue(before.tasks[e.t]);
      if call.CreateSession? && call.user.role.Some? && e.env.token == token then Some(before.now)
      else if call == DropSession(token) then None
      else earlier
    else earlier
  }

  /** The table holds the session with its eight hours, or nothing any more once they are over. */
  predicate Dated(sessions: Sessions, now: nat, token: string, created: Option<nat>) {
    && (token in sessions ==> created.Some? && sessions[token].expiresAt == created.value + SESSION_TTL)
    && (token !in sessions && created.Some? ==> created.value + SESSION_TTL <= now)
  }

  lemma DatedStep(s: Shared, call: Call, now: nat, env: Env, token: string, created: Option<nat>)
    requires Dated(s.auth.sessions, now, token, created)
    ensures var after := if call.CreateSession? && call.user.role.Some? && env.token == token then Some(now)
                         else if call == DropSession(token) then None
                         else created;
            Dated(Perform(s, call, now, env).0.auth.sessions, now, token, after)
  {
  }

  lemma {:induction false} SessionsAreDated(w: World, es: seq<Event>, token: string)
    requires Fresh(w)
    ensures Dated(Run(w, es).shared.auth.sessions, Run(w, es).now, token, CreatedAt(w, es, token))
  {
    if es != [] {
      var init := es[..|es| - 1];
      var e := es[|es| - 1];
      var before := Run(w, init);
      SessionsAreDated(w, init, token);
      if e.Advance? && Enabled(before, e.t, e.env) {
        DatedStep(before.shared, Issue(before.tasks[e.t]), before.now, e.env, token, CreatedAt(w, init, token));
      }
    }
  }

  /** Over every interleaved run a token resolves exactly from the step that drew it until eight hours
      later, unless a logout or a restart ended it: the table that drops expired entries only when it
      is asked for them answers like one that drops them on time. */
  lemma SessionsLastEightHours(w: World, es: seq<Event>, token: string)
    requires Fresh(w)
    ensures var v := Run(w, es);
            Resolves(v.shared.auth.sessions, token, v.now) <==>
              CreatedAt(w, es, token).Some? && v.now < CreatedAt(w, es, token).value + SESSION_TTL
  {
    SessionsAreDated(w, es, token);
  }

  lemma ExpiryStep(w: World, e: Event, token: string, deadline: nat)
    requires token in w.issued
    requires token in w.shared.auth.sessions ==> w.shared.auth.sessions[token].expiresAt <= deadline
    ensures var sessions := Step(w, e).shared.auth.sessions;
            token in sessions ==> sessions[token].expiresAt <= deadline
    ensures token in Step(w, e).issued
  {
  }

  /** A session under a drawn token can only have been created before that. */
  lemma {:induction false} ExpiryIsBounded(w: World, es: seq<Event>, n: nat, token: string)
    requires n <= |es| && token in Run(w, es[..n]).issued
    requires TokensIssued(Run(w, es[..n]))
    ensures var sessions := Run(w, es).shared.auth.sessions;
            token in sessions ==> sessions[token].expiresAt <= Run(w, es[..n]).now + SESSION_TTL
    ensures token in Run(w, es).issued
    decreases |es|
  {
    if n == |es| {
      assert es[..n] == es;
    } else {
      var init := es[..|es| - 1];
      assert init[..n] == es[..n];
      ExpiryIsBounded(w, init, n, token);
      ExpiryStep(Run(w, init), es[|es| - 1], token, Run(w, es[..n]).now + SESSION_TTL);
    }
  }

  /** Eight hours after any moment at which a token had been drawn it does not resolve, in any run,
      and once the handlers it started have finished it is dead for good. */
  lemma ExpiredTokenIsDead(w: World, es: seq<Event>, n: nat, token: string)
    requires Fresh(w) && n <= |es| && token in Run(w, es[..n]).issued
    requires Run(w, es[..n]).now + SESSION_TTL <= Run(w, es).now
    ensures !Resolves(Run(w, es).shared.auth.sessions, token, Run(w, es).now)
    ensures (forall t :: t in Run(w, es).tasks ==> !ActsFor(Run(w, es).tasks[t], token)) ==> Dead(Run(w, es), token)
  {
    UnresolvedTokensAreDead(w, es[..n], token, 0);
    ExpiryIsBounded(w, es, n, token);
  }
}
