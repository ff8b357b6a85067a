/** When a key can be trusted without being seen again. The service promises that a changed endpoint
    has to be trusted again; this says, for any moment, which keys a site can still come to have
    without a test that reads its row from then on. */
module Retrust {
  import opened Results
  import opened Records
  import opened Store
  import opened Auth
  import opened Handlers
  import opened Trust
  import opened DeadTokens
  import opened App

  // ----- what is left over at a moment -----

  predicate Stores(s: StoreModel, id: int, key: string) {
    id in s.sites && s.sites[id].fingerprint == Some(key)
  }

  /** A handler about to take the waiting key of this session and site, if it is this one. */
  predicate Deciding(task: Task, token: string, id: int, key: string) {
    task.Busy? && task.ctx.token == token && task.pc == TrustTake(id, key)
  }

  predicate LiveAdmin(w: World, token: string) {
    Resolves(w.shared.auth.sessions, token, w.now) && w.shared.auth.sessions[token].role == Admin
  }

  /** Somebody can still decide to trust this key under this token. */
  ghost predicate CanDecide(w: World, token: string, id: int, key: string) {
    LiveAdmin(w, token) || exists t :: t in w.tasks && Deciding(w.tasks[t], token, id, key)
  }

  /** A test that has seen this key and is about to leave it waiting. */
  predicate Shows(task: Task, token: string, id: int, key: string) {
    task.Busy? && task.ctx.token == token && task.pc == TestPending(id, key)
  }

  /** A test that has read the row and can still see this key: any, or only the trusted one. */
  predicate MaySee(task: Task, token: string, id: int, key: string) {
    && task.Busy? && task.ctx.token == token
    && (task.pc.TestCredential? || task.pc.TestDial?) && task.pc.id == id
    && (task.pc.site.fingerprint.None? || task.pc.site.fingerprint == Some(key))
  }

  /** About to store this key. */
  predicate Storing(task: Task, id: int, key: string) {
    task.Busy? && task.pc == TrustWrite(id, key)
  }

  ghost predicate Held(w: World, token: string, id: int, key: string) {
    || Waits(w.shared.auth.pending, token, id, key)
    || exists t :: t in w.tasks && (Shows(w.tasks[t], token, id, key) || MaySee(w.tasks[t], token, id, key))
  }

  /** The key is on its way to the site: about to be stored, or held for somebody who can decide. */
  ghost predicate UnderWay(w: World, id: int, key: string) {
    || (exists t :: t in w.tasks && Storing(w.tasks[t], id, key))
    || (exists token :: CanDecide(w, token, id, key) && Held(w, token, id, key))
  }

  ghost predicate Leftover(w: World, id: int, key: string) {
    Stores(w.shared.store, id, key) || UnderWay(w, id, key)
  }

  // ----- being seen again -----

  /** The step gave this handler the row it goes on testing. */
  predicate ReadsFor(entry: Entry, task: Task) {
    && task.Busy? && (task.pc.TestCredential? || task.pc.TestDial?)
    && entry.task == Busy(task.ctx, TestRead(task.pc.id)) && entry.reply == FromDb(SiteRow(Some(task.pc.site)))
  }

  ghost predicate ReadSince(log: seq<Entry>, from: nat, task: Task) {
    exists j :: from <= j < |log| && ReadsFor(log[j], task)
  }

  predicate SeesKey(entry: Entry, id: int, key: string) {
    entry.task.Busy? && entry.task.pc.TestDial? && entry.task.pc.id == id && entry.reply == Tested(Ok(key))
  }

  /** A successful test saw this key, and it had read the site's row since then. */
  ghost predicate SeenAgain(log: seq<Entry>, from: nat, id: int, key: string) {
    exists k :: from <= k < |log| && SeesKey(log[k], id, key) && ReadSince(log[..k], from, log[k].task)
  }

  lemma ReadStays(log: seq<Entry>, entry: Entry, from: nat, task: Task)
    requires ReadSince(log, from, task)
    ensures ReadSince(log + [entry], from, task)
  {
    var j :| from <= j < |log| && ReadsFor(log[j], task);
    assert ReadsFor((log + [entry])[j], task);
  }

  lemma SeenStays(log: seq<Entry>, entry: Entry, from: nat, id: int, key: string)
    requires SeenAgain(log, from, id, key)
    ensures SeenAgain(log + [entry], from, id, key)
  {
    var k :| from <= k < |log| && SeesKey(log[k], id, key) && ReadSince(log[..k], from, log[k].task);
    assert (log + [entry])[k] == log[k] && (log + [entry])[..k] == log[..k];
  }

  // ----- what is not left over has to be seen again -----

  /** Nothing of this key under this token but tests that have read the row since then. */
  ghost predicate ClearedFor(w: World, from: nat, token: string, id: int, key: string) {
    && !Waits(w.shared.auth.pending, token, id, key)
    && forall t :: t in w.tasks ==>
         && !Shows(w.tasks[t], token, id, key)
         && (MaySee(w.tasks[t], token, id, key) ==> ReadSince(w.log, from, w.tasks[t]))
  }

  ghost predicate Clean(w: World, from: nat, id: int, key: string) {
    && !Stores(w.shared.store, id, key)
    && (forall t :: t in w.tasks ==> !Storing(w.tasks[t], id, key))
    && forall token :: CanDecide(w, token, id, key) ==> ClearedFor(w, from, token, id, key)
  }

  /** Who can decide after a step could before it, unless the token has just been drawn. */
  lemma DecidersStay(w: World, t: nat, env: Env, token: string, id: int, key: string)
    requires Enabled(w, t, env) && CanDecide(StepTask(w, t, env), token, id, key)
    ensures CanDecide(w, token, id, key) || token !in w.issued
  {
    var task := w.tasks[t];
    var call := Issue(task);
    var reply := Perform(w.shared, call, w.now, env).1;
    var v := StepTask(w, t, env);
    if LiveAdmin(v, token) {
      LiveAdminStays(w, t, env, token);
    } else {
      var u :| u in v.tasks && Deciding(v.tasks[u], token, id, key);
      if u == t {
        DecidingStarts(task, reply, env, token, id, key);
        if task.Guard? {
          LookupFindsLive(w, task, env, token);
        }
      } else {
        assert Deciding(w.tasks[u], token, id, key);
      }
    }
  }

  lemma LiveAdminStays(w: World, t: nat, env: Env, token: string)
    requires Enabled(w, t, env) && LiveAdmin(StepTask(w, t, env), token)
    ensures LiveAdmin(w, token) || token !in w.issued
  {
  }

  lemma DecidingStarts(task: Task, reply: Reply, env: Env, token: string, id: int, key: string)
    requires Deciding(Resume(task, reply, env), token, id, key)
    ensures task.Guard? && task.token == token
    ensures reply.SessionFound? && reply.session.Some? && reply.session.value.role == Admin
  {
    match task
    case Busy(ctx, pc) => NoneDecides(ctx, pc, reply, env);
    case _ =>
  }

  lemma NoneDecides(ctx: Ctx, pc: Pc, reply: Reply, env: Env)
    ensures ResumeSite(ctx, pc, reply, env).Busy? ==> !ResumeSite(ctx, pc, reply, env).pc.TrustTake?
    ensures ResumeDevice(ctx, pc, reply, env).Busy? ==> !ResumeDevice(ctx, pc, reply, env).pc.TrustTake?
    ensures ResumeAccount(ctx, pc, reply, env).Busy? ==> !ResumeAccount(ctx, pc, reply, env).pc.TrustTake?
  {
  }

  lemma LookupFindsLive(w: World, task: Task, env: Env, token: string)
    requires task.Guard? && task.token == token
    ensures var reply := Perform(w.shared, Issue(task), w.now, env).1;
            reply.SessionFound? && (reply.session.Some? && reply.session.value.role == Admin ==> LiveAdmin(w, token))
  {
  }

  lemma StoresFrom(w: World, t: nat, env: Env, id: int, key: string)
    requires Enabled(w, t, env)
    ensures Stores(StepTask(w, t, env).shared.store, id, key) ==>
              Stores(w.shared.store, id, key) || Storing(w.tasks[t], id, key)
  {
    if Stores(StepTask(w, t, env).shared.store, id, key) {
      StoredSources(w.shared, Issue(w.tasks[t]), w.now, env, id);
    }
  }

  lemma StoringFrom(w: World, t: nat, env: Env, id: int, key: string)
    requires Enabled(w, t, env) && Storing(StepTask(w, t, env).tasks[t], id, key)
    ensures w.tasks[t].Busy?
    ensures var token := w.tasks[t].ctx.token;
            CanDecide(w, token, id, key) && Waits(w.shared.auth.pending, token, id, key)
  {
    var task := w.tasks[t];
    CarriedSources(task, Perform(w.shared, Issue(task), w.now, env).1, env);
    assert Deciding(w.tasks[t], task.ctx.token, id, key);
    assert Issue(task) == TakePending(task.ctx.token, id);
  }

  /** Nobody stores the key next, and nobody is about to, when the state is clean. */
  lemma NothingStored(w: World, t: nat, env: Env, from: nat, id: int, key: string)
    requires Clean(w, from, id, key) && Enabled(w, t, env)
    ensures !Stores(StepTask(w, t, env).shared.store, id, key)
    ensures !Storing(StepTask(w, t, env).tasks[t], id, key)
  {
    StoresFrom(w, t, env, id, key);
    if Storing(StepTask(w, t, env).tasks[t], id, key) {
      StoringFrom(w, t, env, id, key);
    }
  }

  /** What the stepping handler can newly hold of the key. */
  lemma HoldsOnlyNew(w: World, t: nat, env: Env, from: nat, token: string, id: int, key: string)
    requires ClearedFor(w, from, token, id, key) && Enabled(w, t, env) && from <= |w.log|
    requires TestKeepsKey(Issue(w.tasks[t]), env)
    ensures var v := StepTask(w, t, env);
            && (Shows(v.tasks[t], token, id, key) ==> SeenAgain(v.log, from, id, key))
            && (MaySee(v.tasks[t], token, id, key) ==> ReadSince(v.log, from, v.tasks[t]))
            && !Waits(v.shared.auth.pending, token, id, key)
  {
    var task := w.tasks[t];
    var call := Issue(task);
    var (shared, reply) := Perform(w.shared, call, w.now, env);
    var next := Resume(task, reply, env);
    var entry := Entry(task, call, reply, next);
    var log := w.log + [entry];
    assert log[|w.log|] == entry && log[..|w.log|] == w.log;
    CarriedSources(task, reply, env);
    SnapshotSources(task, reply, env);
    OnlySitesCarry(task, reply, env);
    if Waits(shared.auth.pending, token, id, key) {
      PendingSources(w.shared, call, w.now, env, (token, id));
      assert Shows(task, token, id, key);
    }
    if Shows(next, token, id, key) {
      assert call.Test? && env.tested == Ok(key) && call.site == task.pc.site;
      assert MaySee(task, token, id, key);
      assert SeesKey(log[|w.log|], id, key);
    }
    if MaySee(next, token, id, key) {
      if next.pc.TestDial? {
        assert task.ctx == next.ctx by { SiteCarries(task.ctx, task.pc, reply, env); }
        assert MaySee(task, token, id, key);
        var j :| from <= j < |w.log| && ReadsFor(w.log[j], task);
        assert ReadsFor(log[j], next);
      } else {
        assert task.ctx == next.ctx by { SiteCarries(task.ctx, task.pc, reply, env); }
        assert ReadsFor(log[|w.log|], next);
      }
    }
  }

  lemma StaysCleared(w: World, t: nat, env: Env, from: nat, token: string, id: int, key: string)
    requires ClearedFor(w, from, token, id, key) && Enabled(w, t, env) && from <= |w.log|
    requires TestKeepsKey(Issue(w.tasks[t]), env)
    ensures var v := StepTask(w, t, env);
            SeenAgain(v.log, from, id, key) || ClearedFor(v, from, token, id, key)
  {
    HoldsOnlyNew(w, t, env, from, token, id, key);
    var v := StepTask(w, t, env);
    forall u | u in v.tasks && u != t
      ensures !Shows(v.tasks[u], token, id, key)
      ensures MaySee(v.tasks[u], token, id, key) ==> ReadSince(v.log, from, v.tasks[u])
    {
      assert v.tasks[u] == w.tasks[u];
      if MaySee(w.tasks[u], token, id, key) {
        ReadStays(w.log, v.log[|w.log|], from, w.tasks[u]);
      }
    }
  }

  /** Nothing is held under a token that was never drawn. */
  lemma UndrawnHoldsNothing(w: World, t: nat, env: Env, from: nat, token: string, id: int, key: string)
    requires TokensIssued(w) && token !in w.issued
    ensures ClearedFor(w, from, token, id, key)
  {
  }

  lemma StaysClean(w: World, t: nat, env: Env, from: nat, id: int, key: string)
    requires Clean(w, from, id, key) && TokensIssued(w) && Enabled(w, t, env) && from <= |w.log|
    requires TestKeepsKey(Issue(w.tasks[t]), env)
    ensures var v := StepTask(w, t, env);
            SeenAgain(v.log, from, id, key) || Clean(v, from, id, key)
  {
    var v := StepTask(w, t, env);
    NothingStored(w, t, env, from, id, key);
    forall u | u in v.tasks ensures !Storing(v.tasks[u], id, key) {
      assert u != t ==> v.tasks[u] == w.tasks[u];
    }
    if !SeenAgain(v.log, from, id, key) {
      forall token | CanDecide(v, token, id, key) ensures ClearedFor(v, from, token, id, key) {
        DecidersStay(w, t, env, token, id, key);
        if token !in w.issued {
          UndrawnHoldsNothing(w, t, env, from, token, id, key);
        }
        StaysCleared(w, t, env, from, token, id, key);
      }
    }
  }

  lemma {:induction false} SeenOrClean(w: World, es: seq<Event>, id: int, key: string)
    requires TokensIssued(w) && Genuine(w, es) && !Leftover(w, id, key)
    ensures var v := Run(w, es);
            && TokensIssued(v) && |w.log| <= |v.log|
            && (SeenAgain(v.log, |w.log|, id, key) || Clean(v, |w.log|, id, key))
  {
    if es == [] {
      assert forall token :: CanDecide(w, token, id, key) ==> !Held(w, token, id, key);
    } else {
      var init := es[..|es| - 1];
      var e := es[|es| - 1];
      var before := Run(w, init);
      SeenOrClean(w, init, id, key);
      IssuedStep(before, e);
      if e.Advance? && Enabled(before, e.t, e.env) {
        RouterKeepsKey(Issue(before.tasks[e.t]), e.env);
        if SeenAgain(before.log, |w.log|, id, key) {
          SeenStays(before.log, Run(w, es).log[|before.log|], |w.log|, id, key);
        } else {
          StaysClean(before, e.t, e.env, |w.log|, id, key);
        }
      } else {
        QuietEvent(before, e);
        if !SeenAgain(before.log, |w.log|, id, key) {
          QuietStaysClean(before, Step(before, e), |w.log|, id, key);
        }
      }
    }
  }

  /** What an event other than a step can change. */
  lemma QuietEvent(w: World, e: Event)
    requires !(e.Advance? && Enabled(w, e.t, e.env))
    ensures var v := Step(w, e);
            && v.shared.store == w.shared.store && v.log == w.log
            && (forall k :: k in v.shared.auth.pending ==>
                  k in w.shared.auth.pending && v.shared.auth.pending[k] == w.shared.auth.pending[k])
            && (forall u :: u in v.tasks && v.tasks[u].Busy? ==> u in w.tasks && v.tasks[u] == w.tasks[u])
            && (forall token :: LiveAdmin(v, token) ==> LiveAdmin(w, token))
  {
    match e
    case Arrive(_, _) =>
    case Advance(_, _) =>
    case Tick(_) =>
    case Restart =>
  }

  lemma QuietStaysClean(w: World, v: World, from: nat, id: int, key: string)
    requires Clean(w, from, id, key) && v.shared.store == w.shared.store && v.log == w.log
    requires forall k :: k in v.shared.auth.pending ==>
                           k in w.shared.auth.pending && v.shared.auth.pending[k] == w.shared.auth.pending[k]
    requires forall u :: u in v.tasks && v.tasks[u].Busy? ==> u in w.tasks && v.tasks[u] == w.tasks[u]
    requires forall token :: LiveAdmin(v, token) ==> LiveAdmin(w, token)
    ensures Clean(v, from, id, key)
  {
    forall token | CanDecide(v, token, id, key) ensures ClearedFor(v, from, token, id, key) {
      if !LiveAdmin(v, token) {
        var u :| u in v.tasks && Deciding(v.tasks[u], token, id, key);
        assert Deciding(w.tasks[u], token, id, key);
      }
      assert CanDecide(w, token, id, key);
    }
  }

  /** Over every interleaved run: a key that is not left over at the start, and that the site has at
      the end, was seen in between by a successful test that had read the site's row in between. */
  lemma OthersAreSeenAgain(w: World, es: seq<Event>, id: int, key: string)
    requires TokensIssued(w) && Genuine(w, es) && !Leftover(w, id, key)
    ensures Stores(Run(w, es).shared.store, id, key) ==> SeenAgain(Run(w, es).log, |w.log|, id, key)
  {
    SeenOrClean(w, es, id, key);
  }

  /** The simple check: the site has no key, none waits for it, and no test or trust of it is past its
      first step. */
  ghost predicate NothingUnderWay(w: World, id: int) {
    && (id in w.shared.store.sites ==> w.shared.store.sites[id].fingerprint.None?)
    && (forall k :: k in w.shared.auth.pending ==> k.1 != id)
    && forall t :: t in w.tasks && w.tasks[t].Busy? && OfTestOrTrust(w.tasks[t].pc) ==> w.tasks[t].pc.id != id
  }

  /** From such a state on, whatever key the site comes to have was seen again. */
  lemma EveryKeyIsSeenAgain(w: World, es: seq<Event>, id: int, key: string)
    requires TokensIssued(w) && Genuine(w, es) && NothingUnderWay(w, id)
    ensures Stores(Run(w, es).shared.store, id, key) ==> SeenAgain(Run(w, es).log, |w.log|, id, key)
  {
    OthersAreSeenAgain(w, es, id, key);
  }
}
