/** Where a stored host key comes from, how often one may be stored, and when it can change. */
module Trust {
  import opened Results
  import opened Records
  import opened Forms
  import opened Ssh
  import opened Store
  import opened Auth
  import opened Handlers

  // ----- provenance -----

  /** The step is a successful connection test of site `id` for `token`, and it saw this key. */
  predicate Observes(entry: Entry, token: string, id: int, fingerprint: string) {
    && entry.task.Busy? && entry.task.ctx.token == token
    && entry.call.Test? && entry.call.id == id
    && entry.reply == Tested(Ok(fingerprint))
  }

  ghost predicate Observed(log: seq<Entry>, token: string, id: int, fingerprint: string) {
    exists k :: 0 <= k < |log| && Observes(log[k], token, id, fingerprint)
  }

  /** The step stored this key for site `id`, acting for `token`. */
  predicate Trusts(entry: Entry, token: string, id: int, fingerprint: string) {
    && entry.task.Busy? && entry.task.ctx.token == token
    && entry.call == DbAccess(TrustFingerprint(id, fingerprint))
    && entry.reply == FromDb(Changed(true))
  }

  /** Some step stored the key, and an earlier test of the same site by the same session had seen it. */
  ghost predicate Justified(log: seq<Entry>, id: int, fingerprint: string) {
    exists k, token :: 0 <= k < |log| && Trusts(log[k], token, id, fingerprint)
        && Observed(log[..k], token, id, fingerprint)
  }

  ghost predicate TaskJustified(log: seq<Entry>, task: Task) {
    task.Busy? ==>
      && (task.pc.TestPending? ==> Observed(log, task.ctx.token, task.pc.id, task.pc.fingerprint))
      && (task.pc.TrustWrite? ==> Observed(log, task.ctx.token, task.pc.id, task.pc.fingerprint))
  }

  ghost predicate PendingJustified(log: seq<Entry>, pending: Pending) {
    forall k :: k in pending ==> Observed(log, k.0, k.1, pending[k])
  }

  ghost predicate SitesJustified(log: seq<Entry>, sites: map<int, Site>) {
    forall id :: id in sites && sites[id].fingerprint.Some? ==> Justified(log, id, sites[id].fingerprint.value)
  }

  ghost predicate ProvenanceInv(w: World) {
    && PendingJustified(w.log, w.shared.auth.pending)
    && SitesJustified(w.log, w.shared.store.sites)
    && forall t :: t in w.tasks ==> TaskJustified(w.log, w.tasks[t])
  }

  lemma ObservedGrows(log: seq<Entry>, entry: Entry, token: string, id: int, fingerprint: string)
    requires Observed(log, token, id, fingerprint)
    ensures Observed(log + [entry], token, id, fingerprint)
  {
    var k :| 0 <= k < |log| && Observes(log[k], token, id, fingerprint);
    assert (log + [entry])[k] == log[k];
  }

  lemma JustifiedGrows(log: seq<Entry>, entry: Entry, id: int, fingerprint: string)
    requires Justified(log, id, fingerprint)
    ensures Justified(log + [entry], id, fingerprint)
  {
    var k, token :| 0 <= k < |log| && Trusts(log[k], token, id, fingerprint)
        && Observed(log[..k], token, id, fingerprint);
    assert (log + [entry])[k] == log[k] && (log + [entry])[..k] == log[..k];
  }

  /** Which call can put a fingerprint into the pending table, and which into the store. */
  lemma PendingSources(s: Shared, call: Call, now: nat, env: Env, k: (string, int))
    requires k in Perform(s, call, now, env).0.auth.pending
    ensures var value := Perform(s, call, now, env).0.auth.pending[k];
            (k in s.auth.pending && s.auth.pending[k] == value) || call == SetPending(k.0, k.1, value)
  {
  }

  lemma ExecuteStoredSources(s: StoreModel, call: DbCall, fails: bool, id: int)
    requires id in Execute(s, call, fails).0.sites && Execute(s, call, fails).0.sites[id].fingerprint.Some?
    ensures var value := Execute(s, call, fails).0.sites[id].fingerprint;
            || (id in s.sites && s.sites[id].fingerprint == value)
            || (call == TrustFingerprint(id, value.value) && Execute(s, call, fails).1 == Changed(true))
  {
  }

  lemma StoredSources(s: Shared, call: Call, now: nat, env: Env, id: int)
    requires id in Perform(s, call, now, env).0.store.sites
    requires Perform(s, call, now, env).0.store.sites[id].fingerprint.Some?
    ensures var value := Perform(s, call, now, env).0.store.sites[id].fingerprint;
            || (id in s.store.sites && s.store.sites[id].fingerprint == value)
            || (call == DbAccess(TrustFingerprint(id, value.value))
                  && Perform(s, call, now, env).1 == FromDb(Changed(true)))
  {
    if call.DbAccess? {
      ExecuteStoredSources(s.store, call.db, env.dbFails, id);
    }
  }

  lemma SiteCarries(ctx: Ctx, pc: Pc, reply: Reply, env: Env)
    ensures var next := ResumeSite(ctx, pc, reply, env);
            next.Busy? ==>
              && next.ctx == ctx
              && (next.pc.TestPending? ==>
                    pc.TestDial? && pc.id == next.pc.id && reply == Tested(Ok(next.pc.fingerprint)))
              && (next.pc.TrustWrite? ==>
                    pc == TrustTake(next.pc.id, next.pc.fingerprint)
                    && reply == PendingFound(Some(next.pc.fingerprint)))
              && (next.pc.TestCredential? ==>
                    pc == TestRead(next.pc.id) && FoundSite(reply) && reply.row.site.value == next.pc.site)
              && (next.pc.TestDial? ==> pc == TestCredential(next.pc.id, next.pc.site))
  {
  }

  predicate OfTestOrTrust(pc: Pc) {
    pc.TestCredential? || pc.TestDial? || pc.TestPending? || pc.TrustWrite?
  }

  lemma OthersCarryNothing(ctx: Ctx, pc: Pc, reply: Reply, env: Env)
    ensures ResumeDevice(ctx, pc, reply, env).Busy? ==> !OfTestOrTrust(ResumeDevice(ctx, pc, reply, env).pc)
    ensures ResumeAccount(ctx, pc, reply, env).Busy? ==> !OfTestOrTrust(ResumeAccount(ctx, pc, reply, env).pc)
  {
  }

  lemma EnterCarriesNothing(ctx: Ctx, job: Job, env: Env)
    ensures Enter(ctx, job, env).Busy? ==> !OfTestOrTrust(Enter(ctx, job, env).pc)
  {
  }

  /** Only a step of a site handler leads to a program counter of a test or a trust. */
  lemma OnlySitesCarry(task: Task, reply: Reply, env: Env)
    ensures var next := Resume(task, reply, env);
            next.Busy? && OfTestOrTrust(next.pc) ==> task.Busy? && next == ResumeSite(task.ctx, task.pc, reply, env)
  {
    match task
    case Guard(token, _, job) =>
      if reply.SessionFound? && reply.session.Some? {
        EnterCarriesNothing(Ctx(token, reply.session.value), job, env);
      }
    case Busy(ctx, pc) => OthersCarryNothing(ctx, pc, reply, env);
    case _ =>
  }

  /** The program counters that carry an observed key, and where they come from. */
  lemma CarriedSources(task: Task, reply: Reply, env: Env)
    ensures var next := Resume(task, reply, env);
            next.Busy? ==>
              && (next.pc.TestPending? ==>
                    task.Busy? && task.ctx == next.ctx && task.pc.TestDial? && task.pc.id == next.pc.id
                    && reply == Tested(Ok(next.pc.fingerprint)))
              && (next.pc.TrustWrite? ==>
                    task.Busy? && task.ctx == next.ctx && task.pc == TrustTake(next.pc.id, next.pc.fingerprint)
                    && reply == PendingFound(Some(next.pc.fingerprint)))
  {
    OnlySitesCarry(task, reply, env);
    if task.Busy? {
      SiteCarries(task.ctx, task.pc, reply, env);
    }
  }

  lemma PendingStaysJustified(w: World, t: nat, env: Env)
    requires ProvenanceInv(w) && Enabled(w, t, env)
    ensures PendingJustified(StepTask(w, t, env).log, StepTask(w, t, env).shared.auth.pending)
  {
    var task := w.tasks[t];
    var call := Issue(task);
    var (shared, reply) := Perform(w.shared, call, w.now, env);
    var entry := Entry(task, call, reply, Resume(task, reply, env));
    assert TaskJustified(w.log, task);
    forall k | k in shared.auth.pending ensures Observed(w.log + [entry], k.0, k.1, shared.auth.pending[k]) {
      PendingSources(w.shared, call, w.now, env, k);
      ObservedGrows(w.log, entry, k.0, k.1, shared.auth.pending[k]);
    }
  }

  lemma SitesStayJustified(w: World, t: nat, env: Env)
    requires ProvenanceInv(w) && Enabled(w, t, env)
    ensures SitesJustified(StepTask(w, t, env).log, StepTask(w, t, env).shared.store.sites)
  {
    var task := w.tasks[t];
    var call := Issue(task);
    var (shared, reply) := Perform(w.shared, call, w.now, env);
    var entry := Entry(task, call, reply, Resume(task, reply, env));
    var log := w.log + [entry];
    assert TaskJustified(w.log, task);
    forall id | id in shared.store.sites && shared.store.sites[id].fingerprint.Some?
      ensures Justified(log, id, shared.store.sites[id].fingerprint.value)
    {
      StoredSources(w.shared, call, w.now, env, id);
      var f := shared.store.sites[id].fingerprint.value;
      if id in w.shared.store.sites && w.shared.store.sites[id].fingerprint == Some(f) {
        JustifiedGrows(w.log, entry, id, f);
      } else {
        assert Trusts(log[|w.log|], task.ctx.token, id, f) && log[..|w.log|] == w.log;
      }
    }
  }

  lemma StepTaskProvenance(w: World, t: nat, env: Env)
    requires ProvenanceInv(w) && Enabled(w, t, env)
    ensures ProvenanceInv(StepTask(w, t, env))
  {
    PendingStaysJustified(w, t, env);
    SitesStayJustified(w, t, env);
    NewCarryJustified(w, t, env);
    var w' := StepTask(w, t, env);
    forall u | u in w'.tasks ensures TaskJustified(w'.log, w'.tasks[u]) {
      if u != t {
        assert w'.tasks[u] == w.tasks[u];
        CarryGrows(w.log, w'.log[|w.log|], w.tasks[u]);
      }
    }
  }

  lemma CarryGrows(log: seq<Entry>, entry: Entry, task: Task)
    requires TaskJustified(log, task)
    ensures TaskJustified(log + [entry], task)
  {
    if task.Busy? && task.pc.TestPending? {
      ObservedGrows(log, entry, task.ctx.token, task.pc.id, task.pc.fingerprint);
    }
    if task.Busy? && task.pc.TrustWrite? {
      ObservedGrows(log, entry, task.ctx.token, task.pc.id, task.pc.fingerprint);
    }
  }

  lemma NewCarryJustified(w: World, t: nat, env: Env)
    requires ProvenanceInv(w) && Enabled(w, t, env)
    ensures TaskJustified(StepTask(w, t, env).log, StepTask(w, t, env).tasks[t])
  {
    var task := w.tasks[t];
    var call := Issue(task);
    var (_, reply) := Perform(w.shared, call, w.now, env);
    var entry := Entry(task, call, reply, Resume(task, reply, env));
    var next := Resume(task, reply, env);
    CarriedSources(task, reply, env);
    if next.Busy? && next.pc.TestPending? {
      assert Observes((w.log + [entry])[|w.log|], next.ctx.token, next.pc.id, next.pc.fingerprint);
    }
    if next.Busy? && next.pc.TrustWrite? {
      assert call == TakePending(next.ctx.token, next.pc.id);
      ObservedGrows(w.log, entry, next.ctx.token, next.pc.id, next.pc.fingerprint);
    }
  }

  lemma StepProvenance(w: World, e: Event)
    requires ProvenanceInv(w)
    ensures ProvenanceInv(Step(w, e))
  {
    if e.Advance? && Enabled(w, e.t, e.env) {
      StepTaskProvenance(w, e.t, e.env);
    }
  }

  /** Over every interleaved run: each stored host key was stored by a session that had itself seen
      that key before, in a successful test of the same site id; and each key waiting for a decision
      was seen by the session it waits for. */
  lemma {:induction false} TrustProvenance(w: World, es: seq<Event>)
    requires Fresh(w)
    ensures ProvenanceInv(Run(w, es))
  {
    if es != [] {
      TrustProvenance(w, es[..|es| - 1]);
      StepProvenance(Run(w, es[..|es| - 1]), es[|es| - 1]);
    }
  }

  // ----- stability -----

  /** Everything in the system that could still lead to a stored key for this site agrees on it. */
  ghost predicate TaskAgrees(task: Task, id: int, key: string) {
    task.Busy? ==>
      && (task.pc.TestCredential? && task.pc.id == id ==> task.pc.site.fingerprint == Some(key))
      && (task.pc.TestDial? && task.pc.id == id ==> task.pc.site.fingerprint == Some(key))
      && (task.pc.TestPending? && task.pc.id == id ==> task.pc.fingerprint == key)
      && (task.pc.TrustWrite? && task.pc.id == id ==> task.pc.fingerprint == key)
  }

  ghost predicate KeySettled(w: World, id: int, key: string) {
    && id in w.shared.store.sites && id <= w.shared.store.siteSeq
    && w.shared.store.sites[id].fingerprint == Some(key)
    && (forall k :: k in w.shared.auth.pending && k.1 == id ==> w.shared.auth.pending[k] == key)
    && forall t :: t in w.tasks ==> TaskAgrees(w.tasks[t], id, key)
  }

  /** The two calls that end the trust: clearing the key of this site, or deleting the site. */
  predicate EndsTrust(call: Call, id: int) {
    call == DbAccess(ClearFingerprint(id)) || call == DbAccess(DeleteSite(id))
  }

  /** An update of this site was written, with another endpoint than in the row it had read. */
  predicate MovesSite(entry: Entry, id: int) {
    && entry.task.Busy? && entry.task.pc.UpdateWrite? && entry.task.pc.id == id
    && entry.reply != FromDb(DbFailed) && EndpointChanged(entry.task.pc.before, entry.task.pc.values)
  }

  predicate DeletesSite(entry: Entry, id: int) {
    entry.call == DbAccess(DeleteSite(id)) && entry.reply == FromDb(Changed(true))
  }

  lemma SettledStore(s: StoreModel, call: DbCall, fails: bool, id: int, key: string)
    requires id in s.sites && id <= s.siteSeq && s.sites[id].fingerprint == Some(key)
    requires call != ClearFingerprint(id) && !(call == DeleteSite(id) && Execute(s, call, fails).1 == Changed(true))
    requires call.TrustFingerprint? && call.id == id ==> call.fingerprint == key
    ensures var s' := Execute(s, call, fails).0;
            id in s'.sites && id <= s'.siteSeq && s'.sites[id].fingerprint == Some(key)
  {
  }

  /** Where the snapshot of a site that a test works with comes from. */
  lemma SnapshotSources(task: Task, reply: Reply, env: Env)
    ensures var next := Resume(task, reply, env);
            next.Busy? ==>
              && (next.pc.TestCredential? ==>
                    task.Busy? && task.pc == TestRead(next.pc.id) && FoundSite(reply)
                        && reply.row.site.value == next.pc.site)
              && (next.pc.TestDial? ==> task.Busy? && task.pc == TestCredential(next.pc.id, next.pc.site))
  {
    OnlySitesCarry(task, reply, env);
    if task.Busy? {
      SiteCarries(task.ctx, task.pc, reply, env);
    }
  }

  /** The reply says nothing about this site but the settled key. */
  ghost predicate ReplyAgrees(call: Call, reply: Reply, id: int, key: string) {
    && (call == DbAccess(GetSite(id)) && FoundSite(reply) ==> reply.row.site.value.fingerprint == Some(key))
    && (call.TakePending? && call.id == id && reply.PendingFound? && reply.fingerprint.Some? ==>
          reply.fingerprint.value == key)
    && (call.Test? && call.id == id && reply.Tested? && reply.outcome.Ok? ==> reply.outcome.value == key)
  }

  /** A successful test of a site with a trusted key reports that key. */
  predicate TestKeepsKey(call: Call, env: Env) {
    call.Test? && env.tested.Ok? && call.site.fingerprint.Some? ==> env.tested.value == call.site.fingerprint.value
  }

  lemma RouterKeepsKey(call: Call, env: Env)
    requires RouterAnswers(call, env)
    ensures TestKeepsKey(call, env)
  {
    if call.Test? && env.tested.Ok? {
      TestReportsShownKey(call.site, call.credential, env.peer);
    }
  }

  lemma SettledReply(w: World, t: nat, env: Env, id: int, key: string)
    requires KeySettled(w, id, key) && Enabled(w, t, env) && TestKeepsKey(Issue(w.tasks[t]), env)
    ensures ReplyAgrees(Issue(w.tasks[t]), Perform(w.shared, Issue(w.tasks[t]), w.now, env).1, id, key)
  {
    var task := w.tasks[t];
    var call := Issue(task);
    assert TaskAgrees(task, id, key);
    if call.Test? {
      assert task.Busy? && task.pc.TestDial? && task.pc.id == call.id && task.pc.site == call.site;
    }
  }

  lemma SettledResume(task: Task, reply: Reply, env: Env, id: int, key: string)
    requires TaskAgrees(task, id, key) && ReplyAgrees(Issue(task), reply, id, key)
    ensures TaskAgrees(Resume(task, reply, env), id, key)
  {
    CarriedSources(task, reply, env);
    SnapshotSources(task, reply, env);
    var next := Resume(task, reply, env);
    if next.Busy? && next.pc.TestCredential? {
      assert Issue(task) == DbAccess(GetSite(next.pc.id));
    }
    if next.Busy? && next.pc.TestPending? {
      assert Issue(task).Test? && Issue(task).id == next.pc.id;
    }
    if next.Busy? && next.pc.TrustWrite? {
      assert Issue(task).TakePending? && Issue(task).id == next.pc.id;
    }
  }

  lemma SettledPending(w: World, t: nat, env: Env, id: int, key: string)
    requires KeySettled(w, id, key) && Enabled(w, t, env)
    ensures var shared := Perform(w.shared, Issue(w.tasks[t]), w.now, env).0;
            forall k :: k in shared.auth.pending && k.1 == id ==> shared.auth.pending[k] == key
  {
    var task := w.tasks[t];
    var call := Issue(task);
    assert TaskAgrees(task, id, key);
    var shared := Perform(w.shared, call, w.now, env).0;
    forall k | k in shared.auth.pending && k.1 == id ensures shared.auth.pending[k] == key {
      PendingSources(w.shared, call, w.now, env, k);
    }
  }

  lemma SettledShared(w: World, t: nat, env: Env, id: int, key: string)
    requires KeySettled(w, id, key) && Enabled(w, t, env) && Issue(w.tasks[t]) != DbAccess(ClearFingerprint(id))
    requires !DeletesSite(StepTask(w, t, env).log[|w.log|], id)
    ensures var store := Perform(w.shared, Issue(w.tasks[t]), w.now, env).0.store;
            id in store.sites && id <= store.siteSeq && store.sites[id].fingerprint == Some(key)
  {
    var task := w.tasks[t];
    var call := Issue(task);
    assert TaskAgrees(task, id, key);
    if call.DbAccess? {
      assert call.db.TrustFingerprint? ==> task.Busy? && task.pc == TrustWrite(call.db.id, call.db.fingerprint);
      SettledStore(w.shared.store, call.db, env.dbFails, id, key);
    }
  }

  lemma SettledStep(w: World, t: nat, env: Env, id: int, key: string)
    requires KeySettled(w, id, key) && Enabled(w, t, env) && TestKeepsKey(Issue(w.tasks[t]), env)
    requires Issue(w.tasks[t]) != DbAccess(ClearFingerprint(id))
    requires !DeletesSite(StepTask(w, t, env).log[|w.log|], id)
    ensures KeySettled(StepTask(w, t, env), id, key)
  {
    SettledShared(w, t, env, id, key);
    SettledPending(w, t, env, id, key);
    SettledReply(w, t, env, id, key);
    assert TaskAgrees(w.tasks[t], id, key);
    SettledResume(w.tasks[t], Perform(w.shared, Issue(w.tasks[t]), w.now, env).1, env, id, key);
    var w' := StepTask(w, t, env);
    forall u | u in w'.tasks ensures TaskAgrees(w'.tasks[u], id, key) {
      if u != t {
        assert w'.tasks[u] == w.tasks[u];
      }
    }
  }

  /** The only calls that end the trust: the clear of an update, the delete handler, and a creation
      taking its own row back. */
  lemma WhoEndsTrust(task: Task, id: int)
    requires EndsTrust(Issue(task), id)
    ensures task.Busy? && (task.pc.UpdateClear? || task.pc.DeleteWrite? || task.pc.CreateUndo?) && task.pc.id == id
  {
  }

  /** An update goes on to clear the key exactly when its write was answered and the values it wrote
      differ from the row it had read in host, port, user name or the legacy flag. */
  lemma UpdateClearsExactly(
    ctx: Ctx, id: int, before: Site, values: SiteValues, credential: string, reply: Reply, env: Env)
    ensures Resume(Busy(ctx, UpdateWrite(id, before, values, credential)), reply, env)
              == Busy(ctx, UpdateClear(id, credential))
            <==> reply != FromDb(DbFailed) && EndpointChanged(before, values)
  {
  }

  /** No other step leads there. */
  lemma ClearsComeFromUpdates(task: Task, reply: Reply, env: Env)
    ensures var next := Resume(task, reply, env);
            next.Busy? && next.pc.UpdateClear? ==> task.Busy? && task.pc.UpdateWrite? && task.pc.id == next.pc.id
  {
  }

  ghost predicate NoneClearing(tasks: map<nat, Task>, id: int) {
    forall t :: t in tasks ==> !(tasks[t].Busy? && tasks[t].pc.UpdateClear? && tasks[t].pc.id == id)
  }

  lemma NoneStartsClearing(w: World, t: nat, env: Env, id: int)
    requires NoneClearing(w.tasks, id) && Enabled(w, t, env)
    requires !MovesSite(StepTask(w, t, env).log[|w.log|], id)
    ensures NoneClearing(StepTask(w, t, env).tasks, id)
  {
    var task := w.tasks[t];
    var reply := Perform(w.shared, Issue(task), w.now, env).1;
    var next := Resume(task, reply, env);
    ClearsComeFromUpdates(task, reply, env);
    if next.Busy? && next.pc.UpdateClear? && next.pc.id == id {
      UpdateClearsExactly(task.ctx, id, task.pc.before, task.pc.values, task.pc.credential, reply, env);
    }
    var w' := StepTask(w, t, env);
    forall u | u in w'.tasks ensures !(w'.tasks[u].Busy? && w'.tasks[u].pc.UpdateClear? && w'.tasks[u].pc.id == id) {
      if u != t {
        assert w'.tasks[u] == w.tasks[u];
      }
    }
  }

  /** No step of the run, from state w on, writes another endpoint to the site or deletes it. */
  ghost predicate KeepsEndpoint(w: World, es: seq<Event>, id: int) {
    forall k :: |w.log| <= k < |Run(w, es).log| ==>
                  !MovesSite(Run(w, es).log[k], id) && !DeletesSite(Run(w, es).log[k], id)
  }

  lemma StabilityStep(w: World, t: nat, env: Env, id: int, key: string)
    requires KeySettled(w, id, key) && NoneClearing(w.tasks, id)
    requires Enabled(w, t, env) && RouterAnswers(Issue(w.tasks[t]), env)
    requires !MovesSite(StepTask(w, t, env).log[|w.log|], id) && !DeletesSite(StepTask(w, t, env).log[|w.log|], id)
    ensures KeySettled(StepTask(w, t, env), id, key) && NoneClearing(StepTask(w, t, env).tasks, id)
  {
    if Issue(w.tasks[t]) == DbAccess(ClearFingerprint(id)) {
      WhoEndsTrust(w.tasks[t], id);
    }
    RouterKeepsKey(Issue(w.tasks[t]), env);
    SettledStep(w, t, env, id, key);
    NoneStartsClearing(w, t, env, id);
  }

  /** Once a key is stored and everything under way for the site agrees with it, every interleaved
      run keeps that key until an update that changes the endpoint is written or the site is deleted.
      A test of a trusted site can only succeed with the same key again; clears and deletes that fail,
      and updates that leave the endpoint alone, do not matter. */
  lemma {:induction false} TrustedKeyStability(w: World, es: seq<Event>, id: int, key: string)
    requires KeySettled(w, id, key) && NoneClearing(w.tasks, id)
    requires KeepsEndpoint(w, es, id) && Genuine(w, es)
    ensures KeySettled(Run(w, es), id, key) && NoneClearing(Run(w, es).tasks, id)
  {
    if es != [] {
      var init := es[..|es| - 1];
      var e := es[|es| - 1];
      var before := Run(w, init);
      LogGrows(w, init);
      assert before.log <= Run(w, es).log;
      assert KeepsEndpoint(w, init, id) by {
        assert forall k :: 0 <= k < |before.log| ==> before.log[k] == Run(w, es).log[k];
      }
      TrustedKeyStability(w, init, id, key);
      if e.Advance? && Enabled(before, e.t, e.env) {
        assert Run(w, es) == StepTask(before, e.t, e.env);
        StabilityStep(before, e.t, e.env, id, key);
      }
    }
  }
}
