/** Creating a site is all or nothing: the row is inserted first and taken back if its credential
    cannot be stored. */
module Creation {
  import opened Records
  import opened Forms
  import opened Store
  import opened Auth
  import opened Handlers
  import opened WellFormed
  import opened SiteIds
  import opened App
  import opened AloneRuns

  /** A handler between inserting this site and storing its credential or taking the row back. */
  predicate Creating(task: Task, id: int) {
    && task.Busy?
    && ( || (task.pc.CreateSeal? && task.pc.id == id)
         || (task.pc.CreateStore? && task.pc.id == id)
         || (task.pc.CreateUndo? && task.pc.id == id))
  }

  /** The step that should have taken this row back, but met a database failure. */
  predicate IsFailedUndo(entry: Entry, id: int) {
    && entry.task.Busy? && entry.task.pc.CreateUndo? && entry.task.pc.id == id
    && entry.reply == FromDb(DbFailed)
  }

  ghost predicate UndoFailed(log: seq<Entry>, id: int) {
    exists k :: 0 <= k < |log| && IsFailedUndo(log[k], id)
  }

  ghost predicate InCreation(tasks: map<nat, Task>, id: int) {
    exists t :: t in tasks && Creating(tasks[t], id)
  }

  ghost predicate Accounted(w: World, id: int) {
    id in w.shared.store.secrets || InCreation(w.tasks, id) || UndoFailed(w.log, id)
  }

  ghost predicate CreationInv(w: World) {
    forall id :: id in w.shared.store.sites ==> Accounted(w, id)
  }

  /** The calls that can add a site or take a secret away. */
  lemma ExecuteAccounts(s: StoreModel, call: DbCall, fails: bool, id: int)
    requires id in Execute(s, call, fails).0.sites && id !in Execute(s, call, fails).0.secrets
    ensures || (id in s.sites && id !in s.secrets && !(call.DeleteSite? && call.id == id && !fails)
                && !(call.UpsertSecret? && call.id == id && !fails))
            || (call.InsertSite? && Execute(s, call, fails).1 == NewId(id))
  {
  }

  lemma ResumeCreating(task: Task, reply: Reply, env: Env, id: int)
    requires Creating(task, id)
    ensures || Creating(Resume(task, reply, env), id)
            || (task.pc.CreateStore? && reply == FromDb(Stored))
            || task.pc.CreateUndo?
  {
  }

  lemma StepKeepsCreation(w: World, t: nat, env: Env, id: int)
    requires Enabled(w, t, env) && CreationInv(w)
    requires id in StepTask(w, t, env).shared.store.sites
    ensures Accounted(StepTask(w, t, env), id)
  {
    var w' := StepTask(w, t, env);
    var task := w.tasks[t];
    var call := Issue(task);
    var (shared, reply) := Perform(w.shared, call, w.now, env);
    assert w'.tasks[t] == Resume(task, reply, env);
    if id !in w'.shared.store.secrets {
      if call.DbAccess? {
        ExecuteAccounts(w.shared.store, call.db, env.dbFails, id);
      }
      if call.DbAccess? && call.db.InsertSite? && reply == FromDb(NewId(id)) {
        assert Creating(w'.tasks[t], id);
      } else if UndoFailed(w.log, id) {
        var k :| 0 <= k < |w.log| && IsFailedUndo(w.log[k], id);
        assert w'.log[k] == w.log[k];
      } else {
        var u :| u in w.tasks && Creating(w.tasks[u], id);
        if u != t {
          assert w'.tasks[u] == w.tasks[u];
        } else {
          ResumeCreating(task, reply, env, id);
          if task.pc.CreateUndo? {
            assert IsFailedUndo(w'.log[|w.log|], id);
          }
        }
      }
    }
  }

  lemma AccountStep(w: World, e: Event)
    requires CreationInv(w)
    ensures CreationInv(Step(w, e))
  {
    var w' := Step(w, e);
    forall id | id in w'.shared.store.sites ensures Accounted(w', id) {
      if e.Advance? && Enabled(w, e.t, e.env) {
        StepKeepsCreation(w, e.t, e.env, id);
      } else {
        assert Accounted(w, id);
        if InCreation(w.tasks, id) {
          var u :| u in w.tasks && Creating(w.tasks[u], id);
          assert w'.tasks[u] == w.tasks[u];
        }
      }
    }
  }

  /** In every state of every interleaved run, whatever fails and whatever is deleted meanwhile: a
      site without a credential belongs to a creation still in flight, or its compensating delete
      met a database failure. */
  lemma {:induction false} CreationIsAccounted(w: World, es: seq<Event>)
    requires Fresh(w)
    ensures CreationInv(Run(w, es))
  {
    if es != [] {
      CreationIsAccounted(w, es[..|es| - 1]);
      AccountStep(Run(w, es[..|es| - 1]), es[|es| - 1]);
    }
  }

  /** With no creation in flight and no failed compensation, every site has exactly one credential,
      and every credential and device belongs to a live site. */
  lemma CreationIsAllOrNothing(w: World, es: seq<Event>)
    requires Fresh(w)
    requires forall id :: !InCreation(Run(w, es).tasks, id) && !UndoFailed(Run(w, es).log, id)
    ensures var store := Run(w, es).shared.store;
            && store.secrets.Keys == store.sites.Keys
            && forall d :: d in store.devices ==> store.devices[d].siteId in store.sites
  {
    FreshIsOk(w);
    RunKeeps(w, es);
    CreationIsAccounted(w, es);
    var store := Run(w, es).shared.store;
    assert KeysOk(store);
    forall id ensures id in store.sites <==> id in store.secrets {
      if id in store.sites {
        assert Accounted(Run(w, es), id);
      }
    }
  }

  // ----- exactly when a site is left without a credential -----

  predicate Deletes(entry: Entry, id: int) {
    entry.call == DbAccess(DeleteSite(id)) && entry.reply == FromDb(Changed(true))
  }

  predicate StoresCredential(entry: Entry, id: int) {
    entry.call.DbAccess? && entry.call.db.UpsertSecret? && entry.call.db.id == id && entry.reply == FromDb(Stored)
  }

  ghost predicate WasGivenOut(log: seq<Entry>, id: int) {
    exists k :: 0 <= k < |log| && GivesOut(log[k], id)
  }

  ghost predicate WasDeleted(log: seq<Entry>, id: int) {
    exists k :: 0 <= k < |log| && Deletes(log[k], id)
  }

  ghost predicate WasCredentialed(log: seq<Entry>, id: int) {
    exists k :: 0 <= k < |log| && StoresCredential(log[k], id)
  }

  /** The record tells which sites and secrets there are. */
  ghost predicate Recorded(s: StoreModel, log: seq<Entry>) {
    forall id ::
      && (id in s.sites <==> WasGivenOut(log, id) && !WasDeleted(log, id))
      && (id in s.secrets <==> id in s.sites && WasCredentialed(log, id))
      && (WasGivenOut(log, id) || WasDeleted(log, id) || WasCredentialed(log, id) ==> id <= s.siteSeq)
  }

  /** What one step adds to the record about this site. */
  lemma RecordGrows(log: seq<Entry>, entry: Entry, id: int)
    ensures WasGivenOut(log + [entry], id) <==> WasGivenOut(log, id) || GivesOut(entry, id)
    ensures WasDeleted(log + [entry], id) <==> WasDeleted(log, id) || Deletes(entry, id)
    ensures WasCredentialed(log + [entry], id) <==> WasCredentialed(log, id) || StoresCredential(entry, id)
  {
    var longer := log + [entry];
    assert longer[|log|] == entry;
    assert forall k :: 0 <= k < |log| ==> longer[k] == log[k];
    if GivesOut(entry, id) { assert GivesOut(longer[|log|], id); }
    if Deletes(entry, id) { assert Deletes(longer[|log|], id); }
    if StoresCredential(entry, id) { assert StoresCredential(longer[|log|], id); }
    if k :| 0 <= k < |log| && GivesOut(log[k], id) { assert GivesOut(longer[k], id); }
    if k :| 0 <= k < |log| && Deletes(log[k], id) { assert Deletes(longer[k], id); }
    if k :| 0 <= k < |log| && StoresCredential(log[k], id) { assert StoresCredential(longer[k], id); }
  }

  /** A call's effect on one site and its secret. */
  predicate SiteEffect(s: StoreModel, call: DbCall, after: StoreModel, row: DbReply, id: int) {
    var given := call.InsertSite? && row == NewId(id);
    var gone := call == DeleteSite(id) && row == Changed(true);
    var stored := call.UpsertSecret? && call.id == id && row == Stored;
    && s.siteSeq <= after.siteSeq
    && (id in after.sites <==> (id in s.sites || given) && !gone)
    && (id in after.secrets <==> (id in s.secrets || stored) && !gone)
    && (given ==> s.siteSeq < id && id == after.siteSeq)
    && (gone || stored ==> id in s.sites)
  }

  lemma SitesEffect(s: StoreModel, call: DbCall, id: int)
    requires KeysOk(s) && !call.UpsertSecret?
    ensures SiteEffect(s, call, OnSites(s, call).0, OnSites(s, call).1, id)
  {
  }

  lemma SecretsEffect(s: StoreModel, call: DbCall, id: int)
    requires !call.InsertSite? && !call.DeleteSite?
    ensures SiteEffect(s, call, OnSecrets(s, call).0, OnSecrets(s, call).1, id)
  {
  }

  lemma ExecuteSite(s: StoreModel, call: DbCall, fails: bool, id: int)
    requires KeysOk(s)
    ensures SiteEffect(s, call, Execute(s, call, fails).0, Execute(s, call, fails).1, id)
  {
    if !call.UpsertSecret? {
      SitesEffect(s, call, id);
    }
    if !call.InsertSite? && !call.DeleteSite? {
      SecretsEffect(s, call, id);
    }
  }

  lemma RecordedStep(w: World, t: nat, env: Env)
    requires Recorded(w.shared.store, w.log) && KeysOk(w.shared.store) && Enabled(w, t, env)
    ensures Recorded(StepTask(w, t, env).shared.store, StepTask(w, t, env).log)
  {
    var task := w.tasks[t];
    var call := Issue(task);
    var (shared, reply) := Perform(w.shared, call, w.now, env);
    var entry := Entry(task, call, reply, Resume(task, reply, env));
    forall id
      ensures id in shared.store.sites <==> WasGivenOut(w.log + [entry], id) && !WasDeleted(w.log + [entry], id)
      ensures id in shared.store.secrets <==> id in shared.store.sites && WasCredentialed(w.log + [entry], id)
      ensures WasGivenOut(w.log + [entry], id) ==> id <= shared.store.siteSeq
      ensures WasDeleted(w.log + [entry], id) ==> id <= shared.store.siteSeq
      ensures WasCredentialed(w.log + [entry], id) ==> id <= shared.store.siteSeq
    {
      RecordGrows(w.log, entry, id);
      if call.DbAccess? {
        ExecuteSite(w.shared.store, call.db, env.dbFails, id);
      }
    }
  }

  /** Whoever is creating a site, or has failed to take it back, was given its id. */
  ghost predicate CreatorsRecorded(w: World) {
    && (forall t, id :: t in w.tasks && Creating(w.tasks[t], id) ==> WasGivenOut(w.log, id))
    && (forall k, id :: 0 <= k < |w.log| && IsFailedUndo(w.log[k], id) ==> WasGivenOut(w.log, id))
  }

  lemma StartsCreating(task: Task, reply: Reply, env: Env, id: int)
    requires Creating(Resume(task, reply, env), id)
    ensures Creating(task, id) || GivesOut(Entry(task, Issue(task), reply, Resume(task, reply, env)), id)
  {
    match task
    case Guard(token, _, job) =>
      if reply.SessionFound? && reply.session.Some? {
        EnterCreatesNothing(Ctx(token, reply.session.value), job, env, id);
      }
    case Busy(ctx, pc) => OthersCreateNothing(ctx, pc, reply, env, id);
    case _ =>
  }

  lemma EnterCreatesNothing(ctx: Ctx, job: Job, env: Env, id: int)
    ensures !Creating(Enter(ctx, job, env), id)
  {
  }

  lemma OthersCreateNothing(ctx: Ctx, pc: Pc, reply: Reply, env: Env, id: int)
    ensures !Creating(ResumeDevice(ctx, pc, reply, env), id) && !Creating(ResumeAccount(ctx, pc, reply, env), id)
  {
  }

  lemma CreatorsStep(w: World, t: nat, env: Env)
    requires CreatorsRecorded(w) && Enabled(w, t, env)
    ensures CreatorsRecorded(StepTask(w, t, env))
  {
    var task := w.tasks[t];
    var call := Issue(task);
    var reply := Perform(w.shared, call, w.now, env).1;
    var entry := Entry(task, call, reply, Resume(task, reply, env));
    var w' := StepTask(w, t, env);
    forall u, id | u in w'.tasks && Creating(w'.tasks[u], id) ensures WasGivenOut(w'.log, id) {
      RecordGrows(w.log, entry, id);
      if u != t {
        assert w'.tasks[u] == w.tasks[u];
      } else {
        StartsCreating(task, reply, env, id);
      }
    }
    forall k, id | 0 <= k < |w'.log| && IsFailedUndo(w'.log[k], id) ensures WasGivenOut(w'.log, id) {
      RecordGrows(w.log, entry, id);
      if k < |w.log| {
        assert w'.log[k] == w.log[k];
      } else {
        assert Creating(task, id);
      }
    }
  }

  lemma {:induction false} RecordsHold(w: World, es: seq<Event>)
    requires Fresh(w)
    ensures Recorded(Run(w, es).shared.store, Run(w, es).log) && CreatorsRecorded(Run(w, es))
  {
    if es != [] {
      var init := es[..|es| - 1];
      var e := es[|es| - 1];
      RecordsHold(w, init);
      FreshIsOk(w);
      RunKeeps(w, init);
      if e.Advance? && Enabled(Run(w, init), e.t, e.env) {
        RecordedStep(Run(w, init), e.t, e.env);
        CreatorsStep(Run(w, init), e.t, e.env);
      }
    }
  }

  /** All or nothing fails in one case, and exactly then: over every interleaved run, a site that no
      handler is creating any more is there without a credential exactly when the delete that should
      have taken it back met a database failure, and since then nobody has deleted it or stored a
      credential for it. */
  lemma LeftWithoutCredentialExactly(w: World, es: seq<Event>, id: int)
    requires Fresh(w) && !InCreation(Run(w, es).tasks, id)
    ensures var v := Run(w, es);
            id in v.shared.store.sites && id !in v.shared.store.secrets <==>
              UndoFailed(v.log, id) && !WasDeleted(v.log, id) && !WasCredentialed(v.log, id)
  {
    RecordsHold(w, es);
    CreationIsAccounted(w, es);
    var v := Run(w, es);
    if id in v.shared.store.sites {
      assert Accounted(v, id);
    }
    if UndoFailed(v.log, id) {
      var k :| 0 <= k < |v.log| && IsFailedUndo(v.log[k], id);
    }
  }

  // ----- the case happens -----

  /** A service without any site, and one handler about to insert one. */
  function AboutToCreate(ctx: Ctx, values: SiteValues, credential: string): World {
    World(Shared(StoreModel(map[], map[], map[], map[], map[], [], [], 0, 0, 0), EMPTY), 0,
          map[1 := Busy(ctx, CreateInsert(values, credential))], [], {})
  }

  lemma Inserts(w: World, env: Env, ctx: Ctx, values: SiteValues, credential: string)
    requires w.shared.store.sites == map[] && w.shared.store.secrets == map[] && w.shared.store.siteSeq == 0
    requires 1 in w.tasks && w.tasks[1] == Busy(ctx, CreateInsert(values, credential)) && !env.dbFails
    ensures var v := Step(w, Advance(1, env));
            && v.shared.store.sites == map[1 := NewSite(values)] && v.shared.store.secrets == map[]
            && v.tasks == w.tasks[1 := Busy(ctx, CreateSeal(1, credential))]
  {
    StepIsAlone(w, 1, env);
    AfterInsert(w.shared, ctx, values, credential, w.now, env);
  }

  /** A step whose database call fails changes no table. */
  lemma FailsToWrite(w: World, env: Env, ctx: Ctx, pc: Pc)
    requires 1 in w.tasks && w.tasks[1] == Busy(ctx, pc) && env.dbFails && (pc.CreateStore? || pc.CreateUndo?)
    ensures var v := Step(w, Advance(1, env));
            && v.shared.store == w.shared.store
            && v.tasks == w.tasks[1 := if pc.CreateUndo? then Finished(ServerError) else Busy(ctx, CreateUndo(pc.id))]
  {
    StepIsAlone(w, 1, env);
  }

  lemma Seals(w: World, env: Env, ctx: Ctx, credential: string)
    requires 1 in w.tasks && w.tasks[1] == Busy(ctx, CreateSeal(1, credential)) && !env.sealFails
    ensures var v := Step(w, Advance(1, env));
            && v.shared == w.shared
            && v.tasks == w.tasks[1 := Busy(ctx, CreateStore(1, Secret(SECRET_KIND, credential)))]
  {
    StepIsAlone(w, 1, env);
  }

  function FailedTwice(good: Env, bad: Env): seq<Event> {
    [] + [Advance(1, good)] + [Advance(1, good)] + [Advance(1, bad)] + [Advance(1, bad)]
  }

  /** Storing the credential fails and so does taking the row back: the handler answers with an error,
      and the site is there without a credential. */
  lemma FailedUndoLeavesSite(ctx: Ctx, values: SiteValues, credential: string, good: Env, bad: Env)
    requires !good.dbFails && !good.sealFails && bad.dbFails
    ensures var v := Run(AboutToCreate(ctx, values, credential), FailedTwice(good, bad));
            && v.shared.store.sites == map[1 := NewSite(values)] && v.shared.store.secrets == map[]
            && v.tasks == map[1 := Finished(ServerError)]
  {
    var w := AboutToCreate(ctx, values, credential);
    var secret := Secret(SECRET_KIND, credential);
    Inserts(w, good, ctx, values, credential);
    RunOn(w, [], Advance(1, good));
    var es := [] + [Advance(1, good)];
    Seals(Run(w, es), good, ctx, credential);
    RunOn(w, es, Advance(1, good));
    es := es + [Advance(1, good)];
    FailsToWrite(Run(w, es), bad, ctx, CreateStore(1, secret));
    RunOn(w, es, Advance(1, bad));
    es := es + [Advance(1, bad)];
    FailsToWrite(Run(w, es), bad, ctx, CreateUndo(1));
    RunOn(w, es, Advance(1, bad));
  }
}
