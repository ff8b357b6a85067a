/** A site id is given out once, and nothing under way mentions an id before it is given out. */
module SiteIds {
  import opened Store
  import opened Handlers

  /** The step gave out this site id. */
  predicate GivesOut(entry: Entry, id: int) {
    entry.call.DbAccess? && entry.call.db.InsertSite? && entry.reply == FromDb(NewId(id))
  }

  /** A handler that carries a row or a key of this site. */
  predicate Mentions(task: Task, id: int) {
    && task.Busy?
    && ( || (task.pc.TestCredential? && task.pc.id == id)
         || (task.pc.TestDial? && task.pc.id == id)
         || (task.pc.TestPending? && task.pc.id == id)
         || (task.pc.TrustWrite? && task.pc.id == id))
  }

  ghost predicate IdInv(w: World) {
    && (forall id :: id in w.shared.store.sites ==> id <= w.shared.store.siteSeq)
    && (forall k :: k in w.shared.auth.pending ==> k.1 <= w.shared.store.siteSeq)
    && (forall t, id :: t in w.tasks && Mentions(w.tasks[t], id) ==> id <= w.shared.store.siteSeq)
    && (forall k, id :: 0 <= k < |w.log| && GivesOut(w.log[k], id) ==> id <= w.shared.store.siteSeq)
    && (forall j, k, a, b :: 0 <= j < k < |w.log| && GivesOut(w.log[j], a) && GivesOut(w.log[k], b) ==> a < b)
  }

  lemma ExecuteIds(s: StoreModel, call: DbCall, fails: bool)
    requires forall id :: id in s.sites ==> id <= s.siteSeq
    ensures var (s', row) := Execute(s, call, fails);
            && s.siteSeq <= s'.siteSeq
            && (forall id :: id in s'.sites ==> id <= s'.siteSeq)
            && (call.InsertSite? && row.NewId? ==> s.siteSeq < row.id == s'.siteSeq)
            && (row.SiteRow? && row.site.Some? ==> call.GetSite? && call.id in s.sites)
  {
  }

  lemma PerformIds(s: Shared, call: Call, now: nat, env: Env)
    requires forall id :: id in s.store.sites ==> id <= s.store.siteSeq
    requires forall k :: k in s.auth.pending ==> k.1 <= s.store.siteSeq
    requires call.SetPending? ==> call.id <= s.store.siteSeq
    ensures var (shared, reply) := Perform(s, call, now, env);
            && s.store.siteSeq <= shared.store.siteSeq
            && (forall id :: id in shared.store.sites ==> id <= shared.store.siteSeq)
            && (forall k :: k in shared.auth.pending ==> k.1 <= shared.store.siteSeq)
            && (forall id :: call.DbAccess? && call.db.InsertSite? && reply == FromDb(NewId(id)) ==>
                  s.store.siteSeq < id == shared.store.siteSeq)
            && (FoundSite(reply) ==> call.DbAccess? && call.db.GetSite? && call.db.id in s.store.sites)
            && (call.TakePending? && reply.PendingFound? && reply.fingerprint.Some? ==>
                  (call.token, call.id) in s.auth.pending)
  {
    if call.DbAccess? {
      ExecuteIds(s.store, call.db, env.dbFails);
    }
  }

  lemma EnterMentionsNothing(ctx: Ctx, job: Job, env: Env, id: int)
    ensures !Mentions(Enter(ctx, job, env), id)
  {
  }

  lemma SiteMentionStarts(ctx: Ctx, pc: Pc, reply: Reply, env: Env, id: int)
    requires Mentions(ResumeSite(ctx, pc, reply, env), id)
    ensures || Mentions(Busy(ctx, pc), id)
            || (pc == TestRead(id) && FoundSite(reply))
            || (pc.TrustTake? && pc.id == id && reply.PendingFound? && reply.fingerprint.Some?)
  {
  }

  lemma OthersMentionNothing(ctx: Ctx, pc: Pc, reply: Reply, env: Env, id: int)
    ensures !Mentions(ResumeDevice(ctx, pc, reply, env), id) && !Mentions(ResumeAccount(ctx, pc, reply, env), id)
  {
  }

  /** A handler comes to mention a site by reading its row or taking its pending key. */
  lemma MentionStarts(task: Task, reply: Reply, env: Env, id: int)
    requires Mentions(Resume(task, reply, env), id)
    ensures || Mentions(task, id)
            || (task.Busy? && task.pc == TestRead(id) && FoundSite(reply))
            || (task.Busy? && task.pc.TrustTake? && task.pc.id == id && reply.PendingFound? && reply.fingerprint.Some?)
  {
    match task
    case Guard(token, _, job) =>
      if reply.SessionFound? && reply.session.Some? {
        EnterMentionsNothing(Ctx(token, reply.session.value), job, env, id);
      }
    case Busy(ctx, pc) =>
      OthersMentionNothing(ctx, pc, reply, env, id);
      if Resume(task, reply, env) == ResumeSite(ctx, pc, reply, env) {
        SiteMentionStarts(ctx, pc, reply, env, id);
      }
    case _ =>
  }

  lemma IdStep(w: World, t: nat, env: Env)
    requires IdInv(w) && Enabled(w, t, env)
    ensures IdInv(StepTask(w, t, env))
  {
    var task := w.tasks[t];
    var call := Issue(task);
    if call.SetPending? {
      assert Mentions(task, call.id);
    }
    PerformIds(w.shared, call, w.now, env);
    var (shared, reply) := Perform(w.shared, call, w.now, env);
    var w' := StepTask(w, t, env);
    forall u, id | u in w'.tasks && Mentions(w'.tasks[u], id) ensures id <= shared.store.siteSeq {
      if u != t {
        assert w'.tasks[u] == w.tasks[u];
      } else {
        MentionStarts(task, reply, env, id);
      }
    }
    forall k, id | 0 <= k < |w'.log| && GivesOut(w'.log[k], id) ensures id <= shared.store.siteSeq {
      if k < |w.log| {
        assert w'.log[k] == w.log[k];
      }
    }
    forall j, k, a, b | 0 <= j < k < |w'.log| && GivesOut(w'.log[j], a) && GivesOut(w'.log[k], b) ensures a < b {
      assert w'.log[j] == w.log[j];
      if k < |w.log| {
        assert w'.log[k] == w.log[k];
      }
    }
  }

  lemma {:induction false} IdInvHolds(w: World, es: seq<Event>)
    requires Fresh(w)
    ensures IdInv(Run(w, es))
  {
    if es != [] {
      var before := Run(w, es[..|es| - 1]);
      var e := es[|es| - 1];
      IdInvHolds(w, es[..|es| - 1]);
      if e.Advance? && Enabled(before, e.t, e.env) {
        IdStep(before, e.t, e.env);
      }
    }
  }

  /** Over every interleaved run: ids given out later are larger, so none is given out twice, and
      whatever waits for a decision or is carried by a handler names an id already given out. A key
      seen for a deleted site can therefore never be waiting for a newer one. */
  lemma SiteIdsAreNeverReused(w: World, es: seq<Event>, j: nat, k: nat, a: int, b: int)
    requires Fresh(w)
    requires j < |Run(w, es).log| && GivesOut(Run(w, es).log[j], a)
    requires k < |Run(w, es).log| && GivesOut(Run(w, es).log[k], b)
    ensures j < k <==> a < b
    ensures a == b ==> j == k
    ensures forall waiting :: waiting in Run(w, es).shared.auth.pending ==> waiting.1 <= Run(w, es).shared.store.siteSeq
    ensures forall t, id :: t in Run(w, es).tasks && Mentions(Run(w, es).tasks[t], id) ==>
              id <= Run(w, es).shared.store.siteSeq
  {
    IdInvHolds(w, es);
  }
}
