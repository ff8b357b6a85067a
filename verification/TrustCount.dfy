/** Each successful test of a site by a session pays for at most one attempt to store its key. */
module TrustCount {
  import opened Auth
  import opened Handlers
  import opened Counting

  /** A handler that holds an observed key it has not put down yet. */
  function Carries(token: string, id: int): Task -> bool {
    (task: Task) => && task.Busy? && task.ctx.token == token
            && ((task.pc.TestPending? && task.pc.id == id) || (task.pc.TrustWrite? && task.pc.id == id))
  }

  function IsObservation(token: string, id: int): Entry -> bool {
    (entry: Entry) => && entry.task.Busy? && entry.task.ctx.token == token
             && entry.call.Test? && entry.call.id == id && entry.reply.Tested? && entry.reply.outcome.Ok?
  }

  function IsTrust(token: string, id: int): Entry -> bool {
    (entry: Entry) => && entry.task.Busy? && entry.task.ctx.token == token
             && entry.call.DbAccess? && entry.call.db.TrustFingerprint? && entry.call.db.id == id
  }

  function Waiting(pending: Pending, token: string, id: int): nat {
    if (token, id) in pending then 1 else 0
  }

  ghost function Spent(w: World, token: string, id: int): nat {
    Tally(w.log, IsTrust(token, id)) + CountTasks(w.tasks, Carries(token, id))
    + Waiting(w.shared.auth.pending, token, id)
  }

  /** What a step does to the waiting entry, by its call. */
  lemma WaitingStep(s: Shared, call: Call, now: nat, env: Env, token: string, id: int)
    ensures var (shared, reply) := Perform(s, call, now, env);
            var before := Waiting(s.auth.pending, token, id);
            var after := Waiting(shared.auth.pending, token, id);
            && after <= before + One(call.SetPending? && call.token == token && call.id == id)
            && (call == TakePending(token, id) ==>
                  after == 0 && (reply.PendingFound? && reply.fingerprint.Some? ==> before == 1))
  {
  }

  /** The local balance of one step: what is carried, waiting or stored afterwards was carried or
      waiting before, or has just been observed. */
  lemma StepBalance(task: Task, s: Shared, now: nat, env: Env, token: string, id: int)
    ensures var call := Issue(task);
            var (shared, reply) := Perform(s, call, now, env);
            var next := Resume(task, reply, env);
            var entry := Entry(task, call, reply, next);
            One(IsTrust(token, id)(entry)) + One(Carries(token, id)(next)) + Waiting(shared.auth.pending, token, id)
            <= One(Carries(token, id)(task)) + Waiting(s.auth.pending, token, id) + One(IsObservation(token, id)(entry))
  {
    WaitingStep(s, Issue(task), now, env, token, id);
    CarryStep(task, Perform(s, Issue(task), now, env).1, env, token, id);
    CallKinds(task, token, id);
  }

  /** Where a carried key comes from. */
  lemma CarryStep(task: Task, reply: Reply, env: Env, token: string, id: int)
    ensures Carries(token, id)(Resume(task, reply, env)) ==>
              && task.Busy? && task.ctx.token == token
              && ( || (task.pc.TestDial? && task.pc.id == id && reply.Tested? && reply.outcome.Ok?)
                   || (task.pc.TrustTake? && task.pc.id == id && reply.PendingFound? && reply.fingerprint.Some?))
  {
  }

  lemma CallKinds(task: Task, token: string, id: int)
    ensures var call := Issue(task);
            && (call.SetPending? && call.token == token && call.id == id ==>
                  Carries(token, id)(task) && task.pc.TestPending?)
            && (task.Busy? && call.DbAccess? && call.db.TrustFingerprint? ==>
                  task.pc.TrustWrite? && task.pc.id == call.db.id)
            && (task.Busy? && task.pc.TestDial? ==> call.Test? && call.id == task.pc.id)
            && (task.Busy? && task.pc.TrustTake? ==> call == TakePending(task.ctx.token, task.pc.id))
  {
  }

  lemma SpentStep(w: World, e: Event, token: string, id: int)
    requires Spent(w, token, id) <= Tally(w.log, IsObservation(token, id))
    ensures Spent(Step(w, e), token, id) <= Tally(Step(w, e).log, IsObservation(token, id))
  {
    match e
    case Arrive(t, request) =>
      if t !in w.tasks {
        CountUpdate(w.tasks, t, Admit(request), Carries(token, id));
      }
    case Advance(t, env) =>
      if Enabled(w, t, env) {
        var task := w.tasks[t];
        var (_, reply) := Perform(w.shared, Issue(task), w.now, env);
        var entry := Entry(task, Issue(task), reply, Resume(task, reply, env));
        StepBalance(task, w.shared, w.now, env, token, id);
        CountUpdate(w.tasks, t, Resume(task, reply, env), Carries(token, id));
        TallyAppend(w.log, entry, IsTrust(token, id));
        TallyAppend(w.log, entry, IsObservation(token, id));
      }
    case Tick(_) =>
    case Restart =>
  }

  /** Over every interleaved run, for each session and site: the attempts to store a key, together
      with the keys carried and waiting, never outnumber the successful tests. */
  lemma {:induction false} TrustsNeverExceedTests(w: World, es: seq<Event>, token: string, id: int)
    requires Fresh(w)
    ensures Spent(Run(w, es), token, id) <= Tally(Run(w, es).log, IsObservation(token, id))
    ensures Tally(Run(w, es).log, IsTrust(token, id)) <= Tally(Run(w, es).log, IsObservation(token, id))
  {
    if es == [] {
      CountNone(w.tasks, Carries(token, id));
    } else {
      TrustsNeverExceedTests(w, es[..|es| - 1], token, id);
      SpentStep(Run(w, es[..|es| - 1]), es[|es| - 1], token, id);
    }
  }
}
