/** The wake history and the audit log account for every wake. */
module WakeHistory {
  import opened Records
  import opened Store
  import opened Handlers
  import opened Counting

  /** A wake call returned with this status. */
  function IsReturned(status: WakeStatus): Entry -> bool {
    (entry: Entry) => && entry.call.Wake?
                      && status == if entry.reply.Woken? && entry.reply.answer.Ok? then Success else Failed
  }

  /** A form wake was refused for want of a usable credential. */
  function IsRefused(status: WakeStatus): Entry -> bool {
    (entry: Entry) => && status.Failed? && entry.task.Busy? && entry.task.pc.WakeCredential?
                      && entry.next.Busy? && entry.next.pc.WakeRefused?
  }

  function IsLostEvent(status: WakeStatus): Entry -> bool {
    (entry: Entry) => InsertsEvent(entry.call, status) && entry.reply == FromDb(DbFailed)
  }

  /** About to write a history row. */
  function Recording(status: WakeStatus): Task -> bool {
    (task: Task) => && task.Busy?
                    && ((task.pc.WakeRecord? && task.pc.status == status) || (task.pc.WakeRefused? && status.Failed?))
  }

  function AuditOf(status: WakeStatus): AuditAction {
    if status.Success? then DeviceWake else DeviceWakeFailed
  }

  function IsLostAudit(status: WakeStatus): Entry -> bool {
    (entry: Entry) => InsertsAudit(entry.call, status) && entry.reply == FromDb(DbFailed)
  }

  /** Returned from the wake call and not audited yet. */
  function Unaudited(status: WakeStatus): Task -> bool {
    (task: Task) => task.Busy? && (task.pc.WakeRecord? || task.pc.WakeAudit?) && task.pc.status == status
  }

  function EventsWith(events: seq<WakeEvent>, status: WakeStatus): nat {
    if events == [] then 0
    else EventsWith(events[..|events| - 1], status) + if events[|events| - 1].status == status then 1 else 0
  }

  function AuditsWith(audits: seq<AuditEvent>, action: AuditAction): nat {
    if audits == [] then 0
    else AuditsWith(audits[..|audits| - 1], action) + if audits[|audits| - 1].action == action then 1 else 0
  }

  predicate InsertsEvent(call: Call, status: WakeStatus) {
    call.DbAccess? && call.db.InsertWakeEvent? && call.db.event.status == status
  }

  predicate InsertsAudit(call: Call, status: WakeStatus) {
    call.DbAccess? && call.db.InsertAuditEvent? && call.db.audit.action == AuditOf(status)
  }

  /** Only the insert call touches the history, and it adds one row or is lost. */
  lemma EventsStep(s: StoreModel, call: DbCall, fails: bool, status: WakeStatus)
    ensures var (s', row) := Execute(s, call, fails);
            EventsWith(s'.wakeEvents, status) + One(InsertsEvent(DbAccess(call), status) && row == DbFailed)
            == EventsWith(s.wakeEvents, status) + One(InsertsEvent(DbAccess(call), status))
  {
    var s' := Execute(s, call, fails).0;
    assert s'.wakeEvents == s.wakeEvents || s'.wakeEvents[..|s'.wakeEvents| - 1] == s.wakeEvents;
  }

  lemma AuditsStep(s: StoreModel, call: DbCall, fails: bool, status: WakeStatus)
    ensures var (s', row) := Execute(s, call, fails);
            AuditsWith(s'.auditEvents, AuditOf(status)) + One(InsertsAudit(DbAccess(call), status) && row == DbFailed)
            == AuditsWith(s.auditEvents, AuditOf(status)) + One(InsertsAudit(DbAccess(call), status))
  {
    var s' := Execute(s, call, fails).0;
    assert s'.auditEvents == s.auditEvents || s'.auditEvents[..|s'.auditEvents| - 1] == s.auditEvents;
  }

  lemma TablesStep(s: Shared, call: Call, now: nat, env: Env, status: WakeStatus)
    ensures var (shared, reply) := Perform(s, call, now, env);
            && EventsWith(shared.store.wakeEvents, status)
               + One(InsertsEvent(call, status) && reply == FromDb(DbFailed))
               == EventsWith(s.store.wakeEvents, status) + One(InsertsEvent(call, status))
            && AuditsWith(shared.store.auditEvents, AuditOf(status))
               + One(InsertsAudit(call, status) && reply == FromDb(DbFailed))
               == AuditsWith(s.store.auditEvents, AuditOf(status)) + One(InsertsAudit(call, status))
  {
    if call.DbAccess? {
      EventsStep(s.store, call.db, env.dbFails, status);
      AuditsStep(s.store, call.db, env.dbFails, status);
    }
  }

  /** The inserts come exactly from the program counters that are due to make them. */
  lemma InsertsAreDue(task: Task, status: WakeStatus)
    ensures var call := Issue(task);
            && (InsertsEvent(call, status) <==> Recording(status)(task))
            && (InsertsAudit(call, status) <==> task.Busy? && task.pc.WakeAudit? && task.pc.status == status)
            && (call.Wake? <==> task.Busy? && task.pc.WakeSend?)
  {
  }

  /** A history row becomes due exactly when a wake call returns or a form wake is refused. */
  lemma RecordDueExactly(task: Task, reply: Reply, env: Env, status: WakeStatus)
    ensures var next := Resume(task, reply, env);
            Recording(status)(next) <==>
              || (task.Busy? && task.pc.WakeSend?
                  && status == if reply.Woken? && reply.answer.Ok? then Success else Failed)
              || (status.Failed? && task.Busy? && task.pc.WakeCredential? && next.Busy? && next.pc.WakeRefused?)
  {
  }

  /** An audit row becomes due exactly when a wake call returns, and stays due until it is written. */
  lemma AuditDueExactly(task: Task, reply: Reply, env: Env, status: WakeStatus)
    ensures Unaudited(status)(Resume(task, reply, env)) <==>
              || (task.Busy? && task.pc.WakeSend?
                  && status == if reply.Woken? && reply.answer.Ok? then Success else Failed)
              || (task.Busy? && task.pc.WakeRecord? && task.pc.status == status)
  {
  }

  ghost predicate Balanced(w: World, status: WakeStatus) {
    && EventsWith(w.shared.store.wakeEvents, status) + Tally(w.log, IsLostEvent(status))
       + CountTasks(w.tasks, Recording(status))
       == Tally(w.log, IsReturned(status)) + Tally(w.log, IsRefused(status))
    && AuditsWith(w.shared.store.auditEvents, AuditOf(status)) + Tally(w.log, IsLostAudit(status))
       + CountTasks(w.tasks, Unaudited(status))
       == Tally(w.log, IsReturned(status))
  }

  lemma AdvanceBalanced(w: World, t: nat, env: Env, status: WakeStatus)
    requires Balanced(w, status) && Enabled(w, t, env)
    ensures Balanced(StepTask(w, t, env), status)
  {
    var task := w.tasks[t];
    var call := Issue(task);
    var (_, reply) := Perform(w.shared, call, w.now, env);
    var next := Resume(task, reply, env);
    var entry := Entry(task, call, reply, next);
    TablesStep(w.shared, call, w.now, env, status);
    InsertsAreDue(task, status);
    RecordDueExactly(task, reply, env, status);
    AuditDueExactly(task, reply, env, status);
    CountUpdate(w.tasks, t, next, Recording(status));
    CountUpdate(w.tasks, t, next, Unaudited(status));
    TallyAppend(w.log, entry, IsLostEvent(status));
    TallyAppend(w.log, entry, IsReturned(status));
    TallyAppend(w.log, entry, IsRefused(status));
    TallyAppend(w.log, entry, IsLostAudit(status));
  }

  lemma StepBalanced(w: World, e: Event, status: WakeStatus)
    requires Balanced(w, status)
    ensures Balanced(Step(w, e), status)
  {
    match e
    case Arrive(t, request) =>
      if t !in w.tasks {
        CountUpdate(w.tasks, t, Admit(request), Recording(status));
        CountUpdate(w.tasks, t, Admit(request), Unaudited(status));
      }
    case Advance(t, env) =>
      if Enabled(w, t, env) {
        AdvanceBalanced(w, t, env, status);
      }
    case Tick(_) =>
    case Restart =>
  }

  /** Over every interleaved run, for each status: history rows, rows lost to database failures and
      rows still due equal the wake calls that returned with that status plus, for failures, the form
      wakes refused for want of a credential; and the same for audit rows, which are due for returned
      calls alone. Deleting the device or the site meanwhile does not matter. */
  lemma {:induction false} WakeHistoryIsConserved(w: World, es: seq<Event>, status: WakeStatus)
    requires Fresh(w)
    ensures Balanced(Run(w, es), status)
  {
    if es == [] {
      CountNone(w.tasks, Recording(status));
      CountNone(w.tasks, Unaudited(status));
    } else {
      WakeHistoryIsConserved(w, es[..|es| - 1], status);
      StepBalanced(Run(w, es[..|es| - 1]), es[|es| - 1], status);
    }
  }
}
