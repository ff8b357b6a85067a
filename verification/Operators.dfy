/** What a run without administrators can change. */
module Operators {
  import opened Results
  import opened Records
  import opened Store
  import opened Auth
  import opened Handlers

  /** The program counters of handlers that need no administrator. */
  predicate OperatorPc(pc: Pc) {
    || pc.LogoutSession? || pc.LogoutPending?
    || pc.WakeReadDevice? || pc.WakeReadSite? || pc.WakeCredential? || pc.WakeSend?
    || pc.WakeRefused? || pc.WakeRecord? || pc.WakeAudit?
    || pc.PasswordFind? || pc.PasswordWrite? || pc.PasswordAudit?
  }

  predicate OperatorTask(task: Task) {
    task.Busy? ==> task.ctx.session.role == Operator && OperatorPc(task.pc)
  }

  /** Every session that still resolves is an operator's; expired entries may be anyone's. */
  ghost predicate LiveOperators(w: World) {
    forall token :: Resolves(w.shared.auth.sessions, token, w.now) ==> w.shared.auth.sessions[token].role == Operator
  }

  ghost predicate OperatorTasks(w: World) {
    forall t :: t in w.tasks ==> OperatorTask(w.tasks[t])
  }

  /** In every state of the run, from w on, every live session is an operator's. */
  ghost predicate OperatorsThroughout(w: World, es: seq<Event>) {
    LiveOperators(Run(w, es)) && (es != [] ==> OperatorsThroughout(w, es[..|es| - 1]))
  }

  /** The calls an operator's handler or a login can make to the store: reads, the two event tables,
      and the password of the session's own user. */
  predicate OperatorCall(task: Task, call: DbCall) {
    || call.FindUser? || call.GetSite? || call.GetDevice? || call.GetSecret?
    || call.InsertWakeEvent? || call.InsertAuditEvent?
    || (call.UpdatePassword? && task.Busy? && call.username == task.ctx.session.username)
  }

  /** Same users with the same ids, names, roles and status; only hashes may differ. */
  ghost predicate OnlyHashesDiffer(before: map<string, User>, after: map<string, User>) {
    && before.Keys == after.Keys
    && forall name :: name in before ==> after[name] == before[name].(passwordHash := after[name].passwordHash)
  }

  ghost predicate ConfigurationKept(before: StoreModel, after: StoreModel) {
    && after.sites == before.sites && after.devices == before.devices && after.secrets == before.secrets
    && after.settings == before.settings
    && OnlyHashesDiffer(before.users, after.users)
  }

  lemma OperatorIssues(task: Task)
    requires OperatorTask(task) && Issue(task).DbAccess?
    ensures OperatorCall(task, Issue(task).db)
  {
  }

  lemma OwnHashOnly(s: StoreModel, call: DbCall)
    requires call.UpdatePassword? || call.FindUser?
    ensures ConfigurationKept(s, OnAccounts(s, call).0)
    ensures call.FindUser? ==> OnAccounts(s, call).0.users == s.users
    ensures call.UpdatePassword? ==>
              forall name :: name in s.users && name != call.username ==>
                               OnAccounts(s, call).0.users[name] == s.users[name]
  {
  }

  lemma EventsAndReadsKeep(s: StoreModel, call: DbCall)
    requires call.GetSite? || call.GetDevice? || call.GetSecret? || call.InsertWakeEvent? || call.InsertAuditEvent?
    ensures forall fails :: var after := Execute(s, call, fails).0;
                            after == s.(wakeEvents := after.wakeEvents, auditEvents := after.auditEvents)
  {
  }

  lemma OperatorCallKeeps(task: Task, s: StoreModel, call: DbCall, fails: bool)
    requires OperatorCall(task, call)
    ensures ConfigurationKept(s, Execute(s, call, fails).0)
    ensures !call.UpdatePassword? ==> Execute(s, call, fails).0.users == s.users
    ensures call.UpdatePassword? ==>
              forall name :: name in s.users && name != call.username ==>
                               Execute(s, call, fails).0.users[name] == s.users[name]
  {
    if call.UpdatePassword? || call.FindUser? {
      OwnHashOnly(s, call);
    } else {
      EventsAndReadsKeep(s, call);
    }
  }

  lemma OperatorResumes(task: Task, reply: Reply, env: Env)
    requires OperatorTask(task)
    requires reply.SessionFound? && reply.session.Some? ==> reply.session.value.role == Operator
    ensures OperatorTask(Resume(task, reply, env))
  {
  }

  lemma FoundIsOperator(s: Shared, call: Call, now: nat, env: Env)
    requires forall token :: Resolves(s.auth.sessions, token, now) ==> s.auth.sessions[token].role == Operator
    ensures var (shared, reply) := Perform(s, call, now, env);
            && (reply.SessionFound? && reply.session.Some? ==> reply.session.value.role == Operator)
            && (!call.DbAccess? ==> shared.store == s.store)
  {
  }

  /** The step stored a new hash for this user, in a handler acting for that very user. */
  predicate ChangesOwnHash(entry: Entry, name: string) {
    && entry.task.Busy? && entry.task.ctx.session.username == name
    && entry.call.DbAccess? && entry.call.db.UpdatePassword? && entry.call.db.username == name
    && entry.reply == FromDb(Changed(true))
  }

  lemma OperatorStep(w: World, t: nat, env: Env)
    requires LiveOperators(w) && OperatorTasks(w) && Enabled(w, t, env)
    ensures OperatorTasks(StepTask(w, t, env))
    ensures ConfigurationKept(w.shared.store, StepTask(w, t, env).shared.store)
    ensures forall name :: name in w.shared.store.users
                           && StepTask(w, t, env).shared.store.users[name] != w.shared.store.users[name] ==>
              ChangesOwnHash(StepTask(w, t, env).log[|w.log|], name)
  {
    var task := w.tasks[t];
    var call := Issue(task);
    FoundIsOperator(w.shared, call, w.now, env);
    OperatorResumes(task, Perform(w.shared, call, w.now, env).1, env);
    if call.DbAccess? {
      OperatorIssues(task);
      OperatorCallKeeps(task, w.shared.store, call.db, env.dbFails);
    }
    var w' := StepTask(w, t, env);
    forall u | u in w'.tasks ensures OperatorTask(w'.tasks[u]) {
      if u != t {
        assert w'.tasks[u] == w.tasks[u];
      }
    }
  }

  /** Some step of the run, from w on, was that user's own change of password. */
  ghost predicate ChangedOwnHash(w: World, es: seq<Event>, name: string) {
    exists k :: |w.log| <= k < |Run(w, es).log| && ChangesOwnHash(Run(w, es).log[k], name)
  }

  /** While every live session is an operator's, every interleaved run leaves sites, devices, secrets
      and settings as they were, adds and removes no user, and of a user changes only the password
      hash, and that only by a handler acting for that very user. Entries of administrators that have
      run out may still be in the session table. */
  lemma {:induction false} OperatorFrame(w: World, es: seq<Event>)
    requires OperatorTasks(w) && OperatorsThroughout(w, es)
    ensures OperatorTasks(Run(w, es))
    ensures ConfigurationKept(w.shared.store, Run(w, es).shared.store)
    ensures forall name :: name in w.shared.store.users
                           && Run(w, es).shared.store.users[name] != w.shared.store.users[name] ==>
              ChangedOwnHash(w, es, name)
  {
    if es != [] {
      var init := es[..|es| - 1];
      var e := es[|es| - 1];
      var before := Run(w, init);
      var after := Run(w, es);
      LogGrows(w, init);
      assert before.log <= after.log;
      OperatorFrame(w, init);
      if e.Advance? && Enabled(before, e.t, e.env) {
        OperatorStep(before, e.t, e.env);
      }
      forall name | name in w.shared.store.users && after.shared.store.users[name] != w.shared.store.users[name]
        ensures ChangedOwnHash(w, es, name)
      {
        if ChangedOwnHash(w, init, name) {
          var k :| |w.log| <= k < |before.log| && ChangesOwnHash(before.log[k], name);
          assert ChangesOwnHash(after.log[k], name);
        } else {
          assert ChangesOwnHash(after.log[|before.log|], name);
        }
      }
    }
  }

  // ----- when no administrator logs in -----

  predicate LogsInAdmin(entry: Entry) {
    entry.call.CreateSession? && entry.call.user.role == Some(Admin)
  }

  ghost predicate NoAdminLogin(w: World, es: seq<Event>) {
    forall k :: |w.log| <= k < |Run(w, es).log| ==> !LogsInAdmin(Run(w, es).log[k])
  }

  lemma LiveStaysOperator(s: Shared, call: Call, now: nat, env: Env)
    requires forall token :: Resolves(s.auth.sessions, token, now) ==> s.auth.sessions[token].role == Operator
    requires call.CreateSession? ==> call.user.role != Some(Admin)
    ensures var sessions := Perform(s, call, now, env).0.auth.sessions;
            forall token :: Resolves(sessions, token, now) ==> sessions[token].role == Operator
  {
  }

  /** Live sessions stay operators' as long as no administrator logs in, whatever else happens. */
  lemma {:induction false} NoAdminLoginSuffices(w: World, es: seq<Event>)
    requires LiveOperators(w) && NoAdminLogin(w, es)
    ensures OperatorsThroughout(w, es)
  {
    if es != [] {
      var init := es[..|es| - 1];
      var e := es[|es| - 1];
      var before := Run(w, init);
      var after := Run(w, es);
      LogGrows(w, init);
      assert before.log <= after.log;
      assert NoAdminLogin(w, init) by {
        assert forall k :: 0 <= k < |before.log| ==> before.log[k] == after.log[k];
      }
      NoAdminLoginSuffices(w, init);
      if e.Advance? && Enabled(before, e.t, e.env) {
        assert !LogsInAdmin(after.log[|before.log|]);
        LiveStaysOperator(before.shared, Issue(before.tasks[e.t]), before.now, e.env);
      }
    }
  }
}
