/** Changing a site's endpoint is meant to end the trust in its key. The update reads the row, writes
    it and clears the key in three separate calls, so it can miss. This says exactly when. */
module Endpoints {
  import opened Results
  import opened Records
  import opened Forms
  import opened Store
  import opened Auth
  import opened Handlers
  import opened Fingerprint
  import opened App
  import opened AppSites
  import opened AloneRuns
  import opened Trust
  import opened DeadTokens
  import opened Retrust
  import opened Returns
  import opened Ssh
  import opened WellFormed

  /** An update about to write: the row it has read, and what it was asked to write. */
  datatype Update = Update(ctx: Ctx, id: int, before: Site, values: SiteValues, credential: string)

  /** What has become of an update: its write was answered, its clear worked, its clear failed. */
  datatype Progress = Progress(written: bool, cleared: bool, clearFailed: bool)

  const NOTHING := Progress(false, false, false)

  function AboutToWrite(u: Update): Task {
    Busy(u.ctx, UpdateWrite(u.id, u.before, u.values, u.credential))
  }

  function StepProgress(task: Task, reply: Reply, p: Progress): Progress {
    if task.Busy? && task.pc.UpdateWrite? && reply != FromDb(DbFailed) then p.(written := true)
    else if task.Busy? && task.pc.UpdateClear? then
      if reply == FromDb(DbFailed) then p.(clearFailed := true) else p.(cleared := true)
    else p
  }

  /** The progress of handler t, read off a run. */
  ghost function ProgressOf(w: World, es: seq<Event>, t: nat): Progress {
    if es == [] then NOTHING
    else
      var before := Run(w, es[..|es| - 1]);
      var e := es[|es| - 1];
      var p := ProgressOf(w, es[..|es| - 1], t);
      if e.Advance? && e.t == t && Enabled(before, t, e.env) then
        StepProgress(before.tasks[t], Perform(before.shared, Issue(before.tasks[t]), before.now, e.env).1, p)
      else p
  }

  function KeyOf(s: Shared, id: int): Option<Option<string>> {
    if id in s.store.sites then Some(s.store.sites[id].fingerprint) else None
  }

  /** No other handler changes the key of this site, or whether it is there, during the run. */
  ghost predicate OthersLeaveKey(w: World, es: seq<Event>, t: nat, id: int) {
    es == [] ||
    var init := es[..|es| - 1];
    && OthersLeaveKey(w, init, t, id)
    && (!(es[|es| - 1].Advance? && es[|es| - 1].t == t) ==>
          KeyOf(Run(w, es).shared, id) == KeyOf(Run(w, init).shared, id))
  }

  /** Past the point where the key could be cleared. */
  predicate PastClear(task: Task, u: Update) {
    || task.Finished?
    || (task.Busy? && (task.pc.UpdateSeal? || task.pc.UpdateStore? || task.pc.UpdateAudit?))
  }

  /** Where the update stands, and what it has done by then. */
  predicate Stage(task: Task, u: Update, p: Progress) {
    var moves := EndpointChanged(u.before, u.values);
    || (task == AboutToWrite(u) && p == NOTHING)
    || (task == Busy(u.ctx, UpdateClear(u.id, u.credential)) && moves && p == Progress(true, false, false))
    || (PastClear(task, u) && p.written && (if moves then p.cleared != p.clearFailed else !p.cleared && !p.clearFailed))
    || (task.Finished? && p == NOTHING)
  }

  lemma StageStep(s: Shared, task: Task, now: nat, env: Env, u: Update, p: Progress)
    requires Stage(task, u, p) && !task.Finished?
    ensures Stage(Alone(s, task, now, env).1, u, StepProgress(task, Perform(s, Issue(task), now, env).1, p))
  {
    if task == AboutToWrite(u) {
      AfterUpdateWrite(s, u.ctx, u.id, u.before, u.values, u.credential, now, env);
    } else if task.pc.UpdateClear? {
      AfterUpdateClear(s, u.ctx, u.id, u.credential, now, env);
    }
  }

  lemma PastClearKeepsKey(s: Shared, task: Task, now: nat, env: Env, u: Update)
    requires PastClear(task, u) && task.Busy?
    ensures Alone(s, task, now, env).0.store.sites == s.store.sites
  {
    var call := Issue(task);
    assert call.Seal? || (call.DbAccess? && (call.db.UpsertSecret? || call.db.InsertAuditEvent?));
  }

  lemma WriteKeepsKey(s: Shared, now: nat, env: Env, u: Update)
    requires u.id in s.store.sites
    ensures KeyOf(Alone(s, AboutToWrite(u), now, env).0, u.id) == KeyOf(s, u.id)
  {
    AfterUpdateWrite(s, u.ctx, u.id, u.before, u.values, u.credential, now, env);
  }

  lemma ClearTakesKey(s: Shared, now: nat, env: Env, u: Update)
    requires u.id in s.store.sites
    ensures KeyOf(Alone(s, Busy(u.ctx, UpdateClear(u.id, u.credential)), now, env).0, u.id) ==
              if env.dbFails then KeyOf(s, u.id) else Some(None)
  {
    AfterUpdateClear(s, u.ctx, u.id, u.credential, now, env);
  }

  /** Of the update's own steps only the clear touches the key. */
  lemma KeyStep(s: Shared, task: Task, now: nat, env: Env, u: Update, p: Progress)
    requires Stage(task, u, p) && !task.Finished? && u.id in s.store.sites
    ensures KeyOf(Alone(s, task, now, env).0, u.id) ==
              if task.pc.UpdateClear? && !env.dbFails then Some(None) else KeyOf(s, u.id)
  {
    if task == AboutToWrite(u) {
      WriteKeepsKey(s, now, env, u);
    } else if task.pc.UpdateClear? {
      ClearTakesKey(s, now, env, u);
    } else {
      PastClearKeepsKey(s, task, now, env, u);
    }
  }

  lemma {:induction false} UpdateRuns(w: World, es: seq<Event>, t: nat, u: Update, key: string)
    requires t in w.tasks && w.tasks[t] == AboutToWrite(u)
    requires KeyOf(w.shared, u.id) == Some(Some(key)) && OthersLeaveKey(w, es, t, u.id)
    ensures var v := Run(w, es);
            var p := ProgressOf(w, es, t);
            && t in v.tasks && Stage(v.tasks[t], u, p)
            && KeyOf(v.shared, u.id) == Some(if p.cleared then None else Some(key))
  {
    if es != [] {
      var init := es[..|es| - 1];
      var e := es[|es| - 1];
      var before := Run(w, init);
      UpdateRuns(w, init, t, u, key);
      if e.Advance? && e.t == t && Enabled(before, t, e.env) {
        OwnStep(before, t, e.env, u, ProgressOf(w, init, t), key);
      } else {
        OtherStep(before, e, t);
      }
    }
  }

  lemma OwnStep(w: World, t: nat, env: Env, u: Update, p: Progress, key: string)
    requires Enabled(w, t, env) && Stage(w.tasks[t], u, p)
    requires KeyOf(w.shared, u.id) == Some(if p.cleared then None else Some(key))
    ensures var v := Step(w, Advance(t, env));
            var q := StepProgress(w.tasks[t], Perform(w.shared, Issue(w.tasks[t]), w.now, env).1, p);
            && t in v.tasks && Stage(v.tasks[t], u, q)
            && KeyOf(v.shared, u.id) == Some(if q.cleared then None else Some(key))
  {
    StageStep(w.shared, w.tasks[t], w.now, env, u, p);
    KeyStep(w.shared, w.tasks[t], w.now, env, u, p);
  }

  lemma OtherStep(w: World, e: Event, t: nat)
    requires t in w.tasks && !(e.Advance? && e.t == t && Enabled(w, t, e.env))
    ensures t in Step(w, e).tasks && Step(w, e).tasks[t] == w.tasks[t]
    ensures e.Advance? && e.t == t ==> Step(w, e) == w
  {
  }

  /** Over every interleaved run in which the others leave the key alone: once an update that was
      written has finished, the site's old key is still trusted exactly when the row the update had
      read already showed the endpoint it wrote, whatever was stored by then, or its clear failed. */
  lemma KeySurvivesExactly(w: World, es: seq<Event>, t: nat, u: Update, key: string)
    requires t in w.tasks && w.tasks[t] == AboutToWrite(u)
    requires KeyOf(w.shared, u.id) == Some(Some(key)) && OthersLeaveKey(w, es, t, u.id)
    requires t in Run(w, es).tasks && Run(w, es).tasks[t].Finished? && ProgressOf(w, es, t).written
    ensures KeyOf(Run(w, es).shared, u.id) == Some(Some(key)) <==>
              !EndpointChanged(u.before, u.values) || ProgressOf(w, es, t).clearFailed
    ensures KeyOf(Run(w, es).shared, u.id) == Some(None) || KeyOf(Run(w, es).shared, u.id) == Some(Some(key))
  {
    UpdateRuns(w, es, t, u, key);
  }

  // ----- exactly when the old key can come back -----

  /** At the last of its steps that could touch the key: the write, if the row it has read already shows
      the endpoint, or else the clear. */
  predicate AtLastKeyStep(task: Task, u: Update) {
    || (task == AboutToWrite(u) && !EndpointChanged(u.before, u.values))
    || task == Busy(u.ctx, UpdateClear(u.id, u.credential))
  }

  /** A handler that neither holds a key nor decides about one. */
  predicate Uninvolved(task: Task) {
    task.Busy? ==> !OfTestOrTrust(task.pc) && !task.pc.TrustTake?
  }

  lemma DecidersSame(w: World, v: World, t: nat, token: string, id: int, key: string)
    requires t in w.tasks && t in v.tasks && Uninvolved(w.tasks[t])
    requires v.tasks == w.tasks[t := v.tasks[t]] && v.now == w.now && v.shared.auth == w.shared.auth
    requires CanDecide(w, token, id, key)
    ensures CanDecide(v, token, id, key)
  {
    if d :| d in w.tasks && Deciding(w.tasks[d], token, id, key) {
      assert Deciding(v.tasks[d], token, id, key);
    }
  }

  lemma HoldersSame(w: World, v: World, t: nat, token: string, id: int, key: string)
    requires t in w.tasks && t in v.tasks && Uninvolved(w.tasks[t])
    requires v.tasks == w.tasks[t := v.tasks[t]] && v.shared.auth == w.shared.auth
    requires Held(w, token, id, key)
    ensures Held(v, token, id, key)
  {
    if h :| h in w.tasks && (Shows(w.tasks[h], token, id, key) || MaySee(w.tasks[h], token, id, key)) {
      assert h != t && v.tasks[h] == w.tasks[h];
    }
  }

  lemma UnderWayStays(w: World, v: World, t: nat, id: int, key: string)
    requires t in w.tasks && t in v.tasks && Uninvolved(w.tasks[t])
    requires v.tasks == w.tasks[t := v.tasks[t]] && v.now == w.now && v.shared.auth == w.shared.auth
    requires UnderWay(w, id, key)
    ensures UnderWay(v, id, key)
  {
    if u :| u in w.tasks && Storing(w.tasks[u], id, key) {
      assert Storing(v.tasks[u], id, key);
    } else {
      var token :| CanDecide(w, token, id, key) && Held(w, token, id, key);
      DecidersSame(w, v, t, token, id, key);
      HoldersSame(w, v, t, token, id, key);
    }
  }

  /** Only this handler and this site's row changed, and who is logged in, waits or asks did not. */
  ghost predicate OnlyMoved(w: World, v: World, t: nat) {
    && t in w.tasks && t in v.tasks && v.tasks == w.tasks[t := v.tasks[t]]
    && v.now == w.now && v.shared.auth == w.shared.auth && v.shared.store.secrets == w.shared.store.secrets
  }

  lemma LastWrite(w: World, t: nat, env: Env, u: Update)
    requires t in w.tasks && w.tasks[t] == AboutToWrite(u) && !EndpointChanged(u.before, u.values)
    requires u.id in w.shared.store.sites
    ensures var v := Step(w, Advance(t, env));
            && OnlyMoved(w, v, t) && Uninvolved(v.tasks[t]) && KeyOf(v.shared, u.id) == KeyOf(w.shared, u.id)
  {
    StepIsAlone(w, t, env);
    AfterUpdateWrite(w.shared, u.ctx, u.id, u.before, u.values, u.credential, w.now, env);
    WriteKeepsKey(w.shared, w.now, env, u);
  }

  lemma LastClear(w: World, t: nat, env: Env, u: Update)
    requires t in w.tasks && w.tasks[t] == Busy(u.ctx, UpdateClear(u.id, u.credential))
    requires u.id in w.shared.store.sites
    ensures var v := Step(w, Advance(t, env));
            && OnlyMoved(w, v, t) && Uninvolved(v.tasks[t])
            && KeyOf(v.shared, u.id) == if env.dbFails then KeyOf(w.shared, u.id) else Some(None)
  {
    StepIsAlone(w, t, env);
    AfterUpdateClear(w.shared, u.ctx, u.id, u.credential, w.now, env);
    ClearTakesKey(w.shared, w.now, env, u);
  }

  lemma LastKeyStep(w: World, t: nat, env: Env, u: Update, key: string)
    requires t in w.tasks && AtLastKeyStep(w.tasks[t], u) && u.id in w.shared.store.sites
    ensures var v := Step(w, Advance(t, env));
            && OnlyMoved(w, v, t) && Uninvolved(v.tasks[t]) && Uninvolved(w.tasks[t])
            && u.id in v.shared.store.sites
            && (Stores(v.shared.store, u.id, key) <==>
                  Stores(w.shared.store, u.id, key) && (w.tasks[t] == AboutToWrite(u) || env.dbFails))
  {
    if w.tasks[t] == AboutToWrite(u) {
      LastWrite(w, t, env, u);
    } else {
      LastClear(w, t, env, u);
    }
    var v := Step(w, Advance(t, env));
    KeyIsStored(w, u.id, key);
    KeyIsStored(v, u.id, key);
  }

  lemma KeyIsStored(w: World, id: int, key: string)
    ensures Stores(w.shared.store, id, key) <==> KeyOf(w.shared, id) == Some(Some(key))
  {
  }

  lemma UnderWaySame(w: World, v: World, t: nat, id: int, key: string)
    requires OnlyMoved(w, v, t) && Uninvolved(w.tasks[t]) && Uninvolved(v.tasks[t])
    ensures UnderWay(w, id, key) <==> UnderWay(v, id, key)
  {
    if UnderWay(w, id, key) {
      UnderWayStays(w, v, t, id, key);
    }
    if UnderWay(v, id, key) {
      assert w.tasks == v.tasks[t := w.tasks[t]];
      UnderWayStays(v, w, t, id, key);
    }
  }

  /** At every moment of the service, whatever the other handlers are doing: after the last step of an
      update that could touch the key, a run can bring a key back unseen exactly for one of three causes.
      The update found the endpoint already in the row it had read, or its clear failed, and the key was
      stored; or the key was under way, about to be stored or held for somebody who can decide. */
  lemma OldKeyReturnsExactly(w: World, t: nat, env: Env, u: Update, hash: Hash)
    requires WorldOk(w) && TokensIssued(w)
    requires u.id in w.shared.store.sites && u.id in w.shared.store.secrets
    requires t in w.tasks && AtLastKeyStep(w.tasks[t], u)
    ensures var key := PrintFingerprint(hash);
            CanReturn(Step(w, Advance(t, env)), u.id, key) <==>
              || (Stores(w.shared.store, u.id, key) && (w.tasks[t] == AboutToWrite(u) || env.dbFails))
              || UnderWay(w, u.id, key)
  {
    var v := Step(w, Advance(t, env));
    var key := PrintFingerprint(hash);
    LastKeyStep(w, t, env, u, key);
    UnderWaySame(w, v, t, u.id, key);
    StepKeeps(w, Advance(t, env));
    IssuedStep(w, Advance(t, env));
    ReturnsExactly(v, u.id, hash);
  }

  // ----- all three causes happen -----

  const CREDENTIAL := Secret(SECRET_KIND, "")

  predicate OnlySite(w: World, row: Site) {
    w.shared.store.sites == map[1 := row] && w.shared.store.secrets == map[1 := CREDENTIAL]
  }

  /** A service with one site and these handlers under way. */
  function Start(row: Site, tasks: map<nat, Task>): World {
    World(Shared(StoreModel(map[], map[], map[1 := row], map[], map[1 := CREDENTIAL], [], [], 0, 1, 0), EMPTY), 0,
          tasks, [], {})
  }

  /** The situation is a well-formed one, for any well-formed row and values. */
  lemma StartIsOk(row: Site, tasks: map<nat, Task>)
    requires SiteOk(row) && forall t :: t in tasks ==> TaskOk(tasks[t])
    ensures WorldOk(Start(row, tasks))
  {
  }

  /** A run with real routers goes on with one step; its record grows. */
  lemma ThenStep(w: World, es: seq<Event>, v: World, t: nat, env: Env) returns (longer: seq<Event>)
    requires Genuine(w, es) && v == Run(w, es) && t in v.tasks && v.tasks[t].Busy?
    requires RouterAnswers(Issue(v.tasks[t]), env)
    ensures Genuine(w, longer)
    ensures var u := Run(w, longer);
            && t in u.tasks && u.tasks == v.tasks[t := u.tasks[t]] && v.log <= u.log
            && (u.shared, u.tasks[t]) == Alone(v.shared, v.tasks[t], v.now, env)
  {
    longer := es + [Advance(t, env)];
    assert longer[..|es|] == es;
    assert !Issue(v.tasks[t]).CreateSession?;
    StepIsAlone(v, t, env);
  }

  lemma Reads(w: World, es: seq<Event>, t: nat, env: Env, ctx: Ctx, row: Site, values: SiteValues)
    returns (longer: seq<Event>)
    requires Genuine(w, es) && OnlySite(Run(w, es), row) && !env.dbFails
    requires t in Run(w, es).tasks && Run(w, es).tasks[t] == Busy(ctx, UpdateRead(1, Ok(values), ""))
    ensures Genuine(w, longer) && OnlySite(Run(w, longer), row)
    ensures Run(w, longer).tasks == Run(w, es).tasks[t := Busy(ctx, UpdateWrite(1, row, values, ""))]
    ensures Run(w, longer).shared.auth == Run(w, es).shared.auth
  {
    var v := Run(w, es);
    NoRouterAsked(v.tasks[t], env);
    longer := ThenStep(w, es, v, t, env);
    AfterUpdateRead(v.shared, ctx, 1, Ok(values), "", v.now, env);
  }

  lemma Writes(w: World, es: seq<Event>, t: nat, env: Env, ctx: Ctx, row: Site, before: Site, values: SiteValues)
    returns (longer: seq<Event>)
    requires Genuine(w, es) && OnlySite(Run(w, es), row) && !env.dbFails
    requires t in Run(w, es).tasks && Run(w, es).tasks[t] == Busy(ctx, UpdateWrite(1, before, values, ""))
    ensures Genuine(w, longer) && OnlySite(Run(w, longer), EditedSite(row, values))
    ensures var next := if EndpointChanged(before, values) then UpdateClear(1, "") else UpdateAudit(1);
            Run(w, longer).tasks == Run(w, es).tasks[t := Busy(ctx, next)]
    ensures Run(w, longer).shared.auth == Run(w, es).shared.auth && Run(w, es).log <= Run(w, longer).log
  {
    var v := Run(w, es);
    NoRouterAsked(v.tasks[t], env);
    longer := ThenStep(w, es, v, t, env);
    AfterUpdateWrite(v.shared, ctx, 1, before, values, "", v.now, env);
  }

  lemma Clears(w: World, es: seq<Event>, t: nat, env: Env, ctx: Ctx, row: Site) returns (longer: seq<Event>)
    requires Genuine(w, es) && OnlySite(Run(w, es), row)
    requires t in Run(w, es).tasks && Run(w, es).tasks[t] == Busy(ctx, UpdateClear(1, ""))
    ensures Genuine(w, longer) && OnlySite(Run(w, longer), if env.dbFails then row else row.(fingerprint := None))
    ensures Run(w, longer).tasks == Run(w, es).tasks[t := Busy(ctx, UpdateAudit(1))]
    ensures Run(w, longer).shared.auth == Run(w, es).shared.auth
  {
    var v := Run(w, es);
    NoRouterAsked(v.tasks[t], env);
    longer := ThenStep(w, es, v, t, env);
    AfterUpdateClear(v.shared, ctx, 1, "", v.now, env);
  }

  lemma StoresKey(w: World, es: seq<Event>, t: nat, env: Env, ctx: Ctx, row: Site, key: string)
    returns (longer: seq<Event>)
    requires Genuine(w, es) && OnlySite(Run(w, es), row) && !env.dbFails
    requires t in Run(w, es).tasks && Run(w, es).tasks[t] == Busy(ctx, TrustWrite(1, key))
    ensures Genuine(w, longer) && OnlySite(Run(w, longer), row.(fingerprint := Some(key)))
    ensures Run(w, longer).tasks == Run(w, es).tasks[t := Busy(ctx, TrustAudit(1))]
    ensures Run(w, es).log <= Run(w, longer).log
  {
    var v := Run(w, es);
    NoRouterAsked(v.tasks[t], env);
    longer := ThenStep(w, es, v, t, env);
    AfterTrustWrite(v.shared, ctx, 1, key, v.now, env);
  }

  lemma AfterUpdateAudit(s: Shared, ctx: Ctx, id: int, now: nat, env: Env)
    ensures var (shared, task) := Alone(s, Busy(ctx, UpdateAudit(id)), now, env);
            && task == Finished(Completed)
            && shared.store.sites == s.store.sites && shared.store.secrets == s.store.secrets
  {
  }

  lemma Audits(w: World, es: seq<Event>, t: nat, env: Env, ctx: Ctx, row: Site) returns (longer: seq<Event>)
    requires Genuine(w, es) && OnlySite(Run(w, es), row)
    requires t in Run(w, es).tasks && Run(w, es).tasks[t] == Busy(ctx, UpdateAudit(1))
    ensures Genuine(w, longer) && OnlySite(Run(w, longer), row)
    ensures Run(w, longer).tasks == Run(w, es).tasks[t := Finished(Completed)]
    ensures Run(w, es).log <= Run(w, longer).log
  {
    var v := Run(w, es);
    NoRouterAsked(v.tasks[t], env);
    longer := ThenStep(w, es, v, t, env);
    AfterUpdateAudit(v.shared, ctx, 1, v.now, env);
  }

  function Updating(ctx: Ctx, values: SiteValues): Task {
    Busy(ctx, UpdateRead(1, Ok(values), ""))
  }

  /** Update 1 completed, and the site has this row. */
  predicate Updated(v: World, row: Site) {
    1 in v.tasks && v.tasks[1] == Finished(Completed) && OnlySite(v, row)
  }

  /** One cause: the clear fails, which is not looked at. The update completes, the endpoint is the new
      one and the key the old one. */
  lemma FailedClearKeepsKey(row: Site, ctx: Ctx, values: SiteValues, good: Env, bad: Env)
    requires EndpointChanged(row, values) && !good.dbFails && bad.dbFails
    ensures var w := Start(row, map[1 := Updating(ctx, values)]);
            exists es :: Genuine(w, es) && Updated(Run(w, es), EditedSite(row, values).(fingerprint := row.fingerprint))
  {
    var w := Start(row, map[1 := Updating(ctx, values)]);
    var moved := EditedSite(row, values);
    var es := Reads(w, [], 1, good, ctx, row, values);
    es := Writes(w, es, 1, good, ctx, row, row, values);
    es := Clears(w, es, 1, bad, ctx, moved);
    es := Audits(w, es, 1, good, ctx, moved);
    assert moved == moved.(fingerprint := row.fingerprint);
  }

  /** Another cause, with no failure and no stale read: a trust has taken the waiting key before the
      update clears, and stores it afterwards. */
  lemma TrustUnderWayRestoresKey(row: Site, ctx: Ctx, values: SiteValues, key: string, good: Env)
    requires EndpointChanged(row, values) && !good.dbFails
    ensures var w := Start(row, map[1 := Updating(ctx, values), 3 := Busy(ctx, TrustWrite(1, key))]);
            exists es :: Genuine(w, es) && Updated(Run(w, es), EditedSite(row, values).(fingerprint := Some(key)))
  {
    var w := Start(row, map[1 := Updating(ctx, values), 3 := Busy(ctx, TrustWrite(1, key))]);
    var moved := EditedSite(row, values);
    var es := Reads(w, [], 1, good, ctx, row, values);
    es := Writes(w, es, 1, good, ctx, row, row, values);
    es := Clears(w, es, 1, good, ctx, moved);
    es := StoresKey(w, es, 3, good, ctx, moved.(fingerprint := None), key);
    es := Audits(w, es, 1, good, ctx, moved.(fingerprint := Some(key)));
  }

  // ----- the stale read -----

  /** A test saw this key at this row's endpoint. */
  ghost predicate SeenAt(log: seq<Entry>, site: Site, key: string) {
    exists k :: 0 <= k < |log| && log[k].call.Test? && log[k].call.site == site && log[k].reply == Tested(Ok(key))
  }

  lemma SeenAtStays(log: seq<Entry>, longer: seq<Entry>, site: Site, key: string)
    requires SeenAt(log, site, key) && log <= longer
    ensures SeenAt(longer, site, key)
  {
    var k :| 0 <= k < |log| && log[k].call.Test? && log[k].call.site == site && log[k].reply == Tested(Ok(key));
    assert longer[k] == log[k];
  }

  /** A whole test of the moved row, from reading it to leaving the key it saw waiting. */
  lemma Tests(w: World, es: seq<Event>, ctx: Ctx, row: Site, hash: Hash) returns (longer: seq<Event>)
    requires Genuine(w, es) && OnlySite(Run(w, es), row) && SiteOk(row) && row.fingerprint.None?
    requires 3 in Run(w, es).tasks && Run(w, es).tasks[3] == Busy(ctx, TestRead(1))
    ensures Genuine(w, longer) && OnlySite(Run(w, longer), row)
    ensures Run(w, longer).tasks == Run(w, es).tasks[3 := Finished(Completed)]
    ensures Waits(Run(w, longer).shared.auth.pending, ctx.token, 1, PrintFingerprint(hash))
    ensures SeenAt(Run(w, longer).log, row, PrintFingerprint(hash))
  {
    var good := Good(hash);
    longer := TestReads(w, es, good, ctx, row);
    longer := TestOpens(w, longer, good, ctx, row);
    longer := TestDials(w, longer, ctx, row, hash);
    longer := TestLeaves(w, longer, good, ctx, row, PrintFingerprint(hash));
  }

  lemma TestReads(w: World, es: seq<Event>, env: Env, ctx: Ctx, row: Site) returns (longer: seq<Event>)
    requires Genuine(w, es) && OnlySite(Run(w, es), row) && !env.dbFails
    requires 3 in Run(w, es).tasks && Run(w, es).tasks[3] == Busy(ctx, TestRead(1))
    ensures Genuine(w, longer) && OnlySite(Run(w, longer), row)
    ensures Run(w, longer).tasks == Run(w, es).tasks[3 := Busy(ctx, TestCredential(1, row))]
  {
    var v := Run(w, es);
    NoRouterAsked(v.tasks[3], env);
    longer := ThenStep(w, es, v, 3, env);
    AfterTestRead(v.shared, ctx, 1, v.now, env);
  }

  lemma TestOpens(w: World, es: seq<Event>, env: Env, ctx: Ctx, row: Site) returns (longer: seq<Event>)
    requires Genuine(w, es) && OnlySite(Run(w, es), row) && !env.dbFails && !env.openFails
    requires 3 in Run(w, es).tasks && Run(w, es).tasks[3] == Busy(ctx, TestCredential(1, row))
    ensures Genuine(w, longer) && OnlySite(Run(w, longer), row)
    ensures Run(w, longer).tasks == Run(w, es).tasks[3 := Busy(ctx, TestDial(1, row, ""))]
  {
    var v := Run(w, es);
    NoRouterAsked(v.tasks[3], env);
    longer := ThenStep(w, es, v, 3, env);
    AfterTestCredential(v.shared, ctx, 1, row, v.now, env);
  }

  lemma TestDials(w: World, es: seq<Event>, ctx: Ctx, row: Site, hash: Hash) returns (longer: seq<Event>)
    requires Genuine(w, es) && OnlySite(Run(w, es), row) && SiteOk(row) && row.fingerprint.None?
    requires 3 in Run(w, es).tasks && Run(w, es).tasks[3] == Busy(ctx, TestDial(1, row, ""))
    ensures Genuine(w, longer) && OnlySite(Run(w, longer), row)
    ensures Run(w, longer).tasks == Run(w, es).tasks[3 := Busy(ctx, TestPending(1, PrintFingerprint(hash)))]
    ensures SeenAt(Run(w, longer).log, row, PrintFingerprint(hash))
  {
    var v := Run(w, es);
    DialAnswers(v.tasks[3], 1, ctx.token, hash);
    longer := es + [Advance(3, Good(hash))];
    assert longer[..|es|] == es;
    DialSees(v, ctx, row, hash);
  }

  lemma DialSees(v: World, ctx: Ctx, row: Site, hash: Hash)
    requires 3 in v.tasks && v.tasks[3] == Busy(ctx, TestDial(1, row, "")) && row.fingerprint.None?
    ensures var u := Step(v, Advance(3, Good(hash)));
            && u.shared == v.shared && SeenAt(u.log, row, PrintFingerprint(hash))
            && u.tasks == v.tasks[3 := Busy(ctx, TestPending(1, PrintFingerprint(hash)))]
  {
    var u := Step(v, Advance(3, Good(hash)));
    SeesIt(v, 3, Good(hash), ctx.token, 1, PrintFingerprint(hash));
    RecordsDial(v, ctx, row, hash);
    assert u == StepTask(v, 3, Good(hash));
  }

  lemma RecordsDial(v: World, ctx: Ctx, row: Site, hash: Hash)
    requires 3 in v.tasks && v.tasks[3] == Busy(ctx, TestDial(1, row, ""))
    ensures var u := Step(v, Advance(3, Good(hash)));
            SeenAt(u.log, row, PrintFingerprint(hash)) && u.tasks[3].Busy? && u.tasks[3].ctx == ctx
  {
    var u := Step(v, Advance(3, Good(hash)));
    assert u.log[|v.log|].call == Test(1, row, "");
  }

  lemma AfterTestPending(s: Shared, ctx: Ctx, id: int, key: string, now: nat, env: Env)
    ensures Alone(s, Busy(ctx, TestPending(id, key)), now, env) ==
              (s.(auth := s.auth.(pending := s.auth.pending[(ctx.token, id) := key])), Finished(Completed))
  {
  }

  lemma TestLeaves(w: World, es: seq<Event>, env: Env, ctx: Ctx, row: Site, key: string) returns (longer: seq<Event>)
    requires Genuine(w, es) && OnlySite(Run(w, es), row) && SeenAt(Run(w, es).log, row, key)
    requires 3 in Run(w, es).tasks && Run(w, es).tasks[3] == Busy(ctx, TestPending(1, key))
    ensures Genuine(w, longer) && OnlySite(Run(w, longer), row) && SeenAt(Run(w, longer).log, row, key)
    ensures Run(w, longer).tasks == Run(w, es).tasks[3 := Finished(Completed)]
    ensures Waits(Run(w, longer).shared.auth.pending, ctx.token, 1, key)
  {
    var v := Run(w, es);
    NoRouterAsked(v.tasks[3], env);
    longer := ThenStep(w, es, v, 3, env);
    AfterTestPending(v.shared, ctx, 1, key, v.now, env);
    SeenAtStays(v.log, Run(w, longer).log, row, key);
  }

  lemma Takes(w: World, es: seq<Event>, env: Env, ctx: Ctx, row: Site, key: string) returns (longer: seq<Event>)
    requires Genuine(w, es) && OnlySite(Run(w, es), row) && Waits(Run(w, es).shared.auth.pending, ctx.token, 1, key)
    requires 4 in Run(w, es).tasks && Run(w, es).tasks[4] == Busy(ctx, TrustTake(1, key))
    ensures Genuine(w, longer) && OnlySite(Run(w, longer), row) && Run(w, es).log <= Run(w, longer).log
    ensures Run(w, longer).tasks == Run(w, es).tasks[4 := Busy(ctx, TrustWrite(1, key))]
  {
    var v := Run(w, es);
    NoRouterAsked(v.tasks[4], env);
    longer := ThenStep(w, es, v, 4, env);
    AfterTake(v.shared, ctx, 1, key, v.now, env);
  }

  function FourHandlers(row: Site, ctx: Ctx, there: SiteValues, back: SiteValues, key: string): World {
    Start(row, map[1 := Updating(ctx, there), 2 := Updating(ctx, back),
                   3 := Busy(ctx, TestRead(1)), 4 := Busy(ctx, TrustTake(1, key))])
  }

  /** The states the three runs start from are well formed, for every well-formed row and values. */
  lemma StartsAreOk(row: Site, ctx: Ctx, there: SiteValues, back: SiteValues, key: string)
    requires SiteOk(row) && SiteValuesOk(there) && SiteValuesOk(back)
    ensures WorldOk(Start(row, map[1 := Updating(ctx, there)]))
    ensures WorldOk(Start(row, map[1 := Updating(ctx, there), 3 := Busy(ctx, TrustWrite(1, key))]))
    ensures WorldOk(FourHandlers(row, ctx, there, back, key))
  {
    StartIsOk(row, map[1 := Updating(ctx, there)]);
    StartIsOk(row, map[1 := Updating(ctx, there), 3 := Busy(ctx, TrustWrite(1, key))]);
    StartIsOk(row, FourHandlers(row, ctx, there, back, key).tasks);
  }

  /** The third cause, with no failure at all: a stale read. Updates 1 and 2 read the row; 1 moves the
      site and clears the key; a test sees the key at the new endpoint, and it is trusted; 2 moves the
      site back. Its write does change the stored endpoint, but not from the row it had read, so it
      completes and leaves the key in place. */
  lemma StaleReadKeepsKey(row: Site, ctx: Ctx, there: SiteValues, back: SiteValues, hash: Hash)
    requires EndpointChanged(row, there) && !EndpointChanged(row, back) && SiteOk(EditedSite(row, there))
    ensures var key := PrintFingerprint(hash);
            var w := FourHandlers(row, ctx, there, back, key);
            var moved := EditedSite(row, there).(fingerprint := None);
            && EndpointChanged(moved, back)
            && exists es :: && Genuine(w, es) && SeenAt(Run(w, es).log, moved, key)
                            && 2 in Run(w, es).tasks && Run(w, es).tasks[2] == Finished(Completed)
                            && OnlySite(Run(w, es), EditedSite(moved, back).(fingerprint := Some(key)))
  {
    var key := PrintFingerprint(hash);
    var w := FourHandlers(row, ctx, there, back, key);
    var moved := EditedSite(row, there).(fingerprint := None);
    var es := MovesAndClears(w, row, ctx, there, back, hash);
    es := TestedAndTrusted(w, es, ctx, moved, row, back, hash);
    var trusted := moved.(fingerprint := Some(key));
    var log := Run(w, es).log;
    es := Writes(w, es, 2, Good(hash), ctx, trusted, row, back);
    es := Audits(w, es, 2, Good(hash), ctx, EditedSite(trusted, back));
    SeenAtStays(log, Run(w, es).log, moved, key);
    assert EditedSite(trusted, back) == EditedSite(moved, back).(fingerprint := Some(key));
  }

  lemma MovesAndClears(w: World, row: Site, ctx: Ctx, there: SiteValues, back: SiteValues, hash: Hash)
    returns (es: seq<Event>)
    requires w == FourHandlers(row, ctx, there, back, PrintFingerprint(hash)) && EndpointChanged(row, there)
    ensures Genuine(w, es) && OnlySite(Run(w, es), EditedSite(row, there).(fingerprint := None))
    ensures {2, 3, 4} <= Run(w, es).tasks.Keys
    ensures Run(w, es).tasks[2] == Busy(ctx, UpdateWrite(1, row, back, ""))
    ensures Run(w, es).tasks[3] == Busy(ctx, TestRead(1))
    ensures Run(w, es).tasks[4] == Busy(ctx, TrustTake(1, PrintFingerprint(hash)))
  {
    var good := Good(hash);
    es := Reads(w, [], 1, good, ctx, row, there);
    es := Reads(w, es, 2, good, ctx, row, back);
    es := Writes(w, es, 1, good, ctx, row, row, there);
    es := Clears(w, es, 1, good, ctx, EditedSite(row, there));
  }

  lemma TestedAndTrusted(w: World, es: seq<Event>, ctx: Ctx, moved: Site, row: Site, back: SiteValues, hash: Hash)
    returns (longer: seq<Event>)
    requires Genuine(w, es) && OnlySite(Run(w, es), moved) && SiteOk(moved) && moved.fingerprint.None?
    requires {2, 3, 4} <= Run(w, es).tasks.Keys
    requires Run(w, es).tasks[2] == Busy(ctx, UpdateWrite(1, row, back, ""))
    requires Run(w, es).tasks[3] == Busy(ctx, TestRead(1))
    requires Run(w, es).tasks[4] == Busy(ctx, TrustTake(1, PrintFingerprint(hash)))
    ensures Genuine(w, longer) && OnlySite(Run(w, longer), moved.(fingerprint := Some(PrintFingerprint(hash))))
    ensures SeenAt(Run(w, longer).log, moved, PrintFingerprint(hash))
    ensures 2 in Run(w, longer).tasks && Run(w, longer).tasks[2] == Busy(ctx, UpdateWrite(1, row, back, ""))
  {
    var key := PrintFingerprint(hash);
    longer := Tests(w, es, ctx, moved, hash);
    var log := Run(w, longer).log;
    longer := Takes(w, longer, Good(hash), ctx, moved, key);
    longer := StoresKey(w, longer, 4, Good(hash), ctx, moved, key);
    SeenAtStays(log, Run(w, longer).log, moved, key);
  }
}
