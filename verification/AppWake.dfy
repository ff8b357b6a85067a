/** Waking a device, from the device page or through the API. */
module AppWake {
  import opened Results
  import opened Records
  import opened Store
  import opened Handlers
  import opened App

  lemma AfterReadDevice(s: Shared, ctx: Ctx, id: int, api: bool, now: nat, env: Env)
    ensures var row := Execute(s.store, DbCall.GetDevice(id), env.dbFails).1;
            && (row == DbFailed || row.DeviceRow?)
            && Alone(s, Busy(ctx, WakeReadDevice(id, api)), now, env) == (s, AfterDeviceRow(ctx, id, api, row))
  {
  }

  function AfterDeviceRow(ctx: Ctx, id: int, api: bool, row: DbReply): Task
    requires row == DbFailed || row.DeviceRow?
  {
    if row == DbFailed then Finished(ServerError)
    else if row.device.None? then Finished(NotFound)
    else if !api && !row.device.value.enabled then Finished(Rejected)
    else Busy(ctx, WakeReadSite(id, row.device.value, api))
  }

  lemma AfterReadSite(s: Shared, ctx: Ctx, id: int, row: Device, api: bool, now: nat, env: Env)
    ensures var found := Execute(s.store, DbCall.GetSite(row.siteId), env.dbFails).1;
            Alone(s, Busy(ctx, WakeReadSite(id, row, api)), now, env) ==
              (s, if found == DbFailed then Finished(ServerError)
                  else if found.site.None? then Finished(NotFound)
                  else if !api && !found.site.value.enabled then Finished(Rejected)
                  else if api && (!row.enabled || !found.site.value.enabled) then Finished(PreconditionFailed)
                  else Busy(ctx, WakeCredential(id, row, found.site.value, api)))
  {
  }

  lemma AfterCredential(s: Shared, ctx: Ctx, id: int, row: Device, site: Site, api: bool, now: nat, env: Env)
    ensures Alone(s, Busy(ctx, WakeCredential(id, row, site, api)), now, env) ==
              (s, if CredentialOpens(s.store.secrets, row.siteId, env) then
                    Busy(ctx, WakeSend(id, row, site, s.store.secrets[row.siteId].plaintext))
                  else if api then Finished(PreconditionFailed)
                  else Busy(ctx, WakeRefused(id, row.siteId)))
  {
  }

  lemma AfterSend(s: Shared, ctx: Ctx, id: int, row: Device, site: Site, credential: string, now: nat, env: Env)
    ensures Alone(s, Busy(ctx, WakeSend(id, row, site, credential)), now, env) ==
              (s, Busy(ctx, WakeRecord(id, row.siteId, Outcome(env))))
  {
  }

  lemma AfterRefused(s: Shared, ctx: Ctx, id: int, siteId: int, now: nat, env: Env)
    ensures var event := WakeEvent(Some(ctx.session.userId), id, siteId, Failed);
            Alone(s, Busy(ctx, WakeRefused(id, siteId)), now, env) ==
              (s.(store := Execute(s.store, InsertWakeEvent(event), env.dbFails).0), Finished(Rejected))
  {
  }

  lemma AfterRecord(s: Shared, ctx: Ctx, id: int, siteId: int, status: WakeStatus, now: nat, env: Env)
    ensures var event := WakeEvent(Some(ctx.session.userId), id, siteId, status);
            Alone(s, Busy(ctx, WakeRecord(id, siteId, status)), now, env) ==
              (s.(store := Execute(s.store, InsertWakeEvent(event), env.dbFails).0), Busy(ctx, WakeAudit(id, status)))
  {
  }

  function Outcome(env: Env): WakeStatus {
    if env.woken.Ok? then Success else Failed
  }

  predicate SiteReady(sites: map<int, Site>, row: Device, env: Env) {
    !env.dbFails && row.enabled && row.siteId in sites && sites[row.siteId].enabled
  }

  /** The device and its site are there, both enabled, and can be read. */
  predicate Wakeable(s: StoreModel, id: int, envs: seq<Env>)
    requires |envs| == 7
  {
    !envs[1].dbFails && id in s.devices && SiteReady(s.sites, s.devices[id], envs[2])
  }

  /** The history after this event was handed to the database, which may refuse it. */
  function History(s: StoreModel, event: WakeEvent, fails: bool): seq<WakeEvent> {
    if fails || !UserRefOk(s.users, event.userId) then s.wakeEvents else s.wakeEvents + [event]
  }

  /** Only history and audit may differ, and the history has what became of this event. */
  predicate Recorded(before: StoreModel, after: StoreModel, event: WakeEvent, fails: bool) {
    SameTables(before, after) && after.wakeEvents == History(before, event, fails)
  }

  predicate NothingRecorded(before: StoreModel, after: StoreModel) {
    SameTables(before, after) && after.wakeEvents == before.wakeEvents
  }

  /** From the device and site found enabled on: a wake is carried through exactly when the credential
      opens, and its outcome is recorded. Otherwise the page records a refusal, and the API nothing. */
  predicate WakeDone(
    before: StoreModel, after: StoreModel, ctx: Ctx, id: int, siteId: int, api: bool, envs: seq<Env>, r: Response)
    requires |envs| == 7
  {
    var opens := CredentialOpens(before.secrets, siteId, envs[3]);
    && (r.Completed? <==> opens)
    && if opens then
         Recorded(before, after, WakeEvent(Some(ctx.session.userId), id, siteId, Outcome(envs[4])), envs[5].dbFails)
       else if api then NothingRecorded(before, after)
       else Recorded(before, after, WakeEvent(Some(ctx.session.userId), id, siteId, Failed), envs[4].dbFails)
  }

  /** What a wake request that is let in comes to. */
  predicate DeviceWoken(
    before: StoreModel, after: StoreModel, ctx: Ctx, id: int, api: bool, envs: seq<Env>, r: Response)
    requires |envs| == 7
  {
    if Wakeable(before, id, envs) then WakeDone(before, after, ctx, id, before.devices[id].siteId, api, envs, r)
    else !r.Completed? && NothingRecorded(before, after)
  }

  lemma AdmitsWake(token: string, csrf: Option<string>, id: int, api: bool)
    ensures Admit(WithSession(token, csrf, WakeDevice(id, api))) == Guard(token, csrf, WakeJob(id, api))
  {
  }

  /** The handler for page and API, run alone. A request that is let in and finds device and site enabled
      comes to `WakeDone`; any other completes nothing and records nothing. */
  method WakeHandler(
    app: Server, token: string, csrf: Option<string>, id: int, api: bool, now: nat, envs: seq<Env>)
    returns (r: Response)
    requires |envs| == 7
    modifies app.db, app.auth
    ensures EndsAs(old(app.Snapshot()), Admit(WithSession(token, csrf, WakeDevice(id, api))), now, envs, 0,
                   app.Snapshot(), r)
    ensures if MayEnter(old(app.auth.sessions), token, csrf, WakeJob(id, api), now)
            then DeviceWoken(old(app.db.Model()), app.db.Model(), Ctx(token, old(app.auth.sessions)[token]), id, api,
                             envs, r)
            else !r.Completed? && NothingRecorded(old(app.db.Model()), app.db.Model())
  {
    AdmitsWake(token, csrf, id, api);
    var admitted := app.Admitted(token, csrf, WakeJob(id, api), now, envs[0]);
    if admitted.Err? {
      r := admitted.error;
      Ended(app.Snapshot(), r, now, envs, 1);
    } else {
      r := FindDevice(app, admitted.value, id, api, now, envs);
    }
    StepThen(old(app.Snapshot()), Guard(token, csrf, WakeJob(id, api)), now, envs, 0, app.Snapshot(), r);
  }

  method FindDevice(app: Server, ctx: Ctx, id: int, api: bool, now: nat, envs: seq<Env>) returns (r: Response)
    requires |envs| == 7
    modifies app.db
    ensures EndsAs(old(app.Snapshot()), Busy(ctx, WakeReadDevice(id, api)), now, envs, 1, app.Snapshot(), r)
    ensures DeviceWoken(old(app.db.Model()), app.db.Model(), ctx, id, api, envs, r)
  {
    AfterReadDevice(app.Snapshot(), ctx, id, api, now, envs[1]);
    var found := app.db.GetDevice(id, envs[1].dbFails);
    if found == DbFailed {
      r := ServerError;
      Ended(app.Snapshot(), r, now, envs, 2);
    } else if found.device.None? {
      r := NotFound;
      Ended(app.Snapshot(), r, now, envs, 2);
    } else if !api && !found.device.value.enabled {
      r := Rejected;
      Ended(app.Snapshot(), r, now, envs, 2);
    } else {
      r := FindSite(app, ctx, id, found.device.value, api, now, envs);
    }
    StepInto(old(app.Snapshot()), Busy(ctx, WakeReadDevice(id, api)), now, envs, 1, old(app.Snapshot()),
             AfterDeviceRow(ctx, id, api, found), app.Snapshot(), r);
  }

  /** The API looks at both switches only here, the page at the device's switch before. */
  method FindSite(app: Server, ctx: Ctx, id: int, row: Device, api: bool, now: nat, envs: seq<Env>)
    returns (r: Response)
    requires |envs| == 7 && (!api ==> row.enabled) && row.siteId in app.db.sites
    modifies app.db
    ensures EndsAs(old(app.Snapshot()), Busy(ctx, WakeReadSite(id, row, api)), now, envs, 2, app.Snapshot(), r)
    ensures if SiteReady(old(app.db.sites), row, envs[2])
            then WakeDone(old(app.db.Model()), app.db.Model(), ctx, id, row.siteId, api, envs, r)
            else !r.Completed? && NothingRecorded(old(app.db.Model()), app.db.Model())
  {
    AfterReadSite(app.Snapshot(), ctx, id, row, api, now, envs[2]);
    var found := app.db.GetSite(row.siteId, envs[2].dbFails);
    if found == DbFailed {
      r := ServerError;
      Ended(app.Snapshot(), r, now, envs, 3);
    } else if !api && !found.site.value.enabled {
      r := Rejected;
      Ended(app.Snapshot(), r, now, envs, 3);
    } else if api && (!row.enabled || !found.site.value.enabled) {
      r := PreconditionFailed;
      Ended(app.Snapshot(), r, now, envs, 3);
    } else {
      r := OpenAndWake(app, ctx, id, row, found.site.value, api, now, envs);
    }
    StepThen(old(app.Snapshot()), Busy(ctx, WakeReadSite(id, row, api)), now, envs, 2, app.Snapshot(), r);
  }

  method OpenAndWake(app: Server, ctx: Ctx, id: int, row: Device, site: Site, api: bool, now: nat, envs: seq<Env>)
    returns (r: Response)
    requires |envs| == 7
    modifies app.db
    ensures EndsAs(old(app.Snapshot()), Busy(ctx, WakeCredential(id, row, site, api)), now, envs, 3, app.Snapshot(), r)
    ensures WakeDone(old(app.db.Model()), app.db.Model(), ctx, id, row.siteId, api, envs, r)
  {
    AfterCredential(app.Snapshot(), ctx, id, row, site, api, now, envs[3]);
    var credential := app.SiteCredential(row.siteId, envs[3]);
    if credential.Some? {
      r := SendAndRecord(app, ctx, id, row, site, credential.value, now, envs);
    } else if api {
      r := PreconditionFailed;
      Ended(app.Snapshot(), r, now, envs, 4);
    } else {
      r := RecordRefusal(app, ctx, id, row.siteId, now, envs);
    }
    StepThen(old(app.Snapshot()), Busy(ctx, WakeCredential(id, row, site, api)), now, envs, 3, app.Snapshot(), r);
  }

  method RecordRefusal(app: Server, ctx: Ctx, id: int, siteId: int, now: nat, envs: seq<Env>) returns (r: Response)
    requires |envs| == 7
    modifies app.db
    ensures EndsAs(old(app.Snapshot()), Busy(ctx, WakeRefused(id, siteId)), now, envs, 4, app.Snapshot(), r)
    ensures r == Rejected
    ensures Recorded(old(app.db.Model()), app.db.Model(), WakeEvent(Some(ctx.session.userId), id, siteId, Failed),
                     envs[4].dbFails)
  {
    AfterRefused(app.Snapshot(), ctx, id, siteId, now, envs[4]);
    InsertEvent(app, WakeEvent(Some(ctx.session.userId), id, siteId, Failed), envs[4]);
    r := Rejected;
    Ended(app.Snapshot(), r, now, envs, 5);
    StepThen(old(app.Snapshot()), Busy(ctx, WakeRefused(id, siteId)), now, envs, 4, app.Snapshot(), r);
  }

  /** One insert into the history; its failure is not looked at. */
  method InsertEvent(app: Server, event: WakeEvent, env: Env)
    modifies app.db
    ensures app.db.Model() == Execute(old(app.db.Model()), InsertWakeEvent(event), env.dbFails).0
    ensures Recorded(old(app.db.Model()), app.db.Model(), event, env.dbFails)
  {
    var _ := app.db.InsertWakeEvent(event, env.dbFails);
  }

  /** The connection itself is the environment's; its outcome arrives as `woken`. */
  method SendAndRecord(
    app: Server, ctx: Ctx, id: int, row: Device, site: Site, credential: string, now: nat, envs: seq<Env>)
    returns (r: Response)
    requires |envs| == 7
    modifies app.db
    ensures EndsAs(old(app.Snapshot()), Busy(ctx, WakeSend(id, row, site, credential)), now, envs, 4,
                   app.Snapshot(), r)
    ensures r.Completed?
    ensures Recorded(old(app.db.Model()), app.db.Model(),
                     WakeEvent(Some(ctx.session.userId), id, row.siteId, Outcome(envs[4])), envs[5].dbFails)
  {
    AfterSend(app.Snapshot(), ctx, id, row, site, credential, now, envs[4]);
    var status := Outcome(envs[4]);
    r := RecordWake(app, ctx, id, row.siteId, status, now, envs);
    StepThen(old(app.Snapshot()), Busy(ctx, WakeSend(id, row, site, credential)), now, envs, 4, app.Snapshot(), r);
  }

  method RecordWake(app: Server, ctx: Ctx, id: int, siteId: int, status: WakeStatus, now: nat, envs: seq<Env>)
    returns (r: Response)
    requires |envs| == 7
    modifies app.db
    ensures EndsAs(old(app.Snapshot()), Busy(ctx, WakeRecord(id, siteId, status)), now, envs, 5, app.Snapshot(), r)
    ensures r.Completed?
    ensures Recorded(old(app.db.Model()), app.db.Model(), WakeEvent(Some(ctx.session.userId), id, siteId, status),
                     envs[5].dbFails)
  {
    AfterRecord(app.Snapshot(), ctx, id, siteId, status, now, envs[5]);
    InsertEvent(app, WakeEvent(Some(ctx.session.userId), id, siteId, status), envs[5]);
    r := AuditWake(app, ctx, id, status, now, envs);
    StepThen(old(app.Snapshot()), Busy(ctx, WakeRecord(id, siteId, status)), now, envs, 5, app.Snapshot(), r);
  }

  method AuditWake(app: Server, ctx: Ctx, id: int, status: WakeStatus, now: nat, envs: seq<Env>) returns (r: Response)
    requires |envs| == 7
    modifies app.db
    ensures EndsAs(old(app.Snapshot()), Busy(ctx, WakeAudit(id, status)), now, envs, 6, app.Snapshot(), r)
    ensures r.Completed?
    ensures NothingRecorded(old(app.db.Model()), app.db.Model())
  {
    var action := if status.Success? then DeviceWake else DeviceWakeFailed;
    app.RecordAudit(ctx, WakeAudit(id, status), action, Some(id), now, envs, 6);
    r := Completed;
  }
}
