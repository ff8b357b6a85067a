/** The device handlers. */
module AppDevices {
  import opened Results
  import opened Records
  import opened Forms
  import opened Store
  import opened Handlers
  import opened App

  lemma AfterCreateSite(s: Shared, ctx: Ctx, device: DeviceValues, now: nat, env: Env)
    ensures Alone(s, Busy(ctx, DeviceCreateSite(device)), now, env) ==
              (s, if !env.dbFails && device.siteId in s.store.sites then Busy(ctx, DeviceCreateInsert(device))
                  else Finished(Rejected))
  {
  }

  function AfterInsertDevice(ctx: Ctx, row: DbReply): Task {
    if row.NewId? then Busy(ctx, DeviceCreateAudit(row.id)) else Finished(Rejected)
  }

  lemma AfterCreateInsert(s: Shared, ctx: Ctx, device: DeviceValues, now: nat, env: Env)
    ensures var (store, row) := Execute(s.store, InsertDevice(device), env.dbFails);
            Alone(s, Busy(ctx, DeviceCreateInsert(device)), now, env) ==
              (s.(store := store), AfterInsertDevice(ctx, row))
  {
  }

  lemma AfterUpdateSite(s: Shared, ctx: Ctx, id: int, device: DeviceValues, now: nat, env: Env)
    ensures Alone(s, Busy(ctx, DeviceUpdateSite(id, device)), now, env) ==
              (s, if !env.dbFails && device.siteId in s.store.sites then Busy(ctx, DeviceUpdateWrite(id, device))
                  else Finished(Rejected))
  {
  }

  lemma AfterDeviceWrite(s: Shared, ctx: Ctx, id: int, device: DeviceValues, now: nat, env: Env)
    ensures var (store, row) := Execute(s.store, DbCall.UpdateDevice(id, device), env.dbFails);
            Alone(s, Busy(ctx, DeviceUpdateWrite(id, device)), now, env) ==
              (s.(store := store),
               AfterChange(ctx, DeviceUpdateAudit(id), row, Rejected))
  {
  }

  lemma AfterDeviceDelete(s: Shared, ctx: Ctx, id: int, now: nat, env: Env)
    ensures var (store, row) := Execute(s.store, DbCall.DeleteDevice(id), env.dbFails);
            Alone(s, Busy(ctx, DeviceDeleteWrite(id)), now, env) ==
              (s.(store := store), AfterChange(ctx, DeviceDeleteAudit(id), row, ServerError))
  {
  }

  lemma AdmitsCreate(token: string, csrf: Option<string>, form: DeviceForm)
    ensures Admit(WithSession(token, csrf, Action.DeviceCreate(form))) ==
              Guard(token, csrf, DeviceCreateJob(ValidateDeviceForm(form)))
  {
  }

  lemma AdmitsUpdate(token: string, csrf: Option<string>, id: int, form: DeviceForm)
    ensures Admit(WithSession(token, csrf, Action.DeviceUpdate(id, form))) ==
              Guard(token, csrf, DeviceUpdateJob(id, ValidateDeviceForm(form)))
  {
  }

  method DeviceCreate(app: Server, token: string, csrf: string, form: DeviceForm, now: nat, envs: seq<Env>)
    returns (r: Response)
    requires |envs| == 4
    modifies app.db, app.auth
    ensures EndsAs(old(app.Snapshot()), Admit(WithSession(token, Some(csrf), Action.DeviceCreate(form))), now, envs, 0,
                   app.Snapshot(), r)
    ensures CreateAnswered(old(app.Snapshot()), app.Snapshot(), token, csrf, ValidateDeviceForm(form), now, envs, r)
  {
    AdmitsCreate(token, Some(csrf), form);
    r := CreateValidated(app, token, csrf, ValidateDeviceForm(form), now, envs);
  }

  method CreateValidated(
    app: Server, token: string, csrf: string, device: Result<DeviceValues, FormError>, now: nat, envs: seq<Env>)
    returns (r: Response)
    requires |envs| == 4
    modifies app.db, app.auth
    ensures EndsAs(old(app.Snapshot()), Guard(token, Some(csrf), DeviceCreateJob(device)), now, envs, 0, app.Snapshot(),
                   r)
    ensures CreateAnswered(old(app.Snapshot()), app.Snapshot(), token, csrf, device, now, envs, r)
  {
    var admitted := app.Admitted(token, Some(csrf), DeviceCreateJob(device), now, envs[0]);
    if admitted.Err? {
      r := admitted.error;
      Ended(app.Snapshot(), r, now, envs, 1);
    } else if device.Err? {
      r := Rejected;
      Ended(app.Snapshot(), r, now, envs, 1);
    } else {
      r := CheckAndInsert(app, admitted.value, device.value, now, envs);
    }
    StepThen(old(app.Snapshot()), Guard(token, Some(csrf), DeviceCreateJob(device)), now, envs, 0, app.Snapshot(), r);
  }

  method CheckAndInsert(app: Server, ctx: Ctx, device: DeviceValues, now: nat, envs: seq<Env>) returns (r: Response)
    requires |envs| == 4
    modifies app.db
    ensures EndsAs(old(app.Snapshot()), Busy(ctx, DeviceCreateSite(device)), now, envs, 1, app.Snapshot(), r)
    ensures InsertDone(old(app.db.Model()), app.db.Model(), device, envs, r)
  {
    AfterCreateSite(app.Snapshot(), ctx, device, now, envs[1]);
    var found := app.db.GetSite(device.siteId, envs[1].dbFails);
    if found == DbFailed || found.site.None? {
      r := Rejected;
      Ended(app.Snapshot(), r, now, envs, 2);
    } else {
      r := InsertAndAudit(app, ctx, device, now, envs);
    }
    StepThen(old(app.Snapshot()), Busy(ctx, DeviceCreateSite(device)), now, envs, 1, app.Snapshot(), r);
  }

  method InsertAndAudit(app: Server, ctx: Ctx, device: DeviceValues, now: nat, envs: seq<Env>) returns (r: Response)
    requires |envs| == 4 && device.siteId in app.db.sites
    modifies app.db
    ensures EndsAs(old(app.Snapshot()), Busy(ctx, DeviceCreateInsert(device)), now, envs, 2, app.Snapshot(), r)
    ensures r.Completed? <==> RowFits(old(app.db.devices), old(app.db.deviceSeq) + 1, device, envs[2])
    ensures RowWritten(old(app.db.Model()), app.db.Model(), old(app.db.deviceSeq) + 1, NewDevice(device), r.Completed?)
  {
    var inserted := InsertRow(app, ctx, device, now, envs[2]);
    r := AnswerInsert(app, ctx, inserted, now, envs);
    StepThen(old(app.Snapshot()), Busy(ctx, DeviceCreateInsert(device)), now, envs, 2, app.Snapshot(), r);
  }

  method AnswerInsert(app: Server, ctx: Ctx, inserted: DbReply, now: nat, envs: seq<Env>) returns (r: Response)
    requires |envs| == 4
    modifies app.db
    ensures EndsAs(old(app.Snapshot()), AfterInsertDevice(ctx, inserted), now, envs, 3, app.Snapshot(), r)
    ensures r.Completed? <==> inserted.NewId?
    ensures SameTables(old(app.db.Model()), app.db.Model())
  {
    if inserted.NewId? {
      app.RecordAudit(ctx, DeviceCreateAudit(inserted.id), DeviceCreated, Some(inserted.id), now, envs, 3);
      r := Completed;
    } else {
      r := Rejected;
      Ended(app.Snapshot(), r, now, envs, 3);
    }
  }

  method InsertRow(app: Server, ctx: Ctx, device: DeviceValues, now: nat, env: Env) returns (row: DbReply)
    requires device.siteId in app.db.sites
    modifies app.db
    ensures Alone(old(app.Snapshot()), Busy(ctx, DeviceCreateInsert(device)), now, env) ==
              (app.Snapshot(), AfterInsertDevice(ctx, row))
    ensures row.NewId? <==> RowFits(old(app.db.devices), old(app.db.deviceSeq) + 1, device, env)
    ensures RowWritten(old(app.db.Model()), app.db.Model(), old(app.db.deviceSeq) + 1, NewDevice(device), row.NewId?)
  {
    AfterCreateInsert(app.Snapshot(), ctx, device, now, env);
    row := app.db.InsertDevice(device, env.dbFails);
  }

  method DeviceUpdate(app: Server, token: string, csrf: string, id: int, form: DeviceForm, now: nat, envs: seq<Env>)
    returns (r: Response)
    requires |envs| == 4
    modifies app.db, app.auth
    ensures EndsAs(old(app.Snapshot()), Admit(WithSession(token, Some(csrf), Action.DeviceUpdate(id, form))),
                   now, envs, 0, app.Snapshot(), r)
    ensures UpdateAnswered(old(app.Snapshot()), app.Snapshot(), token, csrf, id, ValidateDeviceForm(form), now, envs, r)
  {
    AdmitsUpdate(token, Some(csrf), id, form);
    r := UpdateValidated(app, token, csrf, id, ValidateDeviceForm(form), now, envs);
  }

  method UpdateValidated(app: Server, token: string, csrf: string, id: int, device: Result<DeviceValues, FormError>,
      now: nat,
                         envs: seq<Env>)
    returns (r: Response)
    requires |envs| == 4
    modifies app.db, app.auth
    ensures EndsAs(old(app.Snapshot()), Guard(token, Some(csrf), DeviceUpdateJob(id, device)), now, envs, 0,
                   app.Snapshot(), r)
    ensures UpdateAnswered(old(app.Snapshot()), app.Snapshot(), token, csrf, id, device, now, envs, r)
  {
    var admitted := app.Admitted(token, Some(csrf), DeviceUpdateJob(id, device), now, envs[0]);
    if admitted.Err? {
      r := admitted.error;
      Ended(app.Snapshot(), r, now, envs, 1);
    } else if device.Err? {
      r := Rejected;
      Ended(app.Snapshot(), r, now, envs, 1);
    } else {
      r := CheckAndEdit(app, admitted.value, id, device.value, now, envs);
    }
    StepThen(old(app.Snapshot()), Guard(token, Some(csrf), DeviceUpdateJob(id, device)), now, envs, 0, app.Snapshot(),
             r);
  }

  method CheckAndEdit(app: Server, ctx: Ctx, id: int, device: DeviceValues, now: nat, envs: seq<Env>)
    returns (r: Response)
    requires |envs| == 4
    modifies app.db
    ensures EndsAs(old(app.Snapshot()), Busy(ctx, DeviceUpdateSite(id, device)), now, envs, 1, app.Snapshot(), r)
    ensures EditDone(old(app.db.Model()), app.db.Model(), id, device, envs, r)
  {
    AfterUpdateSite(app.Snapshot(), ctx, id, device, now, envs[1]);
    var found := app.db.GetSite(device.siteId, envs[1].dbFails);
    if found == DbFailed || found.site.None? {
      r := Rejected;
      Ended(app.Snapshot(), r, now, envs, 2);
    } else {
      r := EditAndAudit(app, ctx, id, device, now, envs);
    }
    StepThen(old(app.Snapshot()), Busy(ctx, DeviceUpdateSite(id, device)), now, envs, 1, app.Snapshot(), r);
  }

  method EditAndAudit(app: Server, ctx: Ctx, id: int, device: DeviceValues, now: nat, envs: seq<Env>)
    returns (r: Response)
    requires |envs| == 4 && device.siteId in app.db.sites
    modifies app.db
    ensures EndsAs(old(app.Snapshot()), Busy(ctx, DeviceUpdateWrite(id, device)), now, envs, 2, app.Snapshot(), r)
    ensures EditWritten(old(app.db.Model()), app.db.Model(), id, device, envs[2], r.Completed?)
  {
    var written := EditRow(app, ctx, id, device, now, envs[2]);
    ghost var mid := app.Snapshot();
    r := AnswerEdit(app, ctx, id, written, now, envs);
    AuditKeepsEdit(old(app.db.Model()), mid.store, app.db.Model(), id, device, envs[2], r.Completed?);
    StepInto(old(app.Snapshot()), Busy(ctx, DeviceUpdateWrite(id, device)), now, envs, 2, mid,
             AfterChange(ctx, DeviceUpdateAudit(id), written, Rejected), app.Snapshot(), r);
  }

  method AnswerEdit(app: Server, ctx: Ctx, id: int, written: DbReply, now: nat, envs: seq<Env>) returns (r: Response)
    requires |envs| == 4
    modifies app.db
    ensures EndsAs(old(app.Snapshot()), AfterChange(ctx, DeviceUpdateAudit(id), written, Rejected), now, envs, 3,
                   app.Snapshot(), r)
    ensures r.Completed? <==> written == Changed(true)
    ensures SameTables(old(app.db.Model()), app.db.Model())
  {
    r := app.AnswerChange(ctx, DeviceUpdateAudit(id), DeviceUpdated, id, written, Rejected, now, envs, 3);
  }

  /** The row was there, the change fits and was written, or nothing was. */
  predicate EditWritten(before: StoreModel, after: StoreModel, id: int, device: DeviceValues, env: Env, ok: bool) {
    && (ok <==> id in before.devices && RowFits(before.devices, id, device, env))
    && RowWritten(before, after, id, EditedDevice(device), ok)
  }

  lemma AuditKeepsEdit(
    before: StoreModel, mid: StoreModel, after: StoreModel, id: int, device: DeviceValues, env: Env, ok: bool)
    requires EditWritten(before, mid, id, device, env, ok) && SameTables(mid, after)
    ensures EditWritten(before, after, id, device, env, ok)
  {
  }

  method EditRow(app: Server, ctx: Ctx, id: int, device: DeviceValues, now: nat, env: Env) returns (row: DbReply)
    requires device.siteId in app.db.sites
    modifies app.db
    ensures Alone(old(app.Snapshot()), Busy(ctx, DeviceUpdateWrite(id, device)), now, env) ==
              (app.Snapshot(),
               AfterChange(ctx, DeviceUpdateAudit(id), row, Rejected))
    ensures EditWritten(old(app.db.Model()), app.db.Model(), id, device, env, row == Changed(true))
  {
    AfterDeviceWrite(app.Snapshot(), ctx, id, device, now, env);
    row := app.db.UpdateDevice(id, device, env.dbFails);
  }

  /** No other device of the site has the address, and the write does not fail. */
  predicate RowFits(devices: map<int, Device>, id: int, device: DeviceValues, env: Env) {
    !env.dbFails && !AddressTaken(devices, id, device.siteId, device.mac)
  }

  /** One device row is written, or none; sites and secrets stay. */
  predicate RowWritten(before: StoreModel, after: StoreModel, id: int, row: Device, written: bool) {
    && after.devices == (if written then before.devices[id := row] else before.devices)
    && after.sites == before.sites && after.secrets == before.secrets
  }

  /** What a creation with accepted values comes to. */
  predicate InsertDone(before: StoreModel, after: StoreModel, device: DeviceValues, envs: seq<Env>, r: Response)
    requires |envs| == 4
  {
    && (r.Completed? <==> DeviceFits(before, before.deviceSeq + 1, device, envs))
    && RowWritten(before, after, before.deviceSeq + 1, NewDevice(device), r.Completed?)
  }

  /** What a change with accepted values comes to. */
  predicate EditDone(before: StoreModel, after: StoreModel, id: int, device: DeviceValues, envs: seq<Env>, r: Response)
    requires |envs| == 4
  {
    && (r.Completed? <==> id in before.devices && DeviceFits(before, id, device, envs))
    && RowWritten(before, after, id, EditedDevice(device), r.Completed?)
  }

  /** A request to create a device: carried out if it is let in with accepted values, else refused. */
  predicate CreateAnswered(
    before: Shared, after: Shared, token: string, csrf: string, device: Result<DeviceValues, FormError>, now: nat,
    envs: seq<Env>, r: Response)
    requires |envs| == 4
  {
    if MayEnter(before.auth.sessions, token, Some(csrf), DeviceCreateJob(device), now) && device.Ok? then
      InsertDone(before.store, after.store, device.value, envs, r)
    else !r.Completed? && SameTables(before.store, after.store)
  }

  /** The same for a request to change one. */
  predicate UpdateAnswered(
    before: Shared, after: Shared, token: string, csrf: string, id: int, device: Result<DeviceValues, FormError>,
    now: nat, envs: seq<Env>, r: Response)
    requires |envs| == 4
  {
    if MayEnter(before.auth.sessions, token, Some(csrf), DeviceUpdateJob(id, device), now) && device.Ok? then
      EditDone(before.store, after.store, id, device.value, envs, r)
    else !r.Completed? && SameTables(before.store, after.store)
  }

  /** The device's site exists, no other device of that site has the address, and nothing fails. */
  predicate DeviceFits(s: StoreModel, id: int, device: DeviceValues, envs: seq<Env>)
    requires |envs| == 4
  {
    !envs[1].dbFails && device.siteId in s.sites && RowFits(s.devices, id, device, envs[2])
  }

  /** One device row is removed, or none; sites, secrets and the wake history stay. */
  predicate RowRemoved(before: StoreModel, after: StoreModel, id: int, removed: bool) {
    && (if removed then after.devices == before.devices - {id} else after.devices == before.devices)
    && after.sites == before.sites && after.secrets == before.secrets && after.wakeEvents == before.wakeEvents
  }

  method DeviceDelete(app: Server, token: string, csrf: string, id: int, now: nat, envs: seq<Env>) returns (r: Response)
    requires |envs| == 3
    modifies app.db, app.auth
    ensures EndsAs(old(app.Snapshot()), Admit(WithSession(token, Some(csrf), Action.DeviceDelete(id))), now, envs, 0,
                   app.Snapshot(), r)
    ensures r.Completed? <==>
              && MayEnter(old(app.auth.sessions), token, Some(csrf), DeviceDeleteJob(id), now)
              && id in old(app.db.devices) && !envs[1].dbFails
    ensures RowRemoved(old(app.db.Model()), app.db.Model(), id, r.Completed?)
  {
    var job := DeviceDeleteJob(id);
    var admitted := app.Admitted(token, Some(csrf), job, now, envs[0]);
    if admitted.Err? {
      r := admitted.error;
      Ended(app.Snapshot(), r, now, envs, 1);
    } else {
      r := RemoveDevice(app, admitted.value, id, now, envs);
    }
    StepThen(old(app.Snapshot()), Admit(WithSession(token, Some(csrf), Action.DeviceDelete(id))), now, envs, 0,
             app.Snapshot(), r);
  }

  method RemoveDevice(app: Server, ctx: Ctx, id: int, now: nat, envs: seq<Env>) returns (r: Response)
    requires |envs| == 3
    modifies app.db
    ensures EndsAs(old(app.Snapshot()), Busy(ctx, DeviceDeleteWrite(id)), now, envs, 1, app.Snapshot(), r)
    ensures r.Completed? <==> id in old(app.db.devices) && !envs[1].dbFails
    ensures RowRemoved(old(app.db.Model()), app.db.Model(), id, r.Completed?)
  {
    AfterDeviceDelete(app.Snapshot(), ctx, id, now, envs[1]);
    var deleted := app.db.DeleteDevice(id, envs[1].dbFails);
    ghost var mid := app.Snapshot();
    r := app.AnswerChange(ctx, DeviceDeleteAudit(id), DeviceDeleted, id, deleted, ServerError, now, envs, 2);
    StepInto(old(app.Snapshot()), Busy(ctx, DeviceDeleteWrite(id)), now, envs, 1, mid,
             AfterChange(ctx, DeviceDeleteAudit(id), deleted, ServerError), app.Snapshot(), r);
  }
}
