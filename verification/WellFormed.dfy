/** What every reachable store keeps: constraints, cascades, and rows the connection code accepts. */
module WellFormed {
  import opened Results
  import opened Text
  import opened Mac
  import opened Wol
  import opened Forms
  import opened Records
  import opened Ssh
  import opened Store
  import opened Auth
  import opened Handlers

  ghost predicate RowsOk(s: StoreModel) {
    && (forall i :: i in s.sites ==> SiteOk(s.sites[i]))
    && (forall d :: d in s.devices ==> AddressesOk(s.devices[d].mac, s.devices[d].ip))
    && (forall i :: i in s.secrets ==> s.secrets[i].kind == SECRET_KIND)
  }

  ghost predicate KeysOk(s: StoreModel) {
    && (forall i :: i in s.sites ==> 0 < i <= s.siteSeq)
    && (forall d :: d in s.devices ==> 0 < d <= s.deviceSeq && s.devices[d].siteId in s.sites)
    && (forall i :: i in s.secrets ==> i in s.sites)
  }

  predicate SameAddress(a: Device, b: Device) {
    a.siteId == b.siteId && a.mac == b.mac
  }

  ghost predicate UniqueOk(s: StoreModel) {
    && (forall i, j :: i in s.sites && j in s.sites && s.sites[i].name == s.sites[j].name ==> i == j)
    && (forall d, e :: d in s.devices && e in s.devices && SameAddress(s.devices[d], s.devices[e]) ==> d == e)
  }

  ghost predicate StoreOk(s: StoreModel) {
    0 <= s.siteSeq && 0 <= s.deviceSeq && RowsOk(s) && KeysOk(s) && UniqueOk(s)
  }

  predicate DbCallOk(call: DbCall) {
    && (call.InsertSite? ==> SiteValuesOk(call.site))
    && (call.UpdateSite? ==> SiteValuesOk(call.site))
    && (call.InsertDevice? ==> AddressesOk(call.device.mac, call.device.ip))
    && (call.UpdateDevice? ==> AddressesOk(call.device.mac, call.device.ip))
    && (call.UpsertSecret? ==> call.secret.kind == SECRET_KIND)
  }

  predicate ReplyOk(reply: Reply) {
    && (reply.FromDb? && reply.row.SiteRow? && reply.row.site.Some? ==> SiteOk(reply.row.site.value))
    && (reply.FromDb? && reply.row.DeviceRow? && reply.row.device.Some? ==>
          AddressesOk(reply.row.device.value.mac, reply.row.device.value.ip))
    && (reply.Sealed? && reply.secret.Some? ==> reply.secret.value.kind == SECRET_KIND)
  }

  /** The values a handler carries were checked, and the rows it read were well formed. */
  predicate PcOk(pc: Pc) {
    match pc
    case CreateInsert(values, _) => SiteValuesOk(values)
    case UpdateRead(_, form, _) => form.Ok? ==> SiteValuesOk(form.value)
    case CreateStore(_, secret) => secret.kind == SECRET_KIND
    case UpdateWrite(_, _, values, _) => SiteValuesOk(values)
    case UpdateStore(_, secret) => secret.kind == SECRET_KIND
    case TestCredential(_, site) => SiteOk(site)
    case TestDial(_, site, _) => SiteOk(site)
    case DeviceCreateSite(device) => AddressesOk(device.mac, device.ip)
    case DeviceCreateInsert(device) => AddressesOk(device.mac, device.ip)
    case DeviceUpdateSite(_, device) => AddressesOk(device.mac, device.ip)
    case DeviceUpdateWrite(_, device) => AddressesOk(device.mac, device.ip)
    case WakeReadSite(_, row, _) => AddressesOk(row.mac, row.ip)
    case WakeCredential(_, row, site, _) => AddressesOk(row.mac, row.ip) && SiteOk(site)
    case WakeSend(_, row, site, _) => AddressesOk(row.mac, row.ip) && SiteOk(site)
    case _ => true
  }

  predicate JobOk(job: Job) {
    match job
    case SiteCreateJob(site, _) => site.Ok? ==> SiteValuesOk(site.value)
    case SiteUpdateJob(_, site, _) => site.Ok? ==> SiteValuesOk(site.value)
    case DeviceCreateJob(device) => device.Ok? ==> AddressesOk(device.value.mac, device.value.ip)
    case DeviceUpdateJob(_, device) => device.Ok? ==> AddressesOk(device.value.mac, device.value.ip)
    case _ => true
  }

  predicate TaskOk(task: Task) {
    && (task.Busy? ==> PcOk(task.pc))
    && (task.Guard? ==> JobOk(task.job))
  }

  lemma SitesKeepRows(s: StoreModel, call: DbCall)
    requires RowsOk(s) && DbCallOk(call)
    ensures RowsOk(OnSites(s, call).0) && ReplyOk(FromDb(OnSites(s, call).1))
  {
  }

  lemma DevicesKeepRows(s: StoreModel, call: DbCall)
    requires RowsOk(s) && DbCallOk(call)
    ensures RowsOk(OnDevices(s, call).0) && ReplyOk(FromDb(OnDevices(s, call).1))
  {
  }

  lemma OthersKeepRows(s: StoreModel, call: DbCall)
    requires RowsOk(s) && DbCallOk(call)
    ensures RowsOk(OnAccounts(s, call).0) && ReplyOk(FromDb(OnAccounts(s, call).1))
    ensures RowsOk(OnSecrets(s, call).0) && ReplyOk(FromDb(OnSecrets(s, call).1))
    ensures RowsOk(OnEvents(s, call).0) && ReplyOk(FromDb(OnEvents(s, call).1))
  {
  }

  /** Every call keeps the rows well formed and answers with well-formed rows. */
  lemma ExecuteKeepsRows(s: StoreModel, call: DbCall, fails: bool)
    requires RowsOk(s) && DbCallOk(call)
    ensures RowsOk(Execute(s, call, fails).0)
    ensures ReplyOk(FromDb(Execute(s, call, fails).1))
  {
    SitesKeepRows(s, call);
    DevicesKeepRows(s, call);
    OthersKeepRows(s, call);
  }

  /** Ids stay within those given out, which only grow; devices and secrets stay with live sites. */
  ghost predicate KeysKept(before: StoreModel, after: StoreModel) {
    KeysOk(after) && before.siteSeq <= after.siteSeq && before.deviceSeq <= after.deviceSeq
  }

  lemma SitesKeepKeys(s: StoreModel, call: DbCall)
    requires 0 <= s.siteSeq && KeysOk(s)
    ensures KeysKept(s, OnSites(s, call).0)
  {
  }

  lemma DevicesKeepKeys(s: StoreModel, call: DbCall)
    requires 0 <= s.deviceSeq && KeysOk(s)
    ensures KeysKept(s, OnDevices(s, call).0)
  {
  }

  lemma OthersKeepKeys(s: StoreModel, call: DbCall)
    requires KeysOk(s)
    ensures KeysKept(s, OnAccounts(s, call).0) && KeysKept(s, OnSecrets(s, call).0) && KeysKept(s, OnEvents(s, call).0)
  {
  }

  lemma ExecuteKeepsKeys(s: StoreModel, call: DbCall, fails: bool)
    requires 0 <= s.siteSeq && 0 <= s.deviceSeq && KeysOk(s)
    ensures KeysKept(s, Execute(s, call, fails).0)
  {
    SitesKeepKeys(s, call);
    DevicesKeepKeys(s, call);
    OthersKeepKeys(s, call);
  }

  lemma SitesKeepUnique(s: StoreModel, call: DbCall)
    requires KeysOk(s) && UniqueOk(s)
    ensures UniqueOk(OnSites(s, call).0)
  {
  }

  lemma DevicesKeepUnique(s: StoreModel, call: DbCall)
    requires KeysOk(s) && UniqueOk(s)
    ensures UniqueOk(OnDevices(s, call).0)
  {
  }

  /** Every call keeps site names unique, and addresses unique within a site. */
  lemma ExecuteKeepsUnique(s: StoreModel, call: DbCall, fails: bool)
    requires KeysOk(s) && UniqueOk(s)
    ensures UniqueOk(Execute(s, call, fails).0)
  {
    SitesKeepUnique(s, call);
    DevicesKeepUnique(s, call);
    assert OnAccounts(s, call).0.sites == s.sites && OnAccounts(s, call).0.devices == s.devices;
    assert OnSecrets(s, call).0.sites == s.sites && OnSecrets(s, call).0.devices == s.devices;
    assert OnEvents(s, call).0.sites == s.sites && OnEvents(s, call).0.devices == s.devices;
  }

  lemma IssueOk(task: Task)
    requires TaskOk(task)
    ensures Issue(task).DbAccess? ==> DbCallOk(Issue(task).db)
  {
  }

  lemma PrepareOk(action: Action)
    ensures JobOk(Prepare(action))
  {
    match action
    case SiteCreate(form) =>
      if ValidateSiteForm(form, true).Ok? { SiteFormAgrees(form, true); }
    case SiteUpdate(_, form) =>
      if ValidateSiteForm(form, false).Ok? { SiteFormAgrees(form, false); }
    case DeviceCreate(form) =>
      if ValidateDeviceForm(form).Ok? { DeviceFormAgrees(form); }
    case DeviceUpdate(_, form) =>
      if ValidateDeviceForm(form).Ok? { DeviceFormAgrees(form); }
    case _ =>
  }

  lemma ResumeGuardOk(token: string, csrf: Option<string>, job: Job, found: Option<Session>, env: Env)
    requires JobOk(job)
    ensures TaskOk(ResumeGuard(token, csrf, job, found, env))
  {
  }

  lemma ResumeSiteOk(ctx: Ctx, pc: Pc, reply: Reply, env: Env)
    requires PcOk(pc) && ReplyOk(reply)
    ensures TaskOk(ResumeSite(ctx, pc, reply, env))
  {
  }

  lemma ResumeDeviceOk(ctx: Ctx, pc: Pc, reply: Reply, env: Env)
    requires PcOk(pc) && ReplyOk(reply)
    ensures TaskOk(ResumeDevice(ctx, pc, reply, env))
  {
  }

  lemma ResumeAccountOk(ctx: Ctx, pc: Pc, reply: Reply, env: Env)
    ensures TaskOk(ResumeAccount(ctx, pc, reply, env))
  {
  }

  lemma ResumeLoginOk(step: LoginPc, reply: Reply, env: Env)
    ensures TaskOk(ResumeLogin(step, reply, env))
  {
  }

  lemma ResumeOk(task: Task, reply: Reply, env: Env)
    requires TaskOk(task) && ReplyOk(reply)
    ensures TaskOk(Resume(task, reply, env))
  {
    match task
    case Guard(token, csrf, job) =>
      if reply.SessionFound? {
        ResumeGuardOk(token, csrf, job, reply.session, env);
      }
    case LoggingIn(step) => ResumeLoginOk(step, reply, env);
    case Busy(ctx, pc) =>
      ResumeAccountOk(ctx, pc, reply, env);
      ResumeSiteOk(ctx, pc, reply, env);
      ResumeDeviceOk(ctx, pc, reply, env);
    case Finished(_) =>
  }

  ghost predicate WorldOk(w: World) {
    StoreOk(w.shared.store) && forall t :: t in w.tasks ==> TaskOk(w.tasks[t])
  }

  lemma PerformKeeps(s: Shared, call: Call, now: nat, env: Env)
    requires StoreOk(s.store) && (call.DbAccess? ==> DbCallOk(call.db))
    ensures StoreOk(Perform(s, call, now, env).0.store) && ReplyOk(Perform(s, call, now, env).1)
  {
    if call.DbAccess? {
      ExecuteKeepsRows(s.store, call.db, env.dbFails);
      ExecuteKeepsKeys(s.store, call.db, env.dbFails);
      ExecuteKeepsUnique(s.store, call.db, env.dbFails);
    }
  }

  lemma StepKeeps(w: World, e: Event)
    requires WorldOk(w)
    ensures WorldOk(Step(w, e))
  {
    if e.Arrive? && e.request.WithSession? {
      PrepareOk(e.request.action);
    }
    if e.Advance? && Enabled(w, e.t, e.env) {
      var task := w.tasks[e.t];
      IssueOk(task);
      PerformKeeps(w.shared, Issue(task), w.now, e.env);
      ResumeOk(task, Perform(w.shared, Issue(task), w.now, e.env).1, e.env);
    }
  }

  /** Every state of every interleaved run from a well-formed state is well formed. */
  lemma {:induction false} RunKeeps(w: World, es: seq<Event>)
    requires WorldOk(w)
    ensures WorldOk(Run(w, es))
  {
    if es != [] {
      RunKeeps(w, es[..|es| - 1]);
      StepKeeps(Run(w, es[..|es| - 1]), es[|es| - 1]);
    }
  }

  lemma FreshIsOk(w: World)
    requires Fresh(w)
    ensures WorldOk(w)
  {
  }

  /** In every reachable store, two devices of one site have different six-octet addresses, none of
      them all zero or a group address. The table only compares texts; that texts are canonical makes
      it compare addresses. */
  lemma HardwareUniqueness(w: World, es: seq<Event>, d: int, e: int)
    requires Fresh(w)
    requires d in Run(w, es).shared.store.devices && e in Run(w, es).shared.store.devices && d != e
    requires Run(w, es).shared.store.devices[d].siteId == Run(w, es).shared.store.devices[e].siteId
    ensures var devices := Run(w, es).shared.store.devices;
            && Denoted(devices[d].mac).Some? && Denoted(devices[e].mac).Some?
            && Denoted(devices[d].mac) != Denoted(devices[e].mac)
            && !IsAllZero(Denoted(devices[d].mac).value) && !IsMulticast(Denoted(devices[d].mac).value)
  {
    FreshIsOk(w);
    RunKeeps(w, es);
    var devices := Run(w, es).shared.store.devices;
    assert !SameAddress(devices[d], devices[e]);
    CanonicalTextsAreAddresses(devices[d].mac, devices[e].mac);
  }

  lemma CanonicalTextsAreAddresses(a: string, b: string)
    requires NormalizeMac(a) == Ok(a) && NormalizeMac(b) == Ok(b)
    ensures Denoted(a).Some? && Denoted(b).Some?
    ensures Denoted(a) == Denoted(b) <==> a == b
    ensures !IsAllZero(Denoted(a).value) && !IsMulticast(Denoted(a).value)
  {
    CanonicalDenotes(a);
    CanonicalDenotes(b);
  }

  /** In every reachable state the row and its site give a command, at most 91 bytes long, that means
      exactly the stored interface and addresses. */
  lemma StoredRowsGiveCommands(w: World, es: seq<Event>, d: int)
    requires Fresh(w) && d in Run(w, es).shared.store.devices
    ensures var store := Run(w, es).shared.store;
            && store.devices[d].siteId in store.sites
            && var site := store.sites[store.devices[d].siteId];
               var command := WolCommand(site.lanInterface, store.devices[d].mac, store.devices[d].ip);
               && StaticCheck(site).None?
               && command.Ok? && ByteLen(command.value) <= 91
               && ParseLine(command.value) == Meaning(site.lanInterface, store.devices[d].mac, store.devices[d].ip)
  {
    FreshIsOk(w);
    RunKeeps(w, es);
    var store := Run(w, es).shared.store;
    var device := store.devices[d];
    var site := store.sites[device.siteId];
    OkRowsGiveCommands(site, device);
  }

  lemma OkRowsGiveCommands(site: Site, device: Device)
    requires SiteOk(site) && AddressesOk(device.mac, device.ip)
    ensures var command := WolCommand(site.lanInterface, device.mac, device.ip);
            && StaticCheck(site).None?
            && command.Ok? && ByteLen(command.value) <= 91
            && ParseLine(command.value) == Meaning(site.lanInterface, device.mac, device.ip)
  {
    WolCommandSucceeds(site.lanInterface, device.mac, device.ip);
    WolCommandRoundTrip(site.lanInterface, device.mac, device.ip);
  }

  lemma WakeRowsAreOk(w: World, es: seq<Event>, t: nat)
    requires Fresh(w) && t in Run(w, es).tasks
    requires Run(w, es).tasks[t].Busy? && Run(w, es).tasks[t].pc.WakeSend?
    ensures var pc := Run(w, es).tasks[t].pc;
            SiteOk(pc.site) && AddressesOk(pc.row.mac, pc.row.ip)
  {
    FreshIsOk(w);
    RunKeeps(w, es);
    assert TaskOk(Run(w, es).tasks[t]);
  }

  /** In every interleaved run, every wake in flight works on rows its command can be built from: if
      it fails, no key was trusted yet or the router or the network failed it, never a validation
      that contradicts the forms. */
  lemma WakesFailOnlyExternally(w: World, es: seq<Event>, t: nat, peer: Peer)
    requires Fresh(w) && t in Run(w, es).tasks
    requires Run(w, es).tasks[t].Busy? && Run(w, es).tasks[t].pc.WakeSend?
    ensures var pc := Run(w, es).tasks[t].pc;
            var answer := WakeExchange(pc.site, pc.row, pc.credential, peer).0;
            answer.Err? ==> ExternalFailure(answer.error)
  {
    WakeRowsAreOk(w, es, t);
    var pc := Run(w, es).tasks[t].pc;
    WakeFailsOnlyExternally(pc.site, pc.row, pc.credential, peer);
  }
}
