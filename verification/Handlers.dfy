/** The request handlers as programs over the shared state. A handler is a program counter with its
    local values; each step issues one atomic call and goes on with the reply. Steps of different
    handlers interleave freely, as they do under the asynchronous runtime. */
module Handlers {
  import opened Results
  import opened Text
  import opened Fingerprint
  import opened Records
  import opened Forms
  import opened Ssh
  import opened Auth
  import opened Store

  const CLIENT_KEY := "local-proxy"
  const SECRET_KIND := "ssh_password"

  /** What a request asks for, with its form as submitted. */
  datatype Action =
    | ViewPage
    | Logout
    | SiteCreate(siteForm: SiteForm)
    | SiteUpdate(id: int, siteForm: SiteForm)
    | SiteDelete(id: int)
    | SiteTest(id: int)
    | SiteTrust(id: int, fingerprint: string)
    | DeviceCreate(deviceForm: DeviceForm)
    | DeviceUpdate(id: int, deviceForm: DeviceForm)
    | DeviceDelete(id: int)
    | WakeDevice(id: int, api: bool)
    | ChangePassword(newPassword: string, confirmation: string)
    | UserCreate(username: string, password: string, role: Option<Role>)
    | UserReset(username: string, password: string)
    | SettingsSave(title: string, cookieSecure: bool)

  /** The same with the verdict of each validator. Validation is a pure function of the form, so the
      verdict is computed once; a handler looks at it only where it runs the validator. */
  datatype Job =
    | ViewJob
    | LogoutJob
    | SiteCreateJob(site: Result<SiteValues, FormError>, credential: string)
    | SiteUpdateJob(id: int, site: Result<SiteValues, FormError>, credential: string)
    | SiteDeleteJob(id: int)
    | SiteTestJob(id: int)
    | SiteTrustJob(id: int, fingerprint: Result<string, FingerprintError>)
    | DeviceCreateJob(device: Result<DeviceValues, FormError>)
    | DeviceUpdateJob(id: int, device: Result<DeviceValues, FormError>)
    | DeviceDeleteJob(id: int)
    | WakeJob(id: int, api: bool)
    | ChangePasswordJob(newPassword: string, confirmation: string)
    | UserCreateJob(username: Result<string, FormError>, acceptable: bool, role: Option<Role>)
    | UserResetJob(username: Result<string, FormError>, acceptable: bool)
    | SettingsJob(title: Result<string, FormError>, cookieSecure: bool)

  predicate PasswordAcceptable(password: string) {
    |password| >= 12
  }

  function Prepare(action: Action): Job {
    match action
    case ViewPage => ViewJob
    case Logout => LogoutJob
    case SiteCreate(form) => SiteCreateJob(ValidateSiteForm(form, true), form.sshCredential)
    case SiteUpdate(id, form) => SiteUpdateJob(id, ValidateSiteForm(form, false), form.sshCredential)
    case SiteDelete(id) => SiteDeleteJob(id)
    case SiteTest(id) => SiteTestJob(id)
    case SiteTrust(id, fingerprint) => SiteTrustJob(id, ValidateFingerprint(fingerprint))
    case DeviceCreate(form) => DeviceCreateJob(ValidateDeviceForm(form))
    case DeviceUpdate(id, form) => DeviceUpdateJob(id, ValidateDeviceForm(form))
    case DeviceDelete(id) => DeviceDeleteJob(id)
    case WakeDevice(id, api) => WakeJob(id, api)
    case ChangePassword(newPassword, confirmation) => ChangePasswordJob(newPassword, confirmation)
    case UserCreate(username, password, role) =>
      UserCreateJob(ValidateUsername(username), PasswordAcceptable(password), role)
    case UserReset(username, password) => UserResetJob(ValidateUsername(username), PasswordAcceptable(password))
    case SettingsSave(title, secure) => SettingsJob(ValidateTitle(title), secure)
  }

  datatype Request =
    | Login(username: string)
    | WithSession(token: string, csrf: Option<string>, action: Action)

  datatype Response =
    LoginPage | Forbidden | NotFound | Rejected | PreconditionFailed | ServerError | Completed | LoggedIn(token: string)

  /** Who a handler acts for: the token of the request and the session it resolved to. */
  datatype Ctx = Ctx(token: string, session: Session)

  datatype LoginPc =
    | LoginCheck(username: string)
    | LoginFind(username: string)
    | LoginFailure
    | LoginFailureAudit
    | LoginReread(username: string)
    | LoginCreate(user: User)
    | LoginClear(userId: int, token: string)
    | LoginAudit(userId: int, token: string)

  datatype Pc =
    | LogoutSession
    | LogoutPending
    | CreateInsert(values: SiteValues, credential: string)
    | CreateSeal(id: int, credential: string)
    | CreateStore(id: int, secret: Secret)
    | CreateUndo(id: int)
    | CreateAudit(id: int)
    | UpdateRead(id: int, form: Result<SiteValues, FormError>, credential: string)
    | UpdateWrite(id: int, before: Site, values: SiteValues, credential: string)
    | UpdateClear(id: int, credential: string)
    | UpdateSeal(id: int, credential: string)
    | UpdateStore(id: int, secret: Secret)
    | UpdateAudit(id: int)
    | DeleteWrite(id: int)
    | DeleteAudit(id: int)
    | TestRead(id: int)
    | TestCredential(id: int, site: Site)
    | TestDial(id: int, site: Site, credential: string)
    | TestPending(id: int, fingerprint: string)
    | TrustTake(id: int, fingerprint: string)
    | TrustWrite(id: int, fingerprint: string)
    | TrustAudit(id: int)
    | DeviceCreateSite(device: DeviceValues)
    | DeviceCreateInsert(device: DeviceValues)
    | DeviceCreateAudit(id: int)
    | DeviceUpdateSite(id: int, device: DeviceValues)
    | DeviceUpdateWrite(id: int, device: DeviceValues)
    | DeviceUpdateAudit(id: int)
    | DeviceDeleteWrite(id: int)
    | DeviceDeleteAudit(id: int)
    | WakeReadDevice(id: int, api: bool)
    | WakeReadSite(id: int, row: Device, api: bool)
    | WakeCredential(id: int, row: Device, site: Site, api: bool)
    | WakeSend(id: int, row: Device, site: Site, credential: string)
    | WakeRefused(id: int, siteId: int)
    | WakeRecord(id: int, siteId: int, status: WakeStatus)
    | WakeAudit(id: int, status: WakeStatus)
    | PasswordFind(newPassword: string, confirmation: string)
    | PasswordWrite(hash: string)
    | PasswordAudit
    | UserInsert(username: string, hash: string, role: Role)
    | UserAudit(id: int)
    | ResetWrite(username: string, hash: string)
    | ResetAudit
    | SettingsTitle(title: string, cookieSecure: bool)
    | SettingsCookie(cookieSecure: bool)
    | SettingsAudit

  datatype Task =
    | Guard(token: string, csrf: Option<string>, job: Job)
    | LoggingIn(step: LoginPc)
    | Busy(ctx: Ctx, pc: Pc)
    | Finished(response: Response)

  datatype Call =
    | DbAccess(db: DbCall)
    | CheckLogin
    | RecordFailure
    | ClearFailures
    | CreateSession(user: User)
    | LookupSession(token: string)
    | DropSession(token: string)
    | DropPending(token: string)
    | SetPending(token: string, id: int, fingerprint: string)
    | TakePending(token: string, id: int)
    | Seal(plaintext: string)
    | Test(id: int, site: Site, credential: string)
    | Wake(site: Site, device: Device, credential: string)
    | Idle

  datatype Reply =
    | FromDb(row: DbReply)
    | Acknowledged
    | Verdict(allowed: bool)
    | NewToken(token: Option<string>)
    | SessionFound(session: Option<Session>)
    | PendingFound(fingerprint: Option<string>)
    | Sealed(secret: Option<Secret>)
    | Tested(outcome: Result<string, SshError>)
    | Woken(answer: Result<(), SshError>)

  /** What the environment decides at one step: whether the database or the cipher fails, how a
      router behaves and how the connection to it therefore ends, which random texts are drawn, and
      whether a password matches its hash. */
  datatype Env = Env(
    dbFails: bool, sealFails: bool, openFails: bool,
    peer: Peer, tested: Result<string, SshError>, woken: Result<(), SshError>,
    token: string, csrf: string, passwordMatches: bool, hash: string)

  datatype Shared = Shared(store: StoreModel, auth: AuthModel)

  /** One atomic call. */
  function Perform(s: Shared, call: Call, now: nat, env: Env): (Shared, Reply) {
    match call
    case DbAccess(db) =>
      var (store, reply) := Execute(s.store, db, env.dbFails);
      (s.(store := store), FromDb(reply))
    case CheckLogin =>
      (s.(auth := s.auth.(attempts := AfterCheck(s.auth.attempts, CLIENT_KEY, now))),
       Verdict(Admits(s.auth.attempts, CLIENT_KEY, now)))
    case RecordFailure =>
      (s.(auth := s.auth.(attempts := AfterFailure(s.auth.attempts, CLIENT_KEY, now))), Acknowledged)
    case ClearFailures =>
      (s.(auth := s.auth.(attempts := Without(s.auth.attempts, CLIENT_KEY))), Acknowledged)
    case CreateSession(user) =>
      if user.role.None? then (s, NewToken(None))
      else (s.(auth := s.auth.(
                 sessions := s.auth.sessions[env.token := NewSession(user, user.role.value, env.csrf, now)])),
            NewToken(Some(env.token)))
    case LookupSession(token) =>
      (s.(auth := s.auth.(sessions := AfterLookup(s.auth.sessions, token, now))),
       SessionFound(LookupAnswer(s.auth.sessions, token, now)))
    case DropSession(token) =>
      (s.(auth := s.auth.(sessions := Without(s.auth.sessions, token))), Acknowledged)
    case DropPending(token) =>
      (s.(auth := s.auth.(pending := ForgetToken(s.auth.pending, token))), Acknowledged)
    case SetPending(token, id, fingerprint) =>
      (s.(auth := s.auth.(pending := s.auth.pending[(token, id) := fingerprint])), Acknowledged)
    case TakePending(token, id) =>
      (s.(auth := s.auth.(pending := Without(s.auth.pending, (token, id)))),
       PendingFound(if (token, id) in s.auth.pending then Some(s.auth.pending[(token, id)]) else None))
    case Seal(plaintext) =>
      (s, Sealed(if env.sealFails then None else Some(Secret(SECRET_KIND, plaintext))))
    case Test(_, _, _) => (s, Tested(env.tested))
    case Wake(_, _, _) => (s, Woken(env.woken))
    case Idle => (s, Acknowledged)
  }

  function Audit(ctx: Ctx, action: AuditAction, target: Option<int>): Call {
    DbAccess(InsertAuditEvent(AuditEvent(Some(ctx.session.userId), action, target)))
  }

  function IssueLogin(step: LoginPc): Call {
    match step
    case LoginCheck(_) => CheckLogin
    case LoginFind(username) => DbAccess(FindUser(Trim(username)))
    case LoginFailure => RecordFailure
    case LoginFailureAudit => DbAccess(InsertAuditEvent(AuditEvent(None, LoginFailed, None)))
    case LoginReread(username) => DbAccess(FindUser(Trim(username)))
    case LoginCreate(user) => CreateSession(user)
    case LoginClear(_, _) => ClearFailures
    case LoginAudit(userId, _) => DbAccess(InsertAuditEvent(AuditEvent(Some(userId), LoginSucceeded, None)))
  }

  /** The call a handler makes at a program counter. */
  function IssueAt(ctx: Ctx, pc: Pc): Call {
    match pc
    case LogoutSession => DropSession(ctx.token)
    case LogoutPending => DropPending(ctx.token)
    case CreateInsert(values, _) => DbAccess(InsertSite(values))
    case CreateSeal(_, credential) => Seal(credential)
    case CreateStore(id, secret) => DbAccess(UpsertSecret(id, secret))
    case CreateUndo(id) => DbAccess(DeleteSite(id))
    case CreateAudit(id) => Audit(ctx, SiteCreated, Some(id))
    case UpdateRead(id, _, _) => DbAccess(GetSite(id))
    case UpdateWrite(id, _, values, _) => DbAccess(UpdateSite(id, values))
    case UpdateClear(id, _) => DbAccess(ClearFingerprint(id))
    case UpdateSeal(_, credential) => Seal(credential)
    case UpdateStore(id, secret) => DbAccess(UpsertSecret(id, secret))
    case UpdateAudit(id) => Audit(ctx, SiteUpdated, Some(id))
    case DeleteWrite(id) => DbAccess(DeleteSite(id))
    case DeleteAudit(id) => Audit(ctx, SiteDeleted, Some(id))
    case TestRead(id) => DbAccess(GetSite(id))
    case TestCredential(id, _) => DbAccess(GetSecret(id))
    case TestDial(id, site, credential) => Test(id, site, credential)
    case TestPending(id, fingerprint) => SetPending(ctx.token, id, fingerprint)
    case TrustTake(id, _) => TakePending(ctx.token, id)
    case TrustWrite(id, fingerprint) => DbAccess(TrustFingerprint(id, fingerprint))
    case TrustAudit(id) => Audit(ctx, SiteHostKeyTrusted, Some(id))
    case DeviceCreateSite(device) => DbAccess(GetSite(device.siteId))
    case DeviceCreateInsert(device) => DbAccess(InsertDevice(device))
    case DeviceCreateAudit(id) => Audit(ctx, DeviceCreated, Some(id))
    case DeviceUpdateSite(_, device) => DbAccess(GetSite(device.siteId))
    case DeviceUpdateWrite(id, device) => DbAccess(UpdateDevice(id, device))
    case DeviceUpdateAudit(id) => Audit(ctx, DeviceUpdated, Some(id))
    case DeviceDeleteWrite(id) => DbAccess(DeleteDevice(id))
    case DeviceDeleteAudit(id) => Audit(ctx, DeviceDeleted, Some(id))
    case WakeReadDevice(id, _) => DbAccess(GetDevice(id))
    case WakeReadSite(_, row, _) => DbAccess(GetSite(row.siteId))
    case WakeCredential(_, row, _, _) => DbAccess(GetSecret(row.siteId))
    case WakeSend(_, row, site, credential) => Wake(site, row, credential)
    case WakeRefused(id, siteId) => DbAccess(InsertWakeEvent(WakeEvent(Some(ctx.session.userId), id, siteId, Failed)))
    case WakeRecord(id, siteId, status) =>
      DbAccess(InsertWakeEvent(WakeEvent(Some(ctx.session.userId), id, siteId, status)))
    case WakeAudit(id, status) => Audit(ctx, if status.Success? then DeviceWake else DeviceWakeFailed, Some(id))
    case PasswordFind(_, _) => DbAccess(FindUser(ctx.session.username))
    case PasswordWrite(hash) => DbAccess(UpdatePassword(ctx.session.username, hash))
    case PasswordAudit => Audit(ctx, UserPasswordChanged, Some(ctx.session.userId))
    case UserInsert(username, hash, role) => DbAccess(InsertUser(username, hash, role))
    case UserAudit(id) => Audit(ctx, UserCreated, Some(id))
    case ResetWrite(username, hash) => DbAccess(UpdatePassword(username, hash))
    case ResetAudit => Audit(ctx, UserPasswordReset, None)
    case SettingsTitle(title, _) => DbAccess(SetSetting("site_title", title))
    case SettingsCookie(secure) => DbAccess(SetSetting("cookie_secure", if secure then "true" else "false"))
    case SettingsAudit => Audit(ctx, SettingsUpdated, None)
  }

  function Issue(task: Task): Call {
    match task
    case Guard(token, _, _) => LookupSession(token)
    case LoggingIn(step) => IssueLogin(step)
    case Busy(ctx, pc) => IssueAt(ctx, pc)
    case Finished(_) => Idle
  }

  predicate AdminOnly(job: Job) {
    !job.ViewJob? && !job.LogoutJob? && !job.WakeJob? && !job.ChangePasswordJob?
  }

  /** What changing to these values means for the trusted key: the connection target differs. */
  predicate EndpointChanged(before: Site, values: SiteValues) {
    || before.routerHost != values.routerHost || before.sshPort != values.sshPort
    || before.sshUsername != values.sshUsername || before.allowLegacySsh != values.allowLegacySsh
  }

  /** The first program counter of a job whose session, role and CSRF checks passed, or the answer
      when its form is refused. */
  function Enter(ctx: Ctx, job: Job, env: Env): Task {
    match job
    case ViewJob => Finished(Completed)
    case LogoutJob => Busy(ctx, LogoutSession)
    case SiteCreateJob(site, credential) =>
      if site.Ok? then Busy(ctx, CreateInsert(site.value, credential)) else Finished(Rejected)
    case SiteUpdateJob(id, site, credential) => Busy(ctx, UpdateRead(id, site, credential))
    case SiteDeleteJob(id) => Busy(ctx, DeleteWrite(id))
    case SiteTestJob(id) => Busy(ctx, TestRead(id))
    case SiteTrustJob(id, fingerprint) =>
      if fingerprint.Ok? then Busy(ctx, TrustTake(id, fingerprint.value)) else Finished(Rejected)
    case DeviceCreateJob(device) => if device.Ok? then Busy(ctx, DeviceCreateSite(device.value)) else Finished(Rejected)
    case DeviceUpdateJob(id, device) =>
      if device.Ok? then Busy(ctx, DeviceUpdateSite(id, device.value)) else Finished(Rejected)
    case DeviceDeleteJob(id) => Busy(ctx, DeviceDeleteWrite(id))
    case WakeJob(id, api) => Busy(ctx, WakeReadDevice(id, api))
    case ChangePasswordJob(newPassword, confirmation) => Busy(ctx, PasswordFind(newPassword, confirmation))
    case UserCreateJob(username, acceptable, role) =>
      if username.Err? || role.None? || !acceptable then Finished(Rejected)
      else Busy(ctx, UserInsert(username.value, env.hash, role.value))
    case UserResetJob(username, acceptable) =>
      if username.Err? || !acceptable then Finished(Rejected) else Busy(ctx, ResetWrite(username.value, env.hash))
    case SettingsJob(title, secure) =>
      if title.Ok? then Busy(ctx, SettingsTitle(title.value, secure)) else Finished(Rejected)
  }

  function ResumeGuard(token: string, csrf: Option<string>, job: Job, found: Option<Session>, env: Env): Task {
    if found.None? then Finished(LoginPage)
    else if AdminOnly(job) && found.value.role != Admin then Finished(Forbidden)
    else if !job.ViewJob? && csrf != Some(found.value.csrf) then Finished(Forbidden)
    else Enter(Ctx(token, found.value), job, env)
  }

  function ResumeLogin(step: LoginPc, reply: Reply, env: Env): Task {
    match step
    case LoginCheck(username) =>
      if reply == Verdict(true) then LoggingIn(LoginFind(username)) else Finished(Rejected)
    case LoginFind(username) =>
      if && reply.FromDb? && reply.row.UserRow? && reply.row.user.Some?
         && reply.row.user.value.enabled && env.passwordMatches
      then LoggingIn(LoginReread(username)) else LoggingIn(LoginFailure)
    case LoginFailure => LoggingIn(LoginFailureAudit)
    case LoginFailureAudit => Finished(Rejected)
    case LoginReread(_) =>
      if reply.FromDb? && reply.row.UserRow? && reply.row.user.Some? then LoggingIn(LoginCreate(reply.row.user.value))
      else Finished(Rejected)
    case LoginCreate(user) =>
      if reply.NewToken? && reply.token.Some? then LoggingIn(LoginClear(user.id, reply.token.value))
      else Finished(ServerError)
    case LoginClear(userId, token) => LoggingIn(LoginAudit(userId, token))
    case LoginAudit(_, token) => Finished(LoggedIn(token))
  }

  /** The stored credential, if it is there, of the known kind, and opens. */
  function OpenCredential(reply: Reply, env: Env): Option<string> {
    if && reply.FromDb? && reply.row.SecretRow? && reply.row.secret.Some?
       && reply.row.secret.value.kind == SECRET_KIND && !env.openFails
    then Some(reply.row.secret.value.plaintext) else None
  }

  predicate FoundSite(reply: Reply) {
    reply.FromDb? && reply.row.SiteRow? && reply.row.site.Some?
  }

  function Missing(reply: Reply): Response {
    if reply == FromDb(DbFailed) then ServerError else NotFound
  }

  function AfterEndpoint(id: int, credential: string): Pc {
    if credential != [] then UpdateSeal(id, credential) else UpdateAudit(id)
  }

  function ResumeSite(ctx: Ctx, pc: Pc, reply: Reply, env: Env): Task {
    match pc
    case CreateInsert(_, credential) =>
      if reply.FromDb? && reply.row.NewId? then Busy(ctx, CreateSeal(reply.row.id, credential)) else Finished(Rejected)
    case CreateSeal(id, _) =>
      if reply.Sealed? && reply.secret.Some? then Busy(ctx, CreateStore(id, reply.secret.value))
      else Busy(ctx, CreateUndo(id))
    case CreateStore(id, _) => if reply == FromDb(Stored) then Busy(ctx, CreateAudit(id)) else Busy(ctx, CreateUndo(id))
    case CreateUndo(_) => Finished(ServerError)
    case CreateAudit(_) => Finished(Completed)
    case UpdateRead(id, form, credential) =>
      if !FoundSite(reply) then Finished(Missing(reply))
      else if form.Ok? then Busy(ctx, UpdateWrite(id, reply.row.site.value, form.value, credential))
      else Finished(Rejected)
    case UpdateWrite(id, before, values, credential) =>
      if reply == FromDb(DbFailed) then Finished(Rejected)
      else if EndpointChanged(before, values) then Busy(ctx, UpdateClear(id, credential))
      else Busy(ctx, AfterEndpoint(id, credential))
    case UpdateClear(id, credential) => Busy(ctx, AfterEndpoint(id, credential))
    case UpdateSeal(id, _) =>
      if reply.Sealed? && reply.secret.Some? then Busy(ctx, UpdateStore(id, reply.secret.value))
      else Finished(ServerError)
    case UpdateStore(id, _) => if reply == FromDb(Stored) then Busy(ctx, UpdateAudit(id)) else Finished(ServerError)
    case UpdateAudit(_) => Finished(Completed)
    case DeleteWrite(id) =>
      if reply == FromDb(Changed(true)) then Busy(ctx, DeleteAudit(id)) else Finished(Missing(reply))
    case TestRead(id) =>
      if FoundSite(reply) then Busy(ctx, TestCredential(id, reply.row.site.value)) else Finished(Missing(reply))
    case TestCredential(id, site) =>
      (match OpenCredential(reply, env)
       case Some(credential) => Busy(ctx, TestDial(id, site, credential))
       case None => Finished(Rejected))
    case TestDial(id, _, _) =>
      if reply.Tested? && reply.outcome.Ok? then Busy(ctx, TestPending(id, reply.outcome.value)) else Finished(Rejected)
    case TestPending(_, _) => Finished(Completed)
    case TrustTake(id, fingerprint) =>
      if reply == PendingFound(Some(fingerprint)) then Busy(ctx, TrustWrite(id, fingerprint)) else Finished(Rejected)
    case TrustWrite(id, _) =>
      if reply == FromDb(Changed(true)) then Busy(ctx, TrustAudit(id)) else Finished(Missing(reply))
    case _ => Finished(Completed)
  }

  function ResumeDevice(ctx: Ctx, pc: Pc, reply: Reply, env: Env): Task {
    match pc
    case DeviceCreateSite(device) =>
      if FoundSite(reply) then Busy(ctx, DeviceCreateInsert(device)) else Finished(Rejected)
    case DeviceCreateInsert(_) =>
      if reply.FromDb? && reply.row.NewId? then Busy(ctx, DeviceCreateAudit(reply.row.id)) else Finished(Rejected)
    case DeviceUpdateSite(id, device) =>
      if FoundSite(reply) then Busy(ctx, DeviceUpdateWrite(id, device)) else Finished(Rejected)
    case DeviceUpdateWrite(id, _) =>
      if reply == FromDb(Changed(true)) then Busy(ctx, DeviceUpdateAudit(id))
      else if reply == FromDb(DbFailed) then Finished(Rejected) else Finished(NotFound)
    case DeviceDeleteWrite(id) =>
      if reply == FromDb(Changed(true)) then Busy(ctx, DeviceDeleteAudit(id)) else Finished(Missing(reply))
    case WakeReadDevice(id, api) =>
      if !(reply.FromDb? && reply.row.DeviceRow? && reply.row.device.Some?) then Finished(Missing(reply))
      else if !api && !reply.row.device.value.enabled then Finished(Rejected)
      else Busy(ctx, WakeReadSite(id, reply.row.device.value, api))
    case WakeReadSite(id, row, api) =>
      if !FoundSite(reply) then Finished(Missing(reply))
      else if !api && !reply.row.site.value.enabled then Finished(Rejected)
      else if api && (!row.enabled || !reply.row.site.value.enabled) then Finished(PreconditionFailed)
      else Busy(ctx, WakeCredential(id, row, reply.row.site.value, api))
    case WakeCredential(id, row, site, api) =>
      (match OpenCredential(reply, env)
       case Some(credential) => Busy(ctx, WakeSend(id, row, site, credential))
       case None => if api then Finished(PreconditionFailed) else Busy(ctx, WakeRefused(id, row.siteId)))
    case WakeSend(id, row, _, _) =>
      Busy(ctx, WakeRecord(id, row.siteId, if reply.Woken? && reply.answer.Ok? then Success else Failed))
    case WakeRefused(_, _) => Finished(Rejected)
    case WakeRecord(id, _, status) => Busy(ctx, WakeAudit(id, status))
    case _ => Finished(Completed)
  }

  function ResumeAccount(ctx: Ctx, pc: Pc, reply: Reply, env: Env): Task {
    match pc
    case LogoutSession => Busy(ctx, LogoutPending)
    case PasswordFind(newPassword, confirmation) =>
      if reply == FromDb(DbFailed) then Finished(ServerError)
      else if !(reply.FromDb? && reply.row.UserRow? && reply.row.user.Some?) then Finished(Forbidden)
      else if !env.passwordMatches || newPassword != confirmation || !PasswordAcceptable(newPassword) then
        Finished(Rejected)
      else Busy(ctx, PasswordWrite(env.hash))
    case PasswordWrite(_) => if reply == FromDb(Changed(true)) then Busy(ctx, PasswordAudit) else Finished(Rejected)
    case UserInsert(_, _, _) =>
      if reply.FromDb? && reply.row.NewId? then Busy(ctx, UserAudit(reply.row.id)) else Finished(Rejected)
    case ResetWrite(_, _) => if reply == FromDb(Changed(true)) then Busy(ctx, ResetAudit) else Finished(Rejected)
    case SettingsTitle(_, secure) =>
      if reply == FromDb(DbFailed) then Finished(ServerError) else Busy(ctx, SettingsCookie(secure))
    case SettingsCookie(_) => if reply == FromDb(DbFailed) then Finished(ServerError) else Busy(ctx, SettingsAudit)
    case _ => Finished(Completed)
  }

  predicate SitePc(pc: Pc) {
    || pc.CreateInsert? || pc.CreateSeal? || pc.CreateStore? || pc.CreateUndo? || pc.CreateAudit?
    || pc.UpdateRead? || pc.UpdateWrite? || pc.UpdateClear? || pc.UpdateSeal? || pc.UpdateStore? || pc.UpdateAudit?
    || pc.DeleteWrite? || pc.DeleteAudit?
    || pc.TestRead? || pc.TestCredential? || pc.TestDial? || pc.TestPending?
    || pc.TrustTake? || pc.TrustWrite? || pc.TrustAudit?
  }

  predicate DevicePc(pc: Pc) {
    || pc.DeviceCreateSite? || pc.DeviceCreateInsert? || pc.DeviceCreateAudit?
    || pc.DeviceUpdateSite? || pc.DeviceUpdateWrite? || pc.DeviceUpdateAudit?
    || pc.DeviceDeleteWrite? || pc.DeviceDeleteAudit?
    || pc.WakeReadDevice? || pc.WakeReadSite? || pc.WakeCredential? || pc.WakeSend?
    || pc.WakeRefused? || pc.WakeRecord? || pc.WakeAudit?
  }

  function Resume(task: Task, reply: Reply, env: Env): Task {
    match task
    case Guard(token, csrf, job) =>
      if reply.SessionFound? then ResumeGuard(token, csrf, job, reply.session, env) else Finished(ServerError)
    case LoggingIn(step) => ResumeLogin(step, reply, env)
    case Busy(ctx, pc) =>
      if SitePc(pc) then ResumeSite(ctx, pc, reply, env)
      else if DevicePc(pc) then ResumeDevice(ctx, pc, reply, env)
      else ResumeAccount(ctx, pc, reply, env)
    case Finished(_) => task
  }

  function Admit(request: Request): Task {
    match request
    case Login(username) => LoggingIn(LoginCheck(username))
    case WithSession(token, csrf, action) => Guard(token, csrf, Prepare(action))
  }

  /** A step of one task: the handler that made it, its call, the reply, and what it became. */
  datatype Entry = Entry(task: Task, call: Call, reply: Reply, next: Task)

  /** The whole service: shared state, clock, handlers in flight, the record of every step, and the
      session tokens drawn so far. */
  datatype World = World(shared: Shared, now: nat, tasks: map<nat, Task>, log: seq<Entry>, issued: set<string>)

  datatype Event =
    | Arrive(t: nat, request: Request)
    | Advance(t: nat, env: Env)
    | Tick(elapsed: nat)
    | Restart

  /** A handler can take a step; a drawn session token is one never drawn before. */
  predicate Enabled(w: World, t: nat, env: Env) {
    t in w.tasks && !w.tasks[t].Finished? && (Issue(w.tasks[t]).CreateSession? ==> env.token !in w.issued)
  }

  function StepTask(w: World, t: nat, env: Env): World
    requires Enabled(w, t, env)
  {
    var task := w.tasks[t];
    var call := Issue(task);
    var (shared, reply) := Perform(w.shared, call, w.now, env);
    World(shared, w.now, w.tasks[t := Resume(task, reply, env)],
          w.log + [Entry(task, call, reply, Resume(task, reply, env))],
          if call.CreateSession? then w.issued + {env.token} else w.issued)
  }

  /** The service stops gracefully, with no handler in flight, and starts again on the same
      database: what was only in memory is gone. */
  predicate Quiescent(w: World) {
    forall t | t in w.tasks :: w.tasks[t].Finished?
  }

  function Step(w: World, e: Event): World {
    match e
    case Arrive(t, request) => if t in w.tasks then w else w.(tasks := w.tasks[t := Admit(request)])
    case Advance(t, env) => if Enabled(w, t, env) then StepTask(w, t, env) else w
    case Tick(elapsed) => w.(now := w.now + elapsed)
    case Restart => if Quiescent(w) then w.(shared := w.shared.(auth := EMPTY)) else w
  }

  function Run(w: World, es: seq<Event>): World {
    if es == [] then w else Step(Run(w, es[..|es| - 1]), es[|es| - 1])
  }

  /** The record of a run only grows. */
  lemma {:induction false} LogGrows(w: World, es: seq<Event>)
    ensures w.log <= Run(w, es).log
  {
    if es != [] {
      LogGrows(w, es[..|es| - 1]);
    }
  }

  /** The outcome of a connection is what the connection code makes of some router's behaviour. */
  predicate RouterAnswers(call: Call, env: Env) {
    && (call.Test? ==> env.tested == TestExchange(call.site, call.credential, env.peer))
    && (call.Wake? ==> env.woken == WakeExchange(call.site, call.device, call.credential, env.peer).0)
  }

  /** Every connection of the run ended as the connection code says. Results that do not assume this
      hold for arbitrary outcomes. */
  ghost predicate Genuine(w: World, es: seq<Event>) {
    es == [] ||
    var init := es[..|es| - 1];
    var e := es[|es| - 1];
    && Genuine(w, init)
    && (e.Advance? && Enabled(Run(w, init), e.t, e.env) ==> RouterAnswers(Issue(Run(w, init).tasks[e.t]), e.env))
  }

  /** A fresh installation: users and settings were entered from the command line. */
  predicate Fresh(w: World) {
    && w.shared.store.sites == map[] && w.shared.store.devices == map[] && w.shared.store.secrets == map[]
    && w.shared.store.wakeEvents == [] && w.shared.store.auditEvents == []
    && w.shared.store.siteSeq == 0 && w.shared.store.deviceSeq == 0
    && w.shared.auth == EMPTY && w.tasks == map[] && w.log == [] && w.issued == {}
  }
}
