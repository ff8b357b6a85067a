/** The request handlers as they are written: methods that call the database and the authentication
    state in sequence. Run alone, each does exactly what its program counters do one step at a time,
    so the results about interleaved runs are about these handlers. */
module App {
  import opened Results
  import opened Fingerprint
  import opened Records
  import opened Forms
  import opened Auth
  import opened Store
  import opened Handlers
  import opened WellFormed

  /** One step of a handler with nothing in between; a finished handler stays as it is. */
  function Alone(s: Shared, task: Task, now: nat, env: Env): (Shared, Task) {
    var (shared, reply) := Perform(s, Issue(task), now, env);
    (shared, Resume(task, reply, env))
  }

  /** Step k of the trace of a handler left alone, from position i of the choices on. */
  ghost predicate StepAt(trace: seq<(Shared, Task)>, now: nat, envs: seq<Env>, i: nat, k: nat) {
    i + k < |envs| && k + 1 < |trace| && trace[k + 1] == Alone(trace[k].0, trace[k].1, now, envs[i + k])
  }

  ghost predicate IsTrace(
    trace: seq<(Shared, Task)>, s: Shared, task: Task, now: nat, envs: seq<Env>, i: nat, after: Shared, r: Response)
  {
    && i <= |envs| && |trace| == |envs| - i + 1
    && trace[0] == (s, task) && trace[|envs| - i] == (after, Finished(r))
    && forall k: nat :: k < |envs| - i ==> StepAt(trace, now, envs, i, k)
  }

  /** Stepped alone, once for each choice of the environment from position i on, the handler ends in
      this state with this response. */
  ghost predicate EndsAs(s: Shared, task: Task, now: nat, envs: seq<Env>, i: nat, after: Shared, r: Response) {
    exists trace: seq<(Shared, Task)> :: IsTrace(trace, s, task, now, envs, i, after, r)
  }

  /** A finished handler has ended, whatever choices are left over. */
  lemma Ended(s: Shared, r: Response, now: nat, envs: seq<Env>, i: nat)
    requires i <= |envs|
    ensures EndsAs(s, Finished(r), now, envs, i, s, r)
  {
    var trace: seq<(Shared, Task)> := seq(|envs| - i + 1, _ => (s, Finished(r)));
    assert IsTrace(trace, s, Finished(r), now, envs, i, s, r);
  }

  /** One step, and then the rest. */
  lemma StepThen(s: Shared, task: Task, now: nat, envs: seq<Env>, i: nat, after: Shared, r: Response)
    requires i < |envs|
    requires EndsAs(Alone(s, task, now, envs[i]).0, Alone(s, task, now, envs[i]).1, now, envs, i + 1, after, r)
    ensures EndsAs(s, task, now, envs, i, after, r)
  {
    var (mid, next) := Alone(s, task, now, envs[i]);
    var rest :| IsTrace(rest, mid, next, now, envs, i + 1, after, r);
    var trace := [(s, task)] + rest;
    forall k: nat | k < |envs| - i
      ensures StepAt(trace, now, envs, i, k)
    {
      if k > 0 {
        assert StepAt(rest, now, envs, i + 1, k - 1);
      }
    }
    assert IsTrace(trace, s, task, now, envs, i, after, r);
  }

  /** The same, for a step whose result is known. */
  lemma StepInto(
    s: Shared, task: Task, now: nat, envs: seq<Env>, i: nat, mid: Shared, next: Task, after: Shared, r: Response)
    requires i < |envs| && Alone(s, task, now, envs[i]) == (mid, next)
    requires EndsAs(mid, next, now, envs, i + 1, after, r)
    ensures EndsAs(s, task, now, envs, i, after, r)
  {
    StepThen(s, task, now, envs, i, after, r);
  }

  // What one step comes to at the program counters that branch.

  lemma AfterGuard(s: Shared, token: string, csrf: Option<string>, job: Job, now: nat, env: Env)
    ensures Alone(s, Guard(token, csrf, job), now, env) ==
              (s.(auth := s.auth.(sessions := AfterLookup(s.auth.sessions, token, now))),
               ResumeGuard(token, csrf, job, LookupAnswer(s.auth.sessions, token, now), env))
  {
  }

  lemma AfterInsert(s: Shared, ctx: Ctx, values: SiteValues, credential: string, now: nat, env: Env)
    ensures var (store, row) := Execute(s.store, InsertSite(values), env.dbFails);
            Alone(s, Busy(ctx, CreateInsert(values, credential)), now, env) ==
              (s.(store := store), if row.NewId? then Busy(ctx, CreateSeal(row.id, credential)) else Finished(Rejected))
  {
  }

  lemma AfterUpsert(s: Shared, ctx: Ctx, id: int, secret: Secret, now: nat, env: Env)
    ensures var (store, row) := Execute(s.store, UpsertSecret(id, secret), env.dbFails);
            Alone(s, Busy(ctx, CreateStore(id, secret)), now, env) ==
              (s.(store := store), Busy(ctx, if row == Stored then CreateAudit(id) else CreateUndo(id)))
  {
  }

  lemma AfterUpdateRead(
    s: Shared, ctx: Ctx, id: int, form: Result<SiteValues, FormError>, credential: string, now: nat, env: Env)
    ensures var row := Execute(s.store, GetSite(id), env.dbFails).1;
            Alone(s, Busy(ctx, UpdateRead(id, form, credential)), now, env) ==
              (s, if row == DbFailed then Finished(ServerError)
                  else if row.site.None? then Finished(NotFound)
                  else if form.Ok? then Busy(ctx, UpdateWrite(id, row.site.value, form.value, credential))
                  else Finished(Rejected))
  {
  }

  lemma AfterUpdateWrite(
    s: Shared, ctx: Ctx, id: int, before: Site, values: SiteValues, credential: string, now: nat, env: Env)
    ensures var (store, row) := Execute(s.store, UpdateSite(id, values), env.dbFails);
            Alone(s, Busy(ctx, UpdateWrite(id, before, values, credential)), now, env) ==
              (s.(store := store),
               if row == DbFailed then Finished(Rejected)
               else if EndpointChanged(before, values) then Busy(ctx, UpdateClear(id, credential))
               else Busy(ctx, AfterEndpoint(id, credential)))
  {
  }

  lemma AfterUpdateClear(s: Shared, ctx: Ctx, id: int, credential: string, now: nat, env: Env)
    ensures Alone(s, Busy(ctx, UpdateClear(id, credential)), now, env) ==
              (s.(store := Execute(s.store, ClearFingerprint(id), env.dbFails).0),
               Busy(ctx, AfterEndpoint(id, credential)))
  {
  }

  lemma AfterUpdateStore(s: Shared, ctx: Ctx, id: int, secret: Secret, now: nat, env: Env)
    ensures var (store, row) := Execute(s.store, UpsertSecret(id, secret), env.dbFails);
            Alone(s, Busy(ctx, UpdateStore(id, secret)), now, env) ==
              (s.(store := store), if row == Stored then Busy(ctx, UpdateAudit(id)) else Finished(ServerError))
  {
  }

  lemma AfterTake(s: Shared, ctx: Ctx, id: int, fingerprint: string, now: nat, env: Env)
    ensures var waiting := Waits(s.auth.pending, ctx.token, id, fingerprint);
            Alone(s, Busy(ctx, TrustTake(id, fingerprint)), now, env) ==
              (s.(auth := s.auth.(pending := Without(s.auth.pending, (ctx.token, id)))),
               if waiting then Busy(ctx, TrustWrite(id, fingerprint)) else Finished(Rejected))
  {
  }

  lemma AfterTrustWrite(s: Shared, ctx: Ctx, id: int, fingerprint: string, now: nat, env: Env)
    ensures var (store, row) := Execute(s.store, TrustFingerprint(id, fingerprint), env.dbFails);
            Alone(s, Busy(ctx, TrustWrite(id, fingerprint)), now, env) ==
              (s.(store := store), AfterChange(ctx, TrustAudit(id), row, ServerError))
  {
  }

  /** Where a handler goes after its one write. */
  function AfterChange(ctx: Ctx, audit: Pc, row: DbReply, failure: Response): Task {
    if row == Changed(true) then Busy(ctx, audit)
    else Finished(if row == DbFailed then failure else NotFound)
  }

  class Server {
    const db: Db
    const auth: AuthState

    constructor (db: Db, auth: AuthState)
      ensures this.db == db && this.auth == auth
    {
      this.db, this.auth := db, auth;
    }

    ghost function Snapshot(): Shared
      reads db, auth
    {
      Shared(db.Model(), auth.Model())
    }

    /** The session, role and CSRF checks every handler starts with. */
    method Admitted(token: string, csrf: Option<string>, job: Job, now: nat, env: Env)
      returns (r: Result<Ctx, Response>)
      modifies auth`sessions
      ensures Alone(old(Snapshot()), Guard(token, csrf, job), now, env) ==
                (Snapshot(), match r case Ok(ctx) => Enter(ctx, job, env) case Err(response) => Finished(response))
      ensures r.Ok? <==> MayEnter(old(auth.sessions), token, csrf, job, now)
      ensures r.Ok? ==> r.value == Ctx(token, old(auth.sessions)[token])
      ensures r.Err? ==> r.error == LoginPage || r.error == Forbidden
    {
      AfterGuard(Snapshot(), token, csrf, job, now, env);
      var session := auth.GetSession(token, now);
      if session.None? {
        return Err(LoginPage);
      }
      if AdminOnly(job) && session.value.role != Admin {
        return Err(Forbidden);
      }
      if !job.ViewJob? && csrf != Some(session.value.csrf) {
        return Err(Forbidden);
      }
      return Ok(Ctx(token, session.value));
    }

    /** Completed exactly when the request is let in, the form is accepted, the name is free and no
        call fails; then the row and its credential are there. A failure after the insert takes the
        row back, if the calls that must work for that do. */
    method SiteCreate(token: string, csrf: string, form: SiteForm, now: nat, envs: seq<Env>) returns (r: Response)
      requires |envs| == 5
      modifies db, auth
      ensures EndsAs(old(Snapshot()), Admit(WithSession(token, Some(csrf), Action.SiteCreate(form))), now, envs, 0,
                     Snapshot(), r)
      ensures if && MayEnter(old(auth.sessions), token, Some(csrf), Prepare(Action.SiteCreate(form)), now)
                 && ValidateSiteForm(form, true).Ok?
              then CreationDone(old(db.Model()), db.Model(), ValidateSiteForm(form, true).value, form.sshCredential,
                                envs, r)
              else !r.Completed? && !r.ServerError? && db.Model() == old(db.Model())
    {
      var job := SiteCreateJob(ValidateSiteForm(form, true), form.sshCredential);
      var admitted := Admitted(token, Some(csrf), job, now, envs[0]);
      if admitted.Err? {
        r := admitted.error;
        Ended(Snapshot(), r, now, envs, 1);
      } else if job.site.Err? {
        r := Rejected;
        Ended(Snapshot(), r, now, envs, 1);
      } else {
        r := InsertWithCredential(admitted.value, job.site.value, form.sshCredential, now, envs);
      }
      StepThen(old(Snapshot()), Admit(WithSession(token, Some(csrf), Action.SiteCreate(form))), now, envs, 0,
               Snapshot(), r);
    }

    /** From `insert_site` on. */
    method InsertWithCredential(ctx: Ctx, values: SiteValues, credential: string, now: nat, envs: seq<Env>)
      returns (r: Response)
      requires |envs| == 5
      modifies db
      ensures EndsAs(old(Snapshot()), Busy(ctx, CreateInsert(values, credential)), now, envs, 1, Snapshot(), r)
      ensures CreationDone(old(db.Model()), db.Model(), values, credential, envs, r)
    {
      var inserted := InsertRow(ctx, values, credential, now, envs[1]);
      if !inserted.NewId? {
        r := Rejected;
        Ended(Snapshot(), r, now, envs, 2);
      } else {
        ghost var during := db.Model();
        r := StoreCredential(ctx, inserted.id, credential, now, envs);
        CreationOutcome(old(db.Model()), during, db.Model(), values, credential);
      }
      StepThen(old(Snapshot()), Busy(ctx, CreateInsert(values, credential)), now, envs, 1, Snapshot(), r);
    }

    method InsertRow(ctx: Ctx, values: SiteValues, credential: string, now: nat, env: Env) returns (row: DbReply)
      modifies db
      ensures Alone(old(Snapshot()), Busy(ctx, CreateInsert(values, credential)), now, env) ==
                (Snapshot(), if row.NewId? then Busy(ctx, CreateSeal(row.id, credential)) else Finished(Rejected))
      ensures row.NewId? <==> !NameTaken(old(db.sites), old(db.siteSeq) + 1, values.name) && !env.dbFails
      ensures row.NewId? ==> row.id == old(db.siteSeq) + 1 && Inserted(old(db.Model()), db.Model(), values)
      ensures !row.NewId? ==> db.Model() == old(db.Model())
    {
      AfterInsert(Snapshot(), ctx, values, credential, now, env);
      row := db.InsertSite(values, env.dbFails);
    }

    /** From encrypting the credential on: store it, or take the new row back. */
    method StoreCredential(ctx: Ctx, id: int, credential: string, now: nat, envs: seq<Env>) returns (r: Response)
      requires |envs| == 5 && id in db.sites
      modifies db
      ensures EndsAs(old(Snapshot()), Busy(ctx, CreateSeal(id, credential)), now, envs, 2, Snapshot(), r)
      ensures r == if !envs[2].sealFails && !envs[3].dbFails then Completed else ServerError
      ensures r.Completed? ==> StoredTo(old(db.Model()), db.Model(), id, Secret(SECRET_KIND, credential))
      ensures r.ServerError? && !envs[3].dbFails && !envs[4].dbFails ==> TakenBack(old(db.Model()), db.Model(), id)
    {
      if envs[2].sealFails {
        r := UndoCreation(ctx, id, now, envs, 3);
      } else {
        r := StoreOrUndo(ctx, id, Secret(SECRET_KIND, credential), now, envs);
      }
      StepThen(old(Snapshot()), Busy(ctx, CreateSeal(id, credential)), now, envs, 2, Snapshot(), r);
    }

    method StoreOrUndo(ctx: Ctx, id: int, secret: Secret, now: nat, envs: seq<Env>) returns (r: Response)
      requires |envs| == 5 && id in db.sites
      modifies db
      ensures EndsAs(old(Snapshot()), Busy(ctx, CreateStore(id, secret)), now, envs, 3, Snapshot(), r)
      ensures r == if !envs[3].dbFails then Completed else ServerError
      ensures r.Completed? ==> StoredTo(old(db.Model()), db.Model(), id, secret)
      ensures r.ServerError? && !envs[4].dbFails ==> TakenBack(old(db.Model()), db.Model(), id)
    {
      AfterUpsert(Snapshot(), ctx, id, secret, now, envs[3]);
      var stored := db.UpsertSecret(id, secret, envs[3].dbFails);
      if stored != Stored {
        r := UndoCreation(ctx, id, now, envs, 4);
      } else {
        RecordAudit(ctx, CreateAudit(id), SiteCreated, Some(id), now, envs, 4);
        r := Completed;
      }
      StepThen(old(Snapshot()), Busy(ctx, CreateStore(id, secret)), now, envs, 3, Snapshot(), r);
    }

    /** The compensating delete; its own failure is not looked at. */
    method UndoCreation(ctx: Ctx, id: int, now: nat, envs: seq<Env>, i: nat) returns (r: Response)
      requires i < |envs| && id in db.sites
      modifies db
      ensures r == ServerError
      ensures EndsAs(old(Snapshot()), Busy(ctx, CreateUndo(id)), now, envs, i, Snapshot(), r)
      ensures !envs[i].dbFails ==> TakenBack(old(db.Model()), db.Model(), id)
    {
      var _ := db.DeleteSite(id, envs[i].dbFails);
      Ended(Snapshot(), ServerError, now, envs, i + 1);
      r := ServerError;
      StepThen(old(Snapshot()), Busy(ctx, CreateUndo(id)), now, envs, i, Snapshot(), r);
    }

    /** The last step of every handler that changed something; its own failure is not looked at. */
    method RecordAudit(ctx: Ctx, pc: Pc, action: AuditAction, target: Option<int>, now: nat, envs: seq<Env>, i: nat)
      requires i < |envs| && AuditPc(pc) && IssueAt(ctx, pc) == Audit(ctx, action, target)
      modifies db
      ensures EndsAs(old(Snapshot()), Busy(ctx, pc), now, envs, i, Snapshot(), Completed)
      ensures SameTables(old(db.Model()), db.Model()) && db.wakeEvents == old(db.wakeEvents)
    {
      var _ := db.InsertAuditEvent(AuditEvent(Some(ctx.session.userId), action, target), envs[i].dbFails);
      Ended(Snapshot(), Completed, now, envs, i + 1);
      StepThen(old(Snapshot()), Busy(ctx, pc), now, envs, i, Snapshot(), Completed);
    }

    /** Completed exactly when the request is let in, the form is accepted and no call it looks at
        fails. Fingerprints waiting for a decision stay, also those seen at the old endpoint. */
    method SiteUpdate(token: string, csrf: string, id: int, form: SiteForm, now: nat, envs: seq<Env>)
      returns (r: Response)
      requires |envs| == 7
      modifies db, auth
      ensures EndsAs(old(Snapshot()), Admit(WithSession(token, Some(csrf), Action.SiteUpdate(id, form))), now, envs, 0,
                     Snapshot(), r)
      ensures if && MayEnter(old(auth.sessions), token, Some(csrf), Prepare(Action.SiteUpdate(id, form)), now)
                 && ValidateSiteForm(form, false).Ok?
              then UpdateDone(old(db.Model()), db.Model(), id, ValidateSiteForm(form, false).value, form.sshCredential,
                              envs, r)
              else !r.Completed? && db.Model() == old(db.Model())
      ensures auth.pendingFingerprints == old(auth.pendingFingerprints)
    {
      var job := SiteUpdateJob(id, ValidateSiteForm(form, false), form.sshCredential);
      var admitted := Admitted(token, Some(csrf), job, now, envs[0]);
      if admitted.Err? {
        r := admitted.error;
        Ended(Snapshot(), r, now, envs, 1);
      } else {
        r := ReadAndUpdate(admitted.value, id, job.site, form.sshCredential, now, envs);
      }
      StepThen(old(Snapshot()), Admit(WithSession(token, Some(csrf), Action.SiteUpdate(id, form))), now, envs, 0,
               Snapshot(), r);
    }

    /** From `get_site` on: the row read here decides later whether the endpoint changed. */
    method ReadAndUpdate(
      ctx: Ctx, id: int, form: Result<SiteValues, FormError>, credential: string, now: nat, envs: seq<Env>)
      returns (r: Response)
      requires |envs| == 7
      modifies db
      ensures EndsAs(old(Snapshot()), Busy(ctx, UpdateRead(id, form, credential)), now, envs, 1, Snapshot(), r)
      ensures if form.Ok? then UpdateDone(old(db.Model()), db.Model(), id, form.value, credential, envs, r)
              else !r.Completed? && db.Model() == old(db.Model())
    {
      AfterUpdateRead(Snapshot(), ctx, id, form, credential, now, envs[1]);
      var found := db.GetSite(id, envs[1].dbFails);
      if found == DbFailed {
        r := ServerError;
        Ended(Snapshot(), r, now, envs, 2);
      } else if found.site.None? {
        r := NotFound;
        Ended(Snapshot(), r, now, envs, 2);
      } else if form.Err? {
        r := Rejected;
        Ended(Snapshot(), r, now, envs, 2);
      } else {
        r := WriteUpdate(ctx, id, found.site.value, form.value, credential, now, envs);
      }
      StepThen(old(Snapshot()), Busy(ctx, UpdateRead(id, form, credential)), now, envs, 1, Snapshot(), r);
    }

    /** From `update_site` on: write, clear the key if the endpoint changed, store a new credential. */
    method WriteUpdate(
      ctx: Ctx, id: int, before: Site, values: SiteValues, credential: string, now: nat, envs: seq<Env>)
      returns (r: Response)
      requires |envs| == 7 && id in db.sites && db.sites[id] == before && !envs[1].dbFails
      modifies db
      ensures EndsAs(old(Snapshot()), Busy(ctx, UpdateWrite(id, before, values, credential)), now, envs, 2, Snapshot(),
                     r)
      ensures UpdateDone(old(db.Model()), db.Model(), id, values, credential, envs, r)
    {
      AfterUpdateWrite(Snapshot(), ctx, id, before, values, credential, now, envs[2]);
      var written := db.UpdateSite(id, values, envs[2].dbFails);
      if written == DbFailed {
        r := Rejected;
        Ended(Snapshot(), r, now, envs, 3);
      } else {
        r := FinishUpdate(ctx, id, EndpointChanged(before, values), credential, now, envs);
      }
      StepThen(old(Snapshot()), Busy(ctx, UpdateWrite(id, before, values, credential)), now, envs, 2, Snapshot(), r);
    }

    /** Once the row is written: clear the key if the endpoint changed, then see to the credential. */
    method FinishUpdate(ctx: Ctx, id: int, moved: bool, credential: string, now: nat, envs: seq<Env>)
      returns (r: Response)
      requires |envs| == 7 && id in db.sites
      modifies db
      ensures r.Completed? <==> CredentialWorks(credential, envs, if moved then 4 else 3)
      ensures EndsAs(old(Snapshot()),
                     Busy(ctx, if moved then UpdateClear(id, credential) else AfterEndpoint(id, credential)),
                     now, envs, 3, Snapshot(), r)
      ensures db.sites == if moved && !envs[3].dbFails then old(db.sites)[id := old(db.sites)[id].(fingerprint := None)]
                          else old(db.sites)
      ensures db.secrets == SecretsAfter(old(db.secrets), id, credential, r)
    {
      if moved {
        AfterUpdateClear(Snapshot(), ctx, id, credential, now, envs[3]);
        var _ := db.ClearSiteFingerprint(id, envs[3].dbFails);
        r := ReplaceCredential(ctx, id, credential, now, envs, 4);
        StepThen(old(Snapshot()), Busy(ctx, UpdateClear(id, credential)), now, envs, 3, Snapshot(), r);
      } else {
        r := ReplaceCredential(ctx, id, credential, now, envs, 3);
      }
    }

    /** A credential left empty in the form is kept. */
    method ReplaceCredential(ctx: Ctx, id: int, credential: string, now: nat, envs: seq<Env>, i: nat)
      returns (r: Response)
      requires i + 3 <= |envs| && id in db.sites
      modifies db
      ensures EndsAs(old(Snapshot()), Busy(ctx, AfterEndpoint(id, credential)), now, envs, i, Snapshot(), r)
      ensures r.Completed? <==> CredentialWorks(credential, envs, i)
      ensures db.sites == old(db.sites)
      ensures db.secrets == SecretsAfter(old(db.secrets), id, credential, r)
    {
      if credential == [] {
        r := Completed;
        RecordAudit(ctx, UpdateAudit(id), SiteUpdated, Some(id), now, envs, i);
      } else {
        if envs[i].sealFails {
          r := ServerError;
          Ended(Snapshot(), r, now, envs, i + 1);
        } else {
          r := StoreReplacement(ctx, id, Secret(SECRET_KIND, credential), now, envs, i + 1);
        }
        StepThen(old(Snapshot()), Busy(ctx, UpdateSeal(id, credential)), now, envs, i, Snapshot(), r);
      }
    }

    method StoreReplacement(ctx: Ctx, id: int, secret: Secret, now: nat, envs: seq<Env>, i: nat) returns (r: Response)
      requires i + 2 <= |envs| && id in db.sites
      modifies db
      ensures r.Completed? <==> !envs[i].dbFails
      ensures EndsAs(old(Snapshot()), Busy(ctx, UpdateStore(id, secret)), now, envs, i, Snapshot(), r)
      ensures db.sites == old(db.sites)
      ensures db.secrets == if r.Completed? then old(db.secrets)[id := secret] else old(db.secrets)
    {
      AfterUpdateStore(Snapshot(), ctx, id, secret, now, envs[i]);
      var stored := db.UpsertSecret(id, secret, envs[i].dbFails);
      if stored != Stored {
        r := ServerError;
        Ended(Snapshot(), r, now, envs, i + 1);
      } else {
        RecordAudit(ctx, UpdateAudit(id), SiteUpdated, Some(id), now, envs, i + 1);
        r := Completed;
      }
      StepThen(old(Snapshot()), Busy(ctx, UpdateStore(id, secret)), now, envs, i, Snapshot(), r);
    }

    /** Succeeds exactly when the request is let in, the text submitted is a spelling of the
        fingerprint waiting for this session and site, and the site is there to be written. */
    method SiteTrust(token: string, csrf: string, id: int, fingerprint: string, now: nat, envs: seq<Env>)
      returns (r: Response)
      requires |envs| == 4
      modifies db, auth
      ensures EndsAs(old(Snapshot()), Admit(WithSession(token, Some(csrf), Action.SiteTrust(id, fingerprint))), now,
                     envs, 0, Snapshot(), r)
      ensures r.Completed? <==>
                && MayEnter(old(auth.sessions), token, Some(csrf), Prepare(Action.SiteTrust(id, fingerprint)), now)
                && ValidateFingerprint(fingerprint).Ok?
                && Waits(old(auth.pendingFingerprints), token, id, ValidateFingerprint(fingerprint).value)
                && id in old(db.sites) && !envs[2].dbFails
      ensures if r.Completed? then TrustedAs(old(db.sites), db.sites, id, ValidateFingerprint(fingerprint).value)
              else db.sites == old(db.sites)
      ensures r.Completed? ==> (token, id) !in auth.pendingFingerprints
    {
      var job := SiteTrustJob(id, ValidateFingerprint(fingerprint));
      var admitted := Admitted(token, Some(csrf), job, now, envs[0]);
      if admitted.Err? {
        r := admitted.error;
        Ended(Snapshot(), r, now, envs, 1);
      } else if job.fingerprint.Err? {
        r := Rejected;
        Ended(Snapshot(), r, now, envs, 1);
      } else {
        r := TakeAndTrust(admitted.value, id, job.fingerprint.value, now, envs);
      }
      StepThen(old(Snapshot()), Admit(WithSession(token, Some(csrf), Action.SiteTrust(id, fingerprint))), now, envs, 0,
               Snapshot(), r);
    }

    /** From taking the waiting fingerprint on; a mismatch has used it up. */
    method TakeAndTrust(ctx: Ctx, id: int, normalized: string, now: nat, envs: seq<Env>) returns (r: Response)
      requires |envs| == 4
      modifies db, auth`pendingFingerprints
      ensures EndsAs(old(Snapshot()), Busy(ctx, TrustTake(id, normalized)), now, envs, 1, Snapshot(), r)
      ensures r.Completed? <==>
                && Waits(old(auth.pendingFingerprints), ctx.token, id, normalized)
                && id in old(db.sites) && !envs[2].dbFails
      ensures if r.Completed? then TrustedAs(old(db.sites), db.sites, id, normalized) else db.sites == old(db.sites)
      ensures (ctx.token, id) !in auth.pendingFingerprints
    {
      AfterTake(Snapshot(), ctx, id, normalized, now, envs[1]);
      var pending := auth.TakePendingFingerprint(ctx.token, id);
      if pending != Some(normalized) {
        r := Rejected;
        Ended(Snapshot(), r, now, envs, 2);
      } else {
        r := WriteTrust(ctx, id, normalized, now, envs);
      }
      StepThen(old(Snapshot()), Busy(ctx, TrustTake(id, normalized)), now, envs, 1, Snapshot(), r);
    }

    method WriteTrust(ctx: Ctx, id: int, normalized: string, now: nat, envs: seq<Env>) returns (r: Response)
      requires |envs| == 4
      modifies db
      ensures EndsAs(old(Snapshot()), Busy(ctx, TrustWrite(id, normalized)), now, envs, 2, Snapshot(), r)
      ensures r.Completed? <==> id in old(db.sites) && !envs[2].dbFails
      ensures if r.Completed? then TrustedAs(old(db.sites), db.sites, id, normalized) else db.sites == old(db.sites)
    {
      var written := TrustRow(ctx, id, normalized, now, envs[2]);
      r := AnswerChange(ctx, TrustAudit(id), SiteHostKeyTrusted, id, written, ServerError, now, envs, 3);
      StepThen(old(Snapshot()), Busy(ctx, TrustWrite(id, normalized)), now, envs, 2, Snapshot(), r);
    }

    method TrustRow(ctx: Ctx, id: int, normalized: string, now: nat, env: Env) returns (written: DbReply)
      modifies db
      ensures Alone(old(Snapshot()), Busy(ctx, TrustWrite(id, normalized)), now, env) ==
                (Snapshot(), AfterChange(ctx, TrustAudit(id), written, ServerError))
      ensures written == Changed(true) <==> id in old(db.sites) && !env.dbFails
      ensures written == Changed(true) ==> TrustedAs(old(db.sites), db.sites, id, normalized)
      ensures written != Changed(true) ==> db.sites == old(db.sites)
    {
      AfterTrustWrite(Snapshot(), ctx, id, normalized, now, env);
      TrustWrites(db.Model(), id, normalized, env.dbFails);
      written := db.TrustSiteFingerprint(id, normalized, env.dbFails);
    }

    /** How a handler ends after its one write: an audit event, or the error. */
    method AnswerChange(ctx: Ctx, pc: Pc, action: AuditAction, target: int, written: DbReply, failure: Response,
                        now: nat, envs: seq<Env>, i: nat)
      returns (r: Response)
      requires i < |envs| && AuditPc(pc) && IssueAt(ctx, pc) == Audit(ctx, action, Some(target)) && failure != Completed
      modifies db
      ensures EndsAs(old(Snapshot()), AfterChange(ctx, pc, written, failure), now, envs, i, Snapshot(), r)
      ensures r.Completed? <==> written == Changed(true)
      ensures SameTables(old(db.Model()), db.Model()) && db.wakeEvents == old(db.wakeEvents)
      ensures !r.Completed? ==> db.Model() == old(db.Model())
    {
      if written == Changed(true) {
        r := Completed;
        RecordAudit(ctx, pc, action, Some(target), now, envs, i);
      } else {
        r := if written == DbFailed then failure else NotFound;
        Ended(Snapshot(), r, now, envs, i);
      }
    }

    /** The stored credential of a site, opened. */
    method SiteCredential(id: int, env: Env) returns (r: Option<string>)
      ensures r == if CredentialOpens(db.secrets, id, env) then Some(db.secrets[id].plaintext) else None
    {
      var row := db.GetSecret(id, env.dbFails);
      if row == DbFailed || row.secret.None? {
        return None;
      }
      if row.secret.value.kind != SECRET_KIND || env.openFails {
        return None;
      }
      return Some(row.secret.value.plaintext);
    }
  }

  /** The site has a credential of the known kind, and reading and opening it works. */
  predicate CredentialOpens(secrets: map<int, Secret>, id: int, env: Env) {
    !env.dbFails && id in secrets && secrets[id].kind == SECRET_KIND && !env.openFails
  }

  /** What lets a request in: a live session, the administrator's role where it is needed, and the
      session's CSRF text with everything that is not just a page. */
  predicate MayEnter(sessions: Sessions, token: string, csrf: Option<string>, job: Job, now: nat) {
    && Resolves(sessions, token, now)
    && (AdminOnly(job) ==> sessions[token].role == Admin)
    && (!job.ViewJob? ==> csrf == Some(sessions[token].csrf))
  }

  /** A new site's name is free and neither the database nor the cipher fails on the way. */
  predicate CreationWorks(s: StoreModel, values: SiteValues, envs: seq<Env>)
    requires |envs| == 5
  {
    !NameTaken(s.sites, s.siteSeq + 1, values.name) && !envs[1].dbFails && !envs[2].sealFails && !envs[3].dbFails
  }

  /** What a creation with accepted values comes to: completed exactly when all works; refused without
      change when the insert fails; and otherwise the row is taken back, if the calls that must work
      for that do. */
  ghost predicate CreationDone(
    before: StoreModel, after: StoreModel, values: SiteValues, credential: string, envs: seq<Env>, r: Response)
    requires |envs| == 5
  {
    && (r.Completed? <==> CreationWorks(before, values, envs))
    && (r.Completed? ==> CreatedWith(before, after, values, credential))
    && (r.ServerError? && KeysOk(before) && !envs[3].dbFails && !envs[4].dbFails ==> SameTables(before, after))
    && (r.Completed? || r.ServerError? || (r == Rejected && after == before))
  }

  /** The credential step of an update, whose calls start at choice i, has nothing to do or works. */
  predicate CredentialWorks(credential: string, envs: seq<Env>, i: nat)
    requires i + 2 <= |envs|
  {
    credential == [] || (!envs[i].sealFails && !envs[i + 1].dbFails)
  }

  /** A credential is replaced only by a completed update that brings one. */
  function SecretsAfter(before: map<int, Secret>, id: int, credential: string, r: Response): map<int, Secret> {
    if r.Completed? && credential != [] then before[id := Secret(SECRET_KIND, credential)] else before
  }

  /** What an update with accepted values comes to: completed exactly when all works; no other site is
      touched, and a credential only by a completed update that brings one. */
  ghost predicate UpdateDone(
    before: StoreModel, after: StoreModel, id: int, values: SiteValues, credential: string, envs: seq<Env>, r: Response)
    requires |envs| == 7
  {
    && (r.Completed? <==> UpdateWorks(before.sites, id, values, credential, envs))
    && (r.Completed? ==>
          && id in before.sites && id in after.sites
          && UpdatedTo(before.sites[id], after.sites[id], values, !envs[3].dbFails))
    && SameElsewhere(before.sites, after.sites, id)
    && after.secrets == SecretsAfter(before.secrets, id, credential, r)
  }

  /** The edited site exists, its new name is free, and nothing fails that is looked at. */
  predicate UpdateWorks(sites: map<int, Site>, id: int, values: SiteValues, credential: string, envs: seq<Env>)
    requires |envs| == 7
  {
    && !envs[1].dbFails && id in sites && !envs[2].dbFails && !NameTaken(sites, id, values.name)
    && CredentialWorks(credential, envs, if EndpointChanged(sites[id], values) then 4 else 3)
  }

  predicate AuditPc(pc: Pc) {
    || pc.CreateAudit? || pc.UpdateAudit? || pc.DeleteAudit? || pc.TrustAudit?
    || pc.DeviceCreateAudit? || pc.DeviceUpdateAudit? || pc.DeviceDeleteAudit? || pc.WakeAudit?
  }

  /** This fingerprint waits for a decision in this session about this site. */
  predicate Waits(pending: Pending, token: string, id: int, fingerprint: string) {
    (token, id) in pending && pending[(token, id)] == fingerprint
  }

  /** The one site has this trusted key now; nothing else changed. */
  predicate TrustedAs(before: map<int, Site>, after: map<int, Site>, id: int, fingerprint: string) {
    id in before && after == before[id := before[id].(fingerprint := Some(fingerprint))]
  }

  lemma TrustWrites(s: StoreModel, id: int, fingerprint: string, fails: bool)
    ensures var (after, row) := Execute(s, TrustFingerprint(id, fingerprint), fails);
            && (row == Changed(true) <==> id in s.sites && !fails)
            && (row == Changed(true) ==> TrustedAs(s.sites, after.sites, id, fingerprint))
            && (row != Changed(true) ==> after == s)
  {
  }

  /** Exactly the texts that stand for the observed digest match the fingerprint waiting for it. */
  lemma TrustMatchesExactly(pending: Pending, token: string, id: int, hash: Hash, input: string)
    requires Waits(pending, token, id, PrintFingerprint(hash))
    ensures ValidateFingerprint(input).Ok? && Waits(pending, token, id, ValidateFingerprint(input).value) <==>
              StandsFor(input, hash)
  {
    ValidateFingerprintExact(input, hash);
  }

  /** The row as edited; its key is gone exactly when the endpoint changed and clearing worked. The
      failure of the clearing call is not looked at, so then the old key stays. */
  predicate UpdatedTo(before: Site, after: Site, values: SiteValues, clearWorks: bool) {
    after == EditedSite(before, values).(
      fingerprint := if EndpointChanged(before, values) && clearWorks then None else before.fingerprint)
  }

  ghost predicate SameElsewhere(before: map<int, Site>, after: map<int, Site>, id: int) {
    forall other :: other != id ==>
                      (other in after <==> other in before) && (other in after ==> after[other] == before[other])
  }

  predicate Inserted(before: StoreModel, after: StoreModel, values: SiteValues) {
    after == before.(sites := before.sites[before.siteSeq + 1 := NewSite(values)], siteSeq := before.siteSeq + 1)
  }

  predicate StoredTo(before: StoreModel, after: StoreModel, id: int, secret: Secret) {
    after.sites == before.sites && after.devices == before.devices && after.secrets == before.secrets[id := secret]
  }

  predicate TakenBack(before: StoreModel, after: StoreModel, id: int) {
    && after.sites == before.sites - {id} && after.secrets == before.secrets - {id}
    && after.devices == DevicesElsewhere(before.devices, id)
  }

  function DevicesElsewhere(devices: map<int, Device>, id: int): map<int, Device> {
    map d | d in devices && devices[d].siteId != id :: devices[d]
  }

  /** The new site is the next id's, with the validated values, no trusted key, and its credential. */
  predicate CreatedWith(before: StoreModel, after: StoreModel, values: SiteValues, credential: string) {
    var id := before.siteSeq + 1;
    && after.sites == before.sites[id := NewSite(values)]
    && after.secrets == before.secrets[id := Secret(SECRET_KIND, credential)]
    && after.devices == before.devices
  }

  predicate SameTables(before: StoreModel, after: StoreModel) {
    after.sites == before.sites && after.secrets == before.secrets && after.devices == before.devices
  }

  /** Storing the credential completes the creation; taking the new row back restores the tables,
      since nothing can refer to an id not given out before. */
  lemma CreationOutcome(
    before: StoreModel, during: StoreModel, after: StoreModel, values: SiteValues, credential: string)
    requires Inserted(before, during, values)
    ensures StoredTo(during, after, before.siteSeq + 1, Secret(SECRET_KIND, credential)) ==>
              CreatedWith(before, after, values, credential)
    ensures KeysOk(before) && TakenBack(during, after, before.siteSeq + 1) ==> SameTables(before, after)
  {
    var id := before.siteSeq + 1;
    if KeysOk(before) && TakenBack(during, after, id) {
      assert id !in before.sites && id !in before.secrets;
      assert forall d :: d in before.devices ==> before.devices[d].siteId != id;
      assert after.sites == before.sites;
      assert after.devices == before.devices;
    }
  }
}
