/** Deleting a site, and testing the connection to its router. */
module AppSites {
  import opened Results
  import opened Records
  import opened Ssh
  import opened Auth
  import opened Store
  import opened Handlers
  import opened App

  lemma AfterDelete(s: Shared, ctx: Ctx, id: int, now: nat, env: Env)
    ensures var (store, row) := Execute(s.store, DbCall.DeleteSite(id), env.dbFails);
            Alone(s, Busy(ctx, DeleteWrite(id)), now, env) ==
              (s.(store := store), AfterChange(ctx, DeleteAudit(id), row, ServerError))
  {
  }

  lemma AfterTestRead(s: Shared, ctx: Ctx, id: int, now: nat, env: Env)
    ensures var row := Execute(s.store, DbCall.GetSite(id), env.dbFails).1;
            Alone(s, Busy(ctx, TestRead(id)), now, env) ==
              (s, if row == DbFailed then Finished(ServerError)
                  else if row.site.None? then Finished(NotFound)
                  else Busy(ctx, TestCredential(id, row.site.value)))
  {
  }

  lemma AfterTestCredential(s: Shared, ctx: Ctx, id: int, site: Site, now: nat, env: Env)
    ensures var opens := CredentialOpens(s.store.secrets, id, env);
            Alone(s, Busy(ctx, TestCredential(id, site)), now, env) ==
              (s, if opens then Busy(ctx, TestDial(id, site, s.store.secrets[id].plaintext)) else Finished(Rejected))
  {
  }

  /** The site went with its devices and secret, or nothing changed; the wake history stays. */
  predicate SiteRemoved(before: StoreModel, after: StoreModel, id: int, removed: bool) {
    && (if removed then TakenBack(before, after, id) else after == before)
    && after.wakeEvents == before.wakeEvents
  }

  method SiteDelete(app: Server, token: string, csrf: string, id: int, now: nat, envs: seq<Env>) returns (r: Response)
    requires |envs| == 3
    modifies app.db, app.auth
    ensures EndsAs(old(app.Snapshot()), Admit(WithSession(token, Some(csrf), Action.SiteDelete(id))), now, envs, 0,
                   app.Snapshot(), r)
    ensures r.Completed? <==>
              && MayEnter(old(app.auth.sessions), token, Some(csrf), SiteDeleteJob(id), now)
              && id in old(app.db.sites) && !envs[1].dbFails
    ensures SiteRemoved(old(app.db.Model()), app.db.Model(), id, r.Completed?)
  {
    var job := SiteDeleteJob(id);
    var admitted := app.Admitted(token, Some(csrf), job, now, envs[0]);
    if admitted.Err? {
      r := admitted.error;
      Ended(app.Snapshot(), r, now, envs, 1);
    } else {
      r := DeleteAndAudit(app, admitted.value, id, now, envs);
    }
    StepThen(old(app.Snapshot()), Admit(WithSession(token, Some(csrf), Action.SiteDelete(id))), now, envs, 0,
             app.Snapshot(), r);
  }

  method DeleteAndAudit(app: Server, ctx: Ctx, id: int, now: nat, envs: seq<Env>) returns (r: Response)
    requires |envs| == 3
    modifies app.db
    ensures EndsAs(old(app.Snapshot()), Busy(ctx, DeleteWrite(id)), now, envs, 1, app.Snapshot(), r)
    ensures r.Completed? <==> id in old(app.db.sites) && !envs[1].dbFails
    ensures SiteRemoved(old(app.db.Model()), app.db.Model(), id, r.Completed?)
  {
    AfterDelete(app.Snapshot(), ctx, id, now, envs[1]);
    var deleted := app.db.DeleteSite(id, envs[1].dbFails);
    r := app.AnswerChange(ctx, DeleteAudit(id), SiteDeleted, id, deleted, ServerError, now, envs, 2);
    StepThen(old(app.Snapshot()), Busy(ctx, DeleteWrite(id)), now, envs, 1, app.Snapshot(), r);
  }

  /** A successful test leaves the key it saw waiting for this session's decision. Against a site
      that already trusts a key it succeeds only with that key. */
  method SiteTest(app: Server, token: string, csrf: string, id: int, now: nat, envs: seq<Env>) returns (r: Response)
    requires |envs| == 5
    modifies app.db, app.auth
    ensures EndsAs(old(app.Snapshot()), Admit(WithSession(token, Some(csrf), Action.SiteTest(id))), now, envs, 0,
                   app.Snapshot(), r)
    ensures r.Completed? <==>
              && MayEnter(old(app.auth.sessions), token, Some(csrf), SiteTestJob(id), now)
              && !envs[1].dbFails && id in old(app.db.sites)
              && CredentialOpens(old(app.db.secrets), id, envs[2]) && envs[3].tested.Ok?
    ensures app.auth.pendingFingerprints ==
              PendingAfter(old(app.auth.pendingFingerprints), token, id, envs[3].tested, r)
    ensures r.Completed? && id in app.db.sites && id in app.db.secrets
            && RouterAnswers(Test(id, app.db.sites[id], app.db.secrets[id].plaintext), envs[3])
            && app.db.sites[id].fingerprint.Some? ==>
              envs[3].tested == Ok(app.db.sites[id].fingerprint.value)
    ensures app.db.Model() == old(app.db.Model())
  {
    var job := SiteTestJob(id);
    var admitted := app.Admitted(token, Some(csrf), job, now, envs[0]);
    if admitted.Err? {
      r := admitted.error;
      Ended(app.Snapshot(), r, now, envs, 1);
    } else {
      r := ReadAndTest(app, admitted.value, id, now, envs);
      if r.Completed? {
        TestReportsShownKey(app.db.sites[id], app.db.secrets[id].plaintext, envs[3].peer);
      }
    }
    StepThen(old(app.Snapshot()), Admit(WithSession(token, Some(csrf), Action.SiteTest(id))), now, envs, 0,
             app.Snapshot(), r);
  }

  /** A completed test leaves the key it saw; any other leaves everything as it was. */
  function PendingAfter(
    before: Pending, token: string, id: int, tested: Result<string, SshError>, r: Response): Pending {
    if r.Completed? && tested.Ok? then before[(token, id) := tested.value] else before
  }

  method ReadAndTest(app: Server, ctx: Ctx, id: int, now: nat, envs: seq<Env>) returns (r: Response)
    requires |envs| == 5
    modifies app.auth`pendingFingerprints
    ensures EndsAs(old(app.Snapshot()), Busy(ctx, TestRead(id)), now, envs, 1, app.Snapshot(), r)
    ensures r.Completed? <==>
              && !envs[1].dbFails && id in app.db.sites
              && CredentialOpens(app.db.secrets, id, envs[2]) && envs[3].tested.Ok?
    ensures app.auth.pendingFingerprints ==
              PendingAfter(old(app.auth.pendingFingerprints), ctx.token, id, envs[3].tested, r)
  {
    AfterTestRead(app.Snapshot(), ctx, id, now, envs[1]);
    var found := app.db.GetSite(id, envs[1].dbFails);
    if found == DbFailed {
      r := ServerError;
      Ended(app.Snapshot(), r, now, envs, 2);
    } else if found.site.None? {
      r := NotFound;
      Ended(app.Snapshot(), r, now, envs, 2);
    } else {
      r := OpenAndTest(app, ctx, id, found.site.value, now, envs);
    }
    StepThen(old(app.Snapshot()), Busy(ctx, TestRead(id)), now, envs, 1, app.Snapshot(), r);
  }

  method OpenAndTest(app: Server, ctx: Ctx, id: int, site: Site, now: nat, envs: seq<Env>) returns (r: Response)
    requires |envs| == 5
    modifies app.auth`pendingFingerprints
    ensures EndsAs(old(app.Snapshot()), Busy(ctx, TestCredential(id, site)), now, envs, 2, app.Snapshot(), r)
    ensures r.Completed? <==> CredentialOpens(app.db.secrets, id, envs[2]) && envs[3].tested.Ok?
    ensures app.auth.pendingFingerprints ==
              PendingAfter(old(app.auth.pendingFingerprints), ctx.token, id, envs[3].tested, r)
  {
    AfterTestCredential(app.Snapshot(), ctx, id, site, now, envs[2]);
    var credential := app.SiteCredential(id, envs[2]);
    if credential.None? {
      r := Rejected;
      Ended(app.Snapshot(), r, now, envs, 3);
    } else {
      r := DialAndKeep(app, ctx, id, site, credential.value, now, envs);
    }
    StepThen(old(app.Snapshot()), Busy(ctx, TestCredential(id, site)), now, envs, 2, app.Snapshot(), r);
  }

  /** The connection itself is the environment's; its outcome arrives as `tested`. */
  method DialAndKeep(app: Server, ctx: Ctx, id: int, site: Site, credential: string, now: nat, envs: seq<Env>)
    returns (r: Response)
    requires |envs| == 5
    modifies app.auth`pendingFingerprints
    ensures EndsAs(old(app.Snapshot()), Busy(ctx, TestDial(id, site, credential)), now, envs, 3, app.Snapshot(), r)
    ensures r.Completed? <==> envs[3].tested.Ok?
    ensures app.auth.pendingFingerprints ==
              PendingAfter(old(app.auth.pendingFingerprints), ctx.token, id, envs[3].tested, r)
  {
    var tested := envs[3].tested;
    if tested.Err? {
      r := Rejected;
      Ended(app.Snapshot(), r, now, envs, 4);
    } else {
      app.auth.SetPendingFingerprint(ctx.token, id, tested.value);
      r := Completed;
      Ended(app.Snapshot(), r, now, envs, 5);
      StepThen(old(app.Snapshot()), Busy(ctx, TestPending(id, tested.value)), now, envs, 4, app.Snapshot(), r);
    }
    StepThen(old(app.Snapshot()), Busy(ctx, TestDial(id, site, credential)), now, envs, 3, app.Snapshot(), r);
  }
}
