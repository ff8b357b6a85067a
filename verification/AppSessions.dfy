/** Logging in and out. */
module AppSessions {
  import opened Results
  import opened Text
  import opened Records
  import opened Auth
  import opened Store
  import opened Handlers
  import opened App

  lemma AfterLoginCheck(s: Shared, username: string, now: nat, env: Env)
    ensures Alone(s, LoggingIn(LoginCheck(username)), now, env) ==
              (s.(auth := s.auth.(attempts := AfterCheck(s.auth.attempts, CLIENT_KEY, now))),
               if Admits(s.auth.attempts, CLIENT_KEY, now) then LoggingIn(LoginFind(username)) else Finished(Rejected))
  {
  }

  lemma AfterLoginFind(s: Shared, username: string, now: nat, env: Env)
    ensures Alone(s, LoggingIn(LoginFind(username)), now, env) ==
              (s, LoggingIn(if Proven(s.store.users, username, env) then LoginReread(username) else LoginFailure))
  {
  }

  lemma AfterLoginReread(s: Shared, username: string, now: nat, env: Env)
    requires Trim(username) in s.store.users
    ensures Alone(s, LoggingIn(LoginReread(username)), now, env) ==
              (s, if env.dbFails then Finished(Rejected) else LoggingIn(LoginCreate(s.store.users[Trim(username)])))
  {
  }

  lemma AfterLoginCreate(s: Shared, user: User, now: nat, env: Env)
    ensures Alone(s, LoggingIn(LoginCreate(user)), now, env) ==
              if user.role.None? then (s, Finished(ServerError))
              else (s.(auth := s.auth.(sessions := s.auth.sessions[env.token := NewSession(user, user.role.value,
                  env.csrf, now)])),
                    LoggingIn(LoginClear(user.id, env.token)))
  {
  }

  /** A failure is counted in the window its check opened or found. */
  lemma FailureAfterCheck(attempts: Attempts, key: string, now: nat)
    ensures AfterFailure(AfterCheck(attempts, key, now), key, now) == AfterFailure(attempts, key, now)
  {
  }

  /** The name belongs to an enabled user and the password matches. */
  predicate Proven(users: map<string, User>, username: string, env: Env) {
    !env.dbFails && Trim(username) in users && users[Trim(username)].enabled && env.passwordMatches
  }

  /** Only audit rows may differ. */
  predicate OnlyAudits(before: StoreModel, after: StoreModel) {
    after == before.(auditEvents := after.auditEvents)
  }

  /** Run alone: a client over the limit changes nothing but its window; a wrong name or password
      is counted once; a success opens one session and forgets the failures. */
  method LoginSubmit(app: Server, username: string, now: nat, envs: seq<Env>) returns (r: Response)
    requires |envs| == 6
    modifies app.db, app.auth
    ensures EndsAs(old(app.Snapshot()), Admit(Login(username)), now, envs, 0, app.Snapshot(), r)
    ensures r.LoggedIn? <==>
              && Admits(old(app.auth.loginAttempts), CLIENT_KEY, now)
              && Proven(old(app.db.users), username, envs[1]) && !envs[2].dbFails
              && old(app.db.users)[Trim(username)].role.Some?
    ensures r.LoggedIn? ==>
              Opened(old(app.auth.Model()), app.auth.Model(), old(app.db.users)[Trim(username)], envs[3], now, r)
    ensures !r.LoggedIn? ==> app.auth.sessions == old(app.auth.sessions)
    ensures !Admits(old(app.auth.loginAttempts), CLIENT_KEY, now) ==>
              app.auth.loginAttempts == AfterCheck(old(app.auth.loginAttempts), CLIENT_KEY, now)
    ensures Admits(old(app.auth.loginAttempts), CLIENT_KEY, now) && !Proven(old(app.db.users), username, envs[1]) ==>
              app.auth.loginAttempts == AfterFailure(old(app.auth.loginAttempts), CLIENT_KEY, now)
    ensures app.auth.pendingFingerprints == old(app.auth.pendingFingerprints)
    ensures OnlyAudits(old(app.db.Model()), app.db.Model())
  {
    AfterLoginCheck(app.Snapshot(), username, now, envs[0]);
    FailureAfterCheck(app.auth.loginAttempts, CLIENT_KEY, now);
    var allowed := app.auth.LoginAllowed(CLIENT_KEY, now);
    ghost var checked := app.Snapshot();
    if !allowed {
      r := Rejected;
      Ended(app.Snapshot(), r, now, envs, 1);
    } else {
      AfterLoginFind(app.Snapshot(), username, now, envs[1]);
      var found := app.db.FindUser(Trim(username), envs[1].dbFails);
      var valid := found.UserRow? && found.user.Some? && found.user.value.enabled && envs[1].passwordMatches;
      if !valid {
        r := CountFailure(app, now, envs);
      } else {
        r := OpenSession(app, username, now, envs);
      }
      StepThen(checked, LoggingIn(LoginFind(username)), now, envs, 1, app.Snapshot(), r);
    }
    StepThen(old(app.Snapshot()), Admit(Login(username)), now, envs, 0, app.Snapshot(), r);
  }

  method CountFailure(app: Server, now: nat, envs: seq<Env>) returns (r: Response)
    requires |envs| == 6
    modifies app.db, app.auth`loginAttempts
    ensures EndsAs(old(app.Snapshot()), LoggingIn(LoginFailure), now, envs, 2, app.Snapshot(), r)
    ensures r == Rejected
    ensures app.auth.loginAttempts == AfterFailure(old(app.auth.loginAttempts), CLIENT_KEY, now)
    ensures OnlyAudits(old(app.db.Model()), app.db.Model())
  {
    app.auth.RecordLoginFailure(CLIENT_KEY, now);
    ghost var counted := app.Snapshot();
    var _ := app.db.InsertAuditEvent(AuditEvent(None, LoginFailed, None), envs[3].dbFails);
    Ended(app.Snapshot(), Rejected, now, envs, 4);
    r := Rejected;
    StepThen(counted, LoggingIn(LoginFailureAudit), now, envs, 3, app.Snapshot(), r);
    StepThen(old(app.Snapshot()), LoggingIn(LoginFailure), now, envs, 2, app.Snapshot(), r);
  }

  /** The user is read again after the password check. */
  method OpenSession(app: Server, username: string, now: nat, envs: seq<Env>) returns (r: Response)
    requires |envs| == 6 && Trim(username) in app.db.users
    modifies app.db, app.auth`loginAttempts, app.auth`sessions
    ensures EndsAs(old(app.Snapshot()), LoggingIn(LoginReread(username)), now, envs, 2, app.Snapshot(), r)
    ensures r.LoggedIn? <==> !envs[2].dbFails && old(app.db.users)[Trim(username)].role.Some?
    ensures r.LoggedIn? ==>
              Opened(old(app.auth.Model()), app.auth.Model(), old(app.db.users)[Trim(username)], envs[3], now, r)
    ensures !r.LoggedIn? ==> app.auth.sessions == old(app.auth.sessions)
    ensures OnlyAudits(old(app.db.Model()), app.db.Model())
  {
    AfterLoginReread(app.Snapshot(), username, now, envs[2]);
    var found := app.db.FindUser(Trim(username), envs[2].dbFails);
    if found == DbFailed || found.user.None? {
      r := Rejected;
      Ended(app.Snapshot(), r, now, envs, 3);
    } else {
      r := KeepSession(app, found.user.value, now, envs);
    }
    StepThen(old(app.Snapshot()), LoggingIn(LoginReread(username)), now, envs, 2, app.Snapshot(), r);
  }

  method KeepSession(app: Server, user: User, now: nat, envs: seq<Env>) returns (r: Response)
    requires |envs| == 6
    modifies app.db, app.auth`loginAttempts, app.auth`sessions
    ensures EndsAs(old(app.Snapshot()), LoggingIn(LoginCreate(user)), now, envs, 3, app.Snapshot(), r)
    ensures r.LoggedIn? <==> user.role.Some?
    ensures r.LoggedIn? ==> Opened(old(app.auth.Model()), app.auth.Model(), user, envs[3], now, r)
    ensures !r.LoggedIn? ==> app.auth.sessions == old(app.auth.sessions)
    ensures OnlyAudits(old(app.db.Model()), app.db.Model())
  {
    AfterLoginCreate(app.Snapshot(), user, now, envs[3]);
    var created := app.auth.CreateSession(user, envs[3].token, envs[3].csrf, now);
    if created.None? {
      r := ServerError;
      Ended(app.Snapshot(), r, now, envs, 4);
    } else {
      r := Welcome(app, user.id, created.value, now, envs);
    }
    StepThen(old(app.Snapshot()), LoggingIn(LoginCreate(user)), now, envs, 3, app.Snapshot(), r);
  }

  method Welcome(app: Server, userId: int, token: string, now: nat, envs: seq<Env>) returns (r: Response)
    requires |envs| == 6
    modifies app.db, app.auth`loginAttempts
    ensures EndsAs(old(app.Snapshot()), LoggingIn(LoginClear(userId, token)), now, envs, 4, app.Snapshot(), r)
    ensures r == LoggedIn(token) && app.auth.loginAttempts == Without(old(app.auth.loginAttempts), CLIENT_KEY)
    ensures OnlyAudits(old(app.db.Model()), app.db.Model())
  {
    app.auth.ClearLoginFailures(CLIENT_KEY);
    assert app.auth.loginAttempts == Without(old(app.auth.loginAttempts), CLIENT_KEY);
    ghost var cleared := app.Snapshot();
    var _ := app.db.InsertAuditEvent(AuditEvent(Some(userId), LoginSucceeded, None), envs[5].dbFails);
    r := LoggedIn(token);
    Ended(app.Snapshot(), r, now, envs, 6);
    StepThen(cleared, LoggingIn(LoginAudit(userId, token)), now, envs, 5, app.Snapshot(), r);
    StepThen(old(app.Snapshot()), LoggingIn(LoginClear(userId, token)), now, envs, 4, app.Snapshot(), r);
  }

  /** The drawn token now stands for the user, for eight hours; the failures are forgotten. */
  predicate Opened(before: AuthModel, after: AuthModel, user: User, env: Env, now: nat, r: Response) {
    && user.role.Some? && r == LoggedIn(env.token)
    && after.sessions == before.sessions[env.token := NewSession(user, user.role.value, env.csrf, now)]
    && after.attempts == Without(before.attempts, CLIENT_KEY)
  }

  /** Removing a session is two steps, since its two maps have a mutex each. */
  lemma AfterLogout(s: Shared, ctx: Ctx, now: nat, envs: seq<Env>)
    requires |envs| == 3
    ensures var after := s.(auth := s.auth.(sessions := Without(s.auth.sessions, ctx.token),
                                            pending := ForgetToken(s.auth.pending, ctx.token)));
            EndsAs(s, Busy(ctx, LogoutSession), now, envs, 1, after, Completed)
  {
    var mid := s.(auth := s.auth.(sessions := Without(s.auth.sessions, ctx.token)));
    var after := mid.(auth := mid.auth.(pending := ForgetToken(mid.auth.pending, ctx.token)));
    assert Alone(s, Busy(ctx, LogoutSession), now, envs[1]) == (mid, Busy(ctx, LogoutPending));
    assert Alone(mid, Busy(ctx, LogoutPending), now, envs[2]) == (after, Finished(Completed));
    Ended(after, Completed, now, envs, 3);
    StepThen(mid, Busy(ctx, LogoutPending), now, envs, 2, after, Completed);
    StepThen(s, Busy(ctx, LogoutSession), now, envs, 1, after, Completed);
  }

  /** Afterwards the token resolves to nothing and nothing waits for its decision. */
  method Logout(app: Server, token: string, csrf: string, now: nat, envs: seq<Env>) returns (r: Response)
    requires |envs| == 3
    modifies app.auth
    ensures EndsAs(old(app.Snapshot()), Admit(WithSession(token, Some(csrf), Action.Logout)), now, envs, 0,
                   app.Snapshot(), r)
    ensures r.Completed? <==> MayEnter(old(app.auth.sessions), token, Some(csrf), LogoutJob, now)
    ensures r.Completed? ==>
              && app.auth.sessions == Without(old(app.auth.sessions), token)
              && app.auth.pendingFingerprints == ForgetToken(old(app.auth.pendingFingerprints), token)
    ensures !r.Completed? ==> app.auth.pendingFingerprints == old(app.auth.pendingFingerprints)
  {
    var admitted := app.Admitted(token, Some(csrf), LogoutJob, now, envs[0]);
    if admitted.Err? {
      r := admitted.error;
      Ended(app.Snapshot(), r, now, envs, 1);
    } else {
      AfterLogout(app.Snapshot(), admitted.value, now, envs);
      app.auth.RemoveSession(token);
      r := Completed;
    }
    StepThen(old(app.Snapshot()), Admit(WithSession(token, Some(csrf), Action.Logout)), now, envs, 0, app.Snapshot(),
             r);
  }
}
