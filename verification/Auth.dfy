/** In-memory authentication state: the session table, the login limiter and the fingerprints that
    wait for a decision. Every operation holds one mutex, so it is one atomic step; the clock is
    read inside it. Times are in nanoseconds. */
module Auth {
  import opened Results
  import opened Records

  const NANOS := 1_000_000_000
  const SESSION_TTL: nat := 8 * 60 * 60 * NANOS
  const RATE_LIMIT_WINDOW: nat := 15 * 60 * NANOS
  const MAX_LOGIN_FAILURES: nat := 5
  const U32_MAX: nat := 0xFFFF_FFFF

  datatype Session = Session(userId: int, username: string, role: Role, csrf: string, expiresAt: nat)

  datatype LoginAttempt = LoginAttempt(windowStarted: nat, failures: nat)

  type Sessions = map<string, Session>
  type Attempts = map<string, LoginAttempt>
  type Pending = map<(string, int), string>

  datatype AuthModel = AuthModel(sessions: Sessions, attempts: Attempts, pending: Pending)

  const EMPTY: AuthModel := AuthModel(map[], map[], map[])

  /** The window a check or a failure falls into: the stored one, or a new one starting now. */
  function WindowAt(attempts: Attempts, key: string, now: nat): LoginAttempt {
    if key in attempts && now - attempts[key].windowStarted < RATE_LIMIT_WINDOW then attempts[key]
    else LoginAttempt(now, 0)
  }

  function SaturatingIncrement(n: nat): nat {
    if n < U32_MAX then n + 1 else n
  }

  predicate Admits(attempts: Attempts, key: string, now: nat) {
    WindowAt(attempts, key, now).failures < MAX_LOGIN_FAILURES
  }

  function AfterCheck(attempts: Attempts, key: string, now: nat): Attempts {
    attempts[key := WindowAt(attempts, key, now)]
  }

  function AfterFailure(attempts: Attempts, key: string, now: nat): Attempts {
    var window := WindowAt(attempts, key, now);
    attempts[key := window.(failures := SaturatingIncrement(window.failures))]
  }

  function Without<K, V>(m: map<K, V>, k: K): map<K, V> {
    m - {k}
  }

  predicate Resolves(sessions: Sessions, token: string, now: nat) {
    token in sessions && now < sessions[token].expiresAt
  }

  /** A look-up drops the entry it finds expired. */
  function AfterLookup(sessions: Sessions, token: string, now: nat): Sessions {
    if token in sessions && !Resolves(sessions, token, now) then Without(sessions, token) else sessions
  }

  function LookupAnswer(sessions: Sessions, token: string, now: nat): Option<Session> {
    if Resolves(sessions, token, now) then Some(sessions[token]) else None
  }

  function NewSession(user: User, role: Role, csrf: string, now: nat): Session {
    Session(user.id, user.username, role, csrf, now + SESSION_TTL)
  }

  function ForgetToken(pending: Pending, token: string): Pending {
    map k | k in pending && k.0 != token :: pending[k]
  }

  class AuthState {
    var sessions: Sessions
    var loginAttempts: Attempts
    var pendingFingerprints: Pending

    ghost function Model(): AuthModel
      reads this
    {
      AuthModel(sessions, loginAttempts, pendingFingerprints)
    }

    constructor ()
      ensures Model() == EMPTY
    {
      sessions, loginAttempts, pendingFingerprints := map[], map[], map[];
    }

    method LoginAllowed(clientKey: string, now: nat) returns (allowed: bool)
      modifies this`loginAttempts
      ensures allowed == Admits(old(loginAttempts), clientKey, now)
      ensures loginAttempts == AfterCheck(old(loginAttempts), clientKey, now)
    {
      if clientKey !in loginAttempts {
        loginAttempts := loginAttempts[clientKey := LoginAttempt(now, 0)];
      }
      if now - loginAttempts[clientKey].windowStarted >= RATE_LIMIT_WINDOW {
        loginAttempts := loginAttempts[clientKey := LoginAttempt(now, 0)];
      }
      allowed := loginAttempts[clientKey].failures < MAX_LOGIN_FAILURES;
    }

    method RecordLoginFailure(clientKey: string, now: nat)
      modifies this`loginAttempts
      ensures loginAttempts == AfterFailure(old(loginAttempts), clientKey, now)
    {
      if clientKey !in loginAttempts {
        loginAttempts := loginAttempts[clientKey := LoginAttempt(now, 0)];
      }
      if now - loginAttempts[clientKey].windowStarted >= RATE_LIMIT_WINDOW {
        loginAttempts := loginAttempts[clientKey := LoginAttempt(now, 0)];
      }
      var attempt := loginAttempts[clientKey];
      loginAttempts := loginAttempts[clientKey := attempt.(failures := SaturatingIncrement(attempt.failures))];
    }

    method ClearLoginFailures(clientKey: string)
      modifies this`loginAttempts
      ensures clientKey !in loginAttempts
      ensures forall k :: k != clientKey ==> (k in loginAttempts <==> k in old(loginAttempts))
      ensures forall k :: k in loginAttempts ==> loginAttempts[k] == old(loginAttempts)[k]
    {
      loginAttempts := Without(loginAttempts, clientKey);
    }

    /** The two random texts are inputs; a role text the parser rejects is an error. */
    method CreateSession(user: User, token: string, csrf: string, now: nat) returns (r: Option<string>)
      modifies this`sessions
      ensures user.role.None? ==> r == None && sessions == old(sessions)
      ensures user.role.Some? ==>
                r == Some(token) && sessions == old(sessions)[token := NewSession(user, user.role.value, csrf, now)]
    {
      if user.role.None? {
        return None;
      }
      var session := Session(user.id, user.username, user.role.value, csrf, now + SESSION_TTL);
      sessions := sessions[token := session];
      return Some(token);
    }

    method GetSession(token: string, now: nat) returns (r: Option<Session>)
      modifies this`sessions
      ensures r == LookupAnswer(old(sessions), token, now)
      ensures sessions == AfterLookup(old(sessions), token, now)
    {
      r := if token in sessions then Some(sessions[token]) else None;
      if r.Some? && r.value.expiresAt <= now {
        sessions := Without(sessions, token);
        r := None;
      }
    }

    /** Logging out takes two mutexes one after the other; other steps may come between them. */
    method RemoveSession(token: string)
      modifies this`sessions, this`pendingFingerprints
      ensures sessions == Without(old(sessions), token)
      ensures pendingFingerprints == ForgetToken(old(pendingFingerprints), token)
    {
      sessions := Without(sessions, token);
      pendingFingerprints := map k | k in pendingFingerprints && k.0 != token :: pendingFingerprints[k];
    }

    method SetPendingFingerprint(token: string, siteId: int, fingerprint: string)
      modifies this`pendingFingerprints
      ensures pendingFingerprints == old(pendingFingerprints)[(token, siteId) := fingerprint]
    {
      pendingFingerprints := pendingFingerprints[(token, siteId) := fingerprint];
    }

    /** Taking an entry removes it, so it is handed out at most once. */
    method TakePendingFingerprint(token: string, siteId: int) returns (r: Option<string>)
      modifies this`pendingFingerprints
      ensures r == if (token, siteId) in old(pendingFingerprints) then Some(old(pendingFingerprints)[(token, siteId)])
                   else None
      ensures pendingFingerprints == Without(old(pendingFingerprints), (token, siteId))
    {
      r := if (token, siteId) in pendingFingerprints then Some(pendingFingerprints[(token, siteId)]) else None;
      pendingFingerprints := Without(pendingFingerprints, (token, siteId));
    }
  }
}
