/** The admin login route: a password check that opens a session, an
    in-memory table of sessions by token, and the expiry rule that both the
    periodic clean-up and session verification apply. Times are
    milliseconds. */
module AdminVerify {
  import opened Wrappers

  /** Thirty minutes. */
  const SessionLifetime: int := 30 * 60 * 1000

  /** The password used when the environment sets none. */
  const DefaultPassword: string := "0502"

  /** The sessions a clean-up at `now` keeps: those no older than the
      lifetime. */
  function Live(sessions: map<string, int>, now: int): (live: map<string, int>)
    ensures forall t :: t in live <==> t in sessions && now - sessions[t] <= SessionLifetime
    ensures forall t :: t in live ==> live[t] == sessions[t]
  {
    map t | t in sessions && now - sessions[t] <= SessionLifetime :: sessions[t]
  }

  /** Cleaning up twice at the same moment is cleaning up once. */
  lemma CleanupIdempotent(sessions: map<string, int>, now: int)
    ensures Live(Live(sessions, now), now) == Live(sessions, now)
  {
    var once := Live(sessions, now);
    assert Live(once, now).Keys == once.Keys;
  }

  /** `verifySession`'s test on the table as the clean-up leaves it: the
      token is present and strictly younger than the lifetime. */
  predicate Valid(sessions: map<string, int>, token: string, now: int)
  {
    var live := Live(sessions, now);
    token in live && now - live[token] < SessionLifetime
  }

  /** A token is valid exactly when it is stored and strictly younger than
      the lifetime; a session aged exactly the lifetime survives the
      clean-up but no longer verifies. */
  lemma ValidIff(sessions: map<string, int>, token: string, now: int)
    ensures Valid(sessions, token, now) <==> token in sessions && now - sessions[token] < SessionLifetime
    ensures token in sessions && now - sessions[token] == SessionLifetime ==>
      token in Live(sessions, now) && !Valid(sessions, token, now)
  {
  }

  /** The JSON answer of the login route. */
  datatype LoginResponse =
    | LoggedIn(sessionToken: string, expiresIn: int)
    | LoginError(status: int, error: string)

  /** `process.env.ADMIN_PASSWORD || '0502'`. */
  function AdminPassword(env: Option<string>): (p: string)
    ensures p != []
    ensures env.Some? && env.value != [] ==> p == env.value
  {
    if env.Some? && env.value != [] then env.value else DefaultPassword
  }

  /** The response of `POST` and the session table after it. `body` is the
      request's `password` field (`None` when absent), or the message of a
      body that does not parse; `token` is the random hex string the route
      would generate. */
  function Login(sessions: map<string, int>, body: Result<Option<string>>, env: Option<string>, token: string, now: int)
    : (o: (LoginResponse, map<string, int>))
  {
    match body
    case Failure(message) =>
      (LoginError(500, if message != [] then message else "Verification failed"), sessions)
    case Success(password) =>
      if password.None? || password.value == [] then (LoginError(400, "Password is required"), sessions)
      else if password.value != AdminPassword(env) then (LoginError(401, "Invalid password"), sessions)
      else (LoggedIn(token, SessionLifetime / 1000), Live(sessions, now)[token := now])
  }

  /** A missing or empty password is refused with 400, a wrong one with
      401, and neither touches the table; the right one (`0502` when the
      environment sets none) purges the expired sessions, stores the new
      token created now, and reports a lifetime of 1800 seconds. */
  lemma LoginOutcome(sessions: map<string, int>, body: Result<Option<string>>, env: Option<string>, token: string, now: int)
    requires body.Success?
    ensures var (r, after) := Login(sessions, body, env, token, now);
      var password := body.value;
      && (r == LoginError(400, "Password is required") <==> password.None? || password.value == [])
      && (r == LoginError(401, "Invalid password") <==>
            password.Some? && password.value != [] && password.value != AdminPassword(env))
      && (r.LoginError? ==> after == sessions)
      && (r.LoggedIn? <==> password == Some(AdminPassword(env)))
      && (r.LoggedIn? ==>
            r.expiresIn == 1800 && r.sessionToken == token
            && token in after && after[token] == now && Valid(after, token, now)
            && forall t :: t != token ==> (t in after <==> t in Live(sessions, now)))
      && (env.None? ==> (r.LoggedIn? <==> password == Some("0502")))
  {
  }

  /** The module-level `sessions` map. */
  class Sessions {
    var sessions: map<string, int>

    constructor ()
      ensures sessions == map[]
    {
      sessions := map[];
    }

    /** `cleanupExpiredSessions`: walks the table and deletes every entry
        older than the lifetime. */
    method CleanupExpiredSessions(now: int)
      modifies this
      ensures sessions == Live(old(sessions), now)
    {
      ghost var original := sessions;
      var pending := sessions.Keys;
      while pending != {}
        invariant pending <= original.Keys
        invariant forall t :: t in sessions <==>
                    t in original && (t in pending || now - original[t] <= SessionLifetime)
        invariant forall t :: t in sessions ==> sessions[t] == original[t]
        decreases |pending|
      {
        var token :| token in pending;
        if now - sessions[token] > SessionLifetime {
          sessions := sessions - {token};
        }
        pending := pending - {token};
      }
      assert sessions.Keys == Live(original, now).Keys;
    }

    /** `POST`: validates the password, then cleans up and stores the new
        session. */
    method Post(body: Result<Option<string>>, env: Option<string>, token: string, now: int)
      returns (response: LoginResponse)
      modifies this
      ensures (response, sessions) == Login(old(sessions), body, env, token, now)
    {
      if body.Failure? {
        var message := body.error;
        return LoginError(500, if message != [] then message else "Verification failed");
      }
      var password := body.value;
      if password.None? || password.value == [] {
        return LoginError(400, "Password is required");
      }
      var adminPassword := AdminPassword(env);
      if password.value != adminPassword {
        return LoginError(401, "Invalid password");
      }
      CleanupExpiredSessions(now);
      sessions := sessions[token := now];
      response := LoggedIn(token, SessionLifetime / 1000);
    }

    /** `verifySession`: cleans up, then checks the token's age. */
    method VerifySession(token: string, now: int) returns (ok: bool)
      modifies this
      ensures sessions == Live(old(sessions), now)
      ensures ok == Valid(old(sessions), token, now)
    {
      CleanupExpiredSessions(now);
      if token !in sessions {
        return false;
      }
      ok := now - sessions[token] < SessionLifetime;
    }
  }
}
