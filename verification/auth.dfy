/** Administrator login and the bearer-token guard of the older API. */
module Auth {
  import opened Wrappers
  import opened Strs
  import opened LoginAttempts
  import opened SessionStore

  /** The login body's fields (`undefined` is `None`) and the configured
      `ADMIN_USER` / `ADMIN_PASS`. */
  datatype Credentials = Credentials(username: Option<string>, password: Option<string>)

  datatype LoginResult =
    | Locked(attempts: Attempts)
    | LoggedIn(attempts: Attempts, sessions: Sessions, token: string)
    | Unauthorized(attempts: Attempts)

  /** The comparison as written: `===` on possibly undefined values, so two
      missing values are equal. */
  predicate MatchesAsWritten(body: Credentials, env: Credentials) {
    body.username == env.username && body.password == env.password
  }

  /** The comparison intended: both configured values exist and equal the
      body's. */
  predicate MatchesConfigured(body: Credentials, env: Credentials) {
    env.username.Some? && env.password.Some? && body.username == env.username && body.password == env.password
  }

  /** The address `login` keys attempts by. */
  function KeyOf(reqIp: Option<string>): string {
    reqIp.GetOr("unknown")
  }

  /** `login` with a given credential test: a locked address is refused
      before anything is compared; matching credentials reset the address
      and open a session under `newToken`; anything else is one more
      failure. */
  function LoginWith(matches: bool, attempts: Attempts, sessions: Sessions, body: Credentials, reqIp: Option<string>,
                     newToken: string, ttlMinutes: int, now: int): (r: LoginResult)
    ensures var c := IsLocked(attempts, KeyOf(reqIp), now);
      (r.Locked? <==> c.locked)
      && (r.Locked? ==> r.attempts == c.attempts)
      && (r.LoggedIn? <==> !c.locked && matches)
      && (r.LoggedIn? ==> r.attempts == Reset(c.attempts, KeyOf(reqIp)) && r.token == newToken
                          && r.sessions == Create(sessions, ttlMinutes, body.username.GetOr("admin"), newToken, now))
      && (r.Unauthorized? ==> r.attempts == RegisterFailure(c.attempts, DefaultMaxAttempts, KeyOf(reqIp), now))
  {
    var ip := KeyOf(reqIp);
    var c := IsLocked(attempts, ip, now);
    if c.locked then Locked(c.attempts)
    else if matches then
      LoggedIn(Reset(c.attempts, ip), Create(sessions, ttlMinutes, body.username.GetOr("admin"), newToken, now), newToken)
    else Unauthorized(RegisterFailure(c.attempts, DefaultMaxAttempts, ip, now))
  }

  /** `login` as written. */
  function LoginAsWritten(attempts: Attempts, sessions: Sessions, body: Credentials, env: Credentials,
                          reqIp: Option<string>, newToken: string, now: int): (r: LoginResult)
    ensures r == LoginWith(MatchesAsWritten(body, env), attempts, sessions, body, reqIp, newToken, DefaultTtlMinutes, now)
  {
    LoginWith(MatchesAsWritten(body, env), attempts, sessions, body, reqIp, newToken, DefaultTtlMinutes, now)
  }

  /** With `ADMIN_USER` and `ADMIN_PASS` unset, the code as written opens a
      session for a body with no credentials at all. */
  lemma EmptyBodyAcceptedAsWritten(reqIp: Option<string>, newToken: string, now: int)
    ensures LoginAsWritten(map[], map[], Credentials(None, None), Credentials(None, None), reqIp, newToken, now).LoggedIn?
  {
  }

  /** `login` as intended: only configured credentials open a session. */
  function Login(attempts: Attempts, sessions: Sessions, body: Credentials, env: Credentials,
                 reqIp: Option<string>, newToken: string, now: int): (r: LoginResult)
    ensures r.LoggedIn? ==> env.username.Some? && env.password.Some? && body == env
    ensures r == LoginWith(MatchesConfigured(body, env), attempts, sessions, body, reqIp, newToken, DefaultTtlMinutes, now)
  {
    LoginWith(MatchesConfigured(body, env), attempts, sessions, body, reqIp, newToken, DefaultTtlMinutes, now)
  }

  /** With nothing configured nobody logs in, and each try counts as a
      failure; where credentials are configured the two versions agree. */
  lemma LoginCorrected(attempts: Attempts, sessions: Sessions, body: Credentials, env: Credentials,
                       reqIp: Option<string>, newToken: string, now: int)
    ensures env.username.None? ==> !Login(attempts, sessions, body, env, reqIp, newToken, now).LoggedIn?
    ensures env.username.Some? && env.password.Some? ==>
      Login(attempts, sessions, body, env, reqIp, newToken, now) == LoginAsWritten(attempts, sessions, body, env, reqIp, newToken, now)
  {
  }

  /** A locked address gets 423 with its attempts untouched. */
  lemma LockedChangesNothing(attempts: Attempts, sessions: Sessions, body: Credentials, env: Credentials,
                             reqIp: Option<string>, newToken: string, now: int)
    requires IsLocked(attempts, KeyOf(reqIp), now).locked
    ensures Login(attempts, sessions, body, env, reqIp, newToken, now) == Locked(attempts)
  {
  }

  /** The sixth try after five failures within the hour is refused with
      423, whatever credentials it carries. */
  lemma SixthAttemptLocked(a: Attempts, sessions: Sessions, body: Credentials, env: Credentials,
                           reqIp: Option<string>, newToken: string, times: seq<int>, now: int)
    requires KeyOf(reqIp) !in a && |times| == 5
    requires times[4] + LockIntervalMs >= now && times[4] + LockIntervalMs != 0
    ensures Login(Failures(a, DefaultMaxAttempts, KeyOf(reqIp), times), sessions, body, env, reqIp, newToken, now).Locked?
  {
    FiveFailuresLock(a, KeyOf(reqIp), times, now);
  }

  /** The token of an `Authorization` header: its first `Bearer ` removed. */
  function BearerToken(header: Option<string>): (r: Option<string>)
    ensures header.None? <==> r.None?
    ensures header.Some? && StartsWith(header.value, "Bearer ") ==> r == Some(header.value[7..])
    ensures header.Some? && !Contains(header.value, "Bearer ") ==> r == header
  {
    match header
    case None => None
    case Some(h) =>
      assert StartsWith(h, "Bearer ") ==> ReplaceFirst(h, "Bearer ", "") == h[7..] by {
        if StartsWith(h, "Bearer ") {
          assert StartsWith(h[0..], "Bearer ");
          ContainsAt(h, "Bearer ");
          assert IndexOf(h, "Bearer ") == Some(0);
          assert h[..0] + "" + h[7..] == h[7..];
        }
      }
      Some(ReplaceFirst(h, "Bearer ", ""))
  }

  datatype GuardResult = GuardResult(next: bool, sessions: Sessions)

  /** `authGuard`: the request continues exactly when the token validates;
      otherwise it gets 401. */
  function AuthGuard(s: Sessions, header: Option<string>, now: int): (r: GuardResult)
    ensures header.None? ==> !r.next && r.sessions == s
    ensures var v := Validate(s, BearerToken(header), now); r.next == v.valid && r.sessions == v.sessions
  {
    var v := Validate(s, BearerToken(header), now);
    GuardResult(v.valid, v.sessions)
  }

  /** A token just issued by a login passes the guard behind `Bearer `. */
  lemma IssuedTokenPasses(s: Sessions, token: string, now: int)
    requires token != ""
    ensures AuthGuard(Create(s, DefaultTtlMinutes, "admin", token, now), Some("Bearer " + token), now).next
  {
    var h := "Bearer " + token;
    assert h[..7] == "Bearer ";
    assert h[7..] == token;
  }
}
