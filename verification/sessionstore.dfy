/** In-memory administrator sessions with a fixed lifetime. */
module SessionStore {
  import opened Wrappers

  datatype SessionRecord = SessionRecord(token: string, username: string, createdAt: int, expiresAt: int)

  type Sessions = map<string, SessionRecord>

  const DefaultTtlMinutes: int := 60

  /** `create`: a session under a fresh `token` (the generated uuid),
      expiring `ttlMinutes` minutes from now. */
  function Create(s: Sessions, ttlMinutes: int, username: string, token: string, now: int): (r: Sessions)
    ensures token in r && r[token] == SessionRecord(token, username, now, now + ttlMinutes * 60000)
    ensures forall k :: k != token ==> (k in r <==> k in s) && (k in s ==> r[k] == s[k])
  {
    s[token := SessionRecord(token, username, now, now + ttlMinutes * 60000)]
  }

  datatype Validation = Validation(valid: bool, sessions: Sessions)

  /** `validate`: a missing or empty token and an unknown token are invalid
      and change nothing; an expired session is removed; otherwise the
      session is valid and kept. */
  function Validate(s: Sessions, token: Option<string>, now: int): (r: Validation)
    ensures r.valid <==> token.Some? && token.value != "" && token.value in s && s[token.value].expiresAt >= now
    ensures token.Some? && token.value != "" && token.value in s && s[token.value].expiresAt < now
            ==> r.sessions == s - {token.value}
    ensures !(token.Some? && token.value != "" && token.value in s && s[token.value].expiresAt < now)
            ==> r.sessions == s
  {
    match token
    case None => Validation(false, s)
    case Some(t) =>
      if t == "" || t !in s then Validation(false, s)
      else if s[t].expiresAt < now then Validation(false, s - {t})
      else Validation(true, s)
  }

  /** A new session is valid up to and including its expiry instant and
      invalid after it. */
  lemma SessionLifetime(s: Sessions, ttlMinutes: int, username: string, token: string, t0: int, t1: int)
    requires token != "" && ttlMinutes >= 0
    ensures var s1 := Create(s, ttlMinutes, username, token, t0);
      Validate(s1, Some(token), t1).valid <==> t1 <= t0 + ttlMinutes * 60000
  {
  }

  /** A failed validation of an expired session makes every later one fail
      too: the session is gone. */
  lemma ExpiredStaysInvalid(s: Sessions, token: string, t1: int, t2: int)
    requires token in s && token != "" && s[token].expiresAt < t1
    ensures var v := Validate(s, Some(token), t1);
      !v.valid && !Validate(v.sessions, Some(token), t2).valid
  {
  }
}
