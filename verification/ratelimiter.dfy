/** The rate limiter's exemptions: which requests skip the per-minute limit,
    and the window and limit the limiter uses. Counting itself belongs to
    the limiter library and is not part of this model. */
module RateLimiter {
  import opened Wrappers
  import opened Strs
  import opened Models
  import Whitelist
  import IpUtils

  /** The parts of a request the skip decision reads: the whitelist flag,
      the HTTP method (`verb`), the path, and the body's `uuid` when it is
      a string. */
  datatype LimitedRequest = LimitedRequest(isWhitelistedIp: bool, verb: string, path: string, bodyUuid: Option<string>)

  const WindowMs: int := 60000

  /** `shouldSkipRateLimit`. */
  function ShouldSkip(req: LimitedRequest, projects: map<string, Project>): (r: bool)
    ensures req.isWhitelistedIp ==> r
    ensures !req.isWhitelistedIp && (req.verb != "POST" || !StartsWith(req.path, "/api/logs")) ==> !r
    ensures !req.isWhitelistedIp && (req.bodyUuid.None? || req.bodyUuid == Some("")) ==> !r
    ensures !req.isWhitelistedIp && req.bodyUuid.Some? && req.bodyUuid.value !in projects ==> !r
    ensures r && !req.isWhitelistedIp ==>
      req.bodyUuid.Some? && req.bodyUuid.value in projects && projects[req.bodyUuid.value].accessLevel != Global
  {
    if req.isWhitelistedIp then true
    else if req.verb != "POST" then false
    else if !StartsWith(req.path, "/api/logs") then false
    else match req.bodyUuid
      case None => false
      case Some(u) =>
        if u == "" then false
        else if u !in projects then false
        else projects[u].accessLevel == WhitelistOnly || projects[u].accessLevel == Docker
  }

  /** A log posted for a known project by a request that is not whitelisted
      skips the limit exactly when the project is not `global`. */
  lemma IngestSkipsByAccessLevel(req: LimitedRequest, projects: map<string, Project>)
    requires !req.isWhitelistedIp && req.verb == "POST" && StartsWith(req.path, "/api/logs")
    requires req.bodyUuid.Some? && req.bodyUuid.value != "" && req.bodyUuid.value in projects
    ensures ShouldSkip(req, projects) <==> projects[req.bodyUuid.value].accessLevel != Global
  {
  }

  // ---------------------------------------------------------------------
  // Middleware order
  // ---------------------------------------------------------------------

  /** A request as it reaches the middleware chain, before any middleware
      has marked it. */
  datatype Arrival = Arrival(ip: Option<string>, verb: string, path: string, bodyUuid: Option<string>)

  /** The skip decision in the order the application mounts its
      middleware: `rateLimiter` runs before `ipWhitelist`, so the flag it
      reads is still unset, and whitelisting never lifts the limit. */
  function SkipAsMounted(a: Arrival, projects: map<string, Project>): (r: bool)
    ensures r ==> a.verb == "POST" && StartsWith(a.path, "/api/logs")
    ensures r ==> a.bodyUuid.Some? && a.bodyUuid.value in projects && projects[a.bodyUuid.value].accessLevel != Global
  {
    ShouldSkip(LimitedRequest(false, a.verb, a.path, a.bodyUuid), projects)
  }

  /** The skip decision with `ipWhitelist` mounted first: the limiter sees
      the flag the whitelist set, so every whitelisted address skips, and
      any other request is decided as before. */
  function SkipWhitelistFirst(a: Arrival, projects: map<string, Project>, store: seq<Whitelist.Entry>,
                              admin: Option<string>, c: Whitelist.IpCache, now: int): (r: bool)
    ensures Whitelist.IpWhitelist(store, admin, c, a.ip, now).isWhitelistedIp ==> r
    ensures !Whitelist.IpWhitelist(store, admin, c, a.ip, now).isWhitelistedIp ==> (r <==> SkipAsMounted(a, projects))
  {
    var flagged := Whitelist.IpWhitelist(store, admin, c, a.ip, now);
    ShouldSkip(LimitedRequest(flagged.isWhitelistedIp, a.verb, a.path, a.bodyUuid), projects)
  }

  /** A loopback client reading the project list is whitelisted, yet in the
      mounted order it is still rate limited; with the whitelist first it
      skips the limit. */
  lemma WhitelistedClientLimitedAsMounted()
    ensures var a := Arrival(Some("::1"), "GET", "/api/projects", None);
      Whitelist.IpWhitelist([], None, Whitelist.EmptyIpCache, a.ip, 0).isWhitelistedIp
      && !SkipAsMounted(a, map[])
      && SkipWhitelistFirst(a, map[], [], None, Whitelist.EmptyIpCache, 0)
  {
    assert !Contains("::1", IpUtils.MappedPrefix) by {
      assert !Contains("::1"[3..], IpUtils.MappedPrefix);
    }
  }
}
