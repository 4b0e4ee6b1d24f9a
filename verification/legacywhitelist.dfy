/** The older whitelist middleware, which rejects: stored addresses are
    cached as they are, only the request address is normalised, and an
    empty list lets everybody in. */
module LegacyWhitelist {
  import opened Wrappers
  import opened Strs
  import opened IpUtils

  const CacheTtlMs: int := 60000

  datatype RawCache = RawCache(ips: set<string>, lastLoaded: int)

  /** This middleware's own `normalizeIp`: the first marker removed, `''`
      for a missing address. */
  function NormalizeRequestIp(ip: Option<string>): (r: string)
    ensures ip.None? ==> r == ""
    ensures ip.Some? ==> r == ReplaceFirst(ip.value, MappedPrefix, "")
    ensures r == NormalizeIp(ip)
  {
    var s := ip.GetOr("");
    assert s == "" ==> !Contains(s, MappedPrefix);
    ReplaceFirst(s, MappedPrefix, "")
  }

  /** `refreshCache`: the stored addresses, unnormalised, at most once a
      minute. */
  function RefreshRaw(stored: seq<string>, c: RawCache, now: int): (r: RawCache)
    ensures now - c.lastLoaded < CacheTtlMs ==> r == c
    ensures now - c.lastLoaded >= CacheTtlMs ==> r.lastLoaded == now && forall x :: x in r.ips <==> x in stored
  {
    if now - c.lastLoaded < CacheTtlMs then c else RawCache((set x | x in stored), now)
  }

  datatype Decision = Decision(allowed: bool, cache: RawCache)

  /** `ipWhitelist`: an empty list, a loopback address or a listed address
      continues; everything else gets 403. */
  function IpWhitelist(stored: seq<string>, c: RawCache, reqIp: Option<string>, now: int): (r: Decision)
    ensures r.cache == RefreshRaw(stored, c, now)
    ensures var ip := NormalizeRequestIp(reqIp);
      r.allowed <==> r.cache.ips == {} || IsLoopback(ip) || ip in r.cache.ips
  {
    var loaded := RefreshRaw(stored, c, now);
    var ip := NormalizeRequestIp(reqIp);
    Decision(loaded.ips == {} || IsLoopback(ip) || ip in loaded.ips, loaded)
  }

  /** A stored address written with the marker never admits anybody: the
      request side is normalised before the lookup, the stored side is
      not. */
  lemma MappedStoredEntryUnreachable(c: RawCache, now: int)
    requires now - c.lastLoaded >= CacheTtlMs
    ensures !IpWhitelist(["::ffff:10.0.0.1"], c, Some("::ffff:10.0.0.1"), now).allowed
  {
    var s := "::ffff:10.0.0.1";
    NormalizeRemovesFirst(s, 0);
    assert s[..0] + s[7..] == "10.0.0.1";
    var loaded := RefreshRaw(["::ffff:10.0.0.1"], c, now);
    assert s in loaded.ips;
    assert "10.0.0.1" !in loaded.ips by {
      assert "10.0.0.1" != s;
    }
  }

  /** Until something is stored the middleware admits every request. */
  lemma EmptyListAdmitsAll(c: RawCache, reqIp: Option<string>, now: int)
    requires now - c.lastLoaded >= CacheTtlMs
    ensures IpWhitelist([], c, reqIp, now).allowed
  {
  }
}
