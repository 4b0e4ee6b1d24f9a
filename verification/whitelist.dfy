/** The IP whitelist: stored entries, the protected administrator address
    taken from the environment, and the middleware that flags whitelisted
    requests from a set reloaded at most once a minute. */
module Whitelist {
  import opened Wrappers
  import opened Strs
  import opened IpUtils

  /** A stored entry; `createdAt` in milliseconds. */
  datatype Entry = Entry(id: string, ip: string, description: Option<string>, createdAt: int)

  /** An entry as the API returns it. */
  datatype Listed = Listed(id: string, ip: string, description: Option<string>, createdAt: int, isProtected: bool)

  /** `resolveAdminIp`: `ADMIN_IP` (`raw`, `''` when unset) normalised and
      trimmed, or nothing when that leaves it empty. */
  function AdminIp(raw: string): (r: Option<string>)
    ensures r.None? <==> Trim(NormalizeIp(Some(raw))) == ""
    ensures r.Some? ==> r.value == Trim(NormalizeIp(Some(raw))) && r.value != "" && Trim(r.value) == r.value
  {
    var v := Trim(NormalizeIp(Some(raw)));
    TrimIdempotent(NormalizeIp(Some(raw)));
    if v == "" then None else Some(v)
  }

  /** An unset or blank `ADMIN_IP` configures no administrator address. */
  lemma BlankAdminIsNone()
    ensures AdminIp("").None? && AdminIp("  ").None?
  {
    TrimAllSpace("  ");
  }

  /** `isAdminIp`: an administrator address is configured and the value
      normalises to it. */
  predicate IsAdminIp(admin: Option<string>, value: string) {
    admin.Some? && NormalizeIp(Some(value)) == admin.value
  }

  /** The position of the first entry stored under an address. */
  function FindIp(store: seq<Entry>, ip: string): (r: Option<nat>)
    ensures r.None? <==> forall i :: 0 <= i < |store| ==> store[i].ip != ip
    ensures r.Some? ==> r.value < |store| && store[r.value].ip == ip
    ensures r.Some? ==> forall j :: 0 <= j < r.value ==> store[j].ip != ip
    decreases |store|
  {
    if |store| == 0 then None
    else if store[0].ip == ip then Some(0)
    else
      var rest := FindIp(store[1..], ip);
      if rest.None? then
        assert forall i :: 0 < i < |store| ==> store[i] == store[1..][i - 1];
        None
      else Some(rest.value + 1)
  }

  function ToListed(admin: Option<string>, e: Entry): Listed {
    Listed(e.id, e.ip, e.description, e.createdAt, IsAdminIp(admin, e.ip))
  }

  datatype UpsertResult = UpsertResult(store: seq<Entry>, entry: Listed)

  /** `upsertWhitelistEntry`: the address is normalised; an existing entry
      keeps its description unless one is given, a new entry is appended. */
  function Upsert(store: seq<Entry>, admin: Option<string>, ip: string, description: Option<string>,
                  newId: string, now: int): (r: UpsertResult)
    ensures var n := NormalizeIp(Some(ip));
      match FindIp(store, n)
      case None =>
        r.store == store + [Entry(newId, n, description, now)]
      case Some(i) =>
        r.store == store[i := store[i].(description := if description.Some? then description else store[i].description)]
    ensures r.entry.ip == NormalizeIp(Some(ip)) && r.entry.isProtected == IsAdminIp(admin, r.entry.ip)
    ensures description.Some? ==> r.entry.description == description
  {
    var n := NormalizeIp(Some(ip));
    match FindIp(store, n)
    case None =>
      var e := Entry(newId, n, description, now);
      UpsertResult(store + [e], ToListed(admin, e))
    case Some(i) =>
      var e := store[i].(description := if description.Some? then description else store[i].description);
      UpsertResult(store[i := e], ToListed(admin, e))
  }

  /** Upserting the same address twice leaves one entry for it. */
  lemma UpsertTwiceOneEntry(store: seq<Entry>, admin: Option<string>, ip: string, d1: Option<string>, d2: Option<string>,
                            id1: string, id2: string, t1: int, t2: int)
    ensures var s1 := Upsert(store, admin, ip, d1, id1, t1).store;
      |Upsert(s1, admin, ip, d2, id2, t2).store| == |s1|
  {
    var n := NormalizeIp(Some(ip));
    var s1 := Upsert(store, admin, ip, d1, id1, t1).store;
    if FindIp(store, n).None? {
      assert s1[|store|].ip == n;
    } else {
      var i := FindIp(store, n).value;
      assert s1[i].ip == n;
    }
  }

  datatype RemoveResult = Deleted(store: seq<Entry>) | Protected | NotFound

  /** `removeWhitelistEntry`: the administrator address is refused before
      the store is searched. */
  function Remove(store: seq<Entry>, admin: Option<string>, ip: string): (r: RemoveResult)
    ensures r.Protected? <==> admin.Some? && NormalizeIp(Some(ip)) == admin.value
    ensures r.NotFound? <==> !r.Protected? && FindIp(store, NormalizeIp(Some(ip))).None?
    ensures r.Deleted? ==> var i := FindIp(store, NormalizeIp(Some(ip))).value;
      r.store == store[..i] + store[i + 1..]
  {
    var n := NormalizeIp(Some(ip));
    if admin.Some? && n == admin.value then Protected
    else
      match FindIp(store, n)
      case None => NotFound
      case Some(i) => Deleted(store[..i] + store[i + 1..])
  }

  /** The administrator address is never deleted, whatever the store
      holds. */
  lemma AdminNeverRemoved(store: seq<Entry>, raw: string)
    requires AdminIp(raw).Some?
    requires !Contains(AdminIp(raw).value, MappedPrefix)
    ensures Remove(store, AdminIp(raw), AdminIp(raw).value) == Protected
  {
  }

  predicate NormalisesTo(e: Entry, admin: string) {
    NormalizeIp(Some(e.ip)) == admin
  }

  /** The stored entries as the API returns them, in stored order. */
  function ListedAll(store: seq<Entry>, admin: Option<string>): (r: seq<Listed>)
    ensures |r| == |store| && forall i :: 0 <= i < |store| ==> r[i] == ToListed(admin, store[i])
  {
    seq(|store|, i requires 0 <= i < |store| => ToListed(admin, store[i]))
  }

  /** Newest first: `createdAt` never increases along the list. */
  predicate NewestListed(s: seq<Listed>) {
    forall i, j :: 0 <= i < j < |s| ==> s[i].createdAt >= s[j].createdAt
  }

  /** `x` placed before the first entry created before it. */
  function InsertListed(x: Listed, s: seq<Listed>): (r: seq<Listed>)
    requires NewestListed(s)
    ensures NewestListed(r)
    ensures multiset(r) == multiset(s) + multiset{x}
    ensures |r| == |s| + 1
    decreases |s|
  {
    if |s| == 0 then [x]
    else if x.createdAt >= s[0].createdAt then [x] + s
    else
      var rest := InsertListed(x, s[1..]);
      assert s == [s[0]] + s[1..];
      assert NoLater(s[0], rest) by {
        forall k | 0 <= k < |rest|
          ensures s[0].createdAt >= rest[k].createdAt
        {
          assert rest[k] in multiset(rest);
          if rest[k] != x {
            assert rest[k] in multiset(s[1..]);
            var j :| 0 <= j < |s[1..]| && s[1..][j] == rest[k];
            assert s[j + 1] == rest[k];
          }
        }
      }
      ConsNewestListed(s[0], rest);
      [s[0]] + rest
  }

  /** No entry of `s` was created after `x`. */
  predicate NoLater(x: Listed, s: seq<Listed>) {
    forall k :: 0 <= k < |s| ==> x.createdAt >= s[k].createdAt
  }

  lemma ConsNewestListed(x: Listed, s: seq<Listed>)
    requires NewestListed(s) && NoLater(x, s)
    ensures NewestListed([x] + s)
  {
    var r := [x] + s;
    forall i, j | 0 <= i < j < |r|
      ensures r[i].createdAt >= r[j].createdAt
    {
      if i > 0 {
        assert r[i] == s[i - 1] && r[j] == s[j - 1];
      }
    }
  }

  /** `.sort({ createdAt: -1 })`: the same entries, newest first; entries
      created at the same instant keep no promised order. */
  function SortListed(s: seq<Listed>): (r: seq<Listed>)
    ensures NewestListed(r)
    ensures multiset(r) == multiset(s)
    ensures |r| == |s|
    decreases |s|
  {
    if |s| == 0 then []
    else
      assert s == [s[0]] + s[1..];
      InsertListed(s[0], SortListed(s[1..]))
  }

  /** The synthetic entry shown for an administrator address nobody stored. */
  function AdminListed(admin: string): Listed {
    Listed(admin, admin, None, 0, true)
  }

  /** `listWhitelistEntries`: the stored entries newest first, each marked
      protected when it is the administrator address, and after them a
      synthetic protected entry for the administrator address when no
      stored entry normalises to it. */
  function List(store: seq<Entry>, admin: Option<string>): (r: seq<Listed>)
    ensures var extra := admin.Some? && forall i :: 0 <= i < |store| ==> !NormalisesTo(store[i], admin.value);
      |r| == |store| + (if extra then 1 else 0)
      && multiset(r[..|store|]) == multiset(ListedAll(store, admin))
      && NewestListed(r[..|store|])
      && (extra ==> r[|store|] == AdminListed(admin.value))
  {
    var sorted := SortListed(ListedAll(store, admin));
    if admin.Some? && forall i :: 0 <= i < |store| ==> !NormalisesTo(store[i], admin.value)
    then
      assert (sorted + [AdminListed(admin.value)])[..|store|] == sorted;
      sorted + [AdminListed(admin.value)]
    else
      assert sorted[..|store|] == sorted;
      sorted
  }

  /** Two entries listed in the order opposite to their creation. */
  lemma SortTwo(x: Listed, y: Listed)
    requires x.createdAt < y.createdAt
    ensures SortListed([x, y]) == [y, x]
  {
    assert [x, y][1..] == [y] && [y][1..] == [];
  }

  /** Two entries stored oldest first are listed newest first. */
  lemma ListNewestFirstExample(a: Entry, b: Entry)
    requires a.createdAt < b.createdAt
    ensures List([a, b], None) == [ToListed(None, b), ToListed(None, a)]
  {
    var m := ListedAll([a, b], None);
    assert m == [ToListed(None, a), ToListed(None, b)];
    SortTwo(m[0], m[1]);
  }

  /** The listed entries that normalise to an address. */
  function CountNormalising(l: seq<Listed>, a: string): nat {
    if |l| == 0 then 0
    else (if NormalizeIp(Some(l[0].ip)) == a then 1 else 0) + CountNormalising(l[1..], a)
  }

  function CountStored(s: seq<Entry>, a: string): nat {
    if |s| == 0 then 0
    else (if NormalisesTo(s[0], a) then 1 else 0) + CountStored(s[1..], a)
  }

  lemma {:induction false} CountMapped(store: seq<Entry>, admin: Option<string>, a: string, l: seq<Listed>)
    requires |l| == |store| && forall i :: 0 <= i < |store| ==> l[i] == ToListed(admin, store[i])
    ensures CountNormalising(l, a) == CountStored(store, a)
    decreases |store|
  {
    if |store| > 0 {
      CountMapped(store[1..], admin, a, l[1..]);
    }
  }

  lemma {:induction false} CountZero(store: seq<Entry>, a: string)
    requires forall i :: 0 <= i < |store| ==> !NormalisesTo(store[i], a)
    ensures CountStored(store, a) == 0
    decreases |store|
  {
    if |store| > 0 {
      assert forall i :: 0 <= i < |store[1..]| ==> store[1..][i] == store[i + 1];
      CountZero(store[1..], a);
    }
  }

  lemma {:induction false} CountPositive(store: seq<Entry>, a: string, k: int)
    requires 0 <= k < |store| && NormalisesTo(store[k], a)
    ensures CountStored(store, a) >= 1
    decreases |store|
  {
    if k > 0 {
      CountPositive(store[1..], a, k - 1);
    }
  }

  lemma {:induction false} CountAppend(l: seq<Listed>, x: Listed, a: string)
    ensures CountNormalising(l + [x], a) == CountNormalising(l, a) + (if NormalizeIp(Some(x.ip)) == a then 1 else 0)
    decreases |l|
  {
    if |l| > 0 {
      assert (l + [x])[1..] == l[1..] + [x];
      CountAppend(l[1..], x, a);
    }
  }

  lemma {:induction false} InsertKeepsCount(x: Listed, s: seq<Listed>, a: string)
    requires NewestListed(s)
    ensures CountNormalising(InsertListed(x, s), a) == CountNormalising(s, a) + (if NormalizeIp(Some(x.ip)) == a then 1 else 0)
    decreases |s|
  {
    if |s| > 0 && x.createdAt < s[0].createdAt {
      InsertKeepsCount(x, s[1..], a);
      var r := InsertListed(x, s);
      assert r[1..] == InsertListed(x, s[1..]);
    }
  }

  lemma {:induction false} SortKeepsCount(s: seq<Listed>, a: string)
    ensures CountNormalising(SortListed(s), a) == CountNormalising(s, a)
    decreases |s|
  {
    if |s| > 0 {
      SortKeepsCount(s[1..], a);
      InsertKeepsCount(s[0], SortListed(s[1..]), a);
    }
  }

  /** With an administrator address configured (one that normalising leaves
      alone) and at most one stored entry for it, the listing shows it
      exactly once. */
  lemma ListAdminOnce(store: seq<Entry>, admin: string)
    requires NormalizeIp(Some(admin)) == admin
    requires CountStored(store, admin) <= 1
    ensures CountNormalising(List(store, Some(admin)), admin) == 1
  {
    var r := List(store, Some(admin));
    var mapped := ListedAll(store, Some(admin));
    var sorted := SortListed(mapped);
    CountMapped(store, Some(admin), admin, mapped);
    SortKeepsCount(mapped, admin);
    if forall i :: 0 <= i < |store| ==> !NormalisesTo(store[i], admin) {
      CountZero(store, admin);
      assert r == sorted + [AdminListed(admin)];
      CountAppend(sorted, AdminListed(admin), admin);
    } else {
      var k :| 0 <= k < |store| && NormalisesTo(store[k], admin);
      CountPositive(store, admin, k);
      assert r == sorted;
    }
  }

  /** `ensureAdminIpInWhitelist`: the administrator address is inserted
      only when no entry has it. */
  function EnsureAdminIp(store: seq<Entry>, admin: Option<string>, newId: string, now: int): (r: seq<Entry>)
    ensures admin.None? || FindIp(store, admin.value).Some? ==> r == store
    ensures admin.Some? && FindIp(store, admin.value).None? ==> r == store + [Entry(newId, admin.value, None, now)]
  {
    if admin.None? || FindIp(store, admin.value).Some? then store
    else store + [Entry(newId, admin.value, None, now)]
  }

  /** Ensuring the administrator address twice is ensuring it once. */
  lemma EnsureAdminIdempotent(store: seq<Entry>, admin: Option<string>, id1: string, id2: string, t1: int, t2: int)
    ensures EnsureAdminIp(EnsureAdminIp(store, admin, id1, t1), admin, id2, t2) == EnsureAdminIp(store, admin, id1, t1)
  {
    var s1 := EnsureAdminIp(store, admin, id1, t1);
    if admin.Some? && FindIp(store, admin.value).None? {
      assert s1[|store|].ip == admin.value;
    }
  }

  // ---------------------------------------------------------------------
  // Middleware
  // ---------------------------------------------------------------------

  const CacheTtlMs: int := 60000

  datatype IpCache = IpCache(ips: set<string>, lastLoaded: int)

  /** The cache after `invalidateWhitelistCache`. */
  const EmptyIpCache: IpCache := IpCache({}, 0)

  /** The reloaded set: every stored address normalised, plus the
      administrator address, without empty strings. */
  function CachedSet(store: seq<Entry>, admin: Option<string>): (r: set<string>)
    ensures forall x :: x in r <==> x != "" && ((exists i :: 0 <= i < |store| && NormalizeIp(Some(store[i].ip)) == x) || admin == Some(x))
  {
    var stored := set i | 0 <= i < |store| :: NormalizeIp(Some(store[i].ip));
    (stored + (if admin.Some? then {admin.value} else {})) - {""}
  }

  /** `refreshCache`: reload only when the set is a minute old or older. */
  function RefreshIps(store: seq<Entry>, admin: Option<string>, c: IpCache, now: int): (r: IpCache)
    ensures now - c.lastLoaded < CacheTtlMs ==> r == c
    ensures now - c.lastLoaded >= CacheTtlMs ==> r == IpCache(CachedSet(store, admin), now)
  {
    if now - c.lastLoaded < CacheTtlMs then c else IpCache(CachedSet(store, admin), now)
  }

  /** The decision of the middleware: a non-empty address in the set, or a
      loopback address. */
  predicate IsWhitelisted(ips: set<string>, ip: string) {
    (ip != "" && ip in ips) || IsLoopback(ip)
  }

  /** What `ipWhitelist` leaves behind. It has no rejecting outcome: the
      request always continues, with the flag set. */
  datatype Flagged = Flagged(cache: IpCache, isWhitelistedIp: bool)

  function IpWhitelist(store: seq<Entry>, admin: Option<string>, c: IpCache, reqIp: Option<string>, now: int): (r: Flagged)
    ensures r.cache == RefreshIps(store, admin, c, now)
    ensures r.isWhitelistedIp <==> IsWhitelisted(r.cache.ips, NormalizeIp(reqIp))
  {
    var loaded := RefreshIps(store, admin, c, now);
    Flagged(loaded, IsWhitelisted(loaded.ips, NormalizeIp(reqIp)))
  }

  /** After a reload the administrator address is whitelisted, and so is
      every stored address under its normalised form. */
  lemma ReloadedAdminWhitelisted(store: seq<Entry>, admin: string, c: IpCache, now: int, i: int)
    requires admin != "" && 0 <= i < |store| && NormalizeIp(Some(store[i].ip)) != ""
    requires now - c.lastLoaded >= CacheTtlMs
    ensures IpWhitelist(store, Some(admin), c, Some(admin), now).isWhitelistedIp
            || NormalizeIp(Some(admin)) != admin
    ensures NormalizeIp(Some(store[i].ip)) in RefreshIps(store, Some(admin), c, now).ips
  {
  }

  /** A missing request address is never whitelisted. */
  lemma NoAddressNotWhitelisted(store: seq<Entry>, admin: Option<string>, c: IpCache, now: int)
    ensures !IpWhitelist(store, admin, c, None, now).isWhitelistedIp
  {
  }

  /** After invalidation the next request reloads (the clock is past the
      first minute). */
  lemma InvalidateForcesIpReload(store: seq<Entry>, admin: Option<string>, now: int)
    requires now >= CacheTtlMs
    ensures RefreshIps(store, admin, EmptyIpCache, now) == IpCache(CachedSet(store, admin), now)
  {
  }
}
