/** The IP blacklist: stored blocks with an optional expiry, a cache of the
    active blocks that is reloaded at most once a minute, automatic lifting
    of expired blocks on reload, and the guard that turns an active block
    into a 403. */
module Blacklist {
  import opened Wrappers
  import opened Models
  import opened LogLists
  import opened IpUtils

  const CacheTtlMs: int := 60000

  /** A stored block; `expiresAt` is `None` for a permanent block. */
  datatype BlockRecord = BlockRecord(id: string, ip: string, reason: string, expiresAt: Option<int>)

  /** What the cache keeps for an address. */
  datatype Block = Block(reason: string, expiresAt: Option<int>)

  datatype Cache = Cache(cachedAt: int, entries: map<string, Block>)

  /** The cache after `invalidateBlacklistCache`. */
  const EmptyCache: Cache := Cache(0, map[])

  function BlockOf(r: BlockRecord): Block {
    Block(r.reason, r.expiresAt)
  }

  /** `isActiveRecord`: permanent, or expiring strictly after `now`. */
  predicate IsActive(b: Block, now: int) {
    b.expiresAt.None? || b.expiresAt.value > now
  }

  /** The reload's test for a record to lift. */
  predicate Expired(r: BlockRecord, now: int) {
    r.expiresAt.Some? && r.expiresAt.value <= now
  }

  /** The store's unique indexes: one record per id and one per address. */
  predicate WellFormed(store: seq<BlockRecord>) {
    forall i, j :: 0 <= i < j < |store| ==> store[i].id != store[j].id && store[i].ip != store[j].ip
  }

  /** No later record has the same address as record `i`. */
  predicate LastWith(rs: seq<BlockRecord>, i: int)
    requires 0 <= i < |rs|
  {
    forall j :: i < j < |rs| ==> rs[j].ip != rs[i].ip
  }

  /** The addresses of some records. */
  function IpsOf(rs: seq<BlockRecord>): set<string> {
    set i | 0 <= i < |rs| :: rs[i].ip
  }

  /** `new Map(records.map(r => [r.ip, ...]))`: an entry per address, the
      last record with an address winning (see `CacheFromRecord` and
      `CacheLastWins`). */
  function CacheEntries(rs: seq<BlockRecord>): (m: map<string, Block>)
    ensures m.Keys == IpsOf(rs)
    decreases |rs|
  {
    if |rs| == 0 then map[]
    else
      var n := |rs| - 1;
      assert IpsOf(rs) == IpsOf(rs[..n]) + {rs[n].ip} by {
        forall ip | ip in IpsOf(rs)
          ensures ip in IpsOf(rs[..n]) + {rs[n].ip}
        {
          var i :| 0 <= i < |rs| && rs[i].ip == ip;
          if i < n {
            assert rs[..n][i] == rs[i];
          }
        }
      }
      CacheEntries(rs[..n])[rs[n].ip := BlockOf(rs[n])]
  }

  /** Every cached block is the block of some record with its address. */
  lemma {:induction false} CacheFromRecord(rs: seq<BlockRecord>, ip: string)
    requires ip in CacheEntries(rs)
    ensures exists i :: 0 <= i < |rs| && rs[i].ip == ip && CacheEntries(rs)[ip] == BlockOf(rs[i])
    decreases |rs|
  {
    var n := |rs| - 1;
    if ip != rs[n].ip {
      CacheFromRecord(rs[..n], ip);
      var i :| 0 <= i < n && rs[..n][i].ip == ip && CacheEntries(rs[..n])[ip] == BlockOf(rs[..n][i]);
      assert rs[i] == rs[..n][i];
    }
  }

  /** The record that is last with its address supplies the cached block. */
  lemma {:induction false} CacheLastWins(rs: seq<BlockRecord>, i: int)
    requires 0 <= i < |rs| && LastWith(rs, i)
    ensures rs[i].ip in CacheEntries(rs) && CacheEntries(rs)[rs[i].ip] == BlockOf(rs[i])
    decreases |rs|
  {
    var n := |rs| - 1;
    if i < n {
      var init := rs[..n];
      assert init[i] == rs[i];
      assert LastWith(init, i);
      CacheLastWins(init, i);
    }
  }

  /** In a well-formed store the cached block of an address is the block
      of its one record. */
  lemma CacheOfWellFormed(rs: seq<BlockRecord>, i: int)
    requires WellFormed(rs) && 0 <= i < |rs|
    ensures CacheEntries(rs)[rs[i].ip] == BlockOf(rs[i])
  {
    assert LastWith(rs, i);
    CacheLastWins(rs, i);
  }

  /** Records the reload keeps, in store order. */
  function ActiveOf(store: seq<BlockRecord>, now: int): (r: seq<BlockRecord>)
    ensures forall x :: x in r <==> x in store && !Expired(x, now)
    ensures multiset(r) <= multiset(store)
  {
    Keep(store, (x: BlockRecord) => !Expired(x, now))
  }

  /** Records the reload lifts, in store order. */
  function ExpiredOf(store: seq<BlockRecord>, now: int): (r: seq<BlockRecord>)
    ensures forall x :: x in r <==> x in store && Expired(x, now)
    ensures multiset(r) <= multiset(store)
  {
    Keep(store, (x: BlockRecord) => Expired(x, now))
  }

  /** The reload's partition is exhaustive and, record for record, exact. */
  lemma PartitionExact(store: seq<BlockRecord>, now: int)
    ensures multiset(ActiveOf(store, now)) + multiset(ExpiredOf(store, now)) == multiset(store)
    ensures |ActiveOf(store, now)| + |ExpiredOf(store, now)| == |store|
  {
    KeepSplit(store, (x: BlockRecord) => !Expired(x, now), (x: BlockRecord) => Expired(x, now));
  }

  /** A record the reload keeps is active at that time. */
  lemma KeptIsActive(x: BlockRecord, now: int)
    ensures !Expired(x, now) <==> IsActive(BlockOf(x), now)
  {
  }

  /** One "automatically lifted" SECURITY entry per lifted record. */
  function LiftedEntries(expired: seq<BlockRecord>): (r: seq<SystemEntry>)
    ensures |r| == |expired|
    ensures forall i :: 0 <= i < |expired| ==>
      r[i] == SystemEntry("SECURITY", ["BLACKLIST", "SECURITY"], expired[i].ip, "blacklist-cleanup", "")
  {
    seq(|expired|, i requires 0 <= i < |expired| =>
      SystemEntry("SECURITY", ["BLACKLIST", "SECURITY"], expired[i].ip, "blacklist-cleanup", ""))
  }

  /** The cache is a minute old or older. */
  predicate Stale(c: Cache, now: int) {
    now - c.cachedAt >= CacheTtlMs
  }

  datatype Refreshed = Refreshed(store: seq<BlockRecord>, cache: Cache, system: seq<SystemEntry>)

  /** `refreshCache(force)`. A fresh cache is kept without reading the
      store; otherwise expired records are deleted and reported, and the
      cache holds exactly the remaining ones. */
  function Refresh(store: seq<BlockRecord>, c: Cache, force: bool, now: int): (r: Refreshed)
    ensures !force && !Stale(c, now) ==> r == Refreshed(store, c, [])
    ensures force || Stale(c, now) ==>
      r.store == ActiveOf(store, now)
      && r.cache == Cache(now, CacheEntries(ActiveOf(store, now)))
      && r.system == LiftedEntries(ExpiredOf(store, now))
  {
    if !force && !Stale(c, now) then Refreshed(store, c, [])
    else
      var active := ActiveOf(store, now);
      Refreshed(active, Cache(now, CacheEntries(active)), LiftedEntries(ExpiredOf(store, now)))
  }

  /** After a reload every cached block is active and belongs to a
      remaining record with that address, and no expired record is left. */
  lemma RefreshCachesActive(store: seq<BlockRecord>, c: Cache, force: bool, now: int, ip: string)
    requires force || Stale(c, now)
    ensures var r := Refresh(store, c, force, now);
      (ip in r.cache.entries ==> IsActive(r.cache.entries[ip], now))
      && (ip in r.cache.entries <==> exists x :: x in store && !Expired(x, now) && x.ip == ip)
      && forall x :: x in r.store ==> !Expired(x, now)
  {
    var active := ActiveOf(store, now);
    var m := CacheEntries(active);
    assert Refresh(store, c, force, now).cache.entries == m && Refresh(store, c, force, now).store == active;
    if ip in m {
      assert IsActive(m[ip], now) && exists x :: x in store && !Expired(x, now) && x.ip == ip by {
        CacheFromRecord(active, ip);
        var i :| 0 <= i < |active| && active[i].ip == ip && m[ip] == BlockOf(active[i]);
        assert active[i] in active;
      }
    }
    if exists x :: x in store && !Expired(x, now) && x.ip == ip {
      assert ip in m by {
        var x :| x in store && !Expired(x, now) && x.ip == ip;
        assert x in active;
        var i :| 0 <= i < |active| && active[i] == x;
        assert ip in IpsOf(active);
      }
    }
  }

  /** A reload of a well-formed store leaves it well-formed. */
  lemma {:induction false} KeepWellFormed(store: seq<BlockRecord>, p: BlockRecord -> bool)
    requires WellFormed(store)
    ensures WellFormed(Keep(store, p))
    decreases |store|
  {
    if |store| > 0 {
      KeepWellFormed(store[1..], p);
      var rest := Keep(store[1..], p);
      if p(store[0]) {
        var r := [store[0]] + rest;
        forall i, j | 0 <= i < j < |r|
          ensures r[i].id != r[j].id && r[i].ip != r[j].ip
        {
          if i == 0 {
            assert r[j] in rest;
            var k :| 0 <= k < |store[1..]| && store[1..][k] == r[j];
            assert store[k + 1] == r[j];
          }
        }
      }
    }
  }

  datatype Lookup = Lookup(block: Option<Block>, store: seq<BlockRecord>, cache: Cache, system: seq<SystemEntry>)

  /** `findActiveBlock(ip)`: the address is normalised, the cache refreshed
      when stale, and a cached block is returned only while it is still
      active. */
  function FindActiveBlock(store: seq<BlockRecord>, c: Cache, ip: string, now: int): (r: Lookup)
    ensures var f := Refresh(store, c, false, now);
      r.store == f.store && r.cache == f.cache && r.system == f.system
    ensures var key := NormalizeIp(Some(ip));
      r.block.Some? <==> key in r.cache.entries && IsActive(r.cache.entries[key], now)
    ensures r.block.Some? ==> r.block == Some(r.cache.entries[NormalizeIp(Some(ip))])
  {
    var key := NormalizeIp(Some(ip));
    var f := Refresh(store, c, false, now);
    var b := if key in f.cache.entries && IsActive(f.cache.entries[key], now) then Some(f.cache.entries[key]) else None;
    Lookup(b, f.store, f.cache, f.system)
  }

  /** A block that expired since the last reload is no longer reported,
      even from a fresh cache. */
  lemma ExpiredSinceReloadIgnored(store: seq<BlockRecord>, c: Cache, ip: string, now: int)
    requires !Stale(c, now)
    requires NormalizeIp(Some(ip)) in c.entries && !IsActive(c.entries[NormalizeIp(Some(ip))], now)
    ensures FindActiveBlock(store, c, ip, now).block.None?
    ensures FindActiveBlock(store, c, ip, now).store == store
  {
  }

  /** With a stale cache the lookup sees the store as it is: an address is
      blocked exactly when an unexpired record for it exists, and in a
      well-formed store the block is that record's. */
  lemma StaleLookupSeesStore(store: seq<BlockRecord>, c: Cache, ip: string, now: int, x: BlockRecord)
    requires Stale(c, now) && WellFormed(store)
    requires x in store && x.ip == NormalizeIp(Some(ip))
    ensures FindActiveBlock(store, c, ip, now).block == if Expired(x, now) then None else Some(BlockOf(x))
  {
    var key := NormalizeIp(Some(ip));
    var active := ActiveOf(store, now);
    RefreshCachesActive(store, c, false, now, key);
    KeepWellFormed(store, (y: BlockRecord) => !Expired(y, now));
    if !Expired(x, now) {
      assert x in active;
      var i :| 0 <= i < |active| && active[i] == x;
      CacheOfWellFormed(active, i);
    }
  }

  /** After invalidation the next lookup reloads (the clock is past the
      first minute). */
  lemma InvalidateForcesReload(store: seq<BlockRecord>, ip: string, now: int)
    requires now >= CacheTtlMs
    ensures FindActiveBlock(store, EmptyCache, ip, now).cache == Cache(now, CacheEntries(ActiveOf(store, now)))
  {
  }

  // ---------------------------------------------------------------------
  // Edits
  // ---------------------------------------------------------------------

  /** One "blacklist-settings" SECURITY entry for an edited record. */
  function SettingsEntry(r: BlockRecord): SystemEntry {
    SystemEntry("SECURITY", ["BLACKLIST", "SETTINGS"], r.ip, "blacklist-settings", "")
  }

  /** The outcome of an edit: the store refuses an empty address or reason
      (both fields are required) and a duplicate id or address (its unique
      indexes), a missing id changes nothing, and a change empties the cache
      and writes an entry. */
  datatype EditResult =
    | Refused
    | Missing
    | Changed(store: seq<BlockRecord>, cache: Cache, record: BlockRecord, system: seq<SystemEntry>)

  predicate HasIp(store: seq<BlockRecord>, ip: string) {
    exists i :: 0 <= i < |store| && store[i].ip == ip
  }

  predicate HasId(store: seq<BlockRecord>, id: string) {
    exists i :: 0 <= i < |store| && store[i].id == id
  }

  /** `createBlacklistEntry`: the address is normalised before it is
      stored, and the store refuses a record whose address normalises to
      the empty string or whose reason is empty. */
  function CreateEntry(store: seq<BlockRecord>, c: Cache, ip: string, reason: string, expiresAt: Option<int>,
                       newId: string): (r: EditResult)
    ensures !r.Missing?
    ensures r.Refused? <==>
      NormalizeIp(Some(ip)) == "" || reason == "" || HasIp(store, NormalizeIp(Some(ip))) || HasId(store, newId)
    ensures r.Changed? ==>
      r.record == BlockRecord(newId, NormalizeIp(Some(ip)), reason, expiresAt)
      && r.store == store + [r.record] && r.cache == EmptyCache && r.system == [SettingsEntry(r.record)]
  {
    var rec := BlockRecord(newId, NormalizeIp(Some(ip)), reason, expiresAt);
    if rec.ip == "" || reason == "" || HasIp(store, rec.ip) || HasId(store, newId) then Refused
    else Changed(store + [rec], EmptyCache, rec, [SettingsEntry(rec)])
  }

  lemma CreateKeepsWellFormed(store: seq<BlockRecord>, c: Cache, ip: string, reason: string, expiresAt: Option<int>,
                              newId: string)
    requires WellFormed(store)
    requires CreateEntry(store, c, ip, reason, expiresAt, newId).Changed?
    ensures WellFormed(CreateEntry(store, c, ip, reason, expiresAt, newId).store)
  {
    var r := CreateEntry(store, c, ip, reason, expiresAt, newId);
    forall i, j | 0 <= i < j < |r.store|
      ensures r.store[i].id != r.store[j].id && r.store[i].ip != r.store[j].ip
    {
      if j == |store| {
        assert r.store[i] == store[i];
      }
    }
  }

  /** The fields an update supplies; `expiresAt` may be supplied as `None`
      to make a block permanent. */
  datatype BlockUpdate = BlockUpdate(ip: Option<string>, reason: Option<string>, expiresAt: Option<Option<int>>)

  /** The selective update of `updateBlacklistEntry`. */
  function ApplyUpdate(r: BlockRecord, u: BlockUpdate): (s: BlockRecord)
    ensures s.id == r.id
    ensures s.ip == if u.ip.Some? then NormalizeIp(u.ip) else r.ip
    ensures s.reason == u.reason.GetOr(r.reason)
    ensures s.expiresAt == u.expiresAt.GetOr(r.expiresAt)
  {
    BlockRecord(r.id, if u.ip.Some? then NormalizeIp(u.ip) else r.ip, u.reason.GetOr(r.reason), u.expiresAt.GetOr(r.expiresAt))
  }

  /** Applying an empty update keeps the record. */
  lemma EmptyUpdateKeeps(r: BlockRecord)
    ensures ApplyUpdate(r, BlockUpdate(None, None, None)) == r
  {
  }

  /** The position of the record with an id. */
  function PositionOf(store: seq<BlockRecord>, id: string): (r: Option<nat>)
    ensures r.None? <==> !HasId(store, id)
    ensures r.Some? ==> r.value < |store| && store[r.value].id == id
    ensures r.Some? ==> forall j :: 0 <= j < r.value ==> store[j].id != id
    decreases |store|
  {
    if |store| == 0 then None
    else if store[0].id == id then Some(0)
    else
      var rest := PositionOf(store[1..], id);
      if rest.None? then
        assert forall i :: 0 < i < |store| ==> store[i] == store[1..][i - 1];
        None
      else Some(rest.value + 1)
  }

  /** The update validators (`runValidators`): a supplied address must not
      normalise to the empty string and a supplied reason must not be
      empty. */
  predicate UpdateValid(u: BlockUpdate) {
    (u.ip.Some? ==> NormalizeIp(u.ip) != "") && (u.reason.Some? ==> u.reason.value != "")
  }

  /** `updateBlacklistEntry`: an update the validators refuse fails before
      the record is looked up; otherwise only the record with the id
      changes, and only in the fields supplied. */
  function UpdateEntry(store: seq<BlockRecord>, c: Cache, id: string, u: BlockUpdate): (r: EditResult)
    ensures !UpdateValid(u) ==> r.Refused?
    ensures r.Missing? <==> UpdateValid(u) && !HasId(store, id)
    ensures r.Changed? ==>
      var i := PositionOf(store, id).value;
      r.record == ApplyUpdate(store[i], u)
      && r.store == store[i := r.record] && r.cache == EmptyCache && r.system == [SettingsEntry(r.record)]
    ensures r.Refused? && UpdateValid(u) ==>
      var i := PositionOf(store, id).value;
      exists j :: 0 <= j < |store| && j != i && store[j].ip == ApplyUpdate(store[i], u).ip
  {
    if !UpdateValid(u) then Refused
    else match PositionOf(store, id)
    case None => Missing
    case Some(i) =>
      var updated := ApplyUpdate(store[i], u);
      if exists j :: 0 <= j < |store| && j != i && store[j].ip == updated.ip then Refused
      else Changed(store[i := updated], EmptyCache, updated, [SettingsEntry(updated)])
  }

  /** An update keeps every other record and the store well-formed. */
  lemma UpdateKeepsOthers(store: seq<BlockRecord>, c: Cache, id: string, u: BlockUpdate)
    requires WellFormed(store)
    requires UpdateEntry(store, c, id, u).Changed?
    ensures var r := UpdateEntry(store, c, id, u);
      WellFormed(r.store) && |r.store| == |store|
      && forall j :: 0 <= j < |store| && store[j].id != id ==> r.store[j] == store[j]
  {
  }

  /** `deleteBlacklistEntry`. */
  function DeleteEntry(store: seq<BlockRecord>, c: Cache, id: string): (r: EditResult)
    ensures !r.Refused?
    ensures r.Missing? <==> !HasId(store, id)
    ensures r.Changed? ==>
      var i := PositionOf(store, id).value;
      r.record == store[i] && r.store == store[..i] + store[i + 1..]
      && r.cache == EmptyCache && r.system == [SettingsEntry(r.record)]
  {
    match PositionOf(store, id)
    case None => Missing
    case Some(i) => Changed(store[..i] + store[i + 1..], EmptyCache, store[i], [SettingsEntry(store[i])])
  }

  /** In a well-formed store a deleted id is gone afterwards. */
  lemma DeleteRemovesId(store: seq<BlockRecord>, c: Cache, id: string)
    requires WellFormed(store) && HasId(store, id)
    ensures !HasId(DeleteEntry(store, c, id).store, id)
  {
    var i := PositionOf(store, id).value;
    var s := DeleteEntry(store, c, id).store;
    forall k | 0 <= k < |s|
      ensures s[k].id != id
    {
      if k < i {
        assert s[k] == store[k];
      } else {
        assert s[k] == store[k + 1];
      }
    }
  }

  // ---------------------------------------------------------------------
  // Guard
  // ---------------------------------------------------------------------

  datatype GuardResult =
    | Pass(store: seq<BlockRecord>, cache: Cache, system: seq<SystemEntry>)
    | Forbidden(store: seq<BlockRecord>, cache: Cache, system: seq<SystemEntry>, reason: string, blockedUntil: Option<int>)

  /** `blacklistGuard`: a request without an address passes without a
      lookup; an active block answers 403 with its reason and expiry after
      a SECURITY entry; everything else passes. The address is normalised
      here and again inside the lookup. */
  function BlacklistGuard(store: seq<BlockRecord>, c: Cache, reqIp: Option<string>, now: int): (r: GuardResult)
    ensures NormalizeIp(reqIp) == "" ==> r == Pass(store, c, [])
    ensures NormalizeIp(reqIp) != "" ==>
      var l := FindActiveBlock(store, c, NormalizeIp(reqIp), now);
      r.store == l.store && r.cache == l.cache
      && (r.Forbidden? <==> l.block.Some?)
      && (r.Pass? ==> r.system == l.system)
      && (r.Forbidden? ==>
            r.reason == l.block.value.reason && r.blockedUntil == l.block.value.expiresAt
            && r.system == l.system + [SystemEntry("SECURITY", ["BLACKLIST", "SECURITY"], NormalizeIp(reqIp), "blacklist-guard", "")])
  {
    var ip := NormalizeIp(reqIp);
    if ip == "" then Pass(store, c, [])
    else
      var l := FindActiveBlock(store, c, ip, now);
      match l.block
      case None => Pass(l.store, l.cache, l.system)
      case Some(b) =>
        Forbidden(l.store, l.cache, l.system + [SystemEntry("SECURITY", ["BLACKLIST", "SECURITY"], ip, "blacklist-guard", "")],
                  b.reason, b.expiresAt)
  }

  /** A request is refused only for a block that is active now. */
  lemma ForbiddenOnlyWhileActive(store: seq<BlockRecord>, c: Cache, reqIp: Option<string>, now: int)
    requires BlacklistGuard(store, c, reqIp, now).Forbidden?
    ensures var r := BlacklistGuard(store, c, reqIp, now);
      r.blockedUntil.None? || r.blockedUntil.value > now
  {
  }

  /** The lookup key is normalised twice: a request address carrying two
      markers is looked up without either, although a block created for
      the same text is stored with one of them still in place. */
  lemma GuardNormalisesTwice(store: seq<BlockRecord>, now: int)
    requires CreateEntry(store, EmptyCache, "::ffff:::ffff:1", "r", None, "b").Changed?
    ensures CreateEntry(store, EmptyCache, "::ffff:::ffff:1", "r", None, "b").record.ip == "::ffff:1"
    ensures NormalizeIp(Some(NormalizeIp(Some("::ffff:::ffff:1")))) == "1"
  {
    NormalizeNotIdempotent();
  }
}
