/** The system settings record (the per-minute rate limit) behind a cache
    that is trusted for a minute, written through on update. */
module SystemSettings {
  import opened Wrappers

  const DefaultRateLimit: int := 120
  const CacheTtlMs: int := 60000

  /** The stored settings; `rateLimitPerMinute` may be missing from an old
      record. */
  datatype Settings = Settings(rateLimitPerMinute: Option<int>)

  /** The cached record and when it was loaded. */
  datatype SettingsCache = SettingsCache(cached: Option<Settings>, loadedAt: int)

  /** The cache after `clearSettingsCache`. */
  const ClearedCache: SettingsCache := SettingsCache(None, 0)

  predicate Current(c: SettingsCache, now: int) {
    c.cached.Some? && now - c.loadedAt < CacheTtlMs
  }

  /** `store` is the settings record, `None` while it does not exist. */
  datatype Loaded = Loaded(settings: Settings, store: Option<Settings>, cache: SettingsCache, readStore: bool)

  /** `loadSettings`: a fresh cache answers without reading the store;
      otherwise the record is read, created with the default limit when
      missing, and cached. */
  function LoadSettings(store: Option<Settings>, c: SettingsCache, now: int): (r: Loaded)
    ensures Current(c, now) ==> r == Loaded(c.cached.value, store, c, false)
    ensures !Current(c, now) ==> r.readStore && r.cache == SettingsCache(Some(r.settings), now) && r.store == Some(r.settings)
    ensures !Current(c, now) && store.Some? ==> r.settings == store.value
    ensures !Current(c, now) && store.None? ==> r.settings == Settings(Some(DefaultRateLimit))
  {
    if Current(c, now) then Loaded(c.cached.value, store, c, false)
    else
      match store
      case Some(s) => Loaded(s, store, SettingsCache(Some(s), now), true)
      case None =>
        var created := Settings(Some(DefaultRateLimit));
        Loaded(created, Some(created), SettingsCache(Some(created), now), true)
  }

  datatype RateLimit = RateLimit(value: int, store: Option<Settings>, cache: SettingsCache)

  /** `getRateLimitValue`: the loaded limit, or the default when the field
      is missing. */
  function GetRateLimit(store: Option<Settings>, c: SettingsCache, now: int): (r: RateLimit)
    ensures var l := LoadSettings(store, c, now);
      r.value == l.settings.rateLimitPerMinute.GetOr(DefaultRateLimit) && r.store == l.store && r.cache == l.cache
  {
    var l := LoadSettings(store, c, now);
    RateLimit(l.settings.rateLimitPerMinute.GetOr(DefaultRateLimit), l.store, l.cache)
  }

  /** A first read on an empty store creates the record with 120. */
  lemma FirstReadCreatesDefault(c: SettingsCache, now: int)
    requires !Current(c, now)
    ensures GetRateLimit(None, c, now).value == DefaultRateLimit
    ensures GetRateLimit(None, c, now).store == Some(Settings(Some(DefaultRateLimit)))
  {
  }

  datatype Updated = Updated(store: Option<Settings>, cache: SettingsCache)

  /** `updateRateLimitValue`: the upsert writes the value, and the cache is
      refreshed with the written record. */
  function UpdateRateLimit(store: Option<Settings>, c: SettingsCache, value: int, now: int): (r: Updated)
    ensures r.store == Some(Settings(Some(value)))
    ensures r.cache == SettingsCache(r.store, now)
  {
    var s := Settings(Some(value));
    Updated(Some(s), SettingsCache(Some(s), now))
  }

  /** Write-through: within a minute of an update every read returns the
      new value without touching the store. */
  lemma ReadAfterUpdate(store: Option<Settings>, c: SettingsCache, value: int, t0: int, t1: int)
    requires t0 <= t1 < t0 + CacheTtlMs
    ensures var u := UpdateRateLimit(store, c, value, t0);
      var g := GetRateLimit(u.store, u.cache, t1);
      g.value == value && g.cache == u.cache && !LoadSettings(u.store, u.cache, t1).readStore
  {
  }

  /** After the cache is cleared the next read goes to the store and sees
      what the store holds. */
  lemma ClearForcesReload(store: Option<Settings>, now: int)
    ensures LoadSettings(store, ClearedCache, now).readStore
    ensures store.Some? ==> GetRateLimit(store, ClearedCache, now).value == store.value.rateLimitPerMinute.GetOr(DefaultRateLimit)
  {
  }

  /** A cached value older than a minute is reloaded, so a change made to
      the store behind the cache is seen within a minute. */
  lemma StaleCacheSeesStore(s: Settings, c: SettingsCache, now: int)
    requires now - c.loadedAt >= CacheTtlMs
    ensures GetRateLimit(Some(s), c, now).value == s.rateLimitPerMinute.GetOr(DefaultRateLimit)
  {
  }
}
