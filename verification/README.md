# simple-logger, modelled in Dafny

simple-logger is a logging service. Projects send log records to an Express
API backed by MongoDB. The API stores them, lets an administrator query and
delete them, and raises Telegram alerts for selected records. Around it sit
the access-control layer (login lockout, sessions, IP blacklist and
whitelist, rate-limit exemptions), on-demand ping checks of monitored URLs,
a TypeScript client library that queues records for the API and for local
files, and two React admin interfaces.

This project models the decision logic of those parts as pure Dafny
functions over immutable datatypes, and proves what the code promises about
them. Time is an explicit integer `now` in milliseconds. The store is a
value (a sequence or map) passed in and returned, and it refuses what the
mongoose schemas refuse on the modelled writes and queries: an empty
required string, an Invalid Date and a duplicate unique key. JavaScript
string lengths that a schema bounds are counted in UTF-16 code units. The Telegram transport,
HTTP probes, the file system and the clock become parameters, or values
that the functions return (a message that would be sent, a file map after an append).
JSON serialisation, ISO timestamps, `encodeURIComponent`, URL validation and
uuid generation are parameters of the functions that need them.

One module per component of the system:

- `Wrappers`, `Strs`, `Json`, `Models`, `LogLists`: shared option and result
  types, the JavaScript string built-ins, decoded request bodies with the
  schema combinators, the stored entities, and list selection and ordering.
- Server: `IpUtils`, `Blacklist`, `Whitelist`, `LegacyWhitelist`,
  `RateLimiter`, `SystemSettings`, `LoginAttempts`, `SessionStore`, `Auth`,
  `LogFilters`, `LogController`, `ProjectController`, `PingMonitor`,
  `Notifier`.
- Client library: `RateQueue`, `FileQueue`, `Logger`, `ApiClient`.
- Admin interfaces: `ClientApi`, `ProjectForm`, `PingPage`, `Dashboard`,
  `Formatters`, `Cookies` (the `client/` interface) and `LogsPage`,
  `ProjectsPage`, `AppLayout`, `ApiError`, `Translation` (the `frontend/`
  interface).

Where the written description of the system and the code disagree, the model
follows the code:

- The anti-spam interval of a project is in minutes. The notifier multiplies
  it by 60 000.
- There is no retention. `maxLogEntries` is validated by the project schema
  but is not a field of the stored project, and ingestion never evicts.
- Nothing schedules ping checks. A check runs when a service is created or
  updated and when one is triggered by hand.
- Ping alerts are level-triggered. Every failed check raises the alert again,
  and only the notifier's cooldown holds repeats back.
- A log listing is sorted by timestamp, newest first, and capped at 5000
  records.
- The `client/` ping form clamps the interval to 120..3600 seconds, while the
  server accepts 5..3600.
- The `frontend/` CSV export does not quote its cells. A message or tag
  holding `;` therefore shifts the columns, so `LogsPage.ExportReadsBack`
  is stated for records without `;` or line breaks in their fields.
- The SpamKey of the notifier is the text `uuid:chatId:tag`. Different keys
  can produce the same text when a chat id contains `:`, as
  `Notifier.SpamKeyCollision` shows.
- The older API's whitelist model file `api/src/api/models/Whitelist.ts` is
  not part of this model; the entry shape is taken from
  `src/api/models/Whitelist.ts`.

## Model

| member | source | states |
|---|---|---|
| IpUtils.NormalizeIp | api/src/api/utils/ipUtils.ts:1-6 | a missing or empty address gives `""`; an address without the `::ffff:` marker is kept; otherwise the result is the marker's length shorter |
| IpUtils.NormalizeRemovesFirst | api/src/api/utils/ipUtils.ts:5 | only the first occurrence of the marker is removed, everything around it is kept |
| IpUtils.NormalizeNotIdempotent | api/src/api/utils/ipUtils.ts:5 | normalising twice can differ from normalising once (`::ffff:::ffff:1`) |
| LegacyWhitelist.NormalizeRequestIp | src/api/middlewares/ipWhitelist.ts:8-27 | the older middleware's normalisation of `req.ip ?? ''` removes the first marker and agrees with the shared one |
| LegacyWhitelist.RefreshRaw | src/api/middlewares/ipWhitelist.ts:6-20 | within 60 s of the last load the cache is unchanged; otherwise it holds exactly the stored addresses, unnormalised, stamped now |
| LegacyWhitelist.IpWhitelist | src/api/middlewares/ipWhitelist.ts:25-38 | after the refresh, a request passes iff the cached set is empty, the address is loopback, or the normalised address is cached; otherwise 403 |
| LegacyWhitelist.MappedStoredEntryUnreachable | src/api/middlewares/ipWhitelist.ts:18-34 | a stored address written with the marker never matches the normalised request address |
| LegacyWhitelist.EmptyListAdmitsAll | src/api/middlewares/ipWhitelist.ts:28-30 | with nothing stored every request passes |
| LoginAttempts.RegisterFailure | src/api/utils/loginAttempts.ts:16-23 | the address's count goes up by one; reaching the limit sets the lock to now plus one hour; other addresses are untouched |
| LoginAttempts.Reset | src/api/utils/loginAttempts.ts:25-27 | the address's entry is removed and nothing else changes |
| LoginAttempts.IsLocked | src/api/utils/loginAttempts.ts:29-39 | locked iff a non-zero lock time exists that has not passed; a passed lock is deleted, otherwise the table is unchanged |
| LoginAttempts.FailuresCount | src/api/utils/loginAttempts.ts:16-23 | n failures raise the count by exactly n and, once the limit is reached, the lock is one hour after the last failure |
| LoginAttempts.FiveFailuresLock | src/api/utils/loginAttempts.ts:6-42 | with the default limit of 5, five failures within the hour lock the address |
| SessionStore.Create | src/api/utils/sessionStore.ts:21-32 | the new token maps to a record expiring ttl minutes after now; other sessions are untouched |
| SessionStore.Validate | src/api/utils/sessionStore.ts:37-50 | valid iff the token is non-empty, known and not past its expiry; an expired record is deleted, otherwise nothing changes |
| SessionStore.SessionLifetime | src/api/utils/sessionStore.ts:28-45 | a new session validates at every instant up to its expiry and fails after it |
| SessionStore.ExpiredStaysInvalid | src/api/utils/sessionStore.ts:45-47 | once a token failed as expired, every later validation fails |
| Auth.LoginWith | src/api/controllers/authController.ts:8-23 | a locked address gets 423; matching credentials reset the attempts and create a session; otherwise one failure is registered and 401 returned |
| Auth.LoginAsWritten | src/api/controllers/authController.ts:15 | the login as written compares body and configuration with `===`, undefined included |
| Auth.EmptyBodyAcceptedAsWritten | src/api/controllers/authController.ts:9-15 | as written, with `ADMIN_USER`/`ADMIN_PASS` unset, an empty body logs in |
| Auth.Login | src/api/controllers/authController.ts:8-23 | corrected login: a session is opened only when both configured values exist and equal the body's |
| Auth.LoginCorrected | src/api/controllers/authController.ts:15-22 | without a configured user nobody logs in; where both values are configured the corrected and the as-written login agree |
| Auth.LockedChangesNothing | src/api/controllers/authController.ts:11-13 | a locked address gets 423 and its attempts and the sessions stay as they were |
| Auth.SixthAttemptLocked | src/api/controllers/authController.ts:11-21 | after five failures within the hour the next try is refused as locked, whatever the credentials |
| Auth.BearerToken | src/api/middlewares/authGuard.ts:8 | a missing header gives no token; a header starting with `Bearer ` gives the rest; one without it is passed on whole |
| Auth.AuthGuard | src/api/middlewares/authGuard.ts:7-14 | the request continues exactly when the extracted token validates; a missing header is refused |
| Auth.IssuedTokenPasses | src/api/middlewares/authGuard.ts:8-12 | a token a login just issued passes the guard behind `Bearer ` |
| RateLimiter.ShouldSkip | api/src/api/middlewares/rateLimiter.ts:6-25 | whitelisted requests skip; non-POST, non-`/api/logs`, uuid-less or unknown-project requests do not; otherwise skip iff the project's access level is whitelist or docker |
| RateLimiter.IngestSkipsByAccessLevel | api/src/api/middlewares/rateLimiter.ts:16-24 | for a non-whitelisted log post for a known project, skipping is equivalent to a non-global access level |
| RateLimiter.SkipAsMounted | api/src/app.ts:23-24 | with `rateLimiter` mounted before `ipWhitelist` the flag is still unset, so only a log post for a known non-global project ever skips the limit |
| RateLimiter.SkipWhitelistFirst | api/src/api/middlewares/rateLimiter.ts:6-9 | with the whitelist mounted first every flagged address skips, and any other request is decided as in the mounted order |
| RateLimiter.WhitelistedClientLimitedAsMounted | api/src/app.ts:23-24 | a loopback client reading `/api/projects` is flagged by the whitelist but still limited in the mounted order, and skips with the whitelist first |
| SystemSettings.LoadSettings | api/src/api/services/systemSettings.ts:11-37 | a cache younger than a minute answers without the store; otherwise the stored record is read, or created with 120, and cached now |
| SystemSettings.GetRateLimit | api/src/api/services/systemSettings.ts:39-42 | the loaded record's limit, or 120 when the field is missing |
| SystemSettings.FirstReadCreatesDefault | api/src/api/services/systemSettings.ts:3-27 | a first read on an empty store returns 120 and leaves a record with 120 |
| SystemSettings.UpdateRateLimit | api/src/api/services/systemSettings.ts:44-53 | the upsert stores the new value and the cache holds it, stamped now |
| SystemSettings.ReadAfterUpdate | api/src/api/services/systemSettings.ts:12-51 | within a minute of an update every read returns the new value |
| SystemSettings.ClearForcesReload | api/src/api/services/systemSettings.ts:55-58 | after clearing, the next read goes to the store and returns its value |
| SystemSettings.StaleCacheSeesStore | api/src/api/services/systemSettings.ts:5-12 | a cache older than a minute is reloaded, so a change made in the store is seen |
| Blacklist.CacheEntries | api/src/api/services/blacklist.ts:62 | the cache map has an entry for exactly the addresses of the kept records |
| Blacklist.CacheFromRecord | api/src/api/services/blacklist.ts:62 | every cached block is the reason and expiry of some record with that address |
| Blacklist.CacheLastWins | api/src/api/services/blacklist.ts:62 | when addresses repeat, the last record with the address supplies the cached block, as `new Map` does |
| Blacklist.CacheOfWellFormed | api/src/api/services/blacklist.ts:62 | in a store with unique addresses the cached block of an address is that record's block |
| Blacklist.ActiveOf | api/src/api/services/blacklist.ts:29-39 | the records kept by the reload are exactly the stored ones not yet expired, a sub-multiset of the store |
| Blacklist.ExpiredOf | api/src/api/services/blacklist.ts:29-39 | the records lifted are exactly the stored ones whose expiry is at or before now |
| Blacklist.PartitionExact | api/src/api/services/blacklist.ts:32-39 | kept and lifted records together are the store, record for record |
| Blacklist.KeptIsActive | api/src/api/services/blacklist.ts:17-34 | a record the reload keeps is exactly one `isActiveRecord` accepts at the same instant |
| Blacklist.LiftedEntries | api/src/api/services/blacklist.ts:40-60 | one SECURITY entry tagged BLACKLIST/SECURITY from `blacklist-cleanup` per lifted record, with its address |
| Blacklist.Refresh | api/src/api/services/blacklist.ts:24-64 | a fresh, unforced cache is kept without reading the store; otherwise expired records are deleted and reported, and the cache holds exactly the rest, stamped now |
| Blacklist.RefreshCachesActive | api/src/api/services/blacklist.ts:24-64 | after a reload every cached block is active, an address is cached iff an unexpired record has it, and no expired record remains |
| Blacklist.KeepWellFormed | api/src/api/services/blacklist.ts:42 | deleting records from a store with unique ids and addresses keeps it so |
| Blacklist.FindActiveBlock | api/src/api/services/blacklist.ts:167-178 | the address is normalised, the cache refreshed, and a block is returned only when cached under that address and active now |
| Blacklist.ExpiredSinceReloadIgnored | api/src/api/services/blacklist.ts:174-176 | a cached block that expired since the last reload is not reported and the store is not touched |
| Blacklist.StaleLookupSeesStore | api/src/api/services/blacklist.ts:25-178 | with a stale cache the lookup answers from the store as it is now |
| Blacklist.InvalidateForcesReload | api/src/api/services/blacklist.ts:66-69 | after invalidation the next lookup reloads the cache from the store |
| Blacklist.CreateEntry | api/src/api/services/blacklist.ts:83-105 | the address is normalised and stored with the reason and expiry; the store refuses an address that normalises to the empty string, an empty reason (both required), and a duplicate address or id; a stored entry invalidates the cache and logs one settings entry |
| Blacklist.CreateKeepsWellFormed | api/src/api/services/blacklist.ts:86-90 | a successful create keeps ids and addresses unique |
| Blacklist.ApplyUpdate | api/src/api/services/blacklist.ts:107-117 | only supplied fields change: the address normalised, the reason, the expiry (possibly cleared); the id stays |
| Blacklist.EmptyUpdateKeeps | api/src/api/services/blacklist.ts:108-117 | an update that supplies nothing leaves the record as it is |
| Blacklist.PositionOf | api/src/api/services/blacklist.ts:118-143 | the first record with the id, or none when no record has it |
| Blacklist.UpdateEntry | api/src/api/services/blacklist.ts:107-140 | the update validators refuse a supplied address that normalises to the empty string or an empty reason before the record is looked up; otherwise an unknown id gives null, and only that record changes, unless the new address clashes, and the cache is invalidated |
| Blacklist.UpdateKeepsOthers | api/src/api/services/blacklist.ts:118-122 | an update keeps every other record and the store's uniqueness |
| Blacklist.DeleteEntry | api/src/api/services/blacklist.ts:142-161 | an unknown id gives null; otherwise the record is removed, the cache invalidated and one entry logged |
| Blacklist.DeleteRemovesId | api/src/api/services/blacklist.ts:143 | in a store with unique ids the deleted id is gone afterwards |
| Blacklist.BlacklistGuard | api/src/api/middlewares/blacklistGuard.ts:9-39 | a request without an address passes untouched; an active block gives 403 with its reason and expiry after a SECURITY entry; otherwise the request passes |
| Blacklist.ForbiddenOnlyWhileActive | api/src/api/middlewares/blacklistGuard.ts:14-38 | a request is refused only for a block that is permanent or expires after now |
| Blacklist.GuardNormalisesTwice | api/src/api/middlewares/blacklistGuard.ts:10-14 | the guard's lookup strips two markers while a block created for the same text keeps one |
| Whitelist.AdminIp | api/src/api/services/whitelist.ts:5-8 | the administrator address is `ADMIN_IP` normalised and trimmed, and none when that is blank |
| Whitelist.BlankAdminIsNone | api/src/api/services/whitelist.ts:6-7 | an unset or blank `ADMIN_IP` configures no administrator address |
| Whitelist.FindIp | api/src/api/services/whitelist.ts:61-62 | the first stored entry with the address, or none when no entry has it |
| Whitelist.Upsert | api/src/api/services/whitelist.ts:55-70 | the address is normalised; an existing entry is updated (its description only when one is supplied), otherwise one is appended; the answer is marked protected iff it is the administrator address |
| Whitelist.UpsertTwiceOneEntry | api/src/api/services/whitelist.ts:61-65 | upserting the same address again adds no second entry |
| Whitelist.Remove | api/src/api/services/whitelist.ts:77-88 | the administrator address is refused as protected before the store is read; otherwise the first entry with the normalised address is deleted, or not found |
| Whitelist.AdminNeverRemoved | api/src/api/services/whitelist.ts:79-82 | removing the configured administrator address is always refused, whatever the store |
| Whitelist.List | api/src/api/services/whitelist.ts:90-110 | the stored entries, each exactly once, newest `createdAt` first, each protected iff it is the administrator address; after them one synthetic protected entry exactly when no stored entry normalises to that address |
| Whitelist.SortListed | api/src/api/services/whitelist.ts:91 | the same entries as a permutation, `createdAt` never increasing |
| Whitelist.ListNewestFirstExample | api/src/api/services/whitelist.ts:91 | two entries stored oldest first are listed newest first |
| Whitelist.ListAdminOnce | api/src/api/services/whitelist.ts:99-108 | when the store holds at most one entry normalising to the administrator address, the listing shows that address exactly once |
| Whitelist.EnsureAdminIp | api/src/api/services/whitelist.ts:14-24 | with an administrator address not yet stored, one entry for it is inserted; otherwise the store is unchanged |
| Whitelist.EnsureAdminIdempotent | api/src/api/services/whitelist.ts:19-23 | ensuring the administrator address twice is ensuring it once |
| Whitelist.CachedSet | api/src/api/middlewares/ipWhitelist.ts:21-27 | the reloaded set holds exactly the non-empty normalised stored addresses and the administrator address |
| Whitelist.RefreshIps | api/src/api/middlewares/ipWhitelist.ts:16-29 | within a minute of the last load the set is kept; otherwise it is rebuilt from the store, stamped now |
| Whitelist.IpWhitelist | api/src/api/middlewares/ipWhitelist.ts:34-40 | after the refresh the request is flagged whitelisted iff its normalised address is non-empty and in the set, or is loopback; it always continues |
| Whitelist.ReloadedAdminWhitelisted | api/src/api/middlewares/ipWhitelist.ts:23-37 | after a reload the administrator address (when normalising leaves it unchanged) and every stored address, normalised, are whitelisted |
| Whitelist.NoAddressNotWhitelisted | api/src/api/middlewares/ipWhitelist.ts:36-38 | a request without an address is never flagged |
| Whitelist.InvalidateForcesIpReload | api/src/api/middlewares/ipWhitelist.ts:42-45 | after invalidation the next request reloads the set from the store |
| LogFilters.Given | src/api/utils/logFilters.ts:20-37 | a parameter counts only when present and non-empty, with its value |
| LogFilters.BuildLogFilter | src/api/utils/logFilters.ts:18-48 | the filter always fixes the project; each truthy parameter adds its constraint; a start or end date adds a lower or upper bound holding the `Date` the parameter reads as, which may be the Invalid Date |
| LogFilters.RunnableIff | src/api/utils/logFilters.ts:38-46 | the store can run a filter exactly when every given date reads as a valid time and a given text is a valid pattern |
| LogFilters.EmptyQueryMatchesProject | src/api/utils/logFilters.ts:19 | with no truthy parameter the filter matches exactly the project's logs |
| LogFilters.MoreParametersNarrow | src/api/utils/logFilters.ts:18-48 | a log matching a query with more parameters also matches the query with fewer |
| LogFilters.Selected | src/api/utils/logFilters.ts:18-48 | the selected logs are exactly the stored ones the filter matches, in store order |
| LogFilters.SelectedWithinProject | src/api/utils/logFilters.ts:19 | every selection lies inside the project's own logs |
| PingMonitor.Classify | api/src/ping/monitor.ts:15-21 | a 2xx response is ok, any other response degraded, an exception down |
| PingMonitor.CheckService | api/src/ping/monitor.ts:14-45 | the service gets the classified status and the check time; only a down service writes an ERROR entry, and it notifies its project when that exists, with the notifier's per-send entries |
| PingMonitor.DownAlertsRepeat | api/src/ping/monitor.ts:26-43 | a service that stays down alerts a subscribed chat again at a later check once the cooldown has passed: alerts are level-triggered |
| PingMonitor.CheckAll | api/src/ping/monitor.ts:50-57 | every service of the project is checked once, in order, and there is one error entry per service that came out down |
| LogController.SanitizeIp | api/src/api/controllers/logController.ts:26-31 | a missing or empty address is `unknown`; a leading `::ffff:` is dropped; any other address is kept |
| LogController.SanitizeKeepsEmbeddedMarker | api/src/api/controllers/logController.ts:30 | the anchored sanitiser keeps an embedded marker that the shared normaliser removes, and the two disagree on a missing address |
| LogController.ExtractClientIp | api/src/api/controllers/logController.ts:33-48 | a non-blank forwarded string gives its first comma-separated entry trimmed; else a forwarded list its first entry; the winner is sanitised |
| LogController.ForwardedStringWins | api/src/api/controllers/logController.ts:35-37 | with a usable forwarded string the proxy, socket and request addresses do not matter, and the result holds no comma |
| LogController.ProxyBeforeSocket | api/src/api/controllers/logController.ts:41-43 | without a forwarded header the first proxy address wins over the socket and request addresses |
| LogController.RequestAddressLast | api/src/api/controllers/logController.ts:44-47 | the request address is used only when every other source is missing |
| LogController.OptionalRecord | api/src/api/controllers/logController.ts:21 | an absent `extra` is accepted as missing, a present one only when it is an object |
| LogController.DecodeMetadata | api/src/api/controllers/logController.ts:17-22 | absent metadata defaults to `{}`; metadata that is not an object is rejected |
| LogController.DecodePayload | api/src/api/controllers/logController.ts:10-24 | a payload is accepted only with a string `uuid` and a `log` object, whose fields it returns |
| LogController.DecodeEncodeMetadata | api/src/api/controllers/logController.ts:17-22 | any metadata a client sends is read back unchanged |
| LogController.DecodeEncode | api/src/api/controllers/logController.ts:10-24 | every payload a client can send is accepted and read back exactly |
| LogController.DecodeDefaults | api/src/api/controllers/logController.ts:15-22 | a payload with only the required strings gets no tags and empty metadata |
| LogController.AlertTag | api/src/api/controllers/logController.ts:99 | the alert is raised under the first tag, or under the level when there is none |
| LogController.StoredRecord | api/src/api/models/Log.ts:25-37 | as the schema is written: the store accepts the record exactly when the project, level and message are non-empty and a given timestamp reads as a valid date; the record then carries the payload's project, level, message, tags and metadata, the client's time or else now, and no client address, since no `clientIP` path is declared |
| LogController.StoredWithClientIp | api/src/api/controllers/logController.ts:88-96 | the record `create` is given, with the `clientIP` path kept: accepted under the same conditions, equal to the as-written record except that it carries the client address |
| LogController.ClientIpDroppedAsWritten | api/test/app.test.ts:76-86 | the local test client is seen as 127.0.0.1, yet the record as the schema is written carries no such address |
| LogController.IngestKeepsClientIp | api/test/app.test.ts:76-86 | with the `clientIP` path kept, a local client's accepted log is stored with the address 127.0.0.1 |
| LogController.IngestLog | api/src/api/controllers/logController.ts:53-107 | 400 iff the payload is malformed (with a warning only for a known raw uuid), 404 iff the project is unknown (with a security entry), 500 with nothing stored or sent iff the store refuses the record, else 201 with the record and its client address appended, an alert with its entries outside debug mode when alerts are enabled, and `rateLimitPerMinute` read through the settings cache, which may load or create the record; no other outcome touches the settings |
| LogController.UnstorableStoresNothing | api/src/api/models/Log.ts:26-30 | a log with an empty level or message, or a timestamp that reads as the Invalid Date, is never stored and raises no alert |
| LogController.FirstIngestAnswersDefaultLimit | api/src/api/controllers/logController.ts:103-106 | on a fresh installation the first accepted log answers `rateLimitPerMinute` 120, above 0, and creates the settings record; a log within the next minute answers the same from the cache |
| LogController.DebugModeIsSilent | api/src/api/controllers/logController.ts:98 | a project in debug mode never raises an alert |
| LogController.UnknownProjectStoresNothing | api/src/api/controllers/logController.ts:78-86 | a well-formed log for an unknown project is refused with 404 and nothing is stored |
| LogController.FilterLogs | api/src/api/controllers/logController.ts:112-124 | 400 without uuid, 404 for an unknown project, a failure iff a date reads as the Invalid Date or the text is not a valid pattern, else the newest matching records, at most 5000, none older than any left out |
| LogController.DeleteLogs | api/src/api/controllers/logController.ts:129-138 | 404 for an unknown project, a failure that deletes nothing iff the query cannot run, else exactly the matching records are removed and counted, and the rest stays in store order |
| LogController.DeleteThenNothingMatches | api/src/api/controllers/logController.ts:135-137 | after a delete, deleting again with the same filter removes nothing; a query the store refuses is refused again |
| LogController.UnreadableDateFails | src/api/utils/logFilters.ts:40-42 | a start date that reads as the Invalid Date fails both the listing and the deletion |
| ProjectController.AccessLevelOr | api/src/api/controllers/projectController.ts:41 | an absent access level means `global`; a given one is accepted exactly when it is one of `global`, `whitelist`, `docker` |
| ProjectController.DecodeRecipient | api/src/api/controllers/projectController.ts:44 | an accepted recipient is an object whose `chatId` is the string kept |
| ProjectController.DecodeRecipients | api/src/api/controllers/projectController.ts:44 | a recipient list is accepted iff every entry is, and then each decoded entry stands at its own position |
| ProjectController.DecodeTelegram | api/src/api/controllers/projectController.ts:42-46 | an absent notification block gives the disabled default; any accepted block has an anti-spam interval of at least 1 |
| ProjectController.NonNegativeIntOr | api/src/api/controllers/projectController.ts:48 | an absent entry limit means 0; an accepted one is a non-negative integer equal to the number given |
| ProjectController.DecodeProject | api/src/api/controllers/projectController.ts:35-49 | an accepted body has a name of at least three UTF-16 code units and the given log format; a missing or shorter name is always refused |
| ProjectController.ProjectDefaults | api/src/api/controllers/projectController.ts:39-48 | a body with only a name of at least three code units and a log format gets the five default levels, no custom tags, global access, disabled notifications with interval 15, no debug mode and limit 0 |
| ProjectController.AstralNameAccepted | api/src/api/controllers/projectController.ts:36 | a name of two characters beyond the Basic Multilingual Plane counts four code units and is accepted |
| Strs.Utf16Length | api/src/api/controllers/projectController.ts:36 | the JavaScript `.length` of a string, in UTF-16 code units, is at least its character count and at most twice it, and 0 only for the empty string |
| Strs.Utf16LengthBmp | api/src/api/controllers/projectController.ts:52 | for text inside the Basic Multilingual Plane the JavaScript length is the character count |
| ProjectController.MinString | api/src/api/controllers/projectController.ts:52 | a string field is accepted exactly when it is present and at least the minimum length in UTF-16 code units, as JavaScript counts `.length`, and is then kept unchanged |
| ProjectController.UrlString | api/src/api/controllers/projectController.ts:53 | a URL field is accepted exactly when it is a string the URL check accepts, and is then kept unchanged |
| ProjectController.DecodePing | api/src/api/controllers/projectController.ts:51-56 | an accepted ping body has a name of at least two UTF-16 code units, a valid URL and an interval within 5..3600 seconds, 60 when absent |
| ProjectController.AstralPingNameAccepted | api/src/api/controllers/projectController.ts:52 | a one-character ping name beyond the Basic Multilingual Plane counts two code units and passes the minimum |
| ProjectController.Partial | api/src/api/controllers/projectController.ts:58 | in a partial body an absent field is accepted as "not given"; a present field must pass its own check |
| ProjectController.DecodePingUpdate | api/src/api/controllers/projectController.ts:58-60 | an accepted update gives at least one field and each given field obeys the ping schema, the name counted in UTF-16 code units; a body giving none of name, url, interval, tags is refused |
| ProjectController.EmptyPingUpdateRefused | api/src/api/controllers/projectController.ts:58-60 | the empty body is never a valid ping update |
| ProjectController.ApplyPingUpdate | api/src/api/controllers/projectController.ts:294-298 | a partial update changes exactly the fields it gives and keeps the identity, owner and last status |
| ProjectController.TelegramCommands | api/src/api/controllers/projectController.ts:15-33 | a project response carries commands exactly when notifications are enabled, and then the subscribe and unsubscribe commands of its uuid |
| ProjectController.CommandsNameTheProject | api/src/api/controllers/projectController.ts:18-22 | the bot reads the project's own uuid back from both shown commands |
| ProjectController.RemovedChats | api/src/api/controllers/projectController.ts:156-162 | the removed chats are exactly those subscribed before and not after, each once |
| ProjectController.AddedChats | api/src/api/controllers/projectController.ts:164-169 | the added chats are exactly those subscribed after and not before, each once |
| ProjectController.AddedRemovedDisjoint | api/src/api/controllers/projectController.ts:156-169 | no chat is both added and removed by one update |
| ProjectController.NoticesFor | api/src/api/controllers/projectController.ts:195-200 | one unsubscription notice per removed chat, in order, all with the same reason |
| ProjectController.ApplyInput | api/src/api/controllers/projectController.ts:150-154 | setting the validated data keeps the uuid and an absent description, takes every given field, and empties the recipients when notifications end up disabled |
| ProjectController.NewProject | api/src/api/controllers/projectController.ts:65-83 | a new project takes every validated field under the generated uuid |
| ProjectController.CreateProject | api/src/api/controllers/projectController.ts:65-83 | 400 exactly when validation fails; the store refuses a body with a recipient whose chat id is empty, even with notifications disabled; otherwise the new project is added under its uuid and enabling notifications is recorded with the recipient count |
| ProjectController.CreateKeepsDisabledRecipients | api/src/api/controllers/projectController.ts:65-83 | a valid body is either stored or refused by the store, and a stored project keeps its recipients even with notifications disabled, unlike an update |
| ProjectController.AddedEvents | api/src/api/controllers/projectController.ts:187-193 | one manual-subscription event per added chat, in order |
| ProjectController.UpdateProject | api/src/api/controllers/projectController.ts:126-204 | a differing body uuid is refused first, then an invalid body, then an unknown project; the save is refused when notifications stay enabled with a recipient whose chat id is empty; a successful update stores the new project, forces the system project's limit to 0, and reports removed and added chats, notices with reason manual or project_disabled, and enable/disable events |
| ProjectController.DisableUnsubscribesAll | api/src/api/controllers/projectController.ts:152-200 | disabling notifications leaves no recipient and tells every former chat that the project was disabled |
| ProjectController.UpdateKeepsIdentity | api/src/api/controllers/projectController.ts:126-204 | an update never changes the uuid, the set of projects or any other project |
| ProjectController.PingsOf | api/src/api/controllers/projectController.ts:238 | the ping services of a project are exactly those whose owner is its uuid |
| ProjectController.PingsWithout | api/src/api/controllers/projectController.ts:236-245 | removing a project's ping services keeps every other service unchanged and removes exactly as many as it owned |
| ProjectController.DeleteProject | api/src/api/controllers/projectController.ts:209-246 | the system project is never deleted and an unknown uuid is refused; otherwise the project, exactly its logs and its ping services go, the counts are reported and every recipient is told |
| ProjectController.DeleteSparesOthers | api/src/api/controllers/projectController.ts:236-245 | deleting a project keeps every log and ping service of the other projects |
| ProjectController.RemoveTelegramRecipient | api/src/api/controllers/projectController.ts:353-379 | an unknown project or an unsubscribed chat is refused; otherwise the chat loses every entry and is told why |
| ProjectController.AddPingService | api/src/api/controllers/projectController.ts:251-264 | validation comes before the project lookup; a new service starts as ok, is checked once, and is stored as checked |
| ProjectController.UpdatePingService | api/src/api/controllers/projectController.ts:287-306 | validation comes first; the service must belong to the project; the updated service is checked once and stored as checked |
| ProjectController.DeletePingService | api/src/api/controllers/projectController.ts:311-320 | a service is deleted exactly when it exists under this project, and nothing else is removed |
| ProjectController.ForeignPingUntouchable | api/src/api/controllers/projectController.ts:287-320 | a service of another project can be neither updated nor deleted through this project's path |
| Notifier.SpamKeyInjective | api/src/telegram/notifier.ts:120 | for a fixed project and tag, two chat ids give the same cooldown key only when they are equal |
| Notifier.SpamKeyCollision | api/src/telegram/notifier.ts:120 | the key is plain string joining, so chat "1:x" with tag "y" shares the key of chat "1" with tag "x:y" |
| Notifier.DispatchAll | api/src/telegram/notifier.ts:116-133 | with every send succeeding: only recipients wanting the tag whose key is past the cooldown get the message, each send stamps its key with now, and every other key keeps its time |
| Notifier.DispatchComplete | api/src/telegram/notifier.ts:116-133 | every recipient that wants the tag and is past its cooldown is sent the message |
| Notifier.DispatchOncePerChat | api/src/telegram/notifier.ts:116-133 | a project listing each chat once sends at most one message per chat |
| Notifier.IntervalMs | api/src/telegram/notifier.ts:115 | the anti-spam interval is in minutes: one minute or more is at least 60 000 ms |
| Notifier.Notify | api/src/telegram/notifier.ts:110-134 | with every send succeeding: without a bot or with notifications disabled nothing is sent and nothing changes; otherwise only the cooldown map changes, stamping exactly the keys sent to, and each delivery writes one `telegram_notification_sent` entry naming its chat and the project |
| Notifier.DispatchTry | api/src/telegram/notifier.ts:116-133 | with chats whose send rejects: the loop stops at the first rejected send, which went to a recipient wanting the tag; only delivered sends stamp their keys, and no delivered chat is a rejecting one |
| Notifier.DispatchTryIsPrefix | api/src/telegram/notifier.ts:116-133 | without a rejection the loop equals the all-succeed loop; with one, the delivered messages followed by the rejected one are the start of the all-succeed sends |
| Notifier.NotifyTry | api/src/telegram/notifier.ts:110-134 | `notify` with rejecting sends: nothing happens without a bot or when disabled; only the cooldown map changes; a rejection names a recipient chat that rejects; only the delivered sends are logged |
| Notifier.NotifyTryAgrees | api/src/telegram/notifier.ts:110-134 | without a rejection `notify` is `Notify`, entries included; with one, what went out is the start of what `Notify` sends |
| Notifier.NotifyTryWithoutRejects | api/src/telegram/notifier.ts:110-134 | a transport that never rejects gives exactly `Notify` |
| Notifier.NotifyComplete | api/src/telegram/notifier.ts:116-133 | an enabled project with a bot reaches every recipient that wants the tag and is past its cooldown |
| Notifier.NotifyCooldown | api/src/telegram/notifier.ts:120-124 | a second alert with the same tag to the same chat within the interval is suppressed |
| Notifier.NotifyAfterCooldown | api/src/telegram/notifier.ts:120-124 | once the full interval has passed the chat is sent the alert again |
| Notifier.RegisterInvalidAttempt | api/src/telegram/notifier.ts:427-443 | each invalid uuid raises the chat's counter by one; the reply is "blocked" exactly from the tenth attempt on, which sets the block to one hour from now; other chats are untouched; the one entry written is `telegram_user_blocked` exactly when the chat is blocked and `telegram_invalid_uuid` otherwise |
| Notifier.ResetInvalid | api/src/telegram/notifier.ts:445-448 | a reset forgets the chat's counter and block notice and nothing else |
| Notifier.IsBlocked | api/src/telegram/notifier.ts:450-461 | a chat is blocked exactly while its block time is set and in the future; an expired block forgets the chat so counting restarts |
| Notifier.RegisterManyCounts | api/src/telegram/notifier.ts:429-431 | a run of invalid attempts raises the counter by its length |
| Notifier.RegisterManySplit | api/src/telegram/notifier.ts:427-443 | registering two runs of attempts one after the other is registering their concatenation |
| Notifier.FewAttemptsNoBlock | api/src/telegram/notifier.ts:433-438 | fewer than ten attempts in total never set a block |
| Notifier.TenthAttemptBlocks | api/src/telegram/notifier.ts:433-438 | nine attempts leave the chat unblocked and the tenth blocks it until one hour after its time |
| Notifier.ResolveLanguage | api/src/telegram/notifier.ts:414-425 | a stored language wins; otherwise English exactly when the user's language starts with "en", and the choice is stored |
| Notifier.LanguageSticks | api/src/telegram/notifier.ts:414-425 | once a chat's language is resolved, later messages keep it whatever language they report |
| Notifier.BuildCommand | api/src/telegram/notifier.ts:626-628 | a command is the action name, a colon and the uuid |
| Notifier.ExtractUuid | api/src/telegram/notifier.ts:245-251 | an extracted uuid is non-empty, on one line and trimmed |
| Notifier.ExtractBuildRoundTrip | api/src/telegram/notifier.ts:245-251 | reading a built command gives back any non-empty, trimmed, single-line uuid |
| Notifier.SystemUuidInvalid | api/src/telegram/notifier.ts:255 | the system project's key "logger-system" is not a valid uuid |
| Notifier.CloseFrom | api/src/telegram/notifier.ts:490 | the closing braces found are the first "}}" on the same line after the opening |
| Notifier.InterpolateLeading | api/src/telegram/notifier.ts:489-494 | a leading placeholder is replaced by the value of its trimmed key, empty when absent |
| Notifier.InterpolateCopies | api/src/telegram/notifier.ts:489-494 | text before any opening brace is copied unchanged |
| Notifier.InterpolatePrefix | api/src/telegram/notifier.ts:489-494 | a prefix without '{' is copied unchanged |
| Notifier.InterpolatePlaceholder | api/src/telegram/notifier.ts:489-494 | a placeholder after plain text is replaced by its value and everything else is kept |
| Notifier.CommandKey | api/src/telegram/notifier.ts:253-264 | a command names a project exactly when its uuid is extracted, valid, and stored |
| Notifier.CommandKeySameKeys | api/src/telegram/notifier.ts:253-264 | whether a command names a project depends only on the stored keys |
| Notifier.InvalidAttempt | api/src/telegram/notifier.ts:255-264 | a refused command changes no project, counts one more invalid attempt and writes the entry matching its reply |
| Notifier.WithRecipients | api/src/telegram/notifier.ts:289 | replacing the recipient list changes nothing else |
| Notifier.AttachTo | api/src/telegram/notifier.ts:266-297 | attaching refuses the system project, reports an existing chat, and otherwise appends the chat with no tags; no other project or field changes |
| Notifier.DetachFrom | api/src/telegram/notifier.ts:312-330 | detaching removes every entry of the chat and reports "missing" exactly when there was none; no other project or field changes |
| Notifier.AttachIdempotent | api/src/telegram/notifier.ts:278-289 | attaching the same chat twice is attaching it once |
| Notifier.DetachUndoesAttach | api/src/telegram/notifier.ts:289-314 | detaching a chat that was not subscribed undoes attaching it |
| Notifier.WithoutChatAppend | api/src/telegram/notifier.ts:314 | removing a chat appended to a list without it gives the list back |
| Notifier.ProcessAttach | api/src/telegram/notifier.ts:253-297 | an invalid or unknown uuid counts an invalid attempt; otherwise the chat is attached, its counter is reset, and one entry names the chat, the project and the outcome (forbidden, exists or added) |
| Notifier.ProcessDetach | api/src/telegram/notifier.ts:299-330 | an invalid or unknown uuid counts an invalid attempt; otherwise the chat is detached, its counter is reset, and one entry names the chat, the project and the outcome (missing or removed) |
| Notifier.ProcessAttachTwice | api/src/telegram/notifier.ts:253-297 | sending the same valid subscribe command twice leaves the projects as after the first |
| Notifier.SubscribeLoggedOnce | api/src/telegram/notifier.ts:253-297 | every subscribe writes exactly one entry about its chat; for a usable uuid it names the project, says "added" exactly when the projects change and "forbidden" exactly for the system project |
| Notifier.StartPayloadAfterSpace | api/src/telegram/notifier.ts:224 | the payload of /start is empty without a space and otherwise the trimmed text after the first space |
| Notifier.HandleCommand | api/src/telegram/notifier.ts:204-243 | only /start can change subscriptions; every other command changes nothing and sends at most one reply; /subscriptions, /info and /language each write one entry named after them, /start writes its entry before handling its payload, and an unknown command writes and answers nothing |
| Notifier.HandleMessage | api/src/telegram/notifier.ts:168-202 | without a bot or text nothing happens; a blocked chat changes no project and no counter, is told it is blocked exactly once, and writes one `telegram_message_blocked` entry per message |
| Notifier.BlockedChatChangesNothing | api/src/telegram/notifier.ts:179-186 | while a chat is blocked its messages never change any project |
| Notifier.BlockedChatLoggedEachTime | api/src/telegram/notifier.ts:179-186 | two messages from a blocked chat: the second gets no reply, yet each writes its own `telegram_message_blocked` entry |
| FileQueue.NewFileQueue | ts-library/src/utils/file.ts:26-41 | a new queue is empty, has no timer, writes to the configured path and has not written a CSV header |
| FileQueue.GetStatus | ts-library/src/utils/file.ts:46-48 | the status reports the number of waiting records and the active file |
| FileQueue.Clear | ts-library/src/utils/file.ts:96-102 | clearing drops every waiting record and stops the timer, and keeps the options, the active file and the header flag |
| FileQueue.MergeOptions | ts-library/src/utils/file.ts:54 | each option given in an update replaces the current one; every absent one is kept |
| FileQueue.UpdateOptions | ts-library/src/utils/file.ts:53-66 | the options are merged and the records kept; a non-empty new path becomes the active file and lowers the header flag; the timer runs again exactly when records wait |
| FileQueue.TakeBatch | ts-library/src/utils/file.ts:86 | the batch taken is the oldest records, as many as one interval allows (none for a limit of 0 or less), and the rest stays queued in order |
| FileQueue.UndoubleDoubled | ts-library/src/utils/file.ts:188 | undoing the doubling of quotes gives back the original text |
| FileQueue.CsvRowRoundTrip | ts-library/src/utils/file.ts:188-189 | a CSV row reads back as exactly the payload text it was made from |
| FileQueue.TxtOneLinePerRecord | ts-library/src/utils/file.ts:198-213 | the text format writes exactly one line per record when messages, tags and metadata hold no newline |
| FileQueue.Extname | ts-library/src/utils/file.ts:264 | the extension is a suffix of the path that is empty or starts with its only dot and holds no slash |
| FileQueue.StampFree | ts-library/src/utils/file.ts:266 | the timestamp of a rotated name holds no dot, and no slash when the clock text has none, and keeps its length |
| FileQueue.RotationKeepsExtension | ts-library/src/utils/file.ts:263-269 | a rotated file is a different file with the same extension as the configured one |
| FileQueue.AppendFile | ts-library/src/utils/file.ts:242-250 | appending creates a missing file, puts the text at its end and leaves every other file as it was |
| FileQueue.AppendAsWritten | ts-library/src/utils/file.ts:219-251 | as written: a chunk over the limit is refused; a file that would outgrow the limit is rotated; a kept file stays the target; an accepted chunk ends the target file; no other file changes |
| FileQueue.Append | ts-library/src/utils/file.ts:219-251 | the corrected append rotates and refuses as written, and puts the header in front of a CSV chunk exactly when the target file is missing or empty |
| FileQueue.WriteBatch | ts-library/src/utils/file.ts:118-132 | over the corrected append: an unknown format is reported and changes nothing; JSON batches go to the JSON writer; a CSV or TXT batch is refused exactly when larger than the limit, and otherwise the active file ends with its rows or lines while every other file is untouched; the queue keeps its records and options |
| FileQueue.Flush | ts-library/src/utils/file.ts:82-91 | over the corrected append: an empty queue or empty batch writes nothing; otherwise the oldest batch leaves the queue whether or not its write succeeds, and a CSV or TXT batch that is not refused ends the active file |
| FileQueue.Enqueue | ts-library/src/utils/file.ts:71-77 | over the corrected append: the record joins the tail and the timer runs; below a whole batch nothing is written, otherwise the oldest batch is flushed and, for CSV or TXT, ends the active file unless refused |
| FileQueue.RowsOnlyRows | ts-library/src/utils/file.ts:187-190 | the rows of a batch of one-line payloads are each one quoted line |
| FileQueue.CsvWriteKeepsOneHeader | ts-library/src/utils/file.ts:180-192 | with the corrected append a CSV write keeps every file empty or one header followed by rows |
| FileQueue.AppendKeepsShape | ts-library/src/utils/file.ts:219-251 | a corrected append of CSV rows keeps every file empty or one header followed by rows |
| FileQueue.CsvFlushKeepsOneHeader | ts-library/src/utils/file.ts:82-91 | every corrected CSV flush keeps each file to one header followed by rows |
| FileQueue.WriteBatchAsWritten | ts-library/src/utils/file.ts:180-192 | as written, a write keeps the queue's records and options, and an unknown format is reported and changes nothing |
| FileQueue.FlushAsWritten | ts-library/src/utils/file.ts:82-91 | as written, the oldest batch leaves the queue and the rest stays in order |
| FileQueue.DemoRowValue | ts-library/src/utils/file.ts:188-189 | a concrete record's CSV row |
| FileQueue.DemoTake | ts-library/src/utils/file.ts:86 | a one-record queue gives up its record as the batch |
| FileQueue.DemoNotShaped | ts-library/src/utils/file.ts:184 | a file with two headers is not one header followed by rows |
| FileQueue.DemoFirstAppendAsWritten | ts-library/src/utils/file.ts:229-231 | as written, the first append into a missing file writes the chunk with its own header and leaves the header flag down |
| FileQueue.DemoSecondAppendAsWritten | ts-library/src/utils/file.ts:219-251 | as written, a chunk carrying its own header is appended whole to an existing file, which then holds two headers |
| FileQueue.NewFileGetsSecondHeaderAsWritten | ts-library/src/utils/file.ts:180-251 | as written, two one-record CSV flushes into a missing file leave two headers in it |
| FileQueue.ExistingFileGetsSecondHeaderAsWritten | ts-library/src/utils/file.ts:180-192 | as written, a new queue appending to an existing CSV file puts a second header in its middle |
| FileQueue.DemoFirstAppend | ts-library/src/utils/file.ts:237-250 | the corrected append writes one header into a missing file |
| FileQueue.DemoSecondAppend | ts-library/src/utils/file.ts:219-251 | the corrected append adds only the row to a file that has content |
| FileQueue.NewFileGetsOneHeader | ts-library/src/utils/file.ts:180-251 | with the corrected append the same two flushes leave one header |
| RateQueue.IntervalMs | ts-library/src/utils/queue.ts:145-148 | the send interval is the floor of a minute divided by the limit, a whole minute for a limit of 1 or less, and never more than a minute |
| RateQueue.NewQueue | ts-library/src/utils/queue.ts:31-36 | a new queue is empty, idle, not yet known to reach the server, and spaced by the interval of its limit |
| RateQueue.Enqueue | ts-library/src/utils/queue.ts:41-44 | an item joins the tail, the timer runs, and nothing else changes |
| RateQueue.Clear | ts-library/src/utils/queue.ts:49-55 | clearing drops every item and stops the timer, keeping the limit and the availability |
| RateQueue.GetStatus | ts-library/src/utils/queue.ts:60-66 | the estimate is the number of pending items times the interval |
| RateQueue.UpdateRateLimit | ts-library/src/utils/queue.ts:71-79 | a new limit recomputes the interval, keeps the items, and leaves the timer running only if it ran and items wait |
| RateQueue.ResetAvailability | ts-library/src/utils/queue.ts:138-140 | after a reset the next send checks the server again; items and timer are kept |
| RateQueue.ProcessNext | ts-library/src/utils/queue.ts:95-124 | an empty queue stops the timer; otherwise the head is sent when the server is known or found available, and when it is not the whole queue is dropped and the timer stops |
| RateQueue.RunIsFifo | ts-library/src/utils/queue.ts:95-124 | with the server available, n ticks send the n oldest items in queue order and leave the rest |
| RateQueue.UnavailableDropsAll | ts-library/src/utils/queue.ts:105-117 | a failed availability check drops every item, and nothing more goes out until items are queued again |
| RateQueue.EstimateIsPendingTimesInterval | ts-library/src/utils/queue.ts:41-66 | each queued item adds one interval to the status estimate |
| Logger.DefaultLevels | ts-library/src/logger.ts:75-79 | every level is enabled, except DEBUG in the production environment |
| Logger.Registered | ts-library/src/logger.ts:89-93 | the caller's templates are registered exactly under their names |
| Logger.AllOf | ts-library/src/logger.ts:104 | spreading a full set of file options over any options gives exactly those options |
| Logger.NewLogger | ts-library/src/logger.ts:70-114 | omitted options take their defaults (localhost:3000, 120 per minute, ip "unknown"); the default template is always registered and kept unless the caller replaces it; the API queue starts empty with an availability check; a file queue exists exactly when the merged file options enable it |
| Logger.Configure | ts-library/src/logger.ts:131-180 | omitted options keep their values; only a non-empty environment resets the levels; the templates are updated as `WithTemplates` describes; queued API records survive with the new pace; a changed base URL forces a new availability check; without file options the file queue is unchanged |
| Logger.WithTemplates | ts-library/src/logger.ts:158-162 | new templates replace same-named ones and every other registered template stays |
| Logger.ConfiguredQueue | ts-library/src/logger.ts:132-136 | the API queue keeps its records and takes the new pace; a new, non-empty, different base URL resets availability and otherwise availability is kept |
| Logger.ConfiguredFileQueue | ts-library/src/logger.ts:167-179 | without file options nothing changes; otherwise a file queue exists exactly when the merged options enable it, holding those options and keeping the records it had |
| Logger.GetInstance | ts-library/src/logger.ts:119-126 | the first call builds the logger; a later call without options returns it unchanged, and with options configures it |
| Logger.LaterInstanceKeepsQueue | ts-library/src/logger.ts:119-126 | later calls never lose queued API records |
| Logger.SetActiveTemplate | ts-library/src/logger.ts:192-197 | selecting a template succeeds exactly when it is registered, and then changes only the active name |
| Logger.SetLevelEnabled | ts-library/src/logger.ts:185-187 | switching a level sets exactly that level and leaves the others |
| Logger.RegisterTemplate | ts-library/src/logger.ts:202-204 | registering puts the template under its name, replacing any earlier one |
| Logger.SetRateLimit | ts-library/src/logger.ts:253-256 | a new limit keeps the queued records and recomputes the interval |
| Logger.BaseMetadata | ts-library/src/logger.ts:366-369 | the record's metadata overrides the defaults key by key, and ip is always present, "unknown" when not truthy |
| Logger.DefaultTemplate | ts-library/src/logger.ts:365-381 | the payload holds level, message, tags (MAIN when none or empty), timestamp and metadata, each overridden by a same-named extra field of the record |
| Logger.CallerMetadataWins | ts-library/src/logger.ts:366-378 | every metadata key the caller gives reaches the payload unchanged, ip included when it is truthy |
| Logger.RecordOf | ts-library/src/logger.ts:307-326 | the record carries the call's message, tags and metadata, and every other field except the call's own options |
| Logger.PadEnd | ts-library/src/logger.ts:101 | padding keeps the text as its prefix and makes it at least the given width |
| Logger.TargetProject | ts-library/src/logger.ts:337-338 | the call's project wins over the default; the record is sent only for a non-empty uuid, and an empty call uuid is not replaced by the default |
| Logger.Log | ts-library/src/logger.ts:303-360 | a disabled level does nothing; an unknown template fails before any transport; otherwise the record is printed exactly when the console is on, queued for the API exactly when that transport is on and a project is known, and the files change only through an enabled file queue (whose CSV append is the corrected one) |
| Logger.DisabledLevelIsSilent | ts-library/src/logger.ts:77-79 | in production a DEBUG call changes nothing and prints nothing |
| Logger.FreshLoggerNeedsProject | ts-library/src/logger.ts:336-349 | a fresh logger queues one API record exactly when the call names a non-empty project, and then under that project |
| ApiClient.NewClient | ts-library/src/apiClient.ts:54-57 | a client without a base URL talks to http://localhost:3000 and holds the token it was given, if any |
| ApiClient.SetBaseUrl | ts-library/src/apiClient.ts:62-64 | setting the base URL keeps the token |
| ApiClient.SetToken | ts-library/src/apiClient.ts:69-71 | setting a token keeps the base URL |
| ApiClient.ClearToken | ts-library/src/apiClient.ts:76-78 | clearing drops the token and keeps the base URL |
| ApiClient.RouteOf | ts-library/src/apiClient.ts:83-230 | exactly the health check, the login and log ingestion go without authorization |
| ApiClient.BuildRequest | ts-library/src/apiClient.ts:235-246 | a request goes to the base URL followed by the path, always as JSON, and carries a bearer token exactly when the route needs one and a non-empty token is held |
| ApiClient.RequestFor | ts-library/src/apiClient.ts:235-242 | each endpoint's request carries authorization exactly when its route requires it and a non-empty token is held |
| ApiClient.Suffix | ts-library/src/apiClient.ts:260-269 | a non-empty query is attached after a question mark; an empty one adds nothing |
| ApiClient.TokenOnlyWhereRequired | ts-library/src/apiClient.ts:240-242 | with a token held, every endpoint except health, login and log ingestion is authorized |
| ApiClient.QueryPairs | ts-library/src/apiClient.ts:262-267 | the query has at most one pair per parameter |
| ApiClient.QueryPairsKeep | ts-library/src/apiClient.ts:262-267 | the query pairs are exactly the parameters that are not undefined, null or empty, in order, each with its value as text |
| ApiClient.EmptyQueryIffAllOmitted | ts-library/src/apiClient.ts:260-269 | the query string is empty exactly when every parameter is undefined, null or empty |
| ApiClient.ErrorMessage | ts-library/src/apiClient.ts:274-281 | an error reads the body's string message, and falls back to "HTTP" and the status when there is no usable message |
| ApiClient.Handle | ts-library/src/apiClient.ts:247-254 | a non-2xx answer fails with its status and message; 204 gives nothing; any other answer gives its JSON body |
| ApiClient.LoginDone | ts-library/src/apiClient.ts:90-97 | a successful login with a non-null body stores its string token, or none when it has no string token; a 204 or `null` answer throws on reading the token and, like a failed login, leaves the client unchanged |
| ApiClient.NoContentLoginFails | ts-library/src/apiClient.ts:90-97 | a 204 answer to a login leaves the client unchanged and reports the `TypeError` |
| ApiClient.LoginThenClear | ts-library/src/apiClient.ts:90-97 | after a login returning a token, protected routes carry it as a bearer token, and after clearing they carry none |
| ClientApi.Field | client/src/api/index.ts:80 | each filter key reads its own field of the filter |
| ClientApi.Params | client/src/api/index.ts:77-84 | the query holds only listed keys, at most one pair per key, each with the filter's non-empty value |
| ClientApi.Names | client/src/api/index.ts:79-83 | the names of the query pairs, one per pair, in order |
| ClientApi.ParamsInListOrder | client/src/api/index.ts:64-87 | the query names are exactly the listed keys with truthy values, in list order |
| ClientApi.OnlyListedKeys | client/src/api/index.ts:79-83 | a key outside the list is never sent |
| ClientApi.QueriesKeepToTheirKeys | client/src/api/index.ts:64-111 | the project uuid field is never sent, and deleting never puts the uuid in the query |
| ClientApi.UuidLeadsListing | client/src/api/index.ts:64-66 | a non-empty uuid is the first pair of the listing query |
| ClientApi.AccessLevelName | client/src/api/index.ts:39-45 | each access level is sent as one of its three names, "global" only for the global level |
| ClientApi.ProjectJson | client/src/api/index.ts:39-45 | the body sends the parsed log format, the name, the access level, and a description exactly when there is one |
| ClientApi.CreateProject | client/src/api/index.ts:39-45 | a project is created only when its log format parses as JSON, and then by a POST to /api/projects with the parsed format |
| ClientApi.UpdateProject | client/src/api/index.ts:47-53 | a project is updated only when its log format parses as JSON, and then by a PUT to its own path with the parsed format |
| ClientApi.CreateAndUpdateAgree | client/src/api/index.ts:39-53 | creating and updating succeed together and send the same body |
| ClientApi.SystemEvent | client/src/api/index.ts:153-169 | a system event is a log for the system project with level INFO and tags ADMIN_ACTION by default, the message, the call's time, and metadata exactly when given |
| ProjectForm.Tidy | client/src/components/projects/ProjectForm.tsx:116-117 | trimming and dropping empty pieces never adds a piece |
| ProjectForm.TidyShape | client/src/components/projects/ProjectForm.tsx:114-117 | every kept piece is non-empty and trimmed |
| ProjectForm.TidyAvoids | client/src/components/projects/ProjectForm.tsx:114-117 | a character absent from all pieces is absent from every kept piece |
| ProjectForm.ParseTags | client/src/components/projects/ProjectForm.tsx:114-117 | every parsed tag is non-empty, trimmed and free of commas |
| ProjectForm.TidyTrimmed | client/src/components/projects/ProjectForm.tsx:116-117 | tags that are already trimmed and non-empty pass through unchanged |
| ProjectForm.ParseTagsJoin | client/src/components/projects/ProjectForm.tsx:114-117 | joining trimmed, non-empty, comma-free tags with "," and parsing them back gives the same tags |
| ProjectForm.ParseTagsEditRoundTrip | client/src/pages/PingServicesPage.tsx:433 | tags shown joined by ", " in an edit form parse back to the same tags |
| ProjectForm.TidySpaced | client/src/components/projects/ProjectForm.tsx:116-117 | pieces that trim to the tags give back exactly the tags |
| ProjectForm.Clone | client/src/components/projects/ProjectForm.tsx:41-52 | the form's copy of the initial values equals them |
| ProjectForm.AddCustomTag | client/src/components/projects/ProjectForm.tsx:96-103 | the trimmed input is appended and the input cleared, unless it is empty or already a custom tag, in which case nothing changes |
| ProjectForm.RemoveCustomTag | client/src/components/projects/ProjectForm.tsx:105-107 | removing a tag drops every copy of it, keeps the other tags in order and changes nothing else |
| ProjectForm.AddKeepsDistinct | client/src/components/projects/ProjectForm.tsx:98 | adding a custom tag never creates a duplicate |
| ProjectForm.RemoveUndoesAdd | client/src/components/projects/ProjectForm.tsx:96-107 | removing a freshly added tag gives back the previous tags |
| ProjectForm.AddRecipient | client/src/components/projects/ProjectForm.tsx:109-127 | a non-blank trimmed chat id is appended with its parsed tags, even when the chat is already listed, and both inputs are cleared; a blank chat id changes nothing |
| ProjectForm.RemoveRecipient | client/src/components/projects/ProjectForm.tsx:129-137 | removing a chat drops all of its entries, keeps every other recipient and changes nothing else |
| ProjectForm.DuplicateChatRemovedTogether | client/src/components/projects/ProjectForm.tsx:109-137 | adding a chat twice lists it twice, and one removal drops both |
| ProjectForm.Submit | client/src/components/projects/ProjectForm.tsx:139-149 | the values are submitted exactly when the log format parses, and the validation error shows exactly when it does not |
| ProjectForm.SubmittedFormSends | client/src/components/projects/ProjectForm.tsx:139-149 | a form that submits always produces a create request |
| ProjectForm.RateLimitNotice | client/src/components/projects/ProjectForm.tsx:72-79 | a non-global access level shows the bypass notice; the global level shows the limit when it is known and the unknown notice otherwise |
| ProjectForm.NoticeIgnoresOtherLevels | client/src/components/projects/ProjectForm.tsx:72-79 | all non-global access levels show the same notice, whatever the limit |
| PingPage.Clamp | client/src/pages/PingServicesPage.tsx:49-50 | a clamped interval lies in 120..3600 seconds, an interval already in range is kept, and one outside goes to the nearer bound |
| PingPage.Payload | client/src/pages/PingServicesPage.tsx:173-217 | a saved service sends the form's name and url, an interval within range and the parsed tags |
| PingPage.IntervalChange | client/src/pages/PingServicesPage.tsx:493-499 | a non-numeric input changes nothing; a number is stored clamped |
| PingPage.EditForm | client/src/pages/PingServicesPage.tsx:429-434 | an edit form starts with an interval of at least 120, the stored one when it already is |
| PingPage.ClampIdempotent | client/src/pages/PingServicesPage.tsx:178 | clamping twice is clamping once |
| PingPage.UneditedSaveKeepsService | client/src/pages/PingServicesPage.tsx:429-434 | saving an unedited edit form sends the stored name, url and tags, and the stored interval when it is in range |
| PingPage.StatusColor | client/src/pages/PingServicesPage.tsx:132-148 | ok is success, degraded is a warning, down is an error, each exactly |
| PingPage.UnknownIsInfo | client/src/pages/PingServicesPage.tsx:134-136 | any other or missing status is shown as info |
| Dashboard.Concat | client/src/pages/DashboardPage.tsx:76-77 | the combined list holds exactly the logs of the queries that have data |
| Dashboard.LatestIncidents | client/src/pages/DashboardPage.tsx:75-81 | at most eight logs are shown, each an incident (level ERROR or CRITICAL, or a tag containing ERROR) from the loaded logs |
| Dashboard.IncidentsAreNewest | client/src/pages/DashboardPage.tsx:75-81 | the shown incidents are newest first, all of them when there are at most eight, and no incident left out is newer than one shown |
| Dashboard.Distribution | client/src/pages/DashboardPage.tsx:91-98 | one count per standard level, in order, each the number of loaded logs at that level |
| Dashboard.DistributionCounts | client/src/pages/DashboardPage.tsx:91-98 | one more log raises exactly its own level's count, and a log at a non-standard level changes no count |
| Dashboard.ConcatAppend | client/src/pages/DashboardPage.tsx:76-77 | one more query adds its logs at the end, or none without data |
| Dashboard.TotalIsServiceCount | client/src/pages/DashboardPage.tsx:129 | the total of ping services is the number of services of all loaded queries |
| Dashboard.ProjectsWithAlerts | client/src/pages/DashboardPage.tsx:130 | the alert count is the number of projects with notifications enabled, 0 before the projects load |
| Dashboard.AlertCountSplits | client/src/pages/DashboardPage.tsx:130 | projects with and without alerts add up to all projects, and all count when all are enabled |
| Dashboard.IncidentLink | client/src/pages/DashboardPage.tsx:83-89 | an incident opens the logs page filtered by its project, as both uuid and project, and by its level |
| Formatters.FormatDateTime | client/src/utils/formatters.ts:3-12 | a missing or empty date shows a dash, a date the formatter refuses is shown as given, and any other date is formatted |
| Formatters.AgoOf | client/src/utils/formatters.ts:14-29 | a missing date is unknown; under a minute old (or in the future) is "just now"; under an hour whole minutes 1..59; under a day whole hours 1..23; otherwise, or unparsable, the absolute date |
| Formatters.FormatRelative | client/src/utils/formatters.ts:14-30 | each age class is shown with its own Russian text, and old or unparsable dates as the formatted date |
| Formatters.FutureIsJustNow | client/src/utils/formatters.ts:19-21 | a date in the future is shown as "just now" |
| Formatters.AgoMonotone | client/src/utils/formatters.ts:19-28 | as time passes the minutes shown never go down, and a date that is "just now" later was "just now" earlier too |
| Formatters.MinutesMonotone | client/src/utils/formatters.ts:24 | whole minutes never decrease as the difference grows |
| Cookies.FirstMatch | client/src/utils/cookies.ts:13-18 | the match is the first segment starting with the prefix, none when no segment does |
| Cookies.TrimAll | client/src/utils/cookies.ts:14 | each segment is trimmed in place |
| Cookies.GetCookie | client/src/utils/cookies.ts:7-20 | without a document nothing is read; otherwise a value is found exactly when some trimmed segment starts with the encoded name and "=" |
| Cookies.SetCookie | client/src/utils/cookies.ts:22-29 | without a document nothing is written; otherwise the encoded pair with an expiry the given days (180 by default) from now, for the whole site |
| Cookies.MatchIsExactName | client/src/utils/cookies.ts:11-15 | a segment matches exactly the cookie of the same encoded name, never one whose name only starts with it |
| Cookies.PairShape | client/src/utils/cookies.ts:28 | an encoded pair holds no ';' or space and is already trimmed |
| Cookies.JarSegments | client/src/utils/cookies.ts:11-14 | splitting a jar at `;` and trimming the pieces gives back the stored pairs, in order |
| Cookies.PairsMatchName | client/src/utils/cookies.ts:15 | a stored pair starts with the encoded name and `=` exactly when it is stored under that name |
| Cookies.ReadsFirstStored | client/src/utils/cookies.ts:7-29 | reading a cookie from a jar of encoded pairs gives the value of its first entry |
| Cookies.FirstMatchUnique | client/src/utils/cookies.ts:13-18 | the first matching segment is found at its own position |
| LogsPage.FilterFromQuery | frontend/src/pages/LogsPage.tsx:66-82 | the filter read from the address: uuid comes from `uuid`, else `projectUuid`, else the first project; projectUuid defaults to the uuid when that is non-empty; level and logId are the non-empty parameters |
| LogsPage.ActiveFilter | frontend/src/pages/LogsPage.tsx:92 | a filter is active exactly when its uuid is non-empty, and the active filter is that filter unchanged |
| LogsPage.Expanded | frontend/src/pages/LogsPage.tsx:83-91 | the advanced panel opens whenever a level, logId or project override is set, and otherwise keeps its previous state |
| LogsPage.IncidentOpensItsProject | frontend/src/pages/LogsPage.tsx:66-82 | following a dashboard incident link yields an active filter on that incident's project, with its level and no log id |
| LogsPage.ApplyFilter | frontend/src/pages/LogsPage.tsx:329-351 | applying is refused exactly when the trimmed project override and the uuid are both empty; otherwise the uuid is the effective project, the override and log id are trimmed, and the address holds exactly the non-empty fields with their values |
| LogsPage.QueryOf | frontend/src/pages/LogsPage.tsx:343-347 | the address written for a filter holds exactly its non-empty fields, each with the field's value |
| LogsPage.ParamOfQuery | frontend/src/pages/LogsPage.tsx:343-347 | reading a key back from a written address returns the field when it is non-empty and nothing otherwise |
| LogsPage.ReloadFilter | frontend/src/pages/LogsPage.tsx:66-82 | a filter without blank fields survives writing it to the address and reading it back |
| LogsPage.ApplyThenReload | frontend/src/pages/LogsPage.tsx:329-351 | after applying a filter, reloading the page from the new address reproduces the applied filter |
| LogsPage.DisplayLogs | frontend/src/pages/LogsPage.tsx:364-378 | without an active filter every loaded log is shown; with one, exactly the logs matching its project and log id needles are kept, in order |
| LogsPage.BlankFiltersShowAll | frontend/src/pages/LogsPage.tsx:369-370 | blank project and log id needles hide nothing |
| LogsPage.LowerSlice | frontend/src/pages/LogsPage.tsx:369-377 | lower-casing commutes with taking a slice |
| LogsPage.ContainsSuffix | frontend/src/pages/LogsPage.tsx:371-377 | a string starting at some offset with a needle contains that needle |
| LogsPage.LowerInfix | frontend/src/pages/LogsPage.tsx:371-377 | an infix of a string is found by the case-insensitive search |
| LogsPage.TrimmedInside | frontend/src/pages/LogsPage.tsx:369-370 | a trimmed needle is always found, case-insensitively, in the untrimmed text |
| LogsPage.IncidentShown | frontend/src/pages/LogsPage.tsx:364-378 | the incident a dashboard link points at passes the filter that link produces |
| LogsPage.Columns | frontend/src/pages/LogsPage.tsx:388-398 | every exported log becomes exactly nine columns, one per header name |
| LogsPage.Rows | frontend/src/pages/LogsPage.tsx:388-398 | one exported line per log, in order, each the log's columns joined by `;` |
| LogsPage.ExportCsv | frontend/src/pages/LogsPage.tsx:380-401 | nothing is exported exactly when there are no rows; otherwise the file is the byte-order mark followed by the header line and one line per log |
| LogsPage.HeaderOneLine | frontend/src/pages/LogsPage.tsx:386 | the header is a single line whose `;`-separated cells are the nine column names |
| LogsPage.NoNewlineLeft | frontend/src/pages/LogsPage.tsx:391 | replacing line breaks in a message leaves no line break |
| LogsPage.ExportReadsBack | frontend/src/pages/LogsPage.tsx:380-401 | for logs whose fields carry no `;` and no line break, splitting the export back into lines and cells recovers the header and each log's columns |
| ProjectsPage.Search | frontend/src/pages/ProjectsPage.tsx:52-57 | a project is listed exactly when it is loaded and its name, description or uuid contains the lower-cased search term; the list never grows |
| ProjectsPage.EmptySearchShowsAll | frontend/src/pages/ProjectsPage.tsx:52-57 | an empty search lists every loaded project, in order |
| ProjectsPage.ContainsPrefix | frontend/src/pages/ProjectsPage.tsx:55 | a string containing `a + b` contains `a` |
| ProjectsPage.LowerAppend | frontend/src/pages/ProjectsPage.tsx:53 | lower-casing distributes over concatenation |
| ProjectsPage.MatchesShorter | frontend/src/pages/ProjectsPage.tsx:55 | a project matching a longer search term also matches every prefix of it |
| ProjectsPage.TypingNarrows | frontend/src/pages/ProjectsPage.tsx:52-57 | typing more characters only filters the current list further and never brings back a hidden project |
| ProjectsPage.ContainsSelf | frontend/src/pages/ProjectsPage.tsx:55 | every string contains itself |
| ProjectsPage.UuidFindsProject | frontend/src/pages/ProjectsPage.tsx:52-57 | searching for a project's uuid, in any case, lists that project |
| ProjectsPage.Actions | frontend/src/pages/ProjectsPage.tsx:147-194 | copy-uuid and logs are always offered; edit, delete and ping are offered exactly when the project is not the system project |
| ProjectsPage.Target | frontend/src/pages/ProjectsPage.tsx:154-187 | every action except copy and delete navigates, and the logs action opens the log page filtered by the project's uuid |
| ProjectsPage.SystemProjectReadOnly | frontend/src/pages/ProjectsPage.tsx:25-194 | the system project offers only copy-uuid and logs |
| ApiError.NumberField | frontend/src/utils/apiError.ts:9 | a field is read as a number exactly when it is present and holds a number |
| ApiError.ParseApiError | frontend/src/utils/apiError.ts:6-15 | an error without a response yields nothing; the status is reported exactly when the response carries a numeric status, and equals it; the message is reported exactly when the response data carries a string message, and equals it |
| ApiError.ServerError | frontend/src/utils/apiError.ts:7-8 | the builder yields an error object carrying a response |
| ApiError.ServerErrorReadsBack | frontend/src/utils/apiError.ts:6-15 | a server error built from a status and a message parses back to exactly that status and message |
| ApiError.NetworkErrorGivesNothing | frontend/src/utils/apiError.ts:14 | an error with only a message and no response parses to an empty result |
| ApiError.DeleteFailureText | frontend/src/pages/ProjectsPage.tsx:46-49 | a failed delete shows the server's message when there is one and the fixed Russian fallback otherwise |
| Translation.Walk | frontend/src/hooks/useTranslation.ts:5-14 | a missing node resolves to nothing and a text node resolves to its text whatever segments remain |
| Translation.GetFromRecord | frontend/src/hooks/useTranslation.ts:5-14 | a key with no segments resolves to nothing, since the catalogue root is not a text |
| Translation.WalkExtends | frontend/src/hooks/useTranslation.ts:8-9 | once a path reaches a text, extra segments after it do not change the result |
| Translation.WalkNest | frontend/src/hooks/useTranslation.ts:5-14 | a text nested under a path of segments is found again by walking that path |
| Translation.EarlyText | frontend/src/hooks/useTranslation.ts:8-9 | a key whose first segment names a text resolves to that text, whatever follows |
| Translation.SkipSpaces | frontend/src/hooks/useTranslation.ts:25 | the skip stops at the first non-space after the start and passes only spaces |
| Translation.SkipWord | frontend/src/hooks/useTranslation.ts:25 | the skip stops at the first non-word character after the start and passes only word characters |
| Translation.MatchAt | frontend/src/hooks/useTranslation.ts:25 | a placeholder match starts with `{{`, ends with `}}` and captures a non-empty run of word characters |
| Translation.Substitute | frontend/src/hooks/useTranslation.ts:26-30 | a placeholder whose value is absent or null becomes the empty string |
| Translation.FormatTemplate | frontend/src/hooks/useTranslation.ts:21-24 | without values the template is returned unchanged |
| Translation.FillNoMatch | frontend/src/hooks/useTranslation.ts:25-31 | a template containing no placeholder is left unchanged by the substitution |
| Translation.NoBracesNoPlaceholder | frontend/src/hooks/useTranslation.ts:25 | a text without two adjacent opening braces contains no placeholder |
| Translation.NonWordPlaceholderKept | frontend/src/hooks/useTranslation.ts:25 | a placeholder name with a non-word character such as `-` is not substituted and stays in the text |
| Translation.MatchPlaceholder | frontend/src/hooks/useTranslation.ts:25 | braces around a word name padded with spaces are matched as one placeholder capturing that name |
| Translation.FillPlaceholder | frontend/src/hooks/useTranslation.ts:25-31 | a leading placeholder is replaced by its value's text and the rest is filled on its own |
| Translation.SkipSpacesRun | frontend/src/hooks/useTranslation.ts:25 | the space skip stops exactly at the end of a maximal run of spaces |
| Translation.SkipWordRun | frontend/src/hooks/useTranslation.ts:25 | the word skip stops exactly at the end of a maximal run of word characters |
| Translation.Fallback | frontend/src/hooks/useTranslation.ts:37-43 | the current locale's text wins; English fills in what the locale lacks; a key found in neither is shown as itself |
| AppLayout.BestIndex | frontend/src/components/layout/AppLayout.tsx:101-111 | the reduction over navigation paths picks, when it picks anything, a position inside the list |
| AppLayout.BestIndexSpec | frontend/src/components/layout/AppLayout.tsx:101-111 | nothing is picked exactly when no navigation path is a prefix of the location; otherwise the pick is the earliest of the longest matching paths, since only a strictly longer match replaces the current best |
| AppLayout.EarliestLongestUnique | frontend/src/components/layout/AppLayout.tsx:106 | there is only one earliest longest match, so the highlighted entry is well defined |
| AppLayout.AmongIsBest | frontend/src/components/layout/AppLayout.tsx:98-112 | when a path is the earliest longest match it is the highlighted one |
| AppLayout.AmongNone | frontend/src/components/layout/AppLayout.tsx:111 | when no candidate is a prefix of the location the dashboard `/` is highlighted |
| AppLayout.Candidates | frontend/src/components/layout/AppLayout.tsx:52-61 | dropping `/` from the navigation list leaves every entry after the dashboard, in order |
| AppLayout.ActivePath | frontend/src/components/layout/AppLayout.tsx:94-96 | the location `/` highlights the dashboard |
| AppLayout.ActivePathIsBest | frontend/src/components/layout/AppLayout.tsx:93-113 | for any other location the highlighted entry is the earliest longest navigation path the location starts with |
| AppLayout.ActivePathFallback | frontend/src/components/layout/AppLayout.tsx:93-113 | a location no navigation path prefixes highlights the dashboard |
| AppLayout.DeeperPathExample | frontend/src/components/layout/AppLayout.tsx:55-57 | below `/projects/new` the more specific entry wins over `/projects` |
| AppLayout.LongerWordExample | frontend/src/components/layout/AppLayout.tsx:102 | the match is a plain string prefix, so `/projectsX` still highlights `/projects` |
| AppLayout.CurrentDrawerWidth | frontend/src/components/layout/AppLayout.tsx:115-117 | the drawer is 260 wide exactly when the screen is small or the menu is not collapsed, and 80 wide exactly when a large screen shows it collapsed |
| AppLayout.InitialCollapsed | frontend/src/components/layout/AppLayout.tsx:68-74 | the menu starts collapsed exactly when a window exists and the stored flag is the text `true` |
| AppLayout.Toggle | frontend/src/components/layout/AppLayout.tsx:81-91 | toggling flips the collapsed state and stores the new state as `true` or `false` |
| AppLayout.ToggleStoresFlag | frontend/src/components/layout/AppLayout.tsx:68-91 | the stored flag reads back on the next load as the state just chosen, and toggling twice restores the original state |
| LogLists.Keep | api/src/api/controllers/logController.ts:122 | selection keeps exactly the records satisfying the condition, each no more often than the store holds it |
| LogLists.SortNewestFirst | api/src/api/controllers/logController.ts:122 | sorting by timestamp descending yields the same records, newest first |
| LogLists.NewestCut | api/src/api/controllers/logController.ts:122 | limiting a newest-first list keeps it newest first, and nothing cut off is newer than anything kept |

## Left out

- The Telegram transport: polling, `sendMessage`, `setMyCommands`, `getMe`, bot start-up and the bot URL checks (`applyBotUrlFromEnv`, `isValidBotUrl`, `resolveBotUrl`, which rely on the URL parser). A message the notifier would send is returned as a value.
- Notifier `showSubscriptions`, `askLanguage`, `handleCallback` and `getStatus`: they list, render and relay, and only call operations the model already has (the detach in `handleCallback` is the recipient removal of `Notifier.DetachFrom`).
- The texts of the SECURITY, WARNING and ERROR system log entries: the model records that an entry is written, with its level and tags, not its wording. The notifier's `logAction` entries are recorded as `Notifier.Logged`, by their fixed action name, chat and project. Their remaining metadata (user id, payload text, invalid uuid, attempt count) is not modelled.
- FileQueue `writeJson`: its rotation retries the same batch without bound when one batch is larger than the size limit. The model hands a JSON batch to the writer as an outcome and does not model that loop.
- FileQueue `ensureDirectory` and the file system's own failures other than a missing file; directories are implicit in the path map.
- RateQueue `drain` and the timers: the model steps the queue one dispatch at a time instead.
- JSON.stringify and JSON.parse, `Date` parsing and formatting, ISO timestamps, the URL parser, `encodeURIComponent`, `decodeURIComponent` and `String(value)`: all are parameters of the functions that use them.
- FileQueue.WriteBatch: CSV batches go through the corrected append, so a file gets its header once; the code as written can write a second header (see Findings), and that path is `FileQueue.WriteBatchAsWritten`.
- FileQueue.Flush: flushes through `FileQueue.WriteBatch` and so writes CSV files as the corrected append does; `FileQueue.FlushAsWritten` is the code as written.
- FileQueue.Enqueue: flushes through `FileQueue.Flush`, so its CSV writes are the corrected ones; no as-written variant of `enqueue` is modelled beyond `FileQueue.FlushAsWritten`.
- Logger.Log: the file transport goes through `FileQueue.Enqueue`, so a CSV file transport's contents follow the corrected append, not the code as written.
- Notifier.Notify: assumes every `sendMessage` succeeds; a rejecting send, which ends the loop and leaves its key unstamped, is modelled by `Notifier.NotifyTry` and `Notifier.DispatchTry`.
- Notifier.DispatchAll: the loop with every send succeeding; `Notifier.DispatchTry` is the loop with rejecting sends. The `telegram_notification_sent` entry that follows each delivered send is recorded by `Notifier.Notify` and `Notifier.NotifyTry` from the loop's sends, not by the loop itself.
- Notifier `notifyUnsubscribed`: stands as the `Unsubscribed` notices of `ProjectController`. Each notice is one call, which sends the farewell when the chat id is numeric and writes one `telegram_subscription_removed` entry; neither the message nor that entry is listed separately. The `telegram_unsubscribe_notification_error` entry of a failed send is transport behaviour and is left out.
- Notifier `logAction` calls on transport failures and bot start-up (`telegram_message_error`, `telegram_callback_error`, `telegram_commands_error`, `telegram_bot_started`, the bot-URL entries) belong to the transport, which is not modelled.
- LogController.IngestLog: calls `Notify`, so the case where a rejected Telegram send escapes `ingestLog` after the log is stored, and no 201 answer is sent, is not modelled. A record the store refuses is answered 500, the answer of `errorHandler`; whether the rejected promise reaches that handler depends on the Express version, which is not part of this model.
- LogController.IngestLog: stores the record through `LogController.StoredWithClientIp`, keeping the client address that the schema as written drops (see Findings); `LogController.StoredRecord` is the record as written.
- LogController.FilterLogs: whether a `text` pattern compiles is the parameter `isPattern`; MongoDB's regular-expression dialect is not modelled.
- Blacklist.CreateEntry: the expiry is taken as a time already; an expiry string that `toDate` turns into the Invalid Date, which the store's `Date` cast refuses, is not expressible in the model.
- Blacklist.UpdateEntry: as for creation, an expiry that reads as the Invalid Date is not expressible; an id that is not an ObjectId, which the store refuses with a cast error, is treated as an unknown id.
- ProjectController.AddPingService: a project stored under the empty uuid, for which the store would refuse the service's required `projectUuid`, is not singled out.
- PingMonitor.CheckService: calls `Notify`, so the case where a rejected Telegram send makes the check of a down service end in an error is not modelled.
- ApiClient.LoginDone: only a string token is kept; a number, boolean, array or object in `token`, which the code stores and later sends as `Bearer <String(token)>` when truthy, clears the token instead.
- FileQueue.Extname: a path ending in `/` is not modelled; for other paths it follows Node's POSIX `extname`.
- FileQueue: file sizes are counted in characters, not UTF-8 bytes.
- Concurrency and asynchronous interleavings: every operation runs to completion before the next, including the `loadingPromise` de-duplication of the settings load and the parallel deletes.
- MongoDB and mongoose: stores are sequences or maps; unique-index violations, empty `required` strings and Invalid Date casts are refused results where the modelled operations write or query them. Whitelist upserts run without validators, so an empty address is stored as the code does.
- express-rate-limit's own counting; only the exemption predicate, the window and the limit are modelled.
- LogsPage.ApplyFilter: the order of keys in the address bar is not modelled; the query is a map from key to value. The same holds for `Object.entries` key order elsewhere, where keys are taken in the order given.
- LogsPage.ExportReadsBack: stated only for records whose fields hold no `;` and no line break, because the export does not quote cells.
- Translation: keys inherited from JavaScript object prototypes are not modelled, and the translation catalogue file is not part of this model; lookups take the catalogue as a parameter.
- Strs.Lower: lower-cases ASCII letters only; Unicode case folding is not modelled.
- The read-only project endpoints `listProjects`, `getProject`, `getProjectLogs`, `listPingServices` and `getProjectTelegramInfo`, which only query the store; `triggerPingCheck` is the monitor's check of every service of the project.
- Logger `setTransportEnabled`, the per-level shorthands `debug` to `critical`, `getApiQueueStatus`, `getFileQueueStatus`, `clearApiQueue`, `clearFileQueue`, `flushFileQueue` and `waitForApiQueue`: one-line delegations to `Log`, the transport switches or the queue operations the model has.
- The other calls of `client/src/api/index.ts` (projects, ping services, whitelist, blacklist, settings, Telegram status), which only name a route and pass a body through.
- LogsPage `handleClearFilters`, which resets the form to empty values.
- The HTTP client's `validateStatus` behaviour: the ping probe is modelled as a response with a status or a thrown error, as the monitor's branches read.
- Rendering, routing, local storage and the theme and localisation providers of the admin interfaces.

## Findings

| source | as written | input that shows it | evidently intended | confidence | as-written member | corrected member |
|---|---|---|---|---|---|---|
| ts-library/src/utils/file.ts:180-251 | `writeCsv` sets `csvHeaderWritten` before calling `appendWithRotation`, and the branch for a missing file clears the flag again; a new queue also starts with the flag clear even when the file already holds a header | a CSV queue, no file yet, two flushes of one record each: the file ends as header, row, header, row; or one flush of a new queue into a file that already holds header and row | the `payload` header appears once, at the top of each file, and every later line is a row | not executed | FileQueue.NewFileGetsSecondHeaderAsWritten | FileQueue.NewFileGetsOneHeader |
| api/src/app.ts:23-24 | `rateLimiter` is mounted before `ipWhitelist`, so when `shouldSkipRateLimit` reads `isWhitelistedIp` (rateLimiter.ts:7) nothing has set it yet | a loopback client, or any whitelisted address, calling `GET /api/projects`: the whitelist flags it, but the limiter has already counted it | a whitelisted address skips the rate limit on every route | not executed | RateLimiter.WhitelistedClientLimitedAsMounted | RateLimiter.SkipWhitelistFirst |
| api/src/api/models/Log.ts:25-37 | `ingestLog` passes `clientIP` to `LogModel.create` (logController.ts:94), but the schema declares no such path, so the strict schema drops it, and neither the 201 answer nor a later listing carries it | a log posted from the test client on 127.0.0.1: the test expects `clientIP` to be 127.0.0.1 in the answer (app.test.ts:86) and in the listing (app.test.ts:96), and the client type declares it | every stored log keeps the address the server saw | not executed | LogController.ClientIpDroppedAsWritten | LogController.IngestKeepsClientIp |
| src/api/controllers/authController.ts:15 | the credentials are compared with `===` against `ADMIN_USER` and `ADMIN_PASS`, so when both are unset a body without `username` and `password` matches, since undefined equals undefined | `ADMIN_USER` and `ADMIN_PASS` unset and a login body `{}`: a session token is issued | a login succeeds only when the administrator credentials are configured and the body repeats them | not executed | Auth.EmptyBodyAcceptedAsWritten | Auth.LoginCorrected |
