/** Log ingestion and querying: payload validation, the client address,
    the stored record, the alert it may raise, and the filtered listing and
    deletion of a project's logs. */
module LogController {
  import opened Wrappers
  import opened Strs
  import opened Json
  import opened Models
  import opened LogLists
  import opened LogFilters
  import opened IpUtils
  import Notifier
  import SystemSettings

  // ---------------------------------------------------------------------
  // Client address
  // ---------------------------------------------------------------------

  /** `sanitizeIp`: a missing or empty address is "unknown"; otherwise a
      LEADING `::ffff:` is dropped and nothing else changes. */
  function SanitizeIp(ip: Option<string>): (r: string)
    ensures ip.None? || ip == Some("") ==> r == "unknown"
    ensures ip.Some? && ip.value != "" && StartsWith(ip.value, MappedPrefix) ==> ip.value == MappedPrefix + r
    ensures ip.Some? && ip.value != "" && !StartsWith(ip.value, MappedPrefix) ==> r == ip.value
  {
    match ip
    case None => "unknown"
    case Some(s) =>
      if s == "" then "unknown"
      else if StartsWith(s, MappedPrefix) then
        assert s == s[..|MappedPrefix|] + s[|MappedPrefix|..];
        s[|MappedPrefix|..]
      else s
  }

  /** Sanitising differs from normalising: an embedded marker survives
      sanitising but not normalising, and a missing address is "unknown"
      rather than empty. */
  lemma SanitizeKeepsEmbeddedMarker()
    ensures SanitizeIp(Some("1::ffff:2")) == "1::ffff:2"
    ensures NormalizeIp(Some("1::ffff:2")) == "12"
    ensures SanitizeIp(None) == "unknown" && NormalizeIp(None) == ""
  {
    assert !StartsWith("1::ffff:2", MappedPrefix) by { assert "1::ffff:2"[..7][0] == '1'; }
    NormalizeRemovesFirst("1::ffff:2", 1);
    assert "1::ffff:2"[..1] == "1" && "1::ffff:2"[8..] == "2";
  }

  /** The `x-forwarded-for` header: absent, a single string or a list. */
  datatype ForwardedHeader = NoHeader | Single(value: string) | Multiple(values: seq<string>)

  /** The parts of an incoming request that name the client. */
  datatype ClientRequest = ClientRequest(
    forwarded: ForwardedHeader,
    ips: seq<string>,
    remoteAddress: Option<string>,
    ip: Option<string>)

  /** A header string that is not blank. */
  predicate UsableSingle(h: ForwardedHeader) {
    h.Single? && |Trim(h.value)| > 0
  }

  /** `extractClientIp`: the first comma-separated entry of a non-blank
      forwarded string, else the first entry of a forwarded list, else the
      first proxy address, else the socket address, else the request
      address; the winner is sanitised. */
  function ExtractClientIp(req: ClientRequest): (r: string)
    ensures UsableSingle(req.forwarded) ==> r == SanitizeIp(Some(Trim(Split(req.forwarded.value, ',')[0])))
    ensures !UsableSingle(req.forwarded) && req.forwarded.Multiple? && |req.forwarded.values| > 0 ==>
      r == SanitizeIp(Some(req.forwarded.values[0]))
  {
    var h := req.forwarded;
    if UsableSingle(h) then SanitizeIp(Some(Trim(Split(h.value, ',')[0])))
    else if h.Multiple? && |h.values| > 0 then SanitizeIp(Some(h.values[0]))
    else if |req.ips| > 0 then SanitizeIp(Some(req.ips[0]))
    else if req.remoteAddress.Some? && req.remoteAddress.value != "" then SanitizeIp(req.remoteAddress)
    else SanitizeIp(req.ip)
  }

  /** A usable forwarded string decides alone: the other sources are never
      consulted, and the answer holds no comma. */
  lemma ForwardedStringWins(req: ClientRequest, ips: seq<string>, remote: Option<string>, ip: Option<string>)
    requires UsableSingle(req.forwarded)
    ensures ExtractClientIp(req) == ExtractClientIp(ClientRequest(req.forwarded, ips, remote, ip))
    ensures ',' !in ExtractClientIp(req)
  {
    var req2 := ClientRequest(req.forwarded, ips, remote, ip);
    var first := Split(req.forwarded.value, ',')[0];
    assert ExtractClientIp(req) == SanitizeIp(Some(Trim(first)));
    assert ExtractClientIp(req2) == SanitizeIp(Some(Trim(first)));
    TrimKeepsOut(first, ',');
    SanitizeKeepsOut(Trim(first), ',');
  }

  /** Sanitising only drops a prefix or answers "unknown", so it brings in
      no other character. */
  lemma SanitizeKeepsOut(s: string, c: char)
    requires c !in s && c !in "unknown"
    ensures c !in SanitizeIp(Some(s))
  {
    if s != "" && StartsWith(s, MappedPrefix) {
      var r := s[|MappedPrefix|..];
      assert SanitizeIp(Some(s)) == r;
      forall i | 0 <= i < |r|
        ensures r[i] != c
      {
        assert r[i] == s[|MappedPrefix| + i];
      }
    }
  }

  /** Without any forwarded header, the first proxy address wins over the
      socket and request addresses. */
  lemma ProxyBeforeSocket(req: ClientRequest, remote: Option<string>, ip: Option<string>)
    requires req.forwarded.NoHeader? && |req.ips| > 0
    ensures ExtractClientIp(req) == SanitizeIp(Some(req.ips[0]))
    ensures ExtractClientIp(req) == ExtractClientIp(req.(remoteAddress := remote, ip := ip))
  {
  }

  /** The request address is consulted only when every other source is
      missing or empty. */
  lemma RequestAddressLast(req: ClientRequest)
    requires !UsableSingle(req.forwarded) && !(req.forwarded.Multiple? && |req.forwarded.values| > 0)
    requires |req.ips| == 0 && (req.remoteAddress.None? || req.remoteAddress == Some(""))
    ensures ExtractClientIp(req) == SanitizeIp(req.ip)
  {
  }

  // ---------------------------------------------------------------------
  // Payload validation
  // ---------------------------------------------------------------------

  /** The `log` part of an ingestion payload after validation. */
  datatype LogInput = LogInput(
    level: string,
    message: string,
    tags: seq<string>,
    timestamp: Option<string>,
    metadata: LogMetadata)

  datatype Payload = Payload(uuid: string, log: LogInput)

  /** `z.record(z.any()).optional()`. */
  function OptionalRecord(j: Json, key: string): (r: Option<Option<map<string, Json>>>)
    ensures Get(j, key).None? ==> r == Some(None)
    ensures Get(j, key).Some? ==> (r.Some? <==> Get(j, key).value.JObj?)
    ensures r.Some? && r.value.Some? ==> Get(j, key) == Some(JObj(r.value.value))
  {
    match Get(j, key)
    case None => Some(None)
    case Some(JObj(m)) => Some(Some(m))
    case Some(_) => None
  }

  /** The metadata object, `{}` when absent. */
  function DecodeMetadata(j: Option<Json>): (r: Option<LogMetadata>)
    ensures j.None? ==> r == Some(NoMetadata)
    ensures j.Some? && !j.value.JObj? ==> r.None?
  {
    match j
    case None => Some(NoMetadata)
    case Some(m) =>
      if !m.JObj? then None
      else
        match (OptionalString(m, "ip"), OptionalString(m, "service"), OptionalString(m, "user"), OptionalRecord(m, "extra"))
        case (Some(ip), Some(service), Some(user), Some(extra)) => Some(LogMetadata(ip, service, user, extra))
        case _ => None
  }

  /** `logSchema.safeParse(body)`; unknown keys are stripped, as zod
      objects do. */
  function DecodePayload(body: Json): (r: Option<Payload>)
    ensures GetString(body, "uuid").None? ==> r.None?
    ensures r.Some? ==> GetString(body, "uuid") == Some(r.value.uuid)
    ensures r.Some? ==> Get(body, "log").Some? && Get(body, "log").value.JObj?
    ensures r.Some? ==> var log := Get(body, "log").value;
      GetString(log, "level") == Some(r.value.log.level) && GetString(log, "message") == Some(r.value.log.message)
  {
    var uuid := GetString(body, "uuid");
    var log := Get(body, "log");
    if uuid.None? || log.None? || !log.value.JObj? then None
    else
      var j := log.value;
      match (GetString(j, "level"), GetString(j, "message"), StringsOr(j, "tags", []),
             OptionalString(j, "timestamp"), DecodeMetadata(Get(j, "metadata")))
      case (Some(level), Some(message), Some(tags), Some(ts), Some(md)) =>
        Some(Payload(uuid.value, LogInput(level, message, tags, ts, md)))
      case _ => None
  }

  /** A string field present only when the value is. */
  function OptField(key: string, v: Option<string>): map<string, Json> {
    if v.Some? then map[key := JStr(v.value)] else map[]
  }

  /** The metadata object a client sends, with absent fields left out. */
  function EncodeMetadata(md: LogMetadata): Json {
    JObj(OptField("ip", md.ip) + OptField("service", md.service) + OptField("user", md.user)
      + (if md.extra.Some? then map["extra" := JObj(md.extra.value)] else map[]))
  }

  function EncodeLog(log: LogInput): Json {
    JObj(map["level" := JStr(log.level), "message" := JStr(log.message),
             "tags" := JArr(EncodeStrings(log.tags)), "metadata" := EncodeMetadata(log.metadata)]
         + OptField("timestamp", log.timestamp))
  }

  /** The JSON body a client sends for a payload. */
  function EncodePayload(p: Payload): Json {
    JObj(map["uuid" := JStr(p.uuid), "log" := EncodeLog(p.log)])
  }

  lemma DecodeEncodeMetadata(md: LogMetadata)
    ensures DecodeMetadata(Some(EncodeMetadata(md))) == Some(md)
  {
    var m := EncodeMetadata(md);
    assert OptionalString(m, "ip") == Some(md.ip);
    assert OptionalString(m, "service") == Some(md.service);
    assert OptionalString(m, "user") == Some(md.user);
    assert OptionalRecord(m, "extra") == Some(md.extra);
  }

  /** Every payload a client can send is accepted and read back exactly. */
  lemma DecodeEncode(p: Payload)
    ensures DecodePayload(EncodePayload(p)) == Some(p)
  {
    var j := EncodeLog(p.log);
    EncodeLogFields(p.log);
    assert Get(EncodePayload(p), "log") == Some(j);
    assert GetString(EncodePayload(p), "uuid") == Some(p.uuid);
  }

  /** Each field of an encoded log reads back as the value encoded. */
  lemma EncodeLogFields(log: LogInput)
    ensures var j := EncodeLog(log);
      j.JObj? && GetString(j, "level") == Some(log.level) && GetString(j, "message") == Some(log.message)
      && StringsOr(j, "tags", []) == Some(log.tags) && OptionalString(j, "timestamp") == Some(log.timestamp)
      && DecodeMetadata(Get(j, "metadata")) == Some(log.metadata)
  {
    var j := EncodeLog(log);
    EncodeLogGets(log);
    assert StringsOr(j, "tags", []) == Some(log.tags) by {
      StringsOfStrings(log.tags);
    }
    assert DecodeMetadata(Get(j, "metadata")) == Some(log.metadata) by {
      DecodeEncodeMetadata(log.metadata);
    }
    assert OptionalString(j, "timestamp") == Some(log.timestamp) by {
      if log.timestamp.None? {
        assert Get(j, "timestamp").None?;
      }
    }
  }

  /** The entries of an encoded log object. */
  lemma EncodeLogGets(log: LogInput)
    ensures var j := EncodeLog(log);
      Get(j, "level") == Some(JStr(log.level)) && Get(j, "message") == Some(JStr(log.message))
      && Get(j, "tags") == Some(JArr(EncodeStrings(log.tags)))
      && Get(j, "metadata") == Some(EncodeMetadata(log.metadata))
      && (log.timestamp.None? ==> Get(j, "timestamp").None?)
      && (log.timestamp.Some? ==> Get(j, "timestamp") == Some(JStr(log.timestamp.value)))
  {
    var base := map["level" := JStr(log.level), "message" := JStr(log.message),
                    "tags" := JArr(EncodeStrings(log.tags)), "metadata" := EncodeMetadata(log.metadata)];
    var m := base + OptField("timestamp", log.timestamp);
    assert EncodeLog(log) == JObj(m);
    assert "timestamp" !in base;
    assert forall k :: k in base && k != "timestamp" ==> k in m && m[k] == base[k];
  }

  /** A payload with only the required strings gets no tags and empty
      metadata. */
  lemma DecodeDefaults(uuid: string, level: string, message: string)
    ensures DecodePayload(JObj(map["uuid" := JStr(uuid),
                                   "log" := JObj(map["level" := JStr(level), "message" := JStr(message)])]))
      == Some(Payload(uuid, LogInput(level, message, [], None, NoMetadata)))
  {
  }

  // ---------------------------------------------------------------------
  // Ingestion
  // ---------------------------------------------------------------------

  /** What one ingestion leaves behind. `rateLimit` is the
      `rateLimitPerMinute` of a 201 answer; `settings` and `settingsCache`
      are the settings record and its cache after the call. */
  datatype IngestResult = IngestResult(
    status: int,
    logs: seq<LogRecord>,
    saved: Option<LogRecord>,
    system: seq<SystemEntry>,
    notifier: Notifier.State,
    sends: seq<Notifier.Send>,
    logged: seq<Notifier.Logged>,
    rateLimit: Option<int>,
    settings: Option<SystemSettings.Settings>,
    settingsCache: SystemSettings.SettingsCache)

  /** The alert text for a stored log. */
  function AlertText(level: string, message: string): string {
    "Новый лог [" + level + "] " + message
  }

  /** The single tag an alert is raised under: the first tag, else the
      level. */
  function AlertTag(log: LogInput): (t: string)
    ensures |log.tags| > 0 ==> t == log.tags[0]
    ensures |log.tags| == 0 ==> t == log.level
  {
    if |log.tags| > 0 then log.tags[0] else log.level
  }

  /** Whether the store accepts the record of a payload: its project,
      level and message are required strings and so must not be empty, and
      a given timestamp must read as a valid time (the `Date` cast). */
  predicate Storable(p: Payload, parseDate: string -> JsDate) {
    p.uuid != "" && p.log.level != "" && p.log.message != ""
    && (p.log.timestamp.Some? && p.log.timestamp.value != "" ==> parseDate(p.log.timestamp.value).ValidDate?)
  }

  /** `LogModel.create` for an accepted payload as the schema is written:
      the record, whose timestamp is the client's when one is given and the
      server time otherwise, or `None` when the store refuses it. The
      schema declares no `clientIP` path, so the address passed to `create`
      is dropped. */
  function StoredRecord(id: string, p: Payload, parseDate: string -> JsDate, now: int): (r: Option<LogRecord>)
    ensures r.Some? <==> Storable(p, parseDate)
    ensures r.Some? ==>
      r.value.id == id && r.value.projectUuid == p.uuid
      && r.value.level == p.log.level && r.value.message == p.log.message
      && r.value.tags == p.log.tags && r.value.metadata == p.log.metadata
      && r.value.clientIp.None?
    ensures r.Some? && p.log.timestamp.Some? && p.log.timestamp.value != "" ==>
      parseDate(p.log.timestamp.value) == ValidDate(r.value.timestamp)
    ensures r.Some? && (p.log.timestamp.None? || p.log.timestamp == Some("")) ==> r.value.timestamp == now
  {
    var ts := if p.log.timestamp.Some? && p.log.timestamp.value != "" then parseDate(p.log.timestamp.value) else ValidDate(now);
    if p.uuid == "" || p.log.level == "" || p.log.message == "" || ts.InvalidDate? then None
    else Some(LogRecord(id, p.uuid, p.log.level, p.log.message, p.log.tags, ts.ms, p.log.metadata, None))
  }

  /** The record with a declared `clientIP` path, as the controller and
      its callers expect: the same record as `StoredRecord`, now keeping
      the client address. */
  function StoredWithClientIp(id: string, p: Payload, clientIp: string, parseDate: string -> JsDate, now: int): (r: Option<LogRecord>)
    ensures r.Some? <==> Storable(p, parseDate)
    ensures r.Some? ==>
      r.value.clientIp == Some(clientIp) && r.value.(clientIp := None) == StoredRecord(id, p, parseDate, now).value
  {
    match StoredRecord(id, p, parseDate, now)
    case None => None
    case Some(rec) => Some(rec.(clientIp := Some(clientIp)))
  }

  /** A request over a local IPv6 socket, with no proxy in front, as a
      test client on the same host makes it. */
  const LocalRequest: ClientRequest := ClientRequest(NoHeader, [], Some("::ffff:127.0.0.1"), None)

  /** The local client is seen as 127.0.0.1, but the record as the schema
      is written does not keep that address, so an answer built from it
      has no `clientIP`. */
  lemma ClientIpDroppedAsWritten(p: Payload, id: string, parseDate: string -> JsDate, now: int)
    requires Storable(p, parseDate)
    ensures ExtractClientIp(LocalRequest) == "127.0.0.1"
    ensures StoredRecord(id, p, parseDate, now).value.clientIp != Some(ExtractClientIp(LocalRequest))
  {
    assert StartsWith("::ffff:127.0.0.1", MappedPrefix);
    assert "::ffff:127.0.0.1"[|MappedPrefix|..] == "127.0.0.1";
  }

  /** The answer given when the store throws: `errorHandler`'s 500. */
  const StoreFailed: int := 500

  /** `ingestLog`. A malformed payload is refused with 400, logging a
      warning only when its raw `uuid` names a project; an unknown project is
      refused with 404 and a security entry; a record the store refuses
      throws, so nothing is stored or sent; otherwise the record is appended,
      an alert is dispatched outside debug mode with alerts enabled, and the
      answer carries the current rate limit, whose read may load or create
      the settings record. */
  function IngestLog(projects: map<string, Project>, logs: seq<LogRecord>, nst: Notifier.State,
                     settings: Option<SystemSettings.Settings>, cache: SystemSettings.SettingsCache,
                     req: ClientRequest, body: Json, id: string, parseDate: string -> JsDate, now: int): (r: IngestResult)
    ensures r.status == 400 <==> DecodePayload(body).None?
    ensures r.status == 404 <==> DecodePayload(body).Some? && DecodePayload(body).value.uuid !in projects
    ensures r.status == StoreFailed <==>
      DecodePayload(body).Some? && DecodePayload(body).value.uuid in projects && !Storable(DecodePayload(body).value, parseDate)
    ensures r.status == 201 <==>
      DecodePayload(body).Some? && DecodePayload(body).value.uuid in projects && Storable(DecodePayload(body).value, parseDate)
    ensures r.status != 201 ==>
      r.logs == logs && r.saved.None? && r.notifier == nst && r.sends == [] && r.logged == []
      && r.rateLimit.None? && r.settings == settings && r.settingsCache == cache
    ensures r.status == 400 ==>
      var raw := GetString(body, "uuid");
      if raw.Some? && raw.value != "" && raw.value in projects
      then r.system == [SystemEntry("WARNING", ["INGEST", "VALIDATION"], ExtractClientIp(req), "log-ingest", raw.value)]
      else r.system == []
    ensures r.status == 404 ==>
      r.system == [SystemEntry("SECURITY", ["SECURITY"], ExtractClientIp(req), "log-ingest", DecodePayload(body).value.uuid)]
    ensures r.status == StoreFailed ==> r.system == []
    ensures r.status == 201 ==>
      var p := DecodePayload(body).value;
      var project := projects[p.uuid];
      var g := SystemSettings.GetRateLimit(settings, cache, now);
      r.system == [] && r.saved == StoredWithClientIp(id, p, ExtractClientIp(req), parseDate, now)
      && r.logs == logs + [r.saved.value]
      && r.rateLimit == Some(g.value) && r.settings == g.store && r.settingsCache == g.cache
      && (project.debugMode || !project.telegram.enabled ==> r.notifier == nst && r.sends == [] && r.logged == [])
      && (!project.debugMode && project.telegram.enabled ==>
            var n := Notifier.Notify(nst, project, AlertText(p.log.level, p.log.message), AlertTag(p.log), now);
            r.notifier == n.state && r.sends == n.sends && r.logged == n.logged)
  {
    var clientIp := ExtractClientIp(req);
    match DecodePayload(body)
    case None =>
      var raw := GetString(body, "uuid");
      var system := if raw.Some? && raw.value != "" && raw.value in projects
        then [SystemEntry("WARNING", ["INGEST", "VALIDATION"], clientIp, "log-ingest", raw.value)]
        else [];
      IngestResult(400, logs, None, system, nst, [], [], None, settings, cache)
    case Some(p) =>
      if p.uuid !in projects then
        IngestResult(404, logs, None, [SystemEntry("SECURITY", ["SECURITY"], clientIp, "log-ingest", p.uuid)], nst, [], [],
                     None, settings, cache)
      else
        match StoredWithClientIp(id, p, clientIp, parseDate, now)
        case None => IngestResult(StoreFailed, logs, None, [], nst, [], [], None, settings, cache)
        case Some(saved) =>
          var project := projects[p.uuid];
          var n := if !project.debugMode && project.telegram.enabled
            then Notifier.Notify(nst, project, AlertText(p.log.level, p.log.message), AlertTag(p.log), now)
            else Notifier.NotifyResult(nst, [], []);
          var g := SystemSettings.GetRateLimit(settings, cache, now);
          IngestResult(201, logs + [saved], Some(saved), [], n.state, n.sends, n.logged, Some(g.value), g.store, g.cache)
  }

  /** A log with an empty level or message, or with a timestamp that does
      not read as a date, is never stored, whatever project it names. */
  lemma UnstorableStoresNothing(projects: map<string, Project>, logs: seq<LogRecord>, nst: Notifier.State,
                                settings: Option<SystemSettings.Settings>, cache: SystemSettings.SettingsCache,
                                req: ClientRequest, p: Payload, id: string, parseDate: string -> JsDate, now: int)
    requires p.log.level == "" || p.log.message == ""
      || (p.log.timestamp.Some? && p.log.timestamp.value != "" && parseDate(p.log.timestamp.value).InvalidDate?)
    ensures var r := IngestLog(projects, logs, nst, settings, cache, req, EncodePayload(p), id, parseDate, now);
      r.status != 201 && r.logs == logs && r.sends == []
  {
    DecodeEncode(p);
  }

  /** The first log accepted on a fresh installation answers the default
      limit of 120 per minute and creates the settings record with it; a
      later log within the minute answers from the cache without reading
      the store. */
  lemma FirstIngestAnswersDefaultLimit(projects: map<string, Project>, logs: seq<LogRecord>, nst: Notifier.State,
                                       req: ClientRequest, p: Payload, id: string, id2: string,
                                       parseDate: string -> JsDate, now: int, later: int)
    requires p.uuid in projects && Storable(p, parseDate)
    requires now <= later < now + SystemSettings.CacheTtlMs
    ensures var r := IngestLog(projects, logs, nst, None, SystemSettings.ClearedCache, req, EncodePayload(p), id, parseDate, now);
      r.status == 201 && r.rateLimit == Some(SystemSettings.DefaultRateLimit) && r.rateLimit.value > 0
      && r.settings == Some(SystemSettings.Settings(Some(SystemSettings.DefaultRateLimit)))
      && (var r2 := IngestLog(projects, r.logs, r.notifier, r.settings, r.settingsCache, req, EncodePayload(p), id2, parseDate, later);
          r2.rateLimit == r.rateLimit && r2.settingsCache == r.settingsCache)
  {
    DecodeEncode(p);
    SystemSettings.FirstReadCreatesDefault(SystemSettings.ClearedCache, now);
  }

  /** With the `clientIP` path kept, the log a local client posts is
      stored, and answered, with the address 127.0.0.1. */
  lemma IngestKeepsClientIp(projects: map<string, Project>, logs: seq<LogRecord>, nst: Notifier.State,
                            settings: Option<SystemSettings.Settings>, cache: SystemSettings.SettingsCache,
                            p: Payload, id: string, parseDate: string -> JsDate, now: int)
    requires p.uuid in projects && Storable(p, parseDate)
    ensures var r := IngestLog(projects, logs, nst, settings, cache, LocalRequest, EncodePayload(p), id, parseDate, now);
      r.status == 201 && r.saved.value.clientIp == Some("127.0.0.1") && r.logs[|logs|] == r.saved.value
  {
    DecodeEncode(p);
    ClientIpDroppedAsWritten(p, id, parseDate, now);
  }

  /** A project in debug mode never raises an alert, whatever is posted. */
  lemma DebugModeIsSilent(projects: map<string, Project>, logs: seq<LogRecord>, nst: Notifier.State,
                          settings: Option<SystemSettings.Settings>, cache: SystemSettings.SettingsCache,
                          req: ClientRequest, body: Json, id: string, parseDate: string -> JsDate, now: int)
    requires DecodePayload(body).Some? && DecodePayload(body).value.uuid in projects
    requires projects[DecodePayload(body).value.uuid].debugMode
    ensures IngestLog(projects, logs, nst, settings, cache, req, body, id, parseDate, now).sends == []
  {
  }

  /** An ingested log that names no project is never stored, whatever else
      it holds. */
  lemma UnknownProjectStoresNothing(projects: map<string, Project>, logs: seq<LogRecord>, nst: Notifier.State,
                                    settings: Option<SystemSettings.Settings>, cache: SystemSettings.SettingsCache,
                                    req: ClientRequest, p: Payload, id: string, parseDate: string -> JsDate, now: int)
    requires p.uuid !in projects
    ensures var r := IngestLog(projects, logs, nst, settings, cache, req, EncodePayload(p), id, parseDate, now);
      r.status == 404 && r.logs == logs
  {
    DecodeEncode(p);
  }

  // ---------------------------------------------------------------------
  // Listing and deletion
  // ---------------------------------------------------------------------

  /** The most records one listing returns. */
  const ListLimit: nat := 5000

  /** The outcome of a listing; `ListFailed` is the query the store
      refuses (see `Runnable`), answered by `errorHandler`. */
  datatype ListResult = MissingUuid | ListNotFound | ListFailed | Listed(project: Project, logs: seq<LogRecord>)

  /** `filterLogs`: 400 without a `uuid` parameter, 404 for an unknown
      project, a failure for a query the store cannot run, otherwise the
      newest matching records, at most 5000. */
  function FilterLogs(projects: map<string, Project>, logs: seq<LogRecord>, q: Query,
                      parseDate: string -> JsDate, isPattern: string -> bool,
                      textMatch: (string, string) -> bool): (r: ListResult)
    ensures r.MissingUuid? <==> Given(q, "uuid").None?
    ensures r.ListNotFound? <==> Given(q, "uuid").Some? && q["uuid"] !in projects
    ensures r.ListFailed? <==>
      Given(q, "uuid").Some? && q["uuid"] in projects && !Runnable(BuildLogFilter(q["uuid"], q, parseDate), isPattern)
    ensures r.Listed? ==>
      var sel := Selected(logs, BuildLogFilter(q["uuid"], q, parseDate), textMatch);
      r.project == projects[q["uuid"]]
      && NewestFirst(r.logs)
      && |r.logs| == (if |sel| < ListLimit then |sel| else ListLimit)
      && multiset(r.logs) <= multiset(sel)
      && (forall x, y :: x in multiset(sel) - multiset(r.logs) && y in r.logs ==> x.timestamp <= y.timestamp)
  {
    match Given(q, "uuid")
    case None => MissingUuid
    case Some(uuid) =>
      if uuid !in projects then ListNotFound
      else if !Runnable(BuildLogFilter(uuid, q, parseDate), isPattern) then ListFailed
      else
        var sel := Selected(logs, BuildLogFilter(uuid, q, parseDate), textMatch);
        var sorted := SortNewestFirst(sel);
        var page := Newest(sorted, ListLimit);
        NewestCut(sorted, ListLimit);
        assert multiset(sel) - multiset(page) == multiset(sorted[|page|..]);
        assert forall x :: x in multiset(sel) - multiset(page) ==> x in sorted[|page|..];
        Listed(projects[uuid], page)
  }

  /** The outcome of a deletion; `DeleteFailed` is the query the store
      refuses. */
  datatype DeleteResult = DeleteNotFound | DeleteFailed | Deleted(logs: seq<LogRecord>, count: nat)

  /** `deleteLogs`: 404 for an unknown project, a failure that deletes
      nothing for a query the store cannot run; otherwise exactly the
      matching records are removed, the others stay in order, and the count
      of removed records is reported. */
  function DeleteLogs(projects: map<string, Project>, logs: seq<LogRecord>, uuid: string, q: Query,
                      parseDate: string -> JsDate, isPattern: string -> bool,
                      textMatch: (string, string) -> bool): (r: DeleteResult)
    ensures r.DeleteNotFound? <==> uuid !in projects
    ensures r.DeleteFailed? <==> uuid in projects && !Runnable(BuildLogFilter(uuid, q, parseDate), isPattern)
    ensures r.Deleted? ==>
      var f := BuildLogFilter(uuid, q, parseDate);
      var sel := Selected(logs, f, textMatch);
      r.count == |sel|
      && r.logs == Keep(logs, x => !Matches(f, textMatch, x))
      && multiset(r.logs) + multiset(sel) == multiset(logs)
      && (forall x :: x in r.logs ==> x in logs && !Matches(f, textMatch, x))
  {
    if uuid !in projects then DeleteNotFound
    else
      var f := BuildLogFilter(uuid, q, parseDate);
      if !Runnable(f, isPattern) then DeleteFailed
      else
        var kept := Keep(logs, x => !Matches(f, textMatch, x));
        KeepSplit(logs, x => Matches(f, textMatch, x), x => !Matches(f, textMatch, x));
        Deleted(kept, |logs| - |kept|)
  }

  /** Deleting with a filter and deleting with the same filter afterwards
      finds nothing more to delete; a query the store refuses is refused
      again. */
  lemma DeleteThenNothingMatches(projects: map<string, Project>, logs: seq<LogRecord>, uuid: string, q: Query,
                                 parseDate: string -> JsDate, isPattern: string -> bool,
                                 textMatch: (string, string) -> bool)
    requires uuid in projects
    ensures var r := DeleteLogs(projects, logs, uuid, q, parseDate, isPattern, textMatch);
      (r.Deleted? && DeleteLogs(projects, r.logs, uuid, q, parseDate, isPattern, textMatch) == Deleted(r.logs, 0))
      || (r.DeleteFailed? && DeleteLogs(projects, logs, uuid, q, parseDate, isPattern, textMatch) == DeleteFailed)
  {
    var f := BuildLogFilter(uuid, q, parseDate);
    var r := DeleteLogs(projects, logs, uuid, q, parseDate, isPattern, textMatch);
    if r.Deleted? {
      KeepAll(r.logs, x => !Matches(f, textMatch, x));
    }
  }

  /** A start or end date that does not read as a date fails both the
      listing and the deletion, leaving the store as it is. */
  lemma UnreadableDateFails(projects: map<string, Project>, logs: seq<LogRecord>, q: Query,
                            parseDate: string -> JsDate, isPattern: string -> bool,
                            textMatch: (string, string) -> bool)
    requires Given(q, "uuid").Some? && q["uuid"] in projects
    requires Given(q, "startDate").Some? && parseDate(q["startDate"]).InvalidDate?
    ensures FilterLogs(projects, logs, q, parseDate, isPattern, textMatch) == ListFailed
    ensures DeleteLogs(projects, logs, q["uuid"], q, parseDate, isPattern, textMatch) == DeleteFailed
  {
  }
}
