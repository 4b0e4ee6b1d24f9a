/** The client library's singleton logger: per-level switches, named
    templates that turn a record into the payload, and three transports
    (console, the rate-limited API queue, the file queue). */
module Logger {
  import opened Wrappers
  import opened Strs
  import opened Json
  import RateQueue
  import FileQueue

  datatype Level = Debug | Info | Warning | Error | Critical

  function LevelName(l: Level): string {
    match l
    case Debug => "DEBUG"
    case Info => "INFO"
    case Warning => "WARNING"
    case Error => "ERROR"
    case Critical => "CRITICAL"
  }

  const AllLevels: set<Level> := {Debug, Info, Warning, Error, Critical}

  /** The enabled levels a fresh level state has: all of them, except
      DEBUG in the `production` environment. */
  function DefaultLevels(environment: Option<string>): (r: set<Level>)
    ensures environment == Some("production") ==> r == AllLevels - {Debug}
    ensures environment != Some("production") ==> r == AllLevels
  {
    if environment == Some("production") then AllLevels - {Debug} else AllLevels
  }

  const DefaultTemplateName: string := "default"
  const DefaultApiBaseUrl: string := "http://localhost:3000"
  const DefaultRateLimit: int := 120

  const DefaultFileOptions: FileQueue.Options :=
    FileQueue.Options(false, FileQueue.JsonFile, "logs/simple-logger.json", 5000, 50, 2 * 1024 * 1024)

  /** The record a template receives: the message, the tags and metadata
      as the caller gave them, and every other field of the call. */
  datatype Record = Record(
    message: string,
    tags: Option<seq<string>>,
    metadata: Option<map<string, Json>>,
    rest: map<string, Json>)

  /** A template is the built-in one or one registered by the caller,
      known by an identity the host resolves. */
  datatype Template = Builtin | UserTemplate(id: nat)

  datatype Printer = DefaultPrinter | UserPrinter(id: nat)

  datatype Transports = Transports(api: bool, console: bool, file: bool)

  datatype ApiItem = ApiItem(uuid: string, log: map<string, Json>)

  /** What the logger cannot compute itself: the clock, `JSON.stringify`,
      `String(x)`, and the caller's templates and console printers. */
  datatype Host = Host(
    nowIso: string,
    stringify: Json -> string,
    display: Json -> string,
    userTemplate: (nat, string, Record) -> map<string, Json>,
    userPrinter: (nat, string, Record) -> string,
    iso1: string,
    iso2: string)

  datatype Logger = Logger(
    apiBaseUrl: string,
    rateLimitPerMinute: int,
    defaultProjectUuid: Option<string>,
    defaultMetadata: map<string, Json>,
    levels: set<Level>,
    transports: Transports,
    templates: map<string, Template>,
    activeTemplate: string,
    printer: Printer,
    fileQueue: Option<FileQueue.FileQueue>,
    apiQueue: RateQueue.Queue<ApiItem>)

  datatype TransportsUpdate = TransportsUpdate(api: Option<bool>, console: Option<bool>, file: Option<bool>)

  /** The options of `getInstance` and `configure`; `None` is a field left
      out. `templates` are the entries to register. */
  datatype LoggerOptions = LoggerOptions(
    apiBaseUrl: Option<string>,
    rateLimitPerMinute: Option<int>,
    defaultProjectUuid: Option<string>,
    defaultMetadata: Option<map<string, Json>>,
    environment: Option<string>,
    transports: Option<TransportsUpdate>,
    printer: Option<nat>,
    templates: map<string, nat>,
    activeTemplate: Option<string>,
    fileTransport: Option<FileQueue.OptionsUpdate>)

  const NoOptions: LoggerOptions := LoggerOptions(None, None, None, None, None, None, None, map[], None, None)

  /** JavaScript truthiness of a JSON value. */
  predicate Truthy(j: Json) {
    match j
    case JNull => false
    case JBool(b) => b
    case JNum(n) => n != 0.0
    case JStr(s) => s != ""
    case JArr(_) => true
    case JObj(_) => true
  }

  function Registered(entries: map<string, nat>): (r: map<string, Template>)
    ensures r.Keys == entries.Keys && forall k :: k in entries ==> r[k] == UserTemplate(entries[k])
  {
    map k | k in entries :: UserTemplate(entries[k])
  }

  function Merged(t: Transports, u: TransportsUpdate): Transports {
    Transports(u.api.GetOr(t.api), u.console.GetOr(t.console), u.file.GetOr(t.file))
  }

  /** Every field of `o`, as an update. */
  function AllOf(o: FileQueue.Options): (u: FileQueue.OptionsUpdate)
    ensures FileQueue.MergeOptions(o, u) == o
    ensures forall p :: FileQueue.MergeOptions(p, u) == o
  {
    FileQueue.OptionsUpdate(Some(o.enabled), Some(o.format), Some(o.filePath), Some(o.flushIntervalMs),
                            Some(o.recordsPerInterval), Some(o.maxFileSizeBytes))
  }

  /** The constructor. */
  function NewLogger(o: LoggerOptions): (l: Logger)
    ensures l.apiBaseUrl == o.apiBaseUrl.GetOr(DefaultApiBaseUrl)
    ensures l.rateLimitPerMinute == o.rateLimitPerMinute.GetOr(DefaultRateLimit)
    ensures l.defaultMetadata == o.defaultMetadata.GetOr(map["ip" := JStr("unknown")])
    ensures l.levels == DefaultLevels(o.environment)
    ensures l.transports == Transports(true, true, false) || o.transports.Some?
    ensures DefaultTemplateName in l.templates
    ensures DefaultTemplateName !in o.templates ==> l.templates[DefaultTemplateName] == Builtin
    ensures l.activeTemplate == o.activeTemplate.GetOr(DefaultTemplateName)
    ensures l.apiQueue.items == [] && l.apiQueue.hasCheck
    ensures l.fileQueue.Some? <==> FileQueue.MergeOptions(DefaultFileOptions, o.fileTransport.GetOr(AllOf(DefaultFileOptions))).enabled
  {
    var rate := o.rateLimitPerMinute.GetOr(DefaultRateLimit);
    var fileOptions := FileQueue.MergeOptions(DefaultFileOptions, o.fileTransport.GetOr(AllOf(DefaultFileOptions)));
    Logger(
      o.apiBaseUrl.GetOr(DefaultApiBaseUrl),
      rate,
      o.defaultProjectUuid,
      o.defaultMetadata.GetOr(map["ip" := JStr("unknown")]),
      DefaultLevels(o.environment),
      Merged(Transports(true, true, false), o.transports.GetOr(TransportsUpdate(None, None, None))),
      map[DefaultTemplateName := Builtin] + Registered(o.templates),
      o.activeTemplate.GetOr(DefaultTemplateName),
      if o.printer.Some? then UserPrinter(o.printer.value) else DefaultPrinter,
      if fileOptions.enabled then Some(FileQueue.NewFileQueue(fileOptions)) else None,
      RateQueue.NewQueue<ApiItem>(rate, true))
  }

  /** `configure`: omitted fields keep their values; a non-empty
      environment resets the level switches; a file transport option is
      merged onto the library defaults, not onto the current options. */
  function Configure(l: Logger, o: LoggerOptions): (r: Logger)
    ensures r.apiBaseUrl == o.apiBaseUrl.GetOr(l.apiBaseUrl)
    ensures r.rateLimitPerMinute == o.rateLimitPerMinute.GetOr(l.rateLimitPerMinute)
    ensures r.defaultProjectUuid == (if o.defaultProjectUuid.Some? then o.defaultProjectUuid else l.defaultProjectUuid)
    ensures r.defaultMetadata == o.defaultMetadata.GetOr(l.defaultMetadata)
    ensures o.environment.Some? && o.environment.value != "" ==> r.levels == DefaultLevels(o.environment)
    ensures !(o.environment.Some? && o.environment.value != "") ==> r.levels == l.levels
    ensures o.transports.None? ==> r.transports == l.transports
    ensures r.templates == WithTemplates(l.templates, o.templates)
    ensures r.activeTemplate == (if o.activeTemplate.Some? && o.activeTemplate.value != "" then o.activeTemplate.value else l.activeTemplate)
    ensures r.apiQueue.items == l.apiQueue.items
    ensures r.apiQueue.intervalMs == RateQueue.IntervalMs(r.rateLimitPerMinute)
    ensures o.apiBaseUrl.Some? && o.apiBaseUrl.value != "" && o.apiBaseUrl.value != l.apiBaseUrl ==> !r.apiQueue.serverAvailable
    ensures o.fileTransport.None? ==> r.fileQueue == l.fileQueue
  {
    var rate := o.rateLimitPerMinute.GetOr(l.rateLimitPerMinute);
    l.(apiBaseUrl := o.apiBaseUrl.GetOr(l.apiBaseUrl),
       rateLimitPerMinute := rate,
       defaultProjectUuid := if o.defaultProjectUuid.Some? then o.defaultProjectUuid else l.defaultProjectUuid,
       defaultMetadata := o.defaultMetadata.GetOr(l.defaultMetadata),
       levels := if o.environment.Some? && o.environment.value != "" then DefaultLevels(o.environment) else l.levels,
       transports := if o.transports.Some? then Merged(l.transports, o.transports.value) else l.transports,
       printer := if o.printer.Some? then UserPrinter(o.printer.value) else l.printer,
       templates := WithTemplates(l.templates, o.templates),
       activeTemplate := if o.activeTemplate.Some? && o.activeTemplate.value != "" then o.activeTemplate.value else l.activeTemplate,
       apiQueue := ConfiguredQueue(l, o.apiBaseUrl, rate),
       fileQueue := ConfiguredFileQueue(l.fileQueue, o.fileTransport))
  }

  /** The registered templates with the new entries put in. */
  function WithTemplates(t: map<string, Template>, entries: map<string, nat>): (r: map<string, Template>)
    ensures forall k :: k in t && k !in entries ==> k in r && r[k] == t[k]
    ensures forall k :: k in entries ==> k in r && r[k] == UserTemplate(entries[k])
    ensures r.Keys == t.Keys + entries.Keys
  {
    t + Registered(entries)
  }

  /** The API queue after `configure`: a new, non-empty base URL forces a
      new availability check; the pace follows the limit. */
  function ConfiguredQueue(l: Logger, apiBaseUrl: Option<string>, rate: int): (r: RateQueue.Queue<ApiItem>)
    ensures r.items == l.apiQueue.items && r.intervalMs == RateQueue.IntervalMs(rate)
    ensures apiBaseUrl.Some? && apiBaseUrl.value != "" && apiBaseUrl.value != l.apiBaseUrl ==> !r.serverAvailable
    ensures !(apiBaseUrl.Some? && apiBaseUrl.value != "" && apiBaseUrl.value != l.apiBaseUrl) ==>
      r.serverAvailable == l.apiQueue.serverAvailable
  {
    var baseChanged := apiBaseUrl.Some? && apiBaseUrl.value != "" && apiBaseUrl.value != l.apiBaseUrl;
    var q0 := if baseChanged then RateQueue.ResetAvailability(l.apiQueue) else l.apiQueue;
    RateQueue.UpdateRateLimit(q0, rate)
  }

  /** The file queue after `configure`: options merged onto the library
      defaults; enabled keeps or creates the queue (re-pointing it at the
      merged path), disabled drops it. */
  function ConfiguredFileQueue(fq: Option<FileQueue.FileQueue>, u: Option<FileQueue.OptionsUpdate>): (r: Option<FileQueue.FileQueue>)
    ensures u.None? ==> r == fq
    ensures u.Some? ==> (r.Some? <==> FileQueue.MergeOptions(DefaultFileOptions, u.value).enabled)
    ensures u.Some? && r.Some? ==> r.value.options == FileQueue.MergeOptions(DefaultFileOptions, u.value)
    ensures u.Some? && r.Some? && fq.Some? ==> r.value.items == fq.value.items
  {
    if u.None? then fq
    else
      var fileOptions := FileQueue.MergeOptions(DefaultFileOptions, u.value);
      if fileOptions.enabled then
        if fq.None? then Some(FileQueue.NewFileQueue(fileOptions))
        else Some(FileQueue.UpdateOptions(fq.value, AllOf(fileOptions)))
      else None
  }

  /** `getInstance`: the first call builds the logger, later calls with
      options reconfigure that same logger, later calls without return it. */
  function GetInstance(instance: Option<Logger>, o: Option<LoggerOptions>): (r: Logger)
    ensures instance.None? ==> r == NewLogger(o.GetOr(NoOptions))
    ensures instance.Some? && o.None? ==> r == instance.value
    ensures instance.Some? && o.Some? ==> r == Configure(instance.value, o.value)
  {
    if instance.None? then NewLogger(o.GetOr(NoOptions))
    else if o.Some? then Configure(instance.value, o.value)
    else instance.value
  }

  /** Later `getInstance` calls never lose queued API records. */
  lemma LaterInstanceKeepsQueue(l: Logger, o: Option<LoggerOptions>)
    ensures GetInstance(Some(l), o).apiQueue.items == l.apiQueue.items
  {
  }

  /** `setActiveTemplate`: an unregistered name is refused. */
  function SetActiveTemplate(l: Logger, name: string): (r: Result<Logger, string>)
    ensures r.Success? <==> name in l.templates
    ensures r.Success? ==> r.value == l.(activeTemplate := name)
  {
    if name !in l.templates then Failure(name) else Success(l.(activeTemplate := name))
  }

  function SetLevelEnabled(l: Logger, level: Level, enabled: bool): (r: Logger)
    ensures (level in r.levels) == enabled
    ensures forall v :: v != level ==> (v in r.levels <==> v in l.levels)
  {
    l.(levels := if enabled then l.levels + {level} else l.levels - {level})
  }

  function RegisterTemplate(l: Logger, name: string, id: nat): (r: Logger)
    ensures r.templates == l.templates[name := UserTemplate(id)]
  {
    l.(templates := l.templates[name := UserTemplate(id)])
  }

  /** `setRateLimit`: the queue keeps its records and takes the new pace. */
  function SetRateLimit(l: Logger, limit: int): (r: Logger)
    ensures r.rateLimitPerMinute == limit && r.apiQueue.items == l.apiQueue.items
    ensures r.apiQueue.intervalMs == RateQueue.IntervalMs(limit)
  {
    l.(rateLimitPerMinute := limit, apiQueue := RateQueue.UpdateRateLimit(l.apiQueue, limit))
  }

  // -------------------------------------------------------------- template

  /** The default metadata overridden by the record's, with `ip` set to
      `unknown` unless it is truthy. */
  function BaseMetadata(defaults: map<string, Json>, metadata: Option<map<string, Json>>): (r: map<string, Json>)
    ensures "ip" in r
    ensures forall k :: k != "ip" ==>
      (k in r <==> k in defaults || (metadata.Some? && k in metadata.value))
    ensures forall k :: k != "ip" && metadata.Some? && k in metadata.value ==> r[k] == metadata.value[k]
    ensures forall k :: k != "ip" && k in defaults && !(metadata.Some? && k in metadata.value) ==> r[k] == defaults[k]
    ensures var m := if metadata.Some? then defaults + metadata.value else defaults;
      r["ip"] == if "ip" in m && Truthy(m["ip"]) then m["ip"] else JStr("unknown")
  {
    var m := if metadata.Some? then defaults + metadata.value else defaults;
    if "ip" in m && Truthy(m["ip"]) then m else m["ip" := JStr("unknown")]
  }

  /** `defaultTemplate`: level, message, tags (`["MAIN"]` when none or
      empty), timestamp and metadata; every other field of the record is
      copied over them. */
  function DefaultTemplate(level: Level, rec: Record, defaults: map<string, Json>, nowIso: string): (r: map<string, Json>)
    ensures r.Keys == {"level", "message", "tags", "timestamp", "metadata"} + rec.rest.Keys
    ensures forall k :: k in rec.rest ==> r[k] == rec.rest[k]
    ensures "level" !in rec.rest ==> r["level"] == JStr(LevelName(level))
    ensures "message" !in rec.rest ==> r["message"] == JStr(rec.message)
    ensures "tags" !in rec.rest ==>
      r["tags"] == if rec.tags.Some? && |rec.tags.value| > 0 then JArr(EncodeStrings(rec.tags.value)) else JArr(EncodeStrings(["MAIN"]))
    ensures "timestamp" !in rec.rest ==> r["timestamp"] == JStr(nowIso)
    ensures "metadata" !in rec.rest ==> r["metadata"] == JObj(BaseMetadata(defaults, rec.metadata))
  {
    var tags := if rec.tags.Some? && |rec.tags.value| > 0 then rec.tags.value else ["MAIN"];
    map["level" := JStr(LevelName(level)), "message" := JStr(rec.message), "tags" := JArr(EncodeStrings(tags)),
        "timestamp" := JStr(nowIso), "metadata" := JObj(BaseMetadata(defaults, rec.metadata))] + rec.rest
  }

  /** The record's metadata always reaches the payload: every key the
      caller set, other than a falsy `ip`, carries the caller's value. */
  lemma CallerMetadataWins(level: Level, rec: Record, defaults: map<string, Json>, nowIso: string, k: string)
    requires "metadata" !in rec.rest && rec.metadata.Some? && k in rec.metadata.value
    requires k != "ip" || Truthy(rec.metadata.value[k])
    ensures var md := DefaultTemplate(level, rec, defaults, nowIso)["metadata"];
      md.JObj? && k in md.fields && md.fields[k] == rec.metadata.value[k]
  {
  }

  // ------------------------------------------------------------------- log

  /** One call of `log`: its own fields and the rest of the options. */
  datatype LogCall = LogCall(
    templateName: Option<string>,
    projectUuid: Option<string>,
    printer: Option<nat>,
    message: string,
    tags: Option<seq<string>>,
    metadata: Option<map<string, Json>>,
    rest: map<string, Json>)

  const CallFields: set<string> := {"templateName", "projectUuid", "consoleTemplate", "message", "tags", "metadata"}

  function RecordOf(c: LogCall): (r: Record)
    ensures r.message == c.message && r.tags == c.tags && r.metadata == c.metadata
    ensures r.rest.Keys == c.rest.Keys - CallFields
  {
    Record(c.message, c.tags, c.metadata, map k | k in c.rest && k !in CallFields :: c.rest[k])
  }

  function ApplyTemplate(t: Template, level: Level, rec: Record, l: Logger, h: Host): map<string, Json> {
    match t
    case Builtin => DefaultTemplate(level, rec, l.defaultMetadata, h.nowIso)
    case UserTemplate(id) => h.userTemplate(id, LevelName(level), rec)
  }

  /** `padEnd(n)` with spaces. */
  function PadEnd(s: string, n: nat): (r: string)
    ensures |r| == if |s| >= n then |s| else n
    ensures r[..|s|] == s
  {
    if |s| >= n then s else s + seq(n - |s|, _ => ' ')
  }

  /** The default console line. */
  function ConsoleLine(nowIso: string, level: Level, rec: Record): string {
    var tags := if rec.tags.Some? then "[" + Join(rec.tags.value, ", ") + "]" else "";
    Trim(nowIso + " " + PadEnd(LevelName(level), 8) + " " + tags + " " + rec.message)
  }

  /** The timestamp of a file record: the payload's, unless null or
      missing. */
  function FileTimestamp(payload: map<string, Json>, h: Host): string {
    if "timestamp" in payload && payload["timestamp"] != JNull then
      match payload["timestamp"]
      case JStr(s) => s
      case v => h.display(v)
    else h.nowIso
  }

  /** The project a record is sent for: the call's, else the default; an
      empty uuid sends nothing. */
  function TargetProject(l: Logger, c: LogCall): (r: Option<string>)
    ensures r.Some? ==> r.value != ""
    ensures c.projectUuid.Some? && c.projectUuid.value != "" ==> r == c.projectUuid
    ensures c.projectUuid.None? && l.defaultProjectUuid.Some? && l.defaultProjectUuid.value != "" ==> r == l.defaultProjectUuid
    ensures r.None? <==> (if c.projectUuid.Some? then c.projectUuid.value == "" else (l.defaultProjectUuid.None? || l.defaultProjectUuid.value == ""))
  {
    var u := if c.projectUuid.Some? then c.projectUuid else l.defaultProjectUuid;
    if u.Some? && u.value != "" then u else None
  }

  datatype Logged = Logged(logger: Logger, fs: FileQueue.Fs, printed: Option<string>)

  /** `log`: a disabled level does nothing; an unknown template throws
      before any transport sees the record; otherwise the payload is
      printed, queued for the API when a project is known, and queued for
      the file when that transport is on and configured (through
      `FileQueue.Enqueue`, whose CSV append is the corrected one). */
  function Log(l: Logger, fs: FileQueue.Fs, level: Level, c: LogCall, h: Host): (r: Result<Logged, string>)
    ensures level !in l.levels ==> r == Success(Logged(l, fs, None))
    ensures level in l.levels && c.templateName.GetOr(l.activeTemplate) !in l.templates ==>
      r == Failure(c.templateName.GetOr(l.activeTemplate))
    ensures r.Success? && level in l.levels ==>
      var rec := RecordOf(c);
      var payload := ApplyTemplate(l.templates[c.templateName.GetOr(l.activeTemplate)], level, rec, l, h);
      var target := TargetProject(l, c);
      (r.value.logger.apiQueue.items ==
        if l.transports.api && target.Some? then l.apiQueue.items + [ApiItem(target.value, payload)] else l.apiQueue.items)
      && (r.value.printed.Some? <==> l.transports.console)
      && (!(l.transports.file && l.fileQueue.Some?) ==> r.value.fs == fs && r.value.logger.fileQueue == l.fileQueue)
    ensures r.Success? ==>
      (r.value.logger.levels == l.levels && r.value.logger.templates == l.templates
       && r.value.logger.activeTemplate == l.activeTemplate && r.value.logger.transports == l.transports)
  {
    if level !in l.levels then Success(Logged(l, fs, None))
    else
      var name := c.templateName.GetOr(l.activeTemplate);
      if name !in l.templates then Failure(name)
      else
        var rec := RecordOf(c);
        var payload := ApplyTemplate(l.templates[name], level, rec, l, h);
        var printed :=
          if !l.transports.console then None
          else
            var p := if c.printer.Some? then UserPrinter(c.printer.value) else l.printer;
            Some(match p
                 case DefaultPrinter => ConsoleLine(h.nowIso, level, rec)
                 case UserPrinter(id) => h.userPrinter(id, LevelName(level), rec));
        var target := TargetProject(l, c);
        var apiQueue := if l.transports.api && target.Some? then RateQueue.Enqueue(l.apiQueue, ApiItem(target.value, payload))
                        else l.apiQueue;
        if l.transports.file && l.fileQueue.Some? then
          var item := FileQueue.Item(LevelName(level), h.stringify(JObj(payload)), rec.message, rec.tags,
                                     if rec.metadata.Some? then h.stringify(JObj(rec.metadata.value)) else "",
                                     FileTimestamp(payload, h));
          var f := FileQueue.Enqueue(l.fileQueue.value, fs, item, h.iso1, h.iso2);
          Success(Logged(l.(apiQueue := apiQueue, fileQueue := Some(f.queue)), f.fs, printed))
        else Success(Logged(l.(apiQueue := apiQueue), fs, printed))
  }

  /** Logging at a switched-off level leaves the logger, the files and the
      console alone, whatever the call. */
  lemma DisabledLevelIsSilent(l: Logger, fs: FileQueue.Fs, c: LogCall, h: Host)
    requires l.levels == DefaultLevels(Some("production"))
    ensures Log(l, fs, Debug, c, h) == Success(Logged(l, fs, None))
  {
  }

  /** A fresh logger queues a record for the API exactly when the call
      names a project, and then under that project. */
  lemma FreshLoggerNeedsProject(o: LoggerOptions, fs: FileQueue.Fs, c: LogCall, h: Host)
    requires o.defaultProjectUuid.None? && o.transports.None? && o.activeTemplate.None? && c.templateName.None?
    ensures var r := Log(NewLogger(o), fs, Info, c, h);
      r.Success? && (|r.value.logger.apiQueue.items| == 1 <==> c.projectUuid.Some? && c.projectUuid.value != "")
      && (|r.value.logger.apiQueue.items| == 1 ==> r.value.logger.apiQueue.items[0].uuid == c.projectUuid.value)
  {
  }
}
