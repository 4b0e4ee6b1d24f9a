/** Project and ping-service management: the request schemas and their
    bounds, the update of a project with the chat ids it gains and loses,
    the protections of the system project, deletion with everything that
    belongs to a project, and the subscription commands a project shows. */
module ProjectController {
  import opened Wrappers
  import opened Strs
  import opened Json
  import opened Models
  import opened LogLists
  import Notifier
  import PingMonitor

  // ---------------------------------------------------------------------
  // Schemas
  // ---------------------------------------------------------------------

  /** A validated project body. `maxLogEntries` is validated but the stored
      project has no such field. */
  datatype ProjectInput = ProjectInput(
    name: string,
    description: Option<string>,
    logFormat: map<string, Json>,
    defaultTags: seq<string>,
    customTags: seq<string>,
    accessLevel: AccessLevel,
    telegram: TelegramSettings,
    debugMode: bool,
    maxLogEntries: int)

  /** `z.enum(['global', 'whitelist', 'docker']).default('global')`. */
  function AccessLevelOr(j: Json, key: string): (r: Option<AccessLevel>)
    ensures Get(j, key).None? ==> r == Some(Global)
    ensures Get(j, key).Some? ==> (r.Some? <==> Get(j, key).value in {JStr("global"), JStr("whitelist"), JStr("docker")})
  {
    match Get(j, key)
    case None => Some(Global)
    case Some(v) =>
      if v == JStr("global") then Some(Global)
      else if v == JStr("whitelist") then Some(WhitelistOnly)
      else if v == JStr("docker") then Some(Docker)
      else None
  }

  /** `{ chatId: z.string(), tags: z.array(z.string()).default([]) }`. */
  function DecodeRecipient(j: Json): (r: Option<Recipient>)
    ensures r.Some? ==> j.JObj? && GetString(j, "chatId") == Some(r.value.chatId)
  {
    if !j.JObj? then None
    else
      match (GetString(j, "chatId"), StringsOr(j, "tags", []))
      case (Some(c), Some(t)) => Some(Recipient(c, t))
      case _ => None
  }

  function DecodeRecipients(items: seq<Json>): (r: Option<seq<Recipient>>)
    ensures r.Some? ==> |r.value| == |items| && forall i :: 0 <= i < |items| ==> DecodeRecipient(items[i]) == Some(r.value[i])
    ensures r.None? ==> exists i :: 0 <= i < |items| && DecodeRecipient(items[i]).None?
  {
    if |items| == 0 then Some([])
    else
      match (DecodeRecipient(items[0]), DecodeRecipients(items[1..]))
      case (Some(x), Some(rest)) => Some([x] + rest)
      case (None, _) => None
      case (_, None) =>
        var i :| 0 <= i < |items[1..]| && DecodeRecipient(items[1..][i]).None?;
        assert DecodeRecipient(items[i + 1]).None?;
        None
  }

  /** The `telegramNotify` object, `{ enabled: false, recipients: [],
      antiSpamInterval: 15 }` when absent; the interval is at least one
      minute. */
  function DecodeTelegram(j: Option<Json>): (r: Option<TelegramSettings>)
    ensures j.None? ==> r == Some(DefaultTelegram)
    ensures r.Some? ==> r.value.antiSpamInterval >= 1.0
  {
    match j
    case None => Some(DefaultTelegram)
    case Some(t) =>
      if !t.JObj? then None
      else
        var recipients := match Get(t, "recipients")
          case None => Some([])
          case Some(JArr(items)) => DecodeRecipients(items)
          case Some(_) => None;
        match (BoolOr(t, "enabled", false), recipients, NumberOr(t, "antiSpamInterval", 1.0, None, 15.0))
        case (Some(e), Some(rs), Some(a)) => Some(TelegramSettings(e, rs, a))
        case _ => None
  }

  /** `z.number().int().min(0).default(0)`. */
  function NonNegativeIntOr(j: Json, key: string): (r: Option<int>)
    ensures Get(j, key).None? ==> r == Some(0)
    ensures r.Some? ==> r.value >= 0
    ensures Get(j, key).Some? && r.Some? ==> Get(j, key) == Some(JNum(r.value as real))
  {
    match Get(j, key)
    case None => Some(0)
    case Some(JNum(n)) => if IsInteger(n) && n >= 0.0 then Some(n.Floor) else None
    case Some(_) => None
  }

  /** `projectSchema.safeParse(body)`: a name of at least three UTF-16
      code units (zod's `min` reads `.length`), a record for `logFormat`, and
      defaults for everything else. */
  function DecodeProject(body: Json): (r: Option<ProjectInput>)
    ensures r.Some? ==> GetString(body, "name") == Some(r.value.name) && Utf16Length(r.value.name) >= 3
    ensures r.Some? ==> Get(body, "logFormat") == Some(JObj(r.value.logFormat))
    ensures r.Some? ==> r.value.telegram.antiSpamInterval >= 1.0 && r.value.maxLogEntries >= 0
    ensures GetString(body, "name").None? || Utf16Length(GetString(body, "name").value) < 3 ==> r.None?
  {
    var name := GetString(body, "name");
    var description := OptionalString(body, "description");
    var format := Get(body, "logFormat");
    if name.None? || Utf16Length(name.value) < 3 || description.None? || format.None? || !format.value.JObj? then None
    else
        match (StringsOr(body, "defaultTags", DefaultLevelTags), StringsOr(body, "customTags", []),
               AccessLevelOr(body, "accessLevel"), DecodeTelegram(Get(body, "telegramNotify")),
               BoolOr(body, "debugMode", false), NonNegativeIntOr(body, "maxLogEntries"))
        case (Some(dt), Some(ct), Some(al), Some(tg), Some(dbg), Some(mx)) =>
          Some(ProjectInput(name.value, description.value, format.value.fields, dt, ct, al, tg, dbg, mx))
        case _ => None
  }

  /** A body with only a name and a log format gets every default. */
  lemma ProjectDefaults(name: string, logFormat: map<string, Json>)
    requires Utf16Length(name) >= 3
    ensures DecodeProject(JObj(map["name" := JStr(name), "logFormat" := JObj(logFormat)]))
      == Some(ProjectInput(name, None, logFormat, DefaultLevelTags, [], Global, DefaultTelegram, false, 0))
  {
    var body := JObj(map["name" := JStr(name), "logFormat" := JObj(logFormat)]);
    assert GetString(body, "name") == Some(name);
    assert Get(body, "logFormat") == Some(JObj(logFormat));
    assert Get(body, "description").None? && Get(body, "defaultTags").None? && Get(body, "customTags").None?;
    assert Get(body, "accessLevel").None? && Get(body, "telegramNotify").None?;
    assert Get(body, "debugMode").None? && Get(body, "maxLogEntries").None?;
  }

  /** Two characters beyond the Basic Multilingual Plane make a name of
      four code units, which the three-unit minimum accepts. */
  lemma AstralNameAccepted(logFormat: map<string, Json>)
    ensures Utf16Length("\U{1F600}\U{1F600}") == 4
    ensures DecodeProject(JObj(map["name" := JStr("\U{1F600}\U{1F600}"), "logFormat" := JObj(logFormat)])).Some?
  {
    assert Utf16Length("\U{1F600}\U{1F600}") == 4 by {
      assert "\U{1F600}\U{1F600}"[1..] == "\U{1F600}";
      assert "\U{1F600}"[1..] == "";
    }
    ProjectDefaults("\U{1F600}\U{1F600}", logFormat);
  }

  /** A ping body after validation; `interval` is in seconds. */
  datatype PingInput = PingInput(name: string, url: string, interval: real, telegramTags: seq<string>)

  const MinPingInterval: real := 5.0
  const MaxPingInterval: real := 3600.0
  const DefaultPingInterval: real := 60.0

  /** A string of at least `n` UTF-16 code units, as `z.string().min(n)`. */
  function MinString(j: Json, key: string, n: nat): (r: Option<string>)
    ensures r.Some? <==> GetString(j, key).Some? && Utf16Length(GetString(j, key).value) >= n
    ensures r.Some? ==> r == GetString(j, key)
  {
    match GetString(j, key)
    case Some(s) => if Utf16Length(s) >= n then Some(s) else None
    case None => None
  }

  /** One character beyond the Basic Multilingual Plane is two code units,
      enough for the two-unit minimum of a ping name. */
  lemma AstralPingNameAccepted(body: Json)
    requires GetString(body, "name") == Some("\U{1F600}")
    ensures MinString(body, "name", 2) == Some("\U{1F600}")
  {
    assert Utf16Length("\U{1F600}") == 2 by {
      assert "\U{1F600}"[1..] == "";
    }
  }

  /** A URL string; `isUrl` stands for zod's URL check. */
  function UrlString(j: Json, key: string, isUrl: string -> bool): (r: Option<string>)
    ensures r.Some? <==> GetString(j, key).Some? && isUrl(GetString(j, key).value)
    ensures r.Some? ==> r == GetString(j, key)
  {
    match GetString(j, key)
    case Some(s) => if isUrl(s) then Some(s) else None
    case None => None
  }

  /** `pingSchema.safeParse(body)`. */
  function DecodePing(body: Json, isUrl: string -> bool): (r: Option<PingInput>)
    ensures r.Some? ==> Utf16Length(r.value.name) >= 2 && isUrl(r.value.url)
    ensures r.Some? ==> MinPingInterval <= r.value.interval <= MaxPingInterval
    ensures r.Some? && Get(body, "interval").None? ==> r.value.interval == DefaultPingInterval
  {
    match (MinString(body, "name", 2), UrlString(body, "url", isUrl),
           NumberOr(body, "interval", MinPingInterval, Some(MaxPingInterval), DefaultPingInterval),
           StringsOr(body, "telegramTags", []))
    case (Some(name), Some(url), Some(interval), Some(tags)) => Some(PingInput(name, url, interval, tags))
    case _ => None
  }

  /** A partial ping body: only the fields it gives. */
  datatype PingUpdate = PingUpdate(name: Option<string>, url: Option<string>, interval: Option<real>, telegramTags: Option<seq<string>>)

  predicate NonEmptyUpdate(u: PingUpdate) {
    u.name.Some? || u.url.Some? || u.interval.Some? || u.telegramTags.Some?
  }

  /** One optional field of a partial schema: absent is `Some(None)`, a
      failing value is `None`. */
  function Partial<T>(j: Json, key: string, check: Option<T>): (r: Option<Option<T>>)
    ensures Get(j, key).None? ==> r == Some(None)
    ensures Get(j, key).Some? ==> r == (if check.Some? then Some(check) else None)
  {
    if Get(j, key).None? then Some(None) else if check.Some? then Some(check) else None
  }

  /** `pingUpdateSchema.safeParse(body)`: every given field obeys the ping
      schema, no default is filled in, and at least one known field must be
      given. */
  function DecodePingUpdate(body: Json, isUrl: string -> bool): (r: Option<PingUpdate>)
    ensures r.Some? ==> NonEmptyUpdate(r.value)
    ensures (Get(body, "name").None? && Get(body, "url").None? && Get(body, "interval").None?
             && Get(body, "telegramTags").None?) ==> r.None?
    ensures r.Some? && r.value.name.Some? ==> Utf16Length(r.value.name.value) >= 2
    ensures r.Some? && r.value.url.Some? ==> isUrl(r.value.url.value)
    ensures r.Some? && r.value.interval.Some? ==> MinPingInterval <= r.value.interval.value <= MaxPingInterval
  {
    if !body.JObj? then None
    else
      match (Partial(body, "name", MinString(body, "name", 2)),
             Partial(body, "url", UrlString(body, "url", isUrl)),
             Partial(body, "interval", NumberOr(body, "interval", MinPingInterval, Some(MaxPingInterval), DefaultPingInterval)),
             Partial(body, "telegramTags", StringsOr(body, "telegramTags", [])))
      case (Some(n), Some(u), Some(i), Some(t)) =>
        var upd := PingUpdate(n, u, i, t);
        if NonEmptyUpdate(upd) then Some(upd) else None
      case _ => None
  }

  /** An empty body is never a valid update. */
  lemma EmptyPingUpdateRefused(isUrl: string -> bool)
    ensures DecodePingUpdate(JObj(map[]), isUrl).None?
  {
  }

  /** A partial update changes exactly the fields it gives. */
  function ApplyPingUpdate(s: PingService, u: PingUpdate): (r: PingService)
    ensures r.id == s.id && r.projectUuid == s.projectUuid
    ensures r.lastStatus == s.lastStatus && r.lastCheckedAt == s.lastCheckedAt
    ensures r.name == u.name.GetOr(s.name) && r.url == u.url.GetOr(s.url)
    ensures r.interval == u.interval.GetOr(s.interval) && r.telegramTags == u.telegramTags.GetOr(s.telegramTags)
  {
    s.(name := u.name.GetOr(s.name), url := u.url.GetOr(s.url),
       interval := u.interval.GetOr(s.interval), telegramTags := u.telegramTags.GetOr(s.telegramTags))
  }

  // ---------------------------------------------------------------------
  // Subscription commands shown with a project
  // ---------------------------------------------------------------------

  datatype Commands = Commands(subscribe: string, unsubscribe: string)

  /** The `telegramCommands` of a project response: both commands when
      notifications are enabled, neither otherwise. */
  function TelegramCommands(p: Project): (r: Option<Commands>)
    ensures r.Some? <==> p.telegram.enabled
    ensures r.Some? ==> r.value == Commands(Notifier.BuildCommand(Notifier.Add, p.uuid),
                                           Notifier.BuildCommand(Notifier.Delete, p.uuid))
  {
    if p.telegram.enabled
    then Some(Commands(Notifier.BuildCommand(Notifier.Add, p.uuid), Notifier.BuildCommand(Notifier.Delete, p.uuid)))
    else None
  }

  /** Sending the shown commands to the bot names the project again. */
  lemma CommandsNameTheProject(p: Project)
    requires p.telegram.enabled
    requires |p.uuid| > 0 && Trim(p.uuid) == p.uuid && SingleLine(p.uuid)
    ensures Notifier.ExtractUuid(TelegramCommands(p).value.subscribe) == Some(p.uuid)
    ensures Notifier.ExtractUuid(TelegramCommands(p).value.unsubscribe) == Some(p.uuid)
  {
    Notifier.ExtractBuildRoundTrip(Notifier.Add, p.uuid);
    Notifier.ExtractBuildRoundTrip(Notifier.Delete, p.uuid);
  }

  // ---------------------------------------------------------------------
  // Chat-id differences
  // ---------------------------------------------------------------------

  predicate NoDuplicates(s: seq<string>) {
    forall i, j :: 0 <= i < j < |s| ==> s[i] != s[j]
  }

  /** The distinct elements of `s` outside `excluded`, in order of first
      occurrence: iterating a `Set` built from `s` and skipping members of
      another set. */
  function Fresh(s: seq<string>, excluded: set<string>): (r: seq<string>)
    ensures NoDuplicates(r)
    ensures forall c :: c in r <==> c in s && c !in excluded
    decreases |s|
  {
    if |s| == 0 then []
    else if s[0] in excluded then Fresh(s[1..], excluded)
    else
      var rest := Fresh(s[1..], excluded + {s[0]});
      assert forall c :: c in s <==> c == s[0] || c in s[1..] by {
        assert s == [s[0]] + s[1..];
      }
      [s[0]] + rest
  }

  function AsSet(s: seq<string>): (r: set<string>)
    ensures forall c :: c in r <==> c in s
  {
    set c | c in s
  }

  /** The chat ids no longer present: `previous \ current`. */
  function RemovedChats(previous: seq<Recipient>, current: seq<Recipient>): (r: seq<string>)
    ensures NoDuplicates(r)
    ensures forall c :: c in r <==> c in ChatIds(previous) && c !in ChatIds(current)
  {
    Fresh(ChatIds(previous), AsSet(ChatIds(current)))
  }

  /** The chat ids newly present: `current \ previous`. */
  function AddedChats(previous: seq<Recipient>, current: seq<Recipient>): (r: seq<string>)
    ensures NoDuplicates(r)
    ensures forall c :: c in r <==> c in ChatIds(current) && c !in ChatIds(previous)
  {
    Fresh(ChatIds(current), AsSet(ChatIds(previous)))
  }

  /** A chat id is never both added and removed. */
  lemma AddedRemovedDisjoint(previous: seq<Recipient>, current: seq<Recipient>, c: string)
    ensures !(c in RemovedChats(previous, current) && c in AddedChats(previous, current))
  {
  }

  // ---------------------------------------------------------------------
  // Project updates and deletion
  // ---------------------------------------------------------------------

  /** Why a chat was unsubscribed. */
  datatype Reason = Manual | ProjectDisabled | ProjectDeleted

  /** A message telling a chat it was unsubscribed (`notifyUnsubscribed`). */
  datatype Notice = Unsubscribed(chatId: string, reason: Reason)

  /** An administrative event written through `logAction`. */
  datatype AuditEvent =
    | NotificationsEnabled(projectUuid: string, recipients: nat)
    | NotificationsDisabled(projectUuid: string, removedRecipients: nat)
    | SubscriptionAddedManual(chatId: string, projectUuid: string)
    | TelegramProjectDeleted(projectUuid: string, removedRecipients: nat)
    | RecipientRemovedApi(projectUuid: string, chatId: string, reason: Reason)

  function NoticesFor(chats: seq<string>, reason: Reason): (r: seq<Notice>)
    ensures |r| == |chats| && forall i :: 0 <= i < |chats| ==> r[i] == Unsubscribed(chats[i], reason)
  {
    seq(|chats|, i requires 0 <= i < |chats| => Unsubscribed(chats[i], reason))
  }

  /** `project.set(data)` followed by emptying the recipients when
      notifications end up disabled. A description that is not given keeps
      the stored one; the uuid never changes. */
  function ApplyInput(p: Project, d: ProjectInput): (r: Project)
    ensures r.uuid == p.uuid
    ensures d.description.None? ==> r.description == p.description
    ensures d.description.Some? ==> r.description == d.description
    ensures r.telegram.enabled == d.telegram.enabled && r.telegram.antiSpamInterval == d.telegram.antiSpamInterval
    ensures r.telegram.recipients == if d.telegram.enabled then d.telegram.recipients else []
    ensures r.name == d.name && r.logFormat == d.logFormat && r.defaultTags == d.defaultTags
    ensures r.customTags == d.customTags && r.accessLevel == d.accessLevel && r.debugMode == d.debugMode
  {
    var recipients := if d.telegram.enabled then d.telegram.recipients else [];
    p.(name := d.name,
       description := if d.description.Some? then d.description else p.description,
       logFormat := d.logFormat,
       defaultTags := d.defaultTags,
       customTags := d.customTags,
       accessLevel := d.accessLevel,
       telegram := d.telegram.(recipients := recipients),
       debugMode := d.debugMode)
  }

  /** The project `ProjectModel.create(data)` stores under a fresh uuid;
      `maxLogEntries` has no place in it. */
  function NewProject(uuid: string, d: ProjectInput): (r: Project)
    ensures r.uuid == uuid && r.name == d.name && r.description == d.description
    ensures r.telegram == d.telegram && r.accessLevel == d.accessLevel && r.debugMode == d.debugMode
    ensures r.logFormat == d.logFormat && r.defaultTags == d.defaultTags && r.customTags == d.customTags
  {
    Project(uuid, d.name, d.description, d.logFormat, d.defaultTags, d.customTags, d.accessLevel, d.telegram, d.debugMode)
  }

  /** Every recipient has a chat id: `chatId` is a required string, so the
      store refuses a project with an empty one. */
  predicate ChatIdsGiven(rs: seq<Recipient>) {
    forall i :: 0 <= i < |rs| ==> rs[i].chatId != ""
  }

  datatype CreateResult =
    | CreateInvalid
    | CreateRefused
    | Created(projects: map<string, Project>, project: Project, events: seq<AuditEvent>)

  /** `createProject`: 400 for an invalid body; the store refuses a
      recipient without a chat id, whether or not notifications are enabled;
      otherwise the new project is stored under `newUuid` (the store's
      generated uuid) and enabling notifications is recorded. */
  function CreateProject(projects: map<string, Project>, body: Json, newUuid: string): (r: CreateResult)
    ensures r.CreateInvalid? <==> DecodeProject(body).None?
    ensures r.CreateRefused? <==> DecodeProject(body).Some? && !ChatIdsGiven(DecodeProject(body).value.telegram.recipients)
    ensures r.Created? ==>
      r.project == NewProject(newUuid, DecodeProject(body).value)
      && r.projects == projects[newUuid := r.project]
      && r.events == (if r.project.telegram.enabled then [NotificationsEnabled(newUuid, |r.project.telegram.recipients|)] else [])
  {
    match DecodeProject(body)
    case None => CreateInvalid
    case Some(d) =>
      if !ChatIdsGiven(d.telegram.recipients) then CreateRefused
      else
        var p := NewProject(newUuid, d);
        Created(projects[newUuid := p], p,
                if p.telegram.enabled then [NotificationsEnabled(newUuid, |p.telegram.recipients|)] else [])
  }

  /** A created project keeps its recipients even when notifications are
      disabled; only an update empties them. */
  lemma CreateKeepsDisabledRecipients(projects: map<string, Project>, body: Json, newUuid: string)
    requires DecodeProject(body).Some?
    ensures var r := CreateProject(projects, body, newUuid);
      r.Created? || r.CreateRefused?
    ensures var r := CreateProject(projects, body, newUuid);
      r.Created? ==> r.project.telegram.recipients == DecodeProject(body).value.telegram.recipients
  {
  }

  datatype UpdateResult =
    | UuidImmutable
    | UpdateInvalid
    | UpdateNotFound
    | UpdateRefused
    | Updated(projects: map<string, Project>, project: Project, applied: ProjectInput,
              removed: seq<string>, added: seq<string>, notices: seq<Notice>, events: seq<AuditEvent>)

  function EnableEvents(before: Project, after: Project, removed: seq<string>): seq<AuditEvent> {
    if !before.telegram.enabled && after.telegram.enabled
    then [NotificationsEnabled(after.uuid, |after.telegram.recipients|)]
    else if before.telegram.enabled && !after.telegram.enabled
    then [NotificationsDisabled(after.uuid, |removed|)]
    else []
  }

  function AddedEvents(added: seq<string>, uuid: string): (r: seq<AuditEvent>)
    ensures |r| == |added| && forall i :: 0 <= i < |added| ==> r[i] == SubscriptionAddedManual(added[i], uuid)
  {
    seq(|added|, i requires 0 <= i < |added| => SubscriptionAddedManual(added[i], uuid))
  }

  /** `updateProject`. A body `uuid` different from the path is refused
      before anything else; then the body is validated; then the project
      must exist. The system project's `maxLogEntries` is forced to 0. The
      save is refused, with nothing changed or sent, when a recipient kept
      after the update has no chat id. Every chat that loses its
      subscription is told why: "manual" while notifications stay enabled,
      "project_disabled" otherwise. */
  function UpdateProject(projects: map<string, Project>, uuid: string, body: Json): (r: UpdateResult)
    ensures r.UuidImmutable? <==> GetString(body, "uuid").Some? && GetString(body, "uuid").value != uuid
    ensures r.UpdateInvalid? <==> !r.UuidImmutable? && DecodeProject(body).None?
    ensures r.UpdateNotFound? <==> !r.UuidImmutable? && DecodeProject(body).Some? && uuid !in projects
    ensures r.UpdateRefused? <==>
      !r.UuidImmutable? && DecodeProject(body).Some? && uuid in projects
      && DecodeProject(body).value.telegram.enabled && !ChatIdsGiven(DecodeProject(body).value.telegram.recipients)
    ensures r.Updated? ==>
      var before := projects[uuid];
      var d := DecodeProject(body).value;
      r.project == ApplyInput(before, d)
      && r.projects == projects[uuid := r.project]
      && r.applied == (if uuid == SystemProjectUuid then d.(maxLogEntries := 0) else d)
      && r.removed == RemovedChats(before.telegram.recipients, r.project.telegram.recipients)
      && r.added == AddedChats(before.telegram.recipients, r.project.telegram.recipients)
      && r.notices == NoticesFor(r.removed, if r.project.telegram.enabled then Manual else ProjectDisabled)
      && r.events == EnableEvents(before, r.project, r.removed) + AddedEvents(r.added, uuid)
  {
    var bodyUuid := GetString(body, "uuid");
    if bodyUuid.Some? && bodyUuid.value != uuid then UuidImmutable
    else
      match DecodeProject(body)
      case None => UpdateInvalid
      case Some(d) =>
        if uuid !in projects then UpdateNotFound
        else
          var before := projects[uuid];
          var applied := if uuid == SystemProjectUuid then d.(maxLogEntries := 0) else d;
          var after := ApplyInput(before, applied);
          if !ChatIdsGiven(after.telegram.recipients) then UpdateRefused
          else
            var removed := RemovedChats(before.telegram.recipients, after.telegram.recipients);
            var added := AddedChats(before.telegram.recipients, after.telegram.recipients);
            var reason := if after.telegram.enabled then Manual else ProjectDisabled;
            Updated(projects[uuid := after], after, applied, removed, added, NoticesFor(removed, reason),
                    EnableEvents(before, after, removed) + AddedEvents(added, uuid))
  }

  /** Disabling notifications unsubscribes every chat the project had, each
      told that the project was disabled, and leaves no recipient. */
  lemma DisableUnsubscribesAll(projects: map<string, Project>, uuid: string, body: Json, c: string)
    requires UpdateProject(projects, uuid, body).Updated?
    requires !DecodeProject(body).value.telegram.enabled
    requires c in ChatIds(projects[uuid].telegram.recipients)
    ensures var r := UpdateProject(projects, uuid, body);
      r.project.telegram.recipients == [] && Unsubscribed(c, ProjectDisabled) in r.notices
  {
    var r := UpdateProject(projects, uuid, body);
    assert c in r.removed;
    var i :| 0 <= i < |r.removed| && r.removed[i] == c;
    assert r.notices[i] == Unsubscribed(c, ProjectDisabled);
  }

  /** An update never renames a project: the key and the stored uuid stay,
      and no other project changes. */
  lemma UpdateKeepsIdentity(projects: map<string, Project>, uuid: string, body: Json)
    requires UpdateProject(projects, uuid, body).Updated?
    ensures var r := UpdateProject(projects, uuid, body);
      r.projects.Keys == projects.Keys && r.projects[uuid].uuid == projects[uuid].uuid
      && forall k :: k in projects && k != uuid ==> r.projects[k] == projects[k]
  {
  }

  datatype DeleteResult =
    | SystemProtected
    | DeleteNotFound
    | ProjectRemoved(projects: map<string, Project>, logs: seq<LogRecord>, pings: map<string, PingService>,
                     deletedLogs: nat, deletedPings: nat, notices: seq<Notice>, events: seq<AuditEvent>)

  /** The ping services of a project, by id. */
  function PingsOf(pings: map<string, PingService>, uuid: string): (r: set<string>)
    ensures forall id :: id in r <==> id in pings && pings[id].projectUuid == uuid
  {
    set id | id in pings && pings[id].projectUuid == uuid
  }

  /** The ping services that do not belong to the project. */
  function PingsWithout(pings: map<string, PingService>, uuid: string): (r: map<string, PingService>)
    ensures r.Keys == pings.Keys - PingsOf(pings, uuid)
    ensures forall id :: id in r ==> r[id] == pings[id]
    ensures |r.Keys| + |PingsOf(pings, uuid)| == |pings.Keys|
  {
    var r := map id | id in pings && pings[id].projectUuid != uuid :: pings[id];
    var own := PingsOf(pings, uuid);
    assert r.Keys == pings.Keys - own;
    CardDiff(pings.Keys, own);
    r
  }

  lemma CardDiff<T>(a: set<T>, b: set<T>)
    requires b <= a
    ensures |a - b| + |b| == |a|
  {
    assert a == (a - b) + b;
  }

  /** `deleteProject`. The system project is never deleted; an unknown uuid
      is 404; otherwise the project, its logs and its ping services go, the
      counts are reported, and every recipient is told the project was
      deleted. */
  function DeleteProject(projects: map<string, Project>, logs: seq<LogRecord>, pings: map<string, PingService>,
                         uuid: string): (r: DeleteResult)
    ensures r.SystemProtected? <==> uuid == SystemProjectUuid
    ensures r.DeleteNotFound? <==> uuid != SystemProjectUuid && uuid !in projects
    ensures r.ProjectRemoved? ==>
      var own := Keep(logs, (x: LogRecord) => x.projectUuid == uuid);
      var p := projects[uuid];
      r.projects == projects - {uuid}
      && (forall x :: x in r.logs ==> x in logs && x.projectUuid != uuid)
      && multiset(r.logs) + multiset(own) == multiset(logs)
      && r.deletedLogs == |own|
      && r.pings.Keys == pings.Keys - PingsOf(pings, uuid)
      && (forall id :: id in r.pings ==> r.pings[id] == pings[id])
      && r.deletedPings == |PingsOf(pings, uuid)|
      && r.notices == NoticesFor(ChatIds(p.telegram.recipients), ProjectDeleted)
      && r.events == (if p.telegram.enabled then [TelegramProjectDeleted(uuid, |p.telegram.recipients|)] else [])
  {
    if uuid == SystemProjectUuid then SystemProtected
    else if uuid !in projects then DeleteNotFound
    else
      var p := projects[uuid];
      var kept := Keep(logs, (x: LogRecord) => x.projectUuid != uuid);
      KeepSplit(logs, (x: LogRecord) => x.projectUuid == uuid, (x: LogRecord) => x.projectUuid != uuid);
      var keptPings := PingsWithout(pings, uuid);
      ProjectRemoved(projects - {uuid}, kept, keptPings, |logs| - |kept|, |pings.Keys| - |keptPings.Keys|,
                     NoticesFor(ChatIds(p.telegram.recipients), ProjectDeleted),
                     if p.telegram.enabled then [TelegramProjectDeleted(uuid, |p.telegram.recipients|)] else [])
  }

  /** Deleting a project never touches another project's logs or ping
      services. */
  lemma DeleteSparesOthers(projects: map<string, Project>, logs: seq<LogRecord>, pings: map<string, PingService>,
                           uuid: string, x: LogRecord, id: string)
    requires DeleteProject(projects, logs, pings, uuid).ProjectRemoved?
    requires x in logs && x.projectUuid != uuid
    requires id in pings && pings[id].projectUuid != uuid
    ensures var r := DeleteProject(projects, logs, pings, uuid);
      x in r.logs && id in r.pings && r.pings[id] == pings[id]
  {
    var r := DeleteProject(projects, logs, pings, uuid);
    assert x in multiset(logs);
    assert x !in multiset(Keep(logs, (y: LogRecord) => y.projectUuid == uuid));
  }

  /** `removeTelegramRecipient`: 404 for an unknown project or a chat that is
      not subscribed; otherwise every entry of the chat goes and the chat is
      told why. */
  datatype RemoveResult =
    | RemoveProjectMissing
    | RemoveChatMissing
    | RecipientRemoved(projects: map<string, Project>, notice: Notice, event: AuditEvent)

  function RemoveTelegramRecipient(projects: map<string, Project>, uuid: string, chatId: string): (r: RemoveResult)
    ensures r.RemoveProjectMissing? <==> uuid !in projects
    ensures r.RemoveChatMissing? <==> uuid in projects && chatId !in ChatIds(projects[uuid].telegram.recipients)
    ensures r.RecipientRemoved? ==>
      var p := projects[uuid];
      var reason := if p.telegram.enabled then Manual else ProjectDisabled;
      r.projects == projects[uuid := p.(telegram := p.telegram.(recipients := WithoutChat(p.telegram.recipients, chatId)))]
      && chatId !in ChatIds(r.projects[uuid].telegram.recipients)
      && r.notice == Unsubscribed(chatId, reason)
      && r.event == RecipientRemovedApi(uuid, chatId, reason)
  {
    if uuid !in projects then RemoveProjectMissing
    else
      var p := projects[uuid];
      if chatId !in ChatIds(p.telegram.recipients) then RemoveChatMissing
      else
        var reason := if p.telegram.enabled then Manual else ProjectDisabled;
        RecipientRemoved(projects[uuid := p.(telegram := p.telegram.(recipients := WithoutChat(p.telegram.recipients, chatId)))],
                         Unsubscribed(chatId, reason), RecipientRemovedApi(uuid, chatId, reason))
  }

  // ---------------------------------------------------------------------
  // Ping services
  // ---------------------------------------------------------------------

  datatype PingResult =
    | PingInvalid
    | PingNotFound
    | PingSaved(pings: map<string, PingService>, service: PingService, check: PingMonitor.CheckResult)

  /** `addPingService`: validation first, then the project must exist; the
      new service starts as "ok" and is checked once at once. */
  function AddPingService(projects: map<string, Project>, pings: map<string, PingService>, uuid: string, body: Json,
                          isUrl: string -> bool, newId: string, probe: (string, real) -> PingMonitor.ProbeOutcome,
                          nst: Notifier.State, now: int): (r: PingResult)
    ensures r.PingInvalid? <==> DecodePing(body, isUrl).None?
    ensures r.PingNotFound? <==> DecodePing(body, isUrl).Some? && uuid !in projects
    ensures r.PingSaved? ==>
      var d := DecodePing(body, isUrl).value;
      var created := PingService(newId, uuid, d.name, d.url, d.interval, Ok, None, d.telegramTags);
      r.check == PingMonitor.CheckService(created, probe, projects, nst, now)
      && r.service == r.check.service && r.pings == pings[newId := r.service]
  {
    match DecodePing(body, isUrl)
    case None => PingInvalid
    case Some(d) =>
      if uuid !in projects then PingNotFound
      else
        var created := PingService(newId, uuid, d.name, d.url, d.interval, Ok, None, d.telegramTags);
        var check := PingMonitor.CheckService(created, probe, projects, nst, now);
        PingSaved(pings[newId := check.service], check.service, check)
  }

  /** `updatePingService`: validation first; the service must exist under
      this project; only the given fields change, then it is checked. */
  function UpdatePingService(projects: map<string, Project>, pings: map<string, PingService>, uuid: string, id: string,
                             body: Json, isUrl: string -> bool, probe: (string, real) -> PingMonitor.ProbeOutcome,
                             nst: Notifier.State, now: int): (r: PingResult)
    ensures r.PingInvalid? <==> DecodePingUpdate(body, isUrl).None?
    ensures r.PingNotFound? <==> DecodePingUpdate(body, isUrl).Some? && !(id in pings && pings[id].projectUuid == uuid)
    ensures r.PingSaved? ==>
      var updated := ApplyPingUpdate(pings[id], DecodePingUpdate(body, isUrl).value);
      r.check == PingMonitor.CheckService(updated, probe, projects, nst, now)
      && r.service == r.check.service && r.pings == pings[id := r.service]
  {
    match DecodePingUpdate(body, isUrl)
    case None => PingInvalid
    case Some(u) =>
      if !(id in pings && pings[id].projectUuid == uuid) then PingNotFound
      else
        var check := PingMonitor.CheckService(ApplyPingUpdate(pings[id], u), probe, projects, nst, now);
        PingSaved(pings[id := check.service], check.service, check)
  }

  /** `deletePingService`: the service must exist under this project. */
  function DeletePingService(pings: map<string, PingService>, uuid: string, id: string): (r: Option<map<string, PingService>>)
    ensures r.None? <==> !(id in pings && pings[id].projectUuid == uuid)
    ensures r.Some? ==> r.value == pings - {id}
  {
    if id in pings && pings[id].projectUuid == uuid then Some(pings - {id}) else None
  }

  /** A service of another project can be neither updated nor deleted
      through this project's path. */
  lemma ForeignPingUntouchable(projects: map<string, Project>, pings: map<string, PingService>, uuid: string, id: string,
                               body: Json, isUrl: string -> bool, probe: (string, real) -> PingMonitor.ProbeOutcome,
                               nst: Notifier.State, now: int)
    requires id in pings && pings[id].projectUuid != uuid
    ensures !UpdatePingService(projects, pings, uuid, id, body, isUrl, probe, nst, now).PingSaved?
    ensures DeletePingService(pings, uuid, id).None?
  {
  }
}
