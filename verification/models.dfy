/** The stored entities of the API: projects with their Telegram settings,
    log records and ping services, with the defaults the persistence schemas
    declare. */
module Models {
  import opened Wrappers
  import opened Json

  /** The uuid of the built-in system project that receives the server's own
      logs. */
  const SystemProjectUuid: string := "logger-system"
  const SystemProjectName: string := "Logger Core"

  /** Who may post logs without rate limiting. */
  datatype AccessLevel = Global | WhitelistOnly | Docker

  /** A Telegram chat subscribed to a project; an empty tag list means every
      tag. */
  datatype Recipient = Recipient(chatId: string, tags: seq<string>)

  /** `antiSpamInterval` is in minutes. */
  datatype TelegramSettings = TelegramSettings(enabled: bool, recipients: seq<Recipient>, antiSpamInterval: real)

  const DefaultTelegram: TelegramSettings := TelegramSettings(false, [], 15.0)
  const DefaultLevelTags: seq<string> := ["DEBUG", "INFO", "WARNING", "ERROR", "CRITICAL"]

  datatype Project = Project(
    uuid: string,
    name: string,
    description: Option<string>,
    logFormat: map<string, Json>,
    defaultTags: seq<string>,
    customTags: seq<string>,
    accessLevel: AccessLevel,
    telegram: TelegramSettings,
    debugMode: bool)

  /** The chat ids of a project's recipients, in list order. */
  function ChatIds(rs: seq<Recipient>): (r: seq<string>)
    ensures |r| == |rs| && forall i :: 0 <= i < |rs| ==> r[i] == rs[i].chatId
  {
    seq(|rs|, i requires 0 <= i < |rs| => rs[i].chatId)
  }

  /** The recipients whose chat id is not `c`, in their original order
      (`recipients.filter(r => r.chatId !== c)`). */
  function WithoutChat(rs: seq<Recipient>, c: string): (r: seq<Recipient>)
    ensures |r| <= |rs|
    ensures forall i :: 0 <= i < |r| ==> r[i].chatId != c && r[i] in rs
    ensures forall x :: x in rs && x.chatId != c ==> x in r
    ensures c !in ChatIds(rs) ==> r == rs
    ensures c in ChatIds(rs) ==> |r| < |rs|
    decreases |rs|
  {
    if |rs| == 0 then []
    else
      var rest := WithoutChat(rs[1..], c);
      assert c in ChatIds(rs) <==> rs[0].chatId == c || c in ChatIds(rs[1..]) by {
        ChatIdsCons(rs);
      }
      if rs[0].chatId == c then rest else [rs[0]] + rest
  }

  lemma ChatIdsCons(rs: seq<Recipient>)
    requires |rs| > 0
    ensures ChatIds(rs) == [rs[0].chatId] + ChatIds(rs[1..])
  {
  }

  datatype LogMetadata = LogMetadata(
    ip: Option<string>,
    service: Option<string>,
    user: Option<string>,
    extra: Option<map<string, Json>>)

  const NoMetadata: LogMetadata := LogMetadata(None, None, None, None)

  /** A stored log; `timestamp` is in milliseconds since the epoch, and
      `clientIp` is the `clientIP` path, the address the server saw. */
  datatype LogRecord = LogRecord(
    id: string,
    projectUuid: string,
    level: string,
    message: string,
    tags: seq<string>,
    timestamp: int,
    metadata: LogMetadata,
    clientIp: Option<string>)

  /** A JavaScript `Date`: a time in milliseconds, or the Invalid Date that
      `new Date` makes of a string it cannot read. A `Date` path of the
      store refuses the Invalid Date with a cast error. */
  datatype JsDate = ValidDate(ms: int) | InvalidDate

  /** A log entry the server writes about itself into the system project
      (`writeSystemLog`): level, tags, client address ("" when none),
      originating service and the project concerned ("" when none). */
  datatype SystemEntry = SystemEntry(level: string, tags: seq<string>, ip: string, service: string, projectUuid: string)

  datatype PingStatus = Ok | Degraded | Down

  /** A monitored URL; `interval` is in seconds. */
  datatype PingService = PingService(
    id: string,
    projectUuid: string,
    name: string,
    url: string,
    interval: real,
    lastStatus: PingStatus,
    lastCheckedAt: Option<int>,
    telegramTags: seq<string>)

  /** The project a uuid names, if any (`findOne({ uuid })`). */
  function FindProject(projects: map<string, Project>, uuid: string): (r: Option<Project>)
    ensures r.Some? <==> uuid in projects
    ensures r.Some? ==> r.value == projects[uuid]
  {
    if uuid in projects then Some(projects[uuid]) else None
  }
}
