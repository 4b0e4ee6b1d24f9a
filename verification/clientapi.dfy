/** The admin UI's calls to the server: the log filter and delete-by-filter
    query strings, the body of a project create or update, and the system
    event the UI records for an admin action. */
module ClientApi {
  import opened Wrappers
  import opened Json
  import opened Models
  import ApiClient
  import LogLists

  /** The UI's log filter; every field but `uuid` may be absent. */
  datatype LogFilter = LogFilter(
    uuid: string,
    level: Option<string>,
    text: Option<string>,
    tag: Option<string>,
    user: Option<string>,
    ip: Option<string>,
    service: Option<string>,
    startDate: Option<string>,
    endDate: Option<string>,
    projectUuid: Option<string>,
    logId: Option<string>)

  const NoFilter: LogFilter := LogFilter("", None, None, None, None, None, None, None, None, None, None)

  /** The fields sent when listing logs, in the order they are appended. */
  const FilterKeys: seq<string> := ["uuid", "level", "text", "tag", "user", "ip", "service", "startDate", "endDate", "logId"]

  /** The same list without `uuid`, which goes into the path instead. */
  const DeleteKeys: seq<string> := ["level", "text", "tag", "user", "ip", "service", "startDate", "endDate", "logId"]

  /** `filter[key]`, `None` for `undefined`. */
  function Field(f: LogFilter, key: string): (r: Option<string>)
    ensures key == "uuid" ==> r == Some(f.uuid)
    ensures key == "projectUuid" ==> r == f.projectUuid
    ensures key == "level" ==> r == f.level
    ensures key == "logId" ==> r == f.logId
  {
    match key
    case "uuid" => Some(f.uuid)
    case "level" => f.level
    case "text" => f.text
    case "tag" => f.tag
    case "user" => f.user
    case "ip" => f.ip
    case "service" => f.service
    case "startDate" => f.startDate
    case "endDate" => f.endDate
    case "projectUuid" => f.projectUuid
    case "logId" => f.logId
    case _ => None
  }

  /** A string value JavaScript treats as true: present and non-empty. */
  predicate Truthy(v: Option<string>) {
    v.Some? && v.value != ""
  }

  /** The `searchParams.append` calls of one pass over `keys`: every key
      whose value is truthy, with that value. */
  function Params(f: LogFilter, keys: seq<string>): (r: seq<(string, string)>)
    ensures |r| <= |keys|
    ensures forall i :: 0 <= i < |r| ==> r[i].0 in keys && Field(f, r[i].0) == Some(r[i].1) && r[i].1 != ""
    decreases |keys|
  {
    if |keys| == 0 then []
    else
      var rest := Params(f, keys[1..]);
      if Truthy(Field(f, keys[0])) then [(keys[0], Field(f, keys[0]).value)] + rest else rest
  }

  function Names(ps: seq<(string, string)>): (r: seq<string>)
    ensures |r| == |ps| && forall i :: 0 <= i < |ps| ==> r[i] == ps[i].0
  {
    seq(|ps|, i requires 0 <= i < |ps| => ps[i].0)
  }

  /** The keys sent are exactly the keys of the list with a truthy value,
      in list order. */
  lemma {:induction false} ParamsInListOrder(f: LogFilter, keys: seq<string>)
    ensures Names(Params(f, keys)) == LogLists.Keep(keys, (k: string) => Truthy(Field(f, k)))
    decreases |keys|
  {
    if |keys| > 0 {
      ParamsInListOrder(f, keys[1..]);
      var rest := Params(f, keys[1..]);
      if Truthy(Field(f, keys[0])) {
        NamesCons((keys[0], Field(f, keys[0]).value), rest);
      }
    }
  }

  lemma NamesCons(p: (string, string), ps: seq<(string, string)>)
    ensures Names([p] + ps) == [p.0] + Names(ps)
  {
    var l := Names([p] + ps);
    var r := [p.0] + Names(ps);
    assert |l| == |r|;
    forall i | 0 <= i < |l|
      ensures l[i] == r[i]
    {
      if i > 0 {
        assert ([p] + ps)[i] == ps[i - 1];
      }
    }
  }

  /** `filterLogs`: always `?`, followed by the truthy filter fields. */
  function FilterLogsPath(f: LogFilter, encode: string -> string): string {
    "/api/logs?" + ApiClient.Serialize(Params(f, FilterKeys), encode)
  }

  /** `deleteLogs`: the uuid in the path, the other fields as the query. */
  function DeleteLogsPath(uuid: string, f: LogFilter, encode: string -> string): string {
    "/api/logs/" + uuid + "?" + ApiClient.Serialize(Params(f, DeleteKeys), encode)
  }

  /** A key outside the list is never sent. */
  lemma OnlyListedKeys(f: LogFilter, keys: seq<string>, k: string)
    requires k !in keys
    ensures k !in Names(Params(f, keys))
  {
  }

  /** Neither builder sends `projectUuid`, and the delete query never
      carries `uuid`, whatever the filter holds. */
  lemma QueriesKeepToTheirKeys(f: LogFilter)
    ensures "projectUuid" !in Names(Params(f, FilterKeys)) && "projectUuid" !in Names(Params(f, DeleteKeys))
    ensures "uuid" !in Names(Params(f, DeleteKeys))
  {
    OnlyListedKeys(f, FilterKeys, "projectUuid");
    OnlyListedKeys(f, DeleteKeys, "projectUuid");
    OnlyListedKeys(f, DeleteKeys, "uuid");
  }

  /** A non-empty uuid is always the first parameter of a listing. */
  lemma UuidLeadsListing(f: LogFilter)
    requires f.uuid != ""
    ensures |Params(f, FilterKeys)| > 0 && Params(f, FilterKeys)[0] == ("uuid", f.uuid)
  {
    assert FilterKeys[0] == "uuid";
  }

  // -------------------------------------------------------------- projects

  /** What the project form submits; `logFormat` is JSON text. */
  datatype ProjectPayload = ProjectPayload(
    name: string,
    description: Option<string>,
    logFormat: string,
    defaultTags: seq<string>,
    customTags: seq<string>,
    accessLevel: AccessLevel,
    telegram: TelegramSettings,
    debugMode: bool)

  function AccessLevelName(a: AccessLevel): (r: string)
    ensures r in {"global", "whitelist", "docker"}
    ensures r == "global" <==> a == Global
  {
    match a
    case Global => "global"
    case WhitelistOnly => "whitelist"
    case Docker => "docker"
  }

  function RecipientJson(r: Recipient): Json {
    JObj(map["chatId" := JStr(r.chatId), "tags" := JArr(EncodeStrings(r.tags))])
  }

  /** The request body: the payload's fields with `logFormat` replaced by
      its parsed value; an absent description is left out. */
  function ProjectJson(p: ProjectPayload, logFormat: Json): (j: Json)
    ensures Get(j, "logFormat") == Some(logFormat)
    ensures Get(j, "name") == Some(JStr(p.name))
    ensures Get(j, "accessLevel") == Some(JStr(AccessLevelName(p.accessLevel)))
    ensures Get(j, "description").Some? <==> p.description.Some?
  {
    var telegram := JObj(map[
      "enabled" := JBool(p.telegram.enabled),
      "recipients" := JArr(seq(|p.telegram.recipients|, i requires 0 <= i < |p.telegram.recipients| => RecipientJson(p.telegram.recipients[i]))),
      "antiSpamInterval" := JNum(p.telegram.antiSpamInterval)]);
    var fields := map[
      "name" := JStr(p.name), "logFormat" := logFormat,
      "defaultTags" := JArr(EncodeStrings(p.defaultTags)), "customTags" := JArr(EncodeStrings(p.customTags)),
      "accessLevel" := JStr(AccessLevelName(p.accessLevel)), "telegramNotify" := telegram,
      "debugMode" := JBool(p.debugMode)];
    JObj(if p.description.Some? then fields["description" := JStr(p.description.value)] else fields)
  }

  datatype Call = Call(verb: string, path: string, body: Json)

  /** `createProject`; `parse` is `JSON.parse`, `None` when it throws, in
      which case nothing is sent. */
  function CreateProject(p: ProjectPayload, parse: string -> Option<Json>): (r: Result<Call, string>)
    ensures r.Success? <==> parse(p.logFormat).Some?
    ensures r.Success? ==> (r.value.verb == "POST" && r.value.path == "/api/projects"
      && Get(r.value.body, "logFormat") == parse(p.logFormat))
  {
    match parse(p.logFormat)
    case None => Failure("logFormat is not JSON")
    case Some(lf) => Success(Call("POST", "/api/projects", ProjectJson(p, lf)))
  }

  function UpdateProject(uuid: string, p: ProjectPayload, parse: string -> Option<Json>): (r: Result<Call, string>)
    ensures r.Success? <==> parse(p.logFormat).Some?
    ensures r.Success? ==> (r.value.verb == "PUT" && r.value.path == "/api/projects/" + uuid
      && Get(r.value.body, "logFormat") == parse(p.logFormat))
  {
    match parse(p.logFormat)
    case None => Failure("logFormat is not JSON")
    case Some(lf) => Success(Call("PUT", "/api/projects/" + uuid, ProjectJson(p, lf)))
  }

  /** Creating and updating send the same body for the same payload. */
  lemma CreateAndUpdateAgree(uuid: string, p: ProjectPayload, parse: string -> Option<Json>)
    ensures CreateProject(p, parse).Success? == UpdateProject(uuid, p, parse).Success?
    ensures CreateProject(p, parse).Success? ==> CreateProject(p, parse).value.body == UpdateProject(uuid, p, parse).value.body
  {
  }

  // ---------------------------------------------------------- system event

  datatype SystemLogPayload = SystemLogPayload(
    message: string,
    level: Option<string>,
    tags: Option<seq<string>>,
    metadata: Option<map<string, Json>>)

  /** `logSystemEvent`: a log for the system project, defaulting the level
      to INFO and the tags to ADMIN_ACTION; `nowIso` is the time of the
      call. */
  function SystemEvent(e: SystemLogPayload, nowIso: string): (c: Call)
    ensures c.verb == "POST" && c.path == "/api/logs"
    ensures Get(c.body, "uuid") == Some(JStr(SystemProjectUuid))
    ensures var log := Get(c.body, "log");
      log.Some?
      && Get(log.value, "level") == Some(JStr(e.level.GetOr("INFO")))
      && Get(log.value, "tags") == Some(JArr(EncodeStrings(e.tags.GetOr(["ADMIN_ACTION"]))))
      && Get(log.value, "message") == Some(JStr(e.message))
      && Get(log.value, "timestamp") == Some(JStr(nowIso))
      && (Get(log.value, "metadata").Some? <==> e.metadata.Some?)
  {
    var fields := map[
      "level" := JStr(e.level.GetOr("INFO")), "message" := JStr(e.message),
      "tags" := JArr(EncodeStrings(e.tags.GetOr(["ADMIN_ACTION"]))), "timestamp" := JStr(nowIso)];
    var log := if e.metadata.Some? then fields["metadata" := JObj(e.metadata.value)] else fields;
    Call("POST", "/api/logs", JObj(map["uuid" := JStr(SystemProjectUuid), "log" := JObj(log)]))
  }
}
