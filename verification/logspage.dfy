/** The logs page: the filter read from the address bar, the "apply"
    button that writes it back, the client-side narrowing by project and
    log id, and the CSV export. */
module LogsPage {
  import opened Wrappers
  import opened Strs
  import opened Models
  import LogLists
  import Dashboard
  import opened ClientApi
  import LogFilters

  /** The filter built from the query string; without a uuid there the
      first project's uuid is used. `searchParams.get(key) || undefined`
      keeps a parameter only when it is present and non-empty, which is
      `LogFilters.Given`. */
  function FilterFromQuery(q: map<string, string>, firstProject: Option<string>): (f: LogFilter)
    ensures LogFilters.Given(q, "uuid").Some? ==> f.uuid == q["uuid"]
    ensures LogFilters.Given(q, "uuid").None? && LogFilters.Given(q, "projectUuid").Some? ==> f.uuid == q["projectUuid"]
    ensures LogFilters.Given(q, "projectUuid").Some? ==> f.projectUuid == LogFilters.Given(q, "projectUuid")
    ensures LogFilters.Given(q, "projectUuid").None? ==> f.projectUuid == (if f.uuid != "" then Some(f.uuid) else None)
    ensures f.level == LogFilters.Given(q, "level") && f.logId == LogFilters.Given(q, "logId")
  {
    var projectUuid := LogFilters.Given(q, "projectUuid");
    var uuid :=
      if LogFilters.Given(q, "uuid").Some? then q["uuid"]
      else if projectUuid.Some? then projectUuid.value
      else if firstProject.Some? && firstProject.value != "" then firstProject.value
      else "";
    LogFilter(uuid, LogFilters.Given(q, "level"), LogFilters.Given(q, "text"),
      LogFilters.Given(q, "tag"), LogFilters.Given(q, "user"), LogFilters.Given(q, "ip"),
      LogFilters.Given(q, "service"), LogFilters.Given(q, "startDate"), LogFilters.Given(q, "endDate"),
      if projectUuid.Some? then projectUuid else if uuid != "" then Some(uuid) else None,
      LogFilters.Given(q, "logId"))
  }

  /** The filter that is fetched: only one with a uuid. */
  function ActiveFilter(f: LogFilter): (r: Option<LogFilter>)
    ensures r.Some? <==> f.uuid != ""
    ensures r.Some? ==> r.value == f
  {
    if f.uuid != "" then Some(f) else None
  }

  predicate HasAdvanced(f: LogFilter) {
    Truthy(f.text) || Truthy(f.user) || Truthy(f.ip) || Truthy(f.service) || Truthy(f.startDate) || Truthy(f.endDate)
  }

  /** The filter panel opens when an advanced filter is present and
      otherwise keeps its state. */
  function Expanded(previous: bool, f: LogFilter): (r: bool)
    ensures HasAdvanced(f) ==> r
    ensures !HasAdvanced(f) ==> r == previous
  {
    if HasAdvanced(f) then true else previous
  }

  /** Clicking an incident on the dashboard opens this page filtered to
      its project and level, fetched whenever the project uuid is set. */
  lemma IncidentOpensItsProject(log: LogRecord, first: Option<string>)
    requires log.projectUuid != ""
    ensures var f := FilterFromQuery(Dashboard.IncidentLink(log).1, first);
      f.uuid == log.projectUuid && f.projectUuid == Some(log.projectUuid)
      && f.level == (if log.level != "" then Some(log.level) else None)
      && ActiveFilter(f) == Some(f) && f.logId.None?
  {
  }

  // ----------------------------------------------------------------- apply

  /** `applyFilter`: nothing without a project uuid (the trimmed project
      field, else the uuid); otherwise the next filter, with trimmed
      project and log id, and the truthy fields as the new query. */
  function ApplyFilter(state: LogFilter): (r: Option<(LogFilter, map<string, string>)>)
    ensures var eff := if state.projectUuid.Some? && Trim(state.projectUuid.value) != "" then Trim(state.projectUuid.value) else state.uuid;
      (r.None? <==> eff == "")
      && (r.Some? ==> (r.value.0.uuid == eff
        && r.value.0.projectUuid == (if state.projectUuid.Some? then Some(Trim(state.projectUuid.value)) else Some(eff))
        && r.value.0.logId == (if state.logId.Some? && Trim(state.logId.value) != "" then Some(Trim(state.logId.value)) else None)))
    ensures r.Some? ==> forall k :: k in r.value.1 <==> k in AllKeys && Truthy(Field(r.value.0, k))
    ensures r.Some? ==> forall k :: k in r.value.1 ==> Some(r.value.1[k]) == Field(r.value.0, k)
  {
    var trimmedProject := if state.projectUuid.Some? then Some(Trim(state.projectUuid.value)) else None;
    var trimmedLogId := if state.logId.Some? then Some(Trim(state.logId.value)) else None;
    var eff := if Truthy(trimmedProject) then trimmedProject.value else state.uuid;
    if eff == "" then None
    else
      var next := state.(uuid := eff, projectUuid := if trimmedProject.Some? then trimmedProject else Some(eff),
        logId := if Truthy(trimmedLogId) then trimmedLogId else None);
      Some((next, QueryOf(next)))
  }

  /** Every field of a filter. */
  const AllKeys: set<string> := {"uuid", "level", "text", "tag", "user", "ip", "service", "startDate", "endDate", "projectUuid", "logId"}

  /** `params.set(key, value)` for every truthy field. */
  function QueryOf(f: LogFilter): (q: map<string, string>)
    ensures forall k :: k in q <==> k in AllKeys && Truthy(Field(f, k))
    ensures forall k :: k in q ==> Some(q[k]) == Field(f, k)
  {
    map k | k in AllKeys && Truthy(Field(f, k)) :: Field(f, k).value
  }

  /** A filter with no field holding the empty string, as the select
      boxes and inputs leave it once the project uuid is filled in. */
  predicate NoBlankFields(f: LogFilter) {
    f.uuid != "" && Truthy(f.projectUuid) && f.level != Some("") && f.text != Some("") && f.tag != Some("")
    && f.user != Some("") && f.ip != Some("") && f.service != Some("") && f.startDate != Some("")
    && f.endDate != Some("") && f.logId != Some("")
  }

  /** What `searchParams.get` returns for one field of the written query. */
  lemma ParamOfQuery(f: LogFilter, key: string)
    requires key in AllKeys
    ensures LogFilters.Given(QueryOf(f), key) == (if Truthy(Field(f, key)) then Field(f, key) else None)
  {
  }

  /** Reading back the query a filter is written to gives the filter. */
  lemma ReloadFilter(f: LogFilter, first: Option<string>)
    requires NoBlankFields(f)
    ensures FilterFromQuery(QueryOf(f), first) == f
  {
    var q := QueryOf(f);
    ParamOfQuery(f, "uuid");
    ParamOfQuery(f, "projectUuid");
    ParamOfQuery(f, "level");
    ParamOfQuery(f, "text");
    ParamOfQuery(f, "tag");
    ParamOfQuery(f, "user");
    ParamOfQuery(f, "ip");
    ParamOfQuery(f, "service");
    ParamOfQuery(f, "startDate");
    ParamOfQuery(f, "endDate");
    ParamOfQuery(f, "logId");
  }

  /** After `applyFilter`, reloading the page from the address bar gives
      the applied filter back, unless a field was left blank. */
  lemma ApplyThenReload(state: LogFilter, first: Option<string>)
    requires ApplyFilter(state).Some? && NoBlankFields(ApplyFilter(state).value.0)
    ensures FilterFromQuery(ApplyFilter(state).value.1, first) == ApplyFilter(state).value.0
  {
    ReloadFilter(ApplyFilter(state).value.0, first);
  }

  // --------------------------------------------------------------- display

  /** A narrowing field: trimmed and lower-cased; blank matches all. */
  function Needle(v: Option<string>): Option<string> {
    if v.Some? then Some(Lower(Trim(v.value))) else None
  }

  predicate MatchesNeedle(field: string, needle: Option<string>) {
    needle.None? || needle.value == "" || Contains(Lower(field), needle.value)
  }

  predicate Shown(log: LogRecord, f: LogFilter) {
    MatchesNeedle(log.projectUuid, Needle(f.projectUuid)) && MatchesNeedle(log.id, Needle(f.logId))
  }

  /** `displayLogs`: the fetched logs, narrowed by the active filter's
      project uuid and log id. */
  function DisplayLogs(logs: seq<LogRecord>, active: Option<LogFilter>): (r: seq<LogRecord>)
    ensures active.None? ==> r == logs
    ensures active.Some? ==> r == LogLists.Keep(logs, (l: LogRecord) => Shown(l, active.value))
  {
    if active.None? then logs else LogLists.Keep(logs, (l: LogRecord) => Shown(l, active.value))
  }

  /** Without narrowing fields every fetched log is shown, in order. */
  lemma BlankFiltersShowAll(logs: seq<LogRecord>, f: LogFilter)
    requires Needle(f.projectUuid).None? || Needle(f.projectUuid) == Some("")
    requires Needle(f.logId).None? || Needle(f.logId) == Some("")
    ensures DisplayLogs(logs, Some(f)) == logs
  {
    LogLists.KeepAll(logs, (l: LogRecord) => Shown(l, f));
  }

  lemma LowerSlice(s: string, i: nat, j: nat)
    requires i <= j <= |s|
    ensures Lower(s[i..j]) == Lower(s)[i..j]
  {
  }

  /** A string starting at some index of `s` is contained in it. */
  lemma ContainsSuffix(s: string, k: nat, sub: string)
    requires k <= |s| && StartsWith(s[k..], sub)
    ensures Contains(s, sub)
  {
    ContainsAt(s, sub);
  }

  lemma LowerInfix(s: string, k: nat, t: string)
    requires k + |t| <= |s| && t == s[k..k + |t|]
    ensures Contains(Lower(s), Lower(t))
  {
    LowerSlice(s, k, k + |t|);
    assert Lower(s)[k..][..|t|] == Lower(s)[k..k + |t|];
    ContainsSuffix(Lower(s), k, Lower(t));
  }

  /** The trimmed text is an infix of the text, also once lower-cased. */
  lemma TrimmedInside(s: string)
    ensures Contains(Lower(s), Lower(Trim(s)))
  {
    TrimSpec(s);
    LowerInfix(s, TrimOffset(s), Trim(s));
  }

  /** The log an incident link points at is among those shown. */
  lemma IncidentShown(log: LogRecord, first: Option<string>)
    requires log.projectUuid != ""
    ensures Shown(log, FilterFromQuery(Dashboard.IncidentLink(log).1, first))
  {
    IncidentOpensItsProject(log, first);
    TrimmedInside(log.projectUuid);
  }

  // ---------------------------------------------------------------- export

  /** The column names; the header is their `join(';')`. */
  const HeaderColumns: seq<string> := ["timestamp", "level", "message", "tags", "ip", "service", "user", "projectUuid", "_id"]

  const CsvHeader: string := Join(HeaderColumns, ";")

  /** The nine columns of a log; `stamp` is `formatDateTime` of its time. */
  function Columns(l: LogRecord, stamp: int -> string): (c: seq<string>)
    ensures |c| == 9
  {
    [stamp(l.timestamp), l.level, ReplaceChars(l.message, {'\n'}, " "), Join(l.tags, ","),
     l.metadata.ip.GetOr(""), l.metadata.service.GetOr(""), l.metadata.user.GetOr(""), l.projectUuid, l.id]
  }

  function Rows(rows: seq<LogRecord>, stamp: int -> string): (r: seq<string>)
    ensures |r| == |rows| && forall i :: 0 <= i < |rows| ==> r[i] == Join(Columns(rows[i], stamp), ";")
  {
    seq(|rows|, i requires 0 <= i < |rows| => Join(Columns(rows[i], stamp), ";"))
  }

  /** `exportLogs`: the file's text (byte-order mark, header, one line per
      displayed log), or nothing when no log is displayed. */
  function ExportCsv(rows: seq<LogRecord>, stamp: int -> string): (r: Option<string>)
    ensures r.None? <==> |rows| == 0
    ensures r.Some? ==> r.value == "\U{FEFF}" + Join([CsvHeader] + Rows(rows, stamp), "\n")
  {
    if |rows| == 0 then None else Some("\U{FEFF}" + Join([CsvHeader] + Rows(rows, stamp), "\n"))
  }

  /** A log whose fields, apart from the message, hold no `;` or line
      break, and whose message holds no `;`. */
  predicate CsvSafe(l: LogRecord, stamp: int -> string) {
    var c := Columns(l, stamp);
    forall k :: 0 <= k < 9 ==> ';' !in c[k] && (k != 2 ==> '\n' !in c[k])
  }

  /** The header is one line that splits back into the column names. */
  lemma HeaderOneLine()
    ensures '\n' !in CsvHeader && Split(CsvHeader, ';') == HeaderColumns
  {
    assert forall k :: 0 <= k < |HeaderColumns| ==> '\n' !in HeaderColumns[k] && ';' !in HeaderColumns[k];
    JoinFree(HeaderColumns, ";", '\n');
    SplitJoin(HeaderColumns, ';');
  }

  lemma NoNewlineLeft(m: string)
    ensures '\n' !in ReplaceChars(m, {'\n'}, " ")
  {
  }

  /** For safe logs the export reads back as the header and one line of
      nine columns per log: line `i + 1` is log `i`'s columns. */
  lemma ExportReadsBack(rows: seq<LogRecord>, stamp: int -> string)
    requires |rows| > 0 && forall i :: 0 <= i < |rows| ==> CsvSafe(rows[i], stamp)
    ensures var lines := Split(ExportCsv(rows, stamp).value[1..], '\n');
      |lines| == |rows| + 1 && Split(lines[0], ';') == HeaderColumns
      && forall i :: 0 <= i < |rows| ==> Split(lines[i + 1], ';') == Columns(rows[i], stamp)
  {
    var rs := Rows(rows, stamp);
    forall i | 0 <= i < |rows| ensures '\n' !in rs[i] {
      RowReadsBack(rows[i], stamp);
    }
    HeaderOneLine();
    ExportLines(CsvHeader, rs);
    var lines := Split(ExportCsv(rows, stamp).value[1..], '\n');
    assert lines == [CsvHeader] + rs;
    forall i | 0 <= i < |rows| ensures Split(lines[i + 1], ';') == Columns(rows[i], stamp) {
      assert lines[i + 1] == rs[i];
      RowReadsBack(rows[i], stamp);
    }
  }

  /** Behind the byte-order mark, single-line header and rows split back
      into exactly those lines. */
  lemma ExportLines(header: string, rs: seq<string>)
    requires '\n' !in header && forall i :: 0 <= i < |rs| ==> '\n' !in rs[i]
    ensures Split(("\U{FEFF}" + Join([header] + rs, "\n"))[1..], '\n') == [header] + rs
  {
    var all := [header] + rs;
    assert forall k :: 0 < k < |all| ==> all[k] == rs[k - 1];
    SplitJoin(all, '\n');
    assert ("\U{FEFF}" + Join(all, "\n"))[1..] == Join(all, "\n");
  }

  /** One safe log's line holds no line break and splits back into its
      columns. */
  lemma RowReadsBack(l: LogRecord, stamp: int -> string)
    requires CsvSafe(l, stamp)
    ensures var line := Join(Columns(l, stamp), ";");
      '\n' !in line && Split(line, ';') == Columns(l, stamp)
  {
    var c := Columns(l, stamp);
    NoNewlineLeft(l.message);
    assert forall k :: 0 <= k < 9 ==> '\n' !in c[k];
    JoinFree(c, ";", '\n');
    SplitJoin(c, ';');
  }
}
