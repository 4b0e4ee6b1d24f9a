/** The log query a request's parameters build: a conjunction of
    constraints over log records, one per non-empty parameter, always
    restricted to one project. */
module LogFilters {
  import opened Wrappers
  import opened Models
  import opened LogLists

  /** Request query parameters; a key that is absent is `undefined`. */
  type Query = map<string, string>

  /** A parameter that is truthy: present and not the empty string. */
  function Given(q: Query, key: string): (r: Option<string>)
    ensures r.Some? <==> key in q && q[key] != ""
    ensures r.Some? ==> r.value == q[key]
  {
    if key in q && q[key] != "" then Some(q[key]) else None
  }

  /** The constraints of one query; `None` is "no constraint". A date bound
      is the `Date` its parameter reads as, possibly the Invalid Date. */
  datatype Filter = Filter(
    projectUuid: string,
    level: Option<string>,
    tag: Option<string>,
    text: Option<string>,
    user: Option<string>,
    ip: Option<string>,
    service: Option<string>,
    from: Option<JsDate>,
    to: Option<JsDate>)

  /** `buildLogFilter`. `parseDate` stands for `new Date(string)`. */
  function BuildLogFilter(uuid: string, q: Query, parseDate: string -> JsDate): (f: Filter)
    ensures f.projectUuid == uuid
    ensures f.level == Given(q, "level") && f.tag == Given(q, "tag") && f.text == Given(q, "text")
    ensures f.user == Given(q, "user") && f.ip == Given(q, "ip") && f.service == Given(q, "service")
    ensures f.from.Some? <==> Given(q, "startDate").Some?
    ensures f.from.Some? ==> f.from.value == parseDate(q["startDate"])
    ensures f.to.Some? <==> Given(q, "endDate").Some?
    ensures f.to.Some? ==> f.to.value == parseDate(q["endDate"])
  {
    var start := Given(q, "startDate");
    var end := Given(q, "endDate");
    Filter(uuid, Given(q, "level"), Given(q, "tag"), Given(q, "text"),
           Given(q, "user"), Given(q, "ip"), Given(q, "service"),
           if start.Some? then Some(parseDate(start.value)) else None,
           if end.Some? then Some(parseDate(end.value)) else None)
  }

  /** Whether the store can run a filter: each date bound is a valid time
      and the text is a regular expression (`isPattern`) it compiles. An
      Invalid Date bound fails the cast of the `timestamp` path and a bad
      pattern fails the `$regex` operator, so the query throws. */
  predicate Runnable(f: Filter, isPattern: string -> bool) {
    (f.from.Some? ==> f.from.value.ValidDate?)
    && (f.to.Some? ==> f.to.value.ValidDate?)
    && (f.text.Some? ==> isPattern(f.text.value))
  }

  /** A query whose dates read as valid times and whose text compiles is
      runnable, and one with an unreadable date or a bad pattern is not. */
  lemma RunnableIff(uuid: string, q: Query, parseDate: string -> JsDate, isPattern: string -> bool)
    ensures Runnable(BuildLogFilter(uuid, q, parseDate), isPattern) <==>
      (Given(q, "startDate").Some? ==> parseDate(q["startDate"]).ValidDate?)
      && (Given(q, "endDate").Some? ==> parseDate(q["endDate"]).ValidDate?)
      && (Given(q, "text").Some? ==> isPattern(q["text"]))
  {
  }

  /** Whether one log satisfies a filter. `textMatch(pattern, message)`
      stands for the case-insensitive regular-expression match on the
      message. */
  predicate Matches(f: Filter, textMatch: (string, string) -> bool, log: LogRecord) {
    log.projectUuid == f.projectUuid
    && (f.level.Some? ==> log.level == f.level.value)
    && (f.tag.Some? ==> f.tag.value in log.tags)
    && (f.text.Some? ==> textMatch(f.text.value, log.message))
    && (f.user.Some? ==> log.metadata.user == f.user)
    && (f.ip.Some? ==> log.metadata.ip == f.ip)
    && (f.service.Some? ==> log.metadata.service == f.service)
    && (f.from.Some? ==> f.from.value.ValidDate? && f.from.value.ms <= log.timestamp)
    && (f.to.Some? ==> f.to.value.ValidDate? && log.timestamp <= f.to.value.ms)
  }

  /** The keys `buildLogFilter` reads. */
  const FilterKeys: seq<string> := ["level", "tag", "text", "user", "ip", "service", "startDate", "endDate"]

  /** Without any parameter the filter matches exactly the project's logs. */
  lemma EmptyQueryMatchesProject(uuid: string, q: Query, parseDate: string -> JsDate,
                                 textMatch: (string, string) -> bool, log: LogRecord)
    requires forall k :: k in FilterKeys ==> Given(q, k).None?
    ensures Matches(BuildLogFilter(uuid, q, parseDate), textMatch, log) <==> log.projectUuid == uuid
  {
    assert Given(q, FilterKeys[0]).None? && Given(q, FilterKeys[1]).None? && Given(q, FilterKeys[2]).None?;
    assert Given(q, FilterKeys[3]).None? && Given(q, FilterKeys[4]).None? && Given(q, FilterKeys[5]).None?;
    assert Given(q, FilterKeys[6]).None? && Given(q, FilterKeys[7]).None?;
  }

  /** `wider` gives every filter parameter that `narrower` gives the same
      value; `narrower` may give more. */
  predicate Extends(narrower: Query, wider: Query) {
    forall k :: k in FilterKeys && Given(wider, k).Some? ==> Given(narrower, k) == Given(wider, k)
  }

  /** Adding parameters only narrows the match: a log matching the query
      with more parameters matches the one with fewer. */
  lemma MoreParametersNarrow(uuid: string, narrower: Query, wider: Query, parseDate: string -> JsDate,
                             textMatch: (string, string) -> bool, log: LogRecord)
    requires Extends(narrower, wider)
    requires Matches(BuildLogFilter(uuid, narrower, parseDate), textMatch, log)
    ensures Matches(BuildLogFilter(uuid, wider, parseDate), textMatch, log)
  {
    assert FilterKeys[0] == "level" && FilterKeys[1] == "tag" && FilterKeys[2] == "text";
    assert FilterKeys[3] == "user" && FilterKeys[4] == "ip" && FilterKeys[5] == "service";
    assert FilterKeys[6] == "startDate" && FilterKeys[7] == "endDate";
  }

  /** The logs of a store matching a filter, in store order. */
  function Selected(logs: seq<LogRecord>, f: Filter, textMatch: (string, string) -> bool): (r: seq<LogRecord>)
    ensures forall x :: x in r <==> x in logs && Matches(f, textMatch, x)
    ensures multiset(r) <= multiset(logs)
  {
    Keep(logs, x => Matches(f, textMatch, x))
  }

  /** Every selection lies inside the project's own logs. */
  lemma SelectedWithinProject(uuid: string, q: Query, parseDate: string -> JsDate,
                              textMatch: (string, string) -> bool, logs: seq<LogRecord>)
    ensures var f := BuildLogFilter(uuid, q, parseDate);
      multiset(Selected(logs, f, textMatch)) <= multiset(Keep(logs, (x: LogRecord) => x.projectUuid == uuid))
  {
    var f := BuildLogFilter(uuid, q, parseDate);
    KeepNarrows(logs, x => Matches(f, textMatch, x), (x: LogRecord) => x.projectUuid == uuid);
  }
}
