/** The dashboard's figures over the logs and ping services fetched per
    project: the latest incidents, the level distribution, the summary
    counts, and where clicking an incident leads. A query that has not
    delivered data is `None` and contributes nothing. */
module Dashboard {
  import opened Wrappers
  import opened Strs
  import opened Models
  import LogLists

  const IncidentLimit: nat := 8
  const StandardLevels: seq<string> := ["DEBUG", "INFO", "WARNING", "ERROR", "CRITICAL"]

  /** `flatMap(q => q.data ?? [])`. */
  function Concat<T(!new)>(qs: seq<Option<seq<T>>>): (r: seq<T>)
    ensures forall x :: x in r <==> exists i :: 0 <= i < |qs| && qs[i].Some? && x in qs[i].value
    decreases |qs|
  {
    if |qs| == 0 then []
    else
      var rest := Concat(qs[1..]);
      assert forall i :: 1 <= i < |qs| ==> qs[i] == qs[1..][i - 1];
      qs[0].GetOr([]) + rest
  }

  /** Level ERROR or CRITICAL, or some tag containing `ERROR`. */
  predicate IsIncident(log: LogRecord) {
    log.level == "ERROR" || log.level == "CRITICAL" || exists i :: 0 <= i < |log.tags| && Contains(log.tags[i], "ERROR")
  }

  /** `latestIncidents`: the incidents, newest first, at most eight. */
  function LatestIncidents(qs: seq<Option<seq<LogRecord>>>): (r: seq<LogRecord>)
    ensures |r| <= IncidentLimit
    ensures forall x :: x in r ==> IsIncident(x) && x in Concat(qs)
  {
    var all := LogLists.SortNewestFirst(LogLists.Keep(Concat(qs), IsIncident));
    var r := LogLists.Newest(all, IncidentLimit);
    assert forall x :: x in r ==> x in all;
    assert forall x :: x in all ==> x in multiset(all);
    r
  }

  /** The incidents shown are the newest ones: ordered newest first, all of
      them when there are at most eight, and no incident left out is newer
      than one shown. */
  lemma IncidentsAreNewest(qs: seq<Option<seq<LogRecord>>>)
    ensures LogLists.NewestFirst(LatestIncidents(qs))
    ensures var inc := LogLists.Keep(Concat(qs), IsIncident);
      |inc| <= IncidentLimit ==> multiset(LatestIncidents(qs)) == multiset(inc)
    ensures forall x, y :: (x in LatestIncidents(qs) && y in LogLists.Keep(Concat(qs), IsIncident)
      && y !in LatestIncidents(qs)) ==> y.timestamp <= x.timestamp
  {
    var inc := LogLists.Keep(Concat(qs), IsIncident);
    var all := LogLists.SortNewestFirst(inc);
    var r := LogLists.Newest(all, IncidentLimit);
    LogLists.NewestCut(all, IncidentLimit);
    assert all == r + all[|r|..];
    forall x, y | x in r && y in inc && y !in r
      ensures y.timestamp <= x.timestamp
    {
      assert y in multiset(all);
      assert y in all;
      assert y in all[|r|..];
    }
  }

  /** The number of logs at `level`. */
  function CountLevel(logs: seq<LogRecord>, level: string): nat {
    |LogLists.Keep(logs, (l: LogRecord) => l.level == level)|
  }

  /** `logLevelsDistribution`: one count per standard level, in order. */
  function Distribution(logs: seq<LogRecord>): (r: seq<nat>)
    ensures |r| == |StandardLevels|
    ensures forall k :: 0 <= k < |r| ==> r[k] == CountLevel(logs, StandardLevels[k])
  {
    seq(|StandardLevels|, k requires 0 <= k < |StandardLevels| => CountLevel(logs, StandardLevels[k]))
  }

  /** A further log raises exactly the count of its own level, and a log
      at any other level (SECURITY, say) changes no count. */
  lemma DistributionCounts(logs: seq<LogRecord>, x: LogRecord)
    ensures forall k :: 0 <= k < |StandardLevels| ==>
      Distribution(logs + [x])[k] == Distribution(logs)[k] + (if x.level == StandardLevels[k] then 1 else 0)
    ensures x.level !in StandardLevels ==> Distribution(logs + [x]) == Distribution(logs)
  {
    forall k | 0 <= k < |StandardLevels|
      ensures Distribution(logs + [x])[k] == Distribution(logs)[k] + (if x.level == StandardLevels[k] then 1 else 0)
    {
      LogLists.KeepAppend(logs, x, (l: LogRecord) => l.level == StandardLevels[k]);
    }
  }

  /** `reduce((acc, q) => acc + (q.data?.length ?? 0), 0)`, folded from
      the left. */
  function TotalPingServices(qs: seq<Option<seq<PingService>>>): nat
    decreases |qs|
  {
    if |qs| == 0 then 0
    else TotalPingServices(qs[..|qs| - 1]) + |qs[|qs| - 1].GetOr([])|
  }

  lemma {:induction false} ConcatAppend<T(!new)>(qs: seq<Option<seq<T>>>, q: Option<seq<T>>)
    ensures Concat(qs + [q]) == Concat(qs) + q.GetOr([])
    decreases |qs|
  {
    if |qs| > 0 {
      assert (qs + [q])[1..] == qs[1..] + [q];
      ConcatAppend(qs[1..], q);
    } else {
      assert qs + [q] == [q];
    }
  }

  /** The total is the number of services over all projects. */
  lemma {:induction false} TotalIsServiceCount(qs: seq<Option<seq<PingService>>>)
    ensures TotalPingServices(qs) == |Concat(qs)|
    decreases |qs|
  {
    if |qs| > 0 {
      var init := qs[..|qs| - 1];
      TotalIsServiceCount(init);
      ConcatAppend(init, qs[|qs| - 1]);
      assert init + [qs[|qs| - 1]] == qs;
    }
  }

  /** `projectsWithAlerts`: projects with notifications on, 0 before the
      projects arrive. */
  function ProjectsWithAlerts(projects: Option<seq<Project>>): (n: nat)
    ensures projects.None? ==> n == 0
    ensures projects.Some? ==> n <= |projects.value|
    ensures projects.Some? ==> n == |LogLists.Keep(projects.value, (x: Project) => x.telegram.enabled)|
  {
    if projects.None? then 0
    else |LogLists.Keep(projects.value, (x: Project) => x.telegram.enabled)|
  }

  /** The count splits the projects: those with alerts plus those without
      are all of them, and with every project enabled it is their number. */
  lemma AlertCountSplits(projects: seq<Project>)
    ensures ProjectsWithAlerts(Some(projects)) + |LogLists.Keep(projects, (x: Project) => !x.telegram.enabled)| == |projects|
    ensures (forall i :: 0 <= i < |projects| ==> projects[i].telegram.enabled) ==> ProjectsWithAlerts(Some(projects)) == |projects|
  {
    var p := (x: Project) => x.telegram.enabled;
    LogLists.KeepSplit(projects, p, (x: Project) => !x.telegram.enabled);
    if forall i :: 0 <= i < |projects| ==> projects[i].telegram.enabled {
      LogLists.KeepAll(projects, p);
    }
  }

  /** `handleIncidentClick`: the logs page, filtered to the incident's
      project and level. */
  function IncidentLink(log: LogRecord): (r: (string, map<string, string>))
    ensures r.0 == "/logs"
    ensures r.1.Keys == {"uuid", "projectUuid", "level"}
    ensures r.1["uuid"] == log.projectUuid && r.1["projectUuid"] == log.projectUuid && r.1["level"] == log.level
  {
    ("/logs", map["uuid" := log.projectUuid, "projectUuid" := log.projectUuid, "level" := log.level])
  }
}
