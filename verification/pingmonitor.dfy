/** Checking monitored URLs on demand: the three-way status, the time of
    the check, and the error entry and alert a failed check raises. Checks
    run only when asked; nothing schedules them. */
module PingMonitor {
  import opened Wrappers
  import opened Models
  import Notifier

  /** What the HTTP probe gave back: a response with its status code, or an
      exception (timeout, refused connection, ...). */
  datatype ProbeOutcome = Response(status: int) | Threw

  /** Any 2xx response is up, any other response is degraded, an exception
      is down. */
  function Classify(o: ProbeOutcome): (s: PingStatus)
    ensures s == Ok <==> o.Response? && 200 <= o.status < 300
    ensures s == Degraded <==> o.Response? && !(200 <= o.status < 300)
    ensures s == Down <==> o.Threw?
  {
    match o
    case Threw => Down
    case Response(code) => if 200 <= code && code < 300 then Ok else Degraded
  }

  /** The probe's timeout in milliseconds: the service interval is in
      seconds. */
  function TimeoutMs(s: PingService): real {
    s.interval * 1000.0
  }

  function DownText(name: string): string {
    "Ping-сервис " + name + " недоступен"
  }

  const PingDownTag: string := "PING_DOWN"

  datatype CheckResult = CheckResult(
    service: PingService,
    system: seq<SystemEntry>,
    notifier: Notifier.State,
    sends: seq<Notifier.Send>,
    logged: seq<Notifier.Logged>)

  /** `checkService`. `probe(url, timeoutMs)` stands for the HTTP request.
      Every check records its status and time; only a down service writes
      an error entry, and it alerts its project when the project exists. */
  function CheckService(s: PingService, probe: (string, real) -> ProbeOutcome,
                        projects: map<string, Project>, nst: Notifier.State, now: int): (r: CheckResult)
    ensures r.service == s.(lastStatus := Classify(probe(s.url, TimeoutMs(s))), lastCheckedAt := Some(now))
    ensures r.service.lastStatus != Down ==> r.system == [] && r.notifier == nst && r.sends == [] && r.logged == []
    ensures r.service.lastStatus == Down ==>
      r.system == [SystemEntry("ERROR", ["PING", "MONITOR"], "", "ping-monitor", s.projectUuid)]
    ensures r.service.lastStatus == Down && s.projectUuid !in projects ==> r.notifier == nst && r.sends == [] && r.logged == []
    ensures r.service.lastStatus == Down && s.projectUuid in projects ==>
      var n := Notifier.Notify(nst, projects[s.projectUuid], DownText(s.name), PingDownTag, now);
      r.notifier == n.state && r.sends == n.sends && r.logged == n.logged
  {
    var status := Classify(probe(s.url, TimeoutMs(s)));
    var checked := s.(lastStatus := status, lastCheckedAt := Some(now));
    if status != Down then CheckResult(checked, [], nst, [], [])
    else
      var entry := SystemEntry("ERROR", ["PING", "MONITOR"], "", "ping-monitor", s.projectUuid);
      if s.projectUuid in projects then
        var n := Notifier.Notify(nst, projects[s.projectUuid], DownText(s.name), PingDownTag, now);
        CheckResult(checked, [entry], n.state, n.sends, n.logged)
      else CheckResult(checked, [entry], nst, [], [])
  }

  /** Alerts are level-triggered: a service that is still down at a later
      check alerts a subscribed chat again once the project's cooldown has
      passed; nothing remembers the previous status. */
  lemma DownAlertsRepeat(s: PingService, probe: (string, real) -> ProbeOutcome, projects: map<string, Project>,
                         nst: Notifier.State, t0: int, t1: int, i: nat)
    requires s.projectUuid in projects && probe(s.url, TimeoutMs(s)).Threw?
    requires var p := projects[s.projectUuid];
      i < |p.telegram.recipients| && Notifier.Wants(p.telegram.recipients[i], PingDownTag)
    requires nst.hasBot && projects[s.projectUuid].telegram.enabled
    requires Notifier.Ready(nst.lastSent, Notifier.SpamKey(s.projectUuid, projects[s.projectUuid].telegram.recipients[i].chatId, PingDownTag),
                            Notifier.IntervalMs(projects[s.projectUuid]), t0)
    requires projects[s.projectUuid].uuid == s.projectUuid
    requires (t0 as real) + Notifier.IntervalMs(projects[s.projectUuid]) <= t1 as real
    ensures var first := CheckService(s, probe, projects, nst, t0);
      var second := CheckService(first.service, probe, projects, first.notifier, t1);
      var c := projects[s.projectUuid].telegram.recipients[i].chatId;
      Notifier.SendsTo(first.sends, c) && Notifier.SendsTo(second.sends, c)
  {
    var p := projects[s.projectUuid];
    Notifier.NotifyComplete(nst, p, DownText(s.name), PingDownTag, t0, i);
    Notifier.NotifyAfterCooldown(nst, p, DownText(s.name), DownText(s.name), PingDownTag, t0, t1, i);
  }

  datatype BatchResult = BatchResult(
    services: seq<PingService>,
    system: seq<SystemEntry>,
    notifier: Notifier.State,
    sends: seq<Notifier.Send>,
    logged: seq<Notifier.Logged>)

  /** The services that came out down, one entry each. */
  function DownCount(services: seq<PingService>): nat {
    if |services| == 0 then 0
    else (if services[0].lastStatus == Down then 1 else 0) + DownCount(services[1..])
  }

  /** `checkProjectServices` over the project's services in query order:
      one check after another, the alert state carried from each check to
      the next; `clock(i)` is the time of the i-th check. */
  function CheckAll(services: seq<PingService>, probe: (string, real) -> ProbeOutcome,
                    projects: map<string, Project>, nst: Notifier.State, clock: nat -> int): (r: BatchResult)
    ensures |r.services| == |services|
    ensures forall i :: 0 <= i < |services| ==>
      r.services[i] == services[i].(lastStatus := Classify(probe(services[i].url, TimeoutMs(services[i]))),
                                    lastCheckedAt := Some(clock(i)))
    ensures |r.system| == DownCount(r.services)
    decreases |services|
  {
    if |services| == 0 then BatchResult([], [], nst, [], [])
    else
      var first := CheckService(services[0], probe, projects, nst, clock(0));
      var rest := CheckAll(services[1..], probe, projects, first.notifier, (i: nat) => clock(i + 1));
      var svc := [first.service] + rest.services;
      assert forall i :: 0 <= i < |services| ==>
        svc[i] == services[i].(lastStatus := Classify(probe(services[i].url, TimeoutMs(services[i]))),
                               lastCheckedAt := Some(clock(i))) by {
        forall i | 0 <= i < |services|
          ensures svc[i] == services[i].(lastStatus := Classify(probe(services[i].url, TimeoutMs(services[i]))),
                                         lastCheckedAt := Some(clock(i)))
        {
          if i > 0 {
            assert svc[i] == rest.services[i - 1];
            assert services[1..][i - 1] == services[i];
          }
        }
      }
      assert DownCount(svc) == |first.system| + |rest.system| by {
        assert svc[1..] == rest.services;
      }
      BatchResult(svc, first.system + rest.system, rest.notifier, first.sends + rest.sends, first.logged + rest.logged)
  }
}
