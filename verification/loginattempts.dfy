/** Failed-login bookkeeping per address: a counter, and a one-hour lock
    once the counter reaches the limit. */
module LoginAttempts {
  import opened Wrappers

  const LockIntervalMs: int := 3600000
  const DefaultMaxAttempts: nat := 5

  datatype AttemptInfo = AttemptInfo(count: nat, lockedUntil: Option<int>)

  type Attempts = map<string, AttemptInfo>

  function InfoOf(a: Attempts, ip: string): AttemptInfo {
    if ip in a then a[ip] else AttemptInfo(0, None)
  }

  /** `registerFailure`: one more failure; reaching the limit locks (or
      re-locks) the address for an hour from now. */
  function RegisterFailure(a: Attempts, maxAttempts: nat, ip: string, now: int): (r: Attempts)
    ensures ip in r && r[ip].count == InfoOf(a, ip).count + 1
    ensures r[ip].count >= maxAttempts ==> r[ip].lockedUntil == Some(now + LockIntervalMs)
    ensures r[ip].count < maxAttempts ==> r[ip].lockedUntil == InfoOf(a, ip).lockedUntil
    ensures forall k :: k != ip ==> (k in r <==> k in a) && (k in a ==> r[k] == a[k])
  {
    var info := InfoOf(a, ip);
    var count := info.count + 1;
    a[ip := AttemptInfo(count, if count >= maxAttempts then Some(now + LockIntervalMs) else info.lockedUntil)]
  }

  /** `reset`: only this address's entry goes. */
  function Reset(a: Attempts, ip: string): (r: Attempts)
    ensures ip !in r
    ensures forall k :: k != ip ==> (k in r <==> k in a) && (k in a ==> r[k] == a[k])
  {
    a - {ip}
  }

  datatype LockCheck = LockCheck(locked: bool, attempts: Attempts)

  /** `isLocked`: no lock time (or a zero one, which is falsy) is unlocked;
      a lock time already passed drops the entry, so counting restarts; a
      lock time at or after now is locked. */
  function IsLocked(a: Attempts, ip: string, now: int): (r: LockCheck)
    ensures r.locked <==> ip in a && a[ip].lockedUntil.Some? && a[ip].lockedUntil.value != 0 && a[ip].lockedUntil.value >= now
    ensures ip in a && a[ip].lockedUntil.Some? && a[ip].lockedUntil.value != 0 && a[ip].lockedUntil.value < now
            ==> r.attempts == a - {ip}
    ensures !(ip in a && a[ip].lockedUntil.Some? && a[ip].lockedUntil.value != 0 && a[ip].lockedUntil.value < now)
            ==> r.attempts == a
  {
    if ip !in a || a[ip].lockedUntil.None? || a[ip].lockedUntil.value == 0 then LockCheck(false, a)
    else if a[ip].lockedUntil.value < now then LockCheck(false, a - {ip})
    else LockCheck(true, a)
  }

  /** Failures registered at the given times, one after another. */
  function Failures(a: Attempts, maxAttempts: nat, ip: string, times: seq<int>): (r: Attempts)
    decreases |times|
  {
    if |times| == 0 then a
    else Failures(RegisterFailure(a, maxAttempts, ip, times[0]), maxAttempts, ip, times[1..])
  }

  /** Each failure counts exactly once, and once the limit is reached the
      lock runs an hour from the latest failure. */
  lemma {:induction false} FailuresCount(a: Attempts, maxAttempts: nat, ip: string, times: seq<int>)
    requires |times| > 0
    ensures var r := Failures(a, maxAttempts, ip, times);
      ip in r && r[ip].count == InfoOf(a, ip).count + |times|
      && (r[ip].count >= maxAttempts ==> r[ip].lockedUntil == Some(times[|times| - 1] + LockIntervalMs))
    decreases |times|
  {
    var a1 := RegisterFailure(a, maxAttempts, ip, times[0]);
    if |times| > 1 {
      FailuresCount(a1, maxAttempts, ip, times[1..]);
      assert times[1..][|times[1..]| - 1] == times[|times| - 1];
    }
  }

  /** With the default limit, five failures within the hour lock the
      address for a sixth attempt. */
  lemma FiveFailuresLock(a: Attempts, ip: string, times: seq<int>, now: int)
    requires ip !in a && |times| == 5
    requires times[4] + LockIntervalMs >= now
    requires times[4] + LockIntervalMs != 0
    ensures IsLocked(Failures(a, DefaultMaxAttempts, ip, times), ip, now).locked
  {
    FailuresCount(a, DefaultMaxAttempts, ip, times);
  }
}
