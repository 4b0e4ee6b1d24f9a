/** The client library's API queue: items leave one per interval, oldest
    first, at a pace derived from the per-minute limit; a failed
    availability check drops everything queued. */
module RateQueue {
  import opened Wrappers

  /** The queue's state. `timer` is whether a dispatch timer is running,
      `hasCheck` whether an availability check was supplied. */
  datatype Queue<T> = Queue(
    rateLimitPerMinute: int,
    intervalMs: int,
    items: seq<T>,
    timer: bool,
    serverAvailable: bool,
    hasCheck: bool)

  /** `calculateInterval`: a minute shared among at least one send. */
  function IntervalMs(limit: int): (r: int)
    ensures limit <= 1 ==> r == 60000
    ensures limit >= 1 ==> r * limit <= 60000 < (r + 1) * limit
    ensures 0 <= r <= 60000
  {
    var safe := if limit > 1 then limit else 1;
    DivBounds(60000, safe);
    60000 / safe
  }

  lemma DivBounds(a: nat, b: int)
    requires b >= 1
    ensures (a / b) * b <= a < (a / b + 1) * b
    ensures 0 <= a / b <= a
  {
    var q := a / b;
    var m := a - q * b;
    assert 0 <= m < b;
    assert (q + 1) * b == q * b + b;
    MulMonotone(q, b);
  }

  lemma MulMonotone(q: int, b: int)
    requires q >= 0 && b >= 1
    ensures q * b >= q
  {
    if q > 0 {
      assert q * b == q * (b - 1) + q;
    }
  }

  function NewQueue<T>(limit: int, hasCheck: bool): (q: Queue<T>)
    ensures q.items == [] && !q.timer && !q.serverAvailable && q.intervalMs == IntervalMs(limit)
    ensures q.rateLimitPerMinute == limit && q.hasCheck == hasCheck
  {
    Queue(limit, IntervalMs(limit), [], false, false, hasCheck)
  }

  /** `enqueue`: the item goes to the tail and a timer runs. */
  function Enqueue<T>(q: Queue<T>, item: T): (r: Queue<T>)
    ensures r.items == q.items + [item] && r.timer
    ensures r.rateLimitPerMinute == q.rateLimitPerMinute && r.intervalMs == q.intervalMs
    ensures r.serverAvailable == q.serverAvailable && r.hasCheck == q.hasCheck
  {
    q.(items := q.items + [item], timer := true)
  }

  /** `clear`. */
  function Clear<T>(q: Queue<T>): (r: Queue<T>)
    ensures r.items == [] && !r.timer
    ensures r.rateLimitPerMinute == q.rateLimitPerMinute && r.intervalMs == q.intervalMs
    ensures r.serverAvailable == q.serverAvailable && r.hasCheck == q.hasCheck
  {
    q.(items := [], timer := false)
  }

  datatype Status = Status(pending: nat, estimatedMs: int, rateLimitPerMinute: int)

  /** `getStatus`. */
  function GetStatus<T>(q: Queue<T>): (s: Status)
    ensures s.pending == |q.items| && s.estimatedMs == |q.items| * q.intervalMs
    ensures s.rateLimitPerMinute == q.rateLimitPerMinute
  {
    Status(|q.items|, |q.items| * q.intervalMs, q.rateLimitPerMinute)
  }

  /** `updateRateLimit`: a new pace; the queue's contents stay, and a
      running timer is restarted only while something is queued. */
  function UpdateRateLimit<T>(q: Queue<T>, limit: int): (r: Queue<T>)
    ensures r.items == q.items && r.rateLimitPerMinute == limit && r.intervalMs == IntervalMs(limit)
    ensures r.timer == (q.timer && |q.items| > 0)
    ensures r.serverAvailable == q.serverAvailable && r.hasCheck == q.hasCheck
  {
    q.(rateLimitPerMinute := limit, intervalMs := IntervalMs(limit), timer := q.timer && |q.items| > 0)
  }

  /** `resetAvailability`: the next dispatch checks the server again. */
  function ResetAvailability<T>(q: Queue<T>): (r: Queue<T>)
    ensures !r.serverAvailable && r.items == q.items && r.timer == q.timer
  {
    q.(serverAvailable := false)
  }

  /** One tick of the timer. `checkResult` is what the availability check
      answers if it is asked. */
  datatype Tick<T> = Tick(queue: Queue<T>, dispatched: Option<T>)

  /** `processNext`: an empty queue stops the timer; otherwise the head is
      taken, availability is checked unless already known, and the head is
      sent or, when the server is unavailable, dropped with everything
      behind it. A send that fails loses only its own item. */
  function ProcessNext<T>(q: Queue<T>, checkResult: bool): (r: Tick<T>)
    ensures |q.items| == 0 ==> r == Tick(q.(timer := false), None)
    ensures |q.items| > 0 ==>
      var available := q.serverAvailable || !q.hasCheck || checkResult;
      (available ==> r.dispatched == Some(q.items[0]) && r.queue == q.(items := q.items[1..], serverAvailable := true))
      && (!available ==> r.dispatched.None? && r.queue == q.(items := [], timer := false, serverAvailable := false))
  {
    if |q.items| == 0 then Tick(q.(timer := false), None)
    else
      var head := q.items[0];
      var available := if q.serverAvailable then true else if q.hasCheck then checkResult else true;
      if !available then Tick(q.(items := [], timer := false, serverAvailable := false), None)
      else Tick(q.(items := q.items[1..], serverAvailable := true), Some(head))
  }

  /** `n` ticks with the server available, and what they sent. */
  function Run<T>(q: Queue<T>, n: nat): (r: (Queue<T>, seq<T>))
    decreases n
  {
    if n == 0 then (q, [])
    else
      var t := ProcessNext(q, true);
      var rest := Run(t.queue, n - 1);
      (rest.0, (if t.dispatched.Some? then [t.dispatched.value] else []) + rest.1)
  }

  /** First in, first out: with the server available, `n` ticks send the
      `n` oldest items in the order they were queued and leave the rest. */
  lemma {:induction false} RunIsFifo<T>(q: Queue<T>, n: nat)
    requires n <= |q.items|
    ensures Run(q, n).1 == q.items[..n]
    ensures Run(q, n).0.items == q.items[n..]
    decreases n
  {
    if n > 0 {
      var t := ProcessNext(q, true);
      RunIsFifo(t.queue, n - 1);
      assert t.queue.items == q.items[1..];
      assert q.items[..n] == [q.items[0]] + q.items[1..][..n - 1];
      assert q.items[1..][n - 1..] == q.items[n..];
    }
  }

  /** A failed check empties the queue; nothing more goes out until the
      availability is reset and items are queued again. */
  lemma UnavailableDropsAll<T>(q: Queue<T>)
    requires |q.items| > 0 && !q.serverAvailable && q.hasCheck
    ensures var t := ProcessNext(q, false);
      t.dispatched.None? && t.queue.items == [] && !t.queue.timer
      && ProcessNext(t.queue, true).dispatched.None?
  {
  }

  /** The status estimate grows by one interval with each queued item. */
  lemma EstimateIsPendingTimesInterval<T>(q: Queue<T>, item: T)
    ensures GetStatus(Enqueue(q, item)).estimatedMs == GetStatus(q).estimatedMs + q.intervalMs
  {
  }
}
