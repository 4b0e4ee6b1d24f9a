/** The Telegram notifier: alert fan-out with a per-(project, chat, tag)
    anti-spam cooldown, the per-chat invalid-UUID counter that blocks a chat
    for an hour, the `ADD:`/`DELETE:` subscription commands and the `{{key}}`
    message templates. The bot transport is abstract: a message that would be
    sent is returned as a `Send` or a `Reply`. */
module Notifier {
  import opened Wrappers
  import opened Strs
  import opened Models

  const MaxInvalidAttempts: nat := 10
  /** One hour in milliseconds. */
  const BlockMs: int := 3600000
  const MinuteMs: real := 60000.0

  datatype Language = Ru | En

  datatype InvalidState = InvalidState(attempts: nat, blockedUntil: Option<int>)

  /** The notifier's in-memory state: whether a bot exists, the time of the
      last alert per cooldown key, the invalid-attempt counters, the chats
      already told that they are blocked, and the chosen languages. */
  datatype State = State(
    hasBot: bool,
    lastSent: map<string, int>,
    invalid: map<int, InvalidState>,
    notifiedBlock: set<int>,
    languages: map<int, Language>)

  /** An alert message for one chat. */
  datatype Send = Send(chatId: string, text: string)

  /** A state together with what an operation answered. */
  datatype Outcome<T> = Outcome(state: State, reply: T)

  /** A `logAction` call: `writeSystemLog` stores an INFO entry tagged
      TELEGRAM in the system project whose message is `action`; `chatId`
      and `projectUuid` are the chat and the project it concerns, "" when
      none. */
  datatype Logged = Logged(action: string, chatId: string, projectUuid: string)

  // ---------------------------------------------------------------------
  // Alert dispatch
  // ---------------------------------------------------------------------

  /** The cooldown key `${uuid}:${chatId}:${tag}`. */
  function SpamKey(uuid: string, chatId: string, tag: string): string {
    uuid + ":" + chatId + ":" + tag
  }

  /** For one project and tag, different chats have different keys. */
  lemma SpamKeyInjective(uuid: string, c1: string, c2: string, tag: string)
    ensures SpamKey(uuid, c1, tag) == SpamKey(uuid, c2, tag) ==> c1 == c2
  {
    if SpamKey(uuid, c1, tag) == SpamKey(uuid, c2, tag) {
      var k1 := SpamKey(uuid, c1, tag);
      var n := |uuid| + 1;
      assert |c1| == |c2|;
      assert k1[n..n + |c1|] == c1;
      assert SpamKey(uuid, c2, tag)[n..n + |c2|] == c2;
    }
  }

  /** Because the key is a plain concatenation, a chat id and a tag that
      both contain `:` can share the cooldown of another pair. */
  lemma SpamKeyCollision()
    ensures SpamKey("p", "1:x", "y") == SpamKey("p", "1", "x:y")
  {
  }

  /** A recipient with no tags receives every tag. */
  predicate Wants(r: Recipient, tag: string) {
    |r.tags| == 0 || tag in r.tags
  }

  function LastSent(ls: map<string, int>, key: string): int {
    if key in ls then ls[key] else 0
  }

  /** `(lastSent.get(key) ?? 0) + intervalMs <= now`: the key may send. */
  predicate Ready(ls: map<string, int>, key: string, intervalMs: real, now: int) {
    LastSent(ls, key) as real + intervalMs <= now as real
  }

  /** Some recipient that wants `tag` has chat id `c`. */
  predicate WantingChat(rs: seq<Recipient>, tag: string, c: string) {
    exists i :: 0 <= i < |rs| && Wants(rs[i], tag) && rs[i].chatId == c
  }

  /** `k` is the cooldown key of some recipient that wants `tag`. */
  predicate RecipientKey(k: string, uuid: string, rs: seq<Recipient>, tag: string) {
    exists i :: 0 <= i < |rs| && Wants(rs[i], tag) && k == SpamKey(uuid, rs[i].chatId, tag)
  }

  datatype Dispatch = Dispatch(lastSent: map<string, int>, sends: seq<Send>)

  /** Some message in `sends` goes to chat `c`. */
  predicate SendsTo(sends: seq<Send>, c: string) {
    exists j :: 0 <= j < |sends| && sends[j].chatId == c
  }

  /** The loop over the recipients, in list order. Every send goes to a
      recipient that wants the tag and whose key was ready before the call;
      its key then holds `now`; keys of other recipients and all other keys
      keep their values. */
  function DispatchAll(ls: map<string, int>, uuid: string, rs: seq<Recipient>, message: string,
                       tag: string, intervalMs: real, now: int): (d: Dispatch)
    ensures forall k :: k in ls ==> k in d.lastSent
    ensures forall k :: k in d.lastSent && !(k in ls && d.lastSent[k] == ls[k]) ==> d.lastSent[k] == now
    ensures forall k :: k in d.lastSent && !RecipientKey(k, uuid, rs, tag) ==> k in ls && d.lastSent[k] == ls[k]
    ensures forall j :: 0 <= j < |d.sends| ==> d.sends[j].text == message && WantingChat(rs, tag, d.sends[j].chatId)
    ensures forall j :: 0 <= j < |d.sends| ==> Ready(ls, SpamKey(uuid, d.sends[j].chatId, tag), intervalMs, now)
    ensures forall j :: 0 <= j < |d.sends| ==> LastSent(d.lastSent, SpamKey(uuid, d.sends[j].chatId, tag)) == now
    decreases |rs|
  {
    if |rs| == 0 then Dispatch(ls, [])
    else
      var r := rs[0];
      var key := SpamKey(uuid, r.chatId, tag);
      TailWitnesses(uuid, rs, tag);
      if Wants(r, tag) && Ready(ls, key, intervalMs, now) then
        var d := DispatchAll(ls[key := now], uuid, rs[1..], message, tag, intervalMs, now);
        assert RecipientKey(key, uuid, rs, tag) by { assert Wants(rs[0], tag) && key == SpamKey(uuid, rs[0].chatId, tag); }
        assert WantingChat(rs, tag, r.chatId) by { assert Wants(rs[0], tag) && rs[0].chatId == r.chatId; }
        Dispatch(d.lastSent, [Send(r.chatId, message)] + d.sends)
      else
        DispatchAll(ls, uuid, rs[1..], message, tag, intervalMs, now)
  }

  /** A witness among the later recipients is a witness in the whole list. */
  lemma TailWitnesses(uuid: string, rs: seq<Recipient>, tag: string)
    requires |rs| > 0
    ensures forall k :: RecipientKey(k, uuid, rs[1..], tag) ==> RecipientKey(k, uuid, rs, tag)
    ensures forall c :: WantingChat(rs[1..], tag, c) ==> WantingChat(rs, tag, c)
  {
    assert forall i :: 0 <= i < |rs[1..]| ==> rs[1..][i] == rs[i + 1];
  }

  /** Completeness: a recipient that wants the tag and whose key is ready
      before the call gets the alert (possibly through an earlier recipient
      with the same chat id). */
  lemma {:induction false} DispatchComplete(ls: map<string, int>, uuid: string, rs: seq<Recipient>,
                                            message: string, tag: string, intervalMs: real, now: int, i: nat)
    requires i < |rs| && Wants(rs[i], tag) && Ready(ls, SpamKey(uuid, rs[i].chatId, tag), intervalMs, now)
    ensures SendsTo(DispatchAll(ls, uuid, rs, message, tag, intervalMs, now).sends, rs[i].chatId)
    decreases |rs|
  {
    var c := rs[i].chatId;
    var r := rs[0];
    var key := SpamKey(uuid, r.chatId, tag);
    var tail := rs[1..];
    var sends := DispatchAll(ls, uuid, rs, message, tag, intervalMs, now).sends;
    DispatchStep(ls, uuid, rs, message, tag, intervalMs, now);
    if Wants(r, tag) && Ready(ls, key, intervalMs, now) {
      var ls1 := ls[key := now];
      var s1 := DispatchAll(ls1, uuid, tail, message, tag, intervalMs, now).sends;
      if c == r.chatId {
        assert sends[0].chatId == c;
      } else {
        var kc := SpamKey(uuid, c, tag);
        assert i > 0 && tail[i - 1] == rs[i];
        assert Ready(ls1, kc, intervalMs, now) by {
          SpamKeyInjective(uuid, r.chatId, c, tag);
          assert LastSent(ls1, kc) == LastSent(ls, kc);
        }
        DispatchComplete(ls1, uuid, tail, message, tag, intervalMs, now, i - 1);
        SendsToCons(Send(r.chatId, message), s1, c);
      }
    } else {
      assert i > 0 && tail[i - 1] == rs[i];
      DispatchComplete(ls, uuid, tail, message, tag, intervalMs, now, i - 1);
    }
  }

  lemma SendsToCons(s: Send, sends: seq<Send>, c: string)
    requires SendsTo(sends, c)
    ensures SendsTo([s] + sends, c)
  {
    var j :| 0 <= j < |sends| && sends[j].chatId == c;
    assert ([s] + sends)[j + 1] == sends[j];
  }

  /** One step of the loop: the first recipient sends when it wants the tag
      and its key is ready, and the rest of the list follows. */
  lemma DispatchStep(ls: map<string, int>, uuid: string, rs: seq<Recipient>,
                     message: string, tag: string, intervalMs: real, now: int)
    requires |rs| > 0
    ensures var key := SpamKey(uuid, rs[0].chatId, tag);
      DispatchAll(ls, uuid, rs, message, tag, intervalMs, now).sends ==
        if Wants(rs[0], tag) && Ready(ls, key, intervalMs, now)
        then [Send(rs[0].chatId, message)] + DispatchAll(ls[key := now], uuid, rs[1..], message, tag, intervalMs, now).sends
        else DispatchAll(ls, uuid, rs[1..], message, tag, intervalMs, now).sends
  {
  }

  /** No chat appears twice in `sends`. */
  predicate DistinctChats(sends: seq<Send>) {
    forall j1, j2 :: 0 <= j1 < j2 < |sends| ==> sends[j1].chatId != sends[j2].chatId
  }

  /** With a positive interval a chat gets at most one alert per call, even
      when it is listed several times. */
  lemma {:induction false} DispatchOncePerChat(ls: map<string, int>, uuid: string, rs: seq<Recipient>,
                                               message: string, tag: string, intervalMs: real, now: int)
    requires intervalMs > 0.0
    ensures DistinctChats(DispatchAll(ls, uuid, rs, message, tag, intervalMs, now).sends)
    decreases |rs|
  {
    if |rs| > 0 {
      var r := rs[0];
      var key := SpamKey(uuid, r.chatId, tag);
      if Wants(r, tag) && Ready(ls, key, intervalMs, now) {
        var ls1 := ls[key := now];
        var d1 := DispatchAll(ls1, uuid, rs[1..], message, tag, intervalMs, now);
        DispatchOncePerChat(ls1, uuid, rs[1..], message, tag, intervalMs, now);
        SentKeyCoolsDown(ls, key, uuid, rs[1..], message, tag, intervalMs, now);
        assert SpamKey(uuid, r.chatId, tag) == key;
        assert DispatchAll(ls, uuid, rs, message, tag, intervalMs, now).sends == [Send(r.chatId, message)] + d1.sends;
        ConsDistinct(Send(r.chatId, message), d1.sends);
      } else {
        DispatchOncePerChat(ls, uuid, rs[1..], message, tag, intervalMs, now);
      }
    }
  }

  /** Once a key holds `now`, a later recipient with that key cannot send
      in the same call. */
  lemma SentKeyCoolsDown(ls: map<string, int>, key: string, uuid: string, rs: seq<Recipient>,
                         message: string, tag: string, intervalMs: real, now: int)
    requires intervalMs > 0.0
    ensures var d := DispatchAll(ls[key := now], uuid, rs, message, tag, intervalMs, now);
      forall j :: 0 <= j < |d.sends| ==> SpamKey(uuid, d.sends[j].chatId, tag) != key
  {
    var ls1 := ls[key := now];
    assert !Ready(ls1, key, intervalMs, now);
  }

  /** A send to a chat none of `sends` reaches keeps the chats distinct. */
  lemma ConsDistinct(x: Send, sends: seq<Send>)
    requires DistinctChats(sends) && forall j :: 0 <= j < |sends| ==> sends[j].chatId != x.chatId
    ensures DistinctChats([x] + sends)
  {
    var all := [x] + sends;
    forall j1, j2 | 0 <= j1 < j2 < |all|
      ensures all[j1].chatId != all[j2].chatId
    {
      assert all[j2] == sends[j2 - 1];
      if j1 > 0 {
        assert all[j1] == sends[j1 - 1];
      }
    }
  }

  /** `antiSpamInterval` minutes in milliseconds. */
  function IntervalMs(p: Project): (ms: real)
    ensures p.telegram.antiSpamInterval >= 1.0 ==> ms >= MinuteMs
  {
    p.telegram.antiSpamInterval * 60.0 * 1000.0
  }

  /** The entries written after the delivered alerts of one project, one
      per send, in send order. */
  function SentLog(uuid: string, sends: seq<Send>): (r: seq<Logged>)
    ensures |r| == |sends|
    ensures forall j :: 0 <= j < |sends| ==> r[j] == Logged("telegram_notification_sent", sends[j].chatId, uuid)
  {
    seq(|sends|, j requires 0 <= j < |sends| => Logged("telegram_notification_sent", sends[j].chatId, uuid))
  }

  datatype NotifyResult = NotifyResult(state: State, sends: seq<Send>, logged: seq<Logged>)

  /** `notify(project, message, tag)`: nothing happens without a bot or with
      notifications disabled; otherwise every recipient that wants the tag
      and whose cooldown key is ready gets the message, each delivery is
      followed by one `telegram_notification_sent` entry naming the chat and
      the project, and only `lastSent` changes. */
  function Notify(st: State, p: Project, message: string, tag: string, now: int): (r: NotifyResult)
    ensures !st.hasBot || !p.telegram.enabled ==> r.state == st && r.sends == []
    ensures r.state == st.(lastSent := r.state.lastSent)
    ensures |r.logged| == |r.sends|
    ensures forall j :: 0 <= j < |r.sends| ==> r.logged[j] == Logged("telegram_notification_sent", r.sends[j].chatId, p.uuid)
    ensures forall k :: k in st.lastSent ==> k in r.state.lastSent
    ensures forall k :: k in r.state.lastSent && !(k in st.lastSent && r.state.lastSent[k] == st.lastSent[k]) ==>
      r.state.lastSent[k] == now
    ensures forall k :: k in r.state.lastSent && !RecipientKey(k, p.uuid, p.telegram.recipients, tag) ==>
      k in st.lastSent && r.state.lastSent[k] == st.lastSent[k]
    ensures forall j :: 0 <= j < |r.sends| ==>
      r.sends[j].text == message && WantingChat(p.telegram.recipients, tag, r.sends[j].chatId)
      && Ready(st.lastSent, SpamKey(p.uuid, r.sends[j].chatId, tag), IntervalMs(p), now)
      && LastSent(r.state.lastSent, SpamKey(p.uuid, r.sends[j].chatId, tag)) == now
  {
    if !st.hasBot || !p.telegram.enabled then NotifyResult(st, [], [])
    else
      var d := DispatchAll(st.lastSent, p.uuid, p.telegram.recipients, message, tag, IntervalMs(p), now);
      NotifyResult(st.(lastSent := d.lastSent), d.sends, SentLog(p.uuid, d.sends))
  }

  /** The loop when some sends fail. */
  datatype Tried = Tried(lastSent: map<string, int>, sends: seq<Send>, rejected: Option<string>)

  /** The loop with the transport's answers: `rejects` holds the chats
      whose `sendMessage` rejects. The rejection is not caught, so the loop
      stops at the first send that rejects and its key is not stamped;
      `sends` are the messages delivered before it. */
  function DispatchTry(ls: map<string, int>, uuid: string, rs: seq<Recipient>, message: string,
                       tag: string, intervalMs: real, now: int, rejects: set<string>): (d: Tried)
    ensures d.rejected.Some? ==> d.rejected.value in rejects && WantingChat(rs, tag, d.rejected.value)
    ensures forall j :: 0 <= j < |d.sends| ==> d.sends[j].chatId !in rejects
    ensures forall k :: k in d.lastSent && !(k in ls && d.lastSent[k] == ls[k]) ==>
      exists j :: 0 <= j < |d.sends| && k == SpamKey(uuid, d.sends[j].chatId, tag)
    decreases |rs|
  {
    if |rs| == 0 then Tried(ls, [], None)
    else
      var r := rs[0];
      var key := SpamKey(uuid, r.chatId, tag);
      TailWitnesses(uuid, rs, tag);
      if Wants(r, tag) && Ready(ls, key, intervalMs, now) then
        if r.chatId in rejects then
          assert WantingChat(rs, tag, r.chatId) by { assert Wants(rs[0], tag) && rs[0].chatId == r.chatId; }
          Tried(ls, [], Some(r.chatId))
        else
          var d := DispatchTry(ls[key := now], uuid, rs[1..], message, tag, intervalMs, now, rejects);
          var sends := [Send(r.chatId, message)] + d.sends;
          assert forall j :: 0 <= j < |d.sends| ==> sends[j + 1] == d.sends[j];
          assert sends[0].chatId == r.chatId;
          Tried(d.lastSent, sends, d.rejected)
      else
        DispatchTry(ls, uuid, rs[1..], message, tag, intervalMs, now, rejects)
  }

  /** Against the loop where every send succeeds: without a rejection the
      two agree; with one, the delivered messages and the rejected send
      are the start of what the full loop would have sent, and nothing
      after it goes out. */
  lemma {:induction false} DispatchTryIsPrefix(ls: map<string, int>, uuid: string, rs: seq<Recipient>,
                                               message: string, tag: string, intervalMs: real, now: int,
                                               rejects: set<string>)
    ensures var d := DispatchTry(ls, uuid, rs, message, tag, intervalMs, now, rejects);
      var all := DispatchAll(ls, uuid, rs, message, tag, intervalMs, now);
      (d.rejected.None? ==> d.sends == all.sends && d.lastSent == all.lastSent)
      && (d.rejected.Some? ==> d.sends + [Send(d.rejected.value, message)] <= all.sends)
    decreases |rs|
  {
    if |rs| > 0 {
      var r := rs[0];
      var key := SpamKey(uuid, r.chatId, tag);
      DispatchStep(ls, uuid, rs, message, tag, intervalMs, now);
      if Wants(r, tag) && Ready(ls, key, intervalMs, now) {
        if r.chatId !in rejects {
          DispatchTryIsPrefix(ls[key := now], uuid, rs[1..], message, tag, intervalMs, now, rejects);
          var d := DispatchTry(ls[key := now], uuid, rs[1..], message, tag, intervalMs, now, rejects);
          if d.rejected.Some? {
            var x := Send(r.chatId, message);
            assert [x] + d.sends + [Send(d.rejected.value, message)] == [x] + (d.sends + [Send(d.rejected.value, message)]);
          }
        }
      } else {
        DispatchTryIsPrefix(ls, uuid, rs[1..], message, tag, intervalMs, now, rejects);
      }
    }
  }

  datatype NotifyTried = NotifyTried(state: State, sends: seq<Send>, logged: seq<Logged>, rejected: Option<string>)

  /** `notify` with the transport's answers: as `Notify`, but the first
      rejected send ends the call and the rejection reaches the caller
      (`rejected`); only the delivered sends are logged. */
  function NotifyTry(st: State, p: Project, message: string, tag: string, now: int, rejects: set<string>): (r: NotifyTried)
    ensures !st.hasBot || !p.telegram.enabled ==> r == NotifyTried(st, [], [], None)
    ensures r.state == st.(lastSent := r.state.lastSent)
    ensures |r.logged| == |r.sends|
    ensures forall j :: 0 <= j < |r.sends| ==> r.logged[j] == Logged("telegram_notification_sent", r.sends[j].chatId, p.uuid)
    ensures r.rejected.Some? ==> r.rejected.value in rejects && WantingChat(p.telegram.recipients, tag, r.rejected.value)
    ensures forall j :: 0 <= j < |r.sends| ==> r.sends[j].chatId !in rejects
  {
    if !st.hasBot || !p.telegram.enabled then NotifyTried(st, [], [], None)
    else
      var d := DispatchTry(st.lastSent, p.uuid, p.telegram.recipients, message, tag, IntervalMs(p), now, rejects);
      NotifyTried(st.(lastSent := d.lastSent), d.sends, SentLog(p.uuid, d.sends), d.rejected)
  }

  /** When no send rejects, `notify` is `Notify`; when one does, what went
      out before it is the start of what `Notify` sends. */
  lemma NotifyTryAgrees(st: State, p: Project, message: string, tag: string, now: int, rejects: set<string>)
    ensures var t := NotifyTry(st, p, message, tag, now, rejects);
      var n := Notify(st, p, message, tag, now);
      (t.rejected.None? ==> t.state == n.state && t.sends == n.sends && t.logged == n.logged)
      && (t.rejected.Some? ==> t.sends + [Send(t.rejected.value, message)] <= n.sends)
  {
    if st.hasBot && p.telegram.enabled {
      DispatchTryIsPrefix(st.lastSent, p.uuid, p.telegram.recipients, message, tag, IntervalMs(p), now, rejects);
    }
  }

  /** A transport that never rejects changes nothing. */
  lemma NotifyTryWithoutRejects(st: State, p: Project, message: string, tag: string, now: int)
    ensures var n := Notify(st, p, message, tag, now);
      NotifyTry(st, p, message, tag, now, {}) == NotifyTried(n.state, n.sends, n.logged, None)
  {
    NotifyTryAgrees(st, p, message, tag, now, {});
  }

  /** Every recipient that wants the tag and whose key is ready is alerted
      when a bot exists and notifications are enabled. */
  lemma NotifyComplete(st: State, p: Project, message: string, tag: string, now: int, i: nat)
    requires st.hasBot && p.telegram.enabled
    requires i < |p.telegram.recipients| && Wants(p.telegram.recipients[i], tag)
    requires Ready(st.lastSent, SpamKey(p.uuid, p.telegram.recipients[i].chatId, tag), IntervalMs(p), now)
    ensures SendsTo(Notify(st, p, message, tag, now).sends, p.telegram.recipients[i].chatId)
  {
    DispatchComplete(st.lastSent, p.uuid, p.telegram.recipients, message, tag, IntervalMs(p), now, i);
  }

  /** The cooldown across calls: after a chat was alerted at `t0`, a second
      alert for the same project and tag at `t1 < t0 + interval` skips it. */
  lemma NotifyCooldown(st: State, p: Project, m0: string, m1: string, tag: string, t0: int, t1: int, c: string)
    requires SendsTo(Notify(st, p, m0, tag, t0).sends, c)
    requires (t1 as real) < (t0 as real) + IntervalMs(p)
    ensures !SendsTo(Notify(Notify(st, p, m0, tag, t0).state, p, m1, tag, t1).sends, c)
  {
    var first := Notify(st, p, m0, tag, t0);
    var j0 :| 0 <= j0 < |first.sends| && first.sends[j0].chatId == c;
    assert LastSent(first.state.lastSent, SpamKey(p.uuid, c, tag)) == t0;
  }

  /** Once the interval has passed the chat is alerted again. */
  lemma NotifyAfterCooldown(st: State, p: Project, m0: string, m1: string, tag: string, t0: int, t1: int, i: nat)
    requires i < |p.telegram.recipients| && Wants(p.telegram.recipients[i], tag)
    requires SendsTo(Notify(st, p, m0, tag, t0).sends, p.telegram.recipients[i].chatId)
    requires (t0 as real) + IntervalMs(p) <= t1 as real
    ensures SendsTo(Notify(Notify(st, p, m0, tag, t0).state, p, m1, tag, t1).sends, p.telegram.recipients[i].chatId)
  {
    var first := Notify(st, p, m0, tag, t0);
    var c := p.telegram.recipients[i].chatId;
    var j0 :| 0 <= j0 < |first.sends| && first.sends[j0].chatId == c;
    assert LastSent(first.state.lastSent, SpamKey(p.uuid, c, tag)) == t0;
    NotifyComplete(first.state, p, m1, tag, t1, i);
  }

  // ---------------------------------------------------------------------
  // Invalid-attempt counter and blocking
  // ---------------------------------------------------------------------

  /** The chat's current count, 0 without a state. */
  function Attempts(st: State, chatId: int): nat {
    if chatId in st.invalid then st.invalid[chatId].attempts else 0
  }

  function BlockedUntil(st: State, chatId: int): Option<int> {
    if chatId in st.invalid then st.invalid[chatId].blockedUntil else None
  }

  /** What a chat is told; the message texts themselves come from the
      translation tables. */
  datatype Reply =
    | AddInvalid
    | BlockedNow
    | StillBlocked
    | SubscribeForbidden
    | AddExists(name: string, uuid: string)
    | AddSuccess(name: string, uuid: string)
    | DeleteMissing
    | DeleteSuccess(name: string, uuid: string)
    | InvalidFormat
    | SubscriptionList
    | InfoMessage
    | LanguageMenu

  /** The outcome of an invalid attempt: the new state, the reply and the
      entry written. */
  datatype Registered = Registered(state: State, reply: Reply, logged: Logged)

  /** `registerInvalidAttempt`: the count goes up by one; at 10 the chat is
      blocked for an hour and its "already told" mark is cleared. Only this
      chat's entries change, and one entry says whether the chat was
      blocked or only refused. */
  function RegisterInvalidAttempt(st: State, chatId: int, now: int): (r: Registered)
    ensures r.reply == AddInvalid || r.reply == BlockedNow
    ensures r.logged.chatId == IntToString(chatId) && r.logged.projectUuid == ""
    ensures r.logged.action == "telegram_user_blocked" <==> r.reply == BlockedNow
    ensures r.logged.action == "telegram_invalid_uuid" <==> r.reply == AddInvalid
    ensures Attempts(r.state, chatId) == Attempts(st, chatId) + 1
    ensures r.reply == BlockedNow <==> Attempts(r.state, chatId) >= MaxInvalidAttempts
    ensures r.reply == BlockedNow ==>
      BlockedUntil(r.state, chatId) == Some(now + BlockMs) && r.state.notifiedBlock == st.notifiedBlock - {chatId}
    ensures r.reply == AddInvalid ==>
      BlockedUntil(r.state, chatId) == BlockedUntil(st, chatId) && r.state.notifiedBlock == st.notifiedBlock
    ensures chatId in r.state.invalid
    ensures forall c :: c != chatId ==>
      (c in r.state.invalid <==> c in st.invalid) && (c in st.invalid ==> r.state.invalid[c] == st.invalid[c])
    ensures r.state.hasBot == st.hasBot && r.state.lastSent == st.lastSent && r.state.languages == st.languages
  {
    var prev := if chatId in st.invalid then st.invalid[chatId] else InvalidState(0, None);
    var attempts := prev.attempts + 1;
    if attempts >= MaxInvalidAttempts then
      Registered(st.(invalid := st.invalid[chatId := InvalidState(attempts, Some(now + BlockMs))],
                     notifiedBlock := st.notifiedBlock - {chatId}), BlockedNow,
                 Logged("telegram_user_blocked", IntToString(chatId), ""))
    else
      Registered(st.(invalid := st.invalid[chatId := InvalidState(attempts, prev.blockedUntil)]), AddInvalid,
                 Logged("telegram_invalid_uuid", IntToString(chatId), ""))
  }

  /** `resetInvalid`: forget the chat's counter and block notice. */
  function ResetInvalid(st: State, chatId: int): (r: State)
    ensures chatId !in r.invalid && chatId !in r.notifiedBlock
    ensures r.invalid == st.invalid - {chatId} && r.notifiedBlock == st.notifiedBlock - {chatId}
    ensures r == st.(invalid := r.invalid, notifiedBlock := r.notifiedBlock)
  {
    st.(invalid := st.invalid - {chatId}, notifiedBlock := st.notifiedBlock - {chatId})
  }

  /** `isBlocked`: true exactly while a (non-zero) `blockedUntil` lies in the
      future. An expired block is forgotten, so counting starts again at 0;
      otherwise nothing changes. */
  function IsBlocked(st: State, chatId: int, now: int): (r: Outcome<bool>)
    ensures r.reply <==> BlockedUntil(st, chatId).Some? && BlockedUntil(st, chatId).value != 0
                         && BlockedUntil(st, chatId).value > now
    ensures BlockedUntil(st, chatId).Some? && BlockedUntil(st, chatId).value != 0 && BlockedUntil(st, chatId).value <= now ==>
      r.state == ResetInvalid(st, chatId) && Attempts(r.state, chatId) == 0
    ensures !(BlockedUntil(st, chatId).Some? && BlockedUntil(st, chatId).value != 0 && BlockedUntil(st, chatId).value <= now) ==>
      r.state == st
  {
    match BlockedUntil(st, chatId)
    case None => Outcome(st, false)
    case Some(until) =>
      if until == 0 then Outcome(st, false)
      else if until <= now then Outcome(ResetInvalid(st, chatId), false)
      else Outcome(st, true)
  }

  /** A run of invalid attempts by one chat, at the given times. */
  function RegisterMany(st: State, chatId: int, times: seq<int>): (r: State)
    decreases |times|
  {
    if |times| == 0 then st
    else RegisterMany(RegisterInvalidAttempt(st, chatId, times[0]).state, chatId, times[1..])
  }

  /** Each attempt of a run counts exactly once. */
  lemma {:induction false} RegisterManyCounts(st: State, chatId: int, times: seq<int>)
    ensures Attempts(RegisterMany(st, chatId, times), chatId) == Attempts(st, chatId) + |times|
    decreases |times|
  {
    if |times| > 0 {
      RegisterManyCounts(RegisterInvalidAttempt(st, chatId, times[0]).state, chatId, times[1..]);
    }
  }

  /** A run splits at any point. */
  lemma {:induction false} RegisterManySplit(st: State, chatId: int, a: seq<int>, b: seq<int>)
    ensures RegisterMany(st, chatId, a + b) == RegisterMany(RegisterMany(st, chatId, a), chatId, b)
    decreases |a|
  {
    if |a| > 0 {
      assert (a + b)[1..] == a[1..] + b;
      RegisterManySplit(RegisterInvalidAttempt(st, chatId, a[0]).state, chatId, a[1..], b);
    } else {
      assert a + b == b;
    }
  }

  /** Fewer than ten invalid attempts by a fresh chat never set a block. */
  lemma {:induction false} FewAttemptsNoBlock(st: State, chatId: int, times: seq<int>)
    requires chatId !in st.invalid && |times| < MaxInvalidAttempts
    ensures BlockedUntil(RegisterMany(st, chatId, times), chatId) == None
    decreases |times|
  {
    if |times| > 0 {
      var init := times[..|times| - 1];
      assert times == init + [times[|times| - 1]];
      RegisterManySplit(st, chatId, init, [times[|times| - 1]]);
      FewAttemptsNoBlock(st, chatId, init);
      RegisterManyCounts(st, chatId, init);
    }
  }

  /** The tenth invalid attempt of a fresh chat blocks it for one hour from
      that attempt; the nine before it do not. */
  lemma TenthAttemptBlocks(st: State, chatId: int, times: seq<int>, now: int)
    requires chatId !in st.invalid && |times| == MaxInvalidAttempts
    ensures BlockedUntil(RegisterMany(st, chatId, times[..9]), chatId) == None
    ensures BlockedUntil(RegisterMany(st, chatId, times), chatId) == Some(times[9] + BlockMs)
    ensures times[9] + BlockMs != 0 && now < times[9] + BlockMs ==>
      IsBlocked(RegisterMany(st, chatId, times), chatId, now).reply
  {
    var init := times[..9];
    FewAttemptsNoBlock(st, chatId, init);
    RegisterManyCounts(st, chatId, init);
    assert times == init + [times[9]];
    RegisterManySplit(st, chatId, init, [times[9]]);
    AttemptAfterNineBlocks(RegisterMany(st, chatId, init), chatId, times[9]);
  }

  /** One more attempt after nine sets the block to one hour from it. */
  lemma AttemptAfterNineBlocks(s9: State, chatId: int, t: int)
    requires Attempts(s9, chatId) == MaxInvalidAttempts - 1
    ensures BlockedUntil(RegisterMany(s9, chatId, [t]), chatId) == Some(t + BlockMs)
  {
    var last := RegisterInvalidAttempt(s9, chatId, t);
    assert RegisterMany(s9, chatId, [t]) == RegisterMany(last.state, chatId, []) by {
      assert [t][1..] == [];
    }
    assert last.reply == BlockedNow;
  }

  // ---------------------------------------------------------------------
  // Language
  // ---------------------------------------------------------------------

  /** `resolveLanguage`: a stored choice wins; otherwise English when the
      client language starts with `en`, else Russian, and the choice is
      stored. */
  function ResolveLanguage(st: State, chatId: int, userLanguage: Option<string>): (r: Outcome<Language>)
    ensures chatId in st.languages ==> r == Outcome(st, st.languages[chatId])
    ensures chatId !in st.languages ==> r.state == st.(languages := st.languages[chatId := r.reply])
    ensures chatId !in st.languages ==>
      (r.reply == En <==> userLanguage.Some? && StartsWith(userLanguage.value, "en"))
  {
    if chatId in st.languages then Outcome(st, st.languages[chatId])
    else if userLanguage.Some? && StartsWith(userLanguage.value, "en") then
      Outcome(st.(languages := st.languages[chatId := En]), En)
    else Outcome(st.(languages := st.languages[chatId := Ru]), Ru)
  }

  /** The first resolution sticks: later ones answer the same whatever the
      client reports, and change nothing. */
  lemma LanguageSticks(st: State, chatId: int, first: Option<string>, later: Option<string>)
    ensures var r1 := ResolveLanguage(st, chatId, first);
      ResolveLanguage(r1.state, chatId, later) == Outcome(r1.state, r1.reply)
  {
  }

  // ---------------------------------------------------------------------
  // Commands and templates
  // ---------------------------------------------------------------------

  datatype Action = Add | Delete

  function ActionName(a: Action): string {
    match a
    case Add => "ADD"
    case Delete => "DELETE"
  }

  /** `buildCommand(action, uuid)`: `ACTION:uuid`. */
  function BuildCommand(a: Action, uuid: string): (r: string)
    ensures StartsWith(r, ActionName(a) + ":") && r[|ActionName(a)| + 1..] == uuid
  {
    ActionName(a) + ":" + uuid
  }

  /** `extractUuid`: on the trimmed text, the regex `^[^:]+:\s*(.+)$` needs a
      non-empty prefix before the first `:` and a single-line rest; the
      capture, with leading white space dropped and trimmed, is the uuid. */
  function ExtractUuid(text: string): (r: Option<string>)
    ensures r.Some? ==> |r.value| > 0 && SingleLine(r.value) && Trim(r.value) == r.value
  {
    var t := Trim(text);
    match CharIndex(t, ':')
    case None => None
    case Some(i) =>
      if i == 0 then None
      else
        var capture := TrimStart(t[i + 1..]);
        if |capture| == 0 || !SingleLine(capture) then None
        else
          var u := Trim(capture);
          if |u| == 0 then None
          else
            TrimSingleLine(capture);
            TrimIdempotent(capture);
            Some(u)
  }

  /** The uuid a command was built from comes back out of it, for every
      non-empty, trimmed, single-line uuid. */
  lemma ExtractBuildRoundTrip(a: Action, uuid: string)
    requires |uuid| > 0 && Trim(uuid) == uuid && SingleLine(uuid)
    ensures ExtractUuid(BuildCommand(a, uuid)) == Some(uuid)
  {
    assert !IsSpace(uuid[0]) && !IsSpace(uuid[|uuid| - 1]) by { TrimSpec(uuid); }
    var name := ActionName(a);
    var cmd := BuildCommand(a, uuid);
    assert cmd == name + [':'] + uuid;
    assert Trim(cmd) == cmd by {
      assert cmd[0] == name[0];
      assert cmd[|cmd| - 1] == uuid[|uuid| - 1];
      TrimNoEdges(cmd);
    }
    assert CharIndex(cmd, ':') == Some(|name|) by { CharIndexAfter(name, ':', uuid); }
    assert cmd[|name| + 1..] == uuid;
    assert TrimStart(uuid) == uuid;
  }

  /** A hexadecimal digit, in either case. */
  predicate IsHex(c: char) {
    '0' <= c <= '9' || 'a' <= LowerChar(c) <= 'f'
  }

  /** The positions of the four dashes in the 8-4-4-4-12 layout. */
  predicate DashAt(i: int) {
    i == 8 || i == 13 || i == 18 || i == 23
  }

  /** Every digit position holds `c`, in either case. */
  predicate Filled(s: string, c: char) {
    forall i :: 0 <= i < |s| && !DashAt(i) ==> LowerChar(s[i]) == c
  }

  /** The `uuid` package's `validate`: the 8-4-4-4-12 hexadecimal layout
      with a version digit 1-8 and variant 8, 9, a or b, or the nil and max
      uuids; letters in either case. */
  predicate IsUuid(s: string) {
    |s| == 36 && s[8] == '-' && s[13] == '-' && s[18] == '-' && s[23] == '-'
    && (forall i :: 0 <= i < 36 && !DashAt(i) ==> IsHex(s[i]))
    && (('1' <= s[14] <= '8' && LowerChar(s[19]) in {'8', '9', 'a', 'b'})
        || Filled(s, '0') || Filled(s, 'f'))
  }

  /** The system project's uuid is not a valid uuid, so a chat command
      naming it always counts as an invalid attempt. */
  lemma SystemUuidInvalid()
    ensures !IsUuid(SystemProjectUuid)
  {
  }

  /** The first `}}` at or after `j` in `u`, provided no line terminator
      comes before it (the lazy `(.*?)` cannot cross one). */
  function CloseFrom(u: string, j: nat): (r: Option<nat>)
    requires j <= |u|
    ensures r.Some? ==> j <= r.value && r.value + 2 <= |u| && u[r.value..r.value + 2] == "}}"
    ensures r.Some? ==> SingleLine(u[j..r.value])
    decreases |u| - j
  {
    if StartsWith(u[j..], "}}") then
      assert u[j..][..2] == u[j..j + 2];
      Some(j)
    else if j == |u| || IsLineTerminator(u[j]) then None
    else
      var r := CloseFrom(u, j + 1);
      if r.Some? then
        assert u[j..r.value] == [u[j]] + u[j + 1..r.value];
        r
      else r
  }

  /** `values[key] !== undefined ? String(value) : ''`. */
  function Lookup(values: map<string, string>, key: string): string {
    if key in values then values[key] else ""
  }

  /** `interpolate`: every `{{key}}` (shortest match, key trimmed, on one
      line) is replaced by its value or by `''`; the replacement text is not
      scanned again; all other characters are kept. */
  function Interpolate(t: string, values: map<string, string>): (r: string)
    decreases |t|
  {
    if |t| == 0 then ""
    else if |t| >= 2 && t[0] == '{' && t[1] == '{' then
      match CloseFrom(t, 2)
      case Some(j) => Lookup(values, Trim(t[2..j])) + Interpolate(t[j + 2..], values)
      case None => [t[0]] + Interpolate(t[1..], values)
    else [t[0]] + Interpolate(t[1..], values)
  }

  /** The closing braces right after a brace-free key are the ones found. */
  lemma {:induction false} CloseAfterKey(key: string, rest: string, j: nat)
    requires 2 <= j <= |key| + 2
    requires PlainKey(key)
    ensures CloseFrom("{{" + key + "}}" + rest, j) == Some(|key| + 2)
    decreases |key| + 2 - j
  {
    var u := "{{" + key + "}}" + rest;
    if j == |key| + 2 {
      assert u[j..][..2] == "}}";
    } else {
      assert u[j] == key[j - 2];
      assert !StartsWith(u[j..], "}}") by { assert u[j..][0] == key[j - 2]; }
      CloseAfterKey(key, rest, j + 1);
    }
  }

  /** Text in which no placeholder can start. */
  predicate NoOpenBrace(s: string) {
    forall i :: 0 <= i < |s| ==> s[i] != '{'
  }

  /** A key that a placeholder can hold whole: one line, no `}`. */
  predicate PlainKey(key: string) {
    forall i :: 0 <= i < |key| ==> key[i] != '}' && !IsLineTerminator(key[i])
  }

  /** A placeholder at the very start is filled in. */
  lemma InterpolateLeading(key: string, post: string, values: map<string, string>)
    requires PlainKey(key)
    ensures Interpolate("{{" + key + "}}" + post, values) == Lookup(values, Trim(key)) + Interpolate(post, values)
  {
    var t := "{{" + key + "}}" + post;
    assert |t| >= 2 && t[0] == '{' && t[1] == '{';
    CloseAfterKey(key, post, 2);
    assert Interpolate(t, values) == Lookup(values, Trim(t[2..|key| + 2])) + Interpolate(t[|key| + 4..], values);
    assert t[2..|key| + 2] == key;
    assert t[|key| + 4..] == post;
  }

  /** A character other than `{` is copied. */
  lemma InterpolateCopies(c: char, rest: string, values: map<string, string>)
    requires c != '{'
    ensures Interpolate([c] + rest, values) == [c] + Interpolate(rest, values)
  {
    var t := [c] + rest;
    assert t[0] == c;
    assert t[1..] == rest;
  }

  /** A first character other than `{` is copied. */
  lemma InterpolateFirstCopied(t: string, values: map<string, string>)
    requires |t| > 0 && t[0] != '{'
    ensures Interpolate(t, values) == [t[0]] + Interpolate(t[1..], values)
  {
  }

  lemma AppendAssoc(a: string, b: string, c: string)
    ensures a + (b + c) == (a + b) + c
  {
  }

  /** Text without `{` is copied in front of whatever follows. */
  lemma InterpolatePrefix(pre: string, rest: string, values: map<string, string>)
    requires NoOpenBrace(pre)
    ensures Interpolate(pre + rest, values) == pre + Interpolate(rest, values)
  {
    var t := pre + rest;
    CopiedPrefix(t, |pre|, values);
    assert t[..|pre|] == pre && t[|pre|..] == rest;
  }

  /** The first `n` characters of a text, none of them `{`, are copied. */
  lemma {:induction false} CopiedPrefix(t: string, n: nat, values: map<string, string>)
    requires n <= |t| && forall i :: 0 <= i < n ==> t[i] != '{'
    ensures Interpolate(t, values) == t[..n] + Interpolate(t[n..], values)
    decreases n
  {
    if n == 0 {
      assert t[..0] == [] && t[0..] == t;
    } else {
      var u := t[1..];
      InterpolateFirstCopied(t, values);
      assert Interpolate(u, values) == u[..n - 1] + Interpolate(t[n..], values) by {
        assert forall i :: 0 <= i < n - 1 ==> u[i] == t[i + 1];
        CopiedPrefix(u, n - 1, values);
        assert u[n - 1..] == t[n..];
      }
      assert t[..n] == [t[0]] + u[..n - 1];
      AppendAssoc([t[0]], u[..n - 1], Interpolate(t[n..], values));
    }
  }

  /** One placeholder: text before it without `{` is copied, the trimmed key
      is looked up, and interpolation carries on after the closing braces. */
  lemma InterpolatePlaceholder(pre: string, key: string, post: string, values: map<string, string>)
    requires NoOpenBrace(pre) && PlainKey(key)
    ensures Interpolate(pre + "{{" + key + "}}" + post, values) == pre + Lookup(values, Trim(key)) + Interpolate(post, values)
  {
    var rest := "{{" + key + "}}" + post;
    assert pre + "{{" + key + "}}" + post == pre + rest;
    InterpolatePrefix(pre, rest, values);
    InterpolateLeading(key, post, values);
  }

  // ---------------------------------------------------------------------
  // Subscriptions through chat messages
  // ---------------------------------------------------------------------

  /** The effect of one chat message: new notifier state, new projects,
      the replies sent back and the entries written, in order. */
  datatype Subscription = Subscription(state: State, projects: map<string, Project>, replies: seq<Reply>, logged: seq<Logged>)

  /** The project key a command names: its uuid must be extracted, pass
      validation and be known. */
  function CommandKey(projects: map<string, Project>, text: string): (r: Option<string>)
    ensures r.Some? <==> ExtractUuid(text).Some? && IsUuid(ExtractUuid(text).value) && ExtractUuid(text).value in projects
    ensures r.Some? ==> r == ExtractUuid(text) && r.value in projects
  {
    var e := ExtractUuid(text);
    if e.Some? && IsUuid(e.value) && e.value in projects then e else None
  }

  /** Which command a text names depends only on which projects exist. */
  lemma CommandKeySameKeys(p1: map<string, Project>, p2: map<string, Project>, text: string)
    requires p1.Keys == p2.Keys
    ensures CommandKey(p1, text) == CommandKey(p2, text)
  {
  }

  function InvalidAttempt(st: State, projects: map<string, Project>, chatId: int, now: int): (r: Subscription)
    ensures r.projects == projects && Attempts(r.state, chatId) == Attempts(st, chatId) + 1
    ensures r.replies == [AddInvalid] || r.replies == [BlockedNow]
    ensures r.logged == [Logged(if r.replies == [BlockedNow] then "telegram_user_blocked" else "telegram_invalid_uuid",
                                IntToString(chatId), "")]
  {
    var reg := RegisterInvalidAttempt(st, chatId, now);
    Subscription(reg.state, projects, [reg.reply], [reg.logged])
  }

  function WithRecipients(p: Project, rs: seq<Recipient>): (r: Project)
    ensures r.telegram.recipients == rs
    ensures r.(telegram := p.telegram) == p && r.telegram.(recipients := p.telegram.recipients) == p.telegram
  {
    p.(telegram := p.telegram.(recipients := rs))
  }

  /** A change to the project collection and the reply that reports it. */
  datatype Change = Change(projects: map<string, Project>, reply: Reply)

  /** Subscribing chat `c` to project `u`: the system project is refused, a
      chat already listed is told so, any other chat is appended with an
      empty tag list. Only project `u` can change, and only its recipients. */
  function AttachTo(projects: map<string, Project>, u: string, c: string): (r: Change)
    requires u in projects
    ensures r.projects.Keys == projects.Keys
    ensures forall k :: k in projects && k != u ==> r.projects[k] == projects[k]
    ensures r.projects[u].telegram.(recipients := projects[u].telegram.recipients) == projects[u].telegram
    ensures r.projects[u].(telegram := projects[u].telegram) == projects[u]
    ensures projects[u].uuid == SystemProjectUuid <==> r.reply == SubscribeForbidden
    ensures r.projects[u] != projects[u] <==> r.reply.AddSuccess?
    ensures r.reply.AddExists? <==> projects[u].uuid != SystemProjectUuid && c in ChatIds(projects[u].telegram.recipients)
    ensures r.reply.AddSuccess? ==> r.projects[u].telegram.recipients == projects[u].telegram.recipients + [Recipient(c, [])]
    ensures projects[u].uuid != SystemProjectUuid ==> c in ChatIds(r.projects[u].telegram.recipients)
  {
    var p := projects[u];
    if p.uuid == SystemProjectUuid then Change(projects, SubscribeForbidden)
    else if c in ChatIds(p.telegram.recipients) then Change(projects, AddExists(p.name, p.uuid))
    else
      var rs := p.telegram.recipients + [Recipient(c, [])];
      assert ChatIds(rs)[|rs| - 1] == c;
      Change(projects[u := WithRecipients(p, rs)], AddSuccess(p.name, p.uuid))
  }

  /** Unsubscribing chat `c` from project `u`: every entry with that chat id
      goes, and the reply says "missing" exactly when there was none. */
  function DetachFrom(projects: map<string, Project>, u: string, c: string): (r: Change)
    requires u in projects
    ensures r.projects.Keys == projects.Keys
    ensures forall k :: k in projects && k != u ==> r.projects[k] == projects[k]
    ensures r.projects[u].telegram.(recipients := projects[u].telegram.recipients) == projects[u].telegram
    ensures r.projects[u].(telegram := projects[u].telegram) == projects[u]
    ensures r.projects[u].telegram.recipients == WithoutChat(projects[u].telegram.recipients, c)
    ensures c !in ChatIds(r.projects[u].telegram.recipients)
    ensures r.reply == DeleteMissing <==> c !in ChatIds(projects[u].telegram.recipients)
    ensures r.reply != DeleteMissing ==> r.reply == DeleteSuccess(projects[u].name, projects[u].uuid)
  {
    var p := projects[u];
    var kept := WithoutChat(p.telegram.recipients, c);
    if |kept| == |p.telegram.recipients| then Change(projects, DeleteMissing)
    else Change(projects[u := WithRecipients(p, kept)], DeleteSuccess(p.name, p.uuid))
  }

  /** Attaching twice is attaching once. */
  lemma AttachIdempotent(projects: map<string, Project>, u: string, c: string)
    requires u in projects
    ensures var once := AttachTo(projects, u, c).projects;
      AttachTo(once, u, c).projects == once
  {
  }

  /** Detaching right after a successful attach gives the original
      collection back. */
  lemma DetachUndoesAttach(projects: map<string, Project>, u: string, c: string)
    requires u in projects && AttachTo(projects, u, c).reply.AddSuccess?
    ensures DetachFrom(AttachTo(projects, u, c).projects, u, c).projects == projects
  {
    var p := projects[u];
    var rs := p.telegram.recipients + [Recipient(c, [])];
    var w := WithRecipients(p, rs);
    AttachAppends(projects, u, c);
    WithoutChatAppend(p.telegram.recipients, c);
    DetachRemoves(projects[u := w], u, c, p.telegram.recipients);
    assert WithRecipients(w, p.telegram.recipients) == p;
    RestoreEntry(projects, u, w);
  }

  /** Putting an entry's old value back undoes the update. */
  lemma RestoreEntry<K, V>(m: map<K, V>, k: K, v: V)
    requires k in m
    ensures m[k := v][k := m[k]] == m
  {
  }

  /** A successful attach appends the chat, which was not listed before. */
  lemma AttachAppends(projects: map<string, Project>, u: string, c: string)
    requires u in projects && AttachTo(projects, u, c).reply.AddSuccess?
    ensures c !in ChatIds(projects[u].telegram.recipients)
    ensures AttachTo(projects, u, c).projects
      == projects[u := WithRecipients(projects[u], projects[u].telegram.recipients + [Recipient(c, [])])]
  {
  }

  /** A detach that removes something stores the remaining recipients. */
  lemma DetachRemoves(projects: map<string, Project>, u: string, c: string, kept: seq<Recipient>)
    requires u in projects && kept == WithoutChat(projects[u].telegram.recipients, c)
    requires |kept| != |projects[u].telegram.recipients|
    ensures DetachFrom(projects, u, c).projects == projects[u := WithRecipients(projects[u], kept)]
  {
  }

  /** Removing a chat from a list with that chat appended at the end gives
      the list without the chat. */
  lemma WithoutChatAppend(rs: seq<Recipient>, c: string)
    requires c !in ChatIds(rs)
    ensures WithoutChat(rs + [Recipient(c, [])], c) == rs
  {
    assert forall i :: 0 <= i < |rs| ==> ChatIds(rs)[i] == rs[i].chatId;
    WithoutAbsentAppend(rs, Recipient(c, []), c);
  }

  lemma {:induction false} WithoutAbsentAppend(rs: seq<Recipient>, x: Recipient, c: string)
    requires x.chatId == c && forall i :: 0 <= i < |rs| ==> rs[i].chatId != c
    ensures WithoutChat(rs + [x], c) == rs
    decreases |rs|
  {
    var l := rs + [x];
    if |rs| == 0 {
      assert l[1..] == [];
    } else {
      var tail := rs[1..];
      calc {
        WithoutChat(l, c);
        == { assert l[0] == rs[0] && l[1..] == tail + [x]; assert rs[0].chatId != c; }
        [rs[0]] + WithoutChat(tail + [x], c);
        == { assert forall i :: 0 <= i < |tail| ==> tail[i] == rs[i + 1]; WithoutAbsentAppend(tail, x, c); }
        [rs[0]] + tail;
        == rs;
      }
    }
  }

  /** The entry an attach or a detach writes, named by its reply. */
  function SubscriptionAction(reply: Reply): string {
    match reply
    case SubscribeForbidden => "telegram_subscription_forbidden_logger_core"
    case AddExists(_, _) => "telegram_subscription_exists"
    case AddSuccess(_, _) => "telegram_subscription_added"
    case DeleteMissing => "telegram_subscription_missing"
    case DeleteSuccess(_, _) => "telegram_subscription_removed"
    case _ => ""
  }

  /** `processAttach`: an unusable uuid counts as an invalid attempt; any
      other outcome clears the chat's counter, attaches the chat and writes
      one entry about the chat and the project. */
  function ProcessAttach(st: State, projects: map<string, Project>, chatId: int, text: string, now: int): (r: Subscription)
    ensures CommandKey(projects, text).None? ==> r == InvalidAttempt(st, projects, chatId, now)
    ensures CommandKey(projects, text).Some? ==>
      var u := CommandKey(projects, text).value;
      var ch := AttachTo(projects, u, IntToString(chatId));
      r == Subscription(ResetInvalid(st, chatId), ch.projects, [ch.reply],
                        [Logged(SubscriptionAction(ch.reply), IntToString(chatId), projects[u].uuid)])
  {
    var key := CommandKey(projects, text);
    if key.None? then InvalidAttempt(st, projects, chatId, now)
    else
      var ch := AttachTo(projects, key.value, IntToString(chatId));
      Subscription(ResetInvalid(st, chatId), ch.projects, [ch.reply],
                   [Logged(SubscriptionAction(ch.reply), IntToString(chatId), projects[key.value].uuid)])
  }

  /** `processDetach`: as `processAttach`, with a detach. */
  function ProcessDetach(st: State, projects: map<string, Project>, chatId: int, text: string, now: int): (r: Subscription)
    ensures CommandKey(projects, text).None? ==> r == InvalidAttempt(st, projects, chatId, now)
    ensures CommandKey(projects, text).Some? ==>
      var u := CommandKey(projects, text).value;
      var ch := DetachFrom(projects, u, IntToString(chatId));
      r == Subscription(ResetInvalid(st, chatId), ch.projects, [ch.reply],
                        [Logged(SubscriptionAction(ch.reply), IntToString(chatId), projects[u].uuid)])
  {
    var key := CommandKey(projects, text);
    if key.None? then InvalidAttempt(st, projects, chatId, now)
    else
      var ch := DetachFrom(projects, key.value, IntToString(chatId));
      Subscription(ResetInvalid(st, chatId), ch.projects, [ch.reply],
                   [Logged(SubscriptionAction(ch.reply), IntToString(chatId), projects[key.value].uuid)])
  }

  /** Every subscription command writes exactly one entry about its chat,
      and a usable one names the project and says what happened to it. */
  lemma SubscribeLoggedOnce(st: State, projects: map<string, Project>, chatId: int, text: string, now: int)
    ensures var r := ProcessAttach(st, projects, chatId, text, now);
      |r.logged| == 1 && r.logged[0].chatId == IntToString(chatId)
      && (CommandKey(projects, text).Some? ==>
            var u := CommandKey(projects, text).value;
            r.logged[0].projectUuid == projects[u].uuid
            && (r.logged[0].action == "telegram_subscription_added" <==> r.projects != projects)
            && (r.logged[0].action == "telegram_subscription_forbidden_logger_core" <==> projects[u].uuid == SystemProjectUuid))
  {
    if CommandKey(projects, text).Some? {
      var u := CommandKey(projects, text).value;
      var ch := AttachTo(projects, u, IntToString(chatId));
      AttachChangesIff(projects, u, IntToString(chatId));
      ActionNamesReply(ch.reply);
    }
  }

  /** An attach changes the collection exactly when it reports success. */
  lemma AttachChangesIff(projects: map<string, Project>, u: string, c: string)
    requires u in projects
    ensures var ch := AttachTo(projects, u, c); ch.projects != projects <==> ch.reply.AddSuccess?
  {
    var ch := AttachTo(projects, u, c);
    if ch.reply.AddSuccess? {
      assert ch.projects[u] != projects[u];
    } else {
      assert ch.projects == projects by {
        assert ch.projects.Keys == projects.Keys;
        assert forall k :: k in projects ==> ch.projects[k] == projects[k];
      }
    }
  }

  /** The "added" and "forbidden" entries name exactly those replies. */
  lemma ActionNamesReply(reply: Reply)
    ensures SubscriptionAction(reply) == "telegram_subscription_added" <==> reply.AddSuccess?
    ensures SubscriptionAction(reply) == "telegram_subscription_forbidden_logger_core" <==> reply.SubscribeForbidden?
  {
  }

  /** Sending the same attach message twice changes the projects once. */
  lemma ProcessAttachTwice(st: State, projects: map<string, Project>, chatId: int, text: string, now: int, later: int)
    ensures var r1 := ProcessAttach(st, projects, chatId, text, now);
      ProcessAttach(r1.state, r1.projects, chatId, text, later).projects == r1.projects
  {
    var r1 := ProcessAttach(st, projects, chatId, text, now);
    CommandKeySameKeys(projects, r1.projects, text);
    if CommandKey(projects, text).Some? {
      AttachIdempotent(projects, CommandKey(projects, text).value, IntToString(chatId));
    }
  }

  /** `/^add:/i` and `/^delete:/i`: an ASCII case-insensitive prefix. */
  predicate StartsWithIgnoreCase(s: string, p: string) {
    |p| <= |s| && Lower(s[..|p|]) == Lower(p)
  }

  /** `text.split(' ').slice(1).join(' ').trim()`: what follows `/start`. */
  function StartPayload(text: string): string {
    Trim(Join(Split(text, ' ')[1..], " "))
  }

  /** The `/start` payload is the text after the first space, trimmed, or
      empty when there is no space. */
  lemma StartPayloadAfterSpace(text: string)
    ensures ' ' !in text ==> StartPayload(text) == ""
    ensures ' ' in text ==> StartPayload(text) == Trim(text[CharIndex(text, ' ').value + 1..])
  {
    if ' ' in text {
      var i := CharIndex(text, ' ').value;
      assert Split(text, ' ')[1..] == Split(text[i + 1..], ' ');
      JoinSplit(text[i + 1..], ' ');
    } else {
      assert Split(text, ' ')[1..] == [];
    }
  }

  /** A slash command; `/start` carries an optional attach or detach. Each
      known command writes one entry named after it, `/start` before its
      payload is handled and the others after they answer; an unknown
      command writes nothing. */
  function HandleCommand(st: State, projects: map<string, Project>, chatId: int, text: string, now: int): (r: Subscription)
    ensures Split(text, '@')[0] != "/start" ==> r.state == st && r.projects == projects && |r.replies| <= 1
    ensures Split(text, '@')[0] == "/subscriptions" ==>
      r.logged == [Logged("telegram_command_subscriptions", IntToString(chatId), "")]
    ensures Split(text, '@')[0] == "/info" ==> r.logged == [Logged("telegram_command_info", IntToString(chatId), "")]
    ensures Split(text, '@')[0] == "/language" ==> r.logged == [Logged("telegram_command_language", IntToString(chatId), "")]
    ensures var command := Split(text, '@')[0];
      command == "/start" ==> |r.logged| >= 1 && r.logged[0] == Logged("telegram_command_start", IntToString(chatId), "")
    ensures var command := Split(text, '@')[0];
      command !in ["/subscriptions", "/info", "/language", "/start"] ==> r.logged == [] && r.replies == []
  {
    var command := Split(text, '@')[0];
    var c := IntToString(chatId);
    if command == "/subscriptions" then Subscription(st, projects, [SubscriptionList], [Logged("telegram_command_subscriptions", c, "")])
    else if command == "/info" then Subscription(st, projects, [InfoMessage], [Logged("telegram_command_info", c, "")])
    else if command == "/language" then Subscription(st, projects, [LanguageMenu], [Logged("telegram_command_language", c, "")])
    else if command == "/start" then
      var start := Logged("telegram_command_start", c, "");
      var payload := StartPayload(text);
      if payload == "" then Subscription(st, projects, [], [start])
      else if StartsWithIgnoreCase(payload, "add:") then
        var a := ProcessAttach(st, projects, chatId, payload, now);
        a.(logged := [start] + a.logged)
      else if StartsWithIgnoreCase(payload, "delete:") then
        var d := ProcessDetach(st, projects, chatId, payload, now);
        d.(logged := [start] + d.logged)
      else Subscription(st, projects, [InvalidFormat], [start])
    else Subscription(st, projects, [], [])
  }

  /** An incoming chat message; an empty `text` stands for none. */
  datatype Incoming = Incoming(chatId: int, languageCode: Option<string>, text: string)

  /** `handleMessage`: nothing without a bot or text; the language is
      resolved; a blocked chat is told so once, every message it sends is
      logged, and nothing else happens; otherwise the trimmed text is routed
      to a command, an attach or a detach. */
  function HandleMessage(st: State, projects: map<string, Project>, m: Incoming, now: int): (r: Subscription)
    ensures !st.hasBot || m.text == "" ==> r == Subscription(st, projects, [], [])
    ensures st.hasBot && m.text != "" && IsBlocked(ResolveLanguage(st, m.chatId, m.languageCode).state, m.chatId, now).reply ==>
      r.projects == projects && Attempts(r.state, m.chatId) == Attempts(st, m.chatId)
      && (r.replies == [StillBlocked] <==> m.chatId !in st.notifiedBlock)
      && m.chatId in r.state.notifiedBlock
      && r.logged == [Logged("telegram_message_blocked", IntToString(m.chatId), "")]
  {
    if !st.hasBot || m.text == "" then Subscription(st, projects, [], [])
    else
      var lang := ResolveLanguage(st, m.chatId, m.languageCode);
      var text := Trim(m.text);
      var blocked := IsBlocked(lang.state, m.chatId, now);
      var s := blocked.state;
      if blocked.reply then
        var blockedLog := [Logged("telegram_message_blocked", IntToString(m.chatId), "")];
        if m.chatId !in s.notifiedBlock then
          Subscription(s.(notifiedBlock := s.notifiedBlock + {m.chatId}), projects, [StillBlocked], blockedLog)
        else Subscription(s, projects, [], blockedLog)
      else if StartsWith(text, "/") then HandleCommand(s, projects, m.chatId, text, now)
      else if StartsWithIgnoreCase(text, "add:") then ProcessAttach(s, projects, m.chatId, text, now)
      else if StartsWithIgnoreCase(text, "delete:") then ProcessDetach(s, projects, m.chatId, text, now)
      else Subscription(s, projects, [], [])
  }

  /** A blocked chat cannot change any subscription, however often it
      writes. */
  lemma BlockedChatChangesNothing(st: State, projects: map<string, Project>, m: Incoming, now: int)
    requires BlockedUntil(st, m.chatId).Some? && BlockedUntil(st, m.chatId).value != 0
    requires now < BlockedUntil(st, m.chatId).value
    ensures HandleMessage(st, projects, m, now).projects == projects
  {
  }

  /** A blocked chat is told that it is blocked only once, but every message
      it sends while blocked is logged. */
  lemma BlockedChatLoggedEachTime(st: State, projects: map<string, Project>, m1: Incoming, m2: Incoming, t1: int, t2: int)
    requires st.hasBot && m1.text != "" && m2.text != "" && m1.chatId == m2.chatId
    requires BlockedUntil(st, m1.chatId).Some? && BlockedUntil(st, m1.chatId).value != 0
    requires t1 < BlockedUntil(st, m1.chatId).value && t2 < BlockedUntil(st, m1.chatId).value
    ensures var r1 := HandleMessage(st, projects, m1, t1);
      var r2 := HandleMessage(r1.state, r1.projects, m2, t2);
      r2.replies == [] && r2.projects == projects
      && r1.logged == [Logged("telegram_message_blocked", IntToString(m1.chatId), "")] && r2.logged == r1.logged
  {
    var r1 := HandleMessage(st, projects, m1, t1);
    assert BlockedUntil(ResolveLanguage(r1.state, m2.chatId, m2.languageCode).state, m2.chatId) == BlockedUntil(st, m1.chatId);
  }
}
