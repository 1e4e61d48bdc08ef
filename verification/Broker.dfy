/**
 * The coordination service's object for one host: it forwards redemptions over the host's socket
 * and answers each waiting visitor from a response, a timeout, a closed socket or a failed send.
 */
module Broker {
  import opened Bytes
  import Window = SlidingWindow

  type RequestId = string

  const AUDIT_RETENTION: int := 7 * 24 * 3600

  datatype Status = Waiting | Issued | Rejected | Malformed | TimedOut | Dropped | Late

  datatype Reply = FromHost(code: int, body: bytes) | Internal | Offline | NoAnswer

  /** A redeem.response frame: its status if that is a whole number, its body if that decodes. */
  datatype Frame = Frame(code: Option<int>, body: Option<bytes>)

  /** A waiting visitor: the connect time of the socket the request went out on. */
  datatype Waiter = Waiter(socketId: int)

  datatype Audit = Audit(requestedAt: int, completedAt: Option<int>, status: Status)

  /** A frame the service will not relay becomes an internal error; the waiter is answered all the same. */
  function HostResponse(f: Frame): (Reply, Status) {
    if f.code.None? || f.code.value < 200 || f.code.value > 599 || f.code.value in {204, 205, 304} || f.body.None? then (Internal, Malformed)
    else (FromHost(f.code.value, f.body.value), if f.code.value == 200 then Issued else Rejected)
  }

  /**
   * The object's memory and tables, and history: the replies each forwarded request got, the socket
   * it went out on, and the connect time of every socket ever accepted.
   */
  datatype B = B(
    pending: map<RequestId, Waiter>, timers: set<RequestId>, rows: map<RequestId, Audit>, attempts: seq<int>,
    answers: map<RequestId, seq<Reply>>, via: map<RequestId, nat>, connected: map<nat, int>)

  const EMPTY: B := B(map[], {}, map[], [], map[], map[], map[])

  function Stamped(rows: map<RequestId, Audit>, id: RequestId, status: Status, now: int): map<RequestId, Audit> {
    if id in rows then rows[id := rows[id].(completedAt := Some(now), status := status)] else rows
  }

  function Settled(b: B, id: RequestId, status: Status, reply: Reply, now: int): B
    requires b.pending.Keys <= b.answers.Keys
  {
    if id !in b.pending then b
    else
      b.(pending := b.pending - {id}, timers := b.timers - {id}, rows := Stamped(b.rows, id, status, now),
         answers := b.answers[id := b.answers[id] + [reply]])
  }

  function Received(b: B, id: RequestId, f: Frame, now: int): B
    requires b.pending.Keys <= b.answers.Keys
  {
    if id !in b.pending then
      if id in b.rows && b.rows[id].status.TimedOut? then b.(rows := b.rows[id := b.rows[id].(status := Late)]) else b
    else Settled(b, id, HostResponse(f).1, HostResponse(f).0, now)
  }

  /** The requests a close of a socket with this connect time settles. */
  function Hit(b: B, at: int): set<RequestId> {
    set id | id in b.pending && b.pending[id].socketId == at
  }

  function AllDropped(b: B, ids: set<RequestId>, now: int): B
    requires ids <= b.pending.Keys <= b.answers.Keys
  {
    b.(pending := b.pending - ids, timers := b.timers - ids,
       rows := map id | id in b.rows :: if id in ids then b.rows[id].(completedAt := Some(now), status := Dropped) else b.rows[id],
       answers := map id | id in b.answers :: if id in ids then b.answers[id] + [Offline] else b.answers[id])
  }

  function Enqueued(b: B, id: RequestId, h: nat, now: int): B
    requires h in b.connected
  {
    b.(pending := b.pending[id := Waiter(b.connected[h])], timers := b.timers + {id},
       rows := b.rows[id := Audit(now, None, Waiting)], answers := b.answers[id := []], via := b.via[id := h])
  }

  /** The capped end of a redemption: audit row, waiter and timer, then the send. */
  function Redeemed(b: B, id: RequestId, h: nat, now: int, clock: int, sendOk: bool): B
    requires b.pending.Keys <= b.answers.Keys && h in b.connected
  {
    var (left, ok) := Window.Attempted(b.attempts, now);
    var b' := b.(attempts := left);
    if !ok then b'
    else if sendOk then Enqueued(b', id, h, now)
    else Settled(Enqueued(b', id, h, now), id, Dropped, Offline, clock)
  }

  function Swept(b: B, now: int): B {
    b.(rows := map id | id in b.rows && b.rows[id].requestedAt >= now - AUDIT_RETENTION :: b.rows[id],
       attempts := Window.Trimmed(b.attempts, now - Window.SPAN))
  }

  datatype Event =
    | Connect(h: nat, at: int)
    | Redeem(id: RequestId, h: nat, now: int, clock: int, sendOk: bool)
    | Message(id: RequestId, frame: Frame, clock: int)
    | Fire(id: RequestId, clock: int)
    | Close(h: nat, clock: int)
    | Alarm(now: int)

  /** Sockets and request ids are new each time; only an armed timer fires. */
  predicate Enabled(b: B, e: Event) {
    && b.pending.Keys <= b.answers.Keys
    && match e
       case Connect(h, _) => h !in b.connected
       case Redeem(id, h, _, _, _) => id !in b.answers && h in b.connected
       case Message(_, _, _) => true
       case Fire(id, _) => id in b.timers
       case Close(h, _) => h in b.connected
       case Alarm(_) => true
  }

  function Next(b: B, e: Event): B
    requires Enabled(b, e)
  {
    match e
    case Connect(h, at) => b.(connected := b.connected[h := at])
    case Redeem(id, h, now, clock, sendOk) => Redeemed(b, id, h, now, clock, sendOk)
    case Message(id, frame, clock) => Received(b, id, frame, clock)
    case Fire(id, clock) => Settled(b, id, TimedOut, NoAnswer, clock)
    case Close(h, clock) => AllDropped(b, Hit(b, b.connected[h]), clock)
    case Alarm(now) => Swept(b, now)
  }

  predicate ValidRun(b: B, events: seq<Event>)
    decreases |events|
  {
    events == [] || (Enabled(b, events[0]) && ValidRun(Next(b, events[0]), events[1..]))
  }

  function After(b: B, events: seq<Event>): B
    requires ValidRun(b, events)
    decreases |events|
  {
    if events == [] then b else After(Next(b, events[0]), events[1..])
  }

  // ---- Invariant

  /** The audit status is the one this reply is filed under, or its late form. */
  predicate Filed(status: Status, reply: Reply) {
    match reply
    case FromHost(code, _) => status == if code == 200 then Issued else Rejected
    case Internal => status == Malformed
    case Offline => status == Dropped
    case NoAnswer => status == TimedOut || status == Late
  }

  predicate RequestOk(b: B, id: RequestId)
    requires id in b.answers
  {
    && id in b.via && b.via[id] in b.connected
    && (id in b.pending ==> id in b.timers && b.answers[id] == [] && b.pending[id].socketId == b.connected[b.via[id]])
    && (id !in b.pending ==> id !in b.timers && |b.answers[id]| == 1)
    && (id in b.rows ==> if id in b.pending then b.rows[id].status == Waiting else Filed(b.rows[id].status, b.answers[id][0]))
  }

  predicate Inv(b: B) {
    && b.pending.Keys <= b.answers.Keys && b.timers <= b.answers.Keys && b.rows.Keys <= b.answers.Keys
    && forall id :: id in b.answers ==> RequestOk(b, id)
  }

  lemma EnqueuedKeepsInv(b: B, id: RequestId, h: nat, now: int)
    requires Inv(b) && id !in b.answers && h in b.connected
    ensures Inv(Enqueued(b, id, h, now))
  {
    var b' := Enqueued(b, id, h, now);
    forall i | i in b'.answers ensures RequestOk(b', i) {
      if i != id {
        assert RequestOk(b, i);
      }
    }
  }

  lemma SettledKeepsInv(b: B, id: RequestId, status: Status, reply: Reply, now: int)
    requires Inv(b) && Filed(status, reply)
    ensures Inv(Settled(b, id, status, reply, now))
  {
    var b' := Settled(b, id, status, reply, now);
    forall i | i in b'.answers ensures RequestOk(b', i) {
      assert RequestOk(b, i);
    }
  }

  lemma DroppedKeepsInv(b: B, ids: set<RequestId>, now: int)
    requires Inv(b) && ids <= b.pending.Keys
    ensures Inv(AllDropped(b, ids, now))
  {
    var b' := AllDropped(b, ids, now);
    forall i | i in b'.answers ensures RequestOk(b', i) {
      assert RequestOk(b, i);
    }
  }

  lemma StepKeepsInv(b: B, e: Event)
    requires Inv(b) && Enabled(b, e)
    ensures Inv(Next(b, e))
  {
    hide Settled, Enqueued, AllDropped, Window.Attempted, Window.Trimmed;
    match e
    case Redeem(id, h, now, clock, sendOk) =>
      var left := Window.Attempted(b.attempts, now).0;
      assert Inv(b.(attempts := left)) by { SameRequests(b, b.(attempts := left)); }
      EnqueuedKeepsInv(b.(attempts := left), id, h, now);
      SettledKeepsInv(Enqueued(b.(attempts := left), id, h, now), id, Dropped, Offline, clock);
    case Message(id, frame, clock) =>
      if id in b.pending {
        SettledKeepsInv(b, id, HostResponse(frame).1, HostResponse(frame).0, clock);
      } else {
        SameRequests(b, Next(b, e));
      }
    case Fire(id, clock) => SettledKeepsInv(b, id, TimedOut, NoAnswer, clock);
    case Close(h, clock) => DroppedKeepsInv(b, Hit(b, b.connected[h]), clock);
    case _ => SameRequests(b, Next(b, e));
  }

  /** Steps that answer nobody: at most rows go, or a timed-out row becomes a late one. */
  lemma SameRequests(b: B, b': B)
    requires Inv(b) && b'.pending == b.pending && b'.timers == b.timers && b'.answers == b.answers && b'.via == b.via
    requires forall h :: h in b.connected ==> h in b'.connected && b'.connected[h] == b.connected[h]
    requires forall id :: id in b'.rows ==>
      id in b.rows && (b'.rows[id] == b.rows[id] || (b.rows[id].status.TimedOut? && b'.rows[id].status.Late?))
    ensures Inv(b')
  {
    forall i | i in b'.answers ensures RequestOk(b', i) {
      assert RequestOk(b, i);
    }
  }

  lemma {:induction false} RunKeepsInv(b: B, events: seq<Event>)
    requires Inv(b) && ValidRun(b, events)
    ensures Inv(After(b, events))
    decreases |events|
  {
    hide Inv, Enabled, Next;
    if events != [] {
      StepKeepsInv(b, events[0]);
      RunKeepsInv(Next(b, events[0]), events[1..]);
    }
  }

  // ---- Theorems

  /** In every run a forwarded request is either waiting, unanswered and with its timer armed, or answered exactly once. */
  lemma AnsweredExactlyOnce(events: seq<Event>, id: RequestId)
    requires ValidRun(EMPTY, events) && id in After(EMPTY, events).answers
    ensures var b := After(EMPTY, events);
            if id in b.pending then b.answers[id] == [] && id in b.timers else |b.answers[id]| == 1 && id !in b.timers
  {
    hide Enabled, Next;
    RunKeepsInv(EMPTY, events);
    assert RequestOk(After(EMPTY, events), id);
  }

  /** From one state to a later one: no reply is taken back, and an audit status changes at most this way. */
  predicate Onward(b: B, b': B) {
    && (forall id :: id in b.answers ==> id in b'.answers && b.answers[id] <= b'.answers[id])
    && (forall id :: id in b.rows && id in b'.rows ==>
          || b'.rows[id].status == b.rows[id].status
          || (b.rows[id].status.Waiting? && id in b.pending && id !in b'.pending)
          || (b.rows[id].status.TimedOut? && b'.rows[id].status.Late?))
    && (forall id :: id in b'.rows && id in b.answers ==> id in b.rows)
    && (forall id :: id in b.answers && id in b'.pending ==> id in b.pending)
  }

  lemma StepOnward(b: B, e: Event)
    requires Inv(b) && Enabled(b, e)
    ensures Onward(b, Next(b, e))
  {
    hide Window.Attempted, Window.Trimmed, HostResponse;
    if e.Redeem? {
      RedeemOnward(b, e.id, e.h, e.now, e.clock, e.sendOk);
    } else {
      assert forall id :: id in b.rows ==> RequestOk(b, id);
    }
  }

  lemma RedeemOnward(b: B, id: RequestId, h: nat, now: int, clock: int, sendOk: bool)
    requires Inv(b) && id !in b.answers && h in b.connected
    ensures Onward(b, Redeemed(b, id, h, now, clock, sendOk))
  {
    hide Window.Attempted, RequestOk;
  }

  lemma OnwardTwice(a: B, b: B, c: B)
    requires Inv(a) && Inv(b) && Inv(c) && Onward(a, b) && Onward(b, c)
    ensures Onward(a, c)
  {
    forall id | id in a.rows && id in c.rows
      ensures || c.rows[id].status == a.rows[id].status
              || (a.rows[id].status.Waiting? && id in a.pending && id !in c.pending)
              || (a.rows[id].status.TimedOut? && c.rows[id].status.Late?)
    {
      assert RequestOk(a, id) && RequestOk(b, id) && RequestOk(c, id);
    }
  }

  lemma {:induction false} RunOnward(b: B, events: seq<Event>)
    requires Inv(b) && ValidRun(b, events)
    ensures Onward(b, After(b, events))
    decreases |events|
  {
    hide Enabled, Next, Inv, Onward;
    if events == [] {
      assert Onward(b, b) by { OnwardSame(b); }
    } else {
      var b' := Next(b, events[0]);
      StepOnward(b, events[0]);
      StepKeepsInv(b, events[0]);
      RunOnward(b', events[1..]);
      RunKeepsInv(b', events[1..]);
      OnwardTwice(b, b', After(b', events[1..]));
    }
  }

  lemma OnwardSame(b: B)
    ensures Onward(b, b)
  {
  }

  /**
   * In every run, an audit row is pending exactly while its visitor waits; once settled it shows how
   * the visitor was answered, and the only later change is from timeout to late.
   */
  lemma AuditFollowsAnswers(before: seq<Event>, after: seq<Event>, id: RequestId)
    requires ValidRun(EMPTY, before) && ValidRun(After(EMPTY, before), after)
    requires id in After(EMPTY, before).rows && id in After(After(EMPTY, before), after).rows
    ensures var b := After(EMPTY, before);
            var b' := After(b, after);
            && id in b.answers && id in b'.answers
            && (b.rows[id].status == Waiting <==> id in b.pending)
            && (id !in b.pending ==> |b.answers[id]| == 1 && Filed(b.rows[id].status, b.answers[id][0]))
            && (id !in b.pending ==> b'.answers[id] == b.answers[id])
            && (id !in b.pending && b'.rows[id].status != b.rows[id].status ==> b.rows[id].status == TimedOut && b'.rows[id].status == Late)
  {
    hide Enabled, Next;
    var b := After(EMPTY, before);
    RunKeepsInv(EMPTY, before);
    RunKeepsInv(b, after);
    RunOnward(b, after);
    assert RequestOk(b, id) && RequestOk(After(b, after), id);
  }

  /** The waiting requests that went out on this socket. */
  function SentOn(b: B, h: nat): set<RequestId>
    requires b.pending.Keys <= b.via.Keys
  {
    set id | id in b.pending && b.via[id] == h
  }

  predicate SharesTime(b: B, h: nat)
    requires h in b.connected
  {
    exists id :: id in b.pending && id in b.via && b.via[id] != h && b.via[id] in b.connected && b.connected[b.via[id]] == b.connected[h]
  }

  /**
   * A socket's close settles the requests sent on that socket, all of them, exactly when no request
   * waits that went out on another socket with the same connect time. Each is told the host is
   * offline; nothing else changes.
   */
  lemma CloseSettlesItsOwn(events: seq<Event>, h: nat, clock: int)
    requires ValidRun(EMPTY, events) && h in After(EMPTY, events).connected
    ensures var b := After(EMPTY, events);
            && Enabled(b, Close(h, clock)) && b.pending.Keys <= b.via.Keys
            && var b' := Next(b, Close(h, clock));
            && (b'.pending == b.pending - SentOn(b, h) <==> !SharesTime(b, h))
            && (forall id :: id in b.answers ==>
                  id in b'.answers && b'.answers[id] == if id in b.pending && id !in b'.pending then [Offline] else b.answers[id])
  {
    hide Enabled, Next;
    var b := After(EMPTY, events);
    RunKeepsInv(EMPTY, events);
    CloseSettles(b, h, clock);
  }

  lemma CloseSettles(b: B, h: nat, clock: int)
    requires Inv(b) && h in b.connected
    ensures Enabled(b, Close(h, clock)) && b.pending.Keys <= b.via.Keys
    ensures var b' := Next(b, Close(h, clock));
            && (b'.pending == b.pending - SentOn(b, h) <==> !SharesTime(b, h))
            && (forall id :: id in b.answers ==>
                  id in b'.answers && b'.answers[id] == if id in b.pending && id !in b'.pending then [Offline] else b.answers[id])
  {
    assert forall id :: id in b.answers ==> RequestOk(b, id);
    var hit := Hit(b, b.connected[h]);
    if !SharesTime(b, h) {
      assert hit == SentOn(b, h);
    } else {
      var id :| id in b.pending && id in b.via && b.via[id] != h && b.via[id] in b.connected && b.connected[b.via[id]] == b.connected[h];
      assert id in hit && id in b.pending - SentOn(b, h) && id !in b.pending - hit;
    }
  }

  /** With connect times all different, no two sockets share one. */
  lemma DistinctTimesSuffice(b: B, h: nat)
    requires h in b.connected && forall i, j :: i in b.connected && j in b.connected && b.connected[i] == b.connected[j] ==> i == j
    ensures !SharesTime(b, h)
  {
  }

  /** What a run of the object is to the attempts table. */
  function TableEvents(events: seq<Event>): seq<Window.Event>
    decreases |events|
  {
    if events == [] then []
    else
      (match events[0]
       case Redeem(_, _, now, _, _) => [Window.Attempt(now)]
       case Alarm(now) => [Window.Sweep(now)]
       case _ => []) + TableEvents(events[1..])
  }

  lemma StepIsTableStep(b: B, e: Event, s: Window.State, rest: seq<Window.Event>)
    requires Enabled(b, e) && b.attempts == s.rows
    ensures var s' := Window.After(s, TableEvents([e]));
            && Next(b, e).attempts == s'.rows && |Next(b, e).answers| - |b.answers| == |s'.times| - |s.times|
            && Window.After(s, TableEvents([e]) + rest) == Window.After(s', rest)
  {
    hide Window.Attempted, Window.Trimmed;
    var t := TableEvents([e]);
    assert TableEvents([e][1..]) == [];
    if e.Redeem? || e.Alarm? {
      assert t == [t[0]] && (t + rest)[0] == t[0] && (t + rest)[1..] == rest && t[1..] == [];
      assert Window.After(s, t) == Window.Next(s, t[0]);
    } else {
      assert t + rest == rest;
    }
    if e.Close? {
      assert Next(b, e).answers.Keys == b.answers.Keys;
      SameSize(b.answers, Next(b, e).answers);
    }
  }

  lemma SameSize(a: map<RequestId, seq<Reply>>, b: map<RequestId, seq<Reply>>)
    requires a.Keys == b.Keys
    ensures |a| == |b|
  {
    assert |a| == |a.Keys| && |b| == |b.Keys|;
  }

  /** In every run the attempts table is the sliding window's, and every attempt it records is one forwarded request. */
  lemma {:induction false} ForwardsAreRecorded(b: B, events: seq<Event>, s: Window.State)
    requires ValidRun(b, events) && b.attempts == s.rows
    ensures var s' := Window.After(s, TableEvents(events));
            After(b, events).attempts == s'.rows && |After(b, events).answers| - |b.answers| == |s'.times| - |s.times|
    decreases |events|
  {
    hide Enabled, Next;
    if events != [] {
      var rest := TableEvents(events[1..]);
      StepIsTableStep(b, events[0], s, rest);
      assert TableEvents(events) == TableEvents([events[0]]) + rest by {
        assert TableEvents([events[0]][1..]) == [];
      }
      ForwardsAreRecorded(Next(b, events[0]), events[1..], Window.After(s, TableEvents([events[0]])));
    }
  }

  const X: RequestId := "x"

  /** Two sockets accepted in the same millisecond: closing the first also drops what waits on the second. */
  lemma SameTimeDropsOthers()
    ensures var events := [Connect(0, 5), Connect(1, 5), Redeem(X, 1, 0, 0, true)];
            && ValidRun(EMPTY, events) && Enabled(After(EMPTY, events), Close(0, 0))
            && var b := After(EMPTY, events);
            X in b.pending && X in b.via && b.via[X] == 1 && X !in Next(b, Close(0, 0)).pending
  {
    var e0, e1, e2 := Connect(0, 5), Connect(1, 5), Redeem(X, 1, 0, 0, true);
    var b1 := Next(EMPTY, e0);
    var b2 := Next(b1, e1);
    var b3 := Next(b2, e2);
    assert [e0, e1, e2][1..] == [e1, e2] && [e1, e2][1..] == [e2] && [e2][1..] == [];
    assert Window.Trimmed([], -60) == [];
    assert ValidRun(b2, [e2]) && After(b2, [e2]) == b3;
    assert ValidRun(b1, [e1, e2]) && After(b1, [e1, e2]) == b3;
    assert ValidRun(EMPTY, [e0, e1, e2]) && After(EMPTY, [e0, e1, e2]) == b3;
    assert X in b3.pending && b3.pending[X] == Waiter(5);
  }
}
