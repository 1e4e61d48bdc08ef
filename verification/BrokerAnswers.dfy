/** What a waiting visitor is told, and where it came from. */
module BrokerAnswers {
  import opened Bytes
  import opened Broker
  import Window = SlidingWindow

  /** A whole status from 200 to 599 that may carry a body, and a body that decodes. */
  predicate Relayable(f: Frame) {
    f.code.Some? && 200 <= f.code.value <= 599 && f.code.value != 204 && f.code.value != 205 && f.code.value != 304 && f.body.Some?
  }

  /** Nothing but this request's own entries has changed. */
  predicate OnlyThis(b: B, b': B, id: RequestId) {
    && b'.attempts == b.attempts && b'.via == b.via && b'.connected == b.connected
    && b'.pending == b.pending - {id} && b'.timers == b.timers - {id}
    && b'.answers.Keys == b.answers.Keys && b'.rows.Keys == b.rows.Keys
    && (forall i :: i in b.answers && i != id ==> b'.answers[i] == b.answers[i])
    && (forall i :: i in b.rows && i != id ==> b'.rows[i] == b.rows[i])
  }

  /** The visitor got this reply, and the audit row, if there still is one, says so and when. */
  predicate Told(b: B, b': B, id: RequestId, reply: Reply, status: Status, clock: int) {
    && OnlyThis(b, b', id) && id in b.answers && b'.answers[id] == b.answers[id] + [reply]
    && (id in b.rows ==> b'.rows[id] == Audit(b.rows[id].requestedAt, Some(clock), status))
  }

  /** A frame from the host is relayed as it is, and filed by its status; one that cannot be is an internal error. */
  lemma MessageStepExactly(b: B, id: RequestId, f: Frame, clock: int)
    requires Inv(b) && id in b.pending
    ensures Enabled(b, Message(id, f, clock))
    ensures var b' := Next(b, Message(id, f, clock));
            if Relayable(f) then Told(b, b', id, FromHost(f.code.value, f.body.value), if f.code.value == 200 then Issued else Rejected, clock)
            else Told(b, b', id, Internal, Malformed, clock)
  {
  }

  /** A frame nobody waits for marks a timed-out row late and does nothing else. */
  lemma LateMessageExactly(b: B, id: RequestId, f: Frame, clock: int)
    requires Inv(b) && id !in b.pending
    ensures Enabled(b, Message(id, f, clock))
    ensures var b' := Next(b, Message(id, f, clock));
            && b' == b.(rows := b'.rows) && b'.rows.Keys == b.rows.Keys
            && forall i :: i in b.rows ==>
                 b'.rows[i] == if i == id && b.rows[i].status == TimedOut then b.rows[i].(status := Late) else b.rows[i]
  {
  }

  lemma TimerStepExactly(b: B, id: RequestId, clock: int)
    requires Inv(b) && Enabled(b, Fire(id, clock))
    ensures id in b.pending && Told(b, Next(b, Fire(id, clock)), id, NoAnswer, TimedOut, clock)
  {
    assert RequestOk(b, id);
  }

  /** A redemption is forwarded iff fewer than sixty attempts are left in the trimmed table; a failed send is answered at once. */
  lemma RedeemStepExactly(b: B, id: RequestId, h: nat, now: int, clock: int, sendOk: bool)
    requires Inv(b) && Enabled(b, Redeem(id, h, now, clock, sendOk))
    ensures var b', left := Next(b, Redeem(id, h, now, clock, sendOk)), Window.Trimmed(b.attempts, now - 60);
            if |left| >= 60 then b' == b.(attempts := left)
            else
              && b'.attempts == left + [now] && b'.connected == b.connected && b'.via == b.via[id := h]
              && b'.answers == b.answers[id := if sendOk then [] else [Offline]]
              && b'.rows == b.rows[id := if sendOk then Audit(now, None, Waiting) else Audit(now, Some(clock), Dropped)]
              && (if sendOk then b'.pending == b.pending[id := Waiter(b.connected[h])] && b'.timers == b.timers + {id}
                  else b'.pending == b.pending && b'.timers == b.timers)
  {
    hide Window.Trimmed;
    assert id !in b.pending && id !in b.timers && id !in b.rows;
    var b' := Next(b, Redeem(id, h, now, clock, sendOk));
    if !sendOk && |Window.Trimmed(b.attempts, now - 60)| < 60 {
      assert b.pending[id := Waiter(b.connected[h])] - {id} == b.pending;
      assert b.timers + {id} - {id} == b.timers;
      var none: seq<Reply> := [];
      assert none + [Offline] == [Offline];
      assert b.answers[id := none][id := none + [Offline]] == b.answers[id := [Offline]];
    }
  }

  lemma AlarmStepExactly(b: B, now: int)
    requires Inv(b)
    ensures Enabled(b, Alarm(now))
    ensures var b' := Next(b, Alarm(now));
            && b' == b.(rows := b'.rows, attempts := b'.attempts)
            && (forall id :: id in b'.rows <==> id in b.rows && b.rows[id].requestedAt >= now - 7 * 24 * 3600)
            && (forall id :: id in b'.rows ==> b'.rows[id] == b.rows[id])
            && b'.attempts == Window.Trimmed(b.attempts, now - 60)
  {
  }

  // ---- Over runs

  function At(b: B, events: seq<Event>, k: nat): B
    requires ValidRun(b, events) && k <= |events|
    decreases k
  {
    if k == 0 then b else At(Next(b, events[0]), events[1..], k - 1)
  }

  lemma {:induction false} AtStep(b: B, events: seq<Event>, k: nat)
    requires ValidRun(b, events) && k < |events|
    ensures Enabled(At(b, events, k), events[k]) && At(b, events, k + 1) == Next(At(b, events, k), events[k])
    decreases k
  {
    hide Enabled, Next;
    if k > 0 {
      AtStep(Next(b, events[0]), events[1..], k - 1);
    } else {
      assert At(Next(b, events[0]), events[1..], 0) == Next(b, events[0]);
    }
  }

  lemma {:induction false} AtEnd(b: B, events: seq<Event>)
    requires ValidRun(b, events)
    ensures At(b, events, |events|) == After(b, events)
    decreases |events|
  {
    hide Enabled, Next;
    if events != [] {
      AtEnd(Next(b, events[0]), events[1..]);
    }
  }

  lemma {:induction false} InvAt(b: B, events: seq<Event>, k: nat)
    requires Inv(b) && ValidRun(b, events) && k <= |events|
    ensures Inv(At(b, events, k))
    decreases k
  {
    hide Inv, Enabled, Next;
    if k > 0 {
      StepKeepsInv(b, events[0]);
      InvAt(Next(b, events[0]), events[1..], k - 1);
    }
  }

  /** The event makes this the reply to a request that waits: a frame, the timer, or the close of its socket. */
  predicate Answers(b: B, e: Event, id: RequestId, reply: Reply) {
    && id in b.pending
    && match e
       case Message(i, f, _) => i == id && reply == if Relayable(f) then FromHost(f.code.value, f.body.value) else Internal
       case Fire(i, _) => i == id && reply == NoAnswer
       case Close(h, _) => h in b.connected && b.connected[h] == b.pending[id].socketId && reply == Offline
       case _ => false
  }

  /** A request that waits goes on waiting, unless the event answers it, and then with exactly that reply. */
  lemma WaitersAreAnswered(b: B, e: Event, id: RequestId)
    requires Inv(b) && Enabled(b, e) && id in b.pending
    ensures var b' := Next(b, e);
            && id in b'.answers
            && (id in b'.pending <==> !exists reply :: Answers(b, e, id, reply))
            && (id in b'.pending ==> b'.answers[id] == [] && b'.pending[id] == b.pending[id])
            && forall reply :: Answers(b, e, id, reply) ==> b'.answers[id] == [reply]
  {
    hide Window.Trimmed, HostResponse;
    assert RequestOk(b, id);
    var b' := Next(b, e);
    match e
    case Message(i, f, clock) =>
      if i in b.pending {
        MessageStepExactly(b, i, f, clock);
        assert i == id ==> Answers(b, e, id, if Relayable(f) then FromHost(f.code.value, f.body.value) else Internal);
      }
    case Fire(i, clock) =>
      TimerStepExactly(b, i, clock);
      assert i == id ==> Answers(b, e, id, NoAnswer);
    case Close(h, _) => assert b.connected[h] == b.pending[id].socketId ==> Answers(b, e, id, Offline);
    case Redeem(i, h, now, clock, sendOk) => RedeemStepExactly(b, i, h, now, clock, sendOk);
    case _ =>
  }

  /** Event `k` is where the reply came from. */
  predicate CameFrom(b: B, events: seq<Event>, id: RequestId, reply: Reply, k: nat)
    requires ValidRun(b, events)
  {
    && k < |events|
    && (|| Answers(At(b, events, k), events[k], id, reply)
        || (events[k].Redeem? && events[k].id == id && !events[k].sendOk && reply == Offline))
  }

  lemma OthersStay(b: B, e: Event, id: RequestId)
    requires Inv(b) && Enabled(b, e) && id in b.answers && id !in b.pending
    ensures id in Next(b, e).answers && Next(b, e).answers[id] == b.answers[id]
  {
    hide Window.Trimmed, HostResponse;
  }

  lemma NewRequest(b: B, e: Event, id: RequestId)
    requires Inv(b) && Enabled(b, e) && id !in b.answers && id in Next(b, e).answers
    ensures e.Redeem? && e.id == id && Next(b, e).answers[id] == if e.sendOk then [] else [Offline]
  {
    hide Window.Trimmed, HostResponse;
    if e.Redeem? {
      RedeemStepExactly(b, e.id, e.h, e.now, e.clock, e.sendOk);
    }
  }

  lemma {:induction false} ReplyCameFrom(events: seq<Event>, n: nat, id: RequestId, reply: Reply)
    requires ValidRun(EMPTY, events) && n <= |events|
    requires var b := At(EMPTY, events, n); id in b.answers && reply in b.answers[id]
    ensures exists k: nat :: k < n && CameFrom(EMPTY, events, id, reply, k)
    decreases n
  {
    hide Inv, Enabled, Next, Answers;
    assert n > 0;
    var b, e := At(EMPTY, events, n - 1), events[n - 1];
    AtStep(EMPTY, events, n - 1);
    assert Inv(b) by { EmptyIsOk(); InvAt(EMPTY, events, n - 1); }
    if id !in b.answers {
      NewRequest(b, e, id);
      assert CameFrom(EMPTY, events, id, reply, n - 1);
    } else if id in b.pending {
      WaitersAreAnswered(b, e, id);
      if r :| Answers(b, e, id, r) {
        assert CameFrom(EMPTY, events, id, reply, n - 1);
      }
    } else {
      OthersStay(b, e, id);
      ReplyCameFrom(events, n - 1, id, reply);
    }
  }

  lemma EmptyIsOk()
    ensures Inv(EMPTY)
  {
  }

  /**
   * In every run, whatever a visitor was told came from an event: a status and body from a frame that
   * carried exactly these for this request while it waited, an internal error from one that could
   * not be relayed, silence from its timer, and offline from its socket's close or a failed send.
   */
  lemma RepliesHaveTheirCause(events: seq<Event>, id: RequestId, reply: Reply)
    requires ValidRun(EMPTY, events)
    requires var b := After(EMPTY, events); id in b.answers && reply in b.answers[id]
    ensures exists k: nat :: CameFrom(EMPTY, events, id, reply, k)
  {
    hide CameFrom;
    AtEnd(EMPTY, events);
    ReplyCameFrom(events, |events|, id, reply);
  }

  /** In every run a frame for a waiting request settles it: relayed and filed by its status, or an internal error filed as malformed. */
  lemma FramesAreRelayed(events: seq<Event>, id: RequestId, f: Frame, clock: int)
    requires ValidRun(EMPTY, events) && id in After(EMPTY, events).pending
    ensures Enabled(After(EMPTY, events), Message(id, f, clock))
    ensures var b := After(EMPTY, events);
            var b' := Next(b, Message(id, f, clock));
            if Relayable(f) then Told(b, b', id, FromHost(f.code.value, f.body.value), if f.code.value == 200 then Issued else Rejected, clock)
            else Told(b, b', id, Internal, Malformed, clock)
  {
    hide Enabled, Next, Inv, Told;
    EmptyIsOk();
    RunKeepsInv(EMPTY, events);
    MessageStepExactly(After(EMPTY, events), id, f, clock);
  }

  /** In every run a waiting request is answered by an event exactly if that is its frame, its timer or its socket's close. */
  lemma OnlyItsOwnEventsAnswer(events: seq<Event>, e: Event, id: RequestId)
    requires ValidRun(EMPTY, events) && Enabled(After(EMPTY, events), e) && id in After(EMPTY, events).pending
    ensures var b := After(EMPTY, events);
            && (id in Next(b, e).pending <==> !exists reply :: Answers(b, e, id, reply))
            && forall reply :: Answers(b, e, id, reply) ==> id in Next(b, e).answers && Next(b, e).answers[id] == [reply]
  {
    hide Enabled, Next, Inv, Answers;
    EmptyIsOk();
    RunKeepsInv(EMPTY, events);
    WaitersAreAnswered(After(EMPTY, events), e, id);
  }
}
