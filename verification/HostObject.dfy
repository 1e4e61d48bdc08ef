/** The host object's handlers as they run: a map of waiters, timers and tables updated in place. */
module HostObject {
  import opened Bytes
  import opened Broker
  import Window = SlidingWindow
  import Nonces = ConnectNonces

  /** An accepted socket: whether it is open, and the connect time attached to it, if any. */
  datatype Socket = Socket(open: bool, connectedAt: Option<int>)

  function ConnectTime(s: Socket): int {
    if s.connectedAt.Some? then s.connectedAt.value else 0
  }

  predicate Usable(s: Socket) {
    s.open && ConnectTime(s) >= 0
  }

  /**
   * The newest open socket; the runtime's list is in no particular order and still holds sockets
   * that were replaced. Of several equally new ones it is the first listed.
   */
  method LiveSocket(sockets: seq<Socket>) returns (best: Option<nat>)
    ensures best.None? <==> forall i :: 0 <= i < |sockets| ==> !Usable(sockets[i])
    ensures best.Some? ==>
      && best.value < |sockets| && Usable(sockets[best.value])
      && (forall i :: 0 <= i < |sockets| && Usable(sockets[i]) ==> ConnectTime(sockets[i]) <= ConnectTime(sockets[best.value]))
      && (forall i :: 0 <= i < best.value && Usable(sockets[i]) ==> ConnectTime(sockets[i]) < ConnectTime(sockets[best.value]))
  {
    best := None;
    var bestAt := -1;
    for k := 0 to |sockets|
      invariant best.None? ==> bestAt == -1 && forall i :: 0 <= i < k ==> !Usable(sockets[i])
      invariant best.Some? ==>
        && best.value < k && Usable(sockets[best.value]) && bestAt == ConnectTime(sockets[best.value])
        && (forall i :: 0 <= i < k && Usable(sockets[i]) ==> ConnectTime(sockets[i]) <= bestAt)
        && (forall i :: 0 <= i < best.value && Usable(sockets[i]) ==> ConnectTime(sockets[i]) < bestAt)
    {
      if sockets[k].open {
        var at := ConnectTime(sockets[k]);
        if at > bestAt {
          best, bestAt := Some(k), at;
        }
      }
    }
  }

  class HostDO {
    var pending: map<RequestId, Waiter>
    var timers: set<RequestId>
    var rows: map<RequestId, Audit>
    var attempts: seq<int>
    var nonces: map<bytes, int>
    ghost var answers: map<RequestId, seq<Reply>>
    ghost var via: map<RequestId, nat>
    ghost var connected: map<nat, int>

    ghost function View(): B
      reads this
    {
      B(pending, timers, rows, attempts, answers, via, connected)
    }

    ghost predicate Valid()
      reads this
    {
      pending.Keys <= answers.Keys
    }

    constructor ()
      ensures Valid() && View() == EMPTY && nonces == map[]
    {
      pending, timers, rows, attempts, nonces := map[], {}, map[], [], map[];
      answers, via, connected := map[], map[], map[];
    }

    /** Finishes one redemption in flight: records the outcome and answers the waiting visitor. */
    method Settle(id: RequestId, status: Status, reply: Reply, now: int)
      requires Valid()
      modifies this
      ensures Valid() && nonces == old(nonces) && View() == Settled(old(View()), id, status, reply, now)
      ensures id in old(pending) ==>
        && pending == old(pending) - {id} && timers == old(timers) - {id} && answers == old(answers)[id := old(answers)[id] + [reply]]
        && rows.Keys == old(rows).Keys
        && (forall i :: i in rows ==>
              rows[i] == if i == id then Audit(old(rows)[i].requestedAt, Some(now), status) else old(rows)[i])
      ensures id !in old(pending) ==> View() == old(View())
    {
      if id !in pending {
        return;
      }
      pending := pending - {id};
      timers := timers - {id};
      if id in rows {
        rows := rows[id := rows[id].(completedAt := Some(now), status := status)];
      }
      answers := answers[id := answers[id] + [reply]];
    }

    method OnResponse(id: RequestId, frame: Frame, now: int)
      requires Valid()
      modifies this
      ensures Valid() && nonces == old(nonces) && View() == Received(old(View()), id, frame, now)
      ensures id in old(pending) ==>
        var ok := frame.code.Some? && 200 <= frame.code.value <= 599 && frame.code.value !in {204, 205, 304} && frame.body.Some?;
        && id !in pending && id in old(answers) && id in answers
        && answers[id] == old(answers)[id] + [if ok then FromHost(frame.code.value, frame.body.value) else Internal]
        && (id in old(rows) ==>
              && id in rows
              && rows[id] == Audit(old(rows)[id].requestedAt, Some(now),
                                   if !ok then Malformed else if frame.code.value == 200 then Issued else Rejected))
      ensures id !in old(pending) ==>
        && pending == old(pending) && answers == old(answers) && timers == old(timers) && rows.Keys == old(rows).Keys
        && (forall i :: i in rows ==>
              rows[i] == if i == id && old(rows)[i].status == TimedOut then old(rows)[i].(status := Late) else old(rows)[i])
    {
      if id !in pending {
        if id in rows && rows[id].status.TimedOut? {
          rows := rows[id := rows[id].(status := Late)];
        }
        return;
      }
      var (reply, status) := HostResponse(frame);
      Settle(id, status, reply, now);
    }

    method OnTimer(id: RequestId, now: int)
      requires Valid()
      modifies this
      ensures Valid() && nonces == old(nonces) && View() == Settled(old(View()), id, TimedOut, NoAnswer, now)
    {
      Settle(id, TimedOut, NoAnswer, now);
    }

    /** Requests sent on this socket will never be answered, so they are failed one by one. */
    method OnClose(at: int, now: int)
      requires Valid()
      modifies this
      ensures Valid() && nonces == old(nonces) && View() == AllDropped(old(View()), Hit(old(View()), at), now)
    {
      hide AllDropped, Settled;
      ghost var b := View();
      var todo := pending.Keys;
      ghost var done: set<RequestId> := {};
      NothingDropped(b, now);
      while todo != {}
        invariant Valid() && nonces == old(nonces) && done <= b.pending.Keys && todo <= b.pending.Keys && done !! todo && View() == AllDropped(b, done, now)
        invariant Hit(b, at) == done + Hit(b, at) * todo
      {
        var id :| id in todo;
        StillThere(b, done, now, id);
        todo := todo - {id};
        if pending[id].socketId == at {
          OneMoreDropped(b, done, now, id);
          Settle(id, Dropped, Offline, now);
          done := done + {id};
        }
      }
      assert Hit(b, at) == done;
    }

    /** Records one attempt; refuses, and records nothing, when the window is full. */
    method RecordAttempt(now: int) returns (ok: bool)
      modifies this`attempts
      ensures (attempts, ok) == Window.Attempted(old(attempts), now)
    {
      attempts := Window.Trimmed(attempts, now - Window.SPAN);
      if |attempts| >= Window.CAP {
        return false;
      }
      attempts := attempts + [now];
      return true;
    }

    /** The audit row, the waiter with its timer, and the send, which may fail. */
    method Forward(id: RequestId, ghost h: nat, socketId: int, now: int, clock: int, sendOk: bool)
      requires Valid() && h in connected && connected[h] == socketId && id !in answers
      modifies this
      ensures Valid() && nonces == old(nonces)
      ensures View() == var b := Enqueued(old(View()), id, h, now); if sendOk then b else Settled(b, id, Dropped, Offline, clock)
      ensures id in rows && rows[id] == if sendOk then Audit(now, None, Waiting) else Audit(now, Some(clock), Dropped)
      ensures if sendOk then id in pending && pending[id] == Waiter(socketId) && id in timers else id !in pending && id !in timers
    {
      rows := rows[id := Audit(now, None, Waiting)];
      timers := timers + {id};
      pending := pending[id := Waiter(socketId)];
      answers, via := answers[id := []], via[id := h];
      if !sendOk {
        Settle(id, Dropped, Offline, clock);
      }
    }

    method Redeem(id: RequestId, ghost h: nat, socketId: int, now: int, clock: int, sendOk: bool) returns (forwarded: bool)
      requires Valid() && h in connected && connected[h] == socketId && id !in answers
      modifies this
      ensures Valid() && nonces == old(nonces) && View() == Redeemed(old(View()), id, h, now, clock, sendOk)
      ensures forwarded == Window.Attempted(old(attempts), now).1
    {
      forwarded := RecordAttempt(now);
      if forwarded {
        Forward(id, h, socketId, now, clock, sendOk);
      }
    }

    /** Whether a registration's or a connect's nonce was used before; if not, it is now. */
    method SeenNonce(nonce: bytes, now: int) returns (seen: bool)
      modifies this`nonces
      ensures (nonces, seen) == Nonces.Looked(old(nonces), nonce, now)
      ensures seen <==> nonce in old(nonces) && old(nonces)[nonce] >= now - 1200
      ensures forall k :: k in nonces <==> k == nonce || (k in old(nonces) && old(nonces)[k] >= now - 1200)
      ensures forall k :: k in nonces ==> nonces[k] == if k == nonce && !seen then now else old(nonces)[k]
    {
      nonces := map k | k in nonces && !(nonces[k] < now - Nonces.KEPT) :: nonces[k];
      if nonce in nonces {
        return true;
      }
      nonces := nonces[nonce := now];
      return false;
    }

    method OnAlarm(now: int)
      requires Valid()
      modifies this
      ensures Valid() && View() == Swept(old(View()), now) && nonces == Nonces.Pruned(old(nonces), now)
      ensures forall id :: id in rows <==> id in old(rows) && old(rows)[id].requestedAt >= now - 7 * 24 * 3600
      ensures forall id :: id in rows ==> rows[id] == old(rows)[id]
      ensures forall k :: k in nonces <==> k in old(nonces) && old(nonces)[k] >= now - 1200
      ensures forall k :: k in nonces ==> nonces[k] == old(nonces)[k]
    {
      rows := map id | id in rows && !(rows[id].requestedAt < now - AUDIT_RETENTION) :: rows[id];
      nonces := map k | k in nonces && !(nonces[k] < now - Nonces.KEPT) :: nonces[k];
      attempts := Window.Trimmed(attempts, now - Window.SPAN);
    }
  }

  lemma NothingDropped(b: B, now: int)
    requires b.pending.Keys <= b.answers.Keys
    ensures AllDropped(b, {}, now) == b
  {
    assert AllDropped(b, {}, now).rows == b.rows && AllDropped(b, {}, now).answers == b.answers;
  }

  lemma StillThere(b: B, ids: set<RequestId>, now: int, id: RequestId)
    requires ids <= b.pending.Keys <= b.answers.Keys && id in b.pending && id !in ids
    ensures var b' := AllDropped(b, ids, now); id in b'.pending && b'.pending[id] == b.pending[id]
  {
  }

  lemma OneMoreDropped(b: B, ids: set<RequestId>, now: int, id: RequestId)
    requires ids <= b.pending.Keys <= b.answers.Keys && id in b.pending && id !in ids
    ensures AllDropped(b, ids, now).pending.Keys <= AllDropped(b, ids, now).answers.Keys
    ensures Settled(AllDropped(b, ids, now), id, Dropped, Offline, now) == AllDropped(b, ids + {id}, now)
  {
    var one, all := Settled(AllDropped(b, ids, now), id, Dropped, Offline, now), AllDropped(b, ids + {id}, now);
    assert one.pending == all.pending;
    assert one.timers == all.timers;
    assert one.rows == all.rows;
    assert one.answers == all.answers;
  }
}
