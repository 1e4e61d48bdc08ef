/** Replay protection: how long a redemption may stall before a pruned nonce can be taken for new again. */
module Replay {
  import opened Bytes
  import opened Store
  import opened Redemption

  /** The retention of a nonce less twice the skew. */
  const TOLERATED: int := 240

  /** The same envelope never has its nonce taken for new twice. */
  predicate NoReplay(s: State) {
    forall i, j :: 0 <= i < j < |s.accepted| ==> s.accepted[i].req != s.accepted[j].req
  }

  predicate Remembered(s: State, a: Acceptance) {
    NonceKey(a.req) in s.db.nonces && s.db.nonces[NonceKey(a.req)] >= a.now
  }

  predicate CallsFresh(s: State) {
    forall c :: c in s.calls ==>
      && s.calls[c].now <= s.clock
      && (s.calls[c].phase.Finished? || WithinSkew(s.calls[c].now, s.calls[c].req.payload.timestamp))
  }

  /** An accepted nonce is still remembered, or the clock has moved past the retention. */
  predicate AcceptedCovered(s: State) {
    forall a :: a in s.accepted ==>
      && WithinSkew(a.now, a.req.payload.timestamp)
      && (Remembered(s, a) || s.clock > a.now + NONCE_RETENTION)
  }

  predicate Inv(s: State) {
    CallsFresh(s) && AcceptedCovered(s) && NoReplay(s)
  }

  lemma PurgeKeepsCovered(s: State, s': State, at: int)
    requires AcceptedCovered(s) && at <= s.clock
    requires s'.db.nonces == NoncesPurged(s.db, at - NONCE_RETENTION).nonces
          || s'.db.nonces == NoncesPurged(s.db, at - PURGE_RETENTION).nonces
    requires s'.accepted == s.accepted && s'.clock == s.clock
    ensures AcceptedCovered(s')
  {
  }

  lemma InsertKeepsInv(s: State, c: nat)
    requires Inv(s) && Enabled(s, Insert(c)) && s.clock - s.calls[c].now <= TOLERATED
    ensures Inv(AfterInsert(s, c))
  {
    var s', call := AfterInsert(s, c), s.calls[c];
    if NonceKey(call.req) !in s.db.nonces {
      var n := |s.accepted|;
      assert forall a :: a in s'.accepted ==> a in s.accepted || a == s'.accepted[n];
      forall i | 0 <= i < n ensures s.accepted[i].req != call.req {
        assert s.accepted[i] in s.accepted;
      }
    }
  }

  lemma ClaimAndRecordLeaveNonces(env: Env, s: State, step: Step)
    requires CallsFresh(s) && Enabled(s, step) && (step.DoClaim? || step.Record?)
    ensures var s' := Next(env, s, step);
            CallsFresh(s') && s'.db.nonces == s.db.nonces && s'.accepted == s.accepted && s'.clock == s.clock
  {
    hide WithinSkew, ClaimOutcome, Issue, CertRowFor, ResponseFor, VerifyProof;
  }

  lemma StepKeepsInv(env: Env, s: State, step: Step)
    requires Inv(s) && Enabled(s, step)
    requires step.Insert? ==> s.clock - s.calls[step.call].now <= TOLERATED
    ensures Inv(Next(env, s, step))
  {
    hide Precheck, WithinSkew, AcceptedCovered, AfterInsert, AfterClaim, AfterRecord;
    var s' := Next(env, s, step);
    match step
    case Tick(_) => assert AcceptedCovered(s') by { TickKeepsCovered(s, s'); }
    case PurgeNonces(at) => PurgeKeepsCovered(s, s', at);
    case Prune(c) => PurgeKeepsCovered(s, s', s.calls[c].now);
    case Begin(_, req) =>
      PrecheckIsSoundAndFresh(env, req, s.clock);
      SameNoncesKeepCovered(s, s');
    case Insert(c) => InsertKeepsInv(s, c);
    case DoClaim(_) =>
      ClaimAndRecordLeaveNonces(env, s, step);
      SameNoncesKeepCovered(s, s');
    case Record(_, _) =>
      ClaimAndRecordLeaveNonces(env, s, step);
      SameNoncesKeepCovered(s, s');
    case _ => SameNoncesKeepCovered(s, s');
  }

  lemma TickKeepsCovered(s: State, s': State)
    requires AcceptedCovered(s) && s' == s.(clock := s'.clock) && s'.clock >= s.clock
    ensures AcceptedCovered(s')
  {
  }

  lemma SameNoncesKeepCovered(s: State, s': State)
    requires AcceptedCovered(s)
    requires s'.db.nonces == s.db.nonces && s'.accepted == s.accepted && s'.clock == s.clock
    ensures AcceptedCovered(s')
  {
  }

  lemma {:induction false} RunKeepsInv(env: Env, s: State, steps: seq<Step>)
    requires Inv(s) && ValidRun(env, s, steps) && StallAtMost(env, s, steps, TOLERATED)
    ensures Inv(After(env, s, steps))
    decreases steps
  {
    hide Inv, Enabled, Next;
    if steps != [] {
      StepKeepsInv(env, s, steps[0]);
      RunKeepsInv(env, Next(env, s, steps[0]), steps[1..]);
    }
  }

  /** The state in which `r` was accepted once, at the start of its window. */
  function AcceptedOnce(r: Request): State {
    var t := r.payload.timestamp - SKEW;
    State(DB(map[], map[], map[NonceKey(r) := t]), t, map[0 := Call(r, t, ToClaim)], map[], [], map[],
          [Acceptance(r, t)], t - NONCE_RETENTION)
  }

  /** The second copy of `r` has started at the end of the window, and stalls before its insert. */
  function Stalling(r: Request): State {
    var t := r.payload.timestamp - SKEW;
    var late := r.payload.timestamp + SKEW;
    State(DB(map[], map[], map[NonceKey(r) := t]), late,
          map[0 := Call(r, t, ToClaim), 1 := Call(r, late, ToInsert)], map[], [], map[],
          [Acceptance(r, t)], late - NONCE_RETENTION)
  }

  /** The run in which a stall of one second too many lets an envelope through twice. */
  function LateReplay(r: Request, other: Request): seq<Step> {
    var ts := r.payload.timestamp;
    [Begin(0, r), Prune(0), Insert(0)]
    + [Tick(ts + SKEW), Begin(1, r), Prune(1)]
    + [Tick(ts + SKEW + TOLERATED + 1), Begin(2, other), Prune(2), Insert(1)]
  }

  lemma FirstAcceptance(env: Env, r: Request)
    requires Sound(env, r)
    ensures var s, steps := Init(r.payload.timestamp - SKEW), [Begin(0, r), Prune(0), Insert(0)];
            ValidRun(env, s, steps) && StallAtMost(env, s, steps, 0) && After(env, s, steps) == AcceptedOnce(r)
  {
    hide Precheck;
    var t := r.payload.timestamp - SKEW;
    PrecheckIsSoundAndFresh(env, r, t);
    var s1 := Next(env, Init(t), Begin(0, r));
    var s2 := Next(env, s1, Prune(0));
    assert s2.db.nonces == map[];
    var s3 := Next(env, s2, Insert(0));
    assert s3 == AcceptedOnce(r);
    Prepended(env, s2, Insert(0), [], [Insert(0)], 0);
    Prepended(env, s1, Prune(0), [Insert(0)], [Prune(0), Insert(0)], 0);
    Prepended(env, Init(t), Begin(0, r), [Prune(0), Insert(0)], [Begin(0, r), Prune(0), Insert(0)], 0);
  }

  lemma SecondCopyStalls(env: Env, r: Request)
    requires Sound(env, r)
    ensures var s, steps := AcceptedOnce(r), [Tick(r.payload.timestamp + SKEW), Begin(1, r), Prune(1)];
            ValidRun(env, s, steps) && StallAtMost(env, s, steps, 0) && After(env, s, steps) == Stalling(r)
  {
    hide Precheck;
    var late := r.payload.timestamp + SKEW;
    PrecheckIsSoundAndFresh(env, r, late);
    var s0 := AcceptedOnce(r);
    var s1 := Next(env, s0, Tick(late));
    var s2 := Next(env, s1, Begin(1, r));
    var s3 := Next(env, s2, Prune(1));
    assert s3.db.nonces == s0.db.nonces;
    assert s3 == Stalling(r);
    Prepended(env, s2, Prune(1), [], [Prune(1)], 0);
    Prepended(env, s1, Begin(1, r), [Prune(1)], [Begin(1, r), Prune(1)], 0);
    Prepended(env, s0, Tick(late), [Begin(1, r), Prune(1)], [Tick(late), Begin(1, r), Prune(1)], 0);
  }

  lemma SecondCopyAccepted(env: Env, r: Request, other: Request)
    requires Sound(env, other) && other.payload.timestamp == r.payload.timestamp + SKEW + TOLERATED + 1
    ensures var s := Stalling(r);
            var steps := [Tick(r.payload.timestamp + SKEW + TOLERATED + 1), Begin(2, other), Prune(2), Insert(1)];
            && ValidRun(env, s, steps) && StallAtMost(env, s, steps, TOLERATED + 1)
            && !NoReplay(After(env, s, steps))
  {
    hide Precheck;
    var t := other.payload.timestamp;
    PrecheckIsSoundAndFresh(env, other, t);
    var s1 := Next(env, Stalling(r), Tick(t));
    var s2 := Next(env, s1, Begin(2, other));
    var s3 := Next(env, s2, Prune(2));
    assert s3.db.nonces == map[];
    var s4 := Next(env, s3, Insert(1));
    assert s4.accepted[0].req == s4.accepted[1].req;
    var c, b := [Prune(2), Insert(1)], [Begin(2, other), Prune(2), Insert(1)];
    Prepended(env, s3, Insert(1), [], [Insert(1)], TOLERATED + 1);
    Prepended(env, s2, Prune(2), [Insert(1)], c, TOLERATED + 1);
    Prepended(env, s1, Begin(2, other), c, b, TOLERATED + 1);
    Prepended(env, Stalling(r), Tick(t), b, [Tick(t), Begin(2, other), Prune(2), Insert(1)], TOLERATED + 1);
  }

  lemma LateReplaySucceeds(env: Env, r: Request, other: Request)
    requires Sound(env, r) && Sound(env, other)
    requires other.payload.timestamp == r.payload.timestamp + SKEW + TOLERATED + 1
    ensures var s0, steps := Init(r.payload.timestamp - SKEW), LateReplay(r, other);
            && ValidRun(env, s0, steps) && StallAtMost(env, s0, steps, TOLERATED + 1)
            && !NoReplay(After(env, s0, steps))
  {
    hide ValidRun, StallAtMost, After, NoReplay, Sound, AcceptedOnce, Stalling;
    var ts := r.payload.timestamp;
    var s0 := Init(ts - SKEW);
    var a, b := [Begin(0, r), Prune(0), Insert(0)], [Tick(ts + SKEW), Begin(1, r), Prune(1)];
    var c := [Tick(ts + SKEW + TOLERATED + 1), Begin(2, other), Prune(2), Insert(1)];
    FirstAcceptance(env, r);
    SecondCopyStalls(env, r);
    SecondCopyAccepted(env, r, other);
    StallMonotone(env, s0, a, 0, TOLERATED + 1);
    StallMonotone(env, AcceptedOnce(r), b, 0, TOLERATED + 1);
    Joined(env, s0, a, b, TOLERATED + 1);
    Joined(env, s0, a + b, c, TOLERATED + 1);
  }

  /**
   * Whatever the interleaving, no envelope is accepted twice as long as no call stalls longer than
   * the retention less twice the skew; one second more and a replay gets through.
   */
  lemma ReplayBound(env: Env, stall: int, r: Request, other: Request)
    requires Sound(env, r) && Sound(env, other)
    requires other.payload.timestamp == r.payload.timestamp + SKEW + TOLERATED + 1
    ensures stall <= TOLERATED <==>
            forall clock, steps :: ValidRun(env, Init(clock), steps) && StallAtMost(env, Init(clock), steps, stall) ==>
              NoReplay(After(env, Init(clock), steps))
  {
    if stall <= TOLERATED {
      forall clock, steps | ValidRun(env, Init(clock), steps) && StallAtMost(env, Init(clock), steps, stall)
        ensures NoReplay(After(env, Init(clock), steps))
      {
        StallMonotone(env, Init(clock), steps, stall, TOLERATED);
        RunKeepsInv(env, Init(clock), steps);
      }
    } else {
      LateReplaySucceeds(env, r, other);
      StallMonotone(env, Init(r.payload.timestamp - SKEW), LateReplay(r, other), TOLERATED + 1, stall);
    }
  }
}
