/**
 * History erasure: take every failed redemption and every purge out of a run, and every redemption
 * that succeeded still succeeds, with the same certificate.
 */
module Erasure {
  import opened Bytes
  import opened Store
  import opened Redemption
  import opened SingleUse

  predicate Kept(step: Step, keep: set<nat>) {
    match step
    case Tick(_) => true
    case Create(_, _, _, _, _) => true
    case Revoke(_) => true
    case PurgeGrants(_) => false
    case PurgeNonces(_) => false
    case Begin(c, _) => c in keep
    case Prune(c) => c in keep
    case Insert(c) => c in keep
    case DoClaim(c) => c in keep
    case Record(c, _) => c in keep
    case Abort(c) => c in keep
  }

  function Erased(steps: seq<Step>, keep: set<nat>): seq<Step> {
    if steps == [] then []
    else if Kept(steps[0], keep) then [steps[0]] + Erased(steps[1..], keep)
    else Erased(steps[1..], keep)
  }

  function Successes(s: State): set<nat> {
    set c | c in s.calls && IsIssued(s, c)
  }

  /** Erasing leaves a run that can happen, in which every success is what it was. */
  predicate ErasureSafe(env: Env, s0: State, steps: seq<Step>)
    requires ValidRun(env, s0, steps)
  {
    var s := After(env, s0, steps);
    var kept := Erased(steps, Successes(s));
    && ValidRun(env, s0, kept)
    && var e := After(env, s0, kept);
    forall c :: c in s.calls && IsIssued(s, c) ==>
      && c in e.calls && e.calls[c] == s.calls[c]
      && GrantOf(s, c) in s.db.certs && GrantOf(s, c) in e.db.certs
      && e.db.certs[GrantOf(s, c)] == s.db.certs[GrantOf(s, c)]
  }

  // ---- The full run and the erased run, side by side

  predicate SimCalls(s: State, e: State, keep: set<nat>) {
    && e.clock == s.clock && e.calls.Keys <= keep
    && forall c :: c in keep ==> (c in s.calls <==> c in e.calls) && (c in s.calls ==> e.calls[c] == s.calls[c])
  }

  predicate SimRow(a: Row, b: Row) {
    && b.(redeemedAt := a.redeemedAt, agentId := a.agentId, keyFp := a.keyFp) == a
    && (a.redeemedAt.None? ==> b.redeemedAt.None?)
  }

  /** The erased run has every grant the full run still has, claimed by no more calls. */
  predicate SimGrants(s: State, e: State) {
    && e.ever == s.ever && e.db.grants.Keys <= s.ever.Keys
    && forall id :: id in s.db.grants ==> id in e.db.grants && SimRow(s.db.grants[id], e.db.grants[id])
  }

  predicate SimCerts(s: State, e: State) {
    forall g :: g in e.db.certs ==> g in s.db.certs && s.db.certs[g] == e.db.certs[g]
  }

  /** All the two runs share, nonces apart. */
  predicate Sim(s: State, e: State, keep: set<nat>) {
    SimCalls(s, e, keep) && SimGrants(s, e) && SimCerts(s, e)
  }

  predicate Going(p: Phase) {
    !p.Finished? || p.outcome.Issued?
  }

  /** A step nobody keeps changes only the full run, and never what the two must share. */
  lemma ErasedStep(env: Env, s: State, e: State, step: Step, keep: set<nat>)
    requires Sim(s, e, keep) && Enabled(s, step) && !Kept(step, keep) && SingleUse.Inv(env, s)
    ensures Sim(Next(env, s, step), e, keep)
  {
    hide Next, Enabled, Kept, SimCalls, SimGrants, SimCerts, SingleUse.Inv;
    ErasedStepCalls(env, s, e, step, keep);
    ErasedStepTables(env, s, e, step, keep);
  }

  lemma ErasedStepCalls(env: Env, s: State, e: State, step: Step, keep: set<nat>)
    requires SimCalls(s, e, keep) && Enabled(s, step) && !Kept(step, keep)
    ensures SimCalls(Next(env, s, step), e, keep)
  {
    hide Precheck, ClaimOutcome, Issue, CertRowFor, ResponseFor, KeyFp;
  }

  lemma ErasedStepTables(env: Env, s: State, e: State, step: Step, keep: set<nat>)
    requires SimGrants(s, e) && SimCerts(s, e) && Enabled(s, step) && !Kept(step, keep) && SingleUse.Inv(env, s)
    ensures SimGrants(Next(env, s, step), e) && SimCerts(Next(env, s, step), e)
  {
    hide Precheck, VerifyProof, AfterRecord, KeyFp, SingleUse.Inv;
    if step.Record? {
      RecordAddsOnly(env, s, step.call, step.serial);
    }
  }

  lemma RecordAddsOnly(env: Env, s: State, c: nat, serial: uint64)
    requires SingleUse.Inv(env, s) && Enabled(s, Record(c, serial))
    ensures var s' := AfterRecord(env, s, c, serial);
            && (forall g :: g in s.db.certs ==> g in s'.db.certs && s'.db.certs[g] == s.db.certs[g])
            && GrantOf(s, c) !in s.db.certs && s'.db.grants == s.db.grants && s'.ever == s.ever
  {
    hide VerifyProof, Issue, CertRowFor, ResponseFor;
    assert WinSound(env, s, GrantOf(s, c));
  }

  /** The steps of the outside world do the same to both runs. */
  lemma WorldStep(env: Env, s: State, e: State, step: Step, keep: set<nat>)
    requires Sim(s, e, keep) && Enabled(s, step) && SingleUse.Inv(env, s)
    requires step.Tick? || step.Create? || step.Revoke?
    ensures Enabled(e, step) && Sim(Next(env, s, step), Next(env, e, step), keep)
  {
    hide SingleUse.Inv, SimGrants;
    WorldStepGrants(env, s, e, step);
  }

  lemma WorldStepGrants(env: Env, s: State, e: State, step: Step)
    requires SimGrants(s, e) && e.clock == s.clock && Enabled(s, step) && (step.Tick? || step.Create? || step.Revoke?)
    ensures Enabled(e, step) && SimGrants(Next(env, s, step), Next(env, e, step))
  {
  }

  lemma NonceStep(env: Env, s: State, e: State, step: Step, keep: set<nat>)
    requires Sim(s, e, keep) && Enabled(s, step) && Kept(step, keep)
    requires step.Begin? || step.Prune? || step.Insert?
    requires step.Insert? ==> NonceKey(s.calls[step.call].req) !in s.db.nonces && NonceKey(s.calls[step.call].req) !in e.db.nonces
    ensures Enabled(e, step) && Sim(Next(env, s, step), Next(env, e, step), keep)
  {
    hide Precheck, NonceKey;
  }

  lemma ClaimStep(env: Env, s: State, e: State, c: nat, keep: set<nat>)
    requires Sim(s, e, keep) && Enabled(s, DoClaim(c)) && c in keep
    requires Going(AfterClaim(env, s, c).calls[c].phase)
    ensures Enabled(e, DoClaim(c)) && Sim(AfterClaim(env, s, c), AfterClaim(env, e, c), keep)
  {
    hide VerifyProof, KeyFp, SimGrants, SimCerts;
    ClaimStepGrants(env, s, e, c, keep);
    OnlyClaimsMoved(env, s, c);
    OnlyClaimsMoved(env, e, c);
    FrameCerts(s, e, AfterClaim(env, s, c), AfterClaim(env, e, c));
  }

  lemma OnlyClaimsMoved(env: Env, s: State, c: nat)
    requires c in s.calls
    ensures var s' := AfterClaim(env, s, c);
            && s'.db.nonces == s.db.nonces && s'.db.certs == s.db.certs && s'.clock == s.clock && s'.cutoff == s.cutoff
            && s'.ever == s.ever
  {
    hide VerifyProof, KeyFp, ClaimOutcome;
  }

  lemma FrameCerts(s: State, e: State, s': State, e': State)
    requires SimCerts(s, e) && s'.db.certs == s.db.certs && e'.db.certs == e.db.certs
    ensures SimCerts(s', e')
  {
  }

  lemma SameOutcome(s: State, e: State, id: bytes, now: int, verify: bytes -> Option<bool>)
    requires SimGrants(s, e) && ClaimOutcome(s.db, id, now, verify).ClaimOk?
    ensures ClaimOutcome(e.db, id, now, verify) == ClaimOutcome(s.db, id, now, verify)
  {
  }

  lemma BothClaimed(s: State, e: State, id: bytes, now: int, agent: bytes, fp: bytes)
    requires SimGrants(s, e) && id in s.db.grants && id in e.db.grants
    ensures SimGrants(s.(db := Claimed(s.db, id, now, agent, fp)), e.(db := Claimed(e.db, id, now, agent, fp)))
  {
  }

  lemma GrantsOnly(s: State, e: State, s': State, e': State)
    requires SimGrants(s, e) && s'.db == s.db && e'.db == e.db && s'.ever == s.ever && e'.ever == e.ever
    ensures SimGrants(s', e')
  {
  }

  lemma ClaimStepGrants(env: Env, s: State, e: State, c: nat, keep: set<nat>)
    requires SimCalls(s, e, keep) && SimGrants(s, e) && Enabled(s, DoClaim(c)) && c in keep
    requires Going(AfterClaim(env, s, c).calls[c].phase)
    ensures c in e.calls && SimGrants(AfterClaim(env, s, c), AfterClaim(env, e, c))
    ensures AfterClaim(env, s, c).calls[c] == AfterClaim(env, e, c).calls[c]
  {
    hide VerifyProof, KeyFp, SimGrants, ClaimOutcome, Claimed;
    var call := s.calls[c];
    var id, fp := call.req.payload.grantId, KeyFp(env, call.req);
    SameOutcome(s, e, id, call.now, VerifyProof(env, call.req));
    ClaimedExists(s.db, id, call.now, VerifyProof(env, call.req));
    ClaimedExists(e.db, id, call.now, VerifyProof(env, call.req));
    BothClaimed(s, e, id, call.now, call.req.payload.agentId, fp);
    GrantsOnly(s.(db := Claimed(s.db, id, call.now, call.req.payload.agentId, fp)),
               e.(db := Claimed(e.db, id, call.now, call.req.payload.agentId, fp)),
               AfterClaim(env, s, c), AfterClaim(env, e, c));
  }

  lemma ClaimedExists(db: DB, id: bytes, now: int, verify: bytes -> Option<bool>)
    requires ClaimOutcome(db, id, now, verify).ClaimOk?
    ensures id in db.grants
  {
  }

  lemma RecordStep(env: Env, s: State, e: State, c: nat, serial: uint64, keep: set<nat>)
    requires Sim(s, e, keep) && Enabled(s, Record(c, serial)) && c in keep && SingleUse.Inv(env, s)
    requires Going(AfterRecord(env, s, c, serial).calls[c].phase)
    ensures Enabled(e, Record(c, serial)) && Sim(AfterRecord(env, s, c, serial), AfterRecord(env, e, c, serial), keep)
  {
    hide Issue, CertRowFor, ResponseFor, SingleUse.Inv, SimGrants;
    RecordAddsOnly(env, s, c, serial);
    FrameGrants(s, e, AfterRecord(env, s, c, serial), AfterRecord(env, e, c, serial));
  }

  lemma FrameGrants(s: State, e: State, s': State, e': State)
    requires SimGrants(s, e)
    requires s'.db.grants == s.db.grants && e'.db.grants == e.db.grants && s'.ever == s.ever && e'.ever == e.ever
    ensures SimGrants(s', e')
  {
  }

  lemma KeptStep(env: Env, s: State, e: State, step: Step, keep: set<nat>)
    requires Sim(s, e, keep) && Enabled(s, step) && Kept(step, keep) && SingleUse.Inv(env, s)
    requires step.Insert? ==> NonceKey(s.calls[step.call].req) !in e.db.nonces
    requires forall c :: c in keep && c in Next(env, s, step).calls ==> Going(Next(env, s, step).calls[c].phase)
    ensures Enabled(e, step) && Sim(Next(env, s, step), Next(env, e, step), keep)
  {
    hide Sim, SingleUse.Inv, Precheck, ClaimOutcome, Issue, CertRowFor, ResponseFor, KeyFp, Recorded;
    match step
    case DoClaim(c) => ClaimStep(env, s, e, c, keep);
    case Record(c, serial) => RecordStep(env, s, e, c, serial, keep);
    case Begin(_, _) => NonceStep(env, s, e, step, keep);
    case Prune(_) => NonceStep(env, s, e, step, keep);
    case Insert(_) => NonceStep(env, s, e, step, keep);
    case Abort(_) => assert false;
    case _ => WorldStep(env, s, e, step, keep);
  }

  lemma FinishedStaysOne(env: Env, s: State, step: Step, c: nat)
    requires Enabled(s, step) && c in s.calls && s.calls[c].phase.Finished?
    ensures c in Next(env, s, step).calls && Next(env, s, step).calls[c] == s.calls[c]
  {
    hide Precheck, ClaimOutcome, Issue, CertRowFor, ResponseFor, KeyFp;
  }

  lemma {:induction false} FinishedStays(env: Env, s: State, steps: seq<Step>, c: nat)
    requires ValidRun(env, s, steps) && c in s.calls && s.calls[c].phase.Finished?
    ensures c in After(env, s, steps).calls && After(env, s, steps).calls[c] == s.calls[c]
    decreases steps
  {
    hide Next, Enabled;
    if steps != [] {
      FinishedStaysOne(env, s, steps[0], c);
      FinishedStays(env, Next(env, s, steps[0]), steps[1..], c);
    }
  }

  lemma GoingOn(env: Env, s: State, steps: seq<Step>, keep: set<nat>)
    requires ValidRun(env, s, steps) && forall c :: c in keep ==> IsIssued(After(env, s, steps), c)
    ensures forall c :: c in keep && c in s.calls ==> Going(s.calls[c].phase)
  {
    hide Next, Enabled;
    forall c | c in keep && c in s.calls ensures Going(s.calls[c].phase) {
      if s.calls[c].phase.Finished? {
        FinishedStays(env, s, steps, c);
      }
    }
  }

  /** If the erased run never meets a nonce it remembers, what it ends in is what was wanted. */
  lemma SafeIfAlike(env: Env, clock: int, steps: seq<Step>)
    requires ValidRun(env, Init(clock), steps)
    requires var keep := Successes(After(env, Init(clock), steps));
             && ValidRun(env, Init(clock), Erased(steps, keep))
             && Sim(After(env, Init(clock), steps), After(env, Init(clock), Erased(steps, keep)), keep)
    ensures ErasureSafe(env, Init(clock), steps)
  {
    hide Sim, SingleUse.Inv;
    var s0 := Init(clock);
    var s := After(env, s0, steps);
    var keep := Successes(s);
    assert SingleUse.Inv(env, s0) by { SingleUse.InitialInv(env, clock); }
    var e := After(env, s0, Erased(steps, keep));
    SingleUse.RunKeepsInv(env, s0, steps);
    SingleUse.RunKeepsInv(env, s0, Erased(steps, keep));
    forall c | IsIssued(s, c)
      ensures c in e.calls && e.calls[c] == s.calls[c] && GrantOf(s, c) in s.db.certs && GrantOf(s, c) in e.db.certs
      ensures e.db.certs[GrantOf(s, c)] == s.db.certs[GrantOf(s, c)]
    {
      SameSuccess(env, s, e, keep, c);
    }
  }

  // ---- Without stalls

  /** A nonce only the erased run remembers is older than some deletion in the full run. */
  predicate SimNonces(s: State, e: State) {
    forall k :: k in e.db.nonces ==> (k in s.db.nonces && s.db.nonces[k] == e.db.nonces[k]) || e.db.nonces[k] < s.cutoff
  }

  /** Between its own prune and its insert a call sees nothing older than its retention. */
  predicate Pruned(s: State, e: State) {
    && s.cutoff <= s.clock - NONCE_RETENTION
    && (forall c :: c in s.calls ==> s.calls[c].now <= s.clock)
    && forall c, k :: c in e.calls && e.calls[c].phase.ToInsert? && k in e.db.nonces ==>
         e.db.nonces[k] >= e.calls[c].now - NONCE_RETENTION
  }

  lemma ErasedStepNonces(env: Env, s: State, e: State, step: Step, keep: set<nat>)
    requires SimNonces(s, e) && Pruned(s, e) && Enabled(s, step) && !Kept(step, keep)
    ensures SimNonces(Next(env, s, step), e) && Pruned(Next(env, s, step), e)
  {
    hide Precheck, ClaimOutcome, Issue, CertRowFor, ResponseFor, KeyFp;
  }

  /** With the clock unmoved since the call began, a nonce new in the full run is new in the erased one. */
  lemma StillNew(s: State, e: State, c: nat, keep: set<nat>)
    requires SimCalls(s, e, keep) && SimNonces(s, e) && Pruned(s, e) && c in keep && c in s.calls
    requires s.calls[c].phase.ToInsert? && s.clock == s.calls[c].now && NonceKey(s.calls[c].req) !in s.db.nonces
    ensures c in e.calls && NonceKey(e.calls[c].req) !in e.db.nonces
  {
  }

  lemma NonceStepNonces(env: Env, s: State, e: State, step: Step, keep: set<nat>)
    requires SimCalls(s, e, keep) && SimNonces(s, e) && Pruned(s, e) && Enabled(s, step) && Enabled(e, step) && Kept(step, keep)
    requires step.Begin? || step.Prune? || step.Insert?
    requires step.Insert? ==>
      && s.clock == s.calls[step.call].now
      && NonceKey(s.calls[step.call].req) !in s.db.nonces && NonceKey(e.calls[step.call].req) !in e.db.nonces
    ensures SimNonces(Next(env, s, step), Next(env, e, step)) && Pruned(Next(env, s, step), Next(env, e, step))
  {
    hide Precheck, NonceKey;
  }

  /** A step that leaves the nonces alone, and nobody newly waiting to insert one. */
  predicate Quiet(s: State, s': State) {
    && s'.db.nonces == s.db.nonces && s'.cutoff == s.cutoff && s'.clock >= s.clock
    && forall c :: c in s'.calls ==>
         c in s.calls && s'.calls[c].now == s.calls[c].now && (s'.calls[c].phase.ToInsert? ==> s.calls[c].phase.ToInsert?)
  }

  lemma QuietStep(env: Env, s: State, step: Step)
    requires Enabled(s, step) && !step.Begin? && !step.Prune? && !step.Insert? && !step.PurgeGrants? && !step.PurgeNonces?
    ensures Quiet(s, Next(env, s, step))
  {
    hide Precheck, NonceKey, ClaimOutcome, VerifyProof, Issue, CertRowFor, ResponseFor, KeyFp;
  }

  lemma QuietNonces(s: State, e: State, s': State, e': State)
    requires SimNonces(s, e) && Pruned(s, e) && Quiet(s, s') && Quiet(e, e')
    ensures SimNonces(s', e') && Pruned(s', e')
  {
  }

  lemma InsertAccepted(env: Env, s: State, c: nat)
    requires Enabled(s, Insert(c)) && Going(Next(env, s, Insert(c)).calls[c].phase)
    ensures NonceKey(s.calls[c].req) !in s.db.nonces
  {
  }

  lemma {:induction false} SideBySide(env: Env, s: State, e: State, steps: seq<Step>, keep: set<nat>)
    requires Sim(s, e, keep) && SimNonces(s, e) && Pruned(s, e) && SingleUse.Inv(env, s)
    requires ValidRun(env, s, steps) && StallAtMost(env, s, steps, 0)
    requires forall c :: c in keep ==> IsIssued(After(env, s, steps), c)
    ensures ValidRun(env, e, Erased(steps, keep))
    ensures Sim(After(env, s, steps), After(env, e, Erased(steps, keep)), keep)
    decreases steps
  {
    hide SimGrants, SimCerts, SimNonces, SimCalls, SingleUse.Inv, Next, Kept, Pruned, NonceKey;
    if steps != [] {
      var step, s' := steps[0], Next(env, s, steps[0]);
      GoingOn(env, s', steps[1..], keep);
      SingleUse.StepKeepsInv(env, s, step);
      if Kept(step, keep) {
        assert step.Insert? ==> s.clock == s.calls[step.call].now && NonceKey(s.calls[step.call].req) !in s.db.nonces
                                && NonceKey(s.calls[step.call].req) !in e.db.nonces by {
          InsertIsNew(env, s, e, step, keep);
        }
        KeptStep(env, s, e, step, keep);
        KeptNonces(env, s, e, step, keep);
        SideBySide(env, s', Next(env, e, step), steps[1..], keep);
        assert Erased(steps, keep)[1..] == Erased(steps[1..], keep);
      } else {
        ErasedStep(env, s, e, step, keep);
        ErasedStepNonces(env, s, e, step, keep);
        SideBySide(env, s', e, steps[1..], keep);
      }
    }
  }

  lemma InsertIsNew(env: Env, s: State, e: State, step: Step, keep: set<nat>)
    requires SimCalls(s, e, keep) && SimNonces(s, e) && Pruned(s, e) && Enabled(s, step) && Kept(step, keep)
    requires step.Insert? ==> s.clock - s.calls[step.call].now <= 0
    requires forall c :: c in keep && c in Next(env, s, step).calls ==> Going(Next(env, s, step).calls[c].phase)
    ensures step.Insert? ==> s.clock == s.calls[step.call].now && NonceKey(s.calls[step.call].req) !in s.db.nonces
                             && NonceKey(s.calls[step.call].req) !in e.db.nonces
  {
    hide Next, NonceKey, SimNonces;
    if step.Insert? {
      CallStays(env, s, step, step.call);
      InsertAccepted(env, s, step.call);
      StillNew(s, e, step.call, keep);
    }
  }

  lemma KeptNonces(env: Env, s: State, e: State, step: Step, keep: set<nat>)
    requires SimCalls(s, e, keep) && SimNonces(s, e) && Pruned(s, e) && Enabled(s, step) && Enabled(e, step) && Kept(step, keep)
    requires step.Insert? ==> s.clock == s.calls[step.call].now && NonceKey(s.calls[step.call].req) !in s.db.nonces
                              && NonceKey(s.calls[step.call].req) !in e.db.nonces
    ensures SimNonces(Next(env, s, step), Next(env, e, step)) && Pruned(Next(env, s, step), Next(env, e, step))
  {
    hide Next, NonceKey, SimNonces, Pruned, Quiet;
    if step.Begin? || step.Prune? || step.Insert? {
      NonceStepNonces(env, s, e, step, keep);
    } else {
      QuietStep(env, s, step);
      QuietStep(env, e, step);
      QuietNonces(s, e, Next(env, s, step), Next(env, e, step));
    }
  }

  /** Without stalls, erasure is always safe. */
  lemma PromptErasureSafe(env: Env, clock: int, steps: seq<Step>)
    requires ValidRun(env, Init(clock), steps) && StallAtMost(env, Init(clock), steps, 0)
    ensures ErasureSafe(env, Init(clock), steps)
  {
    hide SimCalls, SimGrants, SimCerts, SimNonces, Pruned, SingleUse.Inv, ErasureSafe;
    var s0 := Init(clock);
    var keep := Successes(After(env, s0, steps));
    InitialSim(clock, keep);
    SingleUse.InitialInv(env, clock);
    SideBySide(env, s0, s0, steps, keep);
    SafeIfAlike(env, clock, steps);
  }

  // ---- With distinct nonces

  /** No two redemptions that succeeded used the same nonce. */
  predicate DistinctNonces(s: State) {
    forall a, b :: a in Successes(s) && b in Successes(s) && NonceKey(s.calls[a].req) == NonceKey(s.calls[b].req) ==> a == b
  }

  predicate Owns(call: Call, k: (bytes, bytes)) {
    NonceKey(call.req) == k && !call.phase.ToPrune? && !call.phase.ToInsert?
  }

  /** Every remembered nonce was inserted by a call that is still known. */
  predicate Owned(e: State) {
    forall k :: k in e.db.nonces ==> exists c :: c in e.calls && Owns(e.calls[c], k)
  }

  /** A call keeps its request, and its nonce once inserted. */
  lemma CallStays(env: Env, s: State, step: Step, c: nat)
    requires Enabled(s, step) && c in s.calls
    ensures var s' := Next(env, s, step);
            && c in s'.calls && s'.calls[c].req == s.calls[c].req
            && forall k :: Owns(s.calls[c], k) ==> Owns(s'.calls[c], k)
  {
    hide Precheck, ClaimOutcome, VerifyProof, Issue, CertRowFor, ResponseFor, KeyFp, NonceKey;
  }

  lemma NoncesComeFrom(env: Env, s: State, step: Step, k: (bytes, bytes))
    requires Enabled(s, step) && k in Next(env, s, step).db.nonces && k !in s.db.nonces
    ensures step.Insert? && step.call in Next(env, s, step).calls && Owns(Next(env, s, step).calls[step.call], k)
  {
    hide Precheck, ClaimOutcome, VerifyProof, Issue, CertRowFor, ResponseFor, KeyFp, NonceKey;
  }

  lemma OwnedStep(env: Env, e: State, step: Step)
    requires Owned(e) && Enabled(e, step)
    ensures Owned(Next(env, e, step))
  {
    hide Next, Enabled, Owns;
    var e' := Next(env, e, step);
    forall k | k in e'.db.nonces ensures exists c :: c in e'.calls && Owns(e'.calls[c], k) {
      if k in e.db.nonces {
        var c :| c in e.calls && Owns(e.calls[c], k);
        CallStays(env, e, step, c);
      } else {
        NoncesComeFrom(env, e, step, k);
      }
    }
  }

  lemma {:induction false} RequestStays(env: Env, s: State, steps: seq<Step>, c: nat)
    requires ValidRun(env, s, steps) && c in s.calls
    ensures c in After(env, s, steps).calls && After(env, s, steps).calls[c].req == s.calls[c].req
    decreases steps
  {
    hide Next, Enabled;
    if steps != [] {
      CallStays(env, s, steps[0], c);
      RequestStays(env, Next(env, s, steps[0]), steps[1..], c);
    }
  }

  /** The erased run remembers only nonces of other successes, so a kept call's is new to it. */
  lemma NewToErased(env: Env, s: State, e: State, steps: seq<Step>, keep: set<nat>, c: nat)
    requires SimCalls(s, e, keep) && Owned(e) && ValidRun(env, s, steps) && keep == Successes(After(env, s, steps))
    requires DistinctNonces(After(env, s, steps)) && c in keep && c in s.calls && s.calls[c].phase.ToInsert?
    ensures NonceKey(s.calls[c].req) !in e.db.nonces
  {
    hide ValidRun, After, NonceKey;
    if NonceKey(s.calls[c].req) in e.db.nonces {
      var b :| b in e.calls && Owns(e.calls[b], NonceKey(s.calls[c].req));
      RequestStays(env, s, steps, c);
      RequestStays(env, s, steps, b);
      assert false;
    }
  }

  lemma {:induction false} DistinctSideBySide(env: Env, s: State, e: State, steps: seq<Step>, keep: set<nat>)
    requires Sim(s, e, keep) && Owned(e) && SingleUse.Inv(env, s) && ValidRun(env, s, steps)
    requires keep == Successes(After(env, s, steps)) && DistinctNonces(After(env, s, steps))
    ensures ValidRun(env, e, Erased(steps, keep))
    ensures Sim(After(env, s, steps), After(env, e, Erased(steps, keep)), keep)
    decreases steps
  {
    hide SimGrants, SimCerts, SimCalls, SingleUse.Inv, Next, Kept, NonceKey, Owned, DistinctNonces;
    if steps != [] {
      var step, s' := steps[0], Next(env, s, steps[0]);
      GoingOn(env, s', steps[1..], keep);
      SingleUse.StepKeepsInv(env, s, step);
      if Kept(step, keep) {
        assert step.Insert? ==> NonceKey(s.calls[step.call].req) !in e.db.nonces by {
          if step.Insert? {
            assert step.call in keep by { KeptInsert(step, keep); }
            NewToErased(env, s, e, steps, keep, step.call);
          }
        }
        KeptStep(env, s, e, step, keep);
        OwnedStep(env, e, step);
        DistinctSideBySide(env, s', Next(env, e, step), steps[1..], keep);
        assert Erased(steps, keep)[1..] == Erased(steps[1..], keep);
      } else {
        ErasedStep(env, s, e, step, keep);
        DistinctSideBySide(env, s', e, steps[1..], keep);
      }
    }
  }

  lemma KeptInsert(step: Step, keep: set<nat>)
    requires step.Insert? && Kept(step, keep)
    ensures step.call in keep
  {
  }

  /** However long calls stall, erasure is safe when no two successes share a nonce. */
  lemma DistinctErasureSafe(env: Env, clock: int, steps: seq<Step>)
    requires ValidRun(env, Init(clock), steps) && DistinctNonces(After(env, Init(clock), steps))
    ensures ErasureSafe(env, Init(clock), steps)
  {
    hide SimCalls, SimGrants, SimCerts, SingleUse.Inv, ErasureSafe, DistinctNonces;
    var s0 := Init(clock);
    var keep := Successes(After(env, s0, steps));
    InitialSim(clock, keep);
    SingleUse.InitialInv(env, clock);
    DistinctSideBySide(env, s0, s0, steps, keep);
    SafeIfAlike(env, clock, steps);
  }

  lemma InitialSim(clock: int, keep: set<nat>)
    ensures Sim(Init(clock), Init(clock), keep) && SimNonces(Init(clock), Init(clock)) && Pruned(Init(clock), Init(clock))
  {
  }

  lemma SameSuccess(env: Env, s: State, e: State, keep: set<nat>, c: nat)
    requires Sim(s, e, keep) && SingleUse.Inv(env, s) && SingleUse.Inv(env, e) && c in keep && IsIssued(s, c)
    ensures c in e.calls && e.calls[c] == s.calls[c] && GrantOf(s, c) in s.db.certs && GrantOf(s, c) in e.db.certs
    ensures e.db.certs[GrantOf(s, c)] == s.db.certs[GrantOf(s, c)]
  {
    hide VerifyProof, Issue, CertRowFor, ResponseFor;
    assert IssueSound(env, s, c);
    assert IsIssued(e, c) && IssueSound(env, e, c);
  }

  // ---- A stall of one second breaks it

  /** The first two statements of a sound and fresh request. */
  lemma Starts(env: Env, s: State, c: nat, req: Request, stall: int)
    requires Sound(env, req) && WithinSkew(s.clock, req.payload.timestamp) && c !in s.calls
    ensures var steps := [Begin(c, req), Prune(c)];
            ValidRun(env, s, steps) && StallAtMost(env, s, steps, stall)
    ensures var s' := After(env, s, [Begin(c, req), Prune(c)]);
            s' == s.(calls := s.calls[c := Call(req, s.clock, ToInsert)],
                     db := NoncesPurged(s.db, s.clock - NONCE_RETENTION),
                     cutoff := Max(s.cutoff, s.clock - NONCE_RETENTION))
  {
    hide Precheck, NoncesPurged;
    PrecheckIsSoundAndFresh(env, req, s.clock);
    var s1 := Next(env, s, Begin(c, req));
    Prepended(env, s1, Prune(c), [], [Prune(c)], stall);
    Prepended(env, s, Begin(c, req), [Prune(c)], [Begin(c, req), Prune(c)], stall);
  }

  /** Everything a call needs to go through once its nonce is new. */
  predicate WillSucceed(env: Env, s: State, c: nat, serial: uint64) {
    && c in s.calls && s.calls[c].phase.ToInsert? && NonceKey(s.calls[c].req) !in s.db.nonces && env.host.Some?
    && var g, call := GrantOf(s, c), s.calls[c];
    && ClaimOutcome(s.db, g, call.now, VerifyProof(env, call.req)).ClaimOk?
    && Issue(env, call.req, call.now, s.db.grants[g].sshUser, s.db.grants[g].expiresAt, serial).Some?
    && g !in s.db.certs && forall h :: h in s.db.certs ==> s.db.certs[h].serial != Signed(serial)
  }

  /** The state after the rest of a call that will succeed. */
  function AfterRest(env: Env, s: State, c: nat, serial: uint64): State
    requires WillSucceed(env, s, c, serial)
  {
    AfterRecord(env, AfterClaim(env, AfterInsert(s, c), c), c, serial)
  }

  lemma RestSucceeds(env: Env, s: State, c: nat, serial: uint64)
    requires WillSucceed(env, s, c, serial)
    ensures var s1 := AfterInsert(s, c);
            var s2 := AfterClaim(env, s1, c);
            Enabled(s, Insert(c)) && Enabled(s1, DoClaim(c)) && Enabled(s2, Record(c, serial))
    ensures var s' := AfterRest(env, s, c, serial);
            && IsIssued(s', c) && s'.calls == s.calls[c := s'.calls[c]] && s'.clock == s.clock
            && s'.db.nonces == s.db.nonces[NonceKey(s.calls[c].req) := s.calls[c].now]
            && (forall g :: g in s.db.grants && g != GrantOf(s, c) ==> g in s'.db.grants && s'.db.grants[g] == s.db.grants[g])
            && GrantOf(s, c) in s'.db.certs && s'.db.certs[GrantOf(s, c)].serial == Signed(serial)
            && s'.db.certs == s.db.certs[GrantOf(s, c) := s'.db.certs[GrantOf(s, c)]]
  {
    hide VerifyProof, KeyFp, Issue, ResponseFor;
    var call, g := s.calls[c], GrantOf(s, c);
    var s1 := AfterInsert(s, c);
    var s2 := AfterClaim(env, s1, c);
    assert ClaimOutcome(s1.db, g, call.now, VerifyProof(env, call.req)) == ClaimOutcome(s.db, g, call.now, VerifyProof(env, call.req));
    assert s2.calls[c].phase == ToRecord(s.db.grants[g].sshUser, s.db.grants[g].expiresAt);
    IssuedSerial(env, call.req, call.now, s.db.grants[g].sshUser, s.db.grants[g].expiresAt, serial);
  }

  lemma Finishes(env: Env, s: State, c: nat, serial: uint64, stall: int)
    requires WillSucceed(env, s, c, serial) && s.clock - s.calls[c].now <= stall
    ensures var steps := [Insert(c), DoClaim(c), Record(c, serial)];
            ValidRun(env, s, steps) && StallAtMost(env, s, steps, stall) && After(env, s, steps) == AfterRest(env, s, c, serial)
    ensures var s' := AfterRest(env, s, c, serial);
            && IsIssued(s', c) && s'.calls == s.calls[c := s'.calls[c]] && s'.clock == s.clock
            && s'.db.nonces == s.db.nonces[NonceKey(s.calls[c].req) := s.calls[c].now]
            && (forall g :: g in s.db.grants && g != GrantOf(s, c) ==> g in s'.db.grants && s'.db.grants[g] == s.db.grants[g])
            && GrantOf(s, c) in s'.db.certs && s'.db.certs[GrantOf(s, c)].serial == Signed(serial)
            && s'.db.certs == s.db.certs[GrantOf(s, c) := s'.db.certs[GrantOf(s, c)]]
  {
    hide AfterInsert, AfterClaim, AfterRecord;
    RestSucceeds(env, s, c, serial);
    var s1 := AfterInsert(s, c);
    var s2 := AfterClaim(env, s1, c);
    Prepended(env, s2, Record(c, serial), [], [Record(c, serial)], stall);
    Prepended(env, s1, DoClaim(c), [Record(c, serial)], [DoClaim(c), Record(c, serial)], stall);
    Prepended(env, s, Insert(c), [DoClaim(c), Record(c, serial)], [Insert(c), DoClaim(c), Record(c, serial)], stall);
  }

  /**
   * Two redemptions of two grants that happen to share a nonce, 480 seconds apart, and a third
   * call one second later.
   */
  datatype Clash = Clash(
    first: Request, second: Request, other: Request, secret1: bytes, secret2: bytes, user: bytes,
    serial1: uint64, serial2: uint64)

  predicate Clashes(env: Env, w: Clash) {
    var t := w.first.payload.timestamp;
    && Sound(env, w.first) && Sound(env, w.second) && Sound(env, w.other)
    && NonceKey(w.first) == NonceKey(w.second) && w.first.payload.grantId != w.second.payload.grantId
    && w.second.payload.timestamp == t + NONCE_RETENTION && w.other.payload.timestamp == t + NONCE_RETENTION + 1
    && VerifyProof(env, w.first)(w.secret1) == Some(true) && VerifyProof(env, w.second)(w.secret2) == Some(true)
    && w.user != [] && w.user != Ascii("root") && Signed(w.serial1) != Signed(w.serial2)
  }

  function Setup(w: Clash): seq<Step> {
    var t := w.first.payload.timestamp;
    [Create(w.first.payload.grantId, w.secret1, w.user, t, t + 1000),
     Create(w.second.payload.grantId, w.secret2, w.user, t, t + 1000)]
  }

  function FirstWins(w: Clash): seq<Step> {
    [Begin(0, w.first), Prune(0)] + [Insert(0), DoClaim(0), Record(0, w.serial1)]
  }

  function SecondStalls(w: Clash): seq<Step> {
    var t := w.first.payload.timestamp + NONCE_RETENTION;
    [Tick(t)] + [Begin(1, w.second), Prune(1)] + [Tick(t + 1)]
  }

  function OtherPrunes(w: Clash): seq<Step> {
    [Begin(2, w.other), Prune(2)]
  }

  function SecondWins(w: Clash): seq<Step> {
    [Insert(1), DoClaim(1), Record(1, w.serial2)]
  }

  function ClashRun(w: Clash): seq<Step> {
    Setup(w) + FirstWins(w) + SecondStalls(w) + OtherPrunes(w) + SecondWins(w)
  }

  function FreshRow(w: Clash, secret: bytes): Row {
    var t := w.first.payload.timestamp;
    Row(secret, w.user, t, t + 1000, None, None, [], [])
  }

  predicate AfterSetup(w: Clash, s: State) {
    && s.clock == w.first.payload.timestamp && s.calls == map[] && s.db.certs == map[] && s.db.nonces == map[]
    && w.first.payload.grantId in s.db.grants && s.db.grants[w.first.payload.grantId] == FreshRow(w, w.secret1)
    && w.second.payload.grantId in s.db.grants && s.db.grants[w.second.payload.grantId] == FreshRow(w, w.secret2)
  }

  predicate AfterFirst(w: Clash, s: State) {
    && s.clock == w.first.payload.timestamp && s.calls.Keys == {0} && IsIssued(s, 0)
    && s.db.nonces == map[NonceKey(w.first) := w.first.payload.timestamp]
    && s.db.certs.Keys == {w.first.payload.grantId} && s.db.certs[w.first.payload.grantId].serial == Signed(w.serial1)
    && w.second.payload.grantId in s.db.grants && s.db.grants[w.second.payload.grantId] == FreshRow(w, w.secret2)
  }

  /** The second call has pruned and stalls; the first call's nonce is in the table exactly when `seen`. */
  predicate AfterStall(w: Clash, s: State, seen: bool) {
    && s.clock == w.first.payload.timestamp + NONCE_RETENTION + 1 && IsIssued(s, 0)
    && s.calls.Keys == (if seen then {0, 1} else {0, 1, 2}) && (2 in s.calls ==> !IsIssued(s, 2))
    && s.calls[1] == Call(w.second, s.clock - 1, ToInsert)
    && s.db.nonces == (if seen then map[NonceKey(w.first) := w.first.payload.timestamp] else map[])
    && s.db.certs.Keys == {w.first.payload.grantId} && s.db.certs[w.first.payload.grantId].serial == Signed(w.serial1)
    && w.second.payload.grantId in s.db.grants && s.db.grants[w.second.payload.grantId] == FreshRow(w, w.secret2)
  }

  lemma SetupRuns(env: Env, w: Clash, stall: int)
    requires Clashes(env, w)
    ensures var s0 := Init(w.first.payload.timestamp);
            ValidRun(env, s0, Setup(w)) && StallAtMost(env, s0, Setup(w), stall) && AfterSetup(w, After(env, s0, Setup(w)))
  {
    hide Sound, VerifyProof;
    var s0, steps := Init(w.first.payload.timestamp), Setup(w);
    var s1 := Next(env, s0, steps[0]);
    Prepended(env, s1, steps[1], [], [steps[1]], stall);
    Prepended(env, s0, steps[0], [steps[1]], steps, stall);
  }

  lemma Proceeds(env: Env, w: Clash, s: State, c: nat, req: Request, secret: bytes, serial: uint64)
    requires Clashes(env, w) && (req, secret, serial) in {(w.first, w.secret1, w.serial1), (w.second, w.secret2, w.serial2)}
    requires c in s.calls && s.calls[c].req == req && s.calls[c].phase.ToInsert? && NonceKey(req) !in s.db.nonces
    requires s.calls[c].now == req.payload.timestamp
    requires req.payload.grantId in s.db.grants && s.db.grants[req.payload.grantId] == FreshRow(w, secret)
    requires req.payload.grantId !in s.db.certs && forall h :: h in s.db.certs ==> s.db.certs[h].serial != Signed(serial)
    ensures WillSucceed(env, s, c, serial)
  {
    hide VerifyProof, Ascii;
  }

  lemma FirstRuns(env: Env, w: Clash, s: State, stall: int)
    requires Clashes(env, w) && AfterSetup(w, s) && stall >= 0
    ensures ValidRun(env, s, FirstWins(w)) && StallAtMost(env, s, FirstWins(w), stall)
    ensures AfterFirst(w, After(env, s, FirstWins(w)))
  {
    hide Sound, VerifyProof, ValidRun, StallAtMost, After, WillSucceed;
    Starts(env, s, 0, w.first, stall);
    var s1 := After(env, s, [Begin(0, w.first), Prune(0)]);
    Proceeds(env, w, s1, 0, w.first, w.secret1, w.serial1);
    Finishes(env, s1, 0, w.serial1, stall);
    Joined(env, s, [Begin(0, w.first), Prune(0)], [Insert(0), DoClaim(0), Record(0, w.serial1)], stall);
  }

  lemma Ticks(env: Env, s: State, t: int, stall: int)
    requires t >= s.clock
    ensures ValidRun(env, s, [Tick(t)]) && StallAtMost(env, s, [Tick(t)], stall)
    ensures After(env, s, [Tick(t)]) == s.(clock := t)
  {
    Prepended(env, s, Tick(t), [], [Tick(t)], stall);
  }

  lemma StallRuns(env: Env, w: Clash, s: State, stall: int)
    requires Clashes(env, w) && AfterFirst(w, s) && stall >= 0
    ensures ValidRun(env, s, SecondStalls(w)) && StallAtMost(env, s, SecondStalls(w), stall)
    ensures AfterStall(w, After(env, s, SecondStalls(w)), true)
  {
    hide Sound, VerifyProof, ValidRun, StallAtMost, After;
    var t := w.first.payload.timestamp + NONCE_RETENTION;
    Ticks(env, s, t, stall);
    var s1 := After(env, s, [Tick(t)]);
    Starts(env, s1, 1, w.second, stall);
    var s2 := After(env, s1, [Begin(1, w.second), Prune(1)]);
    assert s2.db.nonces == s.db.nonces;
    Joined(env, s, [Tick(t)], [Begin(1, w.second), Prune(1)], stall);
    Ticks(env, s2, t + 1, stall);
    Joined(env, s, [Tick(t)] + [Begin(1, w.second), Prune(1)], [Tick(t + 1)], stall);
  }

  lemma OtherRuns(env: Env, w: Clash, s: State, stall: int)
    requires Clashes(env, w) && AfterStall(w, s, true) && stall >= 0
    ensures ValidRun(env, s, OtherPrunes(w)) && StallAtMost(env, s, OtherPrunes(w), stall)
    ensures AfterStall(w, After(env, s, OtherPrunes(w)), false)
  {
    hide Sound, VerifyProof, ValidRun, StallAtMost, After;
    Starts(env, s, 2, w.other, stall);
  }

  lemma SecondRuns(env: Env, w: Clash, s: State)
    requires Clashes(env, w) && AfterStall(w, s, false)
    ensures ValidRun(env, s, SecondWins(w)) && StallAtMost(env, s, SecondWins(w), 1)
    ensures Successes(After(env, s, SecondWins(w))) == {0, 1}
  {
    hide Sound, VerifyProof, ValidRun, StallAtMost, After, WillSucceed;
    Proceeds(env, w, s, 1, w.second, w.secret2, w.serial2);
    Finishes(env, s, 1, w.serial2, 1);
    var s' := After(env, s, SecondWins(w));
    assert s'.calls[0] == s.calls[0] && s'.calls[2] == s.calls[2];
  }

  /** With the nonce still remembered, the second call is refused and cannot go on to claim. */
  lemma SecondRefused(env: Env, w: Clash, s: State)
    requires Clashes(env, w) && AfterStall(w, s, true)
    ensures !ValidRun(env, s, SecondWins(w))
  {
    hide Sound, VerifyProof;
    var rest := [DoClaim(1), Record(1, w.serial2)];
    assert SecondWins(w)[1..] == rest;
    assert rest[0] == DoClaim(1);
    assert !Enabled(AfterInsert(s, 1), DoClaim(1));
  }

  lemma {:induction false} ErasedJoined(a: seq<Step>, b: seq<Step>, keep: set<nat>)
    ensures Erased(a + b, keep) == Erased(a, keep) + Erased(b, keep)
  {
    hide Kept;
    if a == [] {
      assert a + b == b;
    } else {
      assert (a + b)[1..] == a[1..] + b;
      ErasedJoined(a[1..], b, keep);
    }
  }

  lemma {:induction false} AllKept(steps: seq<Step>, keep: set<nat>)
    requires forall x :: x in steps ==> Kept(x, keep)
    ensures Erased(steps, keep) == steps
  {
    hide Kept;
    if steps != [] {
      AllKept(steps[1..], keep);
    }
  }

  lemma {:induction false} SplitRun(env: Env, s: State, a: seq<Step>, b: seq<Step>)
    requires ValidRun(env, s, a + b) && ValidRun(env, s, a)
    ensures ValidRun(env, After(env, s, a), b)
    decreases a
  {
    hide Next, Enabled;
    if a == [] {
      assert a + b == b;
    } else {
      assert (a + b)[1..] == a[1..] + b;
      SplitRun(env, Next(env, s, a[0]), a[1..], b);
    }
  }

  lemma ClashErased(w: Clash)
    ensures Erased(ClashRun(w), {0, 1}) == Setup(w) + FirstWins(w) + SecondStalls(w) + SecondWins(w)
  {
    var keep := {0, 1};
    var abc := Setup(w) + FirstWins(w) + SecondStalls(w);
    AllKept(abc, keep);
    AllKept(SecondWins(w), keep);
    assert Erased(OtherPrunes(w), keep) == [] by {
      assert OtherPrunes(w)[1..] == [Prune(2)];
      assert [Prune(2)][1..] == [];
    }
    ErasedJoined(abc, OtherPrunes(w), keep);
    ErasedJoined(abc + OtherPrunes(w), SecondWins(w), keep);
  }

  lemma ClashRuns(env: Env, w: Clash)
    requires Clashes(env, w)
    ensures var s0, steps := Init(w.first.payload.timestamp), ClashRun(w);
            ValidRun(env, s0, steps) && StallAtMost(env, s0, steps, 1) && Successes(After(env, s0, steps)) == {0, 1}
    ensures var s0, abc := Init(w.first.payload.timestamp), Setup(w) + FirstWins(w) + SecondStalls(w);
            ValidRun(env, s0, abc) && AfterStall(w, After(env, s0, abc), true)
  {
    hide Clashes, ValidRun, StallAtMost, After, Setup, FirstWins, SecondStalls, OtherPrunes, SecondWins;
    hide AfterSetup, AfterFirst, AfterStall, Successes;
    var s0 := Init(w.first.payload.timestamp);
    var a, b, c, d := Setup(w), FirstWins(w), SecondStalls(w), OtherPrunes(w);
    SetupRuns(env, w, 1);
    FirstRuns(env, w, After(env, s0, a), 1);
    Joined(env, s0, a, b, 1);
    StallRuns(env, w, After(env, s0, a + b), 1);
    Joined(env, s0, a + b, c, 1);
    OtherRuns(env, w, After(env, s0, a + b + c), 1);
    Joined(env, s0, a + b + c, d, 1);
    SecondRuns(env, w, After(env, s0, a + b + c + d));
    Joined(env, s0, a + b + c + d, SecondWins(w), 1);
  }

  lemma ClashUnsafe(env: Env, w: Clash)
    requires Clashes(env, w)
    ensures var s0 := Init(w.first.payload.timestamp);
            ValidRun(env, s0, ClashRun(w)) && StallAtMost(env, s0, ClashRun(w), 1) && !ErasureSafe(env, s0, ClashRun(w))
  {
    hide Clashes, ValidRun, StallAtMost, After, ClashRun, Setup, FirstWins, SecondStalls, SecondWins, Successes, AfterStall;
    var s0, abc := Init(w.first.payload.timestamp), Setup(w) + FirstWins(w) + SecondStalls(w);
    ClashRuns(env, w);
    ClashErased(w);
    SecondRefused(env, w, After(env, s0, abc));
    if ValidRun(env, s0, abc + SecondWins(w)) {
      SplitRun(env, s0, abc, SecondWins(w));
    }
  }

  /** Erasure is safe in every run exactly when no call stalls at all. */
  lemma ErasureBound(env: Env, stall: int, w: Clash)
    requires Clashes(env, w) && stall >= 0
    ensures stall == 0 <==>
            forall clock, steps :: ValidRun(env, Init(clock), steps) && StallAtMost(env, Init(clock), steps, stall) ==>
              ErasureSafe(env, Init(clock), steps)
  {
    hide ValidRun, StallAtMost, ErasureSafe, Clashes, ClashRun;
    if stall == 0 {
      forall clock, steps | ValidRun(env, Init(clock), steps) && StallAtMost(env, Init(clock), steps, stall)
        ensures ErasureSafe(env, Init(clock), steps)
      {
        PromptErasureSafe(env, clock, steps);
      }
    } else {
      ClashUnsafe(env, w);
      StallMonotone(env, Init(w.first.payload.timestamp), ClashRun(w), 1, stall);
    }
  }
}
