/** What a redemption request must be like: the conditions one by one, and what happens to a call that fails one. */
module Requests {
  import opened Bytes
  import opened Ids
  import opened Messages
  import opened Store
  import opened Redemption
  import opened SingleUse

  /**
   * A request worth acting on at `now`: version 1, for this host and a well-formed grant, at most two
   * minutes off, with an agent id that is its key's, an agent signature over its fields and a usable
   * SSH key.
   */
  predicate Genuine(env: Env, req: Request, now: int) {
    var p := req.payload;
    && p.version == 1 && env.host.Some? && p.hostId == env.host.value.hostId && ValidGrantId(p.grantId)
    && -120 <= now - p.timestamp <= 120 && |p.nonce| == 16 && |p.agentKey| == 32 && p.agentId == env.agentIdOf(p.agentKey)
    && var signed := CanonicalBytes(RedeemSigned(p));
    && signed.Ok? && |req.agentSignature| == 64 && env.verifies(p.agentKey, signed.value, req.agentSignature)
    && env.sshKeyOf(p.sshKey).Some?
  }

  const CONDITIONS: nat := 11

  /** The conditions in the order they are looked at. */
  predicate Meets(env: Env, req: Request, now: int, k: nat) {
    var p, signed := req.payload, CanonicalBytes(RedeemSigned(req.payload));
    match k
    case 0 => p.version == 1
    case 1 => env.host.Some?
    case 2 => env.host.Some? && p.hostId == env.host.value.hostId
    case 3 => ValidGrantId(p.grantId)
    case 4 => -120 <= now - p.timestamp <= 120
    case 5 => |p.nonce| == 16
    case 6 => |p.agentKey| == 32
    case 7 => p.agentId == env.agentIdOf(p.agentKey)
    case 8 => signed.Ok?
    case 9 => signed.Ok? && |req.agentSignature| == 64 && env.verifies(p.agentKey, signed.value, req.agentSignature)
    case 10 => env.sshKeyOf(p.sshKey).Some?
    case _ => true
  }

  /** What the caller is told when that condition is the first one not met. */
  function CodeFor(k: nat): Code {
    match k
    case 0 => UnsupportedVersion
    case 1 => Internal
    case 2 => IdMismatch
    case 4 => StaleTimestamp
    case 7 => IdMismatch
    case 9 => BadSignature
    case _ => BadRequest
  }

  predicate FirstFault(env: Env, req: Request, now: int, k: nat) {
    k < CONDITIONS && !Meets(env, req, now, k) && forall i :: 0 <= i < k ==> Meets(env, req, now, i)
  }

  /** Genuine means no fault, and a request that is not genuine has a first one. */
  lemma GenuineOrFaulty(env: Env, req: Request, now: int)
    ensures Genuine(env, req, now) <==> forall k :: 0 <= k < CONDITIONS ==> Meets(env, req, now, k)
    ensures Genuine(env, req, now) <==> !exists k :: FirstFault(env, req, now, k)
  {
    hide CanonicalBytes, ValidGrantId;
    if forall k :: 0 <= k < CONDITIONS ==> Meets(env, req, now, k) {
      AllMet(env, req, now);
    } else {
      var k: nat :| k < CONDITIONS && !Meets(env, req, now, k);
      var first := Earliest(env, req, now, k);
    }
  }

  lemma AllMet(env: Env, req: Request, now: int)
    requires forall k :: 0 <= k < CONDITIONS ==> Meets(env, req, now, k)
    ensures Genuine(env, req, now)
  {
    hide CanonicalBytes, ValidGrantId;
    assert Meets(env, req, now, 0) && Meets(env, req, now, 1) && Meets(env, req, now, 2) && Meets(env, req, now, 3);
    assert Meets(env, req, now, 4) && Meets(env, req, now, 5) && Meets(env, req, now, 6) && Meets(env, req, now, 7);
    assert Meets(env, req, now, 9) && Meets(env, req, now, 10);
  }

  lemma {:induction false} Earliest(env: Env, req: Request, now: int, k: nat) returns (first: nat)
    requires k < CONDITIONS && !Meets(env, req, now, k)
    ensures FirstFault(env, req, now, first)
    decreases k
  {
    hide Meets;
    if i: nat :| i < k && !Meets(env, req, now, i) {
      first := Earliest(env, req, now, i);
    } else {
      first := k;
    }
  }

  /** The checks pass exactly the genuine requests and name the first fault of the others. */
  lemma PrecheckExactly(env: Env, req: Request, now: int)
    ensures Precheck(env, req, now).None? <==> Genuine(env, req, now)
    ensures forall k :: FirstFault(env, req, now, k) ==> Precheck(env, req, now) == Some(CodeFor(k))
  {
    hide CanonicalBytes, ValidGrantId;
    forall k | FirstFault(env, req, now, k) ensures Precheck(env, req, now) == Some(CodeFor(k)) {
      FaultIsNamed(env, req, now, k);
    }
  }

  lemma FaultIsNamed(env: Env, req: Request, now: int, k: nat)
    requires FirstFault(env, req, now, k)
    ensures Precheck(env, req, now) == Some(CodeFor(k))
  {
    hide CanonicalBytes, ValidGrantId;
    assert forall i :: 0 <= i < k ==> Meets(env, req, now, i);
    assert k > 0 ==> Meets(env, req, now, 0);
    assert k > 1 ==> Meets(env, req, now, 1);
    assert k > 2 ==> Meets(env, req, now, 2);
    assert k > 3 ==> Meets(env, req, now, 3);
    assert k > 4 ==> Meets(env, req, now, 4);
    assert k > 5 ==> Meets(env, req, now, 5);
    assert k > 6 ==> Meets(env, req, now, 6);
    assert k > 7 ==> Meets(env, req, now, 7);
    assert k > 8 ==> Meets(env, req, now, 8);
    assert k > 9 ==> Meets(env, req, now, 9);
  }

  // ---- Over runs

  /** The refusals that come after the checks. */
  predicate LaterCode(code: Code) {
    code in {ReplayedNonce, GrantNotFound, GrantRevoked, GrantExpired, GrantAlreadyRedeemed, ProofRejected}
  }

  /** A faulty request is refused for its first fault and that is the end of it; a genuine one is not refused for any. */
  ghost predicate Judged(env: Env, call: Call) {
    && (forall k :: FirstFault(env, call.req, call.now, k) ==> call.phase == Finished(Refused(CodeFor(k))))
    && (Genuine(env, call.req, call.now) && call.phase.Finished? && call.phase.outcome.Refused? ==> LaterCode(call.phase.outcome.code))
  }

  /** Call `c` began at step `k`, with this request and this reading of the clock. */
  predicate BeganAt(env: Env, s: State, steps: seq<Step>, c: nat, call: Call, k: nat)
    requires ValidRun(env, s, steps)
  {
    k < |steps| && steps[k] == Begin(c, call.req) && At(env, s, steps, k).clock == call.now
  }

  /** A call moves on only if it is not finished, and then not to a refusal the checks give. */
  lemma CallMoves(env: Env, s: State, step: Step, c: nat)
    requires Enabled(s, step) && c in Next(env, s, step).calls
    ensures var call' := Next(env, s, step).calls[c];
            if c in s.calls then
              && call'.req == s.calls[c].req && call'.now == s.calls[c].now
              && (call' == s.calls[c] || (!s.calls[c].phase.Finished? && MovedOn(call'.phase)))
            else
              step == Begin(c, call'.req) && call'.now == s.clock
              && call'.phase == match Precheck(env, call'.req, s.clock) case Some(code) => Finished(Refused(code)) case None => ToPrune
  {
    hide Precheck, ClaimOutcome, VerifyProof, Issue, CertRowFor, ResponseFor, KeyFp, Recorded;
  }

  predicate MovedOn(p: Phase) {
    p.Finished? && p.outcome.Refused? ==> LaterCode(p.outcome.code)
  }

  lemma JudgedAtFirst(env: Env, call: Call)
    requires call.phase == match Precheck(env, call.req, call.now) case Some(code) => Finished(Refused(code)) case None => ToPrune
    ensures Judged(env, call)
  {
    hide Precheck, Genuine, FirstFault;
    PrecheckExactly(env, call.req, call.now);
    GenuineOrFaulty(env, call.req, call.now);
  }

  lemma JudgedLater(env: Env, call: Call, call': Call)
    requires Judged(env, call) && call'.req == call.req && call'.now == call.now
    requires call' == call || (!call.phase.Finished? && MovedOn(call'.phase))
    ensures Judged(env, call')
  {
    hide Genuine, FirstFault, LaterCode;
  }

  lemma {:induction false} CallsJudged(env: Env, s: State, steps: seq<Step>, n: nat, c: nat)
    requires ValidRun(env, s, steps) && s.calls == map[] && n <= |steps| && c in At(env, s, steps, n).calls
    ensures Judged(env, At(env, s, steps, n).calls[c])
    ensures exists k: nat :: k < n && BeganAt(env, s, steps, c, At(env, s, steps, n).calls[c], k)
    decreases n
  {
    hide Next, Enabled, Judged, MovedOn;
    assert n > 0;
    var before := At(env, s, steps, n - 1);
    AtStep(env, s, steps, n - 1);
    CallMoves(env, before, steps[n - 1], c);
    var call' := At(env, s, steps, n).calls[c];
    if c in before.calls {
      CallsJudged(env, s, steps, n - 1, c);
      JudgedLater(env, before.calls[c], call');
      var k: nat :| k < n - 1 && BeganAt(env, s, steps, c, before.calls[c], k);
      assert BeganAt(env, s, steps, c, call', k);
    } else {
      JudgedAtFirst(env, call');
      assert BeganAt(env, s, steps, c, call', n - 1);
    }
  }

  /** In every run: a call whose request has a fault is refused for the first one; no genuine request is. */
  lemma RefusedForTheFirstFault(env: Env, clock: int, steps: seq<Step>, c: nat)
    requires ValidRun(env, Init(clock), steps) && c in After(env, Init(clock), steps).calls
    ensures Judged(env, After(env, Init(clock), steps).calls[c])
  {
    hide Judged, BeganAt;
    AtEnd(env, Init(clock), steps);
    CallsJudged(env, Init(clock), steps, |steps|, c);
  }

  /** In every run: a certificate went only to a genuine request, judged by the clock at the step its call began. */
  lemma IssuedIsGenuine(env: Env, clock: int, steps: seq<Step>, c: nat)
    requires ValidRun(env, Init(clock), steps) && IsIssued(After(env, Init(clock), steps), c)
    ensures var call := After(env, Init(clock), steps).calls[c];
            && Genuine(env, call.req, call.now)
            && exists k: nat :: BeganAt(env, Init(clock), steps, c, call, k)
  {
    hide Genuine, BeganAt, FirstFault;
    AtEnd(env, Init(clock), steps);
    CallsJudged(env, Init(clock), steps, |steps|, c);
    var call := After(env, Init(clock), steps).calls[c];
    GenuineOrFaulty(env, call.req, call.now);
  }
}
