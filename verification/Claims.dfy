/** The life of a grant in the signer's database: created, perhaps revoked, claimed at most once, purged long after. */
module Claims {
  import opened Bytes
  import opened Messages
  import opened Store
  import opened Redemption
  import opened SingleUse

  /** There is something to claim: the grant is stored, not revoked, not expired and not yet claimed. */
  predicate Claimable(db: DB, id: bytes, now: int) {
    id in db.grants && db.grants[id].revokedAt.None? && now < db.grants[id].expiresAt && db.grants[id].redeemedAt.None?
  }

  /** The proof is the MAC of the payload under this secret. */
  predicate Proves(env: Env, req: Request, secret: bytes) {
    var mac := CanonicalBytes(RedeemProved(req.payload));
    mac.Ok? && env.hmac(secret, mac.value) == req.proof
  }

  /** The fingerprint of the SSH key the request is for. */
  predicate IsFingerprint(env: Env, req: Request, fp: bytes) {
    var key := env.sshKeyOf(req.payload.sshKey);
    if key.Some? then fp == env.fingerprint(key.value) else fp == []
  }

  // ---- One step

  /** What the caller hears from the claim, case by case, and what a claim writes. */
  lemma ClaimStepExactly(env: Env, s: State, c: nat)
    requires Enabled(s, DoClaim(c))
    ensures var s', call := Next(env, s, DoClaim(c)), s.calls[c];
            var id, phase' := call.req.payload.grantId, Next(env, s, DoClaim(c)).calls[c].phase;
            var stored := id in s.db.grants;
            && (phase' == Finished(Refused(GrantNotFound)) <==> !stored)
            && (phase' == Finished(Refused(GrantRevoked)) <==> stored && s.db.grants[id].revokedAt.Some?)
            && (phase' == Finished(Refused(GrantExpired)) <==>
                  stored && s.db.grants[id].revokedAt.None? && s.db.grants[id].expiresAt <= call.now)
            && (phase' == Finished(Refused(GrantAlreadyRedeemed)) <==>
                  stored && s.db.grants[id].revokedAt.None? && call.now < s.db.grants[id].expiresAt && s.db.grants[id].redeemedAt.Some?)
            && (phase'.ToRecord? <==> Claimable(s.db, id, call.now) && Proves(env, call.req, s.db.grants[id].secret))
            && (Claimable(s.db, id, call.now) && !phase'.ToRecord? ==>
                  phase' == Finished(if CanonicalBytes(RedeemProved(call.req.payload)).Ok? then Refused(ProofRejected) else Failed))
            && (if phase'.ToRecord? then
                  && phase' == ToRecord(s.db.grants[id].sshUser, s.db.grants[id].expiresAt)
                  && s'.claims == s.claims + [Claim(c, id, call.now)]
                  && id in s'.db.grants && IsFingerprint(env, call.req, s'.db.grants[id].keyFp)
                  && s'.db == s.db.(grants := s.db.grants[id := s.db.grants[id].(
                       redeemedAt := Some(call.now), agentId := call.req.payload.agentId, keyFp := s'.db.grants[id].keyFp)])
                else s'.db == s.db && s'.claims == s.claims)
  {
    hide CanonicalBytes;
  }

  /** When a claim ends in a certificate, and what that says. */
  lemma RecordStepExactly(env: Env, s: State, c: nat, serial: uint64)
    requires Enabled(s, Record(c, serial))
    ensures var s', call := Next(env, s, Record(c, serial)), s.calls[c];
            var p, user, expires, phase' := call.req.payload, call.phase.user, call.phase.expires, Next(env, s, Record(c, serial)).calls[c].phase;
            && (phase'.Finished? && phase'.outcome.Issued? <==>
                  && user != [] && user != Ascii("root") && expires > call.now - 30 && env.sshKeyOf(p.sshKey).Some? && env.host.Some?
                  && (p.grantId in s.db.certs || forall g :: g in s.db.certs ==> s.db.certs[g].serial != Signed(serial)))
            && (phase' != Finished(Failed) ==> phase'.Finished? && phase'.outcome.Issued?)
            && (phase' == Finished(Failed) ==> s'.db == s.db)
            && (phase' != Finished(Failed) && p.grantId !in s.db.certs ==>
                  p.grantId in s'.db.certs && s'.db == s.db.(certs := s.db.certs[p.grantId := s'.db.certs[p.grantId]]))
  {
    hide ResponseFor, Signed, Ascii, KeyFp, KeyId;
    IssuedSerial(env, s.calls[c].req, s.calls[c].now, s.calls[c].phase.user, s.calls[c].phase.expires, serial);
  }

  /** A nonce still remembered after the prune stops the call; any other is remembered from then on. */
  lemma NonceStepsExactly(env: Env, s: State, c: nat)
    requires c in s.calls
    ensures Enabled(s, Prune(c)) ==>
            var s' := Next(env, s, Prune(c));
            && s' == s.(calls := s'.calls, db := s.db.(nonces := s'.db.nonces), cutoff := s'.cutoff) && s'.calls[c].phase == ToInsert
            && (forall k :: k in s'.db.nonces <==> k in s.db.nonces && s.db.nonces[k] >= s.calls[c].now - 480)
            && (forall k :: k in s'.db.nonces ==> s'.db.nonces[k] == s.db.nonces[k])
    ensures Enabled(s, Insert(c)) ==>
            var s', key := Next(env, s, Insert(c)), (REDEEM_SCOPE, s.calls[c].req.payload.nonce);
            if key in s.db.nonces then s'.db == s.db && s'.calls[c].phase == Finished(Refused(ReplayedNonce))
            else s'.db == s.db.(nonces := s.db.nonces[key := s.calls[c].now]) && s'.calls[c].phase == ToClaim
  {
  }

  // ---- Claims over runs

  /** Step `k` is the one that made this claim, and the grant was there for the taking, with the right proof. */
  predicate ClaimedAt(env: Env, s: State, steps: seq<Step>, i: nat, claim: Claim, k: nat)
    requires ValidRun(env, s, steps)
  {
    && k < |steps| && steps[k] == DoClaim(claim.call)
    && var before := At(env, s, steps, k);
    && |before.claims| == i && claim.call in before.calls
    && var call := before.calls[claim.call];
    && call.req.payload.grantId == claim.grant && call.now == claim.at
    && Claimable(before.db, claim.grant, claim.at) && Proves(env, call.req, before.db.grants[claim.grant].secret)
  }

  lemma OtherStepsClaimNothing(env: Env, s: State, step: Step)
    requires Enabled(s, step) && !step.DoClaim?
    ensures Next(env, s, step).claims == s.claims
  {
    hide Precheck, Issue, CertRowFor, ResponseFor, Recorded;
  }

  lemma {:induction false} ClaimsMade(env: Env, s: State, steps: seq<Step>, n: nat, i: nat)
    requires ValidRun(env, s, steps) && s.claims == [] && n <= |steps| && i < |At(env, s, steps, n).claims|
    ensures exists k: nat :: k < n && ClaimedAt(env, s, steps, i, At(env, s, steps, n).claims[i], k)
    decreases n
  {
    hide Next, Proves, Claimable, ClaimedAt;
    assert n > 0;
    var before, step := At(env, s, steps, n - 1), steps[n - 1];
    AtStep(env, s, steps, n - 1);
    if step.DoClaim? {
      ClaimStepExactly(env, before, step.call);
    } else {
      OtherStepsClaimNothing(env, before, step);
    }
    if i < |before.claims| {
      ClaimsMade(env, s, steps, n - 1, i);
      var k: nat :| k < n - 1 && ClaimedAt(env, s, steps, i, before.claims[i], k);
      assert At(env, s, steps, n).claims[i] == before.claims[i];
    } else {
      MadeNow(env, s, steps, n - 1, step.call);
      assert i == |before.claims| && ClaimedAt(env, s, steps, i, At(env, s, steps, n).claims[i], n - 1);
    }
  }

  lemma MadeNow(env: Env, s: State, steps: seq<Step>, k: nat, c: nat)
    requires ValidRun(env, s, steps) && k < |steps| && steps[k] == DoClaim(c)
    requires var before := At(env, s, steps, k);
             && c in before.calls && Claimable(before.db, before.calls[c].req.payload.grantId, before.calls[c].now)
             && Proves(env, before.calls[c].req, before.db.grants[before.calls[c].req.payload.grantId].secret)
    ensures var before := At(env, s, steps, k);
            ClaimedAt(env, s, steps, |before.claims|, Claim(c, before.calls[c].req.payload.grantId, before.calls[c].now), k)
  {
    hide Proves, At;
  }

  /** In every run each claim was made at a step before which its grant was stored, unrevoked, unexpired and unclaimed. */
  lemma ClaimedWhileOpen(env: Env, clock: int, steps: seq<Step>, i: nat)
    requires ValidRun(env, Init(clock), steps) && i < |After(env, Init(clock), steps).claims|
    ensures exists k: nat :: ClaimedAt(env, Init(clock), steps, i, After(env, Init(clock), steps).claims[i], k)
  {
    hide ClaimedAt;
    AtEnd(env, Init(clock), steps);
    ClaimsMade(env, Init(clock), steps, |steps|, i);
  }

  // ---- Revocation

  /** The grant is known, and as long as it is stored it is revoked, as of `at`. */
  predicate IsRevoked(s: State, id: bytes, at: int) {
    id in s.ever && (id in s.db.grants ==> s.db.grants[id].revokedAt == Some(at))
  }

  predicate ClaimsOf(claims: seq<Claim>, claims': seq<Claim>, id: bytes) {
    forall k :: k in claims' && k.grant == id ==> k in claims
  }

  lemma RevokedStep(env: Env, s: State, step: Step, id: bytes, at: int)
    requires IsRevoked(s, id, at) && Enabled(s, step)
    ensures var s' := Next(env, s, step); IsRevoked(s', id, at) && ClaimsOf(s.claims, s'.claims, id)
  {
    hide Precheck, VerifyProof, KeyFp, Issue, CertRowFor, ResponseFor, AfterClaim;
    if step.DoClaim? {
      RevokedClaim(env, s, step.call, id, at);
    }
  }

  lemma RevokedClaim(env: Env, s: State, c: nat, id: bytes, at: int)
    requires IsRevoked(s, id, at) && Enabled(s, DoClaim(c))
    ensures var s' := Next(env, s, DoClaim(c)); IsRevoked(s', id, at) && ClaimsOf(s.claims, s'.claims, id)
  {
    hide VerifyProof, KeyFp;
  }

  lemma {:induction false} RevokedRun(env: Env, s: State, steps: seq<Step>, id: bytes, at: int)
    requires IsRevoked(s, id, at) && ValidRun(env, s, steps)
    ensures var s' := After(env, s, steps); IsRevoked(s', id, at) && ClaimsOf(s.claims, s'.claims, id)
    decreases steps
  {
    hide Next, Enabled, IsRevoked;
    if steps != [] {
      RevokedStep(env, s, steps[0], id, at);
      RevokedRun(env, Next(env, s, steps[0]), steps[1..], id, at);
    }
  }

  lemma RevokeStep(env: Env, s: State, id: bytes)
    requires Inv(env, s) && id in s.db.grants
    ensures var s', was := Next(env, s, Revoke(id)), s.db.grants[id].revokedAt;
            && IsRevoked(s', id, if was.Some? then was.value else s.clock) && s'.claims == s.claims
            && s' == s.(db := s.db.(grants := s.db.grants[id := s.db.grants[id].(revokedAt := s'.db.grants[id].revokedAt)]))
  {
    hide ClaimsDistinct, ClaimsWon, WinsSound, WinnersKnown, IssuesSound;
  }

  /** After a stored grant is revoked it stays so, since the first time it was, and is claimed no more. */
  lemma RevokedIsNotClaimed(env: Env, clock: int, before: seq<Step>, id: bytes, after: seq<Step>)
    requires ValidRun(env, Init(clock), before) && id in After(env, Init(clock), before).db.grants
    requires ValidRun(env, Next(env, After(env, Init(clock), before), Revoke(id)), after)
    ensures var s := After(env, Init(clock), before);
            var s', was := After(env, Next(env, s, Revoke(id)), after), s.db.grants[id].revokedAt;
            && ClaimsOf(s.claims, s'.claims, id)
            && (id in s'.db.grants ==> s'.db.grants[id].revokedAt == Some(if was.Some? then was.value else s.clock))
  {
    hide Next, Inv;
    var s := After(env, Init(clock), before);
    InitialInv(env, clock);
    RunKeepsInv(env, Init(clock), before);
    RevokeStep(env, s, id);
    var was := s.db.grants[id].revokedAt;
    RevokedRun(env, Next(env, s, Revoke(id)), after, id, if was.Some? then was.value else s.clock);
  }

  // ---- Creation and purging

  /** Step `k` created the grant, exactly so. */
  predicate CreatedAt(steps: seq<Step>, id: bytes, row: Row, k: nat) {
    && k < |steps| && steps[k] == Create(id, row.secret, row.sshUser, row.createdAt, row.expiresAt)
    && row == Row(row.secret, row.sshUser, row.createdAt, row.expiresAt, None, None, [], [])
  }

  lemma OtherStepsCreateNothing(env: Env, s: State, step: Step)
    requires Enabled(s, step)
    ensures var s' := Next(env, s, step);
            if step.Create? then
              step.id !in s.ever && s'.ever == s.ever[step.id := Row(step.secret, step.user, step.created, step.expires, None, None, [], [])]
            else s'.ever == s.ever
  {
    hide Precheck, ClaimOutcome, VerifyProof, KeyFp, Issue, CertRowFor, ResponseFor, Recorded;
  }

  lemma {:induction false} GrantsMade(env: Env, s: State, steps: seq<Step>, n: nat, id: bytes)
    requires ValidRun(env, s, steps) && s.ever == map[] && n <= |steps| && id in At(env, s, steps, n).ever
    ensures exists k: nat :: k < n && CreatedAt(steps, id, At(env, s, steps, n).ever[id], k)
    decreases n
  {
    hide Next, Enabled;
    assert n > 0;
    var before := At(env, s, steps, n - 1);
    AtStep(env, s, steps, n - 1);
    OtherStepsCreateNothing(env, before, steps[n - 1]);
    if id in before.ever {
      GrantsMade(env, s, steps, n - 1, id);
    } else {
      assert CreatedAt(steps, id, At(env, s, steps, n).ever[id], n - 1);
    }
  }

  /** A grant leaves the table only a day after it expired. */
  predicate PurgedLate(s: State) {
    forall id :: id in s.ever && id !in s.db.grants ==> s.ever[id].expiresAt < s.clock - 86400
  }

  lemma PurgedLateStep(env: Env, s: State, step: Step)
    requires PurgedLate(s) && RowsKept(s) && Enabled(s, step)
    ensures PurgedLate(Next(env, s, step))
  {
    hide Precheck, VerifyProof, KeyFp, Issue, CertRowFor, ResponseFor;
  }

  lemma {:induction false} PurgedLateRun(env: Env, s: State, steps: seq<Step>)
    requires PurgedLate(s) && Inv(env, s) && ValidRun(env, s, steps)
    ensures PurgedLate(After(env, s, steps))
    decreases steps
  {
    hide Next, Enabled, PurgedLate, RowsKept, ClaimsDistinct, ClaimsWon, WinsSound, WinnersKnown, IssuesSound;
    if steps != [] {
      PurgedLateStep(env, s, steps[0]);
      StepKeepsInv(env, s, steps[0]);
      PurgedLateRun(env, Next(env, s, steps[0]), steps[1..]);
    }
  }

  /**
   * In every run a stored grant is one that some step created, with that secret, login and expiry;
   * redemption and revocation apart it is still as created; and a created grant that is no longer
   * stored expired more than a day ago.
   */
  lemma GrantsAreAsCreated(env: Env, clock: int, steps: seq<Step>, id: bytes)
    requires ValidRun(env, Init(clock), steps) && id in After(env, Init(clock), steps).ever
    ensures var s := After(env, Init(clock), steps);
            && (exists k: nat :: CreatedAt(steps, id, s.ever[id], k))
            && (if id in s.db.grants then
                  s.db.grants[id] == s.ever[id].(redeemedAt := s.db.grants[id].redeemedAt, revokedAt := s.db.grants[id].revokedAt,
                                                 agentId := s.db.grants[id].agentId, keyFp := s.db.grants[id].keyFp)
                else s.ever[id].expiresAt < s.clock - 86400)
  {
    hide Next, Enabled, ClaimsDistinct, ClaimsWon, WinsSound, WinnersKnown, IssuesSound, CreatedAt;
    var s0 := Init(clock);
    InitialInv(env, clock);
    RunKeepsInv(env, s0, steps);
    PurgedLateRun(env, s0, steps);
    AtEnd(env, s0, steps);
    GrantsMade(env, s0, steps, |steps|, id);
  }

  // ---- Who redeemed it

  /** A redeemed row carries its winner's time, agent and key. */
  predicate RedeemedByWinner(env: Env, s: State) {
    forall id :: id in s.db.grants && s.db.grants[id].redeemedAt.Some? ==>
      && id in s.winner && s.winner[id] in s.calls
      && var call := s.calls[s.winner[id]];
      && s.db.grants[id].redeemedAt == Some(call.now) && s.db.grants[id].agentId == call.req.payload.agentId
      && IsFingerprint(env, call.req, s.db.grants[id].keyFp)
  }

  /** Nothing newly redeemed, and every call still for the same request and second. */
  predicate RowsAndCallsStay(s: State, s': State) {
    && (forall id :: id in s'.db.grants && s'.db.grants[id].redeemedAt.Some? ==>
          id in s.db.grants && s'.db.grants[id] == s.db.grants[id].(revokedAt := s'.db.grants[id].revokedAt))
    && (forall c :: c in s.calls ==> c in s'.calls && s'.calls[c].req == s.calls[c].req && s'.calls[c].now == s.calls[c].now)
    && s'.winner == s.winner
  }

  lemma OtherStepsRedeemNothing(env: Env, s: State, step: Step)
    requires Enabled(s, step) && !step.DoClaim?
    ensures RowsAndCallsStay(s, Next(env, s, step))
  {
    hide Precheck, Issue, CertRowFor, ResponseFor;
  }

  lemma StillByWinner(env: Env, s: State, s': State)
    requires RedeemedByWinner(env, s) && RowsAndCallsStay(s, s')
    ensures RedeemedByWinner(env, s')
  {
    hide IsFingerprint;
  }

  lemma ClaimByWinner(env: Env, s: State, c: nat)
    requires RedeemedByWinner(env, s) && Enabled(s, DoClaim(c))
    ensures RedeemedByWinner(env, AfterClaim(env, s, c))
  {
    hide VerifyProof, IsFingerprint, ClaimOutcome, KeyFp;
    FingerprintIs(env, s.calls[c].req);
    ClaimIsStored(s.db, GrantOf(s, c), s.calls[c].now, VerifyProof(env, s.calls[c].req));
  }

  lemma ClaimIsStored(db: DB, id: bytes, now: int, verify: bytes -> Option<bool>)
    ensures ClaimOutcome(db, id, now, verify).ClaimOk? ==> id in db.grants
  {
  }

  lemma RedeemedStep(env: Env, s: State, step: Step)
    requires RedeemedByWinner(env, s) && Enabled(s, step)
    ensures RedeemedByWinner(env, Next(env, s, step))
  {
    hide RedeemedByWinner, RowsAndCallsStay, AfterClaim;
    if step.DoClaim? {
      ClaimByWinner(env, s, step.call);
    } else {
      OtherStepsRedeemNothing(env, s, step);
      StillByWinner(env, s, Next(env, s, step));
    }
  }

  lemma FingerprintIs(env: Env, req: Request)
    ensures IsFingerprint(env, req, KeyFp(env, req))
  {
  }

  lemma {:induction false} RedeemedRun(env: Env, s: State, steps: seq<Step>)
    requires RedeemedByWinner(env, s) && ValidRun(env, s, steps)
    ensures RedeemedByWinner(env, After(env, s, steps))
    decreases steps
  {
    hide Next, Enabled, RedeemedByWinner;
    if steps != [] {
      RedeemedStep(env, s, steps[0]);
      RedeemedRun(env, Next(env, s, steps[0]), steps[1..]);
    }
  }

  /** In every run a redeemed grant names the agent and the key of the call that claimed it, and when. */
  lemma RedeemedRowsNameTheWinner(env: Env, clock: int, steps: seq<Step>)
    requires ValidRun(env, Init(clock), steps)
    ensures RedeemedByWinner(env, After(env, Init(clock), steps))
  {
    RedeemedRun(env, Init(clock), steps);
  }
}
