/** The signer's redemption path as it runs: straight-line code over the store. */
module Signer {
  import opened Bytes
  import opened Store
  import opened Redemption
  import opened Requests
  import opened Claims

  /** A database with no call in progress. */
  function Quiet(db: DB, clock: int): State {
    State(db, clock, map[], map[], [], map[], [], clock - NONCE_RETENTION)
  }

  function Rank(p: Phase): nat {
    match p
    case ToPrune => 4
    case ToInsert => 3
    case ToClaim => 2
    case ToRecord(_, _) => 1
    case Finished(_) => 0
  }

  /** The next statement of a call. */
  function NextStep(s: State, c: nat, serial: uint64): Step
    requires c in s.calls && !s.calls[c].phase.Finished?
  {
    match s.calls[c].phase
    case ToPrune => Prune(c)
    case ToInsert => Insert(c)
    case ToClaim => DoClaim(c)
    case ToRecord(_, _) => Record(c, serial)
  }

  lemma CallAdvances(env: Env, s: State, c: nat, serial: uint64)
    requires c in s.calls && !s.calls[c].phase.Finished?
    ensures var s' := Next(env, s, NextStep(s, c, serial));
            c in s'.calls && Rank(s'.calls[c].phase) < Rank(s.calls[c].phase)
  {
    hide ClaimOutcome, Issue, CertRowFor, ResponseFor, KeyFp;
  }

  /** The state once a call has taken all its statements with nothing in between. */
  ghost function Completed(env: Env, s: State, c: nat, serial: uint64): (s': State)
    requires c in s.calls
    ensures c in s'.calls && s'.calls[c].phase.Finished?
    decreases Rank(s.calls[c].phase)
  {
    if s.calls[c].phase.Finished? then s
    else
      CallAdvances(env, s, c, serial);
      Completed(env, Next(env, s, NextStep(s, c, serial)), c, serial)
  }

  lemma CompletedStep(env: Env, s: State, c: nat, serial: uint64)
    requires c in s.calls
    ensures s.calls[c].phase.Finished? ==> Completed(env, s, c, serial) == s
    ensures !s.calls[c].phase.Finished? ==>
            var s' := Next(env, s, NextStep(s, c, serial));
            c in s'.calls && Completed(env, s, c, serial) == Completed(env, s', c, serial)
  {
    hide Next;
    if !s.calls[c].phase.Finished? {
      CallAdvances(env, s, c, serial);
    }
  }

  /** One redemption from start to finish on an otherwise idle database. */
  ghost function Undisturbed(env: Env, db: DB, req: Request, now: int, serial: uint64): State {
    var s := Next(env, Quiet(db, now), Begin(0, req));
    Completed(env, s, 0, serial)
  }

  /**
   * Everything that has to be so for a certificate: a genuine request whose nonce has not been seen
   * in the last eight minutes, a grant to claim, its proof, a login that may have a certificate and
   * a serial nobody has.
   */
  predicate Deserves(env: Env, db: DB, req: Request, now: int, serial: uint64) {
    var id, key := req.payload.grantId, (REDEEM_SCOPE, req.payload.nonce);
    && Genuine(env, req, now) && !(key in db.nonces && now - 480 <= db.nonces[key])
    && Claimable(db, id, now) && Proves(env, req, db.grants[id].secret)
    && db.grants[id].sshUser != [] && db.grants[id].sshUser != Ascii("root")
    && (id in db.certs || forall g :: g in db.certs ==> db.certs[g].serial != Signed(serial))
  }

  /** What beginning decides. */
  lemma BeginExactly(env: Env, db: DB, req: Request, now: int)
    ensures var s0 := Next(env, Quiet(db, now), Begin(0, req));
            && 0 in s0.calls && s0.db == db && s0.calls[0].req == req && s0.calls[0].now == now
            && (s0.calls[0].phase.ToPrune? <==> Genuine(env, req, now)) && (!s0.calls[0].phase.ToPrune? ==> s0.calls[0].phase.Finished?)
            && (forall k :: FirstFault(env, req, now, k) ==> s0.calls[0].phase == Finished(Refused(CodeFor(k))))
            && (s0.calls[0].phase.Finished? ==> s0.calls[0].phase.outcome.Refused?)
  {
    hide Precheck, Genuine, FirstFault;
    PrecheckExactly(env, req, now);
    GenuineOrFaulty(env, req, now);
  }

  /** Up to the claim the call only prunes nonces and adds its own. */
  lemma ReachesClaim(env: Env, s: State)
    requires 0 in s.calls && s.calls[0].phase.ToPrune?
    ensures var s1 := Next(env, s, Prune(0)); 0 in s1.calls && s1.calls[0].phase.ToInsert?
    ensures var s2, call := Next(env, Next(env, s, Prune(0)), Insert(0)), s.calls[0];
            var key := (REDEEM_SCOPE, call.req.payload.nonce);
            && 0 in s2.calls && s2.calls[0].req == call.req && s2.calls[0].now == call.now
            && s2.db.grants == s.db.grants && s2.db.certs == s.db.certs
            && s2.calls[0].phase ==
                 if key in s.db.nonces && call.now - 480 <= s.db.nonces[key] then Finished(Refused(ReplayedNonce)) else ToClaim
  {
  }

  /** Run alone, a call ends in a certificate exactly when it deserves one; a fault leaves no trace in the database. */
  lemma UndisturbedExactly(env: Env, db: DB, req: Request, now: int, serial: uint64)
    ensures var s := Undisturbed(env, db, req, now, serial);
            && s.calls[0].phase.Finished?
            && (s.calls[0].phase.outcome.Issued? <==> Deserves(env, db, req, now, serial))
            && (forall k :: FirstFault(env, req, now, k) ==> s.calls[0].phase.outcome == Refused(CodeFor(k)) && s.db == db)
  {
    hide Next, Genuine, FirstFault, Proves, Completed, Signed, Ascii;
    var s0 := Next(env, Quiet(db, now), Begin(0, req));
    BeginExactly(env, db, req, now);
    CompletedStep(env, s0, 0, serial);
    if s0.calls[0].phase.ToPrune? {
      ReachesClaim(env, s0);
      var s1 := Next(env, s0, Prune(0));
      var s2 := Next(env, s1, Insert(0));
      CompletedStep(env, s1, 0, serial);
      CompletedStep(env, s2, 0, serial);
      GenuineOrFaulty(env, req, now);
      if s2.calls[0].phase.ToClaim? {
        GenuineHas(env, req, now);
        ClaimLeads(env, s2, serial);
      }
    }
  }

  lemma GenuineHas(env: Env, req: Request, now: int)
    requires Genuine(env, req, now)
    ensures env.host.Some? && env.sshKeyOf(req.payload.sshKey).Some?
  {
  }

  lemma ClaimLeads(env: Env, s: State, serial: uint64)
    requires 0 in s.calls && s.calls[0].phase.ToClaim?
    ensures var s', call, id := Completed(env, s, 0, serial), s.calls[0], s.calls[0].req.payload.grantId;
            s'.calls[0].phase.outcome.Issued? <==>
            && Claimable(s.db, id, call.now) && Proves(env, call.req, s.db.grants[id].secret)
            && s.db.grants[id].sshUser != [] && s.db.grants[id].sshUser != Ascii("root") && env.host.Some?
            && env.sshKeyOf(call.req.payload.sshKey).Some?
            && (id in s.db.certs || forall g :: g in s.db.certs ==> s.db.certs[g].serial != Signed(serial))
  {
    hide Next, Completed, Proves, Signed, Ascii;
    var s3 := Next(env, s, DoClaim(0));
    ClaimStepExactly(env, s, 0);
    ClaimSameCall(env, s);
    CompletedStep(env, s, 0, serial);
    CompletedStep(env, s3, 0, serial);
    if s3.calls[0].phase.ToRecord? {
      RecordStepExactly(env, s3, 0, serial);
      CompletedStep(env, Next(env, s3, Record(0, serial)), 0, serial);
    }
  }

  lemma ClaimSameCall(env: Env, s: State)
    requires 0 in s.calls && s.calls[0].phase.ToClaim?
    ensures var s' := Next(env, s, DoClaim(0)); 0 in s'.calls && s'.calls[0] == s.calls[0].(phase := s'.calls[0].phase)
  {
    hide ClaimOutcome, VerifyProof, KeyFp;
  }

  /**
   * Redeem. Its code and the interleaving machine agree: run alone, it leaves the database and
   * gives the outcome the machine's call does.
   */
  method Redeem(env: Env, store: Store, req: Request, now: int, serial: uint64) returns (o: Outcome)
    modifies store
    ensures var s := Undisturbed(env, old(store.State()), req, now, serial);
            0 in s.calls && store.State() == s.db && s.calls[0].phase == Finished(o)
    ensures o.Issued? <==> Deserves(env, old(store.State()), req, now, serial)
    ensures forall k :: FirstFault(env, req, now, k) ==> o == Refused(CodeFor(k)) && store.State() == old(store.State())
  {
    hide Deserves, FirstFault, CodeFor, Precheck, Issue, CertRowFor, ResponseFor, KeyFp, ClaimOutcome, Claimed, VerifyProof, NoncesPurged;
    hide Completed, AfterRecord, Refusal;
    ghost var s0 := Next(env, Quiet(store.State(), now), Begin(0, req));
    CompletedStep(env, s0, 0, serial);
    UndisturbedExactly(env, store.State(), req, now, serial);
    var early := Precheck(env, req, now);
    if early.Some? {
      return Refused(early.value);
    }
    var p := req.payload;
    ghost var s1 := Next(env, s0, Prune(0));
    ghost var s2 := Next(env, s1, Insert(0));
    CompletedStep(env, s1, 0, serial);
    CompletedStep(env, s2, 0, serial);
    var isNew := store.RememberNonce(REDEEM_SCOPE, p.nonce, now, NONCE_RETENTION);
    assert isNew ==> store.State() == s2.db;
    if !isNew {
      return Refused(ReplayedNonce);
    }
    o := ClaimAndIssue(env, store, req, now, serial, s2);
  }

  /** What follows a new nonce: the claim, and what follows that. */
  method ClaimAndIssue(env: Env, store: Store, req: Request, now: int, serial: uint64, ghost s: State) returns (o: Outcome)
    requires 0 in s.calls && s.calls[0] == Call(req, now, ToClaim) && s.db == store.State()
    modifies store
    ensures var s' := Completed(env, s, 0, serial); store.State() == s'.db && s'.calls[0].phase == Finished(o)
  {
    hide Issue, CertRowFor, ResponseFor, KeyFp, ClaimOutcome, VerifyProof, Completed, AfterRecord;
    CompletedStep(env, s, 0, serial);
    ghost var s3 := Next(env, s, DoClaim(0));
    CompletedStep(env, s3, 0, serial);
    var p := req.payload;
    var status := store.ClaimGrant(p.grantId, now, p.agentId, KeyFp(env, req), VerifyProof(env, req));
    assert store.State() == s3.db;
    if !status.ClaimOk? {
      return Refusal(status);
    }
    o := IssueClaimed(env, store, req, now, status.sshUser, status.expiresAt, serial, s3);
    ghost var s4 := Next(env, s3, Record(0, serial));
    CompletedStep(env, s4, 0, serial);
  }

  /** What follows a claim: the certificate and its record, or a grant spent for nothing. */
  method IssueClaimed(env: Env, store: Store, req: Request, now: int, user: bytes, expires: int, serial: uint64, ghost s: State)
    returns (o: Outcome)
    requires 0 in s.calls && s.calls[0] == Call(req, now, ToRecord(user, expires)) && s.db == store.State()
    modifies store
    ensures var s' := AfterRecord(env, s, 0, serial); store.State() == s'.db && s'.calls[0].phase == Finished(o)
  {
    hide Issue, ResponseFor, KeyFp;
    IssuedSerial(env, req, now, user, expires, serial);
    var cert := Issue(env, req, now, user, expires, serial);
    if cert.None? || env.host.None? {
      return Failed;
    }
    var p := req.payload;
    var ok := store.RecordCertificate(serial, p.grantId, p.agentId, KeyFp(env, req), env.certLine(cert.value),
                                      cert.value.validAfter, cert.value.validBefore, now);
    if !ok {
      return Failed;
    }
    return Issued(ResponseFor(env, user, cert.value), cert.value);
  }
}
