/**
 * Redemption: one call that turns a network message into a certificate, and any number of such
 * calls interleaved statement by statement with grant creation, revocation and purging.
 */
module Redemption {
  import opened Bytes
  import opened Ids
  import opened Messages
  import opened Store

  const SKEW: int := 120
  const NONCE_RETENTION: int := 480
  const PURGE_RETENTION: int := 86400
  const BACKDATE: int := 30

  datatype Host = Host(hostId: bytes, hostname: bytes, sshPort: nat)

  datatype Certificate = Certificate(
    key: bytes, serial: uint64, keyId: bytes, principal: bytes, validAfter: int, validBefore: int)

  /** The enrolled host and the primitives the signer calls: HMAC, signature check, identifiers, key parsing. */
  datatype Env = Env(
    host: Option<Host>,
    hmac: (bytes, bytes) -> bytes,
    verifies: (bytes, bytes, bytes) -> bool,
    agentIdOf: bytes -> bytes,
    sshKeyOf: bytes -> Option<bytes>,
    fingerprint: bytes -> bytes,
    certLine: Certificate -> bytes)

  datatype Request = Request(payload: RedemptionPayload, agentSignature: bytes, proof: bytes)

  datatype Code =
    | UnsupportedVersion | Internal | IdMismatch | BadRequest | StaleTimestamp | BadSignature
    | ReplayedNonce | GrantNotFound | GrantRevoked | GrantExpired | GrantAlreadyRedeemed | ProofRejected

  datatype Response = Response(
    hostname: bytes, port: nat, user: bytes, certificate: bytes, serial: uint64, keyId: bytes, validBefore: int)

  datatype Outcome = Refused(code: Code) | Failed | Issued(response: Response, cert: Certificate)

  predicate WithinSkew(now: int, ts: int) {
    -SKEW <= now - ts <= SKEW
  }

  /** The checks that touch no state, in order. */
  function Precheck(env: Env, req: Request, now: int): Option<Code> {
    var p := req.payload;
    if p.version != 1 then Some(UnsupportedVersion)
    else if env.host.None? then Some(Internal)
    else if p.hostId != env.host.value.hostId then Some(IdMismatch)
    else if !ValidGrantId(p.grantId) then Some(BadRequest)
    else if !WithinSkew(now, p.timestamp) then Some(StaleTimestamp)
    else if |p.nonce| != 16 then Some(BadRequest)
    else if |p.agentKey| != 32 then Some(BadRequest)
    else if p.agentId != env.agentIdOf(p.agentKey) then Some(IdMismatch)
    else match CanonicalBytes(RedeemSigned(p))
      case Err(_) => Some(BadRequest)
      case Ok(msg) =>
        if |req.agentSignature| != 64 || !env.verifies(p.agentKey, msg, req.agentSignature) then Some(BadSignature)
        else if env.sshKeyOf(p.sshKey).None? then Some(BadRequest)
        else None
  }

  /** Everything a request must satisfy besides being fresh. */
  predicate Sound(env: Env, req: Request) {
    Precheck(env, req, req.payload.timestamp).None?
  }

  lemma PrecheckIsSoundAndFresh(env: Env, req: Request, now: int)
    ensures Precheck(env, req, now).None? <==> Sound(env, req) && WithinSkew(now, req.payload.timestamp)
  {
  }

  function VerifyProof(env: Env, req: Request): bytes -> Option<bool> {
    secret =>
      match CanonicalBytes(RedeemProved(req.payload))
      case Err(_) => None
      case Ok(msg) => Some(env.hmac(secret, msg) == req.proof)
  }

  const REDEEM_SCOPE: bytes := Ascii("redeem")

  function NonceKey(req: Request): (bytes, bytes) {
    (REDEEM_SCOPE, req.payload.nonce)
  }

  function KeyId(grantId: bytes, agentId: bytes): bytes {
    Ascii("grantd:") + grantId + Ascii(":") + agentId
  }

  function KeyFp(env: Env, req: Request): bytes {
    var key := env.sshKeyOf(req.payload.sshKey);
    if key.Some? then env.fingerprint(key.value) else []
  }

  /** The certificate the claim entitles its caller to, unless the principal may not have one. */
  function Issue(env: Env, req: Request, now: int, user: bytes, expires: int, serial: uint64): Option<Certificate> {
    if user == [] || user == Ascii("root") || expires <= now - BACKDATE || env.sshKeyOf(req.payload.sshKey).None? then None
    else
      Some(Certificate(env.sshKeyOf(req.payload.sshKey).value, serial, KeyId(req.payload.grantId, req.payload.agentId),
                       user, now - BACKDATE, expires))
  }

  lemma IssuedSerial(env: Env, req: Request, now: int, user: bytes, expires: int, serial: uint64)
    ensures var o := Issue(env, req, now, user, expires, serial); o.Some? ==> o.value.serial == serial
  {
  }

  function CertRowFor(env: Env, req: Request, now: int, cert: Certificate): CertRow {
    CertRow(Signed(cert.serial), req.payload.agentId, KeyFp(env, req), env.certLine(cert),
            cert.validAfter, cert.validBefore, now)
  }

  function ResponseFor(env: Env, user: bytes, cert: Certificate): Response
    requires env.host.Some?
  {
    Response(env.host.value.hostname, env.host.value.sshPort, user, env.certLine(cert), cert.serial, cert.keyId,
             cert.validBefore)
  }

  function Refusal(status: ClaimStatus): Outcome
    requires !status.ClaimOk?
  {
    match status
    case NotFound => Refused(GrantNotFound)
    case Revoked => Refused(GrantRevoked)
    case Expired => Refused(GrantExpired)
    case AlreadyRedeemed => Refused(GrantAlreadyRedeemed)
    case BadProof => Refused(ProofRejected)
    case VerifyFailed => Failed
  }

  // ---- The machine: calls advance one statement at a time

  /** What a call does next. */
  datatype Phase =
    | ToPrune
    | ToInsert
    | ToClaim
    | ToRecord(user: bytes, expires: int)
    | Finished(outcome: Outcome)

  /** A call in progress: its request, the clock reading it started with, and where it stands. */
  datatype Call = Call(req: Request, now: int, phase: Phase)

  /** A successful claim, as it happened. */
  datatype Claim = Claim(call: nat, grant: bytes, at: int)

  /** A request whose nonce was taken for new. */
  datatype Acceptance = Acceptance(req: Request, now: int)

  /**
   * The database, the clock, the calls, and history: every grant as created, every claim and every
   * accepted nonce in order, the last call to claim each grant, and the latest cutoff any deletion
   * of nonces has used.
   */
  datatype State = State(
    db: DB, clock: int, calls: map<nat, Call>,
    ever: map<bytes, Row>, claims: seq<Claim>, winner: map<bytes, nat>, accepted: seq<Acceptance>, cutoff: int)

  datatype Step =
    | Tick(clock: int)
    | Create(id: bytes, secret: bytes, user: bytes, created: int, expires: int)
    | Revoke(id: bytes)
    | PurgeGrants(at: int)
    | PurgeNonces(at: int)
    | Begin(call: nat, req: Request)
    | Prune(call: nat)
    | Insert(call: nat)
    | DoClaim(call: nat)
    | Record(call: nat, serial: uint64)
    | Abort(call: nat)

  function Init(clock: int): State {
    State(DB(map[], map[], map[]), clock, map[], map[], [], map[], [], clock - NONCE_RETENTION)
  }

  function Max(a: int, b: int): int {
    if a < b then b else a
  }

  /**
   * Which steps can happen: the clock never goes back, grant ids are drawn fresh, and a call takes
   * its statements in order. A call may also stop anywhere: a lost client, a failed statement.
   */
  predicate Enabled(s: State, step: Step) {
    match step
    case Tick(t) => t >= s.clock
    case Create(id, _, _, _, _) => id !in s.ever
    case Revoke(_) => true
    case PurgeGrants(at) => at <= s.clock
    case PurgeNonces(at) => at <= s.clock
    case Begin(c, _) => c !in s.calls
    case Prune(c) => c in s.calls && s.calls[c].phase.ToPrune?
    case Insert(c) => c in s.calls && s.calls[c].phase.ToInsert?
    case DoClaim(c) => c in s.calls && s.calls[c].phase.ToClaim?
    case Record(c, _) => c in s.calls && s.calls[c].phase.ToRecord?
    case Abort(c) => c in s.calls && !s.calls[c].phase.Finished?
  }

  function Moved(s: State, c: nat, phase: Phase): State
    requires c in s.calls
  {
    s.(calls := s.calls[c := s.calls[c].(phase := phase)])
  }

  function AfterInsert(s: State, c: nat): State
    requires c in s.calls
  {
    var call := s.calls[c];
    if NonceKey(call.req) in s.db.nonces then Moved(s, c, Finished(Refused(ReplayedNonce)))
    else
      Moved(s, c, ToClaim).(
        db := NonceInserted(s.db, NonceKey(call.req), call.now),
        accepted := s.accepted + [Acceptance(call.req, call.now)])
  }

  function AfterClaim(env: Env, s: State, c: nat): State
    requires c in s.calls
  {
    var call := s.calls[c];
    var id := call.req.payload.grantId;
    var status := ClaimOutcome(s.db, id, call.now, VerifyProof(env, call.req));
    if status.ClaimOk? then
      Moved(s, c, ToRecord(status.sshUser, status.expiresAt)).(
        db := Claimed(s.db, id, call.now, call.req.payload.agentId, KeyFp(env, call.req)),
        claims := s.claims + [Claim(c, id, call.now)], winner := s.winner[id := c])
    else Moved(s, c, Finished(Refusal(status)))
  }

  function AfterRecord(env: Env, s: State, c: nat, serial: uint64): State
    requires c in s.calls && s.calls[c].phase.ToRecord?
  {
    var call := s.calls[c];
    match Issue(env, call.req, call.now, call.phase.user, call.phase.expires, serial)
    case None => Moved(s, c, Finished(Failed))
    case Some(cert) =>
      match Recorded(s.db, call.req.payload.grantId, CertRowFor(env, call.req, call.now, cert))
      case None => Moved(s, c, Finished(Failed))
      case Some(db) =>
        if env.host.None? then Moved(s, c, Finished(Failed))
        else Moved(s, c, Finished(Issued(ResponseFor(env, call.phase.user, cert), cert))).(db := db)
  }

  function Next(env: Env, s: State, step: Step): State
    requires Enabled(s, step)
  {
    match step
    case Tick(t) => s.(clock := t)
    case Create(id, secret, user, created, expires) =>
      var db := Inserted(s.db, id, secret, user, created, expires);
      s.(db := db, ever := s.ever[id := db.grants[id]])
    case Revoke(id) => s.(db := RevokedAt(s.db, id, s.clock))
    case PurgeGrants(at) => s.(db := GrantsPurged(s.db, at - PURGE_RETENTION))
    case PurgeNonces(at) =>
      s.(db := NoncesPurged(s.db, at - PURGE_RETENTION), cutoff := Max(s.cutoff, at - PURGE_RETENTION))
    case Begin(c, req) =>
      var phase := match Precheck(env, req, s.clock) case Some(code) => Finished(Refused(code)) case None => ToPrune;
      s.(calls := s.calls[c := Call(req, s.clock, phase)])
    case Prune(c) =>
      var cut := s.calls[c].now - NONCE_RETENTION;
      Moved(s, c, ToInsert).(db := NoncesPurged(s.db, cut), cutoff := Max(s.cutoff, cut))
    case Insert(c) => AfterInsert(s, c)
    case DoClaim(c) => AfterClaim(env, s, c)
    case Record(c, serial) => AfterRecord(env, s, c, serial)
    case Abort(c) => Moved(s, c, Finished(Failed))
  }

  predicate ValidRun(env: Env, s: State, steps: seq<Step>)
    decreases steps
  {
    steps == [] || (Enabled(s, steps[0]) && ValidRun(env, Next(env, s, steps[0]), steps[1..]))
  }

  function After(env: Env, s: State, steps: seq<Step>): State
    requires ValidRun(env, s, steps)
    decreases steps
  {
    if steps == [] then s else After(env, Next(env, s, steps[0]), steps[1..])
  }

  /** No call waits more than `stall` seconds between reading the clock and inserting its nonce. */
  predicate StallAtMost(env: Env, s: State, steps: seq<Step>, stall: int)
    requires ValidRun(env, s, steps)
    decreases steps
  {
    steps == [] ||
    (&& (steps[0].Insert? ==> s.clock - s.calls[steps[0].call].now <= stall)
     && StallAtMost(env, Next(env, s, steps[0]), steps[1..], stall))
  }

  // ---- Runs compose

  lemma {:induction false} StallMonotone(env: Env, s: State, steps: seq<Step>, a: int, b: int)
    requires ValidRun(env, s, steps) && StallAtMost(env, s, steps, a) && a <= b
    ensures StallAtMost(env, s, steps, b)
    decreases steps
  {
    hide Next;
    if steps != [] {
      StallMonotone(env, Next(env, s, steps[0]), steps[1..], a, b);
    }
  }

  lemma {:induction false} Joined(env: Env, s: State, a: seq<Step>, b: seq<Step>, stall: int)
    requires ValidRun(env, s, a) && StallAtMost(env, s, a, stall)
    requires ValidRun(env, After(env, s, a), b) && StallAtMost(env, After(env, s, a), b, stall)
    ensures ValidRun(env, s, a + b) && StallAtMost(env, s, a + b, stall)
    ensures After(env, s, a + b) == After(env, After(env, s, a), b)
    decreases a
  {
    hide Next, Enabled;
    if a == [] {
      assert a + b == b;
    } else {
      assert (a + b)[1..] == a[1..] + b;
      Joined(env, Next(env, s, a[0]), a[1..], b, stall);
    }
  }

  lemma Prepended(env: Env, s: State, step: Step, rest: seq<Step>, all: seq<Step>, stall: int)
    requires Enabled(s, step) && all == [step] + rest
    requires step.Insert? ==> s.clock - s.calls[step.call].now <= stall
    requires ValidRun(env, Next(env, s, step), rest) && StallAtMost(env, Next(env, s, step), rest, stall)
    ensures ValidRun(env, s, all) && StallAtMost(env, s, all, stall)
    ensures After(env, s, all) == After(env, Next(env, s, step), rest)
  {
    hide Next, Enabled;
    assert all[1..] == rest;
  }

  // ---- Runs, state by state

  /** The state before step `k` of a run; `k` may also be its end. */
  function At(env: Env, s: State, steps: seq<Step>, k: nat): State
    requires ValidRun(env, s, steps) && k <= |steps|
    decreases k
  {
    if k == 0 then s else At(env, Next(env, s, steps[0]), steps[1..], k - 1)
  }

  lemma {:induction false} AtStep(env: Env, s: State, steps: seq<Step>, k: nat)
    requires ValidRun(env, s, steps) && k < |steps|
    ensures Enabled(At(env, s, steps, k), steps[k]) && At(env, s, steps, k + 1) == Next(env, At(env, s, steps, k), steps[k])
    decreases k
  {
    hide Enabled, Next;
    if k > 0 {
      AtStep(env, Next(env, s, steps[0]), steps[1..], k - 1);
    } else {
      assert At(env, Next(env, s, steps[0]), steps[1..], 0) == Next(env, s, steps[0]);
    }
  }

  lemma {:induction false} AtEnd(env: Env, s: State, steps: seq<Step>)
    requires ValidRun(env, s, steps)
    ensures At(env, s, steps, |steps|) == After(env, s, steps)
    decreases steps
  {
    hide Enabled, Next;
    if steps != [] {
      AtEnd(env, Next(env, s, steps[0]), steps[1..]);
    }
  }
}
