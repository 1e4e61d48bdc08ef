/** The signer's database: the meaning of each SQL statement, and the store that runs them. */
module Store {
  import opened Bytes

  datatype Row = Row(
    secret: bytes, sshUser: bytes, createdAt: int, expiresAt: int,
    redeemedAt: Option<int>, revokedAt: Option<int>, agentId: bytes, keyFp: bytes)

  /** `serial` is what SQLite holds: a signed 64-bit integer. */
  datatype CertRow = CertRow(
    serial: int, agentId: bytes, keyFp: bytes, certificate: bytes, validAfter: int, validBefore: int, createdAt: int)

  /** Grants and certificates by grant id, nonces by scope and nonce with the time each was seen. */
  datatype DB = DB(grants: map<bytes, Row>, certs: map<bytes, CertRow>, nonces: map<(bytes, bytes), int>)

  datatype ClaimStatus = ClaimOk(sshUser: bytes, expiresAt: int) | NotFound | Revoked | Expired | AlreadyRedeemed | BadProof | VerifyFailed

  const TWO63: int := 0x8000_0000_0000_0000
  const TWO64: int := 0x1_0000_0000_0000_0000

  type uint64 = x: int | 0 <= x < TWO64

  /** Go's int64(serial): the same 64 bits read as two's complement. */
  function Signed(v: uint64): int {
    if v < TWO63 then v else v - TWO64
  }

  /** Go's uint64(v) of what the database returned. */
  function Unsigned(v: int): int {
    if v >= 0 then v else v + TWO64
  }

  // ---- Statements

  function Inserted(db: DB, id: bytes, secret: bytes, user: bytes, created: int, expires: int): DB {
    db.(grants := db.grants[id := Row(secret, user, created, expires, None, None, [], [])])
  }

  /** UPDATE ... SET revoked_at WHERE id AND revoked_at IS NULL: the first revocation time stays. */
  function RevokedAt(db: DB, id: bytes, at: int): DB {
    if id in db.grants && db.grants[id].revokedAt.None? then
      db.(grants := db.grants[id := db.grants[id].(revokedAt := Some(at))])
    else db
  }

  function GrantsPurged(db: DB, cutoff: int): DB {
    db.(grants := map id | id in db.grants && db.grants[id].expiresAt >= cutoff :: db.grants[id])
  }

  function NoncesPurged(db: DB, cutoff: int): DB {
    db.(nonces := map k | k in db.nonces && db.nonces[k] >= cutoff :: db.nonces[k])
  }

  /** INSERT OR IGNORE: the first sighting stays. */
  function NonceInserted(db: DB, key: (bytes, bytes), now: int): DB {
    if key in db.nonces then db else db.(nonces := db.nonces[key := now])
  }

  /** What a claim finds, in the order the transaction checks. */
  function ClaimOutcome(db: DB, id: bytes, now: int, verify: bytes -> Option<bool>): ClaimStatus {
    if id !in db.grants then NotFound
    else
      var row := db.grants[id];
      if row.revokedAt.Some? then Revoked
      else if row.expiresAt <= now then Expired
      else if row.redeemedAt.Some? then AlreadyRedeemed
      else match verify(row.secret)
        case None => VerifyFailed
        case Some(false) => BadProof
        case Some(true) => ClaimOk(row.sshUser, row.expiresAt)
  }

  function Claimed(db: DB, id: bytes, now: int, agent: bytes, fp: bytes): DB
    requires id in db.grants
  {
    db.(grants := db.grants[id := db.grants[id].(redeemedAt := Some(now), agentId := agent, keyFp := fp)])
  }

  /** INSERT ... ON CONFLICT(grant_id) DO NOTHING; a serial already in use by another grant is an error (None). */
  function Recorded(db: DB, id: bytes, cert: CertRow): Option<DB> {
    if id in db.certs then Some(db)
    else if exists g :: g in db.certs && db.certs[g].serial == cert.serial then None
    else Some(db.(certs := db.certs[id := cert]))
  }

  function SerialOf(db: DB, id: bytes): Option<int> {
    if id in db.certs then Some(Unsigned(db.certs[id].serial)) else None
  }

  lemma SerialSurvivesSigned(v: uint64)
    ensures -TWO63 <= Signed(v) < TWO63 && Unsigned(Signed(v)) == v
  {
  }

  /** The database handle. Its methods are the store's operations, each a fixed list of statements. */
  class Store {
    var grants: map<bytes, Row>
    var certs: map<bytes, CertRow>
    var nonces: map<(bytes, bytes), int>

    ghost function State(): DB
      reads this
    {
      DB(grants, certs, nonces)
    }

    constructor ()
      ensures State() == DB(map[], map[], map[])
    {
      grants, certs, nonces := map[], map[], map[];
    }

    /** Fails on an id that exists; otherwise the new row is unredeemed and unrevoked. */
    method CreateGrant(id: bytes, secret: bytes, user: bytes, created: int, expires: int) returns (ok: bool)
      modifies this
      ensures ok == (id !in old(grants))
      ensures State() == if ok then Inserted(old(State()), id, secret, user, created, expires) else old(State())
      ensures certs == old(certs) && nonces == old(nonces)
      ensures grants == if ok then old(grants)[id := Row(secret, user, created, expires, None, None, [], [])] else old(grants)
    {
      if id in grants {
        return false;
      }
      grants := grants[id := Row(secret, user, created, expires, None, None, [], [])];
      return true;
    }

    /** Revoking twice succeeds and keeps the first time; only an unknown id is reported. */
    method RevokeGrant(id: bytes, at: int) returns (found: bool)
      modifies this`grants
      ensures State() == RevokedAt(old(State()), id, at)
      ensures found == (id in old(grants))
      ensures found ==>
        var was := old(grants)[id];
        grants == old(grants)[id := was.(revokedAt := if was.revokedAt.Some? then was.revokedAt else Some(at))]
      ensures !found ==> grants == old(grants)
    {
      if id in grants && grants[id].revokedAt.None? {
        grants := grants[id := grants[id].(revokedAt := Some(at))];
        return true;
      }
      return id in grants;
    }

    method PurgeExpired(now: int, retain: int) returns (n: nat)
      modifies this`grants, this`nonces
      ensures State() == NoncesPurged(GrantsPurged(old(State()), now - retain), now - retain)
      ensures n == |old(grants)| - |grants|
      ensures forall id :: id in grants <==> id in old(grants) && now - retain <= old(grants)[id].expiresAt
      ensures forall id :: id in grants ==> grants[id] == old(grants)[id]
      ensures forall k :: k in nonces <==> k in old(nonces) && now - retain <= old(nonces)[k]
      ensures forall k :: k in nonces ==> nonces[k] == old(nonces)[k]
    {
      var kept := map id | id in grants && grants[id].expiresAt >= now - retain :: grants[id];
      assert kept.Keys <= grants.Keys && |kept| == |kept.Keys| <= |grants.Keys| by {
        SubsetSize(kept.Keys, grants.Keys);
      }
      n := |grants| - |kept|;
      grants := kept;
      nonces := map k | k in nonces && nonces[k] >= now - retain :: nonces[k];
    }

    /** Prunes, then inserts. Returns whether the nonce was new among those still remembered. */
    method RememberNonce(scope: bytes, nonce: bytes, now: int, window: int) returns (isNew: bool)
      modifies this`nonces
      ensures State() == NonceInserted(NoncesPurged(old(State()), now - window), (scope, nonce), now)
      ensures isNew == ((scope, nonce) !in NoncesPurged(old(State()), now - window).nonces)
      ensures isNew <==> !((scope, nonce) in old(nonces) && now - window <= old(nonces)[(scope, nonce)])
      ensures forall k :: k in nonces <==> k == (scope, nonce) || (k in old(nonces) && now - window <= old(nonces)[k])
      ensures forall k :: k in nonces ==> nonces[k] == if isNew && k == (scope, nonce) then now else old(nonces)[k]
    {
      nonces := map k | k in nonces && nonces[k] >= now - window :: nonces[k];
      isNew := (scope, nonce) !in nonces;
      if isNew {
        nonces := nonces[(scope, nonce) := now];
      }
    }

    /** One write transaction: anything but a claim leaves the database exactly as it was. */
    method ClaimGrant(id: bytes, now: int, agent: bytes, fp: bytes, verify: bytes -> Option<bool>)
      returns (status: ClaimStatus)
      modifies this`grants
      ensures status == ClaimOutcome(old(State()), id, now, verify)
      ensures status.NotFound? <==> id !in old(grants)
      ensures status.Revoked? <==> id in old(grants) && old(grants)[id].revokedAt.Some?
      ensures status.Expired? <==> id in old(grants) && old(grants)[id].revokedAt.None? && old(grants)[id].expiresAt <= now
      ensures status.AlreadyRedeemed? <==>
        && id in old(grants) && old(grants)[id].revokedAt.None? && now < old(grants)[id].expiresAt && old(grants)[id].redeemedAt.Some?
      ensures status.ClaimOk? || status.BadProof? || status.VerifyFailed? ==>
        && id in old(grants)
        && verify(old(grants)[id].secret) == if status.VerifyFailed? then None else Some(status.ClaimOk?)
      ensures status.ClaimOk? ==>
        && State() == Claimed(old(State()), id, now, agent, fp)
        && status == ClaimOk(old(grants)[id].sshUser, old(grants)[id].expiresAt)
        && grants == old(grants)[id := old(grants)[id].(redeemedAt := Some(now), agentId := agent, keyFp := fp)]
      ensures !status.ClaimOk? ==> State() == old(State())
    {
      if id !in grants {
        return NotFound;
      }
      var row := grants[id];
      if row.revokedAt.Some? {
        return Revoked;
      }
      if row.expiresAt <= now {
        return Expired;
      }
      if row.redeemedAt.Some? {
        return AlreadyRedeemed;
      }
      var ok := verify(row.secret);
      if ok.None? {
        return VerifyFailed;
      }
      if !ok.value {
        return BadProof;
      }
      grants := grants[id := row.(redeemedAt := Some(now), agentId := agent, keyFp := fp)];
      return ClaimOk(row.sshUser, row.expiresAt);
    }

    method RecordCertificate(serial: uint64, id: bytes, agent: bytes, fp: bytes, line: bytes, after: int, before: int, now: int)
      returns (ok: bool)
      modifies this`certs
      ensures var r := Recorded(old(State()), id, CertRow(Signed(serial), agent, fp, line, after, before, now));
              ok == r.Some? && State() == if ok then r.value else old(State())
      ensures ok <==> id in old(certs) || forall g :: g in old(certs) ==> old(certs)[g].serial != Signed(serial)
      ensures certs == if ok && id !in old(certs) then old(certs)[id := CertRow(Signed(serial), agent, fp, line, after, before, now)] else old(certs)
    {
      if id in certs {
        return true;
      }
      if exists g :: g in certs && certs[g].serial == Signed(serial) {
        return false;
      }
      certs := certs[id := CertRow(Signed(serial), agent, fp, line, after, before, now)];
      return true;
    }

    method CertificateSerial(id: bytes) returns (serial: Option<int>)
      ensures serial == SerialOf(State(), id)
      ensures forall v: uint64 :: id in certs && certs[id].serial == Signed(v) ==> serial == Some(v)
      ensures serial.None? <==> id !in certs
    {
      return if id in certs then Some(Unsigned(certs[id].serial)) else None;
    }
  }

  lemma {:induction false} SubsetSize<T>(a: set<T>, b: set<T>)
    requires a <= b
    ensures |a| <= |b|
  {
    if a != {} {
      var x :| x in a;
      SubsetSize(a - {x}, b - {x});
    }
  }
}
