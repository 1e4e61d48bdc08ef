/** What a visitor checks before trusting a host record and a certificate the service handed over. */
module Visitor {
  import opened Bytes
  import opened Ids
  import opened Messages
  import opened Store
  import R = Redemption
  import Requests
  import Single = SingleUse

  /** An SSH certificate as it parses. */
  datatype Cert = Cert(
    isUser: bool, key: bytes, serial: nat, keyId: bytes, principals: seq<bytes>, validAfter: int, validBefore: int,
    options: set<bytes>, signatureKey: Option<bytes>)

  /** The primitives: host ids, signatures, SSH key and certificate parsing, certificate signatures. */
  datatype Crypto = Crypto(
    hostIdOf: bytes -> bytes,
    verifies: (bytes, bytes, bytes) -> bool,
    sshKeyOf: bytes -> Option<bytes>,
    certOf: bytes -> Option<Cert>,
    certVerifies: (bytes, Cert) -> bool)

  datatype Record = Record(hostId: bytes, registration: HostRegistration, signature: bytes)

  datatype VerifiedHost = VerifiedHost(registration: HostRegistration, caKey: bytes, hostKey: bytes)

  datatype Response = Response(hostname: bytes, port: nat, user: bytes, certificate: bytes)

  datatype Fault = RecordMismatch | RecordSignature | BadHostname | BadUser | BadPort | BadCa | NoHostKey | ResponseMismatch | BadCertificate

  // ---- The address, the login and the port

  predicate HostChar(c: byte) {
    65 <= c <= 90 || 97 <= c <= 122 || 48 <= c <= 57 || c in {45, 46, 58, 91, 93, 95}
  }

  /** Letters, digits and . _ : [ ] - only, at most 253 of them, and no two dots in a row. */
  predicate ValidHostname(h: bytes) {
    && 1 <= |h| <= 253 && (forall i :: 0 <= i < |h| ==> HostChar(h[i]))
    && forall i :: 0 <= i < |h| - 1 ==> !(h[i] == 46 && h[i + 1] == 46)
  }

  predicate LoginStart(c: byte) {
    97 <= c <= 122 || c == 95
  }

  /** A lowercase login name of at most 32 characters, not root. */
  predicate ValidUser(u: bytes) {
    && 1 <= |u| <= 32 && LoginStart(u[0]) && u != Ascii("root")
    && forall i :: 0 <= i < |u| ==> LoginStart(u[i]) || 48 <= u[i] <= 57 || u[i] == 45
  }

  const MAX_KEY_LINE: nat := 1024

  /** An SSH public key line; longer ones are refused unread. */
  function KeyOfLine(cr: Crypto, line: bytes): Option<bytes> {
    if |line| > MAX_KEY_LINE then None else cr.sshKeyOf(line)
  }

  // ---- The two checks, in order

  function VerifyHostRecord(cr: Crypto, hostId: bytes, rec: Record): Result<VerifiedHost, Fault> {
    var reg := rec.registration;
    if reg.version != 1 || reg.hostId != hostId || rec.hostId != hostId then Err(RecordMismatch)
    else if |reg.identityKey| != 32 || cr.hostIdOf(reg.identityKey) != hostId then Err(RecordMismatch)
    else match CanonicalBytes(Registering(reg))
      case Err(_) => Err(RecordSignature)
      case Ok(msg) =>
        if |rec.signature| != 64 || !cr.verifies(reg.identityKey, msg, rec.signature) then Err(RecordSignature)
        else if !ValidHostname(reg.hostname) then Err(BadHostname)
        else if !ValidUser(reg.sshUser) then Err(BadUser)
        else if reg.sshPort == 0 || reg.sshPort > 65535 then Err(BadPort)
        else if KeyOfLine(cr, reg.sshCaKey).None? then Err(BadCa)
        else if KeyOfLine(cr, reg.sshHostKey).None? then Err(NoHostKey)
        else Ok(VerifiedHost(reg, KeyOfLine(cr, reg.sshCaKey).value, KeyOfLine(cr, reg.sshHostKey).value))
  }

  const INFINITY: int := 0xFFFF_FFFF_FFFF_FFFF

  /** The certificate library's own check: no unknown option, the principal, the time, the signature. */
  predicate CheckCert(cr: Crypto, user: bytes, c: Cert, now: int)
    requires c.signatureKey.Some?
  {
    && c.options <= {Ascii("source-address")} && (c.principals != [] ==> user in c.principals)
    && 0 <= c.validAfter < 0x8000_0000_0000_0000 && c.validAfter <= now
    && (c.validBefore != INFINITY ==> now < c.validBefore < 0x8000_0000_0000_0000)
    && cr.certVerifies(c.signatureKey.value, c)
  }

  function VerifyRedemption(cr: Crypto, host: VerifiedHost, resp: Response, ownKey: bytes, now: int): Result<Cert, Fault> {
    var reg := host.registration;
    if resp.hostname != reg.hostname || resp.port != reg.sshPort || resp.user != reg.sshUser then Err(ResponseMismatch)
    else
      match cr.certOf(resp.certificate)
      case None => Err(BadCertificate)
      case Some(c) =>
        if !c.isUser || c.key != ownKey || c.principals != [reg.sshUser] || c.signatureKey != Some(host.caKey) then Err(BadCertificate)
        else if !CheckCert(cr, reg.sshUser, c, now) then Err(BadCertificate)
        else Ok(c)
  }

  // ---- What the two checks look at

  const RECORD_CONDITIONS: nat := 10

  /** What a record must be like, in the order it is looked at. */
  predicate RecordMeets(cr: Crypto, hostId: bytes, rec: Record, k: nat) {
    var reg, signed := rec.registration, CanonicalBytes(Registering(rec.registration));
    match k
    case 0 => reg.version == 1
    case 1 => reg.hostId == hostId && rec.hostId == hostId
    case 2 => |reg.identityKey| == 32 && cr.hostIdOf(reg.identityKey) == hostId
    case 3 => signed.Ok?
    case 4 => signed.Ok? && |rec.signature| == 64 && cr.verifies(reg.identityKey, signed.value, rec.signature)
    case 5 => ValidHostname(reg.hostname)
    case 6 => ValidUser(reg.sshUser)
    case 7 => 1 <= reg.sshPort <= 65535
    case 8 => |reg.sshCaKey| <= 1024 && cr.sshKeyOf(reg.sshCaKey).Some?
    case 9 => |reg.sshHostKey| <= 1024 && cr.sshKeyOf(reg.sshHostKey).Some?
    case _ => true
  }

  /** What is said of a record for which that is the first condition not met. */
  function RecordFault(k: nat): Fault {
    match k
    case 3 => RecordSignature
    case 4 => RecordSignature
    case 5 => BadHostname
    case 6 => BadUser
    case 7 => BadPort
    case 8 => BadCa
    case 9 => NoHostKey
    case _ => RecordMismatch
  }

  /** A record that meets everything gives its registration and the two keys on it; any other the first fault. */
  lemma VerifyHostRecordExactly(cr: Crypto, hostId: bytes, rec: Record)
    ensures VerifyHostRecord(cr, hostId, rec).Ok? <==> forall k :: 0 <= k < RECORD_CONDITIONS ==> RecordMeets(cr, hostId, rec, k)
    ensures VerifyHostRecord(cr, hostId, rec).Ok? ==>
      var v, reg := VerifyHostRecord(cr, hostId, rec).value, rec.registration;
      v.registration == reg && Some(v.caKey) == cr.sshKeyOf(reg.sshCaKey) && Some(v.hostKey) == cr.sshKeyOf(reg.sshHostKey)
    ensures forall k: nat :: k < RECORD_CONDITIONS && !RecordMeets(cr, hostId, rec, k) && (forall i :: 0 <= i < k ==> RecordMeets(cr, hostId, rec, i)) ==>
      VerifyHostRecord(cr, hostId, rec) == Err(RecordFault(k))
  {
    hide CanonicalBytes, ValidHostname, ValidUser;
    var v := VerifyHostRecord(cr, hostId, rec);
    if forall k :: 0 <= k < RECORD_CONDITIONS ==> RecordMeets(cr, hostId, rec, k) {
      RecordMet(cr, hostId, rec);
    }
    forall k: nat | k < RECORD_CONDITIONS && !RecordMeets(cr, hostId, rec, k) && (forall i :: 0 <= i < k ==> RecordMeets(cr, hostId, rec, i))
      ensures v == Err(RecordFault(k))
    {
      RecordFaultNamed(cr, hostId, rec, k);
    }
  }

  lemma RecordMet(cr: Crypto, hostId: bytes, rec: Record)
    requires forall k :: 0 <= k < RECORD_CONDITIONS ==> RecordMeets(cr, hostId, rec, k)
    ensures VerifyHostRecord(cr, hostId, rec).Ok?
  {
    hide CanonicalBytes, ValidHostname, ValidUser;
    assert RecordMeets(cr, hostId, rec, 0) && RecordMeets(cr, hostId, rec, 1) && RecordMeets(cr, hostId, rec, 2);
    assert RecordMeets(cr, hostId, rec, 4) && RecordMeets(cr, hostId, rec, 5) && RecordMeets(cr, hostId, rec, 6);
    assert RecordMeets(cr, hostId, rec, 7) && RecordMeets(cr, hostId, rec, 8) && RecordMeets(cr, hostId, rec, 9);
  }

  lemma RecordFaultNamed(cr: Crypto, hostId: bytes, rec: Record, k: nat)
    requires k < RECORD_CONDITIONS && !RecordMeets(cr, hostId, rec, k) && forall i :: 0 <= i < k ==> RecordMeets(cr, hostId, rec, i)
    ensures VerifyHostRecord(cr, hostId, rec) == Err(RecordFault(k))
  {
    hide CanonicalBytes, ValidHostname, ValidUser;
    assert k > 0 ==> RecordMeets(cr, hostId, rec, 0);
    assert k > 1 ==> RecordMeets(cr, hostId, rec, 1);
    assert k > 2 ==> RecordMeets(cr, hostId, rec, 2);
    assert k > 3 ==> RecordMeets(cr, hostId, rec, 3);
    assert k > 4 ==> RecordMeets(cr, hostId, rec, 4);
    assert k > 5 ==> RecordMeets(cr, hostId, rec, 5);
    assert k > 6 ==> RecordMeets(cr, hostId, rec, 6);
    assert k > 7 ==> RecordMeets(cr, hostId, rec, 7);
    assert k > 8 ==> RecordMeets(cr, hostId, rec, 8);
  }

  /** The certificate is a user certificate over the visitor's key, for the login alone, by the host's authority, and valid now. */
  predicate Suits(cr: Crypto, host: VerifiedHost, c: Cert, ownKey: bytes, now: int) {
    && c.isUser && c.key == ownKey && c.principals == [host.registration.sshUser] && c.signatureKey == Some(host.caKey)
    && c.options <= {Ascii("source-address")} && 0 <= c.validAfter <= now && c.validAfter < 0x8000_0000_0000_0000
    && (c.validBefore == 0xFFFF_FFFF_FFFF_FFFF || now < c.validBefore < 0x8000_0000_0000_0000)
    && cr.certVerifies(host.caKey, c)
  }

  /** A response is accepted, with its certificate, iff it repeats the registration's address and login and the certificate suits. */
  lemma VerifyRedemptionExactly(cr: Crypto, host: VerifiedHost, resp: Response, ownKey: bytes, now: int)
    ensures var v, reg, c := VerifyRedemption(cr, host, resp, ownKey, now), host.registration, cr.certOf(resp.certificate);
            var same := resp.hostname == reg.hostname && resp.port == reg.sshPort && resp.user == reg.sshUser;
            v == if !same then Err(ResponseMismatch)
                 else if c.Some? && Suits(cr, host, c.value, ownKey, now) then Ok(c.value) else Err(BadCertificate)
  {
    hide Ascii;
  }

  /** An address has no two dots in a row, anywhere. */
  lemma HostnameHasNoDotDot(h: bytes)
    ensures ValidHostname(h) <==> 1 <= |h| <= 253 && (forall c :: c in h ==> HostChar(c)) && forall a: bytes, b: bytes :: h != a + [46, 46] + b
  {
    if ValidHostname(h) {
      forall a: bytes, b: bytes ensures h != a + [46, 46] + b {
        var s := a + [46, 46] + b;
        assert s[|a|] == 46 && s[|a| + 1] == 46;
      }
    } else if 1 <= |h| <= 253 && forall c :: c in h ==> HostChar(c) {
      assert forall i :: 0 <= i < |h| ==> h[i] in h;
      var i :| 0 <= i < |h| - 1 && h[i] == 46 && h[i + 1] == 46;
      assert h == h[..i] + [46, 46] + h[i + 2..];
    }
  }

  // ---- What passing both means

  /** The enrolled host as the signer's store has it when it signs something. */
  datatype Enrolment = Enrolment(hostId: bytes, sshHostKey: bytes, hostname: bytes, sshPort: nat, sshUser: bytes)

  /** What a signer puts its identity key to. */
  datatype Duty =
    | Register(row: Enrolment, now: int, nonce: bytes)
    | ConnectTo(row: Enrolment, path: bytes, now: int, nonce: bytes)
    | Publish(row: Enrolment, grantId: bytes, user: bytes, created: int, expires: int)

  /** The message it builds and signs; none without a host key to pin. */
  function Built(identity: bytes, caLine: bytes, d: Duty): Option<Message> {
    match d
    case Register(h, now, nonce) =>
      if h.sshHostKey == [] then None
      else Some(Registering(HostRegistration(1, h.hostId, identity, caLine, h.sshHostKey, h.hostname, h.sshPort, h.sshUser, now, nonce)))
    case ConnectTo(h, path, now, nonce) => Some(Connecting(HostConnect(1, h.hostId, path, now, nonce)))
    case Publish(h, grantId, user, created, expires) =>
      Some(Publishing(GrantMetadata(1, h.hostId, grantId, user, created, expires)))
  }

  /** The host that is out there: its identity key, its certificate key and that key's line, what it signed and issued. */
  datatype Owner = Owner(identity: bytes, ca: bytes, caLine: bytes, signed: set<Message>, issued: set<R.Certificate>)

  /** The certificate a signer's certificate is on the wire. */
  function OnWire(c: R.Certificate, ca: bytes): Cert {
    Cert(true, c.key, c.serial, c.keyId, [c.principal], c.validAfter, c.validBefore, {}, Some(ca))
  }

  ghost predicate BuiltBy(o: Owner, m: Message) {
    FitsWire(m) && exists d :: Built(o.identity, o.caLine, d) == Some(m)
  }

  /**
   * Ideal primitives: no other key has the host's id, only messages its signer built verify under
   * its identity key, and only certificates it issued verify under its certificate key.
   */
  ghost predicate Ideal(cr: Crypto, o: Owner) {
    && KeyOfLine(cr, o.caLine) == Some(o.ca) && |o.identity| == 32 && (forall k :: |k| == 32 ==> ValidHostId(cr.hostIdOf(k)))
    && (forall k :: |k| == 32 && cr.hostIdOf(k) == cr.hostIdOf(o.identity) ==> k == o.identity)
    && (forall m :: m in o.signed ==> BuiltBy(o, m))
    && (forall msg, sig :: cr.verifies(o.identity, msg, sig) ==> exists m :: m in o.signed && CanonicalBytes(m) == Ok(msg))
    && (forall c :: cr.certVerifies(o.ca, c) ==> exists i :: i in o.issued && c == OnWire(i, o.ca))
  }

  lemma RecordIsTheHosts(cr: Crypto, o: Owner, rec: Record)
    requires Ideal(cr, o) && VerifyHostRecord(cr, cr.hostIdOf(o.identity), rec).Ok?
    ensures Registering(rec.registration) in o.signed
  {
    hide FitsWire, CanonicalBytes;
    var reg := rec.registration;
    var msg := CanonicalBytes(Registering(reg)).value;
    assert cr.verifies(o.identity, msg, rec.signature);
    var m :| m in o.signed && CanonicalBytes(m) == Ok(msg);
    assert BuiltBy(o, m);
    RegistrationBinds(reg, m);
  }

  /** Both checks pass on what the service returned for this host. */
  predicate Accepted(cr: Crypto, o: Owner, rec: Record, resp: Response, ownKey: bytes, now: int) {
    var v := VerifyHostRecord(cr, cr.hostIdOf(o.identity), rec);
    v.Ok? && VerifyRedemption(cr, v.value, resp, ownKey, now).Ok?
  }

  /**
   * Whatever the service returned: if both checks pass, the record is, field for field, a
   * registration the host in the capability URL built and signed; the address, port and login are
   * that registration's, the keys gone by are those on it; and the certificate is one its authority issued, over the visitor's own
   * key, for that login alone, and valid now.
   */
  lemma VisitorChain(cr: Crypto, o: Owner, rec: Record, resp: Response, ownKey: bytes, now: int)
    requires Ideal(cr, o) && Accepted(cr, o, rec, resp, ownKey, now)
    ensures var reg := rec.registration;
            && Registering(reg) in o.signed && reg.hostId == cr.hostIdOf(o.identity)
            && (exists row, at, nonce :: Built(o.identity, o.caLine, Register(row, at, nonce)) == Some(Registering(reg)))
            && resp.hostname == reg.hostname && resp.port == reg.sshPort && resp.user == reg.sshUser
            && ValidHostname(resp.hostname) && ValidUser(resp.user) && resp.user != Ascii("root") && 1 <= resp.port <= 65535
            && var v := VerifyHostRecord(cr, cr.hostIdOf(o.identity), rec).value;
            && v.registration == reg && v.caKey == o.ca && Some(v.caKey) == cr.sshKeyOf(reg.sshCaKey) && Some(v.hostKey) == cr.sshKeyOf(reg.sshHostKey)
            && exists i ::
                 && i in o.issued && cr.certOf(resp.certificate) == Some(OnWire(i, o.ca)) && i.key == ownKey
                 && i.principal == reg.sshUser && i.validAfter <= now && (now < i.validBefore || i.validBefore == INFINITY)
  {
    hide FitsWire, CanonicalBytes, ValidHostname;
    RecordIsTheHosts(cr, o, rec);
    var reg := rec.registration;
    assert BuiltBy(o, Registering(reg));
    var d :| Built(o.identity, o.caLine, d) == Some(Registering(reg));
    assert Built(o.identity, o.caLine, Register(d.row, d.now, d.nonce)) == Some(Registering(reg));
    var cert := VerifyRedemption(cr, VerifyHostRecord(cr, cr.hostIdOf(o.identity), rec).value, resp, ownKey, now).value;
    assert cr.certVerifies(o.ca, cert);
    var i :| i in o.issued && cert == OnWire(i, o.ca);
    assert cert.principals[0] == i.principal;
  }

  /** Every certificate issued is the outcome of some finished call. */
  ghost predicate IssuedByCalls(s: R.State, issued: set<R.Certificate>) {
    forall i :: i in issued ==> exists c :: Single.IsIssued(s, c) && s.calls[c].phase.outcome.cert == i
  }

  /** A call whose own request, genuine and proved under the grant's secret, was for this key and got this certificate. */
  ghost predicate Earned(env: R.Env, s: R.State, c: nat, cert: R.Certificate, ownKey: bytes) {
    && Single.IsIssued(s, c) && s.calls[c].phase.outcome.cert == cert
    && var call, g := s.calls[c], Single.GrantOf(s, c);
    && Requests.Genuine(env, call.req, call.now) && env.sshKeyOf(call.req.payload.sshKey) == Some(ownKey)
    && g in s.winner && s.winner[g] == c && g in s.ever
    && var mac := CanonicalBytes(RedeemProved(call.req.payload));
    && mac.Ok? && call.req.proof == env.hmac(s.ever[g].secret, mac.value)
    && cert.principal == s.ever[g].sshUser && cert.validBefore == s.ever[g].expiresAt && SerialOf(s.db, g) == Some(cert.serial)
  }

  /**
   * From one end to the other: a certificate a visitor accepts was earned at the host named in the
   * URL by a redemption of a grant, for the visitor's key, under that grant's secret; it names the
   * grant's login, ends with the grant, and has the serial the host has on record for it.
   */
  lemma AcceptedCertificateWasEarned(cr: Crypto, o: Owner, rec: Record, resp: Response, ownKey: bytes, now: int,
                                     env: R.Env, clock: int, steps: seq<R.Step>)
    requires Ideal(cr, o) && Accepted(cr, o, rec, resp, ownKey, now)
    requires R.ValidRun(env, R.Init(clock), steps) && IssuedByCalls(R.After(env, R.Init(clock), steps), o.issued)
    ensures exists i, c ::
      cr.certOf(resp.certificate) == Some(OnWire(i, o.ca)) && Earned(env, R.After(env, R.Init(clock), steps), c, i, ownKey)
  {
    hide FitsWire, CanonicalBytes, Accepted, Ideal, R.Next, R.Enabled, Requests.Genuine;
    VisitorChain(cr, o, rec, resp, ownKey, now);
    var s := R.After(env, R.Init(clock), steps);
    var i :| i in o.issued && cr.certOf(resp.certificate) == Some(OnWire(i, o.ca)) && i.key == ownKey;
    var c :| Single.IsIssued(s, c) && s.calls[c].phase.outcome.cert == i;
    Single.ResponseMatchesRecord(env, clock, steps, c);
    Requests.IssuedIsGenuine(env, clock, steps, c);
    assert Earned(env, s, c, i, ownKey);
  }
}
