/** The protocol's signed and authenticated messages and the bytes that stand for them. */
module Messages {
  import opened Bytes
  import opened Canonical
  import Utf8

  datatype HostRegistration = HostRegistration(
    version: nat, hostId: bytes, identityKey: bytes, sshCaKey: bytes, sshHostKey: bytes,
    hostname: bytes, sshPort: nat, sshUser: bytes, timestamp: int, nonce: bytes)

  datatype HostConnect = HostConnect(version: nat, hostId: bytes, path: bytes, timestamp: int, nonce: bytes)

  datatype GrantMetadata = GrantMetadata(
    version: nat, hostId: bytes, grantId: bytes, sshUser: bytes, createdAt: int, expiresAt: int)

  datatype RedemptionPayload = RedemptionPayload(
    version: nat, hostId: bytes, grantId: bytes, agentId: bytes, agentKey: bytes, sshKey: bytes,
    timestamp: int, nonce: bytes)

  datatype AgentRegistration = AgentRegistration(
    version: nat, agentId: bytes, publicKey: bytes, challengeId: bytes, powNonce: bytes, timestamp: int)

  /** Every message anybody signs or authenticates. A redemption payload is covered twice, under two contexts. */
  datatype Message =
    | Registering(registration: HostRegistration)
    | Connecting(connect: HostConnect)
    | Publishing(metadata: GrantMetadata)
    | RedeemSigned(signed: RedemptionPayload)
    | RedeemProved(proved: RedemptionPayload)
    | Enrolling(agent: AgentRegistration)

  datatype CanonicalError = BadTimestamp | BadField(field: Error)

  function Context(m: Message): bytes {
    match m
    case Registering(_) => Ascii("grantd/v1/host-register")
    case Connecting(_) => Ascii("grantd/v1/host-connect")
    case Publishing(_) => Ascii("grantd/v1/grant")
    case RedeemSigned(_) => Ascii("grantd/v1/redemption-agent-sig")
    case RedeemProved(_) => Ascii("grantd/v1/redemption-proof")
    case Enrolling(_) => Ascii("grantd/v1/agent-register")
  }

  function U(name: string, n: int): Field
    requires n >= 0
  {
    Field(Ascii(name), U64(n))
  }

  function S(name: string, text: bytes): Field {
    Field(Ascii(name), Str(text))
  }

  function B(name: string, data: bytes): Field {
    Field(Ascii(name), Raw(data))
  }

  /** The message's timestamps are not negative. */
  predicate TimesInRange(m: Message) {
    match m
    case Registering(r) => r.timestamp >= 0
    case Connecting(c) => c.timestamp >= 0
    case Publishing(g) => g.createdAt >= 0 && g.expiresAt >= 0
    case RedeemSigned(p) => p.timestamp >= 0
    case RedeemProved(p) => p.timestamp >= 0
    case Enrolling(a) => a.timestamp >= 0
  }

  function PayloadFields(p: RedemptionPayload): seq<Field>
    requires p.timestamp >= 0
  {
    [U("version", p.version), S("host_id", p.hostId), S("grant_id", p.grantId), S("agent_id", p.agentId),
     B("agent_public_key", p.agentKey), S("ssh_public_key", p.sshKey), U("timestamp", p.timestamp),
     B("nonce", p.nonce)]
  }

  function Fields(m: Message): seq<Field>
    requires TimesInRange(m)
  {
    match m
    case Registering(r) =>
      [U("version", r.version), S("host_id", r.hostId), B("identity_public_key", r.identityKey),
       S("ssh_ca_public_key", r.sshCaKey), S("ssh_host_public_key", r.sshHostKey), S("hostname", r.hostname),
       U("ssh_port", r.sshPort), S("ssh_user", r.sshUser), U("timestamp", r.timestamp), B("nonce", r.nonce)]
    case Connecting(c) =>
      [U("version", c.version), S("host_id", c.hostId), S("path", c.path), U("timestamp", c.timestamp),
       B("nonce", c.nonce)]
    case Publishing(g) =>
      [U("version", g.version), S("host_id", g.hostId), S("grant_id", g.grantId), S("ssh_user", g.sshUser),
       U("created_at", g.createdAt), U("expires_at", g.expiresAt)]
    case RedeemSigned(p) => PayloadFields(p)
    case RedeemProved(p) => PayloadFields(p)
    case Enrolling(a) =>
      [U("version", a.version), S("agent_id", a.agentId), B("public_key", a.publicKey),
       S("challenge_id", a.challengeId), S("pow_nonce", a.powNonce), U("timestamp", a.timestamp)]
  }

  /** The bytes a message is signed or authenticated as. */
  function CanonicalBytes(m: Message): Result<bytes, CanonicalError> {
    if !TimesInRange(m) then Err(BadTimestamp)
    else match Encoded(Context(m), Fields(m))
      case Ok(b) => Ok(b)
      case Err(e) => Err(BadField(e))
  }

  /** Every text and byte string in the message is shorter than 2^32 bytes. */
  predicate FitsWire(m: Message) {
    TimesInRange(m) ==> Fits(Context(m), Fields(m))
  }

  lemma SameContextSameKind(m: Message, m': Message)
    requires Context(m) == Context(m')
    ensures m.Registering? == m'.Registering? && m.Connecting? == m'.Connecting?
    ensures m.Publishing? == m'.Publishing? && m.RedeemSigned? == m'.RedeemSigned?
    ensures m.RedeemProved? == m'.RedeemProved? && m.Enrolling? == m'.Enrolling?
  {
    assert |Context(m)| == |Context(m')|;
  }

  lemma SameFieldsSameMessage(m: Message, m': Message)
    requires TimesInRange(m) && TimesInRange(m')
    requires Context(m) == Context(m') && Fields(m) == Fields(m')
    ensures m == m'
  {
    hide Ascii;
    SameContextSameKind(m, m');
    var f, g := Fields(m), Fields(m');
    assert forall i :: 0 <= i < |f| ==> f[i] == g[i];
    match m
    case Registering(_) =>
      assert f[0] == g[0] && f[1] == g[1] && f[2] == g[2] && f[3] == g[3] && f[4] == g[4];
      assert f[5] == g[5] && f[6] == g[6] && f[7] == g[7] && f[8] == g[8] && f[9] == g[9];
    case Connecting(_) =>
      assert f[0] == g[0] && f[1] == g[1] && f[2] == g[2] && f[3] == g[3] && f[4] == g[4];
    case Publishing(_) =>
      assert f[0] == g[0] && f[1] == g[1] && f[2] == g[2] && f[3] == g[3] && f[4] == g[4] && f[5] == g[5];
    case RedeemSigned(_) =>
      assert f[0] == g[0] && f[1] == g[1] && f[2] == g[2] && f[3] == g[3] && f[4] == g[4] && f[5] == g[5];
      assert f[6] == g[6] && f[7] == g[7];
    case RedeemProved(_) =>
      assert f[0] == g[0] && f[1] == g[1] && f[2] == g[2] && f[3] == g[3] && f[4] == g[4] && f[5] == g[5];
      assert f[6] == g[6] && f[7] == g[7];
    case Enrolling(_) =>
      assert f[0] == g[0] && f[1] == g[1] && f[2] == g[2] && f[3] == g[3] && f[4] == g[4] && f[5] == g[5];
  }

  /**
   * Bytes bind a message completely: if one message's bytes begin another's, the two are the same
   * kind and agree in every field. So a signature or a MAC never carries over to another message.
   */
  lemma BytesBindMessage(m: Message, m': Message)
    requires CanonicalBytes(m).Ok? && CanonicalBytes(m').Ok? && FitsWire(m) && FitsWire(m')
    requires CanonicalBytes(m).value <= CanonicalBytes(m').value
    ensures m == m'
  {
    hide Encoded, Fits, Fields, Context;
    PrefixFree(Context(m), Fields(m), Context(m'), Fields(m'));
    SameFieldsSameMessage(m, m');
  }

  /** Every field of the registration but its nonce is shorter than 2^32 bytes. */
  predicate ShortButNonce(r: HostRegistration) {
    && |r.hostId| < LIMIT && |r.identityKey| < LIMIT && |r.sshCaKey| < LIMIT && |r.sshHostKey| < LIMIT
    && |r.hostname| < LIMIT && |r.sshUser| < LIMIT
  }

  function NonceField(r: HostRegistration): Field {
    B("nonce", r.nonce)
  }

  function OtherFields(r: HostRegistration): seq<Field>
    requires r.timestamp >= 0
  {
    Fields(Registering(r))[..9]
  }

  lemma FieldsOfRegistration(r: HostRegistration)
    requires r.timestamp >= 0 && ShortButNonce(r) && FirstError(Fields(Registering(r))).None?
    ensures |OtherFields(r)| == 9 && Fields(Registering(r)) == OtherFields(r) + [NonceField(r)]
    ensures forall f :: f in OtherFields(r) ==> Readable(f)
  {
    hide Utf8.Valid;
    var fs := Fields(Registering(r));
    forall f | f in OtherFields(r) ensures Readable(f) {
      NoFieldError(fs, f);
      assert f in [fs[0], fs[1], fs[2], fs[3], fs[4], fs[5], fs[6], fs[7], fs[8]];
    }
  }

  lemma {:induction false} NoFieldError(fs: seq<Field>, f: Field)
    requires FirstError(fs).None? && f in fs
    ensures FieldError(f).None?
    decreases |fs|
  {
    hide FieldError;
    if f != fs[0] {
      NoFieldError(fs[1..], f);
    }
  }

  /** A registration's bytes are those of no other message, whatever the length of its nonce. */
  lemma RegistrationBinds(r: HostRegistration, m: Message)
    requires ShortButNonce(r) && FitsWire(m)
    requires CanonicalBytes(Registering(r)).Ok? && CanonicalBytes(m) == CanonicalBytes(Registering(r))
    ensures m == Registering(r)
  {
    hide Fields, Context, FirstError, FieldsBytes, BigEndian, Utf8.Valid, Readable;
    KindsNeverCollide(m, Registering(r));
    var r' := m.registration;
    FitsIsShort(r');
    FieldsOfRegistration(r);
    FieldsOfRegistration(r');
    var head := Prefixed(Context(m)) + BigEndian(10, 4);
    assert Context(m) == Context(Registering(r)) by { SameKindSameContext(r, r'); }
    assert CanonicalBytes(m).value[|head|..] == FieldsBytes(Fields(m));
    assert CanonicalBytes(Registering(r)).value[|head|..] == FieldsBytes(Fields(Registering(r)));
    LastFieldBinds(OtherFields(r), NonceField(r), OtherFields(r'), NonceField(r'));
    SameFieldsSameMessage(m, Registering(r));
  }

  lemma SameKindSameContext(r: HostRegistration, r': HostRegistration)
    ensures Context(Registering(r)) == Context(Registering(r'))
  {
  }

  lemma FitsIsShort(r: HostRegistration)
    requires r.timestamp >= 0 && FitsWire(Registering(r))
    ensures ShortButNonce(r)
  {
    hide Ascii;
    var fs := Fields(Registering(r));
    assert fs[1] in fs && fs[2] in fs && fs[3] in fs && fs[4] in fs && fs[5] in fs && fs[7] in fs;
  }

  /** Messages of two kinds never share their bytes, however long their fields are. */
  lemma KindsNeverCollide(m: Message, m': Message)
    requires CanonicalBytes(m).Ok? && CanonicalBytes(m) == CanonicalBytes(m')
    ensures m.Registering? == m'.Registering? && m.Connecting? == m'.Connecting?
    ensures m.Publishing? == m'.Publishing? && m.RedeemSigned? == m'.RedeemSigned?
    ensures m.RedeemProved? == m'.RedeemProved? && m.Enrolling? == m'.Enrolling?
  {
    ContextReadsBack(m);
    ContextReadsBack(m');
    SameContextSameKind(m, m');
  }

  lemma ContextReadsBack(m: Message)
    requires CanonicalBytes(m).Ok?
    ensures ParsePrefixed(CanonicalBytes(m).value).Some?
    ensures ParsePrefixed(CanonicalBytes(m).value).value.0 == Context(m)
  {
    hide ParsePrefixed, FieldsBytes, Fields, FirstError;
    var rest := BigEndian(|Fields(m)|, 4) + FieldsBytes(Fields(m));
    assert CanonicalBytes(m).value == Prefixed(Context(m)) + rest;
    PrefixedParses(Context(m), rest);
  }
}
