/** Requests of the kind the replay and erasure bounds speak of exist. */
module Witness {
  import opened Bytes
  import opened Ids
  import opened Messages
  import opened Redemption
  import Canonical
  import Utf8
  import Replay
  import Erasure
  import V = Visitor

  predicate Plain(b: bytes) {
    forall i :: 0 <= i < |b| ==> 0 < b[i] < 128
  }

  lemma {:induction false} PlainIsValid(b: bytes)
    requires Plain(b)
    ensures Utf8.Valid(b) && 0 !in b
    decreases |b|
  {
    if b != [] {
      PlainIsValid(b[1..]);
    }
  }

  function Fill(c: byte, n: nat): (b: bytes)
    ensures |b| == n
  {
    seq(n, _ => c)
  }

  const HOST_ID: bytes := [104, 95] + Fill(97, 32)
  const AGENT_ID: bytes := [97, 95] + Fill(97, 32)

  function GrantId(c: byte): bytes {
    [103, 95] + Fill(c, 16)
  }

  /** A host whose primitives accept everything. */
  const ENV: Env := Env(
    Some(Host(HOST_ID, [104], 22)), (k: bytes, m: bytes) => [1], (k: bytes, m: bytes, s: bytes) => true, (k: bytes) => AGENT_ID,
    (l: bytes) => Some([7]), (k: bytes) => [8], (c: Certificate) => [9])

  function At(grant: byte, t: int): Request {
    Request(RedemptionPayload(1, HOST_ID, GrantId(grant), AGENT_ID, Fill(0, 32), [120], t, Fill(0, 16)), Fill(0, 64), [1])
  }

  lemma PlainField(name: string, v: Canonical.Value)
    requires name != "" && Plain(Ascii(name))
    requires v.Str? ==> Plain(v.text)
    requires (v.Str? || v.Raw?) || (v.U64? && v.n <= Canonical.MAX_U64)
    ensures Canonical.FieldError(Canonical.Field(Ascii(name), v)).None?
  {
    hide Utf8.Valid;
    PlainIsValid(Ascii(name));
    if v.Str? {
      PlainIsValid(v.text);
    }
  }

  lemma PlainLetters(s: string)
    requires forall c :: c in s ==> 0 < c as int < 128
    ensures Plain(Ascii(s))
  {
    assert forall i :: 0 <= i < |s| ==> s[i] in s;
  }

  lemma ShortNames()
    ensures Plain(Ascii("version")) && Plain(Ascii("host_id")) && Plain(Ascii("nonce")) && Plain(Ascii("timestamp"))
  {
    hide Ascii, Plain;
    PlainLetters("version");
    PlainLetters("host_id");
    PlainLetters("nonce");
    PlainLetters("timestamp");
  }

  lemma LongNames()
    ensures Plain(Ascii("grant_id")) && Plain(Ascii("agent_id")) && Plain(Ascii("agent_public_key")) && Plain(Ascii("ssh_public_key"))
  {
    hide Ascii, Plain;
    PlainLetters("grant_id");
    PlainLetters("agent_id");
    PlainLetters("agent_public_key");
    PlainLetters("ssh_public_key");
  }

  lemma IdsArePlain(grant: byte)
    requires 0 < grant < 128
    ensures Plain(HOST_ID) && Plain(AGENT_ID) && Plain(GrantId(grant))
  {
  }

  lemma FieldsOk(grant: byte, t: nat)
    requires 0 < grant < 128 && t < 100000
    ensures Canonical.FirstError(PayloadFields(At(grant, t).payload)).None?
  {
    hide Utf8.Valid, Canonical.FieldError, Ascii, GrantId, Fill, Canonical.FirstError;
    ShortNames();
    LongNames();
    IdsArePlain(grant);
    var p := At(grant, t).payload;
    var fs := PayloadFields(p);
    PlainField("version", Canonical.U64(p.version));
    PlainField("host_id", Canonical.Str(p.hostId));
    PlainField("grant_id", Canonical.Str(p.grantId));
    PlainField("agent_id", Canonical.Str(p.agentId));
    PlainField("agent_public_key", Canonical.Raw(p.agentKey));
    PlainField("ssh_public_key", Canonical.Str(p.sshKey));
    PlainField("timestamp", Canonical.U64(p.timestamp));
    PlainField("nonce", Canonical.Raw(p.nonce));
    NoError(fs);
  }

  lemma {:induction false} NoError(fs: seq<Canonical.Field>)
    requires forall i :: 0 <= i < |fs| ==> Canonical.FieldError(fs[i]).None?
    ensures Canonical.FirstError(fs).None?
    decreases |fs|
  {
    hide Canonical.FieldError;
    if fs != [] {
      NoError(fs[1..]);
    }
  }

  lemma ContextsArePlain()
    ensures Plain(Ascii("grantd/v1/redemption-agent-sig")) && Plain(Ascii("grantd/v1/redemption-proof"))
  {
    hide Ascii, Plain;
    PlainLetters("grantd/v1/redemption-agent-sig");
    PlainLetters("grantd/v1/redemption-proof");
  }

  lemma CanonicalOk(grant: byte, t: nat)
    requires 0 < grant < 128 && t < 100000
    ensures CanonicalBytes(RedeemSigned(At(grant, t).payload)).Ok? && CanonicalBytes(RedeemProved(At(grant, t).payload)).Ok?
  {
    hide Utf8.Valid, PayloadFields, Canonical.Layout, Canonical.FirstError, Ascii;
    FieldsOk(grant, t);
    ContextsArePlain();
    PlainIsValid(Ascii("grantd/v1/redemption-agent-sig"));
    PlainIsValid(Ascii("grantd/v1/redemption-proof"));
  }

  lemma SoundAt(grant: byte, t: nat)
    requires 97 <= grant <= 122 && t < 100000
    ensures Sound(ENV, At(grant, t)) && forall secret :: VerifyProof(ENV, At(grant, t))(secret) == Some(true)
  {
    hide CanonicalBytes;
    CanonicalOk(grant, t);
  }

  /** Two requests 361 seconds apart, so the replay bound is about something. */
  lemma ReplayPairExists()
    ensures Sound(ENV, At(97, 1000)) && Sound(ENV, At(97, 1361))
    ensures At(97, 1361).payload.timestamp == At(97, 1000).payload.timestamp + SKEW + Replay.TOLERATED + 1
  {
    hide Sound;
    SoundAt(97, 1000);
    SoundAt(97, 1361);
  }

  /** Two redemptions of two grants with one nonce, so the erasure bound is about something. */
  lemma ClashExists()
    ensures Erasure.Clashes(ENV, Erasure.Clash(At(97, 1000), At(98, 1480), At(97, 1481), [1], [2], [117], 1, 2))
  {
    hide Sound, VerifyProof;
    SoundAt(97, 1000);
    SoundAt(98, 1480);
    SoundAt(97, 1481);
    assert GrantId(97)[2] != GrantId(98)[2];
    assert [117] != Ascii("root") by { assert |Ascii("root")| == 4; }
  }

  // ---- A visitor who is served honestly

  const IDENTITY: bytes := Fill(0, 32)
  const ROW: V.Enrolment := V.Enrolment(HOST_ID, [107], [104], 22, [117])
  const REGISTRATION: HostRegistration := HostRegistration(1, HOST_ID, IDENTITY, [99], [107], [104], 22, [117], 1000, Fill(0, 16))
  const CERT: Certificate := Certificate([7], 5, [105], [117], 900, 2000)
  const OWNER: V.Owner := V.Owner(IDENTITY, [8], [99], {Registering(REGISTRATION)}, {CERT})

  /** Primitives under which only what the host signed and issued verifies. */
  const CRYPTO: V.Crypto := V.Crypto(
    (k: bytes) => if k == IDENTITY then HOST_ID else [104, 95] + Fill(98, 32),
    (k: bytes, m: bytes, s: bytes) => k == IDENTITY && CanonicalBytes(Registering(REGISTRATION)) == Ok(m),
    (l: bytes) => Some(if l == [99] then [8] else [7]),
    (l: bytes) => Some(V.OnWire(CERT, [8])),
    (k: bytes, c: V.Cert) => k == [8] && c == V.OnWire(CERT, [8]))

  lemma RegistrationNames()
    ensures Plain(Ascii("identity_public_key")) && Plain(Ascii("ssh_ca_public_key")) && Plain(Ascii("ssh_host_public_key"))
    ensures Plain(Ascii("hostname")) && Plain(Ascii("ssh_port")) && Plain(Ascii("ssh_user")) && Plain(Ascii("grantd/v1/host-register"))
  {
    hide Ascii, Plain;
    PlainLetters("identity_public_key");
    PlainLetters("ssh_ca_public_key");
    PlainLetters("ssh_host_public_key");
    PlainLetters("hostname");
    PlainLetters("ssh_port");
    PlainLetters("ssh_user");
    PlainLetters("grantd/v1/host-register");
  }

  lemma RegistrationFieldsOk()
    ensures Canonical.FirstError(Fields(Registering(REGISTRATION))).None?
  {
    hide Utf8.Valid, Canonical.FieldError, Ascii, Fill, Canonical.FirstError;
    ShortNames();
    RegistrationNames();
    IdsArePlain(97);
    var r := REGISTRATION;
    PlainField("version", Canonical.U64(r.version));
    PlainField("host_id", Canonical.Str(r.hostId));
    PlainField("identity_public_key", Canonical.Raw(r.identityKey));
    PlainField("ssh_ca_public_key", Canonical.Str(r.sshCaKey));
    PlainField("ssh_host_public_key", Canonical.Str(r.sshHostKey));
    PlainField("hostname", Canonical.Str(r.hostname));
    PlainField("ssh_port", Canonical.U64(r.sshPort));
    PlainField("ssh_user", Canonical.Str(r.sshUser));
    PlainField("timestamp", Canonical.U64(r.timestamp));
    PlainField("nonce", Canonical.Raw(r.nonce));
    NoError(Fields(Registering(r)));
  }

  lemma RegistrationOk()
    ensures CanonicalBytes(Registering(REGISTRATION)).Ok?
  {
    hide Utf8.Valid, Fields, Canonical.Layout, Canonical.FirstError, Ascii;
    RegistrationFieldsOk();
    RegistrationNames();
    PlainIsValid(Ascii("grantd/v1/host-register"));
  }

  lemma RegistrationFits()
    ensures FitsWire(Registering(REGISTRATION))
  {
    hide Ascii, Fill, BigEndian, Canonical.FieldFits;
    var m := Registering(REGISTRATION);
    var fs := Fields(m);
    forall i | 0 <= i < |fs| ensures Canonical.FieldFits(fs[i]) {
      FieldFitsAt(i);
    }
  }

  lemma FieldFitsAt(i: nat)
    requires i < 10
    ensures Canonical.FieldFits(Fields(Registering(REGISTRATION))[i])
  {
    hide Ascii, Fill, BigEndian;
  }

  /** Ideal primitives and an accepted answer go together. */
  lemma HonestAnswerAccepted()
    ensures V.Ideal(CRYPTO, OWNER)
    ensures V.Accepted(CRYPTO, OWNER, V.Record(HOST_ID, REGISTRATION, Fill(0, 64)), V.Response([104], 22, [117], []), [7], 1000)
  {
    hide CanonicalBytes, FitsWire;
    RegistrationOk();
    RegistrationFits();
    var m := Registering(REGISTRATION);
    assert V.Built(IDENTITY, [99], V.Register(ROW, 1000, Fill(0, 16))) == Some(m);
    assert HOST_ID[2] != ([104, 95] + Fill(98, 32))[2];
    assert [117] != Ascii("root") by { assert |Ascii("root")| == 4; }
    assert m in OWNER.signed && CERT in OWNER.issued;
  }
}
