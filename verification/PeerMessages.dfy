/** The messages as the service's TypeScript and the visitor's Node client put them together, against Go's. */
module PeerMessages {
  import opened Bytes
  import opened Canonical
  import opened CanonicalPeers
  import opened Messages
  import opened Utf8

  /** The same six messages with their text in UTF-16. */
  datatype JsMessage =
    | JsRegistering(version: nat, hostId: units, identityKey: bytes, sshCaKey: units, sshHostKey: units, hostname: units,
                    sshPort: nat, sshUser: units, timestamp: int, nonce: bytes)
    | JsConnecting(version: nat, hostId: units, path: units, timestamp: int, nonce: bytes)
    | JsPublishing(version: nat, hostId: units, grantId: units, sshUser: units, createdAt: int, expiresAt: int)
    | JsRedeeming(proof: bool, version: nat, hostId: units, grantId: units, agentId: units, agentKey: bytes, sshKey: units,
                  timestamp: int, nonce: bytes)
    | JsEnrolling(version: nat, agentId: units, publicKey: bytes, challengeId: units, powNonce: units, timestamp: int)

  /** A name spelled in ASCII, as code units. */
  function Name(s: string): (u: units)
    ensures |u| == |s|
  {
    seq<unit>(|s|, i requires 0 <= i < |s| => s[i] as int % 128)
  }

  function JsContext(m: JsMessage): units {
    match m
    case JsRegistering(_, _, _, _, _, _, _, _, _, _) => Name("grantd/v1/host-register")
    case JsConnecting(_, _, _, _, _) => Name("grantd/v1/host-connect")
    case JsPublishing(_, _, _, _, _, _) => Name("grantd/v1/grant")
    case JsRedeeming(proof, _, _, _, _, _, _, _, _) =>
      if proof then Name("grantd/v1/redemption-proof") else Name("grantd/v1/redemption-agent-sig")
    case JsEnrolling(_, _, _, _, _, _) => Name("grantd/v1/agent-register")
  }

  function T(name: string, text: units): JsField {
    JsField(Name(name), JsStr(text))
  }

  function N(name: string, n: int): JsField {
    JsField(Name(name), JsU64(n))
  }

  function D(name: string, data: bytes): JsField {
    JsField(Name(name), JsRaw(data))
  }

  /** The lists the two clients write out. */
  function JsFields(m: JsMessage): seq<JsField> {
    match m
    case JsRegistering(version, hostId, identityKey, sshCaKey, sshHostKey, hostname, sshPort, sshUser, timestamp, nonce) =>
      [N("version", version), T("host_id", hostId), D("identity_public_key", identityKey), T("ssh_ca_public_key", sshCaKey),
       T("ssh_host_public_key", sshHostKey), T("hostname", hostname), N("ssh_port", sshPort), T("ssh_user", sshUser),
       N("timestamp", timestamp), D("nonce", nonce)]
    case JsConnecting(version, hostId, path, timestamp, nonce) =>
      [N("version", version), T("host_id", hostId), T("path", path), N("timestamp", timestamp), D("nonce", nonce)]
    case JsPublishing(version, hostId, grantId, sshUser, createdAt, expiresAt) =>
      [N("version", version), T("host_id", hostId), T("grant_id", grantId), T("ssh_user", sshUser), N("created_at", createdAt),
       N("expires_at", expiresAt)]
    case JsRedeeming(_, version, hostId, grantId, agentId, agentKey, sshKey, timestamp, nonce) =>
      [N("version", version), T("host_id", hostId), T("grant_id", grantId), T("agent_id", agentId), D("agent_public_key", agentKey),
       T("ssh_public_key", sshKey), N("timestamp", timestamp), D("nonce", nonce)]
    case JsEnrolling(version, agentId, publicKey, challengeId, powNonce, timestamp) =>
      [N("version", version), T("agent_id", agentId), D("public_key", publicKey), T("challenge_id", challengeId),
       T("pow_nonce", powNonce), N("timestamp", timestamp)]
  }

  /** The message as the Go side has it, its text in UTF-8. */
  function InGo(m: JsMessage): Message {
    match m
    case JsRegistering(version, hostId, identityKey, sshCaKey, sshHostKey, hostname, sshPort, sshUser, timestamp, nonce) =>
      Registering(HostRegistration(version, TextEncode(hostId), identityKey, TextEncode(sshCaKey), TextEncode(sshHostKey),
                                   TextEncode(hostname), sshPort, TextEncode(sshUser), timestamp, nonce))
    case JsConnecting(version, hostId, path, timestamp, nonce) =>
      Connecting(HostConnect(version, TextEncode(hostId), TextEncode(path), timestamp, nonce))
    case JsPublishing(version, hostId, grantId, sshUser, createdAt, expiresAt) =>
      Publishing(GrantMetadata(version, TextEncode(hostId), TextEncode(grantId), TextEncode(sshUser), createdAt, expiresAt))
    case JsRedeeming(proof, version, hostId, grantId, agentId, agentKey, sshKey, timestamp, nonce) =>
      var p := RedemptionPayload(version, TextEncode(hostId), TextEncode(grantId), TextEncode(agentId), agentKey, TextEncode(sshKey),
                                 timestamp, nonce);
      if proof then RedeemProved(p) else RedeemSigned(p)
    case JsEnrolling(version, agentId, publicKey, challengeId, powNonce, timestamp) =>
      Enrolling(AgentRegistration(version, TextEncode(agentId), publicKey, TextEncode(challengeId), TextEncode(powNonce), timestamp))
  }

  predicate Plain(s: string) {
    forall c :: c in s ==> 0 < c as int < 128
  }

  lemma {:induction false} PlainUnits(u: units)
    requires forall i :: 0 <= i < |u| ==> 0 < u[i] < 128
    ensures TextEncode(u) == u && Utf8.WellFormed(u) && 0 !in u
    decreases |u|
  {
    if u != [] {
      PlainUnits(u[1..]);
      assert Scalars(u) == [u[0]] + Scalars(u[1..]);
      assert EncodeAll(Scalars(u)) == [u[0]] + EncodeAll(Scalars(u)[1..]);
    }
  }

  /** A name is the same bytes to all three. */
  lemma NameIsAscii(s: string)
    requires Plain(s)
    ensures TextEncode(Name(s)) == Ascii(s) && Utf8.WellFormed(Name(s)) && 0 !in Name(s)
  {
    hide TextEncode, Utf8.WellFormed;
    assert forall i :: 0 <= i < |s| ==> s[i] in s;
    PlainUnits(Name(s));
    assert Name(s) == Ascii(s);
  }

  lemma FieldInGo(name: string, text: units, n: int, data: bytes)
    requires Plain(name)
    ensures ToGo(T(name, text)) == S(name, TextEncode(text)) && ToGo(D(name, data)) == B(name, data)
    ensures n >= 0 ==> ToGo(N(name, n)) == U(name, n)
    ensures Utf8.WellFormed(Name(name)) && 0 !in Name(name)
  {
    hide TextEncode, Utf8.WellFormed, Ascii, Name;
    NameIsAscii(name);
  }

  lemma {:induction false} InGoAt(fs: seq<JsField>, i: nat)
    requires i < |fs|
    ensures ToGoAll(fs)[i] == ToGo(fs[i])
  {
    hide ToGo;
    if i > 0 {
      InGoAt(fs[1..], i - 1);
    }
  }

  lemma ShortNames()
    ensures Plain("version") && Plain("host_id") && Plain("hostname") && Plain("ssh_port") && Plain("ssh_user") && Plain("nonce") && Plain("path")
  {
  }

  lemma MiddleNames()
    ensures Plain("timestamp") && Plain("grant_id") && Plain("created_at") && Plain("expires_at") && Plain("agent_id") && Plain("pow_nonce")
  {
  }

  lemma LongNames()
    ensures Plain("public_key") && Plain("challenge_id") && Plain("ssh_public_key") && Plain("agent_public_key")
  {
  }

  lemma LongerNames()
    ensures Plain("identity_public_key") && Plain("ssh_ca_public_key") && Plain("ssh_host_public_key")
  {
  }

  lemma PlainNames()
    ensures Plain("version") && Plain("host_id") && Plain("identity_public_key") && Plain("ssh_ca_public_key") && Plain("ssh_host_public_key")
    ensures Plain("hostname") && Plain("ssh_port") && Plain("ssh_user") && Plain("timestamp") && Plain("nonce") && Plain("path")
    ensures Plain("grant_id") && Plain("created_at") && Plain("expires_at") && Plain("agent_id") && Plain("agent_public_key")
    ensures Plain("ssh_public_key") && Plain("public_key") && Plain("challenge_id") && Plain("pow_nonce")
  {
    hide Plain;
    ShortNames();
    MiddleNames();
    LongNames();
    LongerNames();
  }

  predicate NamesStrict(fs: seq<JsField>) {
    forall f :: f in fs ==> 0 !in f.name && Utf8.WellFormed(f.name)
  }

  lemma SameAll(fs: seq<JsField>, gs: seq<Field>)
    requires |fs| == |gs| && forall i :: 0 <= i < |fs| ==> ToGo(fs[i]) == gs[i]
    ensures ToGoAll(fs) == gs
  {
    hide ToGo;
    forall i | 0 <= i < |fs| ensures ToGoAll(fs)[i] == gs[i] {
      InGoAt(fs, i);
    }
  }

  lemma FirstRegistrationFields(m: JsMessage)
    requires m.JsRegistering? && TimesInRange(InGo(m))
    ensures forall i :: 0 <= i < 5 ==>
      ToGo(JsFields(m)[i]) == Fields(InGo(m))[i] && 0 !in JsFields(m)[i].name && Utf8.WellFormed(JsFields(m)[i].name)
  {
    hide TextEncode, Utf8.WellFormed, Ascii, Name, Plain, ToGo, ToGoAll;
    PlainNames();
    FieldInGo("version", [], m.version, []);
    FieldInGo("host_id", m.hostId, 0, []);
    FieldInGo("identity_public_key", [], 0, m.identityKey);
    FieldInGo("ssh_ca_public_key", m.sshCaKey, 0, []);
    FieldInGo("ssh_host_public_key", m.sshHostKey, 0, []);
  }

  lemma OtherRegistrationFields(m: JsMessage)
    requires m.JsRegistering? && TimesInRange(InGo(m))
    ensures forall i :: 5 <= i < 10 ==>
      ToGo(JsFields(m)[i]) == Fields(InGo(m))[i] && 0 !in JsFields(m)[i].name && Utf8.WellFormed(JsFields(m)[i].name)
  {
    hide TextEncode, Utf8.WellFormed, Ascii, Name, Plain, ToGo, ToGoAll;
    PlainNames();
    FieldInGo("hostname", m.hostname, 0, []);
    FieldInGo("ssh_port", [], m.sshPort, []);
    FieldInGo("ssh_user", m.sshUser, 0, []);
    FieldInGo("timestamp", [], m.timestamp, []);
    FieldInGo("nonce", [], 0, m.nonce);
  }

  lemma RegistrationFields(m: JsMessage)
    requires m.JsRegistering? && TimesInRange(InGo(m))
    ensures ToGoAll(JsFields(m)) == Fields(InGo(m)) && NamesStrict(JsFields(m))
  {
    hide TextEncode, Utf8.WellFormed, ToGo, ToGoAll, JsFields, Fields;
    assert |JsFields(m)| == |Fields(InGo(m))| == 10 by { TenFields(m); }
    FirstRegistrationFields(m);
    OtherRegistrationFields(m);
    SameAll(JsFields(m), Fields(InGo(m)));
  }

  lemma TenFields(m: JsMessage)
    requires m.JsRegistering? && TimesInRange(InGo(m))
    ensures |JsFields(m)| == |Fields(InGo(m))| == 10
  {
    hide TextEncode, Ascii, Name;
  }

  lemma ConnectFields(m: JsMessage)
    requires m.JsConnecting? && TimesInRange(InGo(m))
    ensures ToGoAll(JsFields(m)) == Fields(InGo(m)) && NamesStrict(JsFields(m))
  {
    hide TextEncode, Utf8.WellFormed, Ascii, Name, Plain, ToGo, ToGoAll;
    PlainNames();
    FieldInGo("version", [], m.version, []);
    FieldInGo("host_id", m.hostId, 0, []);
    FieldInGo("path", m.path, 0, []);
    FieldInGo("timestamp", [], m.timestamp, []);
    FieldInGo("nonce", [], 0, m.nonce);
    SameAll(JsFields(m), Fields(InGo(m)));
  }

  lemma GrantFields(m: JsMessage)
    requires m.JsPublishing? && TimesInRange(InGo(m))
    ensures ToGoAll(JsFields(m)) == Fields(InGo(m)) && NamesStrict(JsFields(m))
  {
    hide TextEncode, Utf8.WellFormed, Ascii, Name, Plain, ToGo, ToGoAll;
    PlainNames();
    FieldInGo("version", [], m.version, []);
    FieldInGo("host_id", m.hostId, 0, []);
    FieldInGo("grant_id", m.grantId, 0, []);
    FieldInGo("ssh_user", m.sshUser, 0, []);
    FieldInGo("created_at", [], m.createdAt, []);
    FieldInGo("expires_at", [], m.expiresAt, []);
    SameAll(JsFields(m), Fields(InGo(m)));
  }

  lemma RedemptionFields(m: JsMessage)
    requires m.JsRedeeming? && TimesInRange(InGo(m))
    ensures ToGoAll(JsFields(m)) == Fields(InGo(m)) && NamesStrict(JsFields(m))
  {
    hide TextEncode, Utf8.WellFormed, Ascii, Name, Plain, ToGo, ToGoAll;
    PlainNames();
    FieldInGo("version", [], m.version, []);
    FieldInGo("host_id", m.hostId, 0, []);
    FieldInGo("grant_id", m.grantId, 0, []);
    FieldInGo("agent_id", m.agentId, 0, []);
    FieldInGo("agent_public_key", [], 0, m.agentKey);
    FieldInGo("ssh_public_key", m.sshKey, 0, []);
    FieldInGo("timestamp", [], m.timestamp, []);
    FieldInGo("nonce", [], 0, m.nonce);
    SameAll(JsFields(m), Fields(InGo(m)));
  }

  lemma AgentFields(m: JsMessage)
    requires m.JsEnrolling? && TimesInRange(InGo(m))
    ensures ToGoAll(JsFields(m)) == Fields(InGo(m)) && NamesStrict(JsFields(m))
  {
    hide TextEncode, Utf8.WellFormed, Ascii, Name, Plain, ToGo, ToGoAll;
    PlainNames();
    FieldInGo("version", [], m.version, []);
    FieldInGo("agent_id", m.agentId, 0, []);
    FieldInGo("public_key", [], 0, m.publicKey);
    FieldInGo("challenge_id", m.challengeId, 0, []);
    FieldInGo("pow_nonce", m.powNonce, 0, []);
    FieldInGo("timestamp", [], m.timestamp, []);
    SameAll(JsFields(m), Fields(InGo(m)));
  }

  lemma SameFields(m: JsMessage)
    requires TimesInRange(InGo(m))
    ensures ToGoAll(JsFields(m)) == Fields(InGo(m)) && NamesStrict(JsFields(m))
  {
    hide JsFields, Fields, ToGoAll, NamesStrict;
    match m
    case JsRegistering(_, _, _, _, _, _, _, _, _, _) => RegistrationFields(m);
    case JsConnecting(_, _, _, _, _) => ConnectFields(m);
    case JsPublishing(_, _, _, _, _, _) => GrantFields(m);
    case JsRedeeming(_, _, _, _, _, _, _, _, _) => RedemptionFields(m);
    case JsEnrolling(_, _, _, _, _, _) => AgentFields(m);
  }

  lemma PlainContexts()
    ensures Plain("grantd/v1/host-register") && Plain("grantd/v1/host-connect") && Plain("grantd/v1/grant")
  {
  }

  lemma OtherPlainContexts()
    ensures Plain("grantd/v1/redemption-agent-sig") && Plain("grantd/v1/redemption-proof") && Plain("grantd/v1/agent-register")
  {
  }

  lemma SameContext(m: JsMessage)
    ensures TextEncode(JsContext(m)) == Context(InGo(m)) && 0 !in JsContext(m) && Utf8.WellFormed(JsContext(m))
  {
    hide TextEncode, Utf8.WellFormed, Ascii, Name, Plain;
    PlainContexts();
    OtherPlainContexts();
    NameIsAscii("grantd/v1/host-register");
    NameIsAscii("grantd/v1/host-connect");
    NameIsAscii("grantd/v1/grant");
    NameIsAscii("grantd/v1/redemption-agent-sig");
    NameIsAscii("grantd/v1/redemption-proof");
    NameIsAscii("grantd/v1/agent-register");
  }

  /** No text in the message has a lone surrogate. */
  predicate TextStrict(m: JsMessage) {
    forall f :: f in JsFields(m) && f.value.JsStr? ==> Utf8.WellFormed(f.value.text)
  }

  lemma {:induction false} OneErrorIsEnough(fs: seq<JsField>, i: nat)
    requires i < |fs| && JsFieldError(fs[i]).Some?
    ensures JsFirstError(fs).Some?
  {
    hide JsFieldError;
    if i > 0 && JsFieldError(fs[0]).None? {
      OneErrorIsEnough(fs[1..], i - 1);
    }
  }

  lemma NegativeIsRefused(fs: seq<JsField>, i: nat)
    requires i < |fs| && fs[i].value.JsU64? && fs[i].value.n < 0
    ensures JsFirstError(fs).Some?
  {
    hide JsFirstError, EncodeString;
    OneErrorIsEnough(fs, i);
  }

  /** What Go refuses for its timestamp TypeScript refuses for its range. */
  lemma BothRefuse(m: JsMessage)
    requires !TimesInRange(InGo(m))
    ensures JsFirstError(JsFields(m)).Some?
  {
    hide JsFirstError, Name, TextEncode;
    var fs := JsFields(m);
    match m
    case JsRegistering(_, _, _, _, _, _, _, _, _, _) => NegativeIsRefused(fs, 8);
    case JsConnecting(_, _, _, _, _) => NegativeIsRefused(fs, 3);
    case JsPublishing(_, _, _, _, createdAt, _) => NegativeIsRefused(fs, if createdAt < 0 then 4 else 5);
    case JsRedeeming(_, _, _, _, _, _, _, _, _) => NegativeIsRefused(fs, 6);
    case JsEnrolling(_, _, _, _, _, _) => NegativeIsRefused(fs, 5);
  }

  /** The service builds a message exactly when Go does and its text is strict, and then from the same bytes. */
  lemma ServiceBuildsTheSameBytes(m: JsMessage)
    ensures JsEncoded(JsContext(m), JsFields(m)).Ok? <==> CanonicalBytes(InGo(m)).Ok? && TextStrict(m)
    ensures JsEncoded(JsContext(m), JsFields(m)).Ok? ==> CanonicalBytes(InGo(m)) == Ok(JsEncoded(JsContext(m), JsFields(m)).value)
  {
    hide JsFields, Fields, ToGoAll, TextEncode, Utf8.WellFormed, JsContext, Context, FirstError, JsFirstError, Layout, InGo, EncodeString;
    SameContext(m);
    if TimesInRange(InGo(m)) {
      SameFields(m);
      JsAgreesWithGo(JsContext(m), JsFields(m));
    } else {
      BothRefuse(m);
    }
  }

  lemma OnlyNodeKinds(m: JsMessage)
    ensures NodeKinds(JsFields(m))
  {
    hide Name;
  }

  /** Whatever Go accepts, the visitor's client builds from the same bytes, or not at all if a length overflows. */
  lemma VisitorBuildsTheSameBytes(m: JsMessage)
    requires CanonicalBytes(InGo(m)).Ok?
    ensures NodeEncoded(JsContext(m), JsFields(m)) == if FitsWire(InGo(m)) then Some(CanonicalBytes(InGo(m)).value) else None
  {
    hide JsFields, Fields, ToGoAll, TextEncode, Utf8.WellFormed, JsContext, Context, FirstError, Layout, InGo, NodeFields, Fits;
    SameContext(m);
    SameFields(m);
    OnlyNodeKinds(m);
    NodeAgreesWithGo(JsContext(m), JsFields(m));
  }
}
