/** A grant is claimed at most once, by a valid proof, and the one response matches the stored record. */
module SingleUse {
  import opened Bytes
  import opened Messages
  import opened Store
  import opened Redemption

  function GrantOf(s: State, c: nat): bytes
    requires c in s.calls
  {
    s.calls[c].req.payload.grantId
  }

  predicate IsIssued(s: State, c: nat) {
    c in s.calls && s.calls[c].phase.Finished? && s.calls[c].phase.outcome.Issued?
  }

  /** A stored row never departs from the grant as created, except that it may be redeemed and revoked. */
  predicate RowsKept(s: State) {
    forall id :: id in s.db.grants ==>
      && id in s.ever
      && s.db.grants[id].(redeemedAt := None, revokedAt := None, agentId := [], keyFp := []) == s.ever[id]
      && (s.db.grants[id].redeemedAt.Some? ==> id in s.winner)
  }

  predicate ClaimsDistinct(s: State) {
    forall i, j :: 0 <= i < j < |s.claims| ==>
      s.claims[i].grant != s.claims[j].grant && s.claims[i].call != s.claims[j].call
  }

  predicate ClaimsWon(s: State) {
    forall k :: k in s.claims ==> k.grant in s.winner && s.winner[k.grant] == k.call
  }

  /** The winner claimed in time, with a proof that is the MAC of its payload under the grant's secret. */
  predicate WinSound(env: Env, s: State, g: bytes)
    requires g in s.winner
  {
    var c := s.winner[g];
    && c in s.calls && GrantOf(s, c) == g && g in s.ever && s.calls[c].now < s.ever[g].expiresAt
    && VerifyProof(env, s.calls[c].req)(s.ever[g].secret) == Some(true)
    && (g in s.db.grants ==> s.db.grants[g].redeemedAt.Some?)
    && (s.calls[c].phase == ToRecord(s.ever[g].sshUser, s.ever[g].expiresAt) || s.calls[c].phase.Finished?)
    && (g in s.db.certs ==> IsIssued(s, c))
  }

  predicate WinsSound(env: Env, s: State) {
    && (forall g :: g in s.winner ==> WinSound(env, s, g))
    && s.db.certs.Keys <= s.winner.Keys
  }

  predicate Winning(p: Phase) {
    p.ToRecord? || (p.Finished? && p.outcome.Issued?)
  }

  predicate WinnersKnown(s: State) {
    forall c :: c in s.calls && Winning(s.calls[c].phase) ==> GrantOf(s, c) in s.winner && s.winner[GrantOf(s, c)] == c
  }

  /** An issued certificate is the one recorded, made out to the stored user until the stored expiry. */
  predicate IssueSound(env: Env, s: State, c: nat)
    requires IsIssued(s, c)
  {
    var g, o := GrantOf(s, c), s.calls[c].phase.outcome;
    && g in s.ever && g in s.db.certs && env.host.Some?
    && o.response == ResponseFor(env, s.ever[g].sshUser, o.cert)
    && Issue(env, s.calls[c].req, s.calls[c].now, s.ever[g].sshUser, s.ever[g].expiresAt, o.cert.serial) == Some(o.cert)
    && s.db.certs[g] == CertRowFor(env, s.calls[c].req, s.calls[c].now, o.cert)
  }

  predicate IssuesSound(env: Env, s: State) {
    forall c :: c in s.calls && IsIssued(s, c) ==> IssueSound(env, s, c)
  }

  predicate Inv(env: Env, s: State) {
    && RowsKept(s) && ClaimsDistinct(s) && ClaimsWon(s) && WinsSound(env, s) && WinnersKnown(s) && IssuesSound(env, s)
  }

  /** Steps that leave calls, claims and certificates alone. */
  lemma StoreStepKeepsInv(env: Env, s: State, s': State)
    requires Inv(env, s) && RowsKept(s')
    requires s'.calls == s.calls && s'.claims == s.claims && s'.winner == s.winner && s'.db.certs == s.db.certs
    requires forall id :: id in s.ever ==> id in s'.ever && s'.ever[id] == s.ever[id]
    requires forall id :: id in s'.db.grants && id in s.winner ==>
      id in s.db.grants && s'.db.grants[id].redeemedAt == s.db.grants[id].redeemedAt
    ensures Inv(env, s')
  {
    hide VerifyProof, Issue, CertRowFor, ResponseFor, RowsKept;
    forall g | g in s'.winner ensures WinSound(env, s', g) {
      assert WinSound(env, s, g);
    }
    forall c | IsIssued(s', c) ensures IssueSound(env, s', c) {
      assert IsIssued(s, c) && IssueSound(env, s, c);
    }
  }

  /** Steps that move one call to a phase that neither claims nor issues. */
  lemma QuietMoveKeepsInv(env: Env, s: State, s': State, c: nat)
    requires Inv(env, s) && c in s'.calls && !Winning(s'.calls[c].phase)
    requires c in s.calls ==> !s.calls[c].phase.Finished? && s'.calls[c] == s.calls[c].(phase := s'.calls[c].phase)
    requires c in s.calls && s.calls[c].phase.ToRecord? ==> s'.calls[c].phase.Finished?
    requires s'.calls == s.calls[c := s'.calls[c]] && s'.db.grants == s.db.grants && s'.db.certs == s.db.certs
    requires s'.ever == s.ever && s'.claims == s.claims && s'.winner == s.winner
    ensures Inv(env, s')
  {
    hide VerifyProof, Issue, CertRowFor, ResponseFor;
    forall g | g in s'.winner ensures WinSound(env, s', g) {
      assert WinSound(env, s, g);
    }
    forall d | IsIssued(s', d) ensures IssueSound(env, s', d) {
      assert IsIssued(s, d) && IssueSound(env, s, d);
    }
  }

  lemma WinnersAreRedeemed(env: Env, s: State)
    requires WinsSound(env, s)
    ensures forall g :: g in s.winner ==> g in s.ever && (g in s.db.grants ==> s.db.grants[g].redeemedAt.Some?)
  {
    hide VerifyProof;
    forall g | g in s.winner ensures g in s.ever && (g in s.db.grants ==> s.db.grants[g].redeemedAt.Some?) {
      assert WinSound(env, s, g);
    }
  }

  /** `s'` is `s` after call `c` claimed its grant. */
  predicate Wins(env: Env, s: State, s': State, c: nat) {
    && c in s.calls && s.calls[c].phase.ToClaim?
    && var g, call := GrantOf(s, c), s.calls[c];
    && g in s.db.grants && s.db.grants[g].redeemedAt.None? && call.now < s.db.grants[g].expiresAt
    && VerifyProof(env, call.req)(s.db.grants[g].secret) == Some(true)
    && s'.db == Claimed(s.db, g, call.now, call.req.payload.agentId, KeyFp(env, call.req))
    && s'.calls == s.calls[c := call.(phase := ToRecord(s.db.grants[g].sshUser, s.db.grants[g].expiresAt))]
    && s'.ever == s.ever
    && s'.claims == s.claims + [Claim(c, g, call.now)] && s'.winner == s.winner[g := c]
  }

  lemma WinKeepsWins(env: Env, s: State, s': State, c: nat)
    requires RowsKept(s) && WinsSound(env, s) && Wins(env, s, s', c) && GrantOf(s, c) !in s.winner
    ensures RowsKept(s') && WinsSound(env, s')
  {
    hide VerifyProof, KeyFp;
    assert WinSound(env, s', GrantOf(s, c));
    forall h | h in s.winner ensures WinSound(env, s', h) {
      assert WinSound(env, s, h);
    }
  }

  lemma WinKeepsIssues(env: Env, s: State, s': State, c: nat)
    requires WinnersKnown(s) && IssuesSound(env, s) && Wins(env, s, s', c) && GrantOf(s, c) !in s.winner
    ensures WinnersKnown(s') && IssuesSound(env, s')
  {
    hide VerifyProof, KeyFp, Issue, CertRowFor, ResponseFor;
    forall d | IsIssued(s', d) ensures IssueSound(env, s', d) {
      assert IsIssued(s, d) && IssueSound(env, s, d);
    }
  }

  lemma WinKeepsInv(env: Env, s: State, s': State, c: nat)
    requires Inv(env, s) && Wins(env, s, s', c)
    ensures Inv(env, s')
  {
    hide VerifyProof, KeyFp, RowsKept, ClaimsDistinct, ClaimsWon, WinsSound, WinnersKnown, IssuesSound;
    WinnersAreRedeemed(env, s);
    NewClaim(env, s, s', Claim(c, GrantOf(s, c), s.calls[c].now));
    WinKeepsWins(env, s, s', c);
    WinKeepsIssues(env, s, s', c);
  }

  lemma ClaimKeepsInv(env: Env, s: State, c: nat)
    requires Inv(env, s) && Enabled(s, DoClaim(c))
    ensures Inv(env, AfterClaim(env, s, c))
  {
    hide VerifyProof, Inv;
    var s', g := AfterClaim(env, s, c), GrantOf(s, c);
    if ClaimOutcome(s.db, g, s.calls[c].now, VerifyProof(env, s.calls[c].req)).ClaimOk? {
      WinKeepsInv(env, s, s', c);
    } else {
      QuietMoveKeepsInv(env, s, s', c);
    }
  }

  lemma NewClaim(env: Env, s: State, s': State, k: Claim)
    requires ClaimsDistinct(s) && ClaimsWon(s) && WinsSound(env, s)
    requires k.grant !in s.winner && k.call in s.calls && GrantOf(s, k.call) == k.grant
    requires s'.claims == s.claims + [k] && s'.winner == s.winner[k.grant := k.call]
    ensures ClaimsDistinct(s') && ClaimsWon(s')
  {
    hide VerifyProof;
    forall i | 0 <= i < |s.claims| ensures s.claims[i].grant != k.grant && s.claims[i].call != k.call {
      assert s.claims[i] in s.claims;
      assert WinSound(env, s, s.claims[i].grant);
    }
  }

  lemma IssueKeepsInv(env: Env, s: State, s': State, c: nat)
    requires Inv(env, s) && c in s.calls && s.calls[c].phase.ToRecord? && IsIssued(s', c)
    requires var g, call, o := GrantOf(s, c), s.calls[c], s'.calls[c].phase.outcome;
             && env.host.Some? && o.response == ResponseFor(env, call.phase.user, o.cert)
             && Issue(env, call.req, call.now, call.phase.user, call.phase.expires, o.cert.serial) == Some(o.cert)
             && Recorded(s.db, g, CertRowFor(env, call.req, call.now, o.cert)) == Some(s'.db)
    requires s'.calls == s.calls[c := s.calls[c].(phase := s'.calls[c].phase)]
    requires s'.ever == s.ever && s'.claims == s.claims && s'.winner == s.winner
    ensures Inv(env, s')
  {
    hide VerifyProof, Issue, CertRowFor, ResponseFor, ClaimsDistinct, ClaimsWon, RowsKept;
    assert WinSound(env, s, GrantOf(s, c));
    forall h | h in s'.winner ensures WinSound(env, s', h) {
      assert WinSound(env, s, h);
    }
    forall d | IsIssued(s', d) ensures IssueSound(env, s', d) {
      if d != c {
        assert IsIssued(s, d) && IssueSound(env, s, d);
      }
    }
    ClaimsAndRowsOnly(s, s');
  }

  lemma ClaimsAndRowsOnly(s: State, s': State)
    requires RowsKept(s) && ClaimsDistinct(s) && ClaimsWon(s)
    requires s'.db.grants == s.db.grants && s'.ever == s.ever && s'.claims == s.claims && s'.winner == s.winner
    ensures RowsKept(s') && ClaimsDistinct(s') && ClaimsWon(s')
  {
  }

  lemma RecordKeepsInv(env: Env, s: State, c: nat, serial: uint64)
    requires Inv(env, s) && Enabled(s, Record(c, serial))
    ensures Inv(env, AfterRecord(env, s, c, serial))
  {
    hide Inv, Issue, CertRowFor, ResponseFor, Recorded;
    var s' := AfterRecord(env, s, c, serial);
    if IsIssued(s', c) {
      IssuedSerial(env, s.calls[c].req, s.calls[c].now, s.calls[c].phase.user, s.calls[c].phase.expires, serial);
      IssueKeepsInv(env, s, s', c);
    } else {
      QuietMoveKeepsInv(env, s, s', c);
    }
  }

  lemma StepKeepsInv(env: Env, s: State, step: Step)
    requires Inv(env, s) && Enabled(s, step)
    ensures Inv(env, Next(env, s, step))
  {
    hide Inv, Precheck, AfterClaim, AfterRecord;
    var s' := Next(env, s, step);
    match step
    case Begin(c, _) => QuietMoveKeepsInv(env, s, s', c);
    case Prune(c) => QuietMoveKeepsInv(env, s, s', c);
    case Insert(c) => QuietMoveKeepsInv(env, s, s', c);
    case DoClaim(c) => ClaimKeepsInv(env, s, c);
    case Record(c, serial) => RecordKeepsInv(env, s, c, serial);
    case Abort(c) => QuietMoveKeepsInv(env, s, s', c);
    case _ =>
      RowsStayKept(env, s, step);
      StoreStepKeepsInv(env, s, s');
  }

  lemma RowsStayKept(env: Env, s: State, step: Step)
    requires Inv(env, s) && Enabled(s, step)
    requires step.Tick? || step.Create? || step.Revoke? || step.PurgeGrants? || step.PurgeNonces?
    ensures var s' := Next(env, s, step);
            && RowsKept(s')
            && forall id :: id in s'.db.grants && id in s.winner ==>
                 id in s.db.grants && s'.db.grants[id].redeemedAt == s.db.grants[id].redeemedAt
  {
    hide WinsSound, WinnersKnown, IssuesSound, ClaimsWon, ClaimsDistinct;
    WinnersAreRedeemed(env, s);
  }

  lemma InitialInv(env: Env, clock: int)
    ensures Inv(env, Init(clock))
  {
  }

  lemma {:induction false} RunKeepsInv(env: Env, s: State, steps: seq<Step>)
    requires Inv(env, s) && ValidRun(env, s, steps)
    ensures Inv(env, After(env, s, steps))
    decreases steps
  {
    hide Inv, Enabled, Next;
    if steps != [] {
      StepKeepsInv(env, s, steps[0]);
      RunKeepsInv(env, Next(env, s, steps[0]), steps[1..]);
    }
  }

  /** In every run, however interleaved, no grant and no call has two claims. */
  lemma ClaimedAtMostOnce(env: Env, clock: int, steps: seq<Step>)
    requires ValidRun(env, Init(clock), steps)
    ensures ClaimsDistinct(After(env, Init(clock), steps))
  {
    RunKeepsInv(env, Init(clock), steps);
  }

  /**
   * Every response that reached a caller rests on that caller's own claim, proved under the grant's
   * secret and made before its expiry; it carries the stored user, never root, and expiry, the host's
   * address and the serial the certificates table gives back; and that table's row is the certificate's.
   */
  lemma ResponseMatchesRecord(env: Env, clock: int, steps: seq<Step>, c: nat)
    requires ValidRun(env, Init(clock), steps) && IsIssued(After(env, Init(clock), steps), c)
    ensures var s := After(env, Init(clock), steps);
            var g, o, call := GrantOf(s, c), s.calls[c].phase.outcome, s.calls[c];
            var mac := CanonicalBytes(RedeemProved(call.req.payload));
            && g in s.winner && s.winner[g] == c && g in s.ever && call.now < s.ever[g].expiresAt
            && mac.Ok? && call.req.proof == env.hmac(s.ever[g].secret, mac.value)
            && o.response.user == s.ever[g].sshUser == o.cert.principal
            && o.response.validBefore == s.ever[g].expiresAt == o.cert.validBefore
            && SerialOf(s.db, g) == Some(o.response.serial) && o.response.serial == o.cert.serial
            && o.response.keyId == KeyId(g, call.req.payload.agentId)
            && Some(o.cert.key) == env.sshKeyOf(call.req.payload.sshKey)
            && o.cert.validAfter == call.now - 30 && o.cert.principal != [] && o.cert.principal != Ascii("root")
            && env.host.Some? && o.response.hostname == env.host.value.hostname && o.response.port == env.host.value.sshPort
            && o.response.certificate == env.certLine(o.cert)
            && g in s.db.certs
            && s.db.certs[g] == CertRow(Signed(o.cert.serial), call.req.payload.agentId, env.fingerprint(o.cert.key), o.response.certificate,
                                        o.cert.validAfter, o.cert.validBefore, call.now)
  {
    hide CanonicalBytes, KeyId, Ascii;
    RunKeepsInv(env, Init(clock), steps);
    var s := After(env, Init(clock), steps);
    assert IssueSound(env, s, c);
    assert WinSound(env, s, GrantOf(s, c));
    SerialSurvivesSigned(s.calls[c].phase.outcome.cert.serial);
  }
}
