/** Each step of the system keeps the invariant. */
module HostSteps {
  import opened Bytes
  import opened Ids
  import opened WardenState
  import opened Protocol
  import opened HostInvariant
  import S = Redemption
  import Single = SingleUse
  import Store

  // ---- The signer and the clocks

  lemma SignerEvolves(env: S.Env, s: S.State, step: S.Step)
    requires Single.Inv(env, s) && S.Enabled(s, step)
    ensures Evolves(s, S.Next(env, s, step))
  {
    hide Single.WinsSound, Single.WinnersKnown, Single.IssuesSound, Single.ClaimsWon, Single.ClaimsDistinct;
    hide S.Precheck, S.VerifyProof, S.Issue, S.CertRowFor, S.ResponseFor;
  }

  lemma GoneStays(env: S.Env, s: S.State, step: S.Step, now: int, id: Id)
    requires S.Enabled(s, step) && Gone(s, now, id) && (step.Create? ==> step.id != id)
    ensures Gone(S.Next(env, s, step), now, id)
  {
    hide S.Precheck, S.VerifyProof, S.Issue, S.CertRowFor, S.ResponseFor;
  }

  /** Nothing that is gone comes back for an id the warden has met. */
  ghost predicate GoneForMet(world: World, s: S.State) {
    forall id, now :: !Unheard(world, id) && Gone(world.sg, now, id) ==> Gone(s, now, id)
  }

  lemma RecordsStay(s: S.State, s': S.State, admits: seq<Admission>, attached: seq<Attachment>)
    requires Evolves(s, s') && AdmitsOk(s, admits) && AttachedOk(s, attached)
    ensures AdmitsOk(s', admits) && AttachedOk(s', attached)
  {
    hide Fit, RowOk, Names, Store.SerialOf, Evolves;
    forall k | 0 <= k < |admits|
      ensures Fit(s', admits[k].a, admits[k].row, admits[k].decided)
      ensures Store.SerialOf(s'.db, admits[k].a.grant) == Some(admits[k].serial)
    {
      FitStays(s, s', admits[k].a, admits[k].row, admits[k].decided);
      SerialStays(s, s', admits[k].a.grant, admits[k].serial);
    }
    forall i | 0 <= i < |attached| ensures Fit(s', attached[i].a, attached[i].row, attached[i].decided) {
      FitStays(s, s', attached[i].a, attached[i].row, attached[i].decided);
    }
  }

  lemma GoneLater(s: S.State, a: int, b: int, id: Id)
    requires Gone(s, a, id) && a <= b
    ensures Gone(s, b, id)
  {
  }

  lemma ShutLater(world: World, s: S.State, wall: int, mono: int)
    requires PromptOk(world) && GoneForMet(world, s) && wall >= world.wall && wall - mono == world.wall - world.mono
    requires world.recovery.Some? ==> world.recovery.value.done.Keys <= world.recovery.value.ids
    ensures PromptOk(world.(sg := s, wall := wall, mono := mono))
  {
    hide Gone, Unix;
    UnixMonotone(world.wall, wall);
    forall id | id in world.ended ensures Gone(s, Unix(wall), id) {
      GoneLater(s, Unix(world.wall), Unix(wall), id);
    }
    if world.recovery.Some? {
      var r := world.recovery.value;
      forall id | id in r.done && ForGood(r.done[id]) ensures Gone(s, Unix(wall), id) {
        GoneLater(s, Unix(world.wall), Unix(wall), id);
      }
    }
  }

  /** The signer or the clocks move; the warden stands still. */
  lemma OutsideKeeps(cfg: Config, world: World, s: S.State, wall: int, mono: int, mode: Mode)
    requires Inv(cfg, world, mode) && Evolves(world.sg, s) && Single.Inv(cfg.env, s) && mono >= world.mono
    requires !mode.Free? ==> wall - mono == world.wall - world.mono
    requires mode.Prompt? ==> GoneForMet(world, s)
    ensures Inv(cfg, world.(sg := s, wall := wall, mono := mono), mode)
  {
    hide Single.Inv, ObjectsOk, AdmitsOk, AttachedOk, SessionsOk, EndingsOk, CallsOk, PromptOk, Evolves, Unix;
    var world' := world.(sg := s, wall := wall, mono := mono);
    RecordsStay(world.sg, s, world.admits, world.attached);
    TimesStay(cfg, world, s, wall, mono, mode);
    if mode.Prompt? {
      ShutLater(world, s, wall, mono);
    }
    CallsStayOutside(cfg, world, s, wall, mono, mode);
  }

  lemma TimesStay(cfg: Config, world: World, s: S.State, wall: int, mono: int, mode: Mode)
    requires Evolves(world.sg, s) && mono >= world.mono
    requires DeadlinesOk(world.sg, world.w.objs, world.anchors, world.mono) && ModesOk(world)
    ensures DeadlinesOk(s, world.w.objs, world.anchors, mono) && ModesOk(world.(sg := s, wall := wall, mono := mono))
  {
    hide Unix;
  }

  lemma CallsStayOutside(cfg: Config, world: World, s: S.State, wall: int, mono: int, mode: Mode)
    requires CallsOk(world, mode) && |world.holders| == |world.admits| && Evolves(world.sg, s) && mono >= world.mono
    requires !mode.Free? ==> wall - mono == world.wall - world.mono
    ensures CallsOk(world.(sg := s, wall := wall, mono := mono), mode)
  {
    hide CallOk, Evolves, Unix;
    CallsStay(world, world.(sg := s, wall := wall, mono := mono), None, mode);
  }

  lemma ClockKeeps(cfg: Config, world: World, wall: int, mono: int, mode: Mode)
    requires Inv(cfg, world, mode) && mono >= world.mono && (!mode.Free? ==> wall - world.wall == mono - world.mono)
    ensures Inv(cfg, ClockSet(world, wall, mono), mode)
  {
    hide Inv, Single.Inv, Unix;
    var s := world.sg.(clock := Unix(wall));
    assert Single.Inv(cfg.env, s) && Evolves(world.sg, s) by {
      assert Single.Inv(cfg.env, world.sg) by { InvParts(cfg, world, mode); }
      ClockOnly(cfg.env, world.sg, Unix(wall));
    }
    assert GoneForMet(world, s);
    OutsideKeeps(cfg, world, s, wall, mono, mode);
    assert ClockSet(world, wall, mono) == world.(sg := s, wall := wall, mono := mono);
  }

  lemma InvParts(cfg: Config, world: World, mode: Mode)
    requires Inv(cfg, world, mode)
    ensures Single.Inv(cfg.env, world.sg) && ObjectsOk(world.w, world.next)
  {
    hide Single.Inv, ObjectsOk;
  }

  lemma ClockOnly(env: S.Env, s: S.State, clock: int)
    requires Single.Inv(env, s)
    ensures Single.Inv(env, s.(clock := clock)) && Evolves(s, s.(clock := clock))
  {
    hide Single.Inv;
    assert Single.RowsKept(s) by { RowsOfInv(env, s); }
    Single.StoreStepKeepsInv(env, s, s.(clock := clock));
  }

  lemma RowsOfInv(env: S.Env, s: S.State)
    requires Single.Inv(env, s)
    ensures Single.RowsKept(s)
  {
  }

  lemma SignerKeeps(cfg: Config, world: World, step: S.Step, mode: Mode)
    requires Inv(cfg, world, mode) && S.Enabled(world.sg, step) && (step.Create? ==> Unheard(world, step.id))
    ensures Inv(cfg, world.(sg := S.Next(cfg.env, world.sg, step)), mode)
  {
    hide Inv, Single.Inv, S.Enabled, S.Next, Gone, Evolves, Unheard;
    InvParts(cfg, world, mode);
    var s := S.Next(cfg.env, world.sg, step);
    Single.StepKeepsInv(cfg.env, world.sg, step);
    SignerEvolves(cfg.env, world.sg, step);
    forall id, now | !Unheard(world, id) && Gone(world.sg, now, id) ensures Gone(s, now, id) {
      GoneStays(cfg.env, world.sg, step, now, id);
    }
    OutsideKeeps(cfg, world, s, world.wall, world.mono, mode);
    assert world.(sg := s) == world.(sg := s, wall := world.wall, mono := world.mono);
  }

  // ---- Steps that touch one call

  lemma RowRead(cfg: Config, world: World, id: Id, mode: Mode)
    requires Inv(cfg, world, mode)
    ensures ReadOk(world, id, RowOf(world.sg, id), world.mono, mode)
  {
    hide Single.WinsSound, Single.WinnersKnown, Single.IssuesSound, Single.ClaimsWon, Single.ClaimsDistinct;
    hide ObjectsOk, TokensOk, AdmitsOk, AttachedOk, SessionsOk, DeadlinesOk, EndingsOk, CallsOk, ModesOk, Stale, Unix, Anchored;
  }

  lemma AdmitStartKeeps(cfg: Config, world: World, c: nat, sshd: Proc, user: bytes, keyId: bytes, serial: int, mode: Mode)
    requires Inv(cfg, world, mode) && world.w.ready && ParseKeyId(keyId).Some?
    ensures Inv(cfg, AdmitStarted(world, c, sshd, user, keyId, serial), mode)
  {
    hide Inv, ReadOk, ParseKeyId, RowOf;
    var world' := AdmitStarted(world, c, sshd, user, keyId, serial);
    var g := ParseKeyId(keyId).value.0;
    RowRead(cfg, world, g, mode);
    assert ReadOk(world', g, RowOf(world.sg, g), world.mono, mode) by { ReadElsewhere(world, world', g, RowOf(world.sg, g), world.mono, mode); }
    CallOnly(cfg, world, world', c, mode);
  }

  /** These facts do not look at the calls. */
  lemma ReadElsewhere(world: World, world': World, id: Id, row: Option<Store.Row>, at: int, mode: Mode)
    requires world' == world.(calls := world'.calls)
    ensures ReadOk(world, id, row, at, mode) == ReadOk(world', id, row, at, mode)
    ensures Stale(world, id, at) == Stale(world', id, at)
  {
  }

  lemma AdmitDecideKeeps(cfg: Config, world: World, c: nat, mode: Mode)
    requires Inv(cfg, world, mode) && world.w.ready && c in world.calls && world.calls[c].AdmitSeen?
    ensures Inv(cfg, AdmitDecided(world, c), mode)
  {
    hide Inv, Names, Store.SerialOf, Unix, Stale;
    var world', call := AdmitDecided(world, c), world.calls[c];
    assert CallOk(world, c, call, mode) by { CallIsOk(cfg, world, c, mode); }
    ReadElsewhere(world, world', call.a.grant, None, call.at, mode);
    CallOnly(cfg, world, world', c, mode);
  }

  lemma CallIsOk(cfg: Config, world: World, c: nat, mode: Mode)
    requires Inv(cfg, world, mode) && c in world.calls
    ensures CallOk(world, c, world.calls[c], mode) && world.w.ready
  {
    hide Single.Inv, ObjectsOk, TokensOk, AdmitsOk, AttachedOk, SessionsOk, DeadlinesOk, EndingsOk, PromptOk, CallOk;
  }

  lemma AttachReadKeeps(cfg: Config, world: World, c: nat, mode: Mode)
    requires Inv(cfg, world, mode) && c in world.calls && world.calls[c].AttachAsk?
    ensures Inv(cfg, AttachRead(world, c), mode)
  {
    hide Inv, ReadOk, RowOf;
    var world', call := AttachRead(world, c), world.calls[c];
    CallIsOk(cfg, world, c, mode);
    RowRead(cfg, world, call.a.grant, mode);
    ReadElsewhere(world, world', call.a.grant, RowOf(world.sg, call.a.grant), world.mono, mode);
    CallOnly(cfg, world, world', c, mode);
  }

  lemma AttachDecideKeeps(cfg: Config, world: World, c: nat, mode: Mode)
    requires Inv(cfg, world, mode) && c in world.calls && world.calls[c].AttachSeen?
    ensures Inv(cfg, AttachDecided(world, c), mode)
  {
    hide Inv, Unix, Stale;
    var world', call := AttachDecided(world, c), world.calls[c];
    CallIsOk(cfg, world, c, mode);
    ReadElsewhere(world, world', call.a.grant, None, call.at, mode);
    CallOnly(cfg, world, world', c, mode);
  }

  lemma StampKeeps(cfg: Config, world: World, c: nat, mode: Mode)
    requires Inv(cfg, world, mode) && c in world.calls && world.calls[c].AttachCleared?
    ensures Inv(cfg, Stamped(world, c), mode)
  {
    hide Inv, Unix, Stale, Fit;
    var world', call := Stamped(world, c), world.calls[c];
    CallIsOk(cfg, world, c, mode);
    ReadElsewhere(world, world', call.a.grant, None, call.at, mode);
    CallOnly(cfg, world, world', c, mode);
  }

  lemma PollStartKeeps(cfg: Config, world: World, c: nat, id: Id, mode: Mode)
    requires Inv(cfg, world, mode) && world.w.ready
    requires id in world.w.live && world.w.live[id] in world.w.objs && world.w.objs[world.w.live[id]].state.Open?
    ensures Inv(cfg, Put(world, c, PollSeen(id, RowOf(world.sg, id))), mode)
  {
    hide Inv, Unix, Stale;
    assert id in world.sg.ever by { OpenIsKnown(cfg, world, id, mode); }
    RowRead(cfg, world, id, mode);
    CallOnly(cfg, world, Put(world, c, PollSeen(id, RowOf(world.sg, id))), c, mode);
  }

  lemma OpenIsKnown(cfg: Config, world: World, id: Id, mode: Mode)
    requires Inv(cfg, world, mode)
    requires id in world.w.live && world.w.live[id] in world.w.objs && world.w.objs[world.w.live[id]].state.Open?
    ensures id in world.sg.ever
  {
    hide Single.Inv, TokensOk, AdmitsOk, AttachedOk, SessionsOk, EndingsOk, PromptOk, CallsOk, ModesOk;
  }

  lemma ClocksReadKeeps(cfg: Config, world: World, c: nat, mode: Mode)
    requires Inv(cfg, world, mode) && world.w.ready
    ensures Inv(cfg, Put(world, c, Enforcing(Unix(world.wall), world.mono)), mode)
  {
    hide Inv, Unix;
    CallOnly(cfg, world, Put(world, c, Enforcing(Unix(world.wall), world.mono)), c, mode);
  }

  lemma DropKeeps(cfg: Config, world: World, c: nat, mode: Mode)
    requires Inv(cfg, world, mode) && c in world.calls
    ensures Inv(cfg, Dropped(world, c), mode)
  {
    hide Inv, CallOk;
    CallIsOk(cfg, world, c, mode);
    CallOnly(cfg, world, Dropped(world, c), c, mode);
  }

  // ---- Admissions and sessions

  /** Steps that only move admissions between the pending map and hook calls. */
  lemma TokensMove(cfg: Config, world: World, world': World, c: Option<nat>, mode: Mode)
    requires Inv(cfg, world, mode) && world.w.ready
    requires world' == world.(w := world.w.(pending := world'.w.pending), calls := world'.calls, holders := world'.holders)
    requires TokensOk(world'.admits, world'.holders, world'.w.pending, world'.pendingFrom, world'.attached)
    requires forall k :: 0 <= k < |world.holders| && world.holders[k].WithCall? ==> world'.holders[k] == world.holders[k]
    requires forall d :: d in world'.calls && Some(d) != c ==> d in world.calls && world'.calls[d] == world.calls[d]
    requires c.Some? && c.value in world'.calls ==> CallOk(world', c.value, world'.calls[c.value], mode)
    ensures Inv(cfg, world', mode)
  {
    hide Single.Inv, AdmitsOk, AttachedOk, DeadlinesOk, EndingsOk, RecoveryOk, CallOk, Unix, Gone, Traced;
    assert StaysShut(world) ==> StaysShut(world');
    CallsStay(world, world', c, mode);
  }

  lemma AttachStartKeeps(cfg: Config, world: World, c: nat, sshd: Proc, user: bytes, mode: Mode)
    requires Inv(cfg, world, mode) && world.w.ready && c !in world.calls
    requires sshd.pid in world.w.pending && sshd.pid in world.pendingFrom && world.pendingFrom[sshd.pid] < |world.holders|
    ensures Inv(cfg, AttachStarted(cfg, world, c, sshd, user), mode)
  {
    hide Inv, CallOk, Unix, TokensOk;
    var world', k := AttachStarted(cfg, world, c, sshd, user), world.pendingFrom[sshd.pid];
    TokensOfInv(cfg, world, mode);
    TokenTaken(world.admits, world.holders, world.w.pending, world.pendingFrom, world.attached, sshd.pid, c);
    AskIsOk(world', c, mode);
    TokensMove(cfg, world, world', Some(c), mode);
  }

  lemma TokensOfInv(cfg: Config, world: World, mode: Mode)
    requires Inv(cfg, world, mode)
    ensures TokensOk(world.admits, world.holders, world.w.pending, world.pendingFrom, world.attached)
  {
    hide Single.Inv, ObjectsOk, TokensOk, AdmitsOk, AttachedOk, SessionsOk, DeadlinesOk, EndingsOk, PromptOk, CallsOk, ModesOk;
  }

  lemma ExpireKeeps(cfg: Config, world: World, mode: Mode)
    requires Inv(cfg, world, mode) && world.w.ready
    ensures Inv(cfg, world.(w := PendingExpired(world.w, world.mono, cfg.pendingTTL)), mode)
  {
    hide Inv, CallOk, Unix;
    TokensOfInv(cfg, world, mode);
    TokensMove(cfg, world, world.(w := PendingExpired(world.w, world.mono, cfg.pendingTTL)), None, mode);
  }

  lemma AskIsOk(world: World, c: nat, mode: Mode)
    requires c in world.calls ==> world.calls[c].AttachAsk? && Held(world, c, world.calls[c])
    ensures c in world.calls ==> CallOk(world, c, world.calls[c], mode)
  {
  }

  lemma TokenTaken(admits: seq<Admission>, holders: seq<Holder>, pending: map<int, Pending>,
                   pendingFrom: map<int, nat>, attached: seq<Attachment>, pid: int, c: nat)
    requires TokensOk(admits, holders, pending, pendingFrom, attached) && pid in pending
    ensures TokensOk(admits, holders, pending - {pid}, pendingFrom, attached) && |holders| == |admits|
    ensures holders[pendingFrom[pid]] == InPending(pid)
    ensures admits[pendingFrom[pid]].a == Asking(pending[pid].sshd, pending[pid].user, pending[pid].grant)
    ensures TokensOk(admits, holders[pendingFrom[pid] := WithCall(c)], pending - {pid}, pendingFrom, attached)
  {
  }

  lemma TokenGiven(admits: seq<Admission>, holders: seq<Holder>, pending: map<int, Pending>,
                   pendingFrom: map<int, nat>, attached: seq<Attachment>, x: Admission, p: Pending, pid: int)
    requires TokensOk(admits, holders, pending, pendingFrom, attached) && x.a == Asking(p.sshd, p.user, p.grant)
    ensures TokensOk(admits + [x], holders + [InPending(pid)], pending[pid := p], pendingFrom[pid := |admits|], attached)
  {
  }

  lemma TokenUsed(admits: seq<Admission>, holders: seq<Holder>, pending: map<int, Pending>,
                  pendingFrom: map<int, nat>, attached: seq<Attachment>, x: Attachment, c: nat)
    requires TokensOk(admits, holders, pending, pendingFrom, attached)
    requires x.admit < |holders| && holders[x.admit] == WithCall(c) && admits[x.admit].a == x.a
    ensures TokensOk(admits, holders[x.admit := Recorded(|attached|)], pending, pendingFrom, attached + [x])
  {
  }

  lemma AdmitCommitKeeps(cfg: Config, world: World, c: nat, mode: Mode)
    requires Inv(cfg, world, mode) && c in world.calls && world.calls[c].AdmitCleared? && WellFormed(world.w)
    ensures Inv(cfg, AdmitCommitted(world, c), mode)
  {
    hide Single.Inv, DeadlinesOk, EndingsOk, RecoveryOk, AttachedOk, Unix, Gone, Traced, Fit, Names, Store.SerialOf, ReadOk;
    if !Admissible(world.w, world.calls[c].a.grant) {
      DropKeeps(cfg, world, c, mode);
    } else {
      var world', call := AdmitCommitted(world, c), world.calls[c];
      var pid := call.a.sshd.pid;
      assert CallOk(world, c, call, mode);
      TokenGiven(world.admits, world.holders, world.w.pending, world.pendingFrom, world.attached,
                 world'.admits[|world.admits|], world'.w.pending[pid], pid);
      assert StaysShut(world) ==> StaysShut(world');
      assert CallsOk(world', mode) by {
        hide CallOk, AdmitsOk, ObjectsOk;
        CallsStay(world, world', Some(c), mode);
      }
    }
  }

  lemma SessionTraced(attached: seq<Attachment>, x: Attachment, g: Grant)
    requires Traced(attached, g)
    ensures Traced(attached + [x], g)
    ensures x.a.grant == g.id ==>
      Traced(attached + [x], g.(sessions := g.sessions[x.a.sshd.pid := Session(x.a.sshd, x.since)]))
  {
    var more := attached + [x];
    forall pid | pid in g.sessions
      ensures exists i :: 0 <= i < |more| && more[i].a.grant == g.id && Session(more[i].a.sshd, more[i].since) == g.sessions[pid]
    {
      var i :| 0 <= i < |attached| && attached[i].a.grant == g.id && Session(attached[i].a.sshd, attached[i].since) == g.sessions[pid];
      assert more[i] == attached[i];
    }
    assert more[|attached|] == x;
  }

  lemma SavedTraced(attached: seq<Attachment>, w: W<nat>)
    requires WellFormed(w) && forall o :: o in w.objs ==> Traced(attached, w.objs[o])
    ensures forall id :: id in w.live ==> Traced(attached, Snapshot(w.objs, w.live)[id])
  {
    forall id | id in w.live ensures Traced(attached, Persisted(w.objs[w.live[id]])) {
      assert Traced(attached, w.objs[w.live[id]]);
    }
  }

  lemma SessionsGrow(attached: seq<Attachment>, x: Attachment, w: W<nat>, recovery: Option<Recovery>, o: nat)
    requires WellFormed(w) && SessionsOk(attached, w, recovery) && o in w.objs && w.objs[o].id == x.a.grant
    ensures SessionsOk(attached + [x], SessionAdded(w, o, Session(x.a.sshd, x.since)), recovery)
  {
    hide Traced;
    var more, s := attached + [x], Session(x.a.sshd, x.since);
    forall p | p in w.objs ensures Traced(more, SessionAdded(w, o, s).objs[p]) {
      SessionTraced(attached, x, w.objs[p]);
    }
    SavedTraced(more, SessionAdded(w, o, s));
    if recovery.Some? {
      forall id | id in recovery.value.done ensures Traced(more, recovery.value.done[id]) {
        SessionTraced(attached, x, recovery.value.done[id]);
      }
    }
  }

  lemma SessionAddedObjects(w: W<nat>, next: nat, o: nat, s: Session)
    requires ObjectsOk(w, next) && o in w.objs && w.ready
    ensures ObjectsOk(SessionAdded(w, o, s), next)
  {
  }

  lemma SessionShut(world: World, world': World, o: nat, s: Session)
    requires WellFormed(world.w) && o in world.w.objs && world'.w == SessionAdded(world.w, o, s)
    requires world'.sg == world.sg && world'.wall == world.wall && world'.mono == world.mono && world'.ended == world.ended
    ensures StaysShut(world) ==> StaysShut(world')
    ensures StaleStays(world, world')
  {
    hide Gone, Unix;
  }

  lemma SessionCommitKeeps(cfg: Config, world: World, c: nat, mode: Mode)
    requires Inv(cfg, world, mode) && c in world.calls && world.calls[c].AttachBound? && WellFormed(world.w)
    requires world.calls[c].o in world.w.objs && world.calls[c].admit < |world.holders|
    ensures Inv(cfg, SessionCommitted(world, c), mode)
  {
    hide Single.Inv, TokensOk, SessionsOk, ObjectsOk, AdmitsOk, RecoveryOk, Unix, Gone, Fit, StaysShut, StaleStays;
    var call := world.calls[c];
    if !world.w.objs[call.o].state.Open? {
      DropKeeps(cfg, world, c, mode);
    } else {
      var world', s := SessionCommitted(world, c), Session(call.a.sshd, call.since);
      var x := Attachment(call.a, call.admit, call.found, call.decided, call.o, call.since);
      assert CallOk(world, c, call, mode);
      TokenUsed(world.admits, world.holders, world.w.pending, world.pendingFrom, world.attached, x, c);
      SessionsGrow(world.attached, x, world.w, world.recovery, call.o);
      SessionAddedObjects(world.w, world.next, call.o, s);
      SessionShut(world, world', call.o, s);
      assert CallsOk(world', mode) by {
        hide CallOk;
        TokensCount(world.admits, world.holders, world.w.pending, world.pendingFrom, world.attached);
        CallsStay(world, world', Some(c), mode);
      }
    }
  }

  lemma TokensCount(admits: seq<Admission>, holders: seq<Holder>, pending: map<int, Pending>,
                    pendingFrom: map<int, nat>, attached: seq<Attachment>)
    requires TokensOk(admits, holders, pending, pendingFrom, attached)
    ensures |holders| == |admits|
  {
  }

  // ---- Binding

  lemma BindObjects(w: W<nat>, next: nat, id: Id, expires: int, remaining: int, mono: int)
    requires ObjectsOk(w, next) && Admissible(w, id) && w.ready && next !in w.objs
    ensures ObjectsOk(Bind(w, id, next, expires, remaining, mono), next + 1)
    ensures SameObjects(w.objs, Bind(w, id, next, expires, remaining, mono).objs)
  {
  }

  lemma BindSessions(attached: seq<Attachment>, w: W<nat>, recovery: Option<Recovery>, next: nat, id: Id, expires: int, remaining: int, mono: int)
    requires WellFormed(w) && SessionsOk(attached, w, recovery) && next !in w.objs
    ensures SessionsOk(attached, Bind(w, id, next, expires, remaining, mono), recovery)
  {
    var r := Bind(w, id, next, expires, remaining, mono);
    forall o | o in r.objs ensures Traced(attached, r.objs[o]) {
      if o in w.objs {
        assert Traced(attached, w.objs[o]);
      }
    }
  }

  lemma BindShut(world: World, world': World, id: Id, expires: int, remaining: int)
    requires WellFormed(world.w) && Admissible(world.w, id) && world.next !in world.w.objs && id !in world.ended
    requires world'.w == Bind(world.w, id, world.next, expires, remaining, world.mono)
    requires world'.sg == world.sg && world'.wall == world.wall && world'.mono == world.mono && world'.ended == world.ended
    ensures StaysShut(world) ==> StaysShut(world')
    ensures StaleStays(world, world')
  {
    hide Gone, Unix;
  }

  lemma BindTimes(s: S.State, w: W<nat>, anchors: map<nat, Anchor>, next: nat, a: Asking, row: Store.Row, decided: int, at: Anchor)
    requires WellFormed(w) && DeadlinesOk(s, w.objs, anchors, at.bindMono) && Fit(s, a, row, decided)
    requires next !in w.objs && at.readMono <= at.bindMono
    ensures var o := Bound(w, a.grant, next);
            DeadlinesOk(s, Bind(w, a.grant, next, row.expiresAt, (row.expiresAt - Unix(at.readWall)) * SECOND, at.bindMono).objs,
                        anchors[o := at], at.bindMono)
  {
    hide Unix;
  }

  lemma BindEndings(w: W<nat>, ended: set<Id>, next: nat, id: Id, expires: int, remaining: int, mono: int)
    requires WellFormed(w) && EndingsOk(w.objs, ended) && Admissible(w, id) && next !in w.objs
    ensures EndingsOk(Bind(w, id, next, expires, remaining, mono).objs, ended)
  {
  }

  lemma BoundIsOk(world: World, world': World, c: nat, mode: Mode)
    requires c in world.calls && world.calls[c].AttachStamped? && WellFormed(world.w) && world.next !in world.w.objs
    requires CallOk(world, c, world.calls[c], mode) && Admissible(world.w, world.calls[c].a.grant)
    requires world' == BindCommitted(world, c)
    ensures c in world'.calls && CallOk(world', c, world'.calls[c], mode)
  {
    hide Unix, Stale, Fit;
  }

  lemma BindCommitKeeps(cfg: Config, world: World, c: nat, mode: Mode)
    requires Inv(cfg, world, mode) && c in world.calls && world.calls[c].AttachStamped? && WellFormed(world.w)
    requires world.next !in world.w.objs && (mode.Prompt? ==> world.mono - world.calls[c].at <= RETENTION)
    ensures Inv(cfg, BindCommitted(world, c), mode)
  {
    hide Single.Inv, TokensOk, SessionsOk, ObjectsOk, AdmitsOk, AttachedOk, RecoveryOk, DeadlinesOk, EndingsOk, Unix, Gone, Fit, StaysShut, StaleStays, Bind;
    var call := world.calls[c];
    if !Admissible(world.w, call.a.grant) {
      DropKeeps(cfg, world, c, mode);
    } else {
      var world', id, expires := BindCommitted(world, c), call.a.grant, call.found.expiresAt;
      var remaining := (expires - Unix(call.readWall)) * SECOND;
      assert CallOk(world, c, call, mode);
      BindObjects(world.w, world.next, id, expires, remaining, world.mono);
      BindSessions(world.attached, world.w, world.recovery, world.next, id, expires, remaining, world.mono);
      BindTimes(world.sg, world.w, world.anchors, world.next, call.a, call.found, call.decided,
                Anchor(call.readWall, call.readMono, world.mono));
      BindEndings(world.w, world.ended, world.next, id, expires, remaining, world.mono);
      if mode.Prompt? {
        BindShut(world, world', id, expires, remaining);
      }
      assert CallsOk(world', mode) by {
        BoundIsOk(world, world', c, mode);
        TokensCount(world.admits, world.holders, world.w.pending, world.pendingFrom, world.attached);
        hide CallOk;
        CallsStay(world, world', Some(c), mode);
      }
    }
  }

  // ---- The supervision loop

  /** The grant as a later pass may leave it: nothing reopened, nothing extended, no session added. */
  predicate Later(g: Grant, g': Grant) {
    && g'.id == g.id && g'.deadline == g.deadline && g'.deadlineMono == g.deadlineMono
    && (g'.state.Open? ==> g.state.Open?)
    && (forall pid :: pid in g'.sessions ==> pid in g.sessions && g'.sessions[pid] == g.sessions[pid])
    && (!g'.state.Open? ==> g.state.Open? || g'.reason == g.reason) && (g.state.Closed? ==> g'.state.Closed?)
  }

  predicate LaterW(w: W<nat>, w': W<nat>) {
    && WellFormed(w') && w'.ready == w.ready && w'.pending == w.pending && w'.objs.Keys == w.objs.Keys
    && (forall o :: o in w.objs ==> Later(w.objs[o], w'.objs[o]))
    && (forall id :: id in w'.live ==> id in w.live && w'.live[id] == w.live[id])
    && (forall id :: id in w.live ==> w.live[id] in w'.objs && (id in w'.live || w'.objs[w.live[id]].state.Closed?))
    && (w'.saved == w.saved || w'.saved == Snapshot(w'.objs, w'.live))
  }

  lemma LaterTraced(attached: seq<Attachment>, w: W<nat>, w': W<nat>, recovery: Option<Recovery>)
    requires SessionsOk(attached, w, recovery) && LaterW(w, w')
    ensures SessionsOk(attached, w', recovery)
  {
    forall o | o in w'.objs ensures Traced(attached, w'.objs[o]) {
      assert Traced(attached, w.objs[o]);
    }
    SavedTraced(attached, w');
  }

  lemma LaterObjects(s: S.State, w: W<nat>, w': W<nat>, next: nat, anchors: map<nat, Anchor>, mono: int)
    requires ObjectsOk(w, next) && DeadlinesOk(s, w.objs, anchors, mono) && LaterW(w, w') && w.ready
    ensures ObjectsOk(w', next) && DeadlinesOk(s, w'.objs, anchors, mono) && SameObjects(w.objs, w'.objs)
  {
    hide Unix;
  }

  /** A pass over the grants, after which the call `c` (if it was one) is over. */
  lemma PassKeeps(cfg: Config, world: World, world': World, mode: Mode)
    requires Inv(cfg, world, mode) && world.w.ready && LaterW(world.w, world'.w)
    requires world' == world.(w := world'.w, calls := world'.calls, ended := world'.ended)
    requires forall c :: c in world'.calls ==> c in world.calls && world'.calls[c] == world.calls[c]
    requires EndingsOk(world'.w.objs, world'.ended)
    requires mode.Prompt? ==> StaleStays(world, world') && StaysShut(world')
    ensures Inv(cfg, world', mode)
  {
    hide Single.Inv, TokensOk, SessionsOk, ObjectsOk, AdmitsOk, AttachedOk, RecoveryOk, DeadlinesOk, EndingsOk, Unix, Gone, StaysShut, StaleStays, CallOk, LaterW;
    LaterTraced(world.attached, world.w, world'.w, world.recovery);
    LaterObjects(world.sg, world.w, world'.w, world.next, world.anchors, world.mono);
    TokensCount(world.admits, world.holders, world.w.pending, world.pendingFrom, world.attached);
    assert world'.w.pending == world.w.pending && world'.w.ready by { assert LaterW(world.w, world'.w); LaterSame(world.w, world'.w); }
    CallsStay(world, world', None, mode);
  }

  lemma LaterSame(w: W<nat>, w': W<nat>)
    requires LaterW(w, w')
    ensures w'.pending == w.pending && w'.ready == w.ready
  {
  }

  lemma ObjectFacts(cfg: Config, world: World, mode: Mode)
    requires Inv(cfg, world, mode)
    ensures ObjectsOk(world.w, world.next) && EndingsOk(world.w.objs, world.ended) && (mode.Prompt? ==> StaysShut(world))
    ensures world.w.objs != map[] ==> world.w.ready
    ensures DeadlinesOk(world.sg, world.w.objs, world.anchors, world.mono)
    ensures !mode.Free? ==> Anchored(world.anchors, world.wall - world.mono)
  {
    hide Single.Inv, TokensOk, SessionsOk, AdmitsOk, AttachedOk, RecoveryOk, DeadlinesOk, EndingsOk, StaysShut, CallsOk, Anchored;
  }

  /** A pass that opens and closes nothing; whatever becomes Closed does so now. */
  predicate QuietPass(w: W<nat>, w': W<nat>, mono: int) {
    && LaterW(w, w') && w'.live == w.live
    && forall o :: o in w.objs ==>
         && w'.objs[o].state.Open? == w.objs[o].state.Open?
         && (w'.objs[o].state.Closed? ==>
               w'.objs[o].closingSince == mono || (w.objs[o].state.Closed? && w'.objs[o].closingSince == w.objs[o].closingSince))
  }

  lemma QuietShut(world: World, w': W<nat>)
    requires WellFormed(world.w) && QuietPass(world.w, w', world.mono)
    ensures StaysShut(world) ==> StaysShut(world.(w := w'))
    ensures StaleStays(world, world.(w := w'))
    ensures EndingsOk(world.w.objs, world.ended) ==> EndingsOk(w'.objs, world.ended)
  {
    hide Gone, Unix;
  }

  lemma QuietPassKeeps(cfg: Config, world: World, w': W<nat>, mode: Mode)
    requires Inv(cfg, world, mode) && WellFormed(world.w) && QuietPass(world.w, w', world.mono)
    requires world.w.ready || world.w.objs != map[]
    ensures Inv(cfg, world.(w := w'), mode)
  {
    hide Inv, EndingsOk, StaysShut, StaleStays, LaterW, ObjectsOk, DeadlinesOk, Anchored;
    ObjectFacts(cfg, world, mode);
    QuietShut(world, w');
    PassKeeps(cfg, world, world.(w := w'), mode);
  }

  lemma TermQuiet(w: W<nat>, o: nat, mono: int)
    requires WellFormed(w) && o in w.objs && w.objs[o].state.Closing?
    ensures QuietPass(w, Replaced(w, o, TermStarted(w.objs[o], mono)), mono)
  {
    hide Snapshot;
  }

  lemma TerminateKeeps(cfg: Config, world: World, o: nat, mode: Mode)
    requires Inv(cfg, world, mode) && WellFormed(world.w) && o in world.w.objs && world.w.objs[o].state.Closing?
    ensures Inv(cfg, world.(w := Replaced(world.w, o, TermStarted(world.w.objs[o], world.mono))), mode)
  {
    hide Inv, QuietPass, Replaced;
    TermQuiet(world.w, o, world.mono);
    QuietPassKeeps(cfg, world, Replaced(world.w, o, TermStarted(world.w.objs[o], world.mono)), mode);
  }

  lemma FinalQuiet(w: W<nat>, o: nat, mono: int)
    requires WellFormed(w) && o in w.objs && w.objs[o].state.Closing?
    ensures QuietPass(w, Finalized(w, o, mono), mono)
  {
    hide Snapshot;
  }

  lemma FinalizeKeeps(cfg: Config, world: World, o: nat, mode: Mode)
    requires Inv(cfg, world, mode) && WellFormed(world.w) && o in world.w.objs && world.w.objs[o].state.Closing?
    ensures Inv(cfg, world.(w := Finalized(world.w, o, world.mono)), mode)
  {
    hide Inv, QuietPass, Finalized;
    FinalQuiet(world.w, o, world.mono);
    QuietPassKeeps(cfg, world, Finalized(world.w, o, world.mono), mode);
  }

  lemma SurvivingIsPart(sessions: map<int, Session>, procs: map<int, nat>)
    ensures forall pid :: pid in Surviving(sessions, procs) ==> pid in sessions && Surviving(sessions, procs)[pid] == sessions[pid]
  {
  }

  lemma PrunedObject(w: W<nat>, procs: map<int, nat>, o: nat)
    requires WellFormed(w) && o in w.objs
    ensures var g, g' := w.objs[o], SessionsPruned(w, procs).objs[o];
            Later(g, g') && g'.state == g.state && g'.closingSince == g.closingSince && g'.termSent == g.termSent
  {
    hide Snapshot, Surviving, IsLive, SessionsPruned;
    SurvivingIsPart(w.objs[o].sessions, procs);
    assert SessionsPruned(w, procs).objs[o] == PrunedAmong(w, w.live.Keys, procs, o);
  }

  lemma PruneQuiet(w: W<nat>, procs: map<int, nat>, mono: int)
    requires WellFormed(w)
    ensures QuietPass(w, SessionsPruned(w, procs), mono)
  {
    hide Snapshot, Surviving, IsLive, SessionsPruned, Later;
    forall o | o in w.objs
      ensures var g, g' := w.objs[o], SessionsPruned(w, procs).objs[o];
              Later(g, g') && g'.state == g.state && g'.closingSince == g.closingSince
    {
      PrunedObject(w, procs, o);
    }
  }

  lemma PruneKeeps(cfg: Config, world: World, mode: Mode)
    requires Inv(cfg, world, mode) && WellFormed(world.w) && world.w.ready
    ensures Inv(cfg, world.(w := SessionsPruned(world.w, world.procs)), mode)
  {
    hide Inv, QuietPass, SessionsPruned;
    PruneQuiet(world.w, world.procs, world.mono);
    QuietPassKeeps(cfg, world, SessionsPruned(world.w, world.procs), mode);
  }

  lemma ForgetKeeps(cfg: Config, world: World, mode: Mode)
    requires Inv(cfg, world, mode) && WellFormed(world.w) && world.w.ready
    ensures Inv(cfg, world.(w := Forgotten(world.w, world.mono)), mode)
  {
    hide Inv, Unix, Gone, Snapshot;
    ObjectFacts(cfg, world, mode);
    PassKeeps(cfg, world, world.(w := Forgotten(world.w, world.mono)), mode);
  }

  /** A pass that closes some open grants, for good. */
  predicate ClosingPass(w: W<nat>, w': W<nat>) {
    && LaterW(w, w') && w'.live == w.live
    && forall o :: o in w.objs ==>
         || w'.objs[o] == w.objs[o]
         || (w.objs[o].state.Open? && IsLive(w, o) && w'.objs[o].state.Closing? && !w'.objs[o].termSent
             && w'.objs[o].reason != UnverifiedAfterRestart)
  }

  lemma ClosingEnds(world: World, w': W<nat>, c: nat)
    requires WellFormed(world.w) && ClosingPass(world.w, w') && EndingsOk(world.w.objs, world.ended)
    ensures EndingsOk(w'.objs, Swept(world, w', c).ended)
  {
    forall o | o in w'.objs && !w'.objs[o].state.Open? && w'.objs[o].reason != UnverifiedAfterRestart
      ensures w'.objs[o].id in Swept(world, w', c).ended
    {
      if w'.objs[o] != world.w.objs[o] {
        assert world.w.objs[o].id in NewlyClosing(world.w, w');
      }
    }
  }

  lemma ClosingShut(world: World, w': W<nat>, c: nat)
    requires WellFormed(world.w) && ClosingPass(world.w, w') && StaysShut(world) && ObjectsOk(world.w, world.next)
    requires forall id :: id in NewlyClosing(world.w, w') ==> Gone(world.sg, Unix(world.wall), id)
    ensures StaysShut(Swept(world, w', c))
  {
    hide Gone, Unix, Snapshot, Later;
    var world' := Swept(world, w', c);
    forall o | o in w'.objs && w'.objs[o].id in world'.ended ensures !w'.objs[o].state.Open? {
      assert w'.objs[o].state.Open? ==> IsLive(world.w, o);
    }
  }

  lemma ClosingStale(world: World, w': W<nat>, c: nat)
    requires WellFormed(world.w) && ClosingPass(world.w, w')
    ensures StaleStays(world, Swept(world, w', c))
  {
    hide Snapshot, Later;
  }

  lemma SweepKeeps(cfg: Config, world: World, w': W<nat>, c: nat, mode: Mode)
    requires Inv(cfg, world, mode) && c in world.calls && WellFormed(world.w) && WellFormed(w') && ClosingPass(world.w, w')
    requires mode.Prompt? ==> forall id :: id in NewlyClosing(world.w, w') ==> Gone(world.sg, Unix(world.wall), id)
    ensures Inv(cfg, Swept(world, w', c), mode)
  {
    hide Inv, EndingsOk, StaysShut, StaleStays, LaterW, ObjectsOk, DeadlinesOk, Anchored, NewlyClosing, CallOk, Gone, Unix;
    ObjectFacts(cfg, world, mode);
    CallIsOk(cfg, world, c, mode);
    ClosingEnds(world, w', c);
    if mode.Prompt? {
      ClosingShut(world, w', c);
      ClosingStale(world, w', c);
    }
    PassKeeps(cfg, world, Swept(world, w', c), mode);
  }

  lemma EnforcedObject(w: W<nat>, now: int, mono: int, o: nat)
    requires WellFormed(w) && o in w.objs
    ensures var g, g' := w.objs[o], Enforced(w, now, mono).objs[o];
            || g' == g
            || (g.state.Open? && IsLive(w, o) && g' == CloseGrant(g, DeadlineReached) && DeadlinePassed(g, now, mono))
  {
    hide AllClosed;
    ClosedAt(w, Due(w, now, mono), DeadlineReached, o);
  }

  lemma EnforcedCloses(w: W<nat>, now: int, mono: int)
    requires WellFormed(w)
    ensures ClosingPass(w, Enforced(w, now, mono))
    ensures forall id :: id in NewlyClosing(w, Enforced(w, now, mono)) ==> DeadlinePassed(w.objs[w.live[id]], now, mono)
  {
    hide Snapshot, Enforced, DeadlinePassed;
    forall o | o in w.objs
      ensures var g, g' := w.objs[o], Enforced(w, now, mono).objs[o];
              || g' == g
              || (g.state.Open? && IsLive(w, o) && g' == CloseGrant(g, DeadlineReached) && DeadlinePassed(g, now, mono))
    {
      EnforcedObject(w, now, mono, o);
    }
  }

  lemma Elapsed(expires: int, wall: int, mono: int, a: Anchor, due: int)
    requires a.readWall - a.readMono == wall - mono && a.readMono <= a.bindMono
    requires mono >= a.bindMono + (expires - Unix(a.readWall)) * SECOND
    ensures expires <= Unix(wall)
  {
    assert wall >= expires * SECOND;
  }

  lemma DueIsGone(s: S.State, g: Grant, a: Anchor, now: int, at: int, wall: int, mono: int)
    requires Single.RowsKept(s) && Timed(s, g, a, mono) && a.readWall - a.readMono == wall - mono
    requires DeadlinePassed(g, now, at) && at <= mono && now <= Unix(wall)
    ensures Gone(s, Unix(wall), g.id)
  {
    if g.deadlineMono.Some? && at >= g.deadlineMono.value {
      Elapsed(g.deadline, wall, mono, a, g.deadlineMono.value);
    }
  }

  lemma DeadlinesKeep(cfg: Config, world: World, c: nat, mode: Mode)
    requires Inv(cfg, world, mode) && c in world.calls && world.calls[c].Enforcing? && WellFormed(world.w)
    ensures Inv(cfg, DeadlinesCommitted(world, c), mode)
  {
    hide Inv, Single.Inv, Enforced, ClosingPass, NewlyClosing, Gone, Unix, DeadlinePassed, Timed, Single.RowsKept;
    var now, mono := world.calls[c].now, world.calls[c].mono;
    var w' := Enforced(world.w, now, mono);
    EnforcedCloses(world.w, now, mono);
    CallIsOk(cfg, world, c, mode);
    ObjectFacts(cfg, world, mode);
    if mode.Prompt? {
      InvParts(cfg, world, mode);
      RowsOfInv(cfg.env, world.sg);
      forall id | id in NewlyClosing(world.w, w') ensures Gone(world.sg, Unix(world.wall), id) {
        var o := LiveOpen(world.w, w', id);
        DueIsGone(world.sg, world.w.objs[o], world.anchors[o], now, mono, world.wall, world.mono);
      }
    }
    SweepKeeps(cfg, world, w', c, mode);
  }

  lemma LiveOpen(w: W<nat>, w': W<nat>, id: Id) returns (o: nat)
    requires WellFormed(w) && WellFormed(w') && id in NewlyClosing(w, w')
    ensures id in w.live && o == w.live[id] && o in w.objs && w.objs[o].state.Open? && w.objs[o].id == id
  {
    o := w.live[id];
  }

  /** An open grant's deadline is already the signer's expiry, so a poll closes it or leaves it as it is. */
  lemma PolledOnce(s: S.State, g: Grant, row: Option<Store.Row>, reachable: bool, now: int, mono: int)
    requires g.state.Open? && g.id in s.ever && g.deadline == s.ever[g.id].expiresAt && (row.Some? ==> RowOk(s, g.id, row.value))
    ensures var g' := PolledGrant(g, if reachable then AnswerOf(row, None) else Unavailable, now, mono);
            g' == g || (Useless(row, now) && g'.reason != UnverifiedAfterRestart && g' == CloseGrant(g, g'.reason))
  {
  }

  lemma OneCloses(w: W<nat>, id: Id, reason: Reason)
    requires WellFormed(w) && id in w.live && w.objs[w.live[id]].state.Open? && reason != UnverifiedAfterRestart
    ensures var w' := Replaced(w, w.live[id], CloseGrant(w.objs[w.live[id]], reason));
            WellFormed(w') && ClosingPass(w, Saved(w')) && NewlyClosing(w, Saved(w')) <= {id}
  {
    hide Snapshot;
  }

  lemma NoneCloses(w: W<nat>)
    requires WellFormed(w)
    ensures ClosingPass(w, w) && NewlyClosing(w, w) == {}
  {
  }

  lemma PolledCloses(s: S.State, w: W<nat>, anchors: map<nat, Anchor>, id: Id, row: Option<Store.Row>, reachable: bool, now: int, mono: int, t: int)
    requires WellFormed(w) && DeadlinesOk(s, w.objs, anchors, t) && (row.Some? ==> RowOk(s, id, row.value))
    ensures var answer := if reachable then AnswerOf(row, None) else Unavailable;
            var w' := Polled(w, id, answer, now, mono);
            && ClosingPass(w, w')
            && forall i :: i in NewlyClosing(w, w') ==> i == id && Useless(row, now)
  {
    hide Snapshot, Unix, AnswerOf, PolledGrant, RowOk, Useless, ClosingPass, NewlyClosing, Saved;
    NoneCloses(w);
    if id in w.live && w.objs[w.live[id]].state.Open? {
      var g := w.objs[w.live[id]];
      PolledOnce(s, g, row, reachable, now, mono);
      var g' := PolledGrant(g, if reachable then AnswerOf(row, None) else Unavailable, now, mono);
      if g' != g {
        OneCloses(w, id, g'.reason);
      }
    }
  }

  lemma PollKeeps(cfg: Config, world: World, c: nat, reachable: bool, mode: Mode)
    requires Inv(cfg, world, mode) && c in world.calls && world.calls[c].PollSeen? && WellFormed(world.w)
    ensures Inv(cfg, PollCommitted(world, c, reachable), mode)
  {
    hide Inv, Polled, ClosingPass, NewlyClosing, Unix, DeadlinesOk, AnswerOf, Single.Inv;
    var id, row := world.calls[c].id, world.calls[c].row;
    CallIsOk(cfg, world, c, mode);
    ObjectFacts(cfg, world, mode);
    PolledCloses(world.sg, world.w, world.anchors, id, row, reachable, Unix(world.wall), world.mono, world.mono);
    InvParts(cfg, world, mode);
    RowsOfInv(cfg.env, world.sg);
    SweepKeeps(cfg, world, PollCommitted(world, c, reachable).w, c, mode);
  }

  // ---- Crash and restart

  lemma CrashKeeps(cfg: Config, world: World, mode: Mode)
    requires Inv(cfg, world, mode)
    ensures Inv(cfg, Crashed(world), mode)
  {
    hide Single.Inv, AdmitsOk, AttachedOk, Traced, Gone, Unix, CallOk;
  }

  lemma BeginKeeps(cfg: Config, world: World, mode: Mode)
    requires Inv(cfg, world, mode) && !world.w.ready && world.recovery.None?
    ensures Inv(cfg, RecoveryBegun(cfg, world), mode)
  {
    hide Single.Inv, TokensOk, AdmitsOk, AttachedOk, Traced, Gone, Unix, CallOk, ObjectsOk, DeadlinesOk, EndingsOk;
    assert world.calls == map[];
  }

  predicate Decided(s: S.State, r: Recovery, id: Id, g: Grant, at: int) {
    && g.id == id && !g.state.Closed?
    && (g.state.Open? ==> Timed(s, g, Anchor(r.readWall, r.readMono, at), at))
    && (ForGood(g) ==> Gone(s, Unix(r.readWall), id))
    && (g.state.Open? ==> !Gone(s, Unix(r.readWall), id))
  }

  /** Whatever the state file said, a grant is open again exactly when the signer confirms it. */
  lemma ReconciledDecides(s: S.State, r: Recovery, saved: Option<Grant>, id: Id, reachable: bool, at: int, procs: map<int, nat>)
    requires Single.RowsKept(s) && (saved.Some? ==> saved.value.id == id) && r.readMono <= at
    ensures var answer := if reachable then AnswerOf(RowOf(s, id), None) else Unavailable;
            Decided(s, r, id, ReconciledGrant(saved, id, answer, Unix(r.readWall), at, procs), at)
  {
    hide Surviving, Unix;
  }

  lemma ReconciledTraced(attached: seq<Attachment>, saved: Option<Grant>, id: Id, answer: Answer, now: int, at: int, procs: map<int, nat>)
    requires saved.Some? ==> saved.value.id == id && Traced(attached, saved.value)
    ensures Traced(attached, ReconciledGrant(saved, id, answer, now, at, procs))
  {
    if saved.Some? {
      SurvivingIsPart(saved.value.sessions, procs);
    }
  }

  lemma DoneOk(world: World, r: Recovery, id: Id, h: Hearing)
    requires RecoveryOk(world.sg, world.w.saved, world.mono, r) && id in r.ids && h.at == world.mono
    requires Decided(world.sg, r, id, Rebuilt(Loaded(world.w.saved), id, Unix(r.readWall), h), world.mono)
    ensures RecoveryOk(world.sg, world.w.saved, world.mono,
                       r.(done := r.done[id := Rebuilt(Loaded(world.w.saved), id, Unix(r.readWall), h)], heard := r.heard[id := h]))
  {
    hide Timed, Gone, Unix, ReconciledGrant;
  }

  lemma DoneShut(world: World, world': World, r: Recovery, id: Id, g: Grant, h: Hearing)
    requires RecoveryShut(world, r) && Decided(world.sg, r, id, g, world.mono) && r.readWall <= world.wall
    requires world'.sg == world.sg && world'.wall == world.wall && world'.mono == world.mono && world'.ended == world.ended
    ensures RecoveryShut(world', r.(done := r.done[id := g], heard := r.heard[id := h]))
  {
    hide Timed, Gone, Unix;
    UnixMonotone(r.readWall, world.wall);
    if Gone(world.sg, Unix(r.readWall), id) {
      GoneLater(world.sg, Unix(r.readWall), Unix(world.wall), id);
    }
  }

  lemma DoneTraced(attached: seq<Attachment>, w: W<nat>, r: Recovery, id: Id, h: Hearing, now: int)
    requires SessionsOk(attached, w, Some(r)) && forall i :: i in w.saved ==> w.saved[i].id == i
    ensures SessionsOk(attached, w, Some(r.(done := r.done[id := Rebuilt(Loaded(w.saved), id, now, h)], heard := r.heard[id := h])))
  {
    hide Traced, ReconciledGrant;
    var loaded := Loaded(w.saved);
    ReconciledTraced(attached, if id in loaded then Some(loaded[id]) else None, id, h.answer, now, h.at, h.procs);
  }

  lemma RecoverKeeps(cfg: Config, world: World, id: Id, reachable: bool, mode: Mode)
    requires Inv(cfg, world, mode) && world.recovery.Some? && id in world.recovery.value.ids
    ensures Inv(cfg, RecoveredOne(world, id, reachable), mode)
  {
    hide Single.Inv, Single.RowsKept, TokensOk, AdmitsOk, AttachedOk, SessionsOk, Gone, Unix, CallOk, DeadlinesOk, EndingsOk;
    hide AnswerOf, RowOf, Decided, RecoveryShut, RecoveryOk, Rebuilt, Loaded, StaysShut;
    var r, world' := world.recovery.value, RecoveredOne(world, id, reachable);
    var h := Hearing(if reachable then AnswerOf(RowOf(world.sg, id), None) else Unavailable, world.mono, world.procs);
    RowsOfInv(cfg.env, world.sg);
    assert r.readMono <= world.mono by { ReadEarlier(world.sg, world.w.saved, world.mono, r); }
    HeardDecides(world.sg, r, world.w.saved, id, reachable, h);
    DoneTraced(world.attached, world.w, r, id, h, Unix(r.readWall));
    DoneOk(world, r, id, h);
    if mode.Prompt? {
      DoneShut(world, world', r, id, Rebuilt(Loaded(world.w.saved), id, Unix(r.readWall), h), h);
      SameShut(world, world');
    }
    assert world.calls == map[];
  }

  lemma ReadEarlier(s: S.State, saved: map<Id, Grant>, mono: int, r: Recovery)
    requires RecoveryOk(s, saved, mono, r)
    ensures r.readMono <= mono
  {
  }

  lemma SameShut(world: World, world': World)
    requires StaysShut(world) && world' == world.(recovery := world'.recovery)
    ensures StaysShut(world')
  {
  }

  lemma HeardDecides(s: S.State, r: Recovery, saved: map<Id, Grant>, id: Id, reachable: bool, h: Hearing)
    requires Single.RowsKept(s) && (forall i :: i in saved ==> saved[i].id == i) && r.readMono <= h.at
    requires h.answer == if reachable then AnswerOf(RowOf(s, id), None) else Unavailable
    ensures Decided(s, r, id, Rebuilt(Loaded(saved), id, Unix(r.readWall), h), h.at)
  {
    hide Decided, ReconciledGrant, AnswerOf, RowOf, Single.RowsKept;
    var loaded := Loaded(saved);
    ReconciledDecides(s, r, if id in loaded then Some(loaded[id]) else None, id, reachable, h.at, h.procs);
  }

  lemma RebuiltHas(world: World, names: map<Id, nat>, next: nat)
    requires RecoveryReady(world, names, next)
    ensures var objs := RecoveryCommitted(world, names, next).w.objs;
            && (forall id :: id in names ==> names[id] in objs && objs[names[id]] == world.recovery.value.done[id])
            && (forall o :: o in objs ==> objs[o].id in names && names[objs[o].id] == o)
  {
    hide Snapshot, ForGood;
  }

  lemma RebuiltAnchors(world: World, names: map<Id, nat>, next: nat)
    requires RecoveryReady(world, names, next)
    ensures var r, anchors := world.recovery.value, RecoveryCommitted(world, names, next).anchors;
            && (forall id :: id in names ==> names[id] in anchors && anchors[names[id]] == Anchor(r.readWall, r.readMono, r.heard[id].at))
            && (forall o :: o in anchors ==> anchors[o].readWall == r.readWall && anchors[o].readMono == r.readMono)
  {
    hide Snapshot, ForGood;
  }

  lemma RecoveredObjects(world: World, names: map<Id, nat>, next: nat)
    requires RecoveryReady(world, names, next) && RecoveryOk(world.sg, world.w.saved, world.mono, world.recovery.value)
    ensures var world' := RecoveryCommitted(world, names, next);
            ObjectsOk(world'.w, next) && EndingsOk(world'.w.objs, world'.ended)
  {
    hide Snapshot, Timed, Unix, Rebuilt;
    RebuiltHas(world, names, next);
  }

  lemma RecoveredTimes(world: World, names: map<Id, nat>, next: nat)
    requires RecoveryReady(world, names, next) && RecoveryOk(world.sg, world.w.saved, world.mono, world.recovery.value)
    ensures var world' := RecoveryCommitted(world, names, next);
            DeadlinesOk(world'.sg, world'.w.objs, world'.anchors, world'.mono)
  {
    hide Snapshot, Timed, Unix, Rebuilt, Saved, ForGood;
    RebuiltHas(world, names, next);
    RebuiltAnchors(world, names, next);
  }

  /** What a restart leaves is written down at once. */
  lemma RebuiltSaved(world: World, names: map<Id, nat>, next: nat)
    requires RecoveryReady(world, names, next)
    ensures var w := RecoveryCommitted(world, names, next).w; WellFormed(w) && w.saved == Snapshot(w.objs, w.live)
  {
    hide ForGood, Snapshot;
    RebuiltHas(world, names, next);
  }

  lemma RecoveredSessions(world: World, names: map<Id, nat>, next: nat)
    requires RecoveryReady(world, names, next) && SessionsOk(world.attached, world.w, world.recovery)
    ensures var world' := RecoveryCommitted(world, names, next); SessionsOk(world'.attached, world'.w, world'.recovery)
  {
    hide Traced, RecoveryCommitted;
    RebuiltHas(world, names, next);
    RebuiltSaved(world, names, next);
    SavedTraced(world.attached, RecoveryCommitted(world, names, next).w);
  }

  lemma RecoveredShut(world: World, names: map<Id, nat>, next: nat)
    requires RecoveryReady(world, names, next) && PromptOk(world)
    ensures PromptOk(RecoveryCommitted(world, names, next))
  {
    hide Snapshot, Gone, Unix;
    RebuiltHas(world, names, next);
    RebuiltAnchors(world, names, next);
  }

  lemma RestartKeeps(cfg: Config, world: World, names: map<Id, nat>, next: nat, mode: Mode)
    requires Inv(cfg, world, mode) && RecoveryReady(world, names, next) && world.recovery.Some?
    ensures Inv(cfg, RecoveryCommitted(world, names, next), mode)
  {
    hide Single.Inv, AdmitsOk, AttachedOk, CallOk, SessionsOk, ObjectsOk, EndingsOk, DeadlinesOk, PromptOk, ClocksOk, RecoveryOk, RecoveryReady, Saved;
    assert world.calls == map[];
    RecoveredObjects(world, names, next);
    RecoveredTimes(world, names, next);
    RecoveredSessions(world, names, next);
    if mode.Prompt? {
      RecoveredShut(world, names, next);
    }
    if !mode.Free? {
      RecoveredClocks(world, names, next);
    }
  }

  lemma RecoveredClocks(world: World, names: map<Id, nat>, next: nat)
    requires RecoveryReady(world, names, next) && ClocksOk(world)
    ensures ClocksOk(RecoveryCommitted(world, names, next))
  {
    hide Snapshot;
    RebuiltAnchors(world, names, next);
  }

  // ---- Every step

  lemma InvIsSane(cfg: Config, world: World, mode: Mode)
    requires Inv(cfg, world, mode)
    ensures Sane(world)
  {
    hide Single.Inv, AdmitsOk, AttachedOk, SessionsOk, DeadlinesOk, EndingsOk, PromptOk, Fit, RowOk, ReadOk, FitOk, Names, RecoveryOk;
    forall c | c in world.calls ensures CallSane(world, world.calls[c]) {
      assert CallOk(world, c, world.calls[c], mode);
    }
  }

  lemma InitialInv(cfg: Config, wall: int, mono: int, mode: Mode)
    ensures Inv(cfg, Init(wall, mono), mode)
  {
    Single.InitialInv(cfg.env, Unix(wall));
  }

  lemma StepKeepsInv(cfg: Config, world: World, step: Step, mode: Mode)
    requires Inv(cfg, world, mode) && Enabled(cfg, world, step) && Allowed(mode, world, step)
    ensures Inv(cfg, Next(cfg, world, step), mode) && Sane(Next(cfg, world, step))
  {
    hide Inv, Next, Enabled, Sane, Allowed;
    if IsHook(step) {
      HookCases(cfg, world, step, mode);
    } else {
      OtherCases(cfg, world, step, mode);
    }
    InvIsSane(cfg, Next(cfg, world, step), mode);
  }

  predicate IsHook(step: Step) {
    || step.Admit? || step.DecideAdmit? || step.CommitAdmit? || step.Attach? || step.ReadAttach? || step.DecideAttach?
    || step.Stamp? || step.CommitBind? || step.CommitSession?
  }

  lemma HookCases(cfg: Config, world: World, step: Step, mode: Mode)
    requires Inv(cfg, world, mode) && Enabled(cfg, world, step) && Allowed(mode, world, step) && IsHook(step)
    ensures Inv(cfg, Next(cfg, world, step), mode)
  {
    hide Inv, ClockSet, AdmitStarted, AdmitDecided, AdmitCommitted, AttachStarted, AttachRead, AttachDecided, Stamped;
    hide BindCommitted, SessionCommitted, PollCommitted, DeadlinesCommitted, Crashed, RecoveryBegun, RecoveredOne;
    hide RecoveryCommitted, RecoveryReady, Finalized, Forgotten, PendingExpired, SessionsPruned, Replaced, TermStarted, Put, Dropped;
    hide S.Next, S.Enabled, ParseKeyId, RowOf, CallOk;
    match step
    case Admit(c, _, sshd, user, keyId, serial) => AdmitStartKeeps(cfg, world, c, sshd, user, keyId, serial, mode);
    case DecideAdmit(c) => CallIsOk(cfg, world, c, mode); AdmitDecideKeeps(cfg, world, c, mode);
    case CommitAdmit(c) => AdmitCommitKeeps(cfg, world, c, mode);
    case Attach(c, sshd, user) => AttachStartKeeps(cfg, world, c, sshd, user, mode);
    case ReadAttach(c) => AttachReadKeeps(cfg, world, c, mode);
    case DecideAttach(c) => AttachDecideKeeps(cfg, world, c, mode);
    case Stamp(c) => StampKeeps(cfg, world, c, mode);
    case CommitBind(c) => BindCommitKeeps(cfg, world, c, mode);
    case CommitSession(c) => SessionCommitKeeps(cfg, world, c, mode);
  }

  lemma OtherCases(cfg: Config, world: World, step: Step, mode: Mode)
    requires Inv(cfg, world, mode) && Enabled(cfg, world, step) && Allowed(mode, world, step) && !IsHook(step)
    ensures Inv(cfg, Next(cfg, world, step), mode)
  {
    hide Inv, ClockSet, AdmitStarted, AdmitDecided, AdmitCommitted, AttachStarted, AttachRead, AttachDecided, Stamped;
    hide BindCommitted, SessionCommitted, PollCommitted, DeadlinesCommitted, Crashed, RecoveryBegun, RecoveredOne;
    hide RecoveryCommitted, RecoveryReady, Finalized, Forgotten, PendingExpired, SessionsPruned, Replaced, TermStarted, Put, Dropped;
    hide S.Next, S.Enabled, ParseKeyId, RowOf, CallOk;
    match step
    case Clock(wall, mono) => ClockKeeps(cfg, world, wall, mono, mode);
    case Signer(s) => SignerKeeps(cfg, world, s, mode);
    case Outside(_, _) => OutsideOnly(cfg, world, Next(cfg, world, step), mode);
    case Poll(c, id) => PollStartKeeps(cfg, world, c, id, mode);
    case CommitPoll(c, reachable) => PollKeeps(cfg, world, c, reachable, mode);
    case ReadClocks(c) => ClocksReadKeeps(cfg, world, c, mode);
    case CommitDeadlines(c) => DeadlinesKeep(cfg, world, c, mode);
    case Terminate(o, look) =>
      TerminateKeeps(cfg, world, o, mode);
      OutsideOnly(cfg, world.(w := Replaced(world.w, o, TermStarted(world.w.objs[o], world.mono))), Next(cfg, world, step), mode);
    case Finalize(o) => FinalizeKeeps(cfg, world, o, mode);
    case Forget => ForgetKeeps(cfg, world, mode);
    case ExpirePending => ExpireKeeps(cfg, world, mode);
    case PruneSessions => PruneKeeps(cfg, world, mode);
    case Drop(c) => DropKeeps(cfg, world, c, mode);
    case Crash => CrashKeeps(cfg, world, mode);
    case BeginRecovery => BeginKeeps(cfg, world, mode);
    case RecoverOne(id, reachable) => RecoverKeeps(cfg, world, id, reachable, mode);
    case CommitRecovery(names, next) => ReadyHasRecovery(world, names, next); RestartKeeps(cfg, world, names, next, mode);
  }

  lemma ReadyHasRecovery(world: World, names: map<Id, nat>, next: nat)
    requires RecoveryReady(world, names, next)
    ensures world.recovery.Some?
  {
  }

  lemma OutsideOnly(cfg: Config, world: World, world': World, mode: Mode)
    requires Inv(cfg, world, mode)
    requires world' == world.(procs := world'.procs, children := world'.children, looks := world'.looks)
    ensures Inv(cfg, world', mode)
  {
    hide Single.Inv, AdmitsOk, AttachedOk, SessionsOk, DeadlinesOk, EndingsOk, RecoveryOk, Gone, Unix, CallOk, TokensOk, ObjectsOk;
    assert |world.holders| == |world.admits| by { TokensCount(world.admits, world.holders, world.w.pending, world.pendingFrom, world.attached); }
    assert StaysShut(world) ==> StaysShut(world');
    CallsStay(world, world', None, mode);
  }

  lemma {:induction false} RunKeepsInv(cfg: Config, world: World, steps: seq<Step>, mode: Mode)
    requires Inv(cfg, world, mode) && ValidRun(cfg, world, steps) && AllowedRun(cfg, mode, world, steps)
    ensures Inv(cfg, After(cfg, world, steps), mode)
    decreases steps
  {
    hide Inv, Enabled, Next, Allowed;
    if steps != [] {
      StepKeepsInv(cfg, world, steps[0], mode);
      RunKeepsInv(cfg, Next(cfg, world, steps[0]), steps[1..], mode);
    }
  }

  lemma {:induction false} AnyRunIsFree(cfg: Config, world: World, steps: seq<Step>)
    requires ValidRun(cfg, world, steps)
    ensures AllowedRun(cfg, Free, world, steps)
    decreases steps
  {
    hide Enabled, Next;
    if steps != [] {
      AnyRunIsFree(cfg, Next(cfg, world, steps[0]), steps[1..]);
    }
  }

  lemma FreeRun(cfg: Config, wall: int, mono: int, steps: seq<Step>)
    requires ValidRun(cfg, Init(wall, mono), steps)
    ensures Inv(cfg, After(cfg, Init(wall, mono), steps), Free)
  {
    hide Inv, Enabled, Next, Init;
    InitialInv(cfg, wall, mono, Free);
    AnyRunIsFree(cfg, Init(wall, mono), steps);
    RunKeepsInv(cfg, Init(wall, mono), steps, Free);
  }
}
