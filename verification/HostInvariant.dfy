/**
 * What every step of the system keeps. The mode says what the run so far was
 * restricted to.
 */
module HostInvariant {
  import opened Bytes
  import opened Ids
  import opened WardenState
  import opened Protocol
  import S = Redemption
  import Single = SingleUse
  import Store

  // ---- What the signer never takes back

  function Core(row: Store.Row): Store.Row {
    row.(redeemedAt := None, revokedAt := None, agentId := [], keyFp := [])
  }

  predicate Evolves(s: S.State, s': S.State) {
    && (forall id :: id in s.ever ==> id in s'.ever && s'.ever[id] == s.ever[id])
    && s.winner.Keys <= s'.winner.Keys
    && (forall id :: id in s.db.certs ==> id in s'.db.certs && s'.db.certs[id] == s.db.certs[id])
    && (forall id :: id in s'.db.grants && id in s.ever ==>
          id in s.db.grants && (s.db.grants[id].revokedAt.Some? ==> s'.db.grants[id].revokedAt.Some?))
  }

  /** The signer holds the grant no more, or holds it revoked or expired. */
  predicate Gone(s: S.State, now: int, id: Id) {
    id in s.db.grants ==> s.db.grants[id].revokedAt.Some? || s.db.grants[id].expiresAt <= now
  }

  // ---- The parts of the invariant

  /** An object that is not Closed is the one its id leads to. */
  predicate ObjectsOk(w: W<nat>, next: nat) {
    && WellFormed(w)
    && (forall o :: o in w.objs ==> o < next && (w.objs[o].state.Closed? || IsLive(w, o)))
    && (forall id :: id in w.saved ==> w.saved[id].id == id)
    && (!w.ready ==> w.objs == map[] && w.live == map[] && w.pending == map[])
  }

  /** Each admission is in one place: with a pending entry, with one hook call, or used by one session. */
  predicate TokensOk(admits: seq<Admission>, holders: seq<Holder>, pending: map<int, Pending>,
                     pendingFrom: map<int, nat>, attached: seq<Attachment>) {
    && |holders| == |admits|
    && (forall pid :: pid in pending ==>
          && pid in pendingFrom && pendingFrom[pid] < |holders| && holders[pendingFrom[pid]] == InPending(pid)
          && admits[pendingFrom[pid]].a == Asking(pending[pid].sshd, pending[pid].user, pending[pid].grant))
    && (forall i :: 0 <= i < |attached| ==>
          attached[i].admit < |holders| && holders[attached[i].admit] == Recorded(i) && admits[attached[i].admit].a == attached[i].a)
  }

  predicate RowOk(s: S.State, id: Id, row: Store.Row) {
    id in s.ever && Core(row) == s.ever[id] && (row.redeemedAt.Some? ==> id in s.winner)
  }

  predicate Fit(s: S.State, a: Asking, row: Store.Row, decided: int) {
    RowOk(s, a.grant, row) && row.sshUser == a.user && row.revokedAt.None? && row.redeemedAt.Some? && decided < row.expiresAt
  }

  predicate Names(keyId: bytes, id: Id) {
    ParseKeyId(keyId).Some? && ParseKeyId(keyId).value.0 == id
  }

  predicate AdmitsOk(s: S.State, admits: seq<Admission>) {
    forall k :: 0 <= k < |admits| ==>
      && Fit(s, admits[k].a, admits[k].row, admits[k].decided) && Names(admits[k].keyId, admits[k].a.grant)
      && Store.SerialOf(s.db, admits[k].a.grant) == Some(admits[k].serial)
  }

  predicate AttachedOk(s: S.State, attached: seq<Attachment>) {
    forall i :: 0 <= i < |attached| ==> Fit(s, attached[i].a, attached[i].row, attached[i].decided)
  }

  /** Every session of the grant stems from an attachment to it. */
  predicate Traced(attached: seq<Attachment>, g: Grant) {
    forall pid :: pid in g.sessions ==>
      exists i :: 0 <= i < |attached| && attached[i].a.grant == g.id && Session(attached[i].a.sshd, attached[i].since) == g.sessions[pid]
  }

  predicate SessionsOk(attached: seq<Attachment>, w: W<nat>, recovery: Option<Recovery>) {
    && (forall o :: o in w.objs ==> Traced(attached, w.objs[o]))
    && (forall id :: id in w.saved ==> Traced(attached, w.saved[id]))
    && (recovery.Some? ==> forall id :: id in recovery.value.done ==> Traced(attached, recovery.value.done[id]))
  }

  /** The deadline is the expiry the grant was created with, and the monotonic one is that many seconds after the anchor. */
  predicate Timed(s: S.State, g: Grant, a: Anchor, mono: int) {
    && g.id in s.ever && g.deadline == s.ever[g.id].expiresAt && a.readMono <= a.bindMono <= mono
    && g.deadlineMono == Some(a.bindMono + (g.deadline - Unix(a.readWall)) * SECOND)
  }

  predicate DeadlinesOk(s: S.State, objs: map<nat, Grant>, anchors: map<nat, Anchor>, mono: int) {
    forall o :: o in objs && objs[o].state.Open? ==> o in anchors && Timed(s, objs[o], anchors[o], mono)
  }

  predicate Anchored(anchors: map<nat, Anchor>, offset: int) {
    forall o :: o in anchors ==> anchors[o].readWall - anchors[o].readMono == offset
  }

  /** Closed for good means recorded as ended. */
  predicate EndingsOk(objs: map<nat, Grant>, ended: set<Id>) {
    forall o :: o in objs && !objs[o].state.Open? && objs[o].reason != UnverifiedAfterRestart ==> objs[o].id in ended
  }

  predicate StaysShut(world: World) {
    && (forall id :: id in world.ended ==> Gone(world.sg, Unix(world.wall), id))
    && (forall o :: o in world.w.objs && world.w.objs[o].id in world.ended ==> !world.w.objs[o].state.Open?)
  }

  predicate RecoveryOk(s: S.State, saved: map<Id, Grant>, mono: int, r: Recovery) {
    && r.done.Keys <= r.ids && r.heard.Keys == r.done.Keys && r.readMono <= mono
    && forall id :: id in r.done ==>
         && r.done[id] == Rebuilt(Loaded(saved), id, Unix(r.readWall), r.heard[id]) && r.done[id].id == id && !r.done[id].state.Closed?
         && (r.done[id].state.Open? ==> Timed(s, r.done[id], Anchor(r.readWall, r.readMono, r.heard[id].at), mono))
  }

  predicate RecoveryShut(world: World, r: Recovery) {
    && (forall id :: id in world.ended ==> Gone(world.sg, Unix(r.readWall), id))
    && (forall id :: id in r.done ==>
          && (id in world.ended ==> !r.done[id].state.Open?)
          && (ForGood(r.done[id]) ==> Gone(world.sg, Unix(world.wall), id)))
  }

  // ---- Calls in flight

  predicate Held(world: World, c: nat, call: Call)
    requires Attaching(call)
  {
    && call.admit < |world.holders| && call.admit < |world.admits|
    && world.holders[call.admit] == WithCall(c) && world.admits[call.admit].a == call.a
  }

  /** An answer of that age cannot be acted on: it is too old, or the closed object is still there to refuse. */
  predicate Stale(world: World, id: Id, at: int) {
    || world.mono - at > RETENTION
    || (&& id in world.w.live && world.w.live[id] in world.w.objs
        && var g := world.w.objs[world.w.live[id]];
           !g.state.Open? && (g.state.Closed? ==> at <= g.closingSince))
  }

  predicate Useless(row: Option<Store.Row>, now: int) {
    row.Some? ==> row.value.revokedAt.Some? || row.value.expiresAt <= now
  }

  predicate ReadOk(world: World, id: Id, row: Option<Store.Row>, at: int, mode: Mode) {
    && at <= world.mono && (row.Some? ==> RowOk(world.sg, id, row.value))
    && (mode.Prompt? && id in world.ended ==> Stale(world, id, at) || Useless(row, Unix(world.wall)))
  }

  predicate FitOk(world: World, a: Asking, found: Store.Row, at: int, decided: int, mode: Mode) {
    at <= world.mono && Fit(world.sg, a, found, decided) && (mode.Prompt? && a.grant in world.ended ==> Stale(world, a.grant, at))
  }

  predicate CallOk(world: World, c: nat, call: Call, mode: Mode) {
    && (Attaching(call) ==> Held(world, c, call))
    && match call
       case AdmitSeen(a, keyId, _, row, at) => Names(keyId, a.grant) && ReadOk(world, a.grant, row, at, mode)
       case AdmitCleared(a, keyId, serial, found, at, decided) =>
         && Names(keyId, a.grant) && FitOk(world, a, found, at, decided, mode)
         && Store.SerialOf(world.sg.db, a.grant) == Some(serial)
       case AttachAsk(_, _) => true
       case AttachSeen(a, _, row, at) => ReadOk(world, a.grant, row, at, mode)
       case AttachCleared(a, _, found, at, decided) => FitOk(world, a, found, at, decided, mode)
       case AttachStamped(a, _, found, at, decided, readWall, readMono) =>
         && FitOk(world, a, found, at, decided, mode) && readMono <= world.mono
         && (!mode.Free? ==> readWall - readMono == world.wall - world.mono)
       case AttachBound(a, _, found, decided, o, _) =>
         Fit(world.sg, a, found, decided) && o in world.w.objs && world.w.objs[o].id == a.grant
       case PollSeen(id, row) =>
         && id in world.sg.ever && (row.None? ==> id !in world.sg.db.grants)
         && (row.Some? ==> RowOk(world.sg, id, row.value)
                           && (row.value.revokedAt.Some? && id in world.sg.db.grants ==> world.sg.db.grants[id].revokedAt.Some?))
       case Enforcing(now, mono) => mono <= world.mono && (!mode.Free? ==> now <= Unix(world.wall))
  }

  predicate CallsOk(world: World, mode: Mode) {
    forall c :: c in world.calls ==> CallOk(world, c, world.calls[c], mode)
  }

  predicate ModesOk(world: World) {
    && (!world.w.ready ==> world.calls == map[])
    && (world.recovery.Some? ==> !world.w.ready && RecoveryOk(world.sg, world.w.saved, world.mono, world.recovery.value))
  }

  predicate ClocksOk(world: World) {
    && Anchored(world.anchors, world.wall - world.mono)
    && (world.recovery.Some? ==> world.recovery.value.readWall - world.recovery.value.readMono == world.wall - world.mono)
  }

  predicate PromptOk(world: World) {
    && StaysShut(world)
    && (world.recovery.Some? ==> RecoveryShut(world, world.recovery.value))
  }

  predicate Inv(cfg: Config, world: World, mode: Mode) {
    && Single.Inv(cfg.env, world.sg)
    && ObjectsOk(world.w, world.next)
    && TokensOk(world.admits, world.holders, world.w.pending, world.pendingFrom, world.attached)
    && AdmitsOk(world.sg, world.admits) && AttachedOk(world.sg, world.attached)
    && SessionsOk(world.attached, world.w, world.recovery)
    && DeadlinesOk(world.sg, world.w.objs, world.anchors, world.mono)
    && EndingsOk(world.w.objs, world.ended)
    && CallsOk(world, mode) && ModesOk(world)
    && (!mode.Free? ==> ClocksOk(world)) && (mode.Prompt? ==> PromptOk(world))
  }

  // ---- What carries over

  predicate SameObjects(objs: map<nat, Grant>, objs': map<nat, Grant>) {
    forall o :: o in objs ==> o in objs' && objs'[o].id == objs[o].id
  }

  /** Whatever could not be acted on still cannot, and what has just ended cannot either. */
  ghost predicate StaleStays(world: World, world': World) {
    forall id, at :: id in world'.ended && at <= world.mono && (id in world.ended ==> Stale(world, id, at)) ==> Stale(world', id, at)
  }

  /** A change that calls other than `acting` need not notice. */
  ghost predicate Compatible(world: World, world': World, acting: Option<nat>, mode: Mode) {
    && Evolves(world.sg, world'.sg) && world.mono <= world'.mono
    && SameObjects(world.w.objs, world'.w.objs)
    && |world.holders| == |world.admits| <= |world'.holders| == |world'.admits|
    && (forall k :: 0 <= k < |world.admits| ==> world'.admits[k] == world.admits[k])
    && (forall k :: 0 <= k < |world.holders| && world.holders[k].WithCall? && Some(world.holders[k].call) != acting ==>
          world'.holders[k] == world.holders[k])
    && (!mode.Free? ==> world'.wall - world'.mono == world.wall - world.mono)
    && (mode.Prompt? ==> StaleStays(world, world'))
  }

  lemma FitStays(s: S.State, s': S.State, a: Asking, row: Store.Row, decided: int)
    requires Evolves(s, s')
    ensures RowOk(s, a.grant, row) ==> RowOk(s', a.grant, row)
    ensures Fit(s, a, row, decided) ==> Fit(s', a, row, decided)
  {
  }

  lemma SerialStays(s: S.State, s': S.State, id: Id, serial: int)
    requires Evolves(s, s') && Store.SerialOf(s.db, id) == Some(serial)
    ensures Store.SerialOf(s'.db, id) == Some(serial)
  {
  }

  lemma UnixMonotone(a: int, b: int)
    requires a <= b
    ensures Unix(a) <= Unix(b)
  {
  }

  lemma ReadStays(world: World, world': World, acting: Option<nat>, mode: Mode, id: Id, row: Option<Store.Row>, at: int)
    requires Compatible(world, world', acting, mode) && ReadOk(world, id, row, at, mode)
    ensures ReadOk(world', id, row, at, mode)
  {
    hide Stale, Unix, SameObjects;
    if mode.Prompt? {
      UnixMonotone(world.wall, world'.wall);
    }
  }

  lemma CallStays(world: World, world': World, acting: Option<nat>, mode: Mode, c: nat, call: Call)
    requires Compatible(world, world', acting, mode) && CallOk(world, c, call, mode) && Some(c) != acting
    ensures CallOk(world', c, call, mode)
  {
    hide Stale, Unix, ReadOk, RowOk, Fit, Names, Store.SerialOf;
    match call
    case AdmitSeen(a, _, _, row, at) => ReadStays(world, world', acting, mode, a.grant, row, at);
    case AdmitCleared(a, _, serial, found, at, decided) =>
      FitStays(world.sg, world'.sg, a, found, decided);
      SerialStays(world.sg, world'.sg, a.grant, serial);
    case AttachAsk(_, _) =>
    case AttachSeen(a, _, row, at) => ReadStays(world, world', acting, mode, a.grant, row, at);
    case AttachCleared(a, _, found, _, decided) => FitStays(world.sg, world'.sg, a, found, decided);
    case AttachStamped(a, _, found, _, decided, _, _) => FitStays(world.sg, world'.sg, a, found, decided);
    case AttachBound(a, _, found, decided, _, _) => FitStays(world.sg, world'.sg, a, found, decided);
    case PollSeen(id, row) =>
      if row.Some? {
        FitStays(world.sg, world'.sg, Asking(Proc(0, 0), [], id), row.value, 0);
      }
    case Enforcing(_, _) =>
      if !mode.Free? {
        UnixMonotone(world.wall, world'.wall);
      }
  }

  lemma CallsStay(world: World, world': World, acting: Option<nat>, mode: Mode)
    requires Compatible(world, world', acting, mode) && CallsOk(world, mode)
    requires forall c :: c in world'.calls && Some(c) != acting ==> c in world.calls && world'.calls[c] == world.calls[c]
    requires acting.Some? && acting.value in world'.calls ==> CallOk(world', acting.value, world'.calls[acting.value], mode)
    ensures CallsOk(world', mode)
  {
    hide CallOk, Compatible;
    forall c | c in world'.calls ensures CallOk(world', c, world'.calls[c], mode) {
      if Some(c) != acting {
        CallStays(world, world', acting, mode, c, world.calls[c]);
      }
    }
  }

  /** Steps that only add, change or drop the call `c`. */
  lemma CallOnly(cfg: Config, world: World, world': World, c: nat, mode: Mode)
    requires Inv(cfg, world, mode) && world.w.ready
    requires world' == world.(calls := world'.calls)
    requires forall d :: d in world'.calls && d != c ==> d in world.calls && world'.calls[d] == world.calls[d]
    requires c in world'.calls ==> CallOk(world', c, world'.calls[c], mode)
    ensures Inv(cfg, world', mode)
  {
    hide Single.Inv, ObjectsOk, AdmitsOk, AttachedOk, SessionsOk, DeadlinesOk, EndingsOk, CallOk, RecoveryOk;
    assert StaysShut(world) ==> StaysShut(world');
    CallsStay(world, world', Some(c), mode);
  }
}
