/**
 * The host side as one system: the signer's database steps, the warden's critical sections and
 * signer queries, two clocks, crashes and restarts, in every order the locks allow.
 */
module Protocol {
  import opened Bytes
  import opened Ids
  import opened WardenState
  import S = Redemption
  import Store
  import UnitNames

  /** The warden's configuration, with the signer's environment. */
  datatype Config = Config(env: S.Env, slice: bytes, sshUser: bytes, admitUid: int, pendingTTL: int)

  /** What admission and attachment carry along: the connection's sshd, the login and the grant. */
  datatype Asking = Asking(sshd: Proc, user: bytes, grant: Id)

  /**
   * A call between two critical sections. `row` is the grant as the signer's first read found it
   * and `at` the monotonic time of that read; `decided` is the second the rules were applied in.
   */
  datatype Call =
    | AdmitSeen(a: Asking, keyId: bytes, serial: int, row: Option<Store.Row>, at: int)
    | AdmitCleared(a: Asking, keyId: bytes, serial: int, found: Store.Row, at: int, decided: int)
    | AttachAsk(a: Asking, admit: nat)
    | AttachSeen(a: Asking, admit: nat, row: Option<Store.Row>, at: int)
    | AttachCleared(a: Asking, admit: nat, found: Store.Row, at: int, decided: int)
    | AttachStamped(a: Asking, admit: nat, found: Store.Row, at: int, decided: int, readWall: int, readMono: int)
    | AttachBound(a: Asking, admit: nat, found: Store.Row, decided: int, o: nat, since: int)
    | PollSeen(id: Id, row: Option<Store.Row>)
    | Enforcing(now: int, mono: int)

  /** A restart in progress: the ids to account for, the clocks it read, what it has decided and on what. */
  datatype Recovery = Recovery(ids: set<Id>, readWall: int, readMono: int, done: map<Id, Grant>, heard: map<Id, Hearing>)

  /** History: an admission that was granted. */
  datatype Admission = Admission(a: Asking, keyId: bytes, serial: int, row: Store.Row, decided: int)

  /** History: a session that was recorded, the admission it used and the grant as the second query found it. */
  datatype Attachment = Attachment(a: Asking, admit: nat, row: Store.Row, decided: int, o: nat, since: int)

  /** History: who last held an admission. */
  datatype Holder = InPending(pid: int) | WithCall(call: nat) | Recorded(index: nat)

  /** History: the clock readings an object's monotonic deadline came from. */
  datatype Anchor = Anchor(readWall: int, readMono: int, bindMono: int)

  datatype World = World(
    sg: S.State, wall: int, mono: int, w: W<nat>, next: nat, calls: map<nat, Call>, recovery: Option<Recovery>,
    procs: map<int, nat>, children: set<bytes>,
    admits: seq<Admission>, holders: seq<Holder>, pendingFrom: map<int, nat>, attached: seq<Attachment>,
    anchors: map<nat, Anchor>, ended: set<Id>, met: set<Id>, looks: map<nat, seq<Look>>)

  datatype Step =
    | Clock(wall: int, mono: int)
    | Signer(step: S.Step)
    | Outside(procs: map<int, nat>, children: set<bytes>)
    | Admit(c: nat, uid: int, sshd: Proc, user: bytes, keyId: bytes, serial: int)
    | DecideAdmit(c: nat)
    | CommitAdmit(c: nat)
    | Attach(c: nat, sshd: Proc, user: bytes)
    | ReadAttach(c: nat)
    | DecideAttach(c: nat)
    | Stamp(c: nat)
    | CommitBind(c: nat)
    | CommitSession(c: nat)
    | Poll(c: nat, id: Id)
    | CommitPoll(c: nat, reachable: bool)
    | ReadClocks(c: nat)
    | CommitDeadlines(c: nat)
    | Terminate(o: nat, look: Look)
    | Finalize(o: nat)
    | Forget
    | ExpirePending
    | PruneSessions
    | Drop(c: nat)
    | Crash
    | BeginRecovery
    | RecoverOne(id: Id, reachable: bool)
    | CommitRecovery(names: map<Id, nat>, next: nat)

  function Init(wall: int, mono: int): World {
    World(S.Init(Unix(wall)), wall, mono, W(map[], map[], map[], false, map[]), 0, map[], None, map[], {},
          [], [], map[], [], map[], {}, {}, map[])
  }

  function RowOf(sg: S.State, id: Id): Option<Store.Row> {
    if id in sg.db.grants then Some(sg.db.grants[id]) else None
  }

  /** The signer's answer, put together from a row read first and a serial read later. */
  function AnswerOf(row: Option<Store.Row>, serial: Option<int>): Answer {
    match row
    case None => Unknown
    case Some(r) => Known(r.sshUser, r.expiresAt, r.redeemedAt.Some?, r.revokedAt.Some?, serial)
  }

  function Put(world: World, c: nat, call: Call): World {
    world.(calls := world.calls[c := call])
  }

  function Dropped(world: World, c: nat): World {
    world.(calls := world.calls - {c})
  }

  // ---- The outside world

  function ClockSet(world: World, wall: int, mono: int): World {
    world.(wall := wall, mono := mono, sg := world.sg.(clock := Unix(wall)))
  }

  /** An id the warden has not come across: not ended, and never accounted for by a restart. */
  predicate Unheard(world: World, id: Id) {
    id !in world.ended && id !in world.met && (world.recovery.Some? ==> id !in world.recovery.value.ids)
  }

  // ---- Admission

  predicate AdmitPasses(cfg: Config, world: World, uid: int, user: bytes, keyId: bytes) {
    world.w.ready && uid == cfg.admitUid && user == cfg.sshUser && ParseKeyId(keyId).Some?
  }

  /** The checks on the caller, then the signer's row. (The early look at the live map only refuses sooner.) */
  function AdmitStarted(world: World, c: nat, sshd: Proc, user: bytes, keyId: bytes, serial: int): (r: World)
    requires ParseKeyId(keyId).Some?
    ensures r == world.(calls := r.calls)
  {
    var g := ParseKeyId(keyId).value.0;
    Put(world, c, AdmitSeen(Asking(sshd, user, g), keyId, serial, RowOf(world.sg, g), world.mono))
  }

  /** The serial is read now; reading it earlier could only refuse more. */
  function AdmitDecided(world: World, c: nat): (r: World)
    requires c in world.calls && world.calls[c].AdmitSeen?
    ensures r == world.(calls := r.calls)
  {
    var call := world.calls[c];
    var answer := AnswerOf(call.row, Store.SerialOf(world.sg.db, call.a.grant));
    if Cleared(answer, call.a.user, Some(call.serial), Unix(world.wall)) then
      Put(world, c, AdmitCleared(call.a, call.keyId, call.serial, call.row.value, call.at, Unix(world.wall)))
    else Dropped(world, c)
  }

  function AdmitCommitted(world: World, c: nat): (r: World)
    requires c in world.calls && world.calls[c].AdmitCleared? && WellFormed(world.w)
    ensures r == world.(w := world.w.(pending := r.w.pending), calls := r.calls, admits := r.admits, holders := r.holders,
                           pendingFrom := r.pendingFrom)
  {
    var call := world.calls[c];
    var a, pid := call.a, call.a.sshd.pid;
    if !Admissible(world.w, a.grant) then Dropped(world, c)
    else
      Dropped(world, c).(
        w := world.w.(pending := world.w.pending[pid := Pending(a.sshd, a.grant, a.user, call.found.expiresAt, world.mono)]),
        admits := world.admits + [Admission(a, call.keyId, call.serial, call.found, call.decided)],
        holders := world.holders + [InPending(pid)],
        pendingFrom := world.pendingFrom[pid := |world.admits|])
  }

  // ---- Attachment

  /** The hook takes the pending admission out of the map before it looks at it. */
  function AttachStarted(cfg: Config, world: World, c: nat, sshd: Proc, user: bytes): (r: World)
    requires sshd.pid in world.w.pending && sshd.pid in world.pendingFrom && world.pendingFrom[sshd.pid] < |world.holders|
    ensures r == world.(w := world.w.(pending := r.w.pending), calls := r.calls, holders := r.holders)
  {
    var k, p := world.pendingFrom[sshd.pid], world.w.pending[sshd.pid];
    var taken := world.(w := world.w.(pending := world.w.pending - {sshd.pid}));
    if p.sshd == sshd && p.user == user && world.mono - p.created <= cfg.pendingTTL then
      Put(taken, c, AttachAsk(Asking(sshd, user, p.grant), k)).(holders := world.holders[k := WithCall(c)])
    else taken
  }

  function AttachRead(world: World, c: nat): (r: World)
    requires c in world.calls && world.calls[c].AttachAsk?
    ensures r == world.(calls := r.calls)
  {
    var call := world.calls[c];
    Put(world, c, AttachSeen(call.a, call.admit, RowOf(world.sg, call.a.grant), world.mono))
  }

  function AttachDecided(world: World, c: nat): (r: World)
    requires c in world.calls && world.calls[c].AttachSeen?
    ensures r == world.(calls := r.calls)
  {
    var call := world.calls[c];
    if Cleared(AnswerOf(call.row, None), call.a.user, None, Unix(world.wall)) then
      Put(world, c, AttachCleared(call.a, call.admit, call.row.value, call.at, Unix(world.wall)))
    else Dropped(world, c)
  }

  function Stamped(world: World, c: nat): (r: World)
    requires c in world.calls && world.calls[c].AttachCleared?
    ensures r == world.(calls := r.calls)
  {
    var call := world.calls[c];
    if call.found.expiresAt - Unix(world.wall) > 0 then
      Put(world, c, AttachStamped(call.a, call.admit, call.found, call.at, call.decided, world.wall, world.mono))
    else Dropped(world, c)
  }

  function BindCommitted(world: World, c: nat): (r: World)
    requires c in world.calls && world.calls[c].AttachStamped? && WellFormed(world.w) && world.next !in world.w.objs
    ensures r == world.(w := r.w, calls := r.calls, next := r.next, anchors := r.anchors)
  {
    var call := world.calls[c];
    var id, expires := call.a.grant, call.found.expiresAt;
    if !Admissible(world.w, id) then Dropped(world, c)
    else
      var o := Bound(world.w, id, world.next);
      Put(world, c, AttachBound(call.a, call.admit, call.found, call.decided, o, Unix(call.readWall))).(
        w := Bind(world.w, id, world.next, expires, (expires - Unix(call.readWall)) * SECOND, world.mono),
        next := world.next + 1,
        anchors := world.anchors[o := Anchor(call.readWall, call.readMono, world.mono)])
  }

  /** By now the sshd process sits in its scope; the object held since the binding is looked at again. */
  function SessionCommitted(world: World, c: nat): (r: World)
    requires c in world.calls && world.calls[c].AttachBound? && WellFormed(world.w) && world.calls[c].o in world.w.objs
    requires world.calls[c].admit < |world.holders|
    ensures r == world.(w := r.w, calls := r.calls, attached := r.attached, holders := r.holders)
  {
    var call := world.calls[c];
    if !world.w.objs[call.o].state.Open? then Dropped(world, c)
    else
      Dropped(world, c).(
        w := SessionAdded(world.w, call.o, Session(call.a.sshd, call.since)),
        attached := world.attached + [Attachment(call.a, call.admit, call.found, call.decided, call.o, call.since)],
        holders := world.holders[call.admit := Recorded(|world.attached|)])
  }

  // ---- The supervision loop

  /** The ids an update moves from open to closing. */
  function NewlyClosing(before: W<nat>, after: W<nat>): set<Id>
    requires WellFormed(before) && WellFormed(after)
  {
    set id | id in before.live && id in after.live && before.objs[before.live[id]].state.Open? && !after.objs[after.live[id]].state.Open?
  }

  function Swept(world: World, w: W<nat>, c: nat): World
    requires WellFormed(world.w) && WellFormed(w)
  {
    Dropped(world, c).(w := w, ended := world.ended + NewlyClosing(world.w, w))
  }

  function PollCommitted(world: World, c: nat, reachable: bool): World
    requires c in world.calls && world.calls[c].PollSeen? && WellFormed(world.w)
  {
    var call := world.calls[c];
    var answer := if reachable then AnswerOf(call.row, None) else Unavailable;
    Swept(world, Polled(world.w, call.id, answer, Unix(world.wall), world.mono), c)
  }

  function DeadlinesCommitted(world: World, c: nat): World
    requires c in world.calls && world.calls[c].Enforcing? && WellFormed(world.w)
  {
    Swept(world, Enforced(world.w, world.calls[c].now, world.calls[c].mono), c)
  }

  // ---- Termination

  /** What the passes over this object's group have seen so far. */
  function LooksAt(world: World, o: nat): seq<Look> {
    if o in world.looks then world.looks[o] else []
  }

  /** The last pass saw the group absent or empty. */
  predicate LastEmpty(looks: seq<Look>) {
    looks != [] && SeenEmpty(looks[|looks| - 1])
  }

  /** One pass starts the termination clock, once, and looks at the group. */
  function Looked(world: World, o: nat, look: Look): World
    requires o in world.w.objs
  {
    world.(w := Replaced(world.w, o, TermStarted(world.w.objs[o], world.mono)), looks := world.looks[o := LooksAt(world, o) + [look]])
  }

  // ---- Crash and restart

  function Crashed(world: World): World {
    world.(w := W(map[], map[], map[], false, world.w.saved), calls := map[], recovery := None, anchors := map[], looks := map[])
  }

  /** The grants whose slices are on the machine. */
  function Discovered(cfg: Config, children: set<bytes>): set<Id> {
    set name | name in children && UnitNames.GrantOfName(cfg.slice, name).Some? :: UnitNames.GrantOfName(cfg.slice, name).value
  }

  /** Every id in the state file and every grant slice on disk. */
  function RecoveryBegun(cfg: Config, world: World): World {
    var ids := Loaded(world.w.saved).Keys + Discovered(cfg, world.children);
    world.(met := world.met + ids, recovery := Some(Recovery(ids, world.wall, world.mono, map[], map[])))
  }

  function RecoveredOne(world: World, id: Id, reachable: bool): World
    requires world.recovery.Some?
  {
    var r := world.recovery.value;
    var h := Hearing(if reachable then AnswerOf(RowOf(world.sg, id), None) else Unavailable, world.mono, world.procs);
    world.(recovery := Some(r.(done := r.done[id := Rebuilt(Loaded(world.w.saved), id, Unix(r.readWall), h)], heard := r.heard[id := h])))
  }

  predicate Distinct(names: map<Id, nat>) {
    forall i, j :: i in names && j in names && names[i] == names[j] ==> i == j
  }

  /** Every id is decided and gets an object of its own. */
  predicate RecoveryReady(world: World, names: map<Id, nat>, next: nat) {
    && world.recovery.Some?
    && var r := world.recovery.value;
    && r.done.Keys == r.ids == r.heard.Keys == names.Keys && Distinct(names)
    && (forall id :: id in names ==> world.next <= names[id] < next && r.done[id].id == id)
    && world.next <= next
  }

  /** Closed because of something the signer said, not because it could not be asked. */
  predicate ForGood(g: Grant) {
    g.state.Closing? && g.reason != UnverifiedAfterRestart
  }

  function RecoveryCommitted(world: World, names: map<Id, nat>, next: nat): (r: World)
    requires RecoveryReady(world, names, next)
    ensures r == world.(w := r.w, recovery := None, next := next, anchors := r.anchors, ended := r.ended)
    ensures r.w.ready && r.w.pending == map[]
  {
    var r := world.recovery.value;
    var objs := map id | id in names :: names[id] := r.done[id];
    world.(
      w := Saved(W(objs, names, map[], true, map[])), recovery := None, next := next,
      anchors := map id | id in names :: names[id] := Anchor(r.readWall, r.readMono, r.heard[id].at),
      ended := world.ended + set id | id in names && ForGood(r.done[id]))
  }

  // ---- The system

  /** Bookkeeping every reachable state satisfies and the steps below rely on (`HostSteps.StepKeepsInv`). */
  predicate Sane(world: World) {
    && WellFormed(world.w) && |world.holders| == |world.admits|
    && (forall o :: o in world.w.objs ==> o < world.next)
    && (forall pid :: pid in world.w.pending ==> pid in world.pendingFrom && world.pendingFrom[pid] < |world.holders|)
    && (forall c :: c in world.calls ==> CallSane(world, world.calls[c]))
  }

  predicate Attaching(call: Call) {
    call.AttachAsk? || call.AttachSeen? || call.AttachCleared? || call.AttachStamped? || call.AttachBound?
  }

  predicate CallSane(world: World, call: Call) {
    && (Attaching(call) ==> call.admit < |world.holders|)
    && (call.AttachBound? ==> call.o in world.w.objs && world.w.objs[call.o].id == call.a.grant)
  }

  predicate Enabled(cfg: Config, world: World, step: Step) {
    && Sane(world)
    && match step
       case Clock(_, mono) => mono >= world.mono
       case Signer(s) => !s.Tick? && S.Enabled(world.sg, s) && (s.Create? ==> Unheard(world, s.id))
       case Outside(_, _) => true
       case Admit(c, uid, _, user, keyId, _) => c !in world.calls && AdmitPasses(cfg, world, uid, user, keyId)
       case DecideAdmit(c) => c in world.calls && world.calls[c].AdmitSeen?
       case CommitAdmit(c) => c in world.calls && world.calls[c].AdmitCleared?
       case Attach(c, sshd, _) => c !in world.calls && world.w.ready && sshd.pid in world.w.pending
       case ReadAttach(c) => c in world.calls && world.calls[c].AttachAsk?
       case DecideAttach(c) => c in world.calls && world.calls[c].AttachSeen?
       case Stamp(c) => c in world.calls && world.calls[c].AttachCleared?
       case CommitBind(c) => c in world.calls && world.calls[c].AttachStamped?
       case CommitSession(c) => c in world.calls && world.calls[c].AttachBound?
       case Poll(c, id) =>
         c !in world.calls && world.w.ready && id in world.w.live && world.w.objs[world.w.live[id]].state.Open?
       case CommitPoll(c, _) => c in world.calls && world.calls[c].PollSeen?
       case ReadClocks(c) => c !in world.calls && world.w.ready
       case CommitDeadlines(c) => c in world.calls && world.calls[c].Enforcing?
       case Terminate(o, look) =>
         IsLive(world.w, o) && world.w.objs[o].state.Closing? && look.at == world.mono && !LastEmpty(LooksAt(world, o))
       case Finalize(o) => o in world.w.objs && world.w.objs[o].state.Closing? && LastEmpty(LooksAt(world, o))
       case Forget => world.w.ready
       case ExpirePending => world.w.ready
       case PruneSessions => world.w.ready
       case Drop(c) => c in world.calls
       case Crash => true
       case BeginRecovery => !world.w.ready && world.recovery.None?
       case RecoverOne(id, _) =>
         world.recovery.Some? && id in world.recovery.value.ids && id !in world.recovery.value.done
       case CommitRecovery(names, next) => RecoveryReady(world, names, next)
  }

  function Next(cfg: Config, world: World, step: Step): World
    requires Enabled(cfg, world, step)
  {
    match step
    case Clock(wall, mono) => ClockSet(world, wall, mono)
    case Signer(s) => world.(sg := S.Next(cfg.env, world.sg, s))
    case Outside(procs, children) => world.(procs := procs, children := children)
    case Admit(c, _, sshd, user, keyId, serial) => AdmitStarted(world, c, sshd, user, keyId, serial)
    case DecideAdmit(c) => AdmitDecided(world, c)
    case CommitAdmit(c) => AdmitCommitted(world, c)
    case Attach(c, sshd, user) => AttachStarted(cfg, world, c, sshd, user)
    case ReadAttach(c) => AttachRead(world, c)
    case DecideAttach(c) => AttachDecided(world, c)
    case Stamp(c) => Stamped(world, c)
    case CommitBind(c) => BindCommitted(world, c)
    case CommitSession(c) => SessionCommitted(world, c)
    case Poll(c, id) => Put(world, c, PollSeen(id, RowOf(world.sg, id)))
    case CommitPoll(c, reachable) => PollCommitted(world, c, reachable)
    case ReadClocks(c) => Put(world, c, Enforcing(Unix(world.wall), world.mono))
    case CommitDeadlines(c) => DeadlinesCommitted(world, c)
    case Terminate(o, look) => Looked(world, o, look)
    case Finalize(o) => world.(w := Finalized(world.w, o, world.mono))
    case Forget => world.(w := Forgotten(world.w, world.mono))
    case ExpirePending => world.(w := PendingExpired(world.w, world.mono, cfg.pendingTTL))
    case PruneSessions => world.(w := SessionsPruned(world.w, world.procs))
    case Drop(c) => Dropped(world, c)
    case Crash => Crashed(world)
    case BeginRecovery => RecoveryBegun(cfg, world)
    case RecoverOne(id, reachable) => RecoveredOne(world, id, reachable)
    case CommitRecovery(names, next) => RecoveryCommitted(world, names, next)
  }

  predicate ValidRun(cfg: Config, world: World, steps: seq<Step>)
    decreases steps
  {
    steps == [] || (Enabled(cfg, world, steps[0]) && ValidRun(cfg, Next(cfg, world, steps[0]), steps[1..]))
  }

  function After(cfg: Config, world: World, steps: seq<Step>): World
    requires ValidRun(cfg, world, steps)
    decreases steps
  {
    if steps == [] then world else After(cfg, Next(cfg, world, steps[0]), steps[1..])
  }

  /**
   * How runs may be restricted: not at all; to clocks that move together; or also to calls that
   * commit within the retention of the signer answer they rest on.
   */
  datatype Mode = Free | InStep | Prompt

  predicate Allowed(mode: Mode, world: World, step: Step) {
    && (!mode.Free? && step.Clock? ==> step.wall - world.wall == step.mono - world.mono)
    && (mode.Prompt? && step.CommitAdmit? && step.c in world.calls && world.calls[step.c].AdmitCleared? ==>
          world.mono - world.calls[step.c].at <= RETENTION)
    && (mode.Prompt? && step.CommitBind? && step.c in world.calls && world.calls[step.c].AttachStamped? ==>
          world.mono - world.calls[step.c].at <= RETENTION)
  }

  predicate AllowedRun(cfg: Config, mode: Mode, world: World, steps: seq<Step>)
    requires ValidRun(cfg, world, steps)
    decreases steps
  {
    steps == [] || (Allowed(mode, world, steps[0]) && AllowedRun(cfg, mode, Next(cfg, world, steps[0]), steps[1..]))
  }
}
