/** What supervision guarantees: where sessions may go, how objects move, and when deadlines bite. */
module Supervision {
  import opened Bytes
  import opened Ids
  import opened WardenState
  import opened Protocol
  import opened HostInvariant
  import opened HostSteps
  import opened HostTheorems
  import S = Redemption
  import Store

  function Rank(s: GState): int {
    match s case Open => 0 case Closing => 1 case Closed => 2
  }

  /** The step records a session in `o`, which is open and is what its id leads to, before and after. */
  predicate Joins(world: World, step: Step, world': World, o: nat) {
    && step.CommitSession? && step.c in world.calls && world.calls[step.c].AttachBound? && world.calls[step.c].o == o
    && IsLive(world.w, o) && world.w.objs[o].state.Open? && IsLive(world'.w, o) && world'.w.objs[o].state.Open?
  }

  /** The step sets the deadline of `o` again. */
  predicate Rebinds(world: World, step: Step, o: nat) {
    && step.CommitBind? && step.c in world.calls && world.calls[step.c].AttachStamped?
    && Bound(world.w, world.calls[step.c].a.grant, world.next) == o
  }

  predicate Kept(world: World, step: Step, world': World, o: nat)
    requires o in world.w.objs
  {
    && o in world'.w.objs && world'.w.objs[o].id == world.w.objs[o].id
    && Rank(world.w.objs[o].state) <= Rank(world'.w.objs[o].state)
    && (world'.w.objs[o].deadlineMono == world.w.objs[o].deadlineMono || Rebinds(world, step, o))
  }

  /** Objects move only forward, only Closed ones leave the map, and sessions only join open live ones. */
  predicate Advances(world: World, step: Step, world': World)
    requires WellFormed(world.w)
  {
    && (forall o :: o in world.w.objs ==> Kept(world, step, world', o))
    && (forall id :: id in world.w.live ==>
          (id in world'.w.live && world'.w.live[id] == world.w.live[id]) || world.w.objs[world.w.live[id]].state.Closed?)
    && (forall o, pid :: o in world'.w.objs && pid in world'.w.objs[o].sessions ==>
          || (o in world.w.objs && pid in world.w.objs[o].sessions && world'.w.objs[o].sessions[pid] == world.w.objs[o].sessions[pid])
          || Joins(world, step, world', o))
  }

  lemma SameAdvances(world: World, step: Step, world': World)
    requires WellFormed(world.w) && world'.w.objs == world.w.objs && world'.w.live == world.w.live
    ensures Advances(world, step, world')
  {
  }

  lemma PassAdvances(world: World, step: Step, world': World)
    requires WellFormed(world.w) && LaterW(world.w, world'.w) && world'.w.live == world.w.live
    ensures Advances(world, step, world')
  {
    hide Snapshot, Joins, Rebinds;
  }

  lemma ForgetAdvances(world: World, step: Step, world': World)
    requires WellFormed(world.w) && world'.w == Forgotten(world.w, world.mono)
    ensures Advances(world, step, world')
  {
    hide Snapshot, Joins, Rebinds;
  }

  lemma BindAdvances(cfg: Config, world: World, c: nat)
    requires Enabled(cfg, world, CommitBind(c))
    ensures Advances(world, CommitBind(c), BindCommitted(world, c))
  {
    hide Joins, Unix, CallSane;
  }

  lemma SessionAdvances(cfg: Config, world: World, c: nat)
    requires Inv(cfg, world, Free) && Enabled(cfg, world, CommitSession(c))
    ensures Advances(world, CommitSession(c), SessionCommitted(world, c))
  {
    hide Inv, EndingsOk, DeadlinesOk, Snapshot, Rebinds;
    ObjectFacts(cfg, world, Free);
    var world', o := SessionCommitted(world, c), world.calls[c].o;
    if world.w.objs[o].state.Open? {
      assert IsLive(world.w, o);
    }
  }

  lemma SweepAdvances(cfg: Config, world: World, step: Step)
    requires Inv(cfg, world, Free) && Enabled(cfg, world, step) && (step.CommitPoll? || step.CommitDeadlines?)
    ensures Advances(world, step, Next(cfg, world, step))
  {
    hide Inv, Advances, Enforced, Polled, AnswerOf, NewlyClosing, DeadlinesOk, Unix, LaterW, Sane;
    var call := world.calls[step.c];
    CallIsOk(cfg, world, step.c, Free);
    ObjectFacts(cfg, world, Free);
    if step.CommitPoll? {
      PolledCloses(world.sg, world.w, world.anchors, call.id, call.row, step.reachable, Unix(world.wall), world.mono, world.mono);
    } else {
      EnforcedCloses(world.w, call.now, call.mono);
    }
    PassAdvances(world, step, Next(cfg, world, step));
  }

  lemma UnitAdvances(cfg: Config, world: World, step: Step)
    requires Enabled(cfg, world, step) && (step.Terminate? || step.Finalize? || step.PruneSessions?)
    ensures Advances(world, step, Next(cfg, world, step))
  {
    hide Advances, Replaced, Finalized, SessionsPruned, LaterW, Sane;
    assert WellFormed(world.w) by { SaneFormed(world); }
    match step
    case Terminate(o, _) => TermQuiet(world.w, o, world.mono); PassAdvances(world, step, Next(cfg, world, step));
    case Finalize(o) => FinalQuiet(world.w, o, world.mono); PassAdvances(world, step, Next(cfg, world, step));
    case PruneSessions => PruneQuiet(world.w, world.procs, world.mono); PassAdvances(world, step, Next(cfg, world, step));
  }

  lemma SaneFormed(world: World)
    requires Sane(world)
    ensures WellFormed(world.w)
  {
  }

  predicate LeavesObjects(step: Step) {
    || step.Clock? || step.Signer? || step.Outside? || step.Admit? || step.DecideAdmit? || step.CommitAdmit? || step.Attach?
    || step.ReadAttach? || step.DecideAttach? || step.Stamp? || step.Poll? || step.ReadClocks? || step.ExpirePending?
    || step.Drop? || step.BeginRecovery? || step.RecoverOne?
  }

  lemma HookLeavesObjects(cfg: Config, world: World, step: Step)
    requires Enabled(cfg, world, step) && LeavesObjects(step) && IsHook(step)
    ensures Next(cfg, world, step).w.objs == world.w.objs && Next(cfg, world, step).w.live == world.w.live
  {
    hide ParseKeyId, Sane, RecoveryReady, AdmitStarted, AdmitDecided, AttachRead, AttachDecided, Stamped, AdmitCommitted, AttachStarted;
  }

  lemma OtherLeavesObjects(cfg: Config, world: World, step: Step)
    requires Enabled(cfg, world, step) && LeavesObjects(step) && !IsHook(step)
    ensures Next(cfg, world, step).w.objs == world.w.objs && Next(cfg, world, step).w.live == world.w.live
  {
    hide S.Next, Sane, RecoveryReady, Discovered, Rebuilt;
  }

  lemma QuietAdvances(cfg: Config, world: World, step: Step)
    requires Enabled(cfg, world, step) && LeavesObjects(step)
    ensures WellFormed(world.w) && Advances(world, step, Next(cfg, world, step))
  {
    hide Advances, Next, Sane;
    SaneFormed(world);
    if IsHook(step) {
      HookLeavesObjects(cfg, world, step);
    } else {
      OtherLeavesObjects(cfg, world, step);
    }
    SameAdvances(world, step, Next(cfg, world, step));
  }

  lemma StepAdvances(cfg: Config, world: World, step: Step)
    requires Inv(cfg, world, Free) && Enabled(cfg, world, step) && !step.Crash? && !step.CommitRecovery?
    ensures WellFormed(world.w) && Advances(world, step, Next(cfg, world, step))
  {
    hide Inv, Advances, BindCommitted, SessionCommitted, Forgotten;
    if LeavesObjects(step) {
      QuietAdvances(cfg, world, step);
    } else {
      match step
      case CommitBind(c) => BindAdvances(cfg, world, c);
      case CommitSession(c) => SessionAdvances(cfg, world, c);
      case CommitPoll(_, _) => SweepAdvances(cfg, world, step);
      case CommitDeadlines(_) => SweepAdvances(cfg, world, step);
      case Forget => ForgetAdvances(world, step, Next(cfg, world, step));
      case _ => UnitAdvances(cfg, world, step);
    }
  }

  /** In every run, every step but a crash and a restart moves the objects that way. */
  lemma ObjectsOnlyAdvance(cfg: Config, wall: int, mono: int, steps: seq<Step>, step: Step)
    requires ValidRun(cfg, Init(wall, mono), steps) && Enabled(cfg, After(cfg, Init(wall, mono), steps), step)
    requires !step.Crash? && !step.CommitRecovery?
    ensures var world := After(cfg, Init(wall, mono), steps);
            WellFormed(world.w) && Advances(world, step, Next(cfg, world, step))
  {
    hide Inv, Enabled, Next, Init, Advances;
    FreeRun(cfg, wall, mono, steps);
    StepAdvances(cfg, After(cfg, Init(wall, mono), steps), step);
  }

  // ---- Deadlines

  /** An open grant ends when the signer said it would when it was created. */
  lemma DeadlineIsExpiry(cfg: Config, wall: int, mono: int, steps: seq<Step>, o: nat)
    requires ValidRun(cfg, Init(wall, mono), steps)
    requires var w := After(cfg, Init(wall, mono), steps).w; o in w.objs && w.objs[o].state.Open?
    ensures var world := After(cfg, Init(wall, mono), steps);
            world.w.objs[o].id in world.sg.ever && world.w.objs[o].deadline == world.sg.ever[world.w.objs[o].id].expiresAt
  {
    hide Inv, Enabled, Next, Init;
    FreeRun(cfg, wall, mono, steps);
    ObjectFacts(cfg, After(cfg, Init(wall, mono), steps), Free);
  }

  lemma Band(expires: int, offset: int, a: Anchor)
    requires a.readWall - a.readMono == offset && a.readMono <= a.bindMono
    ensures var due := a.bindMono + (expires - Unix(a.readWall)) * SECOND + offset;
            expires * SECOND <= due < expires * SECOND + SECOND + (a.bindMono - a.readMono)
  {
  }

  /**
   * With clocks in step, the monotonic deadline falls at or after the expiry and less than a second
   * plus the pause between reading the clock and setting the deadline after it.
   */
  lemma MonotonicDeadline(cfg: Config, wall: int, mono: int, steps: seq<Step>, o: nat)
    requires ValidRun(cfg, Init(wall, mono), steps) && AllowedRun(cfg, InStep, Init(wall, mono), steps)
    requires var w := After(cfg, Init(wall, mono), steps).w; o in w.objs && w.objs[o].state.Open?
    ensures var world := After(cfg, Init(wall, mono), steps);
            var g := world.w.objs[o];
            && o in world.anchors && g.id in world.sg.ever && g.deadlineMono.Some?
            && var due, expires := g.deadlineMono.value + (world.wall - world.mono), world.sg.ever[g.id].expiresAt * SECOND;
            expires <= due < expires + SECOND + (world.anchors[o].bindMono - world.anchors[o].readMono)
  {
    hide Inv, Enabled, Next, Init, Unix;
    InitialInv(cfg, wall, mono, InStep);
    RunKeepsInv(cfg, Init(wall, mono), steps, InStep);
    var world := After(cfg, Init(wall, mono), steps);
    ObjectFacts(cfg, world, InStep);
    Band(world.w.objs[o].deadline, world.wall - world.mono, world.anchors[o]);
  }

  /** No crash, and no new binding of the object. */
  predicate LeftAlone(cfg: Config, world: World, steps: seq<Step>, o: nat)
    requires ValidRun(cfg, world, steps)
    decreases steps
  {
    steps == [] ||
    (&& !steps[0].Crash? && !steps[0].CommitRecovery? && !Rebinds(world, steps[0], o)
     && LeftAlone(cfg, Next(cfg, world, steps[0]), steps[1..], o))
  }

  predicate Catches(world: World, step: Step, due: int) {
    step.CommitDeadlines? && step.c in world.calls && world.calls[step.c].Enforcing? && world.calls[step.c].mono >= due
  }

  /** Somewhere in the run the deadlines are enforced with a monotonic reading of `due` or later. */
  predicate EnforcedAt(cfg: Config, world: World, steps: seq<Step>, due: int)
    requires ValidRun(cfg, world, steps)
    decreases steps
  {
    steps != [] && (Catches(world, steps[0], due) || EnforcedAt(cfg, Next(cfg, world, steps[0]), steps[1..], due))
  }

  lemma EnforcedCatches(w: W<nat>, next: nat, now: int, mono: int, o: nat, due: int)
    requires ObjectsOk(w, next) && o in w.objs && w.objs[o].deadlineMono == Some(due) && mono >= due
    ensures o in Enforced(w, now, mono).objs && !Enforced(w, now, mono).objs[o].state.Open?
  {
    hide AllClosed;
    assert w.objs[o].state.Open? ==> IsLive(w, o);
    ClosedAt(w, Due(w, now, mono), DeadlineReached, o);
  }

  lemma DeadlineStep(cfg: Config, world: World, step: Step, o: nat, due: int)
    requires Inv(cfg, world, Free) && Enabled(cfg, world, step) && Catches(world, step, due)
    requires o in world.w.objs && world.w.objs[o].deadlineMono == Some(due)
    ensures var w' := Next(cfg, world, step).w; o in w'.objs && !w'.objs[o].state.Open?
  {
    hide Inv, ObjectsOk, EndingsOk, DeadlinesOk, Sane, Enforced, NewlyClosing;
    ObjectFacts(cfg, world, Free);
    EnforcedCatches(world.w, world.next, world.calls[step.c].now, world.calls[step.c].mono, o, due);
  }

  lemma {:induction false} NotOpenStays(cfg: Config, world: World, steps: seq<Step>, o: nat)
    requires Inv(cfg, world, Free) && ValidRun(cfg, world, steps) && LeftAlone(cfg, world, steps, o)
    requires o in world.w.objs && !world.w.objs[o].state.Open?
    ensures var w' := After(cfg, world, steps).w; o in w'.objs && !w'.objs[o].state.Open?
    decreases steps
  {
    hide Inv, Enabled, Next, Rebinds;
    if steps != [] {
      StepAdvances(cfg, world, steps[0]);
      assert Kept(world, steps[0], Next(cfg, world, steps[0]), o);
      StepKeepsInv(cfg, world, steps[0], Free);
      NotOpenStays(cfg, Next(cfg, world, steps[0]), steps[1..], o);
    }
  }

  lemma {:induction false} ClosedFrom(cfg: Config, world: World, steps: seq<Step>, o: nat, due: int)
    requires Inv(cfg, world, Free) && ValidRun(cfg, world, steps) && LeftAlone(cfg, world, steps, o)
    requires o in world.w.objs && world.w.objs[o].deadlineMono == Some(due) && EnforcedAt(cfg, world, steps, due)
    ensures var w' := After(cfg, world, steps).w; o in w'.objs && !w'.objs[o].state.Open?
    decreases steps
  {
    hide Inv, Enabled, Next, Rebinds;
    var world' := Next(cfg, world, steps[0]);
    StepKeepsInv(cfg, world, steps[0], Free);
    if Catches(world, steps[0], due) {
      DeadlineStep(cfg, world, steps[0], o, due);
      NotOpenStays(cfg, world', steps[1..], o);
    } else {
      StepAdvances(cfg, world, steps[0]);
      assert Kept(world, steps[0], world', o);
      ClosedFrom(cfg, world', steps[1..], o, due);
    }
  }

  /** However the wall clock jumps, a grant is not open once its monotonic deadline has been enforced, until it is bound anew. */
  lemma NoClockKeepsItOpen(cfg: Config, wall: int, mono: int, before: seq<Step>, after: seq<Step>, o: nat, due: int)
    requires ValidRun(cfg, Init(wall, mono), before)
    requires var world := After(cfg, Init(wall, mono), before);
             && ValidRun(cfg, world, after) && LeftAlone(cfg, world, after, o) && EnforcedAt(cfg, world, after, due)
             && o in world.w.objs && world.w.objs[o].deadlineMono == Some(due)
    ensures var w' := After(cfg, After(cfg, Init(wall, mono), before), after).w; o in w'.objs && !w'.objs[o].state.Open?
  {
    hide Inv, Enabled, Next, Init;
    FreeRun(cfg, wall, mono, before);
    ClosedFrom(cfg, After(cfg, Init(wall, mono), before), after, o, due);
  }

  // ---- The wall clock's half

  /** Closed if it was open and either clock has reached the deadline; otherwise untouched. */
  predicate OnTime(g: Grant, g': Grant, now: int, mono: int) {
    g' == if g.state.Open? && (now >= g.deadline || (g.deadlineMono.Some? && mono >= g.deadlineMono.value))
          then g.(state := Closing, reason := DeadlineReached, termSent := false) else g
  }

  /** Enforcing deadlines closes an open grant exactly when one of the two readings has reached its deadline on that clock. */
  lemma DeadlineStepExactly(cfg: Config, world: World, c: nat, now: int, mono: int, o: nat)
    requires Inv(cfg, world, Free) && Enabled(cfg, world, CommitDeadlines(c)) && o in world.w.objs
    requires c in world.calls && world.calls[c] == Enforcing(now, mono)
    ensures var w' := Next(cfg, world, CommitDeadlines(c)).w; o in w'.objs && OnTime(world.w.objs[o], w'.objs[o], now, mono)
  {
    hide Inv, EndingsOk, DeadlinesOk, Enforced, NewlyClosing, CallSane;
    ObjectFacts(cfg, world, Free);
    EnforcedExactly(world.w, now, mono, o);
  }

  /** Closed if it was open and the row is missing, revoked or expired, for that reason; otherwise untouched. */
  predicate AsPolled(g: Grant, g': Grant, row: Option<Store.Row>, now: int) {
    g' == if g.state.Open? && (row.None? || row.value.revokedAt.Some? || row.value.expiresAt <= now)
          then g.(state := Closing, termSent := false,
                  reason := if row.None? then SignerForgot else if row.value.revokedAt.Some? then SignerRevoked else SignerExpired)
          else g
  }

  /** What a poll does to the grant it asked about, and that it does nothing to any other. */
  lemma PollStepExactly(cfg: Config, world: World, c: nat, reachable: bool, o: nat)
    requires Inv(cfg, world, Free) && Enabled(cfg, world, CommitPoll(c, reachable)) && o in world.w.objs
    ensures var w', call, g := Next(cfg, world, CommitPoll(c, reachable)).w, world.calls[c], world.w.objs[o];
            && o in w'.objs
            && if reachable && g.id == call.id then AsPolled(g, w'.objs[o], call.row, Unix(world.wall)) else w'.objs[o] == g
  {
    hide Inv, EndingsOk, Polled, NewlyClosing, CallSane, Unix, Fit, Names;
    ObjectFacts(cfg, world, Free);
    CallIsOk(cfg, world, c, Free);
    var call := world.calls[c];
    PolledExactly(world.w, call.id, if reachable then AnswerOf(call.row, None) else Unavailable, Unix(world.wall), world.mono, o);
  }

  predicate CatchesByWall(world: World, step: Step, expires: int) {
    step.CommitDeadlines? && step.c in world.calls && world.calls[step.c].Enforcing? && world.calls[step.c].now >= expires
  }

  /** Somewhere in the run the deadlines are enforced with a wall clock reading of `expires` or later. */
  predicate EnforcedByWall(cfg: Config, world: World, steps: seq<Step>, expires: int)
    requires ValidRun(cfg, world, steps)
    decreases steps
  {
    steps != [] && (CatchesByWall(world, steps[0], expires) || EnforcedByWall(cfg, Next(cfg, world, steps[0]), steps[1..], expires))
  }

  /** The grant this object is for was created to expire then. */
  predicate Expires(world: World, o: nat, expires: int) {
    && o in world.w.objs && world.w.objs[o].id in world.sg.ever && world.sg.ever[world.w.objs[o].id].expiresAt == expires
  }

  lemma WallStep(cfg: Config, world: World, step: Step, o: nat, expires: int)
    requires Inv(cfg, world, Free) && Enabled(cfg, world, step) && CatchesByWall(world, step, expires) && Expires(world, o, expires)
    ensures var w' := Next(cfg, world, step).w; o in w'.objs && !w'.objs[o].state.Open?
  {
    hide Inv, Enabled, Next, EndingsOk, ObjectsOk;
    ObjectFacts(cfg, world, Free);
    DeadlineStepExactly(cfg, world, step.c, world.calls[step.c].now, world.calls[step.c].mono, o);
  }

  lemma StillExpires(cfg: Config, world: World, step: Step, o: nat, expires: int)
    requires Inv(cfg, world, Free) && Enabled(cfg, world, step) && Expires(world, o, expires) && !step.Crash? && !step.CommitRecovery?
    ensures Expires(Next(cfg, world, step), o, expires)
  {
    hide Inv, Enabled, Next, Rebinds;
    StepAdvances(cfg, world, step);
    assert Kept(world, step, Next(cfg, world, step), o);
    EverStays(cfg, world, step);
  }

  /** What was created stays as created. */
  lemma EverStays(cfg: Config, world: World, step: Step)
    requires Inv(cfg, world, Free) && Enabled(cfg, world, step)
    ensures var s' := Next(cfg, world, step).sg;
            forall id :: id in world.sg.ever ==> id in s'.ever && s'.ever[id] == world.sg.ever[id]
  {
    hide Inv, Enabled, Next;
    if step.Signer? {
      SignerStepEvolves(cfg, world, step.step);
    } else if IsHook(step) {
      HookLeavesSigner(cfg, world, step);
    } else {
      OtherLeavesSigner(cfg, world, step);
    }
  }

  lemma SignerStepEvolves(cfg: Config, world: World, s: S.Step)
    requires Inv(cfg, world, Free) && Enabled(cfg, world, Signer(s))
    ensures Evolves(world.sg, Next(cfg, world, Signer(s)).sg)
  {
    hide Inv, Sane, S.Next, S.Enabled, Evolves;
    InvParts(cfg, world, Free);
    SignerEvolves(cfg.env, world.sg, s);
  }

  lemma HookLeavesSigner(cfg: Config, world: World, step: Step)
    requires Enabled(cfg, world, step) && IsHook(step)
    ensures Next(cfg, world, step).sg == world.sg
  {
    hide Sane, ParseKeyId, RecoveryReady, AdmitStarted, AdmitDecided, AdmitCommitted, AttachStarted, AttachRead, AttachDecided, Stamped;
    hide BindCommitted, SessionCommitted;
  }

  lemma OtherLeavesSigner(cfg: Config, world: World, step: Step)
    requires Enabled(cfg, world, step) && !IsHook(step) && !step.Signer?
    ensures Next(cfg, world, step).sg.ever == world.sg.ever
  {
    hide Sane, RecoveryReady, Enforced, Polled, NewlyClosing, Snapshot, Discovered, Rebuilt, RowOf, RecoveryCommitted;
  }

  lemma {:induction false} ClosedByWallFrom(cfg: Config, world: World, steps: seq<Step>, o: nat, expires: int)
    requires Inv(cfg, world, Free) && ValidRun(cfg, world, steps) && LeftAlone(cfg, world, steps, o)
    requires Expires(world, o, expires) && EnforcedByWall(cfg, world, steps, expires)
    ensures var w' := After(cfg, world, steps).w; o in w'.objs && !w'.objs[o].state.Open?
    decreases steps
  {
    hide Inv, Enabled, Next, Rebinds, Expires;
    var world' := Next(cfg, world, steps[0]);
    StepKeepsInv(cfg, world, steps[0], Free);
    if CatchesByWall(world, steps[0], expires) {
      WallStep(cfg, world, steps[0], o, expires);
      NotOpenStays(cfg, world', steps[1..], o);
    } else {
      StillExpires(cfg, world, steps[0], o, expires);
      ClosedByWallFrom(cfg, world', steps[1..], o, expires);
    }
  }

  /**
   * Whatever the monotonic clock shows, a grant is not open once deadlines have been enforced with a
   * wall clock reading at or past the expiry it was created with, until it is bound anew.
   */
  lemma WallClockEndsIt(cfg: Config, wall: int, mono: int, before: seq<Step>, after: seq<Step>, o: nat, expires: int)
    requires ValidRun(cfg, Init(wall, mono), before)
    requires var world := After(cfg, Init(wall, mono), before);
             && ValidRun(cfg, world, after) && LeftAlone(cfg, world, after, o) && EnforcedByWall(cfg, world, after, expires)
             && o in world.w.objs && world.w.objs[o].id in world.sg.ever && world.sg.ever[world.w.objs[o].id].expiresAt == expires
    ensures var w' := After(cfg, After(cfg, Init(wall, mono), before), after).w; o in w'.objs && !w'.objs[o].state.Open?
  {
    hide Inv, Enabled, Next, Init;
    FreeRun(cfg, wall, mono, before);
    ClosedByWallFrom(cfg, After(cfg, Init(wall, mono), before), after, o, expires);
  }
}
