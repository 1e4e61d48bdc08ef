/** Where grant objects come from, and what the termination passes over them have seen. */
module Origins {
  import opened Bytes
  import opened Ids
  import opened WardenState
  import opened Protocol
  import opened Runs
  import opened HostInvariant
  import opened HostSteps
  import opened Supervision
  import S = Redemption
  import UnitNames
  import T = Termination

  /** A valid id, that the signer has issued or a restart has accounted for. */
  predicate Met(world: World, id: Id) {
    ValidGrantId(id) && (id in world.met || id in world.sg.ever)
  }

  predicate InOrder(looks: seq<Look>, mono: int) {
    && (forall i :: 0 <= i < |looks| ==> looks[i].at <= mono)
    && (forall i :: 0 < i < |looks| ==> looks[i - 1].at <= looks[i].at)
  }

  /** Until a pass sees the group empty the grant is closing, its clock set by the first pass; Closed means the last pass saw it empty. */
  predicate LookedOk(g: Grant, looks: seq<Look>, mono: int) {
    if looks == [] then !g.state.Closed? && (g.state.Closing? ==> !g.termSent)
    else
      && !g.state.Open? && InOrder(looks, mono) && (forall i :: 0 <= i < |looks| - 1 ==> !SeenEmpty(looks[i]))
      && (g.state.Closing? ==> g.termSent && g.closingSince == looks[0].at)
      && (g.state.Closed? ==> SeenEmpty(looks[|looks| - 1]))
  }

  predicate Sourced(world: World) {
    && world.looks.Keys <= world.w.objs.Keys
    && (forall o :: o in world.w.objs ==> Met(world, world.w.objs[o].id) && LookedOk(world.w.objs[o], LooksAt(world, o), world.mono))
    && (world.recovery.Some? ==> forall id :: id in world.recovery.value.ids ==> Met(world, id))
  }

  // ---- Steps

  /** What most steps may do to an object: leave its state alone, or close it. */
  predicate Mild(g: Grant, g': Grant) {
    && g'.id == g.id
    && (|| (g'.state == g.state && g'.termSent == g.termSent && g'.closingSince == g.closingSince)
        || (g.state.Open? && g'.state.Closing? && !g'.termSent))
  }

  predicate MildStep(world: World, world': World) {
    && world'.looks == world.looks && world'.mono >= world.mono && world.met <= world'.met
    && world.sg.ever.Keys <= world'.sg.ever.Keys && world'.w.objs.Keys == world.w.objs.Keys
    && (forall o :: o in world.w.objs ==> Mild(world.w.objs[o], world'.w.objs[o]))
    && (world'.recovery.Some? ==> world.recovery.Some? && world'.recovery.value.ids == world.recovery.value.ids)
  }

  lemma MildKeeps(world: World, world': World)
    requires Sourced(world) && MildStep(world, world')
    ensures Sourced(world')
  {
    hide ValidGrantId;
    forall o | o in world'.w.objs ensures LookedOk(world'.w.objs[o], LooksAt(world', o), world'.mono) {
      assert LookedOk(world.w.objs[o], LooksAt(world, o), world.mono);
    }
  }

  lemma SignerMild(cfg: Config, world: World, s: S.Step)
    requires Inv(cfg, world, Free) && S.Enabled(world.sg, s)
    ensures MildStep(world, world.(sg := S.Next(cfg.env, world.sg, s)))
  {
    hide Inv, S.Next, S.Enabled;
    InvParts(cfg, world, Free);
    SignerEvolves(cfg.env, world.sg, s);
  }

  lemma OtherLeaves(cfg: Config, world: World, step: Step)
    requires Enabled(cfg, world, step) && LeavesObjects(step) && !IsHook(step) && !step.Signer? && !step.BeginRecovery?
    ensures MildStep(world, Next(cfg, world, step))
  {
    hide Sane, RecoveryReady, Rebuilt, RowOf, AnswerOf;
  }

  lemma HookLeaves(cfg: Config, world: World, step: Step)
    requires Enabled(cfg, world, step) && LeavesObjects(step) && IsHook(step)
    ensures MildStep(world, Next(cfg, world, step))
  {
    hide ParseKeyId, Sane, RecoveryReady, AdmitStarted, AdmitDecided, AttachRead, AttachDecided, Stamped, AdmitCommitted, AttachStarted;
  }

  lemma BeginSourced(cfg: Config, world: World)
    requires Sourced(world)
    ensures Sourced(RecoveryBegun(cfg, world))
  {
    hide LookedOk, ValidGrantId, UnitNames.GrantOfName;
    var world' := RecoveryBegun(cfg, world);
    forall id | id in world'.recovery.value.ids ensures Met(world', id) {
      IsValid(cfg, world, id);
    }
    forall o | o in world'.w.objs ensures LookedOk(world'.w.objs[o], LooksAt(world', o), world'.mono) {
      assert LooksAt(world', o) == LooksAt(world, o);
    }
  }

  lemma IsValid(cfg: Config, world: World, id: Id)
    requires id in Loaded(world.w.saved).Keys + Discovered(cfg, world.children)
    ensures ValidGrantId(id)
  {
    hide UnitNames.HasPrefix, UnitNames.HasSuffix, UnitNames.TrimPrefix, UnitNames.TrimSuffix, UnitNames.NamePrefix;
  }

  lemma BindId(cfg: Config, world: World, c: nat)
    requires Inv(cfg, world, Free) && c in world.calls && world.calls[c].AttachStamped?
    ensures world.calls[c].a.grant in world.sg.ever && ValidGrantId(world.calls[c].a.grant)
  {
    hide ObjectsOk, SessionsOk, DeadlinesOk, EndingsOk, ModesOk, AttachedOk;
  }

  lemma MildLooked(g: Grant, g': Grant, looks: seq<Look>, mono: int)
    requires LookedOk(g, looks, mono) && Mild(g, g')
    ensures LookedOk(g', looks, mono)
  {
    hide InOrder;
  }

  /** A binding leaves every object as it was but for the deadlines, and makes at most one, which is open. */
  lemma BoundObject(w: W<nat>, id: Id, next: nat, expires: int, remaining: int, mono: int, o: nat)
    requires WellFormed(w) && next !in w.objs && o in Bind(w, id, next, expires, remaining, mono).objs
    ensures var g' := Bind(w, id, next, expires, remaining, mono).objs[o];
            if o in w.objs then Mild(w.objs[o], g') else g'.id == id && g'.state.Open?
  {
  }

  lemma BindSourced(cfg: Config, world: World, c: nat)
    requires Inv(cfg, world, Free) && Sourced(world) && c in world.calls && world.calls[c].AttachStamped?
    requires WellFormed(world.w) && world.next !in world.w.objs
    ensures Sourced(BindCommitted(world, c))
  {
    hide Inv, ValidGrantId, Unix, Bind, Admissible, Mild, InOrder;
    BindId(cfg, world, c);
    var world', call := BindCommitted(world, c), world.calls[c];
    if Admissible(world.w, call.a.grant) {
      var expires := call.found.expiresAt;
      forall o | o in world'.w.objs ensures Met(world', world'.w.objs[o].id) && LookedOk(world'.w.objs[o], LooksAt(world', o), world'.mono) {
        BoundObject(world.w, call.a.grant, world.next, expires, (expires - Unix(call.readWall)) * SECOND, world.mono, o);
        if o in world.w.objs {
          MildLooked(world.w.objs[o], world'.w.objs[o], LooksAt(world, o), world.mono);
          MildId(world.w.objs[o], world'.w.objs[o]);
        }
      }
      BindGrows(world.w, call.a.grant, world.next, expires, (expires - Unix(call.readWall)) * SECOND, world.mono);
    }
  }

  lemma MildId(g: Grant, g': Grant)
    requires Mild(g, g')
    ensures g'.id == g.id
  {
  }

  lemma BindGrows(w: W<nat>, id: Id, next: nat, expires: int, remaining: int, mono: int)
    requires WellFormed(w) && next !in w.objs
    ensures w.objs.Keys <= Bind(w, id, next, expires, remaining, mono).objs.Keys
  {
  }

  lemma SessionMild(world: World, c: nat)
    requires c in world.calls && world.calls[c].AttachBound? && WellFormed(world.w) && world.calls[c].o in world.w.objs
    requires world.calls[c].admit < |world.holders|
    ensures MildStep(world, SessionCommitted(world, c))
  {
    hide Snapshot;
  }

  lemma SweepMild(cfg: Config, world: World, step: Step)
    requires Inv(cfg, world, Free) && Enabled(cfg, world, step) && (step.CommitPoll? || step.CommitDeadlines?)
    ensures MildStep(world, Next(cfg, world, step))
  {
    hide Inv, Enforced, Polled, AnswerOf, NewlyClosing, DeadlinesOk, Unix, LaterW, Sane, IsLive;
    var call := world.calls[step.c];
    CallIsOk(cfg, world, step.c, Free);
    ObjectFacts(cfg, world, Free);
    if step.CommitPoll? {
      PolledCloses(world.sg, world.w, world.anchors, call.id, call.row, step.reachable, Unix(world.wall), world.mono, world.mono);
    } else {
      EnforcedCloses(world.w, call.now, call.mono);
    }
    ClosingKeys(world.w, Next(cfg, world, step).w);
  }

  lemma ClosingKeys(w: W<nat>, w': W<nat>)
    requires ClosingPass(w, w')
    ensures w'.objs.Keys == w.objs.Keys && forall o :: o in w.objs ==> w'.objs[o].id == w.objs[o].id
  {
  }

  lemma PruneMild(world: World)
    requires WellFormed(world.w)
    ensures MildStep(world, world.(w := SessionsPruned(world.w, world.procs)))
  {
    hide SessionsPruned, Later;
    forall o | o in world.w.objs ensures Mild(world.w.objs[o], SessionsPruned(world.w, world.procs).objs[o]) {
      PrunedObject(world.w, world.procs, o);
      PrunedIds(world.w, world.procs, o);
    }
  }

  lemma PrunedIds(w: W<nat>, procs: map<int, nat>, o: nat)
    requires WellFormed(w) && o in w.objs
    ensures SessionsPruned(w, procs).objs[o].id == w.objs[o].id
  {
    hide SessionsPruned;
    assert SessionsPruned(w, procs).objs[o] == PrunedAmong(w, w.live.Keys, procs, o);
  }

  lemma ForgetMild(world: World)
    requires WellFormed(world.w)
    ensures MildStep(world, world.(w := Forgotten(world.w, world.mono)))
  {
    hide Snapshot;
  }

  lemma OneMoreLook(g: Grant, looks: seq<Look>, look: Look, mono: int)
    requires LookedOk(g, looks, mono) && g.state.Closing? && look.at == mono && !LastEmpty(looks)
    ensures LookedOk(TermStarted(g, mono), looks + [look], mono)
  {
    var more := looks + [look];
    assert forall i :: 0 <= i < |looks| ==> more[i] == looks[i];
  }

  lemma LookSourced(world: World, o: nat, look: Look)
    requires Sourced(world) && o in world.w.objs && world.w.objs[o].state.Closing? && look.at == world.mono && !LastEmpty(LooksAt(world, o))
    ensures Sourced(Looked(world, o, look))
  {
    hide ValidGrantId, LookedOk, LastEmpty;
    OneMoreLook(world.w.objs[o], LooksAt(world, o), look, world.mono);
    var world' := Looked(world, o, look);
    forall p | p in world'.w.objs ensures LookedOk(world'.w.objs[p], LooksAt(world', p), world'.mono) {
      if p != o {
        assert LooksAt(world', p) == LooksAt(world, p);
      }
    }
  }

  lemma FinalSourced(world: World, o: nat)
    requires Sourced(world) && WellFormed(world.w) && o in world.w.objs && world.w.objs[o].state.Closing? && LastEmpty(LooksAt(world, o))
    ensures Sourced(world.(w := Finalized(world.w, o, world.mono)))
  {
    hide ValidGrantId, Snapshot, InOrder;
    var world' := world.(w := Finalized(world.w, o, world.mono));
    forall p | p in world'.w.objs ensures LookedOk(world'.w.objs[p], LooksAt(world', p), world'.mono) {
      assert LookedOk(world.w.objs[p], LooksAt(world, p), world.mono);
    }
  }

  lemma CrashSourced(world: World)
    requires Sourced(world)
    ensures Sourced(Crashed(world))
  {
    hide ValidGrantId, LookedOk;
  }

  lemma RestartSourced(cfg: Config, world: World, names: map<Id, nat>, next: nat)
    requires Inv(cfg, world, Free) && Sourced(world) && RecoveryReady(world, names, next)
    ensures Sourced(RecoveryCommitted(world, names, next))
  {
    hide Inv, ValidGrantId, RecoveryCommitted;
    RebuiltHas(world, names, next);
    NoObjects(cfg, world);
    var world' := RecoveryCommitted(world, names, next);
    forall o | o in world'.w.objs ensures Met(world', world'.w.objs[o].id) && LookedOk(world'.w.objs[o], LooksAt(world', o), world'.mono) {
      DoneFresh(cfg, world, world'.w.objs[o].id);
    }
  }

  lemma NoObjects(cfg: Config, world: World)
    requires Inv(cfg, world, Free) && world.recovery.Some?
    ensures world.w.objs == map[]
  {
    hide TokensOk, AdmitsOk, AttachedOk, SessionsOk, DeadlinesOk, EndingsOk, RecoveryOk, CallsOk;
  }

  lemma DoneFresh(cfg: Config, world: World, id: Id)
    requires Inv(cfg, world, Free) && world.recovery.Some? && id in world.recovery.value.done
    ensures var g := world.recovery.value.done[id]; !g.state.Closed? && (g.state.Closing? ==> !g.termSent)
  {
    hide TokensOk, AdmitsOk, AttachedOk, SessionsOk, DeadlinesOk, EndingsOk, CallsOk, Loaded, Timed, Surviving, Unix;
  }

  // ---- Every step and every run

  lemma ObjectSourced(cfg: Config, world: World, step: Step)
    requires Inv(cfg, world, Free) && Sourced(world) && Enabled(cfg, world, step) && !LeavesObjects(step)
    ensures Sourced(Next(cfg, world, step))
  {
    hide Inv, Sourced, BindCommitted, SessionCommitted, PollCommitted, DeadlinesCommitted, Looked, Finalized, Forgotten, SessionsPruned;
    hide Crashed, RecoveryCommitted, RecoveryReady, LastEmpty, MildStep;
    var world' := Next(cfg, world, step);
    match step
    case CommitBind(c) => BindSourced(cfg, world, c);
    case CommitSession(c) => SessionMild(world, c); MildKeeps(world, world');
    case CommitPoll(_, _) => SweepMild(cfg, world, step); MildKeeps(world, world');
    case CommitDeadlines(_) => SweepMild(cfg, world, step); MildKeeps(world, world');
    case Terminate(o, look) => LookSourced(world, o, look);
    case Finalize(o) => FinalSourced(world, o);
    case Forget => ForgetMild(world); MildKeeps(world, world');
    case PruneSessions => PruneMild(world); MildKeeps(world, world');
    case Crash => CrashSourced(world);
    case CommitRecovery(names, next) => RestartSourced(cfg, world, names, next);
  }

  lemma QuietSourced(cfg: Config, world: World, step: Step)
    requires Inv(cfg, world, Free) && Sourced(world) && Enabled(cfg, world, step) && LeavesObjects(step)
    ensures Sourced(Next(cfg, world, step))
  {
    hide Inv, Sourced, MildStep, S.Next, S.Enabled, RecoveryBegun;
    if IsHook(step) {
      HookLeaves(cfg, world, step);
      MildKeeps(world, Next(cfg, world, step));
    } else if step.Signer? {
      SignerMild(cfg, world, step.step);
      MildKeeps(world, Next(cfg, world, step));
    } else if step.BeginRecovery? {
      BeginSourced(cfg, world);
    } else {
      OtherLeaves(cfg, world, step);
      MildKeeps(world, Next(cfg, world, step));
    }
  }

  lemma {:induction false} RunSourced(cfg: Config, world: World, steps: seq<Step>)
    requires Inv(cfg, world, Free) && Sourced(world) && ValidRun(cfg, world, steps)
    ensures Sourced(After(cfg, world, steps))
    decreases steps
  {
    hide Inv, Sourced, Enabled, Next;
    if steps != [] {
      if LeavesObjects(steps[0]) {
        QuietSourced(cfg, world, steps[0]);
      } else {
        ObjectSourced(cfg, world, steps[0]);
      }
      StepKeepsInv(cfg, world, steps[0], Free);
      RunSourced(cfg, Next(cfg, world, steps[0]), steps[1..]);
    }
  }

  lemma InitialSourced(wall: int, mono: int)
    ensures Sourced(Init(wall, mono))
  {
  }

  lemma SourcedRun(cfg: Config, wall: int, mono: int, steps: seq<Step>)
    requires ValidRun(cfg, Init(wall, mono), steps)
    ensures Sourced(After(cfg, Init(wall, mono), steps))
  {
    hide Inv, Enabled, Next, Sourced;
    InitialSourced(wall, mono);
    InitialInv(cfg, wall, mono, Free);
    RunSourced(cfg, Init(wall, mono), steps);
  }

  /** In every run a Closed object is one whose last pass, and no pass before it, saw its group absent or empty. */
  lemma ClosedOnlyWhenSeenEmpty(cfg: Config, wall: int, mono: int, steps: seq<Step>, o: nat)
    requires ValidRun(cfg, Init(wall, mono), steps)
    requires var w := After(cfg, Init(wall, mono), steps).w; o in w.objs && w.objs[o].state.Closed?
    ensures var looks := LooksAt(After(cfg, Init(wall, mono), steps), o);
            LastEmpty(looks) && forall i :: 0 <= i < |looks| - 1 ==> !SeenEmpty(looks[i])
  {
    hide Inv, Enabled, Next, Init;
    SourcedRun(cfg, wall, mono, steps);
  }

  /** The grant as it was when it began to close. */
  function JustClosing(g: Grant): Grant {
    g.(state := Closing, termSent := false)
  }

  /**
   * In every run, if the passes over an object come at most `t` apart from `closed` on and a killed
   * group is seen empty `k` later, no pass comes later than the grace period, `k` and three
   * intervals after `closed`: by then it is Closed.
   */
  lemma ClosingIsBounded(cfg: Config, wall: int, mono: int, steps: seq<Step>, o: nat, closed: int, grace: int, k: int, t: int, j: nat)
    requires ValidRun(cfg, Init(wall, mono), steps) && o in After(cfg, Init(wall, mono), steps).w.objs
    requires grace >= 0 && k >= 0 && t >= 0
    requires var world := After(cfg, Init(wall, mono), steps);
             && j < |LooksAt(world, o)| && T.Paced(LooksAt(world, o), closed, t)
             && T.KillWorks(JustClosing(world.w.objs[o]), LooksAt(world, o), grace, k)
    ensures LooksAt(After(cfg, Init(wall, mono), steps), o)[j].at <= closed + grace + k + 3 * t
  {
    hide Inv, Enabled, Next, Init, T.KillWorks, T.Paced, InOrder;
    SourcedRun(cfg, wall, mono, steps);
    var world := After(cfg, Init(wall, mono), steps);
    var g, looks := world.w.objs[o], LooksAt(world, o);
    assert LookedOk(g, looks, world.mono);
    T.StillClosing(JustClosing(g), looks, j);
    T.ClosingIsBounded(JustClosing(g), looks, j, closed, grace, k, t);
  }
}
