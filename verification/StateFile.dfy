/** The state file keeps up with the grants in memory, so a crash loses neither a session nor a closing. */
module StateFile {
  import opened Bytes
  import opened Ids
  import opened WardenState
  import opened Protocol
  import opened Runs
  import opened HostInvariant
  import opened HostSteps
  import opened Supervision
  import opened Origins
  import opened Restart
  import S = Redemption
  import Single = SingleUse

  /** The grant as the file has it: all but its clock anchors and how far its termination has got. */
  predicate IsWritten(g: Grant, f: Grant) {
    f == Grant(g.id, g.deadline, g.state, g.reason, g.sessions, None, false, 0)
  }

  /** Every grant in the map is in the file as it stands, except one just opened that nobody has attached to yet. */
  predicate Follows(w: W<nat>) {
    && w.saved.Keys <= w.live.Keys
    && forall id :: id in w.live ==>
         && w.live[id] in w.objs
         && var g := w.objs[w.live[id]];
            if id in w.saved then IsWritten(g, w.saved[id]) else g.state.Open? && g.sessions == map[]
  }

  lemma SavedFollows(w: W<nat>)
    requires WellFormed(w)
    ensures Follows(Saved(w))
  {
  }

  predicate Same(w: W<nat>, w': W<nat>) {
    w' == w.(pending := w'.pending)
  }

  lemma HookLeavesFile(cfg: Config, world: World, step: Step)
    requires Enabled(cfg, world, step) && LeavesObjects(step) && IsHook(step)
    ensures Same(world.w, Next(cfg, world, step).w)
  {
    hide ParseKeyId, Sane, RecoveryReady, AdmitStarted, AdmitDecided, AttachRead, AttachDecided, Stamped, AdmitCommitted, AttachStarted;
  }

  lemma OtherLeavesFile(cfg: Config, world: World, step: Step)
    requires Enabled(cfg, world, step) && LeavesObjects(step) && !IsHook(step)
    ensures Same(world.w, Next(cfg, world, step).w)
  {
    hide S.Next, Sane, RecoveryReady, Discovered, Rebuilt;
  }

  lemma SweepFollows(cfg: Config, world: World, step: Step)
    requires Enabled(cfg, world, step) && (step.CommitPoll? || step.CommitDeadlines?) && Follows(world.w)
    ensures Follows(Next(cfg, world, step).w)
  {
    hide NewlyClosing, AnswerOf, Unix, CallSane, Follows, Saved, Replaced, PolledGrant, ClosedAmong, Due;
    var call := world.calls[step.c];
    if step.CommitDeadlines? {
      EnforcedFollows(world.w, call.now, call.mono);
    } else {
      PolledFollows(world.w, call.id, if step.reachable then AnswerOf(call.row, None) else Unavailable, Unix(world.wall), world.mono);
    }
  }

  lemma EnforcedFollows(w: W<nat>, now: int, mono: int)
    requires WellFormed(w) && Follows(w)
    ensures Follows(Enforced(w, now, mono))
  {
    hide Follows, Saved, Due;
    if Due(w, now, mono) != {} {
      SavedFollows(w.(objs := map o | o in w.objs :: ClosedAmong(w, Due(w, now, mono), DeadlineReached, o)));
    }
  }

  lemma PolledFollows(w: W<nat>, id: Id, a: Answer, now: int, mono: int)
    requires WellFormed(w) && Follows(w)
    ensures Follows(Polled(w, id, a, now, mono))
  {
    hide Follows, Saved;
    if id in w.live {
      var w' := Replaced(w, w.live[id], PolledGrant(w.objs[w.live[id]], a, now, mono));
      assert WellFormed(w');
      SavedFollows(w');
    }
  }

  /** Binding again to a grant sets the deadline it had already. */
  lemma BindFollows(cfg: Config, world: World, c: nat)
    requires Inv(cfg, world, Free) && Enabled(cfg, world, CommitBind(c)) && Follows(world.w)
    ensures Follows(Next(cfg, world, CommitBind(c)).w)
  {
    hide Inv, Sane, Unix, Follows, Bind, Admissible;
    SameDeadline(cfg, world, c);
    var call := world.calls[c];
    if Admissible(world.w, call.a.grant) {
      assert call.a.grant in world.w.live ==> world.w.objs[world.w.live[call.a.grant]].state.Open? by { AdmissibleIs(world.w, call.a.grant); }
      BoundFollows(world.w, call.a.grant, world.next, call.found.expiresAt, (call.found.expiresAt - Unix(call.readWall)) * SECOND, world.mono);
    }
  }

  lemma AdmissibleIs(w: W<nat>, id: Id)
    requires WellFormed(w) && Admissible(w, id)
    ensures id in w.live ==> w.objs[w.live[id]].state.Open?
  {
  }

  lemma BoundFollows(w: W<nat>, id: Id, next: nat, expires: int, remaining: int, mono: int)
    requires WellFormed(w) && Follows(w) && next !in w.objs
    requires id in w.live ==> w.objs[w.live[id]].state.Open? && w.objs[w.live[id]].deadline == expires
    ensures Follows(Bind(w, id, next, expires, remaining, mono))
  {
  }

  lemma SameDeadline(cfg: Config, world: World, c: nat)
    requires Inv(cfg, world, Free) && Enabled(cfg, world, CommitBind(c))
    ensures WellFormed(world.w) && world.next !in world.w.objs
    ensures var call := world.calls[c];
            var id := call.a.grant;
            id in world.w.live && world.w.objs[world.w.live[id]].state.Open? ==> world.w.objs[world.w.live[id]].deadline == call.found.expiresAt
  {
    hide Inv, Enabled, EndingsOk, ObjectsOk, DeadlinesOk, CallOk;
    assert c in world.calls && world.calls[c].AttachStamped? by { BindHasCall(cfg, world, c); }
    ObjectFacts(cfg, world, Free);
    CallIsOk(cfg, world, c, Free);
    NextIsFree(world.w, world.next);
    if world.calls[c].a.grant in world.w.live {
      DeadlineMatches(world, c);
    }
  }

  lemma BindHasCall(cfg: Config, world: World, c: nat)
    requires Enabled(cfg, world, CommitBind(c))
    ensures c in world.calls && world.calls[c].AttachStamped?
  {
  }

  lemma NextIsFree(w: W<nat>, next: nat)
    requires ObjectsOk(w, next)
    ensures WellFormed(w) && next !in w.objs
  {
  }

  lemma DeadlineMatches(world: World, c: nat)
    requires c in world.calls && world.calls[c].AttachStamped? && CallOk(world, c, world.calls[c], Free)
    requires WellFormed(world.w) && world.calls[c].a.grant in world.w.live
    requires DeadlinesOk(world.sg, world.w.objs, world.anchors, world.mono)
    ensures var g := world.w.objs[world.w.live[world.calls[c].a.grant]]; g.state.Open? ==> g.deadline == world.calls[c].found.expiresAt
  {
    hide Unix, Stale, Held;
  }

  lemma UnitFollows(cfg: Config, world: World, step: Step)
    requires Enabled(cfg, world, step) && (step.Terminate? || step.Finalize? || step.Forget? || step.PruneSessions?) && Follows(world.w)
    ensures Follows(Next(cfg, world, step).w)
  {
    hide CallSane, LastEmpty, Saved, Finished, Finalized, Forgotten, SessionsPruned, Replaced, TermStarted, Follows;
    match step
    case Terminate(o, _) => TermFollows(world.w, o, world.mono);
    case Finalize(o) => FinalFollows(world.w, o, world.mono);
    case Forget => ForgetFollows(world.w, world.mono);
    case PruneSessions => PruneFollows(world.w, world.procs);
  }

  lemma TermFollows(w: W<nat>, o: nat, mono: int)
    requires WellFormed(w) && Follows(w) && o in w.objs
    ensures Follows(Replaced(w, o, TermStarted(w.objs[o], mono)))
  {
  }

  lemma FinalFollows(w: W<nat>, o: nat, mono: int)
    requires WellFormed(w) && o in w.objs
    ensures Follows(Finalized(w, o, mono))
  {
    hide Follows, Saved, Finished, Replaced;
    FinishedForms(w, o, mono);
    SavedFollows(Replaced(w, o, Finished(w.objs[o], mono)));
  }

  lemma FinishedForms(w: W<nat>, o: nat, mono: int)
    requires WellFormed(w) && o in w.objs
    ensures WellFormed(Replaced(w, o, Finished(w.objs[o], mono)))
  {
  }

  lemma ForgetFollows(w: W<nat>, mono: int)
    requires WellFormed(w)
    ensures Follows(Forgotten(w, mono))
  {
  }

  lemma PruneFollows(w: W<nat>, procs: map<int, nat>)
    requires WellFormed(w) && Follows(w)
    ensures Follows(SessionsPruned(w, procs))
  {
    hide Follows, Surviving;
    var objs := AllPruned(w, w.live.Keys, procs);
    if objs != w.objs {
      SavedFollows(w.(objs := objs));
    }
  }

  lemma SessionFollows(cfg: Config, world: World, c: nat)
    requires Enabled(cfg, world, CommitSession(c)) && Follows(world.w)
    ensures Follows(Next(cfg, world, CommitSession(c)).w)
  {
    hide Follows, Saved;
    var call := world.calls[c];
    var g := world.w.objs[call.o];
    var w' := Replaced(world.w, call.o, g.(sessions := g.sessions[call.a.sshd.pid := Session(call.a.sshd, call.since)]));
    assert WellFormed(w');
    SavedFollows(w');
  }

  lemma RestartFollows(cfg: Config, world: World, names: map<Id, nat>, next: nat)
    requires Enabled(cfg, world, CommitRecovery(names, next))
    ensures Follows(Next(cfg, world, CommitRecovery(names, next)).w)
  {
    hide Sane, RecoveryCommitted, ForGood;
    RebuiltSaved(world, names, next);
  }

  lemma StepFollows(cfg: Config, world: World, step: Step)
    requires Inv(cfg, world, Free) && Enabled(cfg, world, step) && (world.w.ready ==> Follows(world.w))
    ensures var w := Next(cfg, world, step).w; w.ready ==> Follows(w)
  {
    hide Inv, Enabled, Next, Follows, Same;
    if step.CommitRecovery? {
      RestartFollows(cfg, world, step.names, step.next);
    } else if LeavesObjects(step) {
      if IsHook(step) {
        HookLeavesFile(cfg, world, step);
      } else {
        OtherLeavesFile(cfg, world, step);
      }
      SameFollows(world.w, Next(cfg, world, step).w);
    } else if step.Crash? {
      CrashIsNotReady(cfg, world);
    } else {
      assert world.w.ready by { ActsWhenReady(cfg, world, step); }
      match step
      case CommitBind(c) => BindFollows(cfg, world, c);
      case CommitSession(c) => SessionFollows(cfg, world, c);
      case CommitPoll(_, _) => SweepFollows(cfg, world, step);
      case CommitDeadlines(_) => SweepFollows(cfg, world, step);
      case _ => UnitFollows(cfg, world, step);
    }
  }

  lemma SameFollows(w: W<nat>, w': W<nat>)
    requires Same(w, w')
    ensures w'.ready == w.ready && Follows(w') == Follows(w)
  {
  }

  lemma CrashIsNotReady(cfg: Config, world: World)
    requires Enabled(cfg, world, Crash)
    ensures !Next(cfg, world, Crash).w.ready
  {
  }

  /** Only a warden that is ready has grants and calls. */
  lemma ActsWhenReady(cfg: Config, world: World, step: Step)
    requires Inv(cfg, world, Free) && Enabled(cfg, world, step) && !LeavesObjects(step) && !step.Crash? && !step.CommitRecovery?
    ensures world.w.ready
  {
    hide Single.Inv, TokensOk, AdmitsOk, AttachedOk, SessionsOk, DeadlinesOk, EndingsOk, CallOk, RecoveryOk, RecoveryReady, CallSane;
  }

  lemma {:induction false} RunFollows(cfg: Config, world: World, steps: seq<Step>)
    requires Inv(cfg, world, Free) && ValidRun(cfg, world, steps) && (world.w.ready ==> Follows(world.w))
    ensures var w := After(cfg, world, steps).w; w.ready ==> Follows(w)
    decreases steps
  {
    hide Inv, Enabled, Next, Follows;
    if steps != [] {
      StepFollows(cfg, world, steps[0]);
      AnyRunIsFree(cfg, world, steps);
      StepKeepsInv(cfg, world, steps[0], Free);
      RunFollows(cfg, Next(cfg, world, steps[0]), steps[1..]);
    }
  }

  /** In every run, while the warden is ready its state file is up to date. */
  lemma FileIsUpToDate(cfg: Config, wall: int, mono: int, steps: seq<Step>)
    requires ValidRun(cfg, Init(wall, mono), steps) && After(cfg, Init(wall, mono), steps).w.ready
    ensures Follows(After(cfg, Init(wall, mono), steps).w)
  {
    hide Inv, Enabled, Next, Follows;
    InitialInv(cfg, wall, mono, Free);
    RunFollows(cfg, Init(wall, mono), steps);
  }

  // ---- Across a crash

  /** The sessions of the grant, those of processes that have gone left out if it is open again. */
  ghost predicate KeptSessions(g: Grant, g': Grant, procs: map<int, nat>) {
    && (forall pid :: pid in g'.sessions <==>
          pid in g.sessions && (g'.state.Open? ==> pid in procs && procs[pid] == g.sessions[pid].sshd.startTime))
    && (forall pid :: pid in g'.sessions ==> g'.sessions[pid] == g.sessions[pid])
  }

  /**
   * Whenever the warden crashes, the next restart to complete accounts for every grant that had a
   * session or was not open any more, with exactly the sessions it had, less those whose process
   * is gone where the grant is open again.
   */
  lemma CrashLosesNoSession(cfg: Config, wall: int, mono: int, steps: seq<Step>, during: seq<Step>, names: map<Id, nat>, next: nat, id: Id)
    requires ValidRun(cfg, Init(wall, mono), steps)
    requires var world := After(cfg, Init(wall, mono), steps);
             && world.w.ready && id in world.w.live && world.w.live[id] in world.w.objs
             && Enabled(cfg, world, Crash) && Enabled(cfg, Next(cfg, world, Crash), BeginRecovery)
             && var begun := Next(cfg, Next(cfg, world, Crash), BeginRecovery);
             && ValidRun(cfg, begun, during) && StillRecovering(during) && Enabled(cfg, After(cfg, begun, during), CommitRecovery(names, next))
    ensures var world := After(cfg, Init(wall, mono), steps);
            var g := world.w.objs[world.w.live[id]];
            var begun := Next(cfg, Next(cfg, world, Crash), BeginRecovery);
            var end := After(cfg, begun, during);
            var world' := Next(cfg, end, CommitRecovery(names, next));
            && (g.sessions != map[] || !g.state.Open? ==> id in world'.w.live)
            && (id in world'.w.live ==>
                  && world'.w.live[id] in world'.w.objs && end.recovery.Some? && id in end.recovery.value.heard
                  && KeptSessions(g, world'.w.objs[world'.w.live[id]], end.recovery.value.heard[id].procs))
  {
    hide Inv, Enabled, Next, Init, Restored, Discovered, HeardAt, Follows, KeptSessions, LookedOk, ValidGrantId, StillRecovering;
    var world := After(cfg, Init(wall, mono), steps);
    var crashed := Next(cfg, world, Crash);
    var end := After(cfg, Next(cfg, crashed, BeginRecovery), during);
    var world' := Next(cfg, end, CommitRecovery(names, next));
    FileIsUpToDate(cfg, wall, mono, steps);
    assert ValidGrantId(id) by { LiveIsValid(cfg, wall, mono, steps, id); }
    CrashKeepsFile(cfg, world);
    assert ValidRun(cfg, world, [Crash]) && After(cfg, world, [Crash]) == crashed by { assert [Crash][1..] == []; }
    Joined(cfg, Init(wall, mono), steps, [Crash]);
    RestartAccountsForAll(cfg, wall, mono, steps + [Crash], during, names, next);
    FileHas(world.w, id);
    if id in world'.w.live {
      SessionsBack(world.w, end.recovery.value, id, end.recovery.value.heard[id], world'.w.objs[world'.w.live[id]]);
    }
  }

  lemma CrashKeepsFile(cfg: Config, world: World)
    requires Enabled(cfg, world, Crash)
    ensures Next(cfg, world, Crash).w.saved == world.w.saved
  {
  }

  lemma LiveIsValid(cfg: Config, wall: int, mono: int, steps: seq<Step>, id: Id)
    requires ValidRun(cfg, Init(wall, mono), steps)
    requires var w := After(cfg, Init(wall, mono), steps).w; id in w.live && w.live[id] in w.objs
    ensures ValidGrantId(id)
  {
    hide Inv, Enabled, Next, Init, LookedOk, EndingsOk, DeadlinesOk, ValidGrantId;
    SourcedRun(cfg, wall, mono, steps);
    FreeRun(cfg, wall, mono, steps);
    ObjectFacts(cfg, After(cfg, Init(wall, mono), steps), Free);
  }

  lemma FileHas(w: W<nat>, id: Id)
    requires Follows(w) && id in w.live && w.live[id] in w.objs && ValidGrantId(id)
    ensures var g := w.objs[w.live[id]]; g.sessions != map[] || !g.state.Open? ==> id in Loaded(w.saved)
  {
    hide ValidGrantId;
  }

  lemma SessionsBack(w: W<nat>, r: Recovery, id: Id, h: Hearing, g': Grant)
    requires Follows(w) && id in w.live && w.live[id] in w.objs && ValidGrantId(id) && Restored(w.saved, r, id, h, g')
    ensures KeptSessions(w.objs[w.live[id]], g', h.procs)
  {
    hide ValidGrantId, Unix, Confirms;
    assert SavedSessions(w.saved, id) == w.objs[w.live[id]].sessions;
  }
}
