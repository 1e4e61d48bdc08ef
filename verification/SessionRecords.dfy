/** A session that was attached is on record, until its grant closes, its pid is reused or its process is seen gone. */
module SessionRecords {
  import opened Bytes
  import opened WardenState
  import opened Protocol
  import opened Runs
  import opened HostInvariant
  import opened HostSteps
  import opened CallHistory
  import opened Supervision
  import S = Redemption
  import Single = SingleUse

  // ---- One step

  /** What the end of an attachment writes: the session, in the object and in the state file, and nothing else. */
  lemma SessionStepExactly(cfg: Config, world: World, c: nat)
    requires Inv(cfg, world, Free) && Enabled(cfg, world, CommitSession(c))
    ensures var world', call := Next(cfg, world, CommitSession(c)), world.calls[c];
            var g, pid := world.w.objs[call.o], call.a.sshd.pid;
            if g.state.Open? then
              && world'.w.objs == world.w.objs[call.o := g.(sessions := g.sessions[pid := Session(call.a.sshd, call.since)])]
              && world'.attached == world.attached + [Attachment(call.a, call.admit, call.found, call.decided, call.o, call.since)]
              && IsLive(world.w, call.o) && world'.w.live == world.w.live && g.id in world'.w.saved
              && world'.w.saved[g.id].sessions == g.sessions[pid := Session(call.a.sshd, call.since)]
            else world'.w == world.w && world'.attached == world.attached
  {
    hide Inv, EndingsOk, DeadlinesOk, CallSane;
    ObjectFacts(cfg, world, Free);
  }

  predicate Holds(objs: map<nat, Grant>, o: nat, s: Session) {
    o in objs && s.sshd.pid in objs[o].sessions && objs[o].sessions[s.sshd.pid] == s
  }

  /** The step records a session under this pid in this object. */
  predicate Overwrites(world: World, world': World, o: nat, pid: int) {
    && |world'.attached| == |world.attached| + 1
    && var x := world'.attached[|world.attached|]; x.o == o && x.a.sshd.pid == pid
  }

  /** The process is not there, or it is another one. */
  predicate SeesGone(procs: map<int, nat>, p: Proc) {
    p.pid !in procs || procs[p.pid] != p.startTime
  }

  /** What may become of a session on record. */
  predicate Fate(world: World, step: Step, world': World, o: nat, s: Session) {
    || Holds(world'.w.objs, o, s)
    || (o in world'.w.objs && world'.w.objs[o].state.Closed?)
    || Overwrites(world, world', o, s.sshd.pid)
    || (step.PruneSessions? && SeesGone(world.procs, s.sshd))
  }

  lemma SweepFate(cfg: Config, world: World, step: Step, o: nat, s: Session)
    requires Enabled(cfg, world, step) && (step.CommitPoll? || step.CommitDeadlines?) && Holds(world.w.objs, o, s)
    ensures Holds(Next(cfg, world, step).w.objs, o, s)
  {
    hide NewlyClosing, AnswerOf, Enforced, Polled, CallSane, Unix;
    var call := world.calls[step.c];
    if step.CommitDeadlines? {
      EnforcedExactly(world.w, call.now, call.mono, o);
    } else {
      var answer := if step.reachable then AnswerOf(call.row, None) else Unavailable;
      PolledExactly(world.w, call.id, answer, Unix(world.wall), world.mono, o);
    }
  }

  lemma UnitFate(cfg: Config, world: World, step: Step, o: nat, s: Session)
    requires Enabled(cfg, world, step) && (step.Terminate? || step.Finalize? || step.Forget?) && Holds(world.w.objs, o, s)
    ensures var objs := Next(cfg, world, step).w.objs; Holds(objs, o, s) || (o in objs && objs[o].state.Closed?)
  {
    hide Snapshot, CallSane, LastEmpty;
  }

  lemma PruneFate(cfg: Config, world: World, o: nat, s: Session)
    requires Enabled(cfg, world, PruneSessions) && Holds(world.w.objs, o, s)
    ensures Fate(world, PruneSessions, Next(cfg, world, PruneSessions), o, s)
  {
    hide SessionsPruned, CallSane;
    PrunedExactly(world.w, world.procs, o);
  }

  lemma BindFate(cfg: Config, world: World, c: nat, o: nat, s: Session)
    requires Enabled(cfg, world, CommitBind(c)) && Holds(world.w.objs, o, s)
    ensures Holds(Next(cfg, world, CommitBind(c)).w.objs, o, s)
  {
    hide CallSane, Unix;
  }

  lemma CommitFate(cfg: Config, world: World, c: nat, o: nat, s: Session)
    requires Inv(cfg, world, Free) && Enabled(cfg, world, CommitSession(c)) && Holds(world.w.objs, o, s)
    ensures Fate(world, CommitSession(c), Next(cfg, world, CommitSession(c)), o, s)
  {
    hide Inv, Next;
    SessionStepExactly(cfg, world, c);
  }

  lemma StepFate(cfg: Config, world: World, step: Step, o: nat, s: Session)
    requires Inv(cfg, world, Free) && Enabled(cfg, world, step) && Holds(world.w.objs, o, s) && !step.Crash? && !step.CommitRecovery?
    ensures Fate(world, step, Next(cfg, world, step), o, s)
  {
    hide Inv, Enabled, Next, Overwrites, SeesGone;
    if LeavesObjects(step) {
      if IsHook(step) {
        HookLeavesObjects(cfg, world, step);
      } else {
        OtherLeavesObjects(cfg, world, step);
      }
    } else {
      match step
      case CommitBind(c) => BindFate(cfg, world, c, o, s);
      case CommitSession(c) => CommitFate(cfg, world, c, o, s);
      case CommitPoll(_, _) => SweepFate(cfg, world, step, o, s);
      case CommitDeadlines(_) => SweepFate(cfg, world, step, o, s);
      case PruneSessions => PruneFate(cfg, world, o, s);
      case _ => UnitFate(cfg, world, step, o, s);
    }
  }

  // ---- Whole runs

  /** A later attachment to the same object took the pid over. */
  predicate TakenOver(attached: seq<Attachment>, i: nat)
    requires i < |attached|
  {
    exists j :: i < j < |attached| && attached[j].o == attached[i].o && attached[j].a.sshd.pid == attached[i].a.sshd.pid
  }

  /** Step `k`, after the attachment, looked through the sessions and did not find its process. */
  predicate PrunedAt(cfg: Config, start: World, steps: seq<Step>, i: nat, x: Attachment, k: nat)
    requires ValidRun(cfg, start, steps)
  {
    && k < |steps| && steps[k].PruneSessions?
    && var world := At(cfg, start, steps, k); i < |world.attached| && SeesGone(world.procs, x.a.sshd)
  }

  /** The attachment's session is on record, or there is a reason why not. */
  ghost predicate Accounted(cfg: Config, start: World, steps: seq<Step>, n: nat, i: nat)
    requires ValidRun(cfg, start, steps) && n <= |steps| && i < |At(cfg, start, steps, n).attached|
  {
    var world := At(cfg, start, steps, n);
    var x := world.attached[i];
    && x.o < world.next
    && (x.o in world.w.objs && !world.w.objs[x.o].state.Closed? ==>
          || Holds(world.w.objs, x.o, Session(x.a.sshd, x.since))
          || TakenOver(world.attached, i)
          || exists k: nat :: k < n && PrunedAt(cfg, start, steps, i, x, k))
  }

  /** Records are only added to, and an object that was not there before has a new number. */
  predicate Grows(world: World, world': World) {
    && world.attached <= world'.attached && |world'.attached| <= |world.attached| + 1 && world.next <= world'.next
    && (forall o :: o in world'.w.objs && o !in world.w.objs ==> o >= world.next)
  }

  lemma HookGrows(cfg: Config, world: World, step: Step)
    requires Inv(cfg, world, Free) && Enabled(cfg, world, step) && IsHook(step)
    ensures Grows(world, Next(cfg, world, step))
  {
    hide Inv, ParseKeyId, RecoveryReady, AdmitStarted, AdmitDecided, AdmitCommitted, AttachStarted, AttachRead, AttachDecided, Stamped;
    hide CallSane, Unix, Admissible;
  }

  lemma OtherGrows(cfg: Config, world: World, step: Step)
    requires Inv(cfg, world, Free) && Enabled(cfg, world, step) && !IsHook(step) && !step.CommitRecovery?
    ensures Grows(world, Next(cfg, world, step))
  {
    hide Inv, Sane, RecoveryReady, Enforced, Polled, NewlyClosing, Snapshot, S.Next, Discovered, Rebuilt, RowOf;
    InvIsSane(cfg, world, Free);
    SaneFormed(world);
  }

  lemma RestartGrows(cfg: Config, world: World, names: map<Id, nat>, next: nat)
    requires Enabled(cfg, world, CommitRecovery(names, next))
    ensures Grows(world, Next(cfg, world, CommitRecovery(names, next)))
  {
    hide Sane, RecoveryCommitted;
    RebuiltHas(world, names, next);
  }

  lemma StepGrows(cfg: Config, world: World, step: Step)
    requires Inv(cfg, world, Free) && Enabled(cfg, world, step)
    ensures Grows(world, Next(cfg, world, step))
  {
    hide Inv, Enabled, Next, Grows;
    if IsHook(step) {
      HookGrows(cfg, world, step);
    } else if step.CommitRecovery? {
      RestartGrows(cfg, world, step.names, step.next);
    } else {
      OtherGrows(cfg, world, step);
    }
  }

  /** An object there after a step and numbered before it was there before, no further closed, and no restart came between. */
  lemma WasThere(cfg: Config, world: World, step: Step, o: nat)
    requires Inv(cfg, world, Free) && Enabled(cfg, world, step) && o < world.next
    requires var objs := Next(cfg, world, step).w.objs; o in objs && !objs[o].state.Closed?
    ensures o in world.w.objs && !world.w.objs[o].state.Closed? && !step.Crash? && !step.CommitRecovery?
  {
    hide Inv, Enabled, Next;
    StepGrows(cfg, world, step);
    if step.Crash? || step.CommitRecovery? {
      RestartsEmpty(cfg, world, step);
    } else {
      StepAdvances(cfg, world, step);
      assert Kept(world, step, Next(cfg, world, step), o);
    }
  }

  lemma RestartsEmpty(cfg: Config, world: World, step: Step)
    requires Inv(cfg, world, Free) && Enabled(cfg, world, step) && (step.Crash? || step.CommitRecovery?)
    ensures if step.Crash? then Next(cfg, world, step).w.objs == map[] else world.w.objs == map[]
  {
    hide S.Next, RecoveryCommitted, Single.Inv, TokensOk, AdmitsOk, AttachedOk, SessionsOk, DeadlinesOk, EndingsOk, CallsOk, CallSane;
  }

  lemma OldAccounted(cfg: Config, start: World, steps: seq<Step>, n: nat, i: nat)
    requires ValidRun(cfg, start, steps) && n < |steps| && Inv(cfg, At(cfg, start, steps, n), Free)
    requires i < |At(cfg, start, steps, n).attached| && Accounted(cfg, start, steps, n, i)
    ensures i < |At(cfg, start, steps, n + 1).attached| && Accounted(cfg, start, steps, n + 1, i)
  {
    hide Inv, Enabled, Next, At, ValidRun, SeesGone;
    var world, world', step := At(cfg, start, steps, n), At(cfg, start, steps, n + 1), steps[n];
    var x := world.attached[i];
    StepAt(cfg, start, steps, n);
    StepGrows(cfg, world, step);
    assert world'.attached[i] == x;
    if x.o in world'.w.objs && !world'.w.objs[x.o].state.Closed? {
      WasThere(cfg, world, step, x.o);
      if TakenOver(world.attached, i) {
        var j :| i < j < |world.attached| && world.attached[j].o == x.o && world.attached[j].a.sshd.pid == x.a.sshd.pid;
        assert world'.attached[j] == world.attached[j];
      } else if Holds(world.w.objs, x.o, Session(x.a.sshd, x.since)) {
        StepFate(cfg, world, step, x.o, Session(x.a.sshd, x.since));
        assert step.PruneSessions? && SeesGone(world.procs, x.a.sshd) ==> PrunedAt(cfg, start, steps, i, x, n);
      }
    }
  }

  lemma NewAccounted(cfg: Config, start: World, steps: seq<Step>, n: nat)
    requires ValidRun(cfg, start, steps) && n < |steps| && Inv(cfg, At(cfg, start, steps, n), Free)
    requires |At(cfg, start, steps, n).attached| < |At(cfg, start, steps, n + 1).attached|
    ensures Accounted(cfg, start, steps, n + 1, |At(cfg, start, steps, n).attached|)
  {
    hide Inv, At, ValidRun, Enabled, Next;
    var world, step := At(cfg, start, steps, n), steps[n];
    StepAt(cfg, start, steps, n);
    StepGrows(cfg, world, step);
    OnlyAttaches(cfg, world, step);
    SessionStepExactly(cfg, world, step.c);
    BoundIsNumbered(cfg, world, step.c);
  }

  lemma OnlyAttaches(cfg: Config, world: World, step: Step)
    requires Enabled(cfg, world, step) && |Next(cfg, world, step).attached| > |world.attached|
    ensures step.CommitSession?
  {
    hide Enabled, Next;
    if IsHook(step) {
      HookRecordsCome(cfg, world, step);
    } else {
      OtherRecordsCome(cfg, world, step);
    }
  }

  lemma BoundIsNumbered(cfg: Config, world: World, c: nat)
    requires Enabled(cfg, world, CommitSession(c))
    ensures world.calls[c].o < world.next
  {
  }

  lemma {:induction false} AllAccounted(cfg: Config, wall: int, mono: int, steps: seq<Step>, n: nat, i: nat)
    requires ValidRun(cfg, Init(wall, mono), steps) && n <= |steps| && i < |At(cfg, Init(wall, mono), steps, n).attached|
    ensures Accounted(cfg, Init(wall, mono), steps, n, i)
    decreases n
  {
    hide Inv, Enabled, Next, At, Accounted;
    var start := Init(wall, mono);
    assert n > 0 by { StartsBare(cfg, wall, mono, steps); }
    var world := At(cfg, start, steps, n - 1);
    assert Inv(cfg, world, Free) by { InvAt(cfg, wall, mono, steps, n - 1); }
    if i < |world.attached| {
      AllAccounted(cfg, wall, mono, steps, n - 1, i);
      OldAccounted(cfg, start, steps, n - 1, i);
    } else {
      StepAt(cfg, start, steps, n - 1);
      StepGrows(cfg, world, steps[n - 1]);
      NewAccounted(cfg, start, steps, n - 1);
    }
  }

  lemma StartsBare(cfg: Config, wall: int, mono: int, steps: seq<Step>)
    requires ValidRun(cfg, Init(wall, mono), steps)
    ensures At(cfg, Init(wall, mono), steps, 0) == Init(wall, mono) && Init(wall, mono).attached == []
  {
    hide Enabled, Next;
    assert steps[..0] == [];
  }

  lemma InvAt(cfg: Config, wall: int, mono: int, steps: seq<Step>, n: nat)
    requires ValidRun(cfg, Init(wall, mono), steps) && n <= |steps|
    ensures Inv(cfg, At(cfg, Init(wall, mono), steps, n), Free)
  {
    hide Inv, Enabled, Next, Init;
    PrefixValid(cfg, Init(wall, mono), steps, n);
    FreeRun(cfg, wall, mono, steps[..n]);
  }

  /**
   * In every run: the session of an attachment is on record in its object as long as that is not
   * Closed, unless a later attachment took its pid or a pass over the sessions, since, found its
   * process gone or replaced.
   */
  lemma AttachedIsOnRecord(cfg: Config, wall: int, mono: int, steps: seq<Step>, i: nat)
    requires ValidRun(cfg, Init(wall, mono), steps) && i < |After(cfg, Init(wall, mono), steps).attached|
    requires var world := After(cfg, Init(wall, mono), steps);
             var x := world.attached[i];
             && x.o in world.w.objs && !world.w.objs[x.o].state.Closed? && !TakenOver(world.attached, i)
             && forall k: nat :: !PrunedAt(cfg, Init(wall, mono), steps, i, x, k)
    ensures var world := After(cfg, Init(wall, mono), steps);
            var x := world.attached[i];
            x.a.sshd.pid in world.w.objs[x.o].sessions && world.w.objs[x.o].sessions[x.a.sshd.pid] == Session(x.a.sshd, x.since)
  {
    hide Enabled, Next, Init, TakenOver, PrunedAt;
    AtEnd(cfg, Init(wall, mono), steps);
    AllAccounted(cfg, wall, mono, steps, |steps|, i);
  }
}
