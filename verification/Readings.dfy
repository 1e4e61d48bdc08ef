/** The clock and database readings the warden's own calls carry, and how old an admission may be when it is used. */
module Readings {
  import opened Bytes
  import opened WardenState
  import opened Protocol
  import opened Runs
  import opened HostInvariant
  import opened HostSteps
  import opened CallHistory
  import opened SessionRecords
  import S = Redemption
  import Store

  /** Step `k` is where the call took its reading. */
  predicate ReadAt(cfg: Config, start: World, steps: seq<Step>, c: nat, call: Call, k: nat)
    requires ValidRun(cfg, start, steps)
  {
    && k < |steps|
    && var world := At(cfg, start, steps, k);
    match call
    case AttachStamped(_, _, found, _, _, readWall, readMono) =>
      steps[k] == Stamp(c) && world.wall == readWall && world.mono == readMono && Unix(readWall) < found.expiresAt
    case AttachBound(_, _, found, _, _, since) => steps[k] == Stamp(c) && Unix(world.wall) == since < found.expiresAt
    case PollSeen(id, row) => steps[k] == Poll(c, id) && RowOf(world.sg, id) == row
    case Enforcing(now, mono) => steps[k] == ReadClocks(c) && Unix(world.wall) == now && world.mono == mono
    case _ => true
  }

  /** The session's start is the second its hook read at step `k`, before the grant's expiry. */
  predicate StartedAt(cfg: Config, start: World, steps: seq<Step>, x: Attachment, k: nat)
    requires ValidRun(cfg, start, steps)
  {
    k < |steps| && steps[k].Stamp? && Unix(At(cfg, start, steps, k).wall) == x.since < x.row.expiresAt
  }

  /** Step `k` granted admission number `admit`. */
  predicate MadeAt(cfg: Config, start: World, steps: seq<Step>, admit: nat, k: nat)
    requires ValidRun(cfg, start, steps)
  {
    && k < |steps| && steps[k].CommitAdmit? && |At(cfg, start, steps, k).admits| == admit
    && |At(cfg, start, steps, k + 1).admits| == admit + 1
  }

  /** Step `k` granted the admission, and a session hook took it out at step `j`, before its lifetime was over. */
  predicate InTime(cfg: Config, start: World, steps: seq<Step>, admit: nat, k: nat, j: nat)
    requires ValidRun(cfg, start, steps)
  {
    && k < j < |steps| && MadeAt(cfg, start, steps, admit, k) && steps[j].Attach?
    && At(cfg, start, steps, j).mono - At(cfg, start, steps, k).mono <= cfg.pendingTTL
  }

  // ---- Pending admissions

  /** Entries are made by the end of an admission, with its number and the time; nothing else makes one or touches one. */
  predicate PendingCome(world: World, step: Step, world': World) {
    forall pid :: pid in world'.w.pending ==>
      && pid in world'.pendingFrom
      && (|| (&& pid in world.w.pending && world'.w.pending[pid] == world.w.pending[pid]
              && pid in world.pendingFrom && world'.pendingFrom[pid] == world.pendingFrom[pid])
          || (&& step.CommitAdmit? && world'.pendingFrom[pid] == |world.admits| && |world'.admits| == |world.admits| + 1
              && world'.w.pending[pid].created == world.mono))
  }

  predicate PendingKnown(world: World) {
    forall pid :: pid in world.w.pending ==> pid in world.pendingFrom
  }

  lemma AdmitPendingComes(cfg: Config, world: World, c: nat)
    requires PendingKnown(world) && Enabled(cfg, world, CommitAdmit(c))
    ensures PendingCome(world, CommitAdmit(c), Next(cfg, world, CommitAdmit(c)))
  {
    hide Admissible, CallSane;
  }

  lemma AttachPendingComes(cfg: Config, world: World, c: nat, sshd: Proc, user: bytes)
    requires PendingKnown(world) && Enabled(cfg, world, Attach(c, sshd, user))
    ensures PendingCome(world, Attach(c, sshd, user), Next(cfg, world, Attach(c, sshd, user)))
  {
    hide CallSane;
  }

  lemma HookPendingCome(cfg: Config, world: World, step: Step)
    requires PendingKnown(world) && Enabled(cfg, world, step) && IsHook(step) && !step.CommitAdmit? && !step.Attach?
    ensures PendingCome(world, step, Next(cfg, world, step))
  {
    hide Sane, ParseKeyId, RecoveryReady, AdmitStarted, AdmitDecided, AdmitCommitted, AttachStarted, AttachRead, AttachDecided, Stamped;
    hide SessionAdded, Bind, Admissible;
  }

  lemma OtherPendingCome(cfg: Config, world: World, step: Step)
    requires PendingKnown(world) && Enabled(cfg, world, step) && !IsHook(step)
    ensures PendingCome(world, step, Next(cfg, world, step))
  {
    hide Sane, RecoveryReady, Enforced, Polled, NewlyClosing, Snapshot, S.Next, Discovered, Rebuilt, RowOf, RecoveryCommitted;
  }

  lemma StepPendingComes(cfg: Config, world: World, step: Step)
    requires Inv(cfg, world, Free) && Enabled(cfg, world, step)
    ensures PendingKnown(world) && PendingCome(world, step, Next(cfg, world, step))
  {
    hide Inv, Enabled, Next, PendingCome;
    assert PendingKnown(world) by { KnownPending(cfg, world); }
    if step.CommitAdmit? {
      AdmitPendingComes(cfg, world, step.c);
    } else if step.Attach? {
      AttachPendingComes(cfg, world, step.c, step.sshd, step.user);
    } else if IsHook(step) {
      HookPendingCome(cfg, world, step);
    } else {
      OtherPendingCome(cfg, world, step);
    }
  }

  lemma KnownPending(cfg: Config, world: World)
    requires Inv(cfg, world, Free)
    ensures PendingKnown(world)
  {
    hide Inv;
    TokensOfInv(cfg, world, Free);
  }

  /** Every entry was made at the time it says. */
  ghost predicate PendingMade(cfg: Config, start: World, steps: seq<Step>, n: nat)
    requires ValidRun(cfg, start, steps) && n <= |steps|
  {
    var world := At(cfg, start, steps, n);
    forall pid :: pid in world.w.pending && pid in world.pendingFrom ==>
      exists k: nat :: k < n && MadeAt(cfg, start, steps, world.pendingFrom[pid], k) && At(cfg, start, steps, k).mono == world.w.pending[pid].created
  }

  lemma PendingMadeStep(cfg: Config, start: World, steps: seq<Step>, n: nat)
    requires ValidRun(cfg, start, steps) && n < |steps| && PendingMade(cfg, start, steps, n) && Inv(cfg, At(cfg, start, steps, n), Free)
    ensures PendingMade(cfg, start, steps, n + 1)
  {
    hide Inv, Enabled, Next, At, ValidRun;
    var world, world' := At(cfg, start, steps, n), At(cfg, start, steps, n + 1);
    StepAt(cfg, start, steps, n);
    StepPendingComes(cfg, world, steps[n]);
    forall pid | pid in world'.w.pending && pid in world'.pendingFrom
      ensures exists k: nat :: k < n + 1 && MadeAt(cfg, start, steps, world'.pendingFrom[pid], k) && At(cfg, start, steps, k).mono == world'.w.pending[pid].created
    {
      if pid in world.w.pending && world'.w.pending[pid] == world.w.pending[pid] && pid in world.pendingFrom && world'.pendingFrom[pid] == world.pendingFrom[pid] {
        var k: nat :| k < n && MadeAt(cfg, start, steps, world.pendingFrom[pid], k) && At(cfg, start, steps, k).mono == world.w.pending[pid].created;
      } else {
        assert MadeAt(cfg, start, steps, world'.pendingFrom[pid], n);
      }
    }
  }

  // ---- Calls

  ghost predicate CallRead(cfg: Config, start: World, steps: seq<Step>, n: nat, c: nat, call: Call)
    requires ValidRun(cfg, start, steps)
  {
    && (exists k: nat :: k < n && ReadAt(cfg, start, steps, c, call, k))
    && (Attaching(call) ==> exists k: nat, j: nat :: j < n && InTime(cfg, start, steps, call.admit, k, j))
  }

  lemma CallReadLater(cfg: Config, start: World, steps: seq<Step>, n: nat, c: nat, call: Call)
    requires ValidRun(cfg, start, steps) && CallRead(cfg, start, steps, n, c, call)
    ensures CallRead(cfg, start, steps, n + 1, c, call)
  {
    hide ReadAt, InTime, ValidRun;
  }

  lemma NewlyRead(cfg: Config, start: World, steps: seq<Step>, n: nat, c: nat, call: Call)
    requires ValidRun(cfg, start, steps) && n < |steps|
    requires var world := At(cfg, start, steps, n);
             && From(cfg, world, steps[n], c, call) && (c in world.calls ==> CallRead(cfg, start, steps, n, c, world.calls[c]))
    ensures exists k: nat :: k < n + 1 && ReadAt(cfg, start, steps, c, call, k)
  {
    hide At, ValidRun, InTime, RowOf, Store.SerialOf;
    var world := At(cfg, start, steps, n);
    if call.AttachBound? {
      var k: nat :| k < n && ReadAt(cfg, start, steps, c, world.calls[c], k);
      assert ReadAt(cfg, start, steps, c, call, k);
    } else {
      assert ReadAt(cfg, start, steps, c, call, n);
    }
  }

  lemma NewlyInTime(cfg: Config, start: World, steps: seq<Step>, n: nat, c: nat, call: Call)
    requires ValidRun(cfg, start, steps) && n < |steps| && Attaching(call) && PendingMade(cfg, start, steps, n)
    requires var world := At(cfg, start, steps, n);
             && From(cfg, world, steps[n], c, call) && (c in world.calls ==> CallRead(cfg, start, steps, n, c, world.calls[c]))
    ensures exists k: nat, j: nat :: j < n + 1 && InTime(cfg, start, steps, call.admit, k, j)
  {
    hide At, ValidRun, RowOf, Store.SerialOf, Unix, ReadAt, MadeAt;
    var world := At(cfg, start, steps, n);
    if call.AttachAsk? {
      var pid := steps[n].sshd.pid;
      var k: nat :| k < n && MadeAt(cfg, start, steps, world.pendingFrom[pid], k) && At(cfg, start, steps, k).mono == world.w.pending[pid].created;
      assert InTime(cfg, start, steps, call.admit, k, n);
    } else {
      var k: nat, j: nat :| j < n && InTime(cfg, start, steps, world.calls[c].admit, k, j);
      assert InTime(cfg, start, steps, call.admit, k, j);
    }
  }

  /** What an attachment on record rests on. */
  ghost predicate AttachmentRead(cfg: Config, start: World, steps: seq<Step>, n: nat, x: Attachment)
    requires ValidRun(cfg, start, steps)
  {
    && (exists k: nat :: k < n && StartedAt(cfg, start, steps, x, k))
    && (exists k: nat, j: nat :: j < n && InTime(cfg, start, steps, x.admit, k, j))
  }

  ghost predicate AllRead(cfg: Config, start: World, steps: seq<Step>, n: nat)
    requires ValidRun(cfg, start, steps) && n <= |steps|
  {
    var world := At(cfg, start, steps, n);
    && PendingMade(cfg, start, steps, n)
    && (forall c :: c in world.calls ==> CallRead(cfg, start, steps, n, c, world.calls[c]))
    && (forall x :: x in world.attached ==> AttachmentRead(cfg, start, steps, n, x))
  }

  lemma AttachmentReadNow(cfg: Config, start: World, steps: seq<Step>, n: nat, c: nat, call: Call)
    requires ValidRun(cfg, start, steps) && call.AttachBound? && CallRead(cfg, start, steps, n, c, call)
    ensures AttachmentRead(cfg, start, steps, n, Attachment(call.a, call.admit, call.found, call.decided, call.o, call.since))
  {
    hide ValidRun, At, InTime, Unix;
    var x := Attachment(call.a, call.admit, call.found, call.decided, call.o, call.since);
    var k: nat :| k < n && ReadAt(cfg, start, steps, c, call, k);
    assert StartedAt(cfg, start, steps, x, k);
  }

  lemma AttachmentReadLater(cfg: Config, start: World, steps: seq<Step>, n: nat, x: Attachment)
    requires ValidRun(cfg, start, steps) && AttachmentRead(cfg, start, steps, n, x)
    ensures AttachmentRead(cfg, start, steps, n + 1, x)
  {
    hide ValidRun, StartedAt, InTime;
  }

  lemma StepRead(cfg: Config, start: World, steps: seq<Step>, n: nat)
    requires ValidRun(cfg, start, steps) && n < |steps| && AllRead(cfg, start, steps, n) && Inv(cfg, At(cfg, start, steps, n), Free)
    ensures AllRead(cfg, start, steps, n + 1)
  {
    hide Inv, Enabled, Next, At, ValidRun, PendingMade, CallRead, From, AttachmentRead;
    var world, world' := At(cfg, start, steps, n), At(cfg, start, steps, n + 1);
    StepAt(cfg, start, steps, n);
    PendingMadeStep(cfg, start, steps, n);
    if IsHook(steps[n]) {
      HookCallsCome(cfg, world, steps[n]);
      HookRecordsCome(cfg, world, steps[n]);
    } else {
      OtherCallsCome(cfg, world, steps[n]);
      OtherRecordsCome(cfg, world, steps[n]);
    }
    forall c | c in world'.calls ensures CallRead(cfg, start, steps, n + 1, c, world'.calls[c]) {
      if c in world.calls && world'.calls[c] == world.calls[c] {
        CallReadLater(cfg, start, steps, n, c, world.calls[c]);
      } else {
        CallReadNow(cfg, start, steps, n, c, world'.calls[c]);
      }
    }
    forall x | x in world'.attached ensures AttachmentRead(cfg, start, steps, n + 1, x) {
      if x in world.attached {
        AttachmentReadLater(cfg, start, steps, n, x);
      } else {
        AttachmentReadNow(cfg, start, steps, n, steps[n].c, world.calls[steps[n].c]);
        AttachmentReadLater(cfg, start, steps, n, x);
      }
    }
  }

  lemma CallReadNow(cfg: Config, start: World, steps: seq<Step>, n: nat, c: nat, call: Call)
    requires ValidRun(cfg, start, steps) && n < |steps| && PendingMade(cfg, start, steps, n)
    requires var world := At(cfg, start, steps, n);
             && From(cfg, world, steps[n], c, call) && (c in world.calls ==> CallRead(cfg, start, steps, n, c, world.calls[c]))
    ensures CallRead(cfg, start, steps, n + 1, c, call)
  {
    hide At, ValidRun, PendingMade, From, ReadAt, InTime;
    NewlyRead(cfg, start, steps, n, c, call);
    if Attaching(call) {
      NewlyInTime(cfg, start, steps, n, c, call);
    }
  }

  lemma {:induction false} ReadUpTo(cfg: Config, wall: int, mono: int, steps: seq<Step>, n: nat)
    requires ValidRun(cfg, Init(wall, mono), steps) && n <= |steps|
    ensures AllRead(cfg, Init(wall, mono), steps, n)
    decreases n
  {
    hide Inv, Enabled, Next, At, AllRead;
    if n == 0 {
      StartsRead(cfg, wall, mono, steps);
    } else {
      ReadUpTo(cfg, wall, mono, steps, n - 1);
      InvAt(cfg, wall, mono, steps, n - 1);
      StepRead(cfg, Init(wall, mono), steps, n - 1);
    }
  }

  lemma StartsRead(cfg: Config, wall: int, mono: int, steps: seq<Step>)
    requires ValidRun(cfg, Init(wall, mono), steps)
    ensures AllRead(cfg, Init(wall, mono), steps, 0)
  {
    hide Enabled, Next, CallRead, AttachmentRead, MadeAt;
    StartsBare(cfg, wall, mono, steps);
  }

  /**
   * In every run: a poll carries the signer's row and an enforcement the clocks as they were at an
   * earlier step; a hook's binding and session carry the second read at an earlier step, before the
   * grant's expiry; and an admission was at most its lifetime old when a hook took it.
   */
  lemma RunRead(cfg: Config, wall: int, mono: int, steps: seq<Step>)
    requires ValidRun(cfg, Init(wall, mono), steps)
    ensures var world := After(cfg, Init(wall, mono), steps);
            && (forall c :: c in world.calls ==> CallRead(cfg, Init(wall, mono), steps, |steps|, c, world.calls[c]))
            && (forall x :: x in world.attached ==> AttachmentRead(cfg, Init(wall, mono), steps, |steps|, x))
  {
    hide Enabled, Next, At, Init, CallRead, AttachmentRead, PendingMade;
    AtEnd(cfg, Init(wall, mono), steps);
    ReadUpTo(cfg, wall, mono, steps, |steps|);
  }

  /** A session hook takes the admission out of the map whatever comes of it. */
  lemma AttachConsumes(cfg: Config, world: World, c: nat, sshd: Proc, user: bytes)
    requires Inv(cfg, world, Free) && Enabled(cfg, world, Attach(c, sshd, user))
    ensures var world', p := Next(cfg, world, Attach(c, sshd, user)), world.w.pending[sshd.pid];
            && world'.w == world.w.(pending := world.w.pending - {sshd.pid})
            && (c in world'.calls <==> p.sshd == sshd && p.user == user && world.mono - p.created <= cfg.pendingTTL)
  {
    hide Inv, CallSane;
  }

  /** Old admissions go, and no others. */
  lemma ExpireStepExactly(cfg: Config, world: World)
    requires Enabled(cfg, world, ExpirePending)
    ensures var world' := Next(cfg, world, ExpirePending);
            && world' == world.(w := world.w.(pending := world'.w.pending))
            && (forall pid :: pid in world'.w.pending <==> pid in world.w.pending && world.mono - world.w.pending[pid].created <= cfg.pendingTTL)
            && (forall pid :: pid in world'.w.pending ==> world'.w.pending[pid] == world.w.pending[pid])
  {
    hide CallSane;
  }

  /** The sessions of processes that are gone or replaced go, in every grant in the map, and no others. */
  lemma PruneStepExactly(cfg: Config, world: World, o: nat)
    requires Enabled(cfg, world, PruneSessions) && o in world.w.objs && IsLive(world.w, o)
    ensures var w', g := Next(cfg, world, PruneSessions).w, world.w.objs[o];
            && o in w'.objs && w'.objs[o] == g.(sessions := w'.objs[o].sessions)
            && (forall pid :: pid in w'.objs[o].sessions <==> pid in g.sessions && pid in world.procs && world.procs[pid] == g.sessions[pid].sshd.startTime)
            && (forall pid :: pid in w'.objs[o].sessions ==> w'.objs[o].sessions[pid] == g.sessions[pid])
  {
    hide CallSane, SessionsPruned;
    PrunedExactly(world.w, world.procs, o);
  }

  /** A grant found empty is Closed as of now and has no sessions; it keeps its reason and its deadline. */
  lemma FinalizeStepExactly(cfg: Config, world: World, o: nat)
    requires Enabled(cfg, world, Finalize(o))
    ensures var w' := Next(cfg, world, Finalize(o)).w;
            w'.objs == world.w.objs[o := world.w.objs[o].(state := Closed, closingSince := world.mono, sessions := map[])] && w'.live == world.w.live
  {
    hide CallSane, LastEmpty, Snapshot;
  }

  lemma ClockStep(cfg: Config, world: World, step: Step)
    requires Enabled(cfg, world, step) && world.sg.clock == Unix(world.wall)
    ensures var world' := Next(cfg, world, step); world'.sg.clock == Unix(world'.wall)
  {
    hide Enabled, Next, Unix;
    if step.Signer? {
      SignerClockStep(cfg, world, step.step);
    } else if IsHook(step) {
      HookClockStep(cfg, world, step);
    } else {
      OtherClockStep(cfg, world, step);
    }
  }

  lemma SignerClockStep(cfg: Config, world: World, s: S.Step)
    requires Enabled(cfg, world, Signer(s))
    ensures var world' := Next(cfg, world, Signer(s)); world'.sg.clock == world.sg.clock && world'.wall == world.wall
  {
    hide Sane, Unheard, S.Precheck, S.AfterClaim, S.AfterRecord;
    SignerKeepsClock(cfg.env, world.sg, s);
  }

  lemma SignerKeepsClock(env: S.Env, sg: S.State, s: S.Step)
    requires S.Enabled(sg, s) && !s.Tick?
    ensures S.Next(env, sg, s).clock == sg.clock
  {
    hide S.Precheck, S.VerifyProof, S.KeyFp, S.Issue, S.CertRowFor, S.ResponseFor, Store.ClaimOutcome, Store.Recorded;
  }

  lemma HookClockStep(cfg: Config, world: World, step: Step)
    requires Enabled(cfg, world, step) && IsHook(step)
    ensures var world' := Next(cfg, world, step); world'.sg == world.sg && world'.wall == world.wall
  {
    hide Sane, ParseKeyId, RecoveryReady, AdmitStarted, AdmitDecided, AdmitCommitted, AttachStarted, AttachRead, AttachDecided, Stamped;
    hide BindCommitted, SessionCommitted;
  }

  lemma OtherClockStep(cfg: Config, world: World, step: Step)
    requires Enabled(cfg, world, step) && !IsHook(step) && !step.Signer? && world.sg.clock == Unix(world.wall)
    ensures var world' := Next(cfg, world, step); world'.sg.clock == Unix(world'.wall)
  {
    hide Sane, RecoveryReady, Enforced, Polled, NewlyClosing, Snapshot, Discovered, Rebuilt, RowOf, RecoveryCommitted, Unix;
  }

  lemma {:induction false} ClockRun(cfg: Config, world: World, steps: seq<Step>)
    requires ValidRun(cfg, world, steps) && world.sg.clock == Unix(world.wall)
    ensures var world' := After(cfg, world, steps); world'.sg.clock == Unix(world'.wall)
    decreases steps
  {
    hide Enabled, Next, Unix;
    if steps != [] {
      ClockStep(cfg, world, steps[0]);
      ClockRun(cfg, Next(cfg, world, steps[0]), steps[1..]);
    }
  }

  /** In every run the signer and the warden go by the same wall clock. */
  lemma OneWallClock(cfg: Config, wall: int, mono: int, steps: seq<Step>)
    requires ValidRun(cfg, Init(wall, mono), steps)
    ensures var world := After(cfg, Init(wall, mono), steps); world.sg.clock == Unix(world.wall)
  {
    hide Enabled, Next, Unix;
    ClockRun(cfg, Init(wall, mono), steps);
  }
}
