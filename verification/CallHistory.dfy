/** What the hooks' calls went by, traced to the step of the run at which the signer said it. */
module CallHistory {
  import opened Bytes
  import opened WardenState
  import opened Protocol
  import opened Runs
  import opened HostInvariant
  import opened HostSteps
  import S = Redemption
  import Store

  // ---- One step

  /** How a step can bring a call into this stage. */
  predicate From(cfg: Config, world: World, step: Step, c: nat, call: Call) {
    match call
    case AdmitSeen(a, _, _, row, _) =>
      && step.Admit? && step.c == c && step.uid == cfg.admitUid && step.user == cfg.sshUser && world.w.ready
      && a.sshd == step.sshd && a.user == step.user && row == RowOf(world.sg, a.grant)
    case AdmitCleared(a, _, serial, found, _, decided) =>
      && step == DecideAdmit(c) && c in world.calls && world.calls[c].AdmitSeen? && world.calls[c].a == a
      && world.calls[c].row == Some(found) && decided == Unix(world.wall) && Store.SerialOf(world.sg.db, a.grant) == Some(serial)
    case AttachAsk(a, admit) =>
      && step.Attach? && step.c == c
      && var pid := step.sshd.pid;
      && pid in world.w.pending && pid in world.pendingFrom && world.pendingFrom[pid] == admit
      && var p := world.w.pending[pid];
         a == Asking(step.sshd, step.user, p.grant) && p.sshd == step.sshd && p.user == step.user && world.mono - p.created <= cfg.pendingTTL
    case AttachSeen(a, admit, row, _) =>
      && step == ReadAttach(c) && c in world.calls && world.calls[c] == AttachAsk(a, admit) && row == RowOf(world.sg, a.grant)
    case AttachCleared(a, admit, found, _, decided) =>
      && step == DecideAttach(c) && c in world.calls && world.calls[c].AttachSeen? && world.calls[c].a == a
      && world.calls[c].admit == admit && world.calls[c].row == Some(found) && decided == Unix(world.wall)
    case AttachStamped(a, admit, found, at, decided, readWall, readMono) =>
      && step == Stamp(c) && c in world.calls && world.calls[c] == AttachCleared(a, admit, found, at, decided)
      && readWall == world.wall && readMono == world.mono && Unix(readWall) < found.expiresAt
    case AttachBound(a, admit, found, decided, _, since) =>
      && c in world.calls && world.calls[c].AttachStamped? && world.calls[c].a == a && world.calls[c].admit == admit
      && world.calls[c].found == found && world.calls[c].decided == decided && since == Unix(world.calls[c].readWall)
    case PollSeen(id, row) => step == Poll(c, id) && row == RowOf(world.sg, id)
    case Enforcing(now, mono) => step == ReadClocks(c) && now == Unix(world.wall) && mono == world.mono
  }

  predicate CallsCome(cfg: Config, world: World, step: Step, world': World) {
    forall c :: c in world'.calls ==> (c in world.calls && world'.calls[c] == world.calls[c]) || From(cfg, world, step, c, world'.calls[c])
  }

  lemma OneCallComes(cfg: Config, world: World, step: Step, world': World, c: nat)
    requires forall d :: d in world'.calls && d != c ==> d in world.calls && world'.calls[d] == world.calls[d]
    requires c in world'.calls ==> From(cfg, world, step, c, world'.calls[c])
    ensures CallsCome(cfg, world, step, world')
  {
    hide From;
  }

  lemma AdmitCallComes(cfg: Config, world: World, step: Step)
    requires Enabled(cfg, world, step) && (step.Admit? || step.DecideAdmit? || step.CommitAdmit?)
    ensures CallsCome(cfg, world, step, Next(cfg, world, step))
  {
    hide Sane, ParseKeyId, RecoveryReady, Admissible, RowOf, Store.SerialOf, Unix, CallsCome;
    OneCallComes(cfg, world, step, Next(cfg, world, step), step.c);
  }

  lemma AttachCallComes(cfg: Config, world: World, step: Step)
    requires Enabled(cfg, world, step) && (step.Attach? || step.ReadAttach? || step.DecideAttach?)
    ensures CallsCome(cfg, world, step, Next(cfg, world, step))
  {
    hide Sane, RecoveryReady, RowOf, Unix, CallsCome;
    assert step.Attach? ==> SanePending(world, step.sshd.pid) by { if step.Attach? { PendingIsSane(world, step.sshd.pid); } }
    OneCallComes(cfg, world, step, Next(cfg, world, step), step.c);
  }

  predicate SanePending(world: World, pid: int) {
    pid in world.pendingFrom && world.pendingFrom[pid] < |world.holders|
  }

  lemma PendingIsSane(world: World, pid: int)
    requires Sane(world) && pid in world.w.pending
    ensures SanePending(world, pid)
  {
  }

  lemma BoundCallComes(cfg: Config, world: World, step: Step)
    requires Enabled(cfg, world, step) && (step.Stamp? || step.CommitBind?)
    ensures CallsCome(cfg, world, step, Next(cfg, world, step))
  {
    hide RecoveryReady, CallsCome, BindCommitted, Stamped;
    if step.Stamp? {
      StampCallComes(cfg, world, step.c);
    } else {
      BindCallComes(cfg, world, step.c);
    }
  }

  lemma StampCallComes(cfg: Config, world: World, c: nat)
    requires c in world.calls && world.calls[c].AttachCleared?
    ensures CallsCome(cfg, world, Stamp(c), Stamped(world, c))
  {
    hide CallsCome, Unix;
    OneCallComes(cfg, world, Stamp(c), Stamped(world, c), c);
  }

  lemma BindCallComes(cfg: Config, world: World, c: nat)
    requires c in world.calls && world.calls[c].AttachStamped? && WellFormed(world.w) && world.next !in world.w.objs
    ensures CallsCome(cfg, world, CommitBind(c), BindCommitted(world, c))
  {
    hide CallsCome, Unix, Bind, Admissible;
    OneCallComes(cfg, world, CommitBind(c), BindCommitted(world, c), c);
  }

  lemma SessionCallGoes(cfg: Config, world: World, step: Step)
    requires Enabled(cfg, world, step) && step.CommitSession?
    ensures CallsCome(cfg, world, step, Next(cfg, world, step))
  {
    hide RecoveryReady, SessionAdded, CallsCome;
    OneCallComes(cfg, world, step, Next(cfg, world, step), step.c);
  }

  lemma HookCallsCome(cfg: Config, world: World, step: Step)
    requires Enabled(cfg, world, step) && IsHook(step)
    ensures CallsCome(cfg, world, step, Next(cfg, world, step))
  {
    hide Enabled, Next, CallsCome;
    if step.Admit? || step.DecideAdmit? || step.CommitAdmit? {
      AdmitCallComes(cfg, world, step);
    } else if step.Attach? || step.ReadAttach? || step.DecideAttach? {
      AttachCallComes(cfg, world, step);
    } else if step.CommitSession? {
      SessionCallGoes(cfg, world, step);
    } else {
      BoundCallComes(cfg, world, step);
    }
  }

  lemma OtherCallsCome(cfg: Config, world: World, step: Step)
    requires Enabled(cfg, world, step) && !IsHook(step)
    ensures CallsCome(cfg, world, step, Next(cfg, world, step))
  {
    hide Sane, RecoveryReady, Enforced, Polled, NewlyClosing, Snapshot, Saved, Discovered, Rebuilt, S.Next, RowOf, RecoveryCommitted;
  }

  /** Records come only from calls that got to the end. */
  predicate RecordsCome(world: World, step: Step, world': World) {
    && (world'.admits == world.admits ||
        (&& step.CommitAdmit? && step.c in world.calls && world.calls[step.c].AdmitCleared?
         && var call := world.calls[step.c];
            world'.admits == world.admits + [Admission(call.a, call.keyId, call.serial, call.found, call.decided)]))
    && (world'.attached == world.attached ||
        (&& step.CommitSession? && step.c in world.calls && world.calls[step.c].AttachBound?
         && var call := world.calls[step.c];
            world'.attached == world.attached + [Attachment(call.a, call.admit, call.found, call.decided, call.o, call.since)]))
  }

  lemma HookRecordsCome(cfg: Config, world: World, step: Step)
    requires Enabled(cfg, world, step) && IsHook(step)
    ensures RecordsCome(world, step, Next(cfg, world, step))
  {
    hide Sane, ParseKeyId, RecoveryReady, AdmitStarted, AdmitDecided, AttachRead, AttachDecided, Stamped, AttachStarted;
    hide BindCommitted, SessionAdded, Admissible;
  }

  lemma OtherRecordsCome(cfg: Config, world: World, step: Step)
    requires Enabled(cfg, world, step) && !IsHook(step)
    ensures RecordsCome(world, step, Next(cfg, world, step))
  {
    hide Sane, RecoveryReady, Enforced, Polled, NewlyClosing, Snapshot, Saved, Discovered, Rebuilt, S.Next, RowOf, RecoveryCommitted;
  }

  // ---- Whole runs

  /** At step `k`, ready and asked by the right user about this process and the enrolled login, the admission call `c` read the signer's row. */
  predicate AdmitAsked(cfg: Config, start: World, steps: seq<Step>, a: Asking, row: Option<Store.Row>, c: nat, k: nat)
    requires ValidRun(cfg, start, steps)
  {
    && k < |steps| && steps[k].Admit? && steps[k].c == c && steps[k].uid == cfg.admitUid
    && steps[k].sshd == a.sshd && steps[k].user == a.user == cfg.sshUser
    && var world := At(cfg, start, steps, k); world.w.ready && RowOf(world.sg, a.grant) == row
  }

  /** At step `j` it read the serial and the clock, and applied the rules. */
  predicate AdmitJudged(cfg: Config, start: World, steps: seq<Step>, g: Id, serial: int, decided: int, c: nat, j: nat)
    requires ValidRun(cfg, start, steps)
  {
    && j < |steps| && steps[j] == DecideAdmit(c)
    && var world := At(cfg, start, steps, j); Store.SerialOf(world.sg.db, g) == Some(serial) && Unix(world.wall) == decided
  }

  /** At step `k`, with its admission already granted, the session hook's call `c` read the signer's row. */
  predicate AttachAsked(cfg: Config, start: World, steps: seq<Step>, g: Id, admit: nat, row: Option<Store.Row>, c: nat, k: nat)
    requires ValidRun(cfg, start, steps)
  {
    && k < |steps| && steps[k] == ReadAttach(c)
    && var world := At(cfg, start, steps, k); admit < |world.admits| && RowOf(world.sg, g) == row
  }

  predicate AttachJudged(cfg: Config, start: World, steps: seq<Step>, decided: int, c: nat, j: nat)
    requires ValidRun(cfg, start, steps)
  {
    j < |steps| && steps[j] == DecideAttach(c) && Unix(At(cfg, start, steps, j).wall) == decided
  }

  /** The signer's database held this row when the call asked, and this serial and second when it decided, later. */
  ghost predicate AdmitTold(cfg: Config, start: World, steps: seq<Step>, a: Asking, row: Store.Row, serial: int, decided: int)
    requires ValidRun(cfg, start, steps)
  {
    exists c, k, j ::
      k < j && AdmitAsked(cfg, start, steps, a, Some(row), c, k) && AdmitJudged(cfg, start, steps, a.grant, serial, decided, c, j)
  }

  ghost predicate AttachTold(cfg: Config, start: World, steps: seq<Step>, g: Id, admit: nat, row: Store.Row, decided: int)
    requires ValidRun(cfg, start, steps)
  {
    exists c, k, j ::
      k < j && AttachAsked(cfg, start, steps, g, admit, Some(row), c, k) && AttachJudged(cfg, start, steps, decided, c, j)
  }

  /** The same, of the call that is still in flight. */
  ghost predicate Told(cfg: Config, start: World, steps: seq<Step>, c: nat, call: Call)
    requires ValidRun(cfg, start, steps)
  {
    match call
    case AdmitSeen(a, _, _, row, _) => exists k :: AdmitAsked(cfg, start, steps, a, row, c, k)
    case AdmitCleared(a, _, serial, found, _, decided) => AdmitTold(cfg, start, steps, a, found, serial, decided)
    case AttachSeen(a, admit, row, _) => exists k :: AttachAsked(cfg, start, steps, a.grant, admit, row, c, k)
    case AttachCleared(a, admit, found, _, decided) => AttachTold(cfg, start, steps, a.grant, admit, found, decided)
    case AttachStamped(a, admit, found, _, decided, _, _) => AttachTold(cfg, start, steps, a.grant, admit, found, decided)
    case AttachBound(a, admit, found, decided, _, _) => AttachTold(cfg, start, steps, a.grant, admit, found, decided)
    case _ => true
  }

  ghost predicate AllTold(cfg: Config, start: World, steps: seq<Step>)
    requires ValidRun(cfg, start, steps)
  {
    var world := After(cfg, start, steps);
    && (forall c :: c in world.calls ==> Told(cfg, start, steps, c, world.calls[c]))
    && (forall x :: x in world.admits ==> AdmitTold(cfg, start, steps, x.a, x.row, x.serial, x.decided))
    && (forall x :: x in world.attached ==> AttachTold(cfg, start, steps, x.a.grant, x.admit, x.row, x.decided))
  }

  // ---- What was said stays said

  lemma AskedStays(cfg: Config, start: World, steps: seq<Step>, n: nat, a: Asking, g: Id, admit: nat, row: Option<Store.Row>, c: nat, k: nat)
    requires ValidRun(cfg, start, steps) && n <= |steps| && ValidRun(cfg, start, steps[..n])
    ensures AdmitAsked(cfg, start, steps[..n], a, row, c, k) ==> AdmitAsked(cfg, start, steps, a, row, c, k)
    ensures AttachAsked(cfg, start, steps[..n], g, admit, row, c, k) ==> AttachAsked(cfg, start, steps, g, admit, row, c, k)
  {
    hide Enabled, Next, ValidRun, After, At, RowOf;
    if k < n {
      AtEarlier(cfg, start, steps, n, k);
    }
  }

  lemma JudgedStays(cfg: Config, start: World, steps: seq<Step>, n: nat, g: Id, serial: int, decided: int, c: nat, j: nat)
    requires ValidRun(cfg, start, steps) && n <= |steps| && ValidRun(cfg, start, steps[..n])
    ensures AdmitJudged(cfg, start, steps[..n], g, serial, decided, c, j) ==> AdmitJudged(cfg, start, steps, g, serial, decided, c, j)
    ensures AttachJudged(cfg, start, steps[..n], decided, c, j) ==> AttachJudged(cfg, start, steps, decided, c, j)
  {
    hide Enabled, Next, ValidRun, After, At, Store.SerialOf, Unix;
    if j < n {
      AtEarlier(cfg, start, steps, n, j);
    }
  }

  lemma AdmitToldStays(cfg: Config, start: World, steps: seq<Step>, n: nat, a: Asking, row: Store.Row, serial: int, decided: int)
    requires ValidRun(cfg, start, steps) && n <= |steps| && ValidRun(cfg, start, steps[..n])
    requires AdmitTold(cfg, start, steps[..n], a, row, serial, decided)
    ensures AdmitTold(cfg, start, steps, a, row, serial, decided)
  {
    hide ValidRun, AdmitAsked, AdmitJudged;
    var c, k, j :| k < j && AdmitAsked(cfg, start, steps[..n], a, Some(row), c, k) && AdmitJudged(cfg, start, steps[..n], a.grant, serial, decided, c, j);
    AskedStays(cfg, start, steps, n, a, a.grant, 0, Some(row), c, k);
    JudgedStays(cfg, start, steps, n, a.grant, serial, decided, c, j);
  }

  lemma AttachToldStays(cfg: Config, start: World, steps: seq<Step>, n: nat, g: Id, admit: nat, row: Store.Row, decided: int)
    requires ValidRun(cfg, start, steps) && n <= |steps| && ValidRun(cfg, start, steps[..n])
    requires AttachTold(cfg, start, steps[..n], g, admit, row, decided)
    ensures AttachTold(cfg, start, steps, g, admit, row, decided)
  {
    hide ValidRun, AttachAsked, AttachJudged;
    var c, k, j :| k < j && AttachAsked(cfg, start, steps[..n], g, admit, Some(row), c, k) && AttachJudged(cfg, start, steps[..n], decided, c, j);
    AskedStays(cfg, start, steps, n, Asking(Proc(0, 0), [], g), g, admit, Some(row), c, k);
    JudgedStays(cfg, start, steps, n, g, 0, decided, c, j);
  }

  lemma ToldStays(cfg: Config, start: World, steps: seq<Step>, n: nat, c: nat, call: Call)
    requires ValidRun(cfg, start, steps) && n <= |steps| && ValidRun(cfg, start, steps[..n]) && Told(cfg, start, steps[..n], c, call)
    ensures Told(cfg, start, steps, c, call)
  {
    hide ValidRun, AdmitAsked, AttachAsked, AdmitTold, AttachTold;
    match call
    case AdmitSeen(a, _, _, row, _) =>
      var k :| AdmitAsked(cfg, start, steps[..n], a, row, c, k);
      AskedStays(cfg, start, steps, n, a, a.grant, 0, row, c, k);
    case AdmitCleared(a, _, serial, found, _, decided) => AdmitToldStays(cfg, start, steps, n, a, found, serial, decided);
    case AttachSeen(a, admit, row, _) =>
      var k :| AttachAsked(cfg, start, steps[..n], a.grant, admit, row, c, k);
      AskedStays(cfg, start, steps, n, a, a.grant, admit, row, c, k);
    case AttachCleared(a, admit, found, _, decided) => AttachToldStays(cfg, start, steps, n, a.grant, admit, found, decided);
    case AttachStamped(a, admit, found, _, decided, _, _) => AttachToldStays(cfg, start, steps, n, a.grant, admit, found, decided);
    case AttachBound(a, admit, found, decided, _, _) => AttachToldStays(cfg, start, steps, n, a.grant, admit, found, decided);
    case _ =>
  }

  // ---- What is said now

  lemma NewlyTold(cfg: Config, start: World, steps: seq<Step>, c: nat, call: Call)
    requires ValidRun(cfg, start, steps) && steps != []
    requires var n := |steps| - 1;
             var world := At(cfg, start, steps, n);
             && ValidRun(cfg, start, steps[..n]) && From(cfg, world, steps[n], c, call)
             && (c in world.calls ==> Told(cfg, start, steps[..n], c, world.calls[c]))
             && (c in world.calls && Attaching(world.calls[c]) ==> world.calls[c].admit < |world.admits|)
    ensures Told(cfg, start, steps, c, call)
  {
    hide ValidRun, At, RowOf, Store.SerialOf, Unix, AdmitTold, AttachTold;
    var n := |steps| - 1;
    var world := At(cfg, start, steps, n);
    if c in world.calls {
      ToldStays(cfg, start, steps, n, c, world.calls[c]);
    }
    match call
    case AdmitSeen(a, _, _, row, _) => assert AdmitAsked(cfg, start, steps, a, row, c, n);
    case AdmitCleared(a, _, serial, found, _, decided) => AdmitToldNow(cfg, start, steps, a, found, serial, decided, c);
    case AttachSeen(a, admit, row, _) => assert AttachAsked(cfg, start, steps, a.grant, admit, row, c, n);
    case AttachCleared(a, admit, found, _, decided) => AttachToldNow(cfg, start, steps, a.grant, admit, found, decided, c);
    case _ =>
  }

  lemma AdmitToldNow(cfg: Config, start: World, steps: seq<Step>, a: Asking, row: Store.Row, serial: int, decided: int, c: nat)
    requires ValidRun(cfg, start, steps) && steps != [] && AdmitJudged(cfg, start, steps, a.grant, serial, decided, c, |steps| - 1)
    requires exists k :: AdmitAsked(cfg, start, steps, a, Some(row), c, k)
    ensures AdmitTold(cfg, start, steps, a, row, serial, decided)
  {
    hide ValidRun, At, RowOf, Store.SerialOf, Unix;
    var k: nat :| AdmitAsked(cfg, start, steps, a, Some(row), c, k);
    assert k < |steps| - 1;
  }

  lemma AttachToldNow(cfg: Config, start: World, steps: seq<Step>, g: Id, admit: nat, row: Store.Row, decided: int, c: nat)
    requires ValidRun(cfg, start, steps) && steps != [] && AttachJudged(cfg, start, steps, decided, c, |steps| - 1)
    requires exists k :: AttachAsked(cfg, start, steps, g, admit, Some(row), c, k)
    ensures AttachTold(cfg, start, steps, g, admit, row, decided)
  {
    hide ValidRun, At, RowOf, Unix;
    var k: nat :| AttachAsked(cfg, start, steps, g, admit, Some(row), c, k);
    assert k < |steps| - 1;
  }

  lemma StepTold(cfg: Config, start: World, steps: seq<Step>)
    requires ValidRun(cfg, start, steps) && steps != []
    requires var n := |steps| - 1;
             && ValidRun(cfg, start, steps[..n]) && AllTold(cfg, start, steps[..n])
             && Inv(cfg, After(cfg, start, steps[..n]), Free)
             && After(cfg, start, steps[..n]) == At(cfg, start, steps, n)
             && CallsCome(cfg, At(cfg, start, steps, n), steps[n], After(cfg, start, steps))
             && RecordsCome(At(cfg, start, steps, n), steps[n], After(cfg, start, steps))
    ensures AllTold(cfg, start, steps)
  {
    hide ValidRun, At, After, Inv, From, Told, AdmitTold, AttachTold, CallOk;
    var n := |steps| - 1;
    var world, world' := After(cfg, start, steps[..n]), After(cfg, start, steps);
    forall c | c in world'.calls ensures Told(cfg, start, steps, c, world'.calls[c]) {
      if c in world.calls && world'.calls[c] == world.calls[c] {
        ToldStays(cfg, start, steps, n, c, world.calls[c]);
      } else {
        if c in world.calls && Attaching(world.calls[c]) {
          AdmitExists(cfg, world, c);
        }
        NewlyTold(cfg, start, steps, c, world'.calls[c]);
      }
    }
    forall x | x in world'.admits ensures AdmitTold(cfg, start, steps, x.a, x.row, x.serial, x.decided) {
      if x in world.admits {
        AdmitToldStays(cfg, start, steps, n, x.a, x.row, x.serial, x.decided);
      } else {
        CallToldAdmit(cfg, start, steps, n, steps[n].c, world.calls[steps[n].c]);
      }
    }
    forall x | x in world'.attached ensures AttachTold(cfg, start, steps, x.a.grant, x.admit, x.row, x.decided) {
      if x in world.attached {
        AttachToldStays(cfg, start, steps, n, x.a.grant, x.admit, x.row, x.decided);
      } else {
        CallToldAttach(cfg, start, steps, n, steps[n].c, world.calls[steps[n].c]);
      }
    }
  }

  lemma AdmitExists(cfg: Config, world: World, c: nat)
    requires Inv(cfg, world, Free) && c in world.calls && Attaching(world.calls[c])
    ensures world.calls[c].admit < |world.admits|
  {
    hide Inv, ReadOk, FitOk, Fit, Names;
    CallIsOk(cfg, world, c, Free);
  }

  lemma CallToldAdmit(cfg: Config, start: World, steps: seq<Step>, n: nat, c: nat, call: Call)
    requires ValidRun(cfg, start, steps) && n <= |steps| && ValidRun(cfg, start, steps[..n])
    requires call.AdmitCleared? && Told(cfg, start, steps[..n], c, call)
    ensures AdmitTold(cfg, start, steps, call.a, call.found, call.serial, call.decided)
  {
    hide ValidRun, AdmitTold;
    AdmitToldStays(cfg, start, steps, n, call.a, call.found, call.serial, call.decided);
  }

  lemma CallToldAttach(cfg: Config, start: World, steps: seq<Step>, n: nat, c: nat, call: Call)
    requires ValidRun(cfg, start, steps) && n <= |steps| && ValidRun(cfg, start, steps[..n])
    requires call.AttachBound? && Told(cfg, start, steps[..n], c, call)
    ensures AttachTold(cfg, start, steps, call.a.grant, call.admit, call.found, call.decided)
  {
    hide ValidRun, AttachTold;
    AttachToldStays(cfg, start, steps, n, call.a.grant, call.admit, call.found, call.decided);
  }

  /** In every run, every call, admission and attachment went by what the signer's database held and the clock showed at steps of that run. */
  lemma {:induction false} RunTold(cfg: Config, wall: int, mono: int, steps: seq<Step>)
    requires ValidRun(cfg, Init(wall, mono), steps)
    ensures AllTold(cfg, Init(wall, mono), steps)
    decreases |steps|
  {
    hide Inv, Enabled, Next, At, CallsCome, RecordsCome, Told, AdmitTold, AttachTold;
    var start := Init(wall, mono);
    if steps != [] {
      var n := |steps| - 1;
      Last(cfg, start, steps);
      AtEarlier(cfg, start, steps, n, n);
      AtEnd(cfg, start, steps[..n]);
      RunTold(cfg, wall, mono, steps[..n]);
      FreeRun(cfg, wall, mono, steps[..n]);
      var world := After(cfg, start, steps[..n]);
      if IsHook(steps[n]) {
        HookCallsCome(cfg, world, steps[n]);
        HookRecordsCome(cfg, world, steps[n]);
      } else {
        OtherCallsCome(cfg, world, steps[n]);
        OtherRecordsCome(cfg, world, steps[n]);
      }
      StepTold(cfg, start, steps);
    }
  }
}
