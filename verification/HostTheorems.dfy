/** What holds of every run of the signer and the warden together. */
module HostTheorems {
  import opened Bytes
  import opened Ids
  import opened WardenState
  import opened Protocol
  import opened HostInvariant
  import opened HostSteps
  import opened CallHistory
  import S = Redemption
  import Single = SingleUse
  import Store

  // ---- Where sessions come from

  /**
   * The attachment rests on an admission for the same process, login and grant. That admission's
   * key id names the grant and its serial is the one the certificates table holds; it was asked for
   * by the user sshd runs its commands as, for the enrolled login. Both times the
   * signer's database held, at a step of this run, this row: the grant as created, for this login,
   * redeemed and not revoked; and at the later step at which the rules were applied the clock had
   * not reached its expiry. The second time came after the admission. The grant was claimed, in
   * time and with a proof under its secret.
   */
  ghost predicate Backed(cfg: Config, start: World, steps: seq<Step>, x: Attachment)
    requires ValidRun(cfg, start, steps)
  {
    var world := After(cfg, start, steps);
    && x.admit < |world.admits|
    && var y, g := world.admits[x.admit], x.a.grant;
    && y.a == x.a && Names(y.keyId, g) && Store.SerialOf(world.sg.db, g) == Some(y.serial)
    && Fit(world.sg, y.a, y.row, y.decided) && AdmitTold(cfg, start, steps, y.a, y.row, y.serial, y.decided)
    && Fit(world.sg, x.a, x.row, x.decided) && AttachTold(cfg, start, steps, g, x.admit, x.row, x.decided)
    && g in world.sg.winner && Single.WinSound(cfg.env, world.sg, g)
  }

  predicate StemsFrom(g: Grant, pid: int, x: Attachment) {
    pid in g.sessions && x.a.grant == g.id && Session(x.a.sshd, x.since) == g.sessions[pid]
  }

  lemma AttachmentRests(cfg: Config, world: World, i: nat)
    requires Inv(cfg, world, Free) && i < |world.attached|
    ensures var x := world.attached[i];
            && x.admit < |world.admits|
            && var y, g := world.admits[x.admit], x.a.grant;
            && y.a == x.a && Names(y.keyId, g) && Store.SerialOf(world.sg.db, g) == Some(y.serial)
            && Fit(world.sg, y.a, y.row, y.decided) && Fit(world.sg, x.a, x.row, x.decided)
            && g in world.sg.winner && Single.WinSound(cfg.env, world.sg, g)
  {
    hide ObjectsOk, SessionsOk, DeadlinesOk, EndingsOk, CallsOk, ModesOk, Names, Store.SerialOf, Single.WinSound;
    assert Single.WinsSound(cfg.env, world.sg);
    assert Fit(world.sg, world.attached[i].a, world.attached[i].row, world.attached[i].decided);
  }

  lemma AttachmentIsBacked(cfg: Config, wall: int, mono: int, steps: seq<Step>, i: nat)
    requires ValidRun(cfg, Init(wall, mono), steps) && i < |After(cfg, Init(wall, mono), steps).attached|
    ensures Backed(cfg, Init(wall, mono), steps, After(cfg, Init(wall, mono), steps).attached[i])
  {
    hide Inv, Enabled, Next, Init, Names, Fit, Store.SerialOf, Single.WinSound, AdmitTold, AttachTold;
    var world := After(cfg, Init(wall, mono), steps);
    FreeRun(cfg, wall, mono, steps);
    RunTold(cfg, wall, mono, steps);
    AttachmentRests(cfg, world, i);
    var x := world.attached[i];
    assert x in world.attached && world.admits[x.admit] in world.admits;
  }

  /** In every run, every session stems from an attachment, and what that rests on holds. */
  lemma SessionsAreBacked(cfg: Config, wall: int, mono: int, steps: seq<Step>, o: nat, pid: int)
    requires ValidRun(cfg, Init(wall, mono), steps)
    requires var world := After(cfg, Init(wall, mono), steps); o in world.w.objs && pid in world.w.objs[o].sessions
    ensures var world := After(cfg, Init(wall, mono), steps);
            exists x :: x in world.attached && StemsFrom(world.w.objs[o], pid, x) && Backed(cfg, Init(wall, mono), steps, x)
  {
    hide Enabled, Next, Backed;
    FreeRun(cfg, wall, mono, steps);
    var world := After(cfg, Init(wall, mono), steps);
    var i := TracedTo(cfg, world, o, pid);
    AttachmentIsBacked(cfg, wall, mono, steps, i);
    assert world.attached[i] in world.attached;
  }

  lemma TracedTo(cfg: Config, world: World, o: nat, pid: int) returns (i: nat)
    requires Inv(cfg, world, Free) && o in world.w.objs && pid in world.w.objs[o].sessions
    ensures i < |world.attached| && StemsFrom(world.w.objs[o], pid, world.attached[i])
  {
    hide Single.Inv, ObjectsOk, TokensOk, AdmitsOk, AttachedOk, DeadlinesOk, EndingsOk, CallsOk, ModesOk;
    assert Traced(world.attached, world.w.objs[o]);
    i :| 0 <= i < |world.attached| && StemsFrom(world.w.objs[o], pid, world.attached[i]);
  }

  /** No admission serves two sessions. */
  lemma AdmissionsAreUsedOnce(cfg: Config, wall: int, mono: int, steps: seq<Step>, i: nat, j: nat)
    requires ValidRun(cfg, Init(wall, mono), steps)
    requires i < j < |After(cfg, Init(wall, mono), steps).attached|
    ensures var a := After(cfg, Init(wall, mono), steps).attached; a[i].admit != a[j].admit
  {
    hide Inv, Enabled, Next;
    FreeRun(cfg, wall, mono, steps);
    TokensOfInv(cfg, After(cfg, Init(wall, mono), steps), Free);
  }

  // ---- Closed for good

  /** The histories only grow, and only where an admission or a session is committed. */
  predicate Grows(world: World, step: Step, world': World) {
    && world.ended <= world'.ended
    && (!step.CommitAdmit? ==> world'.admits == world.admits)
    && (!step.CommitSession? ==> world'.attached == world.attached)
  }

  lemma HookGrows(cfg: Config, world: World, step: Step)
    requires Enabled(cfg, world, step) && IsHook(step)
    ensures Grows(world, step, Next(cfg, world, step))
  {
    hide Sane, ParseKeyId, RecoveryReady, AdmitStarted, AdmitDecided, AttachRead, AttachDecided, Stamped, AdmitCommitted, AttachStarted;
    hide BindCommitted, SessionCommitted;
  }

  lemma OtherGrows(cfg: Config, world: World, step: Step)
    requires Enabled(cfg, world, step) && !IsHook(step)
    ensures Grows(world, step, Next(cfg, world, step))
  {
    hide Sane, Enforced, Polled, NewlyClosing, Snapshot, S.Next, RecoveryReady, Saved, Discovered;
  }

  lemma HistoryGrows(cfg: Config, world: World, step: Step)
    requires Enabled(cfg, world, step)
    ensures Grows(world, step, Next(cfg, world, step))
  {
    hide Enabled, Next, Grows;
    if IsHook(step) {
      HookGrows(cfg, world, step);
    } else {
      OtherGrows(cfg, world, step);
    }
  }

  /** What was admitted and attached on the way from one state to the other is about other grants. */
  predicate OnlyOthers(world: World, world': World, id: Id) {
    && id in world'.ended && world.admits <= world'.admits && world.attached <= world'.attached
    && (forall k :: |world.admits| <= k < |world'.admits| ==> world'.admits[k].a.grant != id)
    && (forall k :: |world.attached| <= k < |world'.attached| ==> world'.attached[k].a.grant != id)
  }

  lemma AdmitsOthers(cfg: Config, world: World, c: nat, id: Id)
    requires Inv(cfg, world, Prompt) && c in world.calls && world.calls[c].AdmitCleared? && WellFormed(world.w)
    requires id in world.ended && world.mono - world.calls[c].at <= RETENTION
    ensures OnlyOthers(world, AdmitCommitted(world, c), id)
  {
    hide Inv, Fit, Names, Store.SerialOf;
    CallIsOk(cfg, world, c, Prompt);
  }

  lemma AttachesOthers(cfg: Config, world: World, c: nat, id: Id)
    requires Inv(cfg, world, Prompt) && c in world.calls && world.calls[c].AttachBound? && WellFormed(world.w)
    requires world.calls[c].o in world.w.objs && world.calls[c].admit < |world.holders| && id in world.ended
    ensures OnlyOthers(world, SessionCommitted(world, c), id)
  {
    hide Inv, Fit, EndingsOk, DeadlinesOk, Gone, Unix, SessionAdded;
    CallIsOk(cfg, world, c, Prompt);
    ObjectFacts(cfg, world, Prompt);
  }

  lemma StepOnlyOthers(cfg: Config, world: World, step: Step, id: Id)
    requires Inv(cfg, world, Prompt) && Enabled(cfg, world, step) && Allowed(Prompt, world, step) && id in world.ended
    ensures OnlyOthers(world, Next(cfg, world, step), id)
  {
    hide Inv, Next, Enabled, Allowed, OnlyOthers, Grows;
    HistoryGrows(cfg, world, step);
    if step.CommitAdmit? {
      AdmitOnlyOthers(cfg, world, step.c, id);
    } else if step.CommitSession? {
      SessionOnlyOthers(cfg, world, step.c, id);
    } else {
      GrowsOnlyOthers(world, step, Next(cfg, world, step), id);
    }
  }

  lemma AdmitOnlyOthers(cfg: Config, world: World, c: nat, id: Id)
    requires Inv(cfg, world, Prompt) && Enabled(cfg, world, CommitAdmit(c)) && Allowed(Prompt, world, CommitAdmit(c)) && id in world.ended
    ensures OnlyOthers(world, Next(cfg, world, CommitAdmit(c)), id)
  {
    hide Inv, AdmitCommitted, OnlyOthers;
    AdmitsOthers(cfg, world, c, id);
  }

  lemma SessionOnlyOthers(cfg: Config, world: World, c: nat, id: Id)
    requires Inv(cfg, world, Prompt) && Enabled(cfg, world, CommitSession(c)) && id in world.ended
    ensures OnlyOthers(world, Next(cfg, world, CommitSession(c)), id)
  {
    hide Inv, SessionCommitted, OnlyOthers;
    AttachesOthers(cfg, world, c, id);
  }

  lemma GrowsOnlyOthers(world: World, step: Step, world': World, id: Id)
    requires Grows(world, step, world') && !step.CommitAdmit? && !step.CommitSession? && id in world.ended
    ensures OnlyOthers(world, world', id)
  {
  }

  lemma {:induction false} RunOnlyOthers(cfg: Config, world: World, steps: seq<Step>, id: Id)
    requires Inv(cfg, world, Prompt) && ValidRun(cfg, world, steps) && AllowedRun(cfg, Prompt, world, steps) && id in world.ended
    ensures OnlyOthers(world, After(cfg, world, steps), id)
    decreases steps
  {
    hide Inv, Enabled, Next, Allowed;
    if steps != [] {
      StepOnlyOthers(cfg, world, steps[0], id);
      StepKeepsInv(cfg, world, steps[0], Prompt);
      RunOnlyOthers(cfg, Next(cfg, world, steps[0]), steps[1..], id);
    }
  }

  lemma ShutIn(cfg: Config, world: World, id: Id)
    requires Inv(cfg, world, Prompt) && id in world.ended
    ensures forall o :: o in world.w.objs && world.w.objs[o].id == id ==> !world.w.objs[o].state.Open?
  {
    hide Inv, EndingsOk, DeadlinesOk, ObjectsOk;
    ObjectFacts(cfg, world, Prompt);
  }

  /**
   * A grant closed for its deadline, a revocation, its expiry or because the signer does not know
   * it is never open again, forgotten or not, crash or not: no later admission and no later session
   * is for it.
   */
  lemma ClosedForGood(cfg: Config, wall: int, mono: int, before: seq<Step>, after: seq<Step>, o: nat)
    requires ValidRun(cfg, Init(wall, mono), before) && AllowedRun(cfg, Prompt, Init(wall, mono), before)
    requires var world := After(cfg, Init(wall, mono), before);
             && ValidRun(cfg, world, after) && AllowedRun(cfg, Prompt, world, after)
             && o in world.w.objs && !world.w.objs[o].state.Open? && world.w.objs[o].reason != UnverifiedAfterRestart
    ensures var world := After(cfg, Init(wall, mono), before);
            var world', id := After(cfg, world, after), world.w.objs[o].id;
            && OnlyOthers(world, world', id)
            && forall p :: p in world'.w.objs && world'.w.objs[p].id == id ==> !world'.w.objs[p].state.Open?
  {
    hide Inv, Enabled, Next, Allowed, Init, OnlyOthers;
    InitialInv(cfg, wall, mono, Prompt);
    RunKeepsInv(cfg, Init(wall, mono), before, Prompt);
    var world := After(cfg, Init(wall, mono), before);
    var id := world.w.objs[o].id;
    assert id in world.ended by { ObjectFacts(cfg, world, Prompt); }
    RunOnlyOthers(cfg, world, after, id);
    RunKeepsInv(cfg, world, after, Prompt);
    assert id in After(cfg, world, after).ended by { OthersEnded(world, After(cfg, world, after), id); }
    ShutIn(cfg, After(cfg, world, after), id);
  }

  lemma OthersEnded(world: World, world': World, id: Id)
    requires OnlyOthers(world, world', id)
    ensures id in world'.ended
  {
  }
}
