/** What a restart leaves behind, from whatever point the warden crashed at. */
module Restart {
  import opened Bytes
  import opened Ids
  import opened WardenState
  import opened Protocol
  import opened HostInvariant
  import opened HostSteps
  import opened HostTheorems
  import opened Runs
  import S = Redemption
  import UnitNames

  /** The signer confirms the grant: it knows it, has not revoked it, and it has not expired. */
  predicate Confirms(a: Answer, now: int) {
    a.Known? && !a.revoked && a.expires > now
  }

  /** The sessions the state file has under a valid id. */
  function SavedSessions(saved: map<Id, Grant>, id: Id): map<int, Session> {
    if id in saved && ValidGrantId(id) then saved[id].sessions else map[]
  }

  /**
   * The grant as it should stand after a restart: open exactly when confirmed and closing
   * otherwise, for the reason the answer gives. If open it is due when the signer says and keeps
   * exactly the saved sessions whose process is still the one that was attached; if closing it
   * keeps them all.
   */
  ghost predicate Restored(saved: map<Id, Grant>, r: Recovery, id: Id, h: Hearing, g: Grant) {
    && g.id == id
    && (g.state.Open? <==> Confirms(h.answer, Unix(r.readWall))) && (!g.state.Open? ==> g.state.Closing? && !g.termSent)
    && (g.state.Open? ==> g.deadline == h.answer.expires)
    && (!g.state.Open? ==>
          g.reason == if h.answer.Unknown? then UnknownAfterRestart else if h.answer.Unavailable? then UnverifiedAfterRestart
                      else if h.answer.revoked then SignerRevoked else SignerExpired)
    && var all := SavedSessions(saved, id);
    && (forall pid :: pid in g.sessions <==>
          pid in all && (g.state.Open? ==> pid in h.procs && h.procs[pid] == all[pid].sshd.startTime))
    && (forall pid :: pid in g.sessions ==> g.sessions[pid] == all[pid])
  }

  lemma ResolvedIsRestored(saved: map<Id, Grant>, r: Recovery, id: Id, h: Hearing)
    requires id in saved ==> saved[id].id == id
    ensures Restored(saved, r, id, h, Rebuilt(Loaded(saved), id, Unix(r.readWall), h))
  {
    hide Unix;
  }

  /** The restart is still under way. */
  predicate StillRecovering(steps: seq<Step>) {
    forall i :: 0 <= i < |steps| ==> !steps[i].Crash? && !steps[i].CommitRecovery?
  }

  predicate SameRecovery(world: World, world': World) {
    && world.recovery.Some? && world'.recovery.Some?
    && world'.recovery.value.ids == world.recovery.value.ids && world'.recovery.value.readWall == world.recovery.value.readWall
    && world'.w.saved == world.w.saved && world'.admits == world.admits && world'.attached == world.attached
  }

  lemma RecoveringStep(cfg: Config, world: World, step: Step)
    requires Inv(cfg, world, Free) && Enabled(cfg, world, step) && world.recovery.Some? && !step.Crash? && !step.CommitRecovery?
    ensures SameRecovery(world, Next(cfg, world, step))
  {
    hide Inv, Sane, S.Next, RecoveryReady, Rebuilt, ParseKeyId;
    NothingRuns(cfg, world);
  }

  /** Until the restart is complete there are no calls, no objects and no admissions waiting. */
  lemma NothingRuns(cfg: Config, world: World)
    requires Inv(cfg, world, Free) && (world.recovery.Some? || !world.w.ready)
    ensures !world.w.ready && world.calls == map[] && world.w.objs == map[] && world.w.live == map[] && world.w.pending == map[]
  {
    hide S.Next, TokensOk, AdmitsOk, AttachedOk, SessionsOk, DeadlinesOk, EndingsOk, RecoveryOk;
  }

  lemma {:induction false} RecoveringRun(cfg: Config, world: World, steps: seq<Step>)
    requires Inv(cfg, world, Free) && ValidRun(cfg, world, steps) && world.recovery.Some? && StillRecovering(steps)
    ensures SameRecovery(world, After(cfg, world, steps)) && Inv(cfg, After(cfg, world, steps), Free)
    decreases steps
  {
    hide Inv, Enabled, Next;
    if steps != [] {
      var world' := Next(cfg, world, steps[0]);
      RecoveringStep(cfg, world, steps[0]);
      StepKeepsInv(cfg, world, steps[0], Free);
      assert StillRecovering(steps[1..]);
      RecoveringRun(cfg, world', steps[1..]);
    }
  }

  lemma Committed(cfg: Config, world: World, names: map<Id, nat>, next: nat)
    requires Inv(cfg, world, Free) && RecoveryReady(world, names, next)
    ensures var w' := RecoveryCommitted(world, names, next).w;
            && world.recovery.Some? && world.recovery.value.ids <= world.recovery.value.heard.Keys
            && WellFormed(w') && w'.live.Keys == world.recovery.value.ids && w'.pending == map[]
            && forall id :: id in w'.live ==>
                 Restored(world.w.saved, world.recovery.value, id, world.recovery.value.heard[id], w'.objs[w'.live[id]])
  {
    hide Inv, Rebuilt, Restored;
    RebuiltHas(world, names, next);
    var r := world.recovery.value;
    forall id | id in names ensures Restored(world.w.saved, r, id, r.heard[id], r.done[id]) {
      DoneIsResolved(cfg, world, id);
      ResolvedIsRestored(world.w.saved, r, id, r.heard[id]);
    }
  }

  lemma DoneIsResolved(cfg: Config, world: World, id: Id)
    requires Inv(cfg, world, Free) && world.recovery.Some? && id in world.recovery.value.done
    ensures var r := world.recovery.value; id in r.heard && r.done[id] == Rebuilt(Loaded(world.w.saved), id, Unix(r.readWall), r.heard[id])
    ensures id in world.w.saved ==> world.w.saved[id].id == id
  {
    hide TokensOk, AdmitsOk, AttachedOk, SessionsOk, DeadlinesOk, EndingsOk, Rebuilt, Timed, CallsOk;
  }

  /** In step `k` of the restart the signer was asked about this grant; the hearing is what it and the process table said then. */
  predicate HeardAt(cfg: Config, begun: World, during: seq<Step>, id: Id, h: Hearing, k: nat)
    requires ValidRun(cfg, begun, during)
  {
    && k < |during| && during[k].RecoverOne? && during[k].id == id
    && var world := At(cfg, begun, during, k);
    && h.at == world.mono && h.procs == world.procs
    && h.answer == if during[k].reachable then AnswerOf(RowOf(world.sg, id), None) else Unavailable
  }

  lemma HeardStep(cfg: Config, world: World, step: Step)
    requires Inv(cfg, world, Free) && Enabled(cfg, world, step) && world.recovery.Some? && !step.Crash? && !step.CommitRecovery?
    ensures var world' := Next(cfg, world, step);
            && world'.recovery.Some?
            && world'.recovery.value.heard ==
               if step.RecoverOne? then
                 world.recovery.value.heard[step.id := Hearing(if step.reachable then AnswerOf(RowOf(world.sg, step.id), None) else Unavailable,
                                                               world.mono, world.procs)]
               else world.recovery.value.heard
  {
    hide Inv, Sane, S.Next, RecoveryReady, Rebuilt, ParseKeyId, AnswerOf, RowOf;
    NothingRuns(cfg, world);
  }

  lemma HeardEarlier(cfg: Config, begun: World, during: seq<Step>, n: nat, id: Id, h: Hearing, k: nat)
    requires ValidRun(cfg, begun, during) && n <= |during| && ValidRun(cfg, begun, during[..n]) && HeardAt(cfg, begun, during[..n], id, h, k)
    ensures HeardAt(cfg, begun, during, id, h, k)
  {
    hide Enabled, Next, ValidRun, After, At;
    AtEarlier(cfg, begun, during, n, k);
  }

  lemma HeardNow(cfg: Config, begun: World, during: seq<Step>, id: Id, h: Hearing)
    requires ValidRun(cfg, begun, during) && during != [] && during[|during| - 1].RecoverOne? && during[|during| - 1].id == id
    requires var step, world := during[|during| - 1], At(cfg, begun, during, |during| - 1);
             h == Hearing(if step.reachable then AnswerOf(RowOf(world.sg, id), None) else Unavailable, world.mono, world.procs)
    ensures HeardAt(cfg, begun, during, id, h, |during| - 1)
  {
    hide Enabled, Next, ValidRun, After, At;
  }

  /** Whatever the restart has heard, it was told at one of its steps. */
  lemma {:induction false} AllWasHeard(cfg: Config, begun: World, during: seq<Step>)
    requires Inv(cfg, begun, Free) && begun.recovery.Some? && begun.recovery.value.heard == map[]
    requires ValidRun(cfg, begun, during) && StillRecovering(during)
    ensures var r := After(cfg, begun, during).recovery;
            r.Some? && forall id :: id in r.value.heard ==> exists k :: HeardAt(cfg, begun, during, id, r.value.heard[id], k)
    decreases |during|
  {
    hide Inv, Enabled, Next, At, AnswerOf, RowOf, HeardAt;
    if during != [] {
      var n := |during| - 1;
      Last(cfg, begun, during);
      AtEarlier(cfg, begun, during, n, n);
      AtEnd(cfg, begun, during[..n]);
      var world, step := After(cfg, begun, during[..n]), during[n];
      assert StillRecovering(during[..n]);
      AllWasHeard(cfg, begun, during[..n]);
      RecoveringRun(cfg, begun, during[..n]);
      HeardStep(cfg, world, step);
      var heard, before := After(cfg, begun, during).recovery.value.heard, world.recovery.value.heard;
      forall id | id in heard ensures exists k :: HeardAt(cfg, begun, during, id, heard[id], k) {
        if step.RecoverOne? && step.id == id {
          HeardNow(cfg, begun, during, id, heard[id]);
        } else {
          var k :| HeardAt(cfg, begun, during[..n], id, before[id], k);
          HeardEarlier(cfg, begun, during, n, id, before[id], k);
        }
      }
    }
  }

  /**
   * From any crash point: a restart that completes without another crash accounts for every valid
   * id in the state file and every grant slice that was on the machine, no others; each stands as
   * decided by what the signer's database and the process table held, or by the signer's silence,
   * at a step of that restart; and nothing was admitted or attached meanwhile.
   */
  lemma RestartAccountsForAll(cfg: Config, wall: int, mono: int, before: seq<Step>, during: seq<Step>, names: map<Id, nat>, next: nat)
    requires ValidRun(cfg, Init(wall, mono), before)
    requires var world := After(cfg, Init(wall, mono), before);
             && Enabled(cfg, world, BeginRecovery)
             && ValidRun(cfg, Next(cfg, world, BeginRecovery), during) && StillRecovering(during)
             && Enabled(cfg, After(cfg, Next(cfg, world, BeginRecovery), during), CommitRecovery(names, next))
    ensures var world := After(cfg, Init(wall, mono), before);
            var end := After(cfg, Next(cfg, world, BeginRecovery), during);
            var world' := Next(cfg, end, CommitRecovery(names, next));
            && WellFormed(world'.w) && world'.w.ready && world'.w.pending == map[]
            && world'.admits == world.admits && world'.attached == world.attached
            && world'.w.live.Keys == Loaded(world.w.saved).Keys + Discovered(cfg, world.children)
            && (forall id :: id in world'.w.live <==>
                  ValidGrantId(id) && (id in world.w.saved || UnitNames.SliceUnit(cfg.slice, id) in world.children))
            && end.recovery.Some?
            && end.recovery.value.readWall == world.wall
            && forall id :: id in world'.w.live ==>
                 && id in end.recovery.value.heard
                 && var h := end.recovery.value.heard[id];
                 && Restored(world.w.saved, end.recovery.value, id, h, world'.w.objs[world'.w.live[id]])
                 && exists k :: HeardAt(cfg, Next(cfg, world, BeginRecovery), during, id, h, k)
  {
    hide Inv, Restored, Discovered, Init, HeardAt, RecoveryCommitted, Next, Enabled, RecoveryReady;
    FreeRun(cfg, wall, mono, before);
    var world := After(cfg, Init(wall, mono), before);
    StepKeepsInv(cfg, world, BeginRecovery, Free);
    BeginStep(cfg, world);
    var begun := Next(cfg, world, BeginRecovery);
    RecoveringRun(cfg, begun, during);
    AllWasHeard(cfg, begun, during);
    var end := After(cfg, begun, during);
    CommitStep(cfg, end, names, next);
    Committed(cfg, end, names, next);
    IdsToAccountFor(cfg, world.w.saved, world.children);
  }

  lemma IdsToAccountFor(cfg: Config, saved: map<Id, Grant>, children: set<bytes>)
    ensures forall id :: id in Loaded(saved).Keys + Discovered(cfg, children) <==>
      ValidGrantId(id) && (id in saved || UnitNames.SliceUnit(cfg.slice, id) in children)
  {
    hide Discovered, ValidGrantId, UnitNames.SliceUnit;
    forall id ensures id in Discovered(cfg, children) <==> ValidGrantId(id) && UnitNames.SliceUnit(cfg.slice, id) in children {
      DiscoveredExactly(cfg, children, id);
    }
  }

  lemma BeginStep(cfg: Config, world: World)
    requires Enabled(cfg, world, BeginRecovery)
    ensures Next(cfg, world, BeginRecovery) == RecoveryBegun(cfg, world)
  {
  }

  lemma CommitStep(cfg: Config, world: World, names: map<Id, nat>, next: nat)
    requires Enabled(cfg, world, CommitRecovery(names, next))
    ensures RecoveryReady(world, names, next) && Next(cfg, world, CommitRecovery(names, next)) == RecoveryCommitted(world, names, next)
  {
    hide RecoveryReady, RecoveryCommitted, Sane;
  }

  /** The discovered grants are exactly those whose slice is there. */
  lemma DiscoveredExactly(cfg: Config, children: set<bytes>, id: Id)
    ensures id in Discovered(cfg, children) <==> ValidGrantId(id) && UnitNames.SliceUnit(cfg.slice, id) in children
  {
    hide UnitNames.GrantOfName, UnitNames.SliceUnit;
    forall name | name in children
      ensures UnitNames.GrantOfName(cfg.slice, name) == Some(id) <==> ValidGrantId(id) && name == UnitNames.SliceUnit(cfg.slice, id)
    {
      UnitNames.NamesReadBack(cfg.slice, name, id);
    }
  }
}
