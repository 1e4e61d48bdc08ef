/** When a grant that is closing can be open again: exactly when it was closed unasked and the signer still confirms it. */
module Reopening {
  import opened Bytes
  import opened Ids
  import opened WardenState
  import opened Protocol
  import opened Runs
  import opened HostInvariant
  import opened HostSteps
  import opened HostTheorems
  import opened Origins
  import S = Redemption
  import Single = SingleUse
  import Store
  import UnitNames

  /** The signer would confirm the grant now: it has it, unrevoked and unexpired. */
  predicate Confirmed(s: S.State, now: int, id: Id) {
    id in s.db.grants && s.db.grants[id].revokedAt.None? && s.db.grants[id].expiresAt > now
  }

  predicate IsOpen(world: World, id: Id) {
    exists o :: o in world.w.objs && world.w.objs[o].id == id && world.w.objs[o].state.Open?
  }

  /** A continuation with clocks in step and prompt commits after which the grant is open. */
  ghost predicate OpensIt(cfg: Config, world: World, steps: seq<Step>, id: Id) {
    ValidRun(cfg, world, steps) && AllowedRun(cfg, Prompt, world, steps) && IsOpen(After(cfg, world, steps), id)
  }

  // ---- It cannot: the closed object refuses for as long as any answer is fresh, and new answers refuse themselves

  /** The same state with the id also counted as ended. */
  function Shut(world: World, id: Id): World {
    world.(ended := world.ended + {id})
  }

  lemma ShutSane(world: World, id: Id)
    requires Sane(world)
    ensures Sane(Shut(world, id))
  {
    forall c | c in world.calls ensures CallSane(Shut(world, id), world.calls[c]) {
      assert CallSane(world, world.calls[c]);
    }
  }

  lemma ShutEnabled(cfg: Config, world: World, step: Step, id: Id)
    requires Enabled(cfg, world, step) && Met(world, id)
    ensures Enabled(cfg, Shut(world, id), step)
  {
    hide Sane, ParseKeyId, ValidGrantId, LastEmpty;
    ShutSane(world, id);
  }

  lemma ShutAdmit(world: World, c: nat, sshd: Proc, user: bytes, keyId: bytes, serial: int, id: Id)
    ensures ParseKeyId(keyId).Some? ==>
      AdmitStarted(Shut(world, id), c, sshd, user, keyId, serial) == Shut(AdmitStarted(world, c, sshd, user, keyId, serial), id)
    ensures c in world.calls && world.calls[c].AdmitSeen? ==> AdmitDecided(Shut(world, id), c) == Shut(AdmitDecided(world, c), id)
    ensures c in world.calls && world.calls[c].AdmitCleared? && WellFormed(world.w) ==>
      AdmitCommitted(Shut(world, id), c) == Shut(AdmitCommitted(world, c), id)
  {
    hide ParseKeyId, Admissible, Cleared, AnswerOf, RowOf, Unix, Store.SerialOf;
  }

  lemma ShutAttach(cfg: Config, world: World, c: nat, sshd: Proc, user: bytes, id: Id)
    requires sshd.pid in world.w.pending && sshd.pid in world.pendingFrom && world.pendingFrom[sshd.pid] < |world.holders|
    ensures AttachStarted(cfg, Shut(world, id), c, sshd, user) == Shut(AttachStarted(cfg, world, c, sshd, user), id)
  {
  }

  lemma ShutReads(world: World, c: nat, id: Id)
    requires c in world.calls
    ensures world.calls[c].AttachAsk? ==> AttachRead(Shut(world, id), c) == Shut(AttachRead(world, c), id)
    ensures world.calls[c].AttachSeen? ==> AttachDecided(Shut(world, id), c) == Shut(AttachDecided(world, c), id)
    ensures world.calls[c].AttachCleared? ==> Stamped(Shut(world, id), c) == Shut(Stamped(world, c), id)
  {
    hide Cleared, AnswerOf, RowOf, Unix;
  }

  lemma ShutBind(world: World, c: nat, id: Id)
    ensures c in world.calls && world.calls[c].AttachStamped? && WellFormed(world.w) && world.next !in world.w.objs ==>
      BindCommitted(Shut(world, id), c) == Shut(BindCommitted(world, c), id)
    ensures c in world.calls && world.calls[c].AttachBound? && WellFormed(world.w) && world.calls[c].o in world.w.objs
            && world.calls[c].admit < |world.holders| ==>
      SessionCommitted(Shut(world, id), c) == Shut(SessionCommitted(world, c), id)
  {
    hide Bind, Admissible, Unix, SessionAdded, Bound;
  }

  lemma ShutSwept(world: World, w: W<nat>, c: nat, id: Id)
    requires WellFormed(world.w) && WellFormed(w)
    ensures Swept(Shut(world, id), w, c) == Shut(Swept(world, w, c), id)
  {
    hide NewlyClosing;
    assert world.ended + {id} + NewlyClosing(world.w, w) == world.ended + NewlyClosing(world.w, w) + {id};
  }

  lemma ShutSweeps(world: World, c: nat, reachable: bool, id: Id)
    requires WellFormed(world.w) && c in world.calls
    ensures world.calls[c].PollSeen? ==> PollCommitted(Shut(world, id), c, reachable) == Shut(PollCommitted(world, c, reachable), id)
    ensures world.calls[c].Enforcing? ==> DeadlinesCommitted(Shut(world, id), c) == Shut(DeadlinesCommitted(world, c), id)
  {
    hide Swept, Polled, Enforced, AnswerOf, Unix;
    var call := world.calls[c];
    if call.PollSeen? {
      var answer := if reachable then AnswerOf(call.row, None) else Unavailable;
      ShutSwept(world, Polled(world.w, call.id, answer, Unix(world.wall), world.mono), c, id);
    } else if call.Enforcing? {
      ShutSwept(world, Enforced(world.w, call.now, call.mono), c, id);
    }
  }

  lemma ShutRecovery(cfg: Config, world: World, i: Id, reachable: bool, id: Id)
    ensures RecoveryBegun(cfg, Shut(world, id)) == Shut(RecoveryBegun(cfg, world), id) && Crashed(Shut(world, id)) == Shut(Crashed(world), id)
    ensures world.recovery.Some? ==> RecoveredOne(Shut(world, id), i, reachable) == Shut(RecoveredOne(world, i, reachable), id)
  {
    hide Discovered, Loaded, Rebuilt, AnswerOf, RowOf, Unix;
  }

  lemma ShutRestart(world: World, names: map<Id, nat>, next: nat, id: Id)
    requires RecoveryReady(world, names, next)
    ensures RecoveryReady(Shut(world, id), names, next)
    ensures RecoveryCommitted(Shut(world, id), names, next) == Shut(RecoveryCommitted(world, names, next), id)
  {
    hide Saved;
    var more := set i | i in names && ForGood(world.recovery.value.done[i]);
    assert world.ended + {id} + more == world.ended + more + {id};
  }

  lemma ShutAdmitStep(cfg: Config, world: World, step: Step, id: Id)
    requires Enabled(cfg, world, step) && Enabled(cfg, Shut(world, id), step) && (step.Admit? || step.DecideAdmit? || step.CommitAdmit?)
    ensures Next(cfg, Shut(world, id), step) == Shut(Next(cfg, world, step), id)
  {
    hide AdmitStarted, AdmitDecided, AdmitCommitted, ParseKeyId, RecoveryReady;
    match step
    case Admit(c, _, sshd, user, keyId, serial) => ShutAdmit(world, c, sshd, user, keyId, serial, id);
    case DecideAdmit(c) => ShutAdmit(world, c, Proc(0, 0), [], [], 0, id);
    case CommitAdmit(c) => ShutAdmit(world, c, Proc(0, 0), [], [], 0, id);
  }

  lemma ShutAttachStep(cfg: Config, world: World, step: Step, id: Id)
    requires Enabled(cfg, world, step) && Enabled(cfg, Shut(world, id), step)
    requires step.Attach? || step.ReadAttach? || step.DecideAttach? || step.Stamp?
    ensures Next(cfg, Shut(world, id), step) == Shut(Next(cfg, world, step), id)
  {
    hide AttachRead, AttachDecided, Stamped, AttachStarted, RecoveryReady;
    match step
    case Attach(c, sshd, user) => ShutAttach(cfg, world, c, sshd, user, id);
    case ReadAttach(c) => ShutReads(world, c, id);
    case DecideAttach(c) => ShutReads(world, c, id);
    case Stamp(c) => ShutReads(world, c, id);
  }

  lemma ShutBindStep(cfg: Config, world: World, step: Step, id: Id)
    requires Enabled(cfg, world, step) && Enabled(cfg, Shut(world, id), step) && (step.CommitBind? || step.CommitSession?)
    ensures Next(cfg, Shut(world, id), step) == Shut(Next(cfg, world, step), id)
  {
    hide BindCommitted, SessionCommitted, RecoveryReady;
    match step
    case CommitBind(c) => ShutBind(world, c, id);
    case CommitSession(c) => ShutBind(world, c, id);
  }

  lemma ShutSweepStep(cfg: Config, world: World, step: Step, id: Id)
    requires Enabled(cfg, world, step) && Enabled(cfg, Shut(world, id), step) && (step.CommitPoll? || step.CommitDeadlines?)
    ensures Next(cfg, Shut(world, id), step) == Shut(Next(cfg, world, step), id)
  {
    hide PollCommitted, DeadlinesCommitted, RecoveryReady;
    match step
    case CommitPoll(c, reachable) => ShutSweeps(world, c, reachable, id);
    case CommitDeadlines(c) => ShutSweeps(world, c, true, id);
  }

  predicate Restarts(step: Step) {
    step.Crash? || step.BeginRecovery? || step.RecoverOne?
  }

  lemma ShutCommitStep(cfg: Config, world: World, step: Step, id: Id)
    requires Enabled(cfg, world, step) && Enabled(cfg, Shut(world, id), step) && step.CommitRecovery?
    ensures Next(cfg, Shut(world, id), step) == Shut(Next(cfg, world, step), id)
  {
    hide RecoveryCommitted, RecoveryReady, Sane, Shut;
    ShutRestart(world, step.names, step.next, id);
  }

  lemma ShutRestartStep(cfg: Config, world: World, step: Step, id: Id)
    requires Enabled(cfg, world, step) && Enabled(cfg, Shut(world, id), step) && Restarts(step)
    ensures Next(cfg, Shut(world, id), step) == Shut(Next(cfg, world, step), id)
  {
    hide Crashed, RecoveryBegun, RecoveredOne, RecoveryCommitted, RecoveryReady, Sane, Shut;
    match step
    case Crash => ShutRecovery(cfg, world, [], true, id);
    case BeginRecovery => ShutRecovery(cfg, world, [], true, id);
    case RecoverOne(i, reachable) => ShutRecovery(cfg, world, i, reachable, id);
  }

  lemma ShutOtherStep(cfg: Config, world: World, step: Step, id: Id)
    requires Enabled(cfg, world, step) && Enabled(cfg, Shut(world, id), step)
    requires !IsHook(step) && !Restarts(step) && !step.CommitPoll? && !step.CommitDeadlines? && !step.CommitRecovery?
    ensures Next(cfg, Shut(world, id), step) == Shut(Next(cfg, world, step), id)
  {
    hide RecoveryReady, Finalized, Forgotten, PendingExpired, SessionsPruned, Replaced, S.Next, S.Enabled, RowOf, LastEmpty, Sane;
  }

  lemma ShutStep(cfg: Config, world: World, step: Step, id: Id)
    requires Enabled(cfg, world, step) && Enabled(cfg, Shut(world, id), step)
    ensures Next(cfg, Shut(world, id), step) == Shut(Next(cfg, world, step), id)
  {
    hide Enabled, Next, Shut;
    if step.Admit? || step.DecideAdmit? || step.CommitAdmit? {
      ShutAdmitStep(cfg, world, step, id);
    } else if step.Attach? || step.ReadAttach? || step.DecideAttach? || step.Stamp? {
      ShutAttachStep(cfg, world, step, id);
    } else if step.CommitBind? || step.CommitSession? {
      ShutBindStep(cfg, world, step, id);
    } else if step.CommitPoll? || step.CommitDeadlines? {
      ShutSweepStep(cfg, world, step, id);
    } else if step.CommitRecovery? {
      ShutCommitStep(cfg, world, step, id);
    } else if Restarts(step) {
      ShutRestartStep(cfg, world, step, id);
    } else {
      ShutOtherStep(cfg, world, step, id);
    }
  }

  /** Counting a known id as ended changes nothing else, now or later. */
  lemma {:induction false} ShutRun(cfg: Config, world: World, steps: seq<Step>, id: Id)
    requires Inv(cfg, world, Free) && ValidRun(cfg, world, steps) && AllowedRun(cfg, Prompt, world, steps) && Met(world, id)
    ensures ValidRun(cfg, Shut(world, id), steps) && AllowedRun(cfg, Prompt, Shut(world, id), steps)
    ensures After(cfg, Shut(world, id), steps) == Shut(After(cfg, world, steps), id)
    decreases steps
  {
    hide Inv, Enabled, Next, Met, Shut, Allowed;
    if steps != [] {
      ShutEnabled(cfg, world, steps[0], id);
      ShutStep(cfg, world, steps[0], id);
      ShutAllowed(world, steps[0], id);
      MetStays(cfg, world, steps[0], id);
      FreeAllows(world, steps[0]);
      StepKeepsInv(cfg, world, steps[0], Free);
      ShutRun(cfg, Next(cfg, world, steps[0]), steps[1..], id);
    }
  }

  lemma ShutAllowed(world: World, step: Step, id: Id)
    requires Allowed(Prompt, world, step)
    ensures Allowed(Prompt, Shut(world, id), step)
  {
  }

  lemma FreeAllows(world: World, step: Step)
    ensures Allowed(Free, world, step)
  {
  }

  lemma MetStays(cfg: Config, world: World, step: Step, id: Id)
    requires Inv(cfg, world, Free) && Enabled(cfg, world, step) && Met(world, id)
    ensures Met(Next(cfg, world, step), id)
  {
    hide Inv, ValidGrantId, Sane, S.Next;
    assert step.Signer? ==> world.sg.ever.Keys <= S.Next(cfg.env, world.sg, step.step).ever.Keys by {
      if step.Signer? {
        InvParts(cfg, world, Free);
        SignerEvolves(cfg.env, world.sg, step.step);
      }
    }
    SignerOrNot(cfg, world, step);
  }

  /** Only the signer's own steps add grants; what a restart has met stays met. */
  predicate Remembers(world: World, step: Step, world': World) {
    world.met <= world'.met && (!step.Signer? ==> world'.sg.ever == world.sg.ever)
  }

  lemma HookRemembers(cfg: Config, world: World, step: Step)
    requires Enabled(cfg, world, step) && IsHook(step)
    ensures Remembers(world, step, Next(cfg, world, step))
  {
    hide AdmitStarted, AdmitDecided, AttachRead, AttachDecided, Stamped, AdmitCommitted, AttachStarted, BindCommitted, SessionCommitted;
    hide ParseKeyId, RecoveryReady, Sane;
  }

  lemma OtherRemembers(cfg: Config, world: World, step: Step)
    requires Enabled(cfg, world, step) && !IsHook(step)
    ensures Remembers(world, step, Next(cfg, world, step))
  {
    hide Sane, Enforced, Polled, NewlyClosing, Snapshot, S.Next, Saved, Discovered, Rebuilt, RowOf, AnswerOf, Unix, RecoveryReady, RecoveryCommitted;
  }

  lemma SignerOrNot(cfg: Config, world: World, step: Step)
    requires Enabled(cfg, world, step)
    ensures Remembers(world, step, Next(cfg, world, step))
  {
    hide Enabled, Next, Remembers;
    if IsHook(step) {
      HookRemembers(cfg, world, step);
    } else {
      OtherRemembers(cfg, world, step);
    }
  }

  /** The object its grant's id leads to is not open, and no call in flight has an answer it could still act on. */
  predicate Settled(world: World, o: nat) {
    && IsLive(world.w, o) && !world.w.objs[o].state.Open?
    && forall c :: c in world.calls ==> CallSettled(world, world.w.objs[o].id, world.calls[c])
  }

  predicate CallSettled(world: World, id: Id, call: Call) {
    call.AdmitSeen? || call.AdmitCleared? || call.AttachSeen? || call.AttachCleared? || call.AttachStamped? ==>
      call.a.grant == id ==> Stale(world, id, call.at)
  }

  /** While a grant is closing every answer in flight will be too old by the time its object is out of the way. */
  lemma ClosingIsSettled(cfg: Config, world: World, o: nat, mode: Mode)
    requires Inv(cfg, world, mode) && o in world.w.objs && world.w.objs[o].state.Closing?
    ensures Settled(world, o)
  {
    hide Inv, EndingsOk, DeadlinesOk, StaysShut, Anchored;
    ObjectFacts(cfg, world, mode);
    assert IsLive(world.w, o);
    assert forall at :: Stale(world, world.w.objs[o].id, at);
  }

  /** A settled object whose grant is gone may be counted as ended. */
  lemma ShutInv(cfg: Config, world: World, o: nat)
    requires Inv(cfg, world, Prompt) && Settled(world, o) && Gone(world.sg, Unix(world.wall), world.w.objs[o].id)
    requires forall p :: p in world.w.objs && world.w.objs[p].id == world.w.objs[o].id ==> !world.w.objs[p].state.Open?
    requires world.recovery.None?
    ensures Inv(cfg, Shut(world, world.w.objs[o].id), Prompt)
  {
    hide Single.Inv, TokensOk, AdmitsOk, AttachedOk, SessionsOk, DeadlinesOk, RecoveryOk, Gone, Unix, CallOk, Anchored, CallSettled;
    var id := world.w.objs[o].id;
    var world' := Shut(world, id);
    forall c | c in world.calls ensures CallOk(world', c, world.calls[c], Prompt) {
      ShutCall(world, id, c, world.calls[c]);
    }
  }

  /** A live object that is not open speaks for its id, and only a ready warden has objects. */
  lemma SettledAlone(cfg: Config, world: World, o: nat)
    requires Inv(cfg, world, Prompt) && Settled(world, o)
    ensures forall p :: p in world.w.objs && world.w.objs[p].id == world.w.objs[o].id ==> !world.w.objs[p].state.Open?
    ensures world.recovery.None?
  {
    hide Single.Inv, TokensOk, AdmitsOk, AttachedOk, SessionsOk, DeadlinesOk, RecoveryOk, CallsOk, EndingsOk, CallSettled, PromptOk, ClocksOk;
  }

  lemma ShutCall(world: World, id: Id, c: nat, call: Call)
    requires CallOk(world, c, call, Prompt) && CallSettled(world, id, call)
    ensures CallOk(Shut(world, id), c, call, Prompt)
  {
    hide Fit, RowOk, Names, Unix, Store.SerialOf;
    var world' := Shut(world, id);
    assert forall i, at :: Stale(world, i, at) == Stale(world', i, at);
  }

  lemma NeverOpens(cfg: Config, world: World, o: nat, steps: seq<Step>)
    requires Inv(cfg, world, Prompt) && Inv(cfg, world, Free) && Sourced(world)
    requires Settled(world, o) && Gone(world.sg, Unix(world.wall), world.w.objs[o].id)
    requires ValidRun(cfg, world, steps) && AllowedRun(cfg, Prompt, world, steps)
    ensures !IsOpen(After(cfg, world, steps), world.w.objs[o].id)
  {
    hide Inv, Enabled, Next, Allowed, Gone, Unix, LookedOk, CallSettled;
    var id := world.w.objs[o].id;
    SettledAlone(cfg, world, o);
    ShutInv(cfg, world, o);
    ShutRun(cfg, world, steps, id);
    RunKeepsInv(cfg, Shut(world, id), steps, Prompt);
    ShutIn(cfg, After(cfg, Shut(world, id), steps), id);
  }

  // ---- It can: a restart asks the signer afresh

  /** Different numbers for all the ids, from `from` on. */
  lemma Naming(ids: set<Id>, from: nat) returns (names: map<Id, nat>, next: nat)
    ensures names.Keys == ids && Distinct(names) && from <= next && forall id :: id in names ==> from <= names[id] < next
    decreases |ids|
  {
    if ids == {} {
      names, next := map[], from;
    } else {
      var id :| id in ids;
      names, next := Naming(ids - {id}, from);
      names, next := names[id := next], next + 1;
    }
  }

  /** Asking the signer about every id that has not had its turn. */
  lemma RecoverRest(cfg: Config, world: World) returns (steps: seq<Step>)
    requires Inv(cfg, world, Prompt) && world.recovery.Some?
    ensures ValidRun(cfg, world, steps) && AllowedRun(cfg, Prompt, world, steps)
    ensures var world' := After(cfg, world, steps);
            && Inv(cfg, world', Prompt) && world'.recovery.Some? && world' == world.(recovery := world'.recovery)
            && world'.recovery.value.ids == world.recovery.value.ids <= world'.recovery.value.done.Keys
            && forall id :: id in world.recovery.value.done ==>
                 id in world'.recovery.value.done && world'.recovery.value.done[id] == world.recovery.value.done[id]
    decreases |world.recovery.value.ids - world.recovery.value.done.Keys|
  {
    hide Inv, Enabled, Next, Allowed, RecoveredOne;
    var r := world.recovery.value;
    var left := r.ids - r.done.Keys;
    if left == {} {
      steps := [];
      assert forall id :: id in r.ids ==> id !in left;
    } else {
      var id :| id in left;
      var step := RecoverOne(id, true);
      RecoverStep(cfg, world, id, true);
      var world' := Next(cfg, world, step);
      assert world'.recovery.value.ids - world'.recovery.value.done.Keys == left - {id};
      var rest := RecoverRest(cfg, world');
      steps := [step] + rest;
      assert steps[1..] == rest;
    }
  }

  lemma RecoverStep(cfg: Config, world: World, id: Id, reachable: bool)
    requires Inv(cfg, world, Prompt) && world.recovery.Some? && id in world.recovery.value.ids && id !in world.recovery.value.done
    ensures Enabled(cfg, world, RecoverOne(id, reachable)) && Allowed(Prompt, world, RecoverOne(id, reachable))
    ensures var world' := Next(cfg, world, RecoverOne(id, reachable));
            && Inv(cfg, world', Prompt) && world' == RecoveredOne(world, id, reachable) && world' == world.(recovery := world'.recovery)
            && world'.recovery.Some? && world'.recovery.value.ids == world.recovery.value.ids
            && id in world'.recovery.value.done
            && world'.recovery.value.done == world.recovery.value.done[id := world'.recovery.value.done[id]]
  {
    hide Inv, Sane, Rebuilt;
    InvIsSane(cfg, world, Prompt);
    StepKeepsInv(cfg, world, RecoverOne(id, reachable), Prompt);
  }

  /** The machine is off and on again, and the grant's slice is there: the restart will ask about the grant. */
  function Restarted(cfg: Config, world: World, id: Id): World {
    RecoveryBegun(cfg, Crashed(world).(children := {UnitNames.SliceUnit(cfg.slice, id)}))
  }

  lemma RestartBegins(cfg: Config, world: World, id: Id)
    requires Inv(cfg, world, Prompt) && ValidGrantId(id)
    ensures var steps := [Crash] + [Outside(world.procs, {UnitNames.SliceUnit(cfg.slice, id)})] + [BeginRecovery];
            ValidRun(cfg, world, steps) && AllowedRun(cfg, Prompt, world, steps) && After(cfg, world, steps) == Restarted(cfg, world, id)
    ensures var world' := Restarted(cfg, world, id);
            && Inv(cfg, world', Prompt) && world'.recovery.Some? && id in world'.recovery.value.ids && world'.recovery.value.done == map[]
            && world'.recovery.value.readWall == world.wall && world'.sg == world.sg && world'.wall == world.wall && world'.mono == world.mono
            && world'.calls == map[]
  {
    hide Inv, Sane, UnitNames.SliceUnit, ValidGrantId, Crashed, Discovered, Loaded;
    var outside := Outside(world.procs, {UnitNames.SliceUnit(cfg.slice, id)});
    InvIsSane(cfg, world, Prompt);
    StepKeepsInv(cfg, world, Crash, Prompt);
    var w1 := Next(cfg, world, Crash);
    CrashLeaves(world);
    StepKeepsInv(cfg, w1, outside, Prompt);
    var w2 := Next(cfg, w1, outside);
    StepKeepsInv(cfg, w2, BeginRecovery, Prompt);
    var w3 := Next(cfg, w2, BeginRecovery);
    SliceDiscovered(cfg, id);
    Prepended(cfg, Prompt, w2, BeginRecovery, []);
    Prepended(cfg, Prompt, w1, outside, [BeginRecovery]);
    Prepended(cfg, Prompt, world, Crash, [outside] + [BeginRecovery]);
    assert [BeginRecovery] + [] == [BeginRecovery];
    assert [Crash] + ([outside] + [BeginRecovery]) == [Crash] + [outside] + [BeginRecovery];
  }

  lemma CrashLeaves(world: World)
    ensures var w := Crashed(world);
            && !w.w.ready && w.recovery.None? && w.sg == world.sg && w.wall == world.wall && w.mono == world.mono && w.procs == world.procs
            && w.calls == map[]
  {
  }

  lemma SliceDiscovered(cfg: Config, id: Id)
    requires ValidGrantId(id)
    ensures id in Discovered(cfg, {UnitNames.SliceUnit(cfg.slice, id)})
  {
    hide UnitNames.GrantOfName, UnitNames.SliceUnit;
    var name := UnitNames.SliceUnit(cfg.slice, id);
    UnitNames.NamesReadBack(cfg.slice, name, id);
    assert name in {name};
  }

  lemma RestartEnds(cfg: Config, world: World, id: Id) returns (step: Step, o: nat)
    requires Inv(cfg, world, Prompt) && world.recovery.Some? && world.recovery.value.ids <= world.recovery.value.done.Keys
    requires id in world.recovery.value.done
    ensures Enabled(cfg, world, step) && Allowed(Prompt, world, step)
    ensures var world' := Next(cfg, world, step);
            && o in world'.w.objs && world'.w.objs[o] == world.recovery.value.done[id] && world'.w.ready
            && world'.sg == world.sg && world'.wall == world.wall && world'.mono == world.mono && world'.calls == world.calls
  {
    hide Inv, Sane, RecoveryCommitted;
    InvIsSane(cfg, world, Prompt);
    DoneFacts(cfg, world);
    var names, next := Naming(world.recovery.value.ids, world.next);
    step, o := CommitRecovery(names, next), names[id];
    assert RecoveryReady(world, names, next);
    RebuiltHas(world, names, next);
  }

  lemma DoneFacts(cfg: Config, world: World)
    requires Inv(cfg, world, Prompt) && world.recovery.Some?
    ensures var r := world.recovery.value;
            r.done.Keys <= r.ids && r.heard.Keys == r.done.Keys && forall id :: id in r.done ==> r.done[id].id == id
  {
    hide Single.Inv, ObjectsOk, TokensOk, AdmitsOk, AttachedOk, SessionsOk, DeadlinesOk, EndingsOk, CallsOk, PromptOk, ClocksOk, Rebuilt, Timed;
  }

  /** What the signer's answer, or its silence, makes of the grant. */
  function Outcome(world: World, id: Id, reachable: bool): Grant {
    Rebuilt(Loaded(world.w.saved), id, Unix(world.wall),
            Hearing(if reachable then AnswerOf(RowOf(world.sg, id), None) else Unavailable, world.mono, world.procs))
  }

  /** A crash and a restart, at once and with nothing else going on, that asks about this grant. */
  lemma RestartAt(cfg: Config, world: World, id: Id, reachable: bool) returns (steps: seq<Step>, o: nat)
    requires Inv(cfg, world, Prompt) && ValidGrantId(id)
    ensures ValidRun(cfg, world, steps) && AllowedRun(cfg, Prompt, world, steps)
    ensures var world' := After(cfg, world, steps);
            && o in world'.w.objs && world'.w.objs[o] == Outcome(world, id, reachable) && world'.w.ready && world'.calls == map[]
            && world'.sg == world.sg && world'.wall == world.wall && world'.mono == world.mono
  {
    hide Inv, Enabled, Next, Allowed, ValidGrantId, Restarted, Unix, RecoveredOne, Outcome;
    RestartBegins(cfg, world, id);
    var first := [Crash] + [Outside(world.procs, {UnitNames.SliceUnit(cfg.slice, id)})] + [BeginRecovery];
    var w1 := After(cfg, world, first);
    RecoverStep(cfg, w1, id, reachable);
    var w2 := Next(cfg, w1, RecoverOne(id, reachable));
    assert w2.recovery.value.done[id] == Outcome(world, id, reachable) by { OneOutcome(cfg, world, id, reachable); }
    var rest := RecoverRest(cfg, w2);
    var w3 := After(cfg, w2, rest);
    var last, p := RestartEnds(cfg, w3, id);
    var third := [RecoverOne(id, reachable)] + rest;
    Prepended(cfg, Prompt, w1, RecoverOne(id, reachable), rest);
    Prepended(cfg, Prompt, w3, last, []);
    assert [last] + [] == [last];
    JoinedAllowed(cfg, Prompt, w1, third, [last]);
    JoinedAllowed(cfg, Prompt, world, first, third + [last]);
    steps, o := first + (third + [last]), p;
  }

  lemma OneOutcome(cfg: Config, world: World, id: Id, reachable: bool)
    requires Restarted(cfg, world, id).recovery.Some?
    ensures var r := RecoveredOne(Restarted(cfg, world, id), id, reachable).recovery;
            r.Some? && id in r.value.done && r.value.done[id] == Outcome(world, id, reachable)
  {
    hide Rebuilt, Unix, AnswerOf, RowOf, Loaded, Discovered;
  }

  lemma OutcomeIs(world: World, id: Id, reachable: bool)
    requires forall i :: i in world.w.saved ==> world.w.saved[i].id == i
    ensures var g := Outcome(world, id, reachable);
            && g.id == id && (g.state.Closing? ==> !g.termSent)
            && (reachable && Confirmed(world.sg, Unix(world.wall), id) ==> g.state.Open?)
            && (!reachable ==> g.state.Closing? && g.reason == UnverifiedAfterRestart)
  {
    hide Unix, Surviving;
  }

  lemma SavedIds(cfg: Config, world: World, mode: Mode)
    requires Inv(cfg, world, mode)
    ensures forall i :: i in world.w.saved ==> world.w.saved[i].id == i
  {
    hide Inv, EndingsOk, DeadlinesOk, StaysShut, Anchored;
    ObjectFacts(cfg, world, mode);
  }

  /** A crash and a restart that reaches the signer open any grant it confirms, whatever closed it here. */
  lemma RestartReopens(cfg: Config, world: World, id: Id) returns (steps: seq<Step>)
    requires Inv(cfg, world, Prompt) && ValidGrantId(id) && Confirmed(world.sg, Unix(world.wall), id)
    ensures OpensIt(cfg, world, steps, id)
  {
    hide Inv, Enabled, Next, Allowed, ValidGrantId, Unix, Confirmed, Outcome;
    SavedIds(cfg, world, Prompt);
    OutcomeIs(world, id, true);
    var run, o := RestartAt(cfg, world, id, true);
    steps := run;
  }

  // ---- Exactly when

  lemma NotGone(s: S.State, now: int, id: Id)
    ensures Confirmed(s, now, id) <==> !Gone(s, now, id)
  {
  }

  /**
   * A settled grant can be open again in some continuation, with clocks in step and prompt commits,
   * exactly when it was closed because the signer could not be asked and the signer, now, confirms it.
   */
  lemma SettledReopensExactly(cfg: Config, wall: int, mono: int, before: seq<Step>, o: nat)
    requires ValidRun(cfg, Init(wall, mono), before) && AllowedRun(cfg, Prompt, Init(wall, mono), before)
    requires Settled(After(cfg, Init(wall, mono), before), o)
    ensures var world := After(cfg, Init(wall, mono), before);
            var g := world.w.objs[o];
            (exists steps :: OpensIt(cfg, world, steps, g.id)) <==>
            g.reason == UnverifiedAfterRestart && Confirmed(world.sg, Unix(world.wall), g.id)
  {
    hide Inv, Enabled, Next, Allowed, Init, Unix, Confirmed, Gone, IsOpen, LookedOk, CallSettled;
    var world := After(cfg, Init(wall, mono), before);
    var id := world.w.objs[o].id;
    InitialInv(cfg, wall, mono, Prompt);
    RunKeepsInv(cfg, Init(wall, mono), before, Prompt);
    FreeRun(cfg, wall, mono, before);
    SourcedRun(cfg, wall, mono, before);
    NotGone(world.sg, Unix(world.wall), id);
    if Gone(world.sg, Unix(world.wall), id) {
      forall steps ensures !OpensIt(cfg, world, steps, id) {
        if OpensIt(cfg, world, steps, id) {
          NeverOpens(cfg, world, o, steps);
        }
      }
    } else {
      assert world.w.objs[o].reason == UnverifiedAfterRestart by { EndedIsGone(cfg, world, o); }
      var steps := RestartReopens(cfg, world, id);
    }
  }

  /** The same for every grant that is closing, whatever calls are in flight. */
  lemma ReopensExactly(cfg: Config, wall: int, mono: int, before: seq<Step>, o: nat)
    requires ValidRun(cfg, Init(wall, mono), before) && AllowedRun(cfg, Prompt, Init(wall, mono), before)
    requires var w := After(cfg, Init(wall, mono), before).w; o in w.objs && w.objs[o].state.Closing?
    ensures var world := After(cfg, Init(wall, mono), before);
            var g := world.w.objs[o];
            (exists steps :: OpensIt(cfg, world, steps, g.id)) <==>
            g.reason == UnverifiedAfterRestart && Confirmed(world.sg, Unix(world.wall), g.id)
  {
    hide Inv, Enabled, Next, Allowed, Init, Unix, Confirmed, OpensIt, Settled;
    InitialInv(cfg, wall, mono, Prompt);
    RunKeepsInv(cfg, Init(wall, mono), before, Prompt);
    ClosingIsSettled(cfg, After(cfg, Init(wall, mono), before), o, Prompt);
    SettledReopensExactly(cfg, wall, mono, before, o);
  }

  lemma EndedIsGone(cfg: Config, world: World, o: nat)
    requires Inv(cfg, world, Prompt) && o in world.w.objs && !world.w.objs[o].state.Open?
    ensures world.w.objs[o].reason != UnverifiedAfterRestart ==> Gone(world.sg, Unix(world.wall), world.w.objs[o].id)
  {
    hide Inv, Gone, Unix, ObjectsOk, DeadlinesOk, Anchored;
    ObjectFacts(cfg, world, Prompt);
  }
}
