/** Runs in which a closed grant is opened again without a restart, and one in which a stale answer does it. */
module ReopenRuns {
  import opened Bytes
  import opened Ids
  import opened WardenState
  import opened Protocol
  import opened Runs
  import opened HostInvariant
  import opened HostSteps
  import opened Origins
  import opened Reopening
  import S = Redemption
  import Store

  // ---- Terminated, closed, forgotten

  /** A pass that finds no group. */
  function Absent(at: int): Look {
    Look(at, false, None, at)
  }

  /** Longer than a Closed object is kept. */
  const WAIT: int := RETENTION + 1

  function Ending(world: World, o: nat): seq<Step> {
    [Terminate(o, Absent(world.mono))] + ([Finalize(o)] + ([Clock(world.wall + WAIT, world.mono + WAIT)] + [Forget]))
  }

  predicate EndsSoon(world: World, o: nat) {
    IsLive(world.w, o) && world.w.objs[o].state.Closing? && !LastEmpty(LooksAt(world, o)) && world.w.ready
  }

  /** What is left when the object is gone from the map: everything else is as it was, a little later. */
  predicate Emptied(world: World, world': World, id: Id) {
    && id !in world'.w.live && world'.w.ready && world'.calls == world.calls && world'.ended == world.ended
    && world'.sg == world.sg.(clock := world'.sg.clock) && world'.wall == world.wall + WAIT && world'.mono == world.mono + WAIT
  }

  lemma TermStep(cfg: Config, world: World, o: nat, mode: Mode)
    requires Inv(cfg, world, mode) && EndsSoon(world, o)
    ensures var step := Terminate(o, Absent(world.mono));
            Enabled(cfg, world, step) && Allowed(mode, world, step) && Next(cfg, world, step) == Looked(world, o, Absent(world.mono))
  {
    hide Inv, Sane, Looked, LastEmpty;
    InvIsSane(cfg, world, mode);
  }

  lemma FinalStep(cfg: Config, world: World, o: nat, mode: Mode)
    requires Inv(cfg, world, mode) && WellFormed(world.w) && o in world.w.objs && world.w.objs[o].state.Closing? && LastEmpty(LooksAt(world, o))
    ensures Enabled(cfg, world, Finalize(o)) && Allowed(mode, world, Finalize(o))
    ensures Next(cfg, world, Finalize(o)) == world.(w := Finalized(world.w, o, world.mono))
  {
    hide Inv, Sane, Finalized, LastEmpty;
    InvIsSane(cfg, world, mode);
  }

  /** The object after it was looked at and finalized; nothing else has changed. */
  predicate JustClosed(world: World, world': World, o: nat)
    requires o in world.w.objs
  {
    && world' == world.(w := world'.w, looks := world'.looks) && world'.w.live == world.w.live && world'.w.ready == world.w.ready
    && o in world'.w.objs && world'.w.objs[o].id == world.w.objs[o].id && world'.w.objs[o].state.Closed?
    && world'.w.objs[o].closingSince == world.mono
  }

  lemma LookThenFinal(world: World, o: nat)
    requires EndsSoon(world, o) && WellFormed(world.w)
    ensures var w1 := Looked(world, o, Absent(world.mono));
            && WellFormed(w1.w) && o in w1.w.objs && w1.w.objs[o].state.Closing? && LastEmpty(LooksAt(w1, o))
            && JustClosed(world, w1.(w := Finalized(w1.w, o, w1.mono)), o)
  {
    hide Snapshot;
    var w1 := Looked(world, o, Absent(world.mono));
    assert LooksAt(w1, o) == LooksAt(world, o) + [Absent(world.mono)];
  }

  lemma Closes(cfg: Config, world: World, o: nat, mode: Mode)
    requires Inv(cfg, world, mode) && EndsSoon(world, o)
    ensures var step := Terminate(o, Absent(world.mono));
            && Enabled(cfg, world, step) && Allowed(mode, world, step)
            && var w1 := Next(cfg, world, step);
            && Inv(cfg, w1, mode) && Enabled(cfg, w1, Finalize(o)) && Allowed(mode, w1, Finalize(o))
            && var w2 := Next(cfg, w1, Finalize(o));
            Inv(cfg, w2, mode) && JustClosed(world, w2, o)
  {
    hide Inv, Next, Enabled, Allowed, Looked, Finalized, JustClosed, LastEmpty;
    var step := Terminate(o, Absent(world.mono));
    ObjectFacts(cfg, world, mode);
    LookThenFinal(world, o);
    TermStep(cfg, world, o, mode);
    StepKeepsInv(cfg, world, step, mode);
    var w1 := Next(cfg, world, step);
    FinalStep(cfg, w1, o, mode);
    StepKeepsInv(cfg, w1, Finalize(o), mode);
  }

  lemma Vanishes(cfg: Config, world: World, o: nat, mode: Mode)
    requires Inv(cfg, world, mode) && world.w.ready && WellFormed(world.w) && IsLive(world.w, o)
    requires world.w.objs[o].state.Closed? && world.w.objs[o].closingSince == world.mono
    ensures var step := Clock(world.wall + WAIT, world.mono + WAIT);
            && Enabled(cfg, world, step) && Allowed(mode, world, step)
            && var w1 := Next(cfg, world, step);
            && Inv(cfg, w1, mode) && Enabled(cfg, w1, Forget) && Allowed(mode, w1, Forget)
            && var w2 := Next(cfg, w1, Forget);
            && Inv(cfg, w2, mode) && Emptied(world, w2, world.w.objs[o].id)
  {
    hide Inv, Snapshot, CallSane, Unix;
    InvIsSane(cfg, world, mode);
    var step := Clock(world.wall + WAIT, world.mono + WAIT);
    StepKeepsInv(cfg, world, step, mode);
    StepKeepsInv(cfg, Next(cfg, world, step), Forget, mode);
  }

  lemma EndingRuns(cfg: Config, world: World, o: nat, mode: Mode)
    requires Inv(cfg, world, mode) && EndsSoon(world, o)
    ensures ValidRun(cfg, world, Ending(world, o)) && AllowedRun(cfg, mode, world, Ending(world, o))
    ensures var world' := After(cfg, world, Ending(world, o)); Inv(cfg, world', mode) && Emptied(world, world', world.w.objs[o].id)
  {
    hide Inv, Enabled, Next, Allowed;
    Closes(cfg, world, o, mode);
    var s1, s3 := Terminate(o, Absent(world.mono)), Clock(world.wall + WAIT, world.mono + WAIT);
    var w1 := Next(cfg, world, s1);
    var w2 := Next(cfg, w1, Finalize(o));
    ObjectFacts(cfg, w2, mode);
    assert IsLive(w2.w, o);
    Vanishes(cfg, w2, o, mode);
    var w3 := Next(cfg, w2, s3);
    Prepended(cfg, mode, w3, Forget, []);
    assert [Forget] + [] == [Forget];
    Prepended(cfg, mode, w2, s3, [Forget]);
    Prepended(cfg, mode, w1, Finalize(o), [s3] + [Forget]);
    Prepended(cfg, mode, world, s1, [Finalize(o)] + ([s3] + [Forget]));
  }

  // ---- Admitted and bound again

  /** The visitor's connection, its certificate, and the call number its hooks run under. */
  datatype Visit = Visit(c: nat, sshd: Proc, agent: bytes, serial: int)

  function KeyIdOf(id: Id, v: Visit): bytes {
    S.KeyId(id, v.agent)
  }

  /** The signer would let this visitor in: the grant is theirs to use, and the certificate is the recorded one. */
  predicate Welcome(cfg: Config, world: World, id: Id, v: Visit) {
    && ValidGrantId(id) && ValidAgentId(v.agent) && world.w.ready && cfg.pendingTTL >= 0
    && Confirmed(world.sg, Unix(world.wall), id) && world.sg.db.grants[id].redeemedAt.Some?
    && world.sg.db.grants[id].sshUser == cfg.sshUser && Store.SerialOf(world.sg.db, id) == Some(v.serial)
  }

  function Who(cfg: Config, id: Id, v: Visit): Asking {
    Asking(v.sshd, cfg.sshUser, id)
  }

  /** Nothing but the hooks' own bookkeeping has changed. */
  predicate OnlyHooks(world: World, world': World) {
    world' == world.(w := world.w.(pending := world'.w.pending), calls := world'.calls, admits := world'.admits,
                     holders := world'.holders, pendingFrom := world'.pendingFrom)
  }

  lemma AdmitStep(cfg: Config, world: World, id: Id, v: Visit, mode: Mode)
    requires Inv(cfg, world, mode) && Welcome(cfg, world, id, v) && v.c !in world.calls
    ensures var step := Admit(v.c, cfg.admitUid, v.sshd, cfg.sshUser, KeyIdOf(id, v), v.serial);
            && Enabled(cfg, world, step) && Allowed(mode, world, step)
            && var w := Next(cfg, world, step);
            && Inv(cfg, w, mode) && OnlyHooks(world, w) && v.c in w.calls
            && w.calls[v.c] == AdmitSeen(Who(cfg, id, v), KeyIdOf(id, v), v.serial, Some(world.sg.db.grants[id]), world.mono)
  {
    hide Inv, Sane, ParseKeyId, ValidGrantId, ValidAgentId, S.KeyId, Unix;
    InvIsSane(cfg, world, mode);
    ParseKeyIdExactly(KeyIdOf(id, v), id, v.agent);
    StepKeepsInv(cfg, world, Admit(v.c, cfg.admitUid, v.sshd, cfg.sshUser, KeyIdOf(id, v), v.serial), mode);
  }

  lemma DecideAdmitStep(cfg: Config, world: World, id: Id, v: Visit, mode: Mode)
    requires Inv(cfg, world, mode) && Welcome(cfg, world, id, v) && v.c in world.calls
    requires world.calls[v.c] == AdmitSeen(Who(cfg, id, v), KeyIdOf(id, v), v.serial, Some(world.sg.db.grants[id]), world.mono)
    ensures var step := DecideAdmit(v.c);
            && Enabled(cfg, world, step) && Allowed(mode, world, step)
            && var w := Next(cfg, world, step);
            && Inv(cfg, w, mode) && OnlyHooks(world, w) && v.c in w.calls
            && w.calls[v.c] == AdmitCleared(Who(cfg, id, v), KeyIdOf(id, v), v.serial, world.sg.db.grants[id], world.mono, Unix(world.wall))
  {
    hide Inv, Sane, ValidGrantId, ValidAgentId, Unix, S.KeyId;
    InvIsSane(cfg, world, mode);
    StepKeepsInv(cfg, world, DecideAdmit(v.c), mode);
  }

  lemma CommitAdmitStep(cfg: Config, world: World, id: Id, v: Visit, mode: Mode)
    requires Inv(cfg, world, mode) && WellFormed(world.w) && Admissible(world.w, id) && v.c in world.calls && world.calls[v.c].AdmitCleared?
    requires world.calls[v.c] == AdmitCleared(Who(cfg, id, v), KeyIdOf(id, v), v.serial, world.calls[v.c].found, world.mono, world.calls[v.c].decided)
    ensures var step := CommitAdmit(v.c);
            && Enabled(cfg, world, step) && Allowed(mode, world, step)
            && var w := Next(cfg, world, step);
            && Inv(cfg, w, mode) && OnlyHooks(world, w) && v.c !in w.calls && v.sshd.pid in w.w.pending
            && var p := w.w.pending[v.sshd.pid]; p.sshd == v.sshd && p.user == cfg.sshUser && p.grant == id && p.created == world.mono
  {
    hide Inv, Sane, Unix, S.KeyId, Admissible;
    InvIsSane(cfg, world, mode);
    StepKeepsInv(cfg, world, CommitAdmit(v.c), mode);
  }

  lemma AttachStep(cfg: Config, world: World, id: Id, v: Visit, mode: Mode)
    requires Inv(cfg, world, mode) && world.w.ready && cfg.pendingTTL >= 0 && v.c !in world.calls && v.sshd.pid in world.w.pending
    requires var p := world.w.pending[v.sshd.pid]; p.sshd == v.sshd && p.user == cfg.sshUser && p.grant == id && p.created == world.mono
    ensures var step := Attach(v.c, v.sshd, cfg.sshUser);
            && Enabled(cfg, world, step) && Allowed(mode, world, step)
            && var w := Next(cfg, world, step);
            && Inv(cfg, w, mode) && OnlyHooks(world, w) && v.c in w.calls && w.calls[v.c].AttachAsk? && w.calls[v.c].a == Who(cfg, id, v)
  {
    hide Inv, CallSane;
    InvIsSane(cfg, world, mode);
    StepKeepsInv(cfg, world, Attach(v.c, v.sshd, cfg.sshUser), mode);
  }

  lemma ReadStep(cfg: Config, world: World, id: Id, v: Visit, mode: Mode)
    requires Inv(cfg, world, mode) && Welcome(cfg, world, id, v) && v.c in world.calls
    requires world.calls[v.c].AttachAsk? && world.calls[v.c].a == Who(cfg, id, v)
    ensures var step := ReadAttach(v.c);
            && Enabled(cfg, world, step) && Allowed(mode, world, step)
            && var w := Next(cfg, world, step);
            && Inv(cfg, w, mode) && OnlyHooks(world, w) && v.c in w.calls
            && w.calls[v.c] == AttachSeen(Who(cfg, id, v), world.calls[v.c].admit, Some(world.sg.db.grants[id]), world.mono)
  {
    hide Inv, Sane, ValidGrantId, ValidAgentId, Unix;
    InvIsSane(cfg, world, mode);
    StepKeepsInv(cfg, world, ReadAttach(v.c), mode);
  }

  lemma DecideAttachStep(cfg: Config, world: World, id: Id, v: Visit, mode: Mode)
    requires Inv(cfg, world, mode) && Welcome(cfg, world, id, v) && v.c in world.calls && world.calls[v.c].AttachSeen?
    requires world.calls[v.c] == AttachSeen(Who(cfg, id, v), world.calls[v.c].admit, Some(world.sg.db.grants[id]), world.mono)
    ensures var step := DecideAttach(v.c);
            && Enabled(cfg, world, step) && Allowed(mode, world, step)
            && var w := Next(cfg, world, step);
            && Inv(cfg, w, mode) && OnlyHooks(world, w) && v.c in w.calls
            && w.calls[v.c] == AttachCleared(Who(cfg, id, v), world.calls[v.c].admit, world.sg.db.grants[id], world.mono, Unix(world.wall))
  {
    hide Inv, Sane, ValidGrantId, ValidAgentId, Unix;
    InvIsSane(cfg, world, mode);
    StepKeepsInv(cfg, world, DecideAttach(v.c), mode);
  }

  /** A hook's call that has its answer, as of now, and has only to bind. */
  predicate AboutToBind(cfg: Config, world: World, id: Id, v: Visit) {
    && v.c in world.calls && world.calls[v.c].AttachStamped? && world.calls[v.c].a == Who(cfg, id, v)
    && world.calls[v.c].at == world.mono
  }

  lemma StampStep(cfg: Config, world: World, id: Id, v: Visit, mode: Mode)
    requires Inv(cfg, world, mode) && Welcome(cfg, world, id, v) && v.c in world.calls && world.calls[v.c].AttachCleared?
    requires world.calls[v.c] == AttachCleared(Who(cfg, id, v), world.calls[v.c].admit, world.sg.db.grants[id], world.mono, Unix(world.wall))
    ensures var step := Stamp(v.c);
            && Enabled(cfg, world, step) && Allowed(mode, world, step)
            && var w := Next(cfg, world, step); Inv(cfg, w, mode) && OnlyHooks(world, w) && AboutToBind(cfg, w, id, v)
  {
    hide Inv, Sane, ValidGrantId, ValidAgentId, Unix;
    InvIsSane(cfg, world, mode);
    StepKeepsInv(cfg, world, Stamp(v.c), mode);
  }

  /** From the certificate to the point of binding, in one go. */
  function Entering(cfg: Config, id: Id, v: Visit): seq<Step> {
    [Admit(v.c, cfg.admitUid, v.sshd, cfg.sshUser, KeyIdOf(id, v), v.serial)] + ([DecideAdmit(v.c)] + ([CommitAdmit(v.c)] +
    ([Attach(v.c, v.sshd, cfg.sshUser)] + ([ReadAttach(v.c)] + ([DecideAttach(v.c)] + [Stamp(v.c)])))))
  }

  lemma Attaches(cfg: Config, world: World, id: Id, v: Visit, mode: Mode)
    requires Inv(cfg, world, mode) && Welcome(cfg, world, id, v) && v.c !in world.calls && v.sshd.pid in world.w.pending
    requires var p := world.w.pending[v.sshd.pid]; p.sshd == v.sshd && p.user == cfg.sshUser && p.grant == id && p.created == world.mono
    ensures var steps := [Attach(v.c, v.sshd, cfg.sshUser)] + ([ReadAttach(v.c)] + ([DecideAttach(v.c)] + [Stamp(v.c)]));
            && ValidRun(cfg, world, steps) && AllowedRun(cfg, mode, world, steps)
            && var w := After(cfg, world, steps); Inv(cfg, w, mode) && OnlyHooks(world, w) && AboutToBind(cfg, w, id, v)
  {
    hide Inv, Enabled, Next, Allowed, ValidGrantId, ValidAgentId, Confirmed, Unix, Store.SerialOf, AboutToBind;
    AttachStep(cfg, world, id, v, mode);
    var w1 := Next(cfg, world, Attach(v.c, v.sshd, cfg.sshUser));
    ReadStep(cfg, w1, id, v, mode);
    var w2 := Next(cfg, w1, ReadAttach(v.c));
    DecideAttachStep(cfg, w2, id, v, mode);
    var w3 := Next(cfg, w2, DecideAttach(v.c));
    StampStep(cfg, w3, id, v, mode);
    Prepended(cfg, mode, w3, Stamp(v.c), []);
    assert [Stamp(v.c)] + [] == [Stamp(v.c)];
    Prepended(cfg, mode, w2, DecideAttach(v.c), [Stamp(v.c)]);
    Prepended(cfg, mode, w1, ReadAttach(v.c), [DecideAttach(v.c)] + [Stamp(v.c)]);
    Prepended(cfg, mode, world, Attach(v.c, v.sshd, cfg.sshUser), [ReadAttach(v.c)] + ([DecideAttach(v.c)] + [Stamp(v.c)]));
  }

  lemma Enters(cfg: Config, world: World, id: Id, v: Visit, mode: Mode)
    requires Inv(cfg, world, mode) && Welcome(cfg, world, id, v) && v.c !in world.calls && WellFormed(world.w) && Admissible(world.w, id)
    ensures ValidRun(cfg, world, Entering(cfg, id, v)) && AllowedRun(cfg, mode, world, Entering(cfg, id, v))
    ensures var w := After(cfg, world, Entering(cfg, id, v)); Inv(cfg, w, mode) && OnlyHooks(world, w) && AboutToBind(cfg, w, id, v)
  {
    hide Inv, Enabled, Next, Allowed, ValidGrantId, ValidAgentId, Confirmed, Unix, Store.SerialOf, AboutToBind;
    var s1 := Admit(v.c, cfg.admitUid, v.sshd, cfg.sshUser, KeyIdOf(id, v), v.serial);
    AdmitStep(cfg, world, id, v, mode);
    var w1 := Next(cfg, world, s1);
    DecideAdmitStep(cfg, w1, id, v, mode);
    var w2 := Next(cfg, w1, DecideAdmit(v.c));
    CommitAdmitStep(cfg, w2, id, v, mode);
    var w3 := Next(cfg, w2, CommitAdmit(v.c));
    Attaches(cfg, w3, id, v, mode);
    var rest := [Attach(v.c, v.sshd, cfg.sshUser)] + ([ReadAttach(v.c)] + ([DecideAttach(v.c)] + [Stamp(v.c)]));
    Prepended(cfg, mode, w2, CommitAdmit(v.c), rest);
    Prepended(cfg, mode, w1, DecideAdmit(v.c), [CommitAdmit(v.c)] + rest);
    Prepended(cfg, mode, world, s1, [DecideAdmit(v.c)] + ([CommitAdmit(v.c)] + rest));
  }

  lemma Binds(cfg: Config, world: World, id: Id, v: Visit, mode: Mode)
    requires Inv(cfg, world, mode) && WellFormed(world.w) && Admissible(world.w, id) && v.c in world.calls
    requires world.calls[v.c].AttachStamped? && world.calls[v.c].a == Who(cfg, id, v) && Allowed(mode, world, CommitBind(v.c))
    ensures Enabled(cfg, world, CommitBind(v.c))
    ensures var w := Next(cfg, world, CommitBind(v.c)); IsOpen(w, id) && w.ended == world.ended
  {
    hide Inv, CallSane, Unix;
    InvIsSane(cfg, world, mode);
    var w, o := Next(cfg, world, CommitBind(v.c)), Bound(world.w, id, world.next);
    assert o in w.w.objs && w.w.objs[o].id == id && w.w.objs[o].state.Open?;
  }

  /**
   * Without any restart: the closing grant is terminated, closed and forgotten, and then a visitor
   * with the recorded certificate is admitted and bound to it again.
   */
  lemma ForgottenReopens(cfg: Config, world: World, o: nat, v: Visit)
    requires Inv(cfg, world, Prompt) && EndsSoon(world, o) && v.c !in world.calls
    requires Welcome(cfg, world.(wall := world.wall + WAIT), world.w.objs[o].id, v)
    ensures OpensIt(cfg, world, Ending(world, o) + (Entering(cfg, world.w.objs[o].id, v) + [CommitBind(v.c)]), world.w.objs[o].id)
  {
    hide Inv, Enabled, Next, Allowed, ValidGrantId, ValidAgentId, Unix, Store.SerialOf, Ending, Entering, IsOpen;
    var id := world.w.objs[o].id;
    EndingRuns(cfg, world, o, Prompt);
    var w1 := After(cfg, world, Ending(world, o));
    ObjectFacts(cfg, w1, Prompt);
    Enters(cfg, w1, id, v, Prompt);
    var w2 := After(cfg, w1, Entering(cfg, id, v));
    ObjectFacts(cfg, w2, Prompt);
    FreshBind(w2, v.c);
    Binds(cfg, w2, id, v, Prompt);
    Prepended(cfg, Prompt, w2, CommitBind(v.c), []);
    assert [CommitBind(v.c)] + [] == [CommitBind(v.c)];
    JoinedAllowed(cfg, Prompt, w1, Entering(cfg, id, v), [CommitBind(v.c)]);
    JoinedAllowed(cfg, Prompt, world, Ending(world, o), Entering(cfg, id, v) + [CommitBind(v.c)]);
  }

  lemma FreshBind(world: World, c: nat)
    requires c in world.calls && world.calls[c].AttachStamped? && world.calls[c].at == world.mono
    ensures Allowed(Prompt, world, CommitBind(c))
  {
  }

  // ---- An answer older than the retention

  /** The grant is open, and a hook's call has just got its answer. */
  predicate Poised(cfg: Config, world: World, o: nat, v: Visit, d: nat) {
    && IsLive(world.w, o) && world.w.objs[o].state.Open? && AboutToBind(cfg, world, world.w.objs[o].id, v)
    && world.w.objs[o].id in world.sg.db.grants && d !in world.calls && world.w.ready && LooksAt(world, o) == []
  }

  function Revoking(id: Id, d: nat): seq<Step> {
    [Signer(S.Revoke(id))] + ([Poll(d, id)] + [CommitPoll(d, true)])
  }

  /** The grant is closing, as ended, and the call still has its answer. */
  predicate Revoked(cfg: Config, world: World, o: nat, v: Visit) {
    && o in world.w.objs && EndsSoon(world, o) && AboutToBind(cfg, world, world.w.objs[o].id, v) && world.w.objs[o].id in world.ended
  }

  lemma RevokeStep(cfg: Config, world: World, o: nat, v: Visit, d: nat)
    requires Inv(cfg, world, InStep) && Poised(cfg, world, o, v, d)
    ensures var id := world.w.objs[o].id;
            && Enabled(cfg, world, Signer(S.Revoke(id))) && Allowed(InStep, world, Signer(S.Revoke(id)))
            && var w := Next(cfg, world, Signer(S.Revoke(id)));
            && Inv(cfg, w, InStep) && w == world.(sg := w.sg) && id in w.sg.db.grants && w.sg.db.grants[id].revokedAt.Some?
  {
    hide Inv, Sane;
    InvIsSane(cfg, world, InStep);
    StepKeepsInv(cfg, world, Signer(S.Revoke(world.w.objs[o].id)), InStep);
  }

  lemma PollStep(cfg: Config, world: World, o: nat, d: nat)
    requires Inv(cfg, world, InStep) && IsLive(world.w, o) && world.w.objs[o].state.Open? && d !in world.calls && world.w.ready
    ensures var id := world.w.objs[o].id;
            && Enabled(cfg, world, Poll(d, id)) && Allowed(InStep, world, Poll(d, id))
            && var w := Next(cfg, world, Poll(d, id)); Inv(cfg, w, InStep) && w == world.(calls := world.calls[d := PollSeen(id, RowOf(world.sg, id))])
  {
    hide Inv, Sane, RowOf;
    InvIsSane(cfg, world, InStep);
    StepKeepsInv(cfg, world, Poll(d, world.w.objs[o].id), InStep);
  }

  lemma ClosePollStep(cfg: Config, world: World, o: nat, v: Visit, d: nat)
    requires Inv(cfg, world, InStep) && IsLive(world.w, o) && world.w.objs[o].state.Open? && world.w.ready && LooksAt(world, o) == []
    requires AboutToBind(cfg, world, world.w.objs[o].id, v) && d in world.calls && d != v.c && world.calls[d].PollSeen?
    requires world.calls[d].id == world.w.objs[o].id && world.calls[d].row.Some? && world.calls[d].row.value.revokedAt.Some?
    ensures var step := CommitPoll(d, true);
            && Enabled(cfg, world, step) && Allowed(InStep, world, step)
            && var w := Next(cfg, world, step); Inv(cfg, w, InStep) && Revoked(cfg, w, o, v) && w.w.objs[o].id == world.w.objs[o].id
  {
    hide Inv, CallSane, Unix, Snapshot;
    InvIsSane(cfg, world, InStep);
    StepKeepsInv(cfg, world, CommitPoll(d, true), InStep);
    var w, id := Next(cfg, world, CommitPoll(d, true)), world.w.objs[o].id;
    assert w.w.objs[o] == CloseGrant(world.w.objs[o], SignerRevoked);
    assert id in NewlyClosing(world.w, w.w);
  }

  lemma RevokingRuns(cfg: Config, world: World, o: nat, v: Visit, d: nat)
    requires Inv(cfg, world, InStep) && Poised(cfg, world, o, v, d)
    ensures var steps := Revoking(world.w.objs[o].id, d);
            && ValidRun(cfg, world, steps) && AllowedRun(cfg, InStep, world, steps)
            && var w := After(cfg, world, steps); Inv(cfg, w, InStep) && Revoked(cfg, w, o, v) && w.w.objs[o].id == world.w.objs[o].id
  {
    hide Inv, Enabled, Next, Allowed, Revoked, EndsSoon;
    var id := world.w.objs[o].id;
    RevokeStep(cfg, world, o, v, d);
    var w1 := Next(cfg, world, Signer(S.Revoke(id)));
    PollStep(cfg, w1, o, d);
    var w2 := Next(cfg, w1, Poll(d, id));
    ClosePollStep(cfg, w2, o, v, d);
    Prepended(cfg, InStep, w2, CommitPoll(d, true), []);
    assert [CommitPoll(d, true)] + [] == [CommitPoll(d, true)];
    Prepended(cfg, InStep, w1, Poll(d, id), [CommitPoll(d, true)]);
    Prepended(cfg, InStep, world, Signer(S.Revoke(id)), [Poll(d, id)] + [CommitPoll(d, true)]);
  }

  function LateBinding(world: World, o: nat, v: Visit): seq<Step> {
    Ending(world, o) + [CommitBind(v.c)]
  }

  lemma LateBindingRuns(cfg: Config, world: World, o: nat, v: Visit)
    requires Inv(cfg, world, InStep) && Revoked(cfg, world, o, v)
    ensures var steps := LateBinding(world, o, v);
            && ValidRun(cfg, world, steps) && AllowedRun(cfg, InStep, world, steps)
            && IsOpen(After(cfg, world, steps), world.w.objs[o].id) && world.w.objs[o].id in After(cfg, world, steps).ended
  {
    hide Inv, Enabled, Next, Ending, IsOpen, Allowed, EndsSoon;
    var id := world.w.objs[o].id;
    EndingRuns(cfg, world, o, InStep);
    var w1 := After(cfg, world, Ending(world, o));
    ObjectFacts(cfg, w1, InStep);
    InStepBinds(w1, v.c);
    Binds(cfg, w1, id, v, InStep);
    Prepended(cfg, InStep, w1, CommitBind(v.c), []);
    assert [CommitBind(v.c)] + [] == [CommitBind(v.c)];
    JoinedAllowed(cfg, InStep, world, Ending(world, o), [CommitBind(v.c)]);
  }

  lemma InStepBinds(world: World, c: nat)
    ensures Allowed(InStep, world, CommitBind(c))
  {
  }

  /** No admission or binding rests on an answer older than `age`. */
  predicate Aged(world: World, step: Step, age: int) {
    && (step.CommitAdmit? && step.c in world.calls && world.calls[step.c].AdmitCleared? ==> world.mono - world.calls[step.c].at <= age)
    && (step.CommitBind? && step.c in world.calls && world.calls[step.c].AttachStamped? ==> world.mono - world.calls[step.c].at <= age)
  }

  predicate AgesAtMost(cfg: Config, world: World, steps: seq<Step>, age: int)
    requires ValidRun(cfg, world, steps)
    decreases steps
  {
    steps == [] || (Aged(world, steps[0], age) && AgesAtMost(cfg, Next(cfg, world, steps[0]), steps[1..], age))
  }

  lemma {:induction false} PromptIsAged(cfg: Config, world: World, steps: seq<Step>)
    requires ValidRun(cfg, world, steps)
    ensures AllowedRun(cfg, Prompt, world, steps) <==> AllowedRun(cfg, InStep, world, steps) && AgesAtMost(cfg, world, steps, RETENTION)
    decreases steps
  {
    hide Enabled, Next;
    if steps != [] {
      PromptIsAged(cfg, Next(cfg, world, steps[0]), steps[1..]);
    }
  }

  lemma {:induction false} AgeMonotone(cfg: Config, world: World, steps: seq<Step>, a: int, b: int)
    requires ValidRun(cfg, world, steps) && AgesAtMost(cfg, world, steps, a) && a <= b
    ensures AgesAtMost(cfg, world, steps, b)
    decreases steps
  {
    hide Enabled, Next;
    if steps != [] {
      AgeMonotone(cfg, Next(cfg, world, steps[0]), steps[1..], a, b);
    }
  }

  lemma {:induction false} NoCommitsAged(cfg: Config, world: World, steps: seq<Step>, age: int)
    requires ValidRun(cfg, world, steps) && forall i :: 0 <= i < |steps| ==> !steps[i].CommitAdmit? && !steps[i].CommitBind?
    ensures AgesAtMost(cfg, world, steps, age)
    decreases steps
  {
    hide Enabled, Next;
    if steps != [] {
      NoCommitsAged(cfg, Next(cfg, world, steps[0]), steps[1..], age);
    }
  }

  lemma {:induction false} JoinedAged(cfg: Config, world: World, a: seq<Step>, b: seq<Step>, age: int)
    requires ValidRun(cfg, world, a) && AgesAtMost(cfg, world, a, age)
    requires ValidRun(cfg, After(cfg, world, a), b) && AgesAtMost(cfg, After(cfg, world, a), b, age)
    ensures ValidRun(cfg, world, a + b) && AgesAtMost(cfg, world, a + b, age)
    decreases a
  {
    hide Enabled, Next, Aged;
    if a == [] {
      assert a + b == b;
    } else {
      assert (a + b)[1..] == a[1..] + b;
      JoinedAged(cfg, Next(cfg, world, a[0]), a[1..], b, age);
    }
  }

  lemma LateBindingAged(cfg: Config, world: World, o: nat, v: Visit)
    requires Inv(cfg, world, InStep) && Revoked(cfg, world, o, v) && ValidRun(cfg, world, LateBinding(world, o, v))
    ensures AgesAtMost(cfg, world, LateBinding(world, o, v), WAIT)
  {
    hide Inv, Enabled, Next, EndsSoon;
    EndingRuns(cfg, world, o, InStep);
    NoCommitsAged(cfg, world, Ending(world, o), WAIT);
    Cut(cfg, world, Ending(world, o), [CommitBind(v.c)]);
    assert [CommitBind(v.c)][1..] == [];
    JoinedAged(cfg, world, Ending(world, o), [CommitBind(v.c)], WAIT);
  }

  /** An answer one nanosecond older than the retention can open a grant that was closed for good. */
  lemma LateAnswerReopens(cfg: Config, world: World, o: nat, v: Visit, d: nat) returns (steps: seq<Step>)
    requires Inv(cfg, world, InStep) && Poised(cfg, world, o, v, d)
    ensures ValidRun(cfg, world, steps) && AllowedRun(cfg, InStep, world, steps) && AgesAtMost(cfg, world, steps, RETENTION + 1)
    ensures var w := After(cfg, world, steps); IsOpen(w, world.w.objs[o].id) && world.w.objs[o].id in w.ended
  {
    hide Inv, Enabled, Next, Allowed, Revoked, IsOpen, LateBinding, AboutToBind, AgesAtMost;
    var id := world.w.objs[o].id;
    RevokingRuns(cfg, world, o, v, d);
    var w1 := After(cfg, world, Revoking(id, d));
    LateBindingRuns(cfg, w1, o, v);
    LateBindingAged(cfg, w1, o, v);
    JoinedAllowed(cfg, InStep, world, Revoking(id, d), LateBinding(w1, o, v));
    NoCommitsAged(cfg, world, Revoking(id, d), WAIT);
    JoinedAged(cfg, world, Revoking(id, d), LateBinding(w1, o, v), WAIT);
    steps := Revoking(id, d) + LateBinding(w1, o, v);
  }

  predicate NothingReopened(world: World) {
    forall o :: o in world.w.objs && world.w.objs[o].id in world.ended ==> !world.w.objs[o].state.Open?
  }

  /** In every run with clocks in step and answers at most this old, what was closed for good is not open. */
  ghost predicate AgeIsSafe(cfg: Config, age: int) {
    forall wall, mono, steps ::
      ValidRun(cfg, Init(wall, mono), steps) && AllowedRun(cfg, InStep, Init(wall, mono), steps) && AgesAtMost(cfg, Init(wall, mono), steps, age) ==>
        NothingReopened(After(cfg, Init(wall, mono), steps))
  }

  lemma YoungIsSafe(cfg: Config, wall: int, mono: int, steps: seq<Step>, age: int)
    requires ValidRun(cfg, Init(wall, mono), steps) && AllowedRun(cfg, InStep, Init(wall, mono), steps)
    requires AgesAtMost(cfg, Init(wall, mono), steps, age) && age <= RETENTION
    ensures NothingReopened(After(cfg, Init(wall, mono), steps))
  {
    hide Inv, Enabled, Next, Allowed, Init, AgesAtMost, Gone, Unix;
    AgeMonotone(cfg, Init(wall, mono), steps, age, RETENTION);
    PromptIsAged(cfg, Init(wall, mono), steps);
    InitialInv(cfg, wall, mono, Prompt);
    RunKeepsInv(cfg, Init(wall, mono), steps, Prompt);
    ObjectFacts(cfg, After(cfg, Init(wall, mono), steps), Prompt);
  }

  /** Wherever a run can get to a hook about to bind to an open grant, the retention is exactly the age of answer that is safe. */
  lemma AgeBound(cfg: Config, wall: int, mono: int, before: seq<Step>, o: nat, v: Visit, d: nat, age: int)
    requires ValidRun(cfg, Init(wall, mono), before) && AllowedRun(cfg, Prompt, Init(wall, mono), before)
    requires Poised(cfg, After(cfg, Init(wall, mono), before), o, v, d)
    ensures AgeIsSafe(cfg, age) <==> age <= RETENTION
  {
    hide Inv, Enabled, Next, Allowed, Init, AgesAtMost, NothingReopened, ValidRun, AllowedRun, After, Poised;
    if age <= RETENTION {
      forall wall, mono, steps | ValidRun(cfg, Init(wall, mono), steps) && AllowedRun(cfg, InStep, Init(wall, mono), steps)
                                 && AgesAtMost(cfg, Init(wall, mono), steps, age)
        ensures NothingReopened(After(cfg, Init(wall, mono), steps))
      {
        YoungIsSafe(cfg, wall, mono, steps, age);
      }
    } else {
      var start := Init(wall, mono);
      PromptIsAged(cfg, start, before);
      InitialInv(cfg, wall, mono, InStep);
      RunKeepsInv(cfg, start, before, InStep);
      var world := After(cfg, start, before);
      assert o in world.w.objs by { PoisedHas(cfg, world, o, v, d); }
      var steps := LateAnswerReopens(cfg, world, o, v, d);
      JoinedAllowed(cfg, InStep, start, before, steps);
      AgeMonotone(cfg, start, before, RETENTION, age);
      AgeMonotone(cfg, world, steps, RETENTION + 1, age);
      JoinedAged(cfg, start, before, steps, age);
      assert !NothingReopened(After(cfg, start, before + steps)) by {
        ReopenedIs(After(cfg, start, before + steps), world.w.objs[o].id);
      }
    }
  }

  lemma PoisedHas(cfg: Config, world: World, o: nat, v: Visit, d: nat)
    requires Poised(cfg, world, o, v, d)
    ensures o in world.w.objs
  {
  }

  lemma ReopenedIs(world: World, id: Id)
    requires IsOpen(world, id) && id in world.ended
    ensures !NothingReopened(world)
  {
  }
}
