/**
 * The warden's state and what each of its critical sections does to it. Grant objects have an
 * identity of type `O`, because a session hook keeps a reference to one while the lock is free.
 */
module WardenState {
  import opened Bytes
  import opened Ids
  import Redemption

  type Id = bytes

  /** Durations and clock readings are in nanoseconds. */
  const SECOND: int := 1_000_000_000
  const RETENTION: int := 30 * SECOND

  /** The whole seconds of a wall clock reading. */
  function Unix(wall: int): int {
    wall / SECOND
  }

  datatype GState = Open | Closing | Closed

  datatype Reason =
    | NoReason | DeadlineReached | SignerForgot | SignerRevoked | SignerExpired
    | UnknownAfterRestart | UnverifiedAfterRestart

  /** A process: its pid and the tick it started at. */
  datatype Proc = Proc(pid: int, startTime: nat)

  datatype Session = Session(sshd: Proc, since: int)

  datatype Grant = Grant(
    id: Id, deadline: int, state: GState, reason: Reason, sessions: map<int, Session>,
    deadlineMono: Option<int>, termSent: bool, closingSince: int)

  datatype Pending = Pending(sshd: Proc, grant: Id, user: bytes, deadline: int, created: int)

  /** `objs` are all grant objects there are; `live` is the map the warden looks grants up in; `saved` is the state file. */
  datatype W<O(==)> = W(
    objs: map<O, Grant>, live: map<Id, O>, pending: map<int, Pending>, ready: bool, saved: map<Id, Grant>)

  /** What the signer says about a grant. */
  datatype Answer =
    | Unknown
    | Unavailable
    | Known(user: bytes, expires: int, redeemed: bool, revoked: bool, serial: Option<int>)

  /** Every admission rule. A serial of None is not compared. */
  predicate Cleared(a: Answer, user: bytes, serial: Option<int>, now: int) {
    && a.Known? && a.user == user && !a.revoked && a.expires > now && a.redeemed
    && (serial.Some? ==> a.serial == serial)
  }

  /** grantd:<grant>:<agent>, exactly as the certificate authority writes it. */
  function ParseKeyId(k: bytes): Option<(Id, bytes)> {
    var prefix := Ascii("grantd:");
    if |k| == 60 && k[..7] == prefix && k[25] == 58 && ValidGrantId(k[7..25]) && ValidAgentId(k[26..]) then
      Some((k[7..25], k[26..]))
    else None
  }

  lemma ParseKeyIdExactly(k: bytes, g: Id, a: bytes)
    ensures ParseKeyId(k) == Some((g, a)) <==> k == Redemption.KeyId(g, a) && ValidGrantId(g) && ValidAgentId(a)
  {
    var prefix, colon := Ascii("grantd:"), Ascii(":");
    assert |prefix| == 7 && colon == [58];
    if ParseKeyId(k) == Some((g, a)) {
      assert k == k[..7] + k[7..25] + [k[25]] + k[26..];
    }
    if k == Redemption.KeyId(g, a) && ValidGrantId(g) && ValidAgentId(a) {
      assert k[..7] == prefix && k[7..25] == g && k[25] == 58 && k[26..] == a;
    }
  }

  // ---- Critical sections

  /** The object is the one its grant id leads to. */
  predicate IsLive<O(==)>(w: W<O>, o: O) {
    o in w.objs && w.objs[o].id in w.live && w.live[w.objs[o].id] == o
  }

  predicate WellFormed<O(==)>(w: W<O>) {
    forall id :: id in w.live ==> w.live[id] in w.objs && w.objs[w.live[id]].id == id
  }

  /** What the state file keeps of a grant: the clock anchors and the termination progress are lost. */
  function Persisted(g: Grant): Grant {
    g.(deadlineMono := None, termSent := false, closingSince := 0)
  }

  /** The contents of the state file. */
  function Snapshot<O(==)>(objs: map<O, Grant>, live: map<Id, O>): map<Id, Grant>
    requires forall id :: id in live ==> live[id] in objs
  {
    map id | id in live :: Persisted(objs[live[id]])
  }

  function Saved<O(==)>(w: W<O>): (r: W<O>)
    requires WellFormed(w)
    ensures WellFormed(r) && r == w.(saved := r.saved) && r.saved.Keys == w.live.Keys
    ensures forall id :: id in r.saved ==> r.saved[id].id == id
  {
    w.(saved := Snapshot(w.objs, w.live))
  }

  /** No object, or an open one, stands under this id. */
  predicate Admissible<O(==)>(w: W<O>, id: Id)
    requires WellFormed(w)
  {
    id in w.live ==> w.objs[w.live[id]].state.Open?
  }

  function CloseGrant(g: Grant, reason: Reason): Grant {
    if g.state.Open? then g.(state := Closing, reason := reason, termSent := false) else g
  }

  predicate DeadlinePassed(g: Grant, now: int, mono: int) {
    (g.deadlineMono.Some? && mono >= g.deadlineMono.value) || now >= g.deadline
  }

  /** The open grants whose time is up. */
  function Due<O(==)>(w: W<O>, now: int, mono: int): set<Id>
    requires WellFormed(w)
  {
    set id | id in w.live && w.objs[w.live[id]].state.Open? && DeadlinePassed(w.objs[w.live[id]], now, mono)
  }

  function ClosedAmong<O(==)>(w: W<O>, ids: set<Id>, reason: Reason, o: O): (g: Grant)
    requires o in w.objs
    ensures g.id == w.objs[o].id
  {
    if IsLive(w, o) && w.objs[o].id in ids then CloseGrant(w.objs[o], reason) else w.objs[o]
  }

  /** These live grants closed, and the state file written if there were any. */
  function AllClosed<O(==)>(w: W<O>, ids: set<Id>, reason: Reason): (r: W<O>)
    requires WellFormed(w)
    ensures WellFormed(r) && r == w.(objs := r.objs, saved := r.saved) && r.objs.Keys == w.objs.Keys
    ensures r.saved == w.saved || r.saved == Snapshot(r.objs, r.live)
  {
    if ids == {} then w else Saved(w.(objs := map o | o in w.objs :: ClosedAmong(w, ids, reason, o)))
  }

  lemma ClosedAt<O>(w: W<O>, ids: set<Id>, reason: Reason, o: O)
    requires WellFormed(w) && o in w.objs
    ensures AllClosed(w, ids, reason).objs[o] == ClosedAmong(w, ids, reason, o)
  {
    hide Snapshot;
  }

  function Enforced<O(==)>(w: W<O>, now: int, mono: int): (r: W<O>)
    requires WellFormed(w)
    ensures WellFormed(r) && r == w.(objs := r.objs, saved := r.saved) && r.objs.Keys == w.objs.Keys
    ensures r.saved == w.saved || r.saved == Snapshot(r.objs, r.live)
  {
    AllClosed(w, Due(w, now, mono), DeadlineReached)
  }

  /** Either clock closes an open grant, whichever gets to its deadline first; nothing else does, and nothing else changes. */
  lemma EnforcedExactly<O>(w: W<O>, now: int, mono: int, o: O)
    requires WellFormed(w) && o in w.objs
    ensures var g := w.objs[o];
            Enforced(w, now, mono).objs[o] ==
              if IsLive(w, o) && g.state.Open? && (now >= g.deadline || (g.deadlineMono.Some? && mono >= g.deadlineMono.value))
              then g.(state := Closing, reason := DeadlineReached, termSent := false) else g
  {
    hide Snapshot;
    ClosedAt(w, Due(w, now, mono), DeadlineReached, o);
  }

  function Replaced<O(==)>(w: W<O>, o: O, g: Grant): W<O> {
    w.(objs := w.objs[o := g])
  }

  /** What a poll's answer does to an open grant. */
  function PolledGrant(g: Grant, a: Answer, now: int, mono: int): Grant {
    match a
    case Unknown => CloseGrant(g, SignerForgot)
    case Unavailable => g
    case Known(_, expires, _, revoked, _) =>
      if revoked then CloseGrant(g, SignerRevoked)
      else if expires <= now then CloseGrant(g, SignerExpired)
      else if expires < g.deadline then
        g.(deadline := expires, deadlineMono := Some(mono + (expires - now) * SECOND))
      else g
  }

  function Polled<O(==)>(w: W<O>, id: Id, a: Answer, now: int, mono: int): (r: W<O>)
    requires WellFormed(w)
    ensures WellFormed(r) && r == w.(objs := r.objs, saved := r.saved) && r.objs.Keys == w.objs.Keys
  {
    if id !in w.live || !w.objs[w.live[id]].state.Open? then w
    else
      var g := w.objs[w.live[id]];
      var g' := PolledGrant(g, a, now, mono);
      if g' == g then w else Saved(Replaced(w, w.live[id], g'))
  }

  /** A poll's answer touches only the grant it is about, and only while that is open. */
  lemma PolledExactly<O>(w: W<O>, id: Id, a: Answer, now: int, mono: int, o: O)
    requires WellFormed(w) && o in w.objs
    ensures var g := w.objs[o];
            Polled(w, id, a, now, mono).objs[o] ==
              if g.id != id || !IsLive(w, o) || !g.state.Open? || a.Unavailable? then g
              else if a.Unknown? || a.revoked || a.expires <= now then
                g.(state := Closing, termSent := false,
                   reason := if a.Unknown? then SignerForgot else if a.revoked then SignerRevoked else SignerExpired)
              else if a.expires < g.deadline then g.(deadline := a.expires, deadlineMono := Some(mono + (a.expires - now) * SECOND))
              else g
  {
    hide Snapshot;
  }

  /** The object a hook works with: the live one, or a new one that becomes live. */
  function Bound<O(==)>(w: W<O>, id: Id, spare: O): O {
    if id in w.live then w.live[id] else spare
  }

  function Bind<O(==)>(w: W<O>, id: Id, spare: O, expires: int, remaining: int, mono: int): (r: W<O>)
    requires WellFormed(w) && (id in w.live || spare !in w.objs)
    ensures WellFormed(r) && r == w.(objs := r.objs, live := r.live)
  {
    var g := if id in w.live then w.objs[w.live[id]] else Grant(id, 0, Open, NoReason, map[], None, false, 0);
    var o := Bound(w, id, spare);
    w.(objs := w.objs[o := g.(deadline := expires, deadlineMono := Some(mono + remaining))], live := w.live[id := o])
  }

  function SessionAdded<O(==)>(w: W<O>, o: O, s: Session): (r: W<O>)
    requires WellFormed(w) && o in w.objs
    ensures WellFormed(r) && r == w.(objs := r.objs, saved := r.saved) && r.objs.Keys == w.objs.Keys
  {
    Saved(Replaced(w, o, w.objs[o].(sessions := w.objs[o].sessions[s.sshd.pid := s])))
  }

  function TermStarted(g: Grant, mono: int): Grant {
    if g.termSent then g else g.(termSent := true, closingSince := mono)
  }

  datatype Signal = NoSignal | Term | Kill

  /** One look at a closing grant's group: when, whether the group exists, whether it has processes, and when the pass ended. */
  datatype Look = Look(at: int, present: bool, populated: Option<bool>, end: int)

  /** The group is not there, or the kernel says it is empty. */
  predicate SeenEmpty(l: Look) {
    !l.present || l.populated == Some(false)
  }

  function SignalSent(g: Grant, l: Look, grace: int): Signal {
    if !l.present then NoSignal else if l.at - TermStarted(g, l.at).closingSince < grace then Term else Kill
  }

  function Finished(g: Grant, mono: int): Grant {
    g.(state := Closed, closingSince := mono, sessions := map[])
  }

  /** What one pass makes of a closing grant. */
  function Terminated(g: Grant, l: Look): Grant {
    if SeenEmpty(l) then Finished(TermStarted(g, l.at), l.end) else TermStarted(g, l.at)
  }

  function Finalized<O(==)>(w: W<O>, o: O, mono: int): (r: W<O>)
    requires WellFormed(w) && o in w.objs
    ensures WellFormed(r) && r == w.(objs := r.objs, saved := r.saved) && r.objs.Keys == w.objs.Keys
  {
    Saved(Replaced(w, o, Finished(w.objs[o], mono)))
  }

  function Forgotten<O(==)>(w: W<O>, mono: int): (r: W<O>)
    requires WellFormed(w)
    ensures WellFormed(r) && r == w.(live := r.live, saved := r.saved)
  {
    Saved(w.(live := map id | id in w.live && !(w.objs[w.live[id]].state.Closed? && mono - w.objs[w.live[id]].closingSince > RETENTION)
                     :: w.live[id]))
  }

  function PendingExpired<O(==)>(w: W<O>, mono: int, ttl: int): W<O> {
    w.(pending := map pid | pid in w.pending && mono - w.pending[pid].created <= ttl :: w.pending[pid])
  }

  /** The sessions whose process still runs, and is still the same process. */
  function Surviving(sessions: map<int, Session>, procs: map<int, nat>): map<int, Session> {
    map pid | pid in sessions && pid in procs && procs[pid] == sessions[pid].sshd.startTime :: sessions[pid]
  }

  function PrunedAmong<O(==)>(w: W<O>, ids: set<Id>, procs: map<int, nat>, o: O): (g: Grant)
    requires o in w.objs
    ensures g.id == w.objs[o].id
  {
    if IsLive(w, o) && w.objs[o].id in ids then w.objs[o].(sessions := Surviving(w.objs[o].sessions, procs)) else w.objs[o]
  }

  /** The objects after these live grants' sessions have been looked through. */
  function AllPruned<O(==)>(w: W<O>, ids: set<Id>, procs: map<int, nat>): map<O, Grant> {
    map o | o in w.objs :: PrunedAmong(w, ids, procs, o)
  }

  function SessionsPruned<O(==)>(w: W<O>, procs: map<int, nat>): (r: W<O>)
    requires WellFormed(w)
    ensures WellFormed(r) && r == w.(objs := r.objs, saved := r.saved) && r.objs.Keys == w.objs.Keys
    ensures r.objs == AllPruned(w, w.live.Keys, procs) && (r.saved == w.saved || r.saved == Snapshot(r.objs, r.live))
  {
    var objs := AllPruned(w, w.live.Keys, procs);
    if objs == w.objs then w else Saved(w.(objs := objs))
  }

  /** A pass over the sessions leaves, in every grant in the map, exactly those whose process is there and the same. */
  lemma PrunedExactly<O>(w: W<O>, procs: map<int, nat>, o: O)
    requires WellFormed(w) && o in w.objs
    ensures var g, g' := w.objs[o], SessionsPruned(w, procs).objs[o];
            && g' == g.(sessions := g'.sessions)
            && (forall pid :: pid in g'.sessions <==>
                  pid in g.sessions && (IsLive(w, o) ==> pid in procs && procs[pid] == g.sessions[pid].sshd.startTime))
            && (forall pid :: pid in g'.sessions ==> g'.sessions[pid] == g.sessions[pid])
  {
    hide Snapshot;
  }

  /** What a restart makes of one grant: whatever the state file said, the signer's answer decides. */
  function ReconciledGrant(saved: Option<Grant>, id: Id, a: Answer, now: int, mono: int, procs: map<int, nat>): Grant {
    var g := if saved.Some? then saved.value else Grant(id, 0, Open, NoReason, map[], None, false, 0);
    match a
    case Unknown => g.(state := Closing, reason := UnknownAfterRestart, termSent := false)
    case Unavailable => g.(state := Closing, reason := UnverifiedAfterRestart, termSent := false)
    case Known(_, expires, _, revoked, _) =>
      if revoked then g.(state := Closing, reason := SignerRevoked, termSent := false)
      else if expires <= now then g.(state := Closing, reason := SignerExpired, termSent := false)
      else
        g.(state := Open, deadline := expires, deadlineMono := Some(mono + (expires - now) * SECOND),
           sessions := Surviving(g.sessions, procs))
  }

  /** What a restart went by for one grant: the signer's answer, the time, and the processes there were. */
  datatype Hearing = Hearing(answer: Answer, at: int, procs: map<int, nat>)

  /** The valid part of the state file. */
  function Loaded(saved: map<Id, Grant>): map<Id, Grant> {
    map id | id in saved && ValidGrantId(id) :: saved[id]
  }

  /** What a hearing makes of the grant as the state file had it. */
  function Rebuilt(saved: map<Id, Grant>, id: Id, now: int, h: Hearing): Grant {
    ReconciledGrant(if id in saved then Some(saved[id]) else None, id, h.answer, now, h.at, h.procs)
  }
}
