/**
 * The warden's critical sections as it runs them: on grant records shared by reference between the
 * live map and the hooks, each proved to do to the state what `WardenState` says.
 */
module Warden {
  import opened Bytes
  import opened Ids
  import opened WardenState

  ghost predicate Looked(all: map<int, Session>, left: map<int, Session>, todo: set<int>, procs: map<int, nat>) {
    && (forall pid :: pid in all ==>
          (pid in left <==> pid in todo || (pid in procs && procs[pid] == all[pid].sshd.startTime)))
    && (forall pid :: pid in left ==> pid in all && left[pid] == all[pid])
  }

  lemma LookedAll(all: map<int, Session>, left: map<int, Session>, procs: map<int, nat>)
    requires Looked(all, left, {}, procs)
    ensures left == Surviving(all, procs)
  {
    SameMap(left, Surviving(all, procs));
  }

  /** Keeps the sessions whose process is still there and still the same one. */
  method Prune(sessions: map<int, Session>, procs: map<int, nat>) returns (left: map<int, Session>)
    ensures left == Surviving(sessions, procs)
    ensures forall pid :: pid in left <==> pid in sessions && pid in procs && procs[pid] == sessions[pid].sshd.startTime
    ensures forall pid :: pid in left ==> left[pid] == sessions[pid]
  {
    left := sessions;
    var todo := sessions.Keys;
    while todo != {}
      invariant todo <= sessions.Keys && Looked(sessions, left, todo, procs)
    {
      Inhabited(todo);
      var pid :| pid in todo;
      todo := todo - {pid};
      if pid !in procs || procs[pid] != left[pid].sshd.startTime {
        left := left - {pid};
      }
    }
    LookedAll(sessions, left, procs);
  }

  /** A grant on this host. */
  class GrantRecord {
    const id: Id
    var deadline: int
    var state: GState
    var reason: Reason
    var sessions: map<int, Session>
    var deadlineMono: Option<int>
    var termSent: bool
    var closingSince: int

    constructor (id: Id)
      ensures this.id == id && Value() == Grant(id, 0, Open, NoReason, map[], None, false, 0)
    {
      this.id := id;
      deadline, state, reason, sessions, deadlineMono, termSent, closingSince := 0, Open, NoReason, map[], None, false, 0;
    }

    /** A record read back from the state file. */
    constructor Load(g: Grant)
      ensures id == g.id && Value() == g
    {
      id := g.id;
      deadline, state, reason, sessions := g.deadline, g.state, g.reason, g.sessions;
      deadlineMono, termSent, closingSince := g.deadlineMono, g.termSent, g.closingSince;
    }

    /** What the signer's answer makes of the record after a restart. */
    method Decide(a: Answer, now: int, mono: int, procs: map<int, nat>)
      modifies this
      ensures Value() == ReconciledGrant(Some(old(Value())), id, a, now, mono, procs)
      ensures state.Open? <==> a.Known? && !a.revoked && now < a.expires
      ensures state.Open? ==>
        && Value() == old(Value()).(state := Open, deadline := a.expires, deadlineMono := Some(mono + (a.expires - now) * SECOND), sessions := sessions)
        && (forall pid :: pid in sessions <==> pid in old(sessions) && pid in procs && procs[pid] == old(sessions)[pid].sshd.startTime)
        && (forall pid :: pid in sessions ==> sessions[pid] == old(sessions)[pid])
      ensures !state.Open? ==>
        Value() == old(Value()).(state := Closing, termSent := false, reason :=
          if a.Unknown? then UnknownAfterRestart else if a.Unavailable? then UnverifiedAfterRestart
          else if a.revoked then SignerRevoked else SignerExpired)
    {
      match a
      case Unknown => state, reason, termSent := Closing, UnknownAfterRestart, false;
      case Unavailable => state, reason, termSent := Closing, UnverifiedAfterRestart, false;
      case Known(_, expires, _, revoked, _) =>
        if revoked {
          state, reason, termSent := Closing, SignerRevoked, false;
        } else if expires <= now {
          state, reason, termSent := Closing, SignerExpired, false;
        } else {
          state, deadline, deadlineMono := Open, expires, Some(mono + (expires - now) * SECOND);
          var left := Prune(sessions, procs);
          sessions := left;
        }
    }

    function Value(): Grant
      reads this
    {
      Grant(id, deadline, state, reason, sessions, deadlineMono, termSent, closingSince)
    }
  }

  lemma OthersStay<O>(w: W<O>, ids: set<Id>, reason: Reason, id: Id)
    requires WellFormed(w) && id in w.live && id !in ids
    ensures AllClosed(w, ids, reason).objs[w.live[id]] == w.objs[w.live[id]]
  {
    ClosedAt(w, ids, reason, w.live[id]);
  }

  lemma OneMoreClosed<O>(w: W<O>, ids: set<Id>, id: Id, reason: Reason)
    requires WellFormed(w) && id in w.live && id !in ids && w.objs[w.live[id]].state.Open?
    ensures var next := Replaced(AllClosed(w, ids, reason), w.live[id], CloseGrant(w.objs[w.live[id]], reason));
            WellFormed(next) && Saved(next) == AllClosed(w, ids + {id}, reason)
  {
    hide Snapshot, AllClosed;
    var next := Replaced(AllClosed(w, ids, reason), w.live[id], CloseGrant(w.objs[w.live[id]], reason));
    var all := AllClosed(w, ids + {id}, reason);
    forall o | o in w.objs ensures next.objs[o] == all.objs[o] {
      ClosedAt(w, ids, reason, o);
      ClosedAt(w, ids + {id}, reason, o);
    }
    assert next.objs == all.objs;
    SomeSaved(w, ids + {id}, reason);
  }

  lemma NoneClosed<O>(w: W<O>)
    requires WellFormed(w)
    ensures w == AllClosed(w, {}, DeadlineReached)
  {
  }

  lemma SomeSaved<O>(w: W<O>, ids: set<Id>, reason: Reason)
    requires WellFormed(w) && ids != {}
    ensures var r := AllClosed(w, ids, reason); r.saved == Snapshot(r.objs, r.live)
  {
    hide Snapshot;
  }

  predicate Expired(g: Grant, mono: int) {
    g.state.Closed? && mono - g.closingSince > RETENTION
  }

  /** The live map once everything outside `todo` has been looked at. */
  ghost predicate Remaining<O>(w: W<O>, live: map<Id, O>, todo: set<Id>, mono: int)
    requires WellFormed(w)
  {
    && (forall id :: id in w.live ==> (id in live <==> id in todo || !Expired(w.objs[w.live[id]], mono)))
    && (forall id :: id in live ==> id in w.live && live[id] == w.live[id])
  }

  lemma RemainingAll<O>(w: W<O>, live: map<Id, O>, mono: int)
    requires WellFormed(w) && Remaining(w, live, {}, mono)
    ensures forall id :: id in live ==> live[id] in w.objs
    ensures Forgotten(w, mono) == w.(live := live, saved := Snapshot(w.objs, live))
  {
    hide Snapshot;
    assert live == Forgotten(w, mono).live;
  }

  /** What is left of `all` once everything outside `todo` has been looked at. */
  ghost predicate Unlapsed(all: map<int, Pending>, left: map<int, Pending>, todo: set<int>, mono: int, ttl: int) {
    && (forall pid :: pid in all ==> (pid in left <==> pid in todo || mono - all[pid].created <= ttl))
    && (forall pid :: pid in left ==> pid in all && left[pid] == all[pid])
  }

  lemma UnlapsedAll<O>(w: W<O>, left: map<int, Pending>, mono: int, ttl: int)
    requires Unlapsed(w.pending, left, {}, mono, ttl)
    ensures left == PendingExpired(w, mono, ttl).pending
  {
    SameMap(left, PendingExpired(w, mono, ttl).pending);
  }

  lemma NonePruned<O>(w: W<O>, procs: map<int, nat>)
    ensures AllPruned(w, {}, procs) == w.objs
  {
  }

  /** Looking through one more grant changes its sessions and nothing else, and undoes no earlier change. */
  lemma OneMorePruned<O>(w: W<O>, ids: set<Id>, id: Id, procs: map<int, nat>)
    requires WellFormed(w) && id in w.live && id !in ids
    ensures var before, after, o := AllPruned(w, ids, procs), AllPruned(w, ids + {id}, procs), w.live[id];
            && o in before && before[o] == w.objs[o]
            && after == before[o := w.objs[o].(sessions := Surviving(w.objs[o].sessions, procs))]
            && (after == w.objs <==> before == w.objs && after[o] == w.objs[o])
  {
    hide Surviving;
    var before, after, o := AllPruned(w, ids, procs), AllPruned(w, ids + {id}, procs), w.live[id];
    assert after == before[o := w.objs[o].(sessions := Surviving(w.objs[o].sessions, procs))];
    if after == w.objs {
      assert forall p :: p in w.objs ==> before[p] == w.objs[p];
      assert before == w.objs;
    }
  }

  lemma LiveEnforced<O>(w: W<O>, now: int, mono: int)
    requires WellFormed(w)
    ensures forall id :: id in w.live ==>
      var g := w.objs[w.live[id]];
      Enforced(w, now, mono).objs[w.live[id]] ==
        if g.state.Open? && (now >= g.deadline || (g.deadlineMono.Some? && mono >= g.deadlineMono.value))
        then g.(state := Closing, reason := DeadlineReached, termSent := false) else g
  {
    hide Enforced;
    forall o | o in w.objs && IsLive(w, o)
      ensures var g := w.objs[o];
              Enforced(w, now, mono).objs[o] ==
                if g.state.Open? && (now >= g.deadline || (g.deadlineMono.Some? && mono >= g.deadlineMono.value))
                then g.(state := Closing, reason := DeadlineReached, termSent := false) else g
    {
      EnforcedExactly(w, now, mono, o);
    }
  }

  class Warden {
    var grants: map<Id, GrantRecord>
    var pending: map<int, Pending>
    var ready: bool
    var saved: map<Id, Grant>
    /** Every record there is, the ones only a hook still knows included. */
    ghost var heap: set<GrantRecord>

    ghost predicate Valid()
      reads this, heap
    {
      forall id :: id in grants ==> grants[id] in heap && grants[id].id == id
    }

    ghost function View(): W<GrantRecord>
      reads this, heap
    {
      W(map r | r in heap :: r.Value(), grants, pending, ready, saved)
    }

    /** The state file holds every grant in the map as it stands, clock anchors and termination progress apart. */
    ghost predicate FileIsCurrent()
      reads this, heap
    {
      && saved.Keys == grants.Keys
      && forall id :: id in grants ==>
           && grants[id] in heap
           && var g := grants[id];
              saved[id] == Grant(g.id, g.deadline, g.state, g.reason, g.sessions, None, false, 0)
    }

    constructor ()
      ensures Valid() && fresh(heap) && View() == W(map[], map[], map[], false, map[])
    {
      grants, pending, ready, saved, heap := map[], map[], false, map[], {};
    }

    method Persist()
      requires Valid()
      modifies this`saved
      ensures Valid() && View() == Saved(old(View())) && FileIsCurrent()
    {
      saved := map id | id in grants :: Persisted(grants[id].Value());
    }

    method Close(g: GrantRecord, why: Reason)
      requires Valid() && g in heap
      modifies this`saved, g
      ensures Valid()
      ensures View() == if old(g.state.Open?) then Saved(Replaced(old(View()), g, CloseGrant(old(g.Value()), why))) else old(View())
      ensures if old(g.state.Open?) then g.Value() == old(g.Value()).(state := Closing, reason := why, termSent := false) && FileIsCurrent()
              else g.Value() == old(g.Value())
    {
      if !g.state.Open? {
        return;
      }
      hide Snapshot;
      g.state, g.reason, g.termSent := Closing, why, false;
      assert View().objs == Replaced(old(View()), g, g.Value()).objs;
      Persist();
    }

    // ---- Hooks

    /** The locked end of an admission: a grant that is closing takes nobody new. */
    method CommitAdmit(sshd: Proc, grant: Id, user: bytes, expires: int, mono: int) returns (ok: bool)
      requires Valid()
      modifies this`pending
      ensures Valid() && ok == Admissible(old(View()), grant) && (ok <==> grant in grants ==> grants[grant].state.Open?)
      ensures View() == if ok then old(View()).(pending := old(pending)[sshd.pid := Pending(sshd, grant, user, expires, mono)]) else old(View())
    {
      if grant in grants && !grants[grant].state.Open? {
        return false;
      }
      pending := pending[sshd.pid := Pending(sshd, grant, user, expires, mono)];
      return true;
    }

    /** The hook takes the admission out first and judges it afterwards. */
    method TakePending(sshd: Proc, user: bytes, mono: int, ttl: int) returns (grant: Option<Id>)
      requires Valid()
      modifies this`pending
      ensures Valid() && View() == old(View()).(pending := old(pending) - {sshd.pid})
      ensures grant.Some? <==>
        && sshd.pid in old(pending) && old(pending)[sshd.pid].sshd == sshd && old(pending)[sshd.pid].user == user
        && mono - old(pending)[sshd.pid].created <= ttl
      ensures grant.Some? ==> grant.value == old(pending)[sshd.pid].grant
    {
      if sshd.pid !in pending {
        assert pending - {sshd.pid} == pending;
        return None;
      }
      var p := pending[sshd.pid];
      pending := pending - {sshd.pid};
      if p.sshd != sshd || p.user != user || mono - p.created > ttl {
        return None;
      }
      return Some(p.grant);
    }

    /** Finds or makes the grant's record and sets both deadlines; the record is what the hook goes on with. */
    method CommitBind(id: Id, expires: int, remaining: int, mono: int) returns (r: Option<GrantRecord>)
      requires Valid()
      modifies this`grants, this`heap, heap
      ensures Valid() && (r.None? <==> !Admissible(old(View()), id))
      ensures r.None? ==> View() == old(View())
      ensures r.Some? ==>
        && (if id in old(grants) then r.value == old(grants)[id] else fresh(r.value))
        && heap == old(heap) + {r.value} && View() == Bind(old(View()), id, r.value, expires, remaining, mono)
        && grants == old(grants)[id := r.value]
        && r.value.Value() == (if id in old(grants) then old(grants[id].Value()) else Grant(id, 0, Open, NoReason, map[], None, false, 0)).(
             deadline := expires, deadlineMono := Some(mono + remaining))
    {
      if id in grants && !grants[id].state.Open? {
        return None;
      }
      var g: GrantRecord;
      if id in grants {
        g := grants[id];
      } else {
        g := new GrantRecord(id);
        grants, heap := grants[id := g], heap + {g};
      }
      g.deadline, g.deadlineMono := expires, Some(mono + remaining);
      assert heap == old(heap) + {g} && grants == old(grants)[id := g];
      assert View().objs == Bind(old(View()), id, g, expires, remaining, mono).objs;
      return Some(g);
    }

    /** The session is recorded only if the record the hook has held all along is still open. */
    method CommitSession(g: GrantRecord, sshd: Proc, since: int) returns (ok: bool)
      requires Valid() && g in heap
      modifies this`saved, g
      ensures Valid() && ok == old(g.state.Open?)
      ensures View() == if ok then SessionAdded(old(View()), g, Session(sshd, since)) else old(View())
      ensures ok ==> g.Value() == old(g.Value()).(sessions := old(g.sessions)[sshd.pid := Session(sshd, since)]) && FileIsCurrent()
    {
      if !g.state.Open? {
        return false;
      }
      hide Snapshot;
      g.sessions := g.sessions[sshd.pid := Session(sshd, since)];
      assert View().objs == Replaced(old(View()), g, g.Value()).objs;
      Persist();
      return true;
    }

    // ---- The supervision loop

    /** Closes on the monotonic or the wall deadline, whichever is reached first. */
    method CloseIfDue(g: GrantRecord, now: int, mono: int)
      requires Valid() && g in heap
      modifies this`saved, g
      ensures Valid()
      ensures View() == if old(g.state.Open?) && DeadlinePassed(old(g.Value()), now, mono)
                        then Saved(Replaced(old(View()), g, CloseGrant(old(g.Value()), DeadlineReached))) else old(View())
      ensures g.Value() == if old(g.state.Open? && (now >= g.deadline || (g.deadlineMono.Some? && mono >= g.deadlineMono.value)))
                           then old(g.Value()).(state := Closing, reason := DeadlineReached, termSent := false) else old(g.Value())
    {
      if !g.state.Open? {
        return;
      }
      var monoPassed := g.deadlineMono.Some? && mono >= g.deadlineMono.value;
      var wallPassed := now >= g.deadline;
      if monoPassed || wallPassed {
        Close(g, DeadlineReached);
      }
    }

    method EnforceDeadlines(now: int, mono: int)
      requires Valid()
      modifies this`saved, heap
      ensures Valid() && View() == Enforced(old(View()), now, mono)
      ensures forall id :: id in grants ==>
        var g := old(grants[id].Value());
        grants[id].Value() == if g.state.Open? && (now >= g.deadline || (g.deadlineMono.Some? && mono >= g.deadlineMono.value))
                              then g.(state := Closing, reason := DeadlineReached, termSent := false) else g
    {
      hide Snapshot, AllClosed, ClosedAmong, Saved, Replaced, CloseGrant, DeadlinePassed;
      ghost var w := View();
      ghost var due := Due(w, now, mono);
      var todo := grants.Keys;
      assert due - todo == {};
      NoneClosed(w);
      while todo != {}
        invariant Valid() && todo <= grants.Keys && View() == AllClosed(w, due - todo, DeadlineReached)
      {
        var id :| id in todo;
        OthersStay(w, due - todo, DeadlineReached, id);
        assert grants[id].Value() == View().objs[grants[id]];
        if id in due {
          OneMoreClosed(w, due - todo, id, DeadlineReached);
          assert due - (todo - {id}) == due - todo + {id};
        } else {
          assert due - (todo - {id}) == due - todo;
        }
        CloseIfDue(grants[id], now, mono);
        todo := todo - {id};
      }
      assert due - todo == due;
      LiveEnforced(w, now, mono);
      assert forall id :: id in grants ==> View().objs[grants[id]] == grants[id].Value() && w.objs[grants[id]] == old(grants[id].Value());
    }

    /** What one answer of a poll does to an open grant. */
    method Heed(g: GrantRecord, a: Answer, now: int, mono: int)
      requires Valid() && g in heap && g.state.Open?
      modifies this`saved, g
      ensures Valid()
      ensures g.Value() ==
        if a.Unavailable? then old(g.Value())
        else if a.Unknown? || a.revoked || a.expires <= now then
          old(g.Value()).(state := Closing, termSent := false,
                          reason := if a.Unknown? then SignerForgot else if a.revoked then SignerRevoked else SignerExpired)
        else if a.expires < old(g.deadline) then
          old(g.Value()).(deadline := a.expires, deadlineMono := Some(mono + (a.expires - now) * SECOND))
        else old(g.Value())
      ensures View() == if g.Value() == old(g.Value()) then old(View()) else Saved(Replaced(old(View()), g, g.Value()))
    {
      hide Snapshot;
      match a
      case Unknown => Close(g, SignerForgot);
      case Unavailable =>
      case Known(_, expires, _, revoked, _) =>
        if revoked {
          Close(g, SignerRevoked);
        } else if expires <= now {
          Close(g, SignerExpired);
        } else if expires < g.deadline {
          g.deadline, g.deadlineMono := expires, Some(mono + (expires - now) * SECOND);
          assert View().objs == Replaced(old(View()), g, g.Value()).objs;
          Persist();
        }
    }

    /** The grant is looked up again: it may have gone or closed while the signer was asked. */
    method ApplyPoll(id: Id, a: Answer, now: int, mono: int)
      requires Valid()
      modifies this`saved, heap
      ensures Valid() && View() == Polled(old(View()), id, a, now, mono)
      ensures id in grants && old(grants[id].state.Open?) ==>
        var g := old(grants[id].Value());
        grants[id].Value() ==
          if a.Unavailable? then g
          else if a.Unknown? || a.revoked || a.expires <= now then
            g.(state := Closing, termSent := false,
               reason := if a.Unknown? then SignerForgot else if a.revoked then SignerRevoked else SignerExpired)
          else if a.expires < g.deadline then g.(deadline := a.expires, deadlineMono := Some(mono + (a.expires - now) * SECOND))
          else g
    {
      hide Snapshot, Saved, Replaced;
      if id !in grants || !grants[id].state.Open? {
        return;
      }
      var g := grants[id];
      ghost var was := g.Value();
      assert View().objs[g] == was;
      Heed(g, a, now, mono);
      assert g.Value() == PolledGrant(was, a, now, mono);
    }

    /** Only reached once the group is empty. */
    method Finalize(g: GrantRecord, mono: int)
      requires Valid() && g in heap
      modifies this`saved, g
      ensures Valid() && View() == Finalized(old(View()), g, mono)
      ensures g.Value() == Finished(old(g.Value()), mono) && FileIsCurrent()
      ensures g.Value() == old(g.Value()).(state := Closed, closingSince := mono, sessions := map[])
    {
      hide Snapshot;
      g.state, g.closingSince, g.sessions := Closed, mono, map[];
      assert View().objs == Replaced(old(View()), g, g.Value()).objs;
      Persist();
    }

    /** One pass over a closing grant: ask its processes to end, and after the grace period kill them all. */
    method Terminate(g: GrantRecord, l: Look, grace: int) returns (sent: Signal)
      requires Valid() && g in heap
      modifies this`saved, g
      ensures Valid() && sent == SignalSent(old(g.Value()), l, grace) && g.Value() == Terminated(old(g.Value()), l)
      ensures var started := Replaced(old(View()), g, TermStarted(old(g.Value()), l.at));
              View() == if SeenEmpty(l) then Finalized(started, g, l.end) else started
      ensures var since := if old(g.termSent) then old(g.closingSince) else l.at;
              && sent == (if !l.present then NoSignal else if l.at - since < grace then Term else Kill)
              && g.Value() == old(g.Value()).(termSent := true, closingSince := g.closingSince, state := g.state, sessions := g.sessions)
              && (if !l.present || l.populated == Some(false) then g.state == Closed && g.closingSince == l.end && g.sessions == map[]
                  else g.state == old(g.state) && g.closingSince == since && g.sessions == old(g.sessions))
    {
      hide Snapshot, Finalized;
      if !g.termSent {
        g.termSent, g.closingSince := true, l.at;
      }
      assert View().objs == Replaced(old(View()), g, TermStarted(old(g.Value()), l.at)).objs;
      var elapsed := l.at - g.closingSince;
      if !l.present {
        Finalize(g, l.end);
        return NoSignal;
      }
      if elapsed < grace {
        sent := Term;
      } else {
        sent := Kill;
      }
      if l.populated == Some(false) {
        Finalize(g, l.end);
      }
    }

    /** The map without the grants that have been Closed long enough. */
    method Unexpired(mono: int) returns (left: map<Id, GrantRecord>)
      requires Valid()
      ensures Remaining(View(), left, {}, mono)
    {
      left := grants;
      var todo := grants.Keys;
      while todo != {}
        invariant todo <= grants.Keys && Remaining(View(), left, todo, mono)
      {
        var id :| id in todo;
        assert grants[id].Value() == View().objs[grants[id]];
        todo := todo - {id};
        if grants[id].state.Closed? && mono - grants[id].closingSince > RETENTION {
          left := left - {id};
        }
      }
    }

    method Forget(mono: int)
      requires Valid()
      modifies this`grants, this`saved
      ensures Valid() && View() == Forgotten(old(View()), mono) && FileIsCurrent()
      ensures forall id :: id in grants <==>
        id in old(grants) && !(old(grants)[id].state.Closed? && mono - old(grants)[id].closingSince > 30 * SECOND)
      ensures forall id :: id in grants ==> grants[id] == old(grants)[id]
    {
      hide Snapshot, Forgotten;
      var left := Unexpired(mono);
      ghost var w := View();
      RemainingAll(w, left, mono);
      grants := left;
      assert View().objs == w.objs;
      assert View() == w.(live := left);
      Persist();
      assert View() == w.(live := left, saved := Snapshot(w.objs, left));
    }

    method ExpirePending(mono: int, ttl: int)
      requires Valid()
      modifies this`pending
      ensures Valid() && View() == PendingExpired(old(View()), mono, ttl)
      ensures forall pid :: pid in pending <==> pid in old(pending) && mono - old(pending)[pid].created <= ttl
      ensures forall pid :: pid in pending ==> pending[pid] == old(pending)[pid]
    {
      ghost var all := pending;
      var todo := pending.Keys;
      while todo != {}
        invariant todo <= all.Keys && Unlapsed(all, pending, todo, mono, ttl)
      {
        Inhabited(todo);
        var pid :| pid in todo;
        todo := todo - {pid};
        if mono - pending[pid].created > ttl {
          pending := pending - {pid};
        }
      }
      UnlapsedAll(old(View()), pending, mono, ttl);
    }

    /** Forgets the sessions whose process is gone or is another one by now. */
    method PruneRecord(g: GrantRecord, procs: map<int, nat>) returns (changed: bool)
      requires Valid() && g in heap
      modifies g
      ensures Valid() && View() == Replaced(old(View()), g, old(g.Value()).(sessions := Surviving(old(g.sessions), procs)))
      ensures changed == (g.Value() != old(g.Value()))
    {
      var left := Prune(g.sessions, procs);
      changed := left != g.sessions;
      g.sessions := left;
      assert View().objs == Replaced(old(View()), g, g.Value()).objs;
    }

    method PruneSessions(procs: map<int, nat>)
      requires Valid()
      modifies this`saved, heap
      ensures Valid() && View() == SessionsPruned(old(View()), procs)
    {
      hide Snapshot, AllPruned, Surviving;
      ghost var w := View();
      var changed := false;
      var todo := grants.Keys;
      assert w.live.Keys - todo == {};
      NonePruned(w, procs);
      while todo != {}
        invariant Valid() && todo <= grants.Keys && saved == old(saved)
        invariant View().objs == AllPruned(w, w.live.Keys - todo, procs) && changed == (View().objs != w.objs)
      {
        var id :| id in todo;
        OneMorePruned(w, w.live.Keys - todo, id, procs);
        assert grants[id].Value() == View().objs[grants[id]];
        assert w.live.Keys - (todo - {id}) == w.live.Keys - todo + {id};
        var c := PruneRecord(grants[id], procs);
        changed := changed || c;
        todo := todo - {id};
      }
      assert w.live.Keys - todo == w.live.Keys;
      if changed {
        Persist();
      }
    }

    /**
     * Rebuilds the grants after a restart from the state file and the slices found, one signer
     * query each, and only then opens admission. `heard` is what each query and process lookup
     * finds when its turn comes.
     */
    method Reconcile(signerUp: bool, discovered: set<Id>, now: int, heard: map<Id, Hearing>) returns (ok: bool)
      requires Valid() && heap == {} && !ready && (forall id :: id in saved ==> saved[id].id == id)
      requires Loaded(saved).Keys + discovered <= heard.Keys
      modifies this`grants, this`heap, this`ready, this`saved
      ensures Valid() && ok == signerUp && (!ok ==> View() == old(View()))
      ensures ok ==> ready && grants.Keys == old(Loaded(saved)).Keys + discovered && saved == Snapshot(View().objs, grants)
      ensures ok ==> FileIsCurrent() && forall id :: id in grants <==> (id in old(saved) && ValidGrantId(id)) || id in discovered
      ensures ok ==> forall id :: id in grants ==> fresh(grants[id]) && grants[id].Value() == Rebuilt(old(Loaded(saved)), id, now, heard[id])
    {
      hide Snapshot, ReconciledGrant;
      if !signerUp {
        return false;
      }
      var loaded := Loaded(saved);
      var ids := loaded.Keys + discovered;
      var todo, built := ids, map[];
      ghost var made: set<GrantRecord> := {};
      while todo != {}
        invariant todo <= ids && built.Keys == ids - todo && fresh(made)
        invariant forall id :: id in built ==>
          built[id] in made && built[id].id == id && built[id].Value() == Rebuilt(loaded, id, now, heard[id])
      {
        var id :| id in todo;
        todo := todo - {id};
        var g := RecordAfterRestart(loaded, id, now, heard[id]);
        built, made := built[id := g], made + {g};
      }
      grants, heap, ready := built, made, true;
      Persist();
      return true;
    }
  }

  method RecordAfterRestart(loaded: map<Id, Grant>, id: Id, now: int, f: Hearing) returns (g: GrantRecord)
    requires id in loaded ==> loaded[id].id == id
    ensures fresh(g) && g.id == id && g.Value() == Rebuilt(loaded, id, now, f)
  {
    if id in loaded {
      g := new GrantRecord.Load(loaded[id]);
    } else {
      g := new GrantRecord(id);
    }
    g.Decide(f.answer, now, f.at, f.procs);
  }
}
