/** The nonces of registrations and connects: one table, pruned and consulted with the caller's own clock reading. */
module ConnectNonces {
  import opened Bytes

  const SKEW: int := 300
  const KEPT: int := 4 * SKEW

  /** What matters of a signed registration or connect message. */
  datatype Message = Message(body: bytes, timestamp: int, nonce: bytes)

  type Table = map<bytes, int>

  function Pruned(t: Table, now: int): Table {
    map k | k in t && !(t[k] < now - KEPT) :: t[k]
  }

  /** Prunes, looks the nonce up, and remembers it if it is new. */
  function Looked(t: Table, nonce: bytes, now: int): (Table, bool) {
    var left := Pruned(t, now);
    if nonce in left then (left, true) else (left[nonce := now], false)
  }

  predicate WithinSkew(now: int, timestamp: int) {
    -SKEW <= now - timestamp <= SKEW
  }

  // ---- Runs: verified messages reaching the table, and hourly sweeps

  /** A message whose signature verified, with the reading its handler took before the check; or a sweep. */
  datatype Event = Arrives(m: Message, now: int) | Sweep(now: int)

  /** A message that was let through, and when. */
  datatype Pass = Pass(m: Message, at: int)

  /** The table, what was let through, and the latest reading used on the table. */
  datatype State = State(table: Table, passes: seq<Pass>, latest: int)

  function Init(clock: int): State {
    State(map[], [], clock)
  }

  function Max(a: int, b: int): int {
    if a < b then b else a
  }

  function Next(s: State, e: Event): State {
    match e
    case Arrives(m, now) =>
      if !WithinSkew(now, m.timestamp) then s
      else
        var (table, seen) := Looked(s.table, m.nonce, now);
        State(table, if seen then s.passes else s.passes + [Pass(m, now)], Max(s.latest, now))
    case Sweep(now) => State(Pruned(s.table, now), s.passes, Max(s.latest, now))
  }

  function After(s: State, events: seq<Event>): State
    decreases |events|
  {
    if events == [] then s else After(Next(s, events[0]), events[1..])
  }

  /** No reading is more than `lag` behind one used before it: signature checks take at most that long. */
  predicate Lagging(s: State, events: seq<Event>, lag: int)
    decreases |events|
  {
    events == [] || (events[0].now >= s.latest - lag && Lagging(Next(s, events[0]), events[1..], lag))
  }

  predicate NoneTwice(s: State) {
    forall i, j :: 0 <= i < j < |s.passes| ==> s.passes[i].m != s.passes[j].m
  }

  // ---- Every lag up to twice the skew is safe

  /** A message that was let through is remembered, or too old to come again. */
  predicate Inv(s: State) {
    && NoneTwice(s)
    && forall i :: 0 <= i < |s.passes| ==>
         var p := s.passes[i];
         && WithinSkew(p.at, p.m.timestamp)
         && ((p.m.nonce in s.table && s.table[p.m.nonce] == p.at) || s.latest > p.at + KEPT)
  }

  lemma StepKeepsInv(s: State, e: Event, lag: int)
    requires Inv(s) && e.now >= s.latest - lag && lag <= KEPT - 2 * SKEW
    ensures Inv(Next(s, e))
  {
    var s' := Next(s, e);
    if |s'.passes| > |s.passes| {
      forall i | 0 <= i < |s.passes| ensures s.passes[i].m != e.m {
        assert s'.passes[i] == s.passes[i];
      }
    }
  }

  lemma {:induction false} RunKeepsInv(s: State, events: seq<Event>, lag: int)
    requires Inv(s) && Lagging(s, events, lag) && lag <= KEPT - 2 * SKEW
    ensures Inv(After(s, events))
    decreases |events|
  {
    hide Inv, Next;
    if events != [] {
      StepKeepsInv(s, events[0], lag);
      RunKeepsInv(Next(s, events[0]), events[1..], lag);
    }
  }

  // ---- One second more is not

  /** A message, a sweep that forgets it, and the message again from a handler that read its clock before. */
  function LateCopy(m: Message): seq<Event> {
    var first := m.timestamp - SKEW;
    [Arrives(m, first), Sweep(first + KEPT + 1), Arrives(m, first + 2 * SKEW)]
  }

  lemma LateCopyPasses(m: Message)
    ensures var s0 := Init(m.timestamp - SKEW);
            Lagging(s0, LateCopy(m), 601) && !NoneTwice(After(s0, LateCopy(m)))
  {
    var s0, events := Init(m.timestamp - SKEW), LateCopy(m);
    var s1 := Next(s0, events[0]);
    var s2 := Next(s1, events[1]);
    var s3 := Next(s2, events[2]);
    assert events[1..][1..] == [events[2]] && [events[2]][1..] == [];
    assert m.nonce !in s2.table && s3.passes == [Pass(m, events[0].now), Pass(m, events[2].now)];
    assert After(s2, [events[2]]) == s3;
    assert Lagging(s2, [events[2]], KEPT - 2 * SKEW + 1);
    assert Lagging(s1, events[1..], KEPT - 2 * SKEW + 1);
    assert s3.passes[0].m == s3.passes[1].m;
  }

  lemma {:induction false} LagMonotone(s: State, events: seq<Event>, a: int, b: int)
    requires Lagging(s, events, a) && a <= b
    ensures Lagging(s, events, b)
    decreases |events|
  {
    hide Next;
    if events != [] {
      LagMonotone(Next(s, events[0]), events[1..], a, b);
    }
  }

  /** No message is let through twice, whatever arrives in whatever order, exactly when readings lag at most ten minutes. */
  lemma LagBound(lag: int)
    ensures lag <= 600 <==>
            forall clock, events :: Lagging(Init(clock), events, lag) ==> NoneTwice(After(Init(clock), events))
  {
    hide Lagging, After, NoneTwice;
    if lag <= KEPT - 2 * SKEW {
      forall clock, events | Lagging(Init(clock), events, lag) ensures NoneTwice(After(Init(clock), events)) {
        assert Inv(Init(clock)) by { StartsOk(clock); }
        RunKeepsInv(Init(clock), events, lag);
      }
    } else {
      var m := Message([], 0, []);
      LateCopyPasses(m);
      LagMonotone(Init(-SKEW), LateCopy(m), KEPT - 2 * SKEW + 1, lag);
    }
  }

  lemma StartsOk(clock: int)
    ensures Inv(Init(clock))
  {
  }

  // ---- Nothing is refused for another reason

  /** Some message with this nonce was let through at that time. */
  predicate Used(s: State, nonce: bytes, at: int) {
    exists i :: 0 <= i < |s.passes| && s.passes[i].m.nonce == nonce && s.passes[i].at == at
  }

  predicate Honest(s: State) {
    forall k :: k in s.table ==> Used(s, k, s.table[k])
  }

  lemma UsedStays(s: State, e: Event, nonce: bytes, at: int)
    requires Used(s, nonce, at)
    ensures Used(Next(s, e), nonce, at)
  {
    var i :| 0 <= i < |s.passes| && s.passes[i].m.nonce == nonce && s.passes[i].at == at;
    assert Next(s, e).passes[i] == s.passes[i];
  }

  lemma StepIsHonest(s: State, e: Event)
    requires Honest(s)
    ensures Honest(Next(s, e))
  {
    hide Used;
    var s' := Next(s, e);
    forall k | k in s'.table ensures Used(s', k, s'.table[k]) {
      if k in s.table && s'.table[k] == s.table[k] {
        UsedStays(s, e, k, s.table[k]);
      } else {
        assert Used(s', k, s'.table[k]) by { LastPass(s', e.m, e.now); }
      }
    }
  }

  lemma LastPass(s: State, m: Message, at: int)
    requires s.passes != [] && s.passes[|s.passes| - 1] == Pass(m, at)
    ensures Used(s, m.nonce, at)
  {
  }

  lemma {:induction false} RunIsHonest(s: State, events: seq<Event>)
    requires Honest(s)
    ensures Honest(After(s, events))
    decreases |events|
  {
    hide Honest, Next;
    if events != [] {
      StepIsHonest(s, events[0]);
      RunIsHonest(Next(s, events[0]), events[1..]);
    }
  }

  /** A fresh message is refused only when its nonce was let through within the last twenty minutes. */
  lemma RefusedOnlyIfUsed(clock: int, events: seq<Event>, m: Message, now: int)
    requires WithinSkew(now, m.timestamp) && Looked(After(Init(clock), events).table, m.nonce, now).1
    ensures exists at :: at >= now - 1200 && Used(After(Init(clock), events), m.nonce, at)
  {
    hide After, Used;
    RunIsHonest(Init(clock), events);
    var s := After(Init(clock), events);
    assert Used(s, m.nonce, s.table[m.nonce]);
  }
}
