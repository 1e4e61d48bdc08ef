/** The cap on redemption attempts per host: a table of times that is trimmed on every use. */
module SlidingWindow {
  const CAP: int := 60
  const SPAN: int := 60

  /** What is left after deleting the rows before `cut`. */
  function Trimmed(rows: seq<int>, cut: int): seq<int>
    decreases |rows|
  {
    if rows == [] then []
    else
      var last := rows[|rows| - 1];
      Trimmed(rows[..|rows| - 1], cut) + (if last < cut then [] else [last])
  }

  /** How many of the times lie in [lo, hi]. */
  function Within(times: seq<int>, lo: int, hi: int): nat
    decreases |times|
  {
    if times == [] then 0
    else Within(times[..|times| - 1], lo, hi) + (if lo <= times[|times| - 1] <= hi then 1 else 0)
  }

  /** Records the attempt unless the trimmed table is full. */
  function Attempted(rows: seq<int>, now: int): (seq<int>, bool) {
    var left := Trimmed(rows, now - SPAN);
    if |left| >= CAP then (left, false) else (left + [now], true)
  }

  // ---- Runs: attempts and hourly sweeps

  datatype Event = Attempt(now: int) | Sweep(now: int)

  /** The table, every time ever recorded, and the latest clock reading used on the table. */
  datatype State = State(rows: seq<int>, times: seq<int>, latest: int)

  function Init(clock: int): State {
    State([], [], clock)
  }

  function Max(a: int, b: int): int {
    if a < b then b else a
  }

  function Next(s: State, e: Event): State {
    match e
    case Attempt(now) =>
      var (rows, ok) := Attempted(s.rows, now);
      State(rows, if ok then s.times + [now] else s.times, Max(s.latest, now))
    case Sweep(now) => State(Trimmed(s.rows, now - SPAN), s.times, Max(s.latest, now))
  }

  function After(s: State, events: seq<Event>): State
    decreases |events|
  {
    if events == [] then s else After(Next(s, events[0]), events[1..])
  }

  /** No reading is more than `lag` behind one used before it. A lag of 0 is a clock that never goes back. */
  predicate Lagging(s: State, events: seq<Event>, lag: int)
    decreases |events|
  {
    events == [] || (events[0].now >= s.latest - lag && Lagging(Next(s, events[0]), events[1..], lag))
  }

  lemma {:induction false} TrimmedTwice(rows: seq<int>, a: int, b: int)
    ensures Trimmed(Trimmed(rows, a), b) == Trimmed(rows, Max(a, b))
    decreases |rows|
  {
    if rows != [] {
      var front, last := rows[..|rows| - 1], rows[|rows| - 1];
      TrimmedTwice(front, a, b);
      if last < a {
        assert Trimmed(rows, a) == Trimmed(front, a);
      } else {
        assert Trimmed(rows, a)[..|Trimmed(rows, a)| - 1] == Trimmed(front, a);
      }
    }
  }

  lemma TrimmedAppend(rows: seq<int>, t: int, cut: int)
    requires t >= cut
    ensures Trimmed(rows + [t], cut) == Trimmed(rows, cut) + [t]
  {
    assert (rows + [t])[..|rows + [t]| - 1] == rows;
  }

  lemma WithinAppend(times: seq<int>, t: int, lo: int, hi: int)
    ensures Within(times + [t], lo, hi) == Within(times, lo, hi) + (if lo <= t <= hi then 1 else 0)
  {
    assert (times + [t])[..|times + [t]| - 1] == times;
  }

  lemma {:induction false} WithinTrimmed(times: seq<int>, cut: int, lo: int, hi: int)
    requires lo >= cut
    ensures Within(times, lo, hi) <= |Trimmed(times, cut)|
    decreases |times|
  {
    if times != [] {
      WithinTrimmed(times[..|times| - 1], cut, lo, hi);
    }
  }

  /** The trimmed table is the part of the history a window ending at the latest reading sees. */
  lemma {:induction false} TrimmedIsWithin(times: seq<int>, cut: int, hi: int)
    requires forall i :: 0 <= i < |times| ==> times[i] <= hi
    ensures |Trimmed(times, cut)| == Within(times, cut, hi)
    decreases |times|
  {
    if times != [] {
      TrimmedIsWithin(times[..|times| - 1], cut, hi);
    }
  }

  ghost predicate Inv(s: State, lag: int) {
    && s.rows == Trimmed(s.times, s.latest - SPAN)
    && (forall i :: 0 <= i < |s.times| ==> s.times[i] <= s.latest)
    && forall lo, hi :: hi <= lo + SPAN - lag ==> Within(s.times, lo, hi) <= CAP
  }

  lemma StepKeepsInv(s: State, e: Event, lag: int)
    requires Inv(s, lag) && 0 <= lag <= SPAN && e.now >= s.latest - lag
    ensures Inv(Next(s, e), lag)
  {
    hide Within, Trimmed;
    var s', top := Next(s, e), Max(s.latest, e.now);
    TrimmedTwice(s.times, s.latest - SPAN, e.now - SPAN);
    if e.Attempt? && |Trimmed(s.rows, e.now - SPAN)| < CAP {
      TrimmedAppend(s.times, e.now, top - SPAN);
      forall lo, hi | hi <= lo + SPAN - lag ensures Within(s'.times, lo, hi) <= CAP {
        WithinAppend(s.times, e.now, lo, hi);
        if lo <= e.now <= hi {
          WithinTrimmed(s.times, top - SPAN, lo, hi);
        }
      }
    }
  }

  lemma {:induction false} RunKeepsInv(s: State, events: seq<Event>, lag: int)
    requires Inv(s, lag) && 0 <= lag <= SPAN && Lagging(s, events, lag)
    ensures Inv(After(s, events), lag)
    decreases |events|
  {
    hide Inv;
    if events != [] {
      StepKeepsInv(s, events[0], lag);
      RunKeepsInv(Next(s, events[0]), events[1..], lag);
    }
  }

  /**
   * Whatever the trimming and however attempts and sweeps mix: if readings lag at most `lag`
   * seconds behind, no window of 60 - lag seconds holds more than 60 recorded attempts.
   */
  lemma AtMostCapPerWindow(clock: int, events: seq<Event>, lag: int, w: int)
    requires 0 <= lag <= 60 && Lagging(Init(clock), events, lag)
    ensures Within(After(Init(clock), events).times, w, w + 60 - lag) <= 60
  {
    RunKeepsInv(Init(clock), events, lag);
  }

  /** With a clock that never goes back, an attempt is refused exactly when the minute up to it already holds 60. */
  lemma RefusedOnlyWhenFull(clock: int, events: seq<Event>, now: int)
    requires Lagging(Init(clock), events, 0) && now >= After(Init(clock), events).latest
    ensures var s := After(Init(clock), events);
            && (!Attempted(s.rows, now).1 <==> Within(s.times, now - 60, now) == 60)
            && Attempted(s.rows, now).0 == Trimmed(s.times, now - SPAN) + (if Attempted(s.rows, now).1 then [now] else [])
  {
    hide Inv, Within, Trimmed, After, Lagging;
    var s := After(Init(clock), events);
    RunTable(clock, events);
    AtMostCapPerWindow(clock, events, 0, now - SPAN);
    TrimmedTwice(s.times, s.latest - SPAN, now - SPAN);
    TrimmedIsWithin(s.times, now - SPAN, now);
  }

  /** With a clock that never goes back, the table is the trimmed history, and nothing in it lies ahead. */
  lemma RunTable(clock: int, events: seq<Event>)
    requires Lagging(Init(clock), events, 0)
    ensures var s := After(Init(clock), events);
            s.rows == Trimmed(s.times, s.latest - SPAN) && forall i :: 0 <= i < |s.times| ==> s.times[i] <= s.latest
  {
    RunKeepsInv(Init(clock), events, 0);
  }

  // ---- The clock is read before the redemption's other checks; a reading that lags by a second breaks the full minute

  function Repeat(n: nat): seq<Event> {
    if n == 0 then [] else [Attempt(0)] + Repeat(n - 1)
  }

  function Zeros(n: nat): seq<int> {
    if n == 0 then [] else Zeros(n - 1) + [0]
  }

  lemma {:induction false} ZerosStay(n: nat)
    ensures Trimmed(Zeros(n), -60) == Zeros(n) && Trimmed(Zeros(n), 1) == [] && |Zeros(n)| == n
    ensures Trimmed(Zeros(n), 0) == Zeros(n) && Within(Zeros(n), 0, 60) == n
  {
    if n > 0 {
      ZerosStay(n - 1);
      assert Zeros(n)[..n - 1] == Zeros(n - 1);
    }
  }

  function Filled(k: nat): State {
    State(Zeros(k), Zeros(k), 0)
  }

  lemma OneMore(k: nat)
    requires k < CAP
    ensures Next(Filled(k), Attempt(0)) == Filled(k + 1)
  {
    ZerosStay(k);
  }

  lemma {:induction false} Fill(k: nat, n: nat, rest: seq<Event>)
    requires k + n <= CAP
    ensures After(Filled(k), Repeat(n) + rest) == After(Filled(k + n), rest)
    ensures Lagging(Filled(k), Repeat(n) + rest, 1) == Lagging(Filled(k + n), rest, 1)
    decreases n
  {
    hide Next, Zeros;
    if n == 0 {
      assert Repeat(n) + rest == rest;
    } else {
      assert (Repeat(n) + rest)[0] == Attempt(0) && (Repeat(n) + rest)[1..] == Repeat(n - 1) + rest;
      OneMore(k);
      Fill(k + 1, n - 1, rest);
    }
  }

  lemma LateStep(n: nat)
    requires n == CAP
    ensures Next(Filled(n), Attempt(61)) == State([61], Zeros(n) + [61], 61)
    ensures Next(State([61], Zeros(n) + [61], 61), Attempt(60)) == State([61, 60], Zeros(n) + [61] + [60], 61)
  {
    ZerosStay(n);
    hide Zeros;
    assert Trimmed([61], 0) == [61] by { assert [61][..0] == []; }
  }

  /** A full minute's attempts at second 0, one at 61, and one whose reading of 60 comes in after that: one too many. */
  lemma LateReadingOverfills(n: nat)
    requires n == CAP
    ensures var events := Repeat(n) + [Attempt(61), Attempt(60)];
            Lagging(Init(0), events, 1) && Within(After(Init(0), events).times, 0, 60) == n + 1
  {
    hide Next, Zeros, Repeat, Within, Trimmed;
    var rest := [Attempt(61), Attempt(60)];
    assert Init(0) == Filled(0) by { ZerosStay(0); }
    Fill(0, n, rest);
    LateStep(n);
    assert rest[1..] == [Attempt(60)] && rest[1..][1..] == [];
    var s1 := State([61], Zeros(n) + [61], 61);
    assert After(Filled(n), rest) == After(s1, rest[1..]) == State([61, 60], Zeros(n) + [61] + [60], 61);
    ZerosStay(n);
    WithinAppend(Zeros(n) + [61], 60, 0, 60);
    WithinAppend(Zeros(n), 61, 0, 60);
  }

  lemma {:induction false} LagMonotone(s: State, events: seq<Event>, a: int, b: int)
    requires Lagging(s, events, a) && a <= b
    ensures Lagging(s, events, b)
    decreases |events|
  {
    hide Next;
    if events != [] {
      LagMonotone(Next(s, events[0]), events[1..], a, b);
    }
  }

  predicate MinuteFits(times: seq<int>, w: int) {
    Within(times, w, w + 60) <= 60
  }

  ghost predicate MinuteHolds(lag: int) {
    forall clock, events, w :: Lagging(Init(clock), events, lag) ==> MinuteFits(After(Init(clock), events).times, w)
  }

  /** The full-minute cap holds in every run exactly when no reading ever lags behind an earlier one. */
  lemma MinuteBound(lag: nat)
    ensures MinuteHolds(lag) <==> lag == 0
  {
    hide Next, Within, After, Lagging, Repeat;
    if lag == 0 {
      forall clock, events, w | Lagging(Init(clock), events, lag)
        ensures MinuteFits(After(Init(clock), events).times, w)
      {
        AtMostCapPerWindow(clock, events, lag, w);
      }
    } else {
      var n: nat := CAP;
      var events := Repeat(n) + [Attempt(61), Attempt(60)];
      LateReadingOverfills(n);
      LagMonotone(Init(0), events, 1, lag);
      assert !MinuteFits(After(Init(0), events).times, 0);
    }
  }
}
