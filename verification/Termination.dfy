/** Ending a grant: pass after pass over its process group until the kernel says it is empty. */
module Termination {
  import opened Bytes
  import opened WardenState

  /** A grant after the passes, which leave alone whatever is not closing. */
  function AfterLooks(g: Grant, looks: seq<Look>): Grant
    decreases |looks|
  {
    if looks == [] then g
    else
      var before := AfterLooks(g, looks[..|looks| - 1]);
      if before.state.Closing? then Terminated(before, looks[|looks| - 1]) else before
  }

  /** Pass `i` finds the grant still closing. */
  predicate FindsClosing(g: Grant, looks: seq<Look>, i: nat)
    requires i <= |looks|
  {
    AfterLooks(g, looks[..i]).state.Closing?
  }

  function SentAt(g: Grant, looks: seq<Look>, i: nat, grace: int): Signal
    requires i < |looks|
  {
    SignalSent(AfterLooks(g, looks[..i]), looks[i], grace)
  }

  lemma OneLook(g: Grant, looks: seq<Look>, i: nat)
    requires i < |looks|
    ensures AfterLooks(g, looks[..i + 1]) ==
            var before := AfterLooks(g, looks[..i]); if before.state.Closing? then Terminated(before, looks[i]) else before
  {
    assert looks[..i + 1][..i] == looks[..i];
  }

  /** A grant that is closing is one that no pass so far has seen empty; the first pass set its clock. */
  lemma {:induction false} StillClosing(g: Grant, looks: seq<Look>, j: nat)
    requires g.state.Closing? && !g.termSent && j <= |looks|
    ensures AfterLooks(g, looks[..j]).state.Closing? || AfterLooks(g, looks[..j]).state.Closed?
    ensures FindsClosing(g, looks, j) <==> forall i :: 0 <= i < j ==> !SeenEmpty(looks[i])
    ensures FindsClosing(g, looks, j) && j > 0 ==> AfterLooks(g, looks[..j]) == TermStarted(g, looks[0].at)
    decreases j
  {
    if j > 0 {
      StillClosing(g, looks, j - 1);
      OneLook(g, looks, j - 1);
    }
  }

  /** The grant becomes Closed exactly in the first pass that sees its group absent or empty. */
  lemma ClosedWhenSeenEmpty(g: Grant, looks: seq<Look>, i: nat)
    requires g.state.Closing? && !g.termSent && i < |looks|
    ensures FindsClosing(g, looks, i) && AfterLooks(g, looks[..i + 1]).state.Closed? <==>
            SeenEmpty(looks[i]) && forall h :: 0 <= h < i ==> !SeenEmpty(looks[h])
  {
    StillClosing(g, looks, i);
    StillClosing(g, looks, i + 1);
  }

  /** Kill is sent exactly from the grace period after the first pass on; before that, Term. */
  lemma KillAfterGrace(g: Grant, looks: seq<Look>, i: nat, grace: int)
    requires g.state.Closing? && !g.termSent && i < |looks| && FindsClosing(g, looks, i) && looks[i].present
    ensures SentAt(g, looks, i, grace) == (if looks[i].at - looks[0].at >= grace then Kill else Term)
  {
    StillClosing(g, looks, i);
    assert looks[..0] == [];
  }

  /** Passes come in time order and at most `t` apart, the first at most `t` after the closing. */
  predicate Paced(looks: seq<Look>, closed: int, t: int) {
    && (|looks| > 0 ==> closed <= looks[0].at <= closed + t)
    && (forall i :: 0 < i < |looks| ==> looks[i - 1].at <= looks[i].at <= looks[i - 1].at + t)
  }

  /** A killed group is empty `k` later: nothing holds out, and no hook puts another process in. */
  predicate KillWorks(g: Grant, looks: seq<Look>, grace: int, k: int) {
    forall i, j :: 0 <= i < j < |looks| && FindsClosing(g, looks, i) && SentAt(g, looks, i, grace) == Kill && looks[j].at >= looks[i].at + k ==>
      SeenEmpty(looks[j])
  }

  /** The first pass at or after a moment. */
  lemma FirstFrom(looks: seq<Look>, from: int, j: nat, t: int, closed: int) returns (i: nat)
    requires j < |looks| && looks[j].at >= from && Paced(looks, closed, t)
    ensures i <= j && looks[i].at >= from && (i > 0 ==> looks[i].at < from + t)
  {
    i := 0;
    while looks[i].at < from
      invariant i <= j && (i > 0 ==> looks[i - 1].at < from)
      decreases j - i
    {
      i := i + 1;
    }
  }

  /** Every pass that finds the grant closing comes within the grace period, the kill's delay and three pass intervals. */
  lemma ClosingIsBounded(g: Grant, looks: seq<Look>, j: nat, closed: int, grace: int, k: int, t: int)
    requires g.state.Closing? && !g.termSent && grace >= 0 && k >= 0 && t >= 0
    requires Paced(looks, closed, t) && KillWorks(g, looks, grace, k) && j < |looks| && FindsClosing(g, looks, j)
    ensures looks[j].at <= closed + grace + k + 3 * t
  {
    var from := looks[0].at + grace;
    if looks[j].at > closed + grace + k + 3 * t {
      var i := FirstFrom(looks, from, j, t, closed);
      StillClosing(g, looks, j);
      StillClosing(g, looks, i);
      KillAfterGrace(g, looks, i, grace);
      assert false;
    }
  }
}
