/** Runs of the host that reach the states the reopening theorems speak of. */
module HostWitness {
  import opened Bytes
  import opened Ids
  import opened WardenState
  import opened Protocol
  import opened Runs
  import opened HostInvariant
  import opened HostSteps
  import opened Origins
  import opened Reopening
  import opened ReopenRuns
  import S = Redemption
  import Store
  import Erasure
  import W = Witness

  const CONFIG: Config := Config(W.ENV, [115], [117], 0, 10)
  const START: World := Init(1000 * SECOND, 0)
  const GRANT: Id := W.GrantId(97)
  const SERIAL: Store.uint64 := 7

  // ---- A redeemed grant in the signer's database

  /** The grant, redeemed and recorded, valid until second 5000; the clock shows 1000. */
  predicate HasGrant(sg: S.State) {
    && sg.clock == 1000 && GRANT in sg.db.grants && Store.SerialOf(sg.db, GRANT) == Some(SERIAL)
    && var r := sg.db.grants[GRANT];
    r.revokedAt.None? && r.redeemedAt.Some? && r.expiresAt == 5000 && r.sshUser == [117]
  }

  /** The warden has met no grant yet. */
  predicate Fresh(world: World) {
    Sane(world) && world.ended == {} && world.met == {} && world.recovery.None?
  }

  function Lifted(steps: seq<S.Step>): seq<Step> {
    seq(|steps|, i requires 0 <= i < |steps| => Signer(steps[i]))
  }

  /** What the signer does alone, the host can do. */
  lemma {:induction false} LiftedRuns(cfg: Config, world: World, steps: seq<S.Step>)
    requires Fresh(world) && S.ValidRun(cfg.env, world.sg, steps) && forall i :: 0 <= i < |steps| ==> !steps[i].Tick?
    ensures ValidRun(cfg, world, Lifted(steps)) && AllowedRun(cfg, Prompt, world, Lifted(steps))
    ensures After(cfg, world, Lifted(steps)) == world.(sg := S.After(cfg.env, world.sg, steps))
    decreases steps
  {
    hide S.Next, S.Enabled, Sane;
    if steps != [] {
      var step, rest := Signer(steps[0]), steps[1..];
      var world' := world.(sg := S.Next(cfg.env, world.sg, steps[0]));
      SaneStays(world, world'.sg);
      LiftedRuns(cfg, world', rest);
      assert Lifted(steps)[1..] == Lifted(rest);
    }
  }

  lemma SaneStays(world: World, sg: S.State)
    requires Sane(world)
    ensures Sane(world.(sg := sg))
  {
    assert forall call :: CallSane(world, call) == CallSane(world.(sg := sg), call);
  }

  const CREATES: seq<S.Step> := [S.Create(GRANT, [1], [117], 1000, 5000)]
  const STARTS: seq<S.Step> := [S.Begin(0, W.At(97, 1000)), S.Prune(0)]
  const REDEEMS: seq<S.Step> := [S.Insert(0), S.DoClaim(0), S.Record(0, SERIAL)]

  function Created(): S.State {
    var db := Store.Inserted(Store.DB(map[], map[], map[]), GRANT, [1], [117], 1000, 5000);
    S.Init(1000).(db := db, ever := map[GRANT := db.grants[GRANT]])
  }

  lemma Creating()
    ensures S.ValidRun(W.ENV, S.Init(1000), CREATES) && S.StallAtMost(W.ENV, S.Init(1000), CREATES, 0)
    ensures S.After(W.ENV, S.Init(1000), CREATES) == Created()
  {
    hide W.GrantId;
    S.Prepended(W.ENV, S.Init(1000), CREATES[0], [], CREATES, 0);
  }

  lemma Ready(s: S.State)
    requires s == Created().(calls := map[0 := S.Call(W.At(97, 1000), 1000, S.ToInsert)], db := s.db)
    requires s.db == Store.NoncesPurged(Created().db, 1000 - S.NONCE_RETENTION)
    ensures Erasure.WillSucceed(W.ENV, s, 0, SERIAL)
  {
    hide S.VerifyProof, S.Sound, W.GrantId, Ascii;
    W.SoundAt(97, 1000);
    assert [117] != Ascii("root") by { RootIsLonger(); }
  }

  lemma RootIsLonger()
    ensures |Ascii("root")| == 4
  {
  }

  lemma ClaimKeeps(env: S.Env, s: S.State, c: nat, serial: Store.uint64)
    requires Erasure.WillSucceed(env, s, c, serial)
    ensures var g, s' := s.calls[c].req.payload.grantId, Erasure.AfterRest(env, s, c, serial);
            && g in s.db.grants && g in s'.db.grants && s'.db.grants[g].redeemedAt.Some?
            && s'.db.grants[g] == s.db.grants[g].(redeemedAt := s'.db.grants[g].redeemedAt, agentId := s'.db.grants[g].agentId,
                                                  keyFp := s'.db.grants[g].keyFp)
  {
    hide S.VerifyProof, S.KeyFp, S.Issue, S.ResponseFor;
  }

  lemma Redeemed()
    ensures var steps := CREATES + (STARTS + REDEEMS);
            S.ValidRun(W.ENV, S.Init(1000), steps) && HasGrant(S.After(W.ENV, S.Init(1000), steps))
  {
    hide S.ValidRun, S.After, S.StallAtMost, S.Sound, S.VerifyProof, Erasure.WillSucceed, Erasure.AfterRest, W.GrantId;
    Creating();
    var s0 := Created();
    W.SoundAt(97, 1000);
    Erasure.Starts(W.ENV, s0, 0, W.At(97, 1000), 0);
    var s1 := S.After(W.ENV, s0, STARTS);
    Ready(s1);
    Erasure.Finishes(W.ENV, s1, 0, SERIAL, 0);
    ClaimKeeps(W.ENV, s1, 0, SERIAL);
    Store.SerialSurvivesSigned(SERIAL);
    S.Joined(W.ENV, s0, STARTS, REDEEMS, 0);
    S.Joined(W.ENV, S.Init(1000), CREATES, STARTS + REDEEMS, 0);
  }

  // ---- The host in that state

  const BEFORE: seq<Step> := Lifted(CREATES + (STARTS + REDEEMS))

  /** The signer has the grant; the warden has not started yet. */
  lemma Issued()
    ensures ValidRun(CONFIG, START, BEFORE) && AllowedRun(CONFIG, Prompt, START, BEFORE)
    ensures var world := After(CONFIG, START, BEFORE);
            Inv(CONFIG, world, Prompt) && HasGrant(world.sg) && world.wall == 1000 * SECOND && ValidGrantId(GRANT)
  {
    hide S.ValidRun, S.After, HasGrant, Inv, ValidRun, AllowedRun, After;
    Redeemed();
    LiftedRuns(CONFIG, START, CREATES + (STARTS + REDEEMS));
    InitialInv(CONFIG, 1000 * SECOND, 0, Prompt);
    RunKeepsInv(CONFIG, START, BEFORE, Prompt);
  }

  const VISIT: Visit := Visit(0, Proc(1, 1), W.AGENT_ID, SERIAL)

  lemma IsWelcome(world: World)
    requires HasGrant(world.sg) && 1000 * SECOND <= world.wall <= 2000 * SECOND && world.w.ready
    ensures Welcome(CONFIG, world, GRANT, VISIT) && Confirmed(world.sg, Unix(world.wall), GRANT)
  {
  }

  /** A restart that does, or does not, reach the signer, right after. */
  lemma Restarts(reachable: bool) returns (steps: seq<Step>, o: nat)
    ensures ValidRun(CONFIG, START, steps) && AllowedRun(CONFIG, Prompt, START, steps)
    ensures var world := After(CONFIG, START, steps);
            && Inv(CONFIG, world, Prompt) && Sourced(world) && HasGrant(world.sg) && world.wall == 1000 * SECOND && world.w.ready
            && world.calls == map[] && o in world.w.objs && world.w.objs[o].id == GRANT && LooksAt(world, o) == []
            && (if reachable then world.w.objs[o].state.Open?
                else world.w.objs[o].state.Closing? && world.w.objs[o].reason == UnverifiedAfterRestart)
  {
    hide HasGrant, Inv, ValidRun, AllowedRun, After, Init, Outcome, Confirmed, Welcome, Met, W.GrantId;
    Issued();
    var w0 := After(CONFIG, START, BEFORE);
    SavedIds(CONFIG, w0, Prompt);
    OutcomeIs(w0, GRANT, reachable);
    IsWelcome(w0.(w := w0.w.(ready := true)));
    var run, p := RestartAt(CONFIG, w0, GRANT, reachable);
    JoinedAllowed(CONFIG, Prompt, START, BEFORE, run);
    steps, o := BEFORE + run, p;
    InitialInv(CONFIG, 1000 * SECOND, 0, Prompt);
    RunKeepsInv(CONFIG, START, steps, Prompt);
    SourcedRun(CONFIG, 1000 * SECOND, 0, steps);
  }

  /** A grant closed unasked, that a visitor without any restart opens again. */
  lemma UnverifiedReopens() returns (before: seq<Step>, o: nat, steps: seq<Step>)
    ensures ValidRun(CONFIG, START, before) && AllowedRun(CONFIG, Prompt, START, before)
    ensures var world := After(CONFIG, START, before);
            && o in world.w.objs && world.w.objs[o].state.Closing? && world.w.objs[o].reason == UnverifiedAfterRestart
            && OpensIt(CONFIG, world, steps, world.w.objs[o].id) && forall i :: 0 <= i < |steps| ==> !steps[i].Crash?
  {
    hide HasGrant, Inv, ValidRun, AllowedRun, After, Init, OpensIt, Welcome;
    before, o := Restarts(false);
    var world := After(CONFIG, START, before);
    ObjectFacts(CONFIG, world, Prompt);
    IsWelcome(world.(wall := world.wall + WAIT));
    ForgottenReopens(CONFIG, world, o, VISIT);
    steps := Ending(world, o) + (Entering(CONFIG, GRANT, VISIT) + [CommitBind(VISIT.c)]);
  }

  lemma Unused(calls: map<nat, Call>) returns (d: nat)
    ensures d !in calls
  {
    d := Above(calls.Keys);
  }

  lemma {:induction false} Above(ids: set<nat>) returns (d: nat)
    ensures forall i :: i in ids ==> i < d
    decreases |ids|
  {
    d := 0;
    if ids != {} {
      var i: nat :| i in ids;
      var e := Above(ids - {i});
      d := if i < e then e else i + 1;
      assert forall j :: j in ids && j != i ==> j in ids - {i};
    }
  }

  /** A hook about to bind to an open grant. */
  lemma PoisedExists() returns (before: seq<Step>, o: nat, d: nat)
    ensures ValidRun(CONFIG, START, before) && AllowedRun(CONFIG, Prompt, START, before)
    ensures Poised(CONFIG, After(CONFIG, START, before), o, VISIT, d)
  {
    hide HasGrant, Inv, ValidRun, AllowedRun, After, Init, Welcome, Entering, AboutToBind;
    var first, p := Restarts(true);
    var w1 := After(CONFIG, START, first);
    ObjectFacts(CONFIG, w1, Prompt);
    IsWelcome(w1);
    Enters(CONFIG, w1, GRANT, VISIT, Prompt);
    JoinedAllowed(CONFIG, Prompt, START, first, Entering(CONFIG, GRANT, VISIT));
    before, o := first + Entering(CONFIG, GRANT, VISIT), p;
    d := Unused(After(CONFIG, START, before).calls);
    assert GRANT in w1.sg.db.grants by { InDb(w1.sg); }
  }

  lemma InDb(sg: S.State)
    requires HasGrant(sg)
    ensures GRANT in sg.db.grants
  {
  }

  /** On this host the retention is exactly the age of answer that is safe. */
  lemma BoundIsTight(age: int)
    ensures AgeIsSafe(CONFIG, age) <==> age <= RETENTION
  {
    hide ValidRun, AllowedRun, After, Init, Poised, AgeIsSafe;
    var before, o, d := PoisedExists();
    AgeBound(CONFIG, 1000 * SECOND, 0, before, o, VISIT, d, age);
  }
}
