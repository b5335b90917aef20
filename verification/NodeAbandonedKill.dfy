/** A run of the node agent, step by step, at whose end a port is free while the process that was
  started on it is alive: the deadline of the operation falls into the kill that ensure_loaded
  started after its own timeout. */
module NodeAbandonedKill {
  import opened Sums
  import opened GatewayPool
  import opened NodeAgent
  import opened NodeSystem
  import opened NodeProofs
  import opened NodeTheorems
  import L = ServerLifecycle

  const CFG := Config(1.0, {7})

  function TheDef(m: ModelId): Def { Def(m, 5, 1.0) }

  function TheRequest(m: ModelId): Request { Request(TheDef(m), None, Some(1), Some(1), true, 0, 0) }

  const LOADING := L.Server(L.Loading, L.NoProcess, [false], false, L.Created, false, L.NoUnload, 0, 0)
  const POLLING := LOADING.(load := L.Polling, proc := L.Live)
  const TIMED_OUT := POLLING.(state := L.Unloading, cancelled := true, unload := L.AwaitLoad)
  const CANCELLED := L.Server(L.Unloading, L.Live, [true], false, L.Idle, false, L.AwaitLoad, 0, 0)

  function TheServer(k: nat): L.Server {
    if k == 5 then LOADING
    else if k == 6 then LOADING.(load := L.Attesting)
    else if k == 7 then LOADING.(load := L.Starting)
    else if k == 8 then POLLING
    else if k == 9 then TIMED_OUT
    else if k == 10 then CANCELLED
    else if k <= 12 then CANCELLED.(unload := L.Killing)
    else CANCELLED.(unload := L.Stuck)
  }

  function ThePc(k: nat): RunPc {
    if k <= 1 then Created
    else if k == 2 then Validating
    else if k == 3 then WantLock
    else if k == 4 then Child(ChildStart)
    else if k <= 8 then Child(InEnsure(0, 0))
    else if k <= 11 then Child(InTimeoutUnload(0))
    else if k == 12 then Aborting(InTimeoutUnload(0), false)
    else Aborting(ChildDone(false), true)
  }

  function Running(m: ModelId, k: nat): Node {
    Node(
      Agent(map[1 := Op(TheDef(m), 1, if k == 1 then Accepted else OpState.Loading, 0, None)], map[m := 1],
            if k < 5 then map[] else map[m := 0], if k < 5 then map[] else map[m := 7], if k < 5 then {7} else {}, map[]),
      if k < 5 then map[] else map[0 := Inst(TheDef(m), 7, TheServer(k))],
      if k < 4 then map[] else map[m := RunOf(1)], map[1 := ThePc(k)], map[], None, 0)
  }

  function Stage(m: ModelId, k: nat): Node {
    if k == 0 then Node(Agent(map[], map[], map[], map[], {7}, map[]), map[], map[], map[], map[], None, 0)
    else if k < 14 then Running(m, k)
    else
      Node(Agent(map[1 := Op(TheDef(m), 1, DeadlineExceeded, 0, Some(0))], map[], map[], map[], {7}, map[]),
           map[0 := Inst(TheDef(m), 7, TheServer(13))], map[], map[], map[], None, 0)
  }

  function Script(m: ModelId): seq<Step> {
    [Start(TheRequest(m), map[]), RunBegins(1, false), Validated(1, true, false), RunLocks(1, false), ChildRuns(1, 0, 7),
     Server(0, L.TaskRuns), Server(0, L.Attested), Server(0, L.Spawned), ChildTimesOut(1),
     Server(0, L.CancelLands), Server(0, L.LoadAwaited), DeadlineHits(1), AbortLands(1), CleanBegins(1)]
  }

  ghost predicate Goes(n: Node, st: Step, n': Node) {
    Enabled(n, st) && Apply(n, CFG, st) == n'
  }

  lemma Begins(m: ModelId)
    ensures Goes(Stage(m, 0), Start(TheRequest(m), map[]), Stage(m, 1))
  {
    assert Recent(map[], map[], 0) == map[];
    var n' := DoStart(Stage(m, 0), TheRequest(m), map[]);
    assert n'.a.ops == Stage(m, 1).a.ops && n'.a.active == Stage(m, 1).a.active && n'.runs == Stage(m, 1).runs;
  }

  lemma Prepares(m: ModelId)
    ensures Goes(Stage(m, 1), RunBegins(1, false), Stage(m, 2)) && Goes(Stage(m, 2), Validated(1, true, false), Stage(m, 3))
    ensures Goes(Stage(m, 3), RunLocks(1, false), Stage(m, 4))
  {
    assert Stage(m, 1).a.ops[1 := Stage(m, 2).a.ops[1]] == Stage(m, 2).a.ops;
    assert Stage(m, 1).runs[1 := Validating] == Stage(m, 2).runs && Stage(m, 2).runs[1 := WantLock] == Stage(m, 3).runs;
    assert Stage(m, 3).runs[1 := Child(ChildStart)] == Stage(m, 4).runs && Stage(m, 3).locks[m := RunOf(1)] == Stage(m, 4).locks;
  }

  lemma RoomForOne(m: ModelId)
    ensures Fits(Stage(m, 4), CFG, 1.0) && Smallest(Stage(m, 4).a.free, 7)
  {
    assert Sizes(Stage(m, 4).a.managers, Stage(m, 4).inst) == map[];
  }

  lemma LaunchIs(m: ModelId)
    ensures Launch(Stage(m, 4), 1, 0, 7) == Stage(m, 5)
  {
    assert L.Apply(L.Fresh, L.EnsureLoaded(0)) == LOADING by { assert [] + [false] == [false]; }
    hide L.Apply;
    var n' := Launch(Stage(m, 4), 1, 0, 7);
    assert n'.a == Stage(m, 5).a;
    assert n'.inst == Stage(m, 5).inst && n'.runs == Stage(m, 5).runs;
  }

  lemma Launches(m: ModelId)
    ensures Goes(Stage(m, 4), ChildRuns(1, 0, 7), Stage(m, 5))
  {
    RoomForOne(m);
    LaunchIs(m);
    hide Fits, Smallest, Launch;
  }

  lemma ServerGoes(m: ModelId, k: nat, e: L.Event)
    requires 5 <= k < 12 && ServerEvent(e) && !e.UnloadKilled? && !e.CrashSeen? && ThePc(k + 1) == ThePc(k)
    requires L.Enabled(TheServer(k), e) && L.Apply(TheServer(k), e) == TheServer(k + 1)
    ensures Goes(Stage(m, k), Server(0, e), Stage(m, k + 1))
  {
    hide L.Apply, L.Enabled, TheServer;
    var n' := DoServer(Stage(m, k), 0, e);
    assert n'.inst == Stage(m, k + 1).inst && n'.runs == Stage(m, k + 1).runs;
  }

  lemma Spawns(m: ModelId)
    ensures forall k :: 5 <= k < 8 ==> Goes(Stage(m, k), Script(m)[k], Stage(m, k + 1))
  {
    hide Goes, Stage;
    ServerGoes(m, 5, L.TaskRuns);
    ServerGoes(m, 6, L.Attested);
    ServerGoes(m, 7, L.Spawned);
  }

  lemma TimesOut(m: ModelId)
    ensures Goes(Stage(m, 8), ChildTimesOut(1), Stage(m, 9))
  {
    hide DoChildTimesOut, Stage;
    TimesOutHere(m);
  }

  lemma TimesOutHere(m: ModelId)
    ensures WaitsOn(Stage(m, 8), 1) && DoChildTimesOut(Stage(m, 8), 1) == Stage(m, 9)
  {
    TimedOutServer();
    hide L.BeginUnload, TheServer;
    var n' := DoChildTimesOut(Stage(m, 8), 1);
    assert n'.inst == Stage(m, 9).inst && n'.runs == Stage(m, 9).runs;
  }

  lemma TimedOutServer()
    ensures TheServer(8).state == L.Loading && L.BeginUnload(TheServer(8)) == TheServer(9)
  {
  }

  lemma Kills(m: ModelId)
    ensures forall k :: 9 <= k < 11 ==> Goes(Stage(m, k), Script(m)[k], Stage(m, k + 1))
  {
    assert L.Signal([false]) == [true] && L.Signal([true]) == [true];
    ServerGoes(m, 9, L.CancelLands);
    ServerGoes(m, 10, L.LoadAwaited);
    hide Goes, Stage;
  }

  lemma DeadlinePasses(m: ModelId)
    ensures Goes(Stage(m, 11), DeadlineHits(1), Stage(m, 12))
  {
    assert Stage(m, 11).runs[1 := ThePc(12)] == Stage(m, 12).runs;
  }

  lemma Aborts(m: ModelId)
    ensures Goes(Stage(m, 12), AbortLands(1), Stage(m, 13))
  {
    hide DoAbortLands, Stage;
    AbortLandsHere(m);
  }

  lemma AbortLandsHere(m: ModelId)
    ensures Live(Stage(m, 12), 1) && Stage(m, 12).runs[1] == Aborting(InTimeoutUnload(0), false)
    ensures DoAbortLands(Stage(m, 12), 1) == Stage(m, 13)
  {
    StuckServer();
    hide L.Apply, TheServer;
    var n' := DoAbortLands(Stage(m, 12), 1);
    assert n'.runs == Stage(m, 13).runs;
    assert n'.inst == Stage(m, 13).inst;
  }

  lemma StuckServer()
    ensures TheServer(12).unload == L.Killing && L.Apply(TheServer(12), L.UnloadAborted) == TheServer(13)
  {
  }

  lemma DropIs(m: ModelId)
    ensures var a := Drop(Stage(m, 13), m, 0).a; a == Stage(m, 13).a.(managers := map[], ports := map[], free := {7})
  {
    var a := Drop(Stage(m, 13), m, 0).a;
    assert a.managers == map[] && a.ports == map[];
    assert a.identity == map[] && a.free == {7};
  }

  lemma Frees(m: ModelId)
    ensures Goes(Stage(m, 13), CleanBegins(1), Stage(m, 14))
  {
    FreesHere(m);
    hide Finish, Drop;
  }

  lemma FreesHere(m: ModelId)
    ensures 1 in Drop(Stage(m, 13), m, 0).a.ops && Finish(Drop(Stage(m, 13), m, 0), 1, DeadlineExceeded) == Stage(m, 14)
  {
    DropIs(m);
    hide ReleaseAgent;
    var n' := Finish(Drop(Stage(m, 13), m, 0), 1, DeadlineExceeded);
    assert n'.a.ops == Stage(m, 14).a.ops;
    assert n'.a.active == map[] && n'.runs == map[] && n'.locks == map[];
    assert n' == Stage(m, 14);
  }

  lemma Ends(m: ModelId)
    ensures Init(Stage(m, 0), CFG) && FreedAlive(Stage(m, 14), 0)
  {
  }

  /** Fourteen steps from the initial state. */
  lemma PortFreedUnderLiveProcess(m: ModelId)
    ensures Init(Stage(m, 0), CFG)
    ensures forall k :: 0 <= k < 14 ==> Goes(Stage(m, k), Script(m)[k], Stage(m, k + 1))
    ensures FreedAlive(Stage(m, 14), 0)
  {
    hide Goes, Stage, Init, FreedAlive;
    Ends(m);
    Begins(m);
    Prepares(m);
    Launches(m);
    Spawns(m);
    TimesOut(m);
    Kills(m);
    DeadlinePasses(m);
    Aborts(m);
    Frees(m);
  }
}
