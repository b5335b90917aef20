/** A run of the gateway pool, step by step, in which a load starts behind a closed gate.  It goes on where
  the first ten steps of GatewayOverrun have left a manager of a UNLOADED: a caller of a passes the
  admission test and waits for the condition, which an eviction holds; the gate of a closes; the eviction
  ends; and the caller restarts the manager. */
module GatewayGateRun {
  import opened Sums
  import opened GatewayPool
  import opened GatewaySystem
  import opened GatewayProofs
  import opened GatewayTheorems
  import opened GatewayPins
  import opened GatewayBudget
  import opened GatewayGate
  import R = GatewayOverrun
  import L = ServerLifecycle

  const STARTING := R.LOADING.(load := L.Starting)
  const POLLING := R.LOADING.(load := L.Polling, proc := L.Live)
  const READY := L.Server(L.Ready, L.Live, [true], false, L.Idle, false, L.NoUnload, 0, 0)
  const UNLOADING := READY.(state := L.Unloading, unload := L.Killing)

  function Now(a: ModelId, b: ModelId, d: ModelId, p: Pool, inst: map<Handle, Inst>, cond: Option<TaskId>,
               locks: map<ModelId, TaskId>, callers: map<TaskId, Caller>, granted: set<Handle>): Gw {
    Gw(p, inst, R.Reg(a, b, d), None, 0, cond, locks, callers, map[], granted, true, false)
  }

  function Two(a: ModelId, b: ModelId, s: L.Server): map<Handle, Inst> { map[0 := Inst(a, 7, R.FAILED), 1 := Inst(b, 8, s)] }

  function Three(a: ModelId, b: ModelId, d: ModelId, s: L.Server): map<Handle, Inst> {
    map[0 := Inst(a, 7, s), 1 := Inst(b, 8, R.FAILED.(loadError := false)), 2 := Inst(d, 8, R.LOADING)]
  }

  function SecondWaits(b: ModelId): map<TaskId, Caller> { map[2 := Caller(b, 0, 1.0, Waiting(1, 0))] }
  function Third(d: ModelId, pc: Pc): map<TaskId, Caller> { map[3 := Caller(d, 0, 1.0, pc)] }
  function Fourth(d: ModelId, a: ModelId, pc: Pc, qc: Pc): map<TaskId, Caller> {
    map[3 := Caller(d, 0, 1.0, pc), 4 := Caller(a, 0, 1.0, qc)]
  }

  function Closing(a: ModelId, b: ModelId): Pool { R.PoolAB(a, b).(blocked := {a}) }
  function Evicted(a: ModelId): Pool { Pool(map[a := 0], map[a := 7], [8], [], {}, {a}) }
  function Replaced(a: ModelId, d: ModelId): Pool { Pool(map[a := 0, d := 2], map[a := 7, d := 8], [], [], {}, {a}) }

  const EVICTING := Evicting(1, false, true)

  function Stage(a: ModelId, b: ModelId, d: ModelId, k: nat): Gw {
    if k <= 10 then R.Stage(a, b, d, k)
    else if k == 11 then Now(a, b, d, R.PoolAB(a, b), Two(a, b, R.ATTESTING), None, map[b := 2], SecondWaits(b), {})
    else if k == 12 then Now(a, b, d, R.PoolAB(a, b), Two(a, b, STARTING), None, map[b := 2], SecondWaits(b), {})
    else if k == 13 then Now(a, b, d, R.PoolAB(a, b), Two(a, b, POLLING), None, map[b := 2], SecondWaits(b), {})
    else if k == 14 then Now(a, b, d, R.PoolAB(a, b), Two(a, b, READY), None, map[b := 2], SecondWaits(b), {})
    else if k == 15 then Now(a, b, d, R.PoolAB(a, b), Two(a, b, READY), None, map[], map[], {1})
    else if k == 16 then Now(a, b, d, R.PoolAB(a, b), Two(a, b, READY), None, map[], Third(d, WantLock), {1})
    else if k == 17 then Now(a, b, d, R.PoolAB(a, b), Two(a, b, READY), None, map[d := 3], Third(d, Entering), {1})
    else if k == 18 then Now(a, b, d, R.PoolAB(a, b), Two(a, b, UNLOADING), Some(3), map[d := 3], Third(d, EVICTING), {1})
    else if k == 19 then
      Now(a, b, d, R.PoolAB(a, b), Two(a, b, UNLOADING), Some(3), map[d := 3], Fourth(d, a, EVICTING, WantLock), {1})
    else if k == 20 then
      Now(a, b, d, R.PoolAB(a, b), Two(a, b, UNLOADING), Some(3), map[d := 3, a := 4], Fourth(d, a, EVICTING, Entering), {1})
    else if k == 21 then
      Now(a, b, d, R.PoolAB(a, b), Two(a, b, UNLOADING), Some(3), map[d := 3, a := 4], Fourth(d, a, EVICTING, WantCond), {1})
    else if k == 22 then
      Now(a, b, d, Closing(a, b), Two(a, b, UNLOADING), Some(3), map[d := 3, a := 4], Fourth(d, a, EVICTING, WantCond), {1})
    else if k == 23 then
      Now(a, b, d, Evicted(a), Two(a, b, R.FAILED.(loadError := false)), Some(3), map[d := 3, a := 4], Fourth(d, a, EVICTING, WantCond), {1})
    else if k == 24 then
      Now(a, b, d, Replaced(a, d), Three(a, b, d, R.FAILED), None, map[d := 3, a := 4], Fourth(d, a, Waiting(2, 0), WantCond), {1})
    else
      Now(a, b, d, Replaced(a, d), Three(a, b, d, R.RELOADING), None, map[d := 3, a := 4], Fourth(d, a, Waiting(2, 0), Waiting(0, 1)), {1})
  }

  function Script(a: ModelId, b: ModelId, d: ModelId): seq<Step> {
    R.Script(a, b, d)[..10] +
    [Server(1, L.TaskRuns), Server(1, L.Attested), Server(1, L.Spawned), Server(1, L.Healthy(0)), Wake(2, false, false),
     Arrive(3, d), TakeLock(3), Enter(3, 1, 2, false, false), Arrive(4, a), TakeLock(4), EnterWait(4), SetBlocked(a, true),
     Server(1, L.UnloadKilled), EvictionOver(3, 0, 2), GetCond(4, 0, 3, false, false)]
  }

  lemma SecondMoves(a: ModelId, b: ModelId, d: ModelId, s: L.Server, e: L.Event)
    requires R.Distinct(a, b, d) && ServerEvent(e) && !e.UnloadKilled? && !e.CrashSeen? && L.Enabled(s, e)
    ensures R.Goes(Now(a, b, d, R.PoolAB(a, b), Two(a, b, s), None, map[b := 2], SecondWaits(b), {}), Server(1, e),
                   Now(a, b, d, R.PoolAB(a, b), Two(a, b, L.Apply(s, e)), None, map[b := 2], SecondWaits(b), {}))
  {
    hide R.Goes, L.Apply, L.Enabled;
    R.ServerGoes(Now(a, b, d, R.PoolAB(a, b), Two(a, b, s), None, map[b := 2], SecondWaits(b), {}), 1, e);
    assert Two(a, b, s)[1 := Inst(b, 8, L.Apply(s, e))] == Two(a, b, L.Apply(s, e));
  }

  lemma SecondLoads(a: ModelId, b: ModelId, d: ModelId)
    requires R.Distinct(a, b, d)
    ensures R.Goes(Stage(a, b, d, 10), Server(1, L.TaskRuns), Stage(a, b, d, 11))
    ensures R.Goes(Stage(a, b, d, 11), Server(1, L.Attested), Stage(a, b, d, 12))
    ensures R.Goes(Stage(a, b, d, 12), Server(1, L.Spawned), Stage(a, b, d, 13))
    ensures R.Goes(Stage(a, b, d, 13), Server(1, L.Healthy(0)), Stage(a, b, d, 14))
  {
    hide R.Goes, Now, R.Stage;
    TenthIs(a, b, d);
    SecondMoves(a, b, d, R.LOADING, L.TaskRuns);
    SecondMoves(a, b, d, R.ATTESTING, L.Attested);
    SecondMoves(a, b, d, STARTING, L.Spawned);
    SecondMoves(a, b, d, POLLING, L.Healthy(0));
    assert L.Apply(POLLING, L.Healthy(0)) == READY;
  }

  lemma TenthIs(a: ModelId, b: ModelId, d: ModelId)
    ensures R.Stage(a, b, d, 10) == Now(a, b, d, R.PoolAB(a, b), Two(a, b, R.LOADING), None, map[b := 2], SecondWaits(b), {})
  {
  }

  lemma SecondGranted(a: ModelId, b: ModelId, d: ModelId)
    requires R.Distinct(a, b, d)
    ensures R.Goes(Stage(a, b, d, 14), Wake(2, false, false), Stage(a, b, d, 15))
  {
    SecondWakes(a, b, d);
    SecondReturns(a, b, d);
    hide DoWake, CanWake, Stage;
  }

  lemma SecondWakes(a: ModelId, b: ModelId, d: ModelId)
    requires R.Distinct(a, b, d)
    ensures CanWake(Stage(a, b, d, 14), 2, false) && Registered(Stage(a, b, d, 14))
  {
  }

  lemma SecondReturns(a: ModelId, b: ModelId, d: ModelId)
    requires R.Distinct(a, b, d) && CanWake(Stage(a, b, d, 14), 2, false)
    ensures DoWake(Stage(a, b, d, 14), 2, false, false) == Stage(a, b, d, 15)
  {
    hide CanWake;
    var g' := DoWake(Stage(a, b, d, 14), 2, false, false);
    assert g'.callers == map[] && g'.locks == map[] && g'.granted == {1};
    assert g'.inst == Two(a, b, READY) && g'.pool == R.PoolAB(a, b);
  }

  lemma ThirdArrives(a: ModelId, b: ModelId, d: ModelId)
    requires R.Distinct(a, b, d)
    ensures R.Goes(Stage(a, b, d, 15), Arrive(3, d), Stage(a, b, d, 16))
    ensures R.Goes(Stage(a, b, d, 16), TakeLock(3), Stage(a, b, d, 17))
  {
    hide R.Goes;
    R.ArriveGoes(Stage(a, b, d, 15), 3, d);
    R.TakeLockGoes(Stage(a, b, d, 16), 3);
    assert Third(d, WantLock)[3 := Caller(d, 0, 1.0, Entering)] == Third(d, Entering);
    assert map[][3 := Caller(d, 0, 1.0, WantLock)] == Third(d, WantLock);
  }

  lemma BIsVictim(a: ModelId, b: ModelId, d: ModelId)
    requires R.Distinct(a, b, d)
    ensures var g := Stage(a, b, d, 17); IsVictim(g, d, 1) && HasVictim(g, d) && ChoicesOk(g, 3, 1, 2) && Registered(g)
  {
    var g := Stage(a, b, d, 17);
    assert Evictable(g.pool, Views(g.inst), d, b);
    assert IsLru(g.pool, Views(g.inst), d, b);
  }

  lemma ThirdEvicts(a: ModelId, b: ModelId, d: ModelId)
    requires R.Distinct(a, b, d)
    ensures R.Goes(Stage(a, b, d, 17), Enter(3, 1, 2, false, false), Stage(a, b, d, 18))
  {
    hide ChoicesOk, IsVictim, HasVictim, Registered, Admitted, BeginEvict, DoEnter, CanEnter;
    BIsVictim(a, b, d);
    ThirdFindsNoPort(a, b, d);
    EvictEnters(Stage(a, b, d, 17), 3, 1, 2);
    VictimUnloads(a, b, d);
  }

  lemma ThirdFindsNoPort(a: ModelId, b: ModelId, d: ModelId)
    requires R.Distinct(a, b, d)
    ensures var g := Stage(a, b, d, 17);
            && At(g, 3, Entering) && g.callers[3] == Caller(d, 0, 1.0, Entering) && g.cond == None && Admitted(g, d)
            && d !in g.pool.managers && g.pool.free == [] && g.pool.waiters == [] && d in g.reg && g.reg[d].vram == 1.0
  {
  }

  lemma VictimUnloads(a: ModelId, b: ModelId, d: ModelId)
    requires R.Distinct(a, b, d)
    ensures var g := Stage(a, b, d, 17); 3 in g.callers && 1 in g.inst && BeginEvict(g, 3, 1, false, true) == Stage(a, b, d, 18)
  {
    var g' := BeginEvict(Stage(a, b, d, 17), 3, 1, false, true);
    assert g'.callers == Third(d, EVICTING) && g'.inst == Two(a, b, UNLOADING);
  }

  /** A newcomer that finds no port free evicts the victim. */
  lemma EvictEnters(g: Gw, c: TaskId, v: Handle, h: Handle)
    requires At(g, c, Entering) && g.callers[c].attempt == 0 && g.cond == None && Registered(g) && ChoicesOk(g, c, v, h)
    requires Admitted(g, g.callers[c].model) && g.callers[c].model !in g.pool.managers && g.pool.free == [] && g.pool.waiters == []
    requires HasVictim(g, g.callers[c].model) && g.callers[c].need == g.reg[g.callers[c].model].vram <= R.CFG.budget
    ensures CanEnter(g, c, v, h, false) && DoEnter(g, R.CFG, c, v, h, false, false) == BeginEvict(g, c, v, false, true)
  {
    assert Begin(g, c) == g;
    hide HasVictim, IsVictim, BeginEvict, Used, Begin;
  }

  lemma FourthArrives(a: ModelId, b: ModelId, d: ModelId)
    requires R.Distinct(a, b, d)
    ensures R.Goes(Stage(a, b, d, 18), Arrive(4, a), Stage(a, b, d, 19))
    ensures R.Goes(Stage(a, b, d, 19), TakeLock(4), Stage(a, b, d, 20))
  {
    hide R.Goes;
    R.ArriveGoes(Stage(a, b, d, 18), 4, a);
    R.TakeLockGoes(Stage(a, b, d, 19), 4);
    assert Third(d, EVICTING)[4 := Caller(a, 0, 1.0, WantLock)] == Fourth(d, a, EVICTING, WantLock);
    assert Fourth(d, a, EVICTING, WantLock)[4 := Caller(a, 0, 1.0, Entering)] == Fourth(d, a, EVICTING, Entering);
  }

  lemma PassesTest(a: ModelId, b: ModelId, d: ModelId)
    requires R.Distinct(a, b, d)
    ensures R.Goes(Stage(a, b, d, 20), EnterWait(4), Stage(a, b, d, 21))
  {
    FourthPasses(a, b, d);
    FourthQueues(a, b, d);
    hide CanEnterWait, DoEnterWait, Stage;
  }

  lemma FourthPasses(a: ModelId, b: ModelId, d: ModelId)
    requires R.Distinct(a, b, d)
    ensures CanEnterWait(Stage(a, b, d, 20), 4) && Registered(Stage(a, b, d, 20))
  {
  }

  lemma FourthQueues(a: ModelId, b: ModelId, d: ModelId)
    requires R.Distinct(a, b, d) && CanEnterWait(Stage(a, b, d, 20), 4)
    ensures DoEnterWait(Stage(a, b, d, 20), 4) == Stage(a, b, d, 21)
  {
    hide CanEnterWait;
    var g' := DoEnterWait(Stage(a, b, d, 20), 4);
    assert g'.callers == Fourth(d, a, EVICTING, WantCond);
  }

  lemma Closes(a: ModelId, b: ModelId, d: ModelId)
    requires R.Distinct(a, b, d)
    ensures R.Goes(Stage(a, b, d, 21), SetBlocked(a, true), Stage(a, b, d, 22))
  {
    assert {} + {a} == {a};
  }

  lemma VictimLeaves(a: ModelId, b: ModelId, d: ModelId)
    requires R.Distinct(a, b, d)
    ensures R.Goes(Stage(a, b, d, 22), Server(1, L.UnloadKilled), Stage(a, b, d, 23))
  {
    hide Release, R.Goes;
    Unloaded(Stage(a, b, d, 22), 1);
    assert L.Apply(UNLOADING, L.UnloadKilled) == R.FAILED.(loadError := false);
    VictimReleased(a, b, d);
    hide L.Apply;
    assert Two(a, b, UNLOADING)[1 := Inst(b, 8, R.FAILED.(loadError := false))] == Two(a, b, R.FAILED.(loadError := false));
  }

  lemma Unloaded(g: Gw, h: Handle)
    requires h in g.inst && L.Enabled(g.inst[h].srv, L.UnloadKilled) && Registered(g)
    ensures R.Goes(g, Server(h, L.UnloadKilled),
                   g.(inst := g.inst[h := g.inst[h].(srv := L.Apply(g.inst[h].srv, L.UnloadKilled))],
                      pool := Release(g.pool, g.inst[h].model, h).0))
  {
    hide Release, L.Apply;
  }

  lemma VictimReleased(a: ModelId, b: ModelId, d: ModelId)
    requires R.Distinct(a, b, d)
    ensures Release(Closing(a, b), b, 1).0 == Evicted(a)
  {
    var p := Release(Closing(a, b), b, 1).0;
    assert p.managers == map[a := 0] && p.ports == map[a := 7];
  }

  lemma RoomForThird(a: ModelId, b: ModelId, d: ModelId)
    requires R.Distinct(a, b, d)
    ensures var g := Stage(a, b, d, 23);
            && HasCapacity(g, R.CFG, 1.0) && Registered(g) && CanResumeEviction(g, 3, 0, 2)
            && g.callers[3] == Caller(d, 0, 1.0, EVICTING) && Admitted(g, d)
  {
    var g := Stage(a, b, d, 23);
    R.NoVictim(g, d);
    assert Loaded(g.pool.managers, g.inst, g.reg) == map[];
  }

  lemma ThirdLaunches(a: ModelId, b: ModelId, d: ModelId)
    requires R.Distinct(a, b, d)
    ensures R.Goes(Stage(a, b, d, 23), EvictionOver(3, 0, 2), Stage(a, b, d, 24))
  {
    hide HasCapacity, CanResumeEviction, Registered, Launch, TicketGone, Resumed, Stage, DoResumeEviction, Admitted;
    RoomForThird(a, b, d);
    LaunchesNow(Stage(a, b, d, 23), 3, 2);
    ThirdWaits(a, b, d);
  }

  lemma LaunchesNow(g: Gw, c: TaskId, h: Handle)
    requires CanResumeEviction(g, c, 0, h) && g.callers[c].pc == EVICTING && HasCapacity(g, R.CFG, g.callers[c].need)
    requires Admitted(g, g.callers[c].model)
    ensures DoResumeEviction(g, R.CFG, c, 0, h) == Launch(TicketGone(Resumed(g, c), c), c, h)
  {
    hide HasVictim, Launch, TicketGone, ChoicesOk;
    assert HasCapacity(Resumed(g, c), R.CFG, g.callers[c].need);
  }

  lemma ThirdWaits(a: ModelId, b: ModelId, d: ModelId)
    requires R.Distinct(a, b, d)
    ensures 3 in Stage(a, b, d, 23).callers && Stage(a, b, d, 23).callers[3].pc.Evicting?
    ensures Launch(TicketGone(Resumed(Stage(a, b, d, 23), 3), 3), 3, 2) == Stage(a, b, d, 24)
  {
    hide Launch, TicketGone;
    ThirdResumes(a, b, d);
    var g := Resumed(Stage(a, b, d, 23), 3);
    LaunchIs(g, 3, 2);
    R.FirstRound();
    hide Resumed, L.Apply;
    assert g.callers[3 := g.callers[3].(pc := Waiting(2, 0))] == Stage(a, b, d, 24).callers;
    assert g.inst[2 := Inst(d, 8, R.LOADING)] == Stage(a, b, d, 24).inst;
    assert Register(g.pool.(waiters := []), d, 2) == Stage(a, b, d, 24).pool;
  }

  lemma ThirdResumes(a: ModelId, b: ModelId, d: ModelId)
    requires R.Distinct(a, b, d)
    ensures 3 in Stage(a, b, d, 23).callers && Stage(a, b, d, 23).callers[3].pc.Evicting?
    ensures Resumed(Stage(a, b, d, 23), 3) ==
              Stage(a, b, d, 23).(callers := Fourth(d, a, Entering, WantCond), cond := None)
  {
    assert Fourth(d, a, EVICTING, WantCond)[3 := Caller(d, 0, 1.0, Entering)] == Fourth(d, a, Entering, WantCond);
  }

  /** A launch without a queue, field by field. */
  lemma LaunchIs(g: Gw, c: TaskId, h: Handle)
    requires c in g.callers && g.pool.free != [] && g.pool.waiters == []
    ensures c in TicketGone(g, c).callers && TicketGone(g, c).pool.free == g.pool.free
    ensures Launch(TicketGone(g, c), c, h) ==
              g.(callers := g.callers[c := g.callers[c].(pc := Waiting(h, 0))],
                 inst := g.inst[h := Inst(g.callers[c].model, g.pool.free[0], L.Apply(L.Fresh, L.EnsureLoaded(g.now)))],
                 pool := Register(g.pool.(waiters := []), g.callers[c].model, h))
  {
    hide L.Apply;
    assert g.callers[c := g.callers[c].(pc := Entering)][c := g.callers[c].(pc := Waiting(h, 0))]
        == g.callers[c := g.callers[c].(pc := Waiting(h, 0))];
  }

  lemma FourthReloads(a: ModelId, b: ModelId, d: ModelId)
    requires R.Distinct(a, b, d)
    ensures R.Goes(Stage(a, b, d, 24), GetCond(4, 0, 3, false, false), Stage(a, b, d, 25))
  {
    FourthMay(a, b, d);
    hide CanGetCond, Registered, UnderCondition, Stale, WaitFor, ChoicesOk, Stage;
    StaleIsWait(Stage(a, b, d, 24), R.CFG, 4, 0, 3, false, false);
    FourthWaits(a, b, d);
  }

  lemma FourthMay(a: ModelId, b: ModelId, d: ModelId)
    requires R.Distinct(a, b, d)
    ensures var g := Stage(a, b, d, 24);
            && CanGetCond(g, 4, 0, 3, false) && Registered(g) && ChoicesOk(g, 4, 0, 3)
            && 4 in g.callers && g.callers[4].model == a && Stale(g, a) == Some(0)
  {
    R.NoVictim(Stage(a, b, d, 24), a);
    hide HasVictim, IsVictim;
  }

  lemma FourthWaits(a: ModelId, b: ModelId, d: ModelId)
    requires R.Distinct(a, b, d)
    ensures var g := Stage(a, b, d, 24);
            && 4 in g.callers && 0 in g.inst && L.EnterOutcome(g.inst[0].srv) == L.Waits(1)
            && WaitFor(g, 4, 0, 1) == Stage(a, b, d, 25)
  {
    assert L.Apply(R.FAILED, L.EnsureLoaded(0)) == R.RELOADING;
    hide L.Apply;
    var g' := WaitFor(Stage(a, b, d, 24), 4, 0, 1);
    assert g'.callers == Stage(a, b, d, 25).callers && g'.inst == Stage(a, b, d, 25).inst;
  }

  /** The script from the eleventh step on. */
  lemma Steps(a: ModelId, b: ModelId, d: ModelId)
    ensures |Script(a, b, d)| == 25 && (forall k :: 0 <= k < 10 ==> Script(a, b, d)[k] == R.Script(a, b, d)[k])
    ensures Script(a, b, d)[10] == Server(1, L.TaskRuns) && Script(a, b, d)[11] == Server(1, L.Attested)
    ensures Script(a, b, d)[12] == Server(1, L.Spawned) && Script(a, b, d)[13] == Server(1, L.Healthy(0))
    ensures Script(a, b, d)[14] == Wake(2, false, false) && Script(a, b, d)[15] == Arrive(3, d) && Script(a, b, d)[16] == TakeLock(3)
    ensures Script(a, b, d)[17] == Enter(3, 1, 2, false, false) && Script(a, b, d)[18] == Arrive(4, a)
    ensures Script(a, b, d)[19] == TakeLock(4) && Script(a, b, d)[20] == EnterWait(4) && Script(a, b, d)[21] == SetBlocked(a, true)
    ensures Script(a, b, d)[22] == Server(1, L.UnloadKilled) && Script(a, b, d)[23] == EvictionOver(3, 0, 2)
    ensures Script(a, b, d)[24] == GetCond(4, 0, 3, false, false)
  {
    assert |R.Script(a, b, d)[..10]| == 10;
    hide R.Script;
  }

  lemma UpToEviction(a: ModelId, b: ModelId, d: ModelId)
    requires R.Distinct(a, b, d)
    ensures forall k :: 10 <= k < 18 ==> R.Goes(Stage(a, b, d, k), Script(a, b, d)[k], Stage(a, b, d, k + 1))
  {
    hide R.Goes, Stage, Script;
    Steps(a, b, d);
    SecondLoads(a, b, d);
    SecondGranted(a, b, d);
    ThirdArrives(a, b, d);
    ThirdEvicts(a, b, d);
  }

  lemma UpToReload(a: ModelId, b: ModelId, d: ModelId)
    requires R.Distinct(a, b, d)
    ensures forall k :: 18 <= k < 25 ==> R.Goes(Stage(a, b, d, k), Script(a, b, d)[k], Stage(a, b, d, k + 1))
  {
    hide R.Goes, Stage, Script;
    Steps(a, b, d);
    FourthArrives(a, b, d);
    PassesTest(a, b, d);
    Closes(a, b, d);
    VictimLeaves(a, b, d);
    ThirdLaunches(a, b, d);
    FourthReloads(a, b, d);
  }

  /** Twenty-five steps from the initial state: the gate of a closes with the twenty-second, and the
      twenty-fifth starts a load of a. */
  lemma LoadStartsBehindGate(a: ModelId, b: ModelId, d: ModelId)
    requires R.Distinct(a, b, d)
    ensures Init(Stage(a, b, d, 0), R.CFG) && |Script(a, b, d)| == 25
    ensures forall k :: 0 <= k < 25 ==> R.Goes(Stage(a, b, d, k), Script(a, b, d)[k], Stage(a, b, d, k + 1))
    ensures forall k :: 22 <= k <= 25 ==> !Admitted(Stage(a, b, d, k), a)
    ensures LoadStarts(Stage(a, b, d, 24), Stage(a, b, d, 25), a)
  {
    hide R.Goes, Stage, Script, Admitted, LoadStarts;
    Steps(a, b, d);
    Shut(a, b, d);
    FirstTen(a, b, d);
    UpToEviction(a, b, d);
    UpToReload(a, b, d);
  }

  lemma Shut(a: ModelId, b: ModelId, d: ModelId)
    requires R.Distinct(a, b, d)
    ensures forall k :: 22 <= k <= 25 ==> !Admitted(Stage(a, b, d, k), a)
    ensures LoadStarts(Stage(a, b, d, 24), Stage(a, b, d, 25), a)
  {
  }

  lemma FirstTen(a: ModelId, b: ModelId, d: ModelId)
    requires R.Distinct(a, b, d)
    ensures Init(Stage(a, b, d, 0), R.CFG)
    ensures forall k :: 0 <= k < 10 ==> R.Goes(Stage(a, b, d, k), Script(a, b, d)[k], Stage(a, b, d, k + 1))
  {
    hide R.Goes, R.Stage, Script;
    Steps(a, b, d);
    R.FirstLoad(a, b, d);
    R.LoadFailed(a, b, d);
    R.SecondLoad(a, b, d);
    R.Starts(a, b, d);
  }
}
