/** A run of the gateway pool, step by step, in which the restart of a manager left behind by a
  cancelled caller takes the accounted VRAM over the budget. */
module GatewayOverrun {
  import opened Sums
  import opened GatewayPool
  import opened GatewaySystem
  import opened GatewayProofs
  import opened GatewayTheorems
  import opened GatewayPins
  import opened GatewayBudget
  import L = ServerLifecycle

  const CFG := Config(1.0, {7, 8}, 4, true)

  predicate Distinct(a: ModelId, b: ModelId, d: ModelId) { a != b && a != d && b != d }

  function Reg(a: ModelId, b: ModelId, d: ModelId): map<ModelId, Entry> {
    map[a := Entry(1.0, true), b := Entry(1.0, true), d := Entry(1.0, true)]
  }

  function At0(a: ModelId, b: ModelId, d: ModelId, p: Pool, inst: map<Handle, Inst>, locks: map<ModelId, TaskId>,
               callers: map<TaskId, Caller>, cancelled: bool): Gw {
    Gw(p, inst, Reg(a, b, d), None, 0, None, locks, callers, map[], {}, cancelled, false)
  }

  function Empty(): Pool { Pool(map[], map[], [7, 8], [], {}, {}) }
  function PoolA(a: ModelId): Pool { Pool(map[a := 0], map[a := 7], [8], [], {}, {}) }
  function PoolAB(a: ModelId, b: ModelId): Pool { Pool(map[a := 0, b := 1], map[a := 7, b := 8], [], [], {}, {}) }

  const LOADING := L.Server(L.Loading, L.NoProcess, [false], false, L.Created, false, L.NoUnload, 0, 0)
  const ATTESTING := LOADING.(load := L.Attesting)
  const KILLING := LOADING.(load := L.FailKilling, loadError := true)
  const FAILED := L.Server(L.Unloaded, L.NoProcess, [true], true, L.Idle, false, L.NoUnload, 0, 0)
  const RELOADING := L.Server(L.Loading, L.NoProcess, [true, false], false, L.Created, false, L.NoUnload, 0, 0)

  function Stage(a: ModelId, b: ModelId, d: ModelId, k: nat): Gw {
    if k == 0 then At0(a, b, d, Empty(), map[], map[], map[], false)
    else if k == 1 then At0(a, b, d, Empty(), map[], map[], map[1 := Caller(a, 0, 1.0, WantLock)], false)
    else if k == 2 then At0(a, b, d, Empty(), map[], map[a := 1], map[1 := Caller(a, 0, 1.0, Entering)], false)
    else if k == 3 then
      At0(a, b, d, PoolA(a), map[0 := Inst(a, 7, LOADING)], map[a := 1], map[1 := Caller(a, 0, 1.0, Waiting(0, 0))], false)
    else if k == 4 then At0(a, b, d, PoolA(a), map[0 := Inst(a, 7, LOADING)], map[], map[], true)
    else if k == 5 then At0(a, b, d, PoolA(a), map[0 := Inst(a, 7, ATTESTING)], map[], map[], true)
    else if k == 6 then At0(a, b, d, PoolA(a), map[0 := Inst(a, 7, KILLING)], map[], map[], true)
    else if k == 7 then At0(a, b, d, PoolA(a), map[0 := Inst(a, 7, FAILED)], map[], map[], true)
    else if k == 8 then
      At0(a, b, d, PoolA(a), map[0 := Inst(a, 7, FAILED)], map[], map[2 := Caller(b, 0, 1.0, WantLock)], true)
    else if k == 9 then
      At0(a, b, d, PoolA(a), map[0 := Inst(a, 7, FAILED)], map[b := 2], map[2 := Caller(b, 0, 1.0, Entering)], true)
    else if k == 10 then
      At0(a, b, d, PoolAB(a, b), map[0 := Inst(a, 7, FAILED), 1 := Inst(b, 8, LOADING)], map[b := 2],
          map[2 := Caller(b, 0, 1.0, Waiting(1, 0))], true)
    else if k == 11 then
      At0(a, b, d, PoolAB(a, b), map[0 := Inst(a, 7, FAILED), 1 := Inst(b, 8, LOADING)], map[b := 2],
          map[2 := Caller(b, 0, 1.0, Waiting(1, 0)), 3 := Caller(a, 0, 1.0, WantLock)], true)
    else if k == 12 then
      At0(a, b, d, PoolAB(a, b), map[0 := Inst(a, 7, FAILED), 1 := Inst(b, 8, LOADING)], map[b := 2, a := 3],
          map[2 := Caller(b, 0, 1.0, Waiting(1, 0)), 3 := Caller(a, 0, 1.0, Entering)], true)
    else
      At0(a, b, d, PoolAB(a, b), map[0 := Inst(a, 7, RELOADING), 1 := Inst(b, 8, LOADING)], map[b := 2, a := 3],
          map[2 := Caller(b, 0, 1.0, Waiting(1, 0)), 3 := Caller(a, 0, 1.0, Waiting(0, 1))], true)
  }

  function Script(a: ModelId, b: ModelId, d: ModelId): seq<Step> {
    [Arrive(1, a), TakeLock(1), Enter(1, 0, 0, false, false), Cancel(1),
     Server(0, L.TaskRuns), Server(0, L.LoadFails), Server(0, L.FailKilled),
     Arrive(2, b), TakeLock(2), Enter(2, 0, 1, false, false), Arrive(3, a), TakeLock(3), Enter(3, 0, 2, false, false)]
  }

  ghost predicate Goes(g: Gw, st: Step, g': Gw) {
    Enabled(g, st) && Registered(g) && Apply(g, CFG, st) == g'
  }

  lemma ArriveGoes(g: Gw, c: TaskId, m: ModelId)
    requires c !in g.callers && c !in g.admins && Admitted(g, m) && Registered(g)
    ensures Goes(g, Arrive(c, m), g.(callers := g.callers[c := Caller(m, 0, g.reg[m].vram, WantLock)]))
  {
  }

  lemma TakeLockGoes(g: Gw, c: TaskId)
    requires At(g, c, WantLock) && g.callers[c].model !in g.locks && Registered(g)
    ensures Goes(g, TakeLock(c), g.(callers := g.callers[c := g.callers[c].(pc := Entering)], locks := g.locks[g.callers[c].model := c]))
  {
  }

  lemma ServerGoes(g: Gw, h: Handle, e: L.Event)
    requires h in g.inst && ServerEvent(e) && L.Enabled(g.inst[h].srv, e) && Registered(g) && !e.UnloadKilled? && !e.CrashSeen?
    ensures Goes(g, Server(h, e), g.(inst := g.inst[h := g.inst[h].(srv := L.Apply(g.inst[h].srv, e))]))
  {
  }

  /** A newcomer that fits starts a load. */
  lemma LaunchGoes(g: Gw, c: TaskId, h: Handle)
    requires At(g, c, Entering) && g.callers[c].attempt == 0 && h !in g.inst && g.cond == None && Registered(g)
    requires Admitted(g, g.callers[c].model) && g.callers[c].model !in g.pool.managers
    requires g.callers[c].need == g.reg[g.callers[c].model].vram <= CFG.budget
    requires g.pool.waiters == [] && HasCapacity(g, CFG, g.callers[c].need)
    requires forall k :: k in g.inst ==> g.inst[k].srv.state != L.Ready
    ensures Goes(g, Enter(c, 0, h, false, false), Launch(TicketGone(g, c), c, h))
  {
    NoVictim(g, g.callers[c].model);
    hide HasVictim, Launch, TicketGone, Used;
    assert Begin(g, c) == g;
  }

  lemma NoVictim(g: Gw, m: ModelId)
    requires forall k :: k in g.inst ==> g.inst[k].srv.state != L.Ready
    ensures !HasVictim(g, m)
  {
  }

  lemma FirstLoad(a: ModelId, b: ModelId, d: ModelId)
    requires Distinct(a, b, d)
    ensures forall k :: 0 <= k < 4 ==> Goes(Stage(a, b, d, k), Script(a, b, d)[k], Stage(a, b, d, k + 1))
  {
    hide Goes, Stage;
    FirstArrives(a, b, d);
    FirstLaunch(a, b, d);
    CancelGoes(a, b, d);
    assert Script(a, b, d)[0] == Arrive(1, a) && Script(a, b, d)[1] == TakeLock(1);
  }

  lemma FirstArrives(a: ModelId, b: ModelId, d: ModelId)
    requires Distinct(a, b, d)
    ensures Goes(Stage(a, b, d, 0), Arrive(1, a), Stage(a, b, d, 1)) && Goes(Stage(a, b, d, 1), TakeLock(1), Stage(a, b, d, 2))
  {
    hide Goes;
    ArriveGoes(Stage(a, b, d, 0), 1, a);
    TakeLockGoes(Stage(a, b, d, 1), 1);
    assert map[1 := Caller(a, 0, 1.0, WantLock)][1 := Caller(a, 0, 1.0, Entering)] == map[1 := Caller(a, 0, 1.0, Entering)];
  }

  lemma FirstLaunch(a: ModelId, b: ModelId, d: ModelId)
    requires Distinct(a, b, d)
    ensures Goes(Stage(a, b, d, 2), Enter(1, 0, 0, false, false), Stage(a, b, d, 3))
  {
    var g := Stage(a, b, d, 2);
    assert Loaded(g.pool.managers, g.inst, g.reg) == map[];
    LaunchGoes(g, 1, 0);
    hide Goes, HasCapacity;
    var g' := Launch(TicketGone(g, 1), 1, 0);
    FirstRound();
    assert g'.callers == Stage(a, b, d, 3).callers && g'.pool == Stage(a, b, d, 3).pool && g'.inst == Stage(a, b, d, 3).inst;
  }

  lemma FirstRound()
    ensures L.Apply(L.Fresh, L.EnsureLoaded(0)) == LOADING
  {
    assert [] + [false] == [false];
  }

  lemma CancelGoes(a: ModelId, b: ModelId, d: ModelId)
    requires Distinct(a, b, d)
    ensures Goes(Stage(a, b, d, 3), Cancel(1), Stage(a, b, d, 4))
  {
    FirstIsGone(a, b, d);
    hide DoCancel, Stage, Exit;
  }

  lemma FirstIsGone(a: ModelId, b: ModelId, d: ModelId)
    requires Distinct(a, b, d)
    ensures CanCancel(Stage(a, b, d, 3), 1) && Registered(Stage(a, b, d, 3)) && DoCancel(Stage(a, b, d, 3), 1) == Stage(a, b, d, 4)
  {
    var g := Stage(a, b, d, 3);
    var g' := DoCancel(g, 1);
    assert g'.callers == map[] && g'.locks == map[] && g'.pool == g.pool;
  }

  lemma FirstMoves(a: ModelId, b: ModelId, d: ModelId, s: L.Server, e: L.Event)
    requires Distinct(a, b, d) && ServerEvent(e) && !e.UnloadKilled? && !e.CrashSeen? && L.Enabled(s, e)
    ensures Goes(At0(a, b, d, PoolA(a), map[0 := Inst(a, 7, s)], map[], map[], true), Server(0, e),
                 At0(a, b, d, PoolA(a), map[0 := Inst(a, 7, L.Apply(s, e))], map[], map[], true))
  {
    hide Goes, L.Apply, L.Enabled;
    ServerGoes(At0(a, b, d, PoolA(a), map[0 := Inst(a, 7, s)], map[], map[], true), 0, e);
    assert map[0 := Inst(a, 7, s)][0 := Inst(a, 7, L.Apply(s, e))] == map[0 := Inst(a, 7, L.Apply(s, e))];
  }

  lemma LoadFailed(a: ModelId, b: ModelId, d: ModelId)
    requires Distinct(a, b, d)
    ensures forall k :: 4 <= k < 7 ==> Goes(Stage(a, b, d, k), Script(a, b, d)[k], Stage(a, b, d, k + 1))
  {
    hide Goes, At0;
    FirstMoves(a, b, d, LOADING, L.TaskRuns);
    FirstMoves(a, b, d, ATTESTING, L.LoadFails);
    FirstMoves(a, b, d, KILLING, L.FailKilled);
    assert L.Apply(KILLING, L.FailKilled) == FAILED;
  }

  lemma SecondLoad(a: ModelId, b: ModelId, d: ModelId)
    requires Distinct(a, b, d)
    ensures forall k :: 7 <= k < 10 ==> Goes(Stage(a, b, d, k), Script(a, b, d)[k], Stage(a, b, d, k + 1))
  {
    hide Goes;
    ArriveGoes(Stage(a, b, d, 7), 2, b);
    TakeLockGoes(Stage(a, b, d, 8), 2);
    SecondLaunch(a, b, d);
    assert map[2 := Caller(b, 0, 1.0, WantLock)][2 := Caller(b, 0, 1.0, Entering)] == map[2 := Caller(b, 0, 1.0, Entering)];
  }

  lemma SecondFits(a: ModelId, b: ModelId, d: ModelId)
    requires Distinct(a, b, d)
    ensures var g := Stage(a, b, d, 9);
            && HasCapacity(g, CFG, 1.0) && Admitted(g, b) && Registered(g) && b !in g.pool.managers
            && At(g, 2, Entering) && g.callers[2] == Caller(b, 0, 1.0, Entering) && 1 !in g.inst && g.cond == None
            && g.reg[b].vram == 1.0 && g.pool.waiters == [] && g.pool.free != []
            && (forall k :: k in g.inst ==> g.inst[k].srv.state != L.Ready)
  {
    var g := Stage(a, b, d, 9);
    assert Loaded(g.pool.managers, g.inst, g.reg) == map[];
  }

  lemma SecondLaunch(a: ModelId, b: ModelId, d: ModelId)
    requires Distinct(a, b, d)
    ensures Goes(Stage(a, b, d, 9), Enter(2, 0, 1, false, false), Stage(a, b, d, 10))
  {
    hide Goes, HasCapacity, Admitted, Registered, Launch, TicketGone, Stage;
    SecondFits(a, b, d);
    LaunchGoes(Stage(a, b, d, 9), 2, 1);
    SecondWaits(a, b, d);
  }

  lemma SecondWaits(a: ModelId, b: ModelId, d: ModelId)
    requires Distinct(a, b, d)
    ensures 2 in Stage(a, b, d, 9).callers && Stage(a, b, d, 9).pool.free != []
    ensures Launch(TicketGone(Stage(a, b, d, 9), 2), 2, 1) == Stage(a, b, d, 10)
  {
    FirstRound();
    hide L.Apply;
    var g' := Launch(TicketGone(Stage(a, b, d, 9), 2), 2, 1);
    assert g'.callers == Stage(a, b, d, 10).callers;
    assert g'.pool == Stage(a, b, d, 10).pool;
    assert g'.inst == Stage(a, b, d, 10).inst;
  }

  lemma ThirdArrives(a: ModelId, b: ModelId, d: ModelId)
    requires Distinct(a, b, d)
    ensures forall k :: 10 <= k < 12 ==> Goes(Stage(a, b, d, k), Script(a, b, d)[k], Stage(a, b, d, k + 1))
  {
    hide Goes, Stage;
    ThirdAsks(a, b, d);
    ThirdLocks(a, b, d);
  }

  lemma ThirdAsks(a: ModelId, b: ModelId, d: ModelId)
    requires Distinct(a, b, d)
    ensures Goes(Stage(a, b, d, 10), Arrive(3, a), Stage(a, b, d, 11))
  {
    hide Goes;
    ArriveGoes(Stage(a, b, d, 10), 3, a);
    assert Stage(a, b, d, 10).callers[3 := Caller(a, 0, 1.0, WantLock)] == Stage(a, b, d, 11).callers;
  }

  lemma ThirdLocks(a: ModelId, b: ModelId, d: ModelId)
    requires Distinct(a, b, d)
    ensures Goes(Stage(a, b, d, 11), TakeLock(3), Stage(a, b, d, 12))
  {
    hide Goes;
    TakeLockGoes(Stage(a, b, d, 11), 3);
    assert Stage(a, b, d, 11).callers[3 := Caller(a, 0, 1.0, Entering)] == Stage(a, b, d, 12).callers;
  }

  lemma CanRestart(a: ModelId, b: ModelId, d: ModelId)
    requires Distinct(a, b, d)
    ensures var g := Stage(a, b, d, 12);
            && At(g, 3, Entering) && g.callers[3].model in g.reg && CanEnter(g, 3, 0, 2, false) && Registered(g) && Admitted(g, a) && !ReadyNow(g, a) && g.callers[3].model == a
            && Stale(Begin(g, 3), a) == Some(0) && Registered(Begin(g, 3)) && ChoicesOk(Begin(g, 3), 3, 0, 2)
  {
    NoVictim(Stage(a, b, d, 12), a);
    hide HasVictim, IsVictim;
  }

  /** The restart of the manager of a is not tested against the capacity. */
  lemma LastStep(a: ModelId, b: ModelId, d: ModelId)
    requires Distinct(a, b, d)
    ensures Goes(Stage(a, b, d, 12), Enter(3, 0, 2, false, false), Stage(a, b, d, 13))
  {
    hide CanEnter, Registered, L.Apply, Stale, WaitFor, Stage, UnderCondition, ChoicesOk, Admitted, ReadyNow;
    CanRestart(a, b, d);
    StaleIsWait(Begin(Stage(a, b, d, 12), 3), CFG, 3, 0, 2, false, false);
    Reloads(a, b, d);
  }

  lemma Reloads(a: ModelId, b: ModelId, d: ModelId)
    requires Distinct(a, b, d)
    ensures var g := Stage(a, b, d, 12);
            && At(g, 3, Entering) && g.callers[3].model in g.reg && 0 in g.inst
            && L.EnterOutcome(g.inst[0].srv) == L.Waits(1) && WaitFor(Begin(g, 3), 3, 0, 1) == Stage(a, b, d, 13)
  {
    assert L.Apply(FAILED, L.EnsureLoaded(0)) == RELOADING;
    hide L.Apply;
    var g' := WaitFor(Begin(Stage(a, b, d, 12), 3), 3, 0, 1);
    assert g'.callers == Stage(a, b, d, 13).callers && g'.inst == Stage(a, b, d, 13).inst;
  }

  lemma UsedBefore(a: ModelId, b: ModelId, d: ModelId)
    requires Distinct(a, b, d)
    ensures Used(Stage(a, b, d, 12)) == 1.0
  {
    var g := Stage(a, b, d, 12);
    assert Loaded(g.pool.managers, g.inst, g.reg) == map[b := 1.0];
    assert map[][b := 1.0] == map[b := 1.0];
    TotalInsert(map[], b, 1.0);
  }

  lemma UsedAfter(a: ModelId, b: ModelId, d: ModelId)
    requires Distinct(a, b, d)
    ensures Used(Stage(a, b, d, 13)) == 2.0
  {
    var g := Stage(a, b, d, 13);
    assert Loaded(g.pool.managers, g.inst, g.reg) == map[b := 1.0][a := 1.0];
    assert map[][b := 1.0] == map[b := 1.0];
    TotalInsert(map[], b, 1.0);
    TotalInsert(map[b := 1.0], a, 1.0);
  }

  /** With sizes 1 and 1 and a budget of 1, thirteen steps lead to 2: a load is cancelled by its
      caller and fails, its manager stays registered, another model takes the room, and the next
      request for the first model restarts its manager. */
  lemma BudgetCanBeExceeded(a: ModelId, b: ModelId, d: ModelId)
    requires Distinct(a, b, d)
    ensures Init(Stage(a, b, d, 0), CFG)
    ensures forall k :: 0 <= k < 13 ==> Goes(Stage(a, b, d, k), Script(a, b, d)[k], Stage(a, b, d, k + 1))
    ensures CFG.budget == 1.0 && Used(Stage(a, b, d, 12)) == 1.0 && Used(Stage(a, b, d, 13)) == 2.0
  {
    hide Goes, Used, Stage;
    FirstLoad(a, b, d);
    LoadFailed(a, b, d);
    SecondLoad(a, b, d);
    ThirdArrives(a, b, d);
    LastStep(a, b, d);
    UsedBefore(a, b, d);
    UsedAfter(a, b, d);
    Starts(a, b, d);
  }

  lemma Starts(a: ModelId, b: ModelId, d: ModelId)
    requires Distinct(a, b, d)
    ensures Init(Stage(a, b, d, 0), CFG)
  {
    assert forall q :: q in [7, 8] <==> q == 7 || q == 8;
  }
}
