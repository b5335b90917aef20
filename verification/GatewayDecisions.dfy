/** What becomes of a caller of ensure_model_loaded, case by case and in every reachable state, in terms of what
  the pool looks like: who is given capacity, who evicts, who waits, who is served and who is turned away. */
module GatewayDecisions {
  import opened Sums
  import opened GatewayPool
  import opened GatewaySystem
  import opened GatewayProofs
  import opened GatewayTheorems
  import opened GatewayAdmission
  import L = ServerLifecycle

  // ---------------------------------------------------------------- what the pool looks like

  /** The size fits into what the net budget and the measurement leave, and a port is free. */
  ghost predicate Room(g: Gw, cfg: Config, need: real) {
    && Total(Loaded(g.pool.managers, g.inst, g.reg)) + need <= cfg.budget
    && (g.measured.Some? ==> need <= g.measured.value) && g.pool.free != []
  }

  /** Another model is READY and serves no request. */
  ghost predicate IdleOther(g: Gw, m: ModelId) {
    exists n :: n in g.pool.managers && n != m && InState(g, g.pool.managers[n], L.Ready)
                && g.inst[g.pool.managers[n]].srv.active == 0
  }

  /** Another model is loading, or READY and serving. */
  ghost predicate BusyOther(g: Gw, m: ModelId) {
    exists n :: n in g.pool.managers && n != m
                && (InState(g, g.pool.managers[n], L.Loading)
                    || (InState(g, g.pool.managers[n], L.Ready) && g.inst[g.pool.managers[n]].srv.active > 0))
  }

  /** v is READY, serves no request, is of another model, and no other such instance was used less recently. */
  ghost predicate LeastRecent(g: Gw, m: ModelId, v: Handle) {
    && (exists n :: n in g.pool.managers && n != m && g.pool.managers[n] == v)
    && InState(g, v, L.Ready) && g.inst[v].srv.active == 0
    && forall n :: n in g.pool.managers && n != m && InState(g, g.pool.managers[n], L.Ready)
                   && g.inst[g.pool.managers[n]].srv.active == 0 ==>
                     g.inst[v].srv.last <= g.inst[g.pool.managers[n]].srv.last
  }

  lemma RoomIs(g: Gw, cfg: Config, need: real)
    ensures HasCapacity(g, cfg, need) <==> Room(g, cfg, need)
  {
  }

  lemma OthersAre(g: Gw, m: ModelId)
    requires Registered(g)
    ensures (HasVictim(g, m) <==> IdleOther(g, m)) && (TempBlocker(g, m) <==> BusyOther(g, m))
  {
    if IdleOther(g, m) {
      var n :| n in g.pool.managers && n != m && InState(g, g.pool.managers[n], L.Ready) && g.inst[g.pool.managers[n]].srv.active == 0;
      assert Evictable(g.pool, Views(g.inst), m, n);
    }
    if HasVictim(g, m) {
      var n :| Evictable(g.pool, Views(g.inst), m, n);
      assert InState(g, g.pool.managers[n], L.Ready);
    }
  }

  lemma VictimIs(g: Gw, m: ModelId, v: Handle)
    requires IsVictim(g, m, v) && Registered(g)
    ensures LeastRecent(g, m, v)
  {
    var n :| n in g.pool.managers && g.pool.managers[n] == v && IsLru(g.pool, Views(g.inst), m, n);
    forall k | k in g.pool.managers && k != m && InState(g, g.pool.managers[k], L.Ready) && g.inst[g.pool.managers[k]].srv.active == 0
      ensures g.inst[v].srv.last <= g.inst[g.pool.managers[k]].srv.last
    {
      assert Evictable(g.pool, Views(g.inst), m, k);
    }
  }

  // ---------------------------------------------------------------- what may become of a caller

  /** What no decision about a caller touches. */
  predicate Rest(g: Gw, g': Gw) {
    && g'.reg == g.reg && g'.measured == g.measured && g'.now == g.now && g'.admins == g.admins
    && g'.cancelled == g.cancelled && g'.regChanged == g.regChanged
  }

  /** The model lock of c is free, if it was c's; the others are held as before. */
  ghost predicate Unlocked(g: Gw, g': Gw, c: TaskId)
    requires c in g.callers
  {
    && (forall m :: m in g'.locks <==> m in g.locks && !(m == g.callers[c].model && g.locks[m] == c))
    && (forall m :: m in g'.locks ==> g'.locks[m] == g.locks[m])
  }

  /** c is turned away: it is gone with its ticket and its lock, and the pool is as before. */
  ghost predicate Leaves(g: Gw, g': Gw, c: TaskId)
    requires c in g.callers
  {
    && g'.callers == g.callers - {c} && g'.inst == g.inst && g'.granted == g.granted && Rest(g, g')
    && (g'.cond == None || g'.cond == g.cond)
    && g'.pool == g.pool.(waiters := Without(g.pool.waiters, c))
    && Unlocked(g, g', c)
  }

  /** c has reserved the first free port for the new instance h of its model, which begins to load. */
  ghost predicate Launched(g: Gw, g': Gw, c: TaskId, need: real, h: Handle)
    requires c in g.callers
  {
    var m := g.callers[c].model;
    && g.pool.free != [] && m !in g.pool.managers && h !in g.inst
    && g'.pool == g.pool.(managers := g.pool.managers[m := h], ports := g.pool.ports[m := g.pool.free[0]], free := g.pool.free[1..],
                          waiters := Without(g.pool.waiters, c))
    && g'.inst == g.inst[h := Inst(m, g.pool.free[0], STARTING)]
    && OnlyMoves(g, g', c, Waiting(h, 0), need) && g'.cond == None
  }

  const STARTING := L.Server(L.Loading, L.NoProcess, [false], false, L.Created, false, L.NoUnload, 0, 0)

  /** c holds the condition while the least recently used idle instance is being unloaded for it. */
  ghost predicate Evicts(g: Gw, g': Gw, c: TaskId, need: real, ticketed: bool)
    requires c in g.callers
  {
    exists v :: LeastRecent(g, g.callers[c].model, v) && EvictsIt(g, g', c, need, v, ticketed)
  }

  ghost predicate EvictsIt(g: Gw, g': Gw, c: TaskId, need: real, v: Handle, ticketed: bool)
    requires c in g.callers
  {
    && v in g.inst && g'.cond == Some(c) && g'.pool == g.pool && OnlyMoves(g, g', c, Evicting(v, ticketed, true), need)
    && g'.inst == g.inst[v := g.inst[v].(srv := L.BeginUnload(g.inst[v].srv))]
  }

  /** c waits with a ticket: the one it has, or a new one at the end of the queue. */
  ghost predicate Waits(g: Gw, g': Gw, c: TaskId, need: real, ticketed: bool, done: bool)
    requires c in g.callers
  {
    && g'.inst == g.inst && OnlyMoves(g, g', c, Queued(done), need) && g'.cond == None
    && g'.pool == if ticketed then g.pool else g.pool.(waiters := g.pool.waiters + [c])
  }

  /** c goes on at pc with the size need, and the others stay where they are. */
  ghost predicate OnlyMoves(g: Gw, g': Gw, c: TaskId, pc: Pc, need: real)
    requires c in g.callers
  {
    && g'.callers == g.callers[c := g.callers[c].(pc := pc, need := need)]
    && g'.locks == g.locks && g'.granted == g.granted && Rest(g, g')
  }

  /** Without capacity: refused if there is no queue or a newcomer finds it full. */
  ghost predicate Parks(g: Gw, cfg: Config, g': Gw, c: TaskId, need: real, ticketed: bool, done: bool)
    requires c in g.callers
  {
    if cfg.queueEnabled && (ticketed || |g.pool.waiters| < cfg.maxWaiters) then Waits(g, g', c, need, ticketed, done) else Leaves(g, g', c)
  }

  /** At its turn: it evicts if there is something idle and either that is still asked for or there is no room;
      it is given the room there is, unless an eviction is still asked for and may become possible. */
  ghost predicate TurnDecided(g: Gw, cfg: Config, g': Gw, c: TaskId, need: real, ticketed: bool, done: bool, h: Handle)
    requires c in g.callers
  {
    var m := g.callers[c].model;
    if IdleOther(g, m) && (!done || !Room(g, cfg, need)) then Evicts(g, g', c, need, ticketed)
    else if Room(g, cfg, need) && (done || !BusyOther(g, m)) then
      if Admitted(g, m) then Launched(g, g', c, need, h) else Leaves(g, g', c)
    else Parks(g, cfg, g', c, need, ticketed, done || !BusyOther(g, m))
  }

  /** A caller that asks for capacity: turned away if its model is not admitted, parked if it is not its turn. */
  ghost predicate Decided(g: Gw, cfg: Config, g': Gw, c: TaskId, need: real, ticketed: bool, done: bool, h: Handle)
    requires c in g.callers
  {
    if !Admitted(g, g.callers[c].model) then Leaves(g, g', c)
    else if (if ticketed then g.pool.waiters == [] || g.pool.waiters[0] != c else g.pool.waiters != []) then
      Parks(g, cfg, g', c, need, ticketed, done)
    else TurnDecided(g, cfg, g', c, need, ticketed, done, h)
  }

  // ---------------------------------------------------------------- the pieces

  lemma ExitLeaves(g: Gw, c: TaskId)
    requires c in g.callers
    ensures Leaves(g, Exit(g, c), c)
  {
    hide Without;
  }

  lemma ParkParks(g: Gw, cfg: Config, c: TaskId, ticketed: bool, done: bool)
    requires c in g.callers && g.cond == None
    ensures Parks(g, cfg, Park(g, cfg, c, ticketed, done), c, g.callers[c].need, ticketed, done)
  {
    hide Leaves, Exit;
    ExitLeaves(g, c);
  }

  lemma EvictEvicts(g: Gw, c: TaskId, v: Handle, ticketed: bool)
    requires c in g.callers && v in g.inst && IsVictim(g, g.callers[c].model, v) && Registered(g)
    ensures Evicts(g, BeginEvict(g, c, v, ticketed, true), c, g.callers[c].need, ticketed)
  {
    hide IsVictim, LeastRecent, Registered;
    VictimIs(g, g.callers[c].model, v);
    BeginEvictIs(g, c, v, ticketed);
  }

  lemma BeginEvictIs(g: Gw, c: TaskId, v: Handle, ticketed: bool)
    requires c in g.callers && v in g.inst
    ensures EvictsIt(g, BeginEvict(g, c, v, ticketed, true), c, g.callers[c].need, v, ticketed)
  {
    hide L.BeginUnload;
  }

  lemma ReserveLaunches(g: Gw, c: TaskId, h: Handle)
    requires c in g.callers && g.pool.free != [] && h !in g.inst && g.callers[c].model !in g.pool.managers && g.cond == None
    ensures if Admitted(g, g.callers[c].model) then Launched(g, Reserve(g, c, h), c, g.callers[c].need, h) else Leaves(g, Reserve(g, c, h), c)
  {
    hide Admitted, Leaves, Exit, Launch, TicketGone, Launched;
    if Admitted(g, g.callers[c].model) { LaunchIs(g, c, h); } else { ExitLeaves(g, c); }
  }

  lemma LaunchIs(g: Gw, c: TaskId, h: Handle)
    requires c in g.callers && g.pool.free != [] && h !in g.inst && g.callers[c].model !in g.pool.managers && g.cond == None
    ensures c in TicketGone(g, c).callers && TicketGone(g, c).pool.free == g.pool.free
    ensures Launched(g, Launch(TicketGone(g, c), c, h), c, g.callers[c].need, h)
  {
    assert L.Apply(L.Fresh, L.EnsureLoaded(g.now)) == STARTING by { assert [] + [false] == [false]; }
    LaunchedCallers(g, c, h);
    hide L.Apply, Without;
  }

  lemma TurnDecides(g: Gw, cfg: Config, c: TaskId, ticketed: bool, extra: bool, v: Handle, h: Handle)
    requires c in g.callers && ChoicesOk(g, c, v, h) && Registered(g) && g.callers[c].model !in g.pool.managers
    requires g.cond == None && (IdleOther(g, g.callers[c].model) ==> extra)
    ensures var g' := AtTurn(g, cfg, c, ticketed, extra, v, h); var m, need := g.callers[c].model, g.callers[c].need;
            if IdleOther(g, m) && !Room(g, cfg, need) then Evicts(g, g', c, need, ticketed)
            else if Room(g, cfg, need) && extra then (if Admitted(g, m) then Launched(g, g', c, need, h) else Leaves(g, g', c))
            else Parks(g, cfg, g', c, need, ticketed, extra)
  {
    hide HasVictim, IsVictim, HasCapacity, Room, IdleOther, Admitted, Reserve, Park, BeginEvict, Leaves, Launched, Evicts, Parks, Registered;
    RoomIs(g, cfg, g.callers[c].need);
    OthersAre(g, g.callers[c].model);
    if HasVictim(g, g.callers[c].model) && !HasCapacity(g, cfg, g.callers[c].need) {
      EvictEvicts(g, c, v, ticketed);
    } else if extra && HasCapacity(g, cfg, g.callers[c].need) {
      RoomHasPort(g, cfg, g.callers[c].need);
      ReserveLaunches(g, c, h);
    } else {
      ParkParks(g, cfg, c, ticketed, extra);
    }
  }

  lemma RoomHasPort(g: Gw, cfg: Config, need: real)
    requires HasCapacity(g, cfg, need)
    ensures g.pool.free != []
  {
  }

  lemma ConsiderDecides(g: Gw, cfg: Config, c: TaskId, ticketed: bool, done: bool, v: Handle, h: Handle)
    requires c in g.callers && ChoicesOk(g, c, v, h) && Registered(g) && g.callers[c].model !in g.pool.managers && g.cond == None
    ensures Decided(g, cfg, Consider(g, cfg, c, ticketed, done, v, h), c, g.callers[c].need, ticketed, done, h)
  {
    hide AtTurn, HasVictim, IsVictim, TempBlocker, Room, IdleOther, BusyOther, Admitted, Exit, Park, BeginEvict, Leaves, Launched, Evicts,
      Parks, Registered;
    var m := g.callers[c].model;
    OthersAre(g, m);
    if !Admitted(g, m) {
      ExitLeaves(g, c);
    } else if !IsTurn(g, c, ticketed) {
      ParkParks(g, cfg, c, ticketed, done);
    } else if !done && HasVictim(g, m) {
      EvictEvicts(g, c, v, ticketed);
    } else {
      TurnDecides(g, cfg, c, ticketed, done || !TempBlocker(g, m), v, h);
    }
  }

  // ---------------------------------------------------------------- the steps

  /** g1 is g but for where c is and with which size, and for the condition. */
  ghost predicate Alike(g: Gw, g1: Gw, c: TaskId)
    requires c in g.callers
  {
    && c in g1.callers && g1.callers == g.callers[c := g1.callers[c]] && g1.callers[c].model == g.callers[c].model
    && g1.callers[c].attempt == g.callers[c].attempt && g1 == g.(callers := g1.callers, cond := g1.cond)
    && (g1.cond == None || g1.cond == g.cond)
  }

  lemma AlikePool(g: Gw, cfg: Config, g1: Gw, c: TaskId, need: real)
    requires c in g.callers && Alike(g, g1, c)
    ensures var m := g.callers[c].model;
            && g1.pool == g.pool && (IdleOther(g1, m) <==> IdleOther(g, m)) && (BusyOther(g1, m) <==> BusyOther(g, m))
            && (Room(g1, cfg, need) <==> Room(g, cfg, need)) && (Admitted(g1, m) <==> Admitted(g, m))
            && (Registered(g1) <==> Registered(g)) && (forall v :: LeastRecent(g1, m, v) <==> LeastRecent(g, m, v))
  {
  }

  lemma AlikeMoves(g: Gw, g1: Gw, g': Gw, c: TaskId, need: real, pc: Pc)
    requires c in g.callers && Alike(g, g1, c)
    ensures OnlyMoves(g1, g', c, pc, need) ==> OnlyMoves(g, g', c, pc, need)
  {
    assert g.callers[c := g1.callers[c]][c := g1.callers[c].(pc := pc, need := need)] == g.callers[c := g.callers[c].(pc := pc, need := need)];
  }

  lemma AlikeLeaves(g: Gw, g1: Gw, g': Gw, c: TaskId)
    requires c in g.callers && Alike(g, g1, c)
    ensures Leaves(g1, g', c) ==> Leaves(g, g', c)
  {
    hide Without;
    assert g.callers[c := g1.callers[c]] - {c} == g.callers - {c};
  }

  lemma AlikeLaunched(g: Gw, g1: Gw, g': Gw, c: TaskId, need: real, h: Handle)
    requires c in g.callers && Alike(g, g1, c)
    ensures Launched(g1, g', c, need, h) ==> Launched(g, g', c, need, h)
  {
    AlikeMoves(g, g1, g', c, need, Waiting(h, 0));
    hide OnlyMoves, Without;
  }

  lemma AlikeEvicts(g: Gw, g1: Gw, g': Gw, c: TaskId, need: real, ticketed: bool)
    requires c in g.callers && Alike(g, g1, c) && Evicts(g1, g', c, need, ticketed)
    ensures Evicts(g, g', c, need, ticketed)
  {
    hide OnlyMoves;
    var v :| LeastRecent(g1, g1.callers[c].model, v) && EvictsIt(g1, g', c, need, v, ticketed);
    AlikeMoves(g, g1, g', c, need, Evicting(v, ticketed, true));
    AlikePool(g, Config(0.0, {}, 0, false), g1, c, need);
    hide LeastRecent, L.BeginUnload;
    assert LeastRecent(g, g.callers[c].model, v) && EvictsIt(g, g', c, need, v, ticketed);
  }

  lemma AlikeParks(g: Gw, cfg: Config, g1: Gw, g': Gw, c: TaskId, need: real, ticketed: bool, done: bool)
    requires c in g.callers && Alike(g, g1, c)
    ensures Parks(g1, cfg, g', c, need, ticketed, done) ==> Parks(g, cfg, g', c, need, ticketed, done)
  {
    AlikeMoves(g, g1, g', c, need, Queued(done));
    AlikeLeaves(g, g1, g', c);
    hide OnlyMoves, Leaves;
  }

  /** What was decided in g1 was decided in g. */
  lemma AlikeTurn(g: Gw, cfg: Config, g1: Gw, g': Gw, c: TaskId, need: real, ticketed: bool, done: bool, h: Handle)
    requires c in g.callers && Alike(g, g1, c)
    ensures TurnDecided(g1, cfg, g', c, need, ticketed, done, h) ==> TurnDecided(g, cfg, g', c, need, ticketed, done, h)
  {
    hide Room, IdleOther, BusyOther, Admitted, Leaves, Launched, Evicts, Parks, LeastRecent, Registered;
    AlikePool(g, cfg, g1, c, need);
    AlikeLeaves(g, g1, g', c);
    AlikeLaunched(g, g1, g', c, need, h);
    if Evicts(g1, g', c, need, ticketed) { AlikeEvicts(g, g1, g', c, need, ticketed); }
    AlikeParks(g, cfg, g1, g', c, need, ticketed, done || !BusyOther(g, g.callers[c].model));
  }

  lemma AlikeDecided(g: Gw, cfg: Config, g1: Gw, g': Gw, c: TaskId, need: real, ticketed: bool, done: bool, h: Handle)
    requires c in g.callers && Alike(g, g1, c)
    ensures Decided(g1, cfg, g', c, need, ticketed, done, h) ==> Decided(g, cfg, g', c, need, ticketed, done, h)
  {
    hide Room, IdleOther, BusyOther, Admitted, Leaves, Parks, TurnDecided, LeastRecent, Registered;
    AlikePool(g, cfg, g1, c, need);
    AlikeLeaves(g, g1, g', c);
    AlikeTurn(g, cfg, g1, g', c, need, ticketed, done, h);
    AlikeParks(g, cfg, g1, g', c, need, ticketed, done);
  }

  /** A caller at its ticket, exactly. */
  lemma QueueDecides(g: Gw, cfg: Config, c: TaskId, v: Handle, h: Handle)
    requires Inv(g, cfg) && Enabled(g, RecheckQueue(c, v, h))
    ensures Registered(g) && c in g.callers && g.callers[c].pc.Queued?
    ensures Decided(g, cfg, Apply(g, cfg, RecheckQueue(c, v, h)), c, g.callers[c].need, true, g.callers[c].pc.extraDone, h)
  {
    hide Inv, Consider, Decided, ChoicesOk, Registered;
    CallerFacts(g, cfg, c);
    ConsiderDecides(g, cfg, c, true, g.callers[c].pc.extraDone, v, h);
  }

  /** A caller whose victim is gone, exactly: it has had its extra eviction, and the turn is still its own. */
  lemma EvictionDecides(g: Gw, cfg: Config, c: TaskId, v: Handle, h: Handle)
    requires Inv(g, cfg) && Enabled(g, EvictionOver(c, v, h))
    ensures Registered(g) && c in g.callers && g.callers[c].pc.Evicting?
    ensures TurnDecided(g, cfg, Apply(g, cfg, EvictionOver(c, v, h)), c, g.callers[c].need, g.callers[c].pc.ticketed, true, h)
  {
    hide Inv, AtTurn, ChoicesOk, Registered, Resumed, TurnDecided, InState;
    CallerFacts(g, cfg, c);
    ResumedChoices(g, c, v, h);
    ResumedAlike(g, c);
    var r, pc := Resumed(g, c), g.callers[c].pc;
    AlikePool(g, cfg, r, c, g.callers[c].need);
    hide Alike, IdleOther, BusyOther, Room, LeastRecent;
    ResumedTurn(r, cfg, c, pc.ticketed, v, h);
    AlikeTurn(g, cfg, r, AtTurn(r, cfg, c, pc.ticketed, true, v, h), c, g.callers[c].need, pc.ticketed, true, h);
  }

  lemma ResumedAlike(g: Gw, c: TaskId)
    requires c in g.callers && g.callers[c].pc.Evicting?
    ensures Alike(g, Resumed(g, c), c) && Resumed(g, c).callers[c].need == g.callers[c].need && Resumed(g, c).cond == None
  {
  }

  lemma ResumedTurn(r: Gw, cfg: Config, c: TaskId, ticketed: bool, v: Handle, h: Handle)
    requires c in r.callers && ChoicesOk(r, c, v, h) && Registered(r) && r.callers[c].model !in r.pool.managers && r.cond == None
    ensures TurnDecided(r, cfg, AtTurn(r, cfg, c, ticketed, true, v, h), c, r.callers[c].need, ticketed, true, h)
  {
    hide AtTurn, ChoicesOk, Registered, Room, IdleOther, BusyOther, Admitted, Leaves, Launched, Evicts, Parks;
    TurnDecides(r, cfg, c, ticketed, true, v, h);
  }

  /** Under the condition without a manager: a model larger than the whole budget is refused. */
  ghost predicate Newcomer(g: Gw, cfg: Config, g': Gw, c: TaskId, need: real, h: Handle)
    requires c in g.callers
  {
    if need > cfg.budget then Leaves(g, g', c)
    else Decided(g, cfg, g', c, need, false, g.callers[c].attempt == 0, h)
  }

  lemma NewcomerDecides(g: Gw, cfg: Config, c: TaskId, v: Handle, h: Handle, retry: bool, pin: bool)
    requires c in g.callers && ChoicesOk(g, c, v, h) && Registered(g) && g.callers[c].model !in g.pool.managers && g.cond == None
    ensures Newcomer(g, cfg, UnderCondition(g, cfg, c, v, h, retry, pin), c, g.callers[c].need, h)
  {
    hide Consider, Decided, ChoicesOk, Registered, Leaves, Exit;
    ExitLeaves(g, c);
    ConsiderDecides(g, cfg, c, false, g.callers[c].attempt == 0, v, h);
  }

  /** A caller that enters and finds no manager of its model, exactly. */
  lemma EnterDecides(g: Gw, cfg: Config, c: TaskId, v: Handle, h: Handle, retry: bool, pin: bool)
    requires Inv(g, cfg) && Enabled(g, Enter(c, v, h, retry, pin)) && g.callers[c].model !in g.pool.managers
    ensures Registered(g)
    ensures var m, g' := g.callers[c].model, Apply(g, cfg, Enter(c, v, h, retry, pin));
            if Admitted(g, m) then Newcomer(g, cfg, g', c, g.reg[m].vram, h) else Leaves(g, g', c)
  {
    hide Inv, UnderCondition, ChoicesOk, Registered, Leaves, Exit, Newcomer, Begin, MayRetry;
    IsRegistered(g, cfg);
    ExitLeaves(g, c);
    if Admitted(g, g.callers[c].model) {
      BeginChoices0(g, c, v, h);
      BeginAlike(g, c);
      hide Alike, Admitted;
      EnterUnder(g, cfg, Begin(g, c), c, v, h, retry, pin);
    }
  }

  lemma BeginAlike(g: Gw, c: TaskId)
    requires c in g.callers && g.callers[c].model in g.reg
    ensures Alike(g, Begin(g, c), c) && Begin(g, c).callers[c].need == g.reg[g.callers[c].model].vram
    ensures Begin(g, c).cond == g.cond && (Registered(g) ==> Registered(Begin(g, c)))
  {
  }

  lemma EnterUnder(g: Gw, cfg: Config, g1: Gw, c: TaskId, v: Handle, h: Handle, retry: bool, pin: bool)
    requires c in g.callers && Alike(g, g1, c) && g.callers[c].model !in g.pool.managers
    requires ChoicesOk(g1, c, v, h) && Registered(g1) && g1.cond == None
    ensures Newcomer(g, cfg, UnderCondition(g1, cfg, c, v, h, retry, pin), c, g1.callers[c].need, h)
  {
    var need, g' := g1.callers[c].need, UnderCondition(g1, cfg, c, v, h, retry, pin);
    hide UnderCondition, ChoicesOk, Registered, Leaves, Decided;
    NewcomerDecides(g1, cfg, c, v, h, retry, pin);
    AlikeLeaves(g, g1, g', c);
    AlikeDecided(g, cfg, g1, g', c, need, false, g.callers[c].attempt == 0, h);
  }

  /** The same for a caller that had to wait for the condition, or for the unload of its model's manager. */
  lemma GetCondDecides(g: Gw, cfg: Config, c: TaskId, v: Handle, h: Handle, retry: bool, pin: bool)
    requires Inv(g, cfg) && Enabled(g, GetCond(c, v, h, retry, pin)) && g.callers[c].model !in g.pool.managers
    ensures Registered(g)
    ensures Newcomer(g, cfg, Apply(g, cfg, GetCond(c, v, h, retry, pin)), c, g.callers[c].need, h)
  {
    hide Inv, UnderCondition, ChoicesOk, Registered, Newcomer, MayRetry;
    IsRegistered(g, cfg);
    NewcomerDecides(g, cfg, c, v, h, retry, pin);
  }

  lemma RecheckDecides(g: Gw, cfg: Config, c: TaskId, v: Handle, h: Handle, retry: bool, pin: bool)
    requires Inv(g, cfg) && Enabled(g, RecheckUnload(c, v, h, retry, pin)) && g.callers[c].model !in g.pool.managers
    ensures Registered(g)
    ensures var g' := Apply(g, cfg, RecheckUnload(c, v, h, retry, pin));
            if Admitted(g, g.callers[c].model) then Newcomer(g, cfg, g', c, g.callers[c].need, h) else Leaves(g, g', c)
  {
    hide Inv, UnderCondition, ChoicesOk, Registered, Newcomer, MayRetry, Leaves, Exit, Admitted;
    IsRegistered(g, cfg);
    ExitLeaves(g, c);
    NewcomerDecides(g, cfg, c, v, h, retry, pin);
  }

  // ---------------------------------------------------------------- who is given capacity

  /** The steps in which a caller asks for capacity. */
  predicate Asks(st: Step) { st.Enter? || st.GetCond? || st.RecheckUnload? || st.RecheckQueue? || st.EvictionOver? }

  /** The size it asks for: on entry it is read anew. */
  function Size(g: Gw, st: Step): real
    requires Asks(st) && st.c in g.callers
  {
    var m := g.callers[st.c].model;
    if st.Enter? && m in g.reg then g.reg[m].vram else g.callers[st.c].need
  }

  predicate Ticketed(g: Gw, st: Step)
    requires Asks(st) && st.c in g.callers
  {
    g.callers[st.c].pc.Queued? || (g.callers[st.c].pc.Evicting? && g.callers[st.c].pc.ticketed)
  }

  /** It need not evict anything idle any more: only the attempt after a refused load starts with that duty. */
  predicate Done(g: Gw, st: Step)
    requires Asks(st) && st.c in g.callers
  {
    match g.callers[st.c].pc
    case Queued(done) => done
    case Evicting(_, _, _) => true
    case _ => g.callers[st.c].attempt == 0
  }

  /** Admitted, at its turn, with room, and either without the duty to evict or with nothing to be evicted now
      or later. */
  ghost predicate Deserves(g: Gw, cfg: Config, c: TaskId, need: real, ticketed: bool, done: bool)
    requires c in g.callers
  {
    && Admitted(g, g.callers[c].model) && Head(g.pool.waiters, c, ticketed) && Room(g, cfg, need)
    && (done || (!IdleOther(g, g.callers[c].model) && !BusyOther(g, g.callers[c].model)))
  }

  /** What happens to a caller tells whether it was given capacity. */
  lemma NotLaunched(g: Gw, cfg: Config, g': Gw, c: TaskId, need: real, h: Handle, ticketed: bool, done: bool)
    requires c in g.callers && h !in g.inst
    requires Leaves(g, g', c) || Parks(g, cfg, g', c, need, ticketed, done) || Evicts(g, g', c, need, ticketed)
    ensures !Launched(g, g', c, need, h)
  {
    hide Without, LeastRecent, L.BeginUnload;
    if Evicts(g, g', c, need, ticketed) {
      var v :| LeastRecent(g, g.callers[c].model, v) && EvictsIt(g, g', c, need, v, ticketed);
    }
  }

  lemma TurnLaunch(g: Gw, cfg: Config, g': Gw, c: TaskId, need: real, ticketed: bool, done: bool, h: Handle)
    requires c in g.callers && h !in g.inst && Head(g.pool.waiters, c, ticketed)
    requires TurnDecided(g, cfg, g', c, need, ticketed, done, h)
    ensures Launched(g, g', c, need, h) <==> Deserves(g, cfg, c, need, ticketed, done)
  {
    hide Room, IdleOther, BusyOther, Admitted, Leaves, Launched, Evicts, Parks;
    var late := done || !BusyOther(g, g.callers[c].model);
    if Leaves(g, g', c) || Parks(g, cfg, g', c, need, ticketed, late) || Evicts(g, g', c, need, ticketed) {
      NotLaunched(g, cfg, g', c, need, h, ticketed, late);
    }
  }

  lemma DecidedLaunch(g: Gw, cfg: Config, g': Gw, c: TaskId, need: real, ticketed: bool, done: bool, h: Handle)
    requires c in g.callers && h !in g.inst && Decided(g, cfg, g', c, need, ticketed, done, h)
    ensures Launched(g, g', c, need, h) <==> Deserves(g, cfg, c, need, ticketed, done)
  {
    hide Room, IdleOther, BusyOther, Admitted, Leaves, Launched, Evicts, Parks, TurnDecided;
    if Admitted(g, g.callers[c].model) && Head(g.pool.waiters, c, ticketed) {
      TurnLaunch(g, cfg, g', c, need, ticketed, done, h);
    } else {
      NotLaunched(g, cfg, g', c, need, h, ticketed, done);
    }
  }

  lemma NewcomerLaunch(g: Gw, cfg: Config, g': Gw, c: TaskId, need: real, h: Handle)
    requires c in g.callers && h !in g.inst && Newcomer(g, cfg, g', c, need, h) && RegInv(g.reg, g.regChanged, g.callers)
    ensures Launched(g, g', c, need, h) <==> Deserves(g, cfg, c, need, false, g.callers[c].attempt == 0)
  {
    hide IdleOther, BusyOther, Admitted, Leaves, Launched, Decided;
    if need > cfg.budget {
      NotLaunched(g, cfg, g', c, need, h, false, false);
      UsedPositive(g);
    } else {
      DecidedLaunch(g, cfg, g', c, need, false, g.callers[c].attempt == 0, h);
    }
  }

  lemma UsedPositive(g: Gw)
    requires RegInv(g.reg, g.regChanged, g.callers)
    ensures Total(Loaded(g.pool.managers, g.inst, g.reg)) >= 0.0
  {
    TotalMonotone(Loaded(g.pool.managers, g.inst, g.reg), Loaded(g.pool.managers, g.inst, g.reg));
  }

  lemma EnterLaunch(g: Gw, cfg: Config, c: TaskId, v: Handle, h: Handle, retry: bool, pin: bool)
    requires Inv(g, cfg) && Enabled(g, Enter(c, v, h, retry, pin)) && g.callers[c].model !in g.pool.managers
    ensures Registered(g)
    ensures var st := Enter(c, v, h, retry, pin);
            Launched(g, Apply(g, cfg, st), c, Size(g, st), h) <==> Deserves(g, cfg, c, Size(g, st), false, g.callers[c].attempt == 0)
  {
    hide Inv, Apply, Registered, Leaves, Newcomer, Launched, Room, IdleOther, BusyOther, Admitted, RegInv, ChoicesOk;
    EnterDecides(g, cfg, c, v, h, retry, pin);
    RegistryFacts(g, cfg);
    var m, g' := g.callers[c].model, Apply(g, cfg, Enter(c, v, h, retry, pin));
    NewHandle(g, c, v, h);
    if Admitted(g, m) {
      IsAdmitted(g, m);
      NewcomerLaunch(g, cfg, g', c, g.reg[m].vram, h);
    } else {
      NotLaunched(g, cfg, g', c, Size(g, Enter(c, v, h, retry, pin)), h, false, false);
    }
  }

  lemma IsAdmitted(g: Gw, m: ModelId)
    requires Admitted(g, m)
    ensures m in g.reg
  {
  }

  lemma RegistryFacts(g: Gw, cfg: Config)
    requires Inv(g, cfg)
    ensures RegInv(g.reg, g.regChanged, g.callers)
  {
  }

  lemma NewHandle(g: Gw, c: TaskId, v: Handle, h: Handle)
    requires c in g.callers && ChoicesOk(g, c, v, h)
    ensures h !in g.inst
  {
  }

  lemma GetCondLaunch(g: Gw, cfg: Config, c: TaskId, v: Handle, h: Handle, retry: bool, pin: bool)
    requires Inv(g, cfg) && Enabled(g, GetCond(c, v, h, retry, pin)) && g.callers[c].model !in g.pool.managers
    ensures Registered(g)
    ensures Launched(g, Apply(g, cfg, GetCond(c, v, h, retry, pin)), c, g.callers[c].need, h)
            <==> Deserves(g, cfg, c, g.callers[c].need, false, g.callers[c].attempt == 0)
  {
    hide Inv, Apply, Registered, Newcomer, Launched, Room, IdleOther, BusyOther, Admitted, RegInv, ChoicesOk;
    GetCondDecides(g, cfg, c, v, h, retry, pin);
    RegistryFacts(g, cfg);
    NewHandle(g, c, v, h);
    NewcomerLaunch(g, cfg, Apply(g, cfg, GetCond(c, v, h, retry, pin)), c, g.callers[c].need, h);
  }

  lemma RecheckLaunch(g: Gw, cfg: Config, c: TaskId, v: Handle, h: Handle, retry: bool, pin: bool)
    requires Inv(g, cfg) && Enabled(g, RecheckUnload(c, v, h, retry, pin)) && g.callers[c].model !in g.pool.managers
    ensures Registered(g)
    ensures Launched(g, Apply(g, cfg, RecheckUnload(c, v, h, retry, pin)), c, g.callers[c].need, h)
            <==> Deserves(g, cfg, c, g.callers[c].need, false, g.callers[c].attempt == 0)
  {
    hide Inv, Apply, Registered, Leaves, Newcomer, Launched, Room, IdleOther, BusyOther, Admitted, RegInv, ChoicesOk;
    RecheckDecides(g, cfg, c, v, h, retry, pin);
    RegistryFacts(g, cfg);
    NewHandle(g, c, v, h);
    var g' := Apply(g, cfg, RecheckUnload(c, v, h, retry, pin));
    if Admitted(g, g.callers[c].model) {
      NewcomerLaunch(g, cfg, g', c, g.callers[c].need, h);
    } else {
      NotLaunched(g, cfg, g', c, g.callers[c].need, h, false, false);
    }
  }

  lemma QueueLaunch(g: Gw, cfg: Config, c: TaskId, v: Handle, h: Handle)
    requires Inv(g, cfg) && Enabled(g, RecheckQueue(c, v, h))
    ensures Registered(g) && c in g.callers && g.callers[c].pc.Queued?
    ensures Launched(g, Apply(g, cfg, RecheckQueue(c, v, h)), c, g.callers[c].need, h)
            <==> Deserves(g, cfg, c, g.callers[c].need, true, g.callers[c].pc.extraDone)
  {
    hide Inv, Apply, Registered, Decided, Launched, Deserves, ChoicesOk;
    QueueDecides(g, cfg, c, v, h);
    NewHandle(g, c, v, h);
    DecidedLaunch(g, cfg, Apply(g, cfg, RecheckQueue(c, v, h)), c, g.callers[c].need, true, g.callers[c].pc.extraDone, h);
  }

  lemma EvictionLaunch(g: Gw, cfg: Config, c: TaskId, v: Handle, h: Handle)
    requires Inv(g, cfg) && Enabled(g, EvictionOver(c, v, h))
    ensures Registered(g) && c in g.callers && g.callers[c].pc.Evicting?
    ensures Launched(g, Apply(g, cfg, EvictionOver(c, v, h)), c, g.callers[c].need, h)
            <==> Deserves(g, cfg, c, g.callers[c].need, g.callers[c].pc.ticketed, true)
  {
    hide Inv, Apply, Registered, TurnDecided, Launched, Deserves, ChoicesOk;
    CallerFacts(g, cfg, c);
    EvictionDecides(g, cfg, c, v, h);
    NewHandle(g, c, v, h);
    TurnLaunch(g, cfg, Apply(g, cfg, EvictionOver(c, v, h)), c, g.callers[c].need, g.callers[c].pc.ticketed, true, h);
  }

  /** A caller whose model has no manager is given capacity, in whatever step it asks for it, if and only if it
      is admitted and at its turn, its size fits into what the net budget and the measurement leave, a port is
      free, and it either need not evict any more or finds nothing that is or may become idle.  It then has the
      first free port and its load begins. */
  lemma CapacityIff(g: Gw, cfg: Config, st: Step)
    requires Inv(g, cfg) && Enabled(g, st) && Asks(st) && st.c in g.callers && g.callers[st.c].model !in g.pool.managers
    ensures Registered(g)
    ensures Launched(g, Apply(g, cfg, st), st.c, Size(g, st), st.h) <==> Deserves(g, cfg, st.c, Size(g, st), Ticketed(g, st), Done(g, st))
  {
    hide Inv, Apply, Registered, Launched, Deserves, ChoicesOk, MayRetry;
    match st
    case Enter(c, v, h, retry, pin) => EnterLaunch(g, cfg, c, v, h, retry, pin);
    case GetCond(c, v, h, retry, pin) => GetCondLaunch(g, cfg, c, v, h, retry, pin);
    case RecheckUnload(c, v, h, retry, pin) => RecheckLaunch(g, cfg, c, v, h, retry, pin);
    case RecheckQueue(c, v, h) => QueueLaunch(g, cfg, c, v, h);
    case EvictionOver(c, v, h) => EvictionLaunch(g, cfg, c, v, h);
  }
}
