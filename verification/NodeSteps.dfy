/** Every step of the node agent keeps the invariant. */
module NodeSteps {
  import opened Sums
  import opened GatewayPool
  import opened NodeAgent
  import opened NodeSystem
  import opened NodeProofs
  import L = ServerLifecycle

  /** The model of a live operation. */
  function ModelOf(n: Node, o: OpId): ModelId
    requires o in n.a.ops
  {
    n.a.ops[o].def.id
  }

  lemma OpFacts(n: Node, cfg: Config, o: OpId)
    requires Inv(n, cfg) && Live(n, o)
    ensures PcOk(n.runs[o], n.a.ops[o].def, n.a.managers, n.inst) && !Terminal(n.a.ops[o].state) && n.a.ops[o].def.vram > 0.0
    ensures var m := ModelOf(n, o); m in n.a.managers ==>
              && n.a.managers[m] in n.inst && n.inst[n.a.managers[m]].def == n.a.ops[o].def
              && (Locked(n.runs[o]) && n.inst[n.a.managers[m]].srv.state != L.Ready ==>
                    HoldsFor(RunOf(o), n.runs, n.unloads, n.a.managers[m], n.inst[n.a.managers[m]].srv))
    ensures Locked(n.runs[o]) ==> ModelOf(n, o) in n.locks && n.locks[ModelOf(n, o)] == RunOf(o)
  {
    hide PoolInv, DeadInv, BudgetInv, IdentInv, SrvInv;
  }

  lemma SrvFacts(n: Node, cfg: Config, h: Handle)
    requires Inv(n, cfg) && h in n.inst
    ensures OneRound(n.inst[h].srv)
    ensures !Current(n.a.managers, n.inst, h) ==> Gone(n.inst[h].srv)
  {
    hide PoolInv, RegInv, BudgetInv, IdentInv, OpsInv, LockInv, HoldInv, RunInv, OneRound;
  }

  lemma EarlyEnds(n: Node, cfg: Config, o: OpId, state: OpState)
    requires Inv(n, cfg) && Live(n, o) && Early(n.runs[o]) && Terminal(state)
    ensures Inv(Finish(n, o, state), cfg)
  {
    hide Inv;
    OpFacts(n, cfg, o);
    hide HoldsFor;
    FinishKeeps(n, cfg, o, state);
  }

  lemma EarlyMoves(n: Node, cfg: Config, o: OpId, pc: RunPc)
    requires Inv(n, cfg) && Live(n, o) && Early(n.runs[o]) && Early(pc) && (Locked(pc) <==> Locked(n.runs[o]))
    requires pc.Aborting? ==> !pc.landed
    ensures Inv(SetRun(n, o, pc), cfg)
  {
    hide Inv;
    OpFacts(n, cfg, o);
    SetRunKeeps(n, cfg, o, pc);
  }

  lemma LoadingState(ops: Ops, active: map<ModelId, OpId>, runs: Runs, unloads: Unloads, locks: Locks, managers: Managers, inst: Insts, o: OpId)
    requires OpsInv(ops, active, runs) && LockInv(ops, runs, unloads, locks) && RunInv(ops, runs, managers, inst) && o in ops && o in runs
    ensures var ops' := ops[o := ops[o].(state := OpState.Loading)];
            OpsInv(ops', active, runs) && LockInv(ops', runs, unloads, locks) && RunInv(ops', runs, managers, inst)
  {
    hide PcOk;
  }

  lemma LoadingKeeps(n: Node, cfg: Config, o: OpId)
    requires Inv(n, cfg) && Live(n, o)
    ensures Inv(n.(a := n.a.(ops := n.a.ops[o := n.a.ops[o].(state := OpState.Loading)])), cfg)
  {
    hide PoolInv, RegInv, SrvInv, DeadInv, IdentInv, BudgetInv, OpsInv, LockInv, HoldInv, RunInv;
    LoadingState(n.a.ops, n.a.active, n.runs, n.unloads, n.locks, n.a.managers, n.inst, o);
  }

  lemma RunBeginsKeeps(n: Node, cfg: Config, o: OpId, late: bool)
    requires Inv(n, cfg) && AtPc(n, o, Created)
    ensures Inv(DoRunBegins(n, o, late), cfg)
  {
    hide Inv;
    LoadingKeeps(n, cfg, o);
    var n1 := n.(a := n.a.(ops := n.a.ops[o := n.a.ops[o].(state := OpState.Loading)]));
    if late { EarlyEnds(n1, cfg, o, DeadlineExceeded); } else { EarlyMoves(n1, cfg, o, Validating); }
  }

  lemma ValidatedKeeps(n: Node, cfg: Config, o: OpId, ok: bool, late: bool)
    requires Inv(n, cfg) && AtPc(n, o, Validating)
    ensures Inv(DoValidated(n, o, ok, late), cfg)
  {
    hide Inv;
    if late { EarlyEnds(n, cfg, o, DeadlineExceeded); }
    else if ok { EarlyMoves(n, cfg, o, WantLock); }
    else { EarlyEnds(n, cfg, o, Failed); }
  }

  lemma RunLocksKeeps(n: Node, cfg: Config, o: OpId, late: bool)
    requires Inv(n, cfg) && AtPc(n, o, WantLock) && ModelOf(n, o) !in n.locks
    ensures Inv(DoRunLocks(n, o, late), cfg)
  {
    hide Inv;
    if late { EarlyEnds(n, cfg, o, DeadlineExceeded); } else { LockKeeps(n, cfg, o); }
  }

  // ---------------------------------------------------------------- the load itself

  lemma LaunchedServer(now: nat)
    ensures var s := L.Apply(L.Fresh, L.EnsureLoaded(now));
            OneRound(s) && s.state == L.Loading && |s.events| == 1
  {
    L.StepKeepsInv(L.Fresh, L.EnsureLoaded(now));
  }

  lemma LaunchPool(managers: Managers, ports: map<ModelId, nat>, free: set<nat>, range: set<nat>, m: ModelId, h: Handle, port: nat)
    requires PoolInv(managers, ports, free, range) && m !in managers && port in free
    ensures PoolInv(managers[m := h], ports[m := port], free - {port}, range)
  {
    var ports' := ports[m := port];
    forall q | q in range && q !in free - {port} ensures exists k :: k in ports' && ports'[k] == q {
      if q == port { assert m in ports'; }
      else {
        var k :| k in ports && ports[k] == q;
        assert k in ports' && ports'[k] == q;
      }
    }
  }

  lemma LaunchRest(a: Agent, inst: Insts, m: ModelId, h: Handle, i: Inst)
    requires RegInv(a.managers, a.ports, inst) && DeadInv(a.managers, inst) && SrvInv(inst)
    requires IdentInv(a.managers, a.active, a.identity, inst)
    requires m !in a.managers && h !in inst && i.def.id == m && OneRound(i.srv) && i.def.vram > 0.0 && m in a.active
    ensures RegInv(a.managers[m := h], a.ports[m := i.port], inst[h := i]) && DeadInv(a.managers[m := h], inst[h := i])
    ensures SrvInv(inst[h := i]) && IdentInv(a.managers[m := h], a.active, a.identity, inst[h := i])
  {
    hide OneRound;
  }

  lemma LaunchSizes(managers: Managers, ports: map<ModelId, nat>, inst: Insts, m: ModelId, h: Handle, i: Inst, budget: real)
    requires RegInv(managers, ports, inst) && m !in managers && h !in inst && i.srv.state == L.Loading
    requires budget - Total(Sizes(managers, inst)) >= i.def.vram
    ensures BudgetInv(managers[m := h], inst[h := i], budget)
  {
    OneMoreSize(managers, ports, inst, m, h, i);
    hide Sizes;
    assert m !in Sizes(managers, inst) by { SizesOfManagers(managers, inst); }
    TotalInsert(Sizes(managers, inst), m, i.def.vram);
  }

  lemma SizesOfManagers(managers: Managers, inst: Insts)
    ensures forall m :: m in Sizes(managers, inst) ==> m in managers
  {
  }

  lemma OneMoreSize(managers: Managers, ports: map<ModelId, nat>, inst: Insts, m: ModelId, h: Handle, i: Inst)
    requires RegInv(managers, ports, inst) && m !in managers && h !in inst && i.srv.state == L.Loading
    ensures Sizes(managers[m := h], inst[h := i]) == Sizes(managers, inst)[m := i.def.vram]
  {
  }

  lemma LaunchRuns(ops: Ops, active: map<ModelId, OpId>, runs: Runs, managers: Managers, ports: map<ModelId, nat>, inst: Insts,
                   o: OpId, h: Handle, i: Inst)
    requires RegInv(managers, ports, inst) && OpsInv(ops, active, runs) && RunInv(ops, runs, managers, inst) && o in ops && o in runs && h !in inst
    requires i.def == ops[o].def && i.def.id !in managers
    ensures RunInv(ops, runs[o := Child(InEnsure(h, 0))], managers[i.def.id := h], inst[h := i])
  {
    var m, runs' := i.def.id, runs[o := Child(InEnsure(h, 0))];
    forall k | k in runs' && k in ops ensures PcOk(runs'[k], ops[k].def, managers[m := h], inst[h := i]) {
      assert PcOk(runs[k], ops[k].def, managers, inst);
      if k != o { assert ops[k].def.id != m; }
    }
  }

  lemma LaunchHold(ops: Ops, runs: Runs, unloads: Unloads, locks: Locks, managers: Managers, inst: Insts,
                   ports: map<ModelId, nat>, o: OpId, h: Handle, i: Inst)
    requires LockInv(ops, runs, unloads, locks) && HoldInv(managers, inst, locks, runs, unloads) && RegInv(managers, ports, inst)
    requires o in ops && o in runs && runs[o] == Child(ChildStart) && h !in inst && i.def == ops[o].def
    requires i.srv.state == L.Loading && i.def.id !in managers
    ensures HoldInv(managers[i.def.id := h], inst[h := i], locks, runs[o := Child(InEnsure(h, 0))], unloads)
  {
  }

  lemma LaunchKeeps(n: Node, cfg: Config, o: OpId, h: Handle, port: nat)
    requires Inv(n, cfg) && AtPc(n, o, Child(ChildStart)) && h !in n.inst && port in n.a.free
    requires Fits(n, cfg, n.a.ops[o].def.vram)
    ensures Inv(Launch(n, o, h, port), cfg)
  {
    OpFacts(n, cfg, o);
    LaunchedServer(n.now);
    OpIsActive(n, cfg, o);
    hide PoolInv, RegInv, SrvInv, DeadInv, IdentInv, OpsInv, LockInv, HoldInv, RunInv, OneRound, L.Apply, HoldsFor;
    var def := n.a.ops[o].def;
    var i := Inst(def, port, L.Apply(L.Fresh, L.EnsureLoaded(n.now)));
    LaunchPool(n.a.managers, n.a.ports, n.a.free, cfg.range, def.id, h, port);
    LaunchRest(n.a, n.inst, def.id, h, i);
    LaunchSizes(n.a.managers, n.a.ports, n.inst, def.id, h, i, cfg.budget);
    MoveLocks(n.a.ops, n.a.active, n.runs, n.unloads, n.locks, o, Child(InEnsure(h, 0)));
    LaunchRuns(n.a.ops, n.a.active, n.runs, n.a.managers, n.a.ports, n.inst, o, h, i);
    LaunchHold(n.a.ops, n.runs, n.unloads, n.locks, n.a.managers, n.inst, n.a.ports, o, h, i);
  }

  lemma OpIsActive(n: Node, cfg: Config, o: OpId)
    requires Inv(n, cfg) && Live(n, o)
    ensures ModelOf(n, o) in n.a.active && n.a.active[ModelOf(n, o)] == o
  {
    hide PoolInv, RegInv, SrvInv, DeadInv, BudgetInv, LockInv, HoldInv, RunInv, IdentInv;
  }

  /** Three of the branches of _load_serialized are never taken: whenever a load gets to run, its model
      has no manager, READY, LOADING, UNLOADING or left over. */
  lemma LoadFindsNoManager(n: Node, cfg: Config, o: OpId)
    requires Inv(n, cfg) && AtPc(n, o, Child(ChildStart))
    ensures ModelOf(n, o) !in n.a.managers && StateOf(n, ModelOf(n, o)) == None
  {
    hide Inv;
    OpFacts(n, cfg, o);
  }

  lemma ChildRunsKeeps(n: Node, cfg: Config, o: OpId, h: Handle, port: nat)
    requires Inv(n, cfg) && AtPc(n, o, Child(ChildStart)) && h !in n.inst && (n.a.free != {} ==> Smallest(n.a.free, port))
    ensures Inv(DoChildRuns(n, cfg, o, h, port), cfg)
  {
    hide Inv;
    LoadFindsNoManager(n, cfg, o);
    hide Fits, Launch;
    if n.a.free == {} || !Fits(n, cfg, n.a.ops[o].def.vram) {
      EarlyMoves(n, cfg, o, Child(ChildDone(false)));
    } else {
      LaunchKeeps(n, cfg, o, h, port);
    }
  }

  /** The inner task gives up: its instance is UNLOADED and leaves the pool. */
  lemma ChildFailsKeeps(n: Node, cfg: Config, o: OpId, h: Handle)
    requires Inv(n, cfg) && InChild(n, o) && OwnInst(h, n.a.ops[o].def, n.a.managers, n.inst)
    requires Current(n.a.managers, n.inst, h) ==> Gone(n.inst[h].srv)
    ensures Inv(SetRun(Drop(n, ModelOf(n, o), h), o, Child(ChildDone(false))), cfg)
  {
    hide Inv;
    DropKeeps(n, cfg, ModelOf(n, o), h);
    SetRunKeeps(Drop(n, ModelOf(n, o), h), cfg, o, Child(ChildDone(false)));
  }

  /** A set event with no error: READY; otherwise a registered instance is UNLOADED. */
  lemma WakeFacts(s: L.Server)
    requires OneRound(s) && s.events[0]
    ensures L.WakeOutcome(s).Returns? <==> s.state == L.Ready
    ensures s.state != L.Loading
  {
  }

  predicate Set(events: seq<bool>, round: nat) { round < |events| && events[round] }

  lemma ChildWakesKeeps(n: Node, cfg: Config, o: OpId)
    requires WaitsOn(n, o) && Set(n.inst[n.runs[o].c.h].srv.events, n.runs[o].c.round) && Inv(n, cfg)
    ensures Inv(DoChildWakes(n, o), cfg)
  {
    hide Inv;
    var h := n.runs[o].c.h;
    OpFacts(n, cfg, o);
    SrvFacts(n, cfg, h);
    WakeFacts(n.inst[h].srv);
    hide OneRound, L.WakeOutcome;
    if L.WakeOutcome(n.inst[h].srv).Returns? {
      SetRunKeeps(n, cfg, o, Child(ChildDone(true)));
    } else {
      ChildFailsKeeps(n, cfg, o, h);
    }
  }

  lemma UnloadClaims(s: L.Server)
    requires OneRound(s) && (s.state == L.Loading || s.state == L.Ready)
    ensures OneRound(L.BeginUnload(s)) && L.BeginUnload(s).state == L.Unloading && !Gone(s)
  {
    L.StepKeepsInv(s, L.UnloadBegins);
  }

  /** The instance of o starts to unload, while o moves to a point where it waits for that. */
  lemma ClaimKeeps(n: Node, cfg: Config, o: OpId, h: Handle, pc: RunPc)
    requires Inv(n, cfg) && Live(n, o) && Locked(n.runs[o]) && OwnInst(h, n.a.ops[o].def, n.a.managers, n.inst)
    requires InState(n.inst, h, L.Loading) || InState(n.inst, h, L.Ready)
    requires pc == Child(InTimeoutUnload(h)) || pc == Cleaning(h)
    ensures Inv(SetRun(SetSrv(n, h, L.BeginUnload(n.inst[h].srv)), o, pc), cfg)
  {
    hide OpsInv, LockInv, BudgetInv, RunInv, PoolInv, RegInv, DeadInv, HoldInv, IdentInv, SrvInv, OneRound, L.BeginUnload, HoldsFor;
    OpFacts(n, cfg, o);
    SrvFacts(n, cfg, h);
    UnloadClaims(n.inst[h].srv);
    assert Current(n.a.managers, n.inst, h);
    var i := n.inst[h].(srv := L.BeginUnload(n.inst[h].srv));
    MoveLocks(n.a.ops, n.a.active, n.runs, n.unloads, n.locks, o, pc);
    SrvRest(n.a.managers, n.a.ports, n.inst, n.a.active, n.a.identity, h, i);
    SrvRuns(n.a.ops, n.runs, n.a.managers, n.inst, h, i);
    MoveRun(n.a.ops, n.runs, n.a.managers, n.inst[h := i], o, pc);
    SrvSizes(n.a.managers, n.a.ports, n.inst, h, i, cfg.budget);
    ClaimHold(n.a.managers, n.a.ports, n.inst, n.a.ops, n.runs, n.unloads, n.locks, o, h, i, pc);
  }

  lemma ClaimHold(managers: Managers, ports: map<ModelId, nat>, inst: Insts, ops: Ops, runs: Runs, unloads: Unloads, locks: Locks,
                  o: OpId, h: Handle, i: Inst, pc: RunPc)
    requires HoldInv(managers, inst, locks, runs, unloads) && LockInv(ops, runs, unloads, locks) && RegInv(managers, ports, inst)
    requires o in runs && o in ops && Locked(runs[o]) && OwnInst(h, ops[o].def, managers, inst) && Current(managers, inst, h)
    requires i.def == inst[h].def && i.srv.state == L.Unloading && (pc == Child(InTimeoutUnload(h)) || pc == Cleaning(h))
    ensures HoldInv(managers, inst[h := i], locks, runs[o := pc], unloads)
  {
  }

  lemma ChildTimesOutKeeps(n: Node, cfg: Config, o: OpId)
    requires Inv(n, cfg) && WaitsOn(n, o)
    ensures Inv(DoChildTimesOut(n, o), cfg)
  {
    hide Inv;
    var h := n.runs[o].c.h;
    OpFacts(n, cfg, o);
    SrvFacts(n, cfg, h);
    hide OneRound;
    if InState(n.inst, h, L.Loading) || InState(n.inst, h, L.Ready) {
      ClaimKeeps(n, cfg, o, h, Child(InTimeoutUnload(h)));
    } else {
      ChildFailsKeeps(n, cfg, o, h);
    }
  }

  lemma ChildUnloadedKeeps(n: Node, cfg: Config, o: OpId)
    requires TimedOutIn(n, o) && InState(n.inst, n.runs[o].c.h, L.Unloaded) && Inv(n, cfg)
    ensures Inv(DoChildUnloaded(n, o), cfg)
  {
    hide Inv;
    var h := n.runs[o].c.h;
    OpFacts(n, cfg, o);
    DropKeeps(n, cfg, ModelOf(n, o), h);
    SetRunKeeps(Drop(n, ModelOf(n, o), h), cfg, o, WithChild(n.runs[o], ChildDone(false)));
  }

  lemma RunResumesKeeps(n: Node, cfg: Config, o: OpId)
    requires InChild(n, o) && n.runs[o].c.ChildDone? && Inv(n, cfg)
    ensures Inv(Finish(n, o, if n.runs[o].c.ok then OpState.Ready else Failed), cfg)
  {
    hide Inv;
    OpFacts(n, cfg, o);
    FinishKeeps(n, cfg, o, if n.runs[o].c.ok then OpState.Ready else Failed);
  }

  lemma DeadlineHitsKeeps(n: Node, cfg: Config, o: OpId)
    requires Inv(n, cfg) && InChild(n, o)
    ensures Inv(SetRun(n, o, Aborting(n.runs[o].c, false)), cfg)
  {
    hide Inv;
    OpFacts(n, cfg, o);
    SetRunKeeps(n, cfg, o, Aborting(n.runs[o].c, false));
  }

  /** The deadline interrupts the kill that ensure_loaded started after its own timeout. */
  predicate AbandonsKill(n: Node, o: OpId) {
    && Live(n, o) && n.runs[o].Aborting? && n.runs[o].c.InTimeoutUnload? && n.runs[o].c.h in n.inst
    && n.inst[n.runs[o].c.h].srv.unload == L.Killing
  }

  lemma AbandonedServer(s: L.Server)
    requires OneRound(s) && s.unload == L.Killing
    ensures var t := L.Apply(s, L.UnloadAborted);
            OneRound(t) && Gone(t) && t.state == s.state == L.Unloading && t.unload == L.Stuck && t.proc == s.proc
  {
    L.StepKeepsInv(s, L.UnloadAborted);
  }

  lemma AbandonHold(managers: Managers, ports: map<ModelId, nat>, inst: Insts, ops: Ops, runs: Runs, unloads: Unloads, locks: Locks,
                    o: OpId, h: Handle, i: Inst)
    requires HoldInv(managers, inst, locks, runs, unloads) && LockInv(ops, runs, unloads, locks) && RegInv(managers, ports, inst)
    requires o in runs && o in ops && Locked(runs[o]) && OwnInst(h, ops[o].def, managers, inst)
    requires i.def == inst[h].def && i.srv.unload == L.Stuck
    ensures HoldInv(managers, inst[h := i], locks, runs[o := Aborting(ChildDone(false), true)], unloads)
  {
  }

  /** The deadline lands in the kill of h. */
  lemma AbandonKeeps(n: Node, cfg: Config, o: OpId)
    requires AbandonsKill(n, o) && !n.runs[o].landed && Inv(n, cfg)
    ensures Inv(DoAbortLands(n, o), cfg)
  {
    hide OpsInv, LockInv, BudgetInv, RunInv, PoolInv, RegInv, DeadInv, HoldInv, IdentInv, SrvInv, OneRound, L.Apply, HoldsFor;
    OpFacts(n, cfg, o);
    var h, pc := n.runs[o].c.h, Aborting(ChildDone(false), true);
    SrvFacts(n, cfg, h);
    AbandonedServer(n.inst[h].srv);
    var i := n.inst[h].(srv := L.Apply(n.inst[h].srv, L.UnloadAborted));
    MoveLocks(n.a.ops, n.a.active, n.runs, n.unloads, n.locks, o, pc);
    SrvRest(n.a.managers, n.a.ports, n.inst, n.a.active, n.a.identity, h, i);
    SrvRuns(n.a.ops, n.runs, n.a.managers, n.inst, h, i);
    MoveRun(n.a.ops, n.runs, n.a.managers, n.inst[h := i], o, pc);
    SrvSizes(n.a.managers, n.a.ports, n.inst, h, i, cfg.budget);
    AbandonHold(n.a.managers, n.a.ports, n.inst, n.a.ops, n.runs, n.unloads, n.locks, o, h, i);
  }

  lemma AbortLandsKeeps(n: Node, cfg: Config, o: OpId)
    requires Live(n, o) && n.runs[o].Aborting? && !n.runs[o].landed && Inv(n, cfg)
    ensures Inv(DoAbortLands(n, o), cfg)
  {
    hide Inv;
    OpFacts(n, cfg, o);
    var c := n.runs[o].c;
    if AbandonsKill(n, o) {
      AbandonKeeps(n, cfg, o);
    } else if c.InTimeoutUnload? {
      SetRunKeeps(n, cfg, o, Aborting(c, true));
    } else {
      SetRunKeeps(n, cfg, o, Aborting(if c.ChildDone? then c else ChildDone(false), true));
    }
  }

  lemma CleanBeginsKeeps(n: Node, cfg: Config, o: OpId)
    requires Live(n, o) && n.runs[o].Aborting? && n.runs[o].landed && n.runs[o].c.ChildDone? && Inv(n, cfg)
    ensures Inv(DoCleanBegins(n, o), cfg)
  {
    hide Inv;
    OpFacts(n, cfg, o);
    var m := ModelOf(n, o);
    if m !in n.a.managers {
      FinishKeeps(n, cfg, o, DeadlineExceeded);
    } else {
      var h := n.a.managers[m];
      if InState(n.inst, h, L.Loading) || InState(n.inst, h, L.Ready) {
        ClaimKeeps(n, cfg, o, h, Cleaning(h));
      } else {
        DropKeeps(n, cfg, m, h);
        FinishKeeps(Drop(n, m, h), cfg, o, DeadlineExceeded);
      }
    }
  }

  lemma CleanOverKeeps(n: Node, cfg: Config, o: OpId)
    requires Live(n, o) && n.runs[o].Cleaning? && InState(n.inst, n.runs[o].h, L.Unloaded) && Inv(n, cfg)
    ensures Inv(DoCleanOver(n, o), cfg)
  {
    hide Inv;
    OpFacts(n, cfg, o);
    var h := n.runs[o].h;
    DropKeeps(n, cfg, ModelOf(n, o), h);
    FinishKeeps(Drop(n, ModelOf(n, o), h), cfg, o, DeadlineExceeded);
  }

  // ---------------------------------------------------------------- unload requests

  lemma UnlockedIsReadyNow(n: Node, cfg: Config, m: ModelId)
    requires Inv(n, cfg) && m !in n.locks && m in n.a.managers
    ensures var h := n.a.managers[m]; InState(n.inst, h, L.Ready) && n.inst[h].def.id == m && Current(n.a.managers, n.inst, h)
  {
    hide Inv;
    UnlockedIsReady(n, cfg, m);
  }

  lemma ClaimLocks(ops: Ops, runs: Runs, unloads: Unloads, locks: Locks, q: ReqId, m: ModelId, h: Handle)
    requires LockInv(ops, runs, unloads, locks) && m !in locks && q !in unloads
    ensures LockInv(ops, runs, unloads[q := Unl(m, h)], locks[m := UnloadBy(q)])
  {
  }

  lemma ClaimForUnload(managers: Managers, ports: map<ModelId, nat>, inst: Insts, ops: Ops, runs: Runs, unloads: Unloads, locks: Locks,
                       q: ReqId, m: ModelId, h: Handle, i: Inst)
    requires HoldInv(managers, inst, locks, runs, unloads) && LockInv(ops, runs, unloads, locks) && RegInv(managers, ports, inst)
    requires m !in locks && q !in unloads && m in managers && managers[m] == h && i.def == inst[h].def && i.srv.state == L.Unloading
    ensures HoldInv(managers, inst[h := i], locks[m := UnloadBy(q)], runs, unloads[q := Unl(m, h)])
  {
  }

  lemma UnloadBeginsKeeps(n: Node, cfg: Config, q: ReqId, m: ModelId)
    requires Inv(n, cfg) && q !in n.unloads && m !in n.locks
    ensures Inv(DoUnloadBegins(n, q, m), cfg)
  {
    if m in n.a.managers {
      UnlockedIsReadyNow(n, cfg, m);
      var h := n.a.managers[m];
      SrvFacts(n, cfg, h);
      UnloadClaims(n.inst[h].srv);
      hide OpsInv, LockInv, BudgetInv, RunInv, PoolInv, RegInv, DeadInv, HoldInv, IdentInv, SrvInv, OneRound, L.BeginUnload;
      var i := n.inst[h].(srv := L.BeginUnload(n.inst[h].srv));
      ClaimLocks(n.a.ops, n.runs, n.unloads, n.locks, q, m, h);
      SrvRest(n.a.managers, n.a.ports, n.inst, n.a.active, n.a.identity, h, i);
      SrvRuns(n.a.ops, n.runs, n.a.managers, n.inst, h, i);
      SrvSizes(n.a.managers, n.a.ports, n.inst, h, i, cfg.budget);
      ClaimForUnload(n.a.managers, n.a.ports, n.inst, n.a.ops, n.runs, n.unloads, n.locks, q, m, h, i);
    }
  }

  lemma UnloadFacts(n: Node, cfg: Config, q: ReqId)
    requires Inv(n, cfg) && q in n.unloads && InState(n.inst, n.unloads[q].h, L.Unloaded)
    ensures var u := n.unloads[q];
            u.model in n.a.managers ==>
              InState(n.inst, n.a.managers[u.model], L.Ready) || n.a.managers[u.model] == u.h
  {
    hide PoolInv, OpsInv, SrvInv, DeadInv, RunInv, IdentInv, BudgetInv;
  }

  lemma ReleaseLocks(managers: Managers, inst: Insts, ops: Ops, runs: Runs, unloads: Unloads, locks: Locks, q: ReqId)
    requires LockInv(ops, runs, unloads, locks) && HoldInv(managers, inst, locks, runs, unloads) && q in unloads
    requires unloads[q].model in managers ==> InState(inst, managers[unloads[q].model], L.Ready)
    ensures LockInv(ops, runs, unloads - {q}, Free(locks, unloads[q].model, UnloadBy(q)))
    ensures HoldInv(managers, inst, Free(locks, unloads[q].model, UnloadBy(q)), runs, unloads - {q})
  {
  }

  lemma UnloadOverKeeps(n: Node, cfg: Config, q: ReqId)
    requires q in n.unloads && InState(n.inst, n.unloads[q].h, L.Unloaded) && Inv(n, cfg)
    ensures Inv(DoUnloadOver(n, q), cfg)
  {
    hide Inv, ReleaseAgent;
    var u := n.unloads[q];
    UnloadFacts(n, cfg, q);
    DropKeeps(n, cfg, u.model, u.h);
    DropReady(n, u.model, u.h);
    RequestEnds(Drop(n, u.model, u.h), cfg, q);
  }

  lemma DropReady(n: Node, m: ModelId, h: Handle)
    requires m in n.a.managers ==> InState(n.inst, n.a.managers[m], L.Ready) || n.a.managers[m] == h
    ensures m in Drop(n, m, h).a.managers ==> InState(n.inst, Drop(n, m, h).a.managers[m], L.Ready)
  {
  }

  /** The handler of an unload returns and releases the lock. */
  lemma RequestEnds(n: Node, cfg: Config, q: ReqId)
    requires Inv(n, cfg) && q in n.unloads
    requires n.unloads[q].model in n.a.managers ==> InState(n.inst, n.a.managers[n.unloads[q].model], L.Ready)
    ensures Inv(n.(locks := Free(n.locks, n.unloads[q].model, UnloadBy(q)), unloads := n.unloads - {q}), cfg)
  {
    hide OpsInv, LockInv, BudgetInv, RunInv, PoolInv, RegInv, DeadInv, HoldInv, IdentInv, SrvInv, Free;
    ReleaseLocks(n.a.managers, n.inst, n.a.ops, n.runs, n.unloads, n.locks, q);
  }

  // ---------------------------------------------------------------- load tasks, kills and processes

  lemma EventMoves(s: L.Server, e: L.Event)
    requires OneRound(s) && L.Enabled(s, e) && ServerEvent(e)
    ensures var t := L.Apply(s, e);
            && OneRound(t)
            && (Gone(s) ==> Gone(t)) && (t.unload == L.Stuck <==> s.unload == L.Stuck)
            && (s.state == L.Unloaded ==> t.state == L.Unloaded)
            && (s.state == L.Unloading ==> t.state == L.Unloading || (t.state == L.Unloaded && e.UnloadKilled?))
            && (s.state == L.Ready ==> t.state == L.Ready || (t.state == L.Unloaded && e.CrashSeen?))
            && (s.state == L.Loading ==> t.state != L.Unloading)
            && (e.UnloadKilled? || e.CrashSeen? ==> t.state == L.Unloaded)
  {
    L.StepKeepsInv(s, e);
  }

  /** The end of an unload and a detected crash: the instance is UNLOADED, and the callback drops it. */
  lemma CallbackKeeps(n: Node, cfg: Config, h: Handle, s: L.Server)
    requires Inv(n, cfg) && h in n.inst && OneRound(s) && s.state == L.Unloaded
    ensures Inv(Drop(SetSrv(n, h, s), n.inst[h].def.id, h), cfg)
  {
    hide OpsInv, LockInv, BudgetInv, RunInv, PoolInv, RegInv, DeadInv, HoldInv, IdentInv, SrvInv, OneRound;
    var i, m := n.inst[h].(srv := s), n.inst[h].def.id;
    SrvRuns(n.a.ops, n.runs, n.a.managers, n.inst, h, i);
    SrvRest(n.a.managers, n.a.ports, n.inst, n.a.active, n.a.identity, h, i);
    SrvSizes(n.a.managers, n.a.ports, n.inst, h, i, cfg.budget);
    if m in n.a.managers && n.a.managers[m] == h {
      var inst' := n.inst[h := i];
      DropPool(n.a.managers, n.a.ports, n.a.free, cfg.range, m);
      DropRuns(n.a.ops, n.runs, n.a.managers, inst', m);
      DropSizes(n.a.managers, inst', m, cfg.budget);
      CallbackHold(n.a.managers, n.a.ports, n.inst, n.locks, n.runs, n.unloads, h, i);
      CallbackRest(n.a, inst', m);
    } else {
      SrvHold(n.a.managers, n.a.ports, n.inst, n.locks, n.runs, n.unloads, h, i);
    }
  }

  lemma CallbackHold(managers: Managers, ports: map<ModelId, nat>, inst: Insts, locks: Locks, runs: Runs, unloads: Unloads, h: Handle, i: Inst)
    requires RegInv(managers, ports, inst) && HoldInv(managers, inst, locks, runs, unloads) && h in inst && i.def == inst[h].def
    requires Current(managers, inst, h)
    ensures HoldInv(managers - {i.def.id}, inst[h := i], locks, runs, unloads)
  {
    hide HoldsFor;
  }

  lemma CallbackRest(a: Agent, inst: Insts, m: ModelId)
    requires m in a.managers && InState(inst, a.managers[m], L.Unloaded)
    requires RegInv(a.managers, a.ports, inst) && DeadInv(a.managers, inst) && IdentInv(a.managers, a.active, a.identity, inst)
    ensures RegInv(a.managers - {m}, a.ports - {m}, inst) && DeadInv(a.managers - {m}, inst)
    ensures IdentInv(a.managers - {m}, a.active, a.identity - {m}, inst)
  {
  }

  lemma HolderFacts(n: Node, cfg: Config, h: Handle)
    requires Inv(n, cfg) && Current(n.a.managers, n.inst, h) && n.inst[h].srv.state != L.Ready
    ensures n.inst[h].def.id in n.locks && HoldsFor(n.locks[n.inst[h].def.id], n.runs, n.unloads, h, n.inst[h].srv)
  {
    hide PoolInv, OpsInv, SrvInv, DeadInv, RunInv, IdentInv, BudgetInv, LockInv, HoldsFor;
  }

  lemma HolderFollows(who: Holder, runs: Runs, unloads: Unloads, h: Handle, s: L.Server, t: L.Server)
    requires HoldsFor(who, runs, unloads, h, s) && (s.state == L.Unloading <==> t.state == L.Unloading)
    requires s.unload == L.Stuck ==> t.unload == L.Stuck
    ensures HoldsFor(who, runs, unloads, h, t)
  {
  }

  lemma ServerKeeps(n: Node, cfg: Config, h: Handle, e: L.Event)
    requires Inv(n, cfg) && h in n.inst && ServerEvent(e) && L.Enabled(n.inst[h].srv, e)
    ensures Inv(DoServer(n, h, e), cfg)
  {
    hide Inv;
    SrvFacts(n, cfg, h);
    var s, t := n.inst[h].srv, L.Apply(n.inst[h].srv, e);
    EventMoves(s, e);
    hide L.Apply, L.Enabled, OneRound, HoldsFor;
    if e.UnloadKilled? || e.CrashSeen? {
      CallbackKeeps(n, cfg, h, t);
    } else {
      if Current(n.a.managers, n.inst, h) && s.state != L.Ready {
        HolderFacts(n, cfg, h);
        HolderFollows(n.locks[n.inst[h].def.id], n.runs, n.unloads, h, s, t);
      }
      SetSrvKeeps(n, cfg, h, t);
    }
  }

  lemma StepKeepsInv(n: Node, cfg: Config, st: Step)
    requires Inv(n, cfg) && Enabled(n, st)
    ensures Inv(Apply(n, cfg, st), cfg)
  {
    hide Inv, DoStart, DoRunBegins, DoValidated, DoRunLocks, DoChildRuns, DoChildWakes, DoChildTimesOut, DoChildUnloaded, Finish,
      SetRun, DoAbortLands, DoCleanBegins, DoCleanOver, DoUnloadBegins, DoUnloadOver, DoServer, Pruned, L.Enabled, Smallest;
    match st
    case Ask(r) =>
    case Start(r, kept) => StartKeeps(n, cfg, r, kept);
    case Status(kept) => PruneKeeps(n, cfg, kept);
    case RunBegins(o, late) => RunBeginsKeeps(n, cfg, o, late);
    case Validated(o, ok, late) => ValidatedKeeps(n, cfg, o, ok, late);
    case RunLocks(o, late) => RunLocksKeeps(n, cfg, o, late);
    case ChildRuns(o, h, port) => ChildRunsKeeps(n, cfg, o, h, port);
    case ChildWakes(o) => ChildWakesKeeps(n, cfg, o);
    case ChildTimesOut(o) => ChildTimesOutKeeps(n, cfg, o);
    case ChildUnloaded(o) => ChildUnloadedKeeps(n, cfg, o);
    case RunResumes(o) => RunResumesKeeps(n, cfg, o);
    case DeadlineHits(o) => DeadlineHitsKeeps(n, cfg, o);
    case AbortLands(o) => AbortLandsKeeps(n, cfg, o);
    case CleanBegins(o) => CleanBeginsKeeps(n, cfg, o);
    case CleanOver(o) => CleanOverKeeps(n, cfg, o);
    case UnloadBegins(q, m) => UnloadBeginsKeeps(n, cfg, q, m);
    case UnloadOver(q) => UnloadOverKeeps(n, cfg, q);
    case Server(h, e) => ServerKeeps(n, cfg, h, e);
    case Measure(free) => MeasureKeeps(n, cfg, free);
    case Tick => MeasureKeeps(n, cfg, n.measured);
  }

  lemma MeasureKeeps(n: Node, cfg: Config, free: Option<real>)
    requires Inv(n, cfg)
    ensures Inv(n.(measured := free), cfg) && Inv(n.(now := n.now + 1), cfg)
  {
    hide OpsInv, LockInv, BudgetInv, RunInv, PoolInv, RegInv, DeadInv, HoldInv, IdentInv, SrvInv;
  }
}
