/** What every step of the node agent keeps. */
module NodeProofs {
  import opened Sums
  import opened GatewayPool
  import opened NodeAgent
  import opened NodeSystem
  import L = ServerLifecycle

  type Managers = map<ModelId, Handle>
  type Insts = map<Handle, Inst>
  type Ops = map<OpId, Op>
  type Runs = map<OpId, RunPc>
  type Locks = map<ModelId, Holder>
  type Unloads = map<ReqId, Unl>

  // ---------------------------------------------------------------- the invariant, part by part

  /** Free and allocated ports partition the range. */
  ghost predicate PoolInv(managers: Managers, ports: map<ModelId, nat>, free: set<nat>, range: set<nat>) {
    && managers.Keys == ports.Keys
    && (forall m, n :: m in ports && n in ports && ports[m] == ports[n] ==> m == n)
    && (forall m :: m in ports ==> ports[m] !in free && ports[m] in range)
    && (forall q :: q in free ==> q in range)
    && (forall q :: q in range && q !in free ==> exists m :: m in ports && ports[m] == q)
  }

  ghost predicate RegInv(managers: Managers, ports: map<ModelId, nat>, inst: Insts) {
    forall m :: m in managers ==>
      m in ports && managers[m] in inst && inst[managers[m]].def.id == m && inst[managers[m]].port == ports[m]
  }

  /** An operation is not terminal exactly when it is the active one of its model and has a task. */
  ghost predicate OpsInv(ops: Ops, active: map<ModelId, OpId>, runs: Runs) {
    && (forall m :: m in active ==> active[m] in ops && ops[active[m]].def.id == m && !Terminal(ops[active[m]].state))
    && (forall o :: o in ops && !Terminal(ops[o].state) ==> ops[o].def.id in active && active[ops[o].def.id] == o)
    && (forall o :: o in runs <==> o in ops && !Terminal(ops[o].state))
    && (forall o :: o in runs ==> ops[o].def.vram > 0.0)
  }

  predicate Locked(pc: RunPc) { pc.Child? || pc.Aborting? || pc.Cleaning? }

  ghost predicate LockInv(ops: Ops, runs: Runs, unloads: Unloads, locks: Locks) {
    && (forall o :: o in runs && o in ops && Locked(runs[o]) ==>
          ops[o].def.id in locks && locks[ops[o].def.id] == RunOf(o))
    && (forall q :: q in unloads ==> unloads[q].model in locks && locks[unloads[q].model] == UnloadBy(q))
    && (forall m :: m in locks ==> match locks[m]
          case RunOf(o) => o in runs && o in ops && ops[o].def.id == m && Locked(runs[o])
          case UnloadBy(q) => q in unloads && unloads[q].model == m)
  }

  /** An instance is started once; a failed load ends UNLOADED. */
  ghost predicate OneRound(s: L.Server) {
    && L.Inv(s) && |s.events| == 1
    && (s.loadError ==> s.state == L.Unloaded || s.state == L.Unloading || s.load == L.FailKilling)
  }

  ghost predicate SrvInv(inst: Insts) {
    forall h :: h in inst ==> OneRound(inst[h].srv) && inst[h].def.vram > 0.0
  }

  predicate Current(managers: Managers, inst: Insts, h: Handle) {
    h in inst && inst[h].def.id in managers && managers[inst[h].def.id] == h
  }

  /** Nobody works on the instance any more: it is UNLOADED, or its kill was abandoned. */
  predicate Gone(s: L.Server) { s.state == L.Unloaded || s.unload == L.Stuck }

  /** An instance that left the pool is gone. */
  ghost predicate DeadInv(managers: Managers, inst: Insts) {
    forall h :: h in inst && !Current(managers, inst, h) ==> Gone(inst[h].srv)
  }

  predicate HoldsFor(who: Holder, runs: Runs, unloads: Unloads, h: Handle, s: L.Server) {
    match who
    case RunOf(o) =>
      && o in runs
      && (match runs[o]
          case Child(InEnsure(k, _)) => k == h && s.state != L.Unloading
          case Child(InTimeoutUnload(k)) => k == h && s.state == L.Unloading
          case Aborting(InEnsure(k, _), landed) => k == h && s.state != L.Unloading
          case Aborting(InTimeoutUnload(k), _) => k == h && s.state == L.Unloading
          case Aborting(ChildDone(_), _) => s.state == L.Unloading ==> s.unload == L.Stuck
          case Cleaning(k) => k == h && s.state == L.Unloading
          case _ => false)
    case UnloadBy(q) => q in unloads && unloads[q].h == h && s.state == L.Unloading
  }

  /** A registered manager that is not READY belongs to the holder of its model's lock. */
  ghost predicate HoldInv(managers: Managers, inst: Insts, locks: Locks, runs: Runs, unloads: Unloads) {
    forall m :: m in managers && managers[m] in inst && inst[managers[m]].srv.state != L.Ready ==>
      m in locks && HoldsFor(locks[m], runs, unloads, managers[m], inst[managers[m]].srv)
  }

  predicate Early(pc: RunPc) {
    match pc
    case Created => true
    case Validating => true
    case WantLock => true
    case Child(c) => c.ChildStart? || c == ChildDone(false)
    case Aborting(c, landed) => c.ChildStart?
    case Cleaning(_) => false
  }

  /** Which instance the task of an operation is about. */
  ghost predicate PcOk(pc: RunPc, def: Def, managers: Managers, inst: Insts) {
    && (Early(pc) ==> def.id !in managers)
    && (def.id in managers && managers[def.id] in inst ==> inst[managers[def.id]].def == def)
    && (match pc
        case Child(InEnsure(h, r)) => OwnInst(h, def, managers, inst) && r == 0
        case Child(InTimeoutUnload(h)) => OwnInst(h, def, managers, inst)
        case Aborting(InEnsure(h, r), landed) => OwnInst(h, def, managers, inst) && !landed
        case Aborting(InTimeoutUnload(h), _) => OwnInst(h, def, managers, inst)
        case Aborting(ChildStart, landed) => !landed
        case Cleaning(h) => OwnInst(h, def, managers, inst)
        case _ => true)
  }

  predicate OwnInst(h: Handle, def: Def, managers: Managers, inst: Insts) {
    h in inst && inst[h].def == def && (def.id in managers ==> managers[def.id] == h)
  }

  ghost predicate RunInv(ops: Ops, runs: Runs, managers: Managers, inst: Insts) {
    forall o :: o in runs && o in ops ==> PcOk(runs[o], ops[o].def, managers, inst)
  }

  /** Without an active operation, the identity of a registered manager is that of its definition. */
  ghost predicate IdentInv(managers: Managers, active: map<ModelId, OpId>, identity: map<ModelId, Ident>, inst: Insts) {
    forall m :: m in managers && m !in active && managers[m] in inst ==>
      m in identity && identity[m].digest == inst[managers[m]].def.digest
  }

  ghost predicate BudgetInv(managers: Managers, inst: Insts, budget: real) {
    Total(Sizes(managers, inst)) <= budget
  }

  ghost predicate Inv(n: Node, cfg: Config) {
    && PoolInv(n.a.managers, n.a.ports, n.a.free, cfg.range)
    && RegInv(n.a.managers, n.a.ports, n.inst)
    && OpsInv(n.a.ops, n.a.active, n.runs)
    && LockInv(n.a.ops, n.runs, n.unloads, n.locks)
    && SrvInv(n.inst)
    && DeadInv(n.a.managers, n.inst)
    && HoldInv(n.a.managers, n.inst, n.locks, n.runs, n.unloads)
    && RunInv(n.a.ops, n.runs, n.a.managers, n.inst)
    && IdentInv(n.a.managers, n.a.active, n.a.identity, n.inst)
    && BudgetInv(n.a.managers, n.inst, cfg.budget)
  }

  ghost predicate Init(n: Node, cfg: Config) {
    && n.a == Agent(map[], map[], map[], map[], cfg.range, map[])
    && n.inst == map[] && n.locks == map[] && n.runs == map[] && n.unloads == map[] && cfg.budget >= 0.0
  }

  lemma InitHasInv(n: Node, cfg: Config)
    requires Init(n, cfg)
    ensures Inv(n, cfg)
  {
    assert Sizes(n.a.managers, n.inst) == map[];
  }

  // ---------------------------------------------------------------- the task of an operation moves

  lemma MoveLocks(ops: Ops, active: map<ModelId, OpId>, runs: Runs, unloads: Unloads, locks: Locks, o: OpId, pc: RunPc)
    requires OpsInv(ops, active, runs) && LockInv(ops, runs, unloads, locks) && o in runs && (Locked(pc) <==> Locked(runs[o]))
    ensures OpsInv(ops, active, runs[o := pc]) && LockInv(ops, runs[o := pc], unloads, locks)
  {
  }

  lemma MoveHold(managers: Managers, inst: Insts, ops: Ops, runs: Runs, unloads: Unloads, locks: Locks, o: OpId, pc: RunPc)
    requires HoldInv(managers, inst, locks, runs, unloads) && LockInv(ops, runs, unloads, locks) && o in runs && o in ops
    requires Locked(pc) <==> Locked(runs[o])
    requires var m := ops[o].def.id;
             m in managers && Locked(pc) && managers[m] in inst && inst[managers[m]].srv.state != L.Ready ==>
               HoldsFor(RunOf(o), map[o := pc], map[], managers[m], inst[managers[m]].srv)
    ensures HoldInv(managers, inst, locks, runs[o := pc], unloads)
  {
  }

  lemma MoveRun(ops: Ops, runs: Runs, managers: Managers, inst: Insts, o: OpId, pc: RunPc)
    requires RunInv(ops, runs, managers, inst) && o in ops && PcOk(pc, ops[o].def, managers, inst)
    ensures RunInv(ops, runs[o := pc], managers, inst)
  {
    hide PcOk;
  }

  /** o goes on to pc, holding its lock as before. */
  lemma SetRunKeeps(n: Node, cfg: Config, o: OpId, pc: RunPc)
    requires Inv(n, cfg) && Live(n, o) && (Locked(pc) <==> Locked(n.runs[o]))
    requires PcOk(pc, n.a.ops[o].def, n.a.managers, n.inst)
    requires var m := n.a.ops[o].def.id;
             m in n.a.managers && Locked(pc) && n.a.managers[m] in n.inst && n.inst[n.a.managers[m]].srv.state != L.Ready ==>
               HoldsFor(RunOf(o), map[o := pc], map[], n.a.managers[m], n.inst[n.a.managers[m]].srv)
    ensures Inv(SetRun(n, o, pc), cfg)
  {
    hide PoolInv, RegInv, SrvInv, DeadInv, IdentInv, BudgetInv, PcOk, OpsInv, LockInv, HoldInv, RunInv, HoldsFor, Locked;
    MoveLocks(n.a.ops, n.a.active, n.runs, n.unloads, n.locks, o, pc);
    MoveHold(n.a.managers, n.inst, n.a.ops, n.runs, n.unloads, n.locks, o, pc);
    MoveRun(n.a.ops, n.runs, n.a.managers, n.inst, o, pc);
  }

  lemma TakeLocks(ops: Ops, active: map<ModelId, OpId>, runs: Runs, unloads: Unloads, locks: Locks, o: OpId)
    requires OpsInv(ops, active, runs) && LockInv(ops, runs, unloads, locks) && o in runs && runs[o] == WantLock
    requires o in ops && ops[o].def.id !in locks
    ensures OpsInv(ops, active, runs[o := Child(ChildStart)])
    ensures LockInv(ops, runs[o := Child(ChildStart)], unloads, locks[ops[o].def.id := RunOf(o)])
  {
  }

  lemma TakeHold(managers: Managers, inst: Insts, ops: Ops, runs: Runs, unloads: Unloads, locks: Locks, o: OpId)
    requires HoldInv(managers, inst, locks, runs, unloads) && LockInv(ops, runs, unloads, locks) && o in runs && o in ops
    requires ops[o].def.id !in locks && runs[o] == WantLock
    ensures HoldInv(managers, inst, locks[ops[o].def.id := RunOf(o)], runs[o := Child(ChildStart)], unloads)
  {
  }

  /** o takes the lock of its model, which nobody holds. */
  lemma LockKeeps(n: Node, cfg: Config, o: OpId)
    requires Inv(n, cfg) && AtPc(n, o, WantLock) && n.a.ops[o].def.id !in n.locks
    ensures Inv(DoRunLocks(n, o, false), cfg)
  {
    assert PcOk(Child(ChildStart), n.a.ops[o].def, n.a.managers, n.inst) by {
      assert PcOk(WantLock, n.a.ops[o].def, n.a.managers, n.inst);
    }
    hide PoolInv, RegInv, SrvInv, DeadInv, IdentInv, BudgetInv, PcOk, OpsInv, LockInv, HoldInv, RunInv;
    TakeLocks(n.a.ops, n.a.active, n.runs, n.unloads, n.locks, o);
    TakeHold(n.a.managers, n.inst, n.a.ops, n.runs, n.unloads, n.locks, o);
    MoveRun(n.a.ops, n.runs, n.a.managers, n.inst, o, Child(ChildStart));
  }

  // ---------------------------------------------------------------- an operation ends

  lemma EndedOps(a: Agent, runs: Runs, o: OpId, state: OpState, now: nat)
    requires OpsInv(a.ops, a.active, runs) && o in a.ops && o in runs && Terminal(state)
    ensures var a' := Ended(a, o, state, now);
            OpsInv(a'.ops, a'.active, runs - {o}) && a'.managers == a.managers && a'.ports == a.ports && a'.free == a.free
    ensures forall k :: k in a.ops ==> k in Ended(a, o, state, now).ops && Ended(a, o, state, now).ops[k].def == a.ops[k].def
    ensures Ended(a, o, state, now).ops.Keys == a.ops.Keys
  {
  }

  lemma EndedLocks(a: Agent, runs: Runs, unloads: Unloads, locks: Locks, o: OpId, state: OpState, now: nat)
    requires LockInv(a.ops, runs, unloads, locks) && o in a.ops && o in runs
    ensures LockInv(Ended(a, o, state, now).ops, runs - {o}, unloads, Free(locks, a.ops[o].def.id, RunOf(o)))
  {
  }

  lemma EndedHold(managers: Managers, inst: Insts, ops: Ops, runs: Runs, unloads: Unloads, locks: Locks, o: OpId)
    requires HoldInv(managers, inst, locks, runs, unloads) && LockInv(ops, runs, unloads, locks) && o in ops && o in runs
    requires ops[o].def.id in managers ==> InState(inst, managers[ops[o].def.id], L.Ready)
    ensures HoldInv(managers, inst, Free(locks, ops[o].def.id, RunOf(o)), runs - {o}, unloads)
  {
  }

  lemma EndedIdent(a: Agent, inst: Insts, runs: Runs, o: OpId, state: OpState, now: nat)
    requires IdentInv(a.managers, a.active, a.identity, inst) && OpsInv(a.ops, a.active, runs) && RunInv(a.ops, runs, a.managers, inst) && o in runs
    requires a.ops[o].def.id in a.managers ==> state == OpState.Ready
    ensures var a' := Ended(a, o, state, now); IdentInv(a.managers, a'.active, a'.identity, inst)
    ensures RunInv(Ended(a, o, state, now).ops, runs - {o}, a.managers, inst)
  {
    assert PcOk(runs[o], a.ops[o].def, a.managers, inst);
    var a' := Ended(a, o, state, now);
    forall k | k in runs - {o} && k in a'.ops ensures PcOk(runs[k], a'.ops[k].def, a.managers, inst) {
      assert PcOk(runs[k], a.ops[k].def, a.managers, inst);
    }
  }

  /** It leaves no manager behind that is not READY. */
  lemma FinishKeeps(n: Node, cfg: Config, o: OpId, state: OpState)
    requires Inv(n, cfg) && Live(n, o) && Terminal(state)
    requires var m := n.a.ops[o].def.id;
             m in n.a.managers ==> state == OpState.Ready && InState(n.inst, n.a.managers[m], L.Ready)
    ensures Inv(Finish(n, o, state), cfg)
  {
    hide RegInv, SrvInv, DeadInv, BudgetInv, OpsInv, LockInv, HoldInv, IdentInv, RunInv, Ended, PoolInv, Free;
    EndedOps(n.a, n.runs, o, state, n.now);
    EndedLocks(n.a, n.runs, n.unloads, n.locks, o, state, n.now);
    EndedHold(n.a.managers, n.inst, n.a.ops, n.runs, n.unloads, n.locks, o);
    EndedIdent(n.a, n.inst, n.runs, o, state, n.now);
  }

  // ---------------------------------------------------------------- a manager leaves the pool

  lemma DropPool(managers: Managers, ports: map<ModelId, nat>, free: set<nat>, range: set<nat>, m: ModelId)
    requires PoolInv(managers, ports, free, range) && m in managers
    ensures m in ports && PoolInv(managers - {m}, ports - {m}, free + {ports[m]}, range)
  {
    forall q | q in range && q !in free + {ports[m]} ensures exists k :: k in ports - {m} && (ports - {m})[k] == q {
      var k :| k in ports && ports[k] == q;
      assert k != m && k in ports - {m};
    }
  }

  lemma DropRest(a: Agent, inst: Insts, locks: Locks, runs: Runs, unloads: Unloads, m: ModelId)
    requires m in a.managers && a.managers[m] in inst && Gone(inst[a.managers[m]].srv)
    requires RegInv(a.managers, a.ports, inst) && DeadInv(a.managers, inst) && HoldInv(a.managers, inst, locks, runs, unloads)
    requires IdentInv(a.managers, a.active, a.identity, inst)
    ensures RegInv(a.managers - {m}, a.ports - {m}, inst) && DeadInv(a.managers - {m}, inst)
    ensures HoldInv(a.managers - {m}, inst, locks, runs, unloads)
    ensures IdentInv(a.managers - {m}, a.active, a.identity - {m}, inst)
  {
  }

  lemma DropRuns(ops: Ops, runs: Runs, managers: Managers, inst: Insts, m: ModelId)
    requires RunInv(ops, runs, managers, inst)
    ensures RunInv(ops, runs, managers - {m}, inst)
  {
    forall o | o in runs && o in ops ensures PcOk(runs[o], ops[o].def, managers - {m}, inst) {
      assert PcOk(runs[o], ops[o].def, managers, inst);
    }
  }

  lemma SizesShrink(managers: Managers, inst: Insts, managers': Managers, inst': Insts, budget: real)
    requires BudgetInv(managers, inst, budget) && SrvInv(inst)
    requires SubMap(Sizes(managers', inst'), Sizes(managers, inst))
    ensures BudgetInv(managers', inst', budget)
  {
    TotalMonotone(Sizes(managers', inst'), Sizes(managers, inst));
  }

  lemma DropKeeps(n: Node, cfg: Config, m: ModelId, h: Handle)
    requires Inv(n, cfg)
    requires m in n.a.managers && n.a.managers[m] == h ==> h in n.inst && Gone(n.inst[h].srv)
    ensures Inv(Drop(n, m, h), cfg)
    ensures m in Drop(n, m, h).a.managers ==> n.a.managers[m] != h
  {
    hide OpsInv, LockInv, BudgetInv, RunInv, PoolInv, RegInv, DeadInv, HoldInv, IdentInv, SrvInv;
    if m in n.a.managers && n.a.managers[m] == h {
      DropPool(n.a.managers, n.a.ports, n.a.free, cfg.range, m);
      DropRest(n.a, n.inst, n.locks, n.runs, n.unloads, m);
      DropRuns(n.a.ops, n.runs, n.a.managers, n.inst, m);
      DropSizes(n.a.managers, n.inst, m, cfg.budget);
    }
  }

  lemma DropSizes(managers: Managers, inst: Insts, m: ModelId, budget: real)
    requires BudgetInv(managers, inst, budget) && SrvInv(inst)
    ensures BudgetInv(managers - {m}, inst, budget)
  {
    SizesShrink(managers, inst, managers - {m}, inst, budget);
  }

  // ---------------------------------------------------------------- an instance moves

  lemma SrvRuns(ops: Ops, runs: Runs, managers: Managers, inst: Insts, h: Handle, i: Inst)
    requires RunInv(ops, runs, managers, inst) && h in inst && i.def == inst[h].def
    ensures RunInv(ops, runs, managers, inst[h := i])
  {
    forall o | o in runs && o in ops ensures PcOk(runs[o], ops[o].def, managers, inst[h := i]) {
      assert PcOk(runs[o], ops[o].def, managers, inst);
    }
  }

  predicate Accounted(s: L.RunState) { s == L.Ready || s == L.Loading }

  lemma SrvRest(managers: Managers, ports: map<ModelId, nat>, inst: Insts, active: map<ModelId, OpId>, identity: map<ModelId, Ident>,
                h: Handle, i: Inst)
    requires RegInv(managers, ports, inst) && IdentInv(managers, active, identity, inst) && SrvInv(inst) && DeadInv(managers, inst)
    requires h in inst && i.def == inst[h].def && i.port == inst[h].port && OneRound(i.srv)
    requires !Current(managers, inst, h) ==> Gone(i.srv)
    ensures RegInv(managers, ports, inst[h := i]) && IdentInv(managers, active, identity, inst[h := i])
    ensures SrvInv(inst[h := i]) && DeadInv(managers, inst[h := i])
  {
    hide OneRound;
  }

  lemma SrvHold(managers: Managers, ports: map<ModelId, nat>, inst: Insts, locks: Locks, runs: Runs, unloads: Unloads, h: Handle, i: Inst)
    requires RegInv(managers, ports, inst) && HoldInv(managers, inst, locks, runs, unloads) && h in inst && i.def == inst[h].def
    requires Current(managers, inst, h) && i.srv.state != L.Ready ==>
               i.def.id in locks && HoldsFor(locks[i.def.id], runs, unloads, h, i.srv)
    ensures HoldInv(managers, inst[h := i], locks, runs, unloads)
  {
    hide HoldsFor;
  }

  lemma SrvSizes(managers: Managers, ports: map<ModelId, nat>, inst: Insts, h: Handle, i: Inst, budget: real)
    requires RegInv(managers, ports, inst) && SrvInv(inst) && BudgetInv(managers, inst, budget) && h in inst && i.def == inst[h].def
    requires Current(managers, inst, h) && Accounted(i.srv.state) ==> Accounted(inst[h].srv.state)
    ensures BudgetInv(managers, inst[h := i], budget)
  {
    hide OneRound;
    SizesShrink(managers, inst, managers, inst[h := i], budget);
  }

  lemma SetSrvKeeps(n: Node, cfg: Config, h: Handle, s: L.Server)
    requires Inv(n, cfg) && h in n.inst && OneRound(s)
    requires !Current(n.a.managers, n.inst, h) ==> Gone(s)
    requires Current(n.a.managers, n.inst, h) ==>
               && (Accounted(s.state) ==> Accounted(n.inst[h].srv.state))
               && (s.state != L.Ready ==>
                     n.inst[h].def.id in n.locks && HoldsFor(n.locks[n.inst[h].def.id], n.runs, n.unloads, h, s))
    ensures Inv(SetSrv(n, h, s), cfg)
  {
    hide OpsInv, LockInv, BudgetInv, RunInv, PoolInv, RegInv, DeadInv, HoldInv, IdentInv, SrvInv, OneRound, HoldsFor, Accounted, Current;
    var i := n.inst[h].(srv := s);
    SrvRest(n.a.managers, n.a.ports, n.inst, n.a.active, n.a.identity, h, i);
    SrvHold(n.a.managers, n.a.ports, n.inst, n.locks, n.runs, n.unloads, h, i);
    SrvRuns(n.a.ops, n.runs, n.a.managers, n.inst, h, i);
    SrvSizes(n.a.managers, n.a.ports, n.inst, h, i, cfg.budget);
  }

  // ---------------------------------------------------------------- operations come and go

  /** What the rest of the state needs from the operations: the definitions of the live ones. */
  lemma PrunedFacts(ops: Ops, active: map<ModelId, OpId>, now: nat, kept: Ops)
    requires Pruned(ops, active, now, kept)
    ensures forall o :: o in kept ==> o in ops && kept[o] == ops[o]
    ensures forall o :: o in ops && o !in kept ==> Terminal(ops[o].state) && o !in active.Values
  {
  }

  lemma PruneKeeps(n: Node, cfg: Config, kept: Ops)
    requires Inv(n, cfg) && Pruned(n.a.ops, n.a.active, n.now, kept)
    ensures Inv(n.(a := n.a.(ops := kept)), cfg)
    ensures forall o :: o in n.runs ==> o in kept
  {
    PrunedFacts(n.a.ops, n.a.active, n.now, kept);
    hide PoolInv, RegInv, SrvInv, DeadInv, IdentInv, BudgetInv, HoldInv, PcOk, Pruned;
    PruneOps(n.a.ops, n.a.active, n.runs, n.unloads, n.locks, kept);
    PruneRuns(n.a.ops, n.runs, n.a.managers, n.inst, kept);
  }

  lemma PruneOps(ops: Ops, active: map<ModelId, OpId>, runs: Runs, unloads: Unloads, locks: Locks, kept: Ops)
    requires OpsInv(ops, active, runs) && LockInv(ops, runs, unloads, locks)
    requires forall o :: o in kept ==> o in ops && kept[o] == ops[o]
    requires forall o :: o in ops && o !in kept ==> Terminal(ops[o].state) && o !in active.Values
    ensures OpsInv(kept, active, runs) && LockInv(kept, runs, unloads, locks)
    ensures forall o :: o in runs ==> o in kept
  {
  }

  lemma PruneRuns(ops: Ops, runs: Runs, managers: Managers, inst: Insts, kept: Ops)
    requires RunInv(ops, runs, managers, inst) && forall o :: o in kept ==> o in ops && kept[o] == ops[o]
    ensures RunInv(kept, runs, managers, inst)
  {
    hide PcOk;
  }

  lemma NewOps(ops: Ops, active: map<ModelId, OpId>, runs: Runs, unloads: Unloads, locks: Locks, o: OpId, op: Op)
    requires OpsInv(ops, active, runs) && LockInv(ops, runs, unloads, locks) && o !in ops
    ensures Terminal(op.state) ==> OpsInv(ops[o := op], active, runs) && LockInv(ops[o := op], runs, unloads, locks)
    ensures !Terminal(op.state) && op.def.id !in active && op.def.vram > 0.0 ==>
              && OpsInv(ops[o := op], active[op.def.id := o], runs[o := Created])
              && LockInv(ops[o := op], runs[o := Created], unloads, locks)
  {
    hide LockInv;
    NewOpLocks(ops, runs, unloads, locks, o, op);
  }

  lemma NewOpLocks(ops: Ops, runs: Runs, unloads: Unloads, locks: Locks, o: OpId, op: Op)
    requires LockInv(ops, runs, unloads, locks) && o !in ops
    ensures LockInv(ops[o := op], runs[o := Created], unloads, locks) && (o !in runs ==> LockInv(ops[o := op], runs, unloads, locks))
  {
  }

  lemma NewRuns(ops: Ops, runs: Runs, managers: Managers, inst: Insts, o: OpId, op: Op)
    requires RunInv(ops, runs, managers, inst) && o !in runs
    ensures RunInv(ops[o := op], runs, managers, inst)
    ensures op.def.id !in managers ==> RunInv(ops[o := op], runs[o := Created], managers, inst)
  {
    forall k | k in runs && k in ops[o := op] ensures PcOk(runs[k], ops[o := op][k].def, managers, inst) {
      assert PcOk(runs[k], ops[k].def, managers, inst);
    }
  }

  /** Nobody holds the lock of m: its manager, if it has one, is READY. */
  lemma UnlockedIsReady(n: Node, cfg: Config, m: ModelId)
    requires Inv(n, cfg) && m !in n.locks
    ensures m in n.a.managers ==> n.a.managers[m] in n.inst && InState(n.inst, n.a.managers[m], L.Ready)
                                  && n.inst[n.a.managers[m]].def.id == m
  {
    hide PoolInv, OpsInv, LockInv, SrvInv, DeadInv, RunInv, IdentInv, BudgetInv;
  }

  lemma NewHold(managers: Managers, inst: Insts, locks: Locks, ops: Ops, runs: Runs, unloads: Unloads, o: OpId)
    requires HoldInv(managers, inst, locks, runs, unloads) && LockInv(ops, runs, unloads, locks) && o !in ops
    ensures HoldInv(managers, inst, locks, runs[o := Created], unloads)
  {
  }

  lemma StartedKeeps(n: Node, cfg: Config, o: OpId, op: Op)
    requires Inv(n, cfg) && o !in n.a.ops && op.def.id !in n.a.active && op.def.id !in n.a.managers
    requires !Terminal(op.state) && op.def.vram > 0.0
    ensures Inv(SetRun(n.(a := n.a.(ops := n.a.ops[o := op], active := n.a.active[op.def.id := o])), o, Created), cfg)
  {
    assert o !in n.runs;
    hide PoolInv, RegInv, SrvInv, DeadInv, BudgetInv, OpsInv, LockInv, HoldInv, RunInv;
    NewOps(n.a.ops, n.a.active, n.runs, n.unloads, n.locks, o, op);
    NewRuns(n.a.ops, n.runs, n.a.managers, n.inst, o, op);
    NewHold(n.a.managers, n.inst, n.locks, n.a.ops, n.runs, n.unloads, o);
  }

  lemma LoadedKeeps(n: Node, cfg: Config, o: OpId, op: Op)
    requires Inv(n, cfg) && o !in n.a.ops && Terminal(op.state)
    ensures Inv(n.(a := n.a.(ops := n.a.ops[o := op])), cfg)
  {
    assert o !in n.runs;
    hide PoolInv, RegInv, SrvInv, DeadInv, BudgetInv, OpsInv, LockInv, HoldInv, RunInv, IdentInv;
    NewOps(n.a.ops, n.a.active, n.runs, n.unloads, n.locks, o, op);
    NewRuns(n.a.ops, n.runs, n.a.managers, n.inst, o, op);
  }

  /** An active entry always denotes a known operation. */
  lemma ActiveKnown(n: Node, cfg: Config, m: ModelId)
    requires Inv(n, cfg)
    ensures m in n.a.active <==> ActiveOf(n.a, m).Some?
  {
    hide PoolInv, RegInv, SrvInv, DeadInv, BudgetInv, LockInv, HoldInv, RunInv, IdentInv;
  }

  lemma StartKeeps(n: Node, cfg: Config, r: Request, kept: Ops)
    requires Inv(n, cfg) && Enabled(n, Start(r, kept))
    ensures Inv(DoStart(n, r, kept), cfg)
  {
    hide Inv, Pruned, PcOk;
    PruneKeeps(n, cfg, kept);
    var n1 := n.(a := n.a.(ops := kept));
    ActiveKnown(n1, cfg, r.def.id);
    UnlockedIsReady(n1, cfg, r.def.id);
    var answer := Decide(n1.a, r, StateOf(n, r.def.id));
    match answer
    case Started(o) => StartedKeeps(n1, cfg, o, NewOp(n1.a, r, Accepted, n.now));
    case Loaded(o) => LoadedKeeps(n1, cfg, o, NewOp(n1.a, r, OpState.Ready, n.now));
    case _ =>
  }
}
