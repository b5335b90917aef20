/** What every step of the gateway pool keeps. */
module GatewayProofs {
  import opened Sums
  import opened GatewayPool
  import opened GatewaySystem
  import L = ServerLifecycle

  type Managers = map<ModelId, Handle>
  type Insts = map<Handle, Inst>
  type Callers = map<TaskId, Caller>
  type Admins = map<TaskId, Admin>
  type Locks = map<ModelId, TaskId>

  // ---------------------------------------------------------------- the invariant, part by part

  ghost predicate RegisteredInv(managers: Managers, ports: map<ModelId, nat>, inst: Insts) {
    forall m :: m in managers ==>
      m in ports && managers[m] in inst && inst[managers[m]].model == m && inst[managers[m]].port == ports[m]
  }

  ghost predicate SrvInv(inst: Insts, granted: set<Handle>) {
    && (forall h :: h in inst ==> L.Inv(inst[h].srv) && (inst[h].srv.active > 0 ==> h in granted))
    && (forall h :: h in granted ==> h in inst)
  }

  ghost predicate LockInv(callers: Callers, admins: Admins, locks: Locks) {
    && (forall c :: c in callers ==> c !in admins)
    && (forall c :: c in callers && callers[c].pc != WantLock ==>
          callers[c].model in locks && locks[callers[c].model] == c)
    && (forall a :: a in admins && admins[a].pc != AWantLock ==>
          admins[a].model in locks && locks[admins[a].model] == a)
  }

  ghost predicate PcOk(caller: Caller, managers: Managers, inst: Insts, granted: set<Handle>) {
    match caller.pc
    case WantLock => true
    case Entering => true
    case WantCond => true
    case WaitUnload => true
    case Queued(_) => caller.model !in managers
    case Evicting(v, _, extra) =>
      extra && caller.model !in managers && v in inst && (v in managers.Values ==> inst[v].srv.state == L.Unloading)
    case Waiting(h, r) =>
      h in inst && inst[h].model == caller.model && h !in granted && r < |inst[h].srv.events|
    case TimingOut(h) => h in inst && inst[h].model == caller.model
    case Forgetting(h, retry) => h in inst && inst[h].model == caller.model && (retry ==> caller.attempt == 0)
  }

  ghost predicate WaitInv(callers: Callers, managers: Managers, inst: Insts, granted: set<Handle>) {
    forall c :: c in callers ==> PcOk(callers[c], managers, inst, granted)
  }

  /** While an operator unloads h, h is the manager of its model until the callback drops it. */
  ghost predicate AdminInv(admins: Admins, managers: Managers, inst: Insts) {
    forall a :: a in admins && admins[a].pc.Unloading? ==>
      && admins[a].pc.h in inst && inst[admins[a].pc.h].model == admins[a].model
      && (admins[a].model in managers ==> managers[admins[a].model] == admins[a].pc.h && inst[admins[a].pc.h].srv.state == L.Unloading)
  }

  /** A registered instance that was handed out is READY or on its way out. */
  ghost predicate GrantInv(managers: Managers, inst: Insts, granted: set<Handle>) {
    forall m :: m in managers && managers[m] in granted ==> StateIn(inst, managers[m], L.Ready, L.Unloading)
  }

  predicate HoldsTicket(callers: Callers, c: TaskId) {
    c in callers && (callers[c].pc.Queued? || (callers[c].pc.Evicting? && callers[c].pc.ticketed))
  }

  predicate Head(q: seq<TaskId>, c: TaskId, ticketed: bool) {
    if ticketed then q != [] && q[0] == c else q == []
  }

  ghost predicate QueueInv(q: seq<TaskId>, callers: Callers, cond: Option<TaskId>, maxWaiters: nat) {
    && NoDup(q)
    && |q| <= maxWaiters
    && (forall c :: c in q <==> HoldsTicket(callers, c))
    && (forall c :: c in callers && callers[c].pc.Evicting? ==> cond == Some(c))
    && (cond.Some? ==> cond.value in callers && callers[cond.value].pc.Evicting?
                       && Head(q, cond.value, callers[cond.value].pc.ticketed))
  }

  /** Sizes are positive, and the size a caller works with is the declared one until the registry is edited. */
  ghost predicate RegInv(reg: map<ModelId, Entry>, regChanged: bool, callers: Callers) {
    && (forall m :: m in reg ==> reg[m].vram > 0.0)
    && (!regChanged ==> forall c :: c in callers ==>
          callers[c].model in reg && callers[c].need == reg[callers[c].model].vram)
  }

  predicate Attends(callers: Callers, c: TaskId, h: Handle) {
    c in callers && ((callers[c].pc.Waiting? || callers[c].pc.TimingOut? || callers[c].pc.Forgetting?)
                     && callers[c].pc.h == h)
  }

  /** As long as nobody is cancelled, a registered manager that is loading or has failed to load
      has a caller that waits for it under the model lock. */
  ghost predicate AttendedInv(cancelled: bool, managers: Managers, inst: Insts, locks: Locks, callers: Callers) {
    !cancelled ==> forall m :: m in managers && StateIn(inst, managers[m], L.Loading, L.Unloaded) ==>
                     m in locks && Attends(callers, locks[m], managers[m])
  }

  ghost predicate Inv(g: Gw, cfg: Config) {
    && PortsPartition(g.pool, cfg.range)
    && RegisteredInv(g.pool.managers, g.pool.ports, g.inst)
    && SrvInv(g.inst, g.granted)
    && LockInv(g.callers, g.admins, g.locks)
    && WaitInv(g.callers, g.pool.managers, g.inst, g.granted)
    && AdminInv(g.admins, g.pool.managers, g.inst)
    && GrantInv(g.pool.managers, g.inst, g.granted)
    && QueueInv(g.pool.waiters, g.callers, g.cond, cfg.maxWaiters)
    && RegInv(g.reg, g.regChanged, g.callers)
    && AttendedInv(g.cancelled, g.pool.managers, g.inst, g.locks, g.callers)
  }

  ghost predicate Init(g: Gw, cfg: Config) {
    && g.pool.managers == map[] && g.pool.ports == map[] && NoDup(g.pool.free)
    && cfg.range == (set q | q in g.pool.free) && cfg.budget >= 0.0
    && g.pool.waiters == [] && g.inst == map[] && g.cond == None && g.locks == map[]
    && g.callers == map[] && g.admins == map[] && g.granted == {} && !g.cancelled && !g.regChanged
    && (forall m :: m in g.reg ==> g.reg[m].vram > 0.0)
  }

  lemma InitHasInv(g: Gw, cfg: Config)
    requires Init(g, cfg)
    ensures Inv(g, cfg)
  {
    assert g.pool.ports.Values == {};
  }

  // ---------------------------------------------------------------- the effects

  /** A registered manager that c attends is not left behind loading or failed. */
  ghost predicate LeavesNothing(g: Gw, c: TaskId) {
    !g.cancelled ==> forall m :: m in g.pool.managers && Attends(g.callers, c, g.pool.managers[m]) ==>
                       StateIn(g.inst, g.pool.managers[m], L.Ready, L.Unloading)
  }

  lemma ExitLocks(callers: Callers, admins: Admins, locks: Locks, c: TaskId)
    requires LockInv(callers, admins, locks) && c in callers
    ensures LockInv(callers - {c}, admins, Unlock(locks, callers[c].model, c))
  {
  }

  lemma ExitQueue(q: seq<TaskId>, callers: Callers, cond: Option<TaskId>, maxWaiters: nat, c: TaskId)
    requires QueueInv(q, callers, cond, maxWaiters) && c in callers && !callers[c].pc.Evicting?
    requires HoldsTicket(callers, c) ==> cond == None
    ensures QueueInv(Without(q, c), callers - {c}, cond, maxWaiters)
  {
    WithoutKeepsOthers(q, c);
    if !HoldsTicket(callers, c) {
      assert Without(q, c) == q;
    }
  }

  lemma ExitAttended(g: Gw, c: TaskId)
    requires AttendedInv(g.cancelled, g.pool.managers, g.inst, g.locks, g.callers)
    requires c in g.callers && LeavesNothing(g, c)
    ensures AttendedInv(g.cancelled, g.pool.managers, g.inst, Unlock(g.locks, g.callers[c].model, c), g.callers - {c})
  {
  }

  lemma ExitKeeps(g: Gw, cfg: Config, c: TaskId)
    requires Inv(g, cfg) && c in g.callers && !g.callers[c].pc.Evicting?
    requires LeavesNothing(g, c)
    requires HoldsTicket(g.callers, c) ==> g.cond == None
    ensures Inv(Exit(g, c), cfg)
  {
    hide RegisteredInv, SrvInv, LockInv, AdminInv, GrantInv, QueueInv, AttendedInv;
    var g' := Exit(g, c);
    ExitLocks(g.callers, g.admins, g.locks, c);
    ExitQueue(g.pool.waiters, g.callers, g.cond, cfg.maxWaiters, c);
    ExitAttended(g, c);
  }

  lemma MovePcQueue(q: seq<TaskId>, callers: Callers, cond: Option<TaskId>, maxWaiters: nat, c: TaskId, k: Caller)
    requires QueueInv(q, callers, cond, maxWaiters) && c in callers
    requires !callers[c].pc.Evicting? && !k.pc.Evicting? && (callers[c].pc.Queued? <==> k.pc.Queued?)
    ensures QueueInv(q, callers[c := k], cond, maxWaiters)
  {
    assert forall d :: HoldsTicket(callers[c := k], d) <==> HoldsTicket(callers, d);
  }

  lemma MovePcAttended(g: Gw, c: TaskId, k: Caller)
    requires AttendedInv(g.cancelled, g.pool.managers, g.inst, g.locks, g.callers) && c in g.callers
    requires LeavesNothing(g, c) || ((k.pc.Waiting? || k.pc.TimingOut? || k.pc.Forgetting?) && Attends(g.callers, c, k.pc.h))
    ensures AttendedInv(g.cancelled, g.pool.managers, g.inst, g.locks, g.callers[c := k])
  {
  }

  lemma MovePcRest(callers: Callers, admins: Admins, locks: Locks, managers: Managers, inst: Insts,
                   granted: set<Handle>, reg: map<ModelId, Entry>, regChanged: bool, c: TaskId, k: Caller)
    requires LockInv(callers, admins, locks) && WaitInv(callers, managers, inst, granted) && RegInv(reg, regChanged, callers)
    requires c in callers && callers[c].pc != WantLock && k.model == callers[c].model && k.need == callers[c].need
    requires PcOk(k, managers, inst, granted)
    ensures LockInv(callers[c := k], admins, locks) && WaitInv(callers[c := k], managers, inst, granted)
    ensures RegInv(reg, regChanged, callers[c := k])
  {
  }

  /** c suspends elsewhere, keeping its lock and its ticket, and still attends what it attended. */
  lemma SetPcKeeps(g: Gw, cfg: Config, c: TaskId, pc: Pc)
    requires Inv(g, cfg) && c in g.callers && g.callers[c].pc != WantLock && pc != WantLock
    requires !g.callers[c].pc.Evicting? && !pc.Evicting? && (g.callers[c].pc.Queued? <==> pc.Queued?)
    requires PcOk(g.callers[c].(pc := pc), g.pool.managers, g.inst, g.granted)
    requires LeavesNothing(g, c) || ((pc.Waiting? || pc.TimingOut? || pc.Forgetting?) && Attends(g.callers, c, pc.h))
    ensures Inv(SetPc(g, c, pc), cfg)
  {
    hide PortsPartition, RegisteredInv, SrvInv, WaitInv, AdminInv, GrantInv, QueueInv, RegInv, AttendedInv;
    var k := g.callers[c].(pc := pc);
    MovePcQueue(g.pool.waiters, g.callers, g.cond, cfg.maxWaiters, c, k);
    MovePcAttended(g, c, k);
    MovePcRest(g.callers, g.admins, g.locks, g.pool.managers, g.inst, g.granted, g.reg, g.regChanged, c, k);
  }

  /** An instance moves without entering a state that is accounted or has to be attended. */
  ghost predicate Calm(was: L.Server, s: L.Server) {
    && L.Inv(s) && |was.events| <= |s.events|
    && (s.state == L.Ready || s.state == L.Loading ==> was.state == L.Ready || was.state == L.Loading)
    && (s.state == L.Unloaded || s.state == L.Loading ==> was.state == L.Unloaded || was.state == L.Loading)
    && (was.state == L.Ready || was.state == L.Unloading ==> s.state == L.Ready || s.state == L.Unloading)
  }

  lemma MoveSrvData(managers: Managers, ports: map<ModelId, nat>, inst: Insts, granted: set<Handle>, h: Handle, i: Inst)
    requires RegisteredInv(managers, ports, inst) && SrvInv(inst, granted)
    requires h in inst && i.model == inst[h].model && i.port == inst[h].port
    requires L.Inv(i.srv) && (i.srv.active > 0 ==> h in granted)
    ensures RegisteredInv(managers, ports, inst[h := i]) && SrvInv(inst[h := i], granted)
  {
  }

  lemma MoveSrvControl(callers: Callers, admins: Admins, managers: Managers, inst: Insts, granted: set<Handle>, h: Handle, i: Inst)
    requires WaitInv(callers, managers, inst, granted) && AdminInv(admins, managers, inst)
    requires h in inst && i.model == inst[h].model && |inst[h].srv.events| <= |i.srv.events|
    requires h in managers.Values && inst[h].srv.state == L.Unloading ==> i.srv.state == L.Unloading
    ensures WaitInv(callers, managers, inst[h := i], granted) && AdminInv(admins, managers, inst[h := i])
  {
    forall c | c in callers ensures PcOk(callers[c], managers, inst[h := i], granted) {
      assert PcOk(callers[c], managers, inst, granted);
    }
  }

  lemma MoveSrvStates(g: Gw, h: Handle, i: Inst)
    requires GrantInv(g.pool.managers, g.inst, g.granted)
    requires AttendedInv(g.cancelled, g.pool.managers, g.inst, g.locks, g.callers)
    requires h in g.inst
    requires h in g.pool.managers.Values ==> Calm(g.inst[h].srv, i.srv)
    ensures GrantInv(g.pool.managers, g.inst[h := i], g.granted)
    ensures AttendedInv(g.cancelled, g.pool.managers, g.inst[h := i], g.locks, g.callers)
  {
  }

  lemma SetSrvKeeps(g: Gw, cfg: Config, h: Handle, s: L.Server)
    requires Inv(g, cfg) && h in g.inst
    requires L.Inv(s) && |g.inst[h].srv.events| <= |s.events| && (s.active > 0 ==> h in g.granted)
    requires h in g.pool.managers.Values ==> Calm(g.inst[h].srv, s)
    ensures Inv(SetSrv(g, h, s), cfg)
  {
    hide PortsPartition, RegisteredInv, SrvInv, LockInv, WaitInv, AdminInv, GrantInv, QueueInv, AttendedInv;
    var i := g.inst[h].(srv := s);
    MoveSrvData(g.pool.managers, g.pool.ports, g.inst, g.granted, h, i);
    MoveSrvControl(g.callers, g.admins, g.pool.managers, g.inst, g.granted, h, i);
    MoveSrvStates(g, h, i);
  }

  /** Without the entry of m, everything that was said about the other entries still holds. */
  lemma ReleaseKeeps(g: Gw, cfg: Config, m: ModelId, h: Handle)
    requires Inv(g, cfg)
    ensures Inv(g.(pool := Release(g.pool, m, h).0), cfg)
    ensures m in g.pool.managers && g.pool.managers[m] == h && h in g.inst && g.inst[h].model == m ==>
              h !in Release(g.pool, m, h).0.managers.Values
  {
    hide PortsPartition, SrvInv, LockInv, WaitInv, AdminInv, GrantInv, QueueInv, RegInv, AttendedInv;
    ReleaseKeepsPartition(g.pool, m, h, cfg.range);
    ReleaseWaits(g.pool, m, h, g.callers, g.admins, g.inst, g.granted);
    ReleaseAttended(g.pool, m, h, g.cancelled, g.inst, g.granted, g.locks, g.callers);
  }

  lemma ReleaseWaits(p: Pool, m: ModelId, h: Handle, callers: Callers, admins: Admins, inst: Insts, granted: set<Handle>)
    requires WaitInv(callers, p.managers, inst, granted) && AdminInv(admins, p.managers, inst)
    ensures WaitInv(callers, Release(p, m, h).0.managers, inst, granted) && AdminInv(admins, Release(p, m, h).0.managers, inst)
  {
  }

  lemma ReleaseAttended(p: Pool, m: ModelId, h: Handle, cancelled: bool, inst: Insts, granted: set<Handle>, locks: Locks, callers: Callers)
    requires GrantInv(p.managers, inst, granted) && AttendedInv(cancelled, p.managers, inst, locks, callers)
    ensures GrantInv(Release(p, m, h).0.managers, inst, granted)
    ensures AttendedInv(cancelled, Release(p, m, h).0.managers, inst, locks, callers)
  {
    hide StateIn;
  }

  /** The end of an unload and a detected crash: the instance is UNLOADED and its callback has run. */
  lemma CallbackKeeps(g: Gw, cfg: Config, h: Handle, s: L.Server)
    requires Inv(g, cfg) && h in g.inst
    requires L.Inv(s) && |g.inst[h].srv.events| <= |s.events| && s.active == g.inst[h].srv.active
    ensures Inv(Callback(SetSrv(g, h, s), h), cfg)
  {
    hide PortsPartition, LockInv, WaitInv, AdminInv, GrantInv, QueueInv, RegInv, AttendedInv;
    var m := g.inst[h].model;
    ReleaseKeeps(g, cfg, m, h);
    var g1 := g.(pool := Release(g.pool, m, h).0);
    assert h !in g1.pool.managers.Values;
    SetSrvKeeps(g1, cfg, h, s);
    assert Callback(SetSrv(g, h, s), h) == SetSrv(g1, h, s);
  }

  /** h is handed out: nobody else can be waiting for it, since they would hold the same model lock. */
  lemma HandOut(g: Gw, cfg: Config, h: Handle)
    requires Inv(g, cfg) && InState(g, h, L.Ready)
    requires forall d :: d in g.callers && g.callers[d].pc.Waiting? ==> g.callers[d].pc.h != h
    ensures Inv(g.(granted := g.granted + {h}), cfg)
  {
    forall d | d in g.callers ensures PcOk(g.callers[d], g.pool.managers, g.inst, g.granted + {h}) {
      assert PcOk(g.callers[d], g.pool.managers, g.inst, g.granted);
    }
  }

  lemma OnlyWaiter(g: Gw, cfg: Config, c: TaskId, h: Handle)
    requires Inv(g, cfg) && c in g.callers && g.callers[c].pc != WantLock
    requires h in g.inst && g.inst[h].model == g.callers[c].model
    ensures forall d :: d in Exit(g, c).callers && g.callers[d].pc.Waiting? ==> g.callers[d].pc.h != h
  {
    forall d | d in Exit(g, c).callers && g.callers[d].pc.Waiting? ensures g.callers[d].pc.h != h {
      assert PcOk(g.callers[d], g.pool.managers, g.inst, g.granted);
    }
  }

  lemma GrantKeeps(g: Gw, cfg: Config, c: TaskId, h: Handle, pin: bool)
    requires Inv(g, cfg) && c in g.callers && !g.callers[c].pc.Evicting? && g.callers[c].pc != WantLock
    requires InState(g, h, L.Ready) && g.inst[h].model == g.callers[c].model
    requires LeavesNothing(g, c) && !HoldsTicket(g.callers, c)
    ensures Inv(Grant(g, c, h, pin), cfg)
  {
    hide PortsPartition, RegisteredInv, SrvInv, LockInv, WaitInv, AdminInv, GrantInv, QueueInv, RegInv, AttendedInv;
    GrantExit(g, cfg, c, h);
    HandOverKeeps(Exit(g, c), cfg, h, pin);
  }

  lemma GrantExit(g: Gw, cfg: Config, c: TaskId, h: Handle)
    requires Inv(g, cfg) && c in g.callers && !g.callers[c].pc.Evicting? && g.callers[c].pc != WantLock
    requires InState(g, h, L.Ready) && g.inst[h].model == g.callers[c].model
    requires LeavesNothing(g, c) && !HoldsTicket(g.callers, c)
    ensures Inv(Exit(g, c), cfg)
    ensures forall d :: d in Exit(g, c).callers && Exit(g, c).callers[d].pc.Waiting? ==> Exit(g, c).callers[d].pc.h != h
  {
    hide PortsPartition, RegisteredInv, SrvInv, LockInv, WaitInv, AdminInv, GrantInv, QueueInv, RegInv, AttendedInv;
    OnlyWaiter(g, cfg, c, h);
    ExitKeeps(g, cfg, c);
  }

  lemma HandOverKeeps(g: Gw, cfg: Config, h: Handle, pin: bool)
    requires Inv(g, cfg) && InState(g, h, L.Ready)
    requires forall d :: d in g.callers && g.callers[d].pc.Waiting? ==> g.callers[d].pc.h != h
    ensures Inv(HandOver(g, h, pin), cfg)
  {
    hide PortsPartition, RegisteredInv, LockInv, WaitInv, AdminInv, GrantInv, QueueInv, RegInv, AttendedInv;
    HandOut(g, cfg, h);
    var s := g.inst[h].srv.(last := g.now, active := g.inst[h].srv.active + if pin then 1 else 0);
    SetSrvKeeps(g.(granted := g.granted + {h}), cfg, h, s);
  }

  /** Where a caller gets or may get the condition and has no ticket. */
  predicate AtCondition(pc: Pc) { pc == Entering || pc == WantCond || pc == WaitUnload }

  /** At the top of the capacity loop: c holds its model lock, the condition is free, and its model
      has no manager; it holds a ticket exactly when it has queued before. */
  ghost predicate AtLoop(g: Gw, c: TaskId, ticketed: bool) {
    && c in g.callers && g.cond == None && g.callers[c].model !in g.pool.managers
    && (AtCondition(g.callers[c].pc) || g.callers[c].pc.Queued?)
    && (ticketed <==> g.callers[c].pc.Queued?)
  }

  lemma MovePc(g: Gw, cfg: Config, c: TaskId, pc: Pc, q: seq<TaskId>)
    requires Inv(g, cfg) && c in g.callers && g.callers[c].pc != WantLock
    requires PcOk(g.callers[c].(pc := pc), g.pool.managers, g.inst, g.granted) && LeavesNothing(g, c)
    requires QueueInv(q, g.callers[c := g.callers[c].(pc := pc)], g.cond, cfg.maxWaiters)
    ensures Inv(SetPc(g, c, pc).(pool := g.pool.(waiters := q)), cfg)
  {
    var k := g.callers[c].(pc := pc);
    MovePcAttended(g, c, k);
    MovePcRest(g.callers, g.admins, g.locks, g.pool.managers, g.inst, g.granted, g.reg, g.regChanged, c, k);
  }

  /** c takes or gives back the condition together with its place in the code. */
  lemma MoveCond(g: Gw, cfg: Config, c: TaskId, pc: Pc, cond: Option<TaskId>)
    requires Inv(g, cfg) && c in g.callers && g.callers[c].pc != WantLock
    requires PcOk(g.callers[c].(pc := pc), g.pool.managers, g.inst, g.granted) && LeavesNothing(g, c)
    requires QueueInv(g.pool.waiters, g.callers[c := g.callers[c].(pc := pc)], cond, cfg.maxWaiters)
    ensures Inv(SetPc(g, c, pc).(cond := cond), cfg)
  {
    var k := g.callers[c].(pc := pc);
    MovePcAttended(g, c, k);
    MovePcRest(g.callers, g.admins, g.locks, g.pool.managers, g.inst, g.granted, g.reg, g.regChanged, c, k);
  }

  lemma StartEvicting(q: seq<TaskId>, callers: Callers, cond: Option<TaskId>, maxWaiters: nat, c: TaskId, k: Caller)
    requires QueueInv(q, callers, cond, maxWaiters) && cond == None && c in callers
    requires k.pc.Evicting? && k.pc.ticketed == callers[c].pc.Queued? && Head(q, c, k.pc.ticketed)
    ensures QueueInv(q, callers[c := k], Some(c), maxWaiters)
  {
    assert forall d :: HoldsTicket(callers[c := k], d) <==> HoldsTicket(callers, d);
  }

  lemma HoldWhileEvicting(g: Gw, cfg: Config, c: TaskId, v: Handle, ticketed: bool, extra: bool)
    requires Inv(g, cfg) && AtLoop(g, c, ticketed) && IsTurn(g, c, ticketed) && InState(g, v, L.Unloading) && extra
    ensures Inv(SetPc(g, c, Evicting(v, ticketed, extra)).(cond := Some(c)), cfg)
  {
    var k := g.callers[c].(pc := Evicting(v, ticketed, extra));
    StartEvicting(g.pool.waiters, g.callers, g.cond, cfg.maxWaiters, c, k);
    MoveCond(g, cfg, c, k.pc, Some(c));
  }

  lemma BeginEvictKeeps(g: Gw, cfg: Config, c: TaskId, v: Handle, ticketed: bool, extra: bool)
    requires Inv(g, cfg) && AtLoop(g, c, ticketed) && IsTurn(g, c, ticketed) && InState(g, v, L.Ready) && extra
    ensures Inv(BeginEvict(g, c, v, ticketed, extra), cfg)
  {
    hide PortsPartition, RegisteredInv, LockInv, WaitInv, AdminInv, GrantInv, QueueInv, RegInv, AttendedInv;
    SetSrvKeeps(g, cfg, v, L.BeginUnload(g.inst[v].srv));
    HoldWhileEvicting(SetSrv(g, v, L.BeginUnload(g.inst[v].srv)), cfg, c, v, ticketed, extra);
  }

  lemma TakeTicket(q: seq<TaskId>, callers: Callers, cond: Option<TaskId>, maxWaiters: nat, c: TaskId, k: Caller)
    requires QueueInv(q, callers, cond, maxWaiters) && cond == None && c in callers && !callers[c].pc.Queued?
    requires !callers[c].pc.Evicting? && k.pc.Queued? && |q| < maxWaiters
    ensures QueueInv(q + [c], callers[c := k], cond, maxWaiters)
  {
    assert c !in q;
    forall d ensures HoldsTicket(callers[c := k], d) <==> d in q + [c] {
      assert d != c ==> (HoldsTicket(callers[c := k], d) <==> HoldsTicket(callers, d));
    }
  }

  lemma ParkKeeps(g: Gw, cfg: Config, c: TaskId, ticketed: bool, extra: bool)
    requires Inv(g, cfg) && AtLoop(g, c, ticketed)
    ensures Inv(Park(g, cfg, c, ticketed, extra), cfg)
  {
    hide PortsPartition, RegisteredInv, SrvInv, WaitInv, AdminInv, GrantInv, QueueInv, RegInv, AttendedInv;
    var k := g.callers[c].(pc := Queued(extra));
    if !cfg.queueEnabled || (!ticketed && |g.pool.waiters| >= cfg.maxWaiters) {
      ExitKeeps(g, cfg, c);
    } else if ticketed {
      SetPcKeeps(g, cfg, c, Queued(extra));
    } else {
      TakeTicket(g.pool.waiters, g.callers, g.cond, cfg.maxWaiters, c, k);
      MovePc(g, cfg, c, k.pc, g.pool.waiters + [c]);
    }
  }

  lemma DropTicket(q: seq<TaskId>, callers: Callers, cond: Option<TaskId>, maxWaiters: nat, c: TaskId, k: Caller)
    requires QueueInv(q, callers, cond, maxWaiters) && cond == None && c in callers && !callers[c].pc.Evicting?
    requires !k.pc.Queued? && !k.pc.Evicting?
    ensures QueueInv(Without(q, c), callers[c := k], cond, maxWaiters)
  {
    WithoutKeepsOthers(q, c);
    assert forall d :: HoldsTicket(callers[c := k], d) <==> HoldsTicket(callers, d) && d != c;
  }

  lemma TicketGoneKeeps(g: Gw, cfg: Config, c: TaskId, ticketed: bool)
    requires Inv(g, cfg) && AtLoop(g, c, ticketed)
    ensures Inv(TicketGone(g, c), cfg)
  {
    hide PortsPartition, RegisteredInv, SrvInv, WaitInv, AdminInv, GrantInv, QueueInv, RegInv, AttendedInv;
    var k := g.callers[c].(pc := Entering);
    DropTicket(g.pool.waiters, g.callers, g.cond, cfg.maxWaiters, c, k);
    MovePc(g, cfg, c, Entering, Without(g.pool.waiters, c));
  }

  lemma NewInstanceControl(callers: Callers, admins: Admins, managers: Managers, inst: Insts, granted: set<Handle>, h: Handle, i: Inst)
    requires WaitInv(callers, managers, inst, granted) && AdminInv(admins, managers, inst) && h !in inst
    ensures WaitInv(callers, managers, inst[h := i], granted) && AdminInv(admins, managers, inst[h := i])
  {
    forall c | c in callers ensures PcOk(callers[c], managers, inst[h := i], granted) {
      assert PcOk(callers[c], managers, inst, granted);
    }
  }

  lemma NewInstanceStates(g: Gw, h: Handle, i: Inst)
    requires GrantInv(g.pool.managers, g.inst, g.granted) && RegisteredInv(g.pool.managers, g.pool.ports, g.inst)
    requires AttendedInv(g.cancelled, g.pool.managers, g.inst, g.locks, g.callers)
    requires SrvInv(g.inst, g.granted) && h !in g.inst && L.Inv(i.srv) && i.srv.active == 0
    ensures GrantInv(g.pool.managers, g.inst[h := i], g.granted)
    ensures RegisteredInv(g.pool.managers, g.pool.ports, g.inst[h := i]) && SrvInv(g.inst[h := i], g.granted)
    ensures AttendedInv(g.cancelled, g.pool.managers, g.inst[h := i], g.locks, g.callers)
  {
  }

  /** An instance that nobody knows changes nothing. */
  lemma NewInstance(g: Gw, cfg: Config, h: Handle, i: Inst)
    requires Inv(g, cfg) && h !in g.inst && L.Inv(i.srv) && i.srv.active == 0
    ensures Inv(g.(inst := g.inst[h := i]), cfg)
  {
    NewInstanceControl(g.callers, g.admins, g.pool.managers, g.inst, g.granted, h, i);
    NewInstanceStates(g, h, i);
  }

  lemma RegisterControl(callers: Callers, managers: Managers, inst: Insts, granted: set<Handle>, locks: Locks, m: ModelId, h: Handle)
    requires WaitInv(callers, managers, inst, granted)
    requires forall c :: c in callers && callers[c].model == m ==> !callers[c].pc.Queued?
    requires forall c :: c in callers ==> !callers[c].pc.Evicting?
    ensures WaitInv(callers, managers[m := h], inst, granted)
  {
    forall c | c in callers ensures PcOk(callers[c], managers[m := h], inst, granted) {
      assert PcOk(callers[c], managers, inst, granted);
    }
  }

  /** c holds the lock of its model, so no operator is unloading a manager of it. */
  lemma RegisterAdmins(callers: Callers, admins: Admins, locks: Locks, managers: Managers, inst: Insts, c: TaskId, h: Handle)
    requires AdminInv(admins, managers, inst) && LockInv(callers, admins, locks) && c in callers && callers[c].pc != WantLock
    ensures AdminInv(admins, managers[callers[c].model := h], inst)
  {
  }

  lemma RegisterData(g: Gw, cfg: Config, c: TaskId, h: Handle)
    requires Inv(g, cfg) && c in g.callers && g.callers[c].pc == Waiting(h, 0) && g.pool.free != []
    requires g.callers[c].model !in g.pool.managers && h !in g.granted
    requires h in g.inst && g.inst[h].model == g.callers[c].model && g.inst[h].port == g.pool.free[0]
    ensures var p := Register(g.pool, g.callers[c].model, h);
            && PortsPartition(p, cfg.range) && RegisteredInv(p.managers, p.ports, g.inst)
            && GrantInv(p.managers, g.inst, g.granted)
            && AttendedInv(g.cancelled, p.managers, g.inst, g.locks, g.callers)
  {
    assert LockInv(g.callers, g.admins, g.locks);
    hide PortsPartition, RegisteredInv, GrantInv, AttendedInv, SrvInv, WaitInv, AdminInv, QueueInv, RegInv;
    RegisterKeepsPartition(g.pool, g.callers[c].model, h, cfg.range);
    RegisterEntry(g.pool, g.inst, g.granted, g.callers[c].model, h);
    RegisterAttended(g.cancelled, g.pool.managers, g.inst, g.locks, g.callers, c, h);
  }

  lemma RegisterEntry(p: Pool, inst: Insts, granted: set<Handle>, m: ModelId, h: Handle)
    requires m !in p.managers && h !in granted && p.free != []
    requires h in inst && inst[h].model == m && inst[h].port == p.free[0]
    requires RegisteredInv(p.managers, p.ports, inst) && GrantInv(p.managers, inst, granted)
    ensures RegisteredInv(Register(p, m, h).managers, Register(p, m, h).ports, inst) && GrantInv(Register(p, m, h).managers, inst, granted)
  {
    hide StateIn;
  }

  lemma RegisterAttended(cancelled: bool, managers: Managers, inst: Insts, locks: Locks, callers: Callers, c: TaskId, h: Handle)
    requires AttendedInv(cancelled, managers, inst, locks, callers)
    requires c in callers && callers[c].pc == Waiting(h, 0) && callers[c].model in locks && locks[callers[c].model] == c
    ensures AttendedInv(cancelled, managers[callers[c].model := h], inst, locks, callers)
  {
    hide StateIn;
  }

  /** c already waits for the unregistered instance h; now h is registered. */
  lemma RegisterKeeps(g: Gw, cfg: Config, c: TaskId, h: Handle)
    requires Inv(g, cfg) && c in g.callers && g.callers[c].pc == Waiting(h, 0) && g.pool.free != []
    requires g.callers[c].model !in g.pool.managers && h !in g.granted && g.cond == None
    requires h in g.inst && g.inst[h].model == g.callers[c].model && g.inst[h].port == g.pool.free[0]
    ensures Inv(g.(pool := Register(g.pool, g.callers[c].model, h)), cfg)
  {
    hide PortsPartition, RegisteredInv, SrvInv, WaitInv, AdminInv, GrantInv, AttendedInv;
    RegisterData(g, cfg, c, h);
    var m := g.callers[c].model;
    RegisterControl(g.callers, g.pool.managers, g.inst, g.granted, g.locks, m, h);
    RegisterAdmins(g.callers, g.admins, g.locks, g.pool.managers, g.inst, c, h);
  }

  lemma LaunchKeeps(g: Gw, cfg: Config, c: TaskId, h: Handle)
    requires Inv(g, cfg) && AtLoop(g, c, false) && HasCapacity(g, cfg, g.callers[c].need) && h !in g.inst
    ensures Inv(Launch(g, c, h), cfg)
  {
    hide PortsPartition, RegisteredInv, LockInv, WaitInv, AdminInv, GrantInv, QueueInv, RegInv, AttendedInv;
    var i := Inst(g.callers[c].model, g.pool.free[0], L.Apply(L.Fresh, L.EnsureLoaded(g.now)));
    NewInstance(g, cfg, h, i);
    var g1 := g.(inst := g.inst[h := i]);
    assert h !in g.granted;
    SetPcKeeps(g1, cfg, c, Waiting(h, 0));
    RegisterKeeps(SetPc(g1, c, Waiting(h, 0)), cfg, c, h);
  }

  lemma ReserveKeeps(g: Gw, cfg: Config, c: TaskId, ticketed: bool, h: Handle)
    requires Inv(g, cfg) && AtLoop(g, c, ticketed) && HasCapacity(g, cfg, g.callers[c].need) && h !in g.inst
    ensures Inv(Reserve(g, c, h), cfg)
  {
    hide PortsPartition, RegisteredInv, SrvInv, LockInv, WaitInv, AdminInv, GrantInv, QueueInv, RegInv, AttendedInv;
    if !Admitted(g, g.callers[c].model) {
      ExitKeeps(g, cfg, c);
    } else {
      TicketGoneKeeps(g, cfg, c, ticketed);
      LaunchKeeps(TicketGone(g, c), cfg, c, h);
    }
  }

  // ---------------------------------------------------------------- the steps of a caller

  /** What the steps of c need to know about c. */
  lemma CallerFacts(g: Gw, cfg: Config, c: TaskId)
    requires Inv(g, cfg) && c in g.callers
    ensures PcOk(g.callers[c], g.pool.managers, g.inst, g.granted)
    ensures g.callers[c].pc.Evicting? ==> g.cond == Some(c) && IsTurn(g, c, g.callers[c].pc.ticketed)
    ensures Registered(g)
    ensures forall m :: m in g.pool.managers ==> g.inst[g.pool.managers[m]].model == m
    ensures forall h :: h in g.inst ==> L.Inv(g.inst[h].srv)
  {
    hide PortsPartition, LockInv, AdminInv, GrantInv, RegInv, AttendedInv;
  }

  lemma VictimFacts(g: Gw, m: ModelId, v: Handle)
    requires IsVictim(g, m, v)
    ensures InState(g, v, L.Ready) && g.inst[v].srv.active == 0 && v in g.pool.managers.Values
  {
  }

  lemma AtTurnKeeps(g: Gw, cfg: Config, c: TaskId, ticketed: bool, extra: bool, v: Handle, h: Handle)
    requires Inv(g, cfg) && AtLoop(g, c, ticketed) && IsTurn(g, c, ticketed) && ChoicesOk(g, c, v, h)
    requires HasVictim(g, g.callers[c].model) ==> extra
    ensures Inv(AtTurn(g, cfg, c, ticketed, extra, v, h), cfg)
  {
    hide Inv;
    if !HasCapacity(g, cfg, g.callers[c].need) && HasVictim(g, g.callers[c].model) {
      VictimFacts(g, g.callers[c].model, v);
      BeginEvictKeeps(g, cfg, c, v, ticketed, extra);
    } else if extra && HasCapacity(g, cfg, g.callers[c].need) {
      ReserveKeeps(g, cfg, c, ticketed, h);
    } else {
      ParkKeeps(g, cfg, c, ticketed, extra);
    }
  }

  lemma ConsiderKeeps(g: Gw, cfg: Config, c: TaskId, ticketed: bool, extra: bool, v: Handle, h: Handle)
    requires Inv(g, cfg) && AtLoop(g, c, ticketed) && ChoicesOk(g, c, v, h)
    ensures Inv(Consider(g, cfg, c, ticketed, extra, v, h), cfg)
  {
    hide Inv;
    var m := g.callers[c].model;
    if !Admitted(g, m) {
      ExitKeeps(g, cfg, c);
    } else if !IsTurn(g, c, ticketed) {
      ParkKeeps(g, cfg, c, ticketed, extra);
    } else if !extra && HasVictim(g, m) {
      VictimFacts(g, m, v);
      BeginEvictKeeps(g, cfg, c, v, ticketed, true);
    } else {
      AtTurnKeeps(g, cfg, c, ticketed, extra || !TempBlocker(g, m), v, h);
    }
  }

  /** ensure_loaded on the registered manager h of the model of c. */
  lemma UseManagerKeeps(g: Gw, cfg: Config, c: TaskId, h: Handle, retry: bool, pin: bool)
    requires Inv(g, cfg) && c in g.callers && AtCondition(g.callers[c].pc)
    requires g.callers[c].model in g.pool.managers && g.pool.managers[g.callers[c].model] == h
    requires h in g.inst && MayRetry(g, c, retry)
    ensures Inv(UseManager(g, c, h, retry, pin), cfg)
  {
    hide Inv, RefuseReady, WaitFor, Grant;
    ManagerFacts(g, cfg, g.callers[c].model);
    match L.EnterOutcome(g.inst[h].srv)
    case Returns =>
      if Admitted(g, g.callers[c].model) {
        GrantKeeps(g, cfg, c, h, pin);
      } else {
        RefuseReadyKeeps(g, cfg, c, h, retry);
      }
    case Waits(r) => WaitForKeeps(g, cfg, c, h, r);
    case Raises => SetPcKeeps(g, cfg, c, Forgetting(h, retry));
  }

  lemma ManagerFacts(g: Gw, cfg: Config, m: ModelId)
    requires Inv(g, cfg) && m in g.pool.managers
    ensures g.pool.managers[m] in g.inst && g.inst[g.pool.managers[m]].model == m
  {
  }

  lemma RefuseReadyKeeps(g: Gw, cfg: Config, c: TaskId, h: Handle, retry: bool)
    requires Inv(g, cfg) && c in g.callers && MayRetry(g, c, retry)
    requires !g.callers[c].pc.Evicting? && !g.callers[c].pc.Queued? && g.callers[c].pc != WantLock
    requires LeavesNothing(g, c) || Attends(g.callers, c, h)
    requires InState(g, h, L.Ready) && g.inst[h].model == g.callers[c].model
    ensures Inv(RefuseReady(g, c, h, retry), cfg)
  {
    hide Inv;
    InstFacts(g, cfg, h);
    var s := g.inst[h].srv.(last := g.now);
    SetSrvKeeps(g, cfg, h, s);
    hide L.Inv;
    SetPcKeeps(SetSrv(g, h, s), cfg, c, Forgetting(h, retry));
  }

  lemma InstFacts(g: Gw, cfg: Config, h: Handle)
    requires Inv(g, cfg) && h in g.inst
    ensures L.Inv(g.inst[h].srv) && (g.inst[h].srv.active > 0 ==> h in g.granted)
  {
  }

  /** A manager found UNLOADED in the pool was left behind by a cancelled caller: it is restarted. */
  lemma WaitForKeeps(g: Gw, cfg: Config, c: TaskId, h: Handle, r: nat)
    requires Inv(g, cfg) && c in g.callers && AtCondition(g.callers[c].pc)
    requires g.callers[c].model in g.pool.managers && g.pool.managers[g.callers[c].model] == h && h in g.inst
    requires L.EnterOutcome(g.inst[h].srv) == L.Waits(r)
    ensures Inv(WaitFor(g, c, h, r), cfg)
  {
    WaitOnManagerFacts(g, cfg, c, h);
    var s := g.inst[h].srv;
    hide Inv;
    RestartKeeps(g, cfg, h);
    SetPcKeeps(SetSrv(g, h, L.Apply(s, L.EnsureLoaded(g.now))), cfg, c, Waiting(h, r));
  }

  /** Without cancellations nobody can arrive at a manager that is loading or has failed to load. */
  lemma WaitOnManagerFacts(g: Gw, cfg: Config, c: TaskId, h: Handle)
    requires Inv(g, cfg) && c in g.callers && AtCondition(g.callers[c].pc)
    requires g.callers[c].model in g.pool.managers && g.pool.managers[g.callers[c].model] == h && h in g.inst
    requires g.inst[h].srv.state == L.Loading || g.inst[h].srv.state == L.Unloaded
    ensures g.cancelled && h !in g.granted && L.Inv(g.inst[h].srv) && g.inst[h].model == g.callers[c].model
    ensures g.inst[h].srv.active == 0
  {
    hide PortsPartition, WaitInv, AdminInv, QueueInv, RegInv;
  }

  lemma MoveUngranted(managers: Managers, inst: Insts, granted: set<Handle>, h: Handle, i: Inst)
    requires GrantInv(managers, inst, granted) && h !in granted
    ensures GrantInv(managers, inst[h := i], granted)
  {
  }

  lemma RoundStarts(s: L.Server, now: nat)
    requires L.Inv(s) && (s.state == L.Loading || s.state == L.Unloaded)
    ensures var t := L.Apply(s, L.EnsureLoaded(now));
            L.Inv(t) && |s.events| <= |t.events| && t.active == s.active && t.state == L.Loading
  {
    L.StepKeepsInv(s, L.EnsureLoaded(now));
  }

  lemma RestartKeeps(g: Gw, cfg: Config, h: Handle)
    requires Inv(g, cfg) && g.cancelled && h in g.inst && h !in g.granted && g.inst[h].srv.active == 0
    requires g.inst[h].srv.state == L.Loading || g.inst[h].srv.state == L.Unloaded
    ensures Inv(SetSrv(g, h, L.Apply(g.inst[h].srv, L.EnsureLoaded(g.now))), cfg)
  {
    InstFacts(g, cfg, h);
    RoundStarts(g.inst[h].srv, g.now);
    var i := g.inst[h].(srv := L.Apply(g.inst[h].srv, L.EnsureLoaded(g.now)));
    hide L.Inv, L.Apply;
    hide PortsPartition, RegisteredInv, SrvInv, LockInv, WaitInv, AdminInv, GrantInv, QueueInv, RegInv;
    MoveSrvData(g.pool.managers, g.pool.ports, g.inst, g.granted, h, i);
    MoveSrvControl(g.callers, g.admins, g.pool.managers, g.inst, g.granted, h, i);
    MoveUngranted(g.pool.managers, g.inst, g.granted, h, i);
  }

  lemma UnderConditionKeeps(g: Gw, cfg: Config, c: TaskId, v: Handle, h: Handle, retry: bool, pin: bool)
    requires Inv(g, cfg) && c in g.callers && AtCondition(g.callers[c].pc)
    requires g.cond == None && ChoicesOk(g, c, v, h) && MayRetry(g, c, retry) && Registered(g)
    ensures Inv(UnderCondition(g, cfg, c, v, h, retry, pin), cfg)
  {
    hide Inv;
    var caller := g.callers[c];
    if caller.model in g.pool.managers {
      var k := g.pool.managers[caller.model];
      if InState(g, k, L.Unloading) {
        if cfg.queueEnabled { SetPcKeeps(g, cfg, c, WaitUnload); } else { ExitKeeps(g, cfg, c); }
      } else {
        UseManagerKeeps(g, cfg, c, k, retry, pin);
      }
    } else if caller.need > cfg.budget {
      ExitKeeps(g, cfg, c);
    } else {
      ConsiderKeeps(g, cfg, c, false, caller.attempt == 0, v, h);
    }
  }

  lemma BeginKeeps(g: Gw, cfg: Config, c: TaskId)
    requires Inv(g, cfg) && c in g.callers && g.callers[c].pc == Entering && g.callers[c].model in g.reg
    ensures Inv(Begin(g, c), cfg)
  {
    hide PortsPartition, RegisteredInv, SrvInv, AdminInv, GrantInv, AttendedInv;
    var k := g.callers[c].(need := g.reg[g.callers[c].model].vram);
    MovePcQueue(g.pool.waiters, g.callers, g.cond, cfg.maxWaiters, c, k);
    MovePcAttended(g, c, k);
  }

  lemma EnterKeeps(g: Gw, cfg: Config, c: TaskId, v: Handle, h: Handle, retry: bool, pin: bool)
    requires Inv(g, cfg) && CanEnter(g, c, v, h, retry) && Registered(g)
    ensures Inv(DoEnter(g, cfg, c, v, h, retry, pin), cfg)
  {
    hide Inv;
    CallerFacts(g, cfg, c);
    var m := g.callers[c].model;
    if !Admitted(g, m) {
      ExitKeeps(g, cfg, c);
    } else if ReadyNow(g, m) {
      GrantKeeps(g, cfg, c, g.pool.managers[m], pin);
    } else {
      BeginKeeps(g, cfg, c);
      UnderConditionKeeps(Begin(g, c), cfg, c, v, h, retry, pin);
    }
  }

  lemma EnterWaitKeeps(g: Gw, cfg: Config, c: TaskId)
    requires Inv(g, cfg) && CanEnterWait(g, c)
    ensures Inv(DoEnterWait(g, c), cfg)
  {
    hide Inv;
    BeginKeeps(g, cfg, c);
    SetPcKeeps(Begin(g, c), cfg, c, WantCond);
  }

  lemma GetCondKeeps(g: Gw, cfg: Config, c: TaskId, v: Handle, h: Handle, retry: bool, pin: bool)
    requires Inv(g, cfg) && CanGetCond(g, c, v, h, retry) && Registered(g)
    ensures Inv(UnderCondition(g, cfg, c, v, h, retry, pin), cfg)
  {
    hide Inv;
    UnderConditionKeeps(g, cfg, c, v, h, retry, pin);
  }

  lemma RecheckUnloadKeeps(g: Gw, cfg: Config, c: TaskId, v: Handle, h: Handle, retry: bool, pin: bool)
    requires Inv(g, cfg) && CanRecheckUnload(g, c, v, h, retry) && Registered(g)
    ensures Inv(DoRecheckUnload(g, cfg, c, v, h, retry, pin), cfg)
  {
    hide Inv;
    if !Admitted(g, g.callers[c].model) { ExitKeeps(g, cfg, c); }
    else { UnderConditionKeeps(g, cfg, c, v, h, retry, pin); }
  }

  lemma RecheckQueueKeeps(g: Gw, cfg: Config, c: TaskId, v: Handle, h: Handle)
    requires Inv(g, cfg) && CanRecheckQueue(g, c, v, h)
    ensures Inv(Consider(g, cfg, c, true, g.callers[c].pc.extraDone, v, h), cfg)
  {
    hide Inv;
    CallerFacts(g, cfg, c);
    ConsiderKeeps(g, cfg, c, true, g.callers[c].pc.extraDone, v, h);
  }

  lemma StopEvicting(q: seq<TaskId>, callers: Callers, cond: Option<TaskId>, maxWaiters: nat, c: TaskId, k: Caller)
    requires QueueInv(q, callers, cond, maxWaiters) && c in callers && callers[c].pc.Evicting?
    requires if callers[c].pc.ticketed then k.pc.Queued? else k.pc == Entering
    ensures QueueInv(q, callers[c := k], None, maxWaiters)
  {
    assert forall d :: HoldsTicket(callers[c := k], d) <==> HoldsTicket(callers, d);
  }

  /** The eviction is over: the turn is still the caller's, and its model still has no manager. */
  lemma ResumedKeeps(g: Gw, cfg: Config, c: TaskId)
    requires Inv(g, cfg) && c in g.callers && g.callers[c].pc.Evicting?
    ensures Inv(Resumed(g, c), cfg) && AtLoop(Resumed(g, c), c, g.callers[c].pc.ticketed)
    ensures IsTurn(Resumed(g, c), c, g.callers[c].pc.ticketed)
  {
    hide PortsPartition, RegisteredInv, SrvInv, LockInv, WaitInv, AdminInv, GrantInv, QueueInv, RegInv, AttendedInv;
    CallerFacts(g, cfg, c);
    var pc := if g.callers[c].pc.ticketed then Queued(g.callers[c].pc.extra) else Entering;
    StopEvicting(g.pool.waiters, g.callers, g.cond, cfg.maxWaiters, c, g.callers[c].(pc := pc));
    hide Inv;
    MoveCond(g, cfg, c, pc, None);
  }

  lemma ResumeEvictionKeeps(g: Gw, cfg: Config, c: TaskId, v: Handle, h: Handle)
    requires Inv(g, cfg) && CanResumeEviction(g, c, v, h)
    ensures Inv(DoResumeEviction(g, cfg, c, v, h), cfg)
  {
    hide Inv;
    CallerFacts(g, cfg, c);
    ResumedKeeps(g, cfg, c);
    var pc := g.callers[c].pc;
    AtTurnKeeps(Resumed(g, c), cfg, c, pc.ticketed, pc.extra, v, h);
  }

  lemma WakeKeeps(g: Gw, cfg: Config, c: TaskId, retry: bool, pin: bool)
    requires Inv(g, cfg) && CanWake(g, c, retry)
    ensures Inv(DoWake(g, c, retry, pin), cfg)
  {
    hide Inv;
    CallerFacts(g, cfg, c);
    var h := g.callers[c].pc.h;
    var s := g.inst[h].srv;
    if L.WakeOutcome(s).Returns? {
      if Admitted(g, g.callers[c].model) {
        GrantKeeps(g, cfg, c, h, pin);
      } else {
        RefuseReadyKeeps(g, cfg, c, h, retry);
      }
    } else {
      SetPcKeeps(g, cfg, c, Forgetting(h, retry));
    }
  }

  lemma TimeOutKeeps(g: Gw, cfg: Config, c: TaskId, retry: bool)
    requires Inv(g, cfg) && CanTimeOut(g, c, retry)
    ensures Inv(DoTimeOut(g, c, retry), cfg)
  {
    hide Inv;
    CallerFacts(g, cfg, c);
    var h := g.callers[c].pc.h;
    if InState(g, h, L.Loading) || InState(g, h, L.Ready) {
      BeginUnloadKeeps(g, cfg, h);
      SetPcKeeps(SetSrv(g, h, L.BeginUnload(g.inst[h].srv)), cfg, c, TimingOut(h));
    } else {
      SetPcKeeps(g, cfg, c, Forgetting(h, retry));
    }
  }

  lemma SecondAttemptKeeps(g: Gw, cfg: Config, c: TaskId)
    requires Inv(g, cfg) && c in g.callers && g.callers[c].pc.Forgetting? && LeavesNothing(g, c)
    ensures Inv(SecondAttempt(g, c), cfg)
  {
    hide PortsPartition, RegisteredInv, SrvInv, LockInv, WaitInv, AdminInv, GrantInv, QueueInv, RegInv, AttendedInv;
    var k := g.callers[c].(attempt := 1, pc := Entering);
    MovePcQueue(g.pool.waiters, g.callers, g.cond, cfg.maxWaiters, c, k);
    MovePcAttended(g, c, k);
    MovePcRest(g.callers, g.admins, g.locks, g.pool.managers, g.inst, g.granted, g.reg, g.regChanged, c, k);
  }

  lemma ForgetKeeps(g: Gw, cfg: Config, c: TaskId)
    requires Inv(g, cfg) && CanForget(g, c)
    ensures Inv(DoForget(g, c), cfg)
  {
    hide Inv;
    CallerFacts(g, cfg, c);
    var caller := g.callers[c];
    ReleaseKeeps(g, cfg, caller.model, caller.pc.h);
    var g1 := g.(pool := Release(g.pool, caller.model, caller.pc.h).0);
    assert LeavesNothing(g1, c);
    if caller.pc.retry { SecondAttemptKeeps(g1, cfg, c); } else { ExitKeeps(g1, cfg, c); }
  }

  lemma CancelledKeeps(g: Gw, cfg: Config)
    requires Inv(g, cfg)
    ensures Inv(g.(cancelled := true), cfg)
  {
    hide PortsPartition, RegisteredInv, SrvInv, LockInv, WaitInv, AdminInv, GrantInv, QueueInv, RegInv;
  }

  lemma AbortKeeps(g: Gw, cfg: Config, h: Handle)
    requires Inv(g, cfg) && h in g.inst
    ensures Inv(SetSrv(g, h, AbortUnload(g.inst[h].srv)), cfg)
  {
    hide Inv;
    InstFacts(g, cfg, h);
    SetSrvKeeps(g, cfg, h, AbortUnload(g.inst[h].srv));
  }

  lemma CancelKeeps(g: Gw, cfg: Config, c: TaskId)
    requires Inv(g, cfg) && CanCancel(g, c)
    ensures Inv(DoCancel(g, c), cfg)
  {
    CallerFacts(g, cfg, c);
    CancelledKeeps(g, cfg);
    var g1 := g.(cancelled := true);
    hide Inv;
    match g.callers[c].pc
    case Evicting(v, _, _) =>
      ResumedKeeps(g1, cfg, c);
      AbortKeeps(Resumed(g1, c), cfg, v);
      ExitKeeps(SetSrv(Resumed(g1, c), v, AbortUnload(g.inst[v].srv)), cfg, c);
    case TimingOut(h) =>
      AbortKeeps(g1, cfg, h);
      ExitKeeps(SetSrv(g1, h, AbortUnload(g.inst[h].srv)), cfg, c);
    case _ => ExitKeeps(g1, cfg, c);
  }

  lemma TakeLockKeeps(g: Gw, cfg: Config, c: TaskId)
    requires Inv(g, cfg) && At(g, c, WantLock) && g.callers[c].model !in g.locks
    ensures Inv(DoTakeLock(g, c), cfg)
  {
    hide PortsPartition, RegisteredInv, SrvInv, AdminInv, GrantInv, QueueInv, LockInv, WaitInv, RegInv, AttendedInv;
    var k := g.callers[c].(pc := Entering);
    MovePcQueue(g.pool.waiters, g.callers, g.cond, cfg.maxWaiters, c, k);
    TakenLock(g.callers, g.admins, g.locks, g.pool.managers, g.inst, g.granted, g.reg, g.regChanged, c, k);
    TakenAttended(g.cancelled, g.pool.managers, g.inst, g.locks, g.callers, c, k);
  }

  lemma TakenLock(callers: Callers, admins: Admins, locks: Locks, managers: Managers, inst: Insts,
                  granted: set<Handle>, reg: map<ModelId, Entry>, regChanged: bool, c: TaskId, k: Caller)
    requires LockInv(callers, admins, locks) && WaitInv(callers, managers, inst, granted) && RegInv(reg, regChanged, callers)
    requires c in callers && callers[c].model !in locks && k == callers[c].(pc := Entering)
    ensures LockInv(callers[c := k], admins, locks[k.model := c]) && WaitInv(callers[c := k], managers, inst, granted)
    ensures RegInv(reg, regChanged, callers[c := k])
  {
  }

  lemma TakenAttended(cancelled: bool, managers: Managers, inst: Insts, locks: Locks, callers: Callers, c: TaskId, k: Caller)
    requires AttendedInv(cancelled, managers, inst, locks, callers) && c in callers && callers[c].pc == WantLock && k.model !in locks
    ensures AttendedInv(cancelled, managers, inst, locks[k.model := c], callers[c := k])
  {
    hide StateIn;
  }

  lemma ArriveKeeps(g: Gw, cfg: Config, c: TaskId, m: ModelId)
    requires Inv(g, cfg) && c !in g.callers && c !in g.admins
    ensures Inv(DoArrive(g, c, m), cfg)
  {
    hide PortsPartition, RegisteredInv, SrvInv, LockInv, WaitInv, AdminInv, GrantInv, QueueInv, RegInv, AttendedInv;
    if Admitted(g, m) {
      var k := Caller(m, 0, g.reg[m].vram, WantLock);
      NewcomerQueue(g.pool.waiters, g.callers, g.cond, cfg.maxWaiters, c, k);
      NewcomerRest(g.callers, g.admins, g.locks, g.pool.managers, g.inst, g.granted, g.reg, g.regChanged, c, k);
      NewcomerAttended(g.cancelled, g.pool.managers, g.inst, g.locks, g.callers, c, k);
    }
  }

  lemma NewcomerQueue(q: seq<TaskId>, callers: Callers, cond: Option<TaskId>, maxWaiters: nat, c: TaskId, k: Caller)
    requires QueueInv(q, callers, cond, maxWaiters) && c !in callers && k.pc == WantLock
    ensures QueueInv(q, callers[c := k], cond, maxWaiters)
  {
    assert forall d :: HoldsTicket(callers[c := k], d) <==> HoldsTicket(callers, d);
  }

  lemma NewcomerRest(callers: Callers, admins: Admins, locks: Locks, managers: Managers, inst: Insts,
                     granted: set<Handle>, reg: map<ModelId, Entry>, regChanged: bool, c: TaskId, k: Caller)
    requires LockInv(callers, admins, locks) && WaitInv(callers, managers, inst, granted) && RegInv(reg, regChanged, callers)
    requires c !in callers && c !in admins && k.pc == WantLock && k.model in reg && k.need == reg[k.model].vram
    ensures LockInv(callers[c := k], admins, locks) && WaitInv(callers[c := k], managers, inst, granted)
    ensures RegInv(reg, regChanged, callers[c := k])
  {
  }

  lemma NewcomerAttended(cancelled: bool, managers: Managers, inst: Insts, locks: Locks, callers: Callers, c: TaskId, k: Caller)
    requires AttendedInv(cancelled, managers, inst, locks, callers) && c !in callers
    ensures AttendedInv(cancelled, managers, inst, locks, callers[c := k])
  {
    hide StateIn;
  }

  // ---------------------------------------------------------------- the steps of an operator

  lemma AdminExitKeeps(g: Gw, cfg: Config, a: TaskId)
    requires Inv(g, cfg) && a in g.admins
    ensures Inv(AdminExit(g, a), cfg)
  {
    hide RegisteredInv, SrvInv, WaitInv, GrantInv, QueueInv, RegInv;
  }

  lemma AdminTakeLockKeeps(g: Gw, cfg: Config, a: TaskId)
    requires Inv(g, cfg) && a in g.admins && g.admins[a].pc == AWantLock && g.admins[a].model !in g.locks
    ensures Inv(DoAdminTakeLock(g, a), cfg)
  {
    if g.admins[a].model !in g.pool.managers {
      AdminExitKeeps(g, cfg, a);
    } else {
      AdminDrainKeeps(g, cfg, a);
    }
  }

  lemma AdminDrainKeeps(g: Gw, cfg: Config, a: TaskId)
    requires Inv(g, cfg) && a in g.admins && g.admins[a].pc == AWantLock && g.admins[a].model !in g.locks
    ensures var m := g.admins[a].model;
            Inv(AdminSetPc(g.(locks := g.locks[m := a], pool := g.pool.(draining := g.pool.draining + {m})), a, Draining), cfg)
  {
    hide PortsPartition, RegisteredInv, SrvInv, LockInv, WaitInv, AdminInv, GrantInv, QueueInv, RegInv, AttendedInv;
    DrainLocks(g, a);
    DrainingPool(g.pool, g.pool.draining + {g.admins[a].model}, cfg.range);
  }

  lemma DrainingPool(p: Pool, draining: set<ModelId>, range: set<nat>)
    requires PortsPartition(p, range)
    ensures PortsPartition(p.(draining := draining), range)
  {
  }

  lemma DrainLocks(g: Gw, a: TaskId)
    requires LockInv(g.callers, g.admins, g.locks) && AdminInv(g.admins, g.pool.managers, g.inst)
    requires AttendedInv(g.cancelled, g.pool.managers, g.inst, g.locks, g.callers)
    requires a in g.admins && g.admins[a].pc == AWantLock && g.admins[a].model !in g.locks
    ensures var locks, admins := g.locks[g.admins[a].model := a], g.admins[a := g.admins[a].(pc := Draining)];
            && LockInv(g.callers, admins, locks) && AdminInv(admins, g.pool.managers, g.inst)
            && AttendedInv(g.cancelled, g.pool.managers, g.inst, locks, g.callers)
  {
  }

  lemma AdminMoveKeeps(g: Gw, cfg: Config, a: TaskId, h: Handle)
    requires Inv(g, cfg) && a in g.admins && g.admins[a].pc == Draining && InState(g, h, L.Unloading)
    requires g.admins[a].model in g.pool.managers && g.pool.managers[g.admins[a].model] == h && g.inst[h].model == g.admins[a].model
    ensures Inv(AdminSetPc(g, a, Unloading(h)), cfg)
  {
    hide PortsPartition, RegisteredInv, SrvInv, WaitInv, GrantInv, QueueInv, RegInv, AttendedInv;
  }

  lemma BeginUnloadKeeps(g: Gw, cfg: Config, h: Handle)
    requires Inv(g, cfg) && h in g.inst
    ensures Inv(SetSrv(g, h, L.BeginUnload(g.inst[h].srv)), cfg)
  {
    hide Inv;
    InstFacts(g, cfg, h);
    SetSrvKeeps(g, cfg, h, L.BeginUnload(g.inst[h].srv));
  }

  lemma AdminDecideKeeps(g: Gw, cfg: Config, a: TaskId)
    requires Inv(g, cfg) && a in g.admins && g.admins[a].pc == Draining && Registered(g)
    ensures Inv(DoAdminDecide(g, a), cfg)
  {
    hide Inv;
    var m := g.admins[a].model;
    if m in g.pool.managers {
      var h := g.pool.managers[m];
      ManagerFacts(g, cfg, m);
      if InState(g, h, L.Ready) || InState(g, h, L.Loading) {
        BeginUnloadKeeps(g, cfg, h);
        AdminMoveKeeps(SetSrv(g, h, L.BeginUnload(g.inst[h].srv)), cfg, a, h);
      }
    }
    AdminExitKeeps(g, cfg, a);
  }

  lemma AdminCancelKeeps(g: Gw, cfg: Config, a: TaskId)
    requires Inv(g, cfg) && CanAdminCancel(g, a)
    ensures Inv(DoAdminCancel(g, a), cfg)
  {
    hide Inv;
    CancelledKeeps(g, cfg);
    var g1 := g.(cancelled := true);
    match g.admins[a].pc
    case Unloading(h) =>
      AbortKeeps(g1, cfg, h);
      AdminExitKeeps(SetSrv(g1, h, AbortUnload(g.inst[h].srv)), cfg, a);
    case _ => AdminExitKeeps(g1, cfg, a);
  }

  lemma AdminArriveKeeps(g: Gw, cfg: Config, a: TaskId, m: ModelId, force: bool)
    requires Inv(g, cfg) && a !in g.callers && a !in g.admins
    ensures Inv(g.(admins := g.admins[a := Admin(m, force, AWantLock)]), cfg)
  {
    hide PortsPartition, RegisteredInv, SrvInv, WaitInv, GrantInv, QueueInv, RegInv, AttendedInv;
  }

  // ---------------------------------------------------------------- instances and environment

  lemma ServerEventCalm(s: L.Server, e: L.Event)
    requires L.Inv(s) && L.Enabled(s, e) && ServerEvent(e)
    ensures L.Inv(L.Apply(s, e)) && L.Apply(s, e).active == s.active && |s.events| <= |L.Apply(s, e).events|
    ensures !e.UnloadKilled? && !e.CrashSeen? ==> Calm(s, L.Apply(s, e))
  {
    L.StepKeepsInv(s, e);
  }

  lemma ServerKeeps(g: Gw, cfg: Config, h: Handle, e: L.Event)
    requires Inv(g, cfg) && h in g.inst && ServerEvent(e) && L.Enabled(g.inst[h].srv, e)
    ensures Inv(DoServer(g, h, e), cfg)
  {
    hide Inv;
    InstFacts(g, cfg, h);
    ServerEventCalm(g.inst[h].srv, e);
    var s := L.Apply(g.inst[h].srv, e);
    hide L.Inv, L.Apply;
    if e.UnloadKilled? || e.CrashSeen? {
      CallbackKeeps(g, cfg, h, s);
    } else {
      SetSrvKeeps(g, cfg, h, s);
    }
  }

  lemma PinKeeps(g: Gw, cfg: Config, h: Handle)
    requires Inv(g, cfg) && h in g.inst && h in g.granted
    ensures Inv(SetSrv(g, h, L.Apply(g.inst[h].srv, L.Pin)), cfg)
  {
    hide Inv;
    InstFacts(g, cfg, h);
    SetSrvKeeps(g, cfg, h, L.Apply(g.inst[h].srv, L.Pin));
  }

  lemma UnpinKeeps(g: Gw, cfg: Config, h: Handle)
    requires Inv(g, cfg) && h in g.inst
    ensures Inv(SetSrv(g, h, L.Apply(g.inst[h].srv, L.Unpin(g.now))), cfg)
  {
    hide Inv;
    InstFacts(g, cfg, h);
    SetSrvKeeps(g, cfg, h, L.Apply(g.inst[h].srv, L.Unpin(g.now)));
  }

  lemma BlockedKeeps(g: Gw, cfg: Config, blocked: set<ModelId>)
    requires Inv(g, cfg)
    ensures Inv(g.(pool := g.pool.(blocked := blocked)), cfg)
  {
    hide RegisteredInv, SrvInv, LockInv, WaitInv, AdminInv, GrantInv, QueueInv, RegInv, AttendedInv;
  }

  lemma RegistryKeeps(g: Gw, cfg: Config, reg: map<ModelId, Entry>)
    requires Inv(g, cfg) && (forall m :: m in reg ==> reg[m].vram > 0.0)
    ensures Inv(g.(reg := reg, regChanged := true), cfg)
  {
    hide PortsPartition, RegisteredInv, SrvInv, LockInv, WaitInv, AdminInv, GrantInv, QueueInv, AttendedInv;
  }

  lemma MeasureKeeps(g: Gw, cfg: Config, free: Option<real>)
    requires Inv(g, cfg)
    ensures Inv(g.(measured := free), cfg) && Inv(g.(now := g.now + 1), cfg)
  {
    hide PortsPartition, RegisteredInv, SrvInv, LockInv, WaitInv, AdminInv, GrantInv, QueueInv, RegInv, AttendedInv;
  }
}
