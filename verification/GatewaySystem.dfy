/** The gateway pool as a step system: callers of ensure_model_loaded, operators calling
  unload_model, load tasks, watchdogs and requests interleave over one LocalModelManager and
  all the ServerManager instances it ever created.  A step is the code between two
  suspensions; the condition is held across a suspension only while a victim is unloaded. */
module GatewaySystem {
  import opened Sums
  import opened GatewayPool
  import L = ServerLifecycle

  datatype Inst = Inst(model: ModelId, port: nat, srv: L.Server)

  datatype Entry = Entry(vram: real, enabled: bool)

  datatype Config = Config(budget: real, range: set<nat>, maxWaiters: nat, queueEnabled: bool)

  /** Where a caller of ensure_model_loaded is suspended. */
  datatype Pc =
    | WantLock                                              // the model lock
    | Entering                                              // holds the lock, at the top of an attempt
    | WantCond                                              // admitted; waits for the condition to be free
    | WaitUnload                                            // condition.wait() for an UNLOADING manager
    | Queued(extraDone: bool)                               // condition.wait() with a ticket
    | Evicting(victim: Handle, ticketed: bool, extra: bool) // inside victim.unload(), holding the condition
    | Waiting(h: Handle, round: nat)                        // inside h.ensure_loaded(), on its event
    | TimingOut(h: Handle)                                  // inside h.unload() after a load timeout
    | Forgetting(h: Handle, retry: bool)                    // needs the condition to forget h

  /** need is the size captured by the current attempt; attempt 1 is the retry after a CUDA refusal. */
  datatype Caller = Caller(model: ModelId, attempt: nat, need: real, pc: Pc)

  datatype AdminPc = AWantLock | Draining | Unloading(h: Handle)
  datatype Admin = Admin(model: ModelId, force: bool, pc: AdminPc)

  datatype Gw = Gw(
    pool: Pool, inst: map<Handle, Inst>, reg: map<ModelId, Entry>, measured: Option<real>, now: nat,
    cond: Option<TaskId>, locks: map<ModelId, TaskId>, callers: map<TaskId, Caller>, admins: map<TaskId, Admin>,
    granted: set<Handle>,      // instances some caller was given
    cancelled: bool,           // some coroutine was cancelled
    regChanged: bool)          // the registry was edited

  datatype Step =
    | Arrive(c: TaskId, m: ModelId)
    | TakeLock(c: TaskId)
    | Enter(c: TaskId, v: Handle, h: Handle, retry: bool, pin: bool)
    | EnterWait(c: TaskId)
    | GetCond(c: TaskId, v: Handle, h: Handle, retry: bool, pin: bool)
    | RecheckUnload(c: TaskId, v: Handle, h: Handle, retry: bool, pin: bool)
    | RecheckQueue(c: TaskId, v: Handle, h: Handle)
    | EvictionOver(c: TaskId, v: Handle, h: Handle)
    | GiveUp(c: TaskId)
    | Wake(c: TaskId, retry: bool, pin: bool)
    | LoadTimeout(c: TaskId, retry: bool)
    | TimeoutOver(c: TaskId, retry: bool)
    | Forget(c: TaskId)
    | Cancel(c: TaskId)
    | AdminArrive(a: TaskId, m: ModelId, force: bool)
    | AdminTakeLock(a: TaskId)
    | AdminDecide(a: TaskId)
    | AdminOver(a: TaskId)
    | AdminCancel(a: TaskId)
    | UnloadAll(h: Handle)                     // unload_all_models and shutdown: no lock, any pins
    | Server(h: Handle, e: L.Event)            // load task, kill and process events
    | IdleUnload(h: Handle)
    | PinMore(h: Handle)
    | Unpin(h: Handle)
    | SetBlocked(m: ModelId, on: bool)
    | SetRegistry(reg: map<ModelId, Entry>)
    | Measure(free: Option<real>)
    | Tick

  // ---------------------------------------------------------------- reading the state

  predicate Admitted(g: Gw, m: ModelId) {
    m !in g.pool.blocked && m !in g.pool.draining && m in g.reg && g.reg[m].enabled
  }

  predicate InState(g: Gw, h: Handle, s: L.RunState) { h in g.inst && g.inst[h].srv.state == s }

  /** What _used_vram_gb adds up. */
  function Loaded(managers: map<ModelId, Handle>, inst: map<Handle, Inst>, reg: map<ModelId, Entry>): map<ModelId, real> {
    map m | m in managers && m in reg && StateIn(inst, managers[m], L.Ready, L.Loading) :: reg[m].vram
  }

  predicate StateIn(inst: map<Handle, Inst>, h: Handle, s: L.RunState, t: L.RunState) {
    h in inst && (inst[h].srv.state == s || inst[h].srv.state == t)
  }

  ghost function Used(g: Gw): real { Total(Loaded(g.pool.managers, g.inst, g.reg)) }

  ghost predicate HasCapacity(g: Gw, cfg: Config, need: real) {
    && cfg.budget - Used(g) >= need
    && (g.measured.Some? ==> g.measured.value >= need)
    && g.pool.free != []
  }

  function Views(inst: map<Handle, Inst>): map<Handle, View> {
    map h | h in inst ::
      View(inst[h].model, inst[h].srv.state == L.Ready, inst[h].srv.active > 0, inst[h].srv.last)
  }

  ghost predicate HasVictim(g: Gw, m: ModelId) {
    exists n :: Evictable(g.pool, Views(g.inst), m, n)
  }

  /** v is the instance _evict_lru_idle would pick. */
  ghost predicate IsVictim(g: Gw, m: ModelId, v: Handle) {
    exists n :: n in g.pool.managers && g.pool.managers[n] == v && IsLru(g.pool, Views(g.inst), m, n)
  }

  /** _has_temporary_capacity_blocker */
  ghost predicate TempBlocker(g: Gw, m: ModelId) {
    exists n :: n in g.pool.managers && n != m && g.pool.managers[n] in g.inst &&
                (var s := g.inst[g.pool.managers[n]].srv; s.state == L.Loading || (s.state == L.Ready && s.active > 0))
  }

  predicate IsTurn(g: Gw, c: TaskId, ticketed: bool) {
    if ticketed then g.pool.waiters != [] && g.pool.waiters[0] == c else g.pool.waiters == []
  }

  // ---------------------------------------------------------------- effects

  function SetPc(g: Gw, c: TaskId, pc: Pc): Gw
    requires c in g.callers
  {
    g.(callers := g.callers[c := g.callers[c].(pc := pc)])
  }

  function SetSrv(g: Gw, h: Handle, s: L.Server): Gw
    requires h in g.inst
  {
    g.(inst := g.inst[h := g.inst[h].(srv := s)])
  }

  function Unlock(locks: map<ModelId, TaskId>, m: ModelId, t: TaskId): map<ModelId, TaskId> {
    if m in locks && locks[m] == t then locks - {m} else locks
  }

  /** Every way out of ensure_model_loaded: the ticket and the model lock go. */
  function Exit(g: Gw, c: TaskId): Gw
    requires c in g.callers
  {
    g.(callers := g.callers - {c}, locks := Unlock(g.locks, g.callers[c].model, c),
       pool := g.pool.(waiters := Without(g.pool.waiters, c)))
  }

  function HandOver(g: Gw, h: Handle, pin: bool): Gw
    requires h in g.inst
  {
    SetSrv(g.(granted := g.granted + {h}), h,
           g.inst[h].srv.(last := g.now, active := g.inst[h].srv.active + if pin then 1 else 0))
  }

  /** ensure_model_loaded returns h; a proxied request pins it in the same step. */
  function Grant(g: Gw, c: TaskId, h: Handle, pin: bool): Gw
    requires c in g.callers && h in g.inst
  {
    HandOver(Exit(g, c), h, pin)
  }

  function BeginEvict(g: Gw, c: TaskId, v: Handle, ticketed: bool, extra: bool): Gw
    requires c in g.callers && v in g.inst
  {
    SetPc(SetSrv(g, v, L.BeginUnload(g.inst[v].srv)), c, Evicting(v, ticketed, extra)).(cond := Some(c))
  }

  /** Lines 514-526: the ticket goes first. */
  function TicketGone(g: Gw, c: TaskId): Gw
    requires c in g.callers
  {
    SetPc(g, c, Entering).(pool := g.pool.(waiters := Without(g.pool.waiters, c)))
  }

  /** Lines 282-295: the first free port, a new instance, its entry in the pool, and its load. */
  function Launch(g: Gw, c: TaskId, h: Handle): Gw
    requires c in g.callers && g.pool.free != []
  {
    var m := g.callers[c].model;
    var i := Inst(m, g.pool.free[0], L.Apply(L.Fresh, L.EnsureLoaded(g.now)));
    SetPc(g.(inst := g.inst[h := i]), c, Waiting(h, 0)).(pool := Register(g.pool, m, h))
  }

  /** Capacity was granted; admission is tested once more (line 280). */
  function Reserve(g: Gw, c: TaskId, h: Handle): Gw
    requires c in g.callers && g.pool.free != []
  {
    if !Admitted(g, g.callers[c].model) then Exit(g, c) else Launch(TicketGone(g, c), c, h)
  }

  /** Lines 460-498 without the admission test: no capacity, so refuse, take a ticket, or keep waiting. */
  function Park(g: Gw, cfg: Config, c: TaskId, ticketed: bool, extra: bool): Gw
    requires c in g.callers
  {
    if !cfg.queueEnabled then Exit(g, c)
    else if !ticketed then
      if |g.pool.waiters| >= cfg.maxWaiters then Exit(g, c)
      else SetPc(g.(pool := g.pool.(waiters := g.pool.waiters + [c])), c, Queued(extra))
    else SetPc(g, c, Queued(extra))
  }

  /** Lines 447-498, at this caller's turn. */
  ghost function AtTurn(g: Gw, cfg: Config, c: TaskId, ticketed: bool, extra: bool, v: Handle, h: Handle): Gw
    requires c in g.callers
    requires ChoicesOk(g, c, v, h)
  {
    var caller := g.callers[c];
    if !HasCapacity(g, cfg, caller.need) && HasVictim(g, caller.model) then BeginEvict(g, c, v, ticketed, extra)
    else if extra && HasCapacity(g, cfg, caller.need) then Reserve(g, c, h)
    else Park(g, cfg, c, ticketed, extra)
  }

  /** The victim is the least recently used one when there is one; a new instance is new. */
  ghost predicate ChoicesOk(g: Gw, c: TaskId, v: Handle, h: Handle)
    requires c in g.callers
  {
    h !in g.inst && (HasVictim(g, g.callers[c].model) ==> v in g.inst && IsVictim(g, g.callers[c].model, v))
  }

  /** One iteration of the loop of _ensure_capacity, up to its next suspension. */
  ghost function Consider(g: Gw, cfg: Config, c: TaskId, ticketed: bool, extra: bool, v: Handle, h: Handle): Gw
    requires c in g.callers
    requires ChoicesOk(g, c, v, h)
  {
    var m := g.callers[c].model;
    if !Admitted(g, m) then Exit(g, c)
    else if !IsTurn(g, c, ticketed) then Park(g, cfg, c, ticketed, extra)
    else if !extra && HasVictim(g, m) then BeginEvict(g, c, v, ticketed, true)
    else AtTurn(g, cfg, c, ticketed, extra || !TempBlocker(g, m), v, h)
  }

  /** READY, but admission was closed meanwhile (line 296): the caller forgets the manager. */
  function RefuseReady(g: Gw, c: TaskId, h: Handle, retry: bool): Gw
    requires c in g.callers && h in g.inst
  {
    SetPc(SetSrv(g, h, g.inst[h].srv.(last := g.now)), c, Forgetting(h, retry))
  }

  function WaitFor(g: Gw, c: TaskId, h: Handle, round: nat): Gw
    requires c in g.callers && h in g.inst
  {
    SetPc(SetSrv(g, h, L.Apply(g.inst[h].srv, L.EnsureLoaded(g.now))), c, Waiting(h, round))
  }

  /** Lines 294-309 for a manager that is already registered. */
  function UseManager(g: Gw, c: TaskId, h: Handle, retry: bool, pin: bool): Gw
    requires c in g.callers && h in g.inst
  {
    match L.EnterOutcome(g.inst[h].srv)
    case Returns => if Admitted(g, g.callers[c].model) then Grant(g, c, h, pin) else RefuseReady(g, c, h, retry)
    case Waits(r) => WaitFor(g, c, h, r)
    case Raises => SetPc(g, c, Forgetting(h, retry))
  }

  /** Lines 271-295 under the condition. */
  ghost function UnderCondition(g: Gw, cfg: Config, c: TaskId, v: Handle, h: Handle, retry: bool, pin: bool): Gw
    requires c in g.callers
    requires ChoicesOk(g, c, v, h)
    requires Registered(g)
  {
    var caller := g.callers[c];
    if caller.model in g.pool.managers then
      var k := g.pool.managers[caller.model];
      if InState(g, k, L.Unloading) then (if cfg.queueEnabled then SetPc(g, c, WaitUnload) else Exit(g, c))
      else UseManager(g, c, k, retry, pin)
    else if caller.need > cfg.budget then Exit(g, c)
    else Consider(g, cfg, c, false, caller.attempt == 0, v, h)
  }

  /** The on_unload callback of instance h. */
  function Callback(g: Gw, h: Handle): Gw
    requires h in g.inst
  {
    g.(pool := Release(g.pool, g.inst[h].model, h).0)
  }

  function AdminExit(g: Gw, a: TaskId): Gw
    requires a in g.admins
  {
    g.(admins := g.admins - {a}, locks := Unlock(g.locks, g.admins[a].model, a),
       pool := if g.admins[a].pc == AWantLock then g.pool
               else g.pool.(draining := g.pool.draining - {g.admins[a].model}))
  }

  function AdminSetPc(g: Gw, a: TaskId, pc: AdminPc): Gw
    requires a in g.admins
  {
    g.(admins := g.admins[a := g.admins[a].(pc := pc)])
  }

  /** The load task, the kill inside unload() and the process itself. */
  predicate ServerEvent(e: L.Event) {
    e.TaskRuns? || e.Attested? || e.Spawned? || e.Healthy? || e.LoadFails? || e.FailKilled? || e.AbandonKilled?
    || e.CancelLands? || e.LoadAwaited? || e.UnloadKilled? || e.ProcessDies? || e.CrashSeen?
  }

  // ---------------------------------------------------------------- the steps of a caller

  /** The caller exists and is suspended at pc. */
  predicate At(g: Gw, c: TaskId, pc: Pc) { c in g.callers && g.callers[c].pc == pc }

  ghost predicate MayRetry(g: Gw, c: TaskId, retry: bool)
    requires c in g.callers
  {
    retry ==> g.callers[c].attempt == 0
  }

  ghost predicate Registered(g: Gw) {
    forall m :: m in g.pool.managers ==> g.pool.managers[m] in g.inst
  }

  predicate ReadyNow(g: Gw, m: ModelId) {
    m in g.pool.managers && InState(g, g.pool.managers[m], L.Ready)
  }

  /** The test before the lock (line 213) and the wait for the lock. */
  function DoArrive(g: Gw, c: TaskId, m: ModelId): Gw {
    if Admitted(g, m) then g.(callers := g.callers[c := Caller(m, 0, g.reg[m].vram, WantLock)]) else g
  }

  function DoTakeLock(g: Gw, c: TaskId): Gw
    requires At(g, c, WantLock)
  {
    SetPc(g.(locks := g.locks[g.callers[c].model := c]), c, Entering)
  }

  /** The top of the retry loop: the size of the model is read again. */
  function Begin(g: Gw, c: TaskId): Gw
    requires c in g.callers && g.callers[c].model in g.reg
  {
    g.(callers := g.callers[c := g.callers[c].(need := g.reg[g.callers[c].model].vram)])
  }

  ghost predicate CanEnter(g: Gw, c: TaskId, v: Handle, h: Handle, retry: bool) {
    && At(g, c, Entering) && ChoicesOk(g, c, v, h) && MayRetry(g, c, retry)
    && (g.cond == None || !Admitted(g, g.callers[c].model) || ReadyNow(g, g.callers[c].model))
  }

  ghost function DoEnter(g: Gw, cfg: Config, c: TaskId, v: Handle, h: Handle, retry: bool, pin: bool): Gw
    requires CanEnter(g, c, v, h, retry) && Registered(g)
  {
    var m := g.callers[c].model;
    if !Admitted(g, m) then Exit(g, c)
    else if ReadyNow(g, m) then Grant(g, c, g.pool.managers[m], pin)
    else UnderCondition(Begin(g, c), cfg, c, v, h, retry, pin)
  }

  /** The condition is held by an eviction, or others wait for it: the admission test is behind the caller. */
  predicate CanEnterWait(g: Gw, c: TaskId) {
    At(g, c, Entering) && Admitted(g, g.callers[c].model) && !ReadyNow(g, g.callers[c].model)
  }

  function DoEnterWait(g: Gw, c: TaskId): Gw
    requires CanEnterWait(g, c)
  {
    SetPc(Begin(g, c), c, WantCond)
  }

  /** Line 271 goes on; nothing tests the admission again before line 276. */
  ghost predicate CanGetCond(g: Gw, c: TaskId, v: Handle, h: Handle, retry: bool) {
    At(g, c, WantCond) && ChoicesOk(g, c, v, h) && MayRetry(g, c, retry) && g.cond == None
  }

  ghost predicate CanRecheckUnload(g: Gw, c: TaskId, v: Handle, h: Handle, retry: bool) {
    At(g, c, WaitUnload) && ChoicesOk(g, c, v, h) && MayRetry(g, c, retry) && g.cond == None
  }

  ghost function DoRecheckUnload(g: Gw, cfg: Config, c: TaskId, v: Handle, h: Handle, retry: bool, pin: bool): Gw
    requires CanRecheckUnload(g, c, v, h, retry) && Registered(g)
  {
    if !Admitted(g, g.callers[c].model) then Exit(g, c) else UnderCondition(g, cfg, c, v, h, retry, pin)
  }

  ghost predicate CanRecheckQueue(g: Gw, c: TaskId, v: Handle, h: Handle) {
    c in g.callers && g.callers[c].pc.Queued? && ChoicesOk(g, c, v, h) && g.cond == None
  }

  ghost predicate CanResumeEviction(g: Gw, c: TaskId, v: Handle, h: Handle) {
    && c in g.callers && g.callers[c].pc.Evicting? && InState(g, g.callers[c].pc.victim, L.Unloaded)
    && ChoicesOk(g, c, v, h)
  }

  /** The state in which the inner loop goes on after an eviction. */
  function Resumed(g: Gw, c: TaskId): Gw
    requires c in g.callers && g.callers[c].pc.Evicting?
  {
    var pc := g.callers[c].pc;
    SetPc(g, c, if pc.ticketed then Queued(pc.extra) else Entering).(cond := None)
  }

  ghost function DoResumeEviction(g: Gw, cfg: Config, c: TaskId, v: Handle, h: Handle): Gw
    requires CanResumeEviction(g, c, v, h)
  {
    var pc := g.callers[c].pc;
    AtTurn(Resumed(g, c), cfg, c, pc.ticketed, pc.extra, v, h)
  }

  predicate CanGiveUp(g: Gw, c: TaskId) {
    c in g.callers && (g.callers[c].pc.Queued? || g.callers[c].pc == WaitUnload) && g.cond == None
  }

  ghost predicate CanWake(g: Gw, c: TaskId, retry: bool) {
    && c in g.callers && g.callers[c].pc.Waiting? && g.callers[c].pc.h in g.inst && MayRetry(g, c, retry)
    && (var e := g.inst[g.callers[c].pc.h].srv.events; g.callers[c].pc.round < |e| && e[g.callers[c].pc.round])
  }

  function DoWake(g: Gw, c: TaskId, retry: bool, pin: bool): Gw
    requires c in g.callers && g.callers[c].pc.Waiting? && g.callers[c].pc.h in g.inst
  {
    var h := g.callers[c].pc.h;
    if L.WakeOutcome(g.inst[h].srv).Returns? then
      if Admitted(g, g.callers[c].model) then Grant(g, c, h, pin) else RefuseReady(g, c, h, retry)
    else SetPc(g, c, Forgetting(h, retry))
  }

  ghost predicate CanTimeOut(g: Gw, c: TaskId, retry: bool) {
    c in g.callers && g.callers[c].pc.Waiting? && g.callers[c].pc.h in g.inst && MayRetry(g, c, retry)
  }

  function DoTimeOut(g: Gw, c: TaskId, retry: bool): Gw
    requires c in g.callers && g.callers[c].pc.Waiting? && g.callers[c].pc.h in g.inst
  {
    var h := g.callers[c].pc.h;
    if InState(g, h, L.Loading) || InState(g, h, L.Ready) then
      SetPc(SetSrv(g, h, L.BeginUnload(g.inst[h].srv)), c, TimingOut(h))
    else SetPc(g, c, Forgetting(h, retry))
  }

  ghost predicate CanEndTimeout(g: Gw, c: TaskId, retry: bool) {
    && c in g.callers && g.callers[c].pc.TimingOut? && InState(g, g.callers[c].pc.h, L.Unloaded)
    && MayRetry(g, c, retry)
  }

  predicate CanForget(g: Gw, c: TaskId) {
    c in g.callers && g.callers[c].pc.Forgetting? && g.cond == None
  }

  function SecondAttempt(g: Gw, c: TaskId): Gw
    requires c in g.callers
  {
    g.(callers := g.callers[c := g.callers[c].(attempt := 1, pc := Entering)])
  }

  /** _forget_failed_manager, then the second attempt or the way out. */
  function DoForget(g: Gw, c: TaskId): Gw
    requires c in g.callers && g.callers[c].pc.Forgetting?
  {
    var caller := g.callers[c];
    var g1 := g.(pool := Release(g.pool, caller.model, caller.pc.h).0);
    if caller.pc.retry then SecondAttempt(g1, c) else Exit(g1, c)
  }

  /** A wait on the condition re-acquires it before the cancellation gets through, and unload()
      swallows a cancellation while it waits for the load task. */
  predicate CanCancel(g: Gw, c: TaskId) {
    && c in g.callers
    && (match g.callers[c].pc
        case Evicting(v, _, _) => v in g.inst && g.inst[v].srv.unload != L.AwaitLoad
        case TimingOut(h) => h in g.inst && g.inst[h].srv.unload != L.AwaitLoad
        case Queued(_) => g.cond == None
        case WaitUnload => g.cond == None
        case _ => true)
  }

  function AbortUnload(s: L.Server): L.Server {
    if L.Enabled(s, L.UnloadAborted) then L.Apply(s, L.UnloadAborted) else s
  }

  function DoCancel(g: Gw, c: TaskId): Gw
    requires CanCancel(g, c)
  {
    var g1 := g.(cancelled := true);
    match g.callers[c].pc
    case Evicting(v, _, _) => Exit(SetSrv(Resumed(g1, c), v, AbortUnload(g.inst[v].srv)), c)
    case TimingOut(h) => Exit(SetSrv(g1, h, AbortUnload(g.inst[h].srv)), c)
    case _ => Exit(g1, c)
  }

  // ---------------------------------------------------------------- the steps of an operator

  /** Nothing loaded: neither quarantine nor drain. */
  function DoAdminTakeLock(g: Gw, a: TaskId): Gw
    requires a in g.admins
  {
    var m := g.admins[a].model;
    if m !in g.pool.managers then AdminExit(g, a)
    else AdminSetPc(g.(locks := g.locks[m := a], pool := g.pool.(draining := g.pool.draining + {m})), a, Draining)
  }

  /** The end of the drain: ModelBusyError, or unload() of the current manager. */
  function DoAdminDecide(g: Gw, a: TaskId): Gw
    requires a in g.admins && Registered(g)
  {
    var m := g.admins[a].model;
    if m !in g.pool.managers then AdminExit(g, a)
    else
      var h := g.pool.managers[m];
      var s := g.inst[h].srv;
      if s.active > 0 && !g.admins[a].force then AdminExit(g, a)
      else if s.state == L.Ready || s.state == L.Loading then
        AdminSetPc(SetSrv(g, h, L.BeginUnload(s)), a, Unloading(h))
      else AdminExit(g, a)
  }

  predicate CanAdminCancel(g: Gw, a: TaskId) {
    a in g.admins && (g.admins[a].pc.Unloading? ==>
                        g.admins[a].pc.h in g.inst && g.inst[g.admins[a].pc.h].srv.unload != L.AwaitLoad)
  }

  function DoAdminCancel(g: Gw, a: TaskId): Gw
    requires CanAdminCancel(g, a)
  {
    var g1 := g.(cancelled := true);
    match g.admins[a].pc
    case Unloading(h) => AdminExit(SetSrv(g1, h, AbortUnload(g.inst[h].srv)), a)
    case _ => AdminExit(g1, a)
  }

  // ---------------------------------------------------------------- instances and environment

  /** The load task, the kill inside unload(), the crash watchdog and the process itself. */
  function DoServer(g: Gw, h: Handle, e: L.Event): Gw
    requires h in g.inst && L.Enabled(g.inst[h].srv, e)
  {
    var g1 := SetSrv(g, h, L.Apply(g.inst[h].srv, e));
    if e.UnloadKilled? || e.CrashSeen? then Callback(g1, h) else g1
  }

  ghost predicate Enabled(g: Gw, st: Step) {
    match st
    case Arrive(c, m) => c !in g.callers && c !in g.admins
    case TakeLock(c) => At(g, c, WantLock) && g.callers[c].model !in g.locks
    case Enter(c, v, h, retry, _) => CanEnter(g, c, v, h, retry)
    case EnterWait(c) => CanEnterWait(g, c)
    case GetCond(c, v, h, retry, _) => CanGetCond(g, c, v, h, retry)
    case RecheckUnload(c, v, h, retry, _) => CanRecheckUnload(g, c, v, h, retry)
    case RecheckQueue(c, v, h) => CanRecheckQueue(g, c, v, h)
    case EvictionOver(c, v, h) => CanResumeEviction(g, c, v, h)
    case GiveUp(c) => CanGiveUp(g, c)
    case Wake(c, retry, _) => CanWake(g, c, retry)
    case LoadTimeout(c, retry) => CanTimeOut(g, c, retry)
    case TimeoutOver(c, retry) => CanEndTimeout(g, c, retry)
    case Forget(c) => CanForget(g, c)
    case Cancel(c) => CanCancel(g, c)
    case AdminArrive(a, m, force) => a !in g.callers && a !in g.admins
    case AdminTakeLock(a) => a in g.admins && g.admins[a].pc == AWantLock && g.admins[a].model !in g.locks
    case AdminDecide(a) => a in g.admins && g.admins[a].pc == Draining
    case AdminOver(a) => a in g.admins && g.admins[a].pc.Unloading? && InState(g, g.admins[a].pc.h, L.Unloaded)
    case AdminCancel(a) => CanAdminCancel(g, a)
    case UnloadAll(h) => h in g.inst && h in g.pool.managers.Values
    case Server(h, e) => h in g.inst && ServerEvent(e) && L.Enabled(g.inst[h].srv, e)
    case IdleUnload(h) => InState(g, h, L.Ready) && g.inst[h].srv.active == 0
    case PinMore(h) => h in g.granted && h in g.inst
    case Unpin(h) => h in g.inst && g.inst[h].srv.active > 0
    case SetBlocked(m, on) => true
    case SetRegistry(reg) => forall m :: m in reg ==> reg[m].vram > 0.0
    case Measure(free) => true
    case Tick => true
  }

  ghost function Apply(g: Gw, cfg: Config, st: Step): Gw
    requires Enabled(g, st) && Registered(g)
  {
    match st
    case Arrive(c, m) => DoArrive(g, c, m)
    case TakeLock(c) => DoTakeLock(g, c)
    case Enter(c, v, h, retry, pin) => DoEnter(g, cfg, c, v, h, retry, pin)
    case EnterWait(c) => DoEnterWait(g, c)
    case GetCond(c, v, h, retry, pin) => UnderCondition(g, cfg, c, v, h, retry, pin)
    case RecheckUnload(c, v, h, retry, pin) => DoRecheckUnload(g, cfg, c, v, h, retry, pin)
    case RecheckQueue(c, v, h) => Consider(g, cfg, c, true, g.callers[c].pc.extraDone, v, h)
    case EvictionOver(c, v, h) => DoResumeEviction(g, cfg, c, v, h)
    case GiveUp(c) => Exit(g, c)
    case Wake(c, retry, pin) => DoWake(g, c, retry, pin)
    case LoadTimeout(c, retry) => DoTimeOut(g, c, retry)
    case TimeoutOver(c, retry) => SetPc(g, c, Forgetting(g.callers[c].pc.h, retry))
    case Forget(c) => DoForget(g, c)
    case Cancel(c) => DoCancel(g, c)
    case AdminArrive(a, m, force) => g.(admins := g.admins[a := Admin(m, force, AWantLock)])
    case AdminTakeLock(a) => DoAdminTakeLock(g, a)
    case AdminDecide(a) => DoAdminDecide(g, a)
    case AdminOver(a) => AdminExit(g, a)
    case AdminCancel(a) => DoAdminCancel(g, a)
    case UnloadAll(h) => SetSrv(g, h, L.BeginUnload(g.inst[h].srv))
    case Server(h, e) => DoServer(g, h, e)
    case IdleUnload(h) => SetSrv(g, h, L.BeginUnload(g.inst[h].srv))
    case PinMore(h) => SetSrv(g, h, L.Apply(g.inst[h].srv, L.Pin))
    case Unpin(h) => SetSrv(g, h, L.Apply(g.inst[h].srv, L.Unpin(g.now)))
    case SetBlocked(m, on) =>
      g.(pool := g.pool.(blocked := if on then g.pool.blocked + {m} else g.pool.blocked - {m}))
    case SetRegistry(reg) => g.(reg := reg, regChanged := true)
    case Measure(free) => g.(measured := free)
    case Tick => g.(now := g.now + 1)
  }
}
