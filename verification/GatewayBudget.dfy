/** The VRAM budget of the gateway pool: exactly when it holds. */
module GatewayBudget {
  import opened Sums
  import opened GatewayPool
  import opened GatewaySystem
  import opened GatewayProofs
  import opened GatewayTheorems
  import opened GatewayAdmission
  import opened GatewayPins
  import L = ServerLifecycle

  /** No coroutine is cancelled, and the registry stays as it is. */
  predicate Steady(st: Step) {
    !st.Cancel? && !st.AdminCancel? && !st.SetRegistry?
  }

  predicate Kept(g: Gw, g': Gw) {
    g'.cancelled == g.cancelled && g'.regChanged == g.regChanged && g'.reg == g.reg
  }

  /** ... and neither the gates nor the operators. */
  predicate Framed(g: Gw, g': Gw) {
    Kept(g, g') && g'.pool.blocked == g.pool.blocked && g'.admins == g.admins
  }

  /** The operators that stay are about the same models. */
  predicate ModelsKept(g: Gw, g': Gw) {
    forall a :: a in g.admins && a in g'.admins ==> g'.admins[a].model == g.admins[a].model
  }

  predicate Controlled(g: Gw, g': Gw) { Kept(g, g') && g'.pool.blocked == g.pool.blocked && ModelsKept(g, g') }

  lemma PiecesKept(g: Gw, cfg: Config, c: TaskId, v: Handle, ticketed: bool, extra: bool)
    requires c in g.callers
    ensures Framed(g, Exit(g, c)) && Framed(g, Park(g, cfg, c, ticketed, extra))
    ensures v in g.inst ==> Framed(g, BeginEvict(g, c, v, ticketed, extra))
  {
    hide L.BeginUnload, Without, Unlock;
  }

  lemma ReserveKept(g: Gw, c: TaskId, h: Handle)
    requires c in g.callers && g.pool.free != []
    ensures Framed(g, Reserve(g, c, h))
  {
    hide Admitted, Launch, TicketGone, Exit;
    PiecesKept(g, Config(0.0, {}, 0, false), c, 0, false, false);
    if Admitted(g, g.callers[c].model) {
      TicketGoneKept(g, c);
      LaunchKept(TicketGone(g, c), c, h);
    }
  }

  lemma TicketGoneKept(g: Gw, c: TaskId)
    requires c in g.callers
    ensures Framed(g, TicketGone(g, c)) && c in TicketGone(g, c).callers && TicketGone(g, c).pool.free == g.pool.free
  {
    hide Without;
  }

  lemma LaunchKept(g: Gw, c: TaskId, h: Handle)
    requires c in g.callers && g.pool.free != []
    ensures Framed(g, Launch(g, c, h))
  {
    hide L.Apply;
  }

  lemma AtTurnKept(g: Gw, cfg: Config, c: TaskId, ticketed: bool, extra: bool, v: Handle, h: Handle)
    requires c in g.callers && ChoicesOk(g, c, v, h)
    ensures Framed(g, AtTurn(g, cfg, c, ticketed, extra, v, h))
  {
    hide HasVictim, IsVictim, Used, Park, BeginEvict, Reserve, Framed;
    PiecesKept(g, cfg, c, v, ticketed, extra);
    if HasCapacity(g, cfg, g.callers[c].need) { ReserveKept(g, c, h); }
  }

  lemma ConsiderKept(g: Gw, cfg: Config, c: TaskId, ticketed: bool, extra: bool, v: Handle, h: Handle)
    requires c in g.callers && ChoicesOk(g, c, v, h)
    ensures Framed(g, Consider(g, cfg, c, ticketed, extra, v, h))
  {
    hide AtTurn, HasVictim, IsVictim, Admitted, TempBlocker, Exit, Park, BeginEvict, IsTurn, Framed;
    PiecesKept(g, cfg, c, v, ticketed, extra);
    PiecesKept(g, cfg, c, v, ticketed, true);
    AtTurnKept(g, cfg, c, ticketed, extra || !TempBlocker(g, g.callers[c].model), v, h);
  }

  lemma GrantKept(g: Gw, c: TaskId, h: Handle, retry: bool, pin: bool)
    requires c in g.callers && h in g.inst
    ensures Framed(g, Grant(g, c, h, pin)) && Framed(g, RefuseReady(g, c, h, retry))
  {
    hide Without, Unlock;
  }

  lemma UseManagerKept(g: Gw, c: TaskId, h: Handle, retry: bool, pin: bool)
    requires c in g.callers && h in g.inst
    ensures Framed(g, UseManager(g, c, h, retry, pin))
  {
    hide Admitted, L.Apply, L.EnterOutcome, Grant, RefuseReady;
    GrantKept(g, c, h, retry, pin);
  }

  lemma UnderConditionKept(g: Gw, cfg: Config, c: TaskId, v: Handle, h: Handle, retry: bool, pin: bool)
    requires c in g.callers && ChoicesOk(g, c, v, h) && Registered(g)
    ensures Framed(g, UnderCondition(g, cfg, c, v, h, retry, pin))
  {
    hide UseManager, Consider, ChoicesOk, Exit;
    PiecesKept(g, cfg, c, v, false, false);
    if g.callers[c].model in g.pool.managers {
      UseManagerKept(g, c, g.pool.managers[g.callers[c].model], retry, pin);
    } else {
      ConsiderKept(g, cfg, c, false, g.callers[c].attempt == 0, v, h);
    }
  }

  lemma EnterKept(g: Gw, cfg: Config, c: TaskId, v: Handle, h: Handle, retry: bool, pin: bool)
    requires CanEnter(g, c, v, h, retry) && Registered(g)
    ensures Framed(g, DoEnter(g, cfg, c, v, h, retry, pin))
  {
    BeginChoices0(g, c, v, h);
    hide UnderCondition, ChoicesOk, Exit, Grant;
    PiecesKept(g, cfg, c, v, false, false);
    var m := g.callers[c].model;
    if Admitted(g, m) {
      if ReadyNow(g, m) { GrantKept(g, c, g.pool.managers[m], retry, pin); }
      else { UnderConditionKept(Begin(g, c), cfg, c, v, h, retry, pin); }
    }
  }

  lemma GetCondKept(g: Gw, cfg: Config, c: TaskId, v: Handle, h: Handle, retry: bool, pin: bool)
    requires CanGetCond(g, c, v, h, retry) && Registered(g)
    ensures Framed(g, UnderCondition(g, cfg, c, v, h, retry, pin))
  {
    hide UnderCondition, ChoicesOk, Framed;
    UnderConditionKept(g, cfg, c, v, h, retry, pin);
  }

  lemma RecheckUnloadKept(g: Gw, cfg: Config, c: TaskId, v: Handle, h: Handle, retry: bool, pin: bool)
    requires CanRecheckUnload(g, c, v, h, retry) && Registered(g)
    ensures Framed(g, DoRecheckUnload(g, cfg, c, v, h, retry, pin))
  {
    hide UnderCondition, ChoicesOk, Exit, Framed;
    PiecesKept(g, cfg, c, v, false, false);
    UnderConditionKept(g, cfg, c, v, h, retry, pin);
  }

  lemma EvictionOverKept(g: Gw, cfg: Config, c: TaskId, v: Handle, h: Handle)
    requires CanResumeEviction(g, c, v, h)
    ensures Framed(g, DoResumeEviction(g, cfg, c, v, h))
  {
    var pc := g.callers[c].pc;
    assert ChoicesOk(Resumed(g, c), c, v, h);
    hide AtTurn, ChoicesOk;
    AtTurnKept(Resumed(g, c), cfg, c, pc.ticketed, pc.extra, v, h);
  }

  lemma ArriveKept(g: Gw, c: TaskId, m: ModelId)
    ensures Framed(g, DoArrive(g, c, m))
  {
  }

  lemma TakeLockKept(g: Gw, c: TaskId)
    requires At(g, c, WantLock)
    ensures Framed(g, DoTakeLock(g, c))
  {
  }

  lemma EnterWaitKept(g: Gw, c: TaskId)
    requires CanEnterWait(g, c)
    ensures Framed(g, DoEnterWait(g, c))
  {
  }

  lemma AdmissionKept(g: Gw, cfg: Config, st: Step)
    requires Enabled(g, st) && Registered(g) && AdmissionStep(st)
    ensures Framed(g, Apply(g, cfg, st))
  {
    hide DoEnter, CanEnter, CanGetCond, UnderCondition, DoRecheckUnload, CanRecheckUnload, DoResumeEviction, CanResumeEviction, Consider, Registered, ChoicesOk, Exit;
    hide DoArrive, DoTakeLock, DoEnterWait, CanEnterWait, Framed;
    match st
    case Arrive(c, m) => ArriveKept(g, c, m);
    case TakeLock(c) => TakeLockKept(g, c);
    case Enter(c, v, h, retry, pin) => EnterKept(g, cfg, c, v, h, retry, pin);
    case EnterWait(c) => EnterWaitKept(g, c);
    case GetCond(c, v, h, retry, pin) => GetCondKept(g, cfg, c, v, h, retry, pin);
    case RecheckUnload(c, v, h, retry, pin) => RecheckUnloadKept(g, cfg, c, v, h, retry, pin);
    case RecheckQueue(c, v, h) => ConsiderKept(g, cfg, c, true, g.callers[c].pc.extraDone, v, h);
    case EvictionOver(c, v, h) => EvictionOverKept(g, cfg, c, v, h);
    case GiveUp(c) => PiecesKept(g, cfg, c, 0, false, false);
  }

  lemma WakeKept(g: Gw, c: TaskId, retry: bool, pin: bool)
    requires CanWake(g, c, retry)
    ensures Framed(g, DoWake(g, c, retry, pin))
  {
    hide Admitted, Grant, MayRetry, RefuseReady;
    GrantKept(g, c, g.callers[c].pc.h, retry, pin);
  }

  lemma TimeOutKept(g: Gw, c: TaskId, retry: bool)
    requires CanTimeOut(g, c, retry)
    ensures Framed(g, DoTimeOut(g, c, retry))
  {
    hide L.BeginUnload, MayRetry;
  }

  lemma ForgetKept(g: Gw, c: TaskId)
    requires CanForget(g, c)
    ensures Framed(g, DoForget(g, c))
  {
    hide Release, SecondAttempt, Exit;
    var caller := g.callers[c];
    var g1 := g.(pool := Release(g.pool, caller.model, caller.pc.h).0);
    ReleaseKeepsGates(g.pool, caller.model, caller.pc.h);
    if caller.pc.retry { SecondAttemptKept(g1, c); } else { PiecesKept(g1, Config(0.0, {}, 0, false), c, 0, false, false); }
  }

  lemma ReleaseKeepsGates(p: Pool, m: ModelId, h: Handle)
    ensures Release(p, m, h).0.blocked == p.blocked
  {
  }

  lemma SecondAttemptKept(g: Gw, c: TaskId)
    requires c in g.callers
    ensures Framed(g, SecondAttempt(g, c))
  {
  }

  lemma AdminKept(g: Gw, a: TaskId)
    requires a in g.admins && Registered(g)
    ensures Controlled(g, AdminExit(g, a)) && Controlled(g, DoAdminTakeLock(g, a)) && Controlled(g, DoAdminDecide(g, a))
  {
    hide AdminExit, L.BeginUnload;
    AdminExitKept(g, a);
  }

  lemma AdminExitKept(g: Gw, a: TaskId)
    requires a in g.admins
    ensures Controlled(g, AdminExit(g, a))
  {
    hide Unlock;
  }

  lemma ServerKept(g: Gw, h: Handle, e: L.Event)
    requires h in g.inst && L.Enabled(g.inst[h].srv, e)
    ensures Framed(g, DoServer(g, h, e))
  {
    hide L.Apply, L.Enabled;
  }

  /** The steps of operators. */
  predicate ByOperator(st: Step) { st.AdminArrive? || st.AdminTakeLock? || st.AdminDecide? || st.AdminOver? }

  lemma OperatorKept(g: Gw, cfg: Config, st: Step)
    requires Enabled(g, st) && Registered(g) && ByOperator(st)
    ensures Controlled(g, Apply(g, cfg, st))
  {
    hide Registered, AdminExit, DoAdminTakeLock, DoAdminDecide, Controlled;
    match st
    case AdminArrive(a, m, force) => ArrivalKept(g, a, m, force);
    case AdminTakeLock(a) => AdminKept(g, a);
    case AdminDecide(a) => AdminKept(g, a);
    case AdminOver(a) => AdminKept(g, a);
  }

  lemma ArrivalKept(g: Gw, a: TaskId, m: ModelId, force: bool)
    requires a !in g.admins
    ensures Controlled(g, g.(admins := g.admins[a := Admin(m, force, AWantLock)]))
  {
  }

  lemma OtherKept(g: Gw, cfg: Config, st: Step)
    requires Enabled(g, st) && Registered(g) && !AdmissionStep(st) && Steady(st) && !ByOperator(st) && !st.SetBlocked?
    ensures Framed(g, Apply(g, cfg, st))
  {
    hide Registered, DoServer, DoWake, DoTimeOut, DoForget, CanWake, CanTimeOut, CanEndTimeout, L.BeginUnload, L.Apply, L.Enabled;
    match st
    case Wake(c, retry, pin) => WakeKept(g, c, retry, pin);
    case LoadTimeout(c, retry) => TimeOutKept(g, c, retry);
    case Forget(c) => ForgetKept(g, c);
    case Server(h, e) => ServerKept(g, h, e);
    case _ =>
  }

  lemma FramedIsControlled(g: Gw, g': Gw)
    requires Framed(g, g')
    ensures Controlled(g, g')
  {
  }

  lemma GateKept(g: Gw, cfg: Config, st: Step)
    requires Enabled(g, st) && Registered(g) && st.SetBlocked?
    ensures Kept(g, Apply(g, cfg, st))
  {
    hide Registered;
  }

  lemma SteadyKept(g: Gw, cfg: Config, st: Step)
    requires Enabled(g, st) && Registered(g) && Steady(st)
    ensures Kept(g, Apply(g, cfg, st)) && (!st.SetBlocked? ==> Controlled(g, Apply(g, cfg, st)))
  {
    hide Enabled, Apply, Registered, Framed, ModelsKept;
    if AdmissionStep(st) {
      AdmissionKept(g, cfg, st);
      FramedIsControlled(g, Apply(g, cfg, st));
    } else if ByOperator(st) {
      OperatorKept(g, cfg, st);
    } else if st.SetBlocked? {
      GateKept(g, cfg, st);
    } else {
      OtherKept(g, cfg, st);
      FramedIsControlled(g, Apply(g, cfg, st));
    }
  }

  /** A cancellation leaves the registry, the gates and the models of the operators as they are. */
  predicate Spared(g: Gw, g': Gw) {
    g'.reg == g.reg && g'.regChanged == g.regChanged && g'.pool.blocked == g.pool.blocked && ModelsKept(g, g')
  }

  lemma CancelSpares(g: Gw, cfg: Config, st: Step)
    requires Enabled(g, st) && Registered(g) && (st.Cancel? || st.AdminCancel?)
    ensures Spared(g, Apply(g, cfg, st))
  {
    hide Registered, DoCancel, CanCancel, DoAdminCancel, CanAdminCancel, Spared;
    if st.Cancel? { CallerCancelSpares(g, st.c); } else { OperatorCancelSpares(g, st.a); }
  }

  lemma CallerCancelSpares(g: Gw, c: TaskId)
    requires CanCancel(g, c)
    ensures Spared(g, DoCancel(g, c)) && DoCancel(g, c).admins == g.admins
  {
    hide AbortUnload, Exit, SetSrv, Resumed;
    var g1 := g.(cancelled := true);
    match g.callers[c].pc
    case Evicting(v, _, _) =>
      ResumedSpares(g1, c);
      SetSrvSpares(Resumed(g1, c), v, AbortUnload(g.inst[v].srv));
      ExitSpares(SetSrv(Resumed(g1, c), v, AbortUnload(g.inst[v].srv)), c);
    case TimingOut(h) =>
      SetSrvSpares(g1, h, AbortUnload(g.inst[h].srv));
      ExitSpares(SetSrv(g1, h, AbortUnload(g.inst[h].srv)), c);
    case _ => ExitSpares(g1, c);
  }

  lemma ExitSpares(g: Gw, c: TaskId)
    requires c in g.callers
    ensures Spared(g, Exit(g, c)) && Exit(g, c).admins == g.admins
  {
    hide Without, Unlock;
  }

  lemma SetSrvSpares(g: Gw, h: Handle, s: L.Server)
    requires h in g.inst
    ensures Spared(g, SetSrv(g, h, s)) && SetSrv(g, h, s).callers == g.callers && SetSrv(g, h, s).admins == g.admins
  {
  }

  lemma ResumedSpares(g: Gw, c: TaskId)
    requires c in g.callers && g.callers[c].pc.Evicting?
    ensures Spared(g, Resumed(g, c)) && Resumed(g, c).admins == g.admins
    ensures Resumed(g, c).inst == g.inst && c in Resumed(g, c).callers
  {
  }

  lemma OperatorCancelSpares(g: Gw, a: TaskId)
    requires CanAdminCancel(g, a)
    ensures Spared(g, DoAdminCancel(g, a))
  {
    hide AbortUnload, SetSrv, AdminExit;
    var g1 := g.(cancelled := true);
    match g.admins[a].pc
    case Unloading(h) =>
      SetSrvSpares(g1, h, AbortUnload(g.inst[h].srv));
      AdminExitKept(SetSrv(g1, h, AbortUnload(g.inst[h].srv)), a);
    case _ => AdminExitKept(g1, a);
  }

  /** Only the operator that takes a step may leave in it. */
  ghost predicate OperatorsStay(g: Gw, g': Gw, a: Option<TaskId>) {
    forall b :: b in g.admins && a != Some(b) ==> b in g'.admins
  }

  function OperatorOf(st: Step): Option<TaskId> {
    match st
    case AdminTakeLock(a) => Some(a)
    case AdminDecide(a) => Some(a)
    case AdminOver(a) => Some(a)
    case AdminCancel(a) => Some(a)
    case _ => None
  }

  lemma OwnStepLeaves(g: Gw, cfg: Config, st: Step)
    requires Enabled(g, st) && Registered(g) && OperatorOf(st).Some?
    ensures OperatorsStay(g, Apply(g, cfg, st), OperatorOf(st))
  {
    hide Registered, AdminExit, DoAdminTakeLock, DoAdminDecide, DoAdminCancel, CanAdminCancel;
    match st
    case AdminTakeLock(a) => DecisionLeaves(g, a);
    case AdminDecide(a) => DecisionLeaves(g, a);
    case AdminOver(a) => AdminExitLeaves(g, a);
    case AdminCancel(a) => AdminCancelLeaves(g, a);
  }

  lemma AdminExitLeaves(g: Gw, a: TaskId)
    requires a in g.admins
    ensures OperatorsStay(g, AdminExit(g, a), Some(a))
  {
    hide Unlock;
  }

  lemma DecisionLeaves(g: Gw, a: TaskId)
    requires a in g.admins && Registered(g)
    ensures OperatorsStay(g, DoAdminTakeLock(g, a), Some(a)) && OperatorsStay(g, DoAdminDecide(g, a), Some(a))
  {
    hide AdminExit, L.BeginUnload;
    AdminExitLeaves(g, a);
  }

  lemma AdminCancelLeaves(g: Gw, a: TaskId)
    requires CanAdminCancel(g, a)
    ensures OperatorsStay(g, DoAdminCancel(g, a), Some(a))
  {
    hide AdminExit, AbortUnload, SetSrv;
    var g1 := g.(cancelled := true);
    match g.admins[a].pc
    case Unloading(h) =>
      SetSrvSpares(g1, h, AbortUnload(g.inst[h].srv));
      AdminExitLeaves(SetSrv(g1, h, AbortUnload(g.inst[h].srv)), a);
    case _ => AdminExitLeaves(g1, a);
  }

  lemma OperatorsLeaveThemselves(g: Gw, cfg: Config, st: Step)
    requires Enabled(g, st) && Registered(g)
    ensures OperatorsStay(g, Apply(g, cfg, st), OperatorOf(st))
  {
    hide Enabled, Apply, Registered;
    if OperatorOf(st).Some? {
      OwnStepLeaves(g, cfg, st);
    } else if AdmissionStep(st) {
      AdmissionKept(g, cfg, st);
    } else if Steady(st) && !st.SetBlocked? && !ByOperator(st) {
      OtherKept(g, cfg, st);
    } else {
      RestLeaves(g, cfg, st);
    }
  }

  lemma RestLeaves(g: Gw, cfg: Config, st: Step)
    requires Enabled(g, st) && Registered(g) && (st.Cancel? || st.SetRegistry? || st.SetBlocked? || st.AdminArrive?)
    ensures OperatorsStay(g, Apply(g, cfg, st), None)
  {
    hide Registered, DoCancel, CanCancel;
    if st.Cancel? { CallerCancelSpares(g, st.c); }
  }

  /** The registry is only changed by an edit, a gate only by its own step; an operator keeps its model. */
  lemma ControlKept(g: Gw, cfg: Config, st: Step)
    requires Enabled(g, st) && Registered(g) && !st.SetRegistry?
    ensures var g' := Apply(g, cfg, st);
            && g'.reg == g.reg && g'.regChanged == g.regChanged
            && (!st.SetBlocked? ==> g'.pool.blocked == g.pool.blocked && ModelsKept(g, g'))
  {
    hide Enabled, Apply, Registered, ModelsKept;
    if Steady(st) { SteadyKept(g, cfg, st); } else { CancelSpares(g, cfg, st); }
  }

  // ---------------------------------------------------------------- what a step does to the sum

  lemma RestartedServer(s: L.Server, now: nat)
    requires s.state == L.Unloaded
    ensures L.EnterOutcome(s).Waits? && L.Apply(s, L.EnsureLoaded(now)).state == L.Loading
  {
  }

  /** What a restart does: one load more, and nothing else in the pool. */
  ghost predicate RestartOf(g: Gw, g': Gw, h: Handle) {
    && h in g.inst && g.inst[h].srv.state == L.Unloaded
    && g'.inst == g.inst[h := g.inst[h].(srv := L.Apply(g.inst[h].srv, L.EnsureLoaded(g.now)))]
    && g'.pool == g.pool
  }

  lemma WaitForRestarts(g: Gw, c: TaskId, h: Handle, r: nat)
    requires c in g.callers && InState(g, h, L.Unloaded)
    ensures RestartOf(g, WaitFor(g, c, h, r), h)
  {
    hide L.Apply;
  }

  /** Under the condition, an UNLOADED manager is restarted and waited for, whatever the capacity is. */
  lemma StaleIsWait(g: Gw, cfg: Config, c: TaskId, v: Handle, h: Handle, retry: bool, pin: bool)
    requires c in g.callers && ChoicesOk(g, c, v, h) && Registered(g) && Stale(g, g.callers[c].model).Some?
    ensures var k := Stale(g, g.callers[c].model).value;
            && L.EnterOutcome(g.inst[k].srv).Waits?
            && UnderCondition(g, cfg, c, v, h, retry, pin) == WaitFor(g, c, k, L.EnterOutcome(g.inst[k].srv).round)
  {
    hide ChoicesOk, L.Apply, WaitFor, Consider;
    RestartedServer(g.inst[g.pool.managers[g.callers[c].model]].srv, g.now);
  }

  lemma UnderConditionRestarts(g: Gw, cfg: Config, c: TaskId, v: Handle, h: Handle, retry: bool, pin: bool)
    requires c in g.callers && ChoicesOk(g, c, v, h) && Registered(g) && Stale(g, g.callers[c].model).Some?
    ensures RestartOf(g, UnderCondition(g, cfg, c, v, h, retry, pin), Stale(g, g.callers[c].model).value)
  {
    hide ChoicesOk, UnderCondition, WaitFor, RestartOf;
    StaleIsWait(g, cfg, c, v, h, retry, pin);
    var k := g.pool.managers[g.callers[c].model];
    WaitForRestarts(g, c, k, L.EnterOutcome(g.inst[k].srv).round);
  }

  lemma BeginRestarts(g: Gw, g': Gw, c: TaskId, h: Handle)
    requires c in g.callers && g.callers[c].model in g.reg && RestartOf(Begin(g, c), g', h)
    ensures RestartOf(g, g', h)
  {
    hide L.Apply;
  }

  lemma EnterRestarts(g: Gw, cfg: Config, c: TaskId, v: Handle, h: Handle, retry: bool, pin: bool)
    requires CanEnter(g, c, v, h, retry) && Registered(g) && Restarted(g, Enter(c, v, h, retry, pin)).Some?
    ensures RestartOf(g, DoEnter(g, cfg, c, v, h, retry, pin), Restarted(g, Enter(c, v, h, retry, pin)).value)
  {
    BeginChoices0(g, c, v, h);
    hide ChoicesOk, UnderCondition, RestartOf;
    UnderConditionRestarts(Begin(g, c), cfg, c, v, h, retry, pin);
    BeginRestarts(g, UnderCondition(Begin(g, c), cfg, c, v, h, retry, pin), c, g.pool.managers[g.callers[c].model]);
  }

  lemma RestartEffect(g: Gw, cfg: Config, st: Step)
    requires Enabled(g, st) && Registered(g) && Restarted(g, st).Some?
    ensures RestartOf(g, Apply(g, cfg, st), Restarted(g, st).value)
  {
    hide CanEnter, DoEnter, Registered, UnderCondition, Stale, RestartOf, ChoicesOk, Admitted;
    match st
    case Enter(c, v, h, retry, pin) => EnterRestarts(g, cfg, c, v, h, retry, pin);
    case GetCond(c, v, h, retry, pin) => UnderConditionRestarts(g, cfg, c, v, h, retry, pin);
    case RecheckUnload(c, v, h, retry, pin) => UnderConditionRestarts(g, cfg, c, v, h, retry, pin);
  }

  lemma RestartedIsManager(g: Gw, cfg: Config, st: Step)
    requires Inv(g, cfg) && Restarted(g, st).Some?
    ensures var h := Restarted(g, st).value;
            && InState(g, h, L.Unloaded) && g.inst[h].model in g.pool.managers && g.pool.managers[g.inst[h].model] == h
            && (forall n :: n in g.pool.managers && n != g.inst[h].model ==> g.pool.managers[n] != h)
  {
    hide PortsPartition, SrvInv, LockInv, WaitInv, AdminInv, GrantInv, QueueInv, RegInv, AttendedInv, Admitted;
  }

  /** A restart adds the size of the model to what is used. */
  lemma RestartAdds(g: Gw, cfg: Config, st: Step)
    requires Inv(g, cfg) && Enabled(g, st) && Registered(g) && Restarted(g, st).Some? && !st.SetRegistry?
    requires g.inst[Restarted(g, st).value].model in g.reg
    ensures Used(Apply(g, cfg, st)) == Used(g) + g.reg[g.inst[Restarted(g, st).value].model].vram
  {
    hide Inv, Apply, Enabled, Registered, Restarted, L.Apply;
    var h := Restarted(g, st).value;
    RestartedIsManager(g, cfg, st);
    RestartEffect(g, cfg, st);
    ControlKept(g, cfg, st);
    RestartedServer(g.inst[h].srv, g.now);
    hide Loaded;
    LoadsOneMore(g.pool.managers, g.inst, g.reg, g.inst[h].model, g.inst[h].(srv := L.Apply(g.inst[h].srv, L.EnsureLoaded(g.now))));
  }

  lemma LoadsOneMore(managers: Managers, inst: Insts, reg: map<ModelId, Entry>, m: ModelId, i: Inst)
    requires m in managers && m in reg && managers[m] in inst && inst[managers[m]].srv.state == L.Unloaded
    requires (forall n :: n in managers && n != m ==> managers[n] != managers[m]) && i.srv.state == L.Loading
    ensures Total(Loaded(managers, inst[managers[m] := i], reg)) == Total(Loaded(managers, inst, reg)) + reg[m].vram
  {
    var l := Loaded(managers, inst, reg);
    assert Loaded(managers, inst[managers[m] := i], reg) == l[m := reg[m].vram];
    TotalInsert(l, m, reg[m].vram);
  }

  /** A launch adds one manager; no other starts. */
  lemma LaunchAdds(managers: Managers, inst: Insts, inst': Insts, reg: map<ModelId, Entry>, m: ModelId, h: Handle)
    requires m !in managers && (forall n :: n in managers ==> managers[n] in inst && managers[n] != h)
    requires forall k :: k in inst && k != h ==> k in inst' && inst'[k] == inst[k]
    requires m in reg && reg[m].vram > 0.0
    ensures Total(Loaded(managers[m := h], inst', reg)) <= Total(Loaded(managers, inst, reg)) + reg[m].vram
  {
    var l, l' := Loaded(managers, inst, reg), Loaded(managers[m := h], inst', reg);
    if m in l' {
      assert l' == l[m := reg[m].vram];
      TotalInsert(l, m, reg[m].vram);
    } else {
      assert l' == l;
    }
  }

  /** Nothing starts: the sum does not grow. */
  lemma NothingAdds(managers: Managers, inst: Insts, managers': Managers, inst': Insts, reg: map<ModelId, Entry>)
    requires forall m :: m in managers' ==> m in managers && managers'[m] == managers[m] && managers[m] in inst
    requires NoneStarts(inst, inst') && (forall m :: m in reg ==> reg[m].vram > 0.0)
    ensures Total(Loaded(managers', inst', reg)) <= Total(Loaded(managers, inst, reg))
  {
    TotalMonotone(Loaded(managers', inst', reg), Loaded(managers, inst, reg));
  }

  lemma RegFacts(g: Gw, cfg: Config, c: TaskId)
    requires Inv(g, cfg) && !g.regChanged
    ensures forall m :: m in g.reg ==> g.reg[m].vram > 0.0
    ensures c in g.callers ==> g.callers[c].model in g.reg && g.callers[c].need == g.reg[g.callers[c].model].vram
  {
    hide PortsPartition, RegisteredInv, SrvInv, LockInv, WaitInv, AdminInv, GrantInv, QueueInv, AttendedInv;
  }

  /** The size that a launch tests is the declared one. */
  lemma LaunchFits(g: Gw, cfg: Config, st: Step, c: TaskId)
    requires Inv(g, cfg) && Enabled(g, st) && Registered(g) && Launches(g, Apply(g, cfg, st), c) && !g.regChanged && !st.SetRegistry?
    requires AdmissionStep(st) && Actor(st) == c
    ensures Used(Apply(g, cfg, st)) <= cfg.budget
  {
    var g' := Apply(g, cfg, st);
    hide Inv, Apply, Enabled, Registered, Admitted, AtTurnOf, Loaded;
    StepEffect(g, cfg, st);
    StepKeepsInv(g, cfg, st);
    ControlKept(g, cfg, st);
    RegFacts(g', cfg, c);
    LaunchedModel(g', cfg, c, g.callers[c].model);
    KnownManagers(g, cfg);
    LaunchAdds(g.pool.managers, g.inst, g'.inst, g.reg, g.callers[c].model, g'.callers[c].pc.h);
  }

  lemma KnownManagers(g: Gw, cfg: Config)
    requires Inv(g, cfg)
    ensures forall n :: n in g.pool.managers ==> g.pool.managers[n] in g.inst
  {
    hide PortsPartition, SrvInv, LockInv, WaitInv, AdminInv, GrantInv, QueueInv, RegInv, AttendedInv;
  }

  /** What a caller waits for is registered for its own model. */
  lemma LaunchedModel(g: Gw, cfg: Config, c: TaskId, m: ModelId)
    requires Inv(g, cfg) && c in g.callers && g.callers[c].pc.Waiting? && m in g.pool.managers && g.pool.managers[m] == g.callers[c].pc.h
    ensures g.callers[c].model == m
  {
    hide PortsPartition, SrvInv, LockInv, AdminInv, GrantInv, QueueInv, RegInv, AttendedInv;
  }

  lemma NoLaunchAdds(g: Gw, cfg: Config, st: Step)
    requires Inv(g, cfg) && Enabled(g, st) && Registered(g) && !g.regChanged && !st.SetRegistry? && Restarted(g, st).None?
    requires Quiet(g, Apply(g, cfg, st))
    ensures Used(Apply(g, cfg, st)) <= Used(g)
  {
    var g' := Apply(g, cfg, st);
    hide Inv, Apply, Enabled, Registered, Restarted, Loaded, NoneStarts;
    ControlKept(g, cfg, st);
    RegFacts(g, cfg, 0);
    KnownManagers(g, cfg);
    StartsNothing(g, cfg, st);
    NothingAdds(g.pool.managers, g.inst, g'.pool.managers, g'.inst, g.reg);
  }

  lemma StartsNothing(g: Gw, cfg: Config, st: Step)
    requires Inv(g, cfg) && Enabled(g, st) && Registered(g) && Restarted(g, st).None?
    ensures NoneStarts(g.inst, Apply(g, cfg, st).inst)
  {
    hide Inv, Apply, Enabled, Registered, Restarted, Starts;
    forall h | h in g.inst ensures h in Apply(g, cfg, st).inst && !Starts(g.inst[h].srv, Apply(g, cfg, st).inst[h].srv) {
      OnlyRestartsStart(g, cfg, st, h);
    }
  }

  // ---------------------------------------------------------------- exactly when the budget holds

  /** The size of the restarted model fits into what the others leave. */
  ghost predicate RestartFits(g: Gw, cfg: Config, st: Step) {
    Restarted(g, st).Some? && Restarted(g, st).value in g.inst ==>
      var m := g.inst[Restarted(g, st).value].model; m in g.reg ==> Used(g) + g.reg[m].vram <= cfg.budget
  }

  /** With a fixed registry, and whoever is cancelled, a step leaves the budget exactly if it restarts a
      manager whose size does not fit: every other step keeps it. */
  lemma BudgetLostByRestarts(g: Gw, cfg: Config, st: Step)
    requires Inv(g, cfg) && Enabled(g, st) && !g.regChanged && !st.SetRegistry? && Used(g) <= cfg.budget
    ensures Registered(g) && (Used(Apply(g, cfg, st)) <= cfg.budget <==> RestartFits(g, cfg, st))
  {
    hide Inv, Enabled, Apply, Registered, Restarted, Used, Quiet, Launches;
    IsRegistered(g, cfg);
    if Restarted(g, st).Some? {
      RestartedIsManager(g, cfg, st);
      RestartedIsKnown(g, cfg, st);
      RestartAdds(g, cfg, st);
    } else {
      StepEffect(g, cfg, st);
      hide LoopEffect, OthersStay;
      if AdmissionStep(st) && Launches(g, Apply(g, cfg, st), Actor(st)) { LaunchFits(g, cfg, st, Actor(st)); }
      else { NoLaunchAdds(g, cfg, st); }
    }
  }

  /** A model that is restarted has a caller, so the registry knows it. */
  lemma RestartedIsKnown(g: Gw, cfg: Config, st: Step)
    requires Inv(g, cfg) && Restarted(g, st).Some? && !g.regChanged
    ensures Restarted(g, st).value in g.inst && g.inst[Restarted(g, st).value].model in g.reg
  {
    hide PortsPartition, SrvInv, LockInv, WaitInv, AdminInv, GrantInv, QueueInv, AttendedInv, Admitted;
  }

  ghost predicate FixedRegistry(steps: seq<Step>, k: nat)
    requires k <= |steps|
  {
    forall i :: 0 <= i < k ==> !steps[i].SetRegistry?
  }

  lemma {:induction false} RegistryOverRun(trace: seq<Gw>, steps: seq<Step>, cfg: Config, k: nat)
    requires Run(trace, steps, cfg) && Init(trace[0], cfg) && k <= |steps| && FixedRegistry(steps, k)
    ensures !trace[k].regChanged && Inv(trace[k], cfg)
  {
    hide Enabled, Apply, Registered, Inv;
    InitHasInv(trace[0], cfg);
    RunKeepsInv(trace, steps, cfg, k);
    if k > 0 {
      RegistryOverRun(trace, steps, cfg, k - 1);
      assert trace[k - 1 + 1] == Apply(trace[k - 1], cfg, steps[k - 1]);
      ControlKept(trace[k - 1], cfg, steps[k - 1]);
    }
  }

  lemma NothingUsed(g: Gw, cfg: Config)
    requires Init(g, cfg)
    ensures Used(g) <= cfg.budget
  {
    assert Loaded(g.pool.managers, g.inst, g.reg) == map[];
  }

  /** Exactly when the sizes of the READY and LOADING managers stay within the net budget, in every run
      with a fixed registry, whoever is cancelled and whatever is measured: when every restart fits. */
  lemma {:induction false} BudgetIffRestartsFit(trace: seq<Gw>, steps: seq<Step>, cfg: Config, k: nat)
    requires Run(trace, steps, cfg) && Init(trace[0], cfg) && k <= |steps| && FixedRegistry(steps, k)
    ensures (forall i :: 0 <= i <= k ==> Used(trace[i]) <= cfg.budget) <==>
            (forall i :: 0 <= i < k ==> RestartFits(trace[i], cfg, steps[i]))
  {
    hide Enabled, Apply, Registered, Inv, Init, Used, RestartFits;
    if k == 0 {
      NothingUsed(trace[0], cfg);
    } else {
      BudgetIffRestartsFit(trace, steps, cfg, k - 1);
      RegistryOverRun(trace, steps, cfg, k - 1);
      assert trace[k - 1 + 1] == Apply(trace[k - 1], cfg, steps[k - 1]);
      if Used(trace[k - 1]) <= cfg.budget { BudgetLostByRestarts(trace[k - 1], cfg, steps[k - 1]); }
    }
  }

  /** Without cancelled coroutines no manager is left behind to be restarted. */
  lemma NoStaleManagers(g: Gw, cfg: Config, st: Step)
    requires Inv(g, cfg) && Enabled(g, st) && !g.cancelled
    ensures Restarted(g, st).None?
  {
    hide Inv, ChoicesOk, Admitted, MayRetry;
    if Restarted(g, st).Some? { WaitOnManagerFacts(g, cfg, st.c, Restarted(g, st).value); }
  }

  lemma {:induction false} SteadyRun(trace: seq<Gw>, steps: seq<Step>, cfg: Config, k: nat)
    requires Run(trace, steps, cfg) && Init(trace[0], cfg) && k <= |steps| && (forall i :: 0 <= i < k ==> Steady(steps[i]))
    ensures !trace[k].cancelled
  {
    hide Enabled, Apply, Registered, Steady;
    if k > 0 {
      SteadyRun(trace, steps, cfg, k - 1);
      assert trace[k - 1 + 1] == Apply(trace[k - 1], cfg, steps[k - 1]);
      SteadyKept(trace[k - 1], cfg, steps[k - 1]);
    }
  }

  /** In particular the budget holds in every run without cancelled callers and registry edits. */
  lemma BudgetHolds(trace: seq<Gw>, steps: seq<Step>, cfg: Config, k: nat)
    requires Run(trace, steps, cfg) && Init(trace[0], cfg) && k <= |steps|
    requires forall i :: 0 <= i < k ==> Steady(steps[i])
    ensures Used(trace[k]) <= cfg.budget
  {
    hide Enabled, Apply, Registered, Inv, Init, Used, Restarted;
    forall i | 0 <= i < k ensures RestartFits(trace[i], cfg, steps[i]) {
      SteadyRun(trace, steps, cfg, i);
      RegistryOverRun(trace, steps, cfg, i);
      NoStaleManagers(trace[i], cfg, steps[i]);
    }
    BudgetIffRestartsFit(trace, steps, cfg, k);
  }
}
