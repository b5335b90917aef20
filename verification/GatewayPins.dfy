/** A model that serves requests is taken out of READY only on purpose; and which instances start to load. */
module GatewayPins {
  import opened GatewayPool
  import opened GatewaySystem
  import opened GatewayProofs
  import opened GatewayTheorems
  import L = ServerLifecycle

  /** unload_all_models and shutdown, unload_model(force=True), and the watchdog finding a dead process. */
  predicate Forced(g: Gw, st: Step) {
    || st.UnloadAll?
    || (st.AdminDecide? && st.a in g.admins && g.admins[st.a].force)
    || (st.Server? && st.e.CrashSeen?)
  }

  predicate Accounted(s: L.Server) { s.state == L.Ready || s.state == L.Loading }

  /** A load starts, READY comes from nowhere, or UNLOADED is left. */
  predicate Starts(s: L.Server, t: L.Server) {
    || (Accounted(t) && !Accounted(s)) || (s.state == L.Ready && t.state == L.Loading)
    || (s.state == L.Unloaded && t.state != L.Unloaded)
  }

  /** s becomes t: a READY instance with requests stays READY and keeps them; a request is added
      only where that is allowed, and only to a READY instance; a load starts only if it is restarted. */
  predicate PinMove(s: L.Server, t: L.Server, allowed: bool, restarted: bool) {
    && (s.state == L.Ready && s.active > 0 ==> t.state == L.Ready && t.active >= s.active)
    && (t.active > s.active ==> allowed && s.state == L.Ready && t.state == L.Ready)
    && (Starts(s, t) ==> restarted)
  }

  /** Every instance moves like that, admission being what it is in g, and none but k is restarted. */
  ghost predicate PinsHoldBut(g: Gw, inst': map<Handle, Inst>, k: Option<Handle>) {
    forall h :: h in g.inst ==>
      h in inst' && PinMove(g.inst[h].srv, inst'[h].srv, Admitted(g, g.inst[h].model), k == Some(h))
  }

  ghost predicate PinsHold(g: Gw, inst': map<Handle, Inst>) { PinsHoldBut(g, inst', None) }

  /** The UNLOADED manager that is registered for m. */
  function Stale(g: Gw, m: ModelId): Option<Handle> {
    if m in g.pool.managers && InState(g, g.pool.managers[m], L.Unloaded) then Some(g.pool.managers[m]) else None
  }

  /** The instance that the step restarts without looking at the capacity, and, in GetCond, without
      looking at the admission. */
  function Restarted(g: Gw, st: Step): Option<Handle> {
    match st
    case Enter(c, _, _, _, _) =>
      if c in g.callers && Admitted(g, g.callers[c].model) then Stale(g, g.callers[c].model) else None
    case GetCond(c, _, _, _, _) => if c in g.callers then Stale(g, g.callers[c].model) else None
    case RecheckUnload(c, _, _, _, _) =>
      if c in g.callers && Admitted(g, g.callers[c].model) then Stale(g, g.callers[c].model) else None
    case _ => None
  }

  lemma SetSrvPins(g: Gw, h: Handle, s: L.Server)
    requires h in g.inst
    requires PinMove(g.inst[h].srv, s, Admitted(g, g.inst[h].model), false)
    ensures PinsHold(g, SetSrv(g, h, s).inst)
  {
  }

  lemma ExitPins(g: Gw, c: TaskId)
    requires c in g.callers
    ensures Exit(g, c).inst == g.inst
  {
  }

  lemma GrantPins(g: Gw, c: TaskId, h: Handle, pin: bool, retry: bool)
    requires c in g.callers && h in g.inst
    ensures InState(g, h, L.Ready) && Admitted(g, g.inst[h].model) ==> PinsHold(g, Grant(g, c, h, pin).inst)
    ensures PinsHold(g, RefuseReady(g, c, h, retry).inst)
    ensures PinsHoldBut(g, WaitFor(g, c, h, 0).inst, if InState(g, h, L.Unloaded) then Some(h) else None)
  {
    hide Grant, RefuseReady, WaitFor, PinsHoldBut, Admitted;
    if InState(g, h, L.Ready) && Admitted(g, g.inst[h].model) { GrantedPins(g, c, h, pin); }
    RefusedPins(g, c, h, retry);
    WaitPins(g, c, h);
  }

  lemma GrantedPins(g: Gw, c: TaskId, h: Handle, pin: bool)
    requires c in g.callers && InState(g, h, L.Ready) && Admitted(g, g.inst[h].model)
    ensures PinsHold(g, Grant(g, c, h, pin).inst)
  {
    hide Exit, Admitted;
    ExitPins(g, c);
    assert Exit(g, c).now == g.now by { ExitNow(g, c); }
  }

  lemma ExitNow(g: Gw, c: TaskId)
    requires c in g.callers
    ensures Exit(g, c).now == g.now
  {
  }

  lemma RefusedPins(g: Gw, c: TaskId, h: Handle, retry: bool)
    requires c in g.callers && h in g.inst
    ensures PinsHold(g, RefuseReady(g, c, h, retry).inst)
  {
    hide Admitted;
  }

  lemma WaitPins(g: Gw, c: TaskId, h: Handle)
    requires c in g.callers && h in g.inst
    ensures PinsHoldBut(g, WaitFor(g, c, h, 0).inst, if InState(g, h, L.Unloaded) then Some(h) else None)
  {
    hide Admitted;
  }

  lemma EvictPins(g: Gw, c: TaskId, v: Handle, ticketed: bool, extra: bool, m: ModelId)
    requires c in g.callers && v in g.inst && IsVictim(g, m, v)
    ensures PinsHold(g, BeginEvict(g, c, v, ticketed, extra).inst)
  {
    VictimFacts(g, m, v);
    hide IsVictim;
  }

  lemma ParkPins(g: Gw, cfg: Config, c: TaskId, ticketed: bool, extra: bool)
    requires c in g.callers
    ensures Park(g, cfg, c, ticketed, extra).inst == g.inst
  {
  }

  lemma ReservePins(g: Gw, c: TaskId, h: Handle)
    requires c in g.callers && g.pool.free != [] && h !in g.inst
    ensures PinsHold(g, Reserve(g, c, h).inst)
  {
    hide Admitted, Launch, TicketGone, Exit;
    if Admitted(g, g.callers[c].model) {
      TicketGonePins(g, c);
      LaunchPins(TicketGone(g, c), c, h);
    } else {
      ExitPins(g, c);
    }
  }

  lemma TicketGonePins(g: Gw, c: TaskId)
    requires c in g.callers
    ensures c in TicketGone(g, c).callers && TicketGone(g, c).inst == g.inst && TicketGone(g, c).pool.free == g.pool.free
  {
    hide Without;
  }

  lemma LaunchPins(g: Gw, c: TaskId, h: Handle)
    requires c in g.callers && g.pool.free != [] && h !in g.inst
    ensures forall k :: k in g.inst ==> k in Launch(g, c, h).inst && Launch(g, c, h).inst[k] == g.inst[k]
  {
    hide Register, L.Apply;
  }

  lemma AtTurnPins(g: Gw, cfg: Config, c: TaskId, ticketed: bool, extra: bool, v: Handle, h: Handle)
    requires c in g.callers && ChoicesOk(g, c, v, h)
    ensures PinsHold(g, AtTurn(g, cfg, c, ticketed, extra, v, h).inst)
  {
    hide HasVictim, IsVictim, Used, Park, BeginEvict, Reserve;
    ParkPins(g, cfg, c, ticketed, extra);
    if !HasCapacity(g, cfg, g.callers[c].need) && HasVictim(g, g.callers[c].model) {
      EvictPins(g, c, v, ticketed, extra, g.callers[c].model);
    } else if HasCapacity(g, cfg, g.callers[c].need) {
      ReservePins(g, c, h);
    }
  }

  lemma ConsiderPins(g: Gw, cfg: Config, c: TaskId, ticketed: bool, extra: bool, v: Handle, h: Handle)
    requires c in g.callers && ChoicesOk(g, c, v, h)
    ensures PinsHold(g, Consider(g, cfg, c, ticketed, extra, v, h).inst)
  {
    hide AtTurn, HasVictim, IsVictim, Admitted, TempBlocker, Exit, Park, BeginEvict, IsTurn;
    ExitPins(g, c);
    ParkPins(g, cfg, c, ticketed, extra);
    AtTurnPins(g, cfg, c, ticketed, extra || !TempBlocker(g, g.callers[c].model), v, h);
    if HasVictim(g, g.callers[c].model) { EvictPins(g, c, v, ticketed, true, g.callers[c].model); }
  }

  lemma UseManagerPins(g: Gw, c: TaskId, h: Handle, retry: bool, pin: bool)
    requires c in g.callers && h in g.inst && g.inst[h].model == g.callers[c].model
    ensures PinsHoldBut(g, UseManager(g, c, h, retry, pin).inst, if InState(g, h, L.Unloaded) then Some(h) else None)
  {
    hide Admitted, Grant, RefuseReady;
    GrantPins(g, c, h, pin, retry);
  }

  /** Every registered instance serves the model it is registered for. */
  ghost predicate RightModels(g: Gw) {
    forall m :: m in g.pool.managers ==> g.pool.managers[m] in g.inst && g.inst[g.pool.managers[m]].model == m
  }

  lemma UnderConditionPins(g: Gw, cfg: Config, c: TaskId, v: Handle, h: Handle, retry: bool, pin: bool)
    requires c in g.callers && ChoicesOk(g, c, v, h) && Registered(g) && RightModels(g)
    ensures PinsHoldBut(g, UnderCondition(g, cfg, c, v, h, retry, pin).inst, Stale(g, g.callers[c].model))
  {
    hide UseManager, Consider, ChoicesOk, Exit;
    ExitPins(g, c);
    if g.callers[c].model in g.pool.managers {
      UseManagerPins(g, c, g.pool.managers[g.callers[c].model], retry, pin);
    } else {
      ConsiderPins(g, cfg, c, false, g.callers[c].attempt == 0, v, h);
    }
  }

  lemma EnterPins(g: Gw, cfg: Config, c: TaskId, v: Handle, h: Handle, retry: bool, pin: bool)
    requires CanEnter(g, c, v, h, retry) && Registered(g) && RightModels(g)
    ensures PinsHoldBut(g, DoEnter(g, cfg, c, v, h, retry, pin).inst, Restarted(g, Enter(c, v, h, retry, pin)))
  {
    hide UnderCondition, ChoicesOk, Exit, Grant, Begin, PinMove, RightModels, Registered, MayRetry;
    BeginPins(g, c, v, h);
    ExitPins(g, c);
    var m := g.callers[c].model;
    if !Admitted(g, m) {
      NothingPins(g);
    } else if ReadyNow(g, m) {
      ReadyEnterPins(g, c, m, pin, retry);
    } else {
      hide PinsHoldBut;
      BeginUnderPins(g, cfg, c, v, h, retry, pin);
    }
  }

  lemma NothingPins(g: Gw)
    ensures PinsHold(g, g.inst)
  {
  }

  /** A READY manager is handed out, and none is stale. */
  lemma ReadyEnterPins(g: Gw, c: TaskId, m: ModelId, pin: bool, retry: bool)
    requires c in g.callers && g.callers[c].model == m && ReadyNow(g, m) && Admitted(g, m) && RightModels(g)
    ensures PinsHold(g, Grant(g, c, g.pool.managers[m], pin).inst) && Stale(g, m) == None
  {
    hide Grant, PinMove, PinsHoldBut, Admitted;
    GrantPins(g, c, g.pool.managers[m], pin, retry);
  }

  lemma BeginUnderPins(g: Gw, cfg: Config, c: TaskId, v: Handle, h: Handle, retry: bool, pin: bool)
    requires c in g.callers && g.callers[c].model in g.reg && ChoicesOk(g, c, v, h) && Registered(g) && RightModels(g)
    ensures c in Begin(g, c).callers && ChoicesOk(Begin(g, c), c, v, h) && Registered(Begin(g, c))
    ensures PinsHoldBut(g, UnderCondition(Begin(g, c), cfg, c, v, h, retry, pin).inst, Stale(g, g.callers[c].model))
  {
    hide ChoicesOk, UnderCondition, PinMove;
    BeginPins(g, c, v, h);
    UnderConditionPins(Begin(g, c), cfg, c, v, h, retry, pin);
  }

  lemma BeginPins(g: Gw, c: TaskId, v: Handle, h: Handle)
    requires c in g.callers && ChoicesOk(g, c, v, h)
    ensures g.callers[c].model in g.reg ==>
      && ChoicesOk(Begin(g, c), c, v, h) && Begin(g, c).inst == g.inst && Begin(g, c).pool == g.pool
      && c in Begin(g, c).callers
  {
  }

  lemma EvictionOverPins(g: Gw, cfg: Config, c: TaskId, v: Handle, h: Handle)
    requires CanResumeEviction(g, c, v, h)
    ensures PinsHold(g, DoResumeEviction(g, cfg, c, v, h).inst)
  {
    var pc := g.callers[c].pc;
    assert ChoicesOk(Resumed(g, c), c, v, h);
    hide AtTurn, ChoicesOk;
    AtTurnPins(Resumed(g, c), cfg, c, pc.ticketed, pc.extra, v, h);
  }

  /** A caller that waits for a load waits for an instance that nobody was given yet. */
  lemma WaiterUnpinned(g: Gw, cfg: Config, c: TaskId)
    requires Inv(g, cfg) && c in g.callers && g.callers[c].pc.Waiting?
    ensures g.callers[c].pc.h in g.inst && g.inst[g.callers[c].pc.h].srv.active == 0
  {
    CallerFacts(g, cfg, c);
    InstFacts(g, cfg, g.callers[c].pc.h);
    hide PortsPartition, RegisteredInv, LockInv, AdminInv, GrantInv, QueueInv, RegInv, AttendedInv;
  }

  lemma TimeOutPins(g: Gw, c: TaskId, retry: bool)
    requires CanTimeOut(g, c, retry) && g.inst[g.callers[c].pc.h].srv.active == 0
    ensures PinsHold(g, DoTimeOut(g, c, retry).inst)
  {
    hide MayRetry, Admitted, SetSrv;
    var h := g.callers[c].pc.h;
    SetSrvPins(g, h, L.BeginUnload(g.inst[h].srv));
  }

  lemma WakePins(g: Gw, c: TaskId, retry: bool, pin: bool)
    requires CanWake(g, c, retry) && g.inst[g.callers[c].pc.h].model == g.callers[c].model
    ensures PinsHold(g, DoWake(g, c, retry, pin).inst)
  {
    hide Admitted, Grant, MayRetry, RefuseReady;
    GrantPins(g, c, g.callers[c].pc.h, pin, retry);
  }

  lemma ForgetPins(g: Gw, c: TaskId)
    requires CanForget(g, c)
    ensures DoForget(g, c).inst == g.inst
  {
  }

  lemma AbortPins(s: L.Server, allowed: bool)
    requires L.Inv(s)
    ensures PinMove(s, AbortUnload(s), allowed, false)
  {
  }

  lemma CancelPins(g: Gw, c: TaskId)
    requires CanCancel(g, c) && (forall h :: h in g.inst ==> L.Inv(g.inst[h].srv))
    ensures PinsHold(g, DoCancel(g, c).inst)
  {
    var g1 := g.(cancelled := true);
    match g.callers[c].pc
    case Evicting(v, _, _) =>
      hide AbortUnload, L.Inv, Exit, Resumed, PinMove, PinsHoldBut, Admitted;
      AbortPins(g.inst[v].srv, Admitted(g, g.inst[v].model));
      ResumedInst(g1, c);
      ExitPins(SetSrv(Resumed(g1, c), v, AbortUnload(g.inst[v].srv)), c);
      SetSrvPins(g, v, AbortUnload(g.inst[v].srv));
    case TimingOut(h) =>
      hide AbortUnload, L.Inv, Exit, PinMove, PinsHoldBut, Admitted;
      AbortPins(g.inst[h].srv, Admitted(g, g.inst[h].model));
      ExitPins(SetSrv(g1, h, AbortUnload(g.inst[h].srv)), c);
      SetSrvPins(g, h, AbortUnload(g.inst[h].srv));
    case _ =>
      ExitPins(g1, c);
      NoMove(g, g1);
  }

  lemma ResumedInst(g: Gw, c: TaskId)
    requires c in g.callers && g.callers[c].pc.Evicting?
    ensures Resumed(g, c).inst == g.inst && c in Resumed(g, c).callers
  {
  }

  lemma AdminExitPins(g: Gw, a: TaskId)
    requires a in g.admins
    ensures AdminExit(g, a).inst == g.inst
  {
  }

  lemma AdminDecidePins(g: Gw, a: TaskId)
    requires a in g.admins && Registered(g) && !g.admins[a].force
    ensures PinsHold(g, DoAdminDecide(g, a).inst)
  {
    AdminExitPins(g, a);
    hide AdminExit;
  }

  lemma AdminCancelPins(g: Gw, a: TaskId)
    requires CanAdminCancel(g, a) && (forall h :: h in g.inst ==> L.Inv(g.inst[h].srv))
    ensures PinsHold(g, DoAdminCancel(g, a).inst)
  {
    var g1 := g.(cancelled := true);
    match g.admins[a].pc
    case Unloading(h) =>
      AbortPins(g.inst[h].srv, Admitted(g, g.inst[h].model));
      hide AbortUnload, L.Inv, AdminExit;
      AdminExitPins(SetSrv(g1, h, AbortUnload(g.inst[h].srv)), a);
    case _ => AdminExitPins(g1, a);
  }

  lemma ServerPins(g: Gw, h: Handle, e: L.Event)
    requires h in g.inst && ServerEvent(e) && L.Enabled(g.inst[h].srv, e) && L.Inv(g.inst[h].srv) && !e.CrashSeen?
    ensures PinsHold(g, DoServer(g, h, e).inst)
  {
    var s := L.Apply(g.inst[h].srv, e);
    assert s.active == g.inst[h].srv.active && (g.inst[h].srv.state == L.Ready ==> s.state == L.Ready);
    hide L.Apply, L.Enabled, L.Inv, Admitted;
    SetSrvPins(g, h, s);
  }

  lemma AdmissionPins(g: Gw, cfg: Config, st: Step)
    requires Inv(g, cfg) && Enabled(g, st) && Registered(g) && AdmissionStep(st)
    ensures PinsHoldBut(g, Apply(g, cfg, st).inst, Restarted(g, st))
  {
    hide Inv, RightModels, Admitted, PinMove, DoWake, DoTimeOut, DoForget, DoCancel, DoAdminTakeLock, DoAdminDecide,
      AdminExit, DoAdminCancel, DoServer, DoEnter, CanEnter, CanEnterWait, CanGetCond, UnderCondition, DoResumeEviction,
      CanResumeEviction, Consider, Registered, ChoicesOk, Stale;
    ModelsAreRight(g, cfg);
    match st
    case EnterWait(c) => NoMove(g, DoEnterWait(g, c));
    case GetCond(c, v, h, retry, pin) => GetCondPins(g, cfg, c, v, h, retry, pin);
    case Arrive(c, m) => NoMove(g, DoArrive(g, c, m));
    case TakeLock(c) => NoMove(g, DoTakeLock(g, c));
    case Enter(c, v, h, retry, pin) => EnterPins(g, cfg, c, v, h, retry, pin);
    case RecheckUnload(c, v, h, retry, pin) => RecheckUnloadPins(g, cfg, c, v, h, retry, pin);
    case RecheckQueue(c, v, h) => ConsiderPins(g, cfg, c, true, g.callers[c].pc.extraDone, v, h);
    case EvictionOver(c, v, h) => EvictionOverPins(g, cfg, c, v, h);
    case GiveUp(c) =>
      ExitPins(g, c);
      NoMove(g, Exit(g, c));
  }

  lemma ModelsAreRight(g: Gw, cfg: Config)
    requires Inv(g, cfg)
    ensures RightModels(g)
  {
    hide PortsPartition, SrvInv, LockInv, WaitInv, AdminInv, GrantInv, QueueInv, RegInv, AttendedInv;
  }

  lemma GetCondPins(g: Gw, cfg: Config, c: TaskId, v: Handle, h: Handle, retry: bool, pin: bool)
    requires CanGetCond(g, c, v, h, retry) && Registered(g) && RightModels(g)
    ensures PinsHoldBut(g, UnderCondition(g, cfg, c, v, h, retry, pin).inst, Restarted(g, GetCond(c, v, h, retry, pin)))
  {
    hide UnderCondition, ChoicesOk;
    UnderConditionPins(g, cfg, c, v, h, retry, pin);
  }

  lemma RecheckUnloadPins(g: Gw, cfg: Config, c: TaskId, v: Handle, h: Handle, retry: bool, pin: bool)
    requires CanRecheckUnload(g, c, v, h, retry) && Registered(g) && RightModels(g)
    ensures PinsHoldBut(g, DoRecheckUnload(g, cfg, c, v, h, retry, pin).inst, Restarted(g, RecheckUnload(c, v, h, retry, pin)))
  {
    hide UnderCondition, ChoicesOk, Exit;
    ExitPins(g, c);
    UnderConditionPins(g, cfg, c, v, h, retry, pin);
  }

  lemma InstancePins(g: Gw, cfg: Config, st: Step)
    requires Inv(g, cfg) && Enabled(g, st) && Registered(g) && InstanceStep(st)
    ensures PinsHold(g, Apply(g, cfg, st).inst)
  {
    hide Inv, L.Inv, Registered, DoWake, DoTimeOut, DoForget, DoCancel, CanCancel, PinMove, Admitted, MayRetry,
      PinsHold, DoArrive, DoTakeLock, DoEnter, DoRecheckUnload, Consider, DoResumeEviction, DoAdminTakeLock, DoAdminDecide,
      AdminExit, DoAdminCancel, DoServer, CanEnter, CanRecheckUnload, CanRecheckQueue, CanResumeEviction;
    ServersSane(g, cfg);
    if st.Wake? || st.LoadTimeout? {
      CallerFacts(g, cfg, st.c);
      if g.callers[st.c].pc.Waiting? { WaiterUnpinned(g, cfg, st.c); }
    }
    match st
    case Wake(c, retry, pin) => WakePins(g, c, retry, pin);
    case LoadTimeout(c, retry) => TimeOutPins(g, c, retry);
    case TimeoutOver(c, retry) => NoMove(g, SetPc(g, c, Forgetting(g.callers[c].pc.h, retry)));
    case Forget(c) =>
      ForgetPins(g, c);
      NoMove(g, DoForget(g, c));
    case Cancel(c) => CancelPins(g, c);
  }

  lemma NoMove(g: Gw, g': Gw)
    requires g'.inst == g.inst
    ensures PinsHold(g, g'.inst)
  {
  }

  lemma ServersSane(g: Gw, cfg: Config)
    requires Inv(g, cfg)
    ensures forall h :: h in g.inst ==> L.Inv(g.inst[h].srv)
  {
  }

  lemma OtherPins(g: Gw, cfg: Config, st: Step)
    requires Inv(g, cfg) && Enabled(g, st) && Registered(g) && !InstanceStep(st) && !AdmissionStep(st)
    requires !Forced(g, st) && !st.Unpin? && !st.PinMore?
    ensures PinsHold(g, Apply(g, cfg, st).inst)
  {
    hide Inv, L.Inv, Registered, DoAdminTakeLock, DoAdminDecide, AdminExit, DoAdminCancel, DoServer, CanAdminCancel;
    ServersSane(g, cfg);
    hide PinMove, PinsHold, Admitted, L.Enabled, DoArrive, DoTakeLock, DoEnter, DoRecheckUnload, Consider, DoResumeEviction,
      Exit, DoWake, DoTimeOut, SetPc, DoForget, DoCancel, CanEnter, CanRecheckUnload, CanRecheckQueue, CanResumeEviction,
      CanGiveUp, CanWake, CanTimeOut, CanEndTimeout, CanForget, CanCancel;
    match st
    case AdminTakeLock(a) =>
      AdminTakeLockPins(g, a);
      NoMove(g, DoAdminTakeLock(g, a));
    case AdminDecide(a) => AdminDecidePins(g, a);
    case AdminOver(a) =>
      AdminExitPins(g, a);
      NoMove(g, AdminExit(g, a));
    case AdminCancel(a) => AdminCancelPins(g, a);
    case Server(h, e) => ServerPins(g, h, e);
    case IdleUnload(h) => IdlePins(g, h);
    case AdminArrive(a, m, force) => NoMove(g, Apply(g, cfg, st));
    case SetBlocked(m, on) => NoMove(g, Apply(g, cfg, st));
    case SetRegistry(reg) => NoMove(g, Apply(g, cfg, st));
    case Measure(free) => NoMove(g, Apply(g, cfg, st));
    case Tick => NoMove(g, Apply(g, cfg, st));
  }

  lemma IdlePins(g: Gw, h: Handle)
    requires InState(g, h, L.Ready) && g.inst[h].srv.active == 0
    ensures PinsHold(g, SetSrv(g, h, L.BeginUnload(g.inst[h].srv)).inst)
  {
  }

  lemma AdminTakeLockPins(g: Gw, a: TaskId)
    requires a in g.admins
    ensures DoAdminTakeLock(g, a).inst == g.inst
  {
    AdminExitPins(g, a);
    hide AdminExit;
  }

  lemma PinsHoldStep(g: Gw, cfg: Config, st: Step)
    requires Inv(g, cfg) && Enabled(g, st) && Registered(g) && !Forced(g, st) && !st.Unpin? && !st.PinMore?
    ensures PinsHoldBut(g, Apply(g, cfg, st).inst, Restarted(g, st))
  {
    hide Inv, Apply, Enabled, Registered, PinsHoldBut, Forced, Stale;
    if AdmissionStep(st) { AdmissionPins(g, cfg, st); }
    else if InstanceStep(st) { InstancePins(g, cfg, st); }
    else { OtherPins(g, cfg, st); }
  }

  /** The end of a request, or one more request on an instance that was handed out before. */
  lemma PinStep(g: Gw, h: Handle, e: L.Event, k: Handle)
    requires h in g.inst && k in g.inst && (e.Pin? || (e.Unpin? && g.inst[h].srv.active > 0))
    ensures var t := SetSrv(g, h, L.Apply(g.inst[h].srv, e)).inst;
            && k in t && t[k].srv.state == g.inst[k].srv.state
            && t[k].srv.active == g.inst[k].srv.active + if k != h then 0 else if e.Unpin? then -1 else 1
  {
  }

  lemma ForcedStarts(g: Gw, cfg: Config, st: Step)
    requires Inv(g, cfg) && Enabled(g, st) && Registered(g) && (Forced(g, st) || st.Unpin? || st.PinMore?)
    ensures NoneStarts(g.inst, Apply(g, cfg, st).inst)
  {
    hide Inv, AdminExit, Registered, NoneStarts, L.Apply, L.BeginUnload, L.Enabled, Starts;
    match st
    case UnloadAll(h) =>
      ForcedServer(g.inst[h].srv, g.now);
      MoveStarts(g.inst, h, L.BeginUnload(g.inst[h].srv));
    case AdminDecide(a) => DecideStarts(g, a);
    case Server(h, e) =>
      CrashStarts(g.inst[h].srv);
      MoveStarts(g.inst, h, L.Apply(g.inst[h].srv, e));
    case Unpin(h) =>
      ForcedServer(g.inst[h].srv, g.now);
      MoveStarts(g.inst, h, L.Apply(g.inst[h].srv, L.Unpin(g.now)));
    case PinMore(h) =>
      ForcedServer(g.inst[h].srv, g.now);
      MoveStarts(g.inst, h, L.Apply(g.inst[h].srv, L.Pin));
  }

  ghost predicate NoneStarts(inst: map<Handle, Inst>, inst': map<Handle, Inst>) {
    forall h :: h in inst ==> h in inst' && !Starts(inst[h].srv, inst'[h].srv)
  }

  lemma ForcedServer(s: L.Server, now: nat)
    ensures !Starts(s, L.BeginUnload(s))
    ensures L.Enabled(s, L.Pin) && !Starts(s, L.Apply(s, L.Pin))
    ensures L.Enabled(s, L.Unpin(now)) && !Starts(s, L.Apply(s, L.Unpin(now)))
  {
  }

  lemma CrashStarts(s: L.Server)
    ensures L.Enabled(s, L.CrashSeen) ==> !Starts(s, L.Apply(s, L.CrashSeen))
  {
  }

  lemma MoveStarts(inst: map<Handle, Inst>, h: Handle, s: L.Server)
    requires h in inst && !Starts(inst[h].srv, s)
    ensures NoneStarts(inst, inst[h := inst[h].(srv := s)]) && NoneStarts(inst, inst)
  {
    hide Accounted, Starts;
    DoesNotStart(inst);
  }

  lemma DoesNotStart(inst: map<Handle, Inst>)
    ensures NoneStarts(inst, inst)
  {
  }

  lemma DecideStarts(g: Gw, a: TaskId)
    requires a in g.admins && Registered(g)
    ensures NoneStarts(g.inst, DoAdminDecide(g, a).inst)
  {
    hide AdminExit, L.BeginUnload, NoneStarts, Starts;
    AdminExitPins(g, a);
    DoesNotStart(g.inst);
    var m := g.admins[a].model;
    if m in g.pool.managers {
      ForcedServer(g.inst[g.pool.managers[m]].srv, g.now);
      MoveStarts(g.inst, g.pool.managers[m], L.BeginUnload(g.inst[g.pool.managers[m]].srv));
    }
  }

  /** No instance starts to load, becomes READY without having been LOADING, or leaves UNLOADED, in any step but
      one that restarts it. */
  lemma OnlyRestartsStart(g: Gw, cfg: Config, st: Step, h: Handle)
    requires Inv(g, cfg) && Enabled(g, st) && h in g.inst
    ensures Registered(g) && h in Apply(g, cfg, st).inst
    ensures Starts(g.inst[h].srv, Apply(g, cfg, st).inst[h].srv) ==> Restarted(g, st) == Some(h)
  {
    hide Inv, Apply, Enabled, Registered, Forced, Restarted, Starts, Admitted;
    IsRegistered(g, cfg);
    if Forced(g, st) || st.Unpin? || st.PinMore? { ForcedStarts(g, cfg, st); } else { PinsHoldStep(g, cfg, st); }
  }

  /** No unforced step takes an instance that serves requests out of READY, and none but the end of
      a request takes one of its requests away: not LRU eviction, not the idle monitor, not a load
      timeout, not a drain, not a cancelled caller.  The first request is put on an instance only when that
      is READY and its model admitted; a further pin may come at any time on one that was handed out. */
  lemma PinSafety(g: Gw, cfg: Config, st: Step, h: Handle)
    requires Inv(g, cfg) && Enabled(g, st) && !Forced(g, st) && h in g.inst
    ensures Registered(g) && h in Apply(g, cfg, st).inst
    ensures var s, t := g.inst[h].srv, Apply(g, cfg, st).inst[h].srv;
            && (s.state == L.Ready && s.active > 0 ==>
                  t.state == L.Ready && t.active >= s.active - if st.Unpin? && st.h == h then 1 else 0)
            && (t.active > s.active ==>
                  (st.PinMore? && h in g.granted) || (s.state == t.state == L.Ready && Admitted(g, g.inst[h].model)))
  {
    hide Inv, L.Apply, Admitted, Registered;
    IsRegistered(g, cfg);
    if st.Unpin? {
      PinStep(g, st.h, L.Unpin(g.now), h);
    } else if st.PinMore? {
      PinStep(g, st.h, L.Pin, h);
    } else {
      hide Apply, Forced, Enabled;
      PinsHoldStep(g, cfg, st);
    }
  }

  /** Over a whole run: as long as nothing is forced and h never runs out of requests, h stays READY. */
  lemma {:induction false} ServedStaysReady(trace: seq<Gw>, steps: seq<Step>, cfg: Config, i: nat, j: nat, h: Handle)
    requires Run(trace, steps, cfg) && Init(trace[0], cfg) && i <= j <= |steps|
    requires InState(trace[i], h, L.Ready)
    requires forall k :: i <= k < j ==> !Forced(trace[k], steps[k])
    requires forall k :: i <= k <= j && h in trace[k].inst ==> trace[k].inst[h].srv.active > 0
    ensures InState(trace[j], h, L.Ready)
  {
    hide Inv, Init, Apply, Enabled, Registered, Forced, Admitted;
    if i < j {
      ServedStaysReady(trace, steps, cfg, i, j - 1, h);
      InitHasInv(trace[0], cfg);
      RunKeepsInv(trace, steps, cfg, j - 1);
      assert trace[j - 1 + 1] == Apply(trace[j - 1], cfg, steps[j - 1]);
      PinSafety(trace[j - 1], cfg, steps[j - 1], h);
    }
  }

  /** A further pin (the generator of a stream that starts late) finds the instance out of READY only if
      something was forced, or if the instance was without any pin in between: its guard had been released. */
  lemma LatePinFoundNoGuard(trace: seq<Gw>, steps: seq<Step>, cfg: Config, i: nat, j: nat, h: Handle)
    requires Run(trace, steps, cfg) && Init(trace[0], cfg) && i <= j < |steps| && steps[j] == PinMore(h)
    requires InState(trace[i], h, L.Ready) && !InState(trace[j], h, L.Ready)
    requires forall k :: i <= k < j ==> !Forced(trace[k], steps[k])
    ensures exists k :: i <= k <= j && h in trace[k].inst && trace[k].inst[h].srv.active == 0
  {
    hide Inv, Init, Apply, Enabled, Registered, Forced, Admitted;
    if !exists k :: i <= k <= j && h in trace[k].inst && trace[k].inst[h].srv.active == 0 {
      ServedStaysReady(trace, steps, cfg, i, j, h);
    }
  }
}
