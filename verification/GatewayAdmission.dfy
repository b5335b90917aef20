/** Who may register a manager, and in which order waiting callers are given capacity. */
module GatewayAdmission {
  import opened Sums
  import opened GatewayPool
  import opened GatewaySystem
  import opened GatewayProofs
  import opened GatewayTheorems
  import L = ServerLifecycle

  // ---------------------------------------------------------------- registrations

  /** An entry of the pool is kept, removed, or added for a model without one, with a new instance. */
  ghost predicate EntriesKept(g: Gw, g': Gw) {
    forall m :: m in g'.pool.managers ==>
      if m in g.pool.managers then g'.pool.managers[m] == g.pool.managers[m]
      else g'.pool.managers[m] !in g.inst && g'.pool.managers[m] in g'.inst
  }

  /** c has just reserved a port for the new instance it now waits for. */
  ghost predicate Launches(g: Gw, g': Gw, c: TaskId) {
    && c in g.callers && c in g'.callers && g'.callers[c].pc.Waiting? && g'.callers[c].pc.h !in g.inst
  }

  ghost predicate AtTurnOf(g: Gw, c: TaskId) {
    g.pool.waiters == [] || g.pool.waiters[0] == c
  }

  /** What the capacity loop may do to the pool, for the caller c. */
  ghost predicate LoopEffect(g: Gw, cfg: Config, g': Gw, c: TaskId)
    requires c in g.callers
  {
    if Launches(g, g', c) then
      && AtTurnOf(g, c) && HasCapacity(g, cfg, g'.callers[c].need) && Admitted(g, g.callers[c].model)
      && g'.pool.managers == g.pool.managers[g.callers[c].model := g'.callers[c].pc.h]
      && g'.pool.waiters == Without(g.pool.waiters, c)
      && g'.inst.Keys == g.inst.Keys + {g'.callers[c].pc.h} && InState(g', g'.callers[c].pc.h, L.Loading)
      && (forall k :: k in g.inst && k != g'.callers[c].pc.h ==> g'.inst[k] == g.inst[k])
    else g'.pool.managers == g.pool.managers && g'.inst.Keys == g.inst.Keys
  }

  lemma ReserveEffect(g: Gw, cfg: Config, c: TaskId, h: Handle)
    requires c in g.callers && AtTurnOf(g, c) && !g.callers[c].pc.Waiting? && h !in g.inst && g.pool.free != []
    requires HasCapacity(g, cfg, g.callers[c].need)
    ensures LoopEffect(g, cfg, Reserve(g, c, h), c)
  {
    hide HasCapacity, AtTurnOf, Admitted, Exit, Launch, TicketGone;
    if Admitted(g, g.callers[c].model) {
      hide Without, L.Apply;
      LaunchFacts(g, c, h);
    } else {
      ExitEffect(g, cfg, c);
    }
  }

  /** What a launch leaves, field by field. */
  lemma LaunchFacts(g: Gw, c: TaskId, h: Handle)
    requires c in g.callers && g.pool.free != [] && h !in g.inst
    ensures c in TicketGone(g, c).callers && TicketGone(g, c).pool.free == g.pool.free
    ensures var g' := Launch(TicketGone(g, c), c, h);
            && g'.callers == g.callers[c := g.callers[c].(pc := Waiting(h, 0))]
            && g'.pool.managers == g.pool.managers[g.callers[c].model := h] && g'.pool.waiters == Without(g.pool.waiters, c)
            && g'.inst.Keys == g.inst.Keys + {h} && InState(g', h, L.Loading)
            && (forall k :: k in g.inst && k != h ==> g'.inst[k] == g.inst[k])
  {
    LaunchedCallers(g, c, h);
    LaunchedPool(g, c, h);
    FreshLoads(g.now);
    hide Without, Register, L.Apply;
  }

  lemma LaunchedPool(g: Gw, c: TaskId, h: Handle)
    requires c in g.callers && g.pool.free != []
    ensures c in TicketGone(g, c).callers && TicketGone(g, c).pool.free == g.pool.free
    ensures var g' := Launch(TicketGone(g, c), c, h);
            && g'.pool.managers == g.pool.managers[g.callers[c].model := h] && g'.pool.waiters == Without(g.pool.waiters, c)
            && g'.inst == g.inst[h := Inst(g.callers[c].model, g.pool.free[0], L.Apply(L.Fresh, L.EnsureLoaded(g.now)))]
  {
    hide L.Apply, Without;
  }

  lemma FreshLoads(now: nat)
    ensures L.Apply(L.Fresh, L.EnsureLoaded(now)).state == L.Loading
  {
  }

  lemma EvictEffect(g: Gw, cfg: Config, c: TaskId, v: Handle, ticketed: bool, extra: bool)
    requires c in g.callers && v in g.inst
    ensures LoopEffect(g, cfg, BeginEvict(g, c, v, ticketed, extra), c)
  {
    hide HasCapacity, AtTurnOf, L.BeginUnload;
  }

  lemma ParkEffect(g: Gw, cfg: Config, c: TaskId, ticketed: bool, extra: bool)
    requires c in g.callers && !g.callers[c].pc.Waiting?
    ensures LoopEffect(g, cfg, Park(g, cfg, c, ticketed, extra), c)
  {
    hide HasCapacity, AtTurnOf;
  }

  lemma ExitEffect(g: Gw, cfg: Config, c: TaskId)
    requires c in g.callers
    ensures LoopEffect(g, cfg, Exit(g, c), c)
  {
    hide HasCapacity, AtTurnOf;
  }

  lemma AtTurnEffect(g: Gw, cfg: Config, c: TaskId, ticketed: bool, extra: bool, v: Handle, h: Handle)
    requires c in g.callers && ChoicesOk(g, c, v, h) && IsTurn(g, c, ticketed) && !g.callers[c].pc.Waiting?
    ensures LoopEffect(g, cfg, AtTurn(g, cfg, c, ticketed, extra, v, h), c)
  {
    hide HasVictim, IsVictim, Reserve, BeginEvict, Park, LoopEffect, Used;
    if !HasCapacity(g, cfg, g.callers[c].need) && HasVictim(g, g.callers[c].model) {
      EvictEffect(g, cfg, c, v, ticketed, extra);
    } else if extra && HasCapacity(g, cfg, g.callers[c].need) {
      ReserveEffect(g, cfg, c, h);
    } else {
      ParkEffect(g, cfg, c, ticketed, extra);
    }
  }

  lemma ConsiderEffect(g: Gw, cfg: Config, c: TaskId, ticketed: bool, extra: bool, v: Handle, h: Handle)
    requires c in g.callers && ChoicesOk(g, c, v, h) && !g.callers[c].pc.Waiting?
    ensures LoopEffect(g, cfg, Consider(g, cfg, c, ticketed, extra, v, h), c)
  {
    hide HasVictim, IsVictim, AtTurn, BeginEvict, Park, LoopEffect, TempBlocker, HasCapacity, Admitted, Exit;
    if !Admitted(g, g.callers[c].model) {
      ExitEffect(g, cfg, c);
    } else if !IsTurn(g, c, ticketed) {
      ParkEffect(g, cfg, c, ticketed, extra);
    } else if !extra && HasVictim(g, g.callers[c].model) {
      EvictEffect(g, cfg, c, v, ticketed, true);
    } else {
      AtTurnEffect(g, cfg, c, ticketed, extra || !TempBlocker(g, g.callers[c].model), v, h);
    }
  }

  // ---------------------------------------------------------------- steps that register nothing

  /** Nothing is registered and nobody starts to wait for a new instance. */
  ghost predicate Quiet(g: Gw, g': Gw) {
    && (forall m :: m in g'.pool.managers ==> m in g.pool.managers && g'.pool.managers[m] == g.pool.managers[m])
    && g.inst.Keys == g'.inst.Keys
    && forall d :: d in g'.callers && g'.callers[d].pc.Waiting? ==> g'.callers[d].pc.h in g.inst
  }

  /** Every caller waits for an instance that exists. */
  ghost predicate WaitersKnown(g: Gw) {
    forall d :: d in g.callers && g.callers[d].pc.Waiting? ==> g.callers[d].pc.h in g.inst
  }

  lemma WaitersAreKnown(g: Gw, cfg: Config)
    requires Inv(g, cfg)
    ensures WaitersKnown(g)
  {
    hide PortsPartition, RegisteredInv, SrvInv, LockInv, AdminInv, GrantInv, QueueInv, RegInv, AttendedInv;
  }

  lemma ExitQuiet(g: Gw, c: TaskId)
    requires WaitersKnown(g) && c in g.callers
    ensures Quiet(g, Exit(g, c)) && WaitersKnown(Exit(g, c))
  {
  }

  lemma GrantQuiet(g: Gw, c: TaskId, h: Handle, pin: bool)
    requires WaitersKnown(g) && c in g.callers && h in g.inst
    ensures Quiet(g, Grant(g, c, h, pin))
  {
  }

  lemma UseManagerQuiet(g: Gw, c: TaskId, h: Handle, retry: bool, pin: bool)
    requires WaitersKnown(g) && c in g.callers && h in g.inst
    ensures Quiet(g, UseManager(g, c, h, retry, pin))
  {
    hide Admitted, Grant, Quiet, WaitersKnown, RefuseReady, WaitFor, SetPc;
    GrantQuiet(g, c, h, pin);
    SetPcQuiet(g, c, Forgetting(h, retry));
    if L.EnterOutcome(g.inst[h].srv).Waits? { WaitForQuiet(g, c, h, L.EnterOutcome(g.inst[h].srv).round); }
    RefuseQuiet(g, c, h, retry);
  }

  lemma WaitForQuiet(g: Gw, c: TaskId, h: Handle, round: nat)
    requires WaitersKnown(g) && c in g.callers && h in g.inst
    ensures Quiet(g, WaitFor(g, c, h, round))
  {
    hide L.Apply;
  }

  lemma RefuseQuiet(g: Gw, c: TaskId, h: Handle, retry: bool)
    requires WaitersKnown(g) && c in g.callers && h in g.inst
    ensures Quiet(g, RefuseReady(g, c, h, retry))
  {
  }

  lemma TimeOutQuiet(g: Gw, c: TaskId, retry: bool)
    requires WaitersKnown(g) && CanTimeOut(g, c, retry)
    ensures Quiet(g, DoTimeOut(g, c, retry))
  {
    hide L.BeginUnload, MayRetry;
  }

  lemma WakeQuiet(g: Gw, c: TaskId, retry: bool, pin: bool)
    requires WaitersKnown(g) && CanWake(g, c, retry)
    ensures Quiet(g, DoWake(g, c, retry, pin))
  {
    hide Admitted, Grant, MayRetry;
    GrantQuiet(g, c, g.callers[c].pc.h, pin);
  }

  lemma ForgetQuiet(g: Gw, c: TaskId)
    requires WaitersKnown(g) && CanForget(g, c)
    ensures Quiet(g, DoForget(g, c))
  {
    hide Quiet, WaitersKnown, Release, SecondAttempt, Exit;
    var caller := g.callers[c];
    var g1 := g.(pool := Release(g.pool, caller.model, caller.pc.h).0);
    ReleaseQuiet(g, caller.model, caller.pc.h);
    if caller.pc.retry {
      SecondAttemptQuiet(g1, c);
      QuietTwice(g, g1, SecondAttempt(g1, c));
    } else {
      ExitQuiet(g1, c);
      QuietTwice(g, g1, Exit(g1, c));
    }
  }

  lemma ReleaseQuiet(g: Gw, m: ModelId, h: Handle)
    requires WaitersKnown(g)
    ensures var g1 := g.(pool := Release(g.pool, m, h).0); Quiet(g, g1) && WaitersKnown(g1)
  {
  }

  lemma SecondAttemptQuiet(g: Gw, c: TaskId)
    requires WaitersKnown(g) && c in g.callers
    ensures Quiet(g, SecondAttempt(g, c))
  {
  }

  lemma SetSrvQuiet(g: Gw, h: Handle, s: L.Server)
    requires WaitersKnown(g) && h in g.inst
    ensures Quiet(g, SetSrv(g, h, s)) && WaitersKnown(SetSrv(g, h, s))
  {
  }

  lemma QuietTwice(g: Gw, g1: Gw, g2: Gw)
    requires Quiet(g, g1) && Quiet(g1, g2)
    ensures Quiet(g, g2)
  {
  }

  lemma CancelQuiet(g: Gw, c: TaskId)
    requires WaitersKnown(g) && CanCancel(g, c)
    ensures Quiet(g, DoCancel(g, c))
  {
    hide AbortUnload, Quiet, WaitersKnown, Resumed, SetSrv, Exit;
    var g1 := g.(cancelled := true);
    CancelledQuiet(g);
    match g.callers[c].pc
    case Evicting(v, _, _) =>
      ResumedQuiet(g1, c);
      SetSrvExitQuiet(Resumed(g1, c), v, AbortUnload(g.inst[v].srv), c);
      QuietTwice(g1, Resumed(g1, c), DoCancel(g, c));
      QuietTwice(g, g1, DoCancel(g, c));
    case TimingOut(h) =>
      SetSrvExitQuiet(g1, h, AbortUnload(g.inst[h].srv), c);
      QuietTwice(g, g1, DoCancel(g, c));
    case _ =>
      ExitQuiet(g1, c);
      QuietTwice(g, g1, Exit(g1, c));
  }

  lemma CancelledQuiet(g: Gw)
    requires WaitersKnown(g)
    ensures Quiet(g, g.(cancelled := true)) && WaitersKnown(g.(cancelled := true))
  {
  }

  lemma ResumedQuiet(g: Gw, c: TaskId)
    requires WaitersKnown(g) && c in g.callers && g.callers[c].pc.Evicting?
    ensures Quiet(g, Resumed(g, c)) && WaitersKnown(Resumed(g, c)) && c in Resumed(g, c).callers && Resumed(g, c).inst == g.inst
  {
  }

  lemma SetSrvExitQuiet(g: Gw, h: Handle, s: L.Server, c: TaskId)
    requires WaitersKnown(g) && h in g.inst && c in g.callers
    ensures c in SetSrv(g, h, s).callers && Quiet(g, Exit(SetSrv(g, h, s), c))
  {
    SetSrvQuiet(g, h, s);
    assert c in SetSrv(g, h, s).callers;
    ExitQuiet(SetSrv(g, h, s), c);
    hide Quiet, WaitersKnown, SetSrv, Exit;
    QuietTwice(g, SetSrv(g, h, s), Exit(SetSrv(g, h, s), c));
  }

  lemma CallbackQuiet(g: Gw, h: Handle)
    requires WaitersKnown(g) && h in g.inst
    ensures Quiet(g, Callback(g, h))
  {
  }

  lemma ServerQuiet(g: Gw, h: Handle, e: L.Event)
    requires WaitersKnown(g) && h in g.inst && L.Enabled(g.inst[h].srv, e)
    ensures Quiet(g, DoServer(g, h, e))
  {
    hide Callback, SetSrv, Quiet, WaitersKnown, L.Apply;
    var s := L.Apply(g.inst[h].srv, e);
    SetSrvQuiet(g, h, s);
    if e.UnloadKilled? || e.CrashSeen? {
      assert h in SetSrv(g, h, s).inst;
      CallbackQuiet(SetSrv(g, h, s), h);
      QuietTwice(g, SetSrv(g, h, s), Callback(SetSrv(g, h, s), h));
    }
  }

  lemma AdminDecideQuiet(g: Gw, a: TaskId)
    requires WaitersKnown(g) && a in g.admins && Registered(g)
    ensures Quiet(g, DoAdminDecide(g, a))
  {
    hide L.BeginUnload, Quiet, WaitersKnown, AdminExit, AdminSetPc, SetSrv, Registered;
    AdminExitQuiet(g, a);
    var m := g.admins[a].model;
    if m in g.pool.managers {
      var h := g.pool.managers[m];
      assert h in g.inst by { KnownManager(g, m); }
      UnloadingQuiet(g, a, h, L.BeginUnload(g.inst[h].srv));
    }
  }

  lemma KnownManager(g: Gw, m: ModelId)
    requires Registered(g) && m in g.pool.managers
    ensures g.pool.managers[m] in g.inst
  {
  }

  lemma AdminExitQuiet(g: Gw, a: TaskId)
    requires WaitersKnown(g) && a in g.admins
    ensures Quiet(g, AdminExit(g, a))
  {
    hide Unlock;
  }

  lemma UnloadingQuiet(g: Gw, a: TaskId, h: Handle, s: L.Server)
    requires WaitersKnown(g) && a in g.admins && h in g.inst
    ensures a in SetSrv(g, h, s).admins && Quiet(g, AdminSetPc(SetSrv(g, h, s), a, Unloading(h)))
  {
  }

  lemma AdminTakeLockQuiet(g: Gw, a: TaskId)
    requires WaitersKnown(g) && a in g.admins
    ensures Quiet(g, DoAdminTakeLock(g, a))
  {
    hide AdminExit;
    AdminExitQuiet(g, a);
  }

  lemma AdminCancelQuiet(g: Gw, a: TaskId)
    requires WaitersKnown(g) && CanAdminCancel(g, a)
    ensures Quiet(g, DoAdminCancel(g, a))
  {
    hide AbortUnload, Quiet, WaitersKnown, AdminExit, SetSrv;
    var g1 := g.(cancelled := true);
    CancelledQuiet(g);
    match g.admins[a].pc
    case Unloading(h) =>
      SetSrvQuiet(g1, h, AbortUnload(g.inst[h].srv));
      var g2 := SetSrv(g1, h, AbortUnload(g.inst[h].srv));
      assert a in g2.admins by { SetSrvAdmins(g1, h, AbortUnload(g.inst[h].srv)); }
      AdminExitQuiet(g2, a);
      QuietTwice(g1, g2, AdminExit(g2, a));
      QuietTwice(g, g1, AdminExit(g2, a));
    case _ =>
      AdminExitQuiet(g1, a);
      QuietTwice(g, g1, AdminExit(g1, a));
  }

  lemma SetSrvAdmins(g: Gw, h: Handle, s: L.Server)
    requires h in g.inst
    ensures SetSrv(g, h, s).admins == g.admins
  {
  }

  lemma InstanceStepQuiet(g: Gw, cfg: Config, st: Step)
    requires WaitersKnown(g) && Enabled(g, st) && Registered(g) && InstanceStep(st)
    ensures Quiet(g, Apply(g, cfg, st))
  {
    hide WaitersKnown, Registered, DoWake, DoTimeOut, DoForget, DoCancel, CanWake, CanTimeOut, CanForget, CanCancel;
    match st
    case Wake(c, retry, pin) => WakeQuiet(g, c, retry, pin);
    case LoadTimeout(c, retry) => TimeOutQuiet(g, c, retry);
    case TimeoutOver(c, retry) => SetPcQuiet(g, c, Forgetting(g.callers[c].pc.h, retry));
    case Forget(c) => ForgetQuiet(g, c);
    case Cancel(c) => CancelQuiet(g, c);
  }

  lemma SetPcQuiet(g: Gw, c: TaskId, pc: Pc)
    requires WaitersKnown(g) && c in g.callers && !pc.Waiting?
    ensures Quiet(g, SetPc(g, c, pc))
  {
  }

  lemma PinQuiet(g: Gw, cfg: Config, st: Step)
    requires WaitersKnown(g) && Enabled(g, st) && Registered(g) && (st.PinMore? || st.Unpin?)
    ensures Quiet(g, Apply(g, cfg, st))
  {
    hide WaitersKnown, Registered, Quiet, SetSrv;
    SetSrvQuiet(g, st.h, L.Apply(g.inst[st.h].srv, if st.PinMore? then L.Pin else L.Unpin(g.now)));
  }

  lemma UntouchedQuiet(g: Gw, cfg: Config, st: Step)
    requires WaitersKnown(g) && Enabled(g, st) && Registered(g)
    requires st.AdminArrive? || st.SetBlocked? || st.SetRegistry? || st.Measure? || st.Tick?
    ensures Quiet(g, Apply(g, cfg, st))
  {
    hide Registered, Quiet, WaitersKnown;
    SamePoolQuiet(g, Apply(g, cfg, st));
  }

  lemma SamePoolQuiet(g: Gw, g': Gw)
    requires WaitersKnown(g) && g'.pool.managers == g.pool.managers && g'.inst == g.inst && g'.callers == g.callers
    ensures Quiet(g, g')
  {
  }

  lemma OtherStepQuiet(g: Gw, cfg: Config, st: Step)
    requires WaitersKnown(g) && Enabled(g, st) && Registered(g) && !InstanceStep(st) && !AdmissionStep(st)
    ensures Quiet(g, Apply(g, cfg, st))
  {
    hide Registered, DoAdminTakeLock, DoAdminDecide, DoAdminCancel, DoServer, AdminExit, L.BeginUnload, L.Apply, L.Enabled,
      CanAdminCancel, Quiet, WaitersKnown;
    match st
    case AdminTakeLock(a) => AdminTakeLockQuiet(g, a);
    case AdminOver(a) => AdminExitQuiet(g, a);
    case AdminDecide(a) => AdminDecideQuiet(g, a);
    case AdminCancel(a) => AdminCancelQuiet(g, a);
    case Server(h, e) => ServerQuiet(g, h, e);
    case UnloadAll(h) => SetSrvQuiet(g, h, L.BeginUnload(g.inst[h].srv));
    case IdleUnload(h) => SetSrvQuiet(g, h, L.BeginUnload(g.inst[h].srv));
    case PinMore(h) => PinQuiet(g, cfg, st);
    case Unpin(h) => PinQuiet(g, cfg, st);
    case _ => UntouchedQuiet(g, cfg, st);
  }

  // ---------------------------------------------------------------- who may register, and what

  /** The other callers do not move, and c does not come to wait for the condition behind its admission test. */
  ghost predicate OthersStay(g: Gw, g': Gw, c: TaskId) {
    && (forall d :: d != c && d in g'.callers ==> d in g.callers && g'.callers[d] == g.callers[d])
    && !At(g', c, WantCond)
  }

  lemma PiecesOthers(g: Gw, cfg: Config, c: TaskId, v: Handle, ticketed: bool, extra: bool)
    requires c in g.callers
    ensures OthersStay(g, Exit(g, c), c) && OthersStay(g, Park(g, cfg, c, ticketed, extra), c)
    ensures v in g.inst ==> OthersStay(g, BeginEvict(g, c, v, ticketed, extra), c)
  {
    hide Exit, BeginEvict;
    ExitOthers(g, c);
    if v in g.inst { EvictOthers(g, c, v, ticketed, extra); }
  }

  lemma ExitOthers(g: Gw, c: TaskId)
    requires c in g.callers
    ensures OthersStay(g, Exit(g, c), c)
  {
    hide Without, Unlock;
  }

  lemma EvictOthers(g: Gw, c: TaskId, v: Handle, ticketed: bool, extra: bool)
    requires c in g.callers && v in g.inst
    ensures OthersStay(g, BeginEvict(g, c, v, ticketed, extra), c)
  {
    hide L.BeginUnload;
  }

  lemma LaunchOthers(g: Gw, c: TaskId, h: Handle)
    requires c in g.callers && g.pool.free != []
    ensures OthersStay(g, Reserve(g, c, h), c)
  {
    hide Without, Admitted, Exit, Launch, TicketGone;
    PiecesOthers(g, Config(0.0, {}, 0, false), c, 0, false, false);
    LaunchedCallers(g, c, h);
  }

  lemma LaunchedCallers(g: Gw, c: TaskId, h: Handle)
    requires c in g.callers && g.pool.free != []
    ensures c in TicketGone(g, c).callers && TicketGone(g, c).pool.free == g.pool.free
    ensures Launch(TicketGone(g, c), c, h).callers == g.callers[c := g.callers[c].(pc := Waiting(h, 0))]
  {
    hide L.Apply, Without, Register;
  }

  lemma AtTurnOthers(g: Gw, cfg: Config, c: TaskId, ticketed: bool, extra: bool, v: Handle, h: Handle)
    requires c in g.callers && ChoicesOk(g, c, v, h)
    ensures OthersStay(g, AtTurn(g, cfg, c, ticketed, extra, v, h), c)
  {
    hide HasVictim, IsVictim, Admitted, Used, OthersStay, Exit, Park, BeginEvict, Reserve;
    PiecesOthers(g, cfg, c, v, ticketed, extra);
    if HasCapacity(g, cfg, g.callers[c].need) { LaunchOthers(g, c, h); }
  }

  lemma ConsiderOthers(g: Gw, cfg: Config, c: TaskId, ticketed: bool, extra: bool, v: Handle, h: Handle)
    requires c in g.callers && ChoicesOk(g, c, v, h)
    ensures OthersStay(g, Consider(g, cfg, c, ticketed, extra, v, h), c)
  {
    hide AtTurn, HasVictim, IsVictim, Admitted, TempBlocker, OthersStay, Exit, Park, BeginEvict, IsTurn;
    PiecesOthers(g, cfg, c, v, ticketed, extra);
    PiecesOthers(g, cfg, c, v, ticketed, true);
    AtTurnOthers(g, cfg, c, ticketed, extra || !TempBlocker(g, g.callers[c].model), v, h);
  }

  /** Either the whole effect is Quiet, or c has registered a new instance for a model that had none. */
  ghost predicate Effect(g: Gw, cfg: Config, g': Gw, c: TaskId) {
    if Launches(g, g', c) then
      && LoopEffect(g, cfg, g', c) && g.callers[c].model !in g.pool.managers && OthersStay(g, g', c)
      && g.cond in {None, Some(c)}
    else Quiet(g, g')
  }

  lemma QuietLoop(g: Gw, cfg: Config, g': Gw, c: TaskId)
    requires WaitersKnown(g) && c in g.callers && LoopEffect(g, cfg, g', c) && OthersStay(g, g', c)
    ensures !Launches(g, g', c) ==> Quiet(g, g')
  {
    hide HasCapacity, Admitted;
  }

  lemma UnderConditionEffect(g: Gw, cfg: Config, c: TaskId, v: Handle, h: Handle, retry: bool, pin: bool)
    requires WaitersKnown(g) && c in g.callers && ChoicesOk(g, c, v, h) && Registered(g) && g.cond == None
    requires !g.callers[c].pc.Waiting?
    ensures Effect(g, cfg, UnderCondition(g, cfg, c, v, h, retry, pin), c)
  {
    hide UseManager, Consider, LoopEffect, WaitersKnown, OthersStay, ChoicesOk, HasCapacity;
    var g' := UnderCondition(g, cfg, c, v, h, retry, pin);
    if g.callers[c].model in g.pool.managers {
      var k := g.pool.managers[g.callers[c].model];
      UseManagerQuiet(g, c, k, retry, pin);
      ExitQuiet(g, c);
      SetPcQuiet(g, c, WaitUnload);
    } else if g.callers[c].need > cfg.budget {
      ExitQuiet(g, c);
    } else {
      ConsiderEffect(g, cfg, c, false, g.callers[c].attempt == 0, v, h);
      ConsiderOthers(g, cfg, c, false, g.callers[c].attempt == 0, v, h);
      QuietLoop(g, cfg, g', c);
    }
  }

  /** The caller that moves in an admission step. */
  function Actor(st: Step): TaskId
    requires AdmissionStep(st)
  {
    match st
    case Arrive(c, _) => c
    case TakeLock(c) => c
    case Enter(c, _, _, _, _) => c
    case EnterWait(c) => c
    case GetCond(c, _, _, _, _) => c
    case RecheckUnload(c, _, _, _, _) => c
    case RecheckQueue(c, _, _) => c
    case EvictionOver(c, _, _) => c
    case GiveUp(c) => c
  }

  lemma EnterEffect(g: Gw, cfg: Config, c: TaskId, v: Handle, h: Handle, retry: bool, pin: bool)
    requires WaitersKnown(g) && CanEnter(g, c, v, h, retry) && Registered(g)
    ensures Effect(g, cfg, DoEnter(g, cfg, c, v, h, retry, pin), c)
  {
    hide UnderCondition, Exit, Grant, LoopEffect, ChoicesOk;
    var m := g.callers[c].model;
    if !Admitted(g, m) {
      ExitQuiet(g, c);
    } else if ReadyNow(g, m) {
      GrantQuiet(g, c, g.pool.managers[m], pin);
    } else {
      BeginChoices(g, c, v, h);
      UnderConditionEffect(Begin(g, c), cfg, c, v, h, retry, pin);
      BeginEffect(g, cfg, UnderCondition(Begin(g, c), cfg, c, v, h, retry, pin), c);
    }
  }

  lemma BeginChoices(g: Gw, c: TaskId, v: Handle, h: Handle)
    requires c in g.callers && g.callers[c].model in g.reg && ChoicesOk(g, c, v, h)
    ensures ChoicesOk(Begin(g, c), c, v, h)
  {
  }

  lemma BeginEffect(g: Gw, cfg: Config, g': Gw, c: TaskId)
    requires WaitersKnown(g) && c in g.callers && g.callers[c].model in g.reg && !g.callers[c].pc.Waiting?
    requires Effect(Begin(g, c), cfg, g', c)
    ensures Effect(g, cfg, g', c)
  {
  }

  lemma QueueEffect(g: Gw, cfg: Config, c: TaskId, v: Handle, h: Handle)
    requires Inv(g, cfg) && CanRecheckQueue(g, c, v, h)
    ensures Effect(g, cfg, Consider(g, cfg, c, true, g.callers[c].pc.extraDone, v, h), c)
  {
    hide Inv;
    CallerFacts(g, cfg, c);
    WaitersAreKnown(g, cfg);
    var x := g.callers[c].pc.extraDone;
    hide Consider, LoopEffect, WaitersKnown, OthersStay, ChoicesOk, Quiet;
    ConsiderEffect(g, cfg, c, true, x, v, h);
    ConsiderOthers(g, cfg, c, true, x, v, h);
    QuietLoop(g, cfg, Consider(g, cfg, c, true, x, v, h), c);
  }

  lemma ResumedEffect(g: Gw, cfg: Config, g': Gw, c: TaskId)
    requires WaitersKnown(g) && c in g.callers && g.callers[c].pc.Evicting? && g.cond == Some(c)
    requires g.callers[c].model !in g.pool.managers
    requires LoopEffect(Resumed(g, c), cfg, g', c) && OthersStay(Resumed(g, c), g', c)
    ensures Effect(g, cfg, g', c)
  {
    assert LoopEffect(g, cfg, g', c) && OthersStay(g, g', c);
    hide HasCapacity, Admitted, LoopEffect;
    QuietLoop(g, cfg, g', c);
  }

  lemma EvictionOverEffect(g: Gw, cfg: Config, c: TaskId, v: Handle, h: Handle)
    requires Inv(g, cfg) && CanResumeEviction(g, c, v, h)
    ensures Effect(g, cfg, DoResumeEviction(g, cfg, c, v, h), c)
  {
    hide Inv, AtTurn, LoopEffect, OthersStay, ChoicesOk, Effect;
    CallerFacts(g, cfg, c);
    WaitersAreKnown(g, cfg);
    ResumedTurn(g, cfg, c);
    ResumedChoices(g, c, v, h);
    var pc := g.callers[c].pc;
    AtTurnEffect(Resumed(g, c), cfg, c, pc.ticketed, pc.extra, v, h);
    AtTurnOthers(Resumed(g, c), cfg, c, pc.ticketed, pc.extra, v, h);
    ResumedEffect(g, cfg, DoResumeEviction(g, cfg, c, v, h), c);
  }

  lemma ResumedTurn(g: Gw, cfg: Config, c: TaskId)
    requires Inv(g, cfg) && c in g.callers && g.callers[c].pc.Evicting?
    ensures IsTurn(Resumed(g, c), c, g.callers[c].pc.ticketed)
  {
    hide Inv;
    CallerFacts(g, cfg, c);
  }

  lemma ResumedChoices(g: Gw, c: TaskId, v: Handle, h: Handle)
    requires CanResumeEviction(g, c, v, h)
    ensures ChoicesOk(Resumed(g, c), c, v, h)
  {
  }

  lemma QuietIsEffect(g: Gw, cfg: Config, g': Gw, c: TaskId)
    requires Quiet(g, g')
    ensures Effect(g, cfg, g', c)
  {
    hide LoopEffect, OthersStay;
  }

  lemma ArriveEffect(g: Gw, cfg: Config, c: TaskId, m: ModelId)
    requires WaitersKnown(g) && c !in g.callers
    ensures Effect(g, cfg, DoArrive(g, c, m), c)
  {
    hide LoopEffect, OthersStay;
  }

  lemma TakeLockEffect(g: Gw, cfg: Config, c: TaskId)
    requires WaitersKnown(g) && At(g, c, WantLock)
    ensures Effect(g, cfg, DoTakeLock(g, c), c)
  {
    hide LoopEffect, OthersStay;
  }

  lemma GiveUpEffect(g: Gw, cfg: Config, c: TaskId)
    requires WaitersKnown(g) && c in g.callers
    ensures Effect(g, cfg, Exit(g, c), c)
  {
    hide LoopEffect, OthersStay, Exit, Effect, WaitersKnown, Quiet;
    ExitQuiet(g, c);
    QuietIsEffect(g, cfg, Exit(g, c), c);
  }

  lemma EnterWaitEffect(g: Gw, cfg: Config, c: TaskId)
    requires WaitersKnown(g) && CanEnterWait(g, c)
    ensures Effect(g, cfg, DoEnterWait(g, c), c)
  {
    hide LoopEffect, OthersStay;
  }

  lemma GetCondEffect(g: Gw, cfg: Config, c: TaskId, v: Handle, h: Handle, retry: bool, pin: bool)
    requires WaitersKnown(g) && CanGetCond(g, c, v, h, retry) && Registered(g)
    ensures Effect(g, cfg, UnderCondition(g, cfg, c, v, h, retry, pin), c)
  {
    hide UnderCondition, ChoicesOk, WaitersKnown, Effect;
    UnderConditionEffect(g, cfg, c, v, h, retry, pin);
  }

  lemma RecheckUnloadEffect(g: Gw, cfg: Config, c: TaskId, v: Handle, h: Handle, retry: bool, pin: bool)
    requires WaitersKnown(g) && CanRecheckUnload(g, c, v, h, retry) && Registered(g)
    ensures Effect(g, cfg, DoRecheckUnload(g, cfg, c, v, h, retry, pin), c)
  {
    hide UnderCondition, ChoicesOk, WaitersKnown, Exit, Effect;
    if !Admitted(g, g.callers[c].model) {
      GiveUpEffect(g, cfg, c);
    } else {
      UnderConditionEffect(g, cfg, c, v, h, retry, pin);
    }
  }

  lemma AdmissionEffect(g: Gw, cfg: Config, st: Step)
    requires Inv(g, cfg) && WaitersKnown(g) && Enabled(g, st) && Registered(g) && AdmissionStep(st)
    ensures Effect(g, cfg, Apply(g, cfg, st), Actor(st))
  {
    hide Inv, DoEnter, At, CanRecheckQueue, DoRecheckUnload, Consider, DoResumeEviction, Registered, WaitersKnown, ChoicesOk;
    hide Effect, Exit, DoArrive, DoTakeLock, CanEnter, CanEnterWait, DoEnterWait, CanGetCond, UnderCondition, CanRecheckUnload,
      CanResumeEviction;
    match st
    case Arrive(c, m) => ArriveEffect(g, cfg, c, m);
    case TakeLock(c) => TakeLockEffect(g, cfg, c);
    case Enter(c, v, h, retry, pin) => EnterEffect(g, cfg, c, v, h, retry, pin);
    case EnterWait(c) => EnterWaitEffect(g, cfg, c);
    case GetCond(c, v, h, retry, pin) => GetCondEffect(g, cfg, c, v, h, retry, pin);
    case RecheckUnload(c, v, h, retry, pin) => RecheckUnloadEffect(g, cfg, c, v, h, retry, pin);
    case RecheckQueue(c, v, h) => QueueEffect(g, cfg, c, v, h);
    case EvictionOver(c, v, h) => EvictionOverEffect(g, cfg, c, v, h);
    case GiveUp(c) => GiveUpEffect(g, cfg, c);
  }

  lemma StepEffect(g: Gw, cfg: Config, st: Step)
    requires Inv(g, cfg) && Enabled(g, st) && Registered(g)
    ensures if AdmissionStep(st) then Effect(g, cfg, Apply(g, cfg, st), Actor(st)) else Quiet(g, Apply(g, cfg, st))
  {
    hide Inv, Enabled, Apply, Registered, WaitersKnown, Effect, Quiet;
    WaitersAreKnown(g, cfg);
    if AdmissionStep(st) { AdmissionEffect(g, cfg, st); }
    else if InstanceStep(st) { InstanceStepQuiet(g, cfg, st); }
    else { OtherStepQuiet(g, cfg, st); }
  }

  lemma QuietKeepsEntries(g: Gw, g': Gw)
    requires Quiet(g, g') && Registered(g)
    ensures EntriesKept(g, g')
  {
  }

  lemma EffectKeepsEntries(g: Gw, cfg: Config, g': Gw, c: TaskId)
    requires Effect(g, cfg, g', c) && Registered(g)
    ensures EntriesKept(g, g')
  {
    hide AtTurnOf, HasCapacity, Admitted, OthersStay, Quiet;
    if !Launches(g, g', c) { QuietKeepsEntries(g, g'); }
  }

  /** Registering a manager never replaces one, and what is registered is new: every entry after a
      step was there before, or belongs to a model that had none and to an instance that did not exist. */
  lemma NeverOverwrites(g: Gw, cfg: Config, st: Step)
    requires Inv(g, cfg) && Enabled(g, st)
    ensures Registered(g) && EntriesKept(g, Apply(g, cfg, st))
  {
    hide Inv, Enabled, Apply, Registered, Effect, Quiet, EntriesKept;
    IsRegistered(g, cfg);
    StepEffect(g, cfg, st);
    var g' := Apply(g, cfg, st);
    if AdmissionStep(st) { EffectKeepsEntries(g, cfg, g', Actor(st)); } else { QuietKeepsEntries(g, g'); }
  }

  /** A port is reserved only by the head of the queue, or by a newcomer when the queue is empty; at
      that moment the model is admitted and has no manager, the size fits into what the others leave,
      measured and accounted, and the ticket is gone. */
  lemma LaunchOnlyAtTurn(g: Gw, cfg: Config, st: Step, c: TaskId)
    requires Inv(g, cfg) && Enabled(g, st) && Registered(g) && Launches(g, Apply(g, cfg, st), c)
    ensures g.pool.waiters == [] || g.pool.waiters[0] == c
    ensures var g' := Apply(g, cfg, st);
            && HasCapacity(g, cfg, g'.callers[c].need) && Admitted(g, g.callers[c].model)
            && g.callers[c].model !in g.pool.managers
            && g'.pool.managers == g.pool.managers[g.callers[c].model := g'.callers[c].pc.h]
            && g'.pool.waiters == Without(g.pool.waiters, c) && c !in g'.pool.waiters
  {
    hide Inv, Enabled, Apply, Registered, HasCapacity, Admitted;
    WaitersAreKnown(g, cfg);
    QueueNoDup(g, cfg);
    StepEffect(g, cfg, st);
    WithoutKeepsOthers(g.pool.waiters, c);
  }

  lemma QueueNoDup(g: Gw, cfg: Config)
    requires Inv(g, cfg)
    ensures NoDup(g.pool.waiters)
  {
    hide PortsPartition, RegisteredInv, SrvInv, LockInv, WaitInv, AdminInv, GrantInv, RegInv, AttendedInv;
  }

  /** In every run, registering a manager never replaces one. */
  lemma {:induction false} RegistrationsNeverOverwrite(trace: seq<Gw>, steps: seq<Step>, cfg: Config, k: nat)
    requires Run(trace, steps, cfg) && Init(trace[0], cfg) && k < |steps|
    ensures EntriesKept(trace[k], trace[k + 1])
  {
    hide Inv, Init, Apply, Enabled, Registered, EntriesKept;
    InitHasInv(trace[0], cfg);
    RunKeepsInv(trace, steps, cfg, k);
    NeverOverwrites(trace[k], cfg, steps[k]);
  }

  lemma EntryNeedsAdmission(g: Gw, cfg: Config, st: Step, m: ModelId)
    requires Inv(g, cfg) && Enabled(g, st) && Registered(g) && !Admitted(g, m) && m !in g.pool.managers
    ensures m !in Apply(g, cfg, st).pool.managers
  {
    hide Inv, Enabled, Apply, Registered, HasCapacity, AtTurnOf, Admitted, OthersStay;
    StepEffect(g, cfg, st);
  }

  /** While the admission of m is closed (drained, blocked, disabled or unknown), no manager of m
      appears: what the bootstrap lease relies on. */
  lemma {:induction false} ClosedModelsStayAway(trace: seq<Gw>, steps: seq<Step>, cfg: Config, i: nat, j: nat, m: ModelId)
    requires Run(trace, steps, cfg) && Init(trace[0], cfg) && i <= j <= |steps|
    requires forall k :: i <= k < j ==> !Admitted(trace[k], m)
    requires m !in trace[i].pool.managers
    ensures m !in trace[j].pool.managers
  {
    hide Inv, Init, Apply, Enabled, Registered, Admitted;
    if i < j {
      ClosedModelsStayAway(trace, steps, cfg, i, j - 1, m);
      InitHasInv(trace[0], cfg);
      RunKeepsInv(trace, steps, cfg, j - 1);
      assert trace[j - 1 + 1] == Apply(trace[j - 1], cfg, steps[j - 1]);
      EntryNeedsAdmission(trace[j - 1], cfg, steps[j - 1], m);
    }
  }

  // ---------------------------------------------------------------- the order of the queue

  /** A step of c leaves the queue alone, drops the ticket of c, or gives c a ticket at the end. */
  predicate QueueMove(q: seq<TaskId>, q': seq<TaskId>, c: TaskId) {
    q' == q || q' == Without(q, c) || (c !in q && q' == q + [c])
  }

  lemma PiecesQueue(g: Gw, cfg: Config, c: TaskId, v: Handle, ticketed: bool, extra: bool)
    requires c in g.callers && (!ticketed ==> c !in g.pool.waiters)
    ensures QueueMove(g.pool.waiters, Exit(g, c).pool.waiters, c)
    ensures QueueMove(g.pool.waiters, Park(g, cfg, c, ticketed, extra).pool.waiters, c)
    ensures v in g.inst ==> QueueMove(g.pool.waiters, BeginEvict(g, c, v, ticketed, extra).pool.waiters, c)
  {
    hide L.BeginUnload, Without, Unlock;
  }

  lemma ReserveQueue(g: Gw, c: TaskId, h: Handle)
    requires c in g.callers && g.pool.free != []
    ensures QueueMove(g.pool.waiters, Reserve(g, c, h).pool.waiters, c)
  {
    hide L.Apply, Without, Admitted, Unlock;
  }

  lemma AtTurnQueue(g: Gw, cfg: Config, c: TaskId, ticketed: bool, extra: bool, v: Handle, h: Handle)
    requires c in g.callers && ChoicesOk(g, c, v, h) && (!ticketed ==> c !in g.pool.waiters)
    ensures QueueMove(g.pool.waiters, AtTurn(g, cfg, c, ticketed, extra, v, h).pool.waiters, c)
  {
    hide HasVictim, IsVictim, Admitted, Used, QueueMove, Exit, Park, BeginEvict, Reserve;
    PiecesQueue(g, cfg, c, v, ticketed, extra);
    if HasCapacity(g, cfg, g.callers[c].need) { ReserveQueue(g, c, h); }
  }

  lemma ConsiderQueue(g: Gw, cfg: Config, c: TaskId, ticketed: bool, extra: bool, v: Handle, h: Handle)
    requires c in g.callers && ChoicesOk(g, c, v, h) && (!ticketed ==> c !in g.pool.waiters)
    ensures QueueMove(g.pool.waiters, Consider(g, cfg, c, ticketed, extra, v, h).pool.waiters, c)
  {
    hide AtTurn, HasVictim, IsVictim, Admitted, TempBlocker, QueueMove, Exit, Park, BeginEvict, IsTurn;
    PiecesQueue(g, cfg, c, v, ticketed, extra);
    PiecesQueue(g, cfg, c, v, ticketed, true);
    AtTurnQueue(g, cfg, c, ticketed, extra || !TempBlocker(g, g.callers[c].model), v, h);
  }

  lemma GrantQueue(g: Gw, c: TaskId, h: Handle, retry: bool, pin: bool)
    requires c in g.callers && h in g.inst
    ensures Grant(g, c, h, pin).pool.waiters == Without(g.pool.waiters, c)
    ensures RefuseReady(g, c, h, retry).pool == g.pool
  {
    hide Without, Unlock;
  }

  lemma UseManagerQueue(g: Gw, c: TaskId, h: Handle, retry: bool, pin: bool)
    requires c in g.callers && h in g.inst
    ensures QueueMove(g.pool.waiters, UseManager(g, c, h, retry, pin).pool.waiters, c)
  {
    GrantQueue(g, c, h, retry, pin);
    hide Admitted, L.Apply, Without, Unlock, L.EnterOutcome, Grant, RefuseReady;
  }

  lemma UnderConditionQueue(g: Gw, cfg: Config, c: TaskId, v: Handle, h: Handle, retry: bool, pin: bool)
    requires c in g.callers && ChoicesOk(g, c, v, h) && Registered(g) && c !in g.pool.waiters
    ensures QueueMove(g.pool.waiters, UnderCondition(g, cfg, c, v, h, retry, pin).pool.waiters, c)
  {
    hide UseManager, Consider, ChoicesOk, QueueMove, Exit;
    PiecesQueue(g, cfg, c, v, false, false);
    if g.callers[c].model in g.pool.managers {
      UseManagerQueue(g, c, g.pool.managers[g.callers[c].model], retry, pin);
      assert QueueMove(g.pool.waiters, g.pool.waiters, c) by { SameQueue(g.pool.waiters, c); }
    } else if g.callers[c].need <= cfg.budget {
      ConsiderQueue(g, cfg, c, false, g.callers[c].attempt == 0, v, h);
    }
  }

  lemma SameQueue(q: seq<TaskId>, c: TaskId)
    ensures QueueMove(q, q, c)
  {
  }

  lemma EnterQueue(g: Gw, cfg: Config, c: TaskId, v: Handle, h: Handle, retry: bool, pin: bool)
    requires CanEnter(g, c, v, h, retry) && Registered(g) && c !in g.pool.waiters
    ensures QueueMove(g.pool.waiters, DoEnter(g, cfg, c, v, h, retry, pin).pool.waiters, c)
  {
    BeginChoices0(g, c, v, h);
    hide UnderCondition, Without, ChoicesOk, Unlock;
    var m := g.callers[c].model;
    if Admitted(g, m) && !ReadyNow(g, m) {
      UnderConditionQueue(Begin(g, c), cfg, c, v, h, retry, pin);
    }
  }

  lemma BeginChoices0(g: Gw, c: TaskId, v: Handle, h: Handle)
    requires c in g.callers && ChoicesOk(g, c, v, h)
    ensures g.callers[c].model in g.reg ==> ChoicesOk(Begin(g, c), c, v, h)
  {
  }

  lemma NoTicket(g: Gw, cfg: Config, c: TaskId)
    requires Inv(g, cfg) && !HoldsTicket(g.callers, c)
    ensures c !in g.pool.waiters
  {
  }

  lemma AdmissionQueue(g: Gw, cfg: Config, st: Step)
    requires Inv(g, cfg) && Enabled(g, st) && Registered(g) && AdmissionStep(st)
    ensures QueueMove(g.pool.waiters, Apply(g, cfg, st).pool.waiters, Actor(st))
  {
    hide Inv, DoEnter, CanEnter, CanGetCond, CanRecheckUnload, Consider, AtTurn, Registered, ChoicesOk, Without, UnderCondition,
      QueueMove, Unlock;
    hide DoArrive, DoTakeLock, DoEnterWait, CanEnterWait, DoRecheckUnload, DoResumeEviction, CanResumeEviction, Exit;
    match st
    case Arrive(c, m) => ArriveQueue(g, c, m);
    case TakeLock(c) => TakeLockQueue(g, c);
    case Enter(c, v, h, retry, pin) =>
      assert At(g, c, Entering) by { EnteringNow(g, c, v, h, retry); }
      NoTicket(g, cfg, c);
      EnterQueue(g, cfg, c, v, h, retry, pin);
    case EnterWait(c) => EnterWaitQueue(g, c);
    case GetCond(c, v, h, retry, pin) => GetCondQueue(g, cfg, c, v, h, retry, pin);
    case RecheckUnload(c, v, h, retry, pin) => RecheckUnloadQueue(g, cfg, c, v, h, retry, pin);
    case RecheckQueue(c, v, h) => ConsiderQueue(g, cfg, c, true, g.callers[c].pc.extraDone, v, h);
    case EvictionOver(c, v, h) => EvictionOverQueue(g, cfg, c, v, h);
    case GiveUp(c) => PiecesQueue(g, cfg, c, 0, true, false);
  }

  lemma ArriveQueue(g: Gw, c: TaskId, m: ModelId)
    ensures QueueMove(g.pool.waiters, DoArrive(g, c, m).pool.waiters, c)
  {
    hide QueueMove, Admitted;
    SameQueue(g.pool.waiters, c);
  }

  lemma TakeLockQueue(g: Gw, c: TaskId)
    requires At(g, c, WantLock)
    ensures QueueMove(g.pool.waiters, DoTakeLock(g, c).pool.waiters, c)
  {
    hide QueueMove;
    SameQueue(g.pool.waiters, c);
  }

  lemma EnterWaitQueue(g: Gw, c: TaskId)
    requires CanEnterWait(g, c)
    ensures QueueMove(g.pool.waiters, DoEnterWait(g, c).pool.waiters, c)
  {
    hide QueueMove, ReadyNow;
    SameQueue(g.pool.waiters, c);
  }

  lemma EnteringNow(g: Gw, c: TaskId, v: Handle, h: Handle, retry: bool)
    requires CanEnter(g, c, v, h, retry)
    ensures At(g, c, Entering)
  {
  }

  lemma GetCondQueue(g: Gw, cfg: Config, c: TaskId, v: Handle, h: Handle, retry: bool, pin: bool)
    requires Inv(g, cfg) && CanGetCond(g, c, v, h, retry) && Registered(g)
    ensures QueueMove(g.pool.waiters, UnderCondition(g, cfg, c, v, h, retry, pin).pool.waiters, c)
  {
    hide Inv, UnderCondition, ChoicesOk;
    NoTicket(g, cfg, c);
    UnderConditionQueue(g, cfg, c, v, h, retry, pin);
  }

  lemma RecheckUnloadQueue(g: Gw, cfg: Config, c: TaskId, v: Handle, h: Handle, retry: bool, pin: bool)
    requires Inv(g, cfg) && CanRecheckUnload(g, c, v, h, retry) && Registered(g)
    ensures QueueMove(g.pool.waiters, DoRecheckUnload(g, cfg, c, v, h, retry, pin).pool.waiters, c)
  {
    hide Inv, UnderCondition, Without, ChoicesOk, Unlock;
    NoTicket(g, cfg, c);
    if Admitted(g, g.callers[c].model) { UnderConditionQueue(g, cfg, c, v, h, retry, pin); }
  }

  lemma EvictionOverQueue(g: Gw, cfg: Config, c: TaskId, v: Handle, h: Handle)
    requires Inv(g, cfg) && CanResumeEviction(g, c, v, h)
    ensures QueueMove(g.pool.waiters, DoResumeEviction(g, cfg, c, v, h).pool.waiters, c)
  {
    var pc := g.callers[c].pc;
    if !pc.ticketed { NoTicket(g, cfg, c); }
    ResumedChoices(g, c, v, h);
    hide Inv, AtTurn, QueueMove, ChoicesOk;
    AtTurnQueue(Resumed(g, c), cfg, c, pc.ticketed, pc.extra, v, h);
  }

  function Mover(st: Step): TaskId {
    if AdmissionStep(st) then Actor(st)
    else match st
      case Wake(c, _, _) => c
      case LoadTimeout(c, _) => c
      case TimeoutOver(c, _) => c
      case Forget(c) => c
      case Cancel(c) => c
      case _ => 0
  }

  lemma WakeQueue(g: Gw, c: TaskId, retry: bool, pin: bool)
    requires CanWake(g, c, retry)
    ensures QueueMove(g.pool.waiters, DoWake(g, c, retry, pin).pool.waiters, c)
  {
    GrantQueue(g, c, g.callers[c].pc.h, retry, pin);
    hide Admitted, Without, MayRetry, Grant, RefuseReady;
  }

  lemma TimeOutQueue(g: Gw, c: TaskId, retry: bool)
    requires CanTimeOut(g, c, retry)
    ensures DoTimeOut(g, c, retry).pool == g.pool
  {
    hide L.BeginUnload, MayRetry;
  }

  lemma ForgetQueue(g: Gw, c: TaskId)
    requires CanForget(g, c)
    ensures QueueMove(g.pool.waiters, DoForget(g, c).pool.waiters, c)
  {
    hide Without, Exit, Release;
    ReleaseQueue(g.pool, g.callers[c].model, g.callers[c].pc.h);
    ExitQueueIs(g.(pool := Release(g.pool, g.callers[c].model, g.callers[c].pc.h).0), c);
  }

  lemma ReleaseQueue(p: Pool, m: ModelId, h: Handle)
    ensures Release(p, m, h).0.waiters == p.waiters
  {
  }

  lemma ExitQueueIs(g: Gw, c: TaskId)
    requires c in g.callers
    ensures Exit(g, c).pool.waiters == Without(g.pool.waiters, c)
  {
    hide Without, Unlock;
  }

  lemma ResumedPool(g: Gw, c: TaskId)
    requires c in g.callers && g.callers[c].pc.Evicting?
    ensures Resumed(g, c).pool == g.pool && Resumed(g, c).inst == g.inst && Resumed(g, c).callers.Keys == g.callers.Keys
  {
  }

  lemma CancelQueue(g: Gw, c: TaskId)
    requires CanCancel(g, c)
    ensures DoCancel(g, c).pool.waiters == Without(g.pool.waiters, c)
  {
    hide Without, Exit, Resumed, AbortUnload;
    var g1 := g.(cancelled := true);
    match g.callers[c].pc
    case Evicting(v, _, _) =>
      ResumedPool(g1, c);
      ExitQueueIs(SetSrv(Resumed(g1, c), v, AbortUnload(g.inst[v].srv)), c);
    case TimingOut(h) => ExitQueueIs(SetSrv(g1, h, AbortUnload(g.inst[h].srv)), c);
    case _ => ExitQueueIs(g1, c);
  }

  lemma InstanceQueue(g: Gw, cfg: Config, st: Step)
    requires Enabled(g, st) && Registered(g) && InstanceStep(st)
    ensures QueueMove(g.pool.waiters, Apply(g, cfg, st).pool.waiters, Mover(st))
  {
    hide Registered, Without, DoWake, DoTimeOut, DoForget, DoCancel, CanWake, CanTimeOut, CanForget, CanCancel;
    match st
    case Wake(c, retry, pin) => WakeQueue(g, c, retry, pin);
    case LoadTimeout(c, retry) => TimeOutQueue(g, c, retry);
    case TimeoutOver(c, retry) =>
    case Forget(c) => ForgetQueue(g, c);
    case Cancel(c) => CancelQueue(g, c);
  }

  lemma AdminExitQueue(g: Gw, a: TaskId)
    requires a in g.admins
    ensures AdminExit(g, a).pool.waiters == g.pool.waiters
  {
  }

  lemma AdminTakeLockQueue(g: Gw, a: TaskId)
    requires a in g.admins
    ensures DoAdminTakeLock(g, a).pool.waiters == g.pool.waiters
  {
    hide AdminExit;
    AdminExitQueue(g, a);
  }

  lemma AdminDecideQueue(g: Gw, a: TaskId)
    requires a in g.admins && Registered(g)
    ensures DoAdminDecide(g, a).pool.waiters == g.pool.waiters
  {
    hide AdminExit, L.BeginUnload;
    AdminExitQueue(g, a);
  }

  lemma AdminCancelQueue(g: Gw, a: TaskId)
    requires CanAdminCancel(g, a)
    ensures DoAdminCancel(g, a).pool.waiters == g.pool.waiters
  {
    hide AbortUnload, Unlock;
  }

  lemma ServerQueue(g: Gw, h: Handle, e: L.Event)
    requires h in g.inst && L.Enabled(g.inst[h].srv, e)
    ensures DoServer(g, h, e).pool.waiters == g.pool.waiters
  {
    hide L.Apply, L.Enabled;
  }

  lemma OtherQueue(g: Gw, cfg: Config, st: Step)
    requires Enabled(g, st) && Registered(g) && !InstanceStep(st) && !AdmissionStep(st)
    ensures Apply(g, cfg, st).pool.waiters == g.pool.waiters
  {
    hide Registered, AdminExit, DoAdminTakeLock, DoAdminDecide, DoAdminCancel, DoServer, CanAdminCancel, L.BeginUnload,
      L.Apply, L.Enabled, DoArrive, DoTakeLock, DoEnter, DoRecheckUnload, Consider, DoResumeEviction, Exit, DoWake, DoTimeOut,
      SetPc, DoForget, DoCancel, CanEnter, CanRecheckUnload, CanRecheckQueue, CanResumeEviction, CanGiveUp, CanWake,
      CanTimeOut, CanEndTimeout, CanForget, CanCancel, ServerEvent;
    match st
    case AdminTakeLock(a) => AdminTakeLockQueue(g, a);
    case AdminDecide(a) => AdminDecideQueue(g, a);
    case AdminOver(a) => AdminExitQueue(g, a);
    case AdminCancel(a) => AdminCancelQueue(g, a);
    case Server(h, e) => ServerQueue(g, h, e);
    case _ =>
  }

  lemma StepQueue(g: Gw, cfg: Config, st: Step)
    requires Inv(g, cfg) && Enabled(g, st) && Registered(g)
    ensures QueueMove(g.pool.waiters, Apply(g, cfg, st).pool.waiters, Mover(st))
  {
    hide Inv, Enabled, Apply, Registered;
    if AdmissionStep(st) { AdmissionQueue(g, cfg, st); }
    else if InstanceStep(st) { InstanceQueue(g, cfg, st); }
    else { OtherQueue(g, cfg, st); }
  }

  /** a is queued, and b is not, or stands behind a. */
  predicate Ahead(q: seq<TaskId>, a: TaskId, b: TaskId) {
    a in q && (b in q ==> Before(q, a, b))
  }

  lemma {:induction false} AppendedLast(q: seq<TaskId>, a: TaskId, t: TaskId)
    requires a in q
    ensures Before(q + [t], a, t)
  {
    assert (q + [t])[1..] == q[1..] + [t];
    if q[0] != a { AppendedLast(q[1..], a, t); }
  }

  lemma AheadStays(q: seq<TaskId>, q': seq<TaskId>, c: TaskId, a: TaskId, b: TaskId)
    requires NoDup(q) && Ahead(q, a, b) && QueueMove(q, q', c) && a in q' && a != b
    ensures Ahead(q', a, b)
  {
    if q' == Without(q, c) {
      WithoutKeepsOthers(q, c);
      if b in q' { WithoutKeepsOrder(q, c, a, b); }
    } else if q' == q + [c] {
      if b == c { AppendedLast(q, a, c); } else if b in q { AppendKeepsOrder(q, c, a, b); }
    }
  }

  lemma BehindIsNotHead(q: seq<TaskId>, a: TaskId, b: TaskId)
    requires NoDup(q) && Ahead(q, a, b) && a != b
    ensures q != [] && q[0] != b
  {
    if b == q[0] {
      assert Before(q, a, b);
      BeforeTail(q, a, b);
    }
  }

  lemma {:induction false} BeforeTail(q: seq<TaskId>, a: TaskId, b: TaskId)
    requires Before(q, a, b)
    ensures b in q[1..]
  {
    if !(q[0] == a && b in q[1..]) { BeforeTail(q[1..], a, b); }
  }

  lemma QueueDistinct(g: Gw, cfg: Config)
    requires Inv(g, cfg)
    ensures NoDup(g.pool.waiters)
  {
  }

  lemma {:induction false} AheadOverRun(trace: seq<Gw>, steps: seq<Step>, cfg: Config, i: nat, j: nat, a: TaskId, b: TaskId)
    requires Run(trace, steps, cfg) && Init(trace[0], cfg) && i <= j <= |steps| && a != b
    requires Ahead(trace[i].pool.waiters, a, b)
    requires forall k :: i <= k <= j ==> a in trace[k].pool.waiters
    ensures Ahead(trace[j].pool.waiters, a, b)
  {
    hide Inv, Init, Apply, Enabled, Registered, Ahead;
    if i < j {
      AheadOverRun(trace, steps, cfg, i, j - 1, a, b);
      InitHasInv(trace[0], cfg);
      RunKeepsInv(trace, steps, cfg, j - 1);
      assert trace[j - 1 + 1] == Apply(trace[j - 1], cfg, steps[j - 1]);
      StepQueue(trace[j - 1], cfg, steps[j - 1]);
      QueueDistinct(trace[j - 1], cfg);
      AheadStays(trace[j - 1].pool.waiters, trace[j].pool.waiters, Mover(steps[j - 1]), a, b);
    }
  }

  /** First come, first served: while a keeps its ticket, no caller that queued after it, or that
      has not queued yet, is given capacity, in any run. */
  lemma {:induction false} CapacityIsFifo(trace: seq<Gw>, steps: seq<Step>, cfg: Config, i: nat, j: nat, a: TaskId, b: TaskId)
    requires Run(trace, steps, cfg) && Init(trace[0], cfg) && i <= j < |steps| && a != b
    requires a in trace[i].pool.waiters && (b in trace[i].pool.waiters ==> Before(trace[i].pool.waiters, a, b))
    requires forall k :: i <= k <= j ==> a in trace[k].pool.waiters
    ensures !Launches(trace[j], trace[j + 1], b)
  {
    AheadOverRun(trace, steps, cfg, i, j, a, b);
    InitHasInv(trace[0], cfg);
    RunKeepsInv(trace, steps, cfg, j);
    QueueDistinct(trace[j], cfg);
    hide Inv, Init, Apply, Enabled, Registered, Ahead, Launches;
    BehindIsNotHead(trace[j].pool.waiters, a, b);
    if Launches(trace[j], trace[j + 1], b) {
      LaunchOnlyAtTurn(trace[j], cfg, steps[j], b);
    }
  }
}
