/** The gateway pool over whole runs. */
module GatewayTheorems {
  import opened Sums
  import opened GatewayPool
  import opened GatewaySystem
  import opened GatewayProofs
  import L = ServerLifecycle

  /** The steps of a caller before it has an instance. */
  predicate AdmissionStep(st: Step) {
    st.Arrive? || st.TakeLock? || st.Enter? || st.EnterWait? || st.GetCond? || st.RecheckUnload? || st.RecheckQueue? || st.EvictionOver? || st.GiveUp?
  }

  /** The steps of a caller that has one. */
  predicate InstanceStep(st: Step) {
    st.Wake? || st.LoadTimeout? || st.TimeoutOver? || st.Forget? || st.Cancel?
  }

  lemma AdmissionStepKeeps(g: Gw, cfg: Config, st: Step)
    requires Inv(g, cfg) && Enabled(g, st) && Registered(g) && AdmissionStep(st)
    ensures Inv(Apply(g, cfg, st), cfg)
  {
    hide Inv, DoArrive, DoTakeLock, DoEnter, DoRecheckUnload, Consider, DoResumeEviction, Exit, DoWake, DoTimeOut,
      SetPc, DoForget, DoCancel, DoAdminTakeLock, DoAdminDecide, AdminExit, DoAdminCancel, SetSrv, DoServer,
      CanEnter, CanEnterWait, DoEnterWait, CanGetCond, UnderCondition, CanRecheckUnload, CanResumeEviction, CanWake, CanTimeOut, CanCancel, CanAdminCancel, Registered;
    match st
    case Arrive(c, m) => ArriveKeeps(g, cfg, c, m);
    case TakeLock(c) => TakeLockKeeps(g, cfg, c);
    case Enter(c, v, h, retry, pin) => EnterKeeps(g, cfg, c, v, h, retry, pin);
    case EnterWait(c) => EnterWaitKeeps(g, cfg, c);
    case GetCond(c, v, h, retry, pin) => GetCondKeeps(g, cfg, c, v, h, retry, pin);
    case RecheckUnload(c, v, h, retry, pin) => RecheckUnloadKeeps(g, cfg, c, v, h, retry, pin);
    case RecheckQueue(c, v, h) => RecheckQueueKeeps(g, cfg, c, v, h);
    case EvictionOver(c, v, h) => ResumeEvictionKeeps(g, cfg, c, v, h);
    case GiveUp(c) => ExitKeeps(g, cfg, c);
  }

  lemma InstanceStepKeeps(g: Gw, cfg: Config, st: Step)
    requires Inv(g, cfg) && Enabled(g, st) && Registered(g) && InstanceStep(st)
    ensures Inv(Apply(g, cfg, st), cfg)
  {
    hide Inv, DoArrive, DoTakeLock, DoEnter, DoRecheckUnload, Consider, DoResumeEviction, Exit, DoWake, DoTimeOut,
      SetPc, DoForget, DoCancel, DoAdminTakeLock, DoAdminDecide, AdminExit, DoAdminCancel, SetSrv, DoServer,
      CanEnter, CanEnterWait, DoEnterWait, CanGetCond, UnderCondition, CanRecheckUnload, CanResumeEviction, CanWake, CanTimeOut, CanCancel, CanAdminCancel, Registered;
    match st
    case Wake(c, retry, pin) => WakeKeeps(g, cfg, c, retry, pin);
    case LoadTimeout(c, retry) => TimeOutKeeps(g, cfg, c, retry);
    case TimeoutOver(c, retry) => EndTimeoutKeeps(g, cfg, c, retry);
    case Forget(c) => ForgetKeeps(g, cfg, c);
    case Cancel(c) => CancelKeeps(g, cfg, c);
  }

  lemma OtherStepKeeps(g: Gw, cfg: Config, st: Step)
    requires Inv(g, cfg) && Enabled(g, st) && Registered(g) && !AdmissionStep(st) && !InstanceStep(st)
    ensures Inv(Apply(g, cfg, st), cfg)
  {
    hide Inv, DoArrive, DoTakeLock, DoEnter, DoRecheckUnload, Consider, DoResumeEviction, Exit, DoWake, DoTimeOut,
      SetPc, DoForget, DoCancel, DoAdminTakeLock, DoAdminDecide, AdminExit, DoAdminCancel, SetSrv, DoServer,
      CanEnter, CanEnterWait, DoEnterWait, CanGetCond, UnderCondition, CanRecheckUnload, CanResumeEviction, CanWake, CanTimeOut, CanCancel, CanAdminCancel, Registered;
    match st
    case AdminArrive(a, m, force) => AdminArriveKeeps(g, cfg, a, m, force);
    case AdminTakeLock(a) => AdminTakeLockKeeps(g, cfg, a);
    case AdminDecide(a) => AdminDecideKeeps(g, cfg, a);
    case AdminOver(a) => AdminExitKeeps(g, cfg, a);
    case AdminCancel(a) => AdminCancelKeeps(g, cfg, a);
    case UnloadAll(h) => BeginUnloadKeeps(g, cfg, h);
    case Server(h, e) => ServerKeeps(g, cfg, h, e);
    case IdleUnload(h) => BeginUnloadKeeps(g, cfg, h);
    case PinMore(h) => PinKeeps(g, cfg, h);
    case Unpin(h) => UnpinKeeps(g, cfg, h);
    case SetBlocked(m, on) => BlockedKeeps(g, cfg, if on then g.pool.blocked + {m} else g.pool.blocked - {m});
    case SetRegistry(reg) => RegistryKeeps(g, cfg, reg);
    case Measure(free) => MeasureKeeps(g, cfg, free);
    case Tick => MeasureKeeps(g, cfg, g.measured);
  }

  lemma StepKeepsInv(g: Gw, cfg: Config, st: Step)
    requires Inv(g, cfg) && Enabled(g, st)
    ensures Registered(g) && Inv(Apply(g, cfg, st), cfg)
  {
    hide Inv, Apply, Enabled;
    IsRegistered(g, cfg);
    if AdmissionStep(st) {
      AdmissionStepKeeps(g, cfg, st);
    } else if InstanceStep(st) {
      InstanceStepKeeps(g, cfg, st);
    } else {
      OtherStepKeeps(g, cfg, st);
    }
  }

  lemma IsRegistered(g: Gw, cfg: Config)
    requires Inv(g, cfg)
    ensures Registered(g)
  {
    hide PortsPartition, SrvInv, LockInv, WaitInv, AdminInv, GrantInv, QueueInv, RegInv, AttendedInv;
  }

  lemma EndTimeoutKeeps(g: Gw, cfg: Config, c: TaskId, retry: bool)
    requires Inv(g, cfg) && CanEndTimeout(g, c, retry)
    ensures Inv(SetPc(g, c, Forgetting(g.callers[c].pc.h, retry)), cfg)
  {
    hide Inv;
    CallerFacts(g, cfg, c);
    SetPcKeeps(g, cfg, c, Forgetting(g.callers[c].pc.h, retry));
  }

  /** The states of a run: trace[i + 1] comes from trace[i] by steps[i]. */
  ghost predicate Run(trace: seq<Gw>, steps: seq<Step>, cfg: Config) {
    && |trace| == |steps| + 1
    && forall i :: 0 <= i < |steps| ==>
         Enabled(trace[i], steps[i]) && Registered(trace[i]) && trace[i + 1] == Apply(trace[i], cfg, steps[i])
  }

  lemma {:induction false} RunKeepsInv(trace: seq<Gw>, steps: seq<Step>, cfg: Config, k: nat)
    requires Run(trace, steps, cfg) && Inv(trace[0], cfg) && k <= |steps|
    ensures Inv(trace[k], cfg)
  {
    hide Inv, Apply, Enabled;
    if k > 0 {
      RunKeepsInv(trace, steps, cfg, k - 1);
      StepKeepsInv(trace[k - 1], cfg, steps[k - 1]);
      assert trace[k - 1 + 1] == Apply(trace[k - 1], cfg, steps[k - 1]);
    }
  }

  /** In every state of every run of the gateway: free and allocated ports partition the initial
      range without duplicates, managers and allocations have the same keys, every registered
      instance serves the model and the port it is registered under, and the queue is bounded. */
  lemma {:induction false} AllocatorSafety(trace: seq<Gw>, steps: seq<Step>, cfg: Config, k: nat)
    requires Run(trace, steps, cfg) && Init(trace[0], cfg) && k <= |steps|
    ensures PortsPartition(trace[k].pool, cfg.range)
    ensures forall m :: m in trace[k].pool.managers ==>
              var h := trace[k].pool.managers[m];
              h in trace[k].inst && trace[k].inst[h].model == m && trace[k].inst[h].port == trace[k].pool.ports[m]
    ensures NoDup(trace[k].pool.waiters) && |trace[k].pool.waiters| <= cfg.maxWaiters
    ensures forall c :: c in trace[k].pool.waiters ==> HoldsTicket(trace[k].callers, c)
    ensures forall h :: h in trace[k].inst && trace[k].inst[h].srv.state == L.Ready ==> trace[k].inst[h].srv.proc != L.NoProcess
  {
    InitHasInv(trace[0], cfg);
    RunKeepsInv(trace, steps, cfg, k);
  }
}
