/** The eviction loop of _ensure_capacity ends, and late callbacks are harmless. */
module GatewayEviction {
  import opened GatewayPool
  import opened GatewaySystem
  import opened GatewayProofs
  import opened GatewayTheorems
  import opened GatewayAdmission
  import L = ServerLifecycle

  // ---------------------------------------------------------------- callbacks

  /** The callback of an instance, at the end of its unload or when it is found dead: a replaced
      instance changes nothing in the pool, the current one gives back exactly its own port. */
  lemma LateCallbackIsNoOp(g: Gw, cfg: Config, h: Handle, e: L.Event)
    requires Inv(g, cfg) && h in g.inst && L.Enabled(g.inst[h].srv, e) && (e.UnloadKilled? || e.CrashSeen?)
    ensures var m := g.inst[h].model; var p, p' := g.pool, DoServer(g, h, e).pool;
            if m in p.managers && p.managers[m] == h
            then p'.managers == p.managers - {m} && p'.ports == p.ports - {m} && p'.free == p.free + [g.inst[h].port]
            else p' == p
  {
    hide SrvInv, LockInv, WaitInv, AdminInv, GrantInv, QueueInv, RegInv, AttendedInv, L.Apply, L.Enabled;
  }

  // ---------------------------------------------------------------- the other callers

  lemma UseManagerOthers(g: Gw, c: TaskId, h: Handle, retry: bool, pin: bool)
    requires c in g.callers && h in g.inst
    ensures OthersStay(g, UseManager(g, c, h, retry, pin), c)
  {
    hide Admitted, L.Apply, L.EnterOutcome, Grant, RefuseReady;
    GrantOthers(g, c, h, retry, pin);
  }

  lemma GrantOthers(g: Gw, c: TaskId, h: Handle, retry: bool, pin: bool)
    requires c in g.callers && h in g.inst
    ensures OthersStay(g, Grant(g, c, h, pin), c) && OthersStay(g, RefuseReady(g, c, h, retry), c)
  {
    hide Without, Unlock;
  }

  lemma ExitOthers(g: Gw, c: TaskId)
    requires c in g.callers
    ensures OthersStay(g, Exit(g, c), c)
  {
    hide Without, Unlock;
  }

  lemma UnderConditionOthers(g: Gw, cfg: Config, c: TaskId, v: Handle, h: Handle, retry: bool, pin: bool)
    requires c in g.callers && ChoicesOk(g, c, v, h) && Registered(g)
    ensures OthersStay(g, UnderCondition(g, cfg, c, v, h, retry, pin), c)
  {
    hide UseManager, Consider, ChoicesOk, Exit;
    ExitOthers(g, c);
    if g.callers[c].model in g.pool.managers {
      UseManagerOthers(g, c, g.pool.managers[g.callers[c].model], retry, pin);
    } else {
      ConsiderOthers(g, cfg, c, false, g.callers[c].attempt == 0, v, h);
    }
  }

  lemma EnterOthers(g: Gw, cfg: Config, c: TaskId, v: Handle, h: Handle, retry: bool, pin: bool)
    requires CanEnter(g, c, v, h, retry) && Registered(g)
    ensures OthersStay(g, DoEnter(g, cfg, c, v, h, retry, pin), c)
  {
    hide UnderCondition, ChoicesOk, Exit, Grant;
    BeginChoices0(g, c, v, h);
    ExitOthers(g, c);
    var m := g.callers[c].model;
    if Admitted(g, m) {
      if ReadyNow(g, m) { GrantOthers(g, c, g.pool.managers[m], retry, pin); }
      else { UnderConditionOthers(Begin(g, c), cfg, c, v, h, retry, pin); }
    }
  }

  lemma GetCondOthers(g: Gw, cfg: Config, c: TaskId, v: Handle, h: Handle, retry: bool, pin: bool)
    requires CanGetCond(g, c, v, h, retry) && Registered(g)
    ensures OthersStay(g, UnderCondition(g, cfg, c, v, h, retry, pin), c)
  {
    hide UnderCondition, ChoicesOk, OthersStay;
    UnderConditionOthers(g, cfg, c, v, h, retry, pin);
  }

  lemma RecheckUnloadOthers(g: Gw, cfg: Config, c: TaskId, v: Handle, h: Handle, retry: bool, pin: bool)
    requires CanRecheckUnload(g, c, v, h, retry) && Registered(g)
    ensures OthersStay(g, DoRecheckUnload(g, cfg, c, v, h, retry, pin), c)
  {
    hide UnderCondition, ChoicesOk, Exit, OthersStay;
    ExitOthers(g, c);
    UnderConditionOthers(g, cfg, c, v, h, retry, pin);
  }

  lemma EvictionOverOthers(g: Gw, cfg: Config, c: TaskId, v: Handle, h: Handle)
    requires CanResumeEviction(g, c, v, h)
    ensures OthersStay(g, DoResumeEviction(g, cfg, c, v, h), c)
  {
    var pc := g.callers[c].pc;
    ResumedChoices(g, c, v, h);
    hide AtTurn, ChoicesOk;
    AtTurnOthers(Resumed(g, c), cfg, c, pc.ticketed, pc.extra, v, h);
  }

  lemma AdmissionOthers(g: Gw, cfg: Config, st: Step)
    requires Enabled(g, st) && Registered(g) && AdmissionStep(st) && !st.EnterWait?
    ensures OthersStay(g, Apply(g, cfg, st), Actor(st))
  {
    hide DoEnter, CanEnter, CanGetCond, UnderCondition, DoRecheckUnload, CanRecheckUnload, DoResumeEviction, CanResumeEviction, Consider, Registered, ChoicesOk, Exit;
    match st
    case Arrive(c, m) =>
    case TakeLock(c) =>
    case Enter(c, v, h, retry, pin) => EnterOthers(g, cfg, c, v, h, retry, pin);
    case GetCond(c, v, h, retry, pin) => GetCondOthers(g, cfg, c, v, h, retry, pin);
    case RecheckUnload(c, v, h, retry, pin) => RecheckUnloadOthers(g, cfg, c, v, h, retry, pin);
    case RecheckQueue(c, v, h) => ConsiderOthers(g, cfg, c, true, g.callers[c].pc.extraDone, v, h);
    case EvictionOver(c, v, h) => EvictionOverOthers(g, cfg, c, v, h);
    case GiveUp(c) => ExitOthers(g, c);
  }

  lemma WakeOthers(g: Gw, c: TaskId, retry: bool, pin: bool)
    requires CanWake(g, c, retry)
    ensures OthersStay(g, DoWake(g, c, retry, pin), c)
  {
    hide Admitted, Grant, MayRetry, RefuseReady;
    GrantOthers(g, c, g.callers[c].pc.h, retry, pin);
  }

  lemma TimeOutOthers(g: Gw, c: TaskId, retry: bool)
    requires CanTimeOut(g, c, retry)
    ensures OthersStay(g, DoTimeOut(g, c, retry), c)
  {
    hide L.BeginUnload, MayRetry;
  }

  lemma ForgetOthers(g: Gw, c: TaskId)
    requires CanForget(g, c)
    ensures OthersStay(g, DoForget(g, c), c)
  {
    hide Release, SecondAttempt, Exit;
    var caller := g.callers[c];
    var g1 := g.(pool := Release(g.pool, caller.model, caller.pc.h).0);
    if caller.pc.retry { SecondAttemptOthers(g1, c); } else { ExitLeaves(g1, c); }
  }

  lemma SecondAttemptOthers(g: Gw, c: TaskId)
    requires c in g.callers
    ensures OthersStay(g, SecondAttempt(g, c), c)
  {
  }

  lemma CancelOthers(g: Gw, c: TaskId)
    requires CanCancel(g, c)
    ensures OthersStay(g, DoCancel(g, c), c) && (g.callers[c].pc.Evicting? ==> DoCancel(g, c).cond == None)
  {
    hide AbortUnload, Resumed, SetSrv, Exit;
    var g1 := g.(cancelled := true);
    match g.callers[c].pc
    case Evicting(v, _, _) =>
      ResumedCaller(g1, c);
      SetSrvCallers(Resumed(g1, c), v, AbortUnload(g.inst[v].srv));
      ExitLeaves(SetSrv(Resumed(g1, c), v, AbortUnload(g.inst[v].srv)), c);
    case TimingOut(h) =>
      SetSrvCallers(g1, h, AbortUnload(g.inst[h].srv));
      ExitLeaves(SetSrv(g1, h, AbortUnload(g.inst[h].srv)), c);
    case _ => ExitLeaves(g1, c);
  }

  lemma ExitLeaves(g: Gw, c: TaskId)
    requires c in g.callers
    ensures Exit(g, c).callers == g.callers - {c} && Exit(g, c).cond == g.cond
  {
    hide Without, Unlock;
  }

  lemma SetSrvCallers(g: Gw, h: Handle, s: L.Server)
    requires h in g.inst
    ensures SetSrv(g, h, s).callers == g.callers && SetSrv(g, h, s).cond == g.cond
  {
  }

  lemma ResumedCaller(g: Gw, c: TaskId)
    requires c in g.callers && g.callers[c].pc.Evicting?
    ensures c in Resumed(g, c).callers && Resumed(g, c).inst == g.inst && Resumed(g, c).cond == None
    ensures forall d :: d != c && d in Resumed(g, c).callers ==> d in g.callers && Resumed(g, c).callers[d] == g.callers[d]
  {
  }

  lemma InstanceOthers(g: Gw, cfg: Config, st: Step)
    requires Enabled(g, st) && Registered(g) && InstanceStep(st)
    ensures OthersStay(g, Apply(g, cfg, st), Mover(st))
  {
    hide Registered, DoWake, DoTimeOut, DoForget, DoCancel, CanWake, CanTimeOut, CanForget, CanCancel;
    match st
    case Wake(c, retry, pin) => WakeOthers(g, c, retry, pin);
    case LoadTimeout(c, retry) => TimeOutOthers(g, c, retry);
    case TimeoutOver(c, retry) =>
    case Forget(c) => ForgetOthers(g, c);
    case Cancel(c) => CancelOthers(g, c);
  }

  lemma AdminCallers(g: Gw, a: TaskId)
    requires a in g.admins && Registered(g)
    ensures AdminExit(g, a).callers == g.callers && DoAdminTakeLock(g, a).callers == g.callers
    ensures DoAdminDecide(g, a).callers == g.callers
  {
    hide L.BeginUnload, Unlock;
  }

  lemma AdminCancelCallers(g: Gw, a: TaskId)
    requires CanAdminCancel(g, a)
    ensures DoAdminCancel(g, a).callers == g.callers
  {
    hide AbortUnload, Unlock;
  }

  lemma ServerCallers(g: Gw, h: Handle, e: L.Event)
    requires h in g.inst && L.Enabled(g.inst[h].srv, e)
    ensures DoServer(g, h, e).callers == g.callers
  {
    hide L.Apply, L.Enabled, Release;
  }

  lemma OtherCallers(g: Gw, cfg: Config, st: Step)
    requires Enabled(g, st) && Registered(g) && !InstanceStep(st) && !AdmissionStep(st)
    ensures Apply(g, cfg, st).callers == g.callers
  {
    hide Registered, AdminExit, DoAdminTakeLock, DoAdminDecide, DoAdminCancel, DoServer, CanAdminCancel, L.BeginUnload, L.Apply, L.Enabled;
    match st
    case AdminTakeLock(a) => AdminCallers(g, a);
    case AdminDecide(a) => AdminCallers(g, a);
    case AdminOver(a) => AdminCallers(g, a);
    case AdminCancel(a) => AdminCancelCallers(g, a);
    case Server(h, e) => ServerCallers(g, h, e);
    case _ =>
  }

  // ---------------------------------------------------------------- the loop

  /** c holds the condition while its victim is being unloaded. */
  predicate InEviction(g: Gw, c: TaskId) {
    g.cond == Some(c) && c in g.callers && g.callers[c].pc.Evicting?
  }

  /** The registered managers, without the victim that is on its way out. */
  function Remaining(g: Gw, c: TaskId): set<ModelId>
    requires InEviction(g, c)
  {
    set m | m in g.pool.managers && g.pool.managers[m] != g.callers[c].pc.victim
  }

  lemma EvictingMoves(g: Gw, cfg: Config, st: Step, c: TaskId)
    requires Enabled(g, st) && Registered(g) && InEviction(g, c)
    requires (AdmissionStep(st) || InstanceStep(st)) && Mover(st) == c && !st.EvictionOver?
    ensures st.Cancel?
  {
    hide ChoicesOk, Registered, MayRetry;
  }

  lemma RemainingShrinks(g: Gw, g': Gw, c: TaskId)
    requires Quiet(g, g') && InEviction(g, c) && InEviction(g', c) && g'.callers[c] == g.callers[c]
    ensures Remaining(g', c) <= Remaining(g, c)
  {
  }

  lemma EnterWaitOthers(g: Gw, c: TaskId, d: TaskId)
    requires CanEnterWait(g, c) && c != d && d in DoEnterWait(g, c).callers
    ensures d in g.callers && DoEnterWait(g, c).callers[d] == g.callers[d]
  {
  }

  /** Nobody moves another caller. */
  lemma CallerStays(g: Gw, cfg: Config, st: Step, c: TaskId)
    requires Enabled(g, st) && Registered(g) && (AdmissionStep(st) || InstanceStep(st) ==> Mover(st) != c)
    requires c in Apply(g, cfg, st).callers
    ensures c in g.callers && Apply(g, cfg, st).callers[c] == g.callers[c]
  {
    if st.EnterWait? {
      hide CanEnterWait, DoEnterWait;
      EnterWaitOthers(g, st.c, c);
    } else {
      hide Enabled, Apply, Registered;
      if AdmissionStep(st) { AdmissionOthers(g, cfg, st); }
      else if InstanceStep(st) { InstanceOthers(g, cfg, st); }
      else { OtherCallers(g, cfg, st); }
    }
  }

  lemma CancelledLeaves(g: Gw, cfg: Config, st: Step, c: TaskId)
    requires Enabled(g, st) && Registered(g) && InEviction(g, c) && st.Cancel? && st.c == c
    ensures !InEviction(Apply(g, cfg, st), c)
  {
    CancelOthers(g, c);
    hide DoCancel, CanCancel;
  }

  lemma NoLaunchMeanwhile(g: Gw, cfg: Config, g': Gw, c: TaskId, d: TaskId)
    requires InEviction(g, c) && d != c && Effect(g, cfg, g', d)
    ensures Quiet(g, g')
  {
    hide LoopEffect, OthersStay, Quiet;
  }

  /** Whatever happens while the victim is unloaded (loads finish, pins come and go, managers crash),
      no manager is added. */
  lemma MeanwhileNothingIsAdded(g: Gw, cfg: Config, st: Step, c: TaskId)
    requires Inv(g, cfg) && Enabled(g, st) && Registered(g) && InEviction(g, c)
    requires InEviction(Apply(g, cfg, st), c) && !(st.EvictionOver? && st.c == c)
    ensures Remaining(Apply(g, cfg, st), c) <= Remaining(g, c)
  {
    hide Inv, Enabled, Apply, Registered, Effect, Quiet, OthersStay;
    StepEffect(g, cfg, st);
    var g' := Apply(g, cfg, st);
    if AdmissionStep(st) || InstanceStep(st) {
      var d := Mover(st);
      if d == c {
        EvictingMoves(g, cfg, st, c);
        CancelledLeaves(g, cfg, st, c);
      } else {
        if AdmissionStep(st) { NoLaunchMeanwhile(g, cfg, g', c, d); }
        CallerStays(g, cfg, st, c);
        RemainingShrinks(g, g', c);
      }
    } else {
      OtherCallers(g, cfg, st);
      RemainingShrinks(g, g', c);
    }
  }

  lemma ReserveReleases(r: Gw, c: TaskId, h: Handle)
    requires c in r.callers && r.pool.free != [] && r.cond == None
    ensures Reserve(r, c, h).cond == None
  {
    hide Admitted, Exit, Launch, TicketGone;
    ExitLeaves(r, c);
    LaunchKeepsCond(r, c, h);
  }

  lemma LaunchKeepsCond(r: Gw, c: TaskId, h: Handle)
    requires c in r.callers && r.pool.free != []
    ensures c in TicketGone(r, c).callers && TicketGone(r, c).pool.free == r.pool.free
    ensures Launch(TicketGone(r, c), c, h).cond == r.cond
  {
    hide L.Apply, Without, Register;
  }

  lemma ParkReleases(r: Gw, cfg: Config, c: TaskId, ticketed: bool, extra: bool)
    requires c in r.callers && r.cond == None
    ensures Park(r, cfg, c, ticketed, extra).cond == None
  {
    hide Without, Unlock;
  }

  lemma EvictBranch(r: Gw, cfg: Config, c: TaskId, ticketed: bool, extra: bool, v: Handle, h: Handle)
    requires c in r.callers && r.cond == None && ChoicesOk(r, c, v, h)
    requires AtTurn(r, cfg, c, ticketed, extra, v, h).cond != None
    ensures !HasCapacity(r, cfg, r.callers[c].need) && HasVictim(r, r.callers[c].model)
    ensures AtTurn(r, cfg, c, ticketed, extra, v, h) == BeginEvict(r, c, v, ticketed, extra)
  {
    hide HasVictim, IsVictim, Used, Reserve, Park, BeginEvict;
    if HasCapacity(r, cfg, r.callers[c].need) { ReserveReleases(r, c, h); }
    ParkReleases(r, cfg, c, ticketed, extra);
  }

  lemma ResumedSame(g: Gw, cfg: Config, c: TaskId)
    requires c in g.callers && g.callers[c].pc.Evicting?
    ensures var r := Resumed(g, c);
            && c in r.callers && r.cond == None && r.pool == g.pool && r.inst == g.inst
            && r.callers[c].need == g.callers[c].need && r.callers[c].model == g.callers[c].model
            && (HasCapacity(r, cfg, g.callers[c].need) <==> HasCapacity(g, cfg, g.callers[c].need))
            && (HasVictim(r, g.callers[c].model) <==> HasVictim(g, g.callers[c].model))
            && forall v :: IsVictim(r, g.callers[c].model, v) <==> IsVictim(g, g.callers[c].model, v)
  {
  }

  lemma EvictedOne(r: Gw, c: TaskId, v: Handle, ticketed: bool, extra: bool)
    requires c in r.callers && v in r.inst && v in r.pool.managers.Values
    ensures var g' := BeginEvict(r, c, v, ticketed, extra);
            && InEviction(g', c) && g'.callers[c].pc.victim == v && Remaining(g', c) < r.pool.managers.Keys
  {
    hide L.BeginUnload;
    var m :| m in r.pool.managers && r.pool.managers[m] == v;
    assert m !in Remaining(BeginEvict(r, c, v, ticketed, extra), c);
  }

  /** When its unload is over, the victim has left the pool. */
  lemma VictimIsGone(g: Gw, cfg: Config, c: TaskId, v: Handle, h: Handle)
    requires Inv(g, cfg) && CanResumeEviction(g, c, v, h)
    ensures InEviction(g, c) && Remaining(g, c) == g.pool.managers.Keys
  {
    hide Inv, ChoicesOk;
    CallerFacts(g, cfg, c);
  }

  /** An eviction is over: the loop stops exactly when there is room or nothing left to evict;
      otherwise it goes on with the least recently used READY model without requests, and one
      manager fewer remains. */
  lemma EvictionLoop(g: Gw, cfg: Config, c: TaskId, v: Handle, h: Handle)
    requires Inv(g, cfg) && CanResumeEviction(g, c, v, h)
    ensures var m, g' := g.callers[c].model, DoResumeEviction(g, cfg, c, v, h);
            if HasCapacity(g, cfg, g.callers[c].need) || !HasVictim(g, m) then g'.cond == None
            else InEviction(g, c) && InEviction(g', c) && IsVictim(g, m, g'.callers[c].pc.victim)
                 && Remaining(g', c) < Remaining(g, c)
  {
    hide Inv;
    ResumedSame(g, cfg, c);
    ResumedChoices(g, c, v, h);
    VictimIsGone(g, cfg, c, v, h);
    var r, pc := Resumed(g, c), g.callers[c].pc;
    hide HasCapacity, Reserve, Park, Resumed, BeginEvict, HasVictim, IsVictim;
    if DoResumeEviction(g, cfg, c, v, h).cond != None {
      EvictBranch(r, cfg, c, pc.ticketed, pc.extra, v, h);
    }
    if !HasCapacity(g, cfg, g.callers[c].need) && HasVictim(g, g.callers[c].model) {
      VictimFacts(r, g.callers[c].model, v);
      EvictedOne(r, c, v, pc.ticketed, pc.extra);
    }
  }

  // ---------------------------------------------------------------- whole runs

  /** How often c has finished an eviction in steps[i..j]. */
  function Evictions(steps: seq<Step>, i: nat, j: nat, c: TaskId): nat
    requires i <= j <= |steps|
    decreases j - i
  {
    if i == j then 0
    else Evictions(steps, i, j - 1, c) + if steps[j - 1].EvictionOver? && steps[j - 1].c == c then 1 else 0
  }

  lemma SubsetSize(a: set<ModelId>, b: set<ModelId>)
    requires a <= b
    ensures |a| <= |b| && (a != b ==> |a| < |b|)
  {
    assert b == a + (b - a);
    if a != b { assert b - a != {}; }
  }

  /** The eviction loop of a caller ends: however the other coroutines interleave with it, it evicts
      at most once for every manager that was registered when it started. */
  lemma {:induction false} EvictionsAreBounded(trace: seq<Gw>, steps: seq<Step>, cfg: Config, i: nat, j: nat, c: TaskId)
    requires Run(trace, steps, cfg) && Init(trace[0], cfg) && i <= j <= |steps|
    requires forall k :: i <= k <= j ==> InEviction(trace[k], c)
    ensures Evictions(steps, i, j, c) + |Remaining(trace[j], c)| <= |Remaining(trace[i], c)|
    decreases j - i
  {
    hide Inv, Init, Apply, Enabled, Registered, Remaining, InEviction;
    if i < j {
      EvictionsAreBounded(trace, steps, cfg, i, j - 1, c);
      InitHasInv(trace[0], cfg);
      RunKeepsInv(trace, steps, cfg, j - 1);
      assert trace[j - 1 + 1] == Apply(trace[j - 1], cfg, steps[j - 1]);
      EvictionStep(trace[j - 1], cfg, steps[j - 1], c);
      SubsetSize(Remaining(trace[j], c), Remaining(trace[j - 1], c));
    }
  }

  lemma EvictionStep(g: Gw, cfg: Config, st: Step, c: TaskId)
    requires Inv(g, cfg) && Enabled(g, st) && Registered(g) && InEviction(g, c) && InEviction(Apply(g, cfg, st), c)
    ensures Remaining(Apply(g, cfg, st), c) <= Remaining(g, c)
    ensures st.EvictionOver? && st.c == c ==> Remaining(Apply(g, cfg, st), c) != Remaining(g, c)
  {
    if st.EvictionOver? && st.c == c {
      hide Inv, Remaining, DoResumeEviction, CanResumeEviction, Registered, HasCapacity, HasVictim, IsVictim;
      EvictionLoop(g, cfg, c, st.v, st.h);
    } else {
      hide Inv, Enabled, Apply, Registered, Remaining, InEviction;
      MeanwhileNothingIsAdded(g, cfg, st, c);
    }
  }
}
