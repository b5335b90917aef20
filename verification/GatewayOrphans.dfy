/** When an instance outlives its place in the pool, so that its port comes back under a process. */
module GatewayOrphans {
  import opened Sums
  import opened GatewayPool
  import opened GatewaySystem
  import opened GatewayProofs
  import opened GatewayTheorems
  import opened GatewayAdmission
  import opened GatewayDecisions
  import opened GatewayService
  import P = GatewayPins
  import E = GatewayEviction
  import L = ServerLifecycle

  /** h has left the pool although it is not UNLOADED. */
  predicate Orphan(g: Gw, h: Handle) { h in g.inst && g.inst[h].srv.state != L.Unloaded && !BeingManager(g, h, g.inst[h].model) }

  /** The step in which a caller forgets the manager h although it is not UNLOADED. */
  predicate Abandons(g: Gw, st: Step, h: Handle) {
    && st.Forget? && st.c in g.callers && g.callers[st.c].pc.Forgetting? && g.callers[st.c].pc.h == h
    && h in g.inst && BeingManager(g, h, g.inst[h].model) && g.inst[h].srv.state != L.Unloaded
  }

  // ---------------------------------------------------------------- steps that remove no manager

  ghost predicate Kept(g: Gw, g': Gw) {
    forall m :: m in g.pool.managers ==> m in g'.pool.managers && g'.pool.managers[m] == g.pool.managers[m]
  }

  lemma TurnKeeps(g: Gw, cfg: Config, g': Gw, c: TaskId, need: real, ticketed: bool, done: bool, h: Handle)
    requires c in g.callers && TurnDecided(g, cfg, g', c, need, ticketed, done, h)
    ensures Kept(g, g')
  {
    hide Room, IdleOther, BusyOther, Admitted, LeastRecent, Without, L.BeginUnload;
  }

  lemma DecidedKeeps(g: Gw, cfg: Config, g': Gw, c: TaskId, need: real, ticketed: bool, done: bool, h: Handle)
    requires c in g.callers && Decided(g, cfg, g', c, need, ticketed, done, h)
    ensures Kept(g, g')
  {
    hide TurnDecided, Admitted, Without, Kept;
    LeavesKeeps(g, g', c);
    ParksKeeps(g, cfg, g', c, need, ticketed, done);
    if TurnDecided(g, cfg, g', c, need, ticketed, done, h) { TurnKeeps(g, cfg, g', c, need, ticketed, done, h); }
  }

  lemma LeavesKeeps(g: Gw, g': Gw, c: TaskId)
    requires c in g.callers
    ensures Leaves(g, g', c) ==> Kept(g, g')
  {
    hide Without;
  }

  lemma ParksKeeps(g: Gw, cfg: Config, g': Gw, c: TaskId, need: real, ticketed: bool, done: bool)
    requires c in g.callers
    ensures Parks(g, cfg, g', c, need, ticketed, done) ==> Kept(g, g')
  {
    hide Without;
  }

  lemma NewcomerKeeps(g: Gw, cfg: Config, g': Gw, c: TaskId, need: real, h: Handle)
    requires c in g.callers && Newcomer(g, cfg, g', c, need, h)
    ensures Kept(g, g')
  {
    hide Decided, Leaves, Kept;
    LeavesKeeps(g, g', c);
    if need <= cfg.budget { DecidedKeeps(g, cfg, g', c, need, false, g.callers[c].attempt == 0, h); }
  }

  lemma FindsKeeps(g: Gw, cfg: Config, g': Gw, c: TaskId, need: real, k: Handle, retry: bool, pin: bool)
    requires c in g.callers && k in g.inst && L.Inv(g.inst[k].srv) && Finds(g, cfg, g', c, need, k, retry, pin)
    ensures Kept(g, g')
  {
    hide Without, Admitted, Next, Touched, OnlyMoves, Unlocked, L.Inv;
  }

  lemma EnterKept(g: Gw, cfg: Config, c: TaskId, v: Handle, h: Handle, retry: bool, pin: bool)
    requires Inv(g, cfg) && Enabled(g, Enter(c, v, h, retry, pin))
    ensures Registered(g) && Kept(g, Apply(g, cfg, Enter(c, v, h, retry, pin)))
  {
    hide Inv, Apply, Registered, Leaves, Newcomer, Finds, Admitted, Kept, ChoicesOk, MayRetry;
    var m := g.callers[c].model;
    if m in g.pool.managers {
      EnterManaged(g, cfg, c, g.pool.managers[m], v, h, retry, pin);
      LeavesKeeps(g, Apply(g, cfg, Enter(c, v, h, retry, pin)), c);
      if Admitted(g, m) {
        FindsKeeps(g, cfg, Apply(g, cfg, Enter(c, v, h, retry, pin)), c, Size(g, Enter(c, v, h, retry, pin)), g.pool.managers[m], retry, pin);
      }
    } else {
      EnterDecides(g, cfg, c, v, h, retry, pin);
      LeavesKeeps(g, Apply(g, cfg, Enter(c, v, h, retry, pin)), c);
      if Admitted(g, m) {
        IsAdmitted(g, m);
        NewcomerKeeps(g, cfg, Apply(g, cfg, Enter(c, v, h, retry, pin)), c, g.reg[m].vram, h);
      }
    }
  }

  lemma GetCondKept(g: Gw, cfg: Config, c: TaskId, v: Handle, h: Handle, retry: bool, pin: bool)
    requires Inv(g, cfg) && Enabled(g, GetCond(c, v, h, retry, pin))
    ensures Registered(g) && Kept(g, Apply(g, cfg, GetCond(c, v, h, retry, pin)))
  {
    hide Inv, Apply, Registered, Newcomer, Finds, Kept, ChoicesOk, MayRetry;
    var m := g.callers[c].model;
    if m in g.pool.managers {
      GetCondManaged(g, cfg, c, g.pool.managers[m], v, h, retry, pin);
      FindsKeeps(g, cfg, Apply(g, cfg, GetCond(c, v, h, retry, pin)), c, g.callers[c].need, g.pool.managers[m], retry, pin);
    } else {
      GetCondDecides(g, cfg, c, v, h, retry, pin);
      NewcomerKeeps(g, cfg, Apply(g, cfg, GetCond(c, v, h, retry, pin)), c, g.callers[c].need, h);
    }
  }

  lemma RecheckKept(g: Gw, cfg: Config, c: TaskId, v: Handle, h: Handle, retry: bool, pin: bool)
    requires Inv(g, cfg) && Enabled(g, RecheckUnload(c, v, h, retry, pin))
    ensures Registered(g) && Kept(g, Apply(g, cfg, RecheckUnload(c, v, h, retry, pin)))
  {
    hide Inv, Apply, Registered, Leaves, Newcomer, Finds, Admitted, Kept, ChoicesOk, MayRetry;
    var m := g.callers[c].model;
    if m in g.pool.managers {
      RecheckManaged(g, cfg, c, g.pool.managers[m], v, h, retry, pin);
      LeavesKeeps(g, Apply(g, cfg, RecheckUnload(c, v, h, retry, pin)), c);
      if Admitted(g, m) {
        FindsKeeps(g, cfg, Apply(g, cfg, RecheckUnload(c, v, h, retry, pin)), c, g.callers[c].need, g.pool.managers[m], retry, pin);
      }
    } else {
      RecheckDecides(g, cfg, c, v, h, retry, pin);
      LeavesKeeps(g, Apply(g, cfg, RecheckUnload(c, v, h, retry, pin)), c);
      if Admitted(g, m) { NewcomerKeeps(g, cfg, Apply(g, cfg, RecheckUnload(c, v, h, retry, pin)), c, g.callers[c].need, h); }
    }
  }

  lemma QueueKept(g: Gw, cfg: Config, c: TaskId, v: Handle, h: Handle)
    requires Inv(g, cfg) && Enabled(g, RecheckQueue(c, v, h))
    ensures Registered(g) && Kept(g, Apply(g, cfg, RecheckQueue(c, v, h)))
  {
    hide Inv, Apply, Enabled, Registered, Decided, Kept;
    QueueDecides(g, cfg, c, v, h);
    DecidedKeeps(g, cfg, Apply(g, cfg, RecheckQueue(c, v, h)), c, g.callers[c].need, true, g.callers[c].pc.extraDone, h);
  }

  lemma EvictionKept(g: Gw, cfg: Config, c: TaskId, v: Handle, h: Handle)
    requires Inv(g, cfg) && Enabled(g, EvictionOver(c, v, h))
    ensures Registered(g) && Kept(g, Apply(g, cfg, EvictionOver(c, v, h)))
  {
    hide Inv, Apply, Enabled, Registered, TurnDecided, Kept;
    EvictionDecides(g, cfg, c, v, h);
    TurnKeeps(g, cfg, Apply(g, cfg, EvictionOver(c, v, h)), c, g.callers[c].need, g.callers[c].pc.ticketed, true, h);
  }

  lemma AdmissionKept(g: Gw, cfg: Config, st: Step)
    requires Inv(g, cfg) && Enabled(g, st) && AdmissionStep(st)
    ensures Registered(g) && Kept(g, Apply(g, cfg, st))
  {
    if Asks(st) {
      hide Inv, Apply, Enabled, Registered, Kept;
      match st
      case Enter(c, v, h, retry, pin) => EnterKept(g, cfg, c, v, h, retry, pin);
      case GetCond(c, v, h, retry, pin) => GetCondKept(g, cfg, c, v, h, retry, pin);
      case RecheckUnload(c, v, h, retry, pin) => RecheckKept(g, cfg, c, v, h, retry, pin);
      case RecheckQueue(c, v, h) => QueueKept(g, cfg, c, v, h);
      case EvictionOver(c, v, h) => EvictionKept(g, cfg, c, v, h);
    } else {
      hide Inv, Registered, Without;
      IsRegistered(g, cfg);
    }
  }

  lemma WakeKept(g: Gw, cfg: Config, c: TaskId, retry: bool, pin: bool)
    requires Inv(g, cfg) && Enabled(g, Wake(c, retry, pin))
    ensures Registered(g) && Kept(g, Apply(g, cfg, Wake(c, retry, pin)))
  {
    WakeDecides(g, cfg, c, retry, pin);
    hide Inv, Apply, Enabled, Registered, Admitted, OnlyMoves, Unlocked, Without;
  }

  lemma CancelKept(g: Gw, c: TaskId)
    requires CanCancel(g, c)
    ensures Kept(g, DoCancel(g, c))
  {
    hide Without, AbortUnload;
  }

  lemma InstanceKept(g: Gw, cfg: Config, st: Step)
    requires Inv(g, cfg) && Enabled(g, st) && InstanceStep(st) && !st.Forget?
    ensures Registered(g) && Kept(g, Apply(g, cfg, st))
  {
    hide Inv, Registered, Kept, CanCancel, DoCancel, DoTimeOut, CanWake, DoWake, CanEndTimeout, SetPc;
    IsRegistered(g, cfg);
    match st
    case Wake(c, retry, pin) => WakeKept(g, cfg, c, retry, pin);
    case Cancel(c) => CancelKept(g, c);
    case LoadTimeout(c, retry) => TimeOutKept(g, c, retry);
    case TimeoutOver(c, retry) => TimeoutOverKept(g, c, retry);
  }

  lemma TimeoutOverKept(g: Gw, c: TaskId, retry: bool)
    requires CanEndTimeout(g, c, retry)
    ensures Kept(g, SetPc(g, c, Forgetting(g.callers[c].pc.h, retry)))
  {
  }

  lemma TimeOutKept(g: Gw, c: TaskId, retry: bool)
    requires c in g.callers && g.callers[c].pc.Waiting? && g.callers[c].pc.h in g.inst
    ensures Kept(g, DoTimeOut(g, c, retry))
  {
    hide L.BeginUnload;
  }

  /** The end of an unload, or the discovery of a crash. */
  predicate Removal(st: Step) { st.Server? && (st.e.UnloadKilled? || st.e.CrashSeen?) }

  lemma OtherKept(g: Gw, cfg: Config, st: Step)
    requires Inv(g, cfg) && Enabled(g, st) && !AdmissionStep(st) && !InstanceStep(st) && !Removal(st)
    ensures Registered(g) && Kept(g, Apply(g, cfg, st))
  {
    hide Inv, Registered, Kept, DoAdminTakeLock, DoAdminDecide, DoAdminCancel, AdminExit, DoServer, SetSrv, CanAdminCancel, L.Enabled;
    IsRegistered(g, cfg);
    match st
    case AdminTakeLock(a) => AdminKept(g, a);
    case AdminDecide(a) => AdminKept(g, a);
    case AdminOver(a) => AdminKept(g, a);
    case AdminCancel(a) => AdminCancelKept(g, a);
    case Server(h, e) => ServerKept(g, h, e);
    case UnloadAll(h) => SetSrvKept(g, h, L.BeginUnload(g.inst[h].srv));
    case IdleUnload(h) => SetSrvKept(g, h, L.BeginUnload(g.inst[h].srv));
    case PinMore(h) => PinsKept(g, h);
    case Unpin(h) => PinsKept(g, h);
    case AdminArrive(a, m, force) => SamePool(g, Apply(g, cfg, st));
    case SetBlocked(m, on) => SamePool(g, Apply(g, cfg, st));
    case SetRegistry(reg) => SamePool(g, Apply(g, cfg, st));
    case Measure(free) => SamePool(g, Apply(g, cfg, st));
    case Tick => SamePool(g, Apply(g, cfg, st));
  }

  lemma SamePool(g: Gw, g': Gw)
    requires g'.pool.managers == g.pool.managers
    ensures Kept(g, g')
  {
  }

  lemma SetSrvKept(g: Gw, h: Handle, s: L.Server)
    requires h in g.inst
    ensures Kept(g, SetSrv(g, h, s))
  {
  }

  lemma PinsKept(g: Gw, h: Handle)
    requires h in g.inst
    ensures L.Enabled(g.inst[h].srv, L.Pin) && Kept(g, SetSrv(g, h, L.Apply(g.inst[h].srv, L.Pin)))
    ensures L.Enabled(g.inst[h].srv, L.Unpin(g.now)) && Kept(g, SetSrv(g, h, L.Apply(g.inst[h].srv, L.Unpin(g.now))))
  {
  }

  lemma AdminKept(g: Gw, a: TaskId)
    requires a in g.admins && Registered(g)
    ensures Kept(g, AdminExit(g, a)) && Kept(g, DoAdminTakeLock(g, a)) && Kept(g, DoAdminDecide(g, a))
  {
    hide L.BeginUnload, Unlock;
  }

  lemma AdminCancelKept(g: Gw, a: TaskId)
    requires CanAdminCancel(g, a)
    ensures Kept(g, DoAdminCancel(g, a))
  {
    hide AbortUnload, Unlock;
  }

  lemma ServerKept(g: Gw, h: Handle, e: L.Event)
    requires h in g.inst && L.Enabled(g.inst[h].srv, e) && !e.UnloadKilled? && !e.CrashSeen?
    ensures Kept(g, DoServer(g, h, e))
  {
    hide L.Apply, L.Enabled;
  }

  // ---------------------------------------------------------------- one step

  lemma ForgetFacts(g: Gw, cfg: Config, c: TaskId, h: Handle)
    requires Inv(g, cfg) && Enabled(g, Forget(c)) && h in g.inst
    ensures c in g.callers && g.callers[c].pc.Forgetting? && g.callers[c].pc.h in g.inst
    ensures g.inst[g.callers[c].pc.h].model == g.callers[c].model
    ensures var m := g.inst[h].model;
            BeingManager(g, h, m) ==> m in g.pool.ports && g.pool.ports[m] == g.inst[h].port && g.inst[h].port !in g.pool.free
  {
    hide AdminInv, GrantInv, QueueInv, RegInv, AttendedInv, SrvInv, LockInv;
  }

  lemma ForgetIs(g: Gw, c: TaskId, h: Handle)
    requires c in g.callers && g.callers[c].pc.Forgetting? && g.callers[c].pc.h in g.inst && h in g.inst
    requires g.inst[g.callers[c].pc.h].model == g.callers[c].model
    requires var m := g.inst[h].model;
             BeingManager(g, h, m) ==> m in g.pool.ports && g.pool.ports[m] == g.inst[h].port && g.inst[h].port !in g.pool.free
    ensures var g' := DoForget(g, c); var m := g.inst[h].model;
            && g'.inst == g.inst
            && (BeingManager(g, h, m) ==> (BeingManager(g', h, m) <==> g.callers[c].pc.h != h))
            && (BeingManager(g', h, m) ==> BeingManager(g, h, m))
            && (BeingManager(g, h, m) && g.callers[c].pc.h == h ==> g.inst[h].port in g'.pool.free)
  {
    hide Without, Unlock, Release, Exit, SecondAttempt;
    var caller := g.callers[c];
    ReleaseIs(g, caller.model, caller.pc.h, h);
    ExitKeepsPool(g.(pool := Release(g.pool, caller.model, caller.pc.h).0), c);
  }

  lemma ReleaseIs(g: Gw, n: ModelId, k: Handle, h: Handle)
    requires h in g.inst && k in g.inst && g.inst[k].model == n
    ensures var g', m := g.(pool := Release(g.pool, n, k).0), g.inst[h].model;
            && (BeingManager(g, h, m) ==> (BeingManager(g', h, m) <==> k != h)) && (BeingManager(g', h, m) ==> BeingManager(g, h, m))
            && (BeingManager(g, h, m) && m in g.pool.ports && g.pool.ports[m] == g.inst[h].port && k == h ==> g.inst[h].port in g'.pool.free)
  {
  }

  lemma ExitKeepsPool(g: Gw, c: TaskId)
    requires c in g.callers
    ensures Exit(g, c).inst == g.inst && Exit(g, c).pool.managers == g.pool.managers && Exit(g, c).pool.free == g.pool.free
    ensures SecondAttempt(g, c).inst == g.inst && SecondAttempt(g, c).pool == g.pool
  {
    hide Without, Unlock;
  }

  lemma RemovalIs(g: Gw, cfg: Config, st: Step, h: Handle)
    requires Inv(g, cfg) && Enabled(g, st) && Removal(st) && h in g.inst
    ensures Registered(g)
    ensures var g' := Apply(g, cfg, st);
            && h in g'.inst && (h == st.h ==> g'.inst[h].srv.state == L.Unloaded)
            && (h != st.h && BeingManager(g, h, g.inst[h].model) ==> g.inst[h].model in g'.pool.managers && g'.pool.managers[g.inst[h].model] == h)
  {
    hide Inv, Enabled, Apply, Registered, DoServer;
    IsRegistered(g, cfg);
    RemovalApplies(g, cfg, st);
    RemovalEnds(g, st.h, st.e);
    E.LateCallbackIsNoOp(g, cfg, st.h, st.e);
    if BeingManager(g, h, g.inst[h].model) && h != st.h { assert BeingManager(g, st.h, g.inst[st.h].model) ==> g.inst[st.h].model != g.inst[h].model; }
  }

  lemma RemovalApplies(g: Gw, cfg: Config, st: Step)
    requires Enabled(g, st) && Removal(st) && Registered(g)
    ensures st.h in g.inst && L.Enabled(g.inst[st.h].srv, st.e) && Apply(g, cfg, st) == DoServer(g, st.h, st.e)
  {
    hide DoServer, Registered, L.Enabled;
  }

  lemma RemovalEnds(g: Gw, k: Handle, e: L.Event)
    requires k in g.inst && L.Enabled(g.inst[k].srv, e) && (e.UnloadKilled? || e.CrashSeen?)
    ensures var g' := DoServer(g, k, e); g'.inst.Keys == g.inst.Keys && g'.inst[k].srv.state == L.Unloaded
  {
  }

  lemma StaysManager(g: Gw, cfg: Config, g': Gw, h: Handle, m: ModelId)
    requires Inv(g', cfg) && m in g'.pool.managers && g'.pool.managers[m] == h
    ensures h in g'.inst && BeingManager(g', h, m) && BeingManager(g', h, g'.inst[h].model)
  {
    hide PortsPartition, SrvInv, LockInv, WaitInv, AdminInv, GrantInv, QueueInv, RegInv, AttendedInv;
  }

  lemma RestartedIsKept(g: Gw, cfg: Config, st: Step, h: Handle)
    requires Inv(g, cfg) && Enabled(g, st) && P.Restarted(g, st) == Some(h)
    ensures h in g.inst && BeingManager(g, h, g.inst[h].model)
  {
    hide PortsPartition, SrvInv, LockInv, WaitInv, AdminInv, GrantInv, QueueInv, RegInv, AttendedInv, Enabled;
  }

  /** An instance becomes an orphan in exactly one kind of step: its caller forgets it while it is its model's manager
      and not UNLOADED; its port is free from then on. */
  lemma OrphanedIff(g: Gw, cfg: Config, st: Step, h: Handle)
    requires Inv(g, cfg) && Enabled(g, st) && h in g.inst && !Orphan(g, h)
    ensures Registered(g) && h in Apply(g, cfg, st).inst
    ensures Orphan(Apply(g, cfg, st), h) <==> Abandons(g, st, h)
    ensures Abandons(g, st, h) ==> Apply(g, cfg, st).inst == g.inst && g.inst[h].port in Apply(g, cfg, st).pool.free
  {
    hide Inv, Enabled, Apply, Registered, P.Starts, P.Restarted, Kept;
    IsRegistered(g, cfg);
    StepKeepsInv(g, cfg, st);
    P.OnlyRestartsStart(g, cfg, st, h);
    var g', m := Apply(g, cfg, st), g.inst[h].model;
    if st.Forget? {
      ForgetApplies(g, cfg, st);
      ForgetFacts(g, cfg, st.c, h);
      ForgetIs(g, st.c, h);
    } else if BeingManager(g, h, m) {
      if Removal(st) {
        RemovalIs(g, cfg, st, h);
        if h != st.h { StaysManager(g, cfg, g', h, m); }
      } else {
        StepKept(g, cfg, st);
        KeptEntry(g, g', m);
        StaysManager(g, cfg, g', h, m);
      }
    } else {
      StaysUnloaded(g, cfg, st, h);
    }
  }

  lemma ForgetApplies(g: Gw, cfg: Config, st: Step)
    requires Enabled(g, st) && st.Forget? && Registered(g)
    ensures st == Forget(st.c) && st.c in g.callers && g.callers[st.c].pc.Forgetting? && Apply(g, cfg, st) == DoForget(g, st.c)
  {
    hide DoForget, Registered;
  }

  lemma KeptEntry(g: Gw, g': Gw, m: ModelId)
    requires Kept(g, g') && m in g.pool.managers
    ensures m in g'.pool.managers && g'.pool.managers[m] == g.pool.managers[m]
  {
  }

  lemma StaysUnloaded(g: Gw, cfg: Config, st: Step, h: Handle)
    requires Inv(g, cfg) && Enabled(g, st) && Registered(g) && h in g.inst && g.inst[h].srv.state == L.Unloaded
    requires !BeingManager(g, h, g.inst[h].model)
    ensures h in Apply(g, cfg, st).inst && Apply(g, cfg, st).inst[h].srv.state == L.Unloaded
  {
    hide Inv, Enabled, Apply, Registered, P.Restarted;
    P.OnlyRestartsStart(g, cfg, st, h);
    if P.Restarted(g, st) == Some(h) { RestartedIsKept(g, cfg, st, h); }
  }

  lemma StepKept(g: Gw, cfg: Config, st: Step)
    requires Inv(g, cfg) && Enabled(g, st) && !st.Forget? && !Removal(st)
    ensures Registered(g) && Kept(g, Apply(g, cfg, st))
  {
    hide Inv, Enabled, Apply, Registered, Kept;
    if AdmissionStep(st) { AdmissionKept(g, cfg, st); }
    else if InstanceStep(st) { InstanceKept(g, cfg, st); }
    else { OtherKept(g, cfg, st); }
  }

  /** A new instance is the manager of its model. */
  lemma NewIsManager(g: Gw, cfg: Config, st: Step, h: Handle)
    requires Inv(g, cfg) && Enabled(g, st) && Registered(g) && h !in g.inst
    ensures !Orphan(Apply(g, cfg, st), h)
  {
    hide Inv, Enabled, Apply, Registered, HasCapacity, AtTurnOf, Admitted, OthersStay;
    StepKeepsInv(g, cfg, st);
    StepEffect(g, cfg, st);
    var g' := Apply(g, cfg, st);
    if h in g'.inst { StaysManager(g, cfg, g', h, g.callers[Actor(st)].model); }
  }

  // ---------------------------------------------------------------- whole runs

  /** No port is free under an instance that is not UNLOADED, and no two such instances have the same port. */
  ghost predicate PortsClean(g: Gw) {
    && (forall h :: h in g.inst && g.inst[h].srv.state != L.Unloaded ==> g.inst[h].port !in g.pool.free)
    && (forall h, k :: h in g.inst && k in g.inst && h != k && g.inst[h].srv.state != L.Unloaded && g.inst[k].srv.state != L.Unloaded ==>
          g.inst[h].port != g.inst[k].port)
  }

  lemma NoOrphanIsClean(g: Gw, cfg: Config)
    requires Inv(g, cfg) && forall h :: !Orphan(g, h)
    ensures PortsClean(g) && forall h :: h in g.inst && g.inst[h].srv.proc != L.NoProcess ==> g.inst[h].srv.state != L.Unloaded
  {
    hide LockInv, WaitInv, AdminInv, GrantInv, QueueInv, RegInv, AttendedInv;
    forall h | h in g.inst && g.inst[h].srv.state != L.Unloaded
      ensures var m := g.inst[h].model; m in g.pool.ports && g.pool.managers[m] == h && g.pool.ports[m] == g.inst[h].port
    {
      assert !Orphan(g, h);
    }
  }

  lemma {:induction false} NeverOrphaned(trace: seq<Gw>, steps: seq<Step>, cfg: Config, k: nat)
    requires Run(trace, steps, cfg) && Init(trace[0], cfg) && k <= |steps|
    requires forall i, h :: 0 <= i < k ==> !Abandons(trace[i], steps[i], h)
    ensures Inv(trace[k], cfg) && forall h :: !Orphan(trace[k], h)
  {
    hide Inv, Apply, Enabled, Registered, Orphan, Abandons;
    InitHasInv(trace[0], cfg);
    RunKeepsInv(trace, steps, cfg, k);
    if k == 0 {
      InitHasNone(trace[0], cfg);
    } else {
      NeverOrphaned(trace, steps, cfg, k - 1);
      assert trace[k - 1 + 1] == Apply(trace[k - 1], cfg, steps[k - 1]);
      forall h ensures !Orphan(trace[k], h) {
        if h in trace[k - 1].inst { OrphanedIff(trace[k - 1], cfg, steps[k - 1], h); } else { NewIsManager(trace[k - 1], cfg, steps[k - 1], h); }
      }
    }
  }

  lemma InitHasNone(g: Gw, cfg: Config)
    requires Init(g, cfg)
    ensures forall h :: !Orphan(g, h)
  {
  }

  /** Over every run: ports stay clean throughout if and only if no caller ever forgets the manager of a model while
      it is not UNLOADED.  A process implies that an instance is not UNLOADED, so with clean ports no free port has
      a process and no two processes have one port. */
  lemma PortsCleanIff(trace: seq<Gw>, steps: seq<Step>, cfg: Config)
    requires Run(trace, steps, cfg) && Init(trace[0], cfg)
    ensures (forall k :: 0 <= k <= |steps| ==> PortsClean(trace[k])) <==>
            (forall k, h :: 0 <= k < |steps| ==> !Abandons(trace[k], steps[k], h))
    ensures forall k, h :: 0 <= k <= |steps| && h in trace[k].inst && trace[k].inst[h].srv.proc != L.NoProcess ==>
              trace[k].inst[h].srv.state != L.Unloaded
  {
    hide Inv, Apply, Enabled, Registered, Orphan, Abandons, Init;
    forall k, h | 0 <= k <= |steps| && h in trace[k].inst && trace[k].inst[h].srv.proc != L.NoProcess
      ensures trace[k].inst[h].srv.state != L.Unloaded
    {
      InitHasInv(trace[0], cfg);
      RunKeepsInv(trace, steps, cfg, k);
      ProcessIsUp(trace[k], cfg, h);
    }
    if forall k, h :: 0 <= k < |steps| ==> !Abandons(trace[k], steps[k], h) {
      forall k | 0 <= k <= |steps| ensures PortsClean(trace[k]) {
        NeverOrphaned(trace, steps, cfg, k);
        NoOrphanIsClean(trace[k], cfg);
      }
    } else {
      var k, h :| 0 <= k < |steps| && Abandons(trace[k], steps[k], h);
      InitHasInv(trace[0], cfg);
      RunKeepsInv(trace, steps, cfg, k);
      AbandonedIsManager(trace[k], steps[k], h);
      OrphanedIff(trace[k], cfg, steps[k], h);
      assert trace[k + 1] == Apply(trace[k], cfg, steps[k]);
      assert !PortsClean(trace[k + 1]);
    }
  }

  lemma ProcessIsUp(g: Gw, cfg: Config, h: Handle)
    requires Inv(g, cfg) && h in g.inst && g.inst[h].srv.proc != L.NoProcess
    ensures g.inst[h].srv.state != L.Unloaded
  {
    InstFacts(g, cfg, h);
    hide Inv;
  }

  lemma AbandonedIsManager(g: Gw, st: Step, h: Handle)
    requires Abandons(g, st, h)
    ensures h in g.inst && !Orphan(g, h) && g.inst[h].srv.state != L.Unloaded
  {
  }

  // ---------------------------------------------------------------- a port comes back under a READY instance

  /** The operator has closed the admission of m. */
  function Barred(g: Gw, m: ModelId): Gw { g.(pool := g.pool.(blocked := g.pool.blocked + {m})) }

  /** What is left of g: an instance of m that is READY, with its process, in nobody's pool; its port is the last of
      the free ones. */
  function Forsaken(g: Gw, m: ModelId, h: Handle): Gw
    requires g.pool.free != []
  {
    Barred(g, m).(pool := Barred(g, m).pool.(free := g.pool.free[1..] + [g.pool.free[0]]),
                  inst := g.inst[h := Inst(m, g.pool.free[0], READY.(last := g.now))])
  }

  lemma BarsGoes(g: Gw, cfg: Config, c: TaskId, m: ModelId, h: Handle)
    requires m in g.reg && g.pool.free != [] && Registered(g)
    ensures var g5 := With(Holds(g, c, m, Waiting(h, 0)), m, h, READY); Goes(g5, cfg, SetBlocked(m, true), Barred(g5, m))
  {
    assert Registered(With(Holds(g, c, m, Waiting(h, 0)), m, h, READY));
    hide Registered, With, Holds;
  }

  /** ... and its caller is about to forget it. */
  function Forgetful(g: Gw, c: TaskId, m: ModelId, h: Handle): Gw
    requires m in g.reg && g.pool.free != []
  {
    Barred(With(Holds(g, c, m, Forgetting(h, false)), m, h, READY.(last := g.now)), m)
  }

  lemma WakeRefuses(g: Gw, cfg: Config, c: TaskId, m: ModelId, h: Handle)
    requires m in g.reg && g.pool.free != [] && Registered(g)
    ensures Goes(Barred(With(Holds(g, c, m, Waiting(h, 0)), m, h, READY), m), cfg, Wake(c, false, false), Forgetful(g, c, m, h))
  {
    var g6 := Barred(With(Holds(g, c, m, Waiting(h, 0)), m, h, READY), m);
    assert Registered(g6);
    RefusedIs(g, c, m, h);
    hide Registered, With, Holds, Barred, Forgetful, RefuseReady, Admitted, MayRetry;
  }

  lemma RefusedIs(g: Gw, c: TaskId, m: ModelId, h: Handle)
    requires m in g.reg && g.pool.free != []
    ensures var g6 := Barred(With(Holds(g, c, m, Waiting(h, 0)), m, h, READY), m);
            && CanWake(g6, c, false) && L.WakeOutcome(g6.inst[h].srv).Returns? && g6.callers[c].pc.h == h && !Admitted(g6, g6.callers[c].model)
            && RefuseReady(g6, c, h, false) == Forgetful(g, c, m, h)
  {
    var p, s := g.pool.free[0], READY.(last := g.now);
    var k := Caller(m, 0, g.reg[m].vram, Waiting(h, 0));
    assert g.inst[h := Inst(m, p, READY)][h := Inst(m, p, s)] == g.inst[h := Inst(m, p, s)];
    assert g.callers[c := k][c := k.(pc := Forgetting(h, false))] == g.callers[c := k.(pc := Forgetting(h, false))];
  }

  lemma ForgetsGoes(g: Gw, cfg: Config, c: TaskId, m: ModelId, h: Handle)
    requires m in g.reg && g.pool.free != [] && Registered(g) && c !in g.callers && m !in g.locks && m !in g.pool.managers
    requires m !in g.pool.ports && g.cond == None && g.pool.waiters == [] && g.pool.free[0] !in g.pool.free[1..]
    ensures Goes(Forgetful(g, c, m, h), cfg, Forget(c), Forsaken(g, m, h))
  {
    assert Registered(Forgetful(g, c, m, h));
    ForsakenIs(g, c, m, h);
    hide Registered, Forgetful, Forsaken, DoForget;
  }

  lemma ForsakenIs(g: Gw, c: TaskId, m: ModelId, h: Handle)
    requires m in g.reg && g.pool.free != [] && c !in g.callers && m !in g.locks && m !in g.pool.managers
    requires m !in g.pool.ports && g.cond == None && g.pool.waiters == [] && g.pool.free[0] !in g.pool.free[1..]
    ensures CanForget(Forgetful(g, c, m, h), c) && DoForget(Forgetful(g, c, m, h), c) == Forsaken(g, m, h)
  {
    ForgetfulIs(g, c, m, h);
    ReleasedIs(g, m, h);
    hide Release, Exit, Forgetful;
    ExitsIs(g, c, m, h);
  }

  lemma ForgetfulIs(g: Gw, c: TaskId, m: ModelId, h: Handle)
    requires m in g.reg && g.pool.free != []
    ensures var g7 := Forgetful(g, c, m, h);
            && c in g7.callers && g7.callers[c] == Caller(m, 0, g.reg[m].vram, Forgetting(h, false)) && g7.cond == g.cond
            && g7.pool == Barred(With(g, m, h, READY), m).pool
  {
  }

  lemma ReleasedIs(g: Gw, m: ModelId, h: Handle)
    requires g.pool.free != [] && m !in g.pool.managers && m !in g.pool.ports && g.pool.free[0] !in g.pool.free[1..]
    ensures Release(Barred(With(g, m, h, READY), m).pool, m, h).0 == Forsaken(g, m, h).pool
  {
    assert g.pool.managers[m := h] - {m} == g.pool.managers && g.pool.ports[m := g.pool.free[0]] - {m} == g.pool.ports;
  }

  lemma ExitsIs(g: Gw, c: TaskId, m: ModelId, h: Handle)
    requires m in g.reg && g.pool.free != [] && c !in g.callers && m !in g.locks && g.pool.waiters == []
    ensures c in Forgetful(g, c, m, h).callers
    ensures Exit(Forgetful(g, c, m, h).(pool := Forsaken(g, m, h).pool), c) == Forsaken(g, m, h)
  {
    assert Without(g.pool.waiters, c) == [];
    hide Without;
    assert g.callers[c := Caller(m, 0, g.reg[m].vram, Forgetting(h, false))] - {c} == g.callers;
    assert g.locks[m := c] - {m} == g.locks;
  }

  lemma FreePorts(g: Gw, cfg: Config, m: ModelId)
    requires Inv(g, cfg)
    ensures (m in g.pool.ports <==> m in g.pool.managers) && (g.pool.free != [] ==> g.pool.free[0] !in g.pool.free[1..])
  {
    hide RegisteredInv, SrvInv, LockInv, WaitInv, AdminInv, GrantInv, QueueInv, RegInv, AttendedInv;
  }

  /** It does happen, from any reachable state in which there is room for a model: the operator closes its admission
      between the end of its load and the moment its caller goes on.  Ten steps lead to an instance that is READY,
      with a live process, in nobody's pool, whose port is free. */
  lemma PortFreedUnderReady(g: Gw, cfg: Config, c: TaskId, m: ModelId, h: Handle)
    requires Inv(g, cfg) && Welcome(g, cfg, c, m, h)
    ensures g.pool.free != []
    ensures exists v :: Leads(g, cfg, RequestScript(c, m, v, h, false, [SetBlocked(m, true)] + ([Wake(c, false, false)] + ([Forget(c)] + []))),
                              Forsaken(g, m, h))
    ensures Orphan(Forsaken(g, m, h), h) && Forsaken(g, m, h).inst[h].srv.proc == L.Live
    ensures Forsaken(g, m, h).inst[h].port in Forsaken(g, m, h).pool.free
  {
    var v := SomeVictim(g, m);
    assert Prepared(g, cfg, c, m, v, h);
    WelcomeIs(g, cfg, c, m, h);
    hide Inv, Leads, Welcome, Prepared, Registered, Goes, Holds, With, Forsaken, Forgetful, Barred, Admitted, RequestScript, HasVictim, IsVictim;
    FreePorts(g, cfg, m);
    IsRegistered(g, cfg);
    BarsGoes(g, cfg, c, m, h);
    WakeRefuses(g, cfg, c, m, h);
    ForgetsGoes(g, cfg, c, m, h);
    ForsakenFacts(g, m, h);
    var end := Forsaken(g, m, h);
    LeadsNowhere(end, cfg);
    LeadsOn(Forgetful(g, c, m, h), cfg, Forget(c), end, [], end);
    LeadsOn(Barred(With(Holds(g, c, m, Waiting(h, 0)), m, h, READY), m), cfg, Wake(c, false, false), Forgetful(g, c, m, h), [Forget(c)] + [], end);
    LeadsOn(With(Holds(g, c, m, Waiting(h, 0)), m, h, READY), cfg, SetBlocked(m, true),
            Barred(With(Holds(g, c, m, Waiting(h, 0)), m, h, READY), m), [Wake(c, false, false)] + ([Forget(c)] + []), end);
    RequestLoads(g, cfg, c, m, v, h, false, [SetBlocked(m, true)] + ([Wake(c, false, false)] + ([Forget(c)] + [])), end);
  }

  lemma WelcomeIs(g: Gw, cfg: Config, c: TaskId, m: ModelId, h: Handle)
    requires Welcome(g, cfg, c, m, h)
    ensures m in g.reg && g.pool.free != [] && c !in g.callers && m !in g.locks && m !in g.pool.managers && g.cond == None && g.pool.waiters == []
  {
  }

  lemma ForsakenFacts(g: Gw, m: ModelId, h: Handle)
    requires g.pool.free != [] && m !in g.pool.managers
    ensures var u := Forsaken(g, m, h); Orphan(u, h) && u.inst[h].srv.proc == L.Live && u.inst[h].port in u.pool.free
  {
  }
}
