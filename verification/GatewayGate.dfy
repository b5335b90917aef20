/** What a closed admission and the lock of a model keep out: which loads start behind the gate, and how
  unload_model leaves the pool.  What the bootstrap lease relies on is derived here. */
module GatewayGate {
  import opened GatewayPool
  import opened GatewaySystem
  import opened GatewayProofs
  import opened GatewayTheorems
  import opened GatewayAdmission
  import opened GatewayPins
  import opened GatewayBudget
  import opened GatewayEviction
  import Lease = BootstrapLease
  import L = ServerLifecycle

  predicate Loading(g: Gw, m: ModelId) { m in g.pool.managers && InState(g, g.pool.managers[m], L.Loading) }

  /** In this step a manager of m starts to load: a new one, or one that was registered. */
  predicate LoadStarts(g: Gw, g': Gw, m: ModelId) {
    Loading(g', m) && !(Loading(g, m) && g.pool.managers[m] == g'.pool.managers[m])
  }

  /** c has passed the admission test for m, holds the lock of m, and waits for the condition. */
  predicate PastTest(g: Gw, c: TaskId, m: ModelId) { At(g, c, WantCond) && g.callers[c].model == m }

  /** The step takes a caller that is past its test to a manager of m that was left UNLOADED. */
  predicate RestartsBehindGate(g: Gw, st: Step, m: ModelId) {
    st.GetCond? && PastTest(g, st.c, m) && Stale(g, m).Some?
  }

  // ---------------------------------------------------------------- one step

  lemma StartIsLaunchOrRestart(g: Gw, cfg: Config, st: Step, m: ModelId)
    requires Inv(g, cfg) && Enabled(g, st) && Registered(g) && LoadStarts(g, Apply(g, cfg, st), m)
    ensures m !in g.pool.managers || (Stale(g, m).Some? && Restarted(g, st) == Stale(g, m))
  {
    hide Inv, Enabled, Apply, Registered, Restarted, EntriesKept;
    var g' := Apply(g, cfg, st);
    NeverOverwrites(g, cfg, st);
    KeptEntry(g, g', m);
    if m in g.pool.managers {
      KnownManagers(g, cfg);
      OnlyRestartsStart(g, cfg, st, g.pool.managers[m]);
      if Restarted(g, st).Some? { RestartedIsManager(g, cfg, st); }
    }
  }

  lemma KeptEntry(g: Gw, g': Gw, m: ModelId)
    requires EntriesKept(g, g')
    ensures m in g'.pool.managers && m in g.pool.managers ==> g'.pool.managers[m] == g.pool.managers[m]
  {
  }

  /** Which model a restart is about, and whether it was admitted. */
  lemma RestartedFor(g: Gw, cfg: Config, st: Step, m: ModelId)
    requires Inv(g, cfg) && Enabled(g, st) && m in g.pool.managers && Restarted(g, st) == Some(g.pool.managers[m])
    ensures (st.Enter? || st.GetCond? || st.RecheckUnload?) && st.c in g.callers && g.callers[st.c].model == m
    ensures g.callers[st.c].pc != WantLock && (st.GetCond? ==> At(g, st.c, WantCond)) && (!st.GetCond? ==> Admitted(g, m))
  {
    hide Inv, ChoicesOk, Admitted, MayRetry;
    RestartedIsManager(g, cfg, st);
  }

  /** Behind a closed gate, exactly: a load of m starts if and only if a caller that passed the admission
      test before reaches a manager of m that an earlier, cancelled caller left UNLOADED. */
  lemma LoadBehindGateIff(g: Gw, cfg: Config, st: Step, m: ModelId)
    requires Inv(g, cfg) && Enabled(g, st) && !Admitted(g, m)
    ensures Registered(g) && (LoadStarts(g, Apply(g, cfg, st), m) <==> RestartsBehindGate(g, st, m))
  {
    hide Inv, Enabled, Apply, Registered, Restarted, Admitted, LoadStarts;
    IsRegistered(g, cfg);
    if LoadStarts(g, Apply(g, cfg, st), m) {
      StartIsLaunchOrRestart(g, cfg, st, m);
      LoadedHere(g, Apply(g, cfg, st), m);
      if m !in g.pool.managers { EntryNeedsAdmission(g, cfg, st, m); }
      RestartedFor(g, cfg, st, m);
    } else if RestartsBehindGate(g, st, m) {
      RestartStarts(g, cfg, st, m);
    }
  }

  lemma LoadedHere(g: Gw, g': Gw, m: ModelId)
    requires LoadStarts(g, g', m)
    ensures m in g'.pool.managers
  {
  }

  lemma RestartIsStale(g: Gw, st: Step, m: ModelId)
    requires Enabled(g, st) && Registered(g) && RestartsBehindGate(g, st, m)
    ensures Restarted(g, st) == Stale(g, m) && m in g.pool.managers && Stale(g, m) == Some(g.pool.managers[m])
    ensures InState(g, g.pool.managers[m], L.Unloaded)
  {
    hide Registered, ChoicesOk, Admitted, ReadyNow, MayRetry;
  }

  lemma RestartStarts(g: Gw, cfg: Config, st: Step, m: ModelId)
    requires Inv(g, cfg) && Enabled(g, st) && Registered(g) && RestartsBehindGate(g, st, m)
    ensures LoadStarts(g, Apply(g, cfg, st), m)
  {
    hide Inv, Enabled, Apply, Registered, Restarted, L.Apply, RestartsBehindGate;
    RestartIsStale(g, st, m);
    RestartEffect(g, cfg, st);
    RestartedServer(g.inst[g.pool.managers[m]].srv, g.now);
  }

  lemma EnterWaitAdmits(g: Gw, c: TaskId)
    requires CanEnterWait(g, c)
    ensures Admitted(g, g.callers[c].model) && DoEnterWait(g, c).callers[c].model == g.callers[c].model
  {
  }

  /** Nobody comes past the admission test of a closed model. */
  lemma PastTestNeedsAdmission(g: Gw, cfg: Config, st: Step, c: TaskId, m: ModelId)
    requires Inv(g, cfg) && Enabled(g, st) && Registered(g) && PastTest(Apply(g, cfg, st), c, m) && !Admitted(g, m)
    ensures PastTest(g, c, m)
  {
    hide Inv, Enabled, Registered, Admitted;
    if (AdmissionStep(st) || InstanceStep(st)) && Mover(st) == c {
      if st.EnterWait? {
        EnterWaitMoves(g, cfg, st);
      } else {
        hide Apply;
        if AdmissionStep(st) { AdmissionOthers(g, cfg, st); } else { InstanceOthers(g, cfg, st); }
      }
    } else {
      hide Apply;
      CallerStays(g, cfg, st, c);
    }
  }

  lemma EnterWaitMoves(g: Gw, cfg: Config, st: Step)
    requires Enabled(g, st) && Registered(g) && st.EnterWait?
    ensures st.c in Apply(g, cfg, st).callers && Admitted(g, Apply(g, cfg, st).callers[st.c].model)
  {
    hide CanEnterWait, DoEnterWait, Registered;
    EnterWaitAdmits(g, st.c);
    EnterWaitStays(g, st.c);
  }

  lemma EnterWaitStays(g: Gw, c: TaskId)
    requires CanEnterWait(g, c)
    ensures c in DoEnterWait(g, c).callers
  {
  }

  // ---------------------------------------------------------------- while the gate is closed

  /** Over a run: a caller of m that is past the test while the gate is closed was past it when it closed. */
  lemma {:induction false} PastTestSinceClosing(trace: seq<Gw>, steps: seq<Step>, cfg: Config, i: nat, j: nat, c: TaskId, m: ModelId)
    requires Run(trace, steps, cfg) && Init(trace[0], cfg) && i <= j <= |steps|
    requires forall k :: i <= k < j ==> !Admitted(trace[k], m)
    requires PastTest(trace[j], c, m)
    ensures PastTest(trace[i], c, m)
    decreases j - i
  {
    hide Inv, Init, Apply, Enabled, Registered, Admitted, PastTest;
    if i < j {
      InitHasInv(trace[0], cfg);
      RunKeepsInv(trace, steps, cfg, j - 1);
      assert trace[j - 1 + 1] == Apply(trace[j - 1], cfg, steps[j - 1]);
      PastTestNeedsAdmission(trace[j - 1], cfg, steps[j - 1], c, m);
      PastTestSinceClosing(trace, steps, cfg, i, j - 1, c, m);
    }
  }

  /** ... so, exactly: a load of m starts while the gate is closed if and only if a caller that was past the
      test already when the gate closed reaches an UNLOADED manager of m; if there was none, none starts. */
  lemma {:induction false} NothingLoadsBehindGate(trace: seq<Gw>, steps: seq<Step>, cfg: Config, i: nat, k: nat, m: ModelId)
    requires Run(trace, steps, cfg) && Init(trace[0], cfg) && i <= k < |steps|
    requires forall l :: i <= l <= k ==> !Admitted(trace[l], m)
    ensures LoadStarts(trace[k], trace[k + 1], m) <==>
              RestartsBehindGate(trace[k], steps[k], m) && PastTest(trace[i], steps[k].c, m)
  {
    hide Inv, Init, Apply, Enabled, Registered, Admitted, LoadStarts;
    InitHasInv(trace[0], cfg);
    RunKeepsInv(trace, steps, cfg, k);
    LoadBehindGateIff(trace[k], cfg, steps[k], m);
    if RestartsBehindGate(trace[k], steps[k], m) { PastTestSinceClosing(trace, steps, cfg, i, k, steps[k].c, m); }
  }

  // ---------------------------------------------------------------- while an operator holds the lock

  /** a is in unload_model of m and holds the lock of m. */
  predicate Unloads(g: Gw, a: TaskId, m: ModelId) { a in g.admins && g.admins[a].model == m && g.admins[a].pc != AWantLock }

  lemma LockExcludes(g: Gw, cfg: Config, a: TaskId, c: TaskId, m: ModelId)
    requires Inv(g, cfg) && Unloads(g, a, m) && c in g.callers && g.callers[c].model == m
    ensures g.callers[c].pc == WantLock
  {
    hide PortsPartition, RegisteredInv, SrvInv, WaitInv, AdminInv, GrantInv, QueueInv, RegInv, AttendedInv;
  }

  /** While unload_model holds the lock of m no load of m starts, and nobody is past its admission test. */
  lemma NothingLoadsUnderUnload(g: Gw, cfg: Config, st: Step, a: TaskId, m: ModelId)
    requires Inv(g, cfg) && Enabled(g, st) && Registered(g) && Unloads(g, a, m) && Unloads(Apply(g, cfg, st), a, m)
    ensures !LoadStarts(g, Apply(g, cfg, st), m) && forall c :: !PastTest(g, c, m)
  {
    hide Inv, Enabled, Apply, Registered, Restarted, Unloads, Quiet;
    var g' := Apply(g, cfg, st);
    forall c ensures !PastTest(g, c, m) {
      if PastTest(g, c, m) { LockExcludes(g, cfg, a, c, m); }
    }
    if LoadStarts(g, g', m) {
      StartIsLaunchOrRestart(g, cfg, st, m);
      if m in g.pool.managers {
        RestartedFor(g, cfg, st, m);
        LockExcludes(g, cfg, a, st.c, m);
      } else {
        StepKeepsInv(g, cfg, st);
        StepEffect(g, cfg, st);
        LaunchedFor(g, cfg, st, m);
        LockExcludes(g', cfg, a, Actor(st), m);
      }
    }
  }

  /** A new manager of m is LOADING, and has a caller of m that waits for it. */
  lemma LaunchedFor(g: Gw, cfg: Config, st: Step, m: ModelId)
    requires Inv(g, cfg) && Enabled(g, st) && Registered(g) && m !in g.pool.managers && m in Apply(g, cfg, st).pool.managers
    ensures var g' := Apply(g, cfg, st);
            && AdmissionStep(st) && Actor(st) in g'.callers && g'.callers[Actor(st)].pc.Waiting? && g'.callers[Actor(st)].model == m
            && View(g', m) == Some(L.Loading)
  {
    hide Inv, Enabled, Apply, Registered, HasCapacity, AtTurnOf, Admitted, OthersStay;
    StepEffect(g, cfg, st);
    StepKeepsInv(g, cfg, st);
    LaunchedModel(Apply(g, cfg, st), cfg, Actor(st), m);
  }

  // ---------------------------------------------------------------- how unload_model returns

  datatype UnloadEnd = Suspended | Busy | Returned

  /** What becomes of unload_model in a step of its operator. */
  function EndOf(g: Gw, st: Step): UnloadEnd
    requires st.AdminTakeLock? || st.AdminDecide? || st.AdminOver?
    requires st.a in g.admins && Registered(g)
  {
    var m := g.admins[st.a].model;
    if st.AdminOver? then Returned
    else if m !in g.pool.managers then Returned
    else if st.AdminTakeLock? then Suspended
    else
      var s := g.inst[g.pool.managers[m]].srv;
      if s.active > 0 && !g.admins[st.a].force then Busy
      else if s.state == L.Ready || s.state == L.Loading then Suspended
      else Returned
  }

  /** The manager of m is UNLOADED or UNLOADING already. */
  predicate OnItsWay(g: Gw, m: ModelId) {
    m in g.pool.managers && StateIn(g.inst, g.pool.managers[m], L.Unloading, L.Unloaded)
  }

  lemma OperatorStep(g: Gw, cfg: Config, st: Step)
    requires Enabled(g, st) && Registered(g) && (st.AdminTakeLock? || st.AdminDecide? || st.AdminOver?) && EndOf(g, st).Returned?
    ensures Apply(g, cfg, st).pool.managers == g.pool.managers && Apply(g, cfg, st).inst == g.inst && Apply(g, cfg, st).callers == g.callers
  {
    hide L.BeginUnload, AdminExit, Registered;
    AdminExitKeepsPool(g, st.a);
  }

  lemma AdminExitKeepsPool(g: Gw, a: TaskId)
    requires a in g.admins
    ensures AdminExit(g, a).pool.managers == g.pool.managers && AdminExit(g, a).inst == g.inst && AdminExit(g, a).callers == g.callers
  {
    hide Unlock;
  }

  lemma UnloadIsOver(g: Gw, cfg: Config, a: TaskId)
    requires Inv(g, cfg) && a in g.admins && g.admins[a].pc.Unloading? && InState(g, g.admins[a].pc.h, L.Unloaded)
    ensures g.admins[a].model !in g.pool.managers
  {
    hide PortsPartition, RegisteredInv, SrvInv, LockInv, WaitInv, GrantInv, QueueInv, RegInv, AttendedInv;
  }

  /** How unload_model leaves the pool when it returns normally: a manager of m is still registered if and
      only if the end of its drain found one that was UNLOADING or UNLOADED already; after an unload of its
      own there is none.  Nobody is past the admission test of m, and none of its managers is loading or READY. */
  lemma UnloadLeaves(g: Gw, cfg: Config, st: Step)
    requires Inv(g, cfg) && Enabled(g, st) && (st.AdminTakeLock? || st.AdminDecide? || st.AdminOver?)
    ensures Registered(g)
    ensures EndOf(g, st).Returned? ==>
              var m, g' := g.admins[st.a].model, Apply(g, cfg, st);
              && (m in g'.pool.managers <==> st.AdminDecide? && OnItsWay(g, m))
              && (m in g'.pool.managers <==> OnItsWay(g', m))
              && (forall c :: !PastTest(g', c, m))
              && Lease.UnloadReturns(View(g', m), IsPast(g', m))
  {
    hide Inv, Apply;
    IsRegistered(g, cfg);
    if EndOf(g, st).Returned? {
      var m := g.admins[st.a].model;
      OperatorStep(g, cfg, st);
      if st.AdminOver? { UnloadIsOver(g, cfg, st.a); }
      forall c ensures !PastTest(Apply(g, cfg, st), c, m) {
        if PastTest(Apply(g, cfg, st), c, m) {
          assert PastTest(g, c, m);
          if st.AdminTakeLock? { LockIsFree(g, cfg, c); } else { LockExcludes(g, cfg, st.a, c, m); }
        }
      }
      hide Enabled, Registered;
    }
  }

  lemma LockIsFree(g: Gw, cfg: Config, c: TaskId)
    requires Inv(g, cfg) && c in g.callers && g.callers[c].pc != WantLock
    ensures g.callers[c].model in g.locks
  {
    hide PortsPartition, RegisteredInv, SrvInv, WaitInv, AdminInv, GrantInv, QueueInv, RegInv, AttendedInv;
  }

  // ---------------------------------------------------------------- the pool as the bootstrap lease sees it

  function View(g: Gw, m: ModelId): Option<L.RunState> {
    if m in g.pool.managers && g.pool.managers[m] in g.inst then Some(g.inst[g.pool.managers[m]].srv.state) else None
  }

  ghost predicate IsPast(g: Gw, m: ModelId) { exists c :: PastTest(g, c, m) }

  /** Every step of the pool is one that the model of the lease allows, its gate being closed only when
      the admission is. */
  lemma EveryStepIsAPoolMove(g: Gw, cfg: Config, st: Step, m: ModelId, closed: bool)
    requires Inv(g, cfg) && Enabled(g, st) && (closed ==> !Admitted(g, m))
    ensures Registered(g)
    ensures var g' := Apply(g, cfg, st); Lease.PoolMove(View(g, m), IsPast(g, m), View(g', m), IsPast(g', m), closed)
  {
    hide Inv, Enabled, Apply, Registered, Admitted, Restarted, EntriesKept;
    IsRegistered(g, cfg);
    var g' := Apply(g, cfg, st);
    hide PastTest;
    if IsPast(g', m) && closed {
      var c :| PastTest(g', c, m);
      PastTestNeedsAdmission(g, cfg, st, c, m);
    }
    ViewMoves(g, cfg, st, m, closed);
  }

  lemma ViewMoves(g: Gw, cfg: Config, st: Step, m: ModelId, closed: bool)
    requires Inv(g, cfg) && Enabled(g, st) && Registered(g) && (closed ==> !Admitted(g, m))
    ensures var t, u := View(g, m), View(Apply(g, cfg, st), m);
            && (t == None ==> u == None || (!closed && u == Some(L.Loading)))
            && (t == Some(L.Ready) ==> u != Some(L.Loading))
            && (t == Some(L.Unloading) ==> Lease.Draining(u))
            && (t == Some(L.Unloaded) ==> Lease.Draining(u) || (u == Some(L.Loading) && (!closed || IsPast(g, m))))
  {
    hide Inv, Enabled, Apply, Registered, Admitted, Restarted, EntriesKept;
    var g' := Apply(g, cfg, st);
    NeverOverwrites(g, cfg, st);
    KeptEntry(g, g', m);
    KnownManagers(g, cfg);
    if m in g.pool.managers {
      var h := g.pool.managers[m];
      OnlyRestartsStart(g, cfg, st, h);
      if Restarted(g, st) == Some(h) {
        RestartedIsManager(g, cfg, st);
        RestartedFor(g, cfg, st, m);
        RestartEffect(g, cfg, st);
        RestartedServer(g.inst[h].srv, g.now);
        hide L.Apply;
        if closed { assert PastTest(g, st.c, m); }
      }
    } else if m in g'.pool.managers {
      if closed { EntryNeedsAdmission(g, cfg, st, m); }
      LaunchedFor(g, cfg, st, m);
    }
  }
}
