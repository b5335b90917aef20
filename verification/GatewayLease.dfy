/** The bootstrap lease of one model over the gateway pool, in one run: what the handlers and the watchdog of
  BootstrapLease publish is what the pool of GatewaySystem reads, and the unload that a rollback waits for is
  an operator of that pool.  A stretch of a handler between two suspensions is one step. */
module GatewayLease {
  import opened GatewayPool
  import opened GatewaySystem
  import opened GatewayProofs
  import opened GatewayTheorems
  import opened GatewayBudget
  import Gate = GatewayGate
  import Lease = BootstrapLease
  import L = ServerLifecycle

  /** drain is the operator that unloads the model for the rollback that is pending. */
  datatype Joint = Joint(g: Gw, s: Lease.Sys, drain: TaskId)

  datatype Act =
    | PoolStep(st: Step)                               // a step of the pool
    | Stretch(hs: Lease.Step, a: TaskId)               // activate, confirm; rollback and expiry up to the drain
    | Drained(st: Step, d3: Lease.Doc)                 // unload_model returns or fails, and the rollback goes on
    | EditRegistry(mem: Lease.Mem, reg: map<ModelId, Entry>)   // the admin routes that write the registry

  function EntryOf(e: Lease.Entry): Entry { Entry(e.vram, e.enabled) }

  function WithTarget(reg: map<ModelId, Entry>, m: ModelId, t: Option<Lease.Entry>): map<ModelId, Entry> {
    if t.Some? then reg[m := EntryOf(t.value)] else reg - {m}
  }

  predicate Holds(reg: map<ModelId, Entry>, m: ModelId, t: Option<Lease.Entry>) {
    (m in reg <==> t.Some?) && (t.Some? ==> reg[m] == EntryOf(t.value))
  }

  predicate Priced(t: Option<Lease.Entry>) { t.Some? ==> t.value.vram > 0.0 }

  /** What a stretch of a handler makes of the gate and of the entry of the model. */
  function Published(g: Gw, m: ModelId, s: Lease.Sys, s': Lease.Sys): Gw {
    if s'.mem == s.mem && s'.blocked == s.blocked then g
    else
      g.(reg := WithTarget(g.reg, m, s'.mem.target), regChanged := true,
         pool := g.pool.(blocked := if s'.blocked then g.pool.blocked + {m} else g.pool.blocked - {m}))
  }

  function Arrived(g: Gw, a: TaskId, m: ModelId): Gw { g.(admins := g.admins[a := Admin(m, false, AWantLock)]) }

  /** The lease sees the manager of the pool and the callers past their test. */
  ghost function Seen(s: Lease.Sys, g: Gw, m: ModelId): Lease.Sys { s.(manager := Gate.View(g, m), past := Gate.IsPast(g, m)) }

  /** The pool reads what the lease has published, and the drain of a pending rollback is on its way. */
  ghost predicate Coupled(j: Joint, m: ModelId) {
    && (j.s.blocked <==> m in j.g.pool.blocked) && Holds(j.g.reg, m, j.s.mem.target) && j.s == Seen(j.s, j.g, m)
    && (j.s.pending.Some? ==> j.drain in j.g.admins && j.g.admins[j.drain].model == m)
  }

  ghost predicate JointInv(j: Joint, cfg: Config, m: ModelId) { Inv(j.g, cfg) && Lease.Inv(j.s) && Coupled(j, m) }

  ghost predicate JointInit(j: Joint, cfg: Config, m: ModelId) {
    Init(j.g, cfg) && Lease.Init(j.s) && Coupled(j, m)
  }

  /** The gate of the model and the registry are in the hands of the lease. */
  predicate Owned(st: Step, m: ModelId) { st.SetRegistry? || (st.SetBlocked? && st.m == m) }

  predicate OperatorEnds(st: Step, a: TaskId) {
    (st.AdminTakeLock? || st.AdminDecide? || st.AdminOver? || st.AdminCancel?) && st.a == a
  }

  predicate Handler(st: Lease.Step) { st.DoActivate? || st.DoRollback? || st.DoExpire? || st.DoConfirm? }

  /** Nothing is required of the pool here: that unload_model leaves it as the rollback needs it is proved. */
  ghost predicate May(j: Joint, cfg: Config, m: ModelId, act: Act) {
    Registered(j.g) &&
    match act
    case PoolStep(st) =>
      && Enabled(j.g, st) && !Owned(st, m) && (j.s.pending.Some? ==> j.drain in Apply(j.g, cfg, st).admins)
    case Stretch(st, a) =>
      && Handler(st) && Lease.Enabled(j.s, st) && Priced(Lease.Apply(j.s, st).0.mem.target)
      && a !in j.g.callers && a !in j.g.admins
    case Drained(st, _) =>
      && j.s.pending.Some? && j.s.lease.Some? && Enabled(j.g, st) && OperatorEnds(st, j.drain)
      && j.drain in j.g.admins && j.drain !in Apply(j.g, cfg, st).admins
    case EditRegistry(mem, reg) =>
      Lease.Enabled(j.s, Lease.Edit(mem)) && Enabled(j.g, SetRegistry(reg)) && Holds(reg, m, mem.target)
  }

  /** unload_model returns normally in this step of its operator. */
  predicate Returns(g: Gw, st: Step, a: TaskId)
    requires Registered(g) && OperatorEnds(st, a) && a in g.admins
  {
    !st.AdminCancel? && Gate.EndOf(g, st).Returned?
  }

  ghost function AfterDrain(j: Joint, cfg: Config, m: ModelId, st: Step, d3: Lease.Doc): Lease.Sys
    requires Registered(j.g) && Enabled(j.g, st) && OperatorEnds(st, j.drain) && j.drain in j.g.admins
    requires j.s.pending.Some? && j.s.lease.Some?
  {
    Lease.EndRollback(Seen(j.s, Apply(j.g, cfg, st), m), Returns(j.g, st, j.drain), d3).0
  }

  ghost function Do(j: Joint, cfg: Config, m: ModelId, act: Act): Joint
    requires May(j, cfg, m, act)
  {
    match act
    case PoolStep(st) => var g' := Apply(j.g, cfg, st); j.(g := g', s := Seen(j.s, g', m))
    case Stretch(st, a) =>
      var s' := Lease.Apply(j.s, st).0;
      var g' := Published(j.g, m, j.s, s');
      if s'.pending.Some? then Joint(Arrived(g', a, m), s', a) else j.(g := g', s := s')
    case Drained(st, d3) =>
      var s' := AfterDrain(j, cfg, m, st, d3);
      j.(g := Published(Apply(j.g, cfg, st), m, j.s, s'), s := s')
    case EditRegistry(mem, reg) => j.(g := Apply(j.g, cfg, SetRegistry(reg)), s := j.s.(mem := mem))
  }

  // ---------------------------------------------------------------- what a stretch leaves alone

  lemma SeenSame(s: Lease.Sys, g: Gw, g': Gw, m: ModelId)
    requires g'.pool.managers == g.pool.managers && g'.inst == g.inst && g'.callers == g.callers
    ensures Seen(s, g', m) == Seen(s, g, m) && !Gate.LoadStarts(g, g', m)
    ensures forall c :: Gate.PastTest(g', c, m) <==> Gate.PastTest(g, c, m)
  {
    assert Gate.IsPast(g', m) <==> Gate.IsPast(g, m) by {
      if Gate.IsPast(g', m) {
        var c :| Gate.PastTest(g', c, m);
        assert Gate.PastTest(g, c, m);
      }
      if Gate.IsPast(g, m) {
        var c :| Gate.PastTest(g, c, m);
        assert Gate.PastTest(g', c, m);
      }
    }
  }

  lemma PublishedSame(g: Gw, m: ModelId, s: Lease.Sys, s': Lease.Sys)
    ensures var g' := Published(g, m, s, s');
            && g'.pool.managers == g.pool.managers && g'.inst == g.inst && g'.callers == g.callers && g'.admins == g.admins
  {
  }

  lemma PublishedHolds(g: Gw, m: ModelId, s: Lease.Sys, s': Lease.Sys)
    requires (s.blocked <==> m in g.pool.blocked) && Holds(g.reg, m, s.mem.target)
    ensures (s'.blocked <==> m in Published(g, m, s, s').pool.blocked) && Holds(Published(g, m, s, s').reg, m, s'.mem.target)
  {
  }

  lemma PublishedKeeps(g: Gw, cfg: Config, m: ModelId, s: Lease.Sys, s': Lease.Sys)
    requires Inv(g, cfg) && Priced(s'.mem.target)
    ensures Inv(Published(g, m, s, s'), cfg)
  {
    hide Inv;
    if s'.mem != s.mem || s'.blocked != s.blocked {
      var reg := WithTarget(g.reg, m, s'.mem.target);
      PricedRegistry(g, cfg);
      RegistryKeeps(g, cfg, reg);
      BlockedKeeps(g.(reg := reg, regChanged := true), cfg, if s'.blocked then g.pool.blocked + {m} else g.pool.blocked - {m});
    }
  }

  lemma PricedRegistry(g: Gw, cfg: Config)
    requires Inv(g, cfg)
    ensures forall n :: n in g.reg ==> g.reg[n].vram > 0.0
  {
    hide PortsPartition, RegisteredInv, SrvInv, LockInv, WaitInv, AdminInv, GrantInv, QueueInv, AttendedInv;
  }

  lemma ArrivedKeeps(g: Gw, cfg: Config, a: TaskId, m: ModelId)
    requires Inv(g, cfg) && a !in g.callers && a !in g.admins
    ensures Inv(Arrived(g, a, m), cfg)
  {
    hide Inv;
    StepKeepsInv(g, cfg, AdminArrive(a, m, false));
  }

  lemma HandlerLeavesPool(s: Lease.Sys, st: Lease.Step)
    requires Lease.Enabled(s, st) && Handler(st)
    ensures var s' := Lease.Apply(s, st).0; s'.manager == s.manager && s'.past == s.past && s.pending.None?
  {
  }

  // ---------------------------------------------------------------- what every step keeps

  lemma ClosedIsShut(j: Joint, cfg: Config, m: ModelId)
    requires Coupled(j, m) && Lease.Closed(j.s)
    ensures !Admitted(j.g, m)
  {
    hide Seen;
  }

  lemma PricedTarget(j: Joint, cfg: Config, m: ModelId)
    requires Inv(j.g, cfg) && Coupled(j, m)
    ensures Priced(j.s.mem.target)
  {
    hide Inv, Seen;
    PricedRegistry(j.g, cfg);
  }

  lemma SeenKeepsLease(s: Lease.Sys, g: Gw, m: ModelId)
    requires Lease.Inv(s)
    ensures Lease.Inv(Seen(s, g, m))
  {
    hide Gate.View, Gate.IsPast;
  }

  /** What the lease takes from the pool is what the pool does. */
  lemma PoolIsLeaseMove(j: Joint, cfg: Config, m: ModelId, st: Step)
    requires JointInv(j, cfg, m) && Enabled(j.g, st) && Registered(j.g)
    ensures var s' := Seen(j.s, Apply(j.g, cfg, st), m);
            Lease.Enabled(j.s, Lease.PoolMoves(s'.manager, s'.past)) && Lease.Apply(j.s, Lease.PoolMoves(s'.manager, s'.past)).0 == s'
  {
    hide Inv, Lease.Inv, Enabled, Apply, Registered, Admitted, Gate.View, Gate.IsPast, Lease.Closed, Lease.PoolMove;
    if Lease.Closed(j.s) { ClosedIsShut(j, cfg, m); }
    Gate.EveryStepIsAPoolMove(j.g, cfg, st, m, Lease.Closed(j.s));
  }

  /** The gate, the registry entry and the drain are as they were. */
  lemma PoolLeavesControl(j: Joint, cfg: Config, m: ModelId, st: Step)
    requires Coupled(j, m) && Enabled(j.g, st) && Registered(j.g) && !Owned(st, m)
    ensures var g' := Apply(j.g, cfg, st);
            && (j.s.blocked <==> m in g'.pool.blocked) && Holds(g'.reg, m, j.s.mem.target)
            && (j.s.pending.Some? && j.drain in g'.admins ==> g'.admins[j.drain].model == m)
  {
    hide Enabled, Registered, Seen;
    if st.SetBlocked? {
    } else {
      hide Apply;
      ControlKept(j.g, cfg, st);
    }
  }

  lemma PoolKeeps(j: Joint, cfg: Config, m: ModelId, st: Step)
    requires JointInv(j, cfg, m) && May(j, cfg, m, PoolStep(st))
    ensures JointInv(Do(j, cfg, m, PoolStep(st)), cfg, m)
  {
    hide Inv, Lease.Inv, Enabled, Apply, Registered, Gate.View, Gate.IsPast, Holds, Owned;
    StepKeepsInv(j.g, cfg, st);
    SeenKeepsLease(j.s, Apply(j.g, cfg, st), m);
    PoolLeavesControl(j, cfg, m, st);
  }

  lemma StretchKeeps(j: Joint, cfg: Config, m: ModelId, hs: Lease.Step, a: TaskId)
    requires JointInv(j, cfg, m) && May(j, cfg, m, Stretch(hs, a))
    ensures JointInv(Do(j, cfg, m, Stretch(hs, a)), cfg, m)
  {
    hide Inv, Lease.Inv, Lease.Apply, Lease.Enabled, Registered, Published, Holds, Handler, Seen, Priced;
    var s' := Lease.Apply(j.s, hs).0;
    Lease.StepKeepsInv(j.s, hs);
    HandlerLeavesPool(j.s, hs);
    PublishedKeeps(j.g, cfg, m, j.s, s');
    PublishedSame(j.g, m, j.s, s');
    PublishedHolds(j.g, m, j.s, s');
    var g' := Published(j.g, m, j.s, s');
    SeenSame(s', j.g, g', m);
    SeenAgain(j.s, s', j.g, m);
    if s'.pending.Some? {
      ArrivedKeeps(g', cfg, a, m);
      SeenSame(s', g', Arrived(g', a, m), m);
    }
  }

  lemma SeenAgain(s: Lease.Sys, s': Lease.Sys, g: Gw, m: ModelId)
    requires s == Seen(s, g, m) && s'.manager == s.manager && s'.past == s.past
    ensures s' == Seen(s', g, m)
  {
    hide Gate.View, Gate.IsPast;
  }

  /** unload_model returns normally only with the pool as the rollback needs it. */
  lemma ReturnIsSafe(j: Joint, cfg: Config, m: ModelId, st: Step)
    requires Inv(j.g, cfg) && Coupled(j, m) && j.s.pending.Some? && Registered(j.g)
    requires Enabled(j.g, st) && OperatorEnds(st, j.drain) && Returns(j.g, st, j.drain)
    ensures var g' := Apply(j.g, cfg, st); Lease.UnloadReturns(Gate.View(g', m), Gate.IsPast(g', m))
  {
    hide Inv, Enabled, Apply, Registered, Gate.View, Gate.IsPast, Lease.UnloadReturns, Gate.EndOf, Holds;
    Gate.UnloadLeaves(j.g, cfg, st);
  }

  lemma DrainIsLeaseStep(j: Joint, cfg: Config, m: ModelId, st: Step, d3: Lease.Doc)
    requires JointInv(j, cfg, m) && Registered(j.g) && Enabled(j.g, st) && OperatorEnds(st, j.drain) && j.drain in j.g.admins
    requires j.s.pending.Some? && j.s.lease.Some?
    ensures var s1 := Seen(j.s, Apply(j.g, cfg, st), m); var us := Lease.DoUnloaded(Returns(j.g, st, j.drain), d3);
            && Lease.Inv(s1) && Lease.Enabled(s1, us) && Lease.Apply(s1, us).0 == AfterDrain(j, cfg, m, st, d3)
  {
    hide Inv, Lease.Inv, Enabled, Apply, Registered, Gate.View, Gate.IsPast, Lease.UnloadReturns, Gate.EndOf, Holds, OperatorEnds;
    SeenKeepsLease(j.s, Apply(j.g, cfg, st), m);
    if Returns(j.g, st, j.drain) { ReturnIsSafe(j, cfg, m, st); }
  }

  lemma EndLeavesPool(s: Lease.Sys, ok: bool, d3: Lease.Doc)
    requires s.pending.Some? && s.lease.Some?
    ensures var s' := Lease.EndRollback(s, ok, d3).0;
            && s'.manager == s.manager && s'.past == s.past && s'.mem == s.mem && s'.pending == None
            && (s'.blocked != s.blocked ==> ok && !s'.blocked && Lease.InPhase(s', Lease.RolledBack))
  {
  }

  lemma DrainedKeeps(j: Joint, cfg: Config, m: ModelId, st: Step, d3: Lease.Doc)
    requires JointInv(j, cfg, m) && May(j, cfg, m, Drained(st, d3))
    ensures JointInv(Do(j, cfg, m, Drained(st, d3)), cfg, m)
  {
    hide Inv, Lease.Inv, Lease.Apply, Lease.Enabled, Enabled, Apply, Registered, Published, Holds, Seen, Priced, Returns;
    var g' := Apply(j.g, cfg, st);
    var s' := AfterDrain(j, cfg, m, st, d3);
    StepKeepsInv(j.g, cfg, st);
    DrainIsLeaseStep(j, cfg, m, st, d3);
    Lease.StepKeepsInv(Seen(j.s, g', m), Lease.DoUnloaded(Returns(j.g, st, j.drain), d3));
    SeenFields(j.s, g', m);
    EndLeavesPool(Seen(j.s, g', m), Returns(j.g, st, j.drain), d3);
    PricedTarget(j, cfg, m);
    assert !Owned(st, m);
    PoolLeavesControl(j, cfg, m, st);
    PublishedKeeps(g', cfg, m, j.s, s');
    PublishedSame(g', m, j.s, s');
    PublishedHolds(g', m, j.s, s');
    SeenSame(s', g', Published(g', m, j.s, s'), m);
    SeenTwice(j.s, s', g', m);
  }

  lemma SeenFields(s: Lease.Sys, g: Gw, m: ModelId)
    ensures Seen(s, g, m).mem == s.mem && Seen(s, g, m).blocked == s.blocked && Seen(s, g, m).pending == s.pending
    ensures Seen(s, g, m).lease == s.lease && Seen(Seen(s, g, m), g, m) == Seen(s, g, m)
  {
  }

  lemma SeenTwice(s: Lease.Sys, s': Lease.Sys, g: Gw, m: ModelId)
    requires s'.manager == Seen(s, g, m).manager && s'.past == Seen(s, g, m).past
    ensures s' == Seen(s', g, m)
  {
    hide Gate.View, Gate.IsPast;
  }

  lemma EditKeeps(j: Joint, cfg: Config, m: ModelId, mem: Lease.Mem, reg: map<ModelId, Entry>)
    requires JointInv(j, cfg, m) && May(j, cfg, m, EditRegistry(mem, reg))
    ensures JointInv(Do(j, cfg, m, EditRegistry(mem, reg)), cfg, m)
  {
    hide Inv, Lease.Inv, Enabled, Registered, Holds, Seen;
    StepKeepsInv(j.g, cfg, SetRegistry(reg));
    Lease.StepKeepsInv(j.s, Lease.Edit(mem));
    EditIs(j, cfg, reg);
    var j' := Do(j, cfg, m, EditRegistry(mem, reg));
    SeenSame(j'.s, j.g, j'.g, m);
    SeenAgain(j.s, j'.s, j.g, m);
  }

  lemma EditIs(j: Joint, cfg: Config, reg: map<ModelId, Entry>)
    requires Enabled(j.g, SetRegistry(reg)) && Registered(j.g)
    ensures Apply(j.g, cfg, SetRegistry(reg)) == j.g.(reg := reg, regChanged := true)
  {
  }

  lemma JointStepKeeps(j: Joint, cfg: Config, m: ModelId, act: Act)
    requires JointInv(j, cfg, m) && May(j, cfg, m, act)
    ensures JointInv(Do(j, cfg, m, act), cfg, m)
  {
    hide JointInv, May, Do;
    match act
    case PoolStep(st) => PoolKeeps(j, cfg, m, st);
    case Stretch(hs, a) => StretchKeeps(j, cfg, m, hs, a);
    case Drained(st, d3) => DrainedKeeps(j, cfg, m, st, d3);
    case EditRegistry(mem, reg) => EditKeeps(j, cfg, m, mem, reg);
  }

  // ---------------------------------------------------------------- joint runs

  ghost predicate JointRun(trace: seq<Joint>, acts: seq<Act>, cfg: Config, m: ModelId) {
    && |trace| == |acts| + 1 && JointInit(trace[0], cfg, m)
    && forall i :: 0 <= i < |acts| ==> May(trace[i], cfg, m, acts[i]) && trace[i + 1] == Do(trace[i], cfg, m, acts[i])
  }

  lemma InitJoint(j: Joint, cfg: Config, m: ModelId)
    requires JointInit(j, cfg, m)
    ensures JointInv(j, cfg, m)
  {
    hide Init, Inv, Lease.Init, Lease.Inv, Coupled;
    InitHasInv(j.g, cfg);
    Lease.InitHasInv(j.s);
  }

  lemma {:induction false} JointRunKeeps(trace: seq<Joint>, acts: seq<Act>, cfg: Config, m: ModelId, k: nat)
    requires JointRun(trace, acts, cfg, m) && k <= |acts|
    ensures JointInv(trace[k], cfg, m)
  {
    hide JointInv, JointInit, May, Do;
    if k == 0 {
      InitJoint(trace[0], cfg, m);
    } else {
      JointRunKeeps(trace, acts, cfg, m, k - 1);
      JointStepKeeps(trace[k - 1], cfg, m, acts[k - 1]);
      assert trace[k - 1 + 1] == Do(trace[k - 1], cfg, m, acts[k - 1]);
    }
  }

  /** In every state of every joint run: the gate of the pool is closed exactly while a rollback is under way,
      the model is then disabled in the registry that the pool reads and nobody is admitted; while an
      activation is open, that registry has the model enabled with the calibrated size. */
  lemma {:induction false} PoolSeesThePhase(trace: seq<Joint>, acts: seq<Act>, cfg: Config, m: ModelId, k: nat)
    requires JointRun(trace, acts, cfg, m) && k <= |acts|
    ensures var j := trace[k];
            && (m in j.g.pool.blocked <==> Lease.InPhase(j.s, Lease.RollingBack))
            && (Lease.InPhase(j.s, Lease.RollingBack) ==> !Admitted(j.g, m) && m in j.g.reg && !j.g.reg[m].enabled)
            && (Lease.InPhase(j.s, Lease.Active) ==> m in j.g.reg && j.g.reg[m] == Entry(j.s.lease.value.vram, true))
  {
    hide Inv, Seen;
    JointRunKeeps(trace, acts, cfg, m, k);
  }

  // ---------------------------------------------------------------- loads behind the gate

  lemma SameStarts(g: Gw, g1: Gw, g2: Gw, m: ModelId)
    requires g1.pool.managers == g2.pool.managers && g1.inst == g2.inst && g1.callers == g2.callers
    ensures Gate.LoadStarts(g, g1, m) <==> Gate.LoadStarts(g, g2, m)
    ensures forall c :: Gate.PastTest(g1, c, m) <==> Gate.PastTest(g2, c, m)
  {
  }

  /** What an act does to the managers, the instances and the callers is what its pool step does. */
  lemma ActIsPoolStep(j: Joint, cfg: Config, m: ModelId, act: Act)
    requires JointInv(j, cfg, m) && May(j, cfg, m, act)
    ensures var g' := Do(j, cfg, m, act).g;
            var g1 := if act.PoolStep? || act.Drained? then Apply(j.g, cfg, act.st) else j.g;
            g'.pool.managers == g1.pool.managers && g'.inst == g1.inst && g'.callers == g1.callers
  {
    hide JointInv, Enabled, Apply, Registered, Published, Lease.Apply, Lease.Enabled, Priced, Holds, Seen, AfterDrain;
    match act
    case PoolStep(st) =>
    case Stretch(hs, a) => PublishedSame(j.g, m, j.s, Lease.Apply(j.s, hs).0);
    case Drained(st, d3) => PublishedSame(Apply(j.g, cfg, st), m, j.s, AfterDrain(j, cfg, m, st, d3));
    case EditRegistry(mem, reg) => EditIs(j, cfg, reg);
  }

  lemma PoolFacts(j: Joint, cfg: Config, m: ModelId, act: Act)
    requires JointInv(j, cfg, m) && May(j, cfg, m, act)
    ensures Inv(j.g, cfg) && Registered(j.g) && (act.PoolStep? || act.Drained? ==> Enabled(j.g, act.st))
    ensures act.Drained? ==> !act.st.GetCond?
  {
    hide Inv, Lease.Inv, Enabled, Apply, Registered, Coupled, Lease.Enabled, Priced, Holds;
  }

  /** While the model is not admitted, exactly: an act starts a load if and only if it takes a caller that is
      past its test to an UNLOADED manager; and nobody comes past the test. */
  lemma JointStarts(j: Joint, cfg: Config, m: ModelId, act: Act)
    requires JointInv(j, cfg, m) && May(j, cfg, m, act) && !Admitted(j.g, m)
    ensures var g' := Do(j, cfg, m, act).g;
            && (Gate.LoadStarts(j.g, g', m) <==> act.PoolStep? && Gate.RestartsBehindGate(j.g, act.st, m))
            && forall c :: Gate.PastTest(g', c, m) ==> Gate.PastTest(j.g, c, m)
  {
    hide JointInv, May, Do, Inv, Enabled, Apply, Registered, Admitted, Gate.LoadStarts, Gate.PastTest;
    var g' := Do(j, cfg, m, act).g;
    PoolFacts(j, cfg, m, act);
    ActIsPoolStep(j, cfg, m, act);
    if act.PoolStep? || act.Drained? {
      var g1 := Apply(j.g, cfg, act.st);
      SameStarts(j.g, g', g1, m);
      Gate.LoadBehindGateIff(j.g, cfg, act.st, m);
      forall c | Gate.PastTest(g', c, m) ensures Gate.PastTest(j.g, c, m) {
        Gate.PastTestNeedsAdmission(j.g, cfg, act.st, c, m);
      }
    } else {
      SeenSame(j.s, j.g, g', m);
    }
  }

  lemma {:induction false} PastSinceClosing(trace: seq<Joint>, acts: seq<Act>, cfg: Config, m: ModelId, i: nat, k: nat, c: TaskId)
    requires JointRun(trace, acts, cfg, m) && i <= k <= |acts|
    requires forall l :: i <= l <= k ==> Lease.InPhase(trace[l].s, Lease.RollingBack)
    requires Gate.PastTest(trace[k].g, c, m)
    ensures Gate.PastTest(trace[i].g, c, m)
    decreases k - i
  {
    hide JointInv, JointInit, May, Do, Admitted, Gate.PastTest, Lease.InPhase;
    if i < k {
      JointRunKeeps(trace, acts, cfg, m, k - 1);
      PoolSeesThePhase(trace, acts, cfg, m, k - 1);
      assert trace[k - 1 + 1] == Do(trace[k - 1], cfg, m, acts[k - 1]);
      JointStarts(trace[k - 1], cfg, m, acts[k - 1]);
      PastSinceClosing(trace, acts, cfg, m, i, k - 1, c);
    }
  }

  /** Throughout a rollback that is under way, in any joint run: a load of the model starts if and only if a
      caller that was past the admission test when the rollback began reaches an UNLOADED manager. */
  lemma {:induction false} LoadsDuringRollback(trace: seq<Joint>, acts: seq<Act>, cfg: Config, m: ModelId, i: nat, k: nat)
    requires JointRun(trace, acts, cfg, m) && i <= k < |acts|
    requires forall l :: i <= l <= k ==> Lease.InPhase(trace[l].s, Lease.RollingBack)
    ensures Gate.LoadStarts(trace[k].g, trace[k + 1].g, m) <==>
              && acts[k].PoolStep? && Gate.RestartsBehindGate(trace[k].g, acts[k].st, m)
              && Gate.PastTest(trace[i].g, acts[k].st.c, m)
  {
    hide JointInv, JointInit, May, Do, Admitted, Lease.InPhase, Gate.LoadStarts, Gate.PastTest;
    JointRunKeeps(trace, acts, cfg, m, k);
    PoolSeesThePhase(trace, acts, cfg, m, k);
    JointStarts(trace[k], cfg, m, acts[k]);
    if acts[k].PoolStep? && Gate.RestartsBehindGate(trace[k].g, acts[k].st, m) {
      PastSinceClosing(trace, acts, cfg, m, i, k, acts[k].st.c);
    }
  }

  // ---------------------------------------------------------------- after the rollback

  /** Shut, with nobody past the test and no manager that loads or serves. */
  ghost predicate Down(j: Joint) { Lease.Closed(j.s) && Lease.Draining(j.s.manager) && !j.s.past }

  lemma DownMeans(j: Joint, cfg: Config, m: ModelId)
    requires JointInv(j, cfg, m) && Down(j)
    ensures !Admitted(j.g, m) && Lease.Draining(Gate.View(j.g, m)) && forall c :: !Gate.PastTest(j.g, c, m)
  {
    hide Inv, Lease.Inv, Admitted, Lease.Closed, Holds, Gate.View, Gate.PastTest;
    ClosedIsShut(j, cfg, m);
  }

  lemma DownStartsNothing(j: Joint, cfg: Config, m: ModelId, act: Act)
    requires JointInv(j, cfg, m) && May(j, cfg, m, act) && Down(j)
    ensures !Gate.LoadStarts(j.g, Do(j, cfg, m, act).g, m)
  {
    hide JointInv, May, Do, Down, Admitted, Gate.LoadStarts, Gate.PastTest;
    DownMeans(j, cfg, m);
    JointStarts(j, cfg, m, act);
  }

  /** The handlers that make the model available. */
  predicate Activates(s: Lease.Sys, act: Act) {
    act.EditRegistry?
    || (act.Stretch? && act.hs.DoActivate? && Lease.Enabled(s, act.hs) && Lease.Apply(s, act.hs).1 == Lease.Done)
  }

  lemma MoveStaysDown(j: Joint, cfg: Config, m: ModelId, st: Step)
    requires JointInv(j, cfg, m) && Enabled(j.g, st) && Registered(j.g) && Down(j)
    ensures var s' := Seen(j.s, Apply(j.g, cfg, st), m); Lease.Closed(s') && Lease.Draining(s'.manager) && !s'.past
  {
    hide JointInv, Enabled, Apply, Registered, Gate.View, Gate.IsPast, Lease.Enabled;
    PoolIsLeaseMove(j, cfg, m, st);
    var s' := Seen(j.s, Apply(j.g, cfg, st), m);
    Lease.ManagerStaysAway(j.s, Lease.PoolMoves(s'.manager, s'.past));
  }

  lemma StaysDown(j: Joint, cfg: Config, m: ModelId, act: Act)
    requires JointInv(j, cfg, m) && May(j, cfg, m, act) && Down(j) && !Activates(j.s, act)
    ensures Down(Do(j, cfg, m, act))
  {
    hide Inv, Coupled, Lease.Inv, Enabled, Apply, Registered, Published, Lease.Apply, Lease.Enabled, Priced, Holds, Seen,
      Lease.Closed, Lease.Draining, Returns;
    match act
    case PoolStep(st) => MoveStaysDown(j, cfg, m, st);
    case Stretch(hs, a) =>
      HandlerLeavesPool(j.s, hs);
      Lease.StaysClosed(j.s, hs);
    case Drained(st, d3) =>
      MoveStaysDown(j, cfg, m, st);
      DrainIsLeaseStep(j, cfg, m, st, d3);
      Lease.StaysClosed(Seen(j.s, Apply(j.g, cfg, st), m), Lease.DoUnloaded(Returns(j.g, st, j.drain), d3));
      SeenFields(j.s, Apply(j.g, cfg, st), m);
      EndLeavesPool(Seen(j.s, Apply(j.g, cfg, st), m), Returns(j.g, st, j.drain), d3);
    case EditRegistry(mem, reg) =>
  }

  lemma StretchKeepsGate(j: Joint, cfg: Config, m: ModelId, hs: Lease.Step, a: TaskId)
    requires JointInv(j, cfg, m) && May(j, cfg, m, Stretch(hs, a)) && m in j.g.pool.blocked
    ensures m in Do(j, cfg, m, Stretch(hs, a)).g.pool.blocked
  {
    hide Inv, Lease.Inv, Lease.Apply, Lease.Enabled, Registered, Published, Holds, Seen, Priced;
    var s' := Lease.Apply(j.s, hs).0;
    PublishedHolds(j.g, m, j.s, s');
    if !s'.blocked { Lease.GateReopensDisabled(j.s, hs); }
  }

  lemma OnlyDrainOpens(j: Joint, cfg: Config, m: ModelId, act: Act)
    requires JointInv(j, cfg, m) && May(j, cfg, m, act) && m in j.g.pool.blocked && m !in Do(j, cfg, m, act).g.pool.blocked
    ensures act.Drained? && !AfterDrain(j, cfg, m, act.st, act.d3).blocked
  {
    hide Inv, Lease.Inv, Lease.Apply, Enabled, Apply, Registered, Published, Holds, Seen, Priced, AfterDrain;
    match act
    case PoolStep(st) => PoolLeavesControl(j, cfg, m, st);
    case Stretch(hs, a) => StretchKeepsGate(j, cfg, m, hs, a);
    case Drained(st, d3) =>
      assert !Owned(st, m);
      PoolLeavesControl(j, cfg, m, st);
      PublishedHolds(Apply(j.g, cfg, st), m, j.s, AfterDrain(j, cfg, m, st, d3));
    case EditRegistry(mem, reg) => BlockedRollsBack(j.s);
  }

  lemma BlockedRollsBack(s: Lease.Sys)
    requires Lease.Inv(s) && s.blocked
    ensures Lease.InPhase(s, Lease.RollingBack)
  {
  }

  lemma ReopensDown(j: Joint, cfg: Config, m: ModelId, st: Step, d3: Lease.Doc)
    requires JointInv(j, cfg, m) && Registered(j.g) && Enabled(j.g, st) && OperatorEnds(st, j.drain) && j.drain in j.g.admins
    requires j.s.pending.Some? && j.s.lease.Some? && j.s.blocked && !AfterDrain(j, cfg, m, st, d3).blocked
    ensures Returns(j.g, st, j.drain)
    ensures var s' := AfterDrain(j, cfg, m, st, d3);
            && Lease.InPhase(s', Lease.RolledBack) && Lease.Closed(s') && Lease.Draining(s'.manager) && !s'.past
            && s'.mem.target.Some? && !s'.mem.target.value.enabled
  {
    hide Inv, Lease.Inv, Lease.Apply, Lease.Enabled, Enabled, Apply, Registered, Holds, Seen, Lease.Closed, AfterDrain, Returns, OperatorEnds;
    var s1 := Seen(j.s, Apply(j.g, cfg, st), m);
    DrainIsLeaseStep(j, cfg, m, st, d3);
    SeenFields(j.s, Apply(j.g, cfg, st), m);
    Lease.GateReopensDisabled(s1, Lease.DoUnloaded(Returns(j.g, st, j.drain), d3));
    NotServing(s1.manager);
  }

  lemma NotServing(t: Option<L.RunState>)
    requires t != Some(L.Loading) && t != Some(L.Ready)
    ensures Lease.Draining(t)
  {
    if t.Some? { assert t.value.Unloaded? || t.value.Loading? || t.value.Ready? || t.value.Unloading?; }
  }

  /** The gate opens in no other act than the normal return of the unload that a rollback waits for, and finds
      the model disabled, nobody past the test and no manager that loads or serves; a manager is still
      registered if and only if the end of the drain found one UNLOADING or UNLOADED already. */
  lemma GateReopens(j: Joint, cfg: Config, m: ModelId, act: Act)
    requires JointInv(j, cfg, m) && May(j, cfg, m, act) && m in j.g.pool.blocked && m !in Do(j, cfg, m, act).g.pool.blocked
    ensures act.Drained? && Returns(j.g, act.st, j.drain)
    ensures Lease.InPhase(j.s, Lease.RollingBack) && Lease.InPhase(Do(j, cfg, m, act).s, Lease.RolledBack)
    ensures var j' := Do(j, cfg, m, act);
            && Down(j') && m in j'.g.reg && !j'.g.reg[m].enabled
            && (m in j'.g.pool.managers <==> act.st.AdminDecide? && Gate.OnItsWay(j.g, m))
  {
    hide Inv, Lease.Inv, Lease.Apply, Lease.Enabled, Enabled, Apply, Registered, Published, Seen, Lease.Closed, Lease.Draining,
      AfterDrain, Gate.OnItsWay, Gate.EndOf, Gate.View, Gate.IsPast;
    OnlyDrainOpens(j, cfg, m, act);
    BlockedRollsBack(j.s);
    JointStepKeeps(j, cfg, m, act);
    ReopensDown(j, cfg, m, act.st, act.d3);
    PublishedSame(Apply(j.g, cfg, act.st), m, j.s, AfterDrain(j, cfg, m, act.st, act.d3));
    Gate.UnloadLeaves(j.g, cfg, act.st);
  }

  lemma {:induction false} DownSince(trace: seq<Joint>, acts: seq<Act>, cfg: Config, m: ModelId, i: nat, k: nat)
    requires JointRun(trace, acts, cfg, m) && i < k <= |acts|
    requires m in trace[i].g.pool.blocked && m !in trace[i + 1].g.pool.blocked
    requires forall l :: i < l < k ==> !Activates(trace[l].s, acts[l])
    ensures Down(trace[k])
    decreases k - i
  {
    hide JointInv, JointInit, May, Do, Down, Activates;
    JointRunKeeps(trace, acts, cfg, m, k - 1);
    assert trace[k - 1 + 1] == Do(trace[k - 1], cfg, m, acts[k - 1]);
    if k == i + 1 {
      GateReopens(trace[i], cfg, m, acts[i]);
    } else {
      DownSince(trace, acts, cfg, m, i, k - 1);
      StaysDown(trace[k - 1], cfg, m, acts[k - 1]);
    }
  }

  /** From the moment a rollback has reopened the gate until somebody activates the model or edits the
      registry, in any joint run: nobody is admitted or past the test, none of its managers is LOADING or
      READY, and no act starts a load of it. */
  lemma RolledBackStaysUnloaded(trace: seq<Joint>, acts: seq<Act>, cfg: Config, m: ModelId, i: nat, k: nat)
    requires JointRun(trace, acts, cfg, m) && i < k <= |acts|
    requires m in trace[i].g.pool.blocked && m !in trace[i + 1].g.pool.blocked
    requires forall l :: i < l < k ==> !Activates(trace[l].s, acts[l])
    ensures !Admitted(trace[k].g, m) && Lease.Draining(Gate.View(trace[k].g, m)) && forall c :: !Gate.PastTest(trace[k].g, c, m)
    ensures k < |acts| ==> !Gate.LoadStarts(trace[k].g, trace[k + 1].g, m)
  {
    hide JointInv, JointInit, May, Do, Down, Activates, Admitted, Gate.View, Gate.LoadStarts, Gate.PastTest, Lease.Draining;
    DownSince(trace, acts, cfg, m, i, k);
    JointRunKeeps(trace, acts, cfg, m, k);
    DownMeans(trace[k], cfg, m);
    if k < |acts| { DownStartsNothing(trace[k], cfg, m, acts[k]); }
  }

  // ---------------------------------------------------------------- nothing is left out

  /** Every step of the pool that does not touch the gate or the registry is an act. */
  lemma EveryPoolStepIsAnAct(j: Joint, cfg: Config, m: ModelId, st: Step, d3: Lease.Doc)
    requires JointInv(j, cfg, m) && Enabled(j.g, st) && !Owned(st, m)
    ensures May(j, cfg, m, PoolStep(st)) || May(j, cfg, m, Drained(st, d3))
  {
    hide Inv, Enabled, Apply, Registered, Lease.Enabled, Seen, Holds, Owned;
    IsRegistered(j.g, cfg);
    if j.s.pending.Some? && j.drain !in Apply(j.g, cfg, st).admins {
      LeavesItself(j.g, cfg, st, j.drain);
      assert j.s.lease.Some? by { PendingHasLease(j.s); }
    }
  }

  lemma PendingHasLease(s: Lease.Sys)
    requires Lease.Inv(s) && s.pending.Some?
    ensures s.lease.Some?
  {
  }

  /** An operator leaves only in a step of its own. */
  lemma LeavesItself(g: Gw, cfg: Config, st: Step, a: TaskId)
    requires Enabled(g, st) && Registered(g) && a in g.admins && a !in Apply(g, cfg, st).admins
    ensures OperatorEnds(st, a)
  {
    hide Enabled, Apply, Registered;
    OperatorsLeaveThemselves(g, cfg, st);
  }

  // ---------------------------------------------------------------- the two runs in a joint one

  lemma ExtendLease(lt: seq<Lease.Sys>, ls: seq<Lease.Step>, st: Lease.Step)
    requires Lease.Run(lt, ls) && Lease.Enabled(lt[|ls|], st)
    ensures Lease.Run(lt + [Lease.Apply(lt[|ls|], st).0], ls + [st]) && |lt| == |ls| + 1
  {
    hide Lease.Enabled, Lease.Apply, Lease.Init;
    var lt', ls' := lt + [Lease.Apply(lt[|ls|], st).0], ls + [st];
    forall i | 0 <= i < |ls'| ensures Lease.Enabled(lt'[i], ls'[i]) && lt'[i + 1] == Lease.Apply(lt'[i], ls'[i]).0 {
      if i < |ls| { assert lt'[i] == lt[i] && ls'[i] == ls[i] && lt'[i + 1] == lt[i + 1]; }
    }
  }

  /** What an act does to the lease are one or two of its steps. */
  lemma ActExtendsLease(j: Joint, cfg: Config, m: ModelId, act: Act, lt: seq<Lease.Sys>, ls: seq<Lease.Step>)
    returns (lt': seq<Lease.Sys>, ls': seq<Lease.Step>)
    requires JointInv(j, cfg, m) && May(j, cfg, m, act) && Lease.Run(lt, ls) && lt[|ls|] == j.s
    ensures Lease.Run(lt', ls') && lt'[|ls'|] == Do(j, cfg, m, act).s && lt <= lt'
  {
    hide Inv, Lease.Inv, Lease.Apply, Lease.Enabled, Lease.Run, Enabled, Apply, Registered, Coupled, Published, Holds, Priced, Handler,
      Returns, OperatorEnds;
    match act
    case PoolStep(st) =>
      PoolIsLeaseMove(j, cfg, m, st);
      lt', ls' := MoveLease(j.s, Seen(j.s, Apply(j.g, cfg, st), m), lt, ls);
    case Stretch(hs, a) =>
      ExtendLease(lt, ls, hs);
      lt', ls' := lt + [Lease.Apply(j.s, hs).0], ls + [hs];
    case Drained(st, d3) =>
      PoolIsLeaseMove(j, cfg, m, st);
      var s1 := Seen(j.s, Apply(j.g, cfg, st), m);
      lt', ls' := MoveLease(j.s, s1, lt, ls);
      DrainIsLeaseStep(j, cfg, m, st, d3);
      var us := Lease.DoUnloaded(Returns(j.g, st, j.drain), d3);
      ExtendLease(lt', ls', us);
      lt', ls' := lt' + [Lease.Apply(s1, us).0], ls' + [us];
    case EditRegistry(mem, reg) =>
      ExtendLease(lt, ls, Lease.Edit(mem));
      EditIsLeaseStep(j.s, mem);
      lt', ls' := lt + [Lease.Apply(j.s, Lease.Edit(mem)).0], ls + [Lease.Edit(mem)];
  }

  lemma EditIsLeaseStep(s: Lease.Sys, mem: Lease.Mem)
    requires Lease.Enabled(s, Lease.Edit(mem))
    ensures Lease.Apply(s, Lease.Edit(mem)).0 == s.(mem := mem)
  {
  }

  lemma MoveLease(s: Lease.Sys, s': Lease.Sys, lt: seq<Lease.Sys>, ls: seq<Lease.Step>) returns (lt': seq<Lease.Sys>, ls': seq<Lease.Step>)
    requires Lease.Run(lt, ls) && lt[|ls|] == s
    requires var pm := Lease.PoolMoves(s'.manager, s'.past); Lease.Enabled(s, pm) && Lease.Apply(s, pm).0 == s'
    ensures Lease.Run(lt', ls') && lt'[|ls'|] == s' && lt <= lt'
  {
    hide Lease.Apply, Lease.Enabled, Lease.Run;
    var pm := Lease.PoolMoves(s'.manager, s'.past);
    ExtendLease(lt, ls, pm);
    lt', ls' := lt + [Lease.Apply(s, pm).0], ls + [pm];
  }

  /** The states of the lease in a joint run are those of a run of the lease by itself. */
  lemma {:induction false} LeaseRunWithin(trace: seq<Joint>, acts: seq<Act>, cfg: Config, m: ModelId, k: nat)
    returns (lt: seq<Lease.Sys>, ls: seq<Lease.Step>)
    requires JointRun(trace, acts, cfg, m) && k <= |acts|
    ensures Lease.Run(lt, ls) && lt[|ls|] == trace[k].s
  {
    hide JointInv, May, Do, Lease.Run, Init;
    if k == 0 {
      lt, ls := [trace[0].s], [];
      LeaseStart(trace[0].s);
    } else {
      lt, ls := LeaseRunWithin(trace, acts, cfg, m, k - 1);
      JointRunKeeps(trace, acts, cfg, m, k - 1);
      assert trace[k - 1 + 1] == Do(trace[k - 1], cfg, m, acts[k - 1]);
      lt, ls := ActExtendsLease(trace[k - 1], cfg, m, acts[k - 1], lt, ls);
    }
  }

  lemma LeaseStart(s: Lease.Sys)
    requires Lease.Init(s)
    ensures Lease.Run([s], [])
  {
  }

  lemma ExtendPool(gt: seq<Gw>, gs: seq<Step>, cfg: Config, st: Step)
    requires Run(gt, gs, cfg) && Enabled(gt[|gs|], st) && Registered(gt[|gs|])
    ensures Run(gt + [Apply(gt[|gs|], cfg, st)], gs + [st], cfg) && |gt| == |gs| + 1
  {
    hide Enabled, Apply, Registered;
    var gt', gs' := gt + [Apply(gt[|gs|], cfg, st)], gs + [st];
    forall i | 0 <= i < |gs'|
      ensures Enabled(gt'[i], gs'[i]) && Registered(gt'[i]) && gt'[i + 1] == Apply(gt'[i], cfg, gs'[i])
    {
      if i < |gs| { assert gt'[i] == gt[i] && gs'[i] == gs[i] && gt'[i + 1] == gt[i + 1]; }
    }
  }

  lemma StepPool(g: Gw, cfg: Config, st: Step, gt: seq<Gw>, gs: seq<Step>) returns (gt': seq<Gw>, gs': seq<Step>)
    requires Inv(g, cfg) && Enabled(g, st) && Registered(g) && Run(gt, gs, cfg) && gt[|gs|] == g
    ensures Run(gt', gs', cfg) && gt'[|gs'|] == Apply(g, cfg, st) && gt <= gt' && Inv(Apply(g, cfg, st), cfg)
  {
    hide Inv, Enabled, Apply, Registered, Run;
    ExtendPool(gt, gs, cfg, st);
    StepKeepsInv(g, cfg, st);
    gt', gs' := gt + [Apply(g, cfg, st)], gs + [st];
  }

  lemma PublishPool(g: Gw, cfg: Config, m: ModelId, s: Lease.Sys, s': Lease.Sys, gt: seq<Gw>, gs: seq<Step>)
    returns (gt': seq<Gw>, gs': seq<Step>)
    requires Inv(g, cfg) && Priced(s'.mem.target) && Run(gt, gs, cfg) && gt[|gs|] == g
    ensures Run(gt', gs', cfg) && gt'[|gs'|] == Published(g, m, s, s') && gt <= gt'
  {
    hide Inv, Run;
    if s'.mem == s.mem && s'.blocked == s.blocked {
      gt', gs' := gt, gs;
    } else {
      var reg := WithTarget(g.reg, m, s'.mem.target);
      PricedRegistry(g, cfg);
      IsRegistered(g, cfg);
      RegistryStep(g, cfg, reg);
      var g1 := g.(reg := reg, regChanged := true);
      gt', gs' := StepPool(g, cfg, SetRegistry(reg), gt, gs);
      IsRegistered(g1, cfg);
      GateStep(g1, cfg, m, s'.blocked);
      gt', gs' := StepPool(g1, cfg, SetBlocked(m, s'.blocked), gt', gs');
    }
  }

  lemma RegistryStep(g: Gw, cfg: Config, reg: map<ModelId, Entry>)
    requires Registered(g) && forall n :: n in reg ==> reg[n].vram > 0.0
    ensures Enabled(g, SetRegistry(reg)) && Apply(g, cfg, SetRegistry(reg)) == g.(reg := reg, regChanged := true)
  {
  }

  lemma GateStep(g: Gw, cfg: Config, m: ModelId, on: bool)
    requires Registered(g)
    ensures Enabled(g, SetBlocked(m, on))
    ensures Apply(g, cfg, SetBlocked(m, on)) ==
              g.(pool := g.pool.(blocked := if on then g.pool.blocked + {m} else g.pool.blocked - {m}))
  {
  }

  /** What an act does to the pool are at most three of its steps. */
  lemma ActExtendsPool(j: Joint, cfg: Config, m: ModelId, act: Act, gt: seq<Gw>, gs: seq<Step>)
    returns (gt': seq<Gw>, gs': seq<Step>)
    requires JointInv(j, cfg, m) && May(j, cfg, m, act) && Run(gt, gs, cfg) && gt[|gs|] == j.g
    ensures Run(gt', gs', cfg) && gt'[|gs'|] == Do(j, cfg, m, act).g && gt <= gt'
  {
    hide Inv, Lease.Inv, Lease.Apply, Lease.Enabled, Enabled, Apply, Registered, Run, Published, Holds, Priced, Handler, Seen,
      AfterDrain, OperatorEnds;
    match act
    case PoolStep(st) => gt', gs' := StepPool(j.g, cfg, st, gt, gs);
    case Stretch(hs, a) =>
      var s' := Lease.Apply(j.s, hs).0;
      gt', gs' := PublishPool(j.g, cfg, m, j.s, s', gt, gs);
      if s'.pending.Some? {
        var g' := Published(j.g, m, j.s, s');
        PublishedSame(j.g, m, j.s, s');
        PublishedKeeps(j.g, cfg, m, j.s, s');
        IsRegistered(g', cfg);
        ArrivalStep(g', cfg, a, m);
        gt', gs' := StepPool(g', cfg, AdminArrive(a, m, false), gt', gs');
      }
    case Drained(st, d3) =>
      gt', gs' := StepPool(j.g, cfg, st, gt, gs);
      DrainLeavesTarget(j, cfg, m, st, d3);
      gt', gs' := PublishPool(Apply(j.g, cfg, st), cfg, m, j.s, AfterDrain(j, cfg, m, st, d3), gt', gs');
    case EditRegistry(mem, reg) => gt', gs' := StepPool(j.g, cfg, SetRegistry(reg), gt, gs);
  }

  lemma ArrivalStep(g: Gw, cfg: Config, a: TaskId, m: ModelId)
    requires a !in g.callers && a !in g.admins && Registered(g)
    ensures Enabled(g, AdminArrive(a, m, false)) && Apply(g, cfg, AdminArrive(a, m, false)) == Arrived(g, a, m)
  {
  }

  lemma DrainLeavesTarget(j: Joint, cfg: Config, m: ModelId, st: Step, d3: Lease.Doc)
    requires JointInv(j, cfg, m) && Registered(j.g) && Enabled(j.g, st) && OperatorEnds(st, j.drain) && j.drain in j.g.admins
    requires j.s.pending.Some? && j.s.lease.Some?
    ensures Priced(AfterDrain(j, cfg, m, st, d3).mem.target)
  {
    hide Inv, Lease.Inv, Enabled, Apply, Registered, Priced, Seen, Holds, OperatorEnds, Returns;
    PricedTarget(j, cfg, m);
    SeenFields(j.s, Apply(j.g, cfg, st), m);
    EndLeavesPool(Seen(j.s, Apply(j.g, cfg, st), m), Returns(j.g, st, j.drain), d3);
  }

  /** ... and the states of the pool are those of a run of the pool by itself. */
  lemma {:induction false} PoolRunWithin(trace: seq<Joint>, acts: seq<Act>, cfg: Config, m: ModelId, k: nat)
    returns (gt: seq<Gw>, gs: seq<Step>)
    requires JointRun(trace, acts, cfg, m) && k <= |acts|
    ensures Run(gt, gs, cfg) && Init(gt[0], cfg) && gt[|gs|] == trace[k].g
  {
    hide JointInv, May, Do, Run, Init;
    if k == 0 {
      gt, gs := [trace[0].g], [];
      PoolStart(trace[0].g, cfg);
    } else {
      gt, gs := PoolRunWithin(trace, acts, cfg, m, k - 1);
      JointRunKeeps(trace, acts, cfg, m, k - 1);
      assert trace[k - 1 + 1] == Do(trace[k - 1], cfg, m, acts[k - 1]);
      RunLength(gt, gs, cfg);
      gt, gs := ActExtendsPool(trace[k - 1], cfg, m, acts[k - 1], gt, gs);
    }
  }

  lemma RunLength(gt: seq<Gw>, gs: seq<Step>, cfg: Config)
    requires Run(gt, gs, cfg)
    ensures |gt| == |gs| + 1
  {
  }

  lemma PoolStart(g: Gw, cfg: Config)
    ensures Run([g], [], cfg)
  {
  }
}
