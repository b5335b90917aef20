/** What becomes of a caller whose model has a manager, and that undisturbed requests and unloads succeed. */
module GatewayService {
  import opened Sums
  import opened GatewayPool
  import opened GatewaySystem
  import opened GatewayProofs
  import opened GatewayTheorems
  import opened GatewayAdmission
  import E = GatewayEviction
  import opened GatewayDecisions
  import L = ServerLifecycle

  // ---------------------------------------------------------------- callers that find a manager

  /** c is given the READY instance k, which is pinned in the same step if c proxies a request. */
  ghost predicate Serves(g: Gw, g': Gw, c: TaskId, k: Handle, pin: bool)
    requires c in g.callers && k in g.inst
  {
    var s := g.inst[k].srv;
    && g'.callers == g.callers - {c} && g'.granted == g.granted + {k} && Rest(g, g') && Unlocked(g, g', c) && g'.cond == g.cond
    && g'.pool == g.pool.(waiters := Without(g.pool.waiters, c))
    && g'.inst == g.inst[k := g.inst[k].(srv := s.(last := g.now, active := s.active + if pin then 1 else 0))]
  }

  /** c goes on at pc, the instance k is now s, and nothing else happens. */
  ghost predicate Turns(g: Gw, g': Gw, c: TaskId, pc: Pc, need: real, k: Handle, s: L.Server)
    requires c in g.callers && k in g.inst
  {
    OnlyMoves(g, g', c, pc, need) && g'.pool == g.pool && g'.cond == g.cond && g'.inst == g.inst[k := g.inst[k].(srv := s)]
  }

  /** Where a caller goes on that is neither served nor refused: it forgets a READY manager, joins the round of a
      LOADING one, starts a new round of an UNLOADED one, and waits for an UNLOADING one. */
  function Next(s: L.Server, k: Handle, retry: bool): Pc
    requires L.Inv(s)
  {
    match s.state
    case Ready => Forgetting(k, retry)
    case Loading => Waiting(k, |s.events| - 1)
    case Unloaded => Waiting(k, |s.events|)
    case Unloading => WaitUnload
  }

  /** ... and the instance then. */
  function Touched(s: L.Server, now: nat): L.Server {
    match s.state
    case Ready => s.(last := now)
    case Unloaded => s.(state := L.Loading, load := L.Created, loadError := false, events := s.events + [false])
    case _ => s
  }

  /** READY serves an admitted caller; UNLOADING refuses it if there is no queue. */
  ghost predicate Finds(g: Gw, cfg: Config, g': Gw, c: TaskId, need: real, k: Handle, retry: bool, pin: bool)
    requires c in g.callers && k in g.inst && L.Inv(g.inst[k].srv)
  {
    var s := g.inst[k].srv;
    if s.state == L.Ready && Admitted(g, g.callers[c].model) then Serves(g, g', c, k, pin)
    else if s.state == L.Unloading && !cfg.queueEnabled then Leaves(g, g', c)
    else Turns(g, g', c, Next(s, k, retry), need, k, Touched(s, g.now))
  }

  lemma GrantServes(g: Gw, c: TaskId, k: Handle, pin: bool)
    requires c in g.callers && k in g.inst
    ensures Serves(g, Grant(g, c, k, pin), c, k, pin)
  {
    hide Without;
  }

  lemma StaysTurns(g: Gw, c: TaskId, pc: Pc, k: Handle)
    requires c in g.callers && k in g.inst
    ensures Turns(g, SetPc(g, c, pc), c, pc, g.callers[c].need, k, g.inst[k].srv)
  {
  }

  lemma RefuseTurns(g: Gw, c: TaskId, k: Handle, retry: bool)
    requires c in g.callers && k in g.inst
    ensures Turns(g, RefuseReady(g, c, k, retry), c, Forgetting(k, retry), g.callers[c].need, k, g.inst[k].srv.(last := g.now))
  {
  }

  lemma WaitTurns(g: Gw, c: TaskId, k: Handle, round: nat)
    requires c in g.callers && k in g.inst
    ensures Turns(g, WaitFor(g, c, k, round), c, Waiting(k, round), g.callers[c].need, k, L.Apply(g.inst[k].srv, L.EnsureLoaded(g.now)))
  {
    hide L.Apply;
  }

  lemma UnderFinds(g: Gw, cfg: Config, c: TaskId, k: Handle, v: Handle, h: Handle, retry: bool, pin: bool)
    requires c in g.callers && k in g.inst && L.Inv(g.inst[k].srv) && ChoicesOk(g, c, v, h) && Registered(g)
    requires g.callers[c].model in g.pool.managers && g.pool.managers[g.callers[c].model] == k
    ensures Finds(g, cfg, UnderCondition(g, cfg, c, v, h, retry, pin), c, g.callers[c].need, k, retry, pin)
  {
    hide Serves, Turns, Leaves, UseManager, SetPc, Exit, Admitted, ChoicesOk, Registered, L.Inv, Consider, Next, Touched;
    if g.inst[k].srv.state == L.Unloading {
      WaitsForUnload(g, c, k, retry);
      ExitLeaves(g, c);
    } else {
      UseFinds(g, c, k, retry, pin);
    }
  }

  lemma WaitsForUnload(g: Gw, c: TaskId, k: Handle, retry: bool)
    requires c in g.callers && k in g.inst && L.Inv(g.inst[k].srv) && g.inst[k].srv.state == L.Unloading
    ensures Turns(g, SetPc(g, c, WaitUnload), c, Next(g.inst[k].srv, k, retry), g.callers[c].need, k, Touched(g.inst[k].srv, g.now))
  {
    StaysTurns(g, c, WaitUnload, k);
    hide Turns, SetPc;
  }

  lemma UseFinds(g: Gw, c: TaskId, k: Handle, retry: bool, pin: bool)
    requires c in g.callers && k in g.inst && L.Inv(g.inst[k].srv) && g.inst[k].srv.state != L.Unloading
    ensures var g', s := UseManager(g, c, k, retry, pin), g.inst[k].srv;
            if s.state == L.Ready && Admitted(g, g.callers[c].model) then Serves(g, g', c, k, pin)
            else Turns(g, g', c, Next(s, k, retry), g.callers[c].need, k, Touched(s, g.now))
  {
    hide Serves, Turns, Grant, RefuseReady, WaitFor, SetPc, Admitted;
    var s := g.inst[k].srv;
    assert s.state == L.Ready || s.state == L.Loading || s.state == L.Unloaded;
    GrantServes(g, c, k, pin);
    RefuseTurns(g, c, k, retry);
    if s.state != L.Ready { WaitTurns(g, c, k, L.EnterOutcome(s).round); }
  }

  lemma AlikeFinds(g: Gw, cfg: Config, g1: Gw, g': Gw, c: TaskId, need: real, k: Handle, retry: bool, pin: bool)
    requires c in g.callers && k in g.inst && Alike(g, g1, c) && g1.cond == g.cond && L.Inv(g.inst[k].srv)
    ensures g1.inst == g.inst && (Finds(g1, cfg, g', c, need, k, retry, pin) ==> Finds(g, cfg, g', c, need, k, retry, pin))
  {
    hide Serves, Turns, Leaves, L.Inv, Next, Touched;
    AlikeLeaves(g, g1, g', c);
    AlikeServes(g, g1, g', c, k, pin);
    AlikeTurns(g, g1, g', c, Next(g.inst[k].srv, k, retry), need, k, Touched(g.inst[k].srv, g.now));
  }

  lemma AlikeServes(g: Gw, g1: Gw, g': Gw, c: TaskId, k: Handle, pin: bool)
    requires c in g.callers && k in g.inst && Alike(g, g1, c) && g1.cond == g.cond
    ensures g1.inst == g.inst && (Serves(g1, g', c, k, pin) ==> Serves(g, g', c, k, pin))
  {
    hide Without;
    assert g.callers[c := g1.callers[c]] - {c} == g.callers - {c};
  }

  lemma AlikeTurns(g: Gw, g1: Gw, g': Gw, c: TaskId, pc: Pc, need: real, k: Handle, s: L.Server)
    requires c in g.callers && k in g.inst && Alike(g, g1, c) && g1.cond == g.cond
    ensures g1.inst == g.inst && (Turns(g1, g', c, pc, need, k, s) ==> Turns(g, g', c, pc, need, k, s))
  {
    AlikeMoves(g, g1, g', c, need, pc);
    hide OnlyMoves;
  }

  lemma ManagerIs(g: Gw, cfg: Config, m: ModelId)
    requires Inv(g, cfg) && m in g.pool.managers
    ensures g.pool.managers[m] in g.inst && L.Inv(g.inst[g.pool.managers[m]].srv) && g.inst[g.pool.managers[m]].model == m
  {
    hide PortsPartition, LockInv, WaitInv, AdminInv, GrantInv, QueueInv, RegInv, AttendedInv, L.Inv;
  }

  lemma EnterFinds(g: Gw, cfg: Config, c: TaskId, k: Handle, v: Handle, h: Handle, retry: bool, pin: bool)
    requires CanEnter(g, c, v, h, retry) && Registered(g) && k in g.inst && L.Inv(g.inst[k].srv) && Admitted(g, g.callers[c].model)
    requires g.callers[c].model in g.pool.managers && g.pool.managers[g.callers[c].model] == k
    ensures g.callers[c].model in g.reg
    ensures Finds(g, cfg, DoEnter(g, cfg, c, v, h, retry, pin), c, g.reg[g.callers[c].model].vram, k, retry, pin)
  {
    IsAdmitted(g, g.callers[c].model);
    hide UnderCondition, ChoicesOk, Registered, Serves, Turns, Leaves, Grant, Begin, L.Inv, Next, Touched, Admitted, MayRetry;
    var m := g.callers[c].model;
    if g.inst[k].srv.state == L.Ready {
      GrantServes(g, c, k, pin);
    } else {
      BeginChoices0(g, c, v, h);
      BeginAlike(g, c);
      EnterUnderFinds(g, cfg, Begin(g, c), c, k, v, h, retry, pin);
    }
  }

  lemma EnterUnderFinds(g: Gw, cfg: Config, g1: Gw, c: TaskId, k: Handle, v: Handle, h: Handle, retry: bool, pin: bool)
    requires c in g.callers && k in g.inst && L.Inv(g.inst[k].srv) && Alike(g, g1, c) && g1.cond == g.cond
    requires ChoicesOk(g1, c, v, h) && Registered(g1)
    requires g.callers[c].model in g.pool.managers && g.pool.managers[g.callers[c].model] == k
    ensures Finds(g, cfg, UnderCondition(g1, cfg, c, v, h, retry, pin), c, g1.callers[c].need, k, retry, pin)
  {
    hide UnderCondition, Finds, ChoicesOk, Registered, L.Inv;
    UnderFinds(g1, cfg, c, k, v, h, retry, pin);
    AlikeFinds(g, cfg, g1, UnderCondition(g1, cfg, c, v, h, retry, pin), c, g1.callers[c].need, k, retry, pin);
  }

  /** A caller that enters and finds the manager k of its model, exactly: a READY one serves it if and only if it
      is admitted. */
  lemma EnterManaged(g: Gw, cfg: Config, c: TaskId, k: Handle, v: Handle, h: Handle, retry: bool, pin: bool)
    requires Inv(g, cfg) && Enabled(g, Enter(c, v, h, retry, pin))
    requires g.callers[c].model in g.pool.managers && g.pool.managers[g.callers[c].model] == k
    ensures Registered(g) && k in g.inst && L.Inv(g.inst[k].srv)
    ensures var g' := Apply(g, cfg, Enter(c, v, h, retry, pin));
            if Admitted(g, g.callers[c].model) then Finds(g, cfg, g', c, Size(g, Enter(c, v, h, retry, pin)), k, retry, pin) else Leaves(g, g', c)
  {
    hide Inv, DoEnter, Finds, Registered, ChoicesOk, MayRetry, Leaves, Exit, L.Inv, ReadyNow;
    IsRegistered(g, cfg);
    ManagerIs(g, cfg, g.callers[c].model);
    if Admitted(g, g.callers[c].model) {
      EnterFinds(g, cfg, c, k, v, h, retry, pin);
    } else {
      EnterRefused(g, cfg, c, v, h, retry, pin);
    }
  }

  /** The same after the wait for the condition, where nothing tests the admission again but READY does. */
  lemma GetCondManaged(g: Gw, cfg: Config, c: TaskId, k: Handle, v: Handle, h: Handle, retry: bool, pin: bool)
    requires Inv(g, cfg) && Enabled(g, GetCond(c, v, h, retry, pin))
    requires g.callers[c].model in g.pool.managers && g.pool.managers[g.callers[c].model] == k
    ensures Registered(g) && k in g.inst && L.Inv(g.inst[k].srv)
    ensures Finds(g, cfg, Apply(g, cfg, GetCond(c, v, h, retry, pin)), c, g.callers[c].need, k, retry, pin)
  {
    hide Inv, UnderCondition, Finds, Registered, ChoicesOk, MayRetry, Leaves, Exit, L.Inv, ReadyNow, Admitted;
    IsRegistered(g, cfg);
    ManagerIs(g, cfg, g.callers[c].model);
    UnderFinds(g, cfg, c, k, v, h, retry, pin);
  }

  /** The same after the wait for an unload. */
  lemma RecheckManaged(g: Gw, cfg: Config, c: TaskId, k: Handle, v: Handle, h: Handle, retry: bool, pin: bool)
    requires Inv(g, cfg) && Enabled(g, RecheckUnload(c, v, h, retry, pin))
    requires g.callers[c].model in g.pool.managers && g.pool.managers[g.callers[c].model] == k
    ensures Registered(g) && k in g.inst && L.Inv(g.inst[k].srv)
    ensures var g' := Apply(g, cfg, RecheckUnload(c, v, h, retry, pin));
            if Admitted(g, g.callers[c].model) then Finds(g, cfg, g', c, g.callers[c].need, k, retry, pin) else Leaves(g, g', c)
  {
    hide Inv, UnderCondition, Finds, Registered, ChoicesOk, MayRetry, Leaves, Exit, L.Inv, ReadyNow, Admitted;
    IsRegistered(g, cfg);
    ManagerIs(g, cfg, g.callers[c].model);
    ExitLeaves(g, c);
    UnderFinds(g, cfg, c, k, v, h, retry, pin);
  }

  lemma EnterRefused(g: Gw, cfg: Config, c: TaskId, v: Handle, h: Handle, retry: bool, pin: bool)
    requires CanEnter(g, c, v, h, retry) && Registered(g) && !Admitted(g, g.callers[c].model)
    ensures Leaves(g, DoEnter(g, cfg, c, v, h, retry, pin), c)
  {
    hide UnderCondition, ChoicesOk, Registered, Leaves, Exit, Admitted, MayRetry;
    ExitLeaves(g, c);
  }

  /** A caller whose round is over, exactly: the instance is READY and it is served if it is admitted; else it
      forgets the manager, and tries once more if the runtime allows it. */
  lemma WakeDecides(g: Gw, cfg: Config, c: TaskId, retry: bool, pin: bool)
    requires Inv(g, cfg) && Enabled(g, Wake(c, retry, pin))
    ensures Registered(g) && c in g.callers && g.callers[c].pc.Waiting? && g.callers[c].pc.h in g.inst
    ensures var k, g' := g.callers[c].pc.h, Apply(g, cfg, Wake(c, retry, pin)); var s := g.inst[k].srv;
            if s.state == L.Ready && Admitted(g, g.callers[c].model) then Serves(g, g', c, k, pin)
            else Turns(g, g', c, Forgetting(k, retry), g.callers[c].need, k, if s.state == L.Ready then s.(last := g.now) else s)
  {
    hide Inv, Registered, MayRetry, Serves, Turns, Grant, RefuseReady, SetPc, Admitted;
    IsRegistered(g, cfg);
    InstFacts(g, cfg, g.callers[c].pc.h);
    GrantServes(g, c, g.callers[c].pc.h, pin);
    RefuseTurns(g, c, g.callers[c].pc.h, retry);
    StaysTurns(g, c, Forgetting(g.callers[c].pc.h, retry), g.callers[c].pc.h);
  }

  // ---------------------------------------------------------------- a request that nothing disturbs

  /** The steps are possible one after the other and lead from g to g'. */
  ghost predicate Leads(g: Gw, cfg: Config, sts: seq<Step>, g': Gw)
    decreases |sts|
  {
    if sts == [] then g' == g else Enabled(g, sts[0]) && Registered(g) && Leads(Apply(g, cfg, sts[0]), cfg, sts[1..], g')
  }

  ghost predicate Goes(g: Gw, cfg: Config, st: Step, g': Gw) { Enabled(g, st) && Registered(g) && Apply(g, cfg, st) == g' }

  lemma LeadsOn(g: Gw, cfg: Config, st: Step, g1: Gw, rest: seq<Step>, g': Gw)
    requires Goes(g, cfg, st, g1) && Leads(g1, cfg, rest, g')
    ensures Leads(g, cfg, [st] + rest, g')
  {
    hide Enabled, Apply, Registered;
    assert ([st] + rest)[1..] == rest;
  }

  lemma LeadsNowhere(g: Gw, cfg: Config)
    ensures Leads(g, cfg, [], g)
  {
  }

  /** c asks for m, and is at pc. */
  function Came(g: Gw, c: TaskId, m: ModelId, pc: Pc): Gw
    requires m in g.reg
  {
    g.(callers := g.callers[c := Caller(m, 0, g.reg[m].vram, pc)])
  }

  /** ... under the lock of its model. */
  function Holds(g: Gw, c: TaskId, m: ModelId, pc: Pc): Gw
    requires m in g.reg
  {
    Came(g, c, m, pc).(locks := g.locks[m := c])
  }

  /** g with the manager h of m on the first free port, in the state s. */
  function With(g: Gw, m: ModelId, h: Handle, s: L.Server): Gw
    requires g.pool.free != []
  {
    g.(pool := g.pool.(managers := g.pool.managers[m := h], ports := g.pool.ports[m := g.pool.free[0]], free := g.pool.free[1..]),
       inst := g.inst[h := Inst(m, g.pool.free[0], s)])
  }

  const READY := L.Server(L.Ready, L.Live, [true], false, L.Idle, false, L.NoUnload, 0, 0)

  /** c may ask for the admitted model m, which has no manager; nobody is in its way, and there is room. */
  ghost predicate Welcome(g: Gw, cfg: Config, c: TaskId, m: ModelId, h: Handle) {
    && c !in g.callers && c !in g.admins && Admitted(g, m) && m !in g.pool.managers && m !in g.locks
    && g.cond == None && g.pool.waiters == [] && h !in g.inst && Room(g, cfg, g.reg[m].vram)
  }

  /** ... and v is what it would evict, if it had to. */
  ghost predicate Prepared(g: Gw, cfg: Config, c: TaskId, m: ModelId, v: Handle, h: Handle) {
    Welcome(g, cfg, c, m, h) && (HasVictim(g, m) ==> v in g.inst && IsVictim(g, m, v))
  }

  lemma ArrivesGoes(g: Gw, cfg: Config, c: TaskId, m: ModelId)
    requires c !in g.callers && c !in g.admins && Admitted(g, m) && Registered(g)
    ensures Goes(g, cfg, Arrive(c, m), Came(g, c, m, WantLock))
  {
    hide Registered;
  }

  lemma LocksGoes(g: Gw, cfg: Config, c: TaskId, m: ModelId)
    requires m in g.reg && m !in g.locks && Registered(g)
    ensures Goes(Came(g, c, m, WantLock), cfg, TakeLock(c), Holds(g, c, m, Entering))
  {
    assert Registered(Came(g, c, m, WantLock));
    hide Registered;
    assert g.callers[c := Caller(m, 0, g.reg[m].vram, WantLock)][c := Caller(m, 0, g.reg[m].vram, Entering)]
        == g.callers[c := Caller(m, 0, g.reg[m].vram, Entering)];
  }

  lemma HoldsFacts(g: Gw, cfg: Config, c: TaskId, m: ModelId, v: Handle, h: Handle)
    requires Prepared(g, cfg, c, m, v, h)
    ensures var g2 := Holds(g, c, m, Entering);
            && At(g2, c, Entering) && g2.callers[c] == Caller(m, 0, g.reg[m].vram, Entering) && CanEnter(g2, c, v, h, false)
            && m in g2.reg && g2.reg[m].vram == g.reg[m].vram && m !in g2.pool.managers && g2.cond == None
            && Deserves(g2, cfg, c, g.reg[m].vram, false, true) && g.pool.free != []
  {
    SameVictims(g, Holds(g, c, m, Entering), m);
    hide HasVictim, IsVictim, IdleOther, BusyOther;
  }

  lemma SameVictims(g: Gw, g2: Gw, m: ModelId)
    requires g2.pool == g.pool && g2.inst == g.inst
    ensures (HasVictim(g2, m) <==> HasVictim(g, m)) && (forall v :: IsVictim(g2, m, v) <==> IsVictim(g, m, v))
  {
  }

  lemma EntersGoes(g: Gw, cfg: Config, c: TaskId, m: ModelId, v: Handle, h: Handle, pin: bool)
    requires Prepared(g, cfg, c, m, v, h) && m in g.reg && g.pool.free != [] && Inv(Holds(g, c, m, Entering), cfg)
    ensures Goes(Holds(g, c, m, Entering), cfg, Enter(c, v, h, false, pin), With(Holds(g, c, m, Waiting(h, 0)), m, h, STARTING))
  {
    var g2, st := Holds(g, c, m, Entering), Enter(c, v, h, false, pin);
    HoldsFacts(g, cfg, c, m, v, h);
    EnterIs(g2, c, v, h, pin);
    hide Inv, Apply, Registered, Prepared, Deserves, CanEnter, Launched;
    EnterLaunch(g2, cfg, c, v, h, false, pin);
    LaunchedIs(g, Apply(g2, cfg, st), c, m, h);
  }

  lemma EnterIs(g: Gw, c: TaskId, v: Handle, h: Handle, pin: bool)
    requires CanEnter(g, c, v, h, false) && g.callers[c].model in g.reg
    ensures Enabled(g, Enter(c, v, h, false, pin))
    ensures Size(g, Enter(c, v, h, false, pin)) == g.reg[g.callers[c].model].vram
  {
    hide CanEnter;
  }

  lemma LaunchedIs(g: Gw, g': Gw, c: TaskId, m: ModelId, h: Handle)
    requires m in g.reg && g.pool.free != [] && g.pool.waiters == [] && g.cond == None
    requires var g2 := Holds(g, c, m, Entering); Launched(g2, g', c, g.reg[m].vram, h)
    ensures g' == With(Holds(g, c, m, Waiting(h, 0)), m, h, STARTING)
  {
    assert Without(g.pool.waiters, c) == [];
    hide Without;
    assert g.callers[c := Caller(m, 0, g.reg[m].vram, Entering)][c := Caller(m, 0, g.reg[m].vram, Waiting(h, 0))]
        == g.callers[c := Caller(m, 0, g.reg[m].vram, Waiting(h, 0))];
  }

  lemma WithFacts(g: Gw, m: ModelId, h: Handle, s: L.Server)
    requires g.pool.free != [] && Registered(g)
    ensures Registered(With(g, m, h, s)) && h in With(g, m, h, s).inst && With(g, m, h, s).inst[h].srv == s
    ensures forall t :: SetSrv(With(g, m, h, s), h, t) == With(g, m, h, t)
  {
    var p := g.pool.free[0];
    assert forall t :: g.inst[h := Inst(m, p, s)][h := Inst(m, p, t)] == g.inst[h := Inst(m, p, t)];
  }

  lemma ServerGoes(g: Gw, cfg: Config, m: ModelId, h: Handle, s: L.Server, e: L.Event)
    requires g.pool.free != [] && Registered(g) && ServerEvent(e) && !e.UnloadKilled? && !e.CrashSeen? && L.Enabled(s, e)
    ensures Goes(With(g, m, h, s), cfg, Server(h, e), With(g, m, h, L.Apply(s, e)))
  {
    hide L.Apply, L.Enabled, Registered, With, SetSrv, Callback;
    WithFacts(g, m, h, s);
  }

  /** What the request leaves: the manager h of its model, READY and perhaps pinned. */
  function ServedWith(g: Gw, m: ModelId, h: Handle, pin: bool): Gw
    requires g.pool.free != []
  {
    With(g, m, h, READY.(last := g.now, active := if pin then 1 else 0)).(granted := g.granted + {h})
  }

  lemma WakesGoes(g: Gw, cfg: Config, c: TaskId, m: ModelId, h: Handle, pin: bool)
    requires m in g.reg && g.pool.free != [] && Registered(g) && c !in g.callers && m !in g.locks && Admitted(g, m) && g.pool.waiters == []
    ensures Goes(With(Holds(g, c, m, Waiting(h, 0)), m, h, READY), cfg, Wake(c, false, pin), ServedWith(g, m, h, pin))
  {
    var g5 := With(Holds(g, c, m, Waiting(h, 0)), m, h, READY);
    assert Registered(g5);
    WakesTo(g, c, m, h, pin);
    hide Registered, DoWake, With, ServedWith, Holds;
  }

  lemma WakesTo(g: Gw, c: TaskId, m: ModelId, h: Handle, pin: bool)
    requires m in g.reg && g.pool.free != [] && c !in g.callers && m !in g.locks && Admitted(g, m) && g.pool.waiters == []
    ensures var g5 := With(Holds(g, c, m, Waiting(h, 0)), m, h, READY);
            CanWake(g5, c, false) && DoWake(g5, c, false, pin) == ServedWith(g, m, h, pin)
  {
    var g5 := With(Holds(g, c, m, Waiting(h, 0)), m, h, READY);
    Woken(g, c, m, h);
    hide Admitted, Grant, Serves, With, Holds, CanWake, ServedWith;
    GrantServes(g5, c, h, pin);
    ServesIs(g, Grant(g5, c, h, pin), c, m, h, pin);
  }

  lemma Woken(g: Gw, c: TaskId, m: ModelId, h: Handle)
    requires m in g.reg && g.pool.free != [] && Admitted(g, m)
    ensures var g5 := With(Holds(g, c, m, Waiting(h, 0)), m, h, READY);
            && CanWake(g5, c, false) && g5.callers[c].pc == Waiting(h, 0) && g5.callers[c].model == m && Admitted(g5, m)
            && g5.inst[h].srv == READY
  {
  }

  lemma ServesIs(g: Gw, g': Gw, c: TaskId, m: ModelId, h: Handle, pin: bool)
    requires m in g.reg && g.pool.free != [] && c !in g.callers && m !in g.locks && g.pool.waiters == []
    requires var g5 := With(Holds(g, c, m, Waiting(h, 0)), m, h, READY); c in g5.callers && h in g5.inst && Serves(g5, g', c, h, pin)
    ensures g' == ServedWith(g, m, h, pin)
  {
    assert Without(g.pool.waiters, c) == [];
    hide Without;
    var p, s := g.pool.free[0], READY.(last := g.now, active := if pin then 1 else 0);
    assert g.inst[h := Inst(m, p, READY)][h := Inst(m, p, s)] == g.inst[h := Inst(m, p, s)];
    assert g.callers[c := Caller(m, 0, g.reg[m].vram, Waiting(h, 0))] - {c} == g.callers;
    assert g'.locks == g.locks;
  }

  /** The request and the load of its model, up to READY, and what comes after. */
  function RequestScript(c: TaskId, m: ModelId, v: Handle, h: Handle, pin: bool, after: seq<Step>): seq<Step> {
    [Arrive(c, m)] + ([TakeLock(c)] + ([Enter(c, v, h, false, pin)] + LoadScript(h, after)))
  }

  function LoadScript(h: Handle, after: seq<Step>): seq<Step> {
    [Server(h, L.TaskRuns)] + ([Server(h, L.Attested)] + ([Server(h, L.Spawned)] + ([Server(h, L.Healthy(0))] + after)))
  }

  const ATTESTING := STARTING.(load := L.Attesting)
  const SPAWNING := STARTING.(load := L.Starting)
  const POLLING := STARTING.(load := L.Polling, proc := L.Live)

  lemma LoadGoes(g: Gw, cfg: Config, m: ModelId, h: Handle)
    requires g.pool.free != [] && Registered(g)
    ensures Goes(With(g, m, h, STARTING), cfg, Server(h, L.TaskRuns), With(g, m, h, ATTESTING))
    ensures Goes(With(g, m, h, ATTESTING), cfg, Server(h, L.Attested), With(g, m, h, SPAWNING))
    ensures Goes(With(g, m, h, SPAWNING), cfg, Server(h, L.Spawned), With(g, m, h, POLLING))
    ensures Goes(With(g, m, h, POLLING), cfg, Server(h, L.Healthy(0)), With(g, m, h, READY))
  {
    hide Goes, With, Registered;
    LoadApplies();
    ServerGoes(g, cfg, m, h, STARTING, L.TaskRuns);
    ServerGoes(g, cfg, m, h, ATTESTING, L.Attested);
    ServerGoes(g, cfg, m, h, SPAWNING, L.Spawned);
    ServerGoes(g, cfg, m, h, POLLING, L.Healthy(0));
  }

  lemma LoadApplies()
    ensures L.Apply(STARTING, L.TaskRuns) == ATTESTING && L.Apply(ATTESTING, L.Attested) == SPAWNING
    ensures L.Apply(SPAWNING, L.Spawned) == POLLING && L.Apply(POLLING, L.Healthy(0)) == READY
  {
  }

  lemma LoadLeads(g: Gw, cfg: Config, m: ModelId, h: Handle, after: seq<Step>, end: Gw)
    requires g.pool.free != [] && Registered(g) && Leads(With(g, m, h, READY), cfg, after, end)
    ensures Leads(With(g, m, h, STARTING), cfg, LoadScript(h, after), end)
  {
    hide Leads, Goes, With, Registered;
    LoadGoes(g, cfg, m, h);
    LeadsOn(With(g, m, h, POLLING), cfg, Server(h, L.Healthy(0)), With(g, m, h, READY), after, end);
    LeadsOn(With(g, m, h, SPAWNING), cfg, Server(h, L.Spawned), With(g, m, h, POLLING), [Server(h, L.Healthy(0))] + after, end);
    LeadsOn(With(g, m, h, ATTESTING), cfg, Server(h, L.Attested), With(g, m, h, SPAWNING),
            [Server(h, L.Spawned)] + ([Server(h, L.Healthy(0))] + after), end);
    LeadsOn(With(g, m, h, STARTING), cfg, Server(h, L.TaskRuns), With(g, m, h, ATTESTING),
            [Server(h, L.Attested)] + ([Server(h, L.Spawned)] + ([Server(h, L.Healthy(0))] + after)), end);
  }

  /** Whatever is possible when the model is READY is possible after a request for it. */
  lemma RequestLoads(g: Gw, cfg: Config, c: TaskId, m: ModelId, v: Handle, h: Handle, pin: bool, after: seq<Step>, end: Gw)
    requires Inv(g, cfg) && Prepared(g, cfg, c, m, v, h) && m in g.reg && g.pool.free != []
    requires Leads(With(Holds(g, c, m, Waiting(h, 0)), m, h, READY), cfg, after, end)
    ensures Leads(g, cfg, RequestScript(c, m, v, h, pin, after), end)
  {
    hide Inv, Enabled, Apply, Leads, Prepared, Registered, Came, Holds, With, Admitted;
    HoldsFacts(g, cfg, c, m, v, h);
    IsRegistered(g, cfg);
    WelcomeFacts(g, cfg, c, m, v, h);
    HoldsRegistered(g, c, m, h);
    ArrivesGoes(g, cfg, c, m);
    LocksGoes(g, cfg, c, m);
    GoesKeepsInv(g, cfg, Arrive(c, m), Came(g, c, m, WantLock));
    GoesKeepsInv(Came(g, c, m, WantLock), cfg, TakeLock(c), Holds(g, c, m, Entering));
    EntersGoes(g, cfg, c, m, v, h, pin);
    LoadLeads(Holds(g, c, m, Waiting(h, 0)), cfg, m, h, after, end);
    LeadsOn(Holds(g, c, m, Entering), cfg, Enter(c, v, h, false, pin), With(Holds(g, c, m, Waiting(h, 0)), m, h, STARTING),
            LoadScript(h, after), end);
    LeadsOn(Came(g, c, m, WantLock), cfg, TakeLock(c), Holds(g, c, m, Entering),
            [Enter(c, v, h, false, pin)] + LoadScript(h, after), end);
    LeadsOn(g, cfg, Arrive(c, m), Came(g, c, m, WantLock), [TakeLock(c)] + ([Enter(c, v, h, false, pin)] + LoadScript(h, after)), end);
  }

  lemma HoldsRegistered(g: Gw, c: TaskId, m: ModelId, h: Handle)
    requires m in g.reg && Registered(g)
    ensures Registered(Holds(g, c, m, Waiting(h, 0))) && Holds(g, c, m, Waiting(h, 0)).pool == g.pool
  {
  }

  lemma PreparedIsServed(g: Gw, cfg: Config, c: TaskId, m: ModelId, v: Handle, h: Handle, pin: bool)
    requires Inv(g, cfg) && Prepared(g, cfg, c, m, v, h)
    ensures g.pool.free != []
    ensures Leads(g, cfg, RequestScript(c, m, v, h, pin, [Wake(c, false, pin)] + []), ServedWith(g, m, h, pin))
  {
    hide Inv, Leads, Prepared, Registered, Goes, Holds, With, ServedWith, Admitted, RequestScript;
    HoldsFacts(g, cfg, c, m, v, h);
    IsRegistered(g, cfg);
    WelcomeFacts(g, cfg, c, m, v, h);
    HoldsRegistered(g, c, m, h);
    WakesGoes(g, cfg, c, m, h, pin);
    var end := ServedWith(g, m, h, pin);
    LeadsNowhere(end, cfg);
    LeadsOn(With(Holds(g, c, m, Waiting(h, 0)), m, h, READY), cfg, Wake(c, false, pin), end, [], end);
    RequestLoads(g, cfg, c, m, v, h, pin, [Wake(c, false, pin)] + [], end);
  }

  lemma WelcomeFacts(g: Gw, cfg: Config, c: TaskId, m: ModelId, v: Handle, h: Handle)
    requires Prepared(g, cfg, c, m, v, h)
    ensures m in g.reg && c !in g.callers && c !in g.admins && Admitted(g, m) && m !in g.locks && g.pool.waiters == []
  {
    hide Room, HasVictim, IsVictim;
  }

  lemma GoesKeepsInv(g: Gw, cfg: Config, st: Step, g': Gw)
    requires Inv(g, cfg) && Goes(g, cfg, st, g')
    ensures Inv(g', cfg)
  {
    hide Inv, Enabled, Apply, Registered;
    StepKeepsInv(g, cfg, st);
  }

  /** A request that nothing disturbs, in any reachable state in which there is room for its model: eight steps
      later it is served by a new READY instance on the first free port, pinned if it proxies, and everything
      else is as it was, its lock and the queue included. */
  lemma RequestIsServed(g: Gw, cfg: Config, c: TaskId, m: ModelId, h: Handle, pin: bool)
    requires Inv(g, cfg) && Welcome(g, cfg, c, m, h)
    ensures g.pool.free != []
    ensures exists v :: Leads(g, cfg, RequestScript(c, m, v, h, pin, [Wake(c, false, pin)] + []), ServedWith(g, m, h, pin))
  {
    var v := SomeVictim(g, m);
    hide Inv, Welcome, HasVictim, IsVictim, Leads, ServedWith, RequestScript;
    PreparedIsServed(g, cfg, c, m, v, h, pin);
  }

  // ---------------------------------------------------------------- an eviction that nothing disturbs

  lemma {:induction false} LeastOf(views: map<Handle, View>, managers: map<ModelId, Handle>, s: set<ModelId>) returns (n: ModelId)
    requires s != {} && forall k :: k in s ==> k in managers && managers[k] in views
    ensures n in s && forall k :: k in s ==> views[managers[n]].last <= views[managers[k]].last
    decreases s
  {
    n :| n in s;
    assert s == {n} + (s - {n});
    if s - {n} != {} {
      var k := LeastOf(views, managers, s - {n});
      if views[managers[k]].last < views[managers[n]].last { n := k; }
    }
  }

  /** Something evictable means that something is least recently used among it. */
  lemma SomeVictim(g: Gw, m: ModelId) returns (v: Handle)
    ensures HasVictim(g, m) ==> v in g.inst && IsVictim(g, m, v)
  {
    var s := set n | n in g.pool.managers && Evictable(g.pool, Views(g.inst), m, n);
    v := 0;
    if HasVictim(g, m) {
      var e :| Evictable(g.pool, Views(g.inst), m, e);
      assert e in s;
      var n := LeastOf(Views(g.inst), g.pool.managers, s);
      v := g.pool.managers[n];
      assert forall k :: Evictable(g.pool, Views(g.inst), m, k) ==> k in s;
      assert IsLru(g.pool, Views(g.inst), m, n);
    }
  }

  /** g without the manager h, whose process has been killed and whose port is free again. */
  function Unloaded(g: Gw, h: Handle): Gw
    requires h in g.inst && g.inst[h].model in g.pool.managers
  {
    var m, i := g.inst[h].model, g.inst[h];
    g.(pool := g.pool.(managers := g.pool.managers - {m}, ports := g.pool.ports - {m}, free := g.pool.free + [i.port]),
       inst := g.inst[h := i.(srv := i.srv.(state := L.Unloaded, proc := L.NoProcess, unload := L.NoUnload))])
  }

  /** h is the manager of its model and is being killed. */
  predicate BeingKilled(g: Gw, h: Handle) {
    h in g.inst && g.inst[h].model in g.pool.managers && g.pool.managers[g.inst[h].model] == h && g.inst[h].srv.unload == L.Killing
  }

  lemma KillGoes(g: Gw, cfg: Config, h: Handle)
    requires BeingKilled(g, h) && Inv(g, cfg)
    ensures Goes(g, cfg, Server(h, L.UnloadKilled), Unloaded(g, h))
  {
    hide Inv, Registered, DoServer, Unloaded, Enabled, Apply;
    IsRegistered(g, cfg);
    KillEnabled(g, cfg, h);
    E.LateCallbackIsNoOp(g, cfg, h, L.UnloadKilled);
    Killed(g, h);
  }

  lemma KillEnabled(g: Gw, cfg: Config, h: Handle)
    requires BeingKilled(g, h) && Registered(g)
    ensures Enabled(g, Server(h, L.UnloadKilled)) && Apply(g, cfg, Server(h, L.UnloadKilled)) == DoServer(g, h, L.UnloadKilled)
  {
    hide Registered, DoServer;
  }

  lemma Killed(g: Gw, h: Handle)
    requires BeingKilled(g, h)
    requires var m, p' := g.inst[h].model, DoServer(g, h, L.UnloadKilled).pool;
             p'.managers == g.pool.managers - {m} && p'.ports == g.pool.ports - {m} && p'.free == g.pool.free + [g.inst[h].port]
    ensures DoServer(g, h, L.UnloadKilled) == Unloaded(g, h)
  {
  }

  /** g after c was given capacity for the new instance h: its ticket is gone and its load begins. */
  function Relieved(g: Gw, c: TaskId, h: Handle): Gw
    requires c in g.callers && g.pool.free != []
  {
    With(g.(callers := g.callers[c := g.callers[c].(pc := Waiting(h, 0))], cond := None,
            pool := g.pool.(waiters := Without(g.pool.waiters, c))), g.callers[c].model, h, STARTING)
  }

  lemma LaunchedRelieves(g: Gw, g': Gw, c: TaskId, h: Handle)
    requires c in g.callers && Launched(g, g', c, g.callers[c].need, h)
    ensures g' == Relieved(g, c, h)
  {
    hide Without;
  }

  /** c is evicting the manager v, whose kill is under way. */
  ghost predicate IsEvicting(g: Gw, c: TaskId, v: Handle) {
    c in g.callers && g.callers[c].pc.Evicting? && g.callers[c].pc.victim == v && BeingKilled(g, v)
  }

  lemma EvictingFacts(g: Gw, cfg: Config, c: TaskId, v: Handle)
    requires Inv(g, cfg) && IsEvicting(g, c, v)
    ensures BeingKilled(g, v) && v in g.inst && g.inst[v].model in g.pool.managers
    ensures g.callers[c].model !in g.pool.managers && Head(g.pool.waiters, c, g.callers[c].pc.ticketed)
  {
    hide Inv;
    CallerFacts(g, cfg, c);
  }

  lemma UnloadedDeserves(g: Gw, cfg: Config, c: TaskId, v: Handle, h: Handle, w: Handle)
    requires IsEvicting(g, c, v) && Head(g.pool.waiters, c, g.callers[c].pc.ticketed) && h !in g.inst
    requires Admitted(g, g.callers[c].model) && Room(Unloaded(g, v), cfg, g.callers[c].need)
    requires HasVictim(Unloaded(g, v), g.callers[c].model) ==> w in Unloaded(g, v).inst && IsVictim(Unloaded(g, v), g.callers[c].model, w)
    ensures Enabled(Unloaded(g, v), EvictionOver(c, w, h)) && Unloaded(g, v).callers == g.callers && g.callers[c].pc.Evicting?
    ensures Deserves(Unloaded(g, v), cfg, c, g.callers[c].need, g.callers[c].pc.ticketed, true)
  {
    hide HasVictim, IsVictim, Room, IdleOther, BusyOther;
  }

  lemma ReliefGoes(g: Gw, cfg: Config, c: TaskId, h: Handle, w: Handle)
    requires Inv(g, cfg) && Enabled(g, EvictionOver(c, w, h)) && c in g.callers && g.callers[c].pc.Evicting?
    requires Deserves(g, cfg, c, g.callers[c].need, g.callers[c].pc.ticketed, true)
    ensures g.pool.free != [] && Goes(g, cfg, EvictionOver(c, w, h), Relieved(g, c, h))
  {
    assert g.pool.free != [];
    hide Inv, Apply, Registered, Enabled, Deserves, Launched, Relieved;
    EvictionLaunch(g, cfg, c, w, h);
    LaunchedRelieves(g, Apply(g, cfg, EvictionOver(c, w, h)), c, h);
  }

  /** An eviction that nothing disturbs, in any reachable state: if the caller is admitted and fits once its victim
      is gone, then two steps later the victim has left the pool with its port, the caller its place in the queue,
      and the load of the caller's model has begun. */
  lemma EvictionMakesRoom(g: Gw, cfg: Config, c: TaskId, v: Handle, h: Handle)
    requires Inv(g, cfg) && IsEvicting(g, c, v) && h !in g.inst
    requires Admitted(g, g.callers[c].model) && Room(Unloaded(g, v), cfg, g.callers[c].need)
    ensures c in Unloaded(g, v).callers && Unloaded(g, v).pool.free != []
    ensures exists w :: Leads(g, cfg, [Server(v, L.UnloadKilled)] + ([EvictionOver(c, w, h)] + []), Relieved(Unloaded(g, v), c, h))
  {
    hide Inv, Registered, Enabled, Apply, Leads, Goes, Relieved, Unloaded, HasVictim, IsVictim, Room, Admitted, BeingKilled, Deserves;
    EvictingFacts(g, cfg, c, v);
    var w := SomeVictim(Unloaded(g, v), g.callers[c].model);
    UnloadedDeserves(g, cfg, c, v, h, w);
    KillGoes(g, cfg, v);
    GoesKeepsInv(g, cfg, Server(v, L.UnloadKilled), Unloaded(g, v));
    ReliefGoes(Unloaded(g, v), cfg, c, h, w);
    var end := Relieved(Unloaded(g, v), c, h);
    LeadsNowhere(end, cfg);
    LeadsOn(Unloaded(g, v), cfg, EvictionOver(c, w, h), end, [], end);
    LeadsOn(g, cfg, Server(v, L.UnloadKilled), Unloaded(g, v), [EvictionOver(c, w, h)] + [], end);
  }

  // ---------------------------------------------------------------- a load that fails

  /** The round of c is over, and the manager h of its model has failed to load. */
  predicate HasFailed(g: Gw, c: TaskId) {
    && c in g.callers && g.callers[c].pc.Waiting? && BeingManager(g, g.callers[c].pc.h, g.callers[c].model)
    && g.inst[g.callers[c].pc.h].srv.state == L.Unloaded
  }

  predicate BeingManager(g: Gw, h: Handle, m: ModelId) {
    h in g.inst && g.inst[h].model == m && m in g.pool.managers && g.pool.managers[m] == h
  }

  /** g without the manager h, and c either at the top of its second attempt or gone. */
  function Forgotten(g: Gw, c: TaskId, h: Handle, retry: bool): Gw
    requires c in g.callers && h in g.inst
  {
    var m := g.callers[c].model;
    g.(pool := g.pool.(managers := g.pool.managers - {m}, ports := g.pool.ports - {m}, free := g.pool.free + [g.inst[h].port]),
       callers := if retry then g.callers[c := g.callers[c].(attempt := 1, pc := Entering)] else g.callers - {c},
       locks := if retry then g.locks else g.locks - {m})
  }

  lemma FailedFacts(g: Gw, cfg: Config, c: TaskId)
    requires Inv(g, cfg) && HasFailed(g, c)
    ensures var h, m := g.callers[c].pc.h, g.callers[c].model;
            && g.callers[c].pc.round < |g.inst[h].srv.events| && g.inst[h].srv.events[g.callers[c].pc.round]
            && m in g.locks && g.locks[m] == c && c !in g.pool.waiters
            && m in g.pool.ports && g.pool.ports[m] == g.inst[h].port && g.inst[h].port !in g.pool.free
  {
    hide PortsPartition, RegisteredInv, SrvInv, LockInv, WaitInv, AdminInv, GrantInv, QueueInv, RegInv, AttendedInv;
    FailedRound(g, cfg, c);
    FailedLock(g.callers, g.admins, g.locks, g.pool.waiters, g.cond, cfg.maxWaiters, c);
    FailedPort(g, cfg.range, g.callers[c].pc.h, g.callers[c].model);
  }

  lemma FailedRound(g: Gw, cfg: Config, c: TaskId)
    requires HasFailed(g, c) && Inv(g, cfg)
    ensures g.callers[c].pc.round < |g.inst[g.callers[c].pc.h].srv.events|
    ensures g.inst[g.callers[c].pc.h].srv.events[g.callers[c].pc.round]
  {
    hide Inv;
    CallerFacts(g, cfg, c);
  }

  lemma FailedLock(callers: map<TaskId, Caller>, admins: map<TaskId, Admin>, locks: map<ModelId, TaskId>, q: seq<TaskId>,
                   cond: Option<TaskId>, maxWaiters: nat, c: TaskId)
    requires LockInv(callers, admins, locks) && QueueInv(q, callers, cond, maxWaiters) && c in callers && callers[c].pc.Waiting?
    ensures callers[c].model in locks && locks[callers[c].model] == c && c !in q
  {
  }

  lemma FailedPort(g: Gw, range: set<nat>, h: Handle, m: ModelId)
    requires PortsPartition(g.pool, range) && RegisteredInv(g.pool.managers, g.pool.ports, g.inst) && BeingManager(g, h, m)
    ensures m in g.pool.ports && g.pool.ports[m] == g.inst[h].port && g.inst[h].port !in g.pool.free
  {
  }

  lemma FailureWakes(g: Gw, cfg: Config, c: TaskId, retry: bool, pin: bool)
    requires HasFailed(g, c) && (retry ==> g.callers[c].attempt == 0) && Registered(g)
    requires var s := g.inst[g.callers[c].pc.h].srv; g.callers[c].pc.round < |s.events| && s.events[g.callers[c].pc.round]
    ensures Goes(g, cfg, Wake(c, retry, pin), SetPc(g, c, Forgetting(g.callers[c].pc.h, retry)))
  {
    hide Registered, Grant, RefuseReady, Admitted;
  }

  lemma ForgetGoes(g: Gw, cfg: Config, c: TaskId, h: Handle, retry: bool)
    requires c in g.callers && g.callers[c].pc.Waiting? && g.callers[c].pc.h == h && BeingManager(g, h, g.callers[c].model)
    requires g.cond == None && Registered(g)
    requires var m := g.callers[c].model;
             && m in g.locks && g.locks[m] == c && c !in g.pool.waiters
             && m in g.pool.ports && g.pool.ports[m] == g.inst[h].port && g.inst[h].port !in g.pool.free
    ensures Goes(SetPc(g, c, Forgetting(h, retry)), cfg, Forget(c), Forgotten(g, c, h, retry))
  {
    var g1 := SetPc(g, c, Forgetting(h, retry));
    assert Registered(g1);
    hide Registered;
    assert Without(g.pool.waiters, c) == g.pool.waiters;
    hide Without;
    assert g1.callers[c := g1.callers[c].(attempt := 1, pc := Entering)] == g.callers[c := g.callers[c].(attempt := 1, pc := Entering)];
    assert g1.callers - {c} == g.callers - {c};
  }

  /** A load that fails is undone, in any reachable state in which the condition is free: two steps later its manager
      has left the pool, its port is free again, and its caller is either back at the top for its one
      second attempt, still holding the lock, or gone with its lock. */
  lemma FailureIsUndone(g: Gw, cfg: Config, c: TaskId, retry: bool, pin: bool)
    requires Inv(g, cfg) && HasFailed(g, c) && g.cond == None && (retry ==> g.callers[c].attempt == 0)
    ensures g.callers[c].pc.h in g.inst
    ensures Leads(g, cfg, [Wake(c, retry, pin)] + ([Forget(c)] + []), Forgotten(g, c, g.callers[c].pc.h, retry))
  {
    FailedFacts(g, cfg, c);
    IsRegistered(g, cfg);
    hide Inv, Registered, Enabled, Apply, Leads, Goes, SetPc, Forgotten;
    FailureWakes(g, cfg, c, retry, pin);
    assert g.callers[c].pc.Waiting? && BeingManager(g, g.callers[c].pc.h, g.callers[c].model);
    ForgetGoes(g, cfg, c, g.callers[c].pc.h, retry);
    var end := Forgotten(g, c, g.callers[c].pc.h, retry);
    LeadsNowhere(end, cfg);
    LeadsOn(SetPc(g, c, Forgetting(g.callers[c].pc.h, retry)), cfg, Forget(c), end, [], end);
    LeadsOn(g, cfg, Wake(c, retry, pin), SetPc(g, c, Forgetting(g.callers[c].pc.h, retry)), [Forget(c)] + [], end);
  }

  // ---------------------------------------------------------------- unload_model

  /** The operator a is gone with the lock and the drain of its model, and nothing else has changed. */
  predicate OperatorGone(g: Gw, g': Gw, a: TaskId)
    requires a in g.admins
  {
    var m := g.admins[a].model;
    g' == g.(admins := g.admins - {a}, locks := g.locks - {m}, pool := g.pool.(draining := g.pool.draining - {m}))
  }

  /** h has begun to be unloaded: a READY instance is killed at once, a LOADING one after its load task is cancelled. */
  function Leaving(g: Gw, h: Handle): Gw
    requires h in g.inst
  {
    var s := g.inst[h].srv;
    g.(inst := g.inst[h := g.inst[h].(srv := if s.state == L.Ready then s.(state := L.Unloading, unload := L.Killing)
                                             else s.(state := L.Unloading, cancelled := true, unload := L.AwaitLoad))])
  }

  /** What unload_model decides about, when the drain is over. */
  predicate Unloadable(g: Gw, m: ModelId, force: bool) {
    && m in g.pool.managers && g.pool.managers[m] in g.inst
    && (var s := g.inst[g.pool.managers[m]].srv; (s.active == 0 || force) && (s.state == L.Ready || s.state == L.Loading))
  }

  lemma DrainFacts(g: Gw, cfg: Config, a: TaskId)
    requires Inv(g, cfg) && a in g.admins && g.admins[a].pc != AWantLock
    ensures var m := g.admins[a].model; m in g.locks && g.locks[m] == a
  {
    hide PortsPartition, RegisteredInv, SrvInv, WaitInv, AdminInv, GrantInv, QueueInv, RegInv, AttendedInv;
  }

  lemma GoneIs(g: Gw, a: TaskId)
    requires a in g.admins && g.admins[a].pc != AWantLock && g.admins[a].model in g.locks && g.locks[g.admins[a].model] == a
    ensures OperatorGone(g, AdminExit(g, a), a)
  {
  }

  lemma LeavingIs(g: Gw, h: Handle)
    requires h in g.inst && L.Inv(g.inst[h].srv) && (g.inst[h].srv.state == L.Ready || g.inst[h].srv.state == L.Loading)
    ensures SetSrv(g, h, L.BeginUnload(g.inst[h].srv)) == Leaving(g, h)
  {
  }

  /** The end of the drain, exactly: the manager of the model begins to be unloaded if and only if it is READY or
      LOADING and serves no request or is unloaded by force; else the operator leaves with nothing changed but
      its lock and its drain. */
  lemma OperatorDecides(g: Gw, cfg: Config, a: TaskId)
    requires Inv(g, cfg) && Enabled(g, AdminDecide(a))
    ensures Registered(g) && a in g.admins
    ensures var m, g' := g.admins[a].model, Apply(g, cfg, AdminDecide(a));
            if Unloadable(g, m, g.admins[a].force) then
              var h := g.pool.managers[m]; g' == Leaving(g, h).(admins := g.admins[a := g.admins[a].(pc := Unloading(h))])
            else OperatorGone(g, g', a)
  {
    hide Inv, Registered, AdminExit, L.BeginUnload, OperatorGone, Leaving, L.Inv;
    IsRegistered(g, cfg);
    DrainFacts(g, cfg, a);
    GoneIs(g, a);
    var m := g.admins[a].model;
    if m in g.pool.managers {
      ManagerIs(g, cfg, m);
      var h := g.pool.managers[m];
      if g.inst[h].srv.state == L.Ready || g.inst[h].srv.state == L.Loading { LeavingIs(g, h); }
      LeavingAdmins(g, h);
    }
  }

  lemma LeavingAdmins(g: Gw, h: Handle)
    requires h in g.inst
    ensures Leaving(g, h).admins == g.admins
  {
  }

  function Drains(g: Gw, a: TaskId): Gw
    requires a in g.admins
  {
    var m := g.admins[a].model;
    g.(admins := g.admins[a := g.admins[a].(pc := Draining)], locks := g.locks[m := a], pool := g.pool.(draining := g.pool.draining + {m}))
  }

  /** The start of the drain, exactly: without a manager the operator leaves at once; else it holds the lock, and
      the model admits nobody. */
  lemma OperatorDrains(g: Gw, cfg: Config, a: TaskId)
    requires Inv(g, cfg) && Enabled(g, AdminTakeLock(a))
    ensures Registered(g) && a in g.admins
    ensures var m, g' := g.admins[a].model, Apply(g, cfg, AdminTakeLock(a));
            if m !in g.pool.managers then g' == g.(admins := g.admins - {a})
            else !Admitted(g', m) && g' == Drains(g, a)
  {
    hide Inv, Registered;
    IsRegistered(g, cfg);
  }

  /** The operator a asks for m, and is at pc; past the lock, it holds it and the model is being drained. */
  function Operating(g: Gw, a: TaskId, m: ModelId, force: bool, pc: AdminPc): Gw {
    var g1 := g.(admins := g.admins[a := Admin(m, force, pc)]);
    if pc == AWantLock then g1 else g1.(locks := g.locks[m := a], pool := g.pool.(draining := g.pool.draining + {m}))
  }

  lemma AsksGoes(g: Gw, cfg: Config, a: TaskId, m: ModelId, force: bool)
    requires a !in g.callers && a !in g.admins && Registered(g)
    ensures Goes(g, cfg, AdminArrive(a, m, force), Operating(g, a, m, force, AWantLock))
  {
    hide Registered;
  }

  lemma DrainGoes(g: Gw, cfg: Config, a: TaskId, m: ModelId, force: bool)
    requires m !in g.locks && m in g.pool.managers && Registered(g)
    ensures Goes(Operating(g, a, m, force, AWantLock), cfg, AdminTakeLock(a), Operating(g, a, m, force, Draining))
  {
    assert Registered(Operating(g, a, m, force, AWantLock));
    hide Registered;
    assert g.admins[a := Admin(m, force, AWantLock)][a := Admin(m, force, Draining)] == g.admins[a := Admin(m, force, Draining)];
  }

  lemma OperatingFacts(g: Gw, a: TaskId, m: ModelId, force: bool)
    ensures var g2 := Operating(g, a, m, force, Draining);
            && Enabled(g2, AdminDecide(a)) && a in g2.admins && g2.admins[a] == Admin(m, force, Draining)
            && g2.pool.managers == g.pool.managers && g2.inst == g.inst && (Unloadable(g2, m, force) <==> Unloadable(g, m, force))
  {
  }

  lemma DecidedIs(g: Gw, a: TaskId, m: ModelId, h: Handle, force: bool)
    requires h in g.inst
    ensures var g2, g3 := Operating(g, a, m, force, Draining), Operating(g, a, m, force, Unloading(h));
            && h in g2.inst && h in g3.inst && a in g2.admins
            && Leaving(g2, h).(admins := g2.admins[a := g2.admins[a].(pc := Unloading(h))]) == Leaving(g3, h)
  {
    assert g.admins[a := Admin(m, force, Draining)][a := Admin(m, force, Unloading(h))] == g.admins[a := Admin(m, force, Unloading(h))];
  }

  lemma DecidesGoes(g: Gw, cfg: Config, a: TaskId, m: ModelId, h: Handle, force: bool)
    requires Unloadable(g, m, force) && h == g.pool.managers[m] && h in g.inst && Inv(Operating(g, a, m, force, Draining), cfg)
    ensures h in Operating(g, a, m, force, Unloading(h)).inst
    ensures Goes(Operating(g, a, m, force, Draining), cfg, AdminDecide(a), Leaving(Operating(g, a, m, force, Unloading(h)), h))
  {
    hide Inv, Enabled, Apply, Registered, Unloadable, Leaving, Operating;
    OperatingFacts(g, a, m, force);
    DecidedIs(g, a, m, h, force);
    OperatorDecides(Operating(g, a, m, force, Draining), cfg, a);
  }

  /** What unload_model leaves of g. */
  function UnloadedBy(g: Gw, h: Handle): Gw
    requires h in g.inst && g.inst[h].model in g.pool.managers
  {
    Unloaded(g, h).(pool := Unloaded(g, h).pool.(draining := g.pool.draining - {g.inst[h].model}))
  }

  /** The unload by the operator a has ended. */
  function Ended(g: Gw, a: TaskId, h: Handle, force: bool): Gw
    requires h in g.inst && g.inst[h].model in g.pool.managers
  {
    var m := g.inst[h].model;
    Unloaded(g, h).(admins := g.admins[a := Admin(m, force, Unloading(h))], locks := g.locks[m := a],
                    pool := Unloaded(g, h).pool.(draining := g.pool.draining + {m}))
  }

  lemma KilledIs(g: Gw, a: TaskId, h: Handle, force: bool)
    requires h in g.inst && BeingManager(g, h, g.inst[h].model) && g.inst[h].srv.state == L.Ready
    ensures h in Operating(g, a, g.inst[h].model, force, Unloading(h)).inst
    ensures var g3 := Leaving(Operating(g, a, g.inst[h].model, force, Unloading(h)), h);
            BeingKilled(g3, h) && Unloaded(g3, h) == Ended(g, a, h, force)
  {
    var i := g.inst[h];
    assert g.inst[h := i.(srv := i.srv.(state := L.Unloading, unload := L.Killing))]
                 [h := i.(srv := i.srv.(state := L.Unloaded, proc := L.NoProcess, unload := L.NoUnload))]
        == g.inst[h := i.(srv := i.srv.(state := L.Unloaded, proc := L.NoProcess, unload := L.NoUnload))];
  }

  lemma EndedFacts(g: Gw, a: TaskId, h: Handle, force: bool)
    requires h in g.inst && g.inst[h].model in g.pool.managers && Registered(g)
    ensures Registered(Ended(g, a, h, force)) && Enabled(Ended(g, a, h, force), AdminOver(a))
  {
  }

  lemma OverGoes(g: Gw, cfg: Config, a: TaskId, h: Handle, force: bool)
    requires a !in g.admins && h in g.inst && g.inst[h].model !in g.locks && g.inst[h].model in g.pool.managers && Registered(g)
    ensures Goes(Ended(g, a, h, force), cfg, AdminOver(a), UnloadedBy(g, h))
  {
    var m := g.inst[h].model;
    hide Registered;
    EndedFacts(g, a, h, force);
    assert g.admins[a := Admin(m, force, Unloading(h))] - {a} == g.admins && g.locks[m := a] - {m} == g.locks;
    assert g.pool.draining + {m} - {m} == g.pool.draining - {m};
  }

  /** An unload_model that nothing disturbs, in any reachable state: a READY model that serves no request, or is
      unloaded by force, has no manager five steps later; its port is free, its lock and its drain are gone, and
      everything else is as it was. */
  lemma OperatorUnloads(g: Gw, cfg: Config, a: TaskId, m: ModelId, h: Handle, force: bool)
    requires a !in g.callers && a !in g.admins && m !in g.locks
    requires BeingManager(g, h, m) && g.inst[h].srv.state == L.Ready && (g.inst[h].srv.active == 0 || force) && Inv(g, cfg)
    ensures Leads(g, cfg, [AdminArrive(a, m, force)] + ([AdminTakeLock(a)] + ([AdminDecide(a)] +
                          ([Server(h, L.UnloadKilled)] + ([AdminOver(a)] + [])))), UnloadedBy(g, h))
  {
    hide Inv, Enabled, Apply, Registered, Leads, Goes, Operating, Leaving, Unloaded, UnloadedBy, Ended, BeingKilled;
    IsRegistered(g, cfg);
    assert Unloadable(g, m, force);
    hide Unloadable;
    var g1, g2 := Operating(g, a, m, force, AWantLock), Operating(g, a, m, force, Draining);
    AsksGoes(g, cfg, a, m, force);
    DrainGoes(g, cfg, a, m, force);
    GoesKeepsInv(g, cfg, AdminArrive(a, m, force), g1);
    GoesKeepsInv(g1, cfg, AdminTakeLock(a), g2);
    DecidesGoes(g, cfg, a, m, h, force);
    KilledIs(g, a, h, force);
    var g3, g4, end := Leaving(Operating(g, a, m, force, Unloading(h)), h), Ended(g, a, h, force), UnloadedBy(g, h);
    GoesKeepsInv(g2, cfg, AdminDecide(a), g3);
    KillGoes(g3, cfg, h);
    OverGoes(g, cfg, a, h, force);
    LeadsNowhere(end, cfg);
    LeadsOn(g4, cfg, AdminOver(a), end, [], end);
    LeadsOn(g3, cfg, Server(h, L.UnloadKilled), g4, [AdminOver(a)] + [], end);
    LeadsOn(g2, cfg, AdminDecide(a), g3, [Server(h, L.UnloadKilled)] + ([AdminOver(a)] + []), end);
    LeadsOn(g1, cfg, AdminTakeLock(a), g2, [AdminDecide(a)] + ([Server(h, L.UnloadKilled)] + ([AdminOver(a)] + [])), end);
    LeadsOn(g, cfg, AdminArrive(a, m, force), g1,
            [AdminTakeLock(a)] + ([AdminDecide(a)] + ([Server(h, L.UnloadKilled)] + ([AdminOver(a)] + []))), end);
  }

  /** A load that times out, exactly: an instance that is LOADING or READY begins to be unloaded, and its caller waits
      for that; any other is only forgotten. */
  lemma TimeoutDecides(g: Gw, cfg: Config, c: TaskId, retry: bool)
    requires Inv(g, cfg) && Enabled(g, LoadTimeout(c, retry))
    ensures Registered(g) && c in g.callers && g.callers[c].pc.Waiting? && g.callers[c].pc.h in g.inst
    ensures var h, g' := g.callers[c].pc.h, Apply(g, cfg, LoadTimeout(c, retry)); var s := g.inst[h].srv;
            if s.state == L.Loading || s.state == L.Ready then
              g' == Leaving(g, h).(callers := g.callers[c := g.callers[c].(pc := TimingOut(h))])
            else OnlyMoves(g, g', c, Forgetting(h, retry), g.callers[c].need) && g'.pool == g.pool && g'.inst == g.inst && g'.cond == g.cond
  {
    hide Inv, Registered, MayRetry, L.BeginUnload, L.Inv, Leaving;
    IsRegistered(g, cfg);
    var h := g.callers[c].pc.h;
    InstFacts(g, cfg, h);
    if g.inst[h].srv.state == L.Loading || g.inst[h].srv.state == L.Ready { LeavingIs(g, h); }
    LeavingCallers(g, h);
  }

  lemma LeavingCallers(g: Gw, h: Handle)
    requires h in g.inst
    ensures Leaving(g, h).callers == g.callers
  {
  }

  // ---------------------------------------------------------------- the steps that nothing else decides

  /** The idle monitor and unload_all_models, exactly: a manager that is READY or LOADING begins to be unloaded, any
      other stays as it is. */
  lemma UnloadsBegin(g: Gw, cfg: Config, h: Handle)
    requires Inv(g, cfg) && h in g.inst
    ensures Registered(g)
    ensures Enabled(g, IdleUnload(h)) ==> Apply(g, cfg, IdleUnload(h)) == Leaving(g, h)
    ensures Enabled(g, UnloadAll(h)) ==>
              Apply(g, cfg, UnloadAll(h)) ==
              if g.inst[h].srv.state == L.Ready || g.inst[h].srv.state == L.Loading then Leaving(g, h) else g
  {
    hide Inv, Registered, Leaving, L.Inv, L.BeginUnload, SetSrv;
    IsRegistered(g, cfg);
    InstFacts(g, cfg, h);
    if g.inst[h].srv.state == L.Ready || g.inst[h].srv.state == L.Loading { LeavingIs(g, h); } else { StayingIs(g, h); }
  }

  lemma StayingIs(g: Gw, h: Handle)
    requires h in g.inst && g.inst[h].srv.state != L.Ready && g.inst[h].srv.state != L.Loading
    ensures SetSrv(g, h, L.BeginUnload(g.inst[h].srv)) == g
  {
    var s := g.inst[h].srv;
    assert s.state == L.Ready || s.state == L.Loading || s.state == L.Unloaded || s.state == L.Unloading;
    assert g.inst[h := g.inst[h].(srv := s)] == g.inst;
  }

  /** A caller that is cancelled is gone with its ticket, its lock and the condition it held; a kill that it waited
      for is never finished, and nothing else has changed but that somebody was cancelled. */
  lemma CancelLeaves(g: Gw, cfg: Config, c: TaskId)
    requires Inv(g, cfg) && Enabled(g, Cancel(c))
    ensures Registered(g) && c in g.callers
    ensures var g' := Apply(g, cfg, Cancel(c));
            && g'.callers == g.callers - {c} && Unlocked(g, g', c) && g'.pool == g.pool.(waiters := Without(g.pool.waiters, c))
            && g'.cond == (if g.callers[c].pc.Evicting? then None else g.cond) && g'.cancelled && g'.admins == g.admins
            && g'.granted == g.granted && g'.reg == g.reg && g'.measured == g.measured && g'.now == g.now && g'.regChanged == g.regChanged
            && g'.inst == Interrupted(g.inst, g.callers[c].pc)
  {
    hide Inv, Registered, Without, Enabled, Apply, DoCancel, CanCancel, Interrupted, Unlocked;
    IsRegistered(g, cfg);
    CancelApplies(g, cfg, c);
    CancelIs(g, c);
  }

  lemma CancelApplies(g: Gw, cfg: Config, c: TaskId)
    requires Enabled(g, Cancel(c)) && Registered(g)
    ensures CanCancel(g, c) && c in g.callers && Apply(g, cfg, Cancel(c)) == DoCancel(g, c)
  {
    hide Registered, DoCancel;
  }

  /** The unload that a cancelled caller waited for, if its kill was under way. */
  function Interrupted(inst: map<Handle, Inst>, pc: Pc): map<Handle, Inst> {
    match pc
    case Evicting(v, _, _) => Interrupt(inst, v)
    case TimingOut(h) => Interrupt(inst, h)
    case _ => inst
  }

  function Interrupt(inst: map<Handle, Inst>, h: Handle): map<Handle, Inst> {
    if h in inst && inst[h].srv.unload == L.Killing then inst[h := inst[h].(srv := inst[h].srv.(unload := L.Stuck))] else inst
  }

  lemma CancelIs(g: Gw, c: TaskId)
    requires CanCancel(g, c)
    ensures var g' := DoCancel(g, c);
            && g'.callers == g.callers - {c} && Unlocked(g, g', c) && g'.pool == g.pool.(waiters := Without(g.pool.waiters, c))
            && g'.cond == (if g.callers[c].pc.Evicting? then None else g.cond) && g'.cancelled && g'.admins == g.admins
            && g'.granted == g.granted && g'.reg == g.reg && g'.measured == g.measured && g'.now == g.now && g'.regChanged == g.regChanged
            && g'.inst == Interrupted(g.inst, g.callers[c].pc)
  {
    hide Exit, AbortUnload, Unlocked, Resumed, SetSrv, Interrupt;
    var g1 := g.(cancelled := true);
    if g.callers[c].pc.Evicting? {
      var v := g.callers[c].pc.victim;
      ResumedFor(g1, c);
      AbortIs(Resumed(g1, c), v);
      CancelExit(g, SetSrv(Resumed(g1, c), v, AbortUnload(g.inst[v].srv)), c);
    } else if g.callers[c].pc.TimingOut? {
      var h := g.callers[c].pc.h;
      AbortIs(g1, h);
      CancelExit(g, SetSrv(g1, h, AbortUnload(g.inst[h].srv)), c);
    } else {
      CancelExit(g, g1, c);
    }
  }

  lemma ResumedFor(g: Gw, c: TaskId)
    requires c in g.callers && g.callers[c].pc.Evicting?
    ensures var r := Resumed(g, c);
            && c in r.callers && r.callers - {c} == g.callers - {c} && r.callers[c].model == g.callers[c].model
            && r == g.(callers := r.callers, cond := None)
  {
  }

  /** x is g but for c, the instances and the condition. */
  lemma CancelExit(g: Gw, x: Gw, c: TaskId)
    requires c in g.callers && c in x.callers && x.callers - {c} == g.callers - {c} && x.callers[c].model == g.callers[c].model
    requires x.locks == g.locks && x.pool == g.pool
    ensures var g' := Exit(x, c);
            && g'.callers == g.callers - {c} && Unlocked(g, g', c) && g'.pool == g.pool.(waiters := Without(g.pool.waiters, c))
            && g' == x.(callers := g'.callers, locks := g'.locks, pool := g'.pool)
  {
    hide Without;
  }

  lemma AbortIs(g: Gw, h: Handle)
    requires h in g.inst
    ensures SetSrv(g, h, AbortUnload(g.inst[h].srv)) == g.(inst := Interrupt(g.inst, h))
  {
    assert g.inst[h := g.inst[h].(srv := g.inst[h].srv)] == g.inst;
  }
}
