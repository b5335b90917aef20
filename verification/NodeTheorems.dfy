/** The node agent over whole runs. */
module NodeTheorems {
  import opened Sums
  import opened GatewayPool
  import opened NodeAgent
  import opened NodeSystem
  import opened NodeProofs
  import opened NodeSteps
  import L = ServerLifecycle

  /** trace[i + 1] comes from trace[i] by steps[i]. */
  ghost predicate Run(trace: seq<Node>, steps: seq<Step>, cfg: Config) {
    && |trace| == |steps| + 1
    && forall i :: 0 <= i < |steps| ==> Enabled(trace[i], steps[i]) && trace[i + 1] == Apply(trace[i], cfg, steps[i])
  }

  lemma {:induction false} RunKeepsInv(trace: seq<Node>, steps: seq<Step>, cfg: Config, k: nat)
    requires Run(trace, steps, cfg) && Init(trace[0], cfg) && k <= |steps|
    ensures Inv(trace[k], cfg)
  {
    hide Inv, Init, Apply, Enabled;
    if k == 0 {
      InitHasInv(trace[0], cfg);
    } else {
      RunKeepsInv(trace, steps, cfg, k - 1);
      assert trace[k - 1 + 1] == Apply(trace[k - 1], cfg, steps[k - 1]);
      StepKeepsInv(trace[k - 1], cfg, steps[k - 1]);
    }
  }

  // ---------------------------------------------------------------- ports, processes and VRAM

  /** The step in which a deadline lands in the kill of h. */
  predicate Abandons(n: Node, st: Step, h: Handle) { st.AbortLands? && AbandonsKill(n, st.o) && n.runs[st.o].c.h == h }

  ghost predicate KillAbandoned(trace: seq<Node>, steps: seq<Step>, k: nat, h: Handle)
    requires |trace| == |steps| + 1 && k <= |steps|
  {
    exists i :: 0 <= i < k && Abandons(trace[i], steps[i], h)
  }

  predicate IsStuck(inst: Insts, h: Handle) { h in inst && inst[h].srv.unload == L.Stuck }

  lemma EarlyInst(n: Node, o: OpId, ok: bool, late: bool)
    requires Live(n, o)
    ensures DoRunBegins(n, o, late).inst == n.inst && DoValidated(n, o, ok, late).inst == n.inst && DoRunLocks(n, o, late).inst == n.inst
  {
  }

  lemma ChildInst(n: Node, o: OpId)
    requires Live(n, o)
    ensures WaitsOn(n, o) ==> DoChildWakes(n, o).inst == n.inst
    ensures TimedOutIn(n, o) ==> DoChildUnloaded(n, o).inst == n.inst
    ensures n.runs[o].Cleaning? ==> DoCleanOver(n, o).inst == n.inst
  {
    hide ReleaseAgent, L.WakeOutcome;
  }

  lemma ClaimedStuck(n: Node, cfg: Config, h: Handle, k: Handle)
    requires Inv(n, cfg) && k in n.inst
    ensures IsStuck(SetSrv(n, k, L.BeginUnload(n.inst[k].srv)).inst, h) <==> IsStuck(n.inst, h)
  {
    hide Inv;
    SrvFacts(n, cfg, k);
  }

  lemma ChildRunsStuck(n: Node, cfg: Config, o: OpId, h: Handle, k: Handle, port: nat)
    requires Inv(n, cfg) && AtPc(n, o, Child(ChildStart)) && k !in n.inst
    ensures IsStuck(DoChildRuns(n, cfg, o, k, port).inst, h) <==> IsStuck(n.inst, h)
  {
    hide Inv;
    LoadFindsNoManager(n, cfg, o);
    hide Fits;
  }

  lemma ClaimsStuck(n: Node, cfg: Config, o: OpId, h: Handle)
    requires Inv(n, cfg) && Live(n, o)
    ensures WaitsOn(n, o) ==> (IsStuck(DoChildTimesOut(n, o).inst, h) <==> IsStuck(n.inst, h))
    ensures IsStuck(DoCleanBegins(n, o).inst, h) <==> IsStuck(n.inst, h)
  {
    hide Inv, L.BeginUnload, IsStuck;
    if WaitsOn(n, o) { ClaimedStuck(n, cfg, h, n.runs[o].c.h); }
    var m := ModelOf(n, o);
    if m in n.a.managers && n.a.managers[m] in n.inst { ClaimedStuck(n, cfg, h, n.a.managers[m]); }
  }

  lemma UnloadStuck(n: Node, cfg: Config, q: ReqId, m: ModelId, h: Handle)
    requires Inv(n, cfg)
    ensures IsStuck(DoUnloadBegins(n, q, m).inst, h) <==> IsStuck(n.inst, h)
    ensures q in n.unloads ==> DoUnloadOver(n, q).inst == n.inst
  {
    hide Inv, L.BeginUnload, IsStuck;
    if m in n.a.managers && n.a.managers[m] in n.inst { ClaimedStuck(n, cfg, h, n.a.managers[m]); }
  }

  lemma ServerStuck(n: Node, cfg: Config, k: Handle, e: L.Event, h: Handle)
    requires Inv(n, cfg) && k in n.inst && ServerEvent(e) && L.Enabled(n.inst[k].srv, e)
    ensures IsStuck(DoServer(n, k, e).inst, h) <==> IsStuck(n.inst, h)
  {
    hide Inv;
    SrvFacts(n, cfg, k);
    EventMoves(n.inst[k].srv, e);
    hide L.Apply, L.Enabled, OneRound, ReleaseAgent;
  }

  lemma AbortStuck(n: Node, cfg: Config, o: OpId, h: Handle)
    requires Inv(n, cfg) && Live(n, o) && n.runs[o].Aborting? && !n.runs[o].landed
    ensures IsStuck(DoAbortLands(n, o).inst, h) <==> IsStuck(n.inst, h) || (AbandonsKill(n, o) && n.runs[o].c.h == h)
  {
    hide Inv;
    if AbandonsKill(n, o) {
      SrvFacts(n, cfg, n.runs[o].c.h);
      AbandonedServer(n.inst[n.runs[o].c.h].srv);
      hide L.Apply, OneRound;
    }
  }

  /** An instance is stuck from the moment its kill was abandoned, and for no other reason. */
  lemma StuckStep(n: Node, cfg: Config, st: Step, h: Handle)
    requires Enabled(n, st) && Inv(n, cfg)
    ensures IsStuck(Apply(n, cfg, st).inst, h) <==> IsStuck(n.inst, h) || Abandons(n, st, h)
  {
    hide Inv, DoStart, DoRunBegins, DoValidated, DoRunLocks, DoChildRuns, DoChildWakes, DoChildTimesOut, DoChildUnloaded,
      DoAbortLands, DoCleanBegins, DoCleanOver, DoUnloadBegins, DoUnloadOver, DoServer, Pruned, L.Enabled, AbandonsKill, Smallest, IsStuck, Ended, Free;
    match st
    case Ask(r) =>
    case Start(r, kept) => StartTouches(n, r, kept);
    case Status(kept) =>
    case RunBegins(o, late) => EarlyInst(n, o, false, late);
    case Validated(o, ok, late) => EarlyInst(n, o, ok, late);
    case RunLocks(o, late) => EarlyInst(n, o, false, late);
    case ChildRuns(o, k, port) => ChildRunsStuck(n, cfg, o, h, k, port);
    case ChildWakes(o) => ChildInst(n, o);
    case ChildTimesOut(o) => ClaimsStuck(n, cfg, o, h);
    case ChildUnloaded(o) => ChildInst(n, o);
    case RunResumes(o) =>
    case DeadlineHits(o) =>
    case AbortLands(o) => AbortStuck(n, cfg, o, h);
    case CleanBegins(o) => ClaimsStuck(n, cfg, o, h);
    case CleanOver(o) => ChildInst(n, o);
    case UnloadBegins(q, m) => UnloadStuck(n, cfg, q, m, h);
    case UnloadOver(q) => UnloadStuck(n, cfg, q, n.unloads[q].model, h);
    case Server(k, e) => ServerStuck(n, cfg, k, e, h);
    case Measure(free) =>
    case Tick =>
  }

  lemma {:induction false} StuckIff(trace: seq<Node>, steps: seq<Step>, cfg: Config, k: nat, h: Handle)
    requires Run(trace, steps, cfg) && Init(trace[0], cfg) && k <= |steps|
    ensures IsStuck(trace[k].inst, h) <==> KillAbandoned(trace, steps, k, h)
  {
    hide Inv, Apply, Enabled, Abandons, IsStuck;
    if k == 0 {
      NothingStuck(trace[0], cfg, h);
    } else {
      StuckIff(trace, steps, cfg, k - 1, h);
      RunKeepsInv(trace, steps, cfg, k - 1);
      assert trace[k - 1 + 1] == Apply(trace[k - 1], cfg, steps[k - 1]);
      StuckStep(trace[k - 1], cfg, steps[k - 1], h);
    }
  }

  lemma NothingStuck(n: Node, cfg: Config, h: Handle)
    requires Init(n, cfg)
    ensures !IsStuck(n.inst, h)
  {
  }

  lemma LiveIsCurrent(n: Node, cfg: Config, h: Handle)
    requires Inv(n, cfg) && h in n.inst && n.inst[h].srv.proc != L.NoProcess && !IsStuck(n.inst, h)
    ensures Current(n.a.managers, n.inst, h)
    ensures n.inst[h].def.id in n.a.ports && n.a.ports[n.inst[h].def.id] == n.inst[h].port && n.inst[h].port !in n.a.free
  {
    hide OpsInv, LockInv, HoldInv, RunInv, IdentInv, BudgetInv;
  }

  lemma SamePortSameManager(n: Node, cfg: Config, h: Handle, k: Handle)
    requires Inv(n, cfg) && h in n.inst && k in n.inst && n.inst[h].port == n.inst[k].port
    requires n.inst[h].srv.proc != L.NoProcess && n.inst[k].srv.proc != L.NoProcess && !IsStuck(n.inst, h) && !IsStuck(n.inst, k)
    ensures h == k
  {
    LiveIsCurrent(n, cfg, h);
    LiveIsCurrent(n, cfg, k);
    assert PoolInv(n.a.managers, n.a.ports, n.a.free, cfg.range);
    hide Inv;
  }

  /** In every run, across load failures, timeouts, deadlines, unloads and crashes: a port is back in the
      pool only once the process last started on it is gone, and no two instances have a process on the same
      port, unless a deadline fell into the kill of that instance. */
  lemma PortsOutliveProcesses(trace: seq<Node>, steps: seq<Step>, cfg: Config, k: nat, h: Handle, j: Handle)
    requires Run(trace, steps, cfg) && Init(trace[0], cfg) && k <= |steps|
    requires h in trace[k].inst && j in trace[k].inst
    ensures trace[k].inst[h].port in trace[k].a.free ==>
              trace[k].inst[h].srv.proc == L.NoProcess || KillAbandoned(trace, steps, k, h)
    ensures h != j && trace[k].inst[h].port == trace[k].inst[j].port ==>
              || trace[k].inst[h].srv.proc == L.NoProcess || KillAbandoned(trace, steps, k, h)
              || trace[k].inst[j].srv.proc == L.NoProcess || KillAbandoned(trace, steps, k, j)
  {
    RunKeepsInv(trace, steps, cfg, k);
    StuckIff(trace, steps, cfg, k, h);
    StuckIff(trace, steps, cfg, k, j);
    hide Inv, Init, Run, KillAbandoned, IsStuck;
    var n := trace[k];
    if n.inst[h].srv.proc != L.NoProcess && !IsStuck(n.inst, h) {
      LiveIsCurrent(n, cfg, h);
      if n.inst[h].port == n.inst[j].port && n.inst[j].srv.proc != L.NoProcess && !IsStuck(n.inst, j) {
        SamePortSameManager(n, cfg, h, j);
      }
    }
  }

  /** The sizes of READY and LOADING managers never exceed the net budget, whatever is measured; free
      and allocated ports partition the range. */
  lemma BudgetAndPorts(trace: seq<Node>, steps: seq<Step>, cfg: Config, k: nat)
    requires Run(trace, steps, cfg) && Init(trace[0], cfg) && k <= |steps|
    ensures Used(trace[k]) <= cfg.budget
    ensures trace[k].a.managers.Keys == trace[k].a.ports.Keys && trace[k].a.free !! trace[k].a.ports.Values
    ensures trace[k].a.free + trace[k].a.ports.Values == cfg.range
  {
    RunKeepsInv(trace, steps, cfg, k);
    hide Init, Run, RegInv, OpsInv, LockInv, HoldInv, RunInv, IdentInv, SrvInv, DeadInv;
    var a := trace[k].a;
    forall q ensures q in a.free + a.ports.Values <==> q in cfg.range {
      if q in a.ports.Values {
        var m :| m in a.ports && a.ports[m] == q;
      }
    }
  }

  // ---------------------------------------------------------------- operations

  /** In every run: an operation is not terminal exactly when it is the active operation of its model,
      so a model never has two loads in progress. */
  lemma OneLoadPerModel(trace: seq<Node>, steps: seq<Step>, cfg: Config, k: nat)
    requires Run(trace, steps, cfg) && Init(trace[0], cfg) && k <= |steps|
    ensures forall o :: o in trace[k].a.ops ==>
              (!Terminal(trace[k].a.ops[o].state) <==>
                 trace[k].a.ops[o].def.id in trace[k].a.active && trace[k].a.active[trace[k].a.ops[o].def.id] == o)
    ensures forall o, p :: o in trace[k].runs && p in trace[k].runs ==>
              o in trace[k].a.ops && p in trace[k].a.ops
              && (trace[k].a.ops[o].def.id == trace[k].a.ops[p].def.id ==> o == p)
  {
    RunKeepsInv(trace, steps, cfg, k);
    hide Init, Run, RegInv, LockInv, HoldInv, RunInv, IdentInv, SrvInv, DeadInv, PoolInv, BudgetInv;
  }

  /** Operations that are over stay as they are. */
  ghost predicate TerminalKept(n: Node, n': Node) {
    forall o :: o in n.a.ops && Terminal(n.a.ops[o].state) ==> o in n'.a.ops && n'.a.ops[o] == n.a.ops[o]
  }

  lemma FinishKeepsTerminal(n: Node, n1: Node, o: OpId, state: OpState)
    requires o in n1.a.ops && n1.a.ops == n.a.ops && !Terminal(n.a.ops[o].state)
    ensures TerminalKept(n, Finish(n1, o, state))
  {
  }

  lemma DropKeepsOps(n: Node, m: ModelId, h: Handle)
    ensures Drop(n, m, h).a.ops == n.a.ops
  {
  }

  lemma AnswerIsFresh(a: Agent, r: Request, state: Option<L.RunState>)
    ensures var answer := Decide(a, r, state);
            (answer.Loaded? || answer.Started? ==> answer.op !in a.ops)
            && (answer.Started? ==> ActiveOf(a, r.def.id).None? && state != Some(L.Ready) && state != Some(L.Unloading))
  {
    hide GenOf;
  }

  lemma StartKeepsTerminal(n: Node, r: Request, kept: Ops)
    requires Pruned(n.a.ops, n.a.active, n.now, kept)
    ensures forall o :: o in kept && Terminal(n.a.ops[o].state) ==> o in DoStart(n, r, kept).a.ops && DoStart(n, r, kept).a.ops[o] == n.a.ops[o]
  {
    hide Pruned, Decide, NewOp, StateOf;
    PrunedFacts(n.a.ops, n.a.active, n.now, kept);
    AnswerIsFresh(n.a.(ops := kept), r, StateOf(n, r.def.id));
  }

  lemma ChildRunsOps(n: Node, cfg: Config, o: OpId, h: Handle, port: nat)
    requires Live(n, o)
    ensures DoChildRuns(n, cfg, o, h, port).a.ops == n.a.ops
  {
    hide Fits, L.Apply, ReleaseAgent;
    DropKeepsAllOps(n);
  }

  lemma DropKeepsAllOps(n: Node)
    ensures forall m, h :: Drop(n, m, h).a.ops == n.a.ops
  {
    forall m, h ensures Drop(n, m, h).a.ops == n.a.ops { DropKeepsOps(n, m, h); }
  }

  lemma CleanKeepsTerminal(n: Node, o: OpId)
    requires Live(n, o) && !Terminal(n.a.ops[o].state)
    ensures TerminalKept(n, DoCleanBegins(n, o)) && (n.runs[o].Cleaning? ==> TerminalKept(n, DoCleanOver(n, o)))
  {
    hide Finish, Drop, L.BeginUnload;
    var m := ModelOf(n, o);
    FinishKeepsTerminal(n, n, o, DeadlineExceeded);
    if m in n.a.managers {
      DropKeepsOps(n, m, n.a.managers[m]);
      FinishKeepsTerminal(n, Drop(n, m, n.a.managers[m]), o, DeadlineExceeded);
    }
    if n.runs[o].Cleaning? {
      DropKeepsOps(n, m, n.runs[o].h);
      FinishKeepsTerminal(n, Drop(n, m, n.runs[o].h), o, DeadlineExceeded);
    }
  }

  lemma RunIsLive(n: Node, cfg: Config, o: OpId)
    requires Live(n, o) && Inv(n, cfg)
    ensures !Terminal(n.a.ops[o].state)
  {
    hide Inv;
    OpFacts(n, cfg, o);
  }

  lemma EarlyKeepsTerminal(n: Node, o: OpId, ok: bool, late: bool)
    requires Live(n, o) && !Terminal(n.a.ops[o].state)
    ensures TerminalKept(n, DoRunBegins(n, o, late)) && TerminalKept(n, DoValidated(n, o, ok, late))
    ensures TerminalKept(n, DoRunLocks(n, o, late))
  {
  }

  lemma ChildKeepsOps(n: Node, o: OpId)
    requires Live(n, o)
    ensures WaitsOn(n, o) ==> DoChildWakes(n, o).a.ops == n.a.ops && DoChildTimesOut(n, o).a.ops == n.a.ops
    ensures TimedOutIn(n, o) ==> DoChildUnloaded(n, o).a.ops == n.a.ops
    ensures n.runs[o].Aborting? ==> DoAbortLands(n, o).a.ops == n.a.ops
  {
    DropKeepsAllOps(n);
    hide Drop, L.Apply, L.BeginUnload, L.WakeOutcome;
  }

  lemma UnloadKeepsOps(n: Node, q: ReqId, m: ModelId)
    ensures DoUnloadBegins(n, q, m).a.ops == n.a.ops
    ensures q in n.unloads ==> DoUnloadOver(n, q).a.ops == n.a.ops
  {
    DropKeepsAllOps(n);
    hide Drop, L.BeginUnload;
  }

  lemma ServerKeepsOps(n: Node, h: Handle, e: L.Event)
    requires h in n.inst && L.Enabled(n.inst[h].srv, e)
    ensures DoServer(n, h, e).a.ops == n.a.ops
  {
    hide L.Apply, L.Enabled;
  }

  /** The step does not prune o. */
  predicate Retains(st: Step, o: OpId) { (st.Start? || st.Status?) ==> o in st.kept }

  /** Terminal states are absorbing: no step changes an operation that is over, unless it prunes it. */
  lemma TerminalIsAbsorbing(n: Node, cfg: Config, st: Step, o: OpId)
    requires Enabled(n, st) && o in n.a.ops && Terminal(n.a.ops[o].state) && Retains(st, o) && Inv(n, cfg)
    ensures o in Apply(n, cfg, st).a.ops && Apply(n, cfg, st).a.ops[o] == n.a.ops[o]
  {
    hide Inv, Enabled, Apply;
    if st.Start? || st.Status? {
      PruningKeepsTerminal(n, cfg, st, o);
    } else if EndingStep(st) {
      EndingKeepsTerminal(n, cfg, st);
    } else {
      OthersKeepOps(n, cfg, st);
    }
  }

  lemma PruningKeepsTerminal(n: Node, cfg: Config, st: Step, o: OpId)
    requires Enabled(n, st) && o in n.a.ops && Terminal(n.a.ops[o].state) && (st.Start? || st.Status?) && o in st.kept
    ensures o in Apply(n, cfg, st).a.ops && Apply(n, cfg, st).a.ops[o] == n.a.ops[o]
  {
    hide DoStart, Pruned;
    match st
    case Start(r, kept) => StartKeepsTerminal(n, r, kept);
    case Status(kept) => PrunedFacts(n.a.ops, n.a.active, n.now, kept);
  }

  /** The steps of _run_load that write the state of its operation. */
  predicate EndingStep(st: Step) {
    st.RunBegins? || st.Validated? || st.RunLocks? || st.RunResumes? || st.CleanBegins? || st.CleanOver?
  }

  lemma EndingKeepsTerminal(n: Node, cfg: Config, st: Step)
    requires Enabled(n, st) && EndingStep(st) && Inv(n, cfg)
    ensures TerminalKept(n, Apply(n, cfg, st))
  {
    hide Inv, DoRunBegins, DoValidated, DoRunLocks, DoCleanBegins, DoCleanOver, Finish, TerminalKept;
    match st
    case RunBegins(p, late) => RunIsLive(n, cfg, p); EarlyKeepsTerminal(n, p, false, late);
    case Validated(p, ok, late) => RunIsLive(n, cfg, p); EarlyKeepsTerminal(n, p, ok, late);
    case RunLocks(p, late) => RunIsLive(n, cfg, p); EarlyKeepsTerminal(n, p, false, late);
    case RunResumes(p) => RunIsLive(n, cfg, p); FinishKeepsTerminal(n, n, p, if n.runs[p].c.ok then OpState.Ready else Failed);
    case CleanBegins(p) => RunIsLive(n, cfg, p); CleanKeepsTerminal(n, p);
    case CleanOver(p) => RunIsLive(n, cfg, p); CleanKeepsTerminal(n, p);
  }

  lemma OthersKeepOps(n: Node, cfg: Config, st: Step)
    requires Enabled(n, st) && !EndingStep(st) && !st.Start? && !st.Status?
    ensures Apply(n, cfg, st).a.ops == n.a.ops
  {
    hide DoChildRuns, DoChildWakes, DoChildTimesOut, DoChildUnloaded, DoAbortLands, DoUnloadBegins, DoUnloadOver, DoServer,
      L.Enabled, Smallest;
    match st
    case ChildRuns(p, h, port) => ChildRunsOps(n, cfg, p, h, port);
    case ChildWakes(p) => ChildKeepsOps(n, p);
    case ChildTimesOut(p) => ChildKeepsOps(n, p);
    case ChildUnloaded(p) => ChildKeepsOps(n, p);
    case AbortLands(p) => ChildKeepsOps(n, p);
    case UnloadBegins(q, m) => UnloadKeepsOps(n, q, m);
    case UnloadOver(q) => UnloadKeepsOps(n, q, n.unloads[q].model);
    case Server(h, e) => ServerKeepsOps(n, h, e);
    case _ =>
  }

  /** Over a run: while it is retained, a finished operation keeps its result. */
  lemma {:induction false} ResultsAreFinal(trace: seq<Node>, steps: seq<Step>, cfg: Config, i: nat, j: nat, o: OpId)
    requires Run(trace, steps, cfg) && Init(trace[0], cfg) && i <= j <= |steps|
    requires o in trace[i].a.ops && Terminal(trace[i].a.ops[o].state)
    requires forall k :: i <= k < j ==> Retains(steps[k], o)
    ensures o in trace[j].a.ops && trace[j].a.ops[o] == trace[i].a.ops[o]
    decreases j - i
  {
    hide Inv, Init, Apply, Enabled;
    if i < j {
      ResultsAreFinal(trace, steps, cfg, i, j - 1, o);
      RunKeepsInv(trace, steps, cfg, j - 1);
      assert trace[j - 1 + 1] == Apply(trace[j - 1], cfg, steps[j - 1]);
      TerminalIsAbsorbing(trace[j - 1], cfg, steps[j - 1], o);
    }
  }

  /** Pruning drops no operation in progress, and what it leaves is within the bound unless nothing but
      operations in progress is left. */
  lemma PruneKeepsLive(n: Node, cfg: Config, kept: Ops)
    requires Pruned(n.a.ops, n.a.active, n.now, kept) && Inv(n, cfg)
    ensures forall o :: o in n.a.ops && !Terminal(n.a.ops[o].state) ==> o in kept && kept[o] == n.a.ops[o]
    ensures |kept| > MAX_RETAINED ==> forall o :: o in kept ==> !Terminal(kept[o].state)
  {
    assert OpsInv(n.a.ops, n.a.active, n.runs);
    hide Inv;
    PrunedFacts(n.a.ops, n.a.active, n.now, kept);
    if |kept| > MAX_RETAINED {
      var recent := Recent(n.a.ops, n.a.active, n.now);
      forall o | o in kept ensures !Terminal(kept[o].state) {
        assert !Prunable(recent, n.a.active, o);
      }
    }
  }

  // ---------------------------------------------------------------- requests

  lemma RunsAreKept(n: Node, cfg: Config, kept: Ops)
    requires Pruned(n.a.ops, n.a.active, n.now, kept) && Inv(n, cfg)
    ensures forall o :: o in n.runs ==> o in kept
  {
    hide Inv, Pruned;
    PruneKeeps(n, cfg, kept);
  }

  lemma StartsAreFresh(n: Node, cfg: Config, r: Request, kept: Ops)
    requires r.def.id !in n.locks && Pruned(n.a.ops, n.a.active, n.now, kept) && Inv(n, cfg)
    ensures var answer := Decide(n.a.(ops := kept), r, StateOf(n, r.def.id));
            answer.Started? ==> r.def.id !in n.a.active && r.def.id !in n.a.managers && answer.op !in n.runs
  {
    hide Inv, Pruned, Decide, NewOp, ActiveOf;
    var n1 := n.(a := n.a.(ops := kept));
    PruneKeeps(n, cfg, kept);
    RunsAreKept(n, cfg, kept);
    ActiveKnown(n1, cfg, r.def.id);
    UnlockedIsReady(n, cfg, r.def.id);
    AnswerIsFresh(n1.a, r, StateOf(n, r.def.id));
  }

  lemma AnswerTouches(a: Agent, r: Request, answer: Answer, now: nat)
    ensures var b := AfterStart(a, r, answer, now);
            && b.managers == a.managers && b.ports == a.ports
            && b.active == if answer.Started? then a.active[r.def.id := answer.op] else a.active
  {
    hide NewOp;
  }

  lemma StartTouches(n: Node, r: Request, kept: Ops)
    ensures var answer := Decide(n.a.(ops := kept), r, StateOf(n, r.def.id)); var n' := DoStart(n, r, kept);
            && n'.a.managers == n.a.managers && n'.a.ports == n.a.ports && n'.inst == n.inst && n'.locks == n.locks
            && (answer.Started? ==>
                  n'.runs == n.runs[answer.op := Created] && n'.a.active == n.a.active[r.def.id := answer.op])
            && (!answer.Started? ==> n'.runs == n.runs && n'.a.active == n.a.active)
  {
    hide Decide, AfterStart;
    AnswerTouches(n.a.(ops := kept), r, Decide(n.a.(ops := kept), r, StateOf(n, r.def.id)), n.now);
  }

  /** A request starts a load only for a model that has neither an operation in progress nor a manager;
      observing, joining, refusing and answering READY start nothing and touch no manager. */
  lemma SecondLoadNeverStarts(n: Node, cfg: Config, r: Request, kept: Ops)
    requires r.def.id !in n.locks && Pruned(n.a.ops, n.a.active, n.now, kept) && Inv(n, cfg)
    ensures var answer := Decide(n.a.(ops := kept), r, StateOf(n, r.def.id)); var n' := DoStart(n, r, kept);
            && n'.a.managers == n.a.managers && n'.a.ports == n.a.ports && n'.inst == n.inst && n'.locks == n.locks
            && (answer.Started? ==>
                  && r.def.id !in n.a.active && r.def.id !in n.a.managers && answer.op !in n.runs
                  && n'.runs == n.runs[answer.op := Created] && n'.a.active == n.a.active[r.def.id := answer.op])
            && (!answer.Started? ==> n'.runs == n.runs && n'.a.active == n.a.active)
  {
    hide Inv, Pruned, Decide, DoStart;
    StartsAreFresh(n, cfg, r, kept);
    StartTouches(n, r, kept);
  }

  /** Replaying the identifier of a known operation, or joining the load in progress of the same
      definition and generation, yields that very operation. */
  lemma ReplayAndJoin(n: Node, cfg: Config, r: Request, kept: Ops)
    requires Pruned(n.a.ops, n.a.active, n.now, kept) && r.deadlineOk && Inv(n, cfg)
    ensures r.op.Some? && r.op.value in n.a.ops && n.a.ops[r.op.value].def == r.def
            && (r.digest.Some? ==> r.digest.value == r.def.digest) && (r.gen.Some? ==> r.gen.value == n.a.ops[r.op.value].gen) ==>
              Entry(n.a, r) == Some(Observed(r.op.value))
    ensures r.def.id in n.a.active && OpOf(r) !in kept && n.a.active[r.def.id] in n.a.ops
            && n.a.ops[n.a.active[r.def.id]].def == r.def
            && (r.gen.Some? ==> r.gen.value == n.a.ops[n.a.active[r.def.id]].gen) ==>
              Decide(n.a.(ops := kept), r, StateOf(n, r.def.id)) == Observed(n.a.active[r.def.id])
  {
    PruneKeepsLive(n, cfg, kept);
    assert OpsInv(n.a.ops, n.a.active, n.runs);
    hide Inv, Pruned;
  }

  /** A READY manager without an operation in progress answers only for the definition it was loaded
      from: a request with any other digest is refused. */
  lemma OtherDigestRefused(n: Node, cfg: Config, r: Request, kept: Ops)
    requires r.def.id !in n.locks && r.def.id !in n.a.active && OpOf(r) !in kept && r.deadlineOk
    requires r.def.id in n.a.managers && n.a.managers[r.def.id] in n.inst
    requires Pruned(n.a.ops, n.a.active, n.now, kept) && Inv(n, cfg)
    ensures var answer := Decide(n.a.(ops := kept), r, StateOf(n, r.def.id));
            if n.inst[n.a.managers[r.def.id]].def.digest == r.def.digest then answer == Loaded(OpOf(r)) else answer == Conflict
  {
    assert IdentInv(n.a.managers, n.a.active, n.a.identity, n.inst);
    hide Inv, Pruned;
    UnlockedIsReady(n, cfg, r.def.id);
  }

  // ---------------------------------------------------------------- the abandoned kill

  /** The port of h is in the pool while the process of h is alive. */
  predicate FreedAlive(n: Node, h: Handle) {
    h in n.inst && n.inst[h].port in n.a.free && n.inst[h].srv.proc == L.Live
  }

  /** When a deadline lands on an inner task that is unloading h after a timeout, and the clean-up
      follows at once, the port comes back with a live process exactly when a kill of a live process
      was in progress. */
  lemma AbandonedKillFreesPort(n: Node, cfg: Config, o: OpId, h: Handle)
    requires Live(n, o) && n.runs[o] == Aborting(InTimeoutUnload(h), false) && Current(n.a.managers, n.inst, h)
    requires Inv(n, cfg)
    ensures var n1 := DoAbortLands(n, o);
            && (AbandonsKill(n, o) <==> n1.runs[o].c.ChildDone?)
            && (n1.runs[o].c.ChildDone? ==>
                  Enabled(n1, CleanBegins(o)) && (FreedAlive(DoCleanBegins(n1, o), h) <==> n.inst[h].srv.proc == L.Live))
            && (!n1.runs[o].c.ChildDone? ==> !FreedAlive(n1, h))
  {
    hide Inv;
    OpFacts(n, cfg, o);
    SrvFacts(n, cfg, h);
    AliveHasPort(n, cfg, h);
    if n.inst[h].srv.unload == L.Killing { AbandonedServer(n.inst[h].srv); }
    hide L.Apply, OneRound;
  }

  lemma AliveHasPort(n: Node, cfg: Config, h: Handle)
    requires Current(n.a.managers, n.inst, h) && Inv(n, cfg)
    ensures n.inst[h].def.id in n.a.ports && n.a.ports[n.inst[h].def.id] == n.inst[h].port && n.inst[h].port !in n.a.free
  {
    hide OpsInv, LockInv, HoldInv, RunInv, IdentInv, BudgetInv, SrvInv, DeadInv;
  }
}
