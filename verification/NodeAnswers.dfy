/** What the node agent answers, and what its tasks do, case by case and in every reachable state; and that a
  load and an unload which nothing disturbs succeed. */
module NodeAnswers {
  import opened Sums
  import opened GatewayPool
  import opened NodeAgent
  import opened NodeSystem
  import opened NodeProofs
  import opened NodeSteps
  import opened NodeTheorems
  import L = ServerLifecycle

  // ---------------------------------------------------------------- load requests

  /** The request names nothing that is not the operation's own: its model, and, as far as it names them, its
      digest and its generation. */
  predicate Names(r: Request, op: Op) {
    r.def.id == op.def.id && (r.digest.Some? ==> r.digest.value == op.def.digest) && (r.gen.Some? ==> r.gen.value == op.gen)
  }

  /** Before the model lock: a known identifier is answered with its operation exactly if the request names
      nothing else, and with a conflict otherwise; an unknown one goes on exactly if the digest that it names
      is that of its definition. */
  lemma EntryAnswers(a: Agent, r: Request)
    ensures r.op.Some? && r.op.value in a.ops ==>
              (if Names(r, a.ops[r.op.value]) then Entry(a, r) == Some(Observed(r.op.value)) else Entry(a, r) == Some(Conflict))
    ensures !(r.op.Some? && r.op.value in a.ops) ==>
              (if r.digest.Some? && r.digest.value != r.def.digest then Entry(a, r) == Some(BadDigest) else Entry(a, r) == None)
  {
  }

  /** The generation a request is about: the one it names, else that of the load in progress or of the loaded
      manager of the same digest, else a fresh one. */
  predicate Meant(a: Agent, r: Request, gen: GenId) {
    var m := r.def.id;
    if r.gen.Some? then gen == r.gen.value
    else if m in a.active && a.active[m] in a.ops && a.ops[a.active[m]].def.digest == r.def.digest then gen == a.ops[a.active[m]].gen
    else if m in a.identity && a.identity[m].digest == r.def.digest then gen == a.identity[m].gen
    else gen == r.freshGen
  }

  /** Under the model lock, after pruning, exactly: a deadline out of bounds is refused; a known identifier is
      observed if it is the same deployment, else a conflict; a load in progress is joined if and only if its
      digest is the request's and a named generation is its own, else a conflict; a loaded manager answers
      READY if and only if it has that digest, else a conflict; and in every other case a load starts. */
  lemma StartAnswers(n: Node, cfg: Config, r: Request, kept: Ops)
    requires r.def.id !in n.locks && Pruned(n.a.ops, n.a.active, n.now, kept) && Inv(n, cfg)
    ensures var answer := Decide(n.a.(ops := kept), r, StateOf(n, r.def.id)); var m, o := r.def.id, OpOf(r);
            if !r.deadlineOk then answer == BadDeadline
            else if o in kept then
              if kept[o].def.id == m && kept[o].def.digest == r.def.digest && Meant(n.a.(ops := kept), r, kept[o].gen)
              then answer == Observed(o) else answer == Conflict
            else if m in n.a.active then
              var op := n.a.ops[n.a.active[m]];
              if op.def.digest == r.def.digest && (r.gen.Some? ==> r.gen.value == op.gen)
              then answer == Observed(n.a.active[m]) else answer == Conflict
            else if m in n.a.managers then
              if n.inst[n.a.managers[m]].def.digest == r.def.digest then answer == Loaded(o) else answer == Conflict
            else answer == Started(o)
  {
    hide Inv, Pruned, Decide, Meant;
    var m, a, state := r.def.id, n.a.(ops := kept), StateOf(n, r.def.id);
    ActiveOps(n, cfg, m);
    PruneKeepsLive(n, cfg, kept);
    if !r.deadlineOk || OpOf(r) in kept {
      KnownAnswers(a, r, state);
    } else if m in n.a.active {
      JoinAnswers(a, r, state);
    } else if m in n.a.managers {
      OtherDigestRefused(n, cfg, r, kept);
    } else {
      NewAnswers(a, r, state);
    }
  }

  lemma MeantIsGen(a: Agent, r: Request, gen: GenId)
    ensures Meant(a, r, gen) <==> gen == GenOf(a, r)
  {
  }

  lemma KnownAnswers(a: Agent, r: Request, state: Option<L.RunState>)
    requires !r.deadlineOk || OpOf(r) in a.ops
    ensures var o := OpOf(r);
            if !r.deadlineOk then Decide(a, r, state) == BadDeadline
            else if a.ops[o].def.id == r.def.id && a.ops[o].def.digest == r.def.digest && Meant(a, r, a.ops[o].gen)
            then Decide(a, r, state) == Observed(o) else Decide(a, r, state) == Conflict
  {
    hide GenOf, Meant;
    if r.deadlineOk { MeantIsGen(a, r, a.ops[OpOf(r)].gen); }
  }

  lemma JoinAnswers(a: Agent, r: Request, state: Option<L.RunState>)
    requires r.deadlineOk && OpOf(r) !in a.ops && r.def.id in a.active && a.active[r.def.id] in a.ops
    ensures var op := a.ops[a.active[r.def.id]];
            if op.def.digest == r.def.digest && (r.gen.Some? ==> r.gen.value == op.gen)
            then Decide(a, r, state) == Observed(a.active[r.def.id]) else Decide(a, r, state) == Conflict
  {
  }

  lemma NewAnswers(a: Agent, r: Request, state: Option<L.RunState>)
    requires r.deadlineOk && OpOf(r) !in a.ops && r.def.id !in a.active && state == None
    ensures Decide(a, r, state) == Started(OpOf(r))
  {
  }

  lemma ActiveOps(n: Node, cfg: Config, m: ModelId)
    requires Inv(n, cfg)
    ensures m in n.a.active ==> n.a.active[m] in n.a.ops && !Terminal(n.a.ops[n.a.active[m]].state)
                                && n.a.ops[n.a.active[m]].def.id == m
    ensures m in n.a.managers ==> n.a.managers[m] in n.inst && n.inst[n.a.managers[m]].def.id == m
  {
    hide PoolInv, LockInv, HoldInv, SrvInv, RunInv, DeadInv, IdentInv, BudgetInv;
  }

  /** ... and what it leaves: a READY answer records a finished operation, a started load an accepted one that
      is its model's active one and has its task; any other answer leaves the pruned tables as they are. */
  lemma StartLeaves(n: Node, cfg: Config, r: Request, kept: Ops)
    requires Pruned(n.a.ops, n.a.active, n.now, kept)
    ensures var a := n.a.(ops := kept); var answer := Decide(a, r, StateOf(n, r.def.id)); var n' := DoStart(n, r, kept);
            match answer
            case Loaded(o) =>
              exists gen :: Meant(a, r, gen) && n' == n.(a := a.(ops := kept[o := Op(r.def, gen, Ready, n.now, Some(n.now))]))
            case Started(o) =>
              exists gen :: Meant(a, r, gen) &&
                n' == n.(a := a.(ops := kept[o := Op(r.def, gen, Accepted, n.now, None)], active := n.a.active[r.def.id := o]),
                         runs := n.runs[o := Created])
            case _ => n' == n.(a := a)
  {
    hide Pruned, Decide;
    var a := n.a.(ops := kept);
    assert Meant(a, r, GenOf(a, r));
  }

  /** Pruning, in numbers: what finished more than 600 seconds ago goes; what goes has finished and is nobody's
      active operation, and if it finished later, 256 operations are kept; and more than 256 are kept only if
      none of them could go. */
  lemma PruneBounds(ops: Ops, active: map<ModelId, OpId>, now: nat, kept: Ops, o: OpId)
    requires Pruned(ops, active, now, kept) && o in ops
    ensures Terminal(ops[o].state) && o !in active.Values && ops[o].completed.Some? && ops[o].completed.value + 600 < now ==> o !in kept
    ensures o in kept ==> kept[o] == ops[o]
    ensures o !in kept ==> Terminal(ops[o].state) && o !in active.Values
    ensures o !in kept && !(ops[o].completed.Some? && ops[o].completed.value + 600 < now) ==> |kept| >= 256
    ensures |kept| > 256 && o in kept ==> !(Terminal(ops[o].state) && o !in active.Values)
  {
    var recent := Recent(ops, active, now);
    if |kept| > 256 && o in kept { assert !Prunable(recent, active, o); }
  }

  // ---------------------------------------------------------------- the task of an operation

  /** How the task of o ends in a step of its own, if it does. */
  function EndsAs(n: Node, st: Step, o: OpId): Option<OpState>
    requires Live(n, o)
  {
    match st
    case RunBegins(_, late) => if late then Some(DeadlineExceeded) else None
    case Validated(_, ok, late) => if late then Some(DeadlineExceeded) else if ok then None else Some(Failed)
    case RunLocks(_, late) => if late then Some(DeadlineExceeded) else None
    case RunResumes(_) => Some(if n.runs[o] == Child(ChildDone(true)) then OpState.Ready else Failed)
    case CleanBegins(_) =>
      var state := StateOf(n, n.a.ops[o].def.id);
      if state == Some(L.Loading) || state == Some(L.Ready) then None else Some(DeadlineExceeded)
    case CleanOver(_) => Some(DeadlineExceeded)
    case _ => None
  }

  /** The steps of the task of o. */
  predicate OwnStep(st: Step, o: OpId) {
    match st
    case RunBegins(p, _) => p == o
    case Validated(p, _, _) => p == o
    case RunLocks(p, _) => p == o
    case ChildRuns(p, _, _) => p == o
    case ChildWakes(p) => p == o
    case ChildTimesOut(p) => p == o
    case ChildUnloaded(p) => p == o
    case RunResumes(p) => p == o
    case DeadlineHits(p) => p == o
    case AbortLands(p) => p == o
    case CleanBegins(p) => p == o
    case CleanOver(p) => p == o
    case _ => false
  }

  /** The operation is over: its result and its time are recorded, its task is gone; a READY one has left the
      identity of its manager. */
  ghost predicate Ends(n: Node, n': Node, o: OpId, state: OpState)
    requires Live(n, o)
  {
    var op := n.a.ops[o];
    && o !in n'.runs && o in n'.a.ops && n'.a.ops[o] == op.(state := state, completed := Some(n.now))
    && (state == OpState.Ready ==> op.def.id in n'.a.identity && n'.a.identity[op.def.id] == Ident(op.def.digest, op.gen, o))
  }

  lemma FinishEnds(n: Node, n1: Node, o: OpId, state: OpState)
    requires Live(n, o) && n1.now == n.now && o in n1.a.ops
    requires n1.a.ops[o].def == n.a.ops[o].def && n1.a.ops[o].gen == n.a.ops[o].gen && n1.a.ops[o].created == n.a.ops[o].created
    ensures Ends(n, Finish(n1, o, state), o, state)
  {
    hide Free;
  }

  lemma EarlyEndsAs(n: Node, cfg: Config, st: Step, o: OpId)
    requires Enabled(n, st) && OwnStep(st, o) && (st.RunBegins? || st.Validated? || st.RunLocks?)
    ensures var n' := Apply(n, cfg, st); var end := EndsAs(n, st, o); if end.Some? then Ends(n, n', o, end.value) else Live(n', o)
  {
    hide Finish, Ends;
    match st
    case RunBegins(p, late) =>
      FinishEnds(n, n.(a := n.a.(ops := n.a.ops[o := n.a.ops[o].(state := OpState.Loading)])), o, DeadlineExceeded);
    case Validated(p, ok, late) => FinishEnds(n, n, o, DeadlineExceeded); FinishEnds(n, n, o, Failed);
    case RunLocks(p, late) => FinishEnds(n, n, o, DeadlineExceeded);
  }

  lemma CleanEndsAs(n: Node, cfg: Config, st: Step, o: OpId)
    requires Enabled(n, st) && OwnStep(st, o) && (st.RunResumes? || st.CleanBegins? || st.CleanOver?)
    ensures var n' := Apply(n, cfg, st); var end := EndsAs(n, st, o); if end.Some? then Ends(n, n', o, end.value) else Live(n', o)
  {
    hide Finish, Ends, L.BeginUnload, Drop;
    var m := n.a.ops[o].def.id;
    match st
    case RunResumes(p) =>
      FinishEnds(n, n, o, OpState.Ready);
      FinishEnds(n, n, o, Failed);
    case CleanBegins(p) =>
      FinishEnds(n, n, o, DeadlineExceeded);
      if m in n.a.managers {
        DropSame(n, m, n.a.managers[m]);
        FinishEnds(n, Drop(n, m, n.a.managers[m]), o, DeadlineExceeded);
      }
    case CleanOver(p) =>
      DropSame(n, m, n.runs[o].h);
      FinishEnds(n, Drop(n, m, n.runs[o].h), o, DeadlineExceeded);
  }

  lemma DropSame(n: Node, m: ModelId, h: Handle)
    ensures Drop(n, m, h).a.ops == n.a.ops && Drop(n, m, h).a.active == n.a.active && Drop(n, m, h).runs == n.runs
    ensures Drop(n, m, h).now == n.now && Drop(n, m, h).inst == n.inst && Drop(n, m, h).locks == n.locks
  {
  }

  lemma ChildLives(n: Node, cfg: Config, st: Step, o: OpId)
    requires Enabled(n, st) && OwnStep(st, o) && !(st.RunBegins? || st.Validated? || st.RunLocks?)
    requires !(st.RunResumes? || st.CleanBegins? || st.CleanOver?)
    ensures Live(Apply(n, cfg, st), o)
  {
    hide Drop, L.BeginUnload, L.Apply, L.WakeOutcome, L.Enabled, Fits, Smallest;
    match st
    case ChildRuns(p, h, port) =>
      var m := n.a.ops[o].def.id;
      if m in n.a.managers { DropSame(n, m, n.a.managers[m]); }
      ChildRunsLives(n, cfg, p, h, port);
    case ChildWakes(p) => DropSame(n, n.a.ops[o].def.id, n.runs[o].c.h);
    case ChildTimesOut(p) => DropSame(n, n.a.ops[o].def.id, n.runs[o].c.h);
    case ChildUnloaded(p) => DropSame(n, n.a.ops[o].def.id, n.runs[o].c.h);
    case DeadlineHits(p) =>
    case AbortLands(p) =>
  }

  lemma ChildRunsLives(n: Node, cfg: Config, o: OpId, h: Handle, port: nat)
    requires Live(n, o)
    ensures Live(DoChildRuns(n, cfg, o, h, port), o)
  {
    hide Fits, L.Apply;
  }

  /** In a step of its own, exactly: an operation ends DEADLINE_EXCEEDED when its deadline had passed at one of
      the three tests or when its cancelled load has been cleaned up, FAILED when its validation or its load
      failed, READY when its load succeeded; otherwise its task goes on.  When it has ended it is nobody's
      active operation and holds no lock. */
  lemma EndsExactly(n: Node, cfg: Config, st: Step, o: OpId)
    requires Inv(n, cfg) && Enabled(n, st) && OwnStep(st, o)
    ensures Live(n, o)
    ensures var n' := Apply(n, cfg, st); var end := EndsAs(n, st, o);
            if end.Some? then
              && Ends(n, n', o, end.value) && (forall m :: m in n'.a.active ==> n'.a.active[m] != o)
              && (forall m :: m in n'.locks ==> n'.locks[m] != RunOf(o))
            else Live(n', o)
  {
    assert Live(n, o) by { OwnIsLive(n, st, o); }
    hide Inv, Enabled, Apply, EndsAs, Ends, OwnStep;
    StepKeepsInv(n, cfg, st);
    if st.RunBegins? || st.Validated? || st.RunLocks? {
      EarlyEndsAs(n, cfg, st, o);
    } else if st.RunResumes? || st.CleanBegins? || st.CleanOver? {
      CleanEndsAs(n, cfg, st, o);
    } else {
      ChildLives(n, cfg, st, o);
      ChildHasNoEnd(n, st, o);
    }
    if EndsAs(n, st, o).Some? { OverIsFree(Apply(n, cfg, st), cfg, n, o, EndsAs(n, st, o).value); }
  }

  lemma OwnIsLive(n: Node, st: Step, o: OpId)
    requires Enabled(n, st) && OwnStep(st, o)
    ensures Live(n, o)
  {
    hide Smallest;
  }

  lemma ChildHasNoEnd(n: Node, st: Step, o: OpId)
    requires Live(n, o) && !(st.RunBegins? || st.Validated? || st.RunLocks? || st.RunResumes? || st.CleanBegins? || st.CleanOver?)
    ensures EndsAs(n, st, o) == None
  {
  }

  lemma OverIsFree(n': Node, cfg: Config, n: Node, o: OpId, state: OpState)
    requires Inv(n', cfg) && Live(n, o) && Ends(n, n', o, state)
    ensures (forall m :: m in n'.a.active ==> n'.a.active[m] != o) && (forall m :: m in n'.locks ==> n'.locks[m] != RunOf(o))
  {
    hide PoolInv, RegInv, SrvInv, DeadInv, HoldInv, RunInv, IdentInv, BudgetInv;
  }

  // ---------------------------------------------------------------- managers

  /** When a load gets to run, exactly: it takes the smallest free port for a new manager of its model and starts
      it if a port is free and the size fits into the net budget and the measured memory; else it fails, and
      nothing but its task has changed. */
  lemma LoadLaunchesIff(n: Node, cfg: Config, o: OpId, h: Handle, port: nat)
    requires AtPc(n, o, Child(ChildStart)) && h !in n.inst && (n.a.free != {} ==> Smallest(n.a.free, port)) && Inv(n, cfg)
    ensures var def := n.a.ops[o].def; var n' := DoChildRuns(n, cfg, o, h, port);
            if n.a.free != {} && cfg.budget - Used(n) >= def.vram && (n.measured.Some? ==> n.measured.value >= def.vram) then
              && n' == n.(a := n.a.(managers := n.a.managers[def.id := h], ports := n.a.ports[def.id := port], free := n.a.free - {port}),
                          inst := n.inst[h := Inst(def, port, STARTING)], runs := n.runs[o := Child(InEnsure(h, 0))])
              && port in n.a.free && (forall q :: q in n.a.free ==> port <= q) && def.id !in n.a.managers
            else n' == n.(runs := n.runs[o := Child(ChildDone(false))])
  {
    hide Inv, Used, L.Apply;
    LoadFindsNoManager(n, cfg, o);
    FirstRound(n.now);
  }

  /** An instance whose load task was just created. */
  const STARTING := L.Server(L.Loading, L.NoProcess, [false], false, L.Created, false, L.NoUnload, 0, 0)

  lemma FirstRound(now: nat)
    ensures L.Apply(L.Fresh, L.EnsureLoaded(now)) == STARTING
  {
    assert [] + [false] == [false];
  }

  /** A load that waits is served exactly if its instance is READY when it wakes; else its manager is dropped. */
  lemma WaiterServedIff(n: Node, cfg: Config, o: OpId)
    requires WaitsOn(n, o) && Inv(n, cfg)
    ensures var h, n' := n.runs[o].c.h, DoChildWakes(n, o);
            if n.inst[h].srv.state == L.Ready then n' == n.(runs := n.runs[o := Child(ChildDone(true))])
            else n' == n.(a := ReleaseAgent(n.a, n.a.ops[o].def.id, h), runs := n.runs[o := Child(ChildDone(false))])
  {
    hide Inv, ReleaseAgent;
    SrvFacts(n, cfg, n.runs[o].c.h);
  }

  /** An unload request that gets the model lock: a loaded model is unloaded, and the lock and the port are
      kept until that is over; a model that is not loaded is left alone. */
  lemma UnloadDecides(n: Node, cfg: Config, q: ReqId, m: ModelId)
    requires m !in n.locks && Inv(n, cfg)
    ensures m in n.a.managers ==> n.a.managers[m] in n.inst && n.inst[n.a.managers[m]].srv.state == L.Ready
    ensures var n' := DoUnloadBegins(n, q, m);
            if m in n.a.managers then
              var h := n.a.managers[m];
              n' == n.(inst := n.inst[h := n.inst[h].(srv := n.inst[h].srv.(state := L.Unloading, unload := L.Killing))],
                       unloads := n.unloads[q := Unl(m, h)], locks := n.locks[m := UnloadBy(q)])
            else n' == n
  {
    hide Inv;
    UnlockedIsReady(n, cfg, m);
    if m in n.a.managers { ReadyUnloads(n, cfg, n.a.managers[m]); }
    hide L.BeginUnload;
  }

  lemma ReadyUnloads(n: Node, cfg: Config, h: Handle)
    requires InState(n.inst, h, L.Ready) && Inv(n, cfg)
    ensures L.BeginUnload(n.inst[h].srv) == n.inst[h].srv.(state := L.Unloading, unload := L.Killing)
  {
    hide Inv;
    SrvFacts(n, cfg, h);
  }

  /** h is gone, and so are its entry, its identity and its claim on the port. */
  function Without(n: Node, h: Handle): Node
    requires h in n.inst
  {
    var i, m := n.inst[h], n.inst[h].def.id;
    n.(inst := n.inst[h := i.(srv := i.srv.(state := L.Unloaded, proc := L.NoProcess, unload := L.NoUnload))],
       a := n.a.(managers := n.a.managers - {m}, ports := n.a.ports - {m}, free := n.a.free + {i.port}, identity := n.a.identity - {m}))
  }

  /** The end of the kill: the process is gone, and the manager leaves the pool with its port. */
  lemma KilledLeaves(n: Node, h: Handle)
    requires Current(n.a.managers, n.inst, h) && n.inst[h].srv.unload == L.Killing
    requires n.inst[h].def.id in n.a.ports && n.a.ports[n.inst[h].def.id] == n.inst[h].port
    ensures DoServer(n, h, L.UnloadKilled) == Without(n, h)
  {
  }

  // ---------------------------------------------------------------- what nothing disturbs succeeds

  /** The steps, in this order, lead from n to n'. */
  ghost predicate Leads(n: Node, cfg: Config, sts: seq<Step>, n': Node)
    decreases |sts|
  {
    if sts == [] then n' == n else Enabled(n, sts[0]) && Leads(Apply(n, cfg, sts[0]), cfg, sts[1..], n')
  }

  lemma LeadsOn(n: Node, cfg: Config, st: Step, n1: Node, rest: seq<Step>, n': Node)
    requires Enabled(n, st) && Apply(n, cfg, st) == n1 && Leads(n1, cfg, rest, n')
    ensures Leads(n, cfg, [st] + rest, n')
  {
    hide Enabled, Apply;
    assert ([st] + rest)[1..] == rest;
  }

  /** n with the operation o of r in this state and with its task there. */
  function Running(n: Node, r: Request, kept: Ops, gen: GenId, state: OpState, pc: RunPc): Node {
    var o := OpOf(r);
    n.(a := n.a.(ops := kept[o := Op(r.def, gen, state, n.now, None)], active := n.a.active[r.def.id := o]),
       runs := n.runs[o := pc])
  }

  /** ... holding the model lock, with the manager h on this port. */
  function Managed(n: Node, r: Request, kept: Ops, gen: GenId, h: Handle, port: nat, s: L.Server, c: ChildPc): Node {
    var n1 := Running(n, r, kept, gen, OpState.Loading, Child(c));
    n1.(locks := n.locks[r.def.id := RunOf(OpOf(r))],
        a := n1.a.(managers := n.a.managers[r.def.id := h], ports := n.a.ports[r.def.id := port], free := n.a.free - {port}),
        inst := n.inst[h := Inst(r.def, port, s)])
  }

  /** ... and with the load over: the model is served, and its operation says so. */
  function Served(n: Node, r: Request, kept: Ops, gen: GenId, h: Handle, port: nat, s: L.Server): Node {
    var m, o := r.def.id, OpOf(r);
    n.(a := Agent(kept[o := Op(r.def, gen, Ready, n.now, Some(n.now))], n.a.active, n.a.managers[m := h], n.a.ports[m := port],
                  n.a.free - {port}, n.a.identity[m := Ident(r.def.digest, gen, o)]),
       inst := n.inst[h := Inst(r.def, port, s)])
  }

  const READY := L.Server(L.Ready, L.Live, [true], false, L.Idle, false, L.NoUnload, 0, 0)

  function LoadScript(r: Request, kept: Ops, h: Handle, port: nat): seq<Step> {
    var o := OpOf(r);
    [Start(r, kept)] + ([RunBegins(o, false)] + ([Validated(o, true, false)] + ([RunLocks(o, false)] + ([ChildRuns(o, h, port)] +
    ([Server(h, L.TaskRuns)] + ([Server(h, L.Attested)] + ([Server(h, L.Spawned)] + ([Server(h, L.Healthy(0))] +
    ([ChildWakes(o)] + ([RunResumes(o)] + []))))))))))
  }

  /** The request may be accepted, and there is room for its model. */
  ghost predicate Welcome(n: Node, cfg: Config, r: Request, kept: Ops, h: Handle, port: nat) {
    && Inv(n, cfg) && Enabled(n, Start(r, kept)) && r.deadlineOk
    && OpOf(r) !in kept && r.def.id !in n.a.active && r.def.id !in n.a.managers
    && h !in n.inst && n.a.free != {} && Smallest(n.a.free, port)
    && cfg.budget - Used(n) >= r.def.vram && (n.measured.Some? ==> n.measured.value >= r.def.vram)
  }

  lemma WelcomeFacts(n: Node, cfg: Config, r: Request, kept: Ops, h: Handle, port: nat)
    requires Welcome(n, cfg, r, kept, h, port)
    ensures OpOf(r) !in n.runs && r.def.id !in n.locks
    ensures forall o :: o in n.runs ==> o in kept
    ensures Decide(n.a.(ops := kept), r, StateOf(n, r.def.id)) == Started(OpOf(r))
  {
    hide Inv, Pruned, Decide, Used, Smallest;
    PruneKeeps(n, cfg, kept);
    StartAnswers(n, cfg, r, kept);
  }

  /** The step is possible in n and leads to n'. */
  ghost predicate Goes(n: Node, cfg: Config, st: Step, n': Node) { Enabled(n, st) && Apply(n, cfg, st) == n' }

  lemma StartGoes(n: Node, cfg: Config, r: Request, kept: Ops, gen: GenId)
    requires Enabled(n, Start(r, kept)) && gen == GenOf(n.a.(ops := kept), r)
    requires Decide(n.a.(ops := kept), r, StateOf(n, r.def.id)) == Started(OpOf(r))
    ensures Goes(n, cfg, Start(r, kept), Running(n, r, kept, gen, Accepted, Created))
  {
    hide Decide, Pruned, GenOf;
  }

  lemma BeginsGoes(n: Node, cfg: Config, r: Request, kept: Ops, gen: GenId)
    ensures Goes(Running(n, r, kept, gen, Accepted, Created), cfg, RunBegins(OpOf(r), false),
                 Running(n, r, kept, gen, OpState.Loading, Validating))
  {
    var o := OpOf(r);
    var op, op2 := Op(r.def, gen, Accepted, n.now, None), Op(r.def, gen, OpState.Loading, n.now, None);
    assert kept[o := op][o := op2] == kept[o := op2];
    assert n.runs[o := Created][o := Validating] == n.runs[o := Validating];
    hide OpOf;
  }

  lemma ValidatedGoes(n: Node, cfg: Config, r: Request, kept: Ops, gen: GenId)
    ensures Goes(Running(n, r, kept, gen, OpState.Loading, Validating), cfg, Validated(OpOf(r), true, false),
                 Running(n, r, kept, gen, OpState.Loading, WantLock))
  {
    var o := OpOf(r);
    assert n.runs[o := Validating][o := WantLock] == n.runs[o := WantLock];
    hide OpOf;
  }

  /** ... holding the model lock. */
  function Holding(n: Node, r: Request, kept: Ops, gen: GenId): Node {
    Running(n, r, kept, gen, OpState.Loading, Child(ChildStart)).(locks := n.locks[r.def.id := RunOf(OpOf(r))])
  }

  lemma LocksGoes(n: Node, cfg: Config, r: Request, kept: Ops, gen: GenId)
    requires r.def.id !in n.locks
    ensures Goes(Running(n, r, kept, gen, OpState.Loading, WantLock), cfg, RunLocks(OpOf(r), false), Holding(n, r, kept, gen))
  {
    var o := OpOf(r);
    assert n.runs[o := WantLock][o := Child(ChildStart)] == n.runs[o := Child(ChildStart)];
    hide OpOf;
  }

  lemma LaunchGoes(n: Node, cfg: Config, r: Request, kept: Ops, gen: GenId, h: Handle, port: nat)
    requires h !in n.inst && n.a.free != {} && Smallest(n.a.free, port) && r.def.id !in n.a.managers && Fits(n, cfg, r.def.vram)
    ensures Goes(Holding(n, r, kept, gen), cfg, ChildRuns(OpOf(r), h, port),
                 Managed(n, r, kept, gen, h, port, STARTING, InEnsure(h, 0)))
  {
    hide Fits, Smallest, Launch, Managed, Holding, OpOf, DoChildRuns;
    var n1 := Holding(n, r, kept, gen);
    HoldingIs(n, cfg, r, kept, gen);
    LaunchIsNext(n1, cfg, OpOf(r), h, port);
    LaunchIs(n, r, kept, gen, h, port);
  }

  lemma HoldingIs(n: Node, cfg: Config, r: Request, kept: Ops, gen: GenId)
    ensures var n1 := Holding(n, r, kept, gen);
            && AtPc(n1, OpOf(r), Child(ChildStart)) && n1.a.ops[OpOf(r)].def == r.def && n1.inst == n.inst
            && n1.a.managers == n.a.managers && n1.a.free == n.a.free && (Fits(n1, cfg, r.def.vram) <==> Fits(n, cfg, r.def.vram))
  {
    hide OpOf;
  }

  lemma LaunchIsNext(n: Node, cfg: Config, o: OpId, h: Handle, port: nat)
    requires Live(n, o) && n.a.ops[o].def.id !in n.a.managers && n.a.free != {} && Fits(n, cfg, n.a.ops[o].def.vram)
    ensures DoChildRuns(n, cfg, o, h, port) == Launch(n, o, h, port)
  {
    hide Fits, Launch;
  }

  lemma LaunchIs(n: Node, r: Request, kept: Ops, gen: GenId, h: Handle, port: nat)
    ensures Live(Holding(n, r, kept, gen), OpOf(r))
    ensures Launch(Holding(n, r, kept, gen), OpOf(r), h, port) == Managed(n, r, kept, gen, h, port, STARTING, InEnsure(h, 0))
  {
    var o := OpOf(r);
    FirstRound(n.now);
    hide OpOf, L.Apply;
    assert n.runs[o := Child(ChildStart)][o := Child(InEnsure(h, 0))] == n.runs[o := Child(InEnsure(h, 0))];
  }

  lemma ServerGoes(n: Node, cfg: Config, r: Request, kept: Ops, gen: GenId, h: Handle, port: nat, s: L.Server, e: L.Event, c: ChildPc)
    requires ServerEvent(e) && !e.UnloadKilled? && !e.CrashSeen? && L.Enabled(s, e)
    ensures Goes(Managed(n, r, kept, gen, h, port, s, c), cfg, Server(h, e), Managed(n, r, kept, gen, h, port, L.Apply(s, e), c))
  {
    hide L.Apply, L.Enabled, OpOf;
    assert n.inst[h := Inst(r.def, port, s)][h := Inst(r.def, port, L.Apply(s, e))] == n.inst[h := Inst(r.def, port, L.Apply(s, e))];
  }

  lemma WakesGoes(n: Node, cfg: Config, r: Request, kept: Ops, gen: GenId, h: Handle, port: nat)
    ensures Goes(Managed(n, r, kept, gen, h, port, READY, InEnsure(h, 0)), cfg, ChildWakes(OpOf(r)),
                 Managed(n, r, kept, gen, h, port, READY, ChildDone(true)))
  {
    var o := OpOf(r);
    assert n.runs[o := Child(InEnsure(h, 0))][o := Child(ChildDone(true))] == n.runs[o := Child(ChildDone(true))];
    hide OpOf;
  }

  lemma ResumesGoes(n: Node, cfg: Config, r: Request, kept: Ops, gen: GenId, h: Handle, port: nat)
    requires OpOf(r) !in n.runs && r.def.id !in n.locks && r.def.id !in n.a.active
    ensures Goes(Managed(n, r, kept, gen, h, port, READY, ChildDone(true)), cfg, RunResumes(OpOf(r)),
                 Served(n, r, kept, gen, h, port, READY))
  {
    hide Finish, Managed, Served, OpOf;
    ManagedLive(n, r, kept, gen, h, port);
    FinishIs(n, r, kept, gen, h, port);
  }

  lemma ManagedLive(n: Node, r: Request, kept: Ops, gen: GenId, h: Handle, port: nat)
    ensures AtPc(Managed(n, r, kept, gen, h, port, READY, ChildDone(true)), OpOf(r), Child(ChildDone(true)))
  {
    hide OpOf;
  }

  lemma FinishIs(n: Node, r: Request, kept: Ops, gen: GenId, h: Handle, port: nat)
    requires OpOf(r) !in n.runs && r.def.id !in n.locks && r.def.id !in n.a.active
    ensures OpOf(r) in Managed(n, r, kept, gen, h, port, READY, ChildDone(true)).a.ops
    ensures Finish(Managed(n, r, kept, gen, h, port, READY, ChildDone(true)), OpOf(r), Ready) == Served(n, r, kept, gen, h, port, READY)
  {
    var o, m := OpOf(r), r.def.id;
    hide OpOf;
    assert n.runs[o := Child(ChildDone(true))] - {o} == n.runs;
    assert n.locks[m := RunOf(o)] - {m} == n.locks && n.a.active[m := o] - {m} == n.a.active;
    var op, op2 := Op(r.def, gen, OpState.Loading, n.now, None), Op(r.def, gen, Ready, n.now, Some(n.now));
    assert kept[o := op][o := op2] == kept[o := op2];
  }

  lemma StartsLoad(n: Node, cfg: Config, r: Request, kept: Ops, gen: GenId, h: Handle, port: nat, rest: seq<Step>, n': Node)
    requires Welcome(n, cfg, r, kept, h, port) && gen == GenOf(n.a.(ops := kept), r)
    requires Leads(Managed(n, r, kept, gen, h, port, STARTING, InEnsure(h, 0)), cfg, rest, n')
    ensures var o := OpOf(r);
            Leads(n, cfg, [Start(r, kept)] + ([RunBegins(o, false)] + ([Validated(o, true, false)] + ([RunLocks(o, false)] +
                          ([ChildRuns(o, h, port)] + rest)))), n')
  {
    WelcomeFacts(n, cfg, r, kept, h, port);
    RoomFits(n, cfg, r, kept, h, port);
    hide Inv, Enabled, Apply, Decide, Pruned, GenOf, Leads, Running, Holding, Managed, OpOf, Smallest, Fits, Used;
    var o := OpOf(r);
    var n1, n2 := Running(n, r, kept, gen, Accepted, Created), Running(n, r, kept, gen, OpState.Loading, Validating);
    var n3, n4 := Running(n, r, kept, gen, OpState.Loading, WantLock), Holding(n, r, kept, gen);
    StartGoes(n, cfg, r, kept, gen);
    BeginsGoes(n, cfg, r, kept, gen);
    ValidatedGoes(n, cfg, r, kept, gen);
    LocksGoes(n, cfg, r, kept, gen);
    LaunchGoes(n, cfg, r, kept, gen, h, port);
    LeadsOn(n4, cfg, ChildRuns(o, h, port), Managed(n, r, kept, gen, h, port, STARTING, InEnsure(h, 0)), rest, n');
    LeadsOn(n3, cfg, RunLocks(o, false), n4, [ChildRuns(o, h, port)] + rest, n');
    LeadsOn(n2, cfg, Validated(o, true, false), n3, [RunLocks(o, false)] + ([ChildRuns(o, h, port)] + rest), n');
    LeadsOn(n1, cfg, RunBegins(o, false), n2, [Validated(o, true, false)] + ([RunLocks(o, false)] + ([ChildRuns(o, h, port)] + rest)), n');
    LeadsOn(n, cfg, Start(r, kept), n1,
            [RunBegins(o, false)] + ([Validated(o, true, false)] + ([RunLocks(o, false)] + ([ChildRuns(o, h, port)] + rest))), n');
  }

  lemma RoomFits(n: Node, cfg: Config, r: Request, kept: Ops, h: Handle, port: nat)
    requires Welcome(n, cfg, r, kept, h, port)
    ensures Fits(n, cfg, r.def.vram)
  {
    hide Inv, Enabled, Used;
  }

  lemma EndsLoad(n: Node, cfg: Config, r: Request, kept: Ops, gen: GenId, h: Handle, port: nat)
    requires OpOf(r) !in n.runs && r.def.id !in n.locks && r.def.id !in n.a.active
    ensures var o := OpOf(r);
            Leads(Managed(n, r, kept, gen, h, port, STARTING, InEnsure(h, 0)), cfg,
                  [Server(h, L.TaskRuns)] + ([Server(h, L.Attested)] + ([Server(h, L.Spawned)] + ([Server(h, L.Healthy(0))] +
                  ([ChildWakes(o)] + ([RunResumes(o)] + []))))), Served(n, r, kept, gen, h, port, READY))
  {
    hide Enabled, Apply, Leads, Managed, Served, OpOf;
    var o, c := OpOf(r), InEnsure(h, 0);
    var s2, s3, s4 := STARTING.(load := L.Attesting), STARTING.(load := L.Starting), STARTING.(load := L.Polling, proc := L.Live);
    var n1, n2, n3 := Managed(n, r, kept, gen, h, port, STARTING, c), Managed(n, r, kept, gen, h, port, s2, c), Managed(n, r, kept, gen, h, port, s3, c);
    var n4, n5 := Managed(n, r, kept, gen, h, port, s4, c), Managed(n, r, kept, gen, h, port, READY, c);
    var n6, n7 := Managed(n, r, kept, gen, h, port, READY, ChildDone(true)), Served(n, r, kept, gen, h, port, READY);
    ServerGoes(n, cfg, r, kept, gen, h, port, STARTING, L.TaskRuns, c);
    ServerGoes(n, cfg, r, kept, gen, h, port, s2, L.Attested, c);
    ServerGoes(n, cfg, r, kept, gen, h, port, s3, L.Spawned, c);
    ServerGoes(n, cfg, r, kept, gen, h, port, s4, L.Healthy(0), c);
    assert L.Apply(s4, L.Healthy(0)) == READY;
    hide L.Apply;
    WakesGoes(n, cfg, r, kept, gen, h, port);
    ResumesGoes(n, cfg, r, kept, gen, h, port);
    LeadsNowhere(n7, cfg);
    LeadsOn(n6, cfg, RunResumes(o), n7, [], n7);
    LeadsOn(n5, cfg, ChildWakes(o), n6, [RunResumes(o)] + [], n7);
    LeadsOn(n4, cfg, Server(h, L.Healthy(0)), n5, [ChildWakes(o)] + ([RunResumes(o)] + []), n7);
    LeadsOn(n3, cfg, Server(h, L.Spawned), n4, [Server(h, L.Healthy(0))] + ([ChildWakes(o)] + ([RunResumes(o)] + [])), n7);
    LeadsOn(n2, cfg, Server(h, L.Attested), n3,
            [Server(h, L.Spawned)] + ([Server(h, L.Healthy(0))] + ([ChildWakes(o)] + ([RunResumes(o)] + []))), n7);
    LeadsOn(n1, cfg, Server(h, L.TaskRuns), n2,
            [Server(h, L.Attested)] + ([Server(h, L.Spawned)] + ([Server(h, L.Healthy(0))] + ([ChildWakes(o)] + ([RunResumes(o)] + [])))), n7);
  }

  lemma LeadsNowhere(n: Node, cfg: Config)
    ensures Leads(n, cfg, [], n)
  {
  }

  /** A load that nothing disturbs, in any reachable state: a request for a model without operation and manager
      that fits, and eleven steps later its operation is READY, its manager serves on the smallest free port,
      its identity is recorded, and all else is as it was. */
  lemma LoadSucceeds(n: Node, cfg: Config, r: Request, kept: Ops, h: Handle, port: nat)
    requires Welcome(n, cfg, r, kept, h, port)
    ensures exists gen :: Meant(n.a.(ops := kept), r, gen)
                          && Leads(n, cfg, LoadScript(r, kept, h, port), Served(n, r, kept, gen, h, port, READY))
  {
    var gen := GenOf(n.a.(ops := kept), r);
    MeantIsGen(n.a.(ops := kept), r, gen);
    WelcomeFacts(n, cfg, r, kept, h, port);
    hide Welcome, Inv, GenOf, Meant, Leads, Managed, Served, OpOf, Decide;
    var o := OpOf(r);
    WelcomeIdle(n, cfg, r, kept, h, port);
    EndsLoad(n, cfg, r, kept, gen, h, port);
    StartsLoad(n, cfg, r, kept, gen, h, port,
               [Server(h, L.TaskRuns)] + ([Server(h, L.Attested)] + ([Server(h, L.Spawned)] + ([Server(h, L.Healthy(0))] +
               ([ChildWakes(o)] + ([RunResumes(o)] + []))))), Served(n, r, kept, gen, h, port, READY));
  }

  lemma WelcomeIdle(n: Node, cfg: Config, r: Request, kept: Ops, h: Handle, port: nat)
    requires Welcome(n, cfg, r, kept, h, port)
    ensures r.def.id !in n.a.active
  {
    hide Inv, Enabled, Used;
  }

  /** An unload that nothing disturbs, in any reachable state: the request, the end of the kill, and the model has
      no manager, no identity and no lock, its port is free, and all else is as it was. */
  lemma UnloadSucceeds(n: Node, cfg: Config, q: ReqId, m: ModelId)
    requires Inv(n, cfg) && q !in n.unloads && m !in n.locks && m in n.a.managers
    ensures n.a.managers[m] in n.inst
    ensures var h := n.a.managers[m];
            Leads(n, cfg, [UnloadBegins(q, m)] + ([Server(h, L.UnloadKilled)] + ([UnloadOver(q)] + [])), Without(n, h))
  {
    var h := n.a.managers[m];
    UnloadFacts(n, cfg, m);
    UnloadDecides(n, cfg, q, m);
    hide Inv, Enabled, Apply, Leads, DoUnloadBegins, Without;
    var s := n.inst[h].srv.(state := L.Unloading, unload := L.Killing);
    var n1 := n.(inst := n.inst[h := n.inst[h].(srv := s)], unloads := n.unloads[q := Unl(m, h)], locks := n.locks[m := UnloadBy(q)]);
    var n2 := Without(n, h).(unloads := n.unloads[q := Unl(m, h)], locks := n.locks[m := UnloadBy(q)]);
    UnloadGoes(n, cfg, q, m, n1);
    KillGoes(n, cfg, h, q, n1, n2);
    OverGoes(n, cfg, h, q, n2);
    LeadsNowhere(Without(n, h), cfg);
    LeadsOn(n2, cfg, UnloadOver(q), Without(n, h), [], Without(n, h));
    LeadsOn(n1, cfg, Server(h, L.UnloadKilled), n2, [UnloadOver(q)] + [], Without(n, h));
    LeadsOn(n, cfg, UnloadBegins(q, m), n1, [Server(h, L.UnloadKilled)] + ([UnloadOver(q)] + []), Without(n, h));
  }

  lemma UnloadFacts(n: Node, cfg: Config, m: ModelId)
    requires Inv(n, cfg) && m in n.a.managers
    ensures n.a.managers[m] in n.inst && Current(n.a.managers, n.inst, n.a.managers[m]) && n.inst[n.a.managers[m]].def.id == m
    ensures m in n.a.ports && n.a.ports[m] == n.inst[n.a.managers[m]].port
  {
    hide PoolInv, OpsInv, LockInv, HoldInv, SrvInv, RunInv, DeadInv, IdentInv, BudgetInv;
  }

  lemma UnloadGoes(n: Node, cfg: Config, q: ReqId, m: ModelId, n1: Node)
    requires q !in n.unloads && m !in n.locks && DoUnloadBegins(n, q, m) == n1
    ensures Goes(n, cfg, UnloadBegins(q, m), n1)
  {
    hide DoUnloadBegins;
  }

  lemma KillGoes(n: Node, cfg: Config, h: Handle, q: ReqId, n1: Node, n2: Node)
    requires Current(n.a.managers, n.inst, h) && n.inst[h].def.id in n.a.ports && n.a.ports[n.inst[h].def.id] == n.inst[h].port
    requires var m := n.inst[h].def.id; var s := n.inst[h].srv.(state := L.Unloading, unload := L.Killing);
             && n1 == n.(inst := n.inst[h := n.inst[h].(srv := s)], unloads := n.unloads[q := Unl(m, h)], locks := n.locks[m := UnloadBy(q)])
             && n2 == Without(n, h).(unloads := n.unloads[q := Unl(m, h)], locks := n.locks[m := UnloadBy(q)])
    ensures Goes(n1, cfg, Server(h, L.UnloadKilled), n2)
  {
    KilledLeaves(n1, h);
    hide DoServer;
    var i := n.inst[h];
    var s := i.srv.(state := L.Unloading, unload := L.Killing);
    assert n.inst[h := i.(srv := s)][h := i.(srv := s.(state := L.Unloaded, proc := L.NoProcess, unload := L.NoUnload))]
        == n.inst[h := i.(srv := i.srv.(state := L.Unloaded, proc := L.NoProcess, unload := L.NoUnload))];
  }

  lemma OverGoes(n: Node, cfg: Config, h: Handle, q: ReqId, n2: Node)
    requires h in n.inst && n.inst[h].def.id !in n.locks && q !in n.unloads
    requires var m := n.inst[h].def.id; n2 == Without(n, h).(unloads := n.unloads[q := Unl(m, h)], locks := n.locks[m := UnloadBy(q)])
    ensures Goes(n2, cfg, UnloadOver(q), Without(n, h))
  {
    var m := n.inst[h].def.id;
    assert n.unloads[q := Unl(m, h)] - {q} == n.unloads;
    assert n.locks[m := UnloadBy(q)] - {m} == n.locks;
  }
}
