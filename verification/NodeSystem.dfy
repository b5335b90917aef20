/** The node agent as a step system: load operations, unload requests, load tasks and the crash
  watchdog interleave wherever a coroutine really suspends.  Loads and unloads of a model hold that
  model's lock; the agent's state lock is never held across a suspension. */
module NodeSystem {
  import opened Sums
  import opened GatewayPool
  import opened NodeAgent
  import L = ServerLifecycle

  type ReqId = nat

  /** An instance remembers the definition it was made for and the port its process is started on. */
  datatype Inst = Inst(def: Def, port: nat, srv: L.Server)

  /** Where the inner task of a load (_load_serialized) is. */
  datatype ChildPc =
    | ChildStart
    | InEnsure(h: Handle, round: nat)    // h.ensure_loaded(), on its event
    | InTimeoutUnload(h: Handle)         // ensure_loaded timed out and unloads h
    | ChildDone(ok: bool)

  /** Where the task of an operation (_run_load) is. */
  datatype RunPc =
    | Created | Validating | WantLock
    | Child(c: ChildPc)                      // waits for the inner task, at most until the deadline
    | Aborting(c: ChildPc, landed: bool)     // the deadline has passed: waits for the cancelled inner task
    | Cleaning(h: Handle)                    // _cancel_model_load: inside h.unload()

  datatype Holder = RunOf(op: OpId) | UnloadBy(req: ReqId)

  datatype Unl = Unl(model: ModelId, h: Handle)

  datatype Node = Node(
    a: Agent, inst: map<Handle, Inst>, locks: map<ModelId, Holder>, runs: map<OpId, RunPc>,
    unloads: map<ReqId, Unl>, measured: Option<real>, now: nat)

  datatype Config = Config(budget: real, range: set<nat>)

  datatype Step =
    | Ask(r: Request)                                        // answered before the model lock
    | Start(r: Request, kept: map<OpId, Op>)                 // answered under the model lock
    | Status(kept: map<OpId, Op>)                            // operation_status: prunes
    | RunBegins(o: OpId, late: bool)
    | Validated(o: OpId, ok: bool, late: bool)
    | RunLocks(o: OpId, late: bool)
    | ChildRuns(o: OpId, h: Handle, port: nat)
    | ChildWakes(o: OpId)
    | ChildTimesOut(o: OpId)
    | ChildUnloaded(o: OpId)
    | RunResumes(o: OpId)
    | DeadlineHits(o: OpId)
    | AbortLands(o: OpId)
    | CleanBegins(o: OpId)
    | CleanOver(o: OpId)
    | UnloadBegins(q: ReqId, m: ModelId)
    | UnloadOver(q: ReqId)
    | Server(h: Handle, e: L.Event)
    | Measure(free: Option<real>)
    | Tick

  // ---------------------------------------------------------------- reading

  function StateOf(n: Node, m: ModelId): Option<L.RunState> {
    if m in n.a.managers && n.a.managers[m] in n.inst then Some(n.inst[n.a.managers[m]].srv.state) else None
  }

  predicate InState(inst: map<Handle, Inst>, h: Handle, s: L.RunState) { h in inst && inst[h].srv.state == s }

  /** The sizes counted by _used_vram: READY and LOADING managers. */
  function Sizes(managers: map<ModelId, Handle>, inst: map<Handle, Inst>): map<ModelId, real> {
    map m | m in managers && (InState(inst, managers[m], L.Ready) || InState(inst, managers[m], L.Loading)) ::
      inst[managers[m]].def.vram
  }

  ghost function Used(n: Node): real { Total(Sizes(n.a.managers, n.inst)) }

  /** _available_vram() >= need: both the budget and the measurement must leave room. */
  ghost predicate Fits(n: Node, cfg: Config, need: real) {
    cfg.budget - Used(n) >= need && (n.measured.Some? ==> n.measured.value >= need)
  }

  // ---------------------------------------------------------------- effects

  function SetRun(n: Node, o: OpId, pc: RunPc): Node { n.(runs := n.runs[o := pc]) }

  function SetSrv(n: Node, h: Handle, s: L.Server): Node
    requires h in n.inst
  {
    n.(inst := n.inst[h := n.inst[h].(srv := s)])
  }

  function Free(locks: map<ModelId, Holder>, m: ModelId, who: Holder): map<ModelId, Holder> {
    if m in locks && locks[m] == who then locks - {m} else locks
  }

  /** The operation ends: its state, its active entry, its task and the model lock if it holds it. */
  function Finish(n: Node, o: OpId, state: OpState): Node
    requires o in n.a.ops
  {
    n.(a := Ended(n.a, o, state, n.now), runs := n.runs - {o}, locks := Free(n.locks, n.a.ops[o].def.id, RunOf(o)))
  }

  function Drop(n: Node, m: ModelId, h: Handle): Node { n.(a := ReleaseAgent(n.a, m, h)) }

  predicate Live(n: Node, o: OpId) { o in n.a.ops && o in n.runs }

  predicate AtPc(n: Node, o: OpId, pc: RunPc) { Live(n, o) && n.runs[o] == pc }

  /** The operation waits for its inner task, which the deadline has not cancelled. */
  predicate InChild(n: Node, o: OpId) { Live(n, o) && n.runs[o].Child? }

  function DoStart(n: Node, r: Request, kept: map<OpId, Op>): Node {
    var a := n.a.(ops := kept);
    var answer := Decide(a, r, StateOf(n, r.def.id));
    var n1 := n.(a := AfterStart(a, r, answer, n.now));
    if answer.Started? then SetRun(n1, answer.op, Created) else n1
  }

  function DoRunBegins(n: Node, o: OpId, late: bool): Node
    requires Live(n, o)
  {
    var n1 := n.(a := n.a.(ops := n.a.ops[o := n.a.ops[o].(state := OpState.Loading)]));
    if late then Finish(n1, o, DeadlineExceeded) else SetRun(n1, o, Validating)
  }

  function DoValidated(n: Node, o: OpId, ok: bool, late: bool): Node
    requires Live(n, o)
  {
    if late then Finish(n, o, DeadlineExceeded) else if ok then SetRun(n, o, WantLock) else Finish(n, o, Failed)
  }

  function DoRunLocks(n: Node, o: OpId, late: bool): Node
    requires Live(n, o)
  {
    if late then Finish(n, o, DeadlineExceeded)
    else SetRun(n.(locks := n.locks[n.a.ops[o].def.id := RunOf(o)]), o, Child(ChildStart))
  }

  /** The new manager, its port and the start of its load, in one step. */
  function Launch(n: Node, o: OpId, h: Handle, port: nat): Node
    requires Live(n, o)
  {
    var def := n.a.ops[o].def;
    SetRun(n.(a := Reserved(n.a, def.id, h, port),
              inst := n.inst[h := Inst(def, port, L.Apply(L.Fresh, L.EnsureLoaded(n.now)))]),
           o, Child(InEnsure(h, 0)))
  }

  /** _load_serialized up to its first suspension. */
  ghost function DoChildRuns(n: Node, cfg: Config, o: OpId, h: Handle, port: nat): Node
    requires Live(n, o)
  {
    var def := n.a.ops[o].def;
    var state := StateOf(n, def.id);
    if state == Some(L.Ready) then SetRun(n, o, Child(ChildDone(true)))
    else if state == Some(L.Loading) then
      var k := n.a.managers[def.id];
      if n.inst[k].srv.events == [] then SetRun(Drop(n, def.id, k), o, Child(ChildDone(false)))
      else SetRun(n, o, Child(InEnsure(k, |n.inst[k].srv.events| - 1)))
    else if state == Some(L.Unloading) then SetRun(n, o, Child(ChildDone(false)))
    else
      var n1 := if state.Some? then Drop(n, def.id, n.a.managers[def.id]) else n;
      if n1.a.free == {} || !Fits(n1, cfg, def.vram) then SetRun(n1, o, Child(ChildDone(false)))
      else Launch(n1, o, h, port)
  }

  predicate WaitsOn(n: Node, o: OpId) {
    InChild(n, o) && n.runs[o].c.InEnsure? && n.runs[o].c.h in n.inst
  }

  function DoChildWakes(n: Node, o: OpId): Node
    requires WaitsOn(n, o)
  {
    var h := n.runs[o].c.h;
    if L.WakeOutcome(n.inst[h].srv).Returns? then SetRun(n, o, Child(ChildDone(true)))
    else SetRun(Drop(n, n.a.ops[o].def.id, h), o, Child(ChildDone(false)))
  }

  /** The timeout of ensure_loaded: unload() returns at once unless the instance is LOADING or READY. */
  function DoChildTimesOut(n: Node, o: OpId): Node
    requires WaitsOn(n, o)
  {
    var h := n.runs[o].c.h;
    if InState(n.inst, h, L.Loading) || InState(n.inst, h, L.Ready) then
      SetRun(SetSrv(n, h, L.BeginUnload(n.inst[h].srv)), o, Child(InTimeoutUnload(h)))
    else SetRun(Drop(n, n.a.ops[o].def.id, h), o, Child(ChildDone(false)))
  }

  predicate TimedOutIn(n: Node, o: OpId) {
    && Live(n, o) && (n.runs[o].Child? || (n.runs[o].Aborting? && n.runs[o].landed)) && n.runs[o].c.InTimeoutUnload?
  }

  function WithChild(pc: RunPc, c: ChildPc): RunPc
    requires pc.Child? || pc.Aborting?
  {
    if pc.Child? then Child(c) else Aborting(c, pc.landed)
  }

  function DoChildUnloaded(n: Node, o: OpId): Node
    requires TimedOutIn(n, o)
  {
    SetRun(Drop(n, n.a.ops[o].def.id, n.runs[o].c.h), o, WithChild(n.runs[o], ChildDone(false)))
  }

  /** The cancellation reaches the inner task: a wait ends, unload() swallows it while it awaits the
      load task, and a kill in progress is abandoned. */
  function DoAbortLands(n: Node, o: OpId): Node
    requires Live(n, o) && n.runs[o].Aborting?
  {
    var c := n.runs[o].c;
    if c.InTimeoutUnload? && c.h in n.inst && n.inst[c.h].srv.unload == L.Killing then
      SetRun(SetSrv(n, c.h, L.Apply(n.inst[c.h].srv, L.UnloadAborted)), o, Aborting(ChildDone(false), true))
    else if c.InTimeoutUnload? then SetRun(n, o, Aborting(c, true))
    else SetRun(n, o, Aborting(if c.ChildDone? then c else ChildDone(false), true))
  }

  /** _cancel_model_load, up to the kill. */
  function DoCleanBegins(n: Node, o: OpId): Node
    requires Live(n, o)
  {
    var m := n.a.ops[o].def.id;
    if m !in n.a.managers || n.a.managers[m] !in n.inst then Finish(n, o, DeadlineExceeded)
    else
      var h := n.a.managers[m];
      if InState(n.inst, h, L.Loading) || InState(n.inst, h, L.Ready) then
        SetRun(SetSrv(n, h, L.BeginUnload(n.inst[h].srv)), o, Cleaning(h))
      else Finish(Drop(n, m, h), o, DeadlineExceeded)
  }

  function DoCleanOver(n: Node, o: OpId): Node
    requires Live(n, o) && n.runs[o].Cleaning?
  {
    Finish(Drop(n, n.a.ops[o].def.id, n.runs[o].h), o, DeadlineExceeded)
  }

  function DoUnloadBegins(n: Node, q: ReqId, m: ModelId): Node {
    if m !in n.a.managers || n.a.managers[m] !in n.inst then n
    else
      var h := n.a.managers[m];
      if InState(n.inst, h, L.Loading) || InState(n.inst, h, L.Ready) then
        SetSrv(n, h, L.BeginUnload(n.inst[h].srv)).(locks := n.locks[m := UnloadBy(q)], unloads := n.unloads[q := Unl(m, h)])
      else Drop(n, m, h)
  }

  function DoUnloadOver(n: Node, q: ReqId): Node
    requires q in n.unloads
  {
    var u := n.unloads[q];
    Drop(n, u.model, u.h).(locks := Free(n.locks, u.model, UnloadBy(q)), unloads := n.unloads - {q})
  }

  predicate ServerEvent(e: L.Event) {
    e.TaskRuns? || e.Attested? || e.Spawned? || e.Healthy? || e.LoadFails? || e.FailKilled? || e.AbandonKilled?
    || e.CancelLands? || e.LoadAwaited? || e.UnloadKilled? || e.ProcessDies? || e.CrashSeen?
  }

  function DoServer(n: Node, h: Handle, e: L.Event): Node
    requires h in n.inst && L.Enabled(n.inst[h].srv, e)
  {
    var n1 := SetSrv(n, h, L.Apply(n.inst[h].srv, e));
    if e.UnloadKilled? || e.CrashSeen? then Drop(n1, n.inst[h].def.id, h) else n1
  }

  ghost predicate Enabled(n: Node, st: Step) {
    match st
    case Ask(r) => Entry(n.a, r).Some?
    case Start(r, kept) =>
      && r.def.id !in n.locks && (r.digest.Some? ==> r.digest.value == r.def.digest) && r.def.vram > 0.0
      && Pruned(n.a.ops, n.a.active, n.now, kept)
    case Status(kept) => Pruned(n.a.ops, n.a.active, n.now, kept)
    case RunBegins(o, _) => AtPc(n, o, Created)
    case Validated(o, _, _) => AtPc(n, o, Validating)
    case RunLocks(o, _) => AtPc(n, o, WantLock) && n.a.ops[o].def.id !in n.locks
    case ChildRuns(o, h, port) =>
      && AtPc(n, o, Child(ChildStart)) && h !in n.inst
      && (n.a.free != {} ==> Smallest(n.a.free, port))
    case ChildWakes(o) =>
      && WaitsOn(n, o)
      && (var e := n.inst[n.runs[o].c.h].srv.events; n.runs[o].c.round < |e| && e[n.runs[o].c.round])
    case ChildTimesOut(o) => WaitsOn(n, o)
    case ChildUnloaded(o) => TimedOutIn(n, o) && InState(n.inst, n.runs[o].c.h, L.Unloaded)
    case RunResumes(o) => InChild(n, o) && n.runs[o].c.ChildDone?
    case DeadlineHits(o) => InChild(n, o)
    case AbortLands(o) => Live(n, o) && n.runs[o].Aborting? && !n.runs[o].landed
    case CleanBegins(o) => Live(n, o) && n.runs[o].Aborting? && n.runs[o].landed && n.runs[o].c.ChildDone?
    case CleanOver(o) => Live(n, o) && n.runs[o].Cleaning? && InState(n.inst, n.runs[o].h, L.Unloaded)
    case UnloadBegins(q, m) => q !in n.unloads && m !in n.locks
    case UnloadOver(q) => q in n.unloads && InState(n.inst, n.unloads[q].h, L.Unloaded)
    case Server(h, e) => h in n.inst && ServerEvent(e) && L.Enabled(n.inst[h].srv, e)
    case Measure(free) => true
    case Tick => true
  }

  ghost function Apply(n: Node, cfg: Config, st: Step): Node
    requires Enabled(n, st)
  {
    match st
    case Ask(r) => n
    case Start(r, kept) => DoStart(n, r, kept)
    case Status(kept) => n.(a := n.a.(ops := kept))
    case RunBegins(o, late) => DoRunBegins(n, o, late)
    case Validated(o, ok, late) => DoValidated(n, o, ok, late)
    case RunLocks(o, late) => DoRunLocks(n, o, late)
    case ChildRuns(o, h, port) => DoChildRuns(n, cfg, o, h, port)
    case ChildWakes(o) => DoChildWakes(n, o)
    case ChildTimesOut(o) => DoChildTimesOut(n, o)
    case ChildUnloaded(o) => DoChildUnloaded(n, o)
    case RunResumes(o) => Finish(n, o, if n.runs[o].c.ok then OpState.Ready else Failed)
    case DeadlineHits(o) => SetRun(n, o, Aborting(n.runs[o].c, false))
    case AbortLands(o) => DoAbortLands(n, o)
    case CleanBegins(o) => DoCleanBegins(n, o)
    case CleanOver(o) => DoCleanOver(n, o)
    case UnloadBegins(q, m) => DoUnloadBegins(n, q, m)
    case UnloadOver(q) => DoUnloadOver(n, q)
    case Server(h, e) => DoServer(n, h, e)
    case Measure(free) => n.(measured := free)
    case Tick => n.(now := n.now + 1)
  }
}
