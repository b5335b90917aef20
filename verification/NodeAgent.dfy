/** The state of a node agent (node_agent/main.py, _AgentState): operations, managers, ports and
  the identity of what is loaded.  Every section under its internal lock runs without suspending. */
module NodeAgent {
  import opened GatewayPool
  import L = ServerLifecycle

  type OpId = nat
  type GenId = nat

  /** A model definition; the digest is a function of the definition. */
  datatype Def = Def(id: ModelId, digest: nat, vram: real)

  datatype OpState = Accepted | Loading | Ready | Failed | DeadlineExceeded

  datatype Op = Op(def: Def, gen: GenId, state: OpState, created: nat, completed: Option<nat>)

  datatype Ident = Ident(digest: nat, gen: GenId, op: OpId)

  /** The port pool is kept sorted, so it is a set from which the smallest port is taken. */
  datatype Agent = Agent(
    ops: map<OpId, Op>, active: map<ModelId, OpId>, managers: map<ModelId, Handle>,
    ports: map<ModelId, nat>, free: set<nat>, identity: map<ModelId, Ident>)

  const RETENTION := 600
  const MAX_RETAINED := 256

  predicate Terminal(s: OpState) { s != Accepted && s != Loading }

  // ---------------------------------------------------------------- pruning

  predicate IsActive(active: map<ModelId, OpId>, o: OpId) { o in active.Values }

  predicate Prunable(ops: map<OpId, Op>, active: map<ModelId, OpId>, o: OpId) {
    o in ops && Terminal(ops[o].state) && !IsActive(active, o)
  }

  predicate Expired(op: Op, now: nat) { op.completed.Some? && now - op.completed.value > RETENTION }

  /** What is left after the retention time has been applied. */
  function Recent(ops: map<OpId, Op>, active: map<ModelId, OpId>, now: nat): map<OpId, Op> {
    map o | o in ops && !(Prunable(ops, active, o) && Expired(ops[o], now)) :: ops[o]
  }

  /** kept is a result of pruning ops: only terminal operations that nobody runs go; the old ones all
      go, and of the others the oldest, and no more than the bound asks for. */
  ghost predicate Pruned(ops: map<OpId, Op>, active: map<ModelId, OpId>, now: nat, kept: map<OpId, Op>) {
    var recent := Recent(ops, active, now);
    && (forall o :: o in kept ==> o in recent && kept[o] == recent[o])
    && (forall o :: o in recent && o !in kept ==> Prunable(recent, active, o))
    && (forall o, k :: o in recent && o !in kept && k in kept && Prunable(recent, active, k) ==>
          recent[o].created <= recent[k].created)
    && (if |recent| <= MAX_RETAINED then kept == recent
        else |kept| >= MAX_RETAINED && (|kept| == MAX_RETAINED || forall k :: k in kept ==> !Prunable(recent, active, k)))
  }

  // ---------------------------------------------------------------- start_load

  /** A load request; fresh are the two random identifiers drawn where the request gives none. */
  datatype Request = Request(
    def: Def, digest: Option<nat>, gen: Option<GenId>, op: Option<OpId>, deadlineOk: bool,
    freshGen: GenId, freshOp: OpId)

  datatype Answer =
    | Observed(op: OpId)   // the snapshot of an operation that exists
    | Loaded(op: OpId)     // already READY: a finished operation is recorded
    | Started(op: OpId)    // a new operation, with its task
    | Conflict | BadDigest | BadDeadline | Busy

  /** The tests before the model lock: a known operation is only observed, and a digest that is not
      the digest of the definition is refused; None means that the request goes on to the lock. */
  function Entry(a: Agent, r: Request): Option<Answer> {
    if r.op.Some? && r.op.value in a.ops then
      var e := a.ops[r.op.value];
      if r.def.id != e.def.id || (r.digest.Some? && r.digest.value != e.def.digest)
         || (r.gen.Some? && r.gen.value != e.gen) then Some(Conflict)
      else Some(Observed(r.op.value))
    else if r.digest.Some? && r.digest.value != r.def.digest then Some(BadDigest)
    else None
  }

  function OpOf(r: Request): OpId { if r.op.Some? then r.op.value else r.freshOp }

  /** The active operation of the model, if it is known. */
  function ActiveOf(a: Agent, m: ModelId): Option<OpId> {
    if m in a.active && a.active[m] in a.ops then Some(a.active[m]) else None
  }

  function GenOf(a: Agent, r: Request): GenId {
    if r.gen.Some? then r.gen.value
    else
      var active := ActiveOf(a, r.def.id);
      if active.Some? && a.ops[active.value].def.digest == r.def.digest then a.ops[active.value].gen
      else if r.def.id in a.identity && a.identity[r.def.id].digest == r.def.digest then a.identity[r.def.id].gen
      else r.freshGen
  }

  predicate SameAs(op: Op, r: Request, gen: GenId) {
    op.def.digest == r.def.digest && op.gen == gen
  }

  /** The answer under the model lock, after pruning; state is that of the model's manager, if any. */
  function Decide(a: Agent, r: Request, state: Option<L.RunState>): Answer {
    var m, o, gen := r.def.id, OpOf(r), GenOf(a, r);
    var active := ActiveOf(a, m);
    if !r.deadlineOk then BadDeadline
    else if o in a.ops then
      if a.ops[o].def.id == m && SameAs(a.ops[o], r, gen) then Observed(o) else Conflict
    else if active.Some? then
      if SameAs(a.ops[active.value], r, gen) then Observed(active.value) else Conflict
    else if state == Some(L.Ready) then
      if m in a.identity && a.identity[m].digest != r.def.digest then Conflict else Loaded(o)
    else if state == Some(L.Unloading) then Busy
    else Started(o)
  }

  function NewOp(a: Agent, r: Request, state: OpState, now: nat): Op {
    Op(r.def, GenOf(a, r), state, now, if Terminal(state) then Some(now) else None)
  }

  function AfterStart(a: Agent, r: Request, answer: Answer, now: nat): Agent {
    match answer
    case Loaded(o) => a.(ops := a.ops[o := NewOp(a, r, Ready, now)])
    case Started(o) => a.(ops := a.ops[o := NewOp(a, r, Accepted, now)], active := a.active[r.def.id := o])
    case _ => a
  }

  // ---------------------------------------------------------------- ports and endings

  /** _release_manager: only the current manager; its identity goes with it. */
  function ReleaseAgent(a: Agent, m: ModelId, expected: Handle): Agent {
    if m !in a.managers || a.managers[m] != expected then a
    else a.(managers := a.managers - {m}, ports := a.ports - {m}, identity := a.identity - {m},
            free := if m in a.ports then a.free + {a.ports[m]} else a.free)
  }

  ghost predicate Smallest(free: set<nat>, p: nat) {
    p in free && forall q :: q in free ==> p <= q
  }

  function Reserved(a: Agent, m: ModelId, h: Handle, port: nat): Agent {
    a.(managers := a.managers[m := h], ports := a.ports[m := port], free := a.free - {port})
  }

  /** The end of an operation: its state, and the active entry if it is still this one. */
  function Ended(a: Agent, o: OpId, state: OpState, now: nat): Agent
    requires o in a.ops
  {
    var m := a.ops[o].def.id;
    a.(ops := a.ops[o := a.ops[o].(state := state, completed := Some(now))],
       active := if m in a.active && a.active[m] == o then a.active - {m} else a.active,
       identity := if state == Ready then a.identity[m := Ident(a.ops[o].def.digest, a.ops[o].gen, o)] else a.identity)
  }

  // ---------------------------------------------------------------- the mutable object

  lemma RecentAll(ops: map<OpId, Op>, active: map<ModelId, OpId>, now: nat, kept: map<OpId, Op>)
    requires forall o :: o in kept <==> o in ops && !(Prunable(ops, active, o) && Expired(ops[o], now))
    requires forall o :: o in kept ==> kept[o] == ops[o]
    ensures kept == Recent(ops, active, now)
  {
  }

  class AgentState {
    var operations: map<OpId, Op>
    var activeOperations: map<ModelId, OpId>
    var managers: map<ModelId, Handle>
    var allocatedPorts: map<ModelId, nat>
    var portPool: seq<nat>
    var managerIdentity: map<ModelId, Ident>

    ghost function Abs(): Agent
      reads this
    {
      Agent(operations, activeOperations, managers, allocatedPorts, (set q | q in portPool), managerIdentity)
    }

    /** The pool is sorted, without duplicates. */
    ghost predicate Valid()
      reads this
    {
      forall i, j :: 0 <= i < j < |portPool| ==> portPool[i] < portPool[j]
    }

    constructor (base: nat, count: nat)
      ensures Valid() && portPool == seq(count, i requires 0 <= i => base + i)
      ensures operations == map[] && activeOperations == map[] && managers == map[]
      ensures allocatedPorts == map[] && managerIdentity == map[]
    {
      operations, activeOperations, managers, allocatedPorts, managerIdentity := map[], map[], map[], map[], map[];
      portPool := seq(count, i requires 0 <= i => base + i);
    }

    method Oldest(candidates: set<OpId>) returns (oldest: OpId)
      requires candidates != {} && candidates <= operations.Keys
      ensures oldest in candidates
      ensures forall o :: o in candidates ==> operations[oldest].created <= operations[o].created
    {
      oldest :| oldest in candidates;
      var todo := candidates;
      while todo != {}
        invariant todo <= candidates && oldest in candidates
        invariant forall o :: o in candidates && o !in todo ==> operations[oldest].created <= operations[o].created
        decreases todo
      {
        var o :| o in todo;
        todo := todo - {o};
        if operations[o].created < operations[oldest].created { oldest := o; }
      }
    }

    method DropExpired(now: nat)
      modifies this`operations
      ensures operations == Recent(old(operations), activeOperations, now)
    {
      var todo := operations.Keys;
      while todo != {}
        invariant todo <= old(operations).Keys
        invariant forall o :: o in operations <==>
                    o in old(operations)
                    && (o in todo || !(Prunable(old(operations), activeOperations, o) && Expired(old(operations)[o], now)))
        invariant forall o :: o in operations ==> operations[o] == old(operations)[o]
        decreases todo
      {
        var o :| o in todo;
        todo := todo - {o};
        var op := operations[o];
        if Terminal(op.state) && o !in activeOperations.Values && op.completed.Some? && now - op.completed.value > RETENTION {
          operations := operations - {o};
        }
      }
      RecentAll(old(operations), activeOperations, now, operations);
    }

    method PruneOperations(now: nat)
      modifies this`operations
      ensures Pruned(old(operations), activeOperations, now, operations)
    {
      DropExpired(now);
      if |operations| <= MAX_RETAINED { return; }
      ghost var recent := operations;
      var candidates := set o | o in operations && Terminal(operations[o].state) && o !in activeOperations.Values;
      while |operations| > MAX_RETAINED && candidates != {}
        invariant |operations| >= MAX_RETAINED && candidates <= operations.Keys
        invariant forall o :: o in operations ==> o in recent && operations[o] == recent[o]
        invariant forall o :: o in candidates <==> o in operations && Prunable(recent, activeOperations, o)
        invariant forall o :: o in recent && o !in operations ==>
                    Prunable(recent, activeOperations, o) && forall k :: k in candidates ==> recent[o].created <= recent[k].created
        decreases candidates
      {
        var o := Oldest(candidates);
        candidates := candidates - {o};
        operations := operations - {o};
      }
    }

    /** The section of start_load under the model lock and the state lock. */
    method StartLoad(r: Request, state: Option<L.RunState>, now: nat) returns (answer: Answer)
      modifies this`operations, this`activeOperations
      ensures exists kept ::
                && Pruned(old(operations), old(activeOperations), now, kept)
                && answer == Decide(old(Abs()).(ops := kept), r, state)
                && Abs() == AfterStart(old(Abs()).(ops := kept), r, answer, now)
    {
      hide Pruned;
      PruneOperations(now);
      ghost var kept := operations;
      assert Abs() == old(Abs()).(ops := kept);
      answer := Accept(r, state, now);
    }

    /** What start_load does after pruning. */
    method Accept(r: Request, state: Option<L.RunState>, now: nat) returns (answer: Answer)
      modifies this`operations, this`activeOperations
      ensures answer == Decide(old(Abs()), r, state) && Abs() == AfterStart(old(Abs()), r, answer, now)
    {
      var m := r.def.id;
      var active: Option<OpId> := None;
      if m in activeOperations && activeOperations[m] in operations { active := Some(activeOperations[m]); }
      var gen := r.freshGen;
      if r.gen.Some? {
        gen := r.gen.value;
      } else if active.Some? && operations[active.value].def.digest == r.def.digest {
        gen := operations[active.value].gen;
      } else if m in managerIdentity && managerIdentity[m].digest == r.def.digest {
        gen := managerIdentity[m].gen;
      }
      assert gen == GenOf(Abs(), r);
      var o := if r.op.Some? then r.op.value else r.freshOp;
      if !r.deadlineOk { return BadDeadline; }
      if o in operations {
        var e := operations[o];
        return if e.def.id != m || e.def.digest != r.def.digest || e.gen != gen then Conflict else Observed(o);
      }
      if active.Some? {
        var e := operations[active.value];
        return if e.def.digest != r.def.digest || e.gen != gen then Conflict else Observed(active.value);
      }
      if state == Some(L.Ready) {
        if m in managerIdentity && managerIdentity[m].digest != r.def.digest { return Conflict; }
        operations := operations[o := Op(r.def, gen, Ready, now, Some(now))];
        return Loaded(o);
      }
      if state == Some(L.Unloading) { return Busy; }
      operations := operations[o := Op(r.def, gen, Accepted, now, None)];
      activeOperations := activeOperations[m := o];
      return Started(o);
    }

    /** list.append and list.sort: the port goes back to its place. */
    method ReturnPort(port: nat)
      requires Valid()
      modifies this`portPool
      ensures Valid() && forall q :: q in portPool <==> q in old(portPool) || q == port
    {
      if port in portPool { return; }
      var i := 0;
      while i < |portPool| && portPool[i] < port
        invariant 0 <= i <= |portPool| && portPool == old(portPool) && Valid()
        invariant forall k :: 0 <= k < i ==> portPool[k] < port
      {
        i := i + 1;
      }
      assert portPool == portPool[..i] + portPool[i..];
      portPool := portPool[..i] + [port] + portPool[i..];
    }

    method ReleaseManager(m: ModelId, expected: Handle)
      requires Valid()
      modifies this
      ensures Valid() && Abs() == ReleaseAgent(old(Abs()), m, expected)
    {
      if m !in managers || managers[m] != expected { return; }
      if m in allocatedPorts { ReturnPort(allocatedPorts[m]); }
      allocatedPorts := allocatedPorts - {m};
      managers := managers - {m};
      managerIdentity := managerIdentity - {m};
      assert Abs().free == ReleaseAgent(old(Abs()), m, expected).free;
    }

    method ReservePort(m: ModelId, h: Handle) returns (port: nat)
      requires Valid() && portPool != []
      modifies this`portPool, this`allocatedPorts, this`managers
      ensures Valid() && Smallest(old(Abs()).free, port) && Abs() == Reserved(old(Abs()), m, h, port)
    {
      port := portPool[0];
      portPool := portPool[1..];
      allocatedPorts := allocatedPorts[m := port];
      managers := managers[m := h];
      assert old(portPool) == [port] + portPool;
    }

    method EndOperation(o: OpId, state: OpState, now: nat)
      requires o in operations
      modifies this`operations, this`activeOperations, this`managerIdentity
      ensures Abs() == Ended(old(Abs()), o, state, now)
    {
      var op := operations[o];
      operations := operations[o := op.(state := state, completed := Some(now))];
      if state == Ready {
        managerIdentity := managerIdentity[op.def.id := Ident(op.def.digest, op.gen, o)];
      }
      if op.def.id in activeOperations && activeOperations[op.def.id] == o {
        activeOperations := activeOperations - {op.def.id};
      }
    }
  }
}
