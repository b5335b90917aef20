/** The bookkeeping of LocalModelManager (gateway/model_manager.py): the pool of managers,
  the port allocator and the FIFO of capacity tickets. */
module GatewayPool {
  import opened Sums

  type ModelId(==, !new)
  /** A ServerManager instance, by object identity. */
  type Handle = nat
  /** A running coroutine; a capacity ticket is identified with the coroutine that owns it. */
  type TaskId = nat

  datatype Pool = Pool(
    managers: map<ModelId, Handle>, ports: map<ModelId, nat>, free: seq<nat>,
    waiters: seq<TaskId>, draining: set<ModelId>, blocked: set<ModelId>)

  ghost predicate NoDup<T(!new)>(s: seq<T>) {
    forall i, j :: 0 <= i < j < |s| ==> s[i] != s[j]
  }

  /** Free and allocated ports partition the initial range, without duplicates, and the two
      dictionaries have the same keys. */
  ghost predicate PortsPartition(p: Pool, range: set<nat>) {
    && NoDup(p.free)
    && p.managers.Keys == p.ports.Keys
    && (forall m, n :: m in p.ports && n in p.ports && p.ports[m] == p.ports[n] ==> m == n)
    && (forall m :: m in p.ports ==> p.ports[m] !in p.free)
    && (forall q :: q in range <==> q in p.free || q in p.ports.Values)
  }

  /** _release_manager: only the current instance of the model gives its port back. */
  function Release(p: Pool, m: ModelId, expected: Handle): (r: (Pool, bool))
  {
    if m !in p.managers || p.managers[m] != expected then (p, false)
    else if m in p.ports && p.ports[m] !in p.free then
      (p.(managers := p.managers - {m}, ports := p.ports - {m}, free := p.free + [p.ports[m]]), true)
    else
      (p.(managers := p.managers - {m}, ports := p.ports - {m}), true)
  }

  /** Lines 282-286: the first free port goes to the new instance. */
  function Register(p: Pool, m: ModelId, h: Handle): Pool
    requires p.free != []
  {
    p.(managers := p.managers[m := h], ports := p.ports[m := p.free[0]], free := p.free[1..])
  }

  function Without(q: seq<TaskId>, t: TaskId): (r: seq<TaskId>)
    ensures t in q || r == q
    ensures |r| <= |q|
  {
    if q == [] then []
    else if q[0] == t then q[1..]
    else [q[0]] + Without(q[1..], t)
  }

  lemma ReleaseKeepsPartition(p: Pool, m: ModelId, expected: Handle, range: set<nat>)
    requires PortsPartition(p, range)
    ensures PortsPartition(Release(p, m, expected).0, range)
    ensures var r := Release(p, m, expected);
            if m in p.managers && p.managers[m] == expected
            then r.1 && m !in r.0.managers && p.ports[m] in r.0.free && r.0.managers == p.managers - {m}
            else !r.1 && r.0 == p
  {
    if m in p.managers && p.managers[m] == expected {
      var r := Release(p, m, expected).0;
      forall q ensures q in p.ports.Values <==> q in r.ports.Values || q == p.ports[m] {
        if q in p.ports.Values {
          var n :| n in p.ports && p.ports[n] == q;
          assert n == m || (n in r.ports && r.ports[n] == q);
        }
        if q in r.ports.Values {
          var n :| n in r.ports && r.ports[n] == q;
          assert n in p.ports && p.ports[n] == q;
        }
        assert m in p.ports;
      }
      assert r.free == p.free + [p.ports[m]];
    }
  }

  lemma RegisterKeepsPartition(p: Pool, m: ModelId, h: Handle, range: set<nat>)
    requires PortsPartition(p, range) && p.free != [] && m !in p.managers
    ensures PortsPartition(Register(p, m, h), range)
    ensures var r := Register(p, m, h);
            r.managers.Keys == p.managers.Keys + {m} && r.ports[m] in p.free && r.ports[m] !in r.free
    ensures forall n :: n in p.managers ==> Register(p, m, h).managers[n] == p.managers[n]
                                            && Register(p, m, h).ports[n] == p.ports[n]
  {
    var r := Register(p, m, h);
    assert p.free == [p.free[0]] + r.free;
    forall q ensures q in r.ports.Values <==> q in p.ports.Values || q == p.free[0] {
      if q in p.ports.Values {
        var n :| n in p.ports && p.ports[n] == q;
        assert n in r.ports && r.ports[n] == q;
      }
      if q in r.ports.Values {
        var n :| n in r.ports && r.ports[n] == q;
        assert n == m || (n in p.ports && p.ports[n] == q);
      }
      assert m in r.ports;
    }
  }

  /** a stands before b in the queue. */
  predicate Before(q: seq<TaskId>, a: TaskId, b: TaskId) {
    q != [] && ((q[0] == a && b in q[1..]) || Before(q[1..], a, b))
  }

  /** Removing a ticket keeps the others, each once. */
  lemma {:induction false} WithoutKeepsOthers(q: seq<TaskId>, t: TaskId)
    requires NoDup(q)
    ensures NoDup(Without(q, t)) && t !in Without(q, t)
    ensures forall u :: u in Without(q, t) <==> u in q && u != t
    ensures q != [] && q[0] != t ==> Without(q, t) != [] && Without(q, t)[0] == q[0]
  {
    if q != [] {
      assert q == [q[0]] + q[1..];
      if q[0] == t {
        assert q[0] !in q[1..];
      } else {
        WithoutKeepsOthers(q[1..], t);
        assert q[0] !in Without(q[1..], t);
        assert forall i :: 0 < i < |Without(q, t)| ==> Without(q, t)[i] in Without(q[1..], t);
      }
    }
  }

  lemma {:induction false} WithoutAt(q: seq<TaskId>, t: TaskId, i: nat)
    requires i <= |q| && (forall k :: 0 <= k < i ==> q[k] != t) && (i < |q| ==> q[i] == t)
    ensures Without(q, t) == if i < |q| then q[..i] + q[i + 1..] else q
  {
    if i > 0 {
      WithoutAt(q[1..], t, i - 1);
      if i < |q| { assert q[..i] + q[i + 1..] == [q[0]] + (q[1..][..i - 1] + q[1..][i..]); }
    } else if q != [] {
      assert q[..0] + q[1..] == q[1..];
    }
  }

  /** ... and the order in which they stand. */
  lemma {:induction false} WithoutKeepsOrder(q: seq<TaskId>, t: TaskId, a: TaskId, b: TaskId)
    requires NoDup(q) && Before(q, a, b) && a != t && b != t
    ensures Before(Without(q, t), a, b)
  {
    if q[0] != t {
      assert q == [q[0]] + q[1..];
      WithoutKeepsOthers(q[1..], t);
      assert Without(q, t)[1..] == Without(q[1..], t);
      if !(q[0] == a && b in q[1..]) {
        WithoutKeepsOrder(q[1..], t, a, b);
      }
    }
  }

  lemma {:induction false} AppendKeepsOrder(q: seq<TaskId>, t: TaskId, a: TaskId, b: TaskId)
    requires Before(q, a, b)
    ensures Before(q + [t], a, b)
  {
    assert (q + [t])[1..] == q[1..] + [t];
    if !(q[0] == a && b in q[1..]) {
      AppendKeepsOrder(q[1..], t, a, b);
    }
  }

  /** What eviction reads of an instance. */
  datatype View = View(model: ModelId, ready: bool, pinned: bool, last: nat)

  predicate Evictable(p: Pool, views: map<Handle, View>, exclude: ModelId, m: ModelId) {
    && m in p.managers && m != exclude && p.managers[m] in views
    && views[p.managers[m]].ready && !views[p.managers[m]].pinned
  }

  /** m is the least recently used model that may be evicted for exclude. */
  ghost predicate IsLru(p: Pool, views: map<Handle, View>, exclude: ModelId, m: ModelId) {
    && Evictable(p, views, exclude, m)
    && forall n :: Evictable(p, views, exclude, n) ==> views[p.managers[m]].last <= views[p.managers[n]].last
  }

  datatype Option<+T> = None | Some(value: T)

  class LocalModelManager {
    var managers: map<ModelId, Handle>
    var allocatedPorts: map<ModelId, nat>
    var portPool: seq<nat>
    var capacityWaiters: seq<TaskId>
    var draining: set<ModelId>
    var bootstrapBlocked: set<ModelId>
    ghost const range: set<nat>

    ghost function Abs(): Pool
      reads this
    {
      Pool(managers, allocatedPorts, portPool, capacityWaiters, draining, bootstrapBlocked)
    }

    ghost predicate Valid()
      reads this
    {
      PortsPartition(Abs(), range)
    }

    constructor (base: nat, count: nat)
      ensures Valid() && forall q :: q in range <==> base <= q < base + count
      ensures managers == map[] && portPool == seq(count, i requires 0 <= i => base + i)
      ensures capacityWaiters == [] && draining == {} && bootstrapBlocked == {}
    {
      managers, allocatedPorts, capacityWaiters := map[], map[], [];
      draining, bootstrapBlocked := {}, {};
      var ports := seq(count, i requires 0 <= i => base + i);
      portPool := ports;
      range := set q | q in ports;
      new;
      forall q: nat | base <= q < base + count ensures q in portPool { assert portPool[q - base] == q; }
    }

    method ReleaseManager(m: ModelId, expected: Handle) returns (released: bool)
      requires Valid()
      modifies this
      ensures Valid() && (Abs(), released) == Release(old(Abs()), m, expected)
      // A late callback of a replaced instance changes nothing.
      ensures m !in old(managers) || old(managers)[m] != expected ==> !released && Abs() == old(Abs())
    {
      ReleaseKeepsPartition(Abs(), m, expected, range);
      if m !in managers || managers[m] != expected { return false; }
      managers := managers - {m};
      if m in allocatedPorts {
        var port := allocatedPorts[m];
        allocatedPorts := allocatedPorts - {m};
        if port !in portPool { portPool := portPool + [port]; }
      }
      return true;
    }

    method RegisterManager(m: ModelId, h: Handle) returns (port: nat)
      requires Valid() && portPool != [] && m !in managers
      modifies this
      ensures Valid() && Abs() == Register(old(Abs()), m, h)
      ensures port in range && (forall n :: n in old(allocatedPorts) ==> old(allocatedPorts)[n] != port)
    {
      RegisterKeepsPartition(Abs(), m, h, range);
      port := portPool[0];
      portPool := portPool[1..];
      allocatedPorts := allocatedPorts[m := port];
      managers := managers[m := h];
    }

    method Enqueue(t: TaskId, maxWaiters: nat) returns (accepted: bool)
      requires Valid()
      modifies this`capacityWaiters
      ensures Valid()
      ensures accepted <==> |old(capacityWaiters)| < maxWaiters
      ensures capacityWaiters == if accepted then old(capacityWaiters) + [t] else old(capacityWaiters)
      ensures old(|capacityWaiters|) <= maxWaiters ==> |capacityWaiters| <= maxWaiters
    {
      if |capacityWaiters| >= maxWaiters { return false; }
      capacityWaiters := capacityWaiters + [t];
      return true;
    }

    /** deque.remove: drops the first occurrence, scanning from the left. */
    method RemoveTicket(t: TaskId)
      requires Valid()
      modifies this`capacityWaiters
      ensures Valid() && capacityWaiters == Without(old(capacityWaiters), t)
    {
      var i := 0;
      while i < |capacityWaiters| && capacityWaiters[i] != t
        invariant 0 <= i <= |capacityWaiters| && capacityWaiters == old(capacityWaiters)
        invariant forall k :: 0 <= k < i ==> capacityWaiters[k] != t
      {
        i := i + 1;
      }
      WithoutAt(capacityWaiters, t, i);
      if i < |capacityWaiters| {
        capacityWaiters := capacityWaiters[..i] + capacityWaiters[i + 1..];
      }
    }

    /** Head of the queue, or a newcomer in front of an empty queue. */
    method IsTurn(ticket: Option<TaskId>) returns (r: bool)
      ensures r <==> match ticket
                     case None => capacityWaiters == []
                     case Some(t) => capacityWaiters != [] && capacityWaiters[0] == t
    {
      r := ticket.None? && |capacityWaiters| == 0;
      r := r || (ticket.Some? && |capacityWaiters| > 0 && capacityWaiters[0] == ticket.value);
    }

    /** _used_vram_gb: the declared size of every READY or LOADING manager. */
    method UsedVram(loaded: set<Handle>, vram: map<ModelId, real>) returns (total: real)
      ensures total == Total(map m | m in managers && managers[m] in loaded && m in vram :: vram[m])
    {
      total := 0.0;
      ghost var counted: map<ModelId, real> := map[];
      ghost var all := map m | m in managers && managers[m] in loaded && m in vram :: vram[m];
      var todo := managers.Keys;
      while todo != {}
        invariant todo <= managers.Keys
        invariant total == Total(counted)
        invariant counted == map m | m in all && m !in todo :: all[m]
        decreases todo
      {
        var m :| m in todo;
        todo := todo - {m};
        if managers[m] in loaded && m in vram {
          TotalInsert(counted, m, vram[m]);
          total := total + vram[m];
          counted := counted[m := vram[m]];
        }
      }
      assert counted == all;
    }

    /** The choice made by _evict_lru_idle. */
    method ChooseVictim(exclude: ModelId, views: map<Handle, View>) returns (victim: Option<ModelId>)
      ensures victim.Some? ==> IsLru(Abs(), views, exclude, victim.value)
      ensures victim.None? ==> forall m :: !Evictable(Abs(), views, exclude, m)
    {
      victim := None;
      var todo := managers.Keys;
      while todo != {}
        invariant todo <= managers.Keys
        invariant victim.Some? ==> Evictable(Abs(), views, exclude, victim.value)
        invariant forall n :: n in managers && n !in todo && Evictable(Abs(), views, exclude, n) ==>
                                victim.Some? && views[managers[victim.value]].last <= views[managers[n]].last
        decreases todo
      {
        var m :| m in todo;
        todo := todo - {m};
        if m != exclude && managers[m] in views && views[managers[m]].ready && !views[managers[m]].pinned {
          if victim.None? || views[managers[m]].last < views[managers[victim.value]].last {
            victim := Some(m);
          }
        }
      }
    }

    method BlockBootstrapAdmission(m: ModelId)
      requires Valid()
      modifies this`bootstrapBlocked
      ensures Valid() && bootstrapBlocked == old(bootstrapBlocked) + {m}
    {
      bootstrapBlocked := bootstrapBlocked + {m};
    }

    method UnblockBootstrapAdmission(m: ModelId)
      requires Valid()
      modifies this`bootstrapBlocked
      ensures Valid() && bootstrapBlocked == old(bootstrapBlocked) - {m}
    {
      bootstrapBlocked := bootstrapBlocked - {m};
    }
  }
}
