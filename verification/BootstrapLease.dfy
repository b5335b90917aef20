/** The provisional activation of one model with a lease (gateway/admin.py, bootstrap_sync_model and
  its watchdog).  One target model; all other entries of the registry are an opaque rest.  The file
  models.yaml may be rewritten by others between any two reads, so every read of an operation is a
  parameter.  SHA-256 is taken to identify the bytes: a document stands for its own digest.  The pool is a
  component here that may move as PoolMove says; GatewayLease runs the two together. */
module BootstrapLease {
  import opened GatewayPool
  import L = ServerLifecycle

  type Rest(==, !new)
  type Body(==, !new)

  datatype Entry = Entry(enabled: bool, vram: real, body: Body)

  /** A published models.yaml; bytes tells apart files that parse to the same models. */
  datatype Doc = Doc(bytes: nat, rest: Rest, target: Option<Entry>)

  /** The registry as it is served. */
  datatype Mem = Mem(rest: Rest, target: Option<Entry>)

  datatype Phase = Active | RollingBack | RolledBack | Confirmed

  datatype Lease = Lease(
    phase: Phase, baseline: Doc, live: Entry, vram: real, seconds: nat, terminal: Option<Doc>, epoch: nat)

  /** Whose rollback is suspended in unload_model, holding the lock of the transition. */
  datatype Pending = ByRequest(doc: Doc) | ByWatchdog

  /** How an activation ended. */
  datatype Ending = Expired | RolledBackByRequest | ConfirmedByRequest

  datatype Sys = Sys(
    lease: Option<Lease>, mem: Mem, blocked: bool,
    manager: Option<L.RunState>,    // of the target, in the gateway pool
    past: bool,                     // a caller of the target is past its admission test and waits for the pool
    dogs: set<nat>,                 // the activations whose watchdog is sleeping or waits for the lock
    pending: Option<Pending>, epochs: nat, endings: map<nat, Ending>)

  datatype Answer = Done | Replayed | Refused | Suspended

  function Snapshot(d: Doc): Mem { Mem(d.rest, d.target) }

  predicate Loaded(s: Sys) {
    s.manager == Some(L.Loading) || s.manager == Some(L.Ready) || s.manager == Some(L.Unloading)
  }

  predicate InPhase(s: Sys, p: Phase) { s.lease.Some? && s.lease.value.phase == p }

  /** No request can make a new manager of the target appear. */
  predicate Closed(s: Sys) { s.blocked || s.mem.target.None? || !s.mem.target.value.enabled }

  // ---------------------------------------------------------------- activate

  datatype Activation = Activation(digest: Doc, vram: real, seconds: nat)

  function LiveEntry(e: Entry, vram: real): Entry { e.(enabled := true, vram := vram) }

  /** The second activate of an open activation: observed, nothing is done. */
  predicate ReplaysActivate(s: Sys, q: Activation, d1: Doc, d2: Doc)
    requires s.lease.Some?
  {
    var l := s.lease.value;
    && l.baseline == q.digest && l.vram == q.vram && l.seconds == q.seconds && d1.target == l.baseline.target
    && l.baseline.rest == d1.rest && l.baseline.rest == s.mem.rest && s.mem.target == Some(l.live) && d2 == d1
  }

  predicate MayActivate(s: Sys, q: Activation, d1: Doc, d2: Doc, fits: bool) {
    && (s.lease.None? || s.lease.value.phase == RolledBack || s.lease.value.phase == Confirmed)
    && d1.target.Some? && !d1.target.value.enabled
    && s.mem.rest == d1.rest && (s.mem.target.None? || s.mem.target == d1.target)
    && !Loaded(s) && fits && d2 == d1
  }

  /** d1 is the snapshot, d2 and d3 are what the two later checks find on disk. */
  function Activate(s: Sys, q: Activation, d1: Doc, d2: Doc, d3: Doc, fits: bool): (Sys, Answer) {
    if d1 != q.digest || d1.target.None? then (s, Refused)
    else if InPhase(s, Active) then (s, if ReplaysActivate(s, q, d1, d2) then Replayed else Refused)
    else if !MayActivate(s, q, d1, d2, fits) then (s, Refused)
    else if d3 != d1 then (s.(mem := Snapshot(d1)), Refused)
    else
      var live := LiveEntry(d1.target.value, q.vram);
      (s.(lease := Some(Lease(Active, d1, live, q.vram, q.seconds, None, s.epochs)), mem := Mem(d1.rest, Some(live)),
          blocked := false, dogs := s.dogs + {s.epochs}, epochs := s.epochs + 1), Done)
  }

  // ---------------------------------------------------------------- rollback

  predicate ReplaysRollback(s: Sys, d1: Doc, d2: Doc)
    requires s.lease.Some?
  {
    var l := s.lease.value;
    l.terminal == Some(d1) && d1.target == l.baseline.target && l.baseline.rest == d1.rest && d2 == d1
  }

  predicate MayRollback(s: Sys, d1: Doc, d2: Doc)
    requires s.lease.Some?
  {
    var l := s.lease.value;
    && d1.target == l.baseline.target && d1.target.Some? && !d1.target.value.enabled
    && l.baseline.rest == d1.rest && l.baseline.rest == s.mem.rest && d2 == d1
  }

  function Ends(s: Sys, e: Ending): map<nat, Ending> {
    if InPhase(s, Active) then s.endings[s.lease.value.epoch := e] else s.endings
  }

  /** The watchdog is cancelled, the gate closed and enabled=false published before the first suspension. */
  function StartRollback(s: Sys, mem: Mem, dogs: set<nat>, p: Pending, e: Ending): Sys
    requires s.lease.Some?
  {
    s.(lease := Some(s.lease.value.(phase := RollingBack)), mem := mem, blocked := true, dogs := dogs,
       pending := Some(p), endings := Ends(s, e))
  }

  function Rollback(s: Sys, digest: Doc, d1: Doc, d2: Doc): (Sys, Answer) {
    if d1 != digest || d1.target.None? || s.lease.None? then (s, Refused)
    else if InPhase(s, RolledBack) then (s, if ReplaysRollback(s, d1, d2) then Replayed else Refused)
    else if !MayRollback(s, d1, d2) then (s, Refused)
    else
      (StartRollback(s, Snapshot(d1), s.dogs - {s.lease.value.epoch}, ByRequest(d1), RolledBackByRequest), Suspended)
  }

  /** The lease runs out: the watchdog has got the lock. */
  function Expire(s: Sys, epoch: nat): Sys {
    var s1 := s.(dogs := s.dogs - {epoch});
    if s.lease.None? || s.lease.value.epoch != epoch || !InPhase(s, Active) then s1
    else StartRollback(s1, Snapshot(s.lease.value.baseline), s1.dogs, ByWatchdog, Expired)
  }

  /** unload_model has returned or failed; d3 is what the request then finds on disk. */
  function EndRollback(s: Sys, ok: bool, d3: Doc): (Sys, Answer)
    requires s.pending.Some? && s.lease.Some?
  {
    var l := s.lease.value;
    var terminal := if s.pending.value.ByRequest? then s.pending.value.doc else l.baseline;
    if !ok || (s.pending.value.ByRequest? && d3 != terminal) then (s.(pending := None), Refused)
    else
      (s.(lease := Some(l.(phase := RolledBack, terminal := Some(terminal))), blocked := false, pending := None), Done)
  }

  // ---------------------------------------------------------------- confirm

  predicate ReplaysConfirm(s: Sys, d1: Doc, d2: Doc)
    requires s.lease.Some?
  {
    var l := s.lease.value;
    l.terminal == Some(d1) && d1.target == Some(l.live) && l.baseline.rest == d1.rest && d2 == d1
  }

  predicate MayConfirm(s: Sys, d1: Doc, d2: Doc)
    requires s.lease.Some?
  {
    var l := s.lease.value;
    && d1.target == Some(l.live) && l.live.enabled
    && l.baseline.rest == d1.rest && l.baseline.rest == s.mem.rest && s.mem.target == Some(l.live) && d2 == d1
  }

  function Confirm(s: Sys, digest: Doc, d1: Doc, d2: Doc): (Sys, Answer) {
    if d1 != digest || d1.target.None? || s.lease.None? then (s, Refused)
    else
      var l := s.lease.value;
      if l.phase == Confirmed then (s, if ReplaysConfirm(s, d1, d2) then Replayed else Refused)
      else if l.phase != Active || !MayConfirm(s, d1, d2) then (s, Refused)
      else
        (s.(lease := Some(l.(phase := Confirmed, terminal := Some(d1))), mem := Snapshot(d1), blocked := false,
            dogs := s.dogs - {l.epoch}, endings := Ends(s, ConfirmedByRequest)), Done)
  }

  // ---------------------------------------------------------------- the step system

  datatype Step =
    | DoActivate(q: Activation, d1: Doc, d2: Doc, d3: Doc, fits: bool)
    | DoRollback(digest: Doc, d1: Doc, d2: Doc)
    | DoExpire(epoch: nat)
    | DoUnloaded(ok: bool, d3: Doc)
    | DoConfirm(digest: Doc, d1: Doc, d2: Doc)
    | Edit(mem: Mem)                              // the admin routes that write the registry
    | PoolMoves(to: Option<L.RunState>, past: bool)

  predicate Draining(m: Option<L.RunState>) { m == None || m == Some(L.Unloading) || m == Some(L.Unloaded) }

  /** What a step of the gateway pool may do to the manager t of the target and to the callers past their
      admission test (GatewayGate.EveryStepIsAPoolMove): a new manager needs admission; a new load of a
      manager that was left UNLOADED needs admission or a caller that is past the test. */
  predicate PoolMove(t: Option<L.RunState>, past: bool, u: Option<L.RunState>, past': bool, closed: bool) {
    && (past' ==> past || !closed)
    && (match t
        case None => u == None || (!closed && u == Some(L.Loading))
        case Some(state) => (
          match state
          case Loading => true
          case Ready => u != Some(L.Loading)
          case Unloading => Draining(u)
          case Unloaded => Draining(u) || ((!closed || past) && u == Some(L.Loading))))
  }

  /** How unload_model leaves the target when it returns normally (GatewayGate.UnloadLeaves). */
  predicate UnloadReturns(m: Option<L.RunState>, past: bool) { Draining(m) && !past }

  predicate Enabled(s: Sys, st: Step) {
    match st
    case DoActivate(_, _, _, _, _) => s.pending.None?
    case DoRollback(_, _, _) => s.pending.None?
    case DoExpire(e) => s.pending.None? && e in s.dogs
    case DoUnloaded(ok, _) => s.pending.Some? && s.lease.Some? && (ok ==> UnloadReturns(s.manager, s.past))
    case DoConfirm(_, _, _) => s.pending.None?
    case Edit(_) => !InPhase(s, Active) && !InPhase(s, RollingBack)
    case PoolMoves(to, past) => PoolMove(s.manager, s.past, to, past, Closed(s))
  }

  function Apply(s: Sys, st: Step): (Sys, Answer)
    requires Enabled(s, st)
  {
    match st
    case DoActivate(q, d1, d2, d3, fits) => Activate(s, q, d1, d2, d3, fits)
    case DoRollback(digest, d1, d2) => Rollback(s, digest, d1, d2)
    case DoExpire(e) => (Expire(s, e), Done)
    case DoUnloaded(ok, d3) => EndRollback(s, ok, d3)
    case DoConfirm(digest, d1, d2) => Confirm(s, digest, d1, d2)
    case Edit(mem) => (s.(mem := mem), Done)
    case PoolMoves(to, past) => (s.(manager := to, past := past), Done)
  }

  // ---------------------------------------------------------------- what every step keeps

  /** While active, what is served is the baseline with only the target replaced by the calibrated live
      entry; while rolling back, the gate is closed and the target disabled. */
  predicate PhaseInv(l: Lease, s: Sys) {
    && l.baseline.target.Some? && !l.baseline.target.value.enabled && l.live == LiveEntry(l.baseline.target.value, l.vram)
    && (match l.phase
        case Active => s.mem == Mem(l.baseline.rest, Some(l.live)) && !s.blocked && s.pending.None?
        case RollingBack => s.blocked && s.mem == Snapshot(l.baseline)
        case RolledBack => !s.blocked && s.pending.None? && l.terminal.Some? && l.terminal.value.rest == l.baseline.rest
                           && l.terminal.value.target == l.baseline.target
        case Confirmed => !s.blocked && s.pending.None? && l.terminal.Some? && l.terminal.value.rest == l.baseline.rest
                          && l.terminal.value.target == Some(l.live))
  }

  ghost predicate Inv(s: Sys) {
    && (s.lease.None? ==> !s.blocked && s.pending.None? && s.epochs == 0)
    && (s.lease.Some? ==> PhaseInv(s.lease.value, s) && s.lease.value.epoch + 1 == s.epochs)
    // The watchdog of an activation lives exactly as long as that activation is open.
    && (forall e: nat :: e in s.dogs <==> InPhase(s, Active) && s.lease.value.epoch == e)
    && (forall e: nat :: e in s.endings <==> e < s.epochs && !(InPhase(s, Active) && s.lease.value.epoch == e))
    && (s.pending.Some? && s.pending.value.ByRequest? ==>
          s.lease.Some? && Snapshot(s.pending.value.doc) == Snapshot(s.lease.value.baseline))
  }

  predicate Init(s: Sys) {
    s.lease.None? && !s.blocked && s.dogs == {} && s.pending.None? && s.epochs == 0 && s.endings == map[]
  }

  lemma StepKeepsInv(s: Sys, st: Step)
    requires Inv(s) && Enabled(s, st)
    ensures Inv(Apply(s, st).0)
  {
  }

  ghost predicate Run(trace: seq<Sys>, steps: seq<Step>) {
    && |trace| == |steps| + 1 && Init(trace[0])
    && forall i :: 0 <= i < |steps| ==> Enabled(trace[i], steps[i]) && trace[i + 1] == Apply(trace[i], steps[i]).0
  }

  lemma {:induction false} RunKeepsInv(trace: seq<Sys>, steps: seq<Step>, k: nat)
    requires Run(trace, steps) && k <= |steps|
    ensures Inv(trace[k])
  {
    hide Inv, Apply, Enabled;
    if k == 0 {
      InitHasInv(trace[0]);
    } else {
      RunKeepsInv(trace, steps, k - 1);
      StepKeepsInv(trace[k - 1], steps[k - 1]);
      assert trace[k - 1 + 1] == Apply(trace[k - 1], steps[k - 1]).0;
    }
  }

  lemma InitHasInv(s: Sys)
    requires Init(s)
    ensures Inv(s)
  {
  }

  // ---------------------------------------------------------------- fail-closed

  /** In every state of every run: throughout rolling_back the gate is closed and the target disabled in
      memory; while active, memory is the baseline with only the target replaced by the calibrated live
      entry; the gate is closed only while rolling back. */
  lemma {:induction false} FailClosed(trace: seq<Sys>, steps: seq<Step>, k: nat)
    requires Run(trace, steps) && k <= |steps|
    ensures InPhase(trace[k], RollingBack) ==>
              && trace[k].blocked && Closed(trace[k])
              && trace[k].mem == Snapshot(trace[k].lease.value.baseline)
              && trace[k].mem.target.Some? && !trace[k].mem.target.value.enabled
    ensures InPhase(trace[k], Active) ==>
              var l := trace[k].lease.value;
              && trace[k].mem.rest == l.baseline.rest && l.baseline.target.Some?
              && trace[k].mem.target == Some(LiveEntry(l.baseline.target.value, l.vram))
    ensures trace[k].blocked <==> InPhase(trace[k], RollingBack)
  {
    RunKeepsInv(trace, steps, k);
  }

  /** The gate reopens only at the end of a rollback, with the target disabled in memory, when unload_model
      has returned: nobody is past the admission test, and no manager of the target is LOADING or READY. */
  lemma GateReopensDisabled(s: Sys, st: Step)
    requires Inv(s) && Enabled(s, st) && s.blocked && !Apply(s, st).0.blocked
    ensures st.DoUnloaded? && st.ok && InPhase(s, RollingBack) && InPhase(Apply(s, st).0, RolledBack)
    ensures var s' := Apply(s, st).0;
            && s'.mem.target.Some? && !s'.mem.target.value.enabled && Closed(s')
            && s'.manager != Some(L.Loading) && s'.manager != Some(L.Ready) && !s'.past && s'.manager == s.manager
  {
  }

  /** While the gate is closed no manager of the target appears, and none starts to load, unless a caller
      was past its admission test when it closed. */
  lemma {:induction false} NothingLoadsWhileClosed(trace: seq<Sys>, steps: seq<Step>, i: nat, j: nat)
    requires Run(trace, steps) && i <= j <= |steps|
    requires forall k :: i <= k <= j ==> InPhase(trace[k], RollingBack)
    ensures trace[i].manager == None ==> trace[j].manager == None
    ensures trace[j].past ==> trace[i].past
    ensures !trace[i].past && Draining(trace[i].manager) ==> Draining(trace[j].manager)
  {
    hide Inv;
    if i < j {
      NothingLoadsWhileClosed(trace, steps, i, j - 1);
      FailClosed(trace, steps, j - 1);
      ManagerStaysAway(trace[j - 1], steps[j - 1]);
      assert trace[j - 1 + 1] == Apply(trace[j - 1], steps[j - 1]).0;
    }
  }

  lemma ManagerStaysAway(s: Sys, st: Step)
    requires Enabled(s, st) && Closed(s)
    ensures var m, m' := s.manager, Apply(s, st).0.manager;
            && (m == None ==> m' == None) && (Apply(s, st).0.past ==> s.past) && (Draining(m) && !s.past ==> Draining(m'))
  {
  }

  /** A model that is disabled, unknown or behind its gate stays so until it is activated or edited. */
  lemma StaysClosed(s: Sys, st: Step)
    requires Inv(s) && Enabled(s, st) && Closed(s) && !st.Edit? && !(st.DoActivate? && Apply(s, st).1 == Done)
    ensures Closed(Apply(s, st).0)
  {
  }

  // ---------------------------------------------------------------- expiry against confirm

  /** An ending is recorded once and for all. */
  lemma EndingsAreFinal(s: Sys, st: Step)
    requires Inv(s) && Enabled(s, st)
    ensures forall e :: e in s.endings ==> e in Apply(s, st).0.endings && Apply(s, st).0.endings[e] == s.endings[e]
  {
  }

  /** The activation epoch ends in this step, by this ending. */
  predicate EndsHere(s: Sys, st: Step, epoch: nat, e: Ending)
    requires Enabled(s, st)
  {
    InPhase(s, Active) && s.lease.value.epoch == epoch && !InPhase(Apply(s, st).0, Active)
    && epoch in Apply(s, st).0.endings && Apply(s, st).0.endings[epoch] == e
  }

  lemma EndedStaysEnded(s: Sys, st: Step, epoch: nat)
    requires Inv(s) && Enabled(s, st) && epoch in s.endings
    ensures !(InPhase(s, Active) && s.lease.value.epoch == epoch) && epoch in Apply(s, st).0.endings
  {
  }

  lemma {:induction false} EndedOnce(trace: seq<Sys>, steps: seq<Step>, i: nat, j: nat, epoch: nat)
    requires Run(trace, steps) && i <= j <= |steps| && epoch in trace[i].endings
    ensures epoch in trace[j].endings && trace[j].endings[epoch] == trace[i].endings[epoch]
  {
    hide Inv, Apply, Enabled;
    if i < j {
      EndedOnce(trace, steps, i, j - 1, epoch);
      RunKeepsInv(trace, steps, j - 1);
      EndingsAreFinal(trace[j - 1], steps[j - 1]);
      assert trace[j - 1 + 1] == Apply(trace[j - 1], steps[j - 1]).0;
    }
  }

  /** Of lease expiry, confirm and rollback exactly one ends an activation: once it has ended one way, no
      later step of the run ends it again, and its watchdog is gone. */
  lemma {:induction false} ExactlyOneWins(trace: seq<Sys>, steps: seq<Step>, i: nat, j: nat, epoch: nat, e: Ending, f: Ending)
    requires Run(trace, steps) && i < j < |steps| && EndsHere(trace[i], steps[i], epoch, e)
    ensures !EndsHere(trace[j], steps[j], epoch, f) && epoch !in trace[j].dogs
  {
    hide Inv;
    assert trace[i + 1] == Apply(trace[i], steps[i]).0;
    EndedOnce(trace, steps, i + 1, j, epoch);
    RunKeepsInv(trace, steps, j);
    EndedStaysEnded(trace[j], steps[j], epoch);
    NoDogWhenEnded(trace[j], epoch);
  }

  lemma NoDogWhenEnded(s: Sys, epoch: nat)
    requires Inv(s) && epoch in s.endings
    ensures epoch !in s.dogs
  {
  }

  /** ... and as long as it is open, its watchdog is there to end it. */
  lemma {:induction false} OpenActivationIsWatched(trace: seq<Sys>, steps: seq<Step>, k: nat)
    requires Run(trace, steps) && k <= |steps|
    ensures InPhase(trace[k], Active) <==> trace[k].dogs != {}
    ensures InPhase(trace[k], Active) ==> Enabled(trace[k], DoExpire(trace[k].lease.value.epoch))
                                          && InPhase(Expire(trace[k], trace[k].lease.value.epoch), RollingBack)
  {
    RunKeepsInv(trace, steps, k);
    if InPhase(trace[k], Active) { assert trace[k].lease.value.epoch in trace[k].dogs; }
  }

  // ---------------------------------------------------------------- confirm, and replays

  /** A confirm succeeds only when the target on disk is exactly the live entry, in the file just checked
      as current; it then serves that file, and that changes nothing of what was served. */
  lemma ConfirmMatchesDisk(s: Sys, digest: Doc, d1: Doc, d2: Doc)
    requires Inv(s) && Confirm(s, digest, d1, d2).1 == Done
    ensures d1 == d2 == digest && InPhase(s, Active)
    ensures var s' := Confirm(s, digest, d1, d2).0;
            && d1.target == Some(s.lease.value.live) && s'.mem == Snapshot(d2) && s'.mem == s.mem
            && InPhase(s', Confirmed) && s'.dogs == {}
  {
  }

  /** ... and conversely: an open activation is confirmed by any current file with exactly its models. */
  lemma ConfirmAccepts(s: Sys, d: Doc)
    requires Inv(s) && InPhase(s, Active)
    ensures Confirm(s, d, d, d).1 == Done <==> Snapshot(d) == s.mem
  {
  }

  /** An activate opens an activation exactly if none is open or rolling back, the file is the one that was
      named, throughout, with the model disabled, the memory has the same other entries and no other entry of
      the model, no manager of it is about, and the size fits; it then serves the file with only the model
      replaced by the calibrated live entry, the gate open and a new watchdog; anything else opens nothing. */
  lemma ActivateAccepts(s: Sys, q: Activation, d1: Doc, d2: Doc, d3: Doc, fits: bool)
    requires Inv(s) && s.pending.None?
    ensures var r := Activate(s, q, d1, d2, d3, fits); var t := d1.target;
            && (r.1 == Done <==>
                  && (s.lease.None? || s.lease.value.phase == RolledBack || s.lease.value.phase == Confirmed)
                  && q.digest == d1 && d2 == d1 && d3 == d1 && t.Some? && !t.value.enabled
                  && s.mem.rest == d1.rest && (s.mem.target == None || s.mem.target == t)
                  && (s.manager == None || s.manager == Some(L.Unloaded)) && fits)
            && (r.1 == Done ==>
                  var live := Entry(true, q.vram, t.value.body);
                  && r.0.lease == Some(Lease(Active, d1, live, q.vram, q.seconds, None, s.epochs))
                  && r.0.mem == Mem(d1.rest, Some(live)) && !r.0.blocked && r.0.dogs == {s.epochs} && r.0.epochs == s.epochs + 1
                  && r.0.endings == s.endings && r.0.manager == s.manager && r.0.past == s.past)
            && (r.1 != Done ==> r.0 == s || r.0 == s.(mem := Snapshot(d1)))
  {
    if !InPhase(s, Active) { assert s.dogs == {}; }
    if s.manager.Some? { assert s.manager.value.Unloaded? || s.manager.value.Loading? || s.manager.value.Ready? || s.manager.value.Unloading?; }
  }

  /** The same activate again, while the activation is open, is answered as a replay exactly if it names the
      same document, size and lease and nothing has changed. */
  lemma ActivateReplays(s: Sys, q: Activation, d1: Doc, d2: Doc, d3: Doc, fits: bool)
    requires Inv(s) && InPhase(s, Active)
    ensures var l := s.lease.value; var r := Activate(s, q, d1, d2, d3, fits);
            && r.0 == s && (r.1 == Replayed || r.1 == Refused)
            && (r.1 == Replayed <==> q == Activation(l.baseline, l.vram, l.seconds) && d1 == l.baseline && d2 == d1)
  {
  }

  /** A rollback begins exactly on an activation that is open, rolling back or confirmed, with the file that was
      named unchanged and meaning the baseline, and the memory's other entries those of the baseline; the gate is
      then closed, the baseline served, the watchdog gone, and an open activation ended. */
  lemma RollbackAccepts(s: Sys, digest: Doc, d1: Doc, d2: Doc)
    requires Inv(s) && s.pending.None?
    ensures var r := Rollback(s, digest, d1, d2);
            && (r.1 == Suspended <==>
                  && s.lease.Some? && s.lease.value.phase != RolledBack && d1 == digest && d2 == d1
                  && Snapshot(d1) == Snapshot(s.lease.value.baseline) && s.mem.rest == d1.rest)
            && (r.1 == Suspended ==>
                  var l := s.lease.value;
                  && r.0.lease == Some(l.(phase := RollingBack)) && r.0.blocked && r.0.mem == Snapshot(l.baseline)
                  && r.0.dogs == {} && r.0.pending == Some(ByRequest(d1))
                  && r.0.endings == (if l.phase == Active then s.endings[l.epoch := RolledBackByRequest] else s.endings)
                  && r.0.manager == s.manager && r.0.past == s.past && r.0.epochs == s.epochs)
            && (r.1 == Replayed <==>
                  && s.lease.Some? && s.lease.value.phase == RolledBack && d1 == digest && d2 == d1
                  && s.lease.value.terminal == Some(d1))
            && (r.1 != Suspended ==> r.0 == s)
  {
  }

  /** ... so an open activation, or one whose rollback failed, is rolled back on any current file that means its
      baseline, and a confirmed one if the memory's other entries are still those. */
  lemma OpenRollsBack(s: Sys, d: Doc)
    requires Inv(s) && s.pending.None?
    ensures InPhase(s, Active) || InPhase(s, RollingBack) ==>
              (Rollback(s, d, d, d).1 == Suspended <==> Snapshot(d) == Snapshot(s.lease.value.baseline))
    ensures InPhase(s, Confirmed) ==>
              (Rollback(s, d, d, d).1 == Suspended <==>
                 Snapshot(d) == Snapshot(s.lease.value.baseline) && s.mem.rest == s.lease.value.baseline.rest)
  {
    RollbackAccepts(s, d, d, d);
  }

  /** The watchdog of an open activation closes the gate and serves the baseline; that of an ended one does
      nothing. */
  lemma ExpiryDecides(s: Sys, epoch: nat)
    requires Inv(s)
    ensures if InPhase(s, Active) && s.lease.value.epoch == epoch then
              Expire(s, epoch) == s.(lease := Some(s.lease.value.(phase := RollingBack)), mem := Snapshot(s.lease.value.baseline),
                                     blocked := true, dogs := {}, pending := Some(ByWatchdog), endings := s.endings[epoch := Expired])
            else Expire(s, epoch) == s.(dogs := s.dogs - {epoch})
  {
    if InPhase(s, Active) && s.lease.value.epoch == epoch {
      assert s.dogs - {epoch} == {};
    }
  }

  /** After the drain: the rollback is over exactly if unload_model has returned and, in a request, the file is
      still the one it was asked for; else the gate stays closed for a retry. */
  lemma DrainDecides(s: Sys, ok: bool, d3: Doc)
    requires Inv(s) && s.pending.Some? && s.lease.Some?
    ensures var r := EndRollback(s, ok, d3); var l := s.lease.value;
            && (r.1 == Done <==> ok && (s.pending == Some(ByWatchdog) || s.pending == Some(ByRequest(d3))))
            && (r.1 == Done ==>
                  exists d: Doc :: Snapshot(d) == Snapshot(l.baseline)
                    && r.0 == s.(lease := Some(l.(phase := RolledBack, terminal := Some(d))), blocked := false, pending := None)
                    && (if s.pending == Some(ByWatchdog) then d == l.baseline else d == d3))
            && (r.1 != Done ==> r.0 == s.(pending := None) && s.blocked)
  {
  }

  /** A confirm, exactly: an open activation is confirmed on a current file that means what is served, and a
      confirmed one is answered as a replay on the file it was confirmed with. */
  lemma ConfirmDecides(s: Sys, digest: Doc, d1: Doc, d2: Doc)
    requires Inv(s)
    ensures var r := Confirm(s, digest, d1, d2);
            && (r.1 == Done <==> InPhase(s, Active) && d1 == digest && d2 == d1 && Snapshot(d1) == s.mem)
            && (r.1 == Done ==>
                  var l := s.lease.value;
                  r.0 == s.(lease := Some(l.(phase := Confirmed, terminal := Some(d1))), dogs := {},
                            endings := s.endings[l.epoch := ConfirmedByRequest]))
            && (r.1 == Replayed <==> InPhase(s, Confirmed) && d1 == digest && d2 == d1 && s.lease.value.terminal == Some(d1))
            && (r.1 != Done ==> r.0 == s)
  {
    if InPhase(s, Active) { assert s.dogs - {s.lease.value.epoch} == {}; }
  }

  /** A trial that nothing disturbs, from any state that accepts it: activated, then either confirmed with the
      file that has the live entry, and served from it; or rolled back and unloaded, and the gate is open on the
      disabled entry. */
  lemma TrialSucceeds(s: Sys, q: Activation, d: Doc, fits: bool, written: Doc)
    requires Inv(s) && s.pending.None? && Activate(s, q, d, d, d, fits).1 == Done
    requires written.rest == d.rest && written.target == Some(LiveEntry(d.target.value, q.vram))
    ensures var s1 := Activate(s, q, d, d, d, fits).0; var c := Confirm(s1, written, written, written);
            && c.1 == Done && InPhase(c.0, Confirmed) && c.0.mem == Snapshot(written) && c.0.endings == s.endings[s.epochs := ConfirmedByRequest]
    ensures var s1 := Activate(s, q, d, d, d, fits).0; var b := Rollback(s1, d, d, d);
            && b.1 == Suspended && b.0.pending.Some? && b.0.lease.Some?
            && (var e := EndRollback(b.0, true, d);
                e.1 == Done && InPhase(e.0, RolledBack) && !e.0.blocked && e.0.mem == Snapshot(d)
                && e.0.endings == s.endings[s.epochs := RolledBackByRequest])
  {
    var s1 := Activate(s, q, d, d, d, fits).0;
    StepKeepsInv(s, DoActivate(q, d, d, d, fits));
    ActivateAccepts(s, q, d, d, d, fits);
    hide Inv, Activate;
    ConfirmDecides(s1, written, written, written);
    RollbackAccepts(s1, d, d, d);
  }

  /** Replaying an accepted activate, rollback or confirm on an unchanged file changes nothing. */
  lemma ReplaysChangeNothing(s: Sys, q: Activation, d: Doc, fits: bool, fits': bool, doc: Doc)
    requires Inv(s)
    ensures Activate(s, q, d, d, d, fits).1 == Done ==>
              var s' := Activate(s, q, d, d, d, fits).0; Activate(s', q, d, d, d, fits') == (s', Replayed)
    ensures Confirm(s, d, d, d).1 == Done ==>
              var s' := Confirm(s, d, d, d).0; Confirm(s', d, d, d) == (s', Replayed)
    ensures s.pending == Some(ByRequest(doc)) && EndRollback(s, true, d).1 == Done ==>
              var s' := EndRollback(s, true, d).0; doc == d && Rollback(s', d, d, d) == (s', Replayed)
    ensures s.pending == Some(ByWatchdog) && s.lease.Some? && EndRollback(s, true, d).1 == Done ==>
              var s' := EndRollback(s, true, d).0; var b := s.lease.value.baseline; Rollback(s', b, b, b) == (s', Replayed)
  {
  }

  ghost predicate Reaches(s: Sys, steps: seq<Step>, t: Sys)
    decreases |steps|
  {
    if steps == [] then t == s else Enabled(s, steps[0]) && Reaches(Apply(s, steps[0]).0, steps[1..], t)
  }

  function IdleScript(d: Doc): seq<Step> {
    [DoActivate(Activation(d, 1.0, 60), d, d, d, true), PoolMoves(Some(L.Loading), false), PoolMoves(Some(L.Ready), false),
     PoolMoves(Some(L.Unloading), false), DoExpire(0), DoUnloaded(true, d)]
  }

  /** It does happen that the gate reopens while a manager is still registered: the idle monitor is
      unloading the model when the lease expires, so unload_model returns at once. */
  lemma {:induction false} GateReopensOverUnloading(s: Sys, d: Doc)
    requires Init(s) && s.manager == None && s.mem == Snapshot(d) && d.target.Some? && !d.target.value.enabled
    ensures exists t :: Reaches(s, IdleScript(d), t) && InPhase(t, RolledBack) && !t.blocked && t.manager == Some(L.Unloading)
  {
    hide Reaches;
    var st := IdleScript(d);
    var s1 := Apply(s, st[0]).0;
    var s2 := Apply(s1, st[1]).0;
    var s3 := Apply(s2, st[2]).0;
    var s4 := Apply(s3, st[3]).0;
    var s5 := Apply(s4, st[4]).0;
    var t := Apply(s5, st[5]).0;
    assert Enabled(s, st[0]) && Enabled(s1, st[1]) && Enabled(s2, st[2]) && Enabled(s3, st[3]) && Enabled(s4, st[4]) && Enabled(s5, st[5]);
    assert InPhase(t, RolledBack) && !t.blocked && t.manager == Some(L.Unloading);
    hide Enabled, Apply;
    ReachesEnd(t);
    ReachesStep(s5, st[5], [], t);
    ReachesStep(s4, st[4], [st[5]] + [], t);
    ReachesStep(s3, st[3], [st[4]] + ([st[5]] + []), t);
    ReachesStep(s2, st[2], [st[3]] + ([st[4]] + ([st[5]] + [])), t);
    ReachesStep(s1, st[1], [st[2]] + ([st[3]] + ([st[4]] + ([st[5]] + []))), t);
    ReachesStep(s, st[0], [st[1]] + ([st[2]] + ([st[3]] + ([st[4]] + ([st[5]] + [])))), t);
    assert [st[0]] + ([st[1]] + ([st[2]] + ([st[3]] + ([st[4]] + ([st[5]] + []))))) == st;
  }

  lemma ReachesEnd(t: Sys)
    ensures Reaches(t, [], t)
  {
  }

  lemma ReachesStep(s: Sys, st: Step, rest: seq<Step>, t: Sys)
    requires Enabled(s, st) && Reaches(Apply(s, st).0, rest, t)
    ensures Reaches(s, [st] + rest, t)
  {
    hide Enabled, Apply;
    assert ([st] + rest)[1..] == rest;
  }

  // ---------------------------------------------------------------- the mutable object

  class BootstrapSync {
    var lease: Option<Lease>
    var mem: Mem
    var blocked: bool
    ghost var manager: Option<L.RunState>
    ghost var past: bool
    var dogs: set<nat>
    var pending: Option<Pending>
    var epochs: nat
    ghost var endings: map<nat, Ending>

    ghost function Abs(): Sys
      reads this
    {
      Sys(lease, mem, blocked, manager, past, dogs, pending, epochs, endings)
    }

    constructor (initial: Mem)
      ensures Init(Abs()) && Inv(Abs()) && mem == initial
    {
      lease, mem, blocked, manager, past, dogs, pending, epochs, endings := None, initial, false, None, false, {}, None, 0, map[];
    }

    method ActivateModel(q: Activation, d1: Doc, d2: Doc, d3: Doc, loaded: bool, fits: bool) returns (answer: Answer)
      requires Inv(Abs()) && pending.None? && loaded == Loaded(Abs())
      modifies this
      ensures (Abs(), answer) == Activate(old(Abs()), q, d1, d2, d3, fits) && Inv(Abs())
      ensures answer == Done ==> mem.target == Some(LiveEntry(d1.target.value, q.vram)) && !blocked
    {
      if d1 != q.digest || d1.target.None? { return Refused; }
      if lease.Some? && lease.value.phase == Active {
        var l := lease.value;
        if l.baseline != q.digest || l.vram != q.vram || l.seconds != q.seconds || d1.target != l.baseline.target {
          return Refused;
        }
        if l.baseline.rest != d1.rest || l.baseline.rest != mem.rest || mem.target != Some(l.live) || d2 != d1 { return Refused; }
        return Replayed;
      }
      if lease.Some? && lease.value.phase == RollingBack { return Refused; }
      if d1.target.value.enabled || mem.rest != d1.rest { return Refused; }
      if (mem.target.Some? && mem.target != d1.target) || loaded || !fits || d2 != d1 { return Refused; }
      var live := d1.target.value.(enabled := true, vram := q.vram);
      mem := Mem(d1.rest, Some(live));
      if d3 != d1 {
        mem := Mem(d1.rest, d1.target);
        return Refused;
      }
      blocked := false;
      lease := Some(Lease(Active, d1, live, q.vram, q.seconds, None, epochs));
      dogs := dogs + {epochs};
      epochs := epochs + 1;
      return Done;
    }

    /** Up to the drain. */
    method RollbackModel(digest: Doc, d1: Doc, d2: Doc) returns (answer: Answer)
      requires Inv(Abs()) && pending.None?
      modifies this
      ensures (Abs(), answer) == Rollback(old(Abs()), digest, d1, d2) && Inv(Abs())
      ensures answer == Suspended ==> blocked && mem.target.Some? && !mem.target.value.enabled && dogs == {}
    {
      if d1 != digest || d1.target.None? || lease.None? { return Refused; }
      var l := lease.value;
      if l.phase == RolledBack {
        if l.terminal != Some(d1) || d1.target != l.baseline.target || l.baseline.rest != d1.rest || d2 != d1 { return Refused; }
        return Replayed;
      }
      if d1.target != l.baseline.target || d1.target.value.enabled { return Refused; }
      if l.baseline.rest != d1.rest || l.baseline.rest != mem.rest || d2 != d1 { return Refused; }
      endings := Ends(Abs(), RolledBackByRequest);
      dogs := dogs - {l.epoch};
      blocked := true;
      mem := Mem(d1.rest, d1.target);
      lease := Some(l.(phase := RollingBack));
      pending := Some(ByRequest(d1));
      return Suspended;
    }

    /** The watchdog with the lock, up to the drain. */
    method LeaseExpires(epoch: nat) returns (expired: bool)
      requires Inv(Abs()) && pending.None? && epoch in dogs
      modifies this
      ensures Abs() == Expire(old(Abs()), epoch) && Inv(Abs())
      ensures expired && blocked && mem.target.Some? && !mem.target.value.enabled
    {
      dogs := dogs - {epoch};
      assert lease.Some? && lease.value.epoch == epoch && lease.value.phase == Active;
      endings := endings[epoch := Expired];
      blocked := true;
      mem := Mem(lease.value.baseline.rest, lease.value.baseline.target);
      lease := Some(lease.value.(phase := RollingBack));
      pending := Some(ByWatchdog);
      return true;
    }

    /** After the drain, in the request or in the watchdog. */
    method RollbackDrained(ok: bool, d3: Doc) returns (answer: Answer)
      requires Inv(Abs()) && pending.Some?
      modifies this
      ensures Inv(Abs()) && old(lease).Some? && (Abs(), answer) == EndRollback(old(Abs()), ok, d3)
      ensures answer != Done ==> blocked
    {
      var l := lease.value;
      var terminal := if pending.value.ByRequest? then pending.value.doc else l.baseline;
      if !ok || (pending.value.ByRequest? && d3 != terminal) {
        pending := None;
        return Refused;
      }
      lease := Some(l.(phase := RolledBack, terminal := Some(terminal)));
      blocked := false;
      pending := None;
      return Done;
    }

    method ConfirmModel(digest: Doc, d1: Doc, d2: Doc) returns (answer: Answer)
      requires Inv(Abs()) && pending.None?
      modifies this
      ensures (Abs(), answer) == Confirm(old(Abs()), digest, d1, d2) && Inv(Abs())
      ensures answer == Done ==> mem == old(mem) == Snapshot(d2)
    {
      if d1 != digest || d1.target.None? || lease.None? { return Refused; }
      var l := lease.value;
      if l.phase == Confirmed {
        if l.terminal != Some(d1) || d1.target != Some(l.live) || l.baseline.rest != d1.rest || d2 != d1 { return Refused; }
        return Replayed;
      }
      if l.phase != Active || !d1.target.value.enabled || d1.target != Some(l.live) { return Refused; }
      if l.baseline.rest != d1.rest || l.baseline.rest != mem.rest || mem.target != Some(l.live) || d2 != d1 { return Refused; }
      endings := Ends(Abs(), ConfirmedByRequest);
      dogs := dogs - {l.epoch};
      mem := Mem(d1.rest, d1.target);
      lease := Some(l.(phase := Confirmed, terminal := Some(d1)));
      blocked := false;
      return Done;
    }
  }
}
