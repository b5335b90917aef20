/** One llama-server instance: the life cycle run by gateway/server_manager.py.

  The asyncio tasks that touch an instance (callers of ensure_loaded, the load task,
  the idle/crash watchdog, callers of unload) interleave only where a coroutine
  really suspends.  Each event below is the code between two such points.  Killing a
  process, attesting a file and probing /health are events that may fire at any time. */
module ServerLifecycle {

  datatype RunState = Unloaded | Loading | Ready | Unloading

  /** The _process field together with the fate of the process it denotes. */
  datatype Proc = NoProcess | Live | Exited

  /** Where the load task of the current round is; Idle when it is done or was never created. */
  datatype LoadPc = Idle | Created | Attesting | Starting | Polling | FailKilling | AbandonKilling

  /** Where the unload() that owns UNLOADING is.  Stuck: its caller was cancelled during the kill. */
  datatype UnloadPc = NoUnload | AwaitLoad | Killing | Stuck

  /** events[r] tells whether the asyncio.Event of load round r is set; the last one is _ready_event. */
  datatype Server = Server(
    state: RunState, proc: Proc, events: seq<bool>, loadError: bool,
    load: LoadPc, cancelled: bool, unload: UnloadPc, active: nat, last: nat)

  const Fresh := Server(Unloaded, NoProcess, [], false, Idle, false, NoUnload, 0, 0)

  datatype Event =
    | EnsureLoaded(now: nat)      // ensure_loaded up to its first suspension
    | TaskRuns | Attested | Spawned | Healthy(now: nat) | LoadFails | FailKilled | AbandonKilled
    | CancelLands                 // CancelledError reaches the load task
    | UnloadBegins | LoadAwaited | UnloadKilled | UnloadAborted
    | ProcessDies | CrashSeen
    | Touch(now: nat) | Pin | Unpin(now: nat)

  predicate Enabled(s: Server, e: Event) {
    match e
    case EnsureLoaded(_) => true
    case TaskRuns => s.load == Created && !s.cancelled
    case Attested => s.load == Attesting && !s.cancelled
    case Spawned => s.load == Starting && !s.cancelled
    case Healthy(_) => s.load == Polling && !s.cancelled
    case LoadFails => (s.load == Attesting || s.load == Starting || s.load == Polling) && !s.cancelled
    case FailKilled => s.load == FailKilling && !s.cancelled
    case AbandonKilled => s.load == AbandonKilling && !s.cancelled
    case CancelLands => s.load != Idle && s.cancelled
    case UnloadBegins => true
    case LoadAwaited => s.unload == AwaitLoad && s.load == Idle
    case UnloadKilled => s.unload == Killing
    case UnloadAborted => s.unload == Killing
    case ProcessDies => s.proc == Live
    case CrashSeen => s.state == Ready && s.proc == Exited
    case Touch(_) => true
    case Pin => true
    case Unpin(_) => true
  }

  /** events with the current round's event set. */
  function Signal(events: seq<bool>): seq<bool> {
    if events == [] then events else events[|events| - 1 := true]
  }

  /** unload() returns at once in UNLOADED and UNLOADING; otherwise it claims the state and
      cancels a load task that is not done. */
  function BeginUnload(s: Server): Server {
    if s.state == Unloaded || s.state == Unloading then s
    else if s.load != Idle then s.(state := Unloading, cancelled := true, unload := AwaitLoad)
    else s.(state := Unloading, unload := Killing)
  }

  function Apply(s: Server, e: Event): Server
    requires Enabled(s, e)
  {
    match e
    case EnsureLoaded(now) => (
      match s.state
      case Ready => s.(last := now)
      case Unloaded => s.(events := s.events + [false], loadError := false, state := Loading, load := Created)
      case Loading => s
      case Unloading => s)
    case TaskRuns => s.(load := Attesting)
    case Attested => s.(load := Starting)
    case Spawned => s.(load := Polling, proc := Live)
    case Healthy(now) =>
      if s.state != Loading then s.(load := AbandonKilling)
      else s.(state := Ready, load := Idle, events := Signal(s.events), last := now)
    case LoadFails => s.(loadError := true, load := FailKilling)
    case FailKilled => s.(proc := NoProcess, state := Unloaded, load := Idle, events := Signal(s.events))
    case AbandonKilled => s.(proc := NoProcess, load := Idle, events := Signal(s.events))
    case CancelLands =>
      // A task cancelled before its first step never runs its finally block.
      s.(load := Idle, cancelled := false, events := if s.load == Created then s.events else Signal(s.events))
    case UnloadBegins => BeginUnload(s)
    case LoadAwaited => s.(unload := Killing, events := Signal(s.events))
    case UnloadKilled => s.(proc := NoProcess, state := Unloaded, unload := NoUnload)
    case UnloadAborted => s.(unload := Stuck)
    case ProcessDies => s.(proc := Exited)
    case CrashSeen => s.(state := Unloaded, proc := NoProcess)
    case Touch(now) => s.(last := now)
    case Pin => s.(active := s.active + 1)
    case Unpin(now) => s.(active := if s.active > 0 then s.active - 1 else 0, last := now)
  }

  /** What every reachable instance satisfies. */
  ghost predicate Inv(s: Server) {
    && (forall i :: 0 <= i < |s.events| - 1 ==> s.events[i])
    && s.load != AbandonKilling
    && (s.loadError ==> s.state == Unloaded || s.state == Unloading || s.load == FailKilling)
    && (match s.state
        case Unloaded =>
          s.proc == NoProcess && s.load == Idle && !s.cancelled && s.unload == NoUnload && Signalled(s)
        case Loading =>
          && s.load != Idle && !s.cancelled && s.unload == NoUnload && !Signalled(s)
          && ((s.load == Created || s.load == Attesting || s.load == Starting) ==> s.proc == NoProcess)
          && (s.load == Polling ==> s.proc != NoProcess)
        case Ready =>
          && s.proc != NoProcess && s.load == Idle && !s.cancelled && s.unload == NoUnload && Signalled(s)
          && s.events != []
        case Unloading =>
          && s.unload != NoUnload && s.events != []
          && (s.load != Idle ==> s.cancelled && s.unload == AwaitLoad)
          && (s.load == Idle ==> !s.cancelled)
          && (s.unload != AwaitLoad ==> Signalled(s)))
  }

  /** The event of the current round is set (vacuously before the first round). */
  predicate Signalled(s: Server) {
    s.events == [] || s.events[|s.events| - 1]
  }

  lemma StepKeepsInv(s: Server, e: Event)
    requires Inv(s) && Enabled(s, e)
    ensures Inv(Apply(s, e))
  {
  }

  /** A run: the events applied in order; a disabled event stops it. */
  ghost predicate Run(s: Server, es: seq<Event>, t: Server)
    decreases |es|
  {
    if es == [] then t == s
    else Enabled(s, es[0]) && Run(Apply(s, es[0]), es[1..], t)
  }

  lemma {:induction false} RunKeepsInv(s: Server, es: seq<Event>, t: Server)
    requires Inv(s) && Run(s, es, t)
    ensures Inv(t)
    decreases |es|
  {
    if es != [] {
      StepKeepsInv(s, es[0]);
      RunKeepsInv(Apply(s, es[0]), es[1..], t);
    }
  }

  /** READY implies a process handle, UNLOADED implies none, and a round that is over has its
      event set, in every state reachable from a new instance. */
  lemma {:induction false} ReachableLifecycle(es: seq<Event>, t: Server)
    requires Run(Fresh, es, t)
    ensures t.state == Ready ==> t.proc != NoProcess
    ensures t.state == Unloaded ==> t.proc == NoProcess && t.load == Idle
    ensures t.state == Ready || t.state == Unloaded ==> forall i :: 0 <= i < |t.events| ==> t.events[i]
    ensures t.state == Loading <==> t.load != Idle && t.unload == NoUnload
    ensures t.load != AbandonKilling
  {
    RunKeepsInv(Fresh, es, t);
  }

  /** READY is entered only from LOADING, by the load task of that same round. */
  lemma ReadyOnlyFromOwnRound(s: Server, e: Event)
    requires Inv(s) && Enabled(s, e)
    requires s.state != Ready && Apply(s, e).state == Ready
    ensures s.state == Loading && s.load == Polling && e.Healthy?
    ensures |Apply(s, e).events| == |s.events| && s.proc == Apply(s, e).proc != NoProcess
    ensures !s.events[|s.events| - 1] && Apply(s, e).events[|s.events| - 1]
  {
  }

  /** The branch that kills a process that came up after a concurrent unload is dead code: unload()
      cancels the load task in the step in which it leaves LOADING. */
  lemma {:induction false} AbandonBranchUnreachable(es: seq<Event>, t: Server, now: nat)
    requires Run(Fresh, es, t) && Enabled(t, Healthy(now))
    ensures t.state == Loading
  {
    RunKeepsInv(Fresh, es, t);
  }

  datatype Outcome = Returns | Raises | Waits(round: nat)

  /** ensure_loaded before its wait. */
  function EnterOutcome(s: Server): Outcome {
    match s.state
    case Ready => Returns
    case Unloaded => Waits(|s.events|)
    case Loading => if s.events == [] then Raises else Waits(|s.events| - 1)
    case Unloading => Raises
  }

  /** ensure_loaded after its event was set. */
  function WakeOutcome(s: Server): Outcome {
    if s.loadError then Raises else if s.state != Ready then Raises else Returns
  }

  /** Nobody sleeps on a round that is over: for every run and every round a caller was told to
      wait for, either the event is set or that very round is still being loaded or torn down. */
  lemma {:induction false} NoWaiterForgotten(s: Server, now: nat, es: seq<Event>, t: Server)
    requires Inv(s) && EnterOutcome(s).Waits?
    requires Run(Apply(s, EnsureLoaded(now)), es, t)
    ensures var r := EnterOutcome(s).round;
            r < |t.events| &&
            (t.events[r] || (r == |t.events| - 1 && (t.state == Loading || t.unload == AwaitLoad)))
  {
    StepKeepsInv(s, EnsureLoaded(now));
    RunKeepsInv(Apply(s, EnsureLoaded(now)), es, t);
    RunOnlyAddsRounds(Apply(s, EnsureLoaded(now)), es, t);
  }

  lemma {:induction false} RunOnlyAddsRounds(s: Server, es: seq<Event>, t: Server)
    requires Run(s, es, t)
    ensures |s.events| <= |t.events|
    decreases |es|
  {
    if es != [] {
      RunOnlyAddsRounds(Apply(s, es[0]), es[1..], t);
    }
  }

  /** At whatever point of whatever run ensure_loaded is entered or resumed: it returns exactly on a READY
      instance, which then has a process; it waits exactly on a LOADING or UNLOADED one, for the round that
      is then current and whose event is not set; it raises exactly on an UNLOADING one. */
  lemma {:induction false} ReturnsOnlyReady(es: seq<Event>, t: Server, now: nat)
    requires Run(Fresh, es, t)
    ensures (EnterOutcome(t).Returns? <==> t.state == Ready) && (WakeOutcome(t).Returns? <==> t.state == Ready)
    ensures EnterOutcome(t).Returns? || WakeOutcome(t).Returns? ==> t.proc != NoProcess
    ensures EnterOutcome(t).Waits? <==> t.state == Loading || t.state == Unloaded
    ensures EnterOutcome(t).Waits? ==>
              var r, t' := EnterOutcome(t).round, Apply(t, EnsureLoaded(now));
              && t'.state == Loading && r == |t'.events| - 1 && !t'.events[r] && t.events <= t'.events
              && (t.state == Loading ==> t' == t) && (t.state == Unloaded ==> t'.load == Created && r == |t.events|)
    ensures EnterOutcome(t).Raises? ==> Apply(t, EnsureLoaded(now)) == t
  {
    RunKeepsInv(Fresh, es, t);
  }

  // ---------------------------------------------------------------- loads and unloads come to an end

  /** What the load task and unload() do by themselves; the process, callers and cancellations are not theirs. */
  predicate OwnWork(e: Event) {
    e.TaskRuns? || e.Attested? || e.Spawned? || e.Healthy? || e.LoadFails? || e.FailKilled? || e.CancelLands?
    || e.LoadAwaited? || e.UnloadKilled?
  }

  /** How much of it is left. */
  function Left(s: Server): nat {
    (match s.load
     case Idle => 0
     case Created => 6
     case Attesting => 5
     case Starting => 4
     case Polling => 3
     case FailKilling => 2
     case AbandonKilling => 2)
    + (match s.unload
       case NoUnload => 0
       case AwaitLoad => 2
       case Killing => 1
       case Stuck => 0)
  }

  /** The next event of a load or unload in progress. */
  function Next(s: Server, now: nat): Event {
    if s.cancelled then CancelLands
    else
      match s.load
      case Created => TaskRuns
      case Attesting => Attested
      case Starting => Spawned
      case Polling => Healthy(now)
      case FailKilling => FailKilled
      case _ => if s.unload == AwaitLoad then LoadAwaited else UnloadKilled
  }

  /** A load or an unload whose caller was not cancelled in the kill is never stuck: some event of its own is
      enabled, each such event leaves less to do, and none is left exactly in READY and UNLOADED. */
  lemma WorkProceeds(s: Server, now: nat, e: Event)
    requires Inv(s) && s.unload != Stuck
    ensures Left(s) == 0 <==> s.state == Ready || s.state == Unloaded
    ensures Left(s) > 0 ==> OwnWork(Next(s, now)) && Enabled(s, Next(s, now))
    ensures OwnWork(e) && Enabled(s, e) ==>
              Left(Apply(s, e)) < Left(s) && Apply(s, e).unload != Stuck && Apply(s, e).active == s.active
  {
  }

  /** Every phase of a load is entered from the one before it, by its own event: no process is started
      that was not attested in the same round, and none is READY that did not answer its health check. */
  lemma PhasesInOrder(s: Server, e: Event)
    requires Inv(s) && Enabled(s, e)
    ensures var t := Apply(s, e);
            && (t.load == Created && s.load != Created ==> e.EnsureLoaded? && s.state == Unloaded)
            && (t.load == Attesting && s.load != Attesting ==> e.TaskRuns? && s.load == Created)
            && (t.load == Starting && s.load != Starting ==> e.Attested? && s.load == Attesting)
            && (t.load == Polling && s.load != Polling ==> e.Spawned? && s.load == Starting)
            && (t.proc == Live && s.proc != Live ==> e.Spawned? && s.load == Starting)
            && (t.state == Ready && s.state != Ready ==> e.Healthy? && s.load == Polling && !t.loadError)
            && (t.state == Unloading && s.state != Unloading ==> e.UnloadBegins? && (s.state == Loading || s.state == Ready))
            && (t.state == Unloaded && s.state != Unloaded ==> e.FailKilled? || e.UnloadKilled? || e.CrashSeen?)
            && (t.proc == NoProcess && s.proc != NoProcess ==> e.FailKilled? || e.UnloadKilled? || e.CrashSeen?)
  {
  }

  /** A load that nothing disturbs: from UNLOADED through attestation, start and health check to READY, with
      the event of its round set, so that its waiters return. */
  lemma LoadSucceeds(s: Server, now: nat, later: nat)
    requires Inv(s) && s.state == Unloaded
    ensures EnterOutcome(s) == Waits(|s.events|)
    ensures Run(Apply(s, EnsureLoaded(now)), [TaskRuns, Attested, Spawned, Healthy(later)], Served(s, later))
    ensures WakeOutcome(Served(s, later)).Returns?
  {
    var s1 := Apply(s, EnsureLoaded(now));
    var s2, s3 := s1.(load := Attesting), s1.(load := Starting);
    var s4 := s1.(load := Polling, proc := Live);
    assert Signal(s.events + [false]) == s.events + [true];
    assert [TaskRuns, Attested, Spawned, Healthy(later)][1..] == [Attested, Spawned, Healthy(later)];
    assert [Attested, Spawned, Healthy(later)][1..] == [Spawned, Healthy(later)];
    assert [Spawned, Healthy(later)][1..] == [Healthy(later)];
    assert Run(s4, [Healthy(later)], Served(s, later)) by { assert [Healthy(later)][1..] == []; }
    assert Run(s3, [Spawned, Healthy(later)], Served(s, later));
    assert Run(s2, [Attested, Spawned, Healthy(later)], Served(s, later));
  }

  /** The instance after one more round, READY since later. */
  function Served(s: Server, later: nat): Server {
    s.(state := Ready, proc := Live, events := s.events + [true], loadError := false, last := later)
  }

  /** An unload that nothing disturbs ends UNLOADED, without a process and with every event set; a load in
      progress is cancelled and awaited first. */
  lemma UnloadSucceeds(s: Server)
    requires Inv(s) && (s.state == Ready || s.state == Loading)
    ensures var es := if s.state == Ready then [UnloadKilled] else [CancelLands, LoadAwaited, UnloadKilled];
            exists t :: Run(BeginUnload(s), es, t) && t.state == Unloaded && t.proc == NoProcess && t.load == Idle
                        && |t.events| == |s.events| && forall i :: 0 <= i < |t.events| ==> t.events[i]
  {
    var s1 := BeginUnload(s);
    assert [UnloadKilled][1..] == [];
    if s.state == Ready {
      assert Run(s1, [UnloadKilled], Apply(s1, UnloadKilled));
    } else {
      var s2 := Apply(s1, CancelLands);
      var s3 := Apply(s2, LoadAwaited);
      var t := Apply(s3, UnloadKilled);
      assert [CancelLands, LoadAwaited, UnloadKilled][1..] == [LoadAwaited, UnloadKilled];
      assert [LoadAwaited, UnloadKilled][1..] == [UnloadKilled];
      assert Run(s3, [UnloadKilled], t);
      assert Run(s2, [LoadAwaited, UnloadKilled], t);
      assert Run(s1, [CancelLands, LoadAwaited, UnloadKilled], t);
    }
  }

  /** The mutable object.  Every method is one event, on the fields. */
  class ServerManager {
    var state: RunState
    var process: Proc
    var events: seq<bool>
    var loadError: bool
    var loadTask: LoadPc
    var loadCancelled: bool
    var unloader: UnloadPc
    var activeRequests: nat
    var lastRequest: nat

    ghost function Abs(): Server
      reads this
    {
      Server(state, process, events, loadError, loadTask, loadCancelled, unloader, activeRequests, lastRequest)
    }

    constructor ()
      ensures Abs() == Fresh
    {
      state, process, events, loadError := Unloaded, NoProcess, [], false;
      loadTask, loadCancelled, unloader := Idle, false, NoUnload;
      activeRequests, lastRequest := 0, 0;
    }

    method EnsureLoadedEnter(now: nat) returns (r: Outcome)
      requires Inv(Abs())
      modifies this
      ensures Inv(Abs()) && Abs() == Apply(old(Abs()), EnsureLoaded(now))
      ensures r == EnterOutcome(old(Abs()))
      ensures r.Returns? ==> state == Ready && process != NoProcess
      ensures r.Waits? ==> state == Loading && r.round == |events| - 1 && !events[r.round]
    {
      if state == Ready {
        lastRequest := now;
        return Returns;
      }
      if state == Loading {
        return Waits(|events| - 1);
      } else if state == Unloaded {
        events := events + [false];
        loadError := false;
        state := Loading;
        loadTask := Created;
        return Waits(|events| - 1);
      } else {
        return Raises;
      }
    }

    method EnsureLoadedResume(now: nat) returns (r: Outcome)
      requires Inv(Abs())
      modifies this
      ensures r == WakeOutcome(old(Abs())) && !r.Waits?
      ensures Abs() == if r.Returns? then Apply(old(Abs()), Touch(now)) else old(Abs())
      ensures Inv(Abs()) && (r.Returns? ==> state == Ready && process != NoProcess)
    {
      if loadError || state != Ready { return Raises; }
      lastRequest := now;
      return Returns;
    }

    /** The end of _load_and_signal once /health answered, whatever the state. */
    method LoadHealthy(now: nat)
      requires Enabled(Abs(), Healthy(now))
      modifies this
      ensures Abs() == Apply(old(Abs()), Healthy(now))
      ensures old(Inv(Abs())) ==> Inv(Abs()) && state == Ready
    {
      if state != Loading {
        loadTask := AbandonKilling;
      } else {
        state := Ready;
        lastRequest := now;
        loadTask := Idle;
        if |events| > 0 { events := events[|events| - 1 := true]; }
      }
    }

    /** The except-branch of _load_and_signal after its kill, with the finally block. */
    method LoadFailureKilled()
      requires Inv(Abs()) && Enabled(Abs(), FailKilled)
      modifies this
      ensures Inv(Abs()) && Abs() == Apply(old(Abs()), FailKilled)
    {
      process := NoProcess;
      state := Unloaded;
      loadTask := Idle;
      if |events| > 0 { events := events[|events| - 1 := true]; }
    }

    method UnloadClaim() returns (claimed: bool)
      requires Inv(Abs())
      modifies this
      ensures Inv(Abs()) && Abs() == Apply(old(Abs()), UnloadBegins)
      ensures claimed <==> old(state) == Loading || old(state) == Ready
      ensures claimed ==> state == Unloading
    {
      if state == Unloaded || state == Unloading { return false; }
      state := Unloading;
      if loadTask != Idle {
        loadCancelled := true;
        unloader := AwaitLoad;
      } else {
        unloader := Killing;
      }
      return true;
    }

    method UnloadFinish()
      requires Inv(Abs()) && Enabled(Abs(), UnloadKilled)
      modifies this
      ensures Inv(Abs()) && Abs() == Apply(old(Abs()), UnloadKilled)
      ensures state == Unloaded && process == NoProcess
    {
      process := NoProcess;
      state := Unloaded;
      unloader := NoUnload;
    }

    /** One tick of _idle_monitor after its sleep; idle tells whether the idle window has elapsed. */
    method MonitorTick(idleUnloadEnabled: bool, idle: bool) returns (crashed: bool, unloading: bool)
      requires Inv(Abs())
      modifies this
      ensures Inv(Abs())
      ensures crashed <==> old(state) == Ready && old(process) == Exited
      ensures crashed ==> Abs() == Apply(old(Abs()), CrashSeen)
      ensures unloading <==> old(state) == Ready && old(process) == Live
                             && idleUnloadEnabled && idle && old(activeRequests) == 0
      ensures unloading ==> Abs() == Apply(old(Abs()), UnloadBegins)
      ensures !crashed && !unloading ==> Abs() == old(Abs())
      // An instance that serves a request and whose process is alive is left alone.
      ensures old(state) == Ready && old(process) == Live && old(activeRequests) > 0 ==> Abs() == old(Abs())
    {
      crashed, unloading := false, false;
      if state != Ready { return; }
      if process == Exited {
        state := Unloaded;
        process := NoProcess;
        crashed := true;
        return;
      }
      if !idleUnloadEnabled { return; }
      if activeRequests > 0 { return; }
      if idle {
        unloading := UnloadClaim();
      }
    }

    method PinRequest()
      modifies this
      ensures Abs() == Apply(old(Abs()), Pin)
    {
      activeRequests := activeRequests + 1;
    }

    /** Returns whether waiters for capacity have to be notified. */
    method UnpinRequest(now: nat) returns (notify: bool)
      modifies this
      ensures Abs() == Apply(old(Abs()), Unpin(now))
      ensures notify <==> old(activeRequests) == 1
    {
      var wasPinned := activeRequests > 0;
      activeRequests := if activeRequests - 1 > 0 then activeRequests - 1 else 0;
      lastRequest := now;
      notify := wasPinned && activeRequests == 0;
    }
  }
}
