/** Pins of one instance by proxied requests (gateway/proxy.py).  A streamed request first holds a guard
  pin with a 30 s timer; the response generator takes its own pin when it starts and releases the guard;
  a request that is not streamed holds one pin while it runs. */
module ProxyPins {
  import L = ServerLifecycle

  type ReqId = nat

  /** Where a streamed request is: its handler opens the upstream stream, reads the body of an error
      answer, or has returned a response whose generator has not started; then the generator. */
  datatype Phase = Opening | ReadingError | Offered | Streaming | Over

  /** held: guards not released yet; timers: armed timers; releases: how often each guard was released. */
  datatype Pins = Pins(
    active: nat, plain: set<ReqId>, held: set<ReqId>, running: set<ReqId>, timers: set<ReqId>,
    phase: map<ReqId, Phase>, releases: map<ReqId, nat>)

  datatype Step =
    | PlainBegins(r: ReqId) | PlainEnds(r: ReqId)
    | StreamBegins(r: ReqId)
    | OpenFails(r: ReqId)                    // timeout, transport error or any other exception
    | OpenEnds(r: ReqId, refused: bool)      // an upstream answer: an error status, or a stream
    | ErrorRead(r: ReqId)                    // the body of the error answer was read, or could not be
    | HandlerCancelled(r: ReqId)             // the client left while the handler was suspended
    | TimerFires(r: ReqId)
    | GeneratorStarts(r: ReqId)
    | GeneratorEnds(r: ReqId)                // exhausted, upstream error, disconnection

  /** unpin(): clamped at zero. */
  function Unpin(active: nat): nat { if active > 0 then active - 1 else 0 }

  /** _release_stream_guard: once, with its timer. */
  function Release(p: Pins, r: ReqId): Pins {
    if r !in p.held then p
    else p.(held := p.held - {r}, timers := p.timers - {r}, active := Unpin(p.active),
            releases := p.releases[r := (if r in p.releases then p.releases[r] else 0) + 1])
  }

  predicate At(p: Pins, r: ReqId, ph: Phase) { r in p.phase && p.phase[r] == ph }

  predicate Enabled(p: Pins, st: Step) {
    match st
    case PlainBegins(r) => r !in p.plain && r !in p.phase
    case PlainEnds(r) => r in p.plain
    case StreamBegins(r) => r !in p.plain && r !in p.phase
    case OpenFails(r) => At(p, r, Opening)
    case OpenEnds(r, _) => At(p, r, Opening)
    case ErrorRead(r) => At(p, r, ReadingError)
    case HandlerCancelled(r) => At(p, r, Opening) || At(p, r, ReadingError)
    case TimerFires(r) => r in p.timers
    case GeneratorStarts(r) => At(p, r, Offered)
    case GeneratorEnds(r) => At(p, r, Streaming)
  }

  function Apply(p: Pins, st: Step): Pins
    requires Enabled(p, st)
  {
    match st
    case PlainBegins(r) => p.(active := p.active + 1, plain := p.plain + {r})
    case PlainEnds(r) => p.(active := Unpin(p.active), plain := p.plain - {r})
    case StreamBegins(r) =>
      p.(active := p.active + 1, held := p.held + {r}, timers := p.timers + {r}, phase := p.phase[r := Opening])
    case OpenFails(r) => Release(p, r).(phase := p.phase[r := Over])
    case OpenEnds(r, refused) => p.(phase := p.phase[r := if refused then ReadingError else Offered])
    case ErrorRead(r) => Release(p, r).(phase := p.phase[r := Over])
    case HandlerCancelled(r) => p.(phase := p.phase[r := Over])
    case TimerFires(r) => Release(p, r).(timers := p.timers - {r})
    case GeneratorStarts(r) =>
      Release(p.(active := p.active + 1, running := p.running + {r}), r).(phase := p.phase[r := Streaming])
    case GeneratorEnds(r) => p.(active := Unpin(p.active), running := p.running - {r}, phase := p.phase[r := Over])
  }

  ghost predicate Counted(p: Pins) { p.active == |p.plain| + |p.held| + |p.running| }

  /** What holds of one request. */
  predicate ReqOk(p: Pins, r: ReqId) {
    && (r in p.held ==> r in p.phase && p.phase[r] != Streaming)
    && (r in p.running <==> At(p, r, Streaming))
    && (r in p.phase ==> r !in p.plain && if r in p.held then r !in p.releases else r in p.releases && p.releases[r] == 1)
    && (r in p.releases ==> r in p.phase)
  }

  ghost predicate Inv(p: Pins) { Counted(p) && p.timers == p.held && forall r :: ReqOk(p, r) }

  const NONE := Pins(0, {}, {}, {}, {}, map[], map[])

  lemma Smaller(s: set<ReqId>, r: ReqId)
    ensures |s - {r}| == |s| - if r in s then 1 else 0
  {
    if r !in s { assert s - {r} == s; }
  }

  lemma Larger(s: set<ReqId>, r: ReqId)
    ensures |s + {r}| == |s| + if r in s then 0 else 1
  {
    if r in s { assert s + {r} == s; }
  }

  lemma StepKeepsCount(p: Pins, st: Step)
    requires Inv(p) && Enabled(p, st)
    ensures Counted(Apply(p, st))
  {
    assert ReqOk(p, st.r);
    Smaller(p.held, st.r);
    Smaller(p.plain, st.r);
    Smaller(p.running, st.r);
    Larger(p.held, st.r);
    Larger(p.plain, st.r);
    Larger(p.running, st.r);
  }

  lemma StepKeepsTimers(p: Pins, st: Step)
    requires Enabled(p, st) && p.timers == p.held
    ensures Apply(p, st).timers == Apply(p, st).held
  {
    hide Unpin, At;
    match st
    case TimerFires(r) => assert (p.timers - {r}) - {r} == p.held - {r};
    case _ =>
  }

  lemma StepKeepsReq(p: Pins, st: Step, r: ReqId)
    requires Enabled(p, st) && ReqOk(p, r) && p.timers == p.held
    ensures ReqOk(Apply(p, st), r)
  {
    hide Unpin;
  }

  lemma StepKeepsInv(p: Pins, st: Step)
    requires Inv(p) && Enabled(p, st)
    ensures Inv(Apply(p, st))
  {
    hide Counted, Apply, Enabled, ReqOk;
    StepKeepsCount(p, st);
    StepKeepsTimers(p, st);
    forall r ensures ReqOk(Apply(p, st), r) {
      StepKeepsReq(p, st, r);
    }
  }

  ghost predicate Run(trace: seq<Pins>, steps: seq<Step>) {
    && |trace| == |steps| + 1 && trace[0] == NONE
    && forall i :: 0 <= i < |steps| ==> Enabled(trace[i], steps[i]) && trace[i + 1] == Apply(trace[i], steps[i])
  }

  lemma {:induction false} RunKeepsInv(trace: seq<Pins>, steps: seq<Step>, k: nat)
    requires Run(trace, steps) && k <= |steps|
    ensures Inv(trace[k])
  {
    hide Inv, Apply, Enabled;
    if k == 0 {
      assert Inv(NONE) by { Nothing(); }
    } else {
      RunKeepsInv(trace, steps, k - 1);
      StepKeepsInv(trace[k - 1], steps[k - 1]);
      assert trace[k - 1 + 1] == Apply(trace[k - 1], steps[k - 1]);
    }
  }

  lemma Nothing()
    ensures Inv(NONE)
  {
  }

  /** In every interleaving of guard timers, generator starts and ends, upstream errors, cancellations and
      plain requests, the counter is the number of live guards, running streams and running plain requests;
      a guard that is not live was released exactly once, and a live one never and has its timer. */
  lemma {:induction false} CounterIsExact(trace: seq<Pins>, steps: seq<Step>, k: nat)
    requires Run(trace, steps) && k <= |steps|
    ensures trace[k].active == |trace[k].held| + |trace[k].running| + |trace[k].plain|
    ensures forall r :: r in trace[k].phase ==>
              if r in trace[k].held then r !in trace[k].releases && Enabled(trace[k], TimerFires(r))
              else r in trace[k].releases && trace[k].releases[r] == 1
  {
    RunKeepsInv(trace, steps, k);
    forall r | r in trace[k].phase
      ensures if r in trace[k].held then r !in trace[k].releases && Enabled(trace[k], TimerFires(r))
              else r in trace[k].releases && trace[k].releases[r] == 1
    {
      assert ReqOk(trace[k], r);
    }
  }

  /** How often a step calls unpin. */
  function Unpins(p: Pins, st: Step): nat {
    match st
    case PlainEnds(_) => 1
    case GeneratorEnds(_) => 1
    case OpenFails(r) => if r in p.held then 1 else 0
    case ErrorRead(r) => if r in p.held then 1 else 0
    case TimerFires(r) => if r in p.held then 1 else 0
    case GeneratorStarts(r) => if r in p.held then 1 else 0
    case _ => 0
  }

  /** The clamp of unpin is never reached: no step unpins below zero. */
  lemma {:induction false} ClampIsNeverReached(trace: seq<Pins>, steps: seq<Step>, k: nat)
    requires Run(trace, steps) && k < |steps|
    ensures Unpins(trace[k], steps[k]) > 0 && !steps[k].GeneratorStarts? ==> trace[k].active > 0
    ensures trace[k + 1].active as int == trace[k].active - Unpins(trace[k], steps[k])
              + if steps[k].PlainBegins? || steps[k].StreamBegins? || steps[k].GeneratorStarts? then 1 else 0
  {
    RunKeepsInv(trace, steps, k);
    var p, st := trace[k], steps[k];
    assert trace[k + 1] == Apply(p, st) && ReqOk(p, st.r);
    Smaller(p.held, st.r);
    Smaller(p.plain, st.r);
    Smaller(p.running, st.r);
  }

  predicate Drops(st: Step, r: ReqId) {
    st == TimerFires(r) || st == OpenFails(r) || st == ErrorRead(r) || st == GeneratorEnds(r)
  }

  lemma HandOverStep(p: Pins, st: Step, r: ReqId)
    requires Enabled(p, st) && ReqOk(p, r) && (r in p.held || r in p.running) && !Drops(st, r)
    ensures r in Apply(p, st).held || r in Apply(p, st).running
  {
    hide Unpin;
  }

  lemma PinnedWhile(p: Pins, r: ReqId)
    requires Inv(p) && (r in p.held || r in p.running)
    ensures p.active > 0 && ReqOk(p, r)
  {
    assert r in p.held ==> |p.held| > 0;
    assert r in p.running ==> |p.running| > 0;
  }

  /** From the guard to the stream there is no gap: from the begin of a streamed request to the end of its
      generator the instance stays pinned, unless the timer fires or the handler gives up in between. */
  lemma {:induction false} NoGapInHandOver(trace: seq<Pins>, steps: seq<Step>, i: nat, j: nat, r: ReqId)
    requires Run(trace, steps) && i <= j <= |steps| && r in trace[i].held
    requires forall k :: i <= k < j ==> !Drops(steps[k], r)
    ensures r in trace[j].held || r in trace[j].running
    ensures trace[j].active > 0
  {
    hide Inv, Enabled, Apply, ReqOk, Drops;
    if i < j {
      NoGapInHandOver(trace, steps, i, j - 1, r);
      RunKeepsInv(trace, steps, j - 1);
      PinnedWhile(trace[j - 1], r);
      HandOverStep(trace[j - 1], steps[j - 1], r);
      assert trace[j - 1 + 1] == Apply(trace[j - 1], steps[j - 1]);
    }
    RunKeepsInv(trace, steps, j);
    PinnedWhile(trace[j], r);
  }

  /** A step is about one request: the others keep their pins, their timers and their places. */
  lemma OthersUntouched(p: Pins, st: Step, q: ReqId)
    requires Enabled(p, st) && st.r != q
    ensures var p' := Apply(p, st);
            && (q in p'.held <==> q in p.held) && (q in p'.running <==> q in p.running) && (q in p'.plain <==> q in p.plain)
            && (q in p'.timers <==> q in p.timers) && (q in p'.phase <==> q in p.phase) && (q in p.phase ==> p'.phase[q] == p.phase[q])
            && (q in p'.releases <==> q in p.releases) && (q in p.releases ==> p'.releases[q] == p.releases[q])
  {
    hide Unpin, At;
  }

  /** The steps are possible one after the other and lead from p to p'. */
  predicate Leads(p: Pins, sts: seq<Step>, p': Pins)
    decreases |sts|
  {
    if sts == [] then p' == p else Enabled(p, sts[0]) && Leads(Apply(p, sts[0]), sts[1..], p')
  }

  lemma LeadsOn(p: Pins, st: Step, p1: Pins, rest: seq<Step>, p': Pins)
    requires Enabled(p, st) && Apply(p, st) == p1 && Leads(p1, rest, p')
    ensures Leads(p, [st] + rest, p')
  {
    hide Enabled, Apply;
    assert ([st] + rest)[1..] == rest;
  }

  lemma LeadsNowhere(p: Pins)
    ensures Leads(p, [], p)
  {
  }

  /** r is new. */
  predicate New(p: Pins, r: ReqId) { r !in p.plain && r !in p.phase && r !in p.held && r !in p.running && r !in p.timers && r !in p.releases }

  /** p with the streamed request r, whose guard is held. */
  function Guarded(p: Pins, r: ReqId, ph: Phase): Pins {
    p.(active := p.active + 1, held := p.held + {r}, timers := p.timers + {r}, phase := p.phase[r := ph])
  }

  /** p with r streaming: the pin is the generator's, and the guard has been released. */
  function Generating(p: Pins, r: ReqId): Pins {
    p.(active := p.active + 1, running := p.running + {r}, phase := p.phase[r := Streaming], releases := p.releases[r := 1])
  }

  /** p after r: the counter is what it was. */
  function After(p: Pins, r: ReqId): Pins { p.(phase := p.phase[r := Over], releases := p.releases[r := 1]) }

  /** The ways in which a streamed request may go: a stream read to its end, an upstream that fails, one that
      refuses, and a client that leaves before or after the refusal. */
  function Ways(r: ReqId, way: nat): seq<Step> {
    match way
    case 0 => [OpenEnds(r, false)] + ([GeneratorStarts(r)] + ([GeneratorEnds(r)] + []))
    case 1 => [OpenFails(r)] + []
    case 2 => [OpenEnds(r, true)] + ([ErrorRead(r)] + [])
    case 3 => [HandlerCancelled(r)] + ([TimerFires(r)] + [])
    case _ => [OpenEnds(r, true)] + ([HandlerCancelled(r)] + ([TimerFires(r)] + []))
  }

  lemma GuardedMoves(p: Pins, r: ReqId)
    requires New(p, r)
    ensures Enabled(p, StreamBegins(r)) && Apply(p, StreamBegins(r)) == Guarded(p, r, Opening)
    ensures var g := Guarded(p, r, Opening);
            && Enabled(g, OpenEnds(r, false)) && Apply(g, OpenEnds(r, false)) == Guarded(p, r, Offered)
            && Enabled(g, OpenEnds(r, true)) && Apply(g, OpenEnds(r, true)) == Guarded(p, r, ReadingError)
            && Enabled(g, HandlerCancelled(r)) && Apply(g, HandlerCancelled(r)) == Guarded(p, r, Over)
    ensures var g := Guarded(p, r, ReadingError); Enabled(g, HandlerCancelled(r)) && Apply(g, HandlerCancelled(r)) == Guarded(p, r, Over)
  {
    assert p.phase[r := Opening][r := Offered] == p.phase[r := Offered];
    assert p.phase[r := Opening][r := ReadingError] == p.phase[r := ReadingError];
    assert p.phase[r := Opening][r := Over] == p.phase[r := Over];
    assert p.phase[r := ReadingError][r := Over] == p.phase[r := Over];
  }

  lemma GuardGoes(p: Pins, r: ReqId, ph: Phase)
    requires New(p, r)
    ensures Release(Guarded(p, r, ph), r) == p.(phase := p.phase[r := ph], releases := p.releases[r := 1])
  {
    assert p.held + {r} - {r} == p.held && p.timers + {r} - {r} == p.timers;
  }

  lemma GuardedEnds(p: Pins, r: ReqId)
    requires New(p, r)
    ensures Enabled(Guarded(p, r, Opening), OpenFails(r)) && Apply(Guarded(p, r, Opening), OpenFails(r)) == After(p, r)
    ensures Enabled(Guarded(p, r, ReadingError), ErrorRead(r)) && Apply(Guarded(p, r, ReadingError), ErrorRead(r)) == After(p, r)
    ensures Enabled(Guarded(p, r, Over), TimerFires(r)) && Apply(Guarded(p, r, Over), TimerFires(r)) == After(p, r)
  {
    GuardGoes(p, r, Opening);
    GuardGoes(p, r, ReadingError);
    GuardGoes(p, r, Over);
    hide Release;
    assert p.phase[r := Opening][r := Over] == p.phase[r := Over] && p.phase[r := ReadingError][r := Over] == p.phase[r := Over];
    assert p.timers - {r} == p.timers;
  }

  lemma GeneratorGoes(p: Pins, r: ReqId)
    requires New(p, r)
    ensures Enabled(Guarded(p, r, Offered), GeneratorStarts(r)) && Apply(Guarded(p, r, Offered), GeneratorStarts(r)) == Generating(p, r)
    ensures Enabled(Generating(p, r), GeneratorEnds(r)) && Apply(Generating(p, r), GeneratorEnds(r)) == After(p, r)
  {
    assert p.held + {r} - {r} == p.held && p.timers + {r} - {r} == p.timers && p.running + {r} - {r} == p.running;
    assert p.phase[r := Offered][r := Streaming] == p.phase[r := Streaming] && p.phase[r := Streaming][r := Over] == p.phase[r := Over];
  }

  lemma NewFacts(p: Pins, r: ReqId)
    requires Inv(p) && r !in p.plain && r !in p.phase
    ensures New(p, r)
  {
    assert ReqOk(p, r);
  }

  /** However a streamed request goes, it is possible in every reachable state, and when it is over the counter and
      the timers are what they were and its guard was released once. */
  lemma EveryWayReleases(p: Pins, r: ReqId, way: nat)
    requires Inv(p) && r !in p.plain && r !in p.phase && way < 5
    ensures Leads(p, [StreamBegins(r)] + Ways(r, way), After(p, r))
  {
    NewFacts(p, r);
    hide Inv, Enabled, Apply, Leads, Guarded, Generating, After, New;
    GuardedMoves(p, r);
    GuardedEnds(p, r);
    GeneratorGoes(p, r);
    var opening, reading, over, end := Guarded(p, r, Opening), Guarded(p, r, ReadingError), Guarded(p, r, Over), After(p, r);
    LeadsNowhere(end);
    if way == 0 {
      LeadsOn(Generating(p, r), GeneratorEnds(r), end, [], end);
      LeadsOn(Guarded(p, r, Offered), GeneratorStarts(r), Generating(p, r), [GeneratorEnds(r)] + [], end);
      LeadsOn(opening, OpenEnds(r, false), Guarded(p, r, Offered), [GeneratorStarts(r)] + ([GeneratorEnds(r)] + []), end);
    } else if way == 1 {
      LeadsOn(opening, OpenFails(r), end, [], end);
    } else if way == 2 {
      LeadsOn(reading, ErrorRead(r), end, [], end);
      LeadsOn(opening, OpenEnds(r, true), reading, [ErrorRead(r)] + [], end);
    } else {
      LeadsOn(over, TimerFires(r), end, [], end);
      if way == 3 {
        LeadsOn(opening, HandlerCancelled(r), over, [TimerFires(r)] + [], end);
      } else {
        LeadsOn(reading, HandlerCancelled(r), over, [TimerFires(r)] + [], end);
        LeadsOn(opening, OpenEnds(r, true), reading, [HandlerCancelled(r)] + ([TimerFires(r)] + []), end);
      }
    }
    LeadsOn(p, StreamBegins(r), opening, Ways(r, way), end);
  }

  /** A plain request pins while it runs, and no longer. */
  lemma PlainReleases(p: Pins, r: ReqId)
    requires Inv(p) && r !in p.plain && r !in p.phase
    ensures Leads(p, [PlainBegins(r)] + ([PlainEnds(r)] + []), p) && Apply(p, PlainBegins(r)).active == p.active + 1
  {
    var p1 := p.(active := p.active + 1, plain := p.plain + {r});
    assert p.plain + {r} - {r} == p.plain;
    assert Enabled(p1, PlainEnds(r)) && Apply(p1, PlainEnds(r)) == p;
    hide Inv, Leads;
    LeadsNowhere(p);
    LeadsOn(p1, PlainEnds(r), p, [], p);
    LeadsOn(p, PlainBegins(r), p1, [PlainEnds(r)] + [], p);
  }

  /** What upstream has answered to r: nothing, a refusal, or a stream. */
  predicate HasRefused(p: Pins, r: ReqId) { At(p, r, ReadingError) || At(p, r, Over) }

  lemma RefusedStep(p: Pins, st: Step, r: ReqId)
    requires Enabled(p, st) && HasRefused(p, r)
    ensures HasRefused(Apply(p, st), r)
  {
    hide Unpin;
  }

  /** A request that upstream has refused never streams. */
  lemma {:induction false} RefusedNeverStreams(trace: seq<Pins>, steps: seq<Step>, i: nat, j: nat, r: ReqId)
    requires Run(trace, steps) && i < j <= |steps| && steps[i] == OpenEnds(r, true)
    ensures HasRefused(trace[j], r) && r !in trace[j].running && (j < |steps| ==> steps[j] != GeneratorStarts(r))
  {
    hide Inv, ReqOk;
    if i + 1 < j {
      RefusedNeverStreams(trace, steps, i, j - 1, r);
      RefusedStep(trace[j - 1], steps[j - 1], r);
      assert trace[j - 1 + 1] == Apply(trace[j - 1], steps[j - 1]);
    } else {
      assert trace[i + 1] == Apply(trace[i], steps[i]);
    }
    RunKeepsInv(trace, steps, j);
    StreamingRuns(trace[j], r);
    if j < |steps| { assert Enabled(trace[j], steps[j]); }
  }

  lemma StreamingRuns(p: Pins, r: ReqId)
    requires Inv(p)
    ensures r in p.running <==> At(p, r, Streaming)
  {
    assert ReqOk(p, r);
  }

  predicate IsOffered(p: Pins, r: ReqId) { At(p, r, Offered) || At(p, r, Streaming) }

  lemma OfferedStep(p: Pins, st: Step, r: ReqId)
    requires Enabled(p, st) && IsOffered(Apply(p, st), r) && st != OpenEnds(r, false)
    ensures IsOffered(p, r)
  {
    hide Unpin;
  }

  /** ... and only one to which upstream has answered with a stream does. */
  lemma {:induction false} OnlyAnsweredStreams(trace: seq<Pins>, steps: seq<Step>, j: nat, r: ReqId)
    requires Run(trace, steps) && j <= |steps| && IsOffered(trace[j], r)
    ensures exists i :: 0 <= i < j && steps[i] == OpenEnds(r, false)
  {
    hide IsOffered, Apply, Enabled;
    if j == 0 {
      NoneOffered(r);
    } else {
      assert trace[j - 1 + 1] == Apply(trace[j - 1], steps[j - 1]);
      if steps[j - 1] != OpenEnds(r, false) {
        OfferedStep(trace[j - 1], steps[j - 1], r);
        OnlyAnsweredStreams(trace, steps, j - 1, r);
      }
    }
  }

  lemma NoneOffered(r: ReqId)
    ensures !IsOffered(NONE, r)
  {
  }

  /** The closures of one streamed request, on its manager. */
  class GuardedStream {
    const manager: L.ServerManager
    var guardReleased: bool
    var timerArmed: bool

    ghost predicate Valid()
      reads this
    {
      timerArmed <==> !guardReleased
    }

    constructor (manager: L.ServerManager)
      modifies manager
      ensures this.manager == manager && Valid() && !guardReleased
      ensures manager.Abs() == L.Apply(old(manager.Abs()), L.Pin)
    {
      this.manager := manager;
      guardReleased, timerArmed := false, true;
      new;
      manager.PinRequest();
    }

    /** Idempotent: the second call, from whatever path, changes nothing. */
    method ReleaseStreamGuard(now: nat)
      requires Valid()
      modifies this, manager
      ensures Valid() && guardReleased
      ensures manager.Abs() == if old(guardReleased) then old(manager.Abs()) else L.Apply(old(manager.Abs()), L.Unpin(now))
    {
      if guardReleased { return; }
      guardReleased := true;
      timerArmed := false;
      var _ := manager.UnpinRequest(now);
    }

    /** The timer: a request whose generator never started. */
    method CloseUnclaimedStream(now: nat)
      requires Valid()
      modifies this, manager
      ensures Valid() && guardReleased
      ensures manager.Abs() == if old(guardReleased) then old(manager.Abs()) else L.Apply(old(manager.Abs()), L.Unpin(now))
    {
      if guardReleased { return; }
      ReleaseStreamGuard(now);
    }

    /** The first steps of the generator: its own pin, then the guard. */
    method StartGenerator(now: nat)
      requires Valid()
      modifies this, manager
      ensures Valid() && guardReleased
      ensures var s := L.Apply(old(manager.Abs()), L.Pin);
              manager.Abs() == if old(guardReleased) then s else L.Apply(s, L.Unpin(now))
      // The guard is handed over without the counter passing through zero.
      ensures manager.activeRequests == old(manager.activeRequests) + if old(guardReleased) then 1 else 0
    {
      manager.PinRequest();
      ReleaseStreamGuard(now);
    }
  }
}
