/** Applying a bootstrap plan (gateway/bootstrap/applier.py): which proofs a run has gathered, when a model
  is opened provisionally, confirmed or compensated, over every way the executors, the writer of
  models.yaml and the gateway may answer, fail, raise, lose their reply or be cancelled. */
module Applier {
  type Name(==, !new)

  datatype Option<+T> = None | Some(value: T)

  datatype Mode = Apply | DryRun
  datatype Status = Done | Already | WouldApply | Skipped | Failed

  /** A call that returns a status, raises an exception, or is cancelled. */
  datatype Call = Returns(status: Status) | Raises | Cancels

  /** A call of the gateway: answered; failed or without an answer, whether or not the gateway acted; cancelled. */
  datatype Sync = Answered | Lost(landed: bool) | Cut(landed: bool)

  // ---------------------------------------------------------------- the ledger of proofs

  datatype Ledger = Ledger(
    calibrations: set<Name>, smokes: set<Name>, supplied: set<Name>, provisional: set<Name>, awaiting: set<Name>)

  /** A complete proof: supplied, or both halves recorded by this run. */
  predicate InLedger(l: Ledger, m: Name) { (m in l.calibrations && m in l.smokes) || m in l.supplied }

  function MarkProvisional(l: Ledger, m: Name): Ledger {
    l.(provisional := l.provisional + {m}, awaiting := l.awaiting + {m})
  }

  function Cleared(l: Ledger, m: Name): Ledger {
    l.(provisional := l.provisional - {m}, awaiting := l.awaiting - {m})
  }

  datatype Event = CalibrationDone(m: Name) | SmokeDone(m: Name) | Opened(m: Name) | FinalEnable(m: Name)

  /** open: the models the gateway may be serving because of this run, without an acknowledged confirmation;
      disk: the models whose entry in models.yaml this run has enabled and not disabled again; loose: the
      models whose writer was let go by a cancellation, so that its thread may still enable the entry. */
  datatype World = World(l: Ledger, open: set<Name>, disk: set<Name>, loose: set<Name>, log: seq<Event>)

  function Logged(w: World, e: Event): World { w.(log := w.log + [e]) }

  /** A writer that reports success has written; one that raises or is cancelled may have. */
  predicate Wrote(writer: Call, written: bool) {
    match writer
    case Returns(status) => status == Done
    case _ => written
  }

  function EnabledOnDisk(w: World, m: Name, wrote: bool): World { if wrote then w.(disk := w.disk + {m}) else w }

  function DisabledOnDisk(w: World, m: Name, off: bool): World { if off then w.(disk := w.disk - {m}) else w }

  // ---------------------------------------------------------------- compensation

  /** writer: the file, written even if the call raises or is cancelled; digest: the writer reports the
      published digest; sync: the gateway. */
  datatype RollbackScript = RollbackScript(writer: Call, written: bool, digest: bool, sync: Sync)

  datatype Compensation = Safe | NotSafe(failed: bool) | Broken

  /** The entry is disabled, or was found disabled. */
  predicate Disables(s: RollbackScript) { Wrote(s.writer, s.written) || s.writer == Returns(Already) }

  function Rollback(w: World, mode: Mode, m: Name, s: RollbackScript): (World, Compensation) {
    CloseGateway(DisabledOnDisk(w, m, Disables(s)), mode, m, s)
  }

  /** _rollback_provisional after the writer's thread has ended: the marker is dropped only after the file
      and the gateway are both closed. */
  function CloseGateway(w: World, mode: Mode, m: Name, s: RollbackScript): (World, Compensation) {
    match s.writer
    case Cancels => (w, Broken)
    case Raises => (w, NotSafe(true))
    case Returns(status) =>
      if status != Done && status != Already then (w, NotSafe(status == Failed))
      else if mode == DryRun then (w.(l := Cleared(w.l, m)), Safe)
      else if !s.digest then (w, NotSafe(true))
      else (
        match s.sync
        case Answered => (w.(l := Cleared(w.l, m), open := w.open - {m}), Safe)
        case Lost(landed) => (if landed then w.(open := w.open - {m}) else w, NotSafe(true))
        case Cut(landed) => (if landed then w.(open := w.open - {m}) else w, Broken))
  }

  /** How an executor ends: with a status (an exception becomes Failed), or cancelled. */
  datatype End = Ended(status: Status) | Aborted

  /** Compensates, then ends with status unless the compensation itself is cancelled. */
  function Compensate(w: World, mode: Mode, m: Name, s: RollbackScript, end: End): (World, End) {
    var r := Rollback(w, mode, m, s);
    (r.0, if r.1.Broken? then Aborted else end)
  }

  function CompensateIfOpen(w: World, mode: Mode, m: Name, s: RollbackScript, end: End): (World, End) {
    if m in w.l.provisional then Compensate(w, mode, m, s, end) else (w, end)
  }

  // ---------------------------------------------------------------- the executors

  function EndOf(c: Call): End {
    match c
    case Returns(status) => Ended(status)
    case Raises => Ended(Failed)
    case Cancels => Aborted
  }

  /** _capturing_calibration; proof is the model that a usable evidence names. */
  function Calibrate(w: World, inner: Call, proof: Option<Name>): (World, End) {
    if inner != Returns(Done) && inner != Returns(Already) then (w, EndOf(inner))
    else if proof.None? then (w, Ended(Failed))
    else (Logged(w.(l := w.l.(calibrations := w.l.calibrations + {proof.value})), CalibrationDone(proof.value)), EndOf(inner))
  }

  datatype EnableScript = EnableScript(
    writer: Call, written: bool, evidence: bool, activate: Sync, rollback: RollbackScript)

  /** The executor that writes on a complete proof: a cancellation does not wait for the end of its thread. */
  function EnableFinally(w: World, mode: Mode, m: Name, s: EnableScript): (World, End) {
    var w1 := Logged(w, FinalEnable(m));
    (if s.writer.Cancels? then (if mode == Apply then w1.(loose := w1.loose + {m}) else w1)
     else EnabledOnDisk(w1, m, Wrote(s.writer, s.written)),
     EndOf(s.writer))
  }

  /** _guarded_enable; the provisional writer never writes. */
  function Enable(w: World, mode: Mode, m: Name, s: EnableScript): (World, End) {
    if InLedger(w.l, m) then EnableFinally(w, mode, m, s)
    else if m in w.l.calibrations then
      if s.writer == Returns(Done) then
        // The marker precedes the network.
        var w1 := Logged(w.(l := MarkProvisional(w.l, m)), Opened(m));
        if mode == DryRun then (w1, Ended(Done))
        else if !s.evidence then Compensate(w1, mode, m, s.rollback, Ended(Failed))
        else (
          match s.activate
          case Answered => (w1.(open := w1.open + {m}), Ended(Done))
          case Lost(landed) =>
            Compensate(if landed then w1.(open := w1.open + {m}) else w1, mode, m, s.rollback, Ended(Failed))
          case Cut(landed) => (if landed then w1.(open := w1.open + {m}) else w1, Aborted))
      else if s.writer == Returns(Already) then (w.(l := w.l.(awaiting := w.l.awaiting + {m})), Ended(Already))
      else (w, EndOf(s.writer))
    else (w, Ended(if mode == DryRun then Skipped else Failed))
  }

  datatype SmokeScript = SmokeScript(
    inner: Call, proof: Option<Name>, confirmation: Call, written: bool, digest: bool, confirm: Sync,
    rollback: RollbackScript)

  /** _capturing_smoke_test */
  function Smoke(w: World, mode: Mode, m: Name, s: SmokeScript): (World, End) {
    if s.inner != Returns(Done) then CompensateIfOpen(w, mode, m, s.rollback, EndOf(s.inner))
    else if s.proof != Some(m) then CompensateIfOpen(w, mode, m, s.rollback, Ended(Failed))
    else
      var w1 := Logged(w.(l := w.l.(smokes := w.l.smokes + {m})), SmokeDone(m));
      if m !in w1.l.awaiting then (w1, Ended(Done))
      else if !InLedger(w1.l, m) then Compensate(w1, mode, m, s.rollback, Ended(Failed))
      else
        // The thread of the confirmation is awaited to its end, cancelled or not.
        var w2 := EnabledOnDisk(Logged(w1, FinalEnable(m)), m, Wrote(s.confirmation, s.written));
        if s.confirmation.Cancels? then CompensateIfOpen(w2, mode, m, s.rollback, Aborted)
        else if s.confirmation.Raises? || s.confirmation.status == Failed then
          CompensateIfOpen(w2, mode, m, s.rollback, Ended(Failed))
        else if mode == Apply && m in w2.l.provisional then
          if s.digest && s.confirm.Answered? then (w2.(l := Cleared(w2.l, m), open := w2.open - {m}), Ended(Done))
          else if s.digest && s.confirm.Cut? then (w2, Aborted)
          else Compensate(w2, mode, m, s.rollback, Ended(Failed))
        else (w2.(l := Cleared(w2.l, m)), Ended(Done))
  }

  // ---------------------------------------------------------------- the plan

  datatype Step = CalibrateModel(m: Name) | EnableModel(m: Name) | SmokeTest(m: Name) | OtherStep

  datatype Script =
    | ForCalibrate(inner: Call, proof: Option<Name>)
    | ForEnable(e: EnableScript)
    | ForSmoke(s: SmokeScript)
    | ForOther(other: Call)

  predicate Fits(st: Step, sc: Script) {
    match st
    case CalibrateModel(_) => sc.ForCalibrate?
    case EnableModel(_) => sc.ForEnable?
    case SmokeTest(_) => sc.ForSmoke?
    case OtherStep => sc.ForOther?
  }

  function Execute(w: World, mode: Mode, st: Step, sc: Script): (World, End)
    requires Fits(st, sc)
  {
    match st
    case CalibrateModel(_) => Calibrate(w, sc.inner, sc.proof)
    case EnableModel(m) => Enable(w, mode, m, sc.e)
    case SmokeTest(m) => Smoke(w, mode, m, sc.s)
    case OtherStep => (w, EndOf(sc.other))
  }

  /** A status that contradicts the mode is a failure. */
  function Guard(mode: Mode, s: Status): Status {
    if (mode == DryRun && s == Done) || (mode == Apply && s == WouldApply) then Failed else s
  }

  datatype RunEnd = Ran(results: seq<Status>) | Interrupted

  /** execute_plan: the first failure stops the sequence; a cancellation goes through. */
  function Run(w: World, mode: Mode, steps: seq<Step>, scripts: seq<Script>): (World, RunEnd)
    requires |steps| == |scripts| && forall i :: 0 <= i < |steps| ==> Fits(steps[i], scripts[i])
    decreases |steps|
  {
    if steps == [] then (w, Ran([]))
    else
      var r := Execute(w, mode, steps[0], scripts[0]);
      if r.1.Aborted? then (r.0, Interrupted)
      else
        var status := Guard(mode, r.1.status);
        if status == Failed then (r.0, Ran([Failed]))
        else
          var rest := Run(r.0, mode, steps[1..], scripts[1..]);
          (rest.0, if rest.1.Interrupted? then Interrupted else Ran([status] + rest.1.results))
  }

  datatype CleanEnd = Cleaned(failures: nat) | CleaningCut

  /** The finally block: every model that is still provisional is compensated. */
  function Clean(w: World, mode: Mode, ms: seq<Name>, scripts: seq<RollbackScript>): (World, CleanEnd)
    requires |ms| == |scripts|
    decreases |ms|
  {
    if ms == [] then (w, Cleaned(0))
    else
      var r := Rollback(w, mode, ms[0], scripts[0]);
      if r.1.Broken? then (r.0, CleaningCut)
      else
        var rest := Clean(r.0, mode, ms[1..], scripts[1..]);
        (rest.0, if rest.1.CleaningCut? then rest.1
                 else Cleaned(rest.1.failures + if r.1.NotSafe? && r.1.failed then 1 else 0))
  }

  datatype Result = Outcome(results: seq<Status>) | ApplierError | Cancelled

  /** apply_loaded_plan after its preflight checks. */
  function ApplyPlan(w: World, mode: Mode, steps: seq<Step>, scripts: seq<Script>, ms: seq<Name>,
                     cleanup: seq<RollbackScript>): (World, Result)
    requires |steps| == |scripts| && (forall i :: 0 <= i < |steps| ==> Fits(steps[i], scripts[i])) && |ms| == |cleanup|
  {
    var run := Run(w, mode, steps, scripts);
    var clean := Clean(run.0, mode, ms, cleanup);
    (clean.0,
     if clean.1.CleaningCut? then Cancelled
     else if clean.1.failures > 0 then ApplierError
     else if run.1.Interrupted? then Cancelled
     else Outcome(run.1.results))
  }

  // ---------------------------------------------------------------- what every step keeps

  /** What the writer of models.yaml promises: a simulation never writes, and a real rollback either writes,
      finds the entry disabled, or fails. */
  predicate LawfulRollback(mode: Mode, s: RollbackScript) {
    && (s.writer.Returns? && mode == Apply ==> s.writer.status in {Done, Already, Failed})
    && (mode == DryRun ==> !Wrote(s.writer, s.written))
  }

  predicate Lawful(mode: Mode, sc: Script) {
    match sc
    case ForEnable(e) => (mode == DryRun ==> !Wrote(e.writer, e.written)) && LawfulRollback(mode, e.rollback)
    case ForSmoke(s) => (mode == DryRun ==> !Wrote(s.confirmation, s.written)) && LawfulRollback(mode, s.rollback)
    case _ => true
  }

  /** Both halves were recorded before position k. */
  ghost predicate ProvedBefore(log: seq<Event>, supplied: set<Name>, m: Name, k: nat)
    requires k <= |log|
  {
    m in supplied || (CalibrationDone(m) in log[..k] && SmokeDone(m) in log[..k])
  }

  ghost predicate Inv(w: World, mode: Mode) {
    && w.open <= w.l.provisional
    && (mode == DryRun ==> w.l.provisional == {} && w.disk == {} && w.loose == {})
    && (forall m :: m in w.disk || m in w.loose ==> FinalEnable(m) in w.log && InLedger(w.l, m))
    && (forall m :: m in w.l.calibrations ==> CalibrationDone(m) in w.log)
    && (forall m :: m in w.l.smokes ==> SmokeDone(m) in w.log)
    && (forall k :: 0 <= k < |w.log| && w.log[k].FinalEnable? ==> ProvedBefore(w.log, w.l.supplied, w.log[k].m, k))
    && (forall k :: 0 <= k < |w.log| && w.log[k].Opened? ==> CalibrationDone(w.log[k].m) in w.log[..k])
  }

  lemma LogKeeps(w: World, mode: Mode, e: Event)
    requires Inv(w, mode)
    requires e.FinalEnable? ==> InLedger(w.l, e.m)
    requires e.Opened? ==> CalibrationDone(e.m) in w.log
    ensures Inv(Logged(w, e), mode)
    ensures forall x :: x in w.log ==> x in Logged(w, e).log
    ensures e in Logged(w, e).log && Logged(w, e).l == w.l
  {
    var log := w.log + [e];
    assert log[|w.log|] == e;
    forall k | 0 <= k < |log| && log[k].FinalEnable? ensures ProvedBefore(log, w.l.supplied, log[k].m, k) {
      assert log[..k] == w.log[..k];
      if k == |w.log| { assert w.log[..k] == w.log; }
    }
    forall k | 0 <= k < |log| && log[k].Opened? ensures CalibrationDone(log[k].m) in log[..k] {
      assert log[..k] == w.log[..k];
      if k == |w.log| { assert w.log[..k] == w.log; }
    }
  }

  lemma DisabledKeeps(w: World, mode: Mode, m: Name, off: bool)
    requires Inv(w, mode)
    ensures Inv(DisabledOnDisk(w, m, off), mode)
  {
  }

  lemma ClosedKeeps(w: World, mode: Mode, m: Name, s: RollbackScript)
    requires Inv(w, mode)
    ensures Inv(CloseGateway(w, mode, m, s).0, mode)
  {
  }

  lemma RollbackKeeps(w: World, mode: Mode, m: Name, s: RollbackScript)
    requires Inv(w, mode)
    ensures Inv(Rollback(w, mode, m, s).0, mode)
    ensures var r := Rollback(w, mode, m, s);
            && r.0.l.provisional <= w.l.provisional && r.0.l.provisional + {m} >= w.l.provisional
            && r.0.disk <= w.disk && r.0.loose == w.loose
            && (r.1 == Safe ==> m !in r.0.l.provisional && m !in r.0.disk)
  {
    hide Inv;
    DisabledKeeps(w, mode, m, Disables(s));
    ClosedKeeps(DisabledOnDisk(w, m, Disables(s)), mode, m, s);
  }

  lemma CalibrateKeeps(w: World, mode: Mode, inner: Call, proof: Option<Name>)
    requires Inv(w, mode)
    ensures Inv(Calibrate(w, inner, proof).0, mode)
  {
    if proof.Some? { LogKeeps(w, mode, CalibrationDone(proof.value)); }
  }

  lemma CompensateKeeps(w: World, mode: Mode, m: Name, s: RollbackScript, end: End)
    requires Inv(w, mode)
    ensures Inv(Compensate(w, mode, m, s, end).0, mode) && Inv(CompensateIfOpen(w, mode, m, s, end).0, mode)
  {
    hide Inv;
    RollbackKeeps(w, mode, m, s);
  }

  lemma OpenedKeeps(w: World, mode: Mode, m: Name)
    requires Inv(w, mode) && m in w.l.calibrations && mode == Apply
    ensures var w1 := Logged(w.(l := MarkProvisional(w.l, m)), Opened(m));
            Inv(w1, mode) && Inv(w1.(open := w1.open + {m}), mode)
  {
    LogKeeps(w, mode, Opened(m));
  }

  lemma AwaitingKeeps(w: World, mode: Mode, m: Name)
    requires Inv(w, mode)
    ensures Inv(w.(l := w.l.(awaiting := w.l.awaiting + {m})), mode)
  {
  }

  lemma EnabledKeeps(w: World, mode: Mode, m: Name, wrote: bool)
    requires Inv(w, mode) && FinalEnable(m) in w.log && InLedger(w.l, m) && (mode == DryRun ==> !wrote)
    ensures Inv(EnabledOnDisk(w, m, wrote), mode) && (mode == Apply ==> Inv(w.(loose := w.loose + {m}), mode))
  {
  }

  lemma EnableFinallyKeeps(w: World, mode: Mode, m: Name, s: EnableScript)
    requires Inv(w, mode) && InLedger(w.l, m) && (mode == DryRun ==> !Wrote(s.writer, s.written))
    ensures Inv(EnableFinally(w, mode, m, s).0, mode)
  {
    hide Inv, Logged, EnabledOnDisk, InLedger;
    LogKeeps(w, mode, FinalEnable(m));
    EnabledKeeps(Logged(w, FinalEnable(m)), mode, m, Wrote(s.writer, s.written));
  }

  lemma EnableKeeps(w: World, mode: Mode, m: Name, s: EnableScript)
    requires Inv(w, mode) && Lawful(mode, ForEnable(s))
    ensures Inv(Enable(w, mode, m, s).0, mode)
  {
    hide Inv, Compensate, Logged, MarkProvisional, EnableFinally, EnabledOnDisk;
    if InLedger(w.l, m) {
      EnableFinallyKeeps(w, mode, m, s);
    } else if m in w.l.calibrations && s.writer == Returns(Done) {
      OpenedKeeps(w, mode, m);
      var w1 := Logged(w.(l := MarkProvisional(w.l, m)), Opened(m));
      CompensateKeeps(w1, mode, m, s.rollback, Ended(Failed));
      CompensateKeeps(w1.(open := w1.open + {m}), mode, m, s.rollback, Ended(Failed));
    } else {
      AwaitingKeeps(w, mode, m);
    }
  }

  lemma SmokeRecorded(w: World, mode: Mode, m: Name)
    requires Inv(w, mode)
    ensures Inv(Logged(w.(l := w.l.(smokes := w.l.smokes + {m})), SmokeDone(m)), mode)
  {
    LogKeeps(w, mode, SmokeDone(m));
  }

  lemma ClearedKeeps(w: World, mode: Mode, m: Name)
    requires Inv(w, mode)
    ensures Inv(w.(l := Cleared(w.l, m), open := w.open - {m}), mode)
    ensures mode == DryRun || m !in w.l.provisional ==> Inv(w.(l := Cleared(w.l, m)), mode)
  {
  }

  lemma EnabledLedger(w: World, m: Name, wrote: bool)
    ensures EnabledOnDisk(w, m, wrote).l == w.l && EnabledOnDisk(w, m, wrote).loose == w.loose
  {
  }

  lemma SmokeKeeps(w: World, mode: Mode, m: Name, s: SmokeScript)
    requires Inv(w, mode) && Lawful(mode, ForSmoke(s))
    ensures Inv(Smoke(w, mode, m, s).0, mode)
  {
    hide Inv, Compensate, CompensateIfOpen, Logged, Cleared, EnabledOnDisk;
    CompensateKeeps(w, mode, m, s.rollback, EndOf(s.inner));
    CompensateKeeps(w, mode, m, s.rollback, Ended(Failed));
    SmokeRecorded(w, mode, m);
    var w1 := Logged(w.(l := w.l.(smokes := w.l.smokes + {m})), SmokeDone(m));
    CompensateKeeps(w1, mode, m, s.rollback, Ended(Failed));
    if InLedger(w1.l, m) {
      LogKeeps(w1, mode, FinalEnable(m));
      EnabledKeeps(Logged(w1, FinalEnable(m)), mode, m, Wrote(s.confirmation, s.written));
      var w2 := EnabledOnDisk(Logged(w1, FinalEnable(m)), m, Wrote(s.confirmation, s.written));
      EnabledLedger(Logged(w1, FinalEnable(m)), m, Wrote(s.confirmation, s.written));
      CompensateKeeps(w2, mode, m, s.rollback, Aborted);
      CompensateKeeps(w2, mode, m, s.rollback, Ended(Failed));
      ClearedKeeps(w2, mode, m);
    }
  }

  lemma ExecuteKeeps(w: World, mode: Mode, st: Step, sc: Script)
    requires Inv(w, mode) && Fits(st, sc) && Lawful(mode, sc)
    ensures Inv(Execute(w, mode, st, sc).0, mode)
  {
    hide Inv, Calibrate, Enable, Smoke;
    match st
    case CalibrateModel(_) => CalibrateKeeps(w, mode, sc.inner, sc.proof);
    case EnableModel(m) => EnableKeeps(w, mode, m, sc.e);
    case SmokeTest(m) => SmokeKeeps(w, mode, m, sc.s);
    case OtherStep =>
  }

  lemma {:induction false} RunKeeps(w: World, mode: Mode, steps: seq<Step>, scripts: seq<Script>)
    requires |steps| == |scripts| && forall i :: 0 <= i < |steps| ==> Fits(steps[i], scripts[i]) && Lawful(mode, scripts[i])
    requires Inv(w, mode)
    ensures Inv(Run(w, mode, steps, scripts).0, mode)
    decreases |steps|
  {
    hide Inv, Execute, Fits, Lawful;
    if steps != [] {
      ExecuteKeeps(w, mode, steps[0], scripts[0]);
      RunKeeps(Execute(w, mode, steps[0], scripts[0]).0, mode, steps[1..], scripts[1..]);
    }
  }

  /** Cleaning up without a failure leaves nothing of ms provisional. */
  lemma {:induction false} CleanKeeps(w: World, mode: Mode, ms: seq<Name>, scripts: seq<RollbackScript>)
    requires |ms| == |scripts| && (forall i :: 0 <= i < |scripts| ==> LawfulRollback(mode, scripts[i])) && Inv(w, mode)
    ensures var r := Clean(w, mode, ms, scripts);
            && Inv(r.0, mode) && r.0.l.provisional <= w.l.provisional && r.0.disk <= w.disk && r.0.loose == w.loose
            && (mode == Apply && r.1 == Cleaned(0) ==> forall m :: m in ms ==> m !in r.0.l.provisional && m !in r.0.disk)
    decreases |ms|
  {
    hide Inv;
    if ms != [] {
      RollbackKeeps(w, mode, ms[0], scripts[0]);
      CleanKeeps(Rollback(w, mode, ms[0], scripts[0]).0, mode, ms[1..], scripts[1..]);
    }
  }

  predicate Begins(w: World) {
    w.open == {} && w.disk == {} && w.loose == {} && w.log == [] && w.l.calibrations == {} && w.l.smokes == {} && w.l.provisional == {} && w.l.awaiting == {}
  }

  lemma BeginHasInv(w: World, mode: Mode)
    requires Begins(w)
    ensures Inv(w, mode)
  {
  }

  /** Whatever the executors, the writer, the gateway and cancellations do: an outcome is returned only
      with no provisional model left, and with no model that the gateway may still be serving without an
      acknowledged confirmation; any other end is an error or a cancellation. */
  lemma OutcomeLeavesNothingProvisional(w: World, mode: Mode, steps: seq<Step>, scripts: seq<Script>, ms: seq<Name>,
                                        cleanup: seq<RollbackScript>)
    requires |steps| == |scripts| && forall i :: 0 <= i < |steps| ==> Fits(steps[i], scripts[i]) && Lawful(mode, scripts[i])
    requires |ms| == |cleanup| && forall i :: 0 <= i < |cleanup| ==> LawfulRollback(mode, cleanup[i])
    requires Begins(w) && (forall m :: m in ms <==> m in Run(w, mode, steps, scripts).0.l.provisional)
    requires ApplyPlan(w, mode, steps, scripts, ms, cleanup).1.Outcome?
    ensures var w' := ApplyPlan(w, mode, steps, scripts, ms, cleanup).0;
            w'.l.provisional == {} && w'.open == {}
  {
    RunKeeps(w, mode, steps, scripts);
    CleanKeeps(Run(w, mode, steps, scripts).0, mode, ms, cleanup);
  }

  /** Final activation is called for a model only with a supplied proof, or after this run recorded both
      halves for that model from successful steps; a model is opened provisionally only after its calibration. */
  lemma FinalActivationIsProved(w: World, mode: Mode, steps: seq<Step>, scripts: seq<Script>, ms: seq<Name>,
                                cleanup: seq<RollbackScript>, k: nat)
    requires |steps| == |scripts| && forall i :: 0 <= i < |steps| ==> Fits(steps[i], scripts[i]) && Lawful(mode, scripts[i])
    requires |ms| == |cleanup| && forall i :: 0 <= i < |cleanup| ==> LawfulRollback(mode, cleanup[i])
    requires Begins(w)
    requires k < |ApplyPlan(w, mode, steps, scripts, ms, cleanup).0.log|
    ensures var w' := ApplyPlan(w, mode, steps, scripts, ms, cleanup).0; var e := w'.log[k];
            && (e.FinalEnable? ==> ProvedBefore(w'.log, w'.l.supplied, e.m, k))
            && (e.Opened? ==> CalibrationDone(e.m) in w'.log[..k])
  {
    RunKeeps(w, mode, steps, scripts);
    CleanKeeps(Run(w, mode, steps, scripts).0, mode, ms, cleanup);
  }

  /** Compensation, exactly: a model stops being provisional if and only if the file is closed (written or
      found disabled) and, when applying, the gateway has answered. */
  lemma CompensationIsExact(w: World, mode: Mode, m: Name, s: RollbackScript)
    requires m in w.l.provisional
    ensures var r := Rollback(w, mode, m, s);
            && (m !in r.0.l.provisional <==>
                  s.writer in {Returns(Done), Returns(Already)} && (mode == Apply ==> s.digest && s.sync == Answered))
            && (m !in r.0.l.provisional <==> r.1 == Safe) && (m !in r.0.l.provisional ==> m !in r.0.disk)
            && r.0.log == w.log && r.0.l.calibrations == w.l.calibrations && r.0.l.smokes == w.l.smokes
  {
  }

  // ---------------------------------------------------------------- models.yaml after a run that was cut

  /** A provisional model waits for its confirmation and is not proved yet. */
  predicate Unproved(l: Ledger) { forall m :: m in l.provisional ==> m in l.awaiting && m !in l.smokes && m !in l.supplied }

  /** The step is cut while it enables m on a complete proof: nobody waits for the thread of its writer. */
  predicate LetsGo(w: World, mode: Mode, st: Step, sc: Script, m: Name)
    requires Fits(st, sc)
  {
    mode == Apply && st == EnableModel(m) && sc.e.writer.Cancels? && InLedger(w.l, m)
  }

  /** What a step that did not let a writer go leaves. */
  predicate Settled(w: World, mode: Mode, end: End) {
    w.loose == {} && (end.Ended? && Guard(mode, end.status) != Failed ==> Unproved(w.l))
  }

  lemma CompensateSettles(w: World, mode: Mode, m: Name, s: RollbackScript, end: End)
    requires w.loose == {} && (Unproved(w.l) || end.Aborted? || end == Ended(Failed))
    ensures var r := Compensate(w, mode, m, s, end); Settled(r.0, mode, r.1)
    ensures var r := CompensateIfOpen(w, mode, m, s, end); Settled(r.0, mode, r.1)
  {
  }

  lemma EnableSettles(w: World, mode: Mode, m: Name, s: EnableScript)
    requires Unproved(w.l) && w.loose == {} && !(mode == Apply && s.writer.Cancels? && InLedger(w.l, m))
    ensures var r := Enable(w, mode, m, s); Settled(r.0, mode, r.1)
  {
    hide Compensate;
    var w1 := Logged(w.(l := MarkProvisional(w.l, m)), Opened(m));
    CompensateSettles(w1, mode, m, s.rollback, Ended(Failed));
    CompensateSettles(w1.(open := w1.open + {m}), mode, m, s.rollback, Ended(Failed));
  }

  lemma SmokeSettles(w: World, mode: Mode, m: Name, s: SmokeScript)
    requires Unproved(w.l) && w.loose == {}
    ensures var r := Smoke(w, mode, m, s); Settled(r.0, mode, r.1)
  {
    hide Compensate, CompensateIfOpen, InLedger;
    CompensateSettles(w, mode, m, s.rollback, EndOf(s.inner));
    CompensateSettles(w, mode, m, s.rollback, Ended(Failed));
    var w1 := Logged(w.(l := w.l.(smokes := w.l.smokes + {m})), SmokeDone(m));
    CompensateSettles(w1, mode, m, s.rollback, Ended(Failed));
    var w2 := EnabledOnDisk(Logged(w1, FinalEnable(m)), m, Wrote(s.confirmation, s.written));
    CompensateSettles(w2, mode, m, s.rollback, Aborted);
    CompensateSettles(w2, mode, m, s.rollback, Ended(Failed));
  }

  /** A writer is let go exactly in that case, and its model is not provisional. */
  lemma ExecuteSettles(w: World, mode: Mode, st: Step, sc: Script)
    requires Unproved(w.l) && w.loose == {} && Fits(st, sc)
    ensures var r := Execute(w, mode, st, sc);
            && (forall m :: m in r.0.loose <==> LetsGo(w, mode, st, sc, m))
            && r.0.loose !! r.0.l.provisional && (r.0.loose != {} ==> r.1.Aborted?)
            && (r.1.Ended? && Guard(mode, r.1.status) != Failed ==> Unproved(r.0.l))
  {
    hide Enable, Smoke;
    match st
    case CalibrateModel(_) =>
    case EnableModel(m) =>
      if LetsGo(w, mode, st, sc, m) { LetGo(w, mode, m, sc.e); } else { EnableSettles(w, mode, m, sc.e); }
    case SmokeTest(m) => SmokeSettles(w, mode, m, sc.s);
    case OtherStep =>
  }

  lemma LetGo(w: World, mode: Mode, m: Name, s: EnableScript)
    requires Unproved(w.l) && w.loose == {} && mode == Apply && s.writer.Cancels? && InLedger(w.l, m)
    ensures var r := Enable(w, mode, m, s); r.1.Aborted? && r.0.loose == {m} && r.0.l == w.l && m !in w.l.provisional
  {
  }

  /** The run comes to step i in state u, and that step is cut. */
  ghost predicate CutAt(w: World, mode: Mode, steps: seq<Step>, scripts: seq<Script>, i: nat, u: World)
    requires |steps| == |scripts| && forall j :: 0 <= j < |steps| ==> Fits(steps[j], scripts[j])
    requires i < |steps|
    decreases i
  {
    var r := Execute(w, mode, steps[0], scripts[0]);
    if i == 0 then u == w && r.1.Aborted?
    else r.1.Ended? && Guard(mode, r.1.status) != Failed && CutAt(r.0, mode, steps[1..], scripts[1..], i - 1, u)
  }

  lemma {:induction false} CutInterrupts(w: World, mode: Mode, steps: seq<Step>, scripts: seq<Script>, i: nat, u: World)
    requires |steps| == |scripts| && forall j :: 0 <= j < |steps| ==> Fits(steps[j], scripts[j]) && Lawful(mode, scripts[j])
    requires i < |steps| && CutAt(w, mode, steps, scripts, i, u) && Unproved(w.l) && w.loose == {} && Inv(w, mode)
    ensures Run(w, mode, steps, scripts) == (Execute(u, mode, steps[i], scripts[i]).0, Interrupted)
    ensures Unproved(u.l) && u.loose == {} && Inv(u, mode)
    decreases i
  {
    hide Execute, Fits, Unproved, Inv, Lawful;
    ExecuteSettles(w, mode, steps[0], scripts[0]);
    ExecuteKeeps(w, mode, steps[0], scripts[0]);
    if i > 0 {
      CutInterrupts(Execute(w, mode, steps[0], scripts[0]).0, mode, steps[1..], scripts[1..], i - 1, u);
    }
  }

  lemma {:induction false} RunLetsGo(w: World, mode: Mode, steps: seq<Step>, scripts: seq<Script>)
    requires |steps| == |scripts| && forall j :: 0 <= j < |steps| ==> Fits(steps[j], scripts[j])
    requires Unproved(w.l) && w.loose == {}
    ensures var r := Run(w, mode, steps, scripts);
            && r.0.loose !! r.0.l.provisional && (r.0.loose != {} ==> r.1.Interrupted?)
            && (r.1.Interrupted? ==> exists i: nat, u :: i < |steps| && CutAt(w, mode, steps, scripts, i, u))
    decreases |steps|
  {
    hide Execute, Fits, Unproved;
    if steps != [] {
      var r := Execute(w, mode, steps[0], scripts[0]);
      ExecuteSettles(w, mode, steps[0], scripts[0]);
      if r.1.Aborted? {
        assert CutAt(w, mode, steps, scripts, 0, w);
      } else if Guard(mode, r.1.status) != Failed {
        RunLetsGo(r.0, mode, steps[1..], scripts[1..]);
        if Run(r.0, mode, steps[1..], scripts[1..]).1.Interrupted? {
          var i: nat, u :| i < |steps[1..]| && CutAt(r.0, mode, steps[1..], scripts[1..], i, u);
          assert CutAt(w, mode, steps, scripts, i + 1, u);
        }
      }
    }
  }

  /** What is enabled in models.yaml, or may still be by a thread that was let go, was proved, however the run
      ends; a model that was compensated is in the reach of no such thread, and is disabled on disk, closed in
      the gateway and unmarked whenever the cleaning went through. */
  lemma EnabledOnDiskIsProved(w: World, mode: Mode, steps: seq<Step>, scripts: seq<Script>, ms: seq<Name>,
                              cleanup: seq<RollbackScript>)
    requires |steps| == |scripts| && forall i :: 0 <= i < |steps| ==> Fits(steps[i], scripts[i]) && Lawful(mode, scripts[i])
    requires |ms| == |cleanup| && forall i :: 0 <= i < |cleanup| ==> LawfulRollback(mode, cleanup[i])
    requires Begins(w) && (forall m :: m in ms <==> m in Run(w, mode, steps, scripts).0.l.provisional)
    ensures var w' := ApplyPlan(w, mode, steps, scripts, ms, cleanup).0;
            && (forall m :: m in w'.disk || m in w'.loose ==>
                  exists k: nat :: k < |w'.log| && w'.log[k] == FinalEnable(m) && ProvedBefore(w'.log, w'.l.supplied, m, k))
            && (mode == DryRun ==> w'.disk == {} && w'.loose == {})
            && (forall m :: m in ms ==> m !in w'.loose)
            && (mode == Apply && Clean(Run(w, mode, steps, scripts).0, mode, ms, cleanup).1 == Cleaned(0) ==>
                  forall m :: m in ms ==> m !in w'.disk && m !in w'.open && m !in w'.l.provisional)
  {
    RunKeeps(w, mode, steps, scripts);
    RunLetsGo(w, mode, steps, scripts);
    CleanKeeps(Run(w, mode, steps, scripts).0, mode, ms, cleanup);
    ProvedOnDisk(ApplyPlan(w, mode, steps, scripts, ms, cleanup).0, mode);
  }

  lemma ProvedOnDisk(w: World, mode: Mode)
    requires Inv(w, mode)
    ensures forall m :: m in w.disk || m in w.loose ==>
              exists k: nat :: k < |w.log| && w.log[k] == FinalEnable(m) && ProvedBefore(w.log, w.l.supplied, m, k)
  {
    hide ProvedBefore;
    forall m | m in w.disk || m in w.loose
      ensures exists k: nat :: k < |w.log| && w.log[k] == FinalEnable(m) && ProvedBefore(w.log, w.l.supplied, m, k)
    {
      var k: nat :| k < |w.log| && w.log[k] == FinalEnable(m);
    }
  }

  lemma ProvisionalIsOff(w: World, mode: Mode)
    requires Inv(w, mode) && Unproved(w.l)
    ensures w.disk !! w.l.provisional
  {
  }

  /** Exactly: a run leaves behind a thread that may still enable m if and only if it was cut in a step that
      enables m on a complete proof, and the file that this thread writes back was read with every provisional
      model disabled; a run that returns an outcome leaves none. */
  lemma CutRunLeaves(w: World, mode: Mode, steps: seq<Step>, scripts: seq<Script>, ms: seq<Name>,
                     cleanup: seq<RollbackScript>, m: Name)
    requires |steps| == |scripts| && forall i :: 0 <= i < |steps| ==> Fits(steps[i], scripts[i]) && Lawful(mode, scripts[i])
    requires |ms| == |cleanup| && forall i :: 0 <= i < |cleanup| ==> LawfulRollback(mode, cleanup[i])
    requires Begins(w)
    ensures var r := ApplyPlan(w, mode, steps, scripts, ms, cleanup);
            && (m in r.0.loose <==> exists i: nat, u ::
                  i < |steps| && CutAt(w, mode, steps, scripts, i, u) && LetsGo(u, mode, steps[i], scripts[i], m))
            && (r.1.Outcome? ==> m !in r.0.loose)
    ensures forall i: nat, u :: i < |steps| && CutAt(w, mode, steps, scripts, i, u) ==> u.disk !! u.l.provisional
  {
    hide Execute, Fits, Lawful, Inv, LawfulRollback, CutAt, LetsGo;
    BeginHasInv(w, mode);
    RunKeeps(w, mode, steps, scripts);
    RunLetsGo(w, mode, steps, scripts);
    CleanKeeps(Run(w, mode, steps, scripts).0, mode, ms, cleanup);
    forall i: nat, u | i < |steps| && CutAt(w, mode, steps, scripts, i, u)
      ensures (m in Run(w, mode, steps, scripts).0.loose <==> LetsGo(u, mode, steps[i], scripts[i], m)) && u.disk !! u.l.provisional
    {
      CutInterrupts(w, mode, steps, scripts, i, u);
      ExecuteSettles(u, mode, steps[i], scripts[i]);
      ProvisionalIsOff(u, mode);
    }
  }

  // ---------------------------------------------------------------- what succeeds, exactly

  /** A calibration succeeds exactly if its executor does and its evidence is usable; the proof is then recorded
      for the model that the evidence names, and nothing else changes. */
  lemma CalibrationDecides(w: World, inner: Call, proof: Option<Name>)
    ensures var r := Calibrate(w, inner, proof); var ok := inner in {Returns(Done), Returns(Already)};
            if ok && proof.Some? then
              && r.1 == Ended(inner.status)
              && r.0 == w.(l := w.l.(calibrations := w.l.calibrations + {proof.value}), log := w.log + [CalibrationDone(proof.value)])
            else r.0 == w && (r.1.Ended? ==> r.1.status != Done && r.1.status != Already)
  {
  }

  /** With a complete proof the entry is enabled for good, and the result is the writer's; with a calibration
      alone the model is opened provisionally, which succeeds exactly if the writer allows it, says what is
      published, and the gateway answers; with neither nothing is tried. */
  lemma EnableDecides(w: World, mode: Mode, m: Name, s: EnableScript)
    ensures var r := Enable(w, mode, m, s);
            && (InLedger(w.l, m) ==>
                  && r.1 == EndOf(s.writer) && r.0.l == w.l && r.0.open == w.open && FinalEnable(m) in r.0.log
                  && (s.writer == Returns(Done) ==> r.0.disk == w.disk + {m} && r.0.loose == w.loose))
            && (!InLedger(w.l, m) && m in w.l.calibrations && mode == Apply ==>
                  && (r.1 == Ended(Done) <==> s.writer == Returns(Done) && s.evidence && s.activate == Answered)
                  && (r.1 == Ended(Done) ==>
                        && m in r.0.l.provisional && m in r.0.l.awaiting && m in r.0.open && r.0.disk == w.disk
                        && r.0.l == w.l.(provisional := w.l.provisional + {m}, awaiting := w.l.awaiting + {m}) && r.0.loose == w.loose)
                  && (r.1 == Ended(Already) ==> m in r.0.l.awaiting && r.0.l.provisional == w.l.provisional && r.0.open == w.open))
            && (!InLedger(w.l, m) && m !in w.l.calibrations ==> r == (w, Ended(if mode == Apply then Failed else Skipped)))
  {
  }

  /** The test of a model that is open provisionally, exactly: it succeeds if the recipe does, with a proof of
      that model, and the confirmation is written or was there, says what is published, and the gateway answers;
      the model is then proved, enabled on disk if that was written, and no longer open or marked. */
  lemma SmokeDecides(w: World, m: Name, s: SmokeScript)
    requires m in w.l.provisional && m in w.l.awaiting && m in w.l.calibrations
    ensures var r := Smoke(w, Apply, m, s);
            && (r.1 == Ended(Done) <==>
                  && s.inner == Returns(Done) && s.proof == Some(m) && s.confirmation.Returns? && s.confirmation.status != Failed
                  && s.digest && s.confirm == Answered)
            && (r.1 == Ended(Done) ==>
                  && r.0.l == w.l.(smokes := w.l.smokes + {m}, provisional := w.l.provisional - {m}, awaiting := w.l.awaiting - {m})
                  && InLedger(r.0.l, m) && r.0.open == w.open - {m} && r.0.loose == w.loose
                  && r.0.disk == (if s.confirmation.status == Done then w.disk + {m} else w.disk)
                  && r.0.log == w.log + [SmokeDone(m), FinalEnable(m)])
  {
    assert w.log + [SmokeDone(m)] + [FinalEnable(m)] == w.log + [SmokeDone(m), FinalEnable(m)];
  }

  /** The compensation closes the file and the gateway. */
  predicate Compensates(s: RollbackScript) { (s.writer == Returns(Done) || s.writer == Returns(Already)) && s.digest && s.sync == Answered }

  /** Every other end of that test compensates before it returns, so the model is unmarked exactly if the
      compensation works; only a cancelled confirmation of the gateway leaves that to the end of the run. */
  lemma FailedSmokeCompensates(w: World, m: Name, s: SmokeScript)
    requires m in w.l.provisional && m in w.l.awaiting && m in w.l.calibrations && Smoke(w, Apply, m, s).1 != Ended(Done)
    ensures var r := Smoke(w, Apply, m, s);
            var confirmed := s.inner == Returns(Done) && s.proof == Some(m) && s.confirmation.Returns? && s.confirmation.status != Failed;
            if confirmed && s.digest && s.confirm.Cut? then m in r.0.l.provisional && r.1 == Aborted
            else m !in r.0.l.provisional <==> Compensates(s.rollback)
  {
  }

  /** So does a provisional opening that the gateway does not answer. */
  lemma FailedOpeningCompensates(w: World, m: Name, s: EnableScript)
    requires !InLedger(w.l, m) && m in w.l.calibrations && s.writer == Returns(Done) && !(s.evidence && s.activate == Answered)
    ensures var r := Enable(w, Apply, m, s);
            if s.evidence && s.activate.Cut? then m in r.0.l.provisional && r.1 == Aborted
            else (m !in r.0.l.provisional <==> Compensates(s.rollback)) && r.1 != Ended(Done)
  {
  }

  /** ... and that of one that was enabled before: it is only confirmed, or, if nothing awaits a confirmation,
      only recorded. */
  lemma SmokeOfEnabled(w: World, mode: Mode, m: Name, s: SmokeScript)
    requires m !in w.l.provisional
    ensures var r := Smoke(w, mode, m, s);
            && (m !in w.l.awaiting ==> (r.1 == Ended(Done) <==> s.inner == Returns(Done) && s.proof == Some(m)))
            && (m in w.l.awaiting && (m in w.l.calibrations || m in w.l.supplied) ==>
                  (r.1 == Ended(Done) <==>
                     && s.inner == Returns(Done) && s.proof == Some(m) && s.confirmation.Returns? && s.confirmation.status != Failed))
            && (r.1 == Ended(Done) ==> m in r.0.l.smokes && r.0.open == w.open && r.0.l.provisional == w.l.provisional)
  {
  }

  /** How a whole application ends: cancelled if its cleaning is, an error exactly if a compensation failed, else
      cancelled or with the results as the run was; the first step that fails is the last one. */
  lemma ApplicationDecides(w: World, mode: Mode, steps: seq<Step>, scripts: seq<Script>, ms: seq<Name>, cleanup: seq<RollbackScript>)
    requires |steps| == |scripts| && forall i :: 0 <= i < |steps| ==> Fits(steps[i], scripts[i])
    requires |ms| == |cleanup|
    ensures var r := ApplyPlan(w, mode, steps, scripts, ms, cleanup); var run := Run(w, mode, steps, scripts);
            && (r.1.ApplierError? <==> exists n: nat :: n > 0 && Clean(run.0, mode, ms, cleanup).1 == Cleaned(n))
            && (r.1.Outcome? <==> run.1.Ran? && Clean(run.0, mode, ms, cleanup).1 == Cleaned(0))
            && (r.1.Outcome? ==> run.1 == Ran(r.1.results))
    ensures var run := Run(w, mode, steps, scripts);
            run.1.Ran? ==>
              && |run.1.results| <= |steps| && (forall i :: 0 <= i < |run.1.results| - 1 ==> run.1.results[i] != Failed)
              && (|run.1.results| < |steps| ==> run.1.results != [] && run.1.results[|run.1.results| - 1] == Failed)
  {
    FailureStops(w, mode, steps, scripts);
    hide Run, Clean;
  }

  lemma {:induction false} FailureStops(w: World, mode: Mode, steps: seq<Step>, scripts: seq<Script>)
    requires |steps| == |scripts| && forall i :: 0 <= i < |steps| ==> Fits(steps[i], scripts[i])
    ensures var run := Run(w, mode, steps, scripts);
            run.1.Ran? ==>
              && |run.1.results| <= |steps| && (forall i :: 0 <= i < |run.1.results| - 1 ==> run.1.results[i] != Failed)
              && (|run.1.results| < |steps| ==> run.1.results != [] && run.1.results[|run.1.results| - 1] == Failed)
    decreases |steps|
  {
    hide Execute, Fits;
    if steps != [] {
      FailureStops(Execute(w, mode, steps[0], scripts[0]).0, mode, steps[1..], scripts[1..]);
    }
  }

  /** How the trial of one model goes: its activation and its test. */
  datatype Trial = Trial(m: Name, e: EnableScript, s: SmokeScript)

  /** Everybody does their part. */
  predicate GoesWell(t: Trial) {
    && t.e.writer == Returns(Done) && t.e.evidence && t.e.activate == Answered
    && t.s.inner == Returns(Done) && t.s.proof == Some(t.m) && t.s.confirmation == Returns(Done) && t.s.digest && t.s.confirm == Answered
  }

  function PlanOf(ts: seq<Trial>): seq<Step> {
    if ts == [] then [] else [CalibrateModel(ts[0].m)] + ([EnableModel(ts[0].m)] + ([SmokeTest(ts[0].m)] + PlanOf(ts[1..])))
  }

  function ScriptOf(ts: seq<Trial>): seq<Script> {
    if ts == [] then []
    else [ForCalibrate(Returns(Done), Some(ts[0].m))] + ([ForEnable(ts[0].e)] + ([ForSmoke(ts[0].s)] + ScriptOf(ts[1..])))
  }

  function AllDone(n: nat): seq<Status> { if n == 0 then [] else [Done] + ([Done] + ([Done] + AllDone(n - 1))) }

  lemma {:induction false} ScriptFits(ts: seq<Trial>)
    ensures |PlanOf(ts)| == |ScriptOf(ts)| && forall i :: 0 <= i < |PlanOf(ts)| ==> Fits(PlanOf(ts)[i], ScriptOf(ts)[i])
  {
    if ts != [] {
      ScriptFits(ts[1..]);
      forall i | 0 <= i < |PlanOf(ts)| ensures Fits(PlanOf(ts)[i], ScriptOf(ts)[i]) {
        if i >= 3 {
          assert PlanOf(ts)[i] == PlanOf(ts[1..])[i - 3] && ScriptOf(ts)[i] == ScriptOf(ts[1..])[i - 3];
        }
      }
    }
  }

  /** Where the successful trial of m leads. */
  function Tried(w: World, m: Name): World {
    w.(l := w.l.(calibrations := w.l.calibrations + {m}, smokes := w.l.smokes + {m}), disk := w.disk + {m},
       log := w.log + [CalibrationDone(m), Opened(m), SmokeDone(m), FinalEnable(m)])
  }

  /** Nothing is open, and m is new to the run. */
  predicate Idle(w: World, m: Name) {
    w.l.provisional == {} && w.l.awaiting == {} && w.open == {} && m !in w.l.supplied && m !in w.l.smokes
  }

  lemma TrialRuns(w: World, t: Trial)
    requires GoesWell(t) && Idle(w, t.m)
    ensures var w1 := Calibrate(w, Returns(Done), Some(t.m)).0; var w2 := Enable(w1, Apply, t.m, t.e).0;
            && Calibrate(w, Returns(Done), Some(t.m)).1 == Ended(Done) && Enable(w1, Apply, t.m, t.e).1 == Ended(Done)
            && Smoke(w2, Apply, t.m, t.s) == (Tried(w, t.m), Ended(Done))
  {
    var w1 := Calibrate(w, Returns(Done), Some(t.m)).0;
    var w2 := Enable(w1, Apply, t.m, t.e).0;
    EnableDecides(w1, Apply, t.m, t.e);
    SmokeDecides(w2, t.m, t.s);
    assert w.log + [CalibrationDone(t.m)] + [Opened(t.m)] + [SmokeDone(t.m), FinalEnable(t.m)]
        == w.log + [CalibrationDone(t.m), Opened(t.m), SmokeDone(t.m), FinalEnable(t.m)];
    assert w2.l.provisional - {t.m} == {} && w2.l.awaiting - {t.m} == {} && w2.open - {t.m} == {};
  }

  /** The outcome of a run whose first step is done. */
  function Before(end: RunEnd): RunEnd { if end.Interrupted? then end else Ran([Done] + end.results) }

  lemma RunStep(w: World, w1: World, st: Step, sc: Script, steps: seq<Step>, scripts: seq<Script>)
    requires Fits(st, sc) && Execute(w, Apply, st, sc) == (w1, Ended(Done))
    requires |steps| == |scripts| && forall i :: 0 <= i < |steps| ==> Fits(steps[i], scripts[i])
    ensures |[st] + steps| == |[sc] + scripts| && forall i :: 0 <= i < |[st] + steps| ==> Fits(([st] + steps)[i], ([sc] + scripts)[i])
    ensures var r := Run(w1, Apply, steps, scripts); Run(w, Apply, [st] + steps, [sc] + scripts) == (r.0, Before(r.1))
  {
    hide Execute, Fits;
    assert ([st] + steps)[1..] == steps && ([sc] + scripts)[1..] == scripts;
  }

  lemma FirstTrial(w: World, t: Trial, steps: seq<Step>, scripts: seq<Script>)
    requires GoesWell(t) && Idle(w, t.m)
    requires |steps| == |scripts| && forall i :: 0 <= i < |steps| ==> Fits(steps[i], scripts[i])
    ensures var all := [CalibrateModel(t.m)] + ([EnableModel(t.m)] + ([SmokeTest(t.m)] + steps));
            var alls := [ForCalibrate(Returns(Done), Some(t.m))] + ([ForEnable(t.e)] + ([ForSmoke(t.s)] + scripts));
            && |all| == |alls| && (forall i :: 0 <= i < |all| ==> Fits(all[i], alls[i]))
            && (var r := Run(Tried(w, t.m), Apply, steps, scripts);
                Run(w, Apply, all, alls) == (r.0, Before(Before(Before(r.1)))))
  {
    TrialRuns(w, t);
    hide Calibrate, Enable, Smoke, GoesWell, Idle, Tried, Run, Before;
    var w1 := Calibrate(w, Returns(Done), Some(t.m)).0;
    var w2 := Enable(w1, Apply, t.m, t.e).0;
    RunStep(w2, Tried(w, t.m), SmokeTest(t.m), ForSmoke(t.s), steps, scripts);
    RunStep(w1, w2, EnableModel(t.m), ForEnable(t.e), [SmokeTest(t.m)] + steps, [ForSmoke(t.s)] + scripts);
    RunStep(w, w1, CalibrateModel(t.m), ForCalibrate(Returns(Done), Some(t.m)),
            [EnableModel(t.m)] + ([SmokeTest(t.m)] + steps), [ForEnable(t.e)] + ([ForSmoke(t.s)] + scripts));
  }

  function Models(ts: seq<Trial>): set<Name> { set t | t in ts :: t.m }

  lemma {:induction false} TrialsRun(w: World, ts: seq<Trial>)
    requires forall i :: 0 <= i < |ts| ==> GoesWell(ts[i]) && Idle(w, ts[i].m)
    requires (forall i, j :: 0 <= i < j < |ts| ==> ts[i].m != ts[j].m) && w.l.provisional == {}
    ensures |PlanOf(ts)| == |ScriptOf(ts)| && forall i :: 0 <= i < |PlanOf(ts)| ==> Fits(PlanOf(ts)[i], ScriptOf(ts)[i])
    ensures var r := Run(w, Apply, PlanOf(ts), ScriptOf(ts));
            && r.1 == Ran(AllDone(|ts|)) && r.0.l.provisional == {} && r.0.open == w.open && r.0.loose == w.loose
            && r.0.disk == w.disk + Models(ts)
    decreases |ts|
  {
    if ts == [] {
      ScriptFits(ts);
    } else {
      hide GoesWell, Idle, Tried, Run, Models, Fits;
      ScriptFits(ts);
      RestGoes(w, ts);
      ModelsOf(ts);
      TrialsRun(Tried(w, ts[0].m), ts[1..]);
      FirstTrial(w, ts[0], PlanOf(ts[1..]), ScriptOf(ts[1..]));
    }
  }

  /** After the first trial the others can go on. */
  lemma RestGoes(w: World, ts: seq<Trial>)
    requires ts != [] && forall i :: 0 <= i < |ts| ==> GoesWell(ts[i]) && Idle(w, ts[i].m)
    requires forall i, j :: 0 <= i < j < |ts| ==> ts[i].m != ts[j].m
    ensures var w1, rest := Tried(w, ts[0].m), ts[1..];
            && (forall i :: 0 <= i < |rest| ==> GoesWell(rest[i]) && Idle(w1, rest[i].m))
            && (forall i, j :: 0 <= i < j < |rest| ==> rest[i].m != rest[j].m)
            && w1.l.provisional == w.l.provisional && w1.open == w.open && w1.loose == w.loose && w1.disk == w.disk + {ts[0].m}
  {
    hide GoesWell, Idle, Tried;
    var w1, rest := Tried(w, ts[0].m), ts[1..];
    forall i | 0 <= i < |rest| ensures GoesWell(rest[i]) && Idle(w1, rest[i].m) {
      assert rest[i] == ts[i + 1];
      TriedIdle(w, ts[0].m, rest[i].m);
    }
    TriedIs(w, ts[0].m);
  }

  lemma TriedIdle(w: World, m: Name, n: Name)
    requires Idle(w, n) && m != n
    ensures Idle(Tried(w, m), n)
  {
  }

  lemma TriedIs(w: World, m: Name)
    ensures var w1 := Tried(w, m);
            w1.l.provisional == w.l.provisional && w1.open == w.open && w1.loose == w.loose && w1.disk == w.disk + {m}
  {
  }

  lemma ModelsOf(ts: seq<Trial>)
    requires ts != []
    ensures Models(ts) == {ts[0].m} + Models(ts[1..])
  {
    assert ts == [ts[0]] + ts[1..];
  }

  /** A plan that calibrates, opens and tests any number of new models, everybody doing their part: all its steps
      are done, exactly those models are enabled on disk, none is open or marked, and no writer is left behind. */
  lemma PlanSucceeds(w: World, ts: seq<Trial>)
    requires Begins(w) && (forall i :: 0 <= i < |ts| ==> GoesWell(ts[i]) && ts[i].m !in w.l.supplied)
    requires forall i, j :: 0 <= i < j < |ts| ==> ts[i].m != ts[j].m
    ensures |PlanOf(ts)| == |ScriptOf(ts)| && forall i :: 0 <= i < |PlanOf(ts)| ==> Fits(PlanOf(ts)[i], ScriptOf(ts)[i])
    ensures Run(w, Apply, PlanOf(ts), ScriptOf(ts)).0.l.provisional == {}
    ensures var r := ApplyPlan(w, Apply, PlanOf(ts), ScriptOf(ts), [], []);
            r.1 == Outcome(AllDone(|ts|)) && r.0.disk == Models(ts) && r.0.open == {} && r.0.loose == {} && r.0.l.provisional == {}
  {
    TrialsRun(w, ts);
  }

  function Dones(n: nat): seq<Status> { seq(n, i => Done) }

  /** All steps are done exactly if the first one is, and all others are. */
  lemma DoneFirst(w: World, st: Step, sc: Script, steps: seq<Step>, scripts: seq<Script>, n: nat)
    requires Fits(st, sc) && |steps| == |scripts| && forall i :: 0 <= i < |steps| ==> Fits(steps[i], scripts[i])
    ensures |[st] + steps| == |[sc] + scripts| && forall i :: 0 <= i < |[st] + steps| ==> Fits(([st] + steps)[i], ([sc] + scripts)[i])
    ensures Run(w, Apply, [st] + steps, [sc] + scripts).1 == Ran(Dones(n + 1)) <==>
              Execute(w, Apply, st, sc).1 == Ended(Done) && Run(Execute(w, Apply, st, sc).0, Apply, steps, scripts).1 == Ran(Dones(n))
    ensures Run(w, Apply, [], []).1 == Ran(Dones(0))
  {
    hide Execute, Fits;
    assert ([st] + steps)[1..] == steps && ([sc] + scripts)[1..] == scripts;
    var rest := Run(Execute(w, Apply, st, sc).0, Apply, steps, scripts);
    assert Dones(n + 1)[0] == Done && Dones(n + 1)[1..] == Dones(n);
    if rest.1.Ran? { assert ([Done] + rest.1.results)[1..] == rest.1.results; }
  }

  /** One trial, exactly: a plan that calibrates, opens and tests a new model is done in all its steps if and
      only if the calibration names the model and everybody does their part. */
  lemma TrialSucceedsIff(w: World, m: Name, inner: Call, proof: Option<Name>, e: EnableScript, s: SmokeScript)
    requires Begins(w) && m !in w.l.supplied
    ensures var r := Run(w, Apply, [CalibrateModel(m)] + ([EnableModel(m)] + ([SmokeTest(m)] + [])),
                         [ForCalibrate(inner, proof)] + ([ForEnable(e)] + ([ForSmoke(s)] + [])));
            r.1 == Ran(Dones(3)) <==>
              && inner == Returns(Done) && proof == Some(m) && e.writer == Returns(Done) && e.evidence && e.activate == Answered
              && s.inner == Returns(Done) && s.proof == Some(m) && s.confirmation.Returns? && s.confirmation.status != Failed
              && s.digest && s.confirm == Answered
  {
    hide Calibrate, Enable, Smoke;
    var w1 := Calibrate(w, inner, proof).0;
    var w2 := Enable(w1, Apply, m, e).0;
    CalibrationDecides(w, inner, proof);
    EnableDecides(w1, Apply, m, e);
    DoneFirst(w, CalibrateModel(m), ForCalibrate(inner, proof), [EnableModel(m)] + ([SmokeTest(m)] + []), [ForEnable(e)] + ([ForSmoke(s)] + []), 2);
    DoneFirst(w1, EnableModel(m), ForEnable(e), [SmokeTest(m)] + [], [ForSmoke(s)] + [], 1);
    DoneFirst(w2, SmokeTest(m), ForSmoke(s), [], [], 0);
    hide Run;
    if m in w2.l.provisional && m in w2.l.awaiting && m in w2.l.calibrations { SmokeDecides(w2, m, s); }
  }

  // ---------------------------------------------------------------- preflight

  /** An activation without a supplied proof must stand between the calibration and the recipe of the same model. */
  predicate Compensable(steps: seq<Step>, supplied: set<Name>, i: nat)
    requires i < |steps|
  {
    steps[i].EnableModel? ==>
      || steps[i].m in supplied
      || (i > 0 && steps[i - 1] == CalibrateModel(steps[i].m) && i + 1 < |steps| && steps[i + 1] == SmokeTest(steps[i].m))
  }

  /** proof_chain_findings: the positions of the steps to refuse. */
  method ProofChainFindings(steps: seq<Step>, supplied: set<Name>) returns (bad: seq<nat>)
    ensures forall i: nat :: i in bad <==> i < |steps| && !Compensable(steps, supplied, i)
    ensures bad == [] <==> forall i :: 0 <= i < |steps| ==> Compensable(steps, supplied, i)
  {
    bad := [];
    for k := 0 to |steps|
      invariant forall i: nat :: i in bad <==> i < k && !Compensable(steps, supplied, i)
    {
      if !steps[k].EnableModel? || steps[k].m in supplied { continue; }
      var calibrationOk := k > 0 && steps[k - 1].CalibrateModel? && steps[k - 1].m == steps[k].m;
      var smokeOk := k + 1 < |steps| && steps[k + 1].SmokeTest? && steps[k + 1].m == steps[k].m;
      if !(calibrationOk && smokeOk) {
        bad := bad + [k];
      }
    }
    if bad != [] { assert bad[0] in bad; }
  }

  // ---------------------------------------------------------------- the mutable ledger

  class ProofLedger {
    var calibrations: set<Name>
    var smokeTests: set<Name>
    const supplied: set<Name>
    var provisional: set<Name>
    var awaitingConfirmation: set<Name>

    ghost function Abs(): Ledger
      reads this
    {
      Ledger(calibrations, smokeTests, supplied, provisional, awaitingConfirmation)
    }

    constructor (supplied: set<Name>)
      ensures Abs() == Ledger({}, {}, supplied, {}, {})
    {
      this.supplied := supplied;
      calibrations, smokeTests, provisional, awaitingConfirmation := {}, {}, {}, {};
    }

    method RecordCalibration(m: Name)
      modifies this`calibrations
      ensures Abs() == old(Abs()).(calibrations := old(calibrations) + {m})
    {
      calibrations := calibrations + {m};
    }

    method RecordSmokeTest(m: Name)
      modifies this`smokeTests
      ensures Abs() == old(Abs()).(smokes := old(smokeTests) + {m})
    {
      smokeTests := smokeTests + {m};
    }

    method Mark(m: Name)
      modifies this`provisional, this`awaitingConfirmation
      ensures Abs() == MarkProvisional(old(Abs()), m)
    {
      provisional := provisional + {m};
      awaitingConfirmation := awaitingConfirmation + {m};
    }

    method Clear(m: Name)
      modifies this`provisional, this`awaitingConfirmation
      ensures Abs() == Cleared(old(Abs()), m)
    {
      provisional := provisional - {m};
      awaitingConfirmation := awaitingConfirmation - {m};
    }

    /** __getitem__: a proof of this run before a supplied one, and never half a proof. */
    method Lookup(m: Name) returns (measured: bool, found: bool)
      ensures found <==> InLedger(Abs(), m)
      ensures measured <==> m in calibrations && m in smokeTests
      ensures measured ==> found
    {
      if m in calibrations && m in smokeTests { return true, true; }
      return false, m in supplied;
    }

    /** missing_volets: what is missing for m; nothing exactly when a proof is there. */
    method Missing(m: Name) returns (calibration: bool, smoke: bool)
      ensures InLedger(Abs(), m) <==> !calibration && !smoke
    {
      if m in supplied { return false, false; }
      return m !in calibrations, m !in smokeTests;
    }
  }
}
