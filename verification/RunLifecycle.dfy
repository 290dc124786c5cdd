/**
 The lifecycle of a run in the run manager: which state changes its locked
 sections make, in any interleaving, and what the event log can tell of them.
 */
module RunLifecycle {
  import opened Sequences
  import opened Wrappers

  datatype RunState =
    | Created | PreflightRunning | PreflightPassed | PreflightFailed
    | BaselineRunning | RampRunning | SoakRunning
    | Stopping | Analyzing | Completed | Failed | Aborted

  /** `allowedTransitions`. */
  function Allowed(from: RunState): set<RunState> {
    match from
    case Created => {PreflightRunning, Failed, Aborted}
    case PreflightRunning => {PreflightPassed, PreflightFailed, Stopping}
    case PreflightFailed => {Stopping}
    case PreflightPassed => {BaselineRunning, Stopping}
    case BaselineRunning => {RampRunning, Stopping}
    case RampRunning => {SoakRunning, Stopping}
    case SoakRunning => {Stopping}
    case Stopping => {Analyzing, Stopping}
    case Analyzing => {Completed, Failed, Aborted}
    case _ => {}
  }

  predicate CanTransition(from: RunState, to: RunState) { to in Allowed(from) }

  predicate Terminal(s: RunState) { s.Completed? || s.Failed? || s.Aborted? }

  /** `isRunningState`. */
  predicate IsRunning(s: RunState) {
    s.PreflightRunning? || s.BaselineRunning? || s.RampRunning? || s.SoakRunning?
  }

  function Rank(s: RunState): nat {
    match s
    case Created => 0
    case PreflightRunning => 1
    case PreflightPassed => 2
    case PreflightFailed => 2
    case BaselineRunning => 3
    case RampRunning => 4
    case SoakRunning => 5
    case Stopping => 6
    case Analyzing => 7
    case _ => 8
  }

  datatype Edge = Edge(from: RunState, to: RunState)

  /** The table, and the one edge the code takes beside it: stopping without telemetry. */
  predicate Legal(e: Edge) {
    e.from != e.to && (CanTransition(e.from, e.to) || e == Edge(Stopping, Completed))
  }

  lemma LegalRaisesRank(e: Edge)
    requires Legal(e)
    ensures Rank(e.from) < Rank(e.to) && !Terminal(e.from)
  {
  }

  datatype StopMode = Drain | Immediate
  datatype StopReason = StopReason(mode: StopMode, reason: string, actor: string)

  const EMERGENCY := "emergency_stop"

  /**
   The state of a run and its log of STATE_TRANSITION events. History beside them:
   `path`, the state changes in the order they were made; `owed`, those whose event
   is still to be appended; `missing`, how many events were refused or given up;
   `overtaken`, an event was appended while an earlier one was owed.
   */
  datatype Journal = Journal(
    state: RunState, log: seq<Edge>, path: seq<Edge>, owed: seq<Edge>, missing: nat, overtaken: bool)

  /**
   The run record. History: how often a start succeeded and a finalizer was
   spawned, which drain channels were made and closed, whether an emergency stop
   was accepted. `hasStores` says that the manager has both a telemetry and an
   artifact store; they are set up before any run.
   */
  datatype Run = Run(
    j: Journal, stop: Option<StopReason>, drain: Option<nat>, immediate: bool,
    starts: nat, finalizers: nat, channels: nat, closes: seq<nat>, emergency: bool, hasStores: bool)

  function New(hasStores: bool): Run {
    Run(Journal(Created, [], [], [], 0, false), None, None, false, 0, 0, 0, [], false, hasStores)
  }

  // ---------------------------------------------------------------------------
  // The locked sections, as functions

  /** Append a transition event; `recorded` is false when validation or the size limit refuses it. */
  function Append(j: Journal, e: Edge, recorded: bool): Journal {
    if recorded then j.(log := j.log + [e], overtaken := j.overtaken || j.owed != [])
    else j.(missing := j.missing + 1)
  }

  /** A state change logged inside the same lock section. */
  function Move(j: Journal, to: RunState, recorded: bool): Journal {
    var e := Edge(j.state, to);
    Append(j.(state := to, path := j.path + [e]), e, recorded)
  }

  /** A state change whose event is appended only after the lock is released. */
  function MoveUnlogged(j: Journal, to: RunState): Journal {
    var e := Edge(j.state, to);
    j.(state := to, path := j.path + [e], owed := j.owed + [e])
  }

  function WithDrain(r: Run): Run {
    if r.drain.Some? then r else r.(drain := Some(r.channels), channels := r.channels + 1)
  }

  function CloseDrain(r: Run): Run {
    if r.drain.Some? then r.(drain := None, closes := r.closes + [r.drain.value]) else r
  }

  function StartCommit(r: Run, recorded: bool): Run {
    if r.j.state != Created then r
    else r.(j := Move(r.j, PreflightRunning, recorded), starts := r.starts + 1)
  }

  function StartFail(r: Run, recorded: bool): Run {
    if r.j.state != Created then r else r.(j := Move(r.j, Failed, recorded))
  }

  /** The run enters Stopping, with a drain channel and a finalizer of its own. */
  function Stopped(r: Run, why: StopReason, recorded: bool): Run {
    WithDrain(r).(j := Move(r.j, Stopping, recorded), stop := Some(why), finalizers := r.finalizers + 1)
  }

  function Stop(r: Run, why: StopReason, recorded: bool): Run {
    if Terminal(r.j.state) || r.j.state == Stopping || !CanTransition(r.j.state, Stopping) then r
    else Stopped(r, why, recorded)
  }

  function Emergency(r: Run, actor: string, recorded: bool): Run {
    var why := Some(StopReason(Immediate, EMERGENCY, actor));
    if Terminal(r.j.state) then r
    else if r.j.state == Stopping then CloseDrain(r).(stop := why, immediate := true, emergency := true)
    else if !CanTransition(r.j.state, Stopping) then r
    else r.(j := Move(r.j, Stopping, recorded), stop := why, finalizers := r.finalizers + 1, emergency := true)
  }

  const REPLACE_IF_POSSIBLE := "replace_if_possible"
  const BEST_EFFORT := "best_effort"

  /** Whether losing a worker stops the run: an unknown or missing policy counts as fail_fast. */
  predicate FailsFast(policy: string, replaced: bool) {
    policy != BEST_EFFORT && !(policy == REPLACE_IF_POSSIBLE && replaced)
  }

  /** `replaced` is whether the scheduler could reallocate the worker's users. */
  function WorkerLost(r: Run, worker: string, policy: string, replaced: bool, recorded: bool): Run {
    if r.j.state == Stopping then CloseDrain(r)
    else if !IsRunning(r.j.state) then r
    else if r.j.state == PreflightRunning || FailsFast(policy, replaced) then
      Stopped(r, LostReason(worker), recorded)
    else r
  }

  function LostReason(worker: string): StopReason {
    StopReason(Immediate, "worker_failure: worker " + worker + " lost", "system")
  }

  function ToBaseline(r: Run, recorded: bool): Run {
    if r.j.state != PreflightRunning then r
    else r.(j := MoveUnlogged(Move(r.j, PreflightPassed, recorded), BaselineRunning))
  }

  function ToNextStage(r: Run, from: RunState, to: RunState): Run {
    if r.j.state != from || !CanTransition(from, to) then r else r.(j := MoveUnlogged(r.j, to))
  }

  function FromStopping(r: Run, to: RunState, recorded: bool): Run {
    if r.j.state != Stopping then r else r.(j := Move(r.j, to, recorded))
  }

  function Finalize(r: Run, recorded: bool): Run {
    FromStopping(r, if r.hasStores then Analyzing else Completed, recorded)
  }

  predicate EmergencyReason(stop: Option<StopReason>) {
    stop.Some? &&
    (stop.value.reason == EMERGENCY || (stop.value.mode == Immediate && stop.value.actor == "emergency"))
  }

  function AnalysisDone(r: Run, recorded: bool): Run {
    if r.j.state != Analyzing then r
    else r.(j := Move(r.j, if EmergencyReason(r.stop) then Aborted else Completed, recorded))
  }

  function AnalysisFailed(r: Run, recorded: bool): Run {
    if r.j.state != Analyzing then r else r.(j := Move(r.j, Failed, recorded))
  }

  // ---------------------------------------------------------------------------
  // The run record, its fields updated section by section

  class RunRecord {
    var state: RunState
    var stopReason: Option<StopReason>
    var drainCancel: Option<nat>
    var immediateStop: bool
    var log: seq<Edge>
    var channels: nat
    const hasStores: bool
    ghost var path: seq<Edge>
    ghost var owed: seq<Edge>
    ghost var missing: nat
    ghost var overtaken: bool
    ghost var starts: nat
    ghost var finalizers: nat
    ghost var closes: seq<nat>
    ghost var emergency: bool

    ghost function Abs(): Run
      reads this
    {
      Run(Journal(state, log, path, owed, missing, overtaken), stopReason, drainCancel, immediateStop,
          starts, finalizers, channels, closes, emergency, hasStores)
    }

    constructor (hasStores: bool)
      ensures Abs() == New(hasStores)
    {
      this.hasStores := hasStores;
      state, stopReason, drainCancel, immediateStop, log, channels := Created, None, None, false, [], 0;
      path, owed, missing, overtaken := [], [], 0, false;
      starts, finalizers, closes, emergency := 0, 0, [], false;
    }

    /** Set the state and append its event under the lock. */
    method SetState(to: RunState, recorded: bool)
      modifies this
      ensures Abs() == old(Abs()).(j := Move(old(Abs()).j, to, recorded))
    {
      var oldState := state;
      state := to;
      path := path + [Edge(oldState, to)];
      if recorded {
        log := log + [Edge(oldState, to)];
        overtaken := overtaken || owed != [];
      } else {
        missing := missing + 1;
      }
    }

    /** Set the state; the event is appended after the lock is released. */
    method SetStateLogLater(to: RunState)
      modifies this
      ensures Abs() == old(Abs()).(j := MoveUnlogged(old(Abs()).j, to))
    {
      path, owed := path + [Edge(state, to)], owed + [Edge(state, to)];
      state := to;
    }

    method InitDrainCancel()
      modifies this
      ensures Abs() == WithDrain(old(Abs()))
    {
      if drainCancel.None? {
        drainCancel := Some(channels);
        channels := channels + 1;
      }
    }

    /** `close(record.drainCancel)`; a second close of a channel would panic. */
    method CloseDrainCancel()
      modifies this
      ensures Abs() == CloseDrain(old(Abs()))
    {
      if drainCancel.Some? {
        closes := closes + [drainCancel.value];
        drainCancel := None;
      }
    }

    /** The second locked section of `StartRun`; the state may have changed since the first. */
    method CommitStart(recorded: bool) returns (ok: bool)
      modifies this
      ensures Abs() == StartCommit(old(Abs()), recorded) && ok == (old(state) == Created)
    {
      if state != Created {
        return false;
      }
      SetState(PreflightRunning, recorded);
      starts := starts + 1;
      return true;
    }

    method TransitionToFailedFromCreated(recorded: bool)
      modifies this
      ensures Abs() == StartFail(old(Abs()), recorded)
    {
      if state != Created {
        return;
      }
      SetState(Failed, recorded);
    }

    /** What every way into Stopping but the emergency does. */
    method EnterStopping(why: StopReason, recorded: bool)
      modifies this
      ensures Abs() == Stopped(old(Abs()), why, recorded)
    {
      SetState(Stopping, recorded);
      stopReason := Some(why);
      InitDrainCancel();
      finalizers := finalizers + 1;
    }

    /** `requestStopWithReason`; false is an error returned to the caller. */
    method RequestStopWithReason(why: StopReason, recorded: bool) returns (ok: bool)
      modifies this
      ensures Abs() == Stop(old(Abs()), why, recorded)
      ensures ok == (old(state) == Stopping || CanTransition(old(state), Stopping))
    {
      if state == Completed || state == Failed || state == Aborted {
        return false;
      }
      if state == Stopping {
        return true;
      }
      if !CanTransition(state, Stopping) {
        return false;
      }
      EnterStopping(why, recorded);
      return true;
    }

    method EmergencyStop(actor: string, recorded: bool) returns (ok: bool)
      modifies this
      ensures Abs() == Emergency(old(Abs()), actor, recorded)
      ensures ok == (old(state) == Stopping || CanTransition(old(state), Stopping))
    {
      if state == Completed || state == Failed || state == Aborted {
        return false;
      }
      if state == Stopping {
        EscalateStop(actor);
        return true;
      }
      if !CanTransition(state, Stopping) {
        return false;
      }
      SetState(Stopping, recorded);
      stopReason := Some(StopReason(Immediate, EMERGENCY, actor));
      finalizers := finalizers + 1;
      emergency := true;
      return true;
    }

    /** `EmergencyStop` on a run that is stopping already: the drain is cut short. */
    method EscalateStop(actor: string)
      requires state == Stopping
      modifies this
      ensures Abs() == Emergency(old(Abs()), actor, true)
    {
      stopReason := Some(StopReason(Immediate, EMERGENCY, actor));
      immediateStop := true;
      CloseDrainCancel();
      emergency := true;
    }

    method HandleWorkerCapacityLost(worker: string, policy: string, replaced: bool, recorded: bool)
      modifies this
      ensures Abs() == WorkerLost(old(Abs()), worker, policy, replaced, recorded)
    {
      if state == Stopping {
        CloseDrainCancel();
        return;
      }
      if !IsRunning(state) {
        return;
      }
      if state == PreflightRunning {
        EnterStopping(LostReason(worker), recorded);
      } else if policy == REPLACE_IF_POSSIBLE {
        if !replaced {
          EnterStopping(LostReason(worker), recorded);
        }
      } else if policy != BEST_EFFORT {
        EnterStopping(LostReason(worker), recorded);
      }
    }

    /** `TransitionToBaseline`, its locked section. */
    method TransitionToBaseline(recorded: bool) returns (ok: bool)
      modifies this
      ensures Abs() == ToBaseline(old(Abs()), recorded) && ok == (old(state) == PreflightRunning)
    {
      if state != PreflightRunning || !CanTransition(state, PreflightPassed) {
        return false;
      }
      SetState(PreflightPassed, recorded);
      if !CanTransition(state, BaselineRunning) {
        return false;
      }
      SetStateLogLater(BaselineRunning);
      return true;
    }

    /** The locked sections of `TransitionToRamp` and `TransitionToSoak`. */
    method TransitionToNextStage(from: RunState, to: RunState) returns (ok: bool)
      modifies this
      ensures Abs() == ToNextStage(old(Abs()), from, to)
      ensures ok == (old(state) == from && CanTransition(from, to))
    {
      if state != from || !CanTransition(state, to) {
        return false;
      }
      SetStateLogLater(to);
      return true;
    }

    method TransitionToCompleted(recorded: bool)
      modifies this
      ensures Abs() == FromStopping(old(Abs()), Completed, recorded)
    {
      if state != Stopping {
        return;
      }
      SetState(Completed, recorded);
    }

    /** `TransitionToAnalyzing`, its locked section; false is an error returned to the caller. */
    method TransitionToAnalyzing(recorded: bool) returns (ok: bool)
      modifies this
      ensures Abs() == FromStopping(old(Abs()), Analyzing, recorded) && ok == (old(state) == Stopping)
    {
      if state != Stopping || !CanTransition(state, Analyzing) {
        return false;
      }
      SetState(Analyzing, recorded);
      return true;
    }

    /** The end of `finalizeRun`: which way out of Stopping, by the stores the manager has. */
    method FinalizeRun(recorded: bool)
      modifies this
      ensures Abs() == Finalize(old(Abs()), recorded)
    {
      if state != Stopping {
        return;
      }
      if !hasStores {
        TransitionToCompleted(recorded);
        return;
      }
      var ok := TransitionToAnalyzing(recorded);
    }

    method CompleteAnalysis(recorded: bool)
      modifies this
      ensures Abs() == AnalysisDone(old(Abs()), recorded)
    {
      if state != Analyzing {
        return;
      }
      var finalState := Completed;
      if stopReason.Some? {
        var why := stopReason.value;
        if why.reason == EMERGENCY || (why.mode == Immediate && why.actor == "emergency") {
          finalState := Aborted;
        }
      }
      SetState(finalState, recorded);
    }

    method FailAnalysis(recorded: bool)
      modifies this
      ensures Abs() == AnalysisFailed(old(Abs()), recorded)
    {
      if state != Analyzing {
        return;
      }
      SetState(Failed, recorded);
    }
  }

  // ---------------------------------------------------------------------------
  // Runs: every interleaving of the sections

  datatype Step =
    | DoStartCommit(recorded: bool)
    | DoStartFail(recorded: bool)
    | DoStop(why: StopReason, recorded: bool)
    | DoEmergency(actor: string, recorded: bool)
    | DoWorkerLost(worker: string, policy: string, replaced: bool, recorded: bool)
    | DoBaseline(recorded: bool)
    | DoRamp
    | DoSoak
    | LogOwed(k: nat, recorded: bool)   // the append after the lock
    | LoseOwed(k: nat)                  // the config no longer parses: no append
    | FinalizerAttach                   // a finalizer makes a drain channel if there is none
    | FinalizerDone(recorded: bool)
    | DoAnalysisDone(recorded: bool)
    | DoAnalysisFailed(recorded: bool)

  predicate Enabled(r: Run, st: Step) {
    match st
    case LogOwed(k, _) => k < |r.j.owed|
    case LoseOwed(k) => k < |r.j.owed|
    case FinalizerAttach => r.finalizers > 0
    case FinalizerDone(_) => r.finalizers > 0
    case _ => true
  }

  /** The late append: out of order when an earlier event is still owed. */
  function Settle(j: Journal, k: nat, recorded: bool): Journal
    requires k < |j.owed|
  {
    var s := j.(owed := RemoveAt(j.owed, k));
    if recorded then s.(log := j.log + [j.owed[k]], overtaken := j.overtaken || k > 0)
    else s.(missing := j.missing + 1)
  }

  function Next(r: Run, st: Step): Run
    requires Enabled(r, st)
  {
    match st
    case DoStartCommit(recorded) => StartCommit(r, recorded)
    case DoStartFail(recorded) => StartFail(r, recorded)
    case DoStop(why, recorded) => Stop(r, why, recorded)
    case DoEmergency(actor, recorded) => Emergency(r, actor, recorded)
    case DoWorkerLost(w, policy, replaced, recorded) => WorkerLost(r, w, policy, replaced, recorded)
    case DoBaseline(recorded) => ToBaseline(r, recorded)
    case DoRamp => ToNextStage(r, BaselineRunning, RampRunning)
    case DoSoak => ToNextStage(r, RampRunning, SoakRunning)
    case LogOwed(k, recorded) => r.(j := Settle(r.j, k, recorded))
    case LoseOwed(k) => r.(j := Settle(r.j, k, false))
    case FinalizerAttach => WithDrain(r)
    case FinalizerDone(recorded) => Finalize(r, recorded)
    case DoAnalysisDone(recorded) => AnalysisDone(r, recorded)
    case DoAnalysisFailed(recorded) => AnalysisFailed(r, recorded)
  }

  ghost predicate Reaches(r: Run, steps: seq<Step>, t: Run)
    decreases |steps|
  {
    if steps == [] then r == t
    else Enabled(r, steps[0]) && Reaches(Next(r, steps[0]), steps[1..], t)
  }

  // ---------------------------------------------------------------------------
  // States only move forward

  /** Each section leaves the state alone or raises its rank; terminal states never change. */
  lemma StateMovesForward(r: Run, st: Step)
    requires Enabled(r, st)
    ensures var t := Next(r, st);
            if t.j.state == r.j.state then t.j.path == r.j.path else Rank(t.j.state) > Rank(r.j.state)
    ensures Terminal(r.j.state) ==> Next(r, st).j.state == r.j.state
  {
    EverySectionIsAChange(r, st);
  }

  lemma {:induction false} TerminalIsForever(r: Run, steps: seq<Step>, t: Run)
    requires Reaches(r, steps, t) && Terminal(r.j.state)
    ensures t.j.state == r.j.state && t.j.path == r.j.path
    decreases |steps|
  {
    if steps != [] {
      StateMovesForward(r, steps[0]);
      TerminalIsForever(Next(r, steps[0]), steps[1..], t);
    }
  }

  // ---------------------------------------------------------------------------
  // One start, one finalizer, no channel closed twice, emergencies stay

  ghost predicate SpawnedOnce(r: Run) {
    && r.starts <= 1 && (r.starts == 1 ==> r.j.state != Created)
    && r.finalizers <= 1 && (r.finalizers == 1 ==> Rank(r.j.state) >= Rank(Stopping))
    && (r.j.state in {Stopping, Analyzing} ==> r.finalizers == 1)
  }

  /** No channel is closed twice, and the current one is open. */
  ghost predicate ClosedOnce(r: Run) {
    && Distinct(r.closes) && (forall c <- r.closes :: c < r.channels)
    && (r.drain.Some? ==> r.drain.value < r.channels && r.drain.value !in r.closes)
  }

  /** An accepted emergency stop is never overwritten; the stores decide where it can lead. */
  ghost predicate EmergencyHolds(r: Run) {
    r.emergency ==>
      && r.stop.Some? && r.stop.value.reason == EMERGENCY
      && r.j.state in (if r.hasStores then {Stopping, Analyzing, Aborted, Failed} else {Stopping, Completed})
      && (r.j.state == Completed ==> r.j.path != [] && r.j.path[|r.j.path| - 1] == Edge(Stopping, Completed))
  }

  lemma SpawnStep(r: Run, st: Step)
    requires Enabled(r, st) && SpawnedOnce(r)
    ensures SpawnedOnce(Next(r, st))
  {
  }

  /** Same channels, made, open and closed. */
  predicate SameChannels(r: Run, t: Run) {
    r.drain == t.drain && r.channels == t.channels && r.closes == t.closes
  }

  predicate OnChannels(r: Run, t: Run) {
    SameChannels(t, r) || SameChannels(t, WithDrain(r)) || SameChannels(t, CloseDrain(r))
  }

  lemma StopOnChannels(r: Run, why: StopReason, recorded: bool)
    ensures OnChannels(r, Stop(r, why, recorded))
  {
  }

  lemma EmergencyOnChannels(r: Run, actor: string, recorded: bool)
    ensures OnChannels(r, Emergency(r, actor, recorded))
  {
  }

  lemma LossOnChannels(r: Run, worker: string, policy: string, replaced: bool, recorded: bool)
    ensures OnChannels(r, WorkerLost(r, worker, policy, replaced, recorded))
  {
  }

  lemma StepOnChannels(r: Run, st: Step)
    requires Enabled(r, st)
    ensures OnChannels(r, Next(r, st))
  {
    match st
    case DoStop(why, recorded) => StopOnChannels(r, why, recorded);
    case DoEmergency(actor, recorded) => EmergencyOnChannels(r, actor, recorded);
    case DoWorkerLost(worker, policy, replaced, recorded) => LossOnChannels(r, worker, policy, replaced, recorded);
    case _ =>
  }

  lemma WithDrainKeeps(r: Run)
    requires ClosedOnce(r)
    ensures ClosedOnce(WithDrain(r)) && ClosedOnce(CloseDrain(r))
  {
  }

  lemma CloseStep(r: Run, st: Step)
    requires Enabled(r, st) && ClosedOnce(r)
    ensures ClosedOnce(Next(r, st))
  {
    StepOnChannels(r, st);
    WithDrainKeeps(r);
  }

  lemma EmergencyStep(r: Run, st: Step)
    requires Enabled(r, st) && EmergencyHolds(r)
    ensures EmergencyHolds(Next(r, st))
  {
  }

  lemma StoresStay(r: Run, st: Step)
    requires Enabled(r, st)
    ensures Next(r, st).hasStores == r.hasStores
  {
  }

  ghost predicate LifecycleInv(r: Run) { SpawnedOnce(r) && ClosedOnce(r) && EmergencyHolds(r) }

  lemma StepKeepsLifecycle(r: Run, st: Step)
    requires Enabled(r, st) && LifecycleInv(r)
    ensures LifecycleInv(Next(r, st)) && Next(r, st).hasStores == r.hasStores
  {
    SpawnStep(r, st);
    CloseStep(r, st);
    EmergencyStep(r, st);
    StoresStay(r, st);
  }

  lemma {:induction false} RunKeepsLifecycle(r: Run, steps: seq<Step>, t: Run)
    requires Reaches(r, steps, t) && LifecycleInv(r)
    ensures LifecycleInv(t) && t.hasStores == r.hasStores
    decreases |steps|
  {
    if steps != [] {
      StepKeepsLifecycle(r, steps[0]);
      RunKeepsLifecycle(Next(r, steps[0]), steps[1..], t);
    }
  }

  /**
   Over every interleaving: at most one start succeeds, at most one finalizer is
   ever spawned, no drain channel is closed twice, and an accepted emergency stop
   keeps its reason.
   */
  lemma LifecycleSafe(hasStores: bool, steps: seq<Step>, t: Run)
    requires Reaches(New(hasStores), steps, t)
    ensures t.starts <= 1 && t.finalizers <= 1 && Distinct(t.closes)
    ensures t.emergency ==> t.stop.Some? && t.stop.value.reason == EMERGENCY
    ensures t.emergency && t.j.state == Completed ==>
              t.j.path != [] && t.j.path[|t.j.path| - 1] == Edge(Stopping, Completed)
  {
    RunKeepsLifecycle(New(hasStores), steps, t);
  }

  // ---------------------------------------------------------------------------
  // The journal

  /** The edges lead from Created to `s`, one legal change after another. */
  predicate Chain(es: seq<Edge>, s: RunState) {
    if es == [] then s == Created
    else
      var e := es[|es| - 1];
      e.to == s && Legal(e) && Chain(es[..|es| - 1], e.from)
  }

  lemma {:induction false} ChainRanks(es: seq<Edge>, s: RunState)
    requires Chain(es, s)
    ensures |es| <= Rank(s)
    ensures forall e <- es :: Rank(e.from) < Rank(e.to) <= Rank(s)
    ensures forall i, k :: 0 <= i < k < |es| ==> Rank(es[i].from) < Rank(es[k].from)
  {
    if es != [] {
      var e, rest := es[|es| - 1], es[..|es| - 1];
      LegalRaisesRank(e);
      ChainRanks(rest, e.from);
      assert es == rest + [e];
    }
  }

  lemma ChainExtends(es: seq<Edge>, s: RunState, to: RunState)
    requires Chain(es, s) && Legal(Edge(s, to))
    ensures Chain(es + [Edge(s, to)], to)
  {
    assert (es + [Edge(s, to)])[..|es|] == es;
  }

  /** Only the last edge of a chain leads to where the chain ends. */
  lemma LastEdge(es: seq<Edge>, s: RunState, e: Edge)
    requires Chain(es, s) && e in es
    ensures e.to == s <==> e == es[|es| - 1]
    ensures e.to != s ==> e in es[..|es| - 1]
  {
    var last, rest := es[|es| - 1], es[..|es| - 1];
    LegalRaisesRank(last);
    ChainRanks(rest, last.from);
    assert es == rest + [last];
  }

  /** A chain to `s` drawn from the edges of a chain to `s` is that chain. */
  lemma {:induction false} ChainUnique(a: seq<Edge>, b: seq<Edge>, s: RunState)
    requires Chain(a, s) && Chain(b, s) && forall e <- a :: e in b
    ensures a == b
    decreases |a|
  {
    if a == [] {
      ChainRanks(b, s);
    } else {
      var e, a', b' := a[|a| - 1], a[..|a| - 1], b[..|b| - 1];
      LastEdge(b, s, e);
      ChainRanks(a', e.from);
      LegalRaisesRank(e);
      forall x | x in a' ensures x in b' {
        LastEdge(b, s, x);
      }
      ChainUnique(a', b', e.from);
      assert a == a' + [e] && b == b' + [e];
    }
  }

  ghost predicate Inverted(log: seq<Edge>) {
    exists i, k :: 0 <= i < k < |log| && Rank(log[k].from) < Rank(log[i].from)
  }

  ghost predicate Passed(log: seq<Edge>, owed: seq<Edge>) {
    exists e, f :: e in log && f in owed && Rank(f.from) < Rank(e.from)
  }

  /** Every change made is logged, owed or missing. */
  ghost predicate Accounted(j: Journal) {
    && Chain(j.path, j.state)
    && |j.log| + |j.owed| + j.missing == |j.path|
    && (forall e <- j.log :: e in j.path) && (forall e <- j.owed :: e in j.path)
    && (forall i, k :: 0 <= i < k < |j.owed| ==> Rank(j.owed[i].from) < Rank(j.owed[k].from))
  }

  /** Not overtaken, the log and what it is owed are the path; overtaken, the damage shows for good. */
  ghost predicate OrderKnown(j: Journal) {
    if j.overtaken then j.missing > 0 || Inverted(j.log) || Passed(j.log, j.owed)
    else j.missing == 0 ==> j.log + j.owed == j.path
  }

  ghost predicate JournalInv(j: Journal) { Accounted(j) && OrderKnown(j) }

  lemma AppendKeepsInverted(log: seq<Edge>, e: Edge)
    requires Inverted(log)
    ensures Inverted(log + [e])
  {
    var i, k :| 0 <= i < k < |log| && Rank(log[k].from) < Rank(log[i].from);
    assert (log + [e])[i] == log[i] && (log + [e])[k] == log[k];
  }

  lemma {:induction false} MoveKeeps(j: Journal, to: RunState, recorded: bool)
    requires JournalInv(j) && Legal(Edge(j.state, to))
    ensures JournalInv(Move(j, to, recorded))
  {
    var e, t := Edge(j.state, to), Move(j, to, recorded);
    ChainExtends(j.path, j.state, to);
    ChainRanks(j.path, j.state);
    if recorded {
      if j.owed != [] {
        assert j.owed[0] in j.owed && e in t.log;
        assert Passed(t.log, t.owed);
      } else if Inverted(j.log) {
        AppendKeepsInverted(j.log, e);
      }
    }
  }

  lemma OwedMore(j: Journal, e: Edge)
    requires Accounted(j) && e.from == j.state
    ensures var owed := j.owed + [e];
            forall i, k :: 0 <= i < k < |owed| ==> Rank(owed[i].from) < Rank(owed[k].from)
  {
    ChainRanks(j.path, j.state);
    forall i | 0 <= i < |j.owed| ensures Rank(j.owed[i].from) < Rank(e.from) {
      assert j.owed[i] in j.path;
    }
  }

  lemma MoveUnloggedOrder(j: Journal, to: RunState)
    requires OrderKnown(j)
    ensures OrderKnown(MoveUnlogged(j, to))
  {
    var e := Edge(j.state, to);
    if j.overtaken {
      assert forall x <- j.owed :: x in j.owed + [e];
    } else {
      assert j.log + (j.owed + [e]) == j.log + j.owed + [e];
    }
  }

  lemma {:induction false} MoveUnloggedKeeps(j: Journal, to: RunState)
    requires JournalInv(j) && Legal(Edge(j.state, to))
    ensures JournalInv(MoveUnlogged(j, to))
  {
    ChainExtends(j.path, j.state, to);
    OwedMore(j, Edge(j.state, to));
    MoveUnloggedOrder(j, to);
  }

  lemma {:induction false} SettleKeepsBroken(j: Journal, k: nat, recorded: bool)
    requires k < |j.owed| && (j.missing > 0 || Inverted(j.log) || Passed(j.log, j.owed))
    ensures var t := Settle(j, k, recorded); t.missing > 0 || Inverted(t.log) || Passed(t.log, t.owed)
  {
    var t := Settle(j, k, recorded);
    if recorded && j.missing == 0 {
      if Inverted(j.log) {
        AppendKeepsInverted(j.log, j.owed[k]);
      } else {
        var e, f :| e in j.log && f in j.owed && Rank(f.from) < Rank(e.from);
        if f == j.owed[k] {
          var i :| 0 <= i < |j.log| && j.log[i] == e;
          assert t.log[i] == e && t.log[|j.log|] == f;
        } else {
          var m :| 0 <= m < |j.owed| && j.owed[m] == f;
          assert f == t.owed[if m < k then m else m - 1];
          assert e in t.log;
        }
      }
    }
  }

  lemma OwedAfterSettle(owed: seq<Edge>, k: nat)
    requires k < |owed|
    requires forall i, m :: 0 <= i < m < |owed| ==> Rank(owed[i].from) < Rank(owed[m].from)
    ensures var rest := RemoveAt(owed, k);
            && (forall i, m :: 0 <= i < m < |rest| ==> Rank(rest[i].from) < Rank(rest[m].from))
            && (forall x <- rest :: x in owed)
            && (k > 0 ==> owed[0] in rest && Rank(owed[0].from) < Rank(owed[k].from))
            && (k == 0 ==> rest == owed[1..])
  {
    var rest := RemoveAt(owed, k);
    assert forall i :: 0 <= i < |rest| ==> rest[i] == owed[if i < k then i else i + 1];
    assert k > 0 ==> rest[0] == owed[0];
  }

  lemma SettleKeepsAccount(j: Journal, k: nat, recorded: bool)
    requires Accounted(j) && k < |j.owed|
    ensures Accounted(Settle(j, k, recorded))
  {
    OwedAfterSettle(j.owed, k);
    assert j.owed[k] in j.owed;
  }

  lemma {:induction false} SettleKeepsOrder(j: Journal, k: nat, recorded: bool)
    requires OrderKnown(j) && k < |j.owed|
    requires k > 0 ==> Rank(j.owed[0].from) < Rank(j.owed[k].from)
    ensures OrderKnown(Settle(j, k, recorded))
  {
    var e, t := j.owed[k], Settle(j, k, recorded);
    if j.overtaken {
      SettleKeepsBroken(j, k, recorded);
    } else if recorded && k > 0 {
      assert e in t.log && t.owed[0] == j.owed[0];
    } else if recorded && j.missing == 0 {
      assert j.log + [e] + j.owed[1..] == j.log + j.owed;
    }
  }

  lemma SettleKeeps(j: Journal, k: nat, recorded: bool)
    requires JournalInv(j) && k < |j.owed|
    ensures JournalInv(Settle(j, k, recorded))
  {
    SettleKeepsAccount(j, k, recorded);
    SettleKeepsOrder(j, k, recorded);
  }

  /** What one section does to the journal. */
  datatype Change =
    | Keep | Logged(to: RunState, recorded: bool) | Unlogged(to: RunState)
    | PassedToBaseline(recorded: bool) | Settled(k: nat, recorded: bool)

  predicate LegalChange(j: Journal, c: Change) {
    match c
    case Keep => true
    case Logged(to, _) => Legal(Edge(j.state, to))
    case Unlogged(to) => Legal(Edge(j.state, to))
    case PassedToBaseline(_) => j.state == PreflightRunning
    case Settled(k, _) => k < |j.owed|
  }

  function Apply(j: Journal, c: Change): Journal
    requires LegalChange(j, c)
  {
    match c
    case Keep => j
    case Logged(to, recorded) => Move(j, to, recorded)
    case Unlogged(to) => MoveUnlogged(j, to)
    case PassedToBaseline(recorded) => MoveUnlogged(Move(j, PreflightPassed, recorded), BaselineRunning)
    case Settled(k, recorded) => Settle(j, k, recorded)
  }

  function ChangeOf(r: Run, st: Step): Change {
    var s := r.j.state;
    match st
    case DoStartCommit(recorded) => if s == Created then Logged(PreflightRunning, recorded) else Keep
    case DoStartFail(recorded) => if s == Created then Logged(Failed, recorded) else Keep
    case DoStop(_, recorded) =>
      if s != Stopping && CanTransition(s, Stopping) then Logged(Stopping, recorded) else Keep
    case DoEmergency(_, recorded) =>
      if s != Stopping && CanTransition(s, Stopping) then Logged(Stopping, recorded) else Keep
    case DoWorkerLost(_, policy, replaced, recorded) =>
      if s == PreflightRunning || (IsRunning(s) && FailsFast(policy, replaced))
      then Logged(Stopping, recorded) else Keep
    case DoBaseline(recorded) => if s == PreflightRunning then PassedToBaseline(recorded) else Keep
    case DoRamp => if s == BaselineRunning then Unlogged(RampRunning) else Keep
    case DoSoak => if s == RampRunning then Unlogged(SoakRunning) else Keep
    case LogOwed(k, recorded) => Settled(k, recorded)
    case LoseOwed(k) => Settled(k, false)
    case FinalizerAttach => Keep
    case FinalizerDone(recorded) =>
      if s == Stopping then Logged(if r.hasStores then Analyzing else Completed, recorded) else Keep
    case DoAnalysisDone(recorded) =>
      if s == Analyzing then Logged(if EmergencyReason(r.stop) then Aborted else Completed, recorded) else Keep
    case DoAnalysisFailed(recorded) => if s == Analyzing then Logged(Failed, recorded) else Keep
  }

  lemma EverySectionIsAChange(r: Run, st: Step)
    requires Enabled(r, st)
    ensures LegalChange(r.j, ChangeOf(r, st)) && Next(r, st).j == Apply(r.j, ChangeOf(r, st))
  {
  }

  lemma ChangeKeeps(j: Journal, c: Change)
    requires JournalInv(j) && LegalChange(j, c)
    ensures JournalInv(Apply(j, c))
  {
    match c
    case Keep =>
    case Logged(to, recorded) => MoveKeeps(j, to, recorded);
    case Unlogged(to) => MoveUnloggedKeeps(j, to);
    case PassedToBaseline(recorded) =>
      MoveKeeps(j, PreflightPassed, recorded);
      MoveUnloggedKeeps(Move(j, PreflightPassed, recorded), BaselineRunning);
    case Settled(k, recorded) => SettleKeeps(j, k, recorded);
  }

  lemma JournalStep(r: Run, st: Step)
    requires Enabled(r, st) && JournalInv(r.j)
    ensures JournalInv(Next(r, st).j)
  {
    EverySectionIsAChange(r, st);
    ChangeKeeps(r.j, ChangeOf(r, st));
  }

  lemma {:induction false} JournalSafe(r: Run, steps: seq<Step>, t: Run)
    requires Reaches(r, steps, t) && JournalInv(r.j)
    ensures JournalInv(t.j)
    decreases |steps|
  {
    if steps != [] {
      JournalStep(r, steps[0]);
      JournalSafe(Next(r, steps[0]), steps[1..], t);
    }
  }

  /**
   Folding the logged transitions from Created is an unbroken legal chain ending at
   the record's state exactly when no event is owed, none was refused or given up,
   and none was appended while an earlier one was owed.
   */
  lemma LogIsChainExactlyWhen(hasStores: bool, steps: seq<Step>, t: Run)
    requires Reaches(New(hasStores), steps, t)
    ensures Chain(t.j.log, t.j.state) <==> t.j.owed == [] && t.j.missing == 0 && !t.j.overtaken
    ensures |t.j.path| <= 8
  {
    JournalSafe(New(hasStores), steps, t);
    var j := t.j;
    ChainRanks(j.path, j.state);
    if Chain(j.log, j.state) {
      ChainUnique(j.log, j.path, j.state);
    }
    if j.owed == [] && j.missing == 0 && !j.overtaken {
      assert j.log + j.owed == j.log;
    }
  }

  lemma IntoBaseline(hasStores: bool) returns (r: Run)
    ensures Reaches(New(hasStores), [DoStartCommit(true), DoBaseline(true)], r)
    ensures r.j.state == BaselineRunning && r.j.missing == 0
    ensures r.j.owed == [Edge(PreflightPassed, BaselineRunning)]
  {
    var r1 := Next(New(hasStores), DoStartCommit(true));
    r := Next(r1, DoBaseline(true));
    ReachesCons(r1, DoBaseline(true), [], r);
    ReachesCons(New(hasStores), DoStartCommit(true), [DoBaseline(true)] + [], r);
    assert [DoStartCommit(true)] + ([DoBaseline(true)] + []) == [DoStartCommit(true), DoBaseline(true)];
  }

  lemma StopThenLateEvent(r: Run, why: StopReason) returns (t: Run)
    requires r.j.state == BaselineRunning && r.j.missing == 0 && |r.j.owed| == 1
    ensures Reaches(r, [DoStop(why, true), LogOwed(0, true)], t)
    ensures t.j.missing == 0 && t.j.owed == [] && t.j.overtaken
  {
    var r1 := Next(r, DoStop(why, true));
    t := Next(r1, LogOwed(0, true));
    ReachesCons(r1, LogOwed(0, true), [], t);
    ReachesCons(r, DoStop(why, true), [LogOwed(0, true)] + [], t);
    assert [DoStop(why, true)] + ([LogOwed(0, true)] + []) == [DoStop(why, true), LogOwed(0, true)];
  }

  lemma {:induction false} ReachesThen(r: Run, a: seq<Step>, s: Run, b: seq<Step>, t: Run)
    requires Reaches(r, a, s) && Reaches(s, b, t)
    ensures Reaches(r, a + b, t)
    decreases |a|
  {
    if a == [] {
      assert a + b == b;
    } else {
      ReachesThen(Next(r, a[0]), a[1..], s, b, t);
      assert (a + b)[1..] == a[1..] + b;
    }
  }

  /** A stop can overtake the baseline event: its state is set under one lock, its event appended later. */
  lemma StopOvertakesBaseline(hasStores: bool, why: StopReason) returns (steps: seq<Step>, t: Run)
    ensures Reaches(New(hasStores), steps, t)
    ensures t.j.missing == 0 && t.j.owed == [] && !Chain(t.j.log, t.j.state)
  {
    var r := IntoBaseline(hasStores);
    t := StopThenLateEvent(r, why);
    steps := [DoStartCommit(true), DoBaseline(true)] + [DoStop(why, true), LogOwed(0, true)];
    ReachesThen(New(hasStores), [DoStartCommit(true), DoBaseline(true)], r, [DoStop(why, true), LogOwed(0, true)], t);
    LogIsChainExactlyWhen(hasStores, steps, t);
  }

  lemma ReachesCons(r: Run, st: Step, rest: seq<Step>, t: Run)
    requires Enabled(r, st) && Reaches(Next(r, st), rest, t)
    ensures Reaches(r, [st] + rest, t)
  {
    assert ([st] + rest)[1..] == rest;
  }

  // ---------------------------------------------------------------------------
  // Emergency stops

  /**
   However an emergency stop is interleaved with everything else: the run ends
   completed exactly when the manager lacks a store, and aborted or failed otherwise.
   */
  lemma EmergencyEnds(hasStores: bool, steps: seq<Step>, t: Run)
    requires Reaches(New(hasStores), steps, t) && t.emergency && Terminal(t.j.state)
    ensures t.j.state == Completed <==> !hasStores
    ensures t.j.state == Aborted || t.j.state == Failed <==> hasStores
  {
    RunKeepsLifecycle(New(hasStores), steps, t);
  }

  /** A run stopped in an emergency from preflight, without stores: it ends completed. */
  lemma EmergencyCompletesWithoutStores(actor: string) returns (steps: seq<Step>, t: Run)
    ensures Reaches(New(false), steps, t) && t.emergency && t.j.state == Completed
  {
    var r1 := Next(New(false), DoStartCommit(true));
    var r2 := Next(r1, DoEmergency(actor, true));
    t := Next(r2, FinalizerDone(true));
    steps := [DoStartCommit(true)] + ([DoEmergency(actor, true)] + ([FinalizerDone(true)] + []));
    ReachesCons(r2, FinalizerDone(true), [], t);
    ReachesCons(r1, DoEmergency(actor, true), [FinalizerDone(true)] + [], t);
    ReachesCons(New(false), DoStartCommit(true), [DoEmergency(actor, true)] + ([FinalizerDone(true)] + []), t);
  }

  lemma {:induction false} AnalysisAfterEmergency(r: Run, steps: seq<Step>, t: Run)
    requires Reaches(r, steps, t) && r.emergency && EmergencyHolds(r) && r.j.state == Analyzing
    ensures t.j.state in {Analyzing, Aborted, Failed}
    decreases |steps|
  {
    if steps != [] {
      var n := Next(r, steps[0]);
      EmergencyStep(r, steps[0]);
      if n.j.state == Analyzing {
        AnalysisAfterEmergency(n, steps[1..], t);
      } else {
        TerminalIsForever(n, steps[1..], t);
      }
    }
  }

  /** A run stopped by emergency that reaches Analyzing ends Aborted or Failed. */
  lemma EmergencyNeverCompletesAnalysis(hasStores: bool, before: seq<Step>, r: Run, steps: seq<Step>, t: Run)
    requires Reaches(New(hasStores), before, r) && r.emergency && r.j.state == Analyzing && Reaches(r, steps, t)
    ensures t.j.state in {Analyzing, Aborted, Failed}
  {
    RunKeepsLifecycle(New(hasStores), before, r);
    AnalysisAfterEmergency(r, steps, t);
  }

  /** With the stores, once an emergency stop is accepted some continuation ends aborted, and none completed. */
  lemma EmergencyCanAbort(hasStores: bool, before: seq<Step>, r: Run) returns (t: Run)
    requires Reaches(New(hasStores), before, r) && hasStores && r.emergency && r.j.state == Stopping
    ensures exists steps :: Reaches(r, steps, t)
    ensures t.j.state == Aborted
  {
    RunKeepsLifecycle(New(hasStores), before, r);
    var r1 := Next(r, FinalizerDone(true));
    t := Next(r1, DoAnalysisDone(true));
    ReachesCons(r1, DoAnalysisDone(true), [], t);
    ReachesCons(r, FinalizerDone(true), [DoAnalysisDone(true)] + [], t);
  }

  // ---------------------------------------------------------------------------
  // What a section does, told without the table and the functions that do it

  const STOPPABLE: set<RunState> :=
    {PreflightRunning, PreflightPassed, PreflightFailed, BaselineRunning, RampRunning, SoakRunning}

  /** A stop request is taken in every state between preflight and soak, and changes nothing in any other. */
  lemma StopTakenIff(r: Run, why: StopReason, recorded: bool)
    ensures var t := Next(r, DoStop(why, recorded));
            if r.j.state in STOPPABLE
            then t.j.state == Stopping && t.stop == Some(why) && t.finalizers == r.finalizers + 1 && t.drain.Some?
            else t == r
  {
  }

  /** An emergency is taken there too, and in a run already stopping, whose drain it cuts short. */
  lemma EmergencyTakenIff(r: Run, actor: string, recorded: bool)
    ensures var t := Next(r, DoEmergency(actor, recorded));
            var why := Some(StopReason(Immediate, "emergency_stop", actor));
            if r.j.state in STOPPABLE
            then t.j.state == Stopping && t.stop == why && t.emergency && t.finalizers == r.finalizers + 1
            else if r.j.state == Stopping
            then && t.j == r.j && t.stop == why && t.emergency && t.immediate && t.drain.None?
                 && (r.drain.Some? ==> r.drain.value in t.closes)
            else t == r
  {
  }

  /** Losing a worker stops a run that is under way, unless the policy is to carry on or a replacement was found. */
  lemma LossStopsIff(r: Run, worker: string, policy: string, replaced: bool, recorded: bool)
    requires r.j.state in {PreflightRunning, BaselineRunning, RampRunning, SoakRunning}
    ensures var t := Next(r, DoWorkerLost(worker, policy, replaced, recorded));
            var stops := r.j.state == PreflightRunning || policy !in {"best_effort", "replace_if_possible"} ||
                         (policy == "replace_if_possible" && !replaced);
            if stops then t.j.state == Stopping && t.stop.Some? && t.stop.value.mode == Immediate else t == r
  {
  }

  lemma LossCutsDrain(r: Run, worker: string, policy: string, replaced: bool, recorded: bool)
    requires r.j.state == Stopping && r.drain.Some?
    ensures var t := Next(r, DoWorkerLost(worker, policy, replaced, recorded));
            t.j == r.j && t.drain.None? && t.closes == r.closes + [r.drain.value]
  {
  }

  /** A completed analysis ends a run aborted exactly when the recorded reason is an emergency, and else completed. */
  lemma AnalysisEnds(r: Run, recorded: bool)
    requires r.j.state == Analyzing
    ensures var t := Next(r, DoAnalysisDone(recorded));
            && (t.j.state == Aborted <==>
                  r.stop.Some? && (r.stop.value.reason == "emergency_stop" ||
                                   (r.stop.value.mode == Immediate && r.stop.value.actor == "emergency")))
            && t.j.state in {Aborted, Completed}
  {
  }

  /** Neither an emergency stop nor a request that reads like one. */
  predicate Ordinary(st: Step) {
    match st
    case DoEmergency(_, _) => false
    case DoStop(why, _) => why.reason != "emergency_stop" && !(why.mode == Immediate && why.actor == "emergency")
    case _ => true
  }

  /** The reason on record, if any, is not an emergency, and the run is not aborted. */
  ghost predicate Calm(r: Run) {
    && r.j.state != Aborted
    && (r.stop.Some? ==> r.stop.value.reason != "emergency_stop" &&
                         !(r.stop.value.mode == Immediate && r.stop.value.actor == "emergency"))
  }

  lemma LostIsNoEmergency(worker: string)
    ensures LostReason(worker).reason != "emergency_stop" && LostReason(worker).actor != "emergency"
  {
    assert LostReason(worker).reason[0] == 'w' && "emergency_stop"[0] == 'e';
    assert LostReason(worker).actor[0] == 's' && "emergency"[0] == 'e';
  }

  lemma StepStaysCalm(r: Run, st: Step)
    requires Calm(r) && Enabled(r, st) && Ordinary(st)
    ensures Calm(Next(r, st))
  {
    if st.DoWorkerLost? {
      LostIsNoEmergency(st.worker);
    } else if st.DoAnalysisDone? && r.j.state == Analyzing {
      AnalysisEnds(r, st.recorded);
    }
  }

  lemma {:induction false} RunStaysCalm(r: Run, steps: seq<Step>, t: Run)
    requires Calm(r) && Reaches(r, steps, t) && forall st <- steps :: Ordinary(st)
    ensures Calm(t)
    decreases |steps|
  {
    if steps != [] {
      StepStaysCalm(r, steps[0]);
      RunStaysCalm(Next(r, steps[0]), steps[1..], t);
    }
  }

  /** Without an emergency no interleaving aborts a run, and a completed analysis completes it. */
  lemma OrdinaryNeverAborts(hasStores: bool, steps: seq<Step>, t: Run, recorded: bool)
    requires Reaches(New(hasStores), steps, t) && forall st <- steps :: Ordinary(st)
    ensures t.j.state != Aborted
    ensures t.j.state == Analyzing ==> Next(t, DoAnalysisDone(recorded)).j.state == Completed
  {
    RunStaysCalm(New(hasStores), steps, t);
    if t.j.state == Analyzing {
      AnalysisEnds(t, recorded);
    }
  }

  /** The way of a run that is stopped in its last stage. */
  const WAY: seq<Edge> :=
    [Edge(Created, PreflightRunning), Edge(PreflightRunning, PreflightPassed), Edge(PreflightPassed, BaselineRunning),
     Edge(BaselineRunning, RampRunning), Edge(RampRunning, SoakRunning), Edge(SoakRunning, Stopping),
     Edge(Stopping, Analyzing), Edge(Analyzing, Completed)]

  /** A reachable run of a manager with both stores that has gone `k` edges of the way. */
  ghost predicate Along(r: Run, k: nat) {
    && k <= |WAY| && (exists steps :: Reaches(New(true), steps, r)) && r.j.path == WAY[..k] && r.hasStores
    && r.j.state == (if k == 0 then Created else WAY[k - 1].to)
  }

  lemma WayMore(path: seq<Edge>, k: nat, m: nat)
    requires k < m <= |WAY| && path == WAY[..k] + WAY[k..m]
    ensures path == WAY[..m]
  {
  }

  lemma ReachedMore(r: Run, st: Step)
    requires (exists steps :: Reaches(New(true), steps, r)) && Enabled(r, st)
    ensures exists steps :: Reaches(New(true), steps, Next(r, st))
  {
    var steps :| Reaches(New(true), steps, r);
    var t := Next(r, st);
    assert Reaches(t, [], t);
    ReachesCons(r, st, [], t);
    ReachesThen(New(true), steps, r, [st] + [], t);
  }

  /** One edge further. */
  lemma StepAlong(r: Run, st: Step, k: nat)
    requires Along(r, k) && k < |WAY| && Enabled(r, st)
    requires var t := Next(r, st); t.j.path == r.j.path + [WAY[k]] && t.j.state == WAY[k].to && t.hasStores
    ensures Along(Next(r, st), k + 1)
  {
    ReachedMore(r, st);
    assert WAY[k..k + 1] == [WAY[k]];
    WayMore(Next(r, st).j.path, k, k + 1);
  }

  lemma IntoPreflight() returns (t: Run)
    ensures Along(t, 1) && t.finalizers == 0
  {
    assert Reaches(New(true), [], New(true)) && WAY[..0] == [];
    t := Next(New(true), DoStartCommit(true));
    StepAlong(New(true), DoStartCommit(true), 0);
  }

  lemma OnToBaseline(r: Run) returns (t: Run)
    requires Along(r, 1) && r.finalizers == 0
    ensures Along(t, 3) && t.finalizers == 0
  {
    t := Next(r, DoBaseline(true));
    ReachedMore(r, DoBaseline(true));
    assert t.j.path == r.j.path + WAY[1..3];
    WayMore(t.j.path, 1, 3);
  }

  lemma OnToSoak(r: Run) returns (t: Run)
    requires Along(r, 3) && r.finalizers == 0
    ensures Along(t, 5) && t.finalizers == 0
  {
    var u := Next(r, DoRamp);
    StepAlong(r, DoRamp, 3);
    t := Next(u, DoSoak);
    StepAlong(u, DoSoak, 4);
  }

  lemma OnToAnalysis(r: Run, why: StopReason) returns (t: Run)
    requires Along(r, 5) && r.finalizers == 0
    ensures Along(t, 7) && t.stop == Some(why)
  {
    var u := Next(r, DoStop(why, true));
    StepAlong(r, DoStop(why, true), 5);
    t := Next(u, FinalizerDone(true));
    StepAlong(u, FinalizerDone(true), 6);
  }

  /** With both stores and no emergency, a run can go through every stage, be stopped, be analysed and complete. */
  lemma EveryStageThenCompleted(why: StopReason) returns (t: Run)
    requires Ordinary(DoStop(why, true))
    ensures (exists steps :: Reaches(New(true), steps, t)) && t.j.path == WAY && t.j.state == Completed
  {
    var r := IntoPreflight();
    r := OnToBaseline(r);
    r := OnToSoak(r);
    r := OnToAnalysis(r, why);
    t := Next(r, DoAnalysisDone(true));
    StepAlong(r, DoAnalysisDone(true), 7);
    assert WAY[..8] == WAY;
  }
}
