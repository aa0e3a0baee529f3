/**
 The termination handler: Run and the worker it starts, as two processes that share a
 one-slot channel, a wait group and a cancellable context.
 */
module Termination {
  import opened Common
  import opened NodeMarking

  /** One request to the termination endpoint: TRUE, anything else, or an error. */
  datatype Check = Yes | No | CheckError

  datatype Verdict = Nil | Failure

  const MARK_TICKS: nat := 30

  datatype NodeObject = NodeObject(conditions: seq<NodeCondition>, version: nat)

  datatype Worker =
    | Polling                                        // about to ask the endpoint
    | Waiting                                        // between two polls
    | FinalCheck
    | ChooseContext
    | MarkGet(detached: bool, ticks: nat)            // detached: working on a background context
    | MarkUpdate(detached: bool, ticks: nat, node: NodeObject)
    | MarkWait(detached: bool, ticks: nat)
    | Sending(verdict: Verdict)
    | Sent
    | Exited

  datatype Run =
    | Selecting
    | Stopping                                       // cancelled, waiting for the worker
    | ReturnedOnStop
    | ReturnedFromWorker(verdict: Verdict)

  datatype State = State(
    run: Run, worker: Worker,
    stop: bool, cancelled: bool, errs: Option<Verdict>, workerDone: bool,
    node: NodeObject,
    lastCheck: Option<Check>, finalCheck: Option<Check>,
    attempts: nat, writes: nat, updated: bool)

  datatype UpdateFault = UpdateClean | UpdateLost | UpdateUnanswered

  datatype Step =
    | CloseStop
    | OtherWriter(conditions: seq<NodeCondition>)
    | Poll(answer: Check)
    | PollTick
    | PollCancelled
    | AskFinally(answer: Check)
    | PickContext
    | GetNode(ok: bool)
    | UpdateNode(fault: UpdateFault, now: int)
    | CallCancelled    // a call of the marking attempt fails because its context was cancelled
    | MarkTick
    | MarkTimesOut     // the thirty seconds are over
    | MarkCancelled    // the context of the marking was cancelled
    | Send
    | WorkerDone
    | RunSeesStop
    | RunWaited
    | RunReceives

  predicate Enabled(s: State, step: Step) {
    match step
    case CloseStop => !s.stop
    case OtherWriter(_) => true
    case Poll(_) => s.worker.Polling?
    case PollTick => s.worker.Waiting? && !s.cancelled
    case PollCancelled => s.worker.Waiting? && s.cancelled
    case AskFinally(_) => s.worker.FinalCheck?
    case PickContext => s.worker.ChooseContext?
    case GetNode(_) => s.worker.MarkGet?
    case UpdateNode(_, _) => s.worker.MarkUpdate?
    case CallCancelled => (s.worker.MarkGet? || s.worker.MarkUpdate?) && s.cancelled && !s.worker.detached
    case MarkTick => s.worker.MarkWait? && s.worker.ticks > 0 && (s.cancelled ==> s.worker.detached)
    case MarkTimesOut => s.worker.MarkWait?
    case MarkCancelled => s.worker.MarkWait? && s.cancelled && !s.worker.detached
    case Send => s.worker.Sending? && s.errs.None?
    case WorkerDone => s.worker.Sent?
    case RunSeesStop => s.run.Selecting? && s.stop
    case RunWaited => s.run.Stopping? && s.workerDone
    case RunReceives => s.run.Selecting? && s.errs.Some?
  }

  function Next(s: State, step: Step): State
    requires Enabled(s, step)
  {
    match step
    case CloseStop => s.(stop := true)
    case OtherWriter(conditions) => s.(node := NodeObject(conditions, s.node.version + 1))
    case Poll(answer) =>
      s.(lastCheck := Some(answer),
         worker := match answer case Yes => FinalCheck case No => Waiting case CheckError => Sending(Failure))
    case PollTick => s.(worker := Polling)
    case PollCancelled => s.(worker := FinalCheck)
    case AskFinally(answer) =>
      s.(lastCheck := Some(answer), finalCheck := Some(answer),
         worker := match answer case Yes => ChooseContext case No => Sending(Nil) case CheckError => Sending(Failure))
    case PickContext => s.(worker := MarkGet(s.cancelled, MARK_TICKS))
    case GetNode(ok) =>
      s.(attempts := s.attempts + 1,
         worker := if ok then MarkUpdate(s.worker.detached, s.worker.ticks, s.node)
                   else MarkWait(s.worker.detached, s.worker.ticks))
    case UpdateNode(fault, now) =>
      var copy := s.worker.node;
      if fault == UpdateLost || copy.version != s.node.version then
        s.(worker := MarkWait(s.worker.detached, s.worker.ticks))
      else
        s.(node := NodeObject(Marked(copy.conditions, now), copy.version + 1),
           writes := s.writes + 1,
           updated := s.updated || fault == UpdateClean,
           worker := if fault == UpdateClean then Sending(Nil) else MarkWait(s.worker.detached, s.worker.ticks))
    case CallCancelled =>
      s.(attempts := if s.worker.MarkGet? then s.attempts + 1 else s.attempts,
         worker := MarkWait(s.worker.detached, s.worker.ticks))
    case MarkTick => s.(worker := MarkGet(s.worker.detached, s.worker.ticks - 1))
    case MarkTimesOut => s.(worker := Sending(Failure))
    case MarkCancelled => s.(worker := Sending(Failure))
    case Send => s.(errs := Some(s.worker.verdict), worker := Sent)
    case WorkerDone => s.(worker := Exited, workerDone := true)
    case RunSeesStop => s.(run := Stopping, cancelled := true)
    case RunWaited => s.(run := ReturnedOnStop)
    case RunReceives => s.(run := ReturnedFromWorker(s.errs.value), cancelled := true, errs := None)
  }

  predicate Returned(s: State) {
    s.run.ReturnedOnStop? || s.run.ReturnedFromWorker?
  }

  predicate Marking(w: Worker) {
    w.ChooseContext? || w.MarkGet? || w.MarkUpdate? || w.MarkWait?
  }

  function Start(node: NodeObject): State {
    State(Selecting, Polling, false, false, None, false, node, None, None, 0, 0, false)
  }

  /** A verdict is nil exactly if a node update succeeded or the last check answered, and not TRUE. */
  ghost predicate Earned(s: State, v: Verdict) {
    v == Nil <==> s.updated || s.lastCheck == Some(No)
  }

  predicate BeforeFinal(w: Worker) {
    w.Polling? || w.Waiting? || w.FinalCheck?
  }

  predicate Over(w: Worker) {
    w.Sent? || w.Exited?
  }

  ghost predicate WriteInvariant(s: State) {
    && (BeforeFinal(s.worker) ==> s.writes == 0 && !s.updated)
    && (s.writes > 0 || s.updated || Marking(s.worker) ==> s.finalCheck == Some(Yes))
  }

  /**
   While the node is being marked the last check stands and no update has succeeded; after it, TRUE was the final
   answer.
   */
  ghost predicate CheckInvariant(s: State) {
    && (Marking(s.worker) ==> s.lastCheck == Some(Yes))
    && (Marking(s.worker) || BeforeFinal(s.worker) ==> !s.updated)
  }

  /** The final check is the last one; only a failed poll does without it. */
  ghost predicate FinalInvariant(s: State) {
    && (BeforeFinal(s.worker) <==> s.finalCheck.None? && !(Over(s.worker) || s.worker.Sending?))
    && (s.finalCheck.Some? ==> s.lastCheck == s.finalCheck)
    && (!BeforeFinal(s.worker) && s.finalCheck.None? ==> s.lastCheck == Some(CheckError))
  }

  ghost predicate AttemptInvariant(s: State) {
    && s.attempts <= MARK_TICKS + 1
    && (BeforeFinal(s.worker) || s.worker.ChooseContext? ==> s.attempts == 0)
    && (s.worker.MarkGet? ==> s.attempts + s.worker.ticks == MARK_TICKS)
    && (s.worker.MarkUpdate? || s.worker.MarkWait? ==> s.attempts + s.worker.ticks == MARK_TICKS + 1)
  }

  ghost predicate ChannelInvariant(s: State) {
    && (s.errs.Some? ==> Over(s.worker) && !s.run.ReturnedFromWorker?)
    && (Over(s.worker) ==> s.errs.Some? || s.run.ReturnedFromWorker?)
    && (s.workerDone <==> s.worker.Exited?)
    && (s.run.ReturnedFromWorker? ==> Over(s.worker))
    && (s.run.ReturnedOnStop? ==> s.worker.Exited?)
    && (s.cancelled <==> !s.run.Selecting?)
  }

  ghost predicate VerdictInvariant(s: State) {
    && (s.worker.Sending? ==> Earned(s, s.worker.verdict))
    && (s.errs.Some? ==> Earned(s, s.errs.value))
    && (s.run.ReturnedFromWorker? ==> Earned(s, s.run.verdict))
  }

  ghost predicate Invariant(s: State) {
    && WriteInvariant(s) && CheckInvariant(s) && FinalInvariant(s)
    && AttemptInvariant(s) && ChannelInvariant(s) && VerdictInvariant(s)
  }

  lemma NextKeepsVerdicts(s: State, step: Step)
    requires VerdictInvariant(s) && ChannelInvariant(s) && CheckInvariant(s) && Enabled(s, step)
    ensures VerdictInvariant(Next(s, step))
  {
    assert Over(s.worker) ==> Next(s, step).updated == s.updated && Next(s, step).lastCheck == s.lastCheck;
  }

  lemma NextKeepsWrites(s: State, step: Step)
    requires WriteInvariant(s) && Enabled(s, step)
    ensures WriteInvariant(Next(s, step))
  {
  }

  lemma NextKeepsChecks(s: State, step: Step)
    requires CheckInvariant(s) && Enabled(s, step)
    ensures CheckInvariant(Next(s, step))
  {
    var s' := Next(s, step);
    if Marking(s'.worker) || BeforeFinal(s'.worker) {
      StepsBackToMarking(s, step);
    }
  }

  /** A worker that is to check or to mark was so before, or is so by a final check just made. */
  lemma StepsBackToMarking(s: State, step: Step)
    requires Enabled(s, step) && (Marking(Next(s, step).worker) || BeforeFinal(Next(s, step).worker))
    ensures Marking(s.worker) || BeforeFinal(s.worker)
    ensures Next(s, step).updated == s.updated
    ensures Marking(Next(s, step).worker) ==>
      if step.AskFinally? then step.answer == Yes && Next(s, step).lastCheck == Some(Yes)
      else Marking(s.worker) && Next(s, step).lastCheck == s.lastCheck
  {
  }

  lemma NextKeepsFinal(s: State, step: Step)
    requires FinalInvariant(s) && Enabled(s, step)
    ensures FinalInvariant(Next(s, step))
  {
  }

  lemma NextKeepsAttempts(s: State, step: Step)
    requires AttemptInvariant(s) && Enabled(s, step)
    ensures AttemptInvariant(Next(s, step))
  {
  }

  lemma NextKeepsChannel(s: State, step: Step)
    requires ChannelInvariant(s) && Enabled(s, step)
    ensures ChannelInvariant(Next(s, step))
  {
  }

  lemma NextKeepsInvariant(s: State, step: Step, s': State)
    requires Invariant(s) && Follows(s, step, s')
    ensures Invariant(s')
  {
    NextKeepsWrites(s, step);
    NextKeepsChecks(s, step);
    NextKeepsFinal(s, step);
    NextKeepsAttempts(s, step);
    NextKeepsChannel(s, step);
    NextKeepsVerdicts(s, step);
  }

  /** A returned Run stays returned, and its worker is past every write. */
  lemma NextAfterReturn(s: State, step: Step, s': State)
    requires ChannelInvariant(s) && Returned(s) && Follows(s, step, s')
    ensures s'.run == s.run && s'.writes == s.writes
  {
    assert Over(s.worker);
  }

  ghost predicate Follows(s: State, step: Step, s': State) {
    Enabled(s, step) && s' == Next(s, step)
  }

  ghost predicate IsExecution(states: seq<State>, steps: seq<Step>) {
    && |states| == |steps| + 1
    && (exists node :: states[0] == Start(node))
    && forall i :: 0 <= i < |steps| ==> Follows(states[i], steps[i], states[i + 1])
  }

  lemma {:induction false} InvariantHolds(states: seq<State>, steps: seq<Step>, n: nat)
    requires IsExecution(states, steps) && n < |states|
    ensures Invariant(states[n])
  {
    if n == 0 {
    } else {
      InvariantHolds(states, steps, n - 1);
      NextKeepsInvariant(states[n - 1], steps[n - 1], states[n]);
    }
  }

  /** The node is written only after the final check answered TRUE, and every write leaves it saying Terminating. */
  lemma WritesOnlyAfterTrue(states: seq<State>, steps: seq<Step>, n: nat)
    requires IsExecution(states, steps) && n < |steps|
    requires states[n + 1].writes != states[n].writes
    ensures states[n].finalCheck == Some(Yes) && !Returned(states[n])
    ensures SaysTerminating(states[n + 1].node.conditions) &&
        Keeps(states[n].node.conditions, states[n + 1].node.conditions)
  {
    InvariantHolds(states, steps, n);
    var s, step := states[n], steps[n];
    assert Follows(s, step, states[n + 1]);
    if step.UpdateNode? {
      MarkTheorem(s.worker.node.conditions, step.now);
      StaleCopiesAreRefused(states, steps, n);
    }
  }

  /** A fetched node whose version is still current is the current node. */
  ghost predicate CopyHonest(s: State) {
    s.worker.MarkUpdate? ==>
      s.worker.node.version <= s.node.version && (s.worker.node.version == s.node.version ==> s.worker.node == s.node)
  }

  lemma NextKeepsCopyHonest(s: State, step: Step, s': State)
    requires CopyHonest(s) && Follows(s, step, s')
    ensures CopyHonest(s')
  {
  }

  lemma {:induction false} StaleCopiesAreRefused(states: seq<State>, steps: seq<Step>, n: nat)
    requires IsExecution(states, steps) && n < |states|
    ensures CopyHonest(states[n])
  {
    if n == 0 {
    } else {
      StaleCopiesAreRefused(states, steps, n - 1);
      NextKeepsCopyHonest(states[n - 1], steps[n - 1], states[n]);
    }
  }

  /** Once Run has returned, on either branch, the node is not written again. */
  lemma {:induction false} NoWriteAfterReturn(states: seq<State>, steps: seq<Step>, m: nat, n: nat)
    requires IsExecution(states, steps) && m <= n < |states|
    requires Returned(states[m])
    ensures Returned(states[n]) && states[n].writes == states[m].writes && states[n].run == states[m].run
  {
    if m == n {
    } else {
      NoWriteAfterReturn(states, steps, m, n - 1);
      InvariantHolds(states, steps, n - 1);
      NextAfterReturn(states[n - 1], steps[n - 1], states[n]);
    }
  }

  /** The worker's send finds the slot free, whatever Run is doing. */
  lemma SendNeverBlocks(states: seq<State>, steps: seq<Step>, n: nat)
    requires IsExecution(states, steps) && n < |states|
    requires states[n].worker.Sending?
    ensures Enabled(states[n], Send)
  {
    InvariantHolds(states, steps, n);
  }

  /**
   Run returns nil through the channel exactly when a node update succeeded or the last check answered
   something other than TRUE; and marking was tried at most once per second of its thirty, plus once.
   */
  lemma NilIsEarned(states: seq<State>, steps: seq<Step>, n: nat)
    requires IsExecution(states, steps) && n < |states|
    ensures states[n].run.ReturnedFromWorker? ==>
      (states[n].run.verdict == Nil <==> states[n].updated || states[n].lastCheck == Some(No))
    ensures states[n].attempts <= 31
  {
    InvariantHolds(states, steps, n);
  }

  /** As long as its context lives, a marking that has failed so far is tried again, thirty times after the first. */
  lemma MarkingIsRetried(states: seq<State>, steps: seq<Step>, n: nat)
    requires IsExecution(states, steps) && n < |states| && states[n].worker.MarkWait?
    requires states[n].cancelled ==> states[n].worker.detached
    ensures Enabled(states[n], MarkTick) <==> states[n].attempts < 31
  {
    InvariantHolds(states, steps, n);
  }

  predicate IsFailedCheck(step: Step) {
    step == Poll(CheckError) || step == AskFinally(CheckError)
  }

  /** The last check failed, and the worker is past marking. */
  ghost predicate HasFailed(s: State) {
    && s.lastCheck == Some(CheckError) && s.writes == 0 && !s.updated
    && (s.worker.Sending? || Over(s.worker))
  }

  lemma NextAfterFailedCheck(s: State, step: Step, s': State)
    requires Invariant(s) && Follows(s, step, s')
    requires IsFailedCheck(step) || HasFailed(s)
    ensures HasFailed(s')
  {
  }

  lemma {:induction false} FailedCheckStays(states: seq<State>, steps: seq<Step>, k: nat, n: nat)
    requires IsExecution(states, steps) && k < n < |states| && IsFailedCheck(steps[k])
    ensures HasFailed(states[n])
  {
    InvariantHolds(states, steps, n - 1);
    if n == k + 1 {
    } else {
      FailedCheckStays(states, steps, k, n - 1);
    }
    NextAfterFailedCheck(states[n - 1], steps[n - 1], states[n]);
  }

  /**
   A check that fails, polled or final, is reported: from then on the node is not written, and the only
   verdict that is sent, held in the channel or returned from the worker is a failure.
   */
  lemma FailedCheckIsReported(states: seq<State>, steps: seq<Step>, k: nat, n: nat)
    requires IsExecution(states, steps) && k < n < |states| && IsFailedCheck(steps[k])
    ensures states[n].writes == 0
    ensures states[n].worker.Sending? ==> states[n].worker.verdict == Failure
    ensures states[n].errs.Some? ==> states[n].errs.value == Failure
    ensures states[n].run.ReturnedFromWorker? ==> states[n].run.verdict == Failure
  {
    FailedCheckStays(states, steps, k, n);
    InvariantHolds(states, steps, n);
  }

  /** However Run returns, the endpoint was asked once more after polling ended, unless the polling itself failed. */
  lemma EveryRunAsksFinally(states: seq<State>, steps: seq<Step>, n: nat)
    requires IsExecution(states, steps) && n < |states| && Returned(states[n])
    ensures states[n].lastCheck.Some?
    ensures states[n].finalCheck == states[n].lastCheck || states[n].lastCheck == Some(CheckError)
  {
    InvariantHolds(states, steps, n);
  }

  // ----- progress -----

  predicate IsOwn(step: Step) {
    !step.CloseStop? && !step.OtherWriter?
  }

  /** Until Run has returned, one of the two processes can move. */
  lemma NoDeadlock(s: State)
    requires Invariant(s) && !Returned(s)
    ensures exists step :: IsOwn(step) && Enabled(s, step)
  {
    var step := match s.worker
      case Polling => Poll(No)
      case Waiting => if s.cancelled then PollCancelled else PollTick
      case FinalCheck => AskFinally(No)
      case ChooseContext => PickContext
      case MarkGet(_, _) => GetNode(true)
      case MarkUpdate(_, _, _) => UpdateNode(UpdateClean, 0)
      case MarkWait(_, _) => MarkTimesOut
      case Sending(_) => Send
      case Sent => WorkerDone
      case Exited => if s.run.Stopping? then RunWaited else RunReceives;
    assert IsOwn(step) && Enabled(s, step);
  }

  function WorkerRank(w: Worker): nat {
    match w
    case Polling => 99
    case Waiting => 98
    case FinalCheck => 97
    case ChooseContext => 96
    case MarkGet(_, ticks) => ticks + ticks + ticks + 5
    case MarkUpdate(_, ticks, _) => ticks + ticks + ticks + 4
    case MarkWait(_, ticks) => ticks + ticks + ticks + 3
    case Sending(_) => 2
    case Sent => 1
    case Exited => 0
  }

  function Rank(s: State): nat {
    WorkerRank(s.worker) + if Returned(s) then 0 else 1
  }

  predicate IsWorkers(step: Step) {
    IsOwn(step) && !step.RunSeesStop? && !step.RunWaited? && !step.RunReceives?
  }

  /** Where one worker step can lead once the context is cancelled. */
  ghost predicate MovesOn(w: Worker, w': Worker) {
    match w
    case Polling => w'.FinalCheck? || w'.Waiting? || w'.Sending?
    case Waiting => w'.FinalCheck?
    case FinalCheck => w'.ChooseContext? || w'.Sending?
    case ChooseContext => w'.MarkGet? && w'.ticks == MARK_TICKS
    case MarkGet(_, ticks) => (w'.MarkUpdate? || w'.MarkWait?) && w'.ticks == ticks
    case MarkUpdate(_, ticks, _) => w'.Sending? || (w'.MarkWait? && w'.ticks == ticks)
    case MarkWait(_, ticks) => w'.Sending? || (w'.MarkGet? && w'.ticks == ticks - 1)
    case Sending(_) => w'.Sent?
    case Sent => w'.Exited?
    case Exited => false
  }

  lemma CancelledWorkerMovesOn(s: State, step: Step)
    requires s.cancelled && Enabled(s, step) && IsWorkers(step)
    ensures MovesOn(s.worker, Next(s, step).worker) && Next(s, step).run == s.run
  {
  }

  lemma MovingOnLowersRank(w: Worker, w': Worker)
    requires MovesOn(w, w')
    ensures WorkerRank(w') < WorkerRank(w)
  {
  }

  /** Once cancelled, every step of either process brings Run closer to its return. */
  lemma CancelledRunAdvances(s: State, step: Step, s': State)
    requires ChannelInvariant(s) && s.cancelled && Follows(s, step, s')
    ensures s'.cancelled
    ensures if IsOwn(step) then Rank(s') < Rank(s) else Rank(s') == Rank(s)
  {
    if IsWorkers(step) {
      CancelledWorkerMovesOn(s, step);
      MovingOnLowersRank(s.worker, Next(s, step).worker);
    }
  }

  function OwnSteps(steps: seq<Step>): nat {
    if steps == [] then 0 else (if IsOwn(steps[|steps| - 1]) then 1 else 0) + OwnSteps(steps[..|steps| - 1])
  }

  lemma RankIsBounded(s: State)
    requires AttemptInvariant(s)
    ensures Rank(s) <= 100
    ensures Rank(s) == 0 ==> Returned(s)
  {
  }

  lemma OwnStepsGrow(steps: seq<Step>, m: nat, n: nat)
    requires m < n <= |steps|
    ensures OwnSteps(steps[m..n]) == OwnSteps(steps[m..n - 1]) + if IsOwn(steps[n - 1]) then 1 else 0
  {
    assert steps[m..n][..n - 1 - m] == steps[m..n - 1];
  }

  /** A measure that every own step lowers bounds the number of own steps. */
  lemma {:induction false} MeasurePaysForSteps(measure: seq<nat>, steps: seq<Step>, m: nat, n: nat)
    requires m <= n <= |steps| && |measure| == |steps| + 1
    requires forall i :: m <= i < n ==> measure[i + 1] + (if IsOwn(steps[i]) then 1 else 0) <= measure[i]
    ensures OwnSteps(steps[m..n]) + measure[n] <= measure[m]
  {
    if m == n {
    } else {
      MeasurePaysForSteps(measure, steps, m, n - 1);
      OwnStepsGrow(steps, m, n);
    }
  }

  lemma {:induction false} CancelledStays(states: seq<State>, steps: seq<Step>, m: nat, n: nat)
    requires IsExecution(states, steps) && m <= n < |states| && states[m].cancelled
    ensures states[n].cancelled
  {
    if m == n {
    } else {
      CancelledStays(states, steps, m, n - 1);
      assert Follows(states[n - 1], steps[n - 1], states[n]);
    }
  }

  /** After Run has seen stop, at most 100 further steps of the two processes are possible; then Run has returned. */
  lemma StopEndsRun(states: seq<State>, steps: seq<Step>, m: nat, n: nat)
    requires IsExecution(states, steps) && m <= n < |states|
    requires states[m].cancelled
    ensures OwnSteps(steps[m..n]) <= 100
    ensures OwnSteps(steps[m..n]) == 100 ==> Returned(states[n])
  {
    var measure: seq<nat> := seq(|states|, i requires 0 <= i < |states| => Rank(states[i]));
    forall i | m <= i < n
      ensures measure[i + 1] + (if IsOwn(steps[i]) then 1 else 0) <= measure[i]
    {
      CancelledStays(states, steps, m, i);
      InvariantHolds(states, steps, i);
      CancelledRunAdvances(states[i], steps[i], states[i + 1]);
    }
    MeasurePaysForSteps(measure, steps, m, n);
    InvariantHolds(states, steps, m);
    RankIsBounded(states[m]);
    InvariantHolds(states, steps, n);
    RankIsBounded(states[n]);
  }

  // ----- what the stop branch does not promise -----

  /** Run returned nil on the stop branch although the last check answered TRUE and no node update was acknowledged. */
  predicate Abandoned(s: State) {
    s.run.ReturnedOnStop? && s.lastCheck == Some(Yes) && !s.updated
  }

  /** The worker's context for marking was, or will be, chosen before Run saw the stop. */
  predicate ChosenBeforeStop(s: State)
    requires Marking(s.worker)
  {
    if s.worker.ChooseContext? then !s.cancelled else !s.worker.detached
  }

  ghost predicate Leads(s: State, steps: seq<Step>, s': State)
    decreases |steps|
  {
    if steps == [] then s' == s else Enabled(s, steps[0]) && Leads(Next(s, steps[0]), steps[1..], s')
  }

  /** Neither a timeout nor a failed call nor another writer is to blame. */
  predicate IsFaultless(step: Step) {
    match step
    case OtherWriter(_) => false
    case Poll(answer) => answer != CheckError
    case AskFinally(answer) => answer != CheckError
    case GetNode(ok) => ok
    case UpdateNode(fault, _) => fault == UpdateClean
    case MarkTimesOut => false
    case _ => true
  }

  ghost predicate AllFaultless(steps: seq<Step>) {
    forall k :: 0 <= k < |steps| ==> IsFaultless(steps[k])
  }

  /** From here the stop alone can make Run abandon the mark. */
  ghost predicate StopCanAbandon(s: State) {
    exists steps, s' :: Leads(s, steps, s') && AllFaultless(steps) && Abandoned(s')
  }

  /** From here Run can abandon the mark although the marking does not time out, whatever calls fail. */
  ghost predicate CanAbandonInTime(s: State) {
    exists steps, s' :: Leads(s, steps, s') && MarkTimesOut !in steps && Abandoned(s')
  }

  /** From here the stop alone can make Run abandon the mark without another write to the node. */
  ghost predicate StopCanAbandonQuietly(s: State) {
    exists steps, s' :: Leads(s, steps, s') && AllFaultless(steps) && Abandoned(s') && s'.writes == s.writes
  }

  /** From here the stop alone can make Run return nil with a node it never wrote. */
  ghost predicate StopCanLeaveUnmarked(s: State) {
    exists steps, s' :: Leads(s, steps, s') && AllFaultless(steps) && Abandoned(s') && s'.writes == 0
  }

  /** The same although the marking does not time out, whatever calls fail. */
  ghost predicate CanLeaveUnmarkedInTime(s: State) {
    exists steps, s' :: Leads(s, steps, s') && MarkTimesOut !in steps && Abandoned(s') && s'.writes == 0
  }

  /** A worker that marks on a background context, or has marked the node. */
  ghost predicate MarkIsSafe(s: State) {
    && ChannelInvariant(s)
    && (s.updated || (Marking(s.worker) && !ChosenBeforeStop(s)))
  }

  lemma NextKeepsMarkSafe(s: State, step: Step)
    requires MarkIsSafe(s) && Enabled(s, step) && step != MarkTimesOut
    ensures MarkIsSafe(Next(s, step))
  {
    NextKeepsChannel(s, step);
  }

  lemma {:induction false} SafeMarkIsKept(s: State, steps: seq<Step>, s': State)
    requires MarkIsSafe(s) && Leads(s, steps, s') && MarkTimesOut !in steps
    ensures !Abandoned(s')
    decreases |steps|
  {
    if steps == [] {
    } else {
      assert steps[0] in steps;
      NextKeepsMarkSafe(s, steps[0]);
      SafeMarkIsKept(Next(s, steps[0]), steps[1..], s');
    }
  }

  lemma StopAbandonsFromWait(s: State)
    requires Invariant(s) && s.worker.MarkWait? && !s.worker.detached && s.run.Stopping?
    ensures StopCanAbandonQuietly(s)
  {
    var s1 := Next(s, MarkCancelled);
    var s2 := Next(s1, Send);
    var s3 := Next(s2, WorkerDone);
    var s4 := Next(s3, RunWaited);
    assert Leads(s3, [RunWaited], s4);
    LeadsFrom(s2, WorkerDone, [RunWaited], s4);
    LeadsFrom(s1, Send, [WorkerDone] + [RunWaited], s4);
    LeadsFrom(s, MarkCancelled, [Send] + ([WorkerDone] + [RunWaited]), s4);
    assert AllFaultless([MarkCancelled] + ([Send] + ([WorkerDone] + [RunWaited])));
  }

  lemma LeadsFrom(s: State, step: Step, steps: seq<Step>, s': State)
    requires Enabled(s, step) && Leads(Next(s, step), steps, s')
    ensures Leads(s, [step] + steps, s')
  {
    assert ([step] + steps)[1..] == steps;
  }

  lemma StopCanAbandonFrom(s: State, step: Step)
    requires Enabled(s, step) && IsFaultless(step) && StopCanAbandonQuietly(Next(s, step))
    requires Next(s, step).writes == s.writes
    ensures StopCanAbandonQuietly(s)
  {
    var next := Next(s, step);
    var steps, s' :| Leads(next, steps, s') && AllFaultless(steps) && Abandoned(s') && s'.writes == next.writes;
    LeadsFrom(s, step, steps, s');
    assert AllFaultless([step] + steps);
  }

  lemma NextInvariant(s: State, step: Step)
    requires Invariant(s) && Enabled(s, step)
    ensures Invariant(Next(s, step))
  {
    NextKeepsInvariant(s, step, Next(s, step));
  }

  /** The next step of the schedule in which the stop overtakes the marking. */
  function TowardsAbandoning(s: State): Step
    requires Marking(s.worker)
  {
    if s.worker.ChooseContext? then PickContext
    else if !s.stop && s.run.Selecting? then CloseStop
    else if s.run.Selecting? then RunSeesStop
    else CallCancelled
  }

  function StepsToWait(s: State): nat {
    (if s.worker.ChooseContext? then 1 else 0) + (if s.worker.MarkWait? then 0 else 1)
    + (if s.run.Selecting? then if s.stop then 1 else 2 else 0)
  }

  lemma {:induction false} StopAbandons(s: State)
    requires Invariant(s) && Marking(s.worker) && ChosenBeforeStop(s)
    ensures StopCanAbandonQuietly(s)
    decreases StepsToWait(s)
  {
    if s.worker.MarkWait? && !s.run.Selecting? {
      StopAbandonsFromWait(s);
    } else {
      var step := TowardsAbandoning(s);
      NextInvariant(s, step);
      StopAbandons(Next(s, step));
      StopCanAbandonFrom(s, step);
    }
  }

  lemma {:induction false} WritesOnlyGrow(s: State, steps: seq<Step>, s': State)
    requires Leads(s, steps, s')
    ensures s.writes <= s'.writes
    decreases |steps|
  {
    if steps == [] {
    } else {
      WritesOnlyGrow(Next(s, steps[0]), steps[1..], s');
    }
  }

  lemma FaultlessIsInTime(s: State)
    ensures StopCanAbandon(s) ==> CanAbandonInTime(s)
    ensures StopCanLeaveUnmarked(s) ==> CanLeaveUnmarkedInTime(s)
    ensures CanLeaveUnmarkedInTime(s) ==> CanAbandonInTime(s) && s.writes == 0
  {
    assert forall steps: seq<Step> :: AllFaultless(steps) ==> MarkTimesOut !in steps;
    if CanLeaveUnmarkedInTime(s) {
      var more, s' :| Leads(s, more, s') && MarkTimesOut !in more && Abandoned(s') && s'.writes == 0;
      WritesOnlyGrow(s, more, s');
    }
  }

  /** From a safe state the mark is not abandoned in time. */
  lemma SafeStateKeepsMark(s: State)
    requires Invariant(s) && Marking(s.worker) && !ChosenBeforeStop(s)
    ensures !CanAbandonInTime(s)
  {
    if CanAbandonInTime(s) {
      var more, s' :| Leads(s, more, s') && MarkTimesOut !in more && Abandoned(s');
      SafeMarkIsKept(s, more, s');
    }
  }

  /**
   The exact condition, in every reachable state in which the node is to be marked: the stop can make
   Run return nil without an acknowledged update if and only if the context for marking was chosen
   before Run saw the stop. On the background context chosen afterwards only the timeout can lose the
   mark, however many calls fail.
   */
  lemma StopAbandonsExactlyWhen(states: seq<State>, steps: seq<Step>, n: nat)
    requires IsExecution(states, steps) && n < |states|
    requires Marking(states[n].worker)
    ensures StopCanAbandon(states[n]) <==> ChosenBeforeStop(states[n])
    ensures CanAbandonInTime(states[n]) <==> ChosenBeforeStop(states[n])
  {
    var s := states[n];
    InvariantHolds(states, steps, n);
    FaultlessIsInTime(s);
    if ChosenBeforeStop(s) {
      StopAbandons(s);
      assert StopCanAbandon(s);
    } else {
      SafeStateKeepsMark(s);
    }
  }

  /**
   And with a node that Run never wrote, if and only if moreover nothing has been written so far: an
   update that took effect without an answer marks the node although Run does not learn of it.
   */
  lemma StopLeavesUnmarkedExactlyWhen(states: seq<State>, steps: seq<Step>, n: nat)
    requires IsExecution(states, steps) && n < |states|
    requires Marking(states[n].worker)
    ensures StopCanLeaveUnmarked(states[n]) <==> ChosenBeforeStop(states[n]) && states[n].writes == 0
    ensures CanLeaveUnmarkedInTime(states[n]) <==> ChosenBeforeStop(states[n]) && states[n].writes == 0
  {
    var s := states[n];
    InvariantHolds(states, steps, n);
    FaultlessIsInTime(s);
    if ChosenBeforeStop(s) {
      StopAbandons(s);
      assert s.writes == 0 ==> StopCanLeaveUnmarked(s);
    } else {
      SafeStateKeepsMark(s);
    }
  }

  /** The marking gave up at step k: its time was over, or its context was cancelled. */
  ghost predicate GivesUpAt(steps: seq<Step>, k: int) {
    0 <= k < |steps| && (steps[k] == MarkTimesOut || steps[k] == MarkCancelled)
  }

  /** The context for marking was chosen at step j while Run had not yet seen a stop. */
  ghost predicate ChoosesEarlyAt(states: seq<State>, steps: seq<Step>, j: int) {
    0 <= j < |steps| < |states| && steps[j] == PickContext && !states[j].cancelled
  }

  /** The worker marks on the cancellable context. */
  predicate IsAttached(w: Worker) {
    Marking(w) && !w.ChooseContext? && !w.detached
  }

  lemma AttachedStep(s: State, step: Step, s': State)
    requires Follows(s, step, s') && IsAttached(s'.worker)
    ensures if step == PickContext then !s.cancelled else IsAttached(s.worker)
  {
  }

  lemma {:induction false} AttachedWasChosenEarly(states: seq<State>, steps: seq<Step>, n: nat) returns (j: nat)
    requires IsExecution(states, steps) && n < |states|
    requires IsAttached(states[n].worker)
    ensures j < n && ChoosesEarlyAt(states, steps, j)
  {
    assert n > 0;
    AttachedStep(states[n - 1], steps[n - 1], states[n]);
    if steps[n - 1] == PickContext {
      j := n - 1;
    } else {
      j := AttachedWasChosenEarly(states, steps, n - 1);
    }
  }

  /** The marking is over without a successful update. */
  predicate IsLost(s: State) {
    && s.lastCheck == Some(Yes) && s.finalCheck == Some(Yes) && !s.updated
    && (s.worker.Sending? || Over(s.worker))
  }

  lemma LostStep(s: State, step: Step, s': State)
    requires Invariant(s) && Invariant(s') && Follows(s, step, s') && IsLost(s')
    ensures step == MarkTimesOut || step == MarkCancelled || IsLost(s)
  {
  }

  lemma {:induction false} FailureGaveUp(states: seq<State>, steps: seq<Step>, n: nat) returns (k: nat)
    requires IsExecution(states, steps) && n < |states| && IsLost(states[n])
    ensures k < n && GivesUpAt(steps, k)
  {
    assert n > 0;
    InvariantHolds(states, steps, n);
    InvariantHolds(states, steps, n - 1);
    LostStep(states[n - 1], steps[n - 1], states[n]);
    if steps[n - 1] == MarkTimesOut || steps[n - 1] == MarkCancelled {
      k := n - 1;
    } else {
      k := FailureGaveUp(states, steps, n - 1);
    }
  }

  /**
   Every run that abandons the mark: the verdict Run throws away is a failure, and the marking either
   ran out of time or was cancelled on a context chosen before Run saw the stop.
   */
  lemma EveryAbandonedMark(states: seq<State>, steps: seq<Step>, n: nat)
    requires IsExecution(states, steps) && n < |states| && Abandoned(states[n])
    ensures states[n].errs == Some(Failure)
    ensures exists k ::
              && GivesUpAt(steps, k) && k < n
              && (steps[k] == MarkCancelled ==> exists j :: ChoosesEarlyAt(states, steps, j) && j < k)
  {
    InvariantHolds(states, steps, n);
    var k := FailureGaveUp(states, steps, n);
    if steps[k] == MarkCancelled {
      assert Follows(states[k], steps[k], states[k + 1]);
      var j := AttachedWasChosenEarly(states, steps, k);
    }
  }

  /**
   A stop that arrives while the node is being marked abandons the mark: Run returns nil although
   the last check answered TRUE and the node was never written.
   */
  lemma StopMayAbandonMark(node: NodeObject) returns (s: State)
    ensures Reachable(s)
    ensures Abandoned(s) && s.writes == 0
  {
    s := StopWhileMarking(node);
    s := Extend(s, CallCancelled);
    s := Extend(s, MarkCancelled);
    s := Extend(s, Send);
    s := Extend(s, WorkerDone);
    s := Extend(s, RunWaited);
  }

  lemma StopWhileMarking(node: NodeObject) returns (s: State)
    ensures Reachable(s)
    ensures s == Start(node).(run := Stopping, stop := true, cancelled := true, worker := MarkGet(false, MARK_TICKS),
                              lastCheck := Some(Yes), finalCheck := Some(Yes))
  {
    s := Start(node);
    assert IsExecution([s], []);
    s := Extend(s, Poll(Yes));
    s := Extend(s, AskFinally(Yes));
    s := Extend(s, PickContext);
    s := Extend(s, CloseStop);
    s := Extend(s, RunSeesStop);
  }

  ghost predicate Reachable(s: State) {
    exists states, steps :: IsExecution(states, steps) && states[|steps|] == s
  }

  lemma Extend(s: State, step: Step) returns (s': State)
    requires Reachable(s) && Enabled(s, step)
    ensures s' == Next(s, step) && Reachable(s')
  {
    s' := Next(s, step);
    var states, steps :| IsExecution(states, steps) && states[|steps|] == s;
    var states', steps' := states + [s'], steps + [step];
    forall i | 0 <= i < |steps'|
      ensures Follows(states'[i], steps'[i], states'[i + 1])
    {
      if i < |steps| {
        assert Follows(states[i], steps[i], states[i + 1]);
      }
    }
    assert IsExecution(states', steps') && states'[|steps'|] == s';
  }
}
