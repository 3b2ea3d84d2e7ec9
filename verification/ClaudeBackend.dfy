/** The native Claude backend: from the claim of a job to the end of its child process.

    One step is what happens between two awaits.  The return of a submission and the clearing of the
    pending mark are taken as one step; the last report of a disconnect is taken to be stored. */
module ClaudeBackend {
  import opened Tables
  import T = Tables
  import opened Invariant
  import opened Preservation
  import opened Runs
  import opened Laws
  import D = Daemon

  /** What follows once the child process is closed. */
  datatype Ending = ToDisconnect | ToCancel | Undecided

  datatype Phase =
    | Scheduled
    | Streaming
    | Closing(ending: Ending)
    | Finishing(stored: bool)
    | FailingClosed(stored: bool)

  /** The system/init event: not seen, bound to the attempt in the store, or refused by it. */
  datatype Init = NoInit | Bound | Unbound

  datatype Live = Live(call: D.Call, turn: Option<Id>, init: Init, accepted: bool, cancelRequested: bool,
                       streamOpen: bool, phase: Phase)

  /** `doomed`: the first check of the submission already failed. */
  datatype Submission = Submission(call: D.Call, cancelled: bool, doomed: bool)

  /** `refused` and `undelivered` are dispatch and cancel calls answered "not sent" whose daemon
      continuation has not run yet; `completed` are submitted attempts that are over. */
  datatype State = State(
    store: Tables, executionId: Id, sessionKey: Id, stopping: bool, failed: bool,
    pending: Option<Submission>, live: Option<Live>,
    refused: set<D.Call>, undelivered: set<D.Call>, completed: set<D.Call>)

  datatype StreamEnd = ExitNonZero | Success(text: Id, tooLong: bool, refusal: Id) | Failure(message: Id)

  datatype Move =
    | Other(step: Step)
    | Dispatch(j: Id, lease: Id)
    | Submit
    | Decline
    | ResetRefused(call: D.Call)
    | Cancel(j: Id, now: Time)
    | CancelUndelivered(call: D.Call)
    | Stop
    | RunAttempt
    | InitArrives(turn: Id, stored: bool)
    | LateInit(call: D.Call, turn: Id)
    | InitReturns
    | StreamDone(end: StreamEnd, stored: bool)
    | StreamFails
    | ProcessClosed(confirmed: bool, stored: bool)
    | HandlerReturns
    | HandlerThrows
    | FailClosedDone

  predicate Ready(d: State) { !d.stopping && !d.failed && d.sessionKey !in d.store.quarantine }

  /** Steps of the store that neither the daemon's dispatching nor this backend performs. */
  predicate Elsewhere(d: State, step: Step) {
    || step.DoIngest? || step.DoAck? || step.DoReject?
    || step.DoQuarantine? || step.DoEnsureSession? || step.DoCreateSession? || step.DoBindThread?
    || IsDelivery(step)
    || ((step.DoRelease? || step.DoReleaseSlot?) && d.live.None?)
  }

  predicate Terminating(phase: Phase) { phase.Finishing? || phase.FailingClosed? }

  ghost predicate Possible(d: State, move: Move) {
    match move
    case Other(step) => Enabled(d.store, step) && Elsewhere(d, step)
    case Dispatch(_, lease) => FreshLease(d.store, lease) && Ready(d)
    case Submit => d.pending.Some? && !d.pending.value.cancelled && !d.pending.value.doomed && Ready(d)
    case Decline => d.pending.Some?
    case ResetRefused(call) => call in d.refused
    case CancelUndelivered(call) => call in d.undelivered
    case RunAttempt => d.live.Some? && d.live.value.phase.Scheduled?
    case InitArrives(_, _) => d.live.Some? && d.live.value.streamOpen && d.live.value.init.NoInit?
    case LateInit(call, _) => call in d.completed
    case InitReturns => d.live.Some? && d.live.value.init.Bound?
    case StreamDone(_, _) => d.live.Some? && d.live.value.phase.Streaming?
    case StreamFails => d.live.Some? && d.live.value.phase.Streaming?
    case ProcessClosed(_, _) => d.live.Some? && d.live.value.phase.Closing?
    case HandlerReturns => d.live.Some? && d.live.value.phase == Finishing(true)
    case HandlerThrows => d.live.Some? && d.live.value.phase.Finishing?
    case FailClosedDone => d.live.Some? && d.live.value.phase.FailingClosed?
    case _ => true
  }

  function ToPhase(d: State, phase: Phase): State
    requires d.live.Some?
  {
    d.(live := Some(d.live.value.(phase := phase)))
  }

  /** The terminal report for a stream that ran to its end. */
  function EndEvent(d: State, end: StreamEnd): D.Event
    requires d.live.Some?
  {
    var a := d.live.value;
    if a.cancelRequested then D.OnCancelled(a.call.j, a.call.lease, a.call.generation, a.turn, false)
    else if end.ExitNonZero? || !a.accepted || a.turn.None? then D.OnDisconnected(d.executionId)
    else match end
      case Success(text, tooLong, refusal) =>
        D.OnResult(a.call.j, a.call.lease, a.call.generation, a.turn.value, text, tooLong, refusal)
      case Failure(message) =>
        D.OnFailed(a.call.j, a.call.lease, a.call.generation, a.turn.value, message, false)
      case ExitNonZero => D.OnDisconnected(d.executionId)
  }

  /** The terminal report after the process was closed early. */
  function ClosedEvent(d: State, ending: Ending): D.Event
    requires d.live.Some?
  {
    var a := d.live.value;
    if ending.ToCancel? || (ending.Undecided? && a.cancelRequested)
    then D.OnCancelled(a.call.j, a.call.lease, a.call.generation, a.turn, false)
    else D.OnDisconnected(d.executionId)
  }

  /** Reports once: the daemon's handler either stores the outcome or throws. */
  function Report(d: State, e: D.Event, stored: bool): State
    requires d.live.Some?
  {
    var (t, reply) := D.Handle(d.store, Claude, e);
    var done := stored && reply.Silent?;
    ToPhase(d, Finishing(done)).(
      store := if done then t else d.store,
      failed := d.failed || e.OnCancelled? || e.OnDisconnected?)
  }

  function Over(d: State): State
    requires d.live.Some?
  {
    d.(live := None, completed := d.completed + {d.live.value.call})
  }

  /** The daemon stores the cancel and passes it on in the same step. */
  function CancelMove(d: State, j: Id, now: Time): State {
    var t := RequestCancel(d.store, j, now).0;
    var e := d.(store := t);
    if j !in t.jobs || !t.jobs[j].status.Cancelling? || t.jobs[j].lease.None? || !t.jobs[j].target.Claude? then e
    else
      var lease := t.jobs[j].lease.value;
      var call := D.Call(j, lease, t.jobs[j].generation);
      if d.pending.Some? && d.pending.value.call.j == j && d.pending.value.call.lease == lease then
        e.(pending := Some(d.pending.value.(cancelled := true)), undelivered := d.undelivered + {call})
      else if d.live.Some? && d.live.value.call.j == j && d.live.value.call.lease == lease then
        e.(live := Some(d.live.value.(cancelRequested := true)))
      else e.(undelivered := d.undelivered + {call})
  }

  ghost function DispatchMove(d: State, j: Id, lease: Id): State {
    if !CanClaimSlot(d.store, j, Claude) then d
    else
      var t := ClaimForBackendDispatch(d.store, j, Claude, d.executionId, lease);
      var call := D.Call(j, lease, d.store.jobs[j].generation + 1);
      if d.pending.Some? then d.(store := t, refused := d.refused + {call})
      else d.(store := t, pending := Some(Submission(call, false, d.live.Some?)))
  }

  ghost function Moved(d: State, move: Move): State
    requires Possible(d, move)
  {
    match move
    case Other(step) => d.(store := Next(d.store, step))
    case Dispatch(j, lease) => DispatchMove(d, j, lease)
    case Submit =>
      d.(pending := None, live := Some(Live(d.pending.value.call, None, NoInit, false, false, false, Scheduled)))
    case Decline => d.(pending := None, refused := d.refused + {d.pending.value.call})
    case ResetRefused(call) =>
      d.(store := D.ResetUnsentExecution(d.store, Claude, call).0, refused := d.refused - {call})
    case Cancel(j, now) => CancelMove(d, j, now)
    case CancelUndelivered(call) =>
      d.(store := D.CancelAnswered(d.store, Claude, call, D.NotSubmitted), undelivered := d.undelivered - {call})
    case Stop => d.(stopping := true)
    case RunAttempt =>
      if d.stopping then ToPhase(d, Closing(ToDisconnect))
      else if d.live.value.cancelRequested then ToPhase(d, Closing(ToCancel))
      else ToPhase(d, Streaming).(live := Some(d.live.value.(phase := Streaming, streamOpen := true)))
    case InitArrives(turn, stored) =>
      var a := d.live.value;
      var (t, bound) := MarkBackendRunning(d.store, a.call.j, Claude, a.call.lease, a.call.generation, turn);
      d.(store := if stored && bound then t else d.store,
         live := Some(a.(turn := Some(turn), init := if stored && bound then Bound else Unbound)))
    case LateInit(call, turn) =>
      d.(store := MarkBackendRunning(d.store, call.j, Claude, call.lease, call.generation, turn).0)
    case InitReturns => d.(live := Some(d.live.value.(accepted := true)))
    case StreamDone(end, stored) => Report(d, EndEvent(d, end), stored)
    case StreamFails => ToPhase(d, Closing(Undecided))
    case ProcessClosed(confirmed, stored) =>
      var ending := d.live.value.phase.ending;
      if confirmed || ending.Undecided? then Report(d, ClosedEvent(d, ending), stored)
      else ToPhase(d, FailingClosed(false)).(failed := true)
    case HandlerReturns => Over(d)
    case HandlerThrows => ToPhase(d, FailingClosed(d.live.value.phase.stored)).(failed := true)
    case FailClosedDone =>
      Over(d.(store := D.Handle(d.store, Claude, D.OnDisconnected(d.executionId)).0))
  }

  // ---------------------------------------------------------------------------------------------
  // What every interleaving keeps
  // ---------------------------------------------------------------------------------------------

  /** The attempt of the call holds its slot and is bound to `turn`. */
  ghost predicate Underway(s: Tables, executionId: Id, call: D.Call, turn: Option<Id>, cancelling: bool) {
    && Holds(s, call.j, Claude, call.lease, call.generation)
    && s.jobs[call.j].connector == Some(executionId)
    && Active(s.jobs[call.j].status)
    && (s.jobs[call.j].status.Cancelling? <==> cancelling)
    && TurnOf(s, call.j) == turn
  }

  /** The job of the call is over for good: a result is queued and the slot is free of it, or its outcome is
      unknown and both the slot and the quarantine say so. */
  ghost predicate Settled(s: Tables, call: D.Call) {
    && call.j in s.jobs
    && s.jobs[call.j].lease == Some(call.lease) && s.jobs[call.j].generation == call.generation
    && var key := SlotOf(s.jobs[call.j]);
    && (|| ((s.jobs[call.j].status.Succeeded? || s.jobs[call.j].status.Failed?) && call.j in s.outbox &&
            (key in s.slots && s.slots[key].active.Some? ==> s.slots[key].active.value.job != call.j))
        || (Unknown(s.jobs[call.j].status) && s.jobs[call.j].session in s.quarantine &&
            key in s.slots && s.slots[key].recovery && s.slots[key].active.Some? && s.slots[key].active.value.job == call.j))
  }

  ghost predicate LiveOk(d: State) {
    d.live.Some? ==>
      && var a := d.live.value;
      && (a.accepted ==> a.init.Bound?)
      && (a.init.NoInit? <==> a.turn.None?)
      && if Terminating(a.phase) && a.phase.stored then Settled(d.store, a.call)
         else Underway(d.store, d.executionId, a.call, if a.init.Bound? then a.turn else None, a.cancelRequested)
              && (a.phase == Closing(ToCancel) ==> a.cancelRequested)
  }

  ghost predicate SubmissionOk(d: State) {
    d.pending.Some? && !d.pending.value.doomed ==>
      && d.live.None?
      && (!d.pending.value.cancelled ==> Underway(d.store, d.executionId, d.pending.value.call, None, false))
  }

  /** The run of the call is on record with its lease. */
  ghost predicate Known(s: Tables, call: D.Call) {
    && D.RunOf(call) in s.ledger && |s.ledger[D.RunOf(call)]| > 0
    && s.ledger[D.RunOf(call)][0].lease == call.lease
  }

  ghost predicate CallsOk(d: State) {
    && (d.live.Some? ==> Known(d.store, d.live.value.call))
    && (d.pending.Some? ==> Known(d.store, d.pending.value.call))
    && (forall call :: call in d.refused || call in d.undelivered || call in d.completed ==> Known(d.store, call))
    && (d.live.Some? ==> d.live.value.call !in d.refused && d.live.value.call !in d.undelivered)
    && (d.pending.Some? ==> d.pending.value.call !in d.refused)
    && (d.pending.Some? && d.pending.value.call in d.undelivered ==> d.pending.value.cancelled)
    && (d.live.Some? && d.pending.Some? ==> d.live.value.call != d.pending.value.call)
  }

  /** A finished attempt leaves a job in one of four terminal statuses, and a job never leaves those. */
  ghost predicate OverOk(s: Tables, call: D.Call) {
    && call.j in s.jobs
    && s.jobs[call.j].lease == Some(call.lease) && s.jobs[call.j].generation == call.generation
    && (s.jobs[call.j].status.Succeeded? || s.jobs[call.j].status.Failed? || Unknown(s.jobs[call.j].status))
  }

  ghost predicate Consistent(d: State) {
    && Valid(d.store) && LiveOk(d) && SubmissionOk(d) && CallsOk(d)
    && forall call :: call in d.completed ==> OverOk(d.store, call)
  }

  // ---------------------------------------------------------------------------------------------
  // Steps that spare an attempt
  // ---------------------------------------------------------------------------------------------

  predicate Spares(step: Step, j: Id) {
    match step
    case DoCancel(i, _) => i != j
    case DoReset(i, _) => i != j
    case DoResetSlot(i, _, _, _) => i != j
    case DoCancelUnsent(i, _, _, _) => i != j
    case DoCancelNotStarted(i, _) => i != j
    case DoRunning(i, _, _) => i != j
    case DoBackendRunning(i, _, _, _, _) => i != j
    case DoFinish(i, _, _, _) => i != j
    case DoFinishBackend(i, _, _, _, _, _, _, _) => i != j
    case DoCancelUnknown(i, _) => i != j
    case DoLose(i, _, _, _, _, _) => i != j
    case DoConnectorLost(_) => false
    case DoBackendLost(_, _) => false
    case DoRestart(_) => false
    case _ => true
  }

  /** The job and its slot are as they were. */
  ghost predicate SameAttempt(s: Tables, t: Tables, j: Id)
    requires j in s.jobs && SlotOf(s.jobs[j]) in s.slots
  {
    && j in t.jobs && t.jobs[j] == s.jobs[j]
    && SlotOf(s.jobs[j]) in t.slots && t.slots[SlotOf(s.jobs[j])] == s.slots[SlotOf(s.jobs[j])]
  }

  /** An active attempt owns its slot alone, and no pending cancel waits for its job. */
  ghost predicate Alone(s: Tables, j: Id) {
    && j in s.jobs && Active(s.jobs[j].status) && Owns(s, j) && s.slots[SlotOf(s.jobs[j])].thread.Some?
    && j !in s.pendingCancels
    && (forall i :: i in s.jobs && i != j && s.jobs[i].session == s.jobs[j].session ==> !Active(s.jobs[i].status))
  }

  lemma UnderwayRuns(s: Tables, j: Id)
    requires Valid(s) && j in s.jobs && Active(s.jobs[j].status) && !s.jobs[j].target.Hermes?
    ensures Alone(s, j)
  {
    hide JobsOk, SlotsOk, LedgerOk, LeasesUnique, OneHeldPerSession, NoneActiveUnderRecovery, DeliveriesOk;
    ActiveJob(s, j);
  }

  lemma IntakeSpares(s: Tables, step: Step, j: Id)
    requires Alone(s, j) && Spares(step, j) && IsIntake(step)
    ensures SameAttempt(s, Next(s, step), j)
  {
    hide NextClaim, NextUnsent, NextProgress, NextLoss, NextSession, NextDelivery;
  }

  lemma ClaimSpares(s: Tables, step: Step, j: Id)
    requires Alone(s, j) && IsClaim(step)
    ensures SameAttempt(s, Next(s, step), j)
  {
    hide NextIntake, NextUnsent, NextProgress, NextLoss, NextSession, NextDelivery;
  }

  lemma UnsentSpares(s: Tables, step: Step, j: Id)
    requires Alone(s, j) && Spares(step, j)
    requires IsUnsent(step)
    ensures SameAttempt(s, Next(s, step), j)
  {
    hide NextIntake, NextClaim, NextProgress, NextLoss, NextSession, NextDelivery;
  }

  lemma AcceptSpares(s: Tables, step: Step, j: Id)
    requires Alone(s, j) && Spares(step, j) && step.DoRunning?
    ensures SameAttempt(s, Next(s, step), j)
  {
    hide NextIntake, NextClaim, NextUnsent, NextLoss, NextSession, NextDelivery;
  }

  lemma BackendAcceptSpares(s: Tables, step: Step, j: Id)
    requires Alone(s, j) && Spares(step, j) && step.DoBackendRunning?
    ensures SameAttempt(s, Next(s, step), j)
  {
    hide NextIntake, NextClaim, NextUnsent, NextLoss, NextSession, NextDelivery;
  }

  lemma FinishSpares(s: Tables, step: Step, j: Id)
    requires Alone(s, j) && Spares(step, j) && step.DoFinish?
    ensures SameAttempt(s, Next(s, step), j)
  {
    hide NextIntake, NextClaim, NextUnsent, NextLoss, NextSession, NextDelivery;
  }

  lemma BackendFinishSpares(s: Tables, step: Step, j: Id)
    requires Alone(s, j) && Spares(step, j) && step.DoFinishBackend?
    ensures SameAttempt(s, Next(s, step), j)
  {
    hide NextIntake, NextClaim, NextUnsent, NextLoss, NextSession, NextDelivery;
  }

  lemma DeliverySpares(s: Tables, step: Step, j: Id)
    requires Alone(s, j)
    requires IsDelivery(step)
    ensures SameAttempt(s, Next(s, step), j)
  {
    hide NextClaim, NextUnsent, NextProgress, NextLoss, NextSession;
  }

  lemma LossSpares(s: Tables, step: Step, j: Id)
    requires Alone(s, j) && Spares(step, j) && (step.DoCancelUnknown? || step.DoLose?)
    ensures SameAttempt(s, Next(s, step), j)
  {
    hide NextIntake, NextClaim, NextUnsent, NextProgress, NextSession, NextDelivery;
  }

  lemma SessionSpares(s: Tables, step: Step, j: Id)
    requires Alone(s, j)
    requires IsSession(step)
    ensures SameAttempt(s, Next(s, step), j)
  {
    hide NextIntake, NextClaim, NextUnsent, NextProgress, NextLoss, NextDelivery;
  }

  lemma StepSpares(s: Tables, step: Step, j: Id)
    requires Alone(s, j) && Spares(step, j)
    ensures SameAttempt(s, Next(s, step), j)
  {
    hide Alone;
    if IsIntake(step) {
      IntakeSpares(s, step, j);
    } else if IsClaim(step) {
      ClaimSpares(s, step, j);
    } else if IsUnsent(step) {
      UnsentSpares(s, step, j);
    } else if step.DoRunning? {
      AcceptSpares(s, step, j);
    } else if step.DoBackendRunning? {
      BackendAcceptSpares(s, step, j);
    } else if step.DoFinish? {
      FinishSpares(s, step, j);
    } else if step.DoFinishBackend? {
      BackendFinishSpares(s, step, j);
    } else if step.DoCancelUnknown? || step.DoLose? {
      LossSpares(s, step, j);
    } else if IsSession(step) {
      SessionSpares(s, step, j);
    } else {
      DeliverySpares(s, step, j);
    }
  }

  lemma UnderwayStays(s: Tables, step: Step, executionId: Id, call: D.Call, turn: Option<Id>, cancelling: bool)
    requires Valid(s) && Underway(s, executionId, call, turn, cancelling) && Spares(step, call.j)
    ensures Underway(Next(s, step), executionId, call, turn, cancelling)
  {
    hide Valid, Next, Alone;
    UnderwayRuns(s, call.j);
    StepSpares(s, step, call.j);
  }

  // ---------------------------------------------------------------------------------------------
  // What no step takes back
  // ---------------------------------------------------------------------------------------------

  lemma KnownStays(s: Tables, step: Step, call: D.Call)
    requires Known(s, call)
    ensures Known(Next(s, step), call)
  {
    hide Next, JobEvolves, RowEvolves;
    StepEvolves(s, step);
    assert s.ledger[D.RunOf(call)] <= Next(s, step).ledger[D.RunOf(call)];
  }

  lemma OverStays(s: Tables, step: Step, call: D.Call)
    requires OverOk(s, call)
    ensures OverOk(Next(s, step), call)
  {
    hide Next, RowEvolves;
    StepEvolves(s, step);
    assert JobEvolves(s.jobs[call.j], Next(s, step).jobs[call.j]);
  }

  /** A slot kept as evidence changes only by a release of its session. */
  ghost predicate Evidence(s: Tables, k: SlotKey, j: Id) {
    k in s.slots && s.slots[k].recovery && s.slots[k].active.Some? && s.slots[k].active.value.job == j
  }

  lemma IntakeKeepsEvidence(s: Tables, step: Step, k: SlotKey, j: Id)
    requires Evidence(s, k, j)
    requires IsIntake(step) || IsClaim(step)
    ensures Evidence(Next(s, step), k, j)
  {
    hide NextUnsent, NextProgress, NextLoss, NextSession, NextDelivery;
  }

  lemma AttemptKeepsEvidence(s: Tables, step: Step, k: SlotKey, j: Id)
    requires Evidence(s, k, j)
    requires IsUnsent(step) || step.DoRunning? || step.DoBackendRunning?
    ensures Evidence(Next(s, step), k, j)
  {
    hide NextIntake, NextClaim, NextLoss, NextSession, NextDelivery;
  }

  lemma FinishKeepsEvidence(s: Tables, step: Step, k: SlotKey, j: Id)
    requires Evidence(s, k, j)
    requires step.DoFinish? || step.DoFinishBackend?
    ensures Evidence(Next(s, step), k, j)
  {
    hide NextIntake, NextClaim, NextUnsent, NextLoss, NextSession, NextDelivery;
  }

  lemma LossKeepsEvidence(s: Tables, step: Step, k: SlotKey, j: Id)
    requires Evidence(s, k, j)
    requires step.DoCancelUnknown? || step.DoLose?
    ensures Evidence(Next(s, step), k, j)
  {
    hide NextIntake, NextClaim, NextUnsent, NextProgress, NextSession, NextDelivery;
  }

  lemma OtherKeepsEvidence(s: Tables, step: Step, k: SlotKey, j: Id)
    requires Evidence(s, k, j) && !Releases(step, k.session)
    requires step.DoConnectorLost? || step.DoBackendLost? || step.DoRestart? || IsSession(step)
    ensures Evidence(Next(s, step), k, j)
  {
    hide NextIntake, NextClaim, NextUnsent, NextProgress, NextDelivery;
  }

  lemma StepKeepsEvidence(s: Tables, step: Step, k: SlotKey, j: Id)
    requires Evidence(s, k, j) && !Releases(step, k.session)
    ensures Evidence(Next(s, step), k, j)
  {
    if IsIntake(step) || IsClaim(step) {
      IntakeKeepsEvidence(s, step, k, j);
    } else if IsUnsent(step) || step.DoRunning? || step.DoBackendRunning? {
      AttemptKeepsEvidence(s, step, k, j);
    } else if step.DoFinish? || step.DoFinishBackend? {
      FinishKeepsEvidence(s, step, k, j);
    } else if step.DoCancelUnknown? || step.DoLose? {
      LossKeepsEvidence(s, step, k, j);
    } else if IsDelivery(step) {
      assert Next(s, step).slots == s.slots;
    } else {
      OtherKeepsEvidence(s, step, k, j);
    }
  }

  /** A finished job is settled as soon as its evidence is there. */
  lemma OverIsSettled(s: Tables, call: D.Call)
    requires Valid(s) && OverOk(s, call)
    requires Unknown(s.jobs[call.j].status) ==>
               Evidence(s, SlotOf(s.jobs[call.j]), call.j) && s.jobs[call.j].session in s.quarantine
    ensures Settled(s, call)
  {
    hide AttemptsOk, DeliveriesOk;
    JobAt(s, call.j);
    var key := SlotOf(s.jobs[call.j]);
    if key in s.slots && s.slots[key].active.Some? { SlotAt(s, key); }
  }

  lemma SettledEvidence(s: Tables, call: D.Call)
    requires Settled(s, call)
    ensures OverOk(s, call)
    ensures Unknown(s.jobs[call.j].status) ==>
              Evidence(s, SlotOf(s.jobs[call.j]), call.j) && s.jobs[call.j].session in s.quarantine
  {
  }

  lemma SettledStays(s: Tables, step: Step, call: D.Call)
    requires Valid(s) && Enabled(s, step) && Settled(s, call) && !Releases(step, s.jobs[call.j].session)
    ensures Settled(Next(s, step), call)
  {
    hide Valid, Next, Evidence;
    SettledEvidence(s, call);
    StepKeepsValid(s, step);
    OverStays(s, step, call);
    StepEvolves(s, step);
    StepAccounts(s, step);
    var t := Next(s, step);
    assert JobEvolves(s.jobs[call.j], t.jobs[call.j]);
    if Unknown(s.jobs[call.j].status) {
      StepKeepsEvidence(s, step, SlotOf(s.jobs[call.j]), call.j);
    }
    OverIsSettled(t, call);
  }

  // ---------------------------------------------------------------------------------------------
  // Every move keeps the backend consistent
  // ---------------------------------------------------------------------------------------------

  predicate IsCall(d: State, call: D.Call) {
    || call in d.refused || call in d.undelivered || call in d.completed
    || (d.live.Some? && call == d.live.value.call) || (d.pending.Some? && call == d.pending.value.call)
  }

  /** What one store step leaves of the calls on the books. */
  lemma Carried(d: State, t: Tables, step: Step)
    requires Consistent(d) && Enabled(d.store, step) && (t == d.store || t == Next(d.store, step))
    ensures Valid(t)
    ensures forall call :: IsCall(d, call) ==> Known(t, call)
    ensures forall call :: call in d.completed ==> OverOk(t, call)
  {
    hide Valid, Next, Known, OverOk, LiveOk, SubmissionOk;
    StepKeepsValid(d.store, step);
    forall call | IsCall(d, call) ensures Known(t, call) { KnownStays(d.store, step, call); }
    forall call | call in d.completed ensures OverOk(t, call) { OverStays(d.store, step, call); }
  }

  /** The live attempt after a step of the store that does not concern it. */
  lemma LiveStays(d: State, step: Step)
    requires Valid(d.store) && Enabled(d.store, step) && LiveOk(d) && d.live.Some?
    requires Spares(step, d.live.value.call.j) && (forall session :: !Releases(step, session))
    ensures LiveOk(d.(store := Next(d.store, step)))
  {
    hide Valid, Next, Underway, Settled, Enabled;
    var a := d.live.value;
    if Terminating(a.phase) && a.phase.stored {
      SettledStays(d.store, step, a.call);
    } else {
      UnderwayStays(d.store, step, d.executionId, a.call, if a.init.Bound? then a.turn else None, a.cancelRequested);
    }
  }

  lemma SubmissionStays(d: State, step: Step)
    requires Valid(d.store) && Enabled(d.store, step) && SubmissionOk(d) && d.pending.Some?
    requires Spares(step, d.pending.value.call.j)
    ensures SubmissionOk(d.(store := Next(d.store, step)))
  {
    hide Valid, Next, Underway;
    if !d.pending.value.doomed && !d.pending.value.cancelled {
      UnderwayStays(d.store, step, d.executionId, d.pending.value.call, None, false);
    }
  }

  lemma OtherKeeps(d: State, step: Step)
    requires Consistent(d) && Enabled(d.store, step) && Elsewhere(d, step)
    ensures Consistent(d.(store := Next(d.store, step)))
  {
    hide Valid, Next, Known, OverOk, LiveOk, SubmissionOk, Enabled;
    var e := d.(store := Next(d.store, step));
    Carried(d, e.store, step);
    if d.live.Some? { LiveStays(d, step); } else { assert LiveOk(e) by { NoLive(e); } }
    if d.pending.Some? { SubmissionStays(d, step); } else { assert SubmissionOk(e) by { NoSubmission(e); } }
  }

  lemma NoLive(d: State)
    requires d.live.None?
    ensures LiveOk(d)
  {
  }

  lemma NoSubmission(d: State)
    requires d.pending.None? || d.pending.value.doomed
    ensures SubmissionOk(d)
  {
  }

  // Claiming and submitting --------------------------------------------------------------------

  lemma FreshCall(d: State, call: D.Call)
    requires CallsOk(d) && FreshLease(d.store, call.lease)
    ensures !IsCall(d, call)
  {
  }

  lemma ClaimedIsUnderway(s: Tables, j: Id, executionId: Id, lease: Id)
    requires Valid(s) && FreshLease(s, lease) && CanClaimSlot(s, j, Claude)
    ensures var t := ClaimForBackendDispatch(s, j, Claude, executionId, lease);
            var call := D.Call(j, lease, s.jobs[j].generation + 1);
            Underway(t, executionId, call, None, false) && Known(t, call)
  {
    hide AttemptsOk, DeliveriesOk;
    RunAt(s, j);
  }

  lemma DispatchKeeps(d: State, j: Id, lease: Id)
    requires Consistent(d) && FreshLease(d.store, lease)
    ensures Consistent(DispatchMove(d, j, lease))
  {
    hide Valid, Next, Known, OverOk, LiveOk, SubmissionOk, Underway, ClaimForBackendDispatch, CanClaimSlot;
    if CanClaimSlot(d.store, j, Claude) {
      var step := DoClaimSlot(j, Claude, d.executionId, lease);
      var t := ClaimForBackendDispatch(d.store, j, Claude, d.executionId, lease);
      assert t == Next(d.store, step) by { ClaimStepIs(d.store, j, d.executionId, lease); }
      Carried(d, t, step);
      ClaimHasJob(d.store, j);
      var call := D.Call(j, lease, d.store.jobs[j].generation + 1);
      FreshCall(d, call);
      ClaimedIsUnderway(d.store, j, d.executionId, lease);
      var e := d.(store := t);
      if d.live.Some? { LiveStays(d, step); } else { NoLive(e); }
      SameLive(e, DispatchMove(d, j, lease));
      if d.pending.Some? {
        SubmissionStays(d, step);
        SameSubmission(e, DispatchMove(d, j, lease));
      } else {
        NewSubmission(DispatchMove(d, j, lease));
      }
    }
  }

  lemma ClaimStepIs(s: Tables, j: Id, executionId: Id, lease: Id)
    ensures ClaimForBackendDispatch(s, j, Claude, executionId, lease) == Next(s, DoClaimSlot(j, Claude, executionId, lease))
  {
  }

  lemma ClaimHasJob(s: Tables, j: Id)
    requires CanClaimSlot(s, j, Claude)
    ensures j in s.jobs
  {
  }

  lemma SameLive(d: State, e: State)
    requires LiveOk(d) && e.live == d.live && e.store == d.store && e.executionId == d.executionId
    ensures LiveOk(e)
  {
  }

  lemma SameSubmission(d: State, e: State)
    requires SubmissionOk(d) && e.pending == d.pending && e.live == d.live && e.store == d.store && e.executionId == d.executionId
    ensures SubmissionOk(e)
  {
  }

  lemma NewSubmission(d: State)
    requires d.pending.Some? && d.pending.value.doomed == d.live.Some?
    requires Underway(d.store, d.executionId, d.pending.value.call, None, false)
    ensures SubmissionOk(d)
  {
  }

  lemma SubmitKeeps(d: State)
    requires Consistent(d) && Possible(d, Submit)
    ensures Consistent(Moved(d, Submit))
  {
    hide Valid, Underway, Settled, Known, OverOk;
  }

  lemma DeclineKeeps(d: State)
    requires Consistent(d) && Possible(d, Decline)
    ensures Consistent(Moved(d, Decline))
  {
    hide Valid, Underway, Settled, Known, OverOk;
  }

  // Calls answered "not sent" ------------------------------------------------------------------

  /** A call that is not the attempt's own does nothing to the job while the attempt is under way. */
  lemma StaleCall(s: Tables, executionId: Id, call: D.Call, own: D.Call, turn: Option<Id>, cancelling: bool)
    requires Valid(s) && Underway(s, executionId, own, turn, cancelling)
    requires Known(s, call) && Known(s, own) && call != own && call.j == own.j
    ensures D.ResetUnsentExecution(s, Claude, call).0 == s
    ensures D.CancelAnswered(s, Claude, call, D.NotSubmitted) == s
  {
    hide AttemptsOk, DeliveriesOk;
    assert call.generation != own.generation;
  }

  /** The step another call's answer performs, if it performs one. */
  lemma AnswerSpares(d: State, t: Tables, step: Step, call: D.Call)
    requires Consistent(d) && Enabled(d.store, step) && IsCall(d, call)
    requires t == d.store || t == Next(d.store, step)
    requires forall j :: j != call.j ==> Spares(step, j)
    requires forall session :: !Releases(step, session)
    requires t == D.ResetUnsentExecution(d.store, Claude, call).0 || t == D.CancelAnswered(d.store, Claude, call, D.NotSubmitted)
    requires d.live.Some? ==> call != d.live.value.call
    requires d.pending.Some? && !d.pending.value.cancelled ==> call != d.pending.value.call
    ensures LiveOk(d.(store := t)) && SubmissionOk(d.(store := t))
  {
    hide Valid, Next, Enabled, Known, OverOk, Settled, Underway;
    var e := d.(store := t);
    if t == d.store {
      SameLive(d, e);
      SameSubmission(d, e);
    } else {
      if d.live.Some? {
        var a := d.live.value;
        if Terminating(a.phase) && a.phase.stored {
          SettledStays(d.store, step, a.call);
        } else if call.j == a.call.j {
          StaleCall(d.store, d.executionId, call, a.call, if a.init.Bound? then a.turn else None, a.cancelRequested);
          assert false;
        } else {
          LiveStays(d, step);
        }
      }
      if d.pending.Some? && !d.pending.value.doomed && !d.pending.value.cancelled {
        if call.j == d.pending.value.call.j {
          StaleCall(d.store, d.executionId, call, d.pending.value.call, None, false);
          assert false;
        } else {
          SubmissionStays(d, step);
        }
      }
    }
  }

  lemma ResetRefusedKeeps(d: State, call: D.Call)
    requires Consistent(d) && call in d.refused
    ensures Consistent(Moved(d, ResetRefused(call)))
  {
    hide Valid, Next, Enabled, Known, OverOk, LiveOk, SubmissionOk, D.ResetUnsentExecution;
    var t := D.ResetUnsentExecution(d.store, Claude, call).0;
    var step := D.ResetStep(d.store, Claude, call);
    D.ResetIsStep(d.store, Claude, call);
    assert Enabled(d.store, step) by { EnabledReset(d.store, call); }
    Carried(d, t, step);
    AnswerSpares(d, t, step, call);
    SameLive(d.(store := t), Moved(d, ResetRefused(call)));
    SameSubmission(d.(store := t), Moved(d, ResetRefused(call)));
  }

  lemma EnabledReset(s: Tables, call: D.Call)
    ensures Enabled(s, D.ResetStep(s, Claude, call))
  {
  }

  lemma CancelUndeliveredKeeps(d: State, call: D.Call)
    requires Consistent(d) && call in d.undelivered
    ensures Consistent(Moved(d, CancelUndelivered(call)))
  {
    hide Valid, Next, Enabled, Known, OverOk, LiveOk, SubmissionOk, D.CancelAnswered;
    var t := D.CancelAnswered(d.store, Claude, call, D.NotSubmitted);
    var step := D.CancelStep(d.store, Claude, call, D.NotSubmitted);
    D.CancelAnswerIsStep(d.store, Claude, call, D.NotSubmitted);
    Carried(d, t, step);
    AnswerSpares(d, t, step, call);
    SameLive(d.(store := t), Moved(d, CancelUndelivered(call)));
    SameSubmission(d.(store := t), Moved(d, CancelUndelivered(call)));
  }

  // Cancels ------------------------------------------------------------------------------------

  /** A cancel of the attempt's own job turns it into one that is being cancelled. */
  lemma CancelsAttempt(s: Tables, executionId: Id, call: D.Call, turn: Option<Id>, cancelling: bool, now: Time)
    requires Valid(s) && Underway(s, executionId, call, turn, cancelling)
    ensures Underway(RequestCancel(s, call.j, now).0, executionId, call, turn, true)
  {
    hide AttemptsOk, DeliveriesOk;
    ActiveJob(s, call.j);
  }

  /** The call made for a job that is being cancelled is on record; it is the only one with its lease. */
  lemma CancelCall(s: Tables, j: Id)
    requires Valid(s) && j in s.jobs && s.jobs[j].status.Cancelling? && s.jobs[j].lease.Some?
    ensures Known(s, D.Call(j, s.jobs[j].lease.value, s.jobs[j].generation))
    ensures forall call :: Known(s, call) && call.j == j && call.lease == s.jobs[j].lease.value ==>
              call.generation == s.jobs[j].generation
  {
    hide AttemptsOk, DeliveriesOk;
    ActiveJob(s, j);
    forall call: D.Call | Known(s, call) && call.j == j && call.lease == s.jobs[j].lease.value
      ensures call.generation == s.jobs[j].generation
    {
      SameLeaseSameRun(s, D.RunOf(call), CurrentRun(s, j));
    }
  }

  lemma SameLeaseSameRun(s: Tables, a: Run, b: Run)
    requires AttemptsOk(s) && a in s.ledger && b in s.ledger && |s.ledger[a]| > 0 && |s.ledger[b]| > 0
    requires s.ledger[a][0].lease == s.ledger[b][0].lease
    ensures a == b
  {
  }

  lemma OneCallPerLease(s: Tables, a: D.Call, b: D.Call)
    requires Valid(s) && Known(s, a) && Known(s, b) && a.lease == b.lease
    ensures a == b
  {
    hide AttemptsOk, DeliveriesOk;
    SameLeaseSameRun(s, D.RunOf(a), D.RunOf(b));
  }

  lemma CancelElsewhere(d: State, j: Id, now: Time)
    requires Consistent(d)
    ensures var t := RequestCancel(d.store, j, now).0;
            && (d.live.Some? && (d.live.value.call.j != j || (Terminating(d.live.value.phase) && d.live.value.phase.stored)) ==>
                  LiveOk(d.(store := t)))
            && (d.live.None? ==> LiveOk(d.(store := t)))
            && (d.pending.Some? ==> d.pending.value.call.j != j ==> SubmissionOk(d.(store := t)))
            && (d.pending.None? ==> SubmissionOk(d.(store := t)))
  {
    hide Valid, Next, Known, OverOk, Settled, Underway;
    var step := DoCancel(j, now);
    assert Next(d.store, step) == RequestCancel(d.store, j, now).0 by { CancelStepIs(d.store, j, now); }
    hide RequestCancel;
    if d.live.Some? {
      if Terminating(d.live.value.phase) && d.live.value.phase.stored {
        SettledStays(d.store, step, d.live.value.call);
      } else if d.live.value.call.j != j {
        LiveStays(d, step);
      }
    }
    if d.pending.Some? && d.pending.value.call.j != j { SubmissionStays(d, step); }
  }

  lemma CancelStepIs(s: Tables, j: Id, now: Time)
    ensures Next(s, DoCancel(j, now)) == RequestCancel(s, j, now).0
  {
  }

  /** A submission that shares the lease of the live attempt would be the same call. */
  lemma SubmissionIsOther(d: State, j: Id, now: Time)
    requires Consistent(d) && d.live.Some? && d.pending.Some? && d.live.value.call.j == j
    ensures d.pending.value.call.lease != d.live.value.call.lease
  {
    assert CallsOk(d);
    hide Valid, LiveOk, SubmissionOk;
    var submitted, live := d.pending.value.call, d.live.value.call;
    if submitted.lease == live.lease { OneCallPerLease(d.store, submitted, live); }
  }

  /** Which branch a cancel of the live attempt's job takes while the attempt is under way. */
  lemma CancelReaches(d: State, j: Id, now: Time)
    requires d.live.Some? && d.live.value.call.j == j
    requires d.pending.Some? ==> d.pending.value.call.lease != d.live.value.call.lease
    requires var a := d.live.value;
             Underway(RequestCancel(d.store, j, now).0, d.executionId, a.call, if a.init.Bound? then a.turn else None, true)
    ensures CancelMove(d, j, now) == d.(store := RequestCancel(d.store, j, now).0, live := Some(d.live.value.(cancelRequested := true)))
  {
    hide RequestCancel;
  }

  /** A cancel of the live attempt's job reaches it. */
  lemma CancelLive(d: State, j: Id, now: Time)
    requires Consistent(d) && d.live.Some? && d.live.value.call.j == j
    ensures LiveOk(CancelMove(d, j, now))
  {
    var a := d.live.value;
    CancelElsewhere(d, j, now);
    if d.pending.Some? { SubmissionIsOther(d, j, now); }
    if Terminating(a.phase) && a.phase.stored {
      SettledCannotCancel(d.store, a.call, now);
      hide Valid, Settled, CallsOk, SubmissionOk, RequestCancel, OverOk, LiveOk;
      SameLive(d.(store := RequestCancel(d.store, j, now).0), CancelMove(d, j, now));
    } else {
      CancelsAttempt(d.store, d.executionId, a.call, if a.init.Bound? then a.turn else None, a.cancelRequested, now);
      CancelReaches(d, j, now);
      hide Valid, Settled, CallsOk, SubmissionOk, RequestCancel, OverOk, CancelMove, Underway;
    }
  }

  lemma SettledCannotCancel(s: Tables, call: D.Call, now: Time)
    requires Settled(s, call)
    ensures var t := RequestCancel(s, call.j, now).0; call.j in t.jobs && !t.jobs[call.j].status.Cancelling?
  {
  }

  lemma CancelPendingSubmission(d: State, j: Id, now: Time)
    requires Consistent(d) && d.pending.Some? && d.pending.value.call.j == j
    ensures SubmissionOk(CancelMove(d, j, now))
  {
    hide Valid, Settled, Known;
    CancelElsewhere(d, j, now);
    if !d.pending.value.doomed && !d.pending.value.cancelled {
      CancelsAttempt(d.store, d.executionId, d.pending.value.call, None, false, now);
    }
  }

  lemma CallsOnStore(d: State, t: Tables)
    requires CallsOk(d) && forall call :: IsCall(d, call) ==> Known(t, call)
    ensures CallsOk(d.(store := t))
  {
    hide Known;
  }

  lemma CallUndelivered(d: State, call: D.Call)
    requires CallsOk(d) && Known(d.store, call) && (d.live.Some? ==> call != d.live.value.call)
    requires d.pending.Some? && d.pending.value.call == call ==> d.pending.value.cancelled
    ensures CallsOk(d.(undelivered := d.undelivered + {call}))
  {
    hide Known;
  }

  lemma CancelCalls(d: State, j: Id, now: Time)
    requires Consistent(d)
    ensures CallsOk(CancelMove(d, j, now)) && Valid(CancelMove(d, j, now).store)
    ensures forall call :: call in d.completed ==> OverOk(CancelMove(d, j, now).store, call)
  {
    var t := RequestCancel(d.store, j, now).0;
    var e := d.(store := t);
    CancelStepIs(d.store, j, now);
    hide Valid, Settled, Known, OverOk, LiveOk, SubmissionOk, RequestCancel, Next;
    Carried(d, t, DoCancel(j, now));
    CallsOnStore(d, t);
    if j in t.jobs && t.jobs[j].status.Cancelling? && t.jobs[j].lease.Some? {
      CancelCall(t, j);
      var call := D.Call(j, t.jobs[j].lease.value, t.jobs[j].generation);
      if d.pending.Some? && d.pending.value.call.j == j && d.pending.value.call.lease == call.lease {
        assert IsCall(d, d.pending.value.call);
        var f := e.(pending := Some(d.pending.value.(cancelled := true)));
        assert CallsOk(f);
        CallUndelivered(f, call);
      } else if d.live.Some? && d.live.value.call.j == j && d.live.value.call.lease == call.lease {
        assert CallsOk(e.(live := Some(d.live.value.(cancelRequested := true))));
      } else {
        CallUndelivered(e, call);
      }
    }
  }

  lemma CancelKeeps(d: State, j: Id, now: Time)
    requires Consistent(d)
    ensures Consistent(CancelMove(d, j, now))
  {
    hide Valid, Settled, Known, OverOk, RequestCancel, CallsOk, LiveOk, SubmissionOk;
    CancelCalls(d, j, now);
    CancelElsewhere(d, j, now);
    var e := CancelMove(d, j, now);
    if d.live.Some? && d.live.value.call.j == j {
      CancelLive(d, j, now);
    } else {
      SameLive(d.(store := e.store), e);
    }
    if d.pending.Some? && d.pending.value.call.j == j {
      CancelPendingSubmission(d, j, now);
    } else {
      CancelSparesSubmission(d, j, now);
    }
  }

  lemma CancelSparesSubmission(d: State, j: Id, now: Time)
    requires Consistent(d) && (d.pending.None? || d.pending.value.call.j != j)
    ensures SubmissionOk(CancelMove(d, j, now))
  {
    hide Valid, Settled, Known, Underway, RequestCancel;
    CancelElsewhere(d, j, now);
  }

  // The attempt itself -------------------------------------------------------------------------

  lemma BindsAttempt(s: Tables, executionId: Id, call: D.Call, cancelling: bool, turn: Id)
    requires Valid(s) && Underway(s, executionId, call, None, cancelling)
    ensures var (t, bound) := MarkBackendRunning(s, call.j, Claude, call.lease, call.generation, turn);
            bound && Underway(t, executionId, call, Some(turn), cancelling)
  {
    hide AttemptsOk, DeliveriesOk;
    ActiveJob(s, call.j);
  }

  lemma BindStepIs(s: Tables, call: D.Call, turn: Id)
    ensures MarkBackendRunning(s, call.j, Claude, call.lease, call.generation, turn).0
              == Next(s, DoBackendRunning(call.j, Claude, call.lease, call.generation, turn))
  {
  }

  lemma OverCannotBind(s: Tables, call: D.Call, turn: Id)
    requires OverOk(s, call)
    ensures MarkBackendRunning(s, call.j, Claude, call.lease, call.generation, turn) == (s, false)
  {
  }

  lemma InitArrivesKeeps(d: State, turn: Id, stored: bool)
    requires Consistent(d) && Possible(d, InitArrives(turn, stored))
    ensures Consistent(Moved(d, InitArrives(turn, stored)))
  {
    hide Valid, Known, OverOk, Settled, Underway, MarkBackendRunning;
    var a := d.live.value;
    var t := MarkBackendRunning(d.store, a.call.j, Claude, a.call.lease, a.call.generation, turn).0;
    Carried(d, t, DoBackendRunning(a.call.j, Claude, a.call.lease, a.call.generation, turn)) by {
      BindStepIs(d.store, a.call, turn);
    }
    if Terminating(a.phase) && a.phase.stored {
      SettledEvidence(d.store, a.call);
      OverCannotBind(d.store, a.call, turn);
    } else {
      BindsAttempt(d.store, d.executionId, a.call, a.cancelRequested, turn);
    }
  }

  lemma LateInitKeeps(d: State, call: D.Call, turn: Id)
    requires OverOk(d.store, call) && call in d.completed
    ensures Moved(d, LateInit(call, turn)) == d
  {
    OverCannotBind(d.store, call, turn);
    hide MarkBackendRunning, OverOk;
  }

  /** Moves that touch only the attempt's own flags. */
  lemma FlagsKeep(d: State, move: Move)
    requires Consistent(d) && Possible(d, move)
    requires move.Stop? || move.RunAttempt? || move.InitReturns? || move.StreamFails? || move.HandlerThrows?
    ensures Consistent(Moved(d, move))
  {
    hide Valid, Known, OverOk, Settled, Underway;
  }

  // The end of the attempt ---------------------------------------------------------------------

  lemma ResultSettles(s: Tables, executionId: Id, call: D.Call, turn: Id, success: bool, result: Id)
    requires Valid(s) && Underway(s, executionId, call, Some(turn), false)
    ensures CanFinishBackend(s, call.j, Claude, call.lease, call.generation, turn)
    ensures Settled(FinishBackendWithOutbox(s, call.j, Claude, call.lease, call.generation, turn, success, result, false), call)
  {
    hide AttemptsOk, DeliveriesOk;
    ActiveJob(s, call.j);
  }

  lemma CancelSettles(s: Tables, executionId: Id, call: D.Call, bound: Option<Id>, turn: Option<Id>)
    requires Valid(s) && Underway(s, executionId, call, bound, true) && (bound == turn || (bound.None? && turn.Some?))
    ensures Settled(MarkBackendRecoveryTerminal(s, call.j, Claude, call.lease, call.generation, turn, true), call)
  {
    hide AttemptsOk, DeliveriesOk;
    ActiveJob(s, call.j);
  }

  lemma DisconnectSettles(s: Tables, executionId: Id, call: D.Call, turn: Option<Id>, cancelling: bool)
    requires Valid(s) && Underway(s, executionId, call, turn, cancelling)
    ensures Settled(MarkBackendDisconnected(s, Claude, executionId), call)
  {
    hide AttemptsOk, DeliveriesOk;
    ActiveJob(s, call.j);
    assert call.j in ConnectorVictims(s, Claude, executionId);
  }

  /** The three kinds of terminal report this attempt can make. */
  ghost predicate Reportable(d: State, e: D.Event)
    requires d.live.Some?
  {
    var a := d.live.value;
    || e == D.OnDisconnected(d.executionId)
    || (a.cancelRequested && e == D.OnCancelled(a.call.j, a.call.lease, a.call.generation, a.turn, false))
    || (!a.cancelRequested && a.init.Bound? && a.turn.Some? &&
        match e
        case OnResult(j, lease, generation, turn, _, _, _) =>
          j == a.call.j && lease == a.call.lease && generation == a.call.generation && turn == a.turn.value
        case OnFailed(j, lease, generation, turn, _, rejected) =>
          j == a.call.j && lease == a.call.lease && generation == a.call.generation && turn == a.turn.value && !rejected
        case _ => false)
  }

  /** A stored report settles the job; nothing in the store makes the daemon refuse it. */
  lemma ReportSettles(d: State, e: D.Event)
    requires Valid(d.store) && LiveOk(d) && d.live.Some? && !Terminating(d.live.value.phase) && Reportable(d, e)
    ensures D.Handle(d.store, Claude, e).1.Silent?
    ensures Settled(D.Handle(d.store, Claude, e).0, d.live.value.call)
  {
    hide Valid, Settled, MarkBackendDisconnected, MarkBackendRecoveryTerminal, FinishBackendWithOutbox;
    var a := d.live.value;
    var bound := if a.init.Bound? then a.turn else None;
    match e
    case OnDisconnected(_) => DisconnectSettles(d.store, d.executionId, a.call, bound, a.cancelRequested);
    case OnCancelled(_, _, _, _, _) => CancelSettles(d.store, d.executionId, a.call, bound, a.turn);
    case OnResult(_, _, _, turn, text, tooLong, refusal) =>
      ResultSettles(d.store, d.executionId, a.call, turn, !tooLong, if tooLong then refusal else text);
    case OnFailed(_, _, _, turn, message, _) =>
      ResultSettles(d.store, d.executionId, a.call, turn, false, message);
  }

  lemma ReportKeeps(d: State, e: D.Event, stored: bool)
    requires Consistent(d) && d.live.Some? && !Terminating(d.live.value.phase) && Reportable(d, e)
    ensures Consistent(Report(d, e, stored))
    ensures stored ==> Report(d, e, stored).live.value.phase == Finishing(true)
  {
    hide Valid, Known, OverOk, Settled, Underway, D.Handle, Reportable;
    ReportSettles(d, e);
    D.EventIsStep(d.store, Claude, e);
    Carried(d, D.Handle(d.store, Claude, e).0, D.EventStep(Claude, e));
  }

  lemma EndIsReportable(d: State, end: StreamEnd)
    requires LiveOk(d) && d.live.Some?
    ensures Reportable(d, EndEvent(d, end))
  {
  }

  lemma StreamDoneKeeps(d: State, end: StreamEnd, stored: bool)
    requires Consistent(d) && Possible(d, StreamDone(end, stored))
    ensures Consistent(Moved(d, StreamDone(end, stored)))
  {
    hide Valid, Known, OverOk, Settled, Underway, Reportable, EndEvent, Report;
    EndIsReportable(d, end);
    ReportKeeps(d, EndEvent(d, end), stored);
  }

  lemma ProcessClosedKeeps(d: State, confirmed: bool, stored: bool)
    requires Consistent(d) && Possible(d, ProcessClosed(confirmed, stored))
    ensures Consistent(Moved(d, ProcessClosed(confirmed, stored)))
  {
    hide Valid, Known, OverOk, Settled, Underway, Report;
    var ending := d.live.value.phase.ending;
    if confirmed || ending.Undecided? { ReportKeeps(d, ClosedEvent(d, ending), stored); }
  }

  lemma HandlerReturnsKeeps(d: State)
    requires Consistent(d) && Possible(d, HandlerReturns)
    ensures Consistent(Moved(d, HandlerReturns)) && Settled(Moved(d, HandlerReturns).store, d.live.value.call)
  {
    hide Valid, Known, Settled, Underway;
    SettledEvidence(d.store, d.live.value.call);
  }

  lemma FailClosedKeeps(d: State)
    requires Consistent(d) && Possible(d, FailClosedDone)
    ensures Consistent(Moved(d, FailClosedDone)) && Settled(Moved(d, FailClosedDone).store, d.live.value.call)
  {
    hide Valid, Known, OverOk, Settled, Underway, MarkBackendDisconnected;
    var a := d.live.value;
    var t := D.Handle(d.store, Claude, D.OnDisconnected(d.executionId)).0;
    assert t == MarkBackendDisconnected(d.store, Claude, d.executionId);
    assert t == Next(d.store, DoBackendLost(Claude, d.executionId));
    hide Next, D.Handle;
    Carried(d, t, DoBackendLost(Claude, d.executionId));
    if a.phase.stored {
      SettledStays(d.store, DoBackendLost(Claude, d.executionId), a.call);
    } else {
      DisconnectSettles(d.store, d.executionId, a.call, if a.init.Bound? then a.turn else None, a.cancelRequested);
    }
    SettledEvidence(t, a.call);
  }

  lemma MoveKeeps(d: State, move: Move)
    requires Consistent(d) && Possible(d, move)
    ensures Consistent(Moved(d, move))
  {
    match move
    case Other(step) => OtherKeeps(d, step);
    case Dispatch(j, lease) => DispatchKeeps(d, j, lease);
    case Submit => SubmitKeeps(d);
    case Decline => DeclineKeeps(d);
    case ResetRefused(call) => ResetRefusedKeeps(d, call);
    case Cancel(j, now) => CancelKeeps(d, j, now);
    case CancelUndelivered(call) => CancelUndeliveredKeeps(d, call);
    case Stop => FlagsKeep(d, move);
    case RunAttempt => FlagsKeep(d, move);
    case InitArrives(turn, stored) => InitArrivesKeeps(d, turn, stored);
    case LateInit(call, turn) => LateInitKeeps(d, call, turn);
    case InitReturns => FlagsKeep(d, move);
    case StreamDone(end, stored) => StreamDoneKeeps(d, end, stored);
    case StreamFails => FlagsKeep(d, move);
    case ProcessClosed(confirmed, stored) => ProcessClosedKeeps(d, confirmed, stored);
    case HandlerReturns => HandlerReturnsKeeps(d);
    case HandlerThrows => FlagsKeep(d, move);
    case FailClosedDone => FailClosedKeeps(d);
  }

  // ---------------------------------------------------------------------------------------------
  // Whole runs
  // ---------------------------------------------------------------------------------------------

  ghost predicate IsHistory(d: State, moves: seq<Move>)
    decreases |moves|
  {
    moves == [] || (Possible(d, moves[0]) && IsHistory(Moved(d, moves[0]), moves[1..]))
  }

  ghost function Afterwards(d: State, moves: seq<Move>): State
    requires IsHistory(d, moves)
    decreases |moves|
  {
    if moves == [] then d else Afterwards(Moved(d, moves[0]), moves[1..])
  }

  /** A backend that has just started on a valid store. */
  function Started(s: Tables, executionId: Id, sessionKey: Id): State {
    State(s, executionId, sessionKey, false, false, None, None, {}, {}, {})
  }

  lemma {:induction false} HistoryKeeps(d: State, moves: seq<Move>)
    requires Consistent(d) && IsHistory(d, moves)
    ensures Consistent(Afterwards(d, moves))
    decreases |moves|
  {
    hide Consistent, Moved, Possible;
    if moves != [] {
      MoveKeeps(d, moves[0]);
      HistoryKeeps(Moved(d, moves[0]), moves[1..]);
    }
  }

  /** In every interleaving: the move that ends a submitted attempt leaves its job settled, and from then on
      the job is and stays Succeeded, Failed, Interrupted or CancelUnknown. */
  lemma EverySubmittedAttemptSettles(s: Tables, executionId: Id, sessionKey: Id, moves: seq<Move>)
    requires Valid(s) && IsHistory(Started(s, executionId, sessionKey), moves)
    ensures var d := Afterwards(Started(s, executionId, sessionKey), moves);
            && Valid(d.store)
            && (forall call :: call in d.completed ==> OverOk(d.store, call))
            && (forall move :: d.live.Some? && Possible(d, move) && Moved(d, move).live.None? ==>
                  Settled(Moved(d, move).store, d.live.value.call) && d.live.value.call in Moved(d, move).completed)
  {
    hide Valid, OverOk, LiveOk, CallsOk, SubmissionOk, Possible, Moved, Settled;
    var d0 := Started(s, executionId, sessionKey);
    assert Consistent(d0) by { StartIsConsistent(s, executionId, sessionKey); }
    HistoryKeeps(d0, moves);
    var d := Afterwards(d0, moves);
    forall move | d.live.Some? && Possible(d, move) && Moved(d, move).live.None?
      ensures Settled(Moved(d, move).store, d.live.value.call) && d.live.value.call in Moved(d, move).completed
    {
      EndSettles(d, move);
    }
  }

  lemma StartIsConsistent(s: Tables, executionId: Id, sessionKey: Id)
    requires Valid(s)
    ensures Consistent(Started(s, executionId, sessionKey))
  {
    hide Valid;
  }

  lemma EndSettles(d: State, move: Move)
    requires Consistent(d) && d.live.Some? && Possible(d, move) && Moved(d, move).live.None?
    ensures Settled(Moved(d, move).store, d.live.value.call) && d.live.value.call in Moved(d, move).completed
  {
    OnlyTwoMovesEnd(d, move);
    hide Settled, Consistent, Moved, Possible;
    if move.HandlerReturns? { HandlerReturnsKeeps(d); } else { FailClosedKeeps(d); }
  }

  lemma OnlyTwoMovesEnd(d: State, move: Move)
    requires d.live.Some? && Possible(d, move) && Moved(d, move).live.None?
    ensures move.HandlerReturns? || move.FailClosedDone?
    ensures d.live.value.call in Moved(d, move).completed
  {
    hide Next, D.ResetUnsentExecution, D.CancelAnswered, D.Handle, RequestCancel, MarkBackendRunning, ClaimForBackendDispatch;
  }

  /** How far a live attempt is from its end. */
  function Distance(phase: Phase): nat {
    match phase
    case Scheduled => 4
    case Streaming => 3
    case Closing(_) => 2
    case Finishing(_) => 1
    case FailingClosed(_) => 0
  }

  predicate OwnMove(move: Move) {
    move.RunAttempt? || move.StreamDone? || move.StreamFails? || move.ProcessClosed? || move.HandlerReturns? ||
    move.HandlerThrows? || move.FailClosedDone?
  }

  /** A live attempt always has a move of its own, each brings it nearer its end, and no other move takes
      it back: it ends after at most five of them. */
  lemma AttemptsEnd(d: State, move: Move)
    requires Consistent(d) && d.live.Some? && Possible(d, move)
    ensures Moved(d, move).live.Some? && OwnMove(move) ==> Distance(Moved(d, move).live.value.phase) < Distance(d.live.value.phase)
    ensures Moved(d, move).live.Some? && !OwnMove(move) ==> Moved(d, move).live.value.phase == d.live.value.phase
    ensures exists own :: OwnMove(own) && Possible(d, own)
  {
    hide Next, D.ResetUnsentExecution, D.CancelAnswered, D.Handle, RequestCancel, MarkBackendRunning, ClaimForBackendDispatch,
         Valid, LiveOk, CallsOk, OverOk, Underway;
    HasOwnMove(d);
  }

  lemma HasOwnMove(d: State)
    requires Consistent(d) && d.live.Some?
    ensures exists own :: OwnMove(own) && Possible(d, own)
  {
    hide Moved, Valid, LiveOk, CallsOk, OverOk, Underway;
    var own := match d.live.value.phase
      case Scheduled => RunAttempt
      case Streaming => StreamFails
      case Closing(_) => ProcessClosed(true, true)
      case Finishing(_) => HandlerThrows
      case FailingClosed(_) => FailClosedDone;
    assert OwnMove(own) && Possible(d, own);
  }
}
