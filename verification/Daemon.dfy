/** The daemon: it claims jobs, hands them to the configured backend, and turns the backend's events
    into store transactions.

    Dispatch and cancel calls are answered asynchronously, so the daemon is a state machine over the
    store, the calls still in flight, and the calls that were never answered "not sent". */
module Daemon {
  import opened Tables
  import T = Tables
  import opened Invariant
  import opened Preservation
  import opened Runs
  import opened Laws
  import opened JobStores

  /** The row a pending dispatch or cancel call carries. */
  datatype Call = Call(j: Id, lease: Id, generation: nat)

  datatype Answer = Submitted | NotSubmitted | Threw

  datatype Code = StaleLease | OutputTooLarge | CancelSuperseded | ResultConflict
  datatype Reply = Silent | ResultStored | Refused(code: Code) | Raised

  function RunOf(call: Call): Run { Run(call.j, call.generation) }

  // ---------------------------------------------------------------------------------------------
  // Events of the backend
  // ---------------------------------------------------------------------------------------------

  datatype Event =
    | OnAccepted(j: Id, connector: Id, lease: Id, generation: nat, turn: Id)
    | OnResult(j: Id, lease: Id, generation: nat, turn: Id, text: Id, tooLong: bool, refusal: Id)
    | OnFailed(j: Id, lease: Id, generation: nat, turn: Id, message: Id, credentialRejected: bool)
    | OnCancelled(j: Id, lease: Id, generation: nat, cancelledTurn: Option<Id>, notStarted: bool)
    | OnDisconnected(connector: Id)

  predicate Current(s: Tables, j: Id, lease: Id) { j in s.jobs && s.jobs[j].lease == Some(lease) }

  /** Hermes results and failures are refused for a stale lease and after a cancel. */
  predicate Refusable(s: Tables, j: Id, lease: Id) {
    !Current(s, j, lease) || s.jobs[j].cancelRequested
  }

  function Refusal(s: Tables, j: Id, lease: Id): Reply {
    if !Current(s, j, lease) then Refused(StaleLease) else Refused(CancelSuperseded)
  }

  function HermesEvent(s: Tables, e: Event): (Tables, Reply) {
    match e
    case OnAccepted(j, connector, lease, _, _) =>
      var t := MarkRunning(s, j, connector, lease);
      (t, if Current(t, j, lease) && t.jobs[j].status.Running? then Silent else Refused(StaleLease))
    case OnResult(j, lease, _, _, text, tooLong, _) =>
      if tooLong then (s, Refused(OutputTooLarge))
      else if Refusable(s, j, lease) then (s, Refusal(s, j, lease))
      else
        var t := FinishWithOutbox(s, j, lease, true, text);
        (t, if j in t.outbox && t.outbox[j].result == text then ResultStored else Refused(ResultConflict))
    case OnFailed(j, lease, _, _, message, _) =>
      if Refusable(s, j, lease) then (s, Refusal(s, j, lease))
      else
        var t := FinishWithOutbox(s, j, lease, false, message);
        (t, if j in t.outbox then ResultStored else Silent)
    case OnCancelled(j, lease, _, _, notStarted) =>
      if !Current(s, j, lease) then (s, Silent)
      else if notStarted then
        (FinishHermesCancellationNotStarted(s, j, lease),
         if !CanCancelHermes(s, j, lease) && s.jobs[j].status.Cancelling? then Raised else Silent)
      else (MarkCancelUnknown(s, j, lease), Silent)
    case OnDisconnected(connector) => (MarkConnectorDisconnected(s, connector), Silent)
  }

  function FinishDurable(s: Tables, kind: Backend, j: Id, lease: Id, generation: nat, turn: Id, success: bool,
                         result: Id, quarantine: bool): (Tables, Reply) {
    (FinishBackendWithOutbox(s, j, kind, lease, generation, turn, success, result, quarantine),
     if CanFinishBackend(s, j, kind, lease, generation, turn) then Silent else Raised)
  }

  function DurableEvent(s: Tables, kind: Backend, e: Event): (Tables, Reply) {
    match e
    case OnAccepted(j, _, lease, generation, turn) =>
      var (t, bound) := MarkBackendRunning(s, j, kind, lease, generation, turn);
      (t, if bound then Silent else Raised)
    case OnResult(j, lease, generation, turn, text, tooLong, refusal) =>
      if tooLong then FinishDurable(s, kind, j, lease, generation, turn, false, refusal, false)
      else if Refusable(s, j, lease) then (s, Raised)
      else FinishDurable(s, kind, j, lease, generation, turn, true, text, false)
    case OnFailed(j, lease, generation, turn, message, credentialRejected) =>
      if (kind.Claude? && credentialRejected) || Refusable(s, j, lease) then (s, Raised)
      else FinishDurable(s, kind, j, lease, generation, turn, false, message, credentialRejected)
    case OnCancelled(j, lease, generation, turn, _) =>
      if !Current(s, j, lease) then (s, Silent)
      else (MarkBackendRecoveryTerminal(s, j, kind, lease, generation, turn, true), Silent)
    case OnDisconnected(connector) => (MarkBackendDisconnected(s, kind, connector), Silent)
  }

  function Handle(s: Tables, kind: Backend, e: Event): (Tables, Reply) {
    if kind.Hermes? then HermesEvent(s, e) else DurableEvent(s, kind, e)
  }

  // ---------------------------------------------------------------------------------------------
  // Answers of the backend
  // ---------------------------------------------------------------------------------------------

  /** The second component is false where the daemon throws. */
  function ResetUnsentExecution(s: Tables, kind: Backend, call: Call): (Tables, bool) {
    if kind.Hermes? then (ResetUnsentDispatch(s, call.j, call.lease), true)
    else if call.j in s.jobs && s.jobs[call.j].status.Cancelling? then
      (FinishUnsentBackendCancellation(s, call.j, kind, call.lease, call.generation),
       CanCancelUnsent(s, call.j, kind, call.lease, call.generation))
    else if call.j !in s.jobs || !s.jobs[call.j].status.Dispatching? then (s, true)
    else
      (ResetUnsentBackendDispatch(s, call.j, kind, call.lease, call.generation),
       CanResetSlot(s, call.j, kind, call.lease, call.generation))
  }

  function BoundTurn(s: Tables, key: SlotKey): Option<Id> {
    if key in s.slots && s.slots[key].active.Some? then s.slots[key].active.value.turn else None
  }

  function MarkCancellationUnknown(s: Tables, kind: Backend, call: Call): Tables {
    if kind.Hermes? then MarkCancelUnknown(s, call.j, call.lease)
    else if call.j !in s.jobs then s
    else MarkBackendRecoveryTerminal(s, call.j, kind, call.lease, call.generation,
                                     BoundTurn(s, SlotKey(kind, s.jobs[call.j].session)), true)
  }

  /** What becomes of a cancel once the backend answered, or failed to. */
  function CancelAnswered(s: Tables, kind: Backend, call: Call, answer: Answer): Tables {
    match answer
    case Submitted => s
    case Threw => MarkCancellationUnknown(s, kind, call)
    case NotSubmitted =>
      if !kind.Hermes? && CanCancelUnsent(s, call.j, kind, call.lease, call.generation)
      then FinishUnsentBackendCancellation(s, call.j, kind, call.lease, call.generation)
      else MarkCancellationUnknown(s, kind, call)
  }

  // ---------------------------------------------------------------------------------------------
  // The synchronous part of each handler, in place
  // ---------------------------------------------------------------------------------------------

  class RelayDaemon {
    const kind: Backend
    const store: JobStore

    constructor (kind: Backend, store: JobStore)
      ensures this.kind == kind && this.store == store
    {
      this.kind, this.store := kind, store;
    }

    method ResetUnsent(call: Call) returns (settled: bool)
      requires Valid(store.Content())
      modifies store
      ensures (store.Content(), settled) == ResetUnsentExecution(old(store.Content()), kind, call)
      ensures Valid(store.Content())
    {
      hide Valid;
      if kind.Hermes? {
        store.ResetUnsentDispatch(call.j, call.lease);
        return true;
      }
      if call.j in store.jobs && store.jobs[call.j].status.Cancelling? {
        settled := store.FinishUnsentBackendCancellation(call.j, kind, call.lease, call.generation);
        return;
      }
      if call.j !in store.jobs || !store.jobs[call.j].status.Dispatching? { return true; }
      settled := store.ResetUnsentBackendDispatch(call.j, kind, call.lease, call.generation);
    }

    method GiveUpCancel(call: Call)
      requires Valid(store.Content())
      modifies store
      ensures store.Content() == MarkCancellationUnknown(old(store.Content()), kind, call) && Valid(store.Content())
    {
      hide Valid;
      if kind.Hermes? {
        store.MarkCancelUnknown(call.j, call.lease);
      } else if call.j in store.jobs {
        var key := SlotKey(kind, store.jobs[call.j].session);
        var turn := None;
        if key in store.slots && store.slots[key].active.Some? { turn := store.slots[key].active.value.turn; }
        var _ := store.MarkBackendRecoveryTerminal(call.j, kind, call.lease, call.generation, turn, true);
      }
    }

    method OnCancelAnswer(call: Call, answer: Answer)
      requires Valid(store.Content())
      modifies store
      ensures store.Content() == CancelAnswered(old(store.Content()), kind, call, answer) && Valid(store.Content())
    {
      hide Valid;
      match answer
      case Submitted =>
      case Threw => GiveUpCancel(call);
      case NotSubmitted =>
        var cancelled := false;
        if !kind.Hermes? {
          cancelled := store.FinishUnsentBackendCancellation(call.j, kind, call.lease, call.generation);
        }
        if !cancelled { GiveUpCancel(call); }
    }

    method OnHermesResult(j: Id, lease: Id, text: Id, tooLong: bool) returns (reply: Reply)
      requires Valid(store.Content())
      modifies store
      ensures (store.Content(), reply) == HermesEvent(old(store.Content()), OnResult(j, lease, 0, 0, text, tooLong, 0))
      ensures Valid(store.Content())
    {
      hide Valid;
      if tooLong { return Refused(OutputTooLarge); }
      if j !in store.jobs || store.jobs[j].lease != Some(lease) { return Refused(StaleLease); }
      if store.jobs[j].cancelRequested { return Refused(CancelSuperseded); }
      store.FinishWithOutbox(j, lease, true, text);
      if j !in store.outbox || store.outbox[j].result != text { return Refused(ResultConflict); }
      return ResultStored;
    }

    method OnHermesCancelled(j: Id, lease: Id, notStarted: bool) returns (reply: Reply)
      requires Valid(store.Content())
      modifies store
      ensures (store.Content(), reply) == HermesEvent(old(store.Content()), OnCancelled(j, lease, 0, None, notStarted))
      ensures Valid(store.Content())
    {
      hide Valid;
      if j !in store.jobs || store.jobs[j].lease != Some(lease) { return Silent; }
      if notStarted {
        var before := store.jobs[j].status;
        var done := store.FinishHermesCancellationNotStarted(j, lease);
        return if !done && before.Cancelling? then Raised else Silent;
      }
      store.MarkCancelUnknown(j, lease);
      return Silent;
    }

    method OnDurableResult(j: Id, lease: Id, generation: nat, turn: Id, text: Id, tooLong: bool, refusal: Id)
      returns (reply: Reply)
      requires Valid(store.Content()) && !kind.Hermes?
      modifies store
      ensures (store.Content(), reply) ==
                DurableEvent(old(store.Content()), kind, OnResult(j, lease, generation, turn, text, tooLong, refusal))
      ensures Valid(store.Content())
    {
      hide Valid;
      var done;
      if tooLong {
        done := store.FinishBackendWithOutbox(j, kind, lease, generation, turn, false, refusal, false);
      } else {
        if j !in store.jobs || store.jobs[j].lease != Some(lease) || store.jobs[j].cancelRequested { return Raised; }
        done := store.FinishBackendWithOutbox(j, kind, lease, generation, turn, true, text, false);
      }
      return if done then Silent else Raised;
    }
  }

  // ---------------------------------------------------------------------------------------------
  // Replies
  // ---------------------------------------------------------------------------------------------

  /** "result_stored" for a result frame: the stored text is the text of that frame, now and in every
      later state, and no cancel will ever win. */
  lemma StoredReplyIsKept(s: Tables, e: Event, steps: seq<Step>)
    requires Valid(s) && e.OnResult? && HermesEvent(s, e).1.ResultStored? && IsRun(HermesEvent(s, e).0, steps)
    ensures var t := After(HermesEvent(s, e).0, steps);
            && e.j in t.outbox && t.outbox[e.j].result == e.text
            && e.j in t.jobs && !t.jobs[e.j].cancelRequested && HasResult(t.jobs[e.j].status)
  {
    hide AttemptsOk, DeliveriesOk;
    var t := HermesEvent(s, e).0;
    FinishWithOutboxKeeps(s, e.j, e.lease, true, e.text);
    JobAt(t, e.j);
    CancelOrResultForever(t, steps, e.j);
  }

  /** The same frame again is answered alike and changes nothing; another text is refused and changes nothing. */
  lemma ResultFramesAreIdempotent(s: Tables, e: Event, again: Event)
    requires Valid(s) && e.OnResult? && again.OnResult? && e.j == again.j && e.lease == again.lease
    requires HermesEvent(s, e).1.ResultStored? && !again.tooLong
    ensures var t := HermesEvent(s, e).0;
            HermesEvent(t, again) == (t, if again.text == e.text then ResultStored else Refused(ResultConflict))
  {
    hide AttemptsOk, DeliveriesOk;
    JobAt(s, e.j);
  }

  /** When the reply is "result_stored": the lease is current, no cancel won, and the job either accepts a
      result now or already holds this very text. */
  lemma StoredReplyExactly(s: Tables, e: Event)
    requires Valid(s) && e.OnResult?
    ensures HermesEvent(s, e).1.ResultStored? <==>
              && !e.tooLong && Current(s, e.j, e.lease) && !s.jobs[e.j].cancelRequested
              && (if e.j in s.outbox then s.outbox[e.j].result == e.text
                  else s.jobs[e.j].target.Hermes? && Active(s.jobs[e.j].status))
  {
    hide AttemptsOk, DeliveriesOk;
    if e.j in s.jobs { JobAt(s, e.j); }
  }

  /** A confirmed "not started" always settles a Hermes job as cancelled, without quarantine. */
  lemma NotStartedNeverRaises(s: Tables, e: Event)
    requires Valid(s) && e.OnCancelled? && e.notStarted && Current(s, e.j, e.lease) && s.jobs[e.j].target.Hermes?
    ensures HermesEvent(s, e).1.Silent?
    ensures s.jobs[e.j].status.Cancelling? ==>
              HermesEvent(s, e).0.jobs[e.j].status.Cancelled? && HermesEvent(s, e).0.quarantine == s.quarantine
  {
  }

  // ---------------------------------------------------------------------------------------------
  // Unsent calls and undeliverable cancels
  // ---------------------------------------------------------------------------------------------

  /** The run of the call exists, carries its lease, and was not returned unsent. */
  ghost predicate Unreturned(s: Tables, call: Call) {
    && RunOf(call) in s.ledger
    && |s.ledger[RunOf(call)]| > 0
    && s.ledger[RunOf(call)][0].lease == call.lease
    && forall i :: 0 <= i < |s.ledger[RunOf(call)]| ==> !s.ledger[RunOf(call)][i].kind.NotSent?
  }

  /** An unreturned call belongs to the current generation of its job. */
  lemma UnreturnedIsCurrent(s: Tables, call: Call)
    requires Valid(s) && Unreturned(s, call)
    ensures call.j in s.jobs && s.jobs[call.j].generation == call.generation
    ensures s.jobs[call.j].lease == Some(call.lease) && !Undispatched(s.jobs[call.j].status)
  {
    hide AttemptsOk, DeliveriesOk;
    RunFacts(s, RunOf(call));
    JobAt(s, call.j);
    var events := s.ledger[RunOf(call)];
    assert !events[|events| - 1].kind.NotSent?;
  }

  lemma OneUnreturnedPerJob(s: Tables, a: Call, b: Call)
    requires Valid(s) && Unreturned(s, a) && Unreturned(s, b) && a.j == b.j
    ensures a == b
  {
    hide Valid;
    UnreturnedIsCurrent(s, a);
    UnreturnedIsCurrent(s, b);
  }

  /** Returning an unsent call throws exactly when a cancel is pending and the backend had already
      accepted the very attempt it now calls unsent. */
  lemma ResetThrowsExactly(s: Tables, kind: Backend, call: Call)
    requires Valid(s) && Unreturned(s, call) && s.jobs[call.j].target == kind
    ensures ResetUnsentExecution(s, kind, call).1 <==>
              !(!kind.Hermes? && s.jobs[call.j].status.Cancelling? && AcceptedFlag(s.ledger[RunOf(call)]))
  {
    hide AttemptsOk, DeliveriesOk;
    UnreturnedIsCurrent(s, call);
    if Active(s.jobs[call.j].status) { ActiveJob(s, call.j); }
  }

  /** A cancel that could not be delivered is always settled: as cancelled when the attempt was never
      accepted by a durable backend, otherwise as unknown, and then the session is quarantined. */
  lemma UndeliveredCancelSettles(s: Tables, kind: Backend, call: Call, answer: Answer)
    requires Valid(s) && call.j in s.jobs && s.jobs[call.j].target == kind && s.jobs[call.j].lease == Some(call.lease)
    requires s.jobs[call.j].generation == call.generation && s.jobs[call.j].status.Cancelling? && !answer.Submitted?
    ensures var t := CancelAnswered(s, kind, call, answer);
            && call.j in t.jobs
            && if answer.NotSubmitted? && !kind.Hermes? && !AcceptedFlag(Events(s, RunOf(call)))
               then t.jobs[call.j].status.Cancelled? && t.quarantine == s.quarantine &&
                    t.slots[SlotKey(kind, s.jobs[call.j].session)].active.None?
               else t.jobs[call.j].status.CancelUnknown? && s.jobs[call.j].session in t.quarantine
  {
    hide AttemptsOk, DeliveriesOk;
    ActiveJob(s, call.j);
  }

  // ---------------------------------------------------------------------------------------------
  // The daemon as a state machine
  // ---------------------------------------------------------------------------------------------

  /** `unanswered`: dispatch calls in flight.  `sent`: calls that ended in any other way than "not sent". */
  datatype State = State(kind: Backend, store: Tables, unanswered: set<Call>, sent: set<Call>)

  datatype Move =
    | Other(step: Step)
    | Dispatch(j: Id, connector: Id, lease: Id)
    | Answered(call: Call, answer: Answer)
    | CancelAnswer(call: Call, answer: Answer)
    | BackendEvent(event: Event)
    | Restarted(now: Time)

  /** Claims, returns of unsent calls and restarts happen only through the daemon's own moves. */
  predicate DaemonOnly(step: Step) {
    IsClaim(step) || step.DoReset? || step.DoResetSlot? || step.DoRestart?
  }

  ghost predicate Possible(d: State, move: Move) {
    match move
    case Other(step) => Enabled(d.store, step) && !DaemonOnly(step)
    case Dispatch(_, _, lease) => FreshLease(d.store, lease)
    case Answered(call, _) => call in d.unanswered
    case _ => true
  }

  ghost function ClaimStep(d: State, j: Id, connector: Id, lease: Id): Step {
    if d.kind.Hermes? then DoClaim(j, connector, lease) else DoClaimSlot(j, d.kind, connector, lease)
  }

  ghost function Moved(d: State, move: Move): State {
    match move
    case Other(step) => d.(store := Next(d.store, step))
    case Dispatch(j, connector, lease) =>
      var t := Next(d.store, ClaimStep(d, j, connector, lease));
      if t == d.store || j !in t.jobs then d
      else d.(store := t, unanswered := d.unanswered + {Call(j, lease, t.jobs[j].generation)})
    case Answered(call, answer) =>
      if answer.NotSubmitted?
      then d.(store := ResetUnsentExecution(d.store, d.kind, call).0, unanswered := d.unanswered - {call})
      else d.(unanswered := d.unanswered - {call}, sent := d.sent + {call})
    case CancelAnswer(call, answer) => d.(store := CancelAnswered(d.store, d.kind, call, answer))
    case BackendEvent(e) => d.(store := Handle(d.store, d.kind, e).0)
    case Restarted(now) =>
      d.(store := RecoverAfterRestart(d.store, now), unanswered := {}, sent := d.sent + d.unanswered)
  }

  ghost predicate Sound(d: State) {
    && Valid(d.store)
    && forall call :: call in d.unanswered || call in d.sent ==> Unreturned(d.store, call)
  }

  /** Only the return of an unsent call records `not_sent`, and only for the job it names. */
  predicate Returns(step: Step, j: Id) { (step.DoReset? || step.DoResetSlot?) && step.j == j }

  ghost predicate AddsNoReturn(s: Tables, t: Tables, step: Step) {
    forall r, i | r in s.ledger && r in t.ledger && |s.ledger[r]| <= i < |t.ledger[r]| ::
      t.ledger[r][i].kind.NotSent? ==> Returns(step, r.job)
  }

  lemma IntakeAddsNoReturn(s: Tables, step: Step)
    requires IsIntake(step)
    ensures AddsNoReturn(s, Next(s, step), step)
  {
    hide NextClaim, NextUnsent, NextProgress, NextLoss, NextSession, NextDelivery;
  }

  lemma ClaimAddsNoReturn(s: Tables, step: Step)
    requires IsClaim(step)
    ensures AddsNoReturn(s, Next(s, step), step)
  {
    hide NextIntake, NextUnsent, NextProgress, NextLoss, NextSession, NextDelivery;
  }

  lemma UnsentAddsNoReturn(s: Tables, step: Step)
    requires IsUnsent(step)
    ensures AddsNoReturn(s, Next(s, step), step)
  {
    hide NextIntake, NextClaim, NextProgress, NextLoss, NextSession, NextDelivery;
  }

  lemma ProgressAddsNoReturn(s: Tables, step: Step)
    requires IsProgress(step)
    ensures AddsNoReturn(s, Next(s, step), step)
  {
    hide NextIntake, NextClaim, NextUnsent, NextLoss, NextSession, NextDelivery;
  }

  lemma LossAddsNoReturn(s: Tables, step: Step)
    requires IsLoss(step)
    ensures AddsNoReturn(s, Next(s, step), step)
  {
    hide NextIntake, NextClaim, NextUnsent, NextProgress, NextSession, NextDelivery;
  }

  lemma StepAddsNoReturn(s: Tables, step: Step)
    ensures AddsNoReturn(s, Next(s, step), step)
  {
    if IsIntake(step) {
      IntakeAddsNoReturn(s, step);
    } else if IsClaim(step) {
      ClaimAddsNoReturn(s, step);
    } else if IsUnsent(step) {
      UnsentAddsNoReturn(s, step);
    } else if IsProgress(step) {
      ProgressAddsNoReturn(s, step);
    } else if IsLoss(step) {
      LossAddsNoReturn(s, step);
    } else {
      assert Next(s, step).ledger == s.ledger;
    }
  }

  /** No step takes an unreturned call back unless it returns that very job. */
  lemma StaysUnreturned(s: Tables, step: Step, call: Call)
    requires Unreturned(s, call) && !Returns(step, call.j)
    ensures Unreturned(Next(s, step), call)
  {
    hide Next, JobEvolves, RowEvolves;
    StepEvolves(s, step);
    StepAddsNoReturn(s, step);
    var r := RunOf(call);
    var before, after := s.ledger[r], Next(s, step).ledger[r];
    assert before <= after;
    forall i | 0 <= i < |after| ensures !after[i].kind.NotSent? {
      if i < |before| { assert after[i] == before[i]; }
    }
  }

  // ---------------------------------------------------------------------------------------------
  // Handlers are store steps
  // ---------------------------------------------------------------------------------------------

  function EventStep(kind: Backend, e: Event): Step {
    match e
    case OnAccepted(j, connector, lease, generation, turn) =>
      if kind.Hermes? then DoRunning(j, connector, lease) else DoBackendRunning(j, kind, lease, generation, turn)
    case OnResult(j, lease, generation, turn, text, tooLong, refusal) =>
      if kind.Hermes? then DoFinish(j, lease, true, text)
      else DoFinishBackend(j, kind, lease, generation, turn, !tooLong, if tooLong then refusal else text, false)
    case OnFailed(j, lease, generation, turn, message, credentialRejected) =>
      if kind.Hermes? then DoFinish(j, lease, false, message)
      else DoFinishBackend(j, kind, lease, generation, turn, false, message, credentialRejected)
    case OnCancelled(j, lease, generation, turn, notStarted) =>
      if !kind.Hermes? then DoLose(j, kind, lease, generation, turn, true)
      else if notStarted then DoCancelNotStarted(j, lease) else DoCancelUnknown(j, lease)
    case OnDisconnected(connector) =>
      if kind.Hermes? then DoConnectorLost(connector) else DoBackendLost(kind, connector)
  }

  /** Every event is one store transaction of its own kind, or nothing. */
  lemma EventIsStep(s: Tables, kind: Backend, e: Event)
    ensures Handle(s, kind, e).0 == s || Handle(s, kind, e).0 == Next(s, EventStep(kind, e))
    ensures Enabled(s, EventStep(kind, e)) && !DaemonOnly(EventStep(kind, e))
  {
    hide FinishWithOutbox, FinishBackendWithOutbox, MarkBackendRunning, MarkRunning, MarkBackendRecoveryTerminal,
         MarkCancelUnknown, FinishHermesCancellationNotStarted, MarkConnectorDisconnected, MarkBackendDisconnected;
  }

  function CancelStep(s: Tables, kind: Backend, call: Call, answer: Answer): Step {
    if answer.NotSubmitted? && !kind.Hermes? && CanCancelUnsent(s, call.j, kind, call.lease, call.generation)
    then DoCancelUnsent(call.j, kind, call.lease, call.generation)
    else if kind.Hermes? then DoCancelUnknown(call.j, call.lease)
    else DoLose(call.j, kind, call.lease, call.generation,
                if call.j in s.jobs then BoundTurn(s, SlotKey(kind, s.jobs[call.j].session)) else None, true)
  }

  lemma CancelAnswerIsStep(s: Tables, kind: Backend, call: Call, answer: Answer)
    ensures var t := CancelAnswered(s, kind, call, answer);
            t == s || t == Next(s, CancelStep(s, kind, call, answer))
    ensures Enabled(s, CancelStep(s, kind, call, answer)) && !DaemonOnly(CancelStep(s, kind, call, answer))
  {
    hide FinishUnsentBackendCancellation, MarkBackendRecoveryTerminal, MarkCancelUnknown;
  }

  function ResetStep(s: Tables, kind: Backend, call: Call): Step {
    if kind.Hermes? then DoReset(call.j, call.lease)
    else if call.j in s.jobs && s.jobs[call.j].status.Cancelling? then
      DoCancelUnsent(call.j, kind, call.lease, call.generation)
    else DoResetSlot(call.j, kind, call.lease, call.generation)
  }

  lemma ResetIsStep(s: Tables, kind: Backend, call: Call)
    ensures var t := ResetUnsentExecution(s, kind, call).0; t == s || t == Next(s, ResetStep(s, kind, call))
  {
    hide FinishUnsentBackendCancellation, ResetUnsentBackendDispatch, ResetUnsentDispatch;
  }

  // ---------------------------------------------------------------------------------------------
  // At most once
  // ---------------------------------------------------------------------------------------------

  lemma StepKeepsSound(d: State, e: State, step: Step)
    requires Sound(d) && Enabled(d.store, step)
    requires e.store == d.store || e.store == Next(d.store, step)
    requires forall call :: call in e.unanswered || call in e.sent ==>
               (call in d.unanswered || call in d.sent) && !Returns(step, call.j)
    ensures Sound(e)
  {
    hide Valid, Next, Unreturned;
    StepKeepsValid(d.store, step);
    forall call | call in e.unanswered || call in e.sent ensures Unreturned(e.store, call) {
      StaysUnreturned(d.store, step, call);
    }
  }

  lemma ClaimedCall(d: State, j: Id, connector: Id, lease: Id)
    requires Valid(d.store) && FreshLease(d.store, lease)
    ensures var t := Next(d.store, ClaimStep(d, j, connector, lease));
            t != d.store && j in t.jobs ==> Unreturned(t, Call(j, lease, t.jobs[j].generation))
  {
    hide JobsOk, SlotsOk, LeasesUnique, OneActivePerSession, OneHeldPerSession, NoneActiveUnderRecovery, DeliveriesOk;
    if j in d.store.jobs { RunAt(d.store, j); }
  }

  lemma DispatchKeepsSound(d: State, j: Id, connector: Id, lease: Id)
    requires Sound(d) && FreshLease(d.store, lease)
    ensures Sound(Moved(d, Dispatch(j, connector, lease)))
  {
    hide Valid, Next, Unreturned;
    var step := ClaimStep(d, j, connector, lease);
    StepKeepsSound(d, d.(store := Next(d.store, step)), step);
    ClaimedCall(d, j, connector, lease);
  }

  lemma AnswerKeepsSound(d: State, call: Call, answer: Answer)
    requires Sound(d) && call in d.unanswered
    requires answer.NotSubmitted? ==> call !in d.sent
    ensures Sound(Moved(d, Answered(call, answer)))
  {
    hide Valid, Next, Unreturned;
    if answer.NotSubmitted? {
      ResetIsStep(d.store, d.kind, call);
      forall other | (other in d.unanswered || other in d.sent) && other != call ensures other.j != call.j {
        if other.j == call.j { OneUnreturnedPerJob(d.store, call, other); }
      }
      StepKeepsSound(d, Moved(d, Answered(call, answer)), ResetStep(d.store, d.kind, call));
    }
  }

  lemma RestartKeepsSound(d: State, now: Time)
    requires Sound(d)
    ensures Sound(Moved(d, Restarted(now)))
  {
    hide Valid, RecoverAfterRestart, Unreturned;
    assert Next(d.store, DoRestart(now)) == RecoverAfterRestart(d.store, now);
    hide Next;
    StepKeepsSound(d, Moved(d, Restarted(now)), DoRestart(now));
  }

  /** A fresh lease makes a fresh call. */
  lemma DispatchIsNew(d: State, j: Id, connector: Id, lease: Id, generation: nat)
    requires Sound(d) && FreshLease(d.store, lease)
    ensures Call(j, lease, generation) !in d.sent
  {
    hide Valid;
    var call := Call(j, lease, generation);
    assert call in d.sent ==> Unreturned(d.store, call);
  }

  lemma MoveKeepsSound(d: State, move: Move)
    requires Sound(d) && Possible(d, move) && d.unanswered !! d.sent
    ensures Sound(Moved(d, move)) && Moved(d, move).unanswered !! Moved(d, move).sent
  {
    hide Valid, Next, Unreturned, Handle, CancelAnswered;
    match move
    case Other(step) => StepKeepsSound(d, Moved(d, move), step);
    case Dispatch(j, connector, lease) =>
      DispatchKeepsSound(d, j, connector, lease);
      var t := Next(d.store, ClaimStep(d, j, connector, lease));
      if j in t.jobs { DispatchIsNew(d, j, connector, lease, t.jobs[j].generation); }
    case Answered(call, answer) => AnswerKeepsSound(d, call, answer);
    case CancelAnswer(call, answer) =>
      CancelAnswerIsStep(d.store, d.kind, call, answer);
      StepKeepsSound(d, Moved(d, move), CancelStep(d.store, d.kind, call, answer));
    case BackendEvent(e) =>
      EventIsStep(d.store, d.kind, e);
      StepKeepsSound(d, Moved(d, move), EventStep(d.kind, e));
    case Restarted(now) => RestartKeepsSound(d, now);
  }

  ghost predicate IsHistory(d: State, moves: seq<Move>)
    decreases |moves|
  {
    moves == [] || (Possible(d, moves[0]) && IsHistory(Moved(d, moves[0]), moves[1..]))
  }

  ghost function Afterwards(d: State, moves: seq<Move>): State
    decreases |moves|
  {
    if moves == [] then d else Afterwards(Moved(d, moves[0]), moves[1..])
  }

  lemma {:induction false} HistoryKeepsSound(d: State, moves: seq<Move>)
    requires Sound(d) && d.unanswered !! d.sent && IsHistory(d, moves)
    ensures Sound(Afterwards(d, moves)) && Afterwards(d, moves).unanswered !! Afterwards(d, moves).sent
    decreases |moves|
  {
    hide Sound, Moved, Possible;
    if moves != [] {
      MoveKeepsSound(d, moves[0]);
      HistoryKeepsSound(Moved(d, moves[0]), moves[1..]);
    }
  }

  /** Over every history of the daemon, restarts included: of all dispatch calls ever made for a job, all
      but at most one were answered "not sent"; while that one stands, the job is not claimed again. */
  lemma AtMostOneDispatch(kind: Backend, moves: seq<Move>, a: Call, b: Call)
    requires IsHistory(State(kind, EMPTY, {}, {}), moves)
    requires var d := Afterwards(State(kind, EMPTY, {}, {}), moves); a in d.sent + d.unanswered && b in d.sent + d.unanswered
    ensures a.j == b.j ==> a == b
    ensures var d := Afterwards(State(kind, EMPTY, {}, {}), moves);
            a.j in d.store.jobs && d.store.jobs[a.j].lease == Some(a.lease) && !CanClaim(d.store, a.j, d.store.jobs[a.j].target)
  {
    hide Valid, Unreturned, IsHistory, Afterwards;
    EmptyValid();
    HistoryKeepsSound(State(kind, EMPTY, {}, {}), moves);
    var d := Afterwards(State(kind, EMPTY, {}, {}), moves);
    UnreturnedIsCurrent(d.store, a);
    if a.j == b.j { OneUnreturnedPerJob(d.store, a, b); }
  }
}
