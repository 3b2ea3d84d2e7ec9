/** The store as a state machine: its steps, its runs, and what holds over whole runs. */
module Runs {
  import opened Tables
  import opened Invariant
  import opened Preservation

  datatype Step =
    | DoIngest(j: Id, payload: Id, session: Id, target: Backend, now: Time)
    | DoAck(j: Id)
    | DoReject(j: Id, result: Id)
    | DoCancel(j: Id, now: Time)
    | DoClaim(j: Id, connector: Id, lease: Id)
    | DoClaimSlot(j: Id, backend: Backend, connector: Id, lease: Id)
    | DoReset(j: Id, lease: Id)
    | DoResetSlot(j: Id, backend: Backend, lease: Id, generation: nat)
    | DoCancelUnsent(j: Id, backend: Backend, lease: Id, generation: nat)
    | DoCancelNotStarted(j: Id, lease: Id)
    | DoRunning(j: Id, connector: Id, lease: Id)
    | DoBackendRunning(j: Id, backend: Backend, lease: Id, generation: nat, turn: Id)
    | DoFinish(j: Id, lease: Id, success: bool, result: Id)
    | DoFinishBackend(j: Id, backend: Backend, lease: Id, generation: nat, turn: Id, success: bool, result: Id,
                      quarantineSession: bool)
    | DoCancelUnknown(j: Id, lease: Id)
    | DoLose(j: Id, backend: Backend, lease: Id, generation: nat, lostTurn: Option<Id>, cancelled: bool)
    | DoConnectorLost(connector: Id)
    | DoBackendLost(backend: Backend, connector: Id)
    | DoRestart(now: Time)
    | DoQuarantine(session: Id)
    | DoEnsureSession(key: SlotKey)
    | DoCreateSession(key: SlotKey, thread: Id)
    | DoBindThread(key: SlotKey, thread: Id)
    | DoRelease(session: Id)
    | DoReleaseSlot(key: SlotKey)
    | DoDeliver(j: Id, message: Id, retry: bool, now: Time)
    | DoUndeliver(j: Id)
    | DoSendFailed(j: Id, message: Id, retry: bool)
    | DoDelivered(j: Id, now: Time)
    | DoAckFailed(j: Id, next: Time)

  predicate IsIntake(step: Step) { step.DoIngest? || step.DoAck? || step.DoReject? || step.DoCancel? }
  predicate IsClaim(step: Step) { step.DoClaim? || step.DoClaimSlot? }
  predicate IsUnsent(step: Step) { step.DoReset? || step.DoResetSlot? || step.DoCancelUnsent? || step.DoCancelNotStarted? }
  predicate IsProgress(step: Step) { step.DoRunning? || step.DoBackendRunning? || step.DoFinish? || step.DoFinishBackend? }
  predicate IsLoss(step: Step) {
    step.DoCancelUnknown? || step.DoLose? || step.DoConnectorLost? || step.DoBackendLost? || step.DoRestart?
  }
  predicate IsSession(step: Step) {
    step.DoQuarantine? || step.DoEnsureSession? || step.DoCreateSession? || step.DoBindThread? || step.DoRelease? || step.DoReleaseSlot?
  }
  predicate IsDelivery(step: Step) {
    step.DoDeliver? || step.DoUndeliver? || step.DoSendFailed? || step.DoDelivered? || step.DoAckFailed?
  }

  function NextIntake(s: Tables, step: Step): Tables
    requires IsIntake(step)
  {
    match step
    case DoIngest(j, payload, session, target, now) => Ingest(s, j, payload, session, target, now)
    case DoAck(j) => MarkAcked(s, j)
    case DoReject(j, result) => Reject(s, j, result)
    case DoCancel(j, now) => RequestCancel(s, j, now).0
  }

  ghost function NextClaim(s: Tables, step: Step): Tables
    requires IsClaim(step)
  {
    match step
    case DoClaim(j, connector, lease) => ClaimForDispatch(s, j, connector, lease)
    case DoClaimSlot(j, backend, connector, lease) => ClaimForBackendDispatch(s, j, backend, connector, lease)
  }

  function NextUnsent(s: Tables, step: Step): Tables
    requires IsUnsent(step)
  {
    match step
    case DoReset(j, lease) => ResetUnsentDispatch(s, j, lease)
    case DoResetSlot(j, backend, lease, generation) => ResetUnsentBackendDispatch(s, j, backend, lease, generation)
    case DoCancelUnsent(j, backend, lease, generation) => FinishUnsentBackendCancellation(s, j, backend, lease, generation)
    case DoCancelNotStarted(j, lease) => FinishHermesCancellationNotStarted(s, j, lease)
  }

  function NextProgress(s: Tables, step: Step): Tables
    requires IsProgress(step)
  {
    match step
    case DoRunning(j, connector, lease) => MarkRunning(s, j, connector, lease)
    case DoBackendRunning(j, backend, lease, generation, turn) =>
      MarkBackendRunning(s, j, backend, lease, generation, turn).0
    case DoFinish(j, lease, success, result) => FinishWithOutbox(s, j, lease, success, result)
    case DoFinishBackend(j, backend, lease, generation, turn, success, result, quarantineSession) =>
      FinishBackendWithOutbox(s, j, backend, lease, generation, turn, success, result, quarantineSession)
  }

  function NextLoss(s: Tables, step: Step): Tables
    requires IsLoss(step)
  {
    match step
    case DoCancelUnknown(j, lease) => MarkCancelUnknown(s, j, lease)
    case DoLose(j, backend, lease, generation, turn, cancelled) =>
      MarkBackendRecoveryTerminal(s, j, backend, lease, generation, turn, cancelled)
    case DoConnectorLost(connector) => MarkConnectorDisconnected(s, connector)
    case DoBackendLost(backend, connector) => MarkBackendDisconnected(s, backend, connector)
    case DoRestart(now) => RecoverAfterRestart(s, now)
  }

  function NextSession(s: Tables, step: Step): Tables
    requires IsSession(step)
  {
    match step
    case DoQuarantine(session) => WithQuarantine(s, session)
    case DoEnsureSession(key) => EnsureBackendSession(s, key)
    case DoCreateSession(key, thread) => CreateLocalOpaqueSession(s, key, thread)
    case DoBindThread(key, thread) => BindBackendThread(s, key, thread)
    case DoRelease(session) => ReleaseSessionRecovery(s, session).0
    case DoReleaseSlot(key) => ReleaseBackendSessionRecovery(s, key)
  }

  function NextDelivery(s: Tables, step: Step): Tables
    requires IsDelivery(step)
  {
    match step
    case DoDeliver(j, message, retry, now) => StartResultDelivery(s, j, message, retry, now)
    case DoUndeliver(j) => ResetOutboxPending(s, j)
    case DoSendFailed(j, message, retry) => ResetAfterSendFailure(s, j, message, retry)
    case DoDelivered(j, now) => MarkOutboxDelivered(s, j, now)
    case DoAckFailed(j, next) => MarkOutboxAckFailed(s, j, next)
  }

  ghost function Next(s: Tables, step: Step): Tables {
    if IsIntake(step) then NextIntake(s, step)
    else if IsClaim(step) then NextClaim(s, step)
    else if IsUnsent(step) then NextUnsent(s, step)
    else if IsProgress(step) then NextProgress(s, step)
    else if IsLoss(step) then NextLoss(s, step)
    else if IsSession(step) then NextSession(s, step)
    else NextDelivery(s, step)
  }

  /** Leases and message ids are fresh UUIDs, the clock does not run backwards, Hermes has no session rows. */
  ghost predicate Enabled(s: Tables, step: Step) {
    match step
    case DoClaim(_, _, lease) => FreshLease(s, lease)
    case DoClaimSlot(_, _, _, lease) => FreshLease(s, lease)
    case DoDeliver(_, message, _, now) => FreshMessage(s, message) && forall d :: d in s.deliveries ==> d.createdAt <= now
    case DoEnsureSession(key) => !key.backend.Hermes?
    case DoCreateSession(key, _) => !key.backend.Hermes?
    case DoBindThread(key, _) => !key.backend.Hermes?
    case _ => true
  }

  lemma IntakeKeepsValid(s: Tables, step: Step)
    requires Valid(s) && Enabled(s, step) && IsIntake(step)
    ensures Valid(NextIntake(s, step))
  {
    hide Valid;
    match step
    case DoIngest(j, payload, session, target, now) => IngestKeeps(s, j, payload, session, target, now);
    case DoAck(j) => MarkAckedKeeps(s, j);
    case DoReject(j, result) => RejectKeeps(s, j, result);
    case DoCancel(j, now) => RequestCancelKeeps(s, j, now);
  }

  lemma ClaimKeepsValid(s: Tables, step: Step)
    requires Valid(s) && Enabled(s, step) && IsClaim(step)
    ensures Valid(NextClaim(s, step))
  {
    hide Valid;
    match step
    case DoClaim(j, connector, lease) => ClaimForDispatchKeeps(s, j, connector, lease);
    case DoClaimSlot(j, backend, connector, lease) => ClaimForBackendDispatchKeeps(s, j, backend, connector, lease);
  }

  lemma UnsentKeepsValid(s: Tables, step: Step)
    requires Valid(s) && Enabled(s, step) && IsUnsent(step)
    ensures Valid(NextUnsent(s, step))
  {
    hide Valid;
    match step
    case DoReset(j, lease) => ResetUnsentDispatchKeeps(s, j, lease);
    case DoResetSlot(j, backend, lease, generation) => ResetUnsentBackendDispatchKeeps(s, j, backend, lease, generation);
    case DoCancelUnsent(j, backend, lease, generation) =>
      FinishUnsentBackendCancellationKeeps(s, j, backend, lease, generation);
    case DoCancelNotStarted(j, lease) => FinishHermesCancellationNotStartedKeeps(s, j, lease);
  }

  lemma ProgressKeepsValid(s: Tables, step: Step)
    requires Valid(s) && Enabled(s, step) && IsProgress(step)
    ensures Valid(NextProgress(s, step))
  {
    hide Valid;
    match step
    case DoRunning(j, connector, lease) => MarkRunningKeeps(s, j, connector, lease);
    case DoBackendRunning(j, backend, lease, generation, turn) =>
      MarkBackendRunningKeeps(s, j, backend, lease, generation, turn);
    case DoFinish(j, lease, success, result) => FinishWithOutboxKeeps(s, j, lease, success, result);
    case DoFinishBackend(j, backend, lease, generation, turn, success, result, q) =>
      FinishBackendWithOutboxKeeps(s, j, backend, lease, generation, turn, success, result, q);
  }

  lemma LossKeepsValid(s: Tables, step: Step)
    requires Valid(s) && Enabled(s, step) && IsLoss(step)
    ensures Valid(NextLoss(s, step))
  {
    hide Valid;
    match step
    case DoCancelUnknown(j, lease) => MarkCancelUnknownKeeps(s, j, lease);
    case DoLose(j, backend, lease, generation, turn, cancelled) =>
      MarkBackendRecoveryTerminalKeeps(s, j, backend, lease, generation, turn, cancelled);
    case DoConnectorLost(connector) => MarkConnectorDisconnectedKeeps(s, connector);
    case DoBackendLost(backend, connector) => MarkBackendDisconnectedKeeps(s, backend, connector);
    case DoRestart(now) => RecoverAfterRestartKeeps(s, now);
  }

  lemma SessionKeepsValid(s: Tables, step: Step)
    requires Valid(s) && Enabled(s, step) && IsSession(step)
    ensures Valid(NextSession(s, step))
  {
    hide Valid;
    match step
    case DoQuarantine(session) => QuarantineKeeps(s, session);
    case DoEnsureSession(key) => SessionCreationKeeps(s, key, 0);
    case DoCreateSession(key, thread) => SessionCreationKeeps(s, key, thread);
    case DoBindThread(key, thread) => SessionCreationKeeps(s, key, thread);
    case DoRelease(session) => ReleaseSessionRecoveryKeeps(s, session);
    case DoReleaseSlot(key) => ReleaseBackendSessionRecoveryKeeps(s, key);
  }

  lemma DeliveryKeepsValid(s: Tables, step: Step)
    requires Valid(s) && Enabled(s, step) && IsDelivery(step)
    ensures Valid(NextDelivery(s, step))
  {
    hide Valid;
    match step
    case DoDeliver(j, message, retry, now) => StartResultDeliveryKeeps(s, j, message, retry, now);
    case DoUndeliver(j) => ResetOutboxPendingKeeps(s, j);
    case DoSendFailed(j, message, retry) => ResetAfterSendFailureKeeps(s, j, message, retry);
    case DoDelivered(j, now) => MarkOutboxDeliveredKeeps(s, j, now);
    case DoAckFailed(j, next) => MarkOutboxAckFailedKeeps(s, j, next);
  }

  lemma StepKeepsValid(s: Tables, step: Step)
    requires Valid(s) && Enabled(s, step)
    ensures Valid(Next(s, step))
  {
    hide Valid, Enabled, NextIntake, NextClaim, NextUnsent, NextProgress, NextLoss, NextSession, NextDelivery;
    if IsIntake(step) { IntakeKeepsValid(s, step); }
    else if IsClaim(step) { ClaimKeepsValid(s, step); }
    else if IsUnsent(step) { UnsentKeepsValid(s, step); }
    else if IsProgress(step) { ProgressKeepsValid(s, step); }
    else if IsLoss(step) { LossKeepsValid(s, step); }
    else if IsSession(step) { SessionKeepsValid(s, step); }
    else { DeliveryKeepsValid(s, step); }
  }

  // ---------------------------------------------------------------------------------------------
  // Runs
  // ---------------------------------------------------------------------------------------------

  ghost predicate IsRun(s: Tables, steps: seq<Step>)
    decreases |steps|
  {
    steps == [] || (Enabled(s, steps[0]) && IsRun(Next(s, steps[0]), steps[1..]))
  }

  ghost function After(s: Tables, steps: seq<Step>): Tables
    decreases |steps|
  {
    if steps == [] then s else After(Next(s, steps[0]), steps[1..])
  }

  lemma {:induction false} RunsKeepValid(s: Tables, steps: seq<Step>)
    requires Valid(s) && IsRun(s, steps)
    ensures Valid(After(s, steps))
    decreases |steps|
  {
    hide Valid;
    if steps != [] {
      StepKeepsValid(s, steps[0]);
      RunsKeepValid(Next(s, steps[0]), steps[1..]);
    }
  }

  // ---------------------------------------------------------------------------------------------
  // What no step ever undoes
  // ---------------------------------------------------------------------------------------------

  predicate JobEvolves(a: Job, b: Job) {
    && b.target == a.target && b.session == a.session && b.payload == a.payload
    && a.generation <= b.generation
    && (a.cancelRequested ==> b.cancelRequested)
    && (Terminal(a.status) ==> b == a)
  }

  predicate RowEvolves(a: Outbox, b: Outbox) {
    b.result == a.result && (a.status.Delivered? && a.nextAttempt.None? ==> b == a)
  }

  /** Jobs, results and events stay; terminal jobs and delivered results never change. */
  ghost predicate Evolves(s: Tables, t: Tables) {
    && (forall j :: j in s.jobs ==> j in t.jobs && JobEvolves(s.jobs[j], t.jobs[j]))
    && (forall j :: j in s.outbox ==> j in t.outbox && RowEvolves(s.outbox[j], t.outbox[j]))
    && (forall r :: r in s.ledger ==> r in t.ledger && s.ledger[r] <= t.ledger[r])
  }

  lemma NothingEvolves(s: Tables)
    ensures Evolves(s, s)
  {
  }

  lemma SlotsDoNotEvolve(s: Tables, t: Tables, u: Tables)
    requires Evolves(s, t) && u == t.(slots := u.slots, quarantine := u.quarantine)
    ensures Evolves(s, u)
  {
  }

  lemma IngestEvolves(s: Tables, step: Step)
    requires step.DoIngest? || step.DoAck?
    ensures Evolves(s, Next(s, step))
  {
    hide NextClaim, NextUnsent, NextProgress, NextLoss, NextSession, NextDelivery;
  }

  lemma RejectEvolves(s: Tables, step: Step)
    requires step.DoReject?
    ensures Evolves(s, Next(s, step))
  {
    hide NextClaim, NextUnsent, NextProgress, NextLoss, NextSession, NextDelivery;
  }

  lemma CancelEvolves(s: Tables, step: Step)
    requires step.DoCancel?
    ensures Evolves(s, Next(s, step))
  {
    hide NextClaim, NextUnsent, NextProgress, NextLoss, NextSession, NextDelivery;
    hide Unexpired;
  }

  lemma ClaimEvolves(s: Tables, step: Step)
    requires IsClaim(step)
    ensures Evolves(s, Next(s, step))
  {
    hide NextIntake, NextUnsent, NextProgress, NextLoss, NextSession, NextDelivery;
  }

  lemma ReturnEvolves(s: Tables, step: Step)
    requires step.DoReset? || step.DoResetSlot?
    ensures Evolves(s, Next(s, step))
  {
    hide NextIntake, NextClaim, NextProgress, NextLoss, NextSession, NextDelivery;
  }

  lemma UnstartedEvolves(s: Tables, step: Step)
    requires step.DoCancelUnsent? || step.DoCancelNotStarted?
    ensures Evolves(s, Next(s, step))
  {
    hide NextIntake, NextClaim, NextProgress, NextLoss, NextSession, NextDelivery;
  }

  lemma AcceptEvolves(s: Tables, step: Step)
    requires step.DoRunning?
    ensures Evolves(s, Next(s, step))
  {
    hide NextIntake, NextClaim, NextUnsent, NextLoss, NextSession, NextDelivery;
  }

  lemma BackendAcceptEvolves(s: Tables, step: Step)
    requires step.DoBackendRunning?
    ensures Evolves(s, Next(s, step))
  {
    hide NextIntake, NextClaim, NextUnsent, NextLoss, NextSession, NextDelivery;
    var t := Next(s, step);
    if t != s {
      SettleEvolves(s, step.j, t.jobs[step.j].status, Accepted);
      hide Evolves, Settle;
      assert t == Settle(s, step.j, t.jobs[step.j].status, Accepted).(slots := t.slots);
      SlotsDoNotEvolve(s, Settle(s, step.j, t.jobs[step.j].status, Accepted), t);
    } else {
      NothingEvolves(s);
    }
  }

  lemma FinishEvolves(s: Tables, step: Step)
    requires step.DoFinish?
    ensures Evolves(s, Next(s, step))
  {
    hide NextIntake, NextClaim, NextUnsent, NextLoss, NextSession, NextDelivery;
    if CanFinish(s, step.j, step.lease) {
      var t := Settle(s, step.j, Verdict(step.success), VerdictKind(step.success));
      SettleEvolves(s, step.j, Verdict(step.success), VerdictKind(step.success));
      hide Evolves, Settle;
      ResultEvolves(t, Next(s, step), step.j, step.result);
      EvolvesTransitive(s, t, Next(s, step));
    } else {
      NothingEvolves(s);
    }
  }

  lemma BackendFinishEvolves(s: Tables, step: Step)
    requires step.DoFinishBackend?
    ensures Evolves(s, Next(s, step))
  {
    hide NextIntake, NextClaim, NextUnsent, NextLoss, NextSession, NextDelivery;
    if CanFinishBackend(s, step.j, step.backend, step.lease, step.generation, step.turn) {
      var t := Settle(s, step.j, Verdict(step.success), VerdictKind(step.success));
      SettleEvolves(s, step.j, Verdict(step.success), VerdictKind(step.success));
      hide Evolves, Settle;
      ResultEvolves(t, Next(s, step), step.j, step.result);
      EvolvesTransitive(s, t, Next(s, step));
    }
  }

  lemma SettleEvolves(s: Tables, j: Id, status: Status, kind: Kind)
    requires j in s.jobs && s.jobs[j].lease.Some? && !Terminal(s.jobs[j].status)
    ensures Evolves(s, Settle(s, j, status, kind))
  {
  }

  lemma ResultEvolves(s: Tables, t: Tables, j: Id, result: Id)
    requires t == WithResult(s, j, result).(slots := t.slots, quarantine := t.quarantine)
    ensures Evolves(s, t)
  {
  }

  lemma LostEvolves(s: Tables, step: Step)
    requires step.DoCancelUnknown? || step.DoLose?
    ensures Evolves(s, Next(s, step))
  {
    hide NextIntake, NextClaim, NextUnsent, NextProgress, NextSession, NextDelivery;
    var t := Next(s, step);
    if t != s {
      var status := s.jobs[step.j].status;
      SettleEvolves(s, step.j, LostStatus(status), LostKind(status));
      assert t == Settle(s, step.j, LostStatus(status), LostKind(status)).(slots := t.slots, quarantine := t.quarantine);
      hide Evolves, Settle, NextLoss;
      SlotsDoNotEvolve(s, Settle(s, step.j, LostStatus(status), LostKind(status)), t);
    } else {
      NothingEvolves(s);
    }
  }

  lemma VictimsEvolve(s: Tables, victims: set<Id>)
    requires forall j :: j in victims ==> j in s.jobs && s.jobs[j].lease.Some? && Active(s.jobs[j].status)
    ensures Evolves(s, Interrupt(s, victims))
  {
  }

  lemma RequeueEvolves(s: Tables, t: Tables, u: Tables)
    requires Evolves(s, t) && t.outbox == s.outbox && u == t.(pendingCancels := u.pendingCancels, outbox := u.outbox)
    requires u.outbox == map j | j in s.outbox ::
               if s.outbox[j].status.Delivering? then s.outbox[j].(status := Pending) else s.outbox[j]
    ensures Evolves(s, u)
  {
  }

  lemma ConnectorLostEvolves(s: Tables, backend: Backend, connector: Id)
    ensures Evolves(s, Interrupt(s, ConnectorVictims(s, backend, connector)))
  {
    VictimsEvolve(s, ConnectorVictims(s, backend, connector));
    hide Evolves, Interrupt;
  }

  lemma RestartEvolves(s: Tables, now: Time)
    ensures Evolves(s, RecoverAfterRestart(s, now))
  {
    var t := Interrupt(s, ActiveJobs(s));
    VictimsEvolve(s, ActiveJobs(s));
    assert t.outbox == s.outbox;
    hide Evolves, Interrupt;
    RequeueEvolves(s, t, RecoverAfterRestart(s, now));
  }

  lemma InterruptEvolves(s: Tables, step: Step)
    requires step.DoConnectorLost? || step.DoBackendLost? || step.DoRestart?
    ensures Evolves(s, Next(s, step))
  {
    hide NextIntake, NextClaim, NextUnsent, NextProgress, NextSession, NextDelivery;
    hide Evolves, Interrupt, RecoverAfterRestart, ConnectorVictims;
    NothingEvolves(s);
    match step
    case DoConnectorLost(connector) => ConnectorLostEvolves(s, Hermes, connector);
    case DoBackendLost(backend, connector) => ConnectorLostEvolves(s, backend, connector);
    case DoRestart(now) => RestartEvolves(s, now);
  }

  lemma SessionEvolves(s: Tables, step: Step)
    requires IsSession(step)
    ensures Evolves(s, Next(s, step))
  {
    hide NextIntake, NextClaim, NextUnsent, NextProgress, NextLoss, NextDelivery;
  }

  lemma DeliveryEvolves(s: Tables, step: Step)
    requires step.DoDeliver? || step.DoSendFailed?
    ensures Evolves(s, Next(s, step))
  {
    hide NextIntake, NextClaim, NextUnsent, NextProgress, NextLoss, NextSession, Newest, Without;
  }

  lemma RowsEvolve(s: Tables, step: Step)
    requires step.DoUndeliver? || step.DoAckFailed?
    ensures Evolves(s, Next(s, step))
  {
    hide NextIntake, NextClaim, NextUnsent, NextProgress, NextLoss, NextSession;
  }

  lemma DeliveredEvolves(s: Tables, step: Step)
    requires step.DoDelivered?
    ensures Evolves(s, Next(s, step))
  {
    hide NextIntake, NextClaim, NextUnsent, NextProgress, NextLoss, NextSession;
  }

  lemma StepEvolves(s: Tables, step: Step)
    ensures Evolves(s, Next(s, step))
  {
    hide Evolves, Next;
    if step.DoIngest? || step.DoAck? {
      IngestEvolves(s, step);
    } else if step.DoReject? {
      RejectEvolves(s, step);
    } else if step.DoCancel? {
      CancelEvolves(s, step);
    } else if IsClaim(step) {
      ClaimEvolves(s, step);
    } else if step.DoReset? || step.DoResetSlot? {
      ReturnEvolves(s, step);
    } else if step.DoCancelUnsent? || step.DoCancelNotStarted? {
      UnstartedEvolves(s, step);
    } else if step.DoRunning? {
      AcceptEvolves(s, step);
    } else if step.DoBackendRunning? {
      BackendAcceptEvolves(s, step);
    } else if step.DoFinish? {
      FinishEvolves(s, step);
    } else if step.DoFinishBackend? {
      BackendFinishEvolves(s, step);
    } else if step.DoCancelUnknown? || step.DoLose? {
      LostEvolves(s, step);
    } else if step.DoConnectorLost? || step.DoBackendLost? || step.DoRestart? {
      InterruptEvolves(s, step);
    } else if IsSession(step) {
      SessionEvolves(s, step);
    } else if step.DoDeliver? || step.DoSendFailed? {
      DeliveryEvolves(s, step);
    } else if step.DoUndeliver? || step.DoAckFailed? {
      RowsEvolve(s, step);
    } else if step.DoDelivered? {
      DeliveredEvolves(s, step);
    }
  }

  ghost predicate Unknown(status: Status) { status.Interrupted? || status.CancelUnknown? }

  predicate Claims(step: Step, j: Id) { IsClaim(step) && step.j == j }

  predicate Releases(step: Step, session: Id) {
    step == DoRelease(session) || (step.DoReleaseSlot? && step.key.session == session)
  }

  /** Who may raise a generation, leave an outcome unknown, or lift a quarantine. */
  ghost predicate Accountable(s: Tables, t: Tables, step: Step) {
    && (forall j :: j in s.jobs ==>
          && j in t.jobs
          && (t.jobs[j].generation != s.jobs[j].generation ==> Claims(step, j) && CanClaim(s, j, s.jobs[j].target))
          && (Unknown(t.jobs[j].status) && !Unknown(s.jobs[j].status) ==> s.jobs[j].session in t.quarantine))
    && (forall session :: session in s.quarantine && session !in t.quarantine ==> Releases(step, session))
  }

  lemma IngestAccounts(s: Tables, step: Step)
    requires step.DoIngest?
    ensures Accountable(s, Next(s, step), step)
  {
    hide Unexpired, NextClaim, NextUnsent, NextProgress, NextLoss, NextSession, NextDelivery;
  }

  lemma IntakeAccounts(s: Tables, step: Step)
    requires step.DoAck? || step.DoReject? || step.DoCancel?
    ensures Accountable(s, Next(s, step), step)
  {
    hide Unexpired, NextClaim, NextUnsent, NextProgress, NextLoss, NextSession, NextDelivery;
  }

  lemma ClaimAccounts(s: Tables, step: Step)
    requires IsClaim(step)
    ensures Accountable(s, Next(s, step), step)
  {
    hide NextIntake, NextUnsent, NextProgress, NextLoss, NextSession, NextDelivery;
  }

  lemma UnsentAccounts(s: Tables, step: Step)
    requires step.DoReset? || step.DoResetSlot?
    ensures Accountable(s, Next(s, step), step)
  {
    hide NextIntake, NextClaim, NextProgress, NextLoss, NextSession, NextDelivery;
  }

  lemma CancelledAccounts(s: Tables, step: Step)
    requires step.DoCancelUnsent? || step.DoCancelNotStarted?
    ensures Accountable(s, Next(s, step), step)
  {
    hide NextIntake, NextClaim, NextProgress, NextLoss, NextSession, NextDelivery;
  }

  lemma AcceptAccounts(s: Tables, step: Step)
    requires step.DoRunning?
    ensures Accountable(s, Next(s, step), step)
  {
    hide NextIntake, NextClaim, NextUnsent, NextLoss, NextSession, NextDelivery;
  }

  lemma BackendAcceptAccounts(s: Tables, step: Step)
    requires step.DoBackendRunning?
    ensures Accountable(s, Next(s, step), step)
  {
    hide NextIntake, NextClaim, NextUnsent, NextLoss, NextSession, NextDelivery;
    var t := Next(s, step);
    if t != s {
      assert t.jobs == s.jobs[step.j := s.jobs[step.j].(status := t.jobs[step.j].status)] && s.quarantine <= t.quarantine;
      assert !Unknown(t.jobs[step.j].status);
      hide NextProgress;
    }
  }

  lemma FinishAccounts(s: Tables, step: Step)
    requires step.DoFinish?
    ensures Accountable(s, Next(s, step), step)
  {
    hide NextIntake, NextClaim, NextUnsent, NextLoss, NextSession, NextDelivery;
  }

  lemma BackendFinishAccounts(s: Tables, step: Step)
    requires step.DoFinishBackend?
    ensures Accountable(s, Next(s, step), step)
  {
    hide NextIntake, NextClaim, NextUnsent, NextLoss, NextSession, NextDelivery;
    var t := Next(s, step);
    if CanFinishBackend(s, step.j, step.backend, step.lease, step.generation, step.turn) {
      assert t.jobs == s.jobs[step.j := s.jobs[step.j].(status := Verdict(step.success))] && s.quarantine <= t.quarantine;
      hide NextProgress;
    }
  }

  lemma LostAccounts(s: Tables, step: Step)
    requires step.DoCancelUnknown? || step.DoLose?
    ensures Accountable(s, Next(s, step), step)
  {
    hide NextIntake, NextClaim, NextUnsent, NextProgress, NextSession, NextDelivery;
  }

  lemma InterruptAccounts(s: Tables, step: Step)
    requires step.DoConnectorLost? || step.DoBackendLost? || step.DoRestart?
    ensures Accountable(s, Next(s, step), step)
  {
    hide NextIntake, NextClaim, NextUnsent, NextProgress, NextSession, NextDelivery;
  }

  lemma SessionAccounts(s: Tables, step: Step)
    requires IsSession(step)
    ensures Accountable(s, Next(s, step), step)
  {
    hide NextIntake, NextClaim, NextUnsent, NextProgress, NextLoss, NextDelivery;
  }

  lemma DeliveryAccounts(s: Tables, step: Step)
    requires IsDelivery(step)
    ensures Accountable(s, Next(s, step), step)
  {
    hide NextClaim, NextUnsent, NextProgress, NextLoss, NextSession;
  }

  lemma StepAccounts(s: Tables, step: Step)
    ensures Accountable(s, Next(s, step), step)
  {
    hide Accountable, Next;
    if step.DoIngest? {
      IngestAccounts(s, step);
    } else if step.DoAck? || step.DoReject? || step.DoCancel? {
      IntakeAccounts(s, step);
    } else if IsClaim(step) {
      ClaimAccounts(s, step);
    } else if step.DoReset? || step.DoResetSlot? {
      UnsentAccounts(s, step);
    } else if step.DoCancelUnsent? || step.DoCancelNotStarted? {
      CancelledAccounts(s, step);
    } else if step.DoRunning? {
      AcceptAccounts(s, step);
    } else if step.DoBackendRunning? {
      BackendAcceptAccounts(s, step);
    } else if step.DoFinish? {
      FinishAccounts(s, step);
    } else if step.DoFinishBackend? {
      BackendFinishAccounts(s, step);
    } else if step.DoCancelUnknown? || step.DoLose? {
      LostAccounts(s, step);
    } else if step.DoConnectorLost? || step.DoBackendLost? || step.DoRestart? {
      InterruptAccounts(s, step);
    } else if IsSession(step) {
      SessionAccounts(s, step);
    } else if IsDelivery(step) {
      DeliveryAccounts(s, step);
    }
  }

  lemma {:induction false} RunsEvolve(s: Tables, steps: seq<Step>)
    requires IsRun(s, steps)
    ensures Evolves(s, After(s, steps))
    decreases |steps|
  {
    if steps != [] {
      hide JobEvolves, RowEvolves;
      var t := Next(s, steps[0]);
      StepEvolves(s, steps[0]);
      RunsEvolve(t, steps[1..]);
      EvolvesTransitive(s, t, After(s, steps));
    }
  }

  lemma EvolvesTransitive(s: Tables, t: Tables, u: Tables)
    requires Evolves(s, t) && Evolves(t, u)
    ensures Evolves(s, u)
  {
    forall r | r in s.ledger ensures r in u.ledger && s.ledger[r] <= u.ledger[r] {
      assert s.ledger[r] <= t.ledger[r] <= u.ledger[r];
    }
  }
}
