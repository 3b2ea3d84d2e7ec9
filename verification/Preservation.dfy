/** Every transaction of the job store keeps `Valid`. */
module Preservation {
  import opened Tables
  import opened Invariant

  lemma EmptyValid()
    ensures Valid(EMPTY)
  {
  }

  lemma JobAt(s: Tables, j: Id)
    requires AttemptsOk(s) && j in s.jobs
    ensures JobOk(s, j)
  {
  }

  lemma SlotAt(s: Tables, k: SlotKey)
    requires AttemptsOk(s) && k in s.slots
    ensures SlotOk(s, k)
  {
  }

  lemma RunAt(s: Tables, j: Id)
    requires AttemptsOk(s) && j in s.jobs
    ensures s.jobs[j].generation > 0 ==> CurrentRun(s, j) in s.ledger && RunOk(s, CurrentRun(s, j))
    ensures forall g :: g > s.jobs[j].generation ==> Run(j, g) !in s.ledger
    ensures Run(j, 0) !in s.ledger
  {
    hide JobsOk, SlotsOk, LeasesUnique, OneActivePerSession, OneHeldPerSession, NoneActiveUnderRecovery;
    assert Run(j, 0) in s.ledger ==> RunOk(s, Run(j, 0));
    forall g | g > s.jobs[j].generation ensures Run(j, g) !in s.ledger {
      assert Run(j, g) in s.ledger ==> RunOk(s, Run(j, g));
    }
  }

  lemma RowAt(s: Tables, j: Id)
    requires DeliveriesOk(s) && j in s.outbox
    ensures OutboxOk(s, j) && j in s.jobs
  {
  }

  // ---------------------------------------------------------------------------------------------
  // Delivery rows and waiting cancels that a job transaction leaves alone
  // ---------------------------------------------------------------------------------------------

  lemma SameDeliveries(s: Tables, t: Tables)
    requires Valid(s) && t.outbox == s.outbox && t.deliveries == s.deliveries && s.jobs.Keys <= t.jobs.Keys
    ensures DeliveriesOk(t)
  {
    forall j | j in t.outbox ensures j in t.jobs && OutboxOk(t, j) {
      assert OutboxOk(s, j);
    }
  }

  lemma OneResult(s: Tables, t: Tables, j: Id, result: Id)
    requires Valid(s) && j in s.jobs && j !in s.outbox && t.deliveries == s.deliveries && s.jobs.Keys <= t.jobs.Keys
    requires t.outbox == s.outbox[j := Outbox(Pending, result, 0, None, None, None, None)]
    ensures DeliveriesOk(t)
  {
    forall i | i in t.outbox ensures i in t.jobs && OutboxOk(t, i) {
      if i != j {
        assert OutboxOk(s, i);
      } else {
        assert Newest(s.deliveries, j).None?;
      }
    }
  }

  lemma SmallerPending(pending: map<Id, Time>, smaller: map<Id, Time>)
    requires smaller.Keys <= pending.Keys
    ensures |smaller| <= |pending|
  {
    SubsetCardinality(smaller.Keys, pending.Keys);
  }

  lemma {:induction false} SubsetCardinality<T>(a: set<T>, b: set<T>)
    requires a <= b
    ensures |a| <= |b|
  {
    if a != {} {
      var x :| x in a;
      SubsetCardinality(a - {x}, b - {x});
    }
  }

  // ---------------------------------------------------------------------------------------------
  // Intake
  // ---------------------------------------------------------------------------------------------

  lemma IngestKeeps(s: Tables, j: Id, payload: Id, session: Id, target: Backend, now: Time)
    requires Valid(s)
    ensures Valid(Ingest(s, j, payload, session, target, now))
  {
    hide AttemptsOk, DeliveriesOk, NewJob, PendingOk, Ingest;
    var t := Ingest(s, j, payload, session, target, now);
    IngestFields(s, j, payload, session, target, now);
    SameDeliveries(s, t);
    IngestPending(s, j, payload, session, target, now);
    if j in s.jobs {
      SameAttempts(s, t);
    } else {
      IngestNew(s, j, payload, session, target, now);
      NewJobKeeps(s, t, j);
    }
  }

  /** Nothing but jobs and waiting cancels changes, and a job that is known not at all. */
  lemma IngestFields(s: Tables, j: Id, payload: Id, session: Id, target: Backend, now: Time)
    requires PendingOk(s)
    ensures var t := Ingest(s, j, payload, session, target, now);
            && t == s.(jobs := t.jobs, pendingCancels := t.pendingCancels) && s.jobs.Keys <= t.jobs.Keys
            && (j in s.jobs ==> t.jobs == s.jobs)
  {
    FewerUnexpired(s.pendingCancels, now);
    hide Unexpired;
  }

  lemma IngestNew(s: Tables, j: Id, payload: Id, session: Id, target: Backend, now: Time)
    requires j !in s.jobs
    ensures NewJob(s, Ingest(s, j, payload, session, target, now), j)
  {
  }

  lemma IngestPending(s: Tables, j: Id, payload: Id, session: Id, target: Backend, now: Time)
    requires PendingOk(s)
    ensures PendingOk(Ingest(s, j, payload, session, target, now))
  {
    SmallerPending(s.pendingCancels, Unexpired(s.pendingCancels, now) - {j});
  }

  lemma SameAttempts(s: Tables, t: Tables)
    requires AttemptsOk(s)
    requires t.jobs == s.jobs && t.slots == s.slots && t.ledger == s.ledger && t.outbox.Keys == s.outbox.Keys
    requires s.quarantine <= t.quarantine
    ensures AttemptsOk(t)
  {
    SameJobs(s, t);
    SameSlots(s, t);
    SameLedger(s, t);
    hide JobsOk, SlotsOk, LedgerOk;
  }

  lemma SameJobs(s: Tables, t: Tables)
    requires AttemptsOk(s)
    requires t.jobs == s.jobs && t.slots == s.slots && t.ledger == s.ledger && t.outbox.Keys == s.outbox.Keys
    ensures JobsOk(t)
  {
    hide AttemptsOk;
    forall j | j in t.jobs ensures JobOk(t, j) { JobAt(s, j); }
  }

  lemma SameSlots(s: Tables, t: Tables)
    requires AttemptsOk(s)
    requires t.jobs == s.jobs && t.slots == s.slots && t.ledger == s.ledger && s.quarantine <= t.quarantine
    ensures SlotsOk(t)
  {
    hide AttemptsOk;
    forall k | k in t.slots ensures SlotOk(t, k) { SlotAt(s, k); }
  }

  /** Runs depend on the ledger and on the generation of each job only. */
  lemma SameLedger(s: Tables, t: Tables)
    requires AttemptsOk(s) && t.ledger == s.ledger && s.jobs.Keys <= t.jobs.Keys
    requires forall j :: j in s.jobs ==> t.jobs[j].generation == s.jobs[j].generation
    requires forall j :: j in t.jobs && j !in s.jobs ==> t.jobs[j].generation == 0
    ensures LedgerOk(t) && LeasesUnique(t)
  {
    hide JobsOk, SlotsOk, OneActivePerSession, OneHeldPerSession, NoneActiveUnderRecovery;
    forall r | r in t.ledger ensures RunOk(t, r) { assert RunOk(s, r); }
  }

  /** A job that arrives has no run, no result and no slot. */
  ghost predicate NewJob(s: Tables, t: Tables, j: Id) {
    && j !in s.jobs
    && t.slots == s.slots && t.ledger == s.ledger && t.outbox == s.outbox && t.quarantine == s.quarantine
    && t.jobs.Keys == s.jobs.Keys + {j} && (forall i :: i in s.jobs ==> t.jobs[i] == s.jobs[i])
    && t.jobs[j].generation == 0 && t.jobs[j].lease.None? && t.jobs[j].connector.None?
    && t.jobs[j].status == if t.jobs[j].cancelRequested then Cancelled else Received
  }

  lemma NewJobKeeps(s: Tables, t: Tables, j: Id)
    requires Valid(s) && NewJob(s, t, j)
    ensures AttemptsOk(t)
  {
    hide AttemptsOk, DeliveriesOk;
    NewJobJobs(s, t, j);
    NewJobSlots(s, t, j);
    SameLedger(s, t);
    NewJobExclusion(s, t, j);
    AttemptsTogether(t);
  }

  lemma NewJobJobs(s: Tables, t: Tables, j: Id)
    requires Valid(s) && NewJob(s, t, j)
    ensures JobsOk(t)
  {
    hide AttemptsOk, DeliveriesOk, JobOk;
    forall i | i in t.jobs ensures JobOk(t, i) { NewJobJob(s, t, j, i); }
  }

  lemma NewJobJob(s: Tables, t: Tables, j: Id, i: Id)
    requires Valid(s) && NewJob(s, t, j) && i in t.jobs
    ensures JobOk(t, i)
  {
    hide AttemptsOk, OutboxOk;
    if i != j { JobAt(s, i); }
  }

  lemma NewJobSlots(s: Tables, t: Tables, j: Id)
    requires Valid(s) && NewJob(s, t, j)
    ensures SlotsOk(t)
  {
    hide AttemptsOk, DeliveriesOk;
    forall k | k in t.slots ensures SlotOk(t, k) { SlotAt(s, k); }
  }

  lemma NewJobExclusion(s: Tables, t: Tables, j: Id)
    requires Valid(s) && NewJob(s, t, j)
    ensures OneActivePerSession(t) && OneHeldPerSession(t) && NoneActiveUnderRecovery(t)
  {
    hide JobsOk, SlotsOk, LedgerOk, LeasesUnique, DeliveriesOk;
  }

  lemma MarkAckedKeeps(s: Tables, j: Id)
    requires Valid(s)
    ensures Valid(MarkAcked(s, j))
  {
    hide AttemptsOk, DeliveriesOk;
    var t := MarkAcked(s, j);
    SameDeliveries(s, t);
    if t != s {
      JobAt(s, j);
      UndispatchedKeeps(s, t, j);
    }
  }

  /** An undispatched job leaves that state without touching the ledger or a slot. */
  lemma UndispatchedKeeps(s: Tables, t: Tables, j: Id)
    requires Valid(s) && j in s.jobs && Undispatched(s.jobs[j].status)
    requires t.slots == s.slots && t.ledger == s.ledger && t.quarantine == s.quarantine
    requires j in t.jobs && t.jobs == s.jobs[j := s.jobs[j].(status := t.jobs[j].status, cancelRequested := t.jobs[j].cancelRequested)]
    requires t.jobs[j].status.Acked? || t.jobs[j].status.Rejected? || t.jobs[j].status.Cancelled?
    requires t.jobs[j].cancelRequested <==> t.jobs[j].status.Cancelled?
    requires forall i :: i != j ==> (i in t.outbox <==> i in s.outbox)
    requires forall i :: i != j && i in s.outbox ==> t.outbox[i] == s.outbox[i]
    requires j in t.outbox <==> t.jobs[j].status.Rejected?
    ensures AttemptsOk(t)
  {
    hide AttemptsOk, DeliveriesOk;
    JobAt(s, j);
    assert JobOk(t, j);
    RunUntouched(s, t, j);
    if SlotOf(s.jobs[j]) in t.slots { SlotAt(s, SlotOf(s.jobs[j])); }
    OneJobKeepsAttempts(s, t, j);
  }

  lemma RunUntouched(s: Tables, t: Tables, j: Id)
    requires AttemptsOk(s) && j in s.jobs && j in t.jobs && t.ledger == s.ledger
    requires t.jobs[j].generation == s.jobs[j].generation
    ensures RunExtended(s, t, j)
  {
    hide AttemptsOk, DeliveriesOk;
    RunAt(s, j);
  }

  lemma RejectKeeps(s: Tables, j: Id, result: Id)
    requires Valid(s)
    ensures Valid(Reject(s, j, result))
  {
    hide AttemptsOk, DeliveriesOk;
    var t := Reject(s, j, result);
    if t != s {
      JobAt(s, j);
      OneResult(s, t, j, result);
      UndispatchedKeeps(s, t, j);
    }
  }

  lemma RequestCancelKeeps(s: Tables, j: Id, now: Time)
    requires Valid(s)
    ensures Valid(RequestCancel(s, j, now).0)
  {
    hide AttemptsOk, DeliveriesOk, PendingOk, Unexpired;
    var t := RequestCancel(s, j, now).0;
    SameDeliveries(s, t);
    CancelPending(s, j, now);
    if j in s.jobs {
      CancelAttempts(s, t, j);
    } else {
      SameAttempts(s, t);
    }
  }

  lemma CancelPending(s: Tables, j: Id, now: Time)
    requires PendingOk(s)
    ensures PendingOk(RequestCancel(s, j, now).0)
  {
    var pending := Unexpired(s.pendingCancels, now);
    FewerUnexpired(s.pendingCancels, now);
    SmallerPending(s.pendingCancels, pending);
    SmallerPending(pending, pending - {j});
    OneMorePending(pending, j, now);
    hide Unexpired;
  }

  lemma OneMorePending(pending: map<Id, Time>, j: Id, now: Time)
    ensures |pending[j := now]| == |pending| + if j in pending then 0 else 1
  {
    assert pending[j := now].Keys == pending.Keys + {j};
    if j in pending { assert pending.Keys + {j} == pending.Keys; }
  }

  lemma FewerUnexpired(pending: map<Id, Time>, now: Time)
    ensures Unexpired(pending, now).Keys <= pending.Keys
  {
  }

  lemma CancelAttempts(s: Tables, t: Tables, j: Id)
    requires Valid(s) && j in s.jobs
    requires t == s.(jobs := s.jobs[j := CancelledJob(s.jobs[j])], pendingCancels := t.pendingCancels)
    ensures AttemptsOk(t)
  {
    hide AttemptsOk, DeliveriesOk;
    JobAt(s, j);
    assert JobOk(t, j);
    RunUntouched(s, t, j);
    if SlotOf(s.jobs[j]) in t.slots { SlotAt(s, SlotOf(s.jobs[j])); }
    OneJobKeepsAttempts(s, t, j);
  }

  // ---------------------------------------------------------------------------------------------
  // Claims
  // ---------------------------------------------------------------------------------------------

  lemma ClaimForDispatchKeeps(s: Tables, j: Id, connector: Id, lease: Id)
    requires Valid(s) && FreshLease(s, lease)
    ensures Valid(ClaimForDispatch(s, j, connector, lease))
  {
    hide AttemptsOk, DeliveriesOk;
    var t := ClaimForDispatch(s, j, connector, lease);
    SameDeliveries(s, t);
    if CanClaim(s, j, Hermes) {
      JobAt(s, j);
      RunAt(s, j);
      if SlotOf(s.jobs[j]) in t.slots { SlotAt(s, SlotOf(s.jobs[j])); }
      OneJobKeepsAttempts(s, t, j);
    }
  }

  lemma ClaimForBackendDispatchKeeps(s: Tables, j: Id, backend: Backend, connector: Id, lease: Id)
    requires Valid(s) && FreshLease(s, lease)
    ensures Valid(ClaimForBackendDispatch(s, j, backend, connector, lease))
  {
    hide AttemptsOk, DeliveriesOk;
    var t := ClaimForBackendDispatch(s, j, backend, connector, lease);
    SameDeliveries(s, t);
    if CanClaimSlot(s, j, backend) {
      JobAt(s, j);
      RunAt(s, j);
      SlotAt(s, SlotOf(s.jobs[j]));
      OneJobKeepsAttempts(s, t, j);
    }
  }

  // ---------------------------------------------------------------------------------------------
  // The end of an attempt, and its acceptance
  // ---------------------------------------------------------------------------------------------

  /** The events an active job has so far, and the slot it owns. */
  lemma ActiveJob(s: Tables, j: Id)
    requires Valid(s) && j in s.jobs && Active(s.jobs[j].status)
    ensures JobOk(s, j) && s.jobs[j].lease.Some? && s.jobs[j].generation > 0
    ensures CurrentRun(s, j) in s.ledger && RunOk(s, CurrentRun(s, j)) && j !in s.outbox
    ensures var events := Events(s, CurrentRun(s, j));
            events[0].lease == s.jobs[j].lease.value && (Opened(events, false) || Opened(events, true))
    ensures !s.jobs[j].target.Hermes? ==> Owns(s, j) && SlotOk(s, SlotOf(s.jobs[j]))
    ensures s.jobs[j].target.Hermes? ==> SlotOf(s.jobs[j]) !in s.slots
  {
    hide AttemptsOk, DeliveriesOk;
    JobAt(s, j);
    RunAt(s, j);
    if SlotOf(s.jobs[j]) in s.slots { SlotAt(s, SlotOf(s.jobs[j])); }
  }

  /** The slot of an attempt that ends is released, or kept as evidence under quarantine. */
  ghost predicate SlotLeft(s: Tables, t: Tables, j: Id)
    requires j in s.jobs && j in t.jobs
  {
    var key := SlotOf(s.jobs[j]);
    && t.slots.Keys == s.slots.Keys
    && (forall k :: k in s.slots && k != key ==> t.slots[k] == s.slots[k])
    && (key in s.slots ==>
          && t.slots[key].thread == s.slots[key].thread
          && if t.slots[key].recovery then
               && key.session in t.quarantine
               && (t.jobs[j].status.Interrupted? || t.jobs[j].status.CancelUnknown?)
               && s.slots[key].active.Some? && t.slots[key].active.Some?
               && t.slots[key].active.value.(turn := None) == s.slots[key].active.value.(turn := None)
             else t.slots[key].active.None?)
  }

  lemma EndKeeps(s: Tables, t: Tables, j: Id, kind: Kind)
    requires Valid(s) && j in s.jobs && Active(s.jobs[j].status) && s.jobs[j].lease.Some?
    requires t.ledger == Append(s, j, kind).ledger
    requires j in t.jobs && t.jobs == s.jobs[j := t.jobs[j]] && !Active(t.jobs[j].status)
    requires t.jobs[j].target == s.jobs[j].target && t.jobs[j].session == s.jobs[j].session
    requires t.jobs[j].generation == s.jobs[j].generation
    requires s.quarantine <= t.quarantine
    requires forall i :: i != j ==> (i in t.outbox <==> i in s.outbox)
    requires forall i :: i != j && i in s.outbox ==> t.outbox[i] == s.outbox[i]
    requires JobOk(t, j) && SlotLeft(s, t, j)
    ensures AttemptsOk(t)
  {
    hide AttemptsOk, DeliveriesOk;
    ActiveJob(s, j);
    if SlotOf(s.jobs[j]) in t.slots {
      assert SlotOk(t, SlotOf(s.jobs[j]));
    }
    OneJobKeepsAttempts(s, t, j);
  }

  lemma ResetUnsentDispatchKeeps(s: Tables, j: Id, lease: Id)
    requires Valid(s)
    ensures Valid(ResetUnsentDispatch(s, j, lease))
  {
    hide AttemptsOk, DeliveriesOk, OutboxOk, RunOk;
    var t := ResetUnsentDispatch(s, j, lease);
    SameDeliveries(s, t);
    if t != s {
      ActiveJob(s, j);
      EndKeeps(s, t, j, NotSent);
    }
  }

  lemma ResetUnsentBackendDispatchKeeps(s: Tables, j: Id, backend: Backend, lease: Id, generation: nat)
    requires Valid(s)
    ensures Valid(ResetUnsentBackendDispatch(s, j, backend, lease, generation))
  {
    hide AttemptsOk, DeliveriesOk, OutboxOk, RunOk;
    var t := ResetUnsentBackendDispatch(s, j, backend, lease, generation);
    SameDeliveries(s, t);
    if CanResetSlot(s, j, backend, lease, generation) {
      ActiveJob(s, j);
      EndKeeps(s, t, j, NotSent);
    }
  }

  lemma FinishUnsentBackendCancellationKeeps(s: Tables, j: Id, backend: Backend, lease: Id, generation: nat)
    requires Valid(s)
    ensures Valid(FinishUnsentBackendCancellation(s, j, backend, lease, generation))
  {
    hide AttemptsOk, DeliveriesOk;
    var t := FinishUnsentBackendCancellation(s, j, backend, lease, generation);
    SameDeliveries(s, t);
    if CanCancelUnsent(s, j, backend, lease, generation) {
      ActiveJob(s, j);
      EndKeeps(s, t, j, CancelledNotSent);
    }
  }

  lemma FinishHermesCancellationNotStartedKeeps(s: Tables, j: Id, lease: Id)
    requires Valid(s)
    ensures Valid(FinishHermesCancellationNotStarted(s, j, lease))
  {
    hide AttemptsOk, DeliveriesOk;
    var t := FinishHermesCancellationNotStarted(s, j, lease);
    SameDeliveries(s, t);
    if CanCancelHermes(s, j, lease) {
      ActiveJob(s, j);
      EndKeeps(s, t, j, CancelledNotSent);
    }
  }

  lemma MarkCancelUnknownKeeps(s: Tables, j: Id, lease: Id)
    requires Valid(s)
    ensures Valid(MarkCancelUnknown(s, j, lease))
  {
    hide AttemptsOk, DeliveriesOk;
    var t := MarkCancelUnknown(s, j, lease);
    SameDeliveries(s, t);
    if CanMarkCancelUnknown(s, j, lease) {
      ActiveJob(s, j);
      EndKeeps(s, t, j, EndedCancelUnknown);
    }
  }

  lemma FinishWithOutboxKeeps(s: Tables, j: Id, lease: Id, success: bool, result: Id)
    requires Valid(s)
    ensures Valid(FinishWithOutbox(s, j, lease, success, result))
  {
    hide AttemptsOk, DeliveriesOk;
    var t := FinishWithOutbox(s, j, lease, success, result);
    if CanFinish(s, j, lease) {
      ActiveJob(s, j);
      OneResult(s, t, j, result);
      EndKeeps(s, t, j, VerdictKind(success));
    }
  }

  lemma FinishBackendWithOutboxKeeps(s: Tables, j: Id, backend: Backend, lease: Id, generation: nat, turn: Id,
                                     success: bool, result: Id, quarantineSession: bool)
    requires Valid(s)
    ensures Valid(FinishBackendWithOutbox(s, j, backend, lease, generation, turn, success, result, quarantineSession))
  {
    hide AttemptsOk, DeliveriesOk;
    var t := FinishBackendWithOutbox(s, j, backend, lease, generation, turn, success, result, quarantineSession);
    if CanFinishBackend(s, j, backend, lease, generation, turn) {
      ActiveJob(s, j);
      OneResult(s, t, j, result);
      BackendVerdict(s, j, backend, lease, generation, turn, success, result, quarantineSession);
      hide JobOk, SlotLeft, SlotOk, RunOk, OutboxOk, PendingOk;
      EndKeeps(s, t, j, VerdictKind(success));
    }
  }

  lemma BackendVerdict(s: Tables, j: Id, backend: Backend, lease: Id, generation: nat, turn: Id, success: bool,
                       result: Id, quarantineSession: bool)
    requires Valid(s) && CanFinishBackend(s, j, backend, lease, generation, turn)
    ensures var t := FinishBackendWithOutbox(s, j, backend, lease, generation, turn, success, result, quarantineSession);
            JobOk(t, j) && SlotLeft(s, t, j)
  {
    hide AttemptsOk, DeliveriesOk, PendingOk;
    ActiveJob(s, j);
  }

  lemma MarkBackendRecoveryTerminalKeeps(s: Tables, j: Id, backend: Backend, lease: Id, generation: nat,
                                         turn: Option<Id>, cancelled: bool)
    requires Valid(s)
    ensures Valid(MarkBackendRecoveryTerminal(s, j, backend, lease, generation, turn, cancelled))
  {
    hide AttemptsOk, DeliveriesOk;
    var t := MarkBackendRecoveryTerminal(s, j, backend, lease, generation, turn, cancelled);
    SameDeliveries(s, t);
    if CanMarkLost(s, j, backend, lease, generation, turn, cancelled) {
      ActiveJob(s, j);
      EndKeeps(s, t, j, LostKind(s.jobs[j].status));
    }
  }

  lemma MarkRunningKeeps(s: Tables, j: Id, connector: Id, lease: Id)
    requires Valid(s)
    ensures Valid(MarkRunning(s, j, connector, lease))
  {
    hide AttemptsOk, DeliveriesOk;
    var t := MarkRunning(s, j, connector, lease);
    SameDeliveries(s, t);
    if t != s {
      ActiveJob(s, j);
      OneJobKeepsAttempts(s, t, j);
    }
  }

  lemma BindTurnKeeps(s: Tables, j: Id, status: Status, turn: Id)
    requires Valid(s) && j in s.jobs && s.jobs[j].lease.Some? && Owns(s, j)
    requires Active(s.jobs[j].status) && !s.jobs[j].target.Hermes? && TurnOf(s, j).None?
    requires status == if s.jobs[j].status.Cancelling? then Cancelling else Running
    ensures AttemptsOk(BindTurn(s, j, status, turn))
  {
    hide AttemptsOk, DeliveriesOk;
    var t := BindTurn(s, j, status, turn);
    ActiveJob(s, j);
    assert JobOk(t, j);
    assert SlotOk(t, SlotOf(s.jobs[j]));
    OneJobKeepsAttempts(s, t, j);
  }

  lemma MarkBackendRunningKeeps(s: Tables, j: Id, backend: Backend, lease: Id, generation: nat, turn: Id)
    requires Valid(s)
    ensures Valid(MarkBackendRunning(s, j, backend, lease, generation, turn).0)
  {
    hide AttemptsOk, DeliveriesOk;
    var t := MarkBackendRunning(s, j, backend, lease, generation, turn).0;
    SameDeliveries(s, t);
    if t != s {
      ActiveJob(s, j);
      BindTurnKeeps(s, j, t.jobs[j].status, turn);
    }
  }

  // ---------------------------------------------------------------------------------------------
  // Losing many attempts at once
  // ---------------------------------------------------------------------------------------------

  /** Victims are active jobs. */
  ghost predicate Victims(s: Tables, victims: set<Id>) {
    forall j :: j in victims ==> j in s.jobs && Active(s.jobs[j].status) && s.jobs[j].lease.Some?
  }

  lemma InterruptKeeps(s: Tables, victims: set<Id>)
    requires Valid(s) && Victims(s, victims)
    ensures Valid(Interrupt(s, victims))
  {
    hide AttemptsOk, DeliveriesOk;
    var t := Interrupt(s, victims);
    SameDeliveries(s, t);
    InterruptKeepsRows(s, victims);
    InterruptKeepsLedger(s, victims);
    InterruptKeepsExclusion(s, victims);
    AttemptsTogether(t);
  }

  lemma AttemptsTogether(t: Tables)
    requires JobsOk(t) && SlotsOk(t) && LedgerOk(t) && LeasesUnique(t)
    requires OneActivePerSession(t) && OneHeldPerSession(t) && NoneActiveUnderRecovery(t)
    ensures AttemptsOk(t)
  {
  }

  lemma InterruptKeepsRows(s: Tables, victims: set<Id>)
    requires Valid(s) && Victims(s, victims)
    ensures JobsOk(Interrupt(s, victims)) && SlotsOk(Interrupt(s, victims))
  {
    hide AttemptsOk, DeliveriesOk, JobOk, SlotOk;
    var t := Interrupt(s, victims);
    forall j | j in t.jobs ensures JobOk(t, j) { InterruptedJob(s, victims, j); }
    forall k | k in t.slots ensures SlotOk(t, k) { InterruptedSlot(s, victims, k); }
  }

  lemma InterruptKeepsLedger(s: Tables, victims: set<Id>)
    requires Valid(s) && Victims(s, victims)
    ensures LedgerOk(Interrupt(s, victims)) && LeasesUnique(Interrupt(s, victims))
  {
    hide JobsOk, SlotsOk, OneActivePerSession, OneHeldPerSession, NoneActiveUnderRecovery, DeliveriesOk;
    var t := Interrupt(s, victims);
    forall r | r in t.ledger ensures RunOk(t, r) { InterruptedRun(s, victims, r); }
    forall r, q | r in t.ledger && q in t.ledger && t.ledger[r][0].lease == t.ledger[q][0].lease ensures r == q {
      assert RunOk(s, r) && RunOk(s, q);
    }
  }

  lemma InterruptKeepsExclusion(s: Tables, victims: set<Id>)
    requires Valid(s) && Victims(s, victims)
    ensures OneActivePerSession(Interrupt(s, victims)) && OneHeldPerSession(Interrupt(s, victims))
    ensures NoneActiveUnderRecovery(Interrupt(s, victims))
  {
    hide JobsOk, LedgerOk, LeasesUnique, DeliveriesOk;
    var t := Interrupt(s, victims);
    forall k, j | k in t.slots && j in t.jobs && t.slots[k].recovery && t.jobs[j].session == k.session
      ensures !Active(t.jobs[j].status)
    {
      assert SlotOk(s, k);
    }
  }

  lemma InterruptedJob(s: Tables, victims: set<Id>, j: Id)
    requires Valid(s) && Victims(s, victims) && j in s.jobs
    ensures JobOk(Interrupt(s, victims), j)
  {
    hide AttemptsOk, DeliveriesOk;
    var t := Interrupt(s, victims);
    JobAt(s, j);
    if j in victims {
      ActiveJob(s, j);
    } else {
      assert Events(t, CurrentRun(s, j)) == Events(s, CurrentRun(s, j));
    }
  }

  lemma InterruptedSlot(s: Tables, victims: set<Id>, k: SlotKey)
    requires Valid(s) && Victims(s, victims) && k in s.slots
    ensures SlotOk(Interrupt(s, victims), k)
  {
    hide AttemptsOk, DeliveriesOk;
    var t := Interrupt(s, victims);
    SlotAt(s, k);
    if s.slots[k].active.Some? {
      var attempt := s.slots[k].active.value;
      RunAt(s, attempt.job);
      if attempt.job in victims {
        ActiveJob(s, attempt.job);
      } else {
        assert Events(t, Run(attempt.job, attempt.generation)) == Events(s, Run(attempt.job, attempt.generation));
      }
    }
  }

  lemma InterruptedRun(s: Tables, victims: set<Id>, r: Run)
    requires Valid(s) && Victims(s, victims) && r in s.ledger
    ensures RunOk(Interrupt(s, victims), r)
  {
    hide JobsOk, SlotsOk, LeasesUnique, OneActivePerSession, OneHeldPerSession, NoneActiveUnderRecovery, DeliveriesOk;
    assert RunOk(s, r);
    if r.job in victims { ActiveJob(s, r.job); }
  }

  lemma MarkConnectorDisconnectedKeeps(s: Tables, connector: Id)
    requires Valid(s)
    ensures Valid(MarkConnectorDisconnected(s, connector))
  {
    hide AttemptsOk, DeliveriesOk;
    InterruptKeeps(s, ConnectorVictims(s, Hermes, connector));
  }

  lemma MarkBackendDisconnectedKeeps(s: Tables, backend: Backend, connector: Id)
    requires Valid(s)
    ensures Valid(MarkBackendDisconnected(s, backend, connector))
  {
    hide AttemptsOk, DeliveriesOk;
    InterruptKeeps(s, ConnectorVictims(s, backend, connector));
  }

  lemma RestartDeliveries(s: Tables, now: Time)
    requires Valid(s)
    ensures DeliveriesOk(RecoverAfterRestart(s, now))
    ensures RecoverAfterRestart(s, now).outbox.Keys == Interrupt(s, ActiveJobs(s)).outbox.Keys
    ensures RecoverAfterRestart(s, now).jobs.Keys == s.jobs.Keys
  {
    hide AttemptsOk;
    var t := RecoverAfterRestart(s, now);
    forall j | j in t.outbox ensures j in t.jobs && OutboxOk(t, j) { RowAt(s, j); }
  }

  lemma RecoverAfterRestartKeeps(s: Tables, now: Time)
    requires Valid(s)
    ensures Valid(RecoverAfterRestart(s, now))
  {
    hide AttemptsOk, DeliveriesOk, Interrupt;
    var t := RecoverAfterRestart(s, now);
    InterruptKeeps(s, ActiveJobs(s));
    RestartDeliveries(s, now);
    SmallerPending(s.pendingCancels, t.pendingCancels);
    SameAttempts(Interrupt(s, ActiveJobs(s)), t);
  }

  // ---------------------------------------------------------------------------------------------
  // Sessions
  // ---------------------------------------------------------------------------------------------

  lemma QuarantineKeeps(s: Tables, session: Id)
    requires Valid(s)
    ensures Valid(WithQuarantine(s, session))
  {
    hide AttemptsOk, DeliveriesOk;
    SameDeliveries(s, WithQuarantine(s, session));
    SameAttempts(s, WithQuarantine(s, session));
  }

  /** A slot that is created or bound without an attempt concerns no job. */
  ghost predicate IdleSlot(s: Tables, t: Tables, key: SlotKey) {
    && !key.backend.Hermes?
    && key in t.slots && t == s.(slots := s.slots[key := t.slots[key]])
    && if key in s.slots then t.slots[key].(thread := None) == s.slots[key].(thread := None) && t.slots[key].thread.Some?
       else t.slots[key].active.None? && !t.slots[key].recovery
  }

  lemma IdleSlotKeeps(s: Tables, t: Tables, key: SlotKey)
    requires Valid(s) && IdleSlot(s, t, key)
    ensures Valid(t)
  {
    hide AttemptsOk, DeliveriesOk;
    SameDeliveries(s, t);
    SameLedger(s, t);
    IdleSlotRows(s, t, key);
    IdleSlotExclusion(s, t, key);
    AttemptsTogether(t);
  }

  lemma IdleSlotExclusion(s: Tables, t: Tables, key: SlotKey)
    requires Valid(s) && IdleSlot(s, t, key)
    ensures OneActivePerSession(t) && OneHeldPerSession(t) && NoneActiveUnderRecovery(t)
  {
    hide JobsOk, SlotsOk, LedgerOk, LeasesUnique, DeliveriesOk;
  }

  lemma IdleSlotRows(s: Tables, t: Tables, key: SlotKey)
    requires Valid(s) && IdleSlot(s, t, key)
    ensures JobsOk(t) && SlotsOk(t)
  {
    hide AttemptsOk, DeliveriesOk;
    forall j | j in t.jobs ensures JobOk(t, j) { JobAt(s, j); }
    forall k | k in t.slots ensures SlotOk(t, k) {
      if k in s.slots { SlotAt(s, k); }
    }
  }

  lemma SessionCreationKeeps(s: Tables, key: SlotKey, thread: Id)
    requires Valid(s) && !key.backend.Hermes?
    ensures Valid(EnsureBackendSession(s, key))
    ensures Valid(CreateLocalOpaqueSession(s, key, thread))
    ensures Valid(BindBackendThread(s, key, thread))
  {
    hide AttemptsOk, DeliveriesOk;
    if key !in s.slots {
      IdleSlotKeeps(s, EnsureBackendSession(s, key), key);
    }
    if CreateLocalOpaqueSession(s, key, thread) != s {
      IdleSlotKeeps(s, CreateLocalOpaqueSession(s, key, thread), key);
    }
    if BindBackendThread(s, key, thread) != s {
      IdleSlotKeeps(s, BindBackendThread(s, key, thread), key);
    }
  }

  /** On a session without an active job, slots may be retired with its quarantine if no recovery slot stays. */
  ghost predicate Retired(s: Tables, t: Tables, session: Id, retired: set<SlotKey>) {
    && !SessionActive(s, session)
    && t == s.(slots := s.slots - retired, quarantine := s.quarantine - {session})
    && retired <= SessionSlots(s, session) && RecoverySlots(s, session) <= retired
  }

  lemma RetireKeeps(s: Tables, t: Tables, session: Id, retired: set<SlotKey>)
    requires Valid(s) && Retired(s, t, session, retired)
    ensures Valid(t)
  {
    hide AttemptsOk, DeliveriesOk;
    SameDeliveries(s, t);
    SameLedger(s, t);
    RetireRows(s, t, session, retired);
    RetireExclusion(s, t, session, retired);
    AttemptsTogether(t);
  }

  lemma RetireExclusion(s: Tables, t: Tables, session: Id, retired: set<SlotKey>)
    requires Valid(s) && Retired(s, t, session, retired)
    ensures OneActivePerSession(t) && OneHeldPerSession(t) && NoneActiveUnderRecovery(t)
  {
    hide JobsOk, SlotsOk, LedgerOk, LeasesUnique, DeliveriesOk;
  }

  lemma RetireRows(s: Tables, t: Tables, session: Id, retired: set<SlotKey>)
    requires Valid(s) && Retired(s, t, session, retired)
    ensures JobsOk(t) && SlotsOk(t)
  {
    hide AttemptsOk, DeliveriesOk;
    forall j | j in t.jobs ensures JobOk(t, j) { JobAt(s, j); }
    forall k | k in t.slots ensures SlotOk(t, k) {
      SlotAt(s, k);
      assert s.slots[k].recovery ==> k.session != session;
    }
  }

  lemma ReleaseSessionRecoveryKeeps(s: Tables, session: Id)
    requires Valid(s)
    ensures Valid(ReleaseSessionRecovery(s, session).0)
  {
    hide AttemptsOk, DeliveriesOk;
    var (t, r) := ReleaseSessionRecovery(s, session);
    if r.released { RetireKeeps(s, t, session, r.retired); }
  }

  /** A recovery slot is the only held slot of its session, which runs nothing and is quarantined. */
  lemma RecoverySlot(s: Tables, key: SlotKey)
    requires Valid(s) && key in s.slots && s.slots[key].recovery
    ensures !SessionActive(s, key.session) && RecoverySlots(s, key.session) == {key}
    ensures key.session in s.quarantine
  {
    hide JobsOk, LedgerOk, LeasesUnique, DeliveriesOk;
    assert SlotOk(s, key);
    forall k | k in RecoverySlots(s, key.session) ensures k == key { assert SlotOk(s, k); }
  }

  lemma ReleaseBackendSessionRecoveryKeeps(s: Tables, key: SlotKey)
    requires Valid(s)
    ensures Valid(ReleaseBackendSessionRecovery(s, key))
  {
    if key in s.slots && s.slots[key].recovery {
      RecoverySlot(s, key);
      RetireKeeps(s, ReleaseBackendSessionRecovery(s, key), key.session, {key});
    }
  }

  // ---------------------------------------------------------------------------------------------
  // Delivery
  // ---------------------------------------------------------------------------------------------

  lemma OneRowKeeps(s: Tables, t: Tables, j: Id)
    requires Valid(s) && j in s.outbox && j in t.outbox
    requires t == s.(outbox := s.outbox[j := t.outbox[j]], deliveries := t.deliveries)
    requires OutboxOk(t, j)
    requires forall i :: i != j ==> Newest(t.deliveries, i) == Newest(s.deliveries, i)
    requires forall d :: d in t.deliveries ==> d.job in s.outbox
    requires DistinctMessages(t.deliveries)
    ensures Valid(t)
  {
    SameAttempts(s, t);
    forall i | i in t.outbox ensures i in t.jobs && OutboxOk(t, i) { assert OutboxOk(s, i); }
  }

  lemma NewestOfOne(deliveries: seq<Delivery>, d: Delivery, j: Id)
    ensures Newest(deliveries + [d], j) ==
            if d.job == j && (Newest(deliveries, j).None? || Newest(deliveries, j).value.createdAt <= d.createdAt)
            then Some(d) else Newest(deliveries, j)
  {
    assert (deliveries + [d])[..|deliveries|] == deliveries;
  }

  lemma NewestElsewhere(deliveries: seq<Delivery>, d: Delivery)
    ensures forall j :: j != d.job ==> Newest(deliveries + [d], j) == Newest(deliveries, j)
  {
    forall j | j != d.job ensures Newest(deliveries + [d], j) == Newest(deliveries, j) { NewestOfOne(deliveries, d, j); }
  }

  /** The clock does not run backwards: `now` is no earlier than any recorded delivery. */
  lemma StartResultDeliveryKeeps(s: Tables, j: Id, message: Id, retry: bool, now: Time)
    requires Valid(s) && FreshMessage(s, message)
    requires forall d :: d in s.deliveries ==> d.createdAt <= now
    ensures Valid(StartResultDelivery(s, j, message, retry, now))
  {
    hide AttemptsOk, Newest;
    var t := StartResultDelivery(s, j, message, retry, now);
    if CanDeliver(s, j, retry, now) {
      assert OutboxOk(s, j);
      NewestElsewhere(s.deliveries, Delivery(message, j, now));
      NewestOfOne(s.deliveries, Delivery(message, j, now), j);
      forall d | d in t.deliveries ensures d.job in s.outbox {
        assert d in s.deliveries || d == Delivery(message, j, now);
      }
      OneRowKeeps(s, t, j);
    }
  }

  lemma ResetOutboxPendingKeeps(s: Tables, j: Id)
    requires Valid(s)
    ensures Valid(ResetOutboxPending(s, j))
  {
    hide AttemptsOk;
    if j in s.outbox && s.outbox[j].status.Delivering? {
      RowAt(s, j);
      OneRowKeeps(s, ResetOutboxPending(s, j), j);
    }
  }

  lemma MarkOutboxDeliveredKeeps(s: Tables, j: Id, now: Time)
    requires Valid(s)
    ensures Valid(MarkOutboxDelivered(s, j, now))
  {
    hide AttemptsOk;
    if j in s.outbox && !s.outbox[j].status.Delivered? && WasSent(s, j) {
      RowAt(s, j);
      OneRowKeeps(s, MarkOutboxDelivered(s, j, now), j);
    }
  }

  lemma MarkOutboxAckFailedKeeps(s: Tables, j: Id, next: Time)
    requires Valid(s)
    ensures Valid(MarkOutboxAckFailed(s, j, next))
  {
    hide AttemptsOk;
    if j in s.outbox && s.outbox[j].status.Delivering? {
      RowAt(s, j);
      OneRowKeeps(s, MarkOutboxAckFailed(s, j, next), j);
    }
  }

  lemma {:induction false} WithoutProperties(deliveries: seq<Delivery>, j: Id, message: Id)
    requires DistinctMessages(deliveries)
    ensures forall d :: d in Without(deliveries, j, message) <==> d in deliveries && !(d.job == j && d.message == message)
    ensures DistinctMessages(Without(deliveries, j, message))
    ensures forall i :: i != j ==> Newest(Without(deliveries, j, message), i) == Newest(deliveries, i)
  {
    if deliveries != [] {
      var last := deliveries[|deliveries| - 1];
      var init := deliveries[..|deliveries| - 1];
      assert deliveries == init + [last];
      WithoutProperties(init, j, message);
      var rest, r := Without(init, j, message), Without(deliveries, j, message);
      forall i ensures i != j ==> Newest(r, i) == Newest(deliveries, i) {
        NewestOfOne(init, last, i);
        NewestOfOne(rest, last, i);
      }
      forall d ensures d in r <==> d in deliveries && !(d.job == j && d.message == message) {
        assert d in deliveries <==> d in init || d == last;
      }
      assert forall i :: 0 <= i < |rest| ==> rest[i] in init;
      assert forall i :: 0 <= i < |rest| ==> rest[i].message != last.message;
      assert r == rest || r == rest + [last];
    }
  }

  lemma SendFailureRow(s: Tables, j: Id, message: Id, retry: bool)
    requires DeliveriesOk(s) && j in s.outbox && s.outbox[j].status.Delivering?
    requires s.outbox[j].lastMessage == Some(message)
    ensures var t := ResetAfterSendFailure(s, j, message, retry);
            && OutboxOk(t, j)
            && (forall i :: i != j ==> Newest(t.deliveries, i) == Newest(s.deliveries, i))
            && (forall d :: d in t.deliveries ==> d.job in s.outbox)
            && DistinctMessages(t.deliveries)
  {
    hide DistinctMessages;
    RowAt(s, j);
    WithoutProperties(s.deliveries, j, message);
    forall d | d in Without(s.deliveries, j, message) ensures d.job in s.outbox { assert d in s.deliveries; }
  }

  lemma ResetAfterSendFailureKeeps(s: Tables, j: Id, message: Id, retry: bool)
    requires Valid(s)
    ensures Valid(ResetAfterSendFailure(s, j, message, retry))
  {
    hide AttemptsOk;
    var t := ResetAfterSendFailure(s, j, message, retry);
    if j in s.outbox && s.outbox[j].status.Delivering? && s.outbox[j].lastMessage == Some(message) {
      SendFailureRow(s, j, message, retry);
      hide DeliveriesOk, OutboxOk;
      OneRowKeeps(s, t, j);
    }
  }
}
