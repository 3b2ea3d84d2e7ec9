/** The durable job store, updated in place.

    Each method performs one transaction statement by statement, with the guard of every statement.
    Where the program checks a count and throws because the tables do not agree, the method asserts
    that they do: with the invariant of Invariant.dfy no such throw can be reached. */
module JobStores {
  import opened Tables
  import T = Tables
  import opened Invariant
  import opened Preservation
  import Laws

  class JobStore {
    var jobs: map<Id, Job>
    var slots: map<SlotKey, Slot>
    var quarantine: set<Id>
    var pendingCancels: map<Id, Time>
    var outbox: map<Id, Outbox>
    var deliveries: seq<Delivery>
    var ledger: map<Run, seq<Event>>

    ghost function Content(): Tables
      reads this
    {
      Tables(jobs, slots, quarantine, pendingCancels, outbox, deliveries, ledger)
    }

    constructor ()
      ensures Content() == EMPTY && Valid(Content())
    {
      jobs, slots, quarantine, pendingCancels := map[], map[], {}, map[];
      outbox, deliveries, ledger := map[], [], map[];
      new;
      EmptyValid();
    }

    // -------------------------------------------------------------------------------------------
    // Ledger and result rows
    // -------------------------------------------------------------------------------------------

    /** The insert needs a lease and an execution id, session metadata for a durable backend, and an
        event type that is new for the run; the program throws otherwise. */
    static ghost predicate MayAppend(s: Tables, j: Id, kind: Kind) {
      && j in s.jobs && s.jobs[j].lease.Some? && s.jobs[j].connector.Some?
      && (!s.jobs[j].target.Hermes? ==> SlotOf(s.jobs[j]) in s.slots && s.slots[SlotOf(s.jobs[j])].thread.Some?)
      && var events := Events(s, CurrentRun(s, j));
      && Numbered(events)
      && (forall i :: 0 <= i < |events| ==> events[i].kind != kind)
    }

    ghost predicate CanAppend(j: Id, kind: Kind)
      reads this
    {
      MayAppend(Content(), j, kind)
    }

    method AppendEvent(j: Id, kind: Kind)
      requires CanAppend(j, kind)
      modifies this`ledger
      ensures Content() == Append(old(Content()), j, kind)
    {
      var run := Run(j, jobs[j].generation);
      var events := if run in ledger then ledger[run] else [];
      var highest := 0;
      for i := 0 to |events|
        invariant highest == i
      {
        if events[i].sequence > highest { highest := events[i].sequence; }
      }
      ledger := ledger[run := events + [Event(highest + 1, kind, jobs[j].lease.value)]];
    }

    method InsertResult(j: Id, result: Id)
      modifies this`outbox
      ensures Content() == WithResult(old(Content()), j, result)
    {
      if j !in outbox {
        outbox := outbox[j := Outbox(Pending, result, 0, None, None, None, None)];
      }
    }

    // -------------------------------------------------------------------------------------------
    // Intake
    // -------------------------------------------------------------------------------------------

    /** `inserted` tells a first delivery; `conflict` a second one with different content. */
    method Ingest(j: Id, payload: Id, session: Id, target: Backend, now: Time) returns (inserted: bool, conflict: bool)
      requires Valid(Content())
      modifies this
      ensures Content() == T.Ingest(old(Content()), j, payload, session, target, now) && Valid(Content())
      ensures inserted <==> j !in old(jobs)
      ensures conflict <==> j in old(jobs) && old(jobs)[j].payload != payload
    {
      hide Valid;
      IngestKeeps(Content(), j, payload, session, target, now);
      pendingCancels := Unexpired(pendingCancels, now);
      inserted := j !in jobs;
      if inserted {
        jobs := jobs[j := Job(target, session, payload, Received, None, None, 0, false)];
      }
      if j in pendingCancels {
        jobs := jobs[j := CancelledJob(jobs[j])];
      }
      pendingCancels := pendingCancels - {j};
      conflict := jobs[j].payload != payload;
      assert jobs == T.Ingest(old(Content()), j, payload, session, target, now).jobs;
    }

    method MarkAcked(j: Id)
      requires Valid(Content())
      modifies this`jobs
      ensures Content() == T.MarkAcked(old(Content()), j) && Valid(Content())
    {
      hide Valid;
      MarkAckedKeeps(Content(), j);
      if j in jobs && jobs[j].status.Received? {
        jobs := jobs[j := jobs[j].(status := Acked)];
      }
    }

    method Reject(j: Id, result: Id)
      requires Valid(Content())
      modifies this`jobs, this`outbox
      ensures Content() == T.Reject(old(Content()), j, result) && Valid(Content())
    {
      hide Valid;
      RejectKeeps(Content(), j, result);
      if j in jobs && Undispatched(jobs[j].status) {
        jobs := jobs[j := jobs[j].(status := Rejected)];
        InsertResult(j, result);
      }
    }

    /** A full waiting list rolls the whole transaction back. */
    method RequestCancel(j: Id, now: Time) returns (outcome: CancelOutcome)
      requires Valid(Content())
      modifies this`jobs, this`pendingCancels
      ensures (Content(), outcome) == T.RequestCancel(old(Content()), j, now) && Valid(Content())
    {
      hide Valid;
      RequestCancelKeeps(Content(), j, now);
      var before := pendingCancels;
      pendingCancels := Unexpired(pendingCancels, now);
      if j in jobs {
        if Undispatched(jobs[j].status) {
          jobs := jobs[j := jobs[j].(status := Cancelled, cancelRequested := true)];
        } else if jobs[j].status.Dispatching? || jobs[j].status.Running? {
          jobs := jobs[j := jobs[j].(status := Cancelling, cancelRequested := true)];
        }
        pendingCancels := pendingCancels - {j};
        assert jobs == old(jobs)[j := CancelledJob(old(jobs)[j])];
        return CancelStored;
      }
      if j in pendingCancels {
        pendingCancels := pendingCancels[j := now];
        return CancelStored;
      }
      if |pendingCancels| >= PENDING_CANCEL_MAX_ROWS {
        pendingCancels := before;
        return CancelCapacityExceeded;
      }
      pendingCancels := pendingCancels[j := now];
      return CancelStored;
    }

    // -------------------------------------------------------------------------------------------
    // Claims
    // -------------------------------------------------------------------------------------------

    lemma FreshRun(j: Id)
      requires Valid(Content()) && j in jobs
      ensures Run(j, jobs[j].generation + 1) !in ledger
    {
      hide AttemptsOk, DeliveriesOk;
      RunAt(Content(), j);
    }

    method ActiveElsewhere(j: Id) returns (busy: bool)
      requires j in jobs
      ensures busy <==> SessionBusy(Content(), j)
    {
      busy := false;
      var rest := jobs.Keys;
      while rest != {}
        invariant rest <= jobs.Keys
        invariant busy <==> exists i :: i in jobs && i !in rest && i != j && jobs[i].session == jobs[j].session &&
                                        Active(jobs[i].status)
        decreases rest
      {
        var i :| i in rest;
        if i != j && jobs[i].session == jobs[j].session && Active(jobs[i].status) { busy := true; }
        rest := rest - {i};
      }
    }

    method ClaimForDispatch(j: Id, connector: Id, lease: Id) returns (claimed: bool)
      requires Valid(Content()) && FreshLease(Content(), lease)
      modifies this`jobs, this`ledger
      ensures Content() == T.ClaimForDispatch(old(Content()), j, connector, lease) && Valid(Content())
      ensures claimed <==> CanClaim(old(Content()), j, Hermes)
    {
      hide Valid;
      ClaimForDispatchKeeps(Content(), j, connector, lease);
      if j !in jobs || !jobs[j].target.Hermes? || !Undispatched(jobs[j].status) || jobs[j].cancelRequested ||
         jobs[j].session in quarantine
      {
        return false;
      }
      var busy := ActiveElsewhere(j);
      if busy { return false; }
      FreshRun(j);
      jobs := jobs[j := jobs[j].(status := Dispatching, connector := Some(connector), lease := Some(lease),
                                 generation := jobs[j].generation + 1)];
      AppendEvent(j, Reserved);
      return true;
    }

    method ClaimForBackendDispatch(j: Id, backend: Backend, connector: Id, lease: Id) returns (claimed: bool)
      requires Valid(Content()) && FreshLease(Content(), lease)
      modifies this`jobs, this`ledger, this`slots
      ensures Content() == T.ClaimForBackendDispatch(old(Content()), j, backend, connector, lease) && Valid(Content())
      ensures claimed <==> CanClaimSlot(old(Content()), j, backend)
    {
      hide Valid;
      ClaimForBackendDispatchKeeps(Content(), j, backend, connector, lease);
      if j !in jobs || jobs[j].target != backend || !Undispatched(jobs[j].status) || jobs[j].cancelRequested ||
         !SlotIdle(Tables(jobs, slots, quarantine, pendingCancels, outbox, deliveries, ledger), SlotKey(backend, jobs[j].session)) ||
         jobs[j].session in quarantine
      {
        return false;
      }
      var busy := ActiveElsewhere(j);
      if busy { return false; }
      FreshRun(j);
      jobs := jobs[j := jobs[j].(status := Dispatching, connector := Some(connector), lease := Some(lease),
                                 generation := jobs[j].generation + 1)];
      var key := SlotKey(backend, jobs[j].session);
      // The second update re-checks the slot; the program throws when it misses.
      assert key in slots && slots[key].thread.Some? && slots[key].active.None? && !slots[key].recovery;
      slots := slots[key := slots[key].(active := Some(Attempt(j, lease, jobs[j].generation, None)))];
      AppendEvent(j, Reserved);
      return true;
    }

    // -------------------------------------------------------------------------------------------
    // Requests proven unsent
    // -------------------------------------------------------------------------------------------

    /** What `Valid` says about the job that owns the attempt named by the caller. */
    lemma AttemptFacts(j: Id)
      requires Valid(Content()) && j in jobs && Active(jobs[j].status)
      ensures jobs[j].lease.Some? && jobs[j].connector.Some? && j !in outbox
      ensures !jobs[j].target.Hermes? ==>
                Owns(Content(), j) && slots[SlotOf(jobs[j])].thread.Some? &&
                slots[SlotOf(jobs[j])].active.value.lease == jobs[j].lease.value &&
                slots[SlotOf(jobs[j])].active.value.generation == jobs[j].generation &&
                (jobs[j].status.Running? ==> slots[SlotOf(jobs[j])].active.value.turn.Some?)
      ensures jobs[j].cancelRequested <==> jobs[j].status.Cancelling?
    {
      hide AttemptsOk, DeliveriesOk;
      ActiveJob(Content(), j);
    }

    /** An active run can record how it ends, and until it is bound, that it was accepted. */
    lemma AppendFacts(j: Id, kind: Kind)
      requires Valid(Content()) && j in jobs && Active(jobs[j].status)
      requires Laws.Ending(kind) || kind.Accepted?
      requires kind.Accepted? ==> jobs[j].status.Dispatching? || (!jobs[j].target.Hermes? && Unbound(Content(), j))
      ensures CanAppend(j, kind)
    {
      hide AttemptsOk, DeliveriesOk, OutboxOk;
      AttemptFacts(j);
      ActiveJob(Content(), j);
    }

    ghost predicate Unbound(s: Tables, j: Id) {
      j in s.jobs && Owns(s, j) && TurnOf(s, j).None?
    }

    method ResetUnsentDispatch(j: Id, lease: Id)
      requires Valid(Content())
      modifies this`jobs, this`ledger
      ensures Content() == T.ResetUnsentDispatch(old(Content()), j, lease) && Valid(Content())
    {
      hide Valid;
      ResetUnsentDispatchKeeps(Content(), j, lease);
      if j in jobs && jobs[j].target.Hermes? && jobs[j].status.Dispatching? && jobs[j].lease == Some(lease) {
        AttemptFacts(j); AppendFacts(j, NotSent);
        jobs := jobs[j := jobs[j].(status := Acked)];
        AppendEvent(j, NotSent);
        // The update that clears the lease must find the row; the program throws otherwise.
        assert jobs[j].status.Acked? && jobs[j].target.Hermes? && jobs[j].lease == Some(lease);
        jobs := jobs[j := jobs[j].(connector := None, lease := None)];
      }
    }

    /** The EXISTS clause of the guarded updates on an attempt. */
    predicate HoldsAttempt(j: Id, backend: Backend, lease: Id, generation: nat)
      reads this
      ensures HoldsAttempt(j, backend, lease, generation) == Holds(Content(), j, backend, lease, generation)
    {
      && j in jobs && jobs[j].target == backend && jobs[j].lease == Some(lease) && jobs[j].generation == generation
      && SlotKey(backend, jobs[j].session) in slots
      && var slot := slots[SlotKey(backend, jobs[j].session)];
      && !slot.recovery && slot.active.Some?
      && slot.active.value.job == j && slot.active.value.lease == lease && slot.active.value.generation == generation
    }

    method ResetUnsentBackendDispatch(j: Id, backend: Backend, lease: Id, generation: nat) returns (reset: bool)
      requires Valid(Content())
      modifies this`jobs, this`ledger, this`slots
      ensures Content() == T.ResetUnsentBackendDispatch(old(Content()), j, backend, lease, generation)
      ensures Valid(Content()) && (reset <==> CanResetSlot(old(Content()), j, backend, lease, generation))
    {
      hide Valid;
      ResetUnsentBackendDispatchKeeps(Content(), j, backend, lease, generation);
      reset := HoldsAttempt(j, backend, lease, generation) && jobs[j].status.Dispatching? &&
               slots[SlotKey(backend, jobs[j].session)].active.value.turn.None?;
      if reset {
        AttemptFacts(j); AppendFacts(j, NotSent);
        OnlySlotOf(j, backend);
        jobs := jobs[j := jobs[j].(status := Acked)];
        AppendEvent(j, NotSent);
        assert jobs[j].status.Acked? && jobs[j].target == backend && jobs[j].lease == Some(lease);
        jobs := jobs[j := jobs[j].(connector := None, lease := None)];
        ClearSlots(j, backend, lease, generation, None, jobs[j].session);
      }
    }

    /** Slots are found by the job they name, not by session: there is exactly one. */
    lemma OnlySlotOf(j: Id, backend: Backend)
      requires Valid(Content()) && j in jobs && jobs[j].target == backend
      ensures forall k :: k in slots && slots[k].active.Some? && slots[k].active.value.job == j ==> k == SlotOf(jobs[j])
    {
      hide JobsOk, LedgerOk, LeasesUnique, OneActivePerSession, OneHeldPerSession, NoneActiveUnderRecovery, DeliveriesOk;
      forall k | k in slots && slots[k].active.Some? && slots[k].active.value.job == j ensures k == SlotOf(jobs[j]) {
        assert SlotOk(Content(), k);
      }
    }

    /** Clears every slot of the backend that names the attempt; the program throws unless it is exactly one. */
    method ClearSlots(j: Id, backend: Backend, lease: Id, generation: nat, turn: Option<Id>, ghost session: Id)
      requires SlotKey(backend, session) in slots
      requires slots[SlotKey(backend, session)].active == Some(Attempt(j, lease, generation, turn))
      requires !slots[SlotKey(backend, session)].recovery
      requires forall k :: k in slots && slots[k].active.Some? && slots[k].active.value.job == j ==> k == SlotKey(backend, session)
      modifies this`slots
      ensures slots == old(slots)[SlotKey(backend, session) := old(slots)[SlotKey(backend, session)].(active := None)]
    {
      var cleared := set k | k in slots && k.backend == backend && !slots[k].recovery &&
                             slots[k].active == Some(Attempt(j, lease, generation, turn));
      assert cleared == {SlotKey(backend, session)};
      slots := map k | k in slots :: if k in cleared then slots[k].(active := None) else slots[k];
    }

    method FinishUnsentBackendCancellation(j: Id, backend: Backend, lease: Id, generation: nat) returns (done: bool)
      requires Valid(Content())
      modifies this`jobs, this`ledger, this`slots
      ensures Content() == T.FinishUnsentBackendCancellation(old(Content()), j, backend, lease, generation)
      ensures Valid(Content()) && (done <==> CanCancelUnsent(old(Content()), j, backend, lease, generation))
    {
      hide Valid;
      FinishUnsentBackendCancellationKeeps(Content(), j, backend, lease, generation);
      if j in jobs && Active(jobs[j].status) { AttemptFacts(j); AppendFacts(j, CancelledNotSent); OnlySlotOf(j, jobs[j].target); }
      done := HoldsAttempt(j, backend, lease, generation) && jobs[j].status.Cancelling? && jobs[j].cancelRequested &&
              slots[SlotKey(backend, jobs[j].session)].active.value.turn.None?;
      if done {
        jobs := jobs[j := jobs[j].(status := Cancelled)];
        AppendEvent(j, CancelledNotSent);
        ClearSlots(j, backend, lease, generation, None, jobs[j].session);
      }
    }

    method FinishHermesCancellationNotStarted(j: Id, lease: Id) returns (done: bool)
      requires Valid(Content())
      modifies this`jobs, this`ledger
      ensures Content() == T.FinishHermesCancellationNotStarted(old(Content()), j, lease) && Valid(Content())
      ensures done <==> CanCancelHermes(old(Content()), j, lease)
    {
      hide Valid;
      FinishHermesCancellationNotStartedKeeps(Content(), j, lease);
      if j in jobs && Active(jobs[j].status) { AttemptFacts(j); AppendFacts(j, CancelledNotSent); }
      done := j in jobs && jobs[j].target.Hermes? && jobs[j].status.Cancelling? && jobs[j].cancelRequested &&
              jobs[j].lease == Some(lease);
      if done {
        jobs := jobs[j := jobs[j].(status := Cancelled)];
        AppendEvent(j, CancelledNotSent);
      }
    }

    // -------------------------------------------------------------------------------------------
    // Acceptance and results
    // -------------------------------------------------------------------------------------------

    method MarkRunning(j: Id, connector: Id, lease: Id)
      requires Valid(Content())
      modifies this`jobs, this`ledger
      ensures Content() == T.MarkRunning(old(Content()), j, connector, lease) && Valid(Content())
    {
      hide Valid;
      MarkRunningKeeps(Content(), j, connector, lease);
      if j in jobs && jobs[j].target.Hermes? && jobs[j].status.Dispatching? && jobs[j].lease == Some(lease) &&
         !jobs[j].cancelRequested
      {
        AttemptFacts(j); AppendFacts(j, Accepted);
        jobs := jobs[j := jobs[j].(status := Running, connector := Some(connector))];
        AppendEvent(j, Accepted);
      }
    }

    lemma SlotsAreDurable(key: SlotKey)
      requires Valid(Content()) && key in slots
      ensures !key.backend.Hermes?
    {
      SlotAt(Content(), key);
    }

    method BindTurn(j: Id, backend: Backend, turn: Id)
      requires j in jobs && jobs[j].target == backend && CanAppend(j, Accepted)
      requires Owns(Content(), j) && slots[SlotOf(jobs[j])].active.value.turn.None?
      modifies this`ledger, this`slots
      ensures jobs == old(jobs)
      ensures Content() == T.BindTurn(old(Content()), j, jobs[j].status, turn)
    {
      var key := SlotKey(backend, jobs[j].session);
      slots := slots[key := slots[key].(active := Some(slots[key].active.value.(turn := Some(turn))))];
      AppendEvent(j, Accepted);
      assert jobs[j := jobs[j].(status := jobs[j].status)] == jobs;
    }

    method MarkBackendRunning(j: Id, backend: Backend, lease: Id, generation: nat, turn: Id) returns (bound: bool)
      requires Valid(Content())
      modifies this`jobs, this`ledger, this`slots
      ensures (Content(), bound) == T.MarkBackendRunning(old(Content()), j, backend, lease, generation, turn)
      ensures Valid(Content())
    {
      hide Valid;
      MarkBackendRunningKeeps(Content(), j, backend, lease, generation, turn);
      if j in jobs && Active(jobs[j].status) { AttemptFacts(j); }
      if !HoldsAttempt(j, backend, lease, generation) { return false; }
      var current := slots[SlotKey(backend, jobs[j].session)].active.value.turn;
      if jobs[j].status.Dispatching? && !jobs[j].cancelRequested && current.None? {
        AppendFacts(j, Accepted);
        jobs := jobs[j := jobs[j].(status := Running)];
        BindTurn(j, backend, turn);
        return true;
      }
      if jobs[j].status.Cancelling? && jobs[j].cancelRequested && current.None? {
        SlotsAreDurable(SlotKey(backend, jobs[j].session));
        AppendFacts(j, Accepted);
        BindTurn(j, backend, turn);
        return true;
      }
      return (jobs[j].status.Running? || jobs[j].status.Cancelling?) && current == Some(turn);
    }

    /** The part both kinds of backend share: status, event and result row. */
    method StoreVerdict(j: Id, success: bool, result: Id)
      requires CanAppend(j, VerdictKind(success))
      modifies this`jobs, this`ledger, this`outbox
      ensures Content() == WithResult(Settle(old(Content()), j, Verdict(success), VerdictKind(success)), j, result)
    {
      jobs := jobs[j := jobs[j].(status := if success then Succeeded else Failed)];
      AppendEvent(j, if success then EndedSucceeded else EndedFailed);
      InsertResult(j, result);
    }

    method FinishWithOutbox(j: Id, lease: Id, success: bool, result: Id)
      requires Valid(Content())
      modifies this`jobs, this`ledger, this`outbox
      ensures Content() == T.FinishWithOutbox(old(Content()), j, lease, success, result) && Valid(Content())
    {
      hide Valid;
      FinishWithOutboxKeeps(Content(), j, lease, success, result);
      if j in jobs && jobs[j].lease == Some(lease) && jobs[j].target.Hermes? &&
         (jobs[j].status.Dispatching? || jobs[j].status.Running?) && !jobs[j].cancelRequested
      {
        AttemptFacts(j); AppendFacts(j, VerdictKind(success));
        StoreVerdict(j, success, result);
      }
    }

    method FinishBackendWithOutbox(j: Id, backend: Backend, lease: Id, generation: nat, turn: Id, success: bool,
                                   result: Id, quarantineSession: bool) returns (done: bool)
      requires Valid(Content())
      modifies this`jobs, this`ledger, this`slots, this`outbox, this`quarantine
      ensures Content() == T.FinishBackendWithOutbox(old(Content()), j, backend, lease, generation, turn, success,
                                                          result, quarantineSession)
      ensures Valid(Content()) && (done <==> CanFinishBackend(old(Content()), j, backend, lease, generation, turn))
    {
      hide Valid;
      FinishBackendWithOutboxKeeps(Content(), j, backend, lease, generation, turn, success, result, quarantineSession);
      if j in jobs && Active(jobs[j].status) { AttemptFacts(j); AppendFacts(j, VerdictKind(success)); OnlySlotOf(j, jobs[j].target); }
      done := HoldsAttempt(j, backend, lease, generation) && jobs[j].status.Running? && !jobs[j].cancelRequested &&
              slots[SlotKey(backend, jobs[j].session)].active.value.turn == Some(turn);
      if done {
        StoreVerdict(j, success, result);
        if quarantineSession {
          quarantine := quarantine + {jobs[j].session};
          assert jobs[j].session in quarantine;
        }
        ClearSlots(j, backend, lease, generation, Some(turn), jobs[j].session);
      }
    }

    // -------------------------------------------------------------------------------------------
    // Unknown outcomes
    // -------------------------------------------------------------------------------------------

    method MarkCancelUnknown(j: Id, lease: Id)
      requires Valid(Content())
      modifies this`jobs, this`ledger, this`quarantine
      ensures Content() == T.MarkCancelUnknown(old(Content()), j, lease) && Valid(Content())
    {
      hide Valid;
      MarkCancelUnknownKeeps(Content(), j, lease);
      if j in jobs && jobs[j].target.Hermes? && jobs[j].lease == Some(lease) && jobs[j].status.Cancelling? {
        AttemptFacts(j); AppendFacts(j, EndedCancelUnknown);
        jobs := jobs[j := jobs[j].(status := CancelUnknown, cancelRequested := true)];
        AppendEvent(j, EndedCancelUnknown);
        quarantine := quarantine + {jobs[j].session};
      }
    }

    /** Marks every slot that names the attempt as in need of recovery; again exactly one. */
    method KeepAsEvidence(j: Id, backend: Backend, lease: Id, generation: nat, turn: Option<Id>, ghost session: Id)
      requires SlotKey(backend, session) in slots && slots[SlotKey(backend, session)].active.Some?
      requires slots[SlotKey(backend, session)].active.value.(turn := None) == Attempt(j, lease, generation, None)
      requires var current := slots[SlotKey(backend, session)].active.value.turn;
               current == turn || (current.None? && turn.Some?)
      requires !slots[SlotKey(backend, session)].recovery
      requires forall k :: k in slots && slots[k].active.Some? && slots[k].active.value.job == j ==> k == SlotKey(backend, session)
      modifies this`slots
      ensures var key := SlotKey(backend, session);
              var attempt := old(slots)[key].active.value;
              slots == old(slots)[key := old(slots)[key].(recovery := true,
                         active := Some(attempt.(turn := if attempt.turn.Some? then attempt.turn else turn)))]
    {
      var marked := set k | k in slots && k.backend == backend && !slots[k].recovery && slots[k].active.Some? &&
                            slots[k].active.value.(turn := None) == Attempt(j, lease, generation, None) &&
                            (slots[k].active.value.turn == turn || (slots[k].active.value.turn.None? && turn.Some?));
      assert marked == {SlotKey(backend, session)};
      slots := map k | k in slots ::
        if k in marked then
          slots[k].(recovery := true,
                    active := Some(slots[k].active.value.(
                      turn := if slots[k].active.value.turn.Some? then slots[k].active.value.turn else turn)))
        else slots[k];
    }

    method StoreLoss(j: Id, cancelled: bool)
      requires j in jobs && CanAppend(j, LostKind(jobs[j].status)) && cancelled == jobs[j].status.Cancelling?
      requires jobs[j].cancelRequested <==> cancelled
      modifies this`jobs, this`ledger, this`quarantine
      ensures Content() == WithQuarantine(Settle(old(Content()), j, LostStatus(old(jobs)[j].status), LostKind(old(jobs)[j].status)),
                                          old(jobs)[j].session)
    {
      jobs := jobs[j := jobs[j].(status := if cancelled then CancelUnknown else Interrupted,
                                 cancelRequested := if cancelled then true else jobs[j].cancelRequested)];
      AppendEvent(j, if cancelled then EndedCancelUnknown else EndedInterrupted);
      quarantine := quarantine + {jobs[j].session};
    }

    method MarkBackendRecoveryTerminal(j: Id, backend: Backend, lease: Id, generation: nat, turn: Option<Id>,
                                       cancelled: bool) returns (done: bool)
      requires Valid(Content())
      modifies this`jobs, this`ledger, this`slots, this`quarantine
      ensures Content() == T.MarkBackendRecoveryTerminal(old(Content()), j, backend, lease, generation, turn, cancelled)
      ensures Valid(Content()) && (done <==> CanMarkLost(old(Content()), j, backend, lease, generation, turn, cancelled))
    {
      hide Valid, MayAppend;
      MarkBackendRecoveryTerminalKeeps(Content(), j, backend, lease, generation, turn, cancelled);
      done := HoldsAttempt(j, backend, lease, generation) &&
              (if cancelled then jobs[j].status.Cancelling? else jobs[j].status.Dispatching? || jobs[j].status.Running?) &&
              (var current := slots[SlotKey(backend, jobs[j].session)].active.value.turn;
               current == turn || (current.None? && turn.Some?));
      if done {
        AttemptFacts(j);
        AppendFacts(j, LostKind(jobs[j].status));
        OnlySlotOf(j, backend);
        LoseAttempt(j, backend, lease, generation, turn, cancelled);
      }
    }

    method LoseAttempt(j: Id, backend: Backend, lease: Id, generation: nat, turn: Option<Id>, cancelled: bool)
      requires CanMarkLost(Content(), j, backend, lease, generation, turn, cancelled)
      requires CanAppend(j, LostKind(jobs[j].status)) && (jobs[j].cancelRequested <==> cancelled)
      requires forall k :: k in slots && slots[k].active.Some? && slots[k].active.value.job == j ==> k == SlotOf(jobs[j])
      modifies this`jobs, this`ledger, this`slots, this`quarantine
      ensures Content() == T.MarkBackendRecoveryTerminal(old(Content()), j, backend, lease, generation, turn, cancelled)
    {
      hide MayAppend;
      StoreLoss(j, cancelled);
      KeepAsEvidence(j, backend, lease, generation, turn, jobs[j].session);
    }

    /** The ledger after the current runs of `victims` recorded how they were lost. */
    static function LostRuns(jobs: map<Id, Job>, ledger: map<Run, seq<Event>>, snapshot: map<Id, Status>,
                             victims: set<Id>): map<Run, seq<Event>>
    {
      map r | r in ledger ::
        if r.job in victims && r.job in snapshot && r.job in jobs && r.generation == jobs[r.job].generation &&
           jobs[r.job].lease.Some?
        then ledger[r] + [Event(|ledger[r]| + 1, LostKind(snapshot[r.job]), jobs[r.job].lease.value)]
        else ledger[r]
    }

    /** Records, for every attempt of the snapshot, how it was lost. */
    method AppendLost(snapshot: map<Id, Status>)
      requires forall j :: j in snapshot ==> CanAppend(j, LostKind(snapshot[j])) && Run(j, jobs[j].generation) in ledger
      modifies this`ledger
      ensures ledger == LostRuns(jobs, old(ledger), snapshot, snapshot.Keys)
    {
      hide LostRuns;
      LostNone(jobs, ledger, snapshot);
      var rest := snapshot.Keys;
      while rest != {}
        invariant rest <= snapshot.Keys
        invariant ledger == LostRuns(jobs, old(ledger), snapshot, snapshot.Keys - rest)
        decreases rest
      {
        var j :| j in rest;
        assert old(CanAppend(j, LostKind(snapshot[j])));
        LostOneMore(jobs, old(ledger), snapshot, snapshot.Keys - rest, j);
        AppendEvent(j, LostKind(snapshot[j]));
        assert snapshot.Keys - rest + {j} == snapshot.Keys - (rest - {j});
        rest := rest - {j};
      }
      assert snapshot.Keys - {} == snapshot.Keys;
    }

    static lemma LostNone(jobs: map<Id, Job>, ledger: map<Run, seq<Event>>, snapshot: map<Id, Status>)
      ensures LostRuns(jobs, ledger, snapshot, snapshot.Keys - snapshot.Keys) == ledger
    {
    }

    static lemma LostOneMore(jobs: map<Id, Job>, ledger: map<Run, seq<Event>>, snapshot: map<Id, Status>,
                             done: set<Id>, j: Id)
      requires j in snapshot && j in jobs && jobs[j].lease.Some? && Run(j, jobs[j].generation) in ledger && j !in done
      ensures var run := Run(j, jobs[j].generation);
              run in LostRuns(jobs, ledger, snapshot, done) && LostRuns(jobs, ledger, snapshot, done)[run] == ledger[run]
      ensures var run := Run(j, jobs[j].generation);
              LostRuns(jobs, ledger, snapshot, done + {j}) == LostRuns(jobs, ledger, snapshot, done)[run :=
                ledger[run] + [Event(|ledger[run]| + 1, LostKind(snapshot[j]), jobs[j].lease.value)]]
    {
    }

    /** Moves the active jobs among `selected` to their unknown outcome, quarantines their sessions and
        records the events.  The program throws unless every active attempt is moved exactly once. */
    method LoseSelected(selected: set<Id>) returns (victims: set<Id>)
      requires Valid(Content()) && selected <= jobs.Keys
      modifies this`jobs, this`ledger, this`quarantine
      ensures victims == set j | j in selected && Active(old(jobs)[j].status)
      ensures Victims(old(Content()), victims)
      ensures Content() == Interrupt(old(Content()), victims).(slots := slots)
    {
      hide Valid, MayAppend, LostRuns;
      var snapshot := map j | j in selected && Active(jobs[j].status) :: jobs[j].status;
      victims := snapshot.Keys;
      assert victims == set j | j in selected && Active(jobs[j].status);
      SnapshotFacts(snapshot);
      LoseSnapshot(selected, snapshot);
    }

    method LoseSnapshot(selected: set<Id>, snapshot: map<Id, Status>)
      requires selected <= jobs.Keys && Victims(Content(), snapshot.Keys)
      requires snapshot == map j | j in selected && Active(jobs[j].status) :: jobs[j].status
      requires forall j :: j in snapshot ==> CanAppend(j, LostKind(snapshot[j])) && Run(j, jobs[j].generation) in ledger
      modifies this`jobs, this`ledger, this`quarantine
      ensures Content() == Interrupt(old(Content()), snapshot.Keys).(slots := slots)
    {
      hide MayAppend, LostRuns, Interrupt;
      SnapshotFields(Content(), snapshot);
      quarantine := quarantine + set j | j in snapshot :: jobs[j].session;
      LoseJobs(selected, snapshot);
      assert jobs == LostJobs(old(jobs), snapshot);
      StillAppendable(old(Content()), Content(), snapshot);
      AppendLost(snapshot);
    }

    static function LostJobs(jobs: map<Id, Job>, snapshot: map<Id, Status>): map<Id, Job> {
      map j | j in jobs :: if j in snapshot then jobs[j].(status := LostStatus(jobs[j].status)) else jobs[j]
    }

    /** The rows that a loss changes, each in terms of the snapshot. */
    static lemma SnapshotFields(s: Tables, snapshot: map<Id, Status>)
      requires Victims(s, snapshot.Keys) && forall j :: j in snapshot ==> snapshot[j] == s.jobs[j].status
      ensures Interrupt(s, snapshot.Keys).jobs == LostJobs(s.jobs, snapshot)
      ensures Interrupt(s, snapshot.Keys).quarantine == s.quarantine + set j | j in snapshot :: s.jobs[j].session
      ensures Interrupt(s, snapshot.Keys).ledger == LostRuns(LostJobs(s.jobs, snapshot), s.ledger, snapshot, snapshot.Keys)
      ensures Interrupt(s, snapshot.Keys).(jobs := s.jobs, slots := s.slots, quarantine := s.quarantine, ledger := s.ledger) == s
    {
    }

    static lemma StillAppendable(s: Tables, t: Tables, snapshot: map<Id, Status>)
      requires forall j :: j in snapshot ==> MayAppend(s, j, LostKind(snapshot[j])) && CurrentRun(s, j) in s.ledger
      requires t.slots == s.slots && t.ledger == s.ledger && t.jobs.Keys == s.jobs.Keys
      requires forall j :: j in s.jobs ==> t.jobs[j].(status := s.jobs[j].status) == s.jobs[j]
      ensures forall j :: j in snapshot ==> MayAppend(t, j, LostKind(snapshot[j])) && CurrentRun(t, j) in t.ledger
    {
      forall j | j in snapshot ensures MayAppend(t, j, LostKind(snapshot[j])) && CurrentRun(t, j) in t.ledger {
        assert MayAppend(s, j, LostKind(snapshot[j]));
      }
    }

    lemma SnapshotFacts(snapshot: map<Id, Status>)
      requires Valid(Content())
      requires forall j :: j in snapshot ==> j in jobs && Active(jobs[j].status) && snapshot[j] == jobs[j].status
      ensures Victims(Content(), snapshot.Keys)
      ensures forall j :: j in snapshot ==> CanAppend(j, LostKind(snapshot[j])) && Run(j, jobs[j].generation) in ledger
    {
      hide Valid;
      forall j | j in snapshot
        ensures jobs[j].lease.Some? && CanAppend(j, LostKind(snapshot[j])) && Run(j, jobs[j].generation) in ledger
      {
        AttemptFacts(j);
        AppendFacts(j, LostKind(snapshot[j]));
        ActiveJob(Content(), j);
      }
    }

    method LoseJobs(selected: set<Id>, snapshot: map<Id, Status>)
      requires selected <= jobs.Keys
      requires snapshot == map j | j in selected && Active(jobs[j].status) :: jobs[j].status
      modifies this`jobs
      ensures jobs == map j | j in old(jobs) ::
                if j in snapshot then old(jobs)[j].(status := LostStatus(old(jobs)[j].status)) else old(jobs)[j]
    {
      var cancelUnknown := set j | j in selected && jobs[j].status.Cancelling?;
      jobs := map j | j in jobs :: if j in cancelUnknown then jobs[j].(status := CancelUnknown) else jobs[j];
      var interrupted := set j | j in selected && (jobs[j].status.Dispatching? || jobs[j].status.Running?);
      jobs := map j | j in jobs :: if j in interrupted then jobs[j].(status := Interrupted) else jobs[j];
      assert cancelUnknown !! interrupted && cancelUnknown + interrupted == snapshot.Keys;
    }

    method MarkConnectorDisconnected(connector: Id) returns (affected: nat)
      requires Valid(Content())
      modifies this`jobs, this`ledger, this`quarantine
      ensures Content() == T.MarkConnectorDisconnected(old(Content()), connector) && Valid(Content())
      ensures affected == |ConnectorVictims(old(Content()), Hermes, connector)|
    {
      hide Valid;
      MarkConnectorDisconnectedKeeps(Content(), connector);
      var victims := LoseSelected(set j | j in jobs && jobs[j].connector == Some(connector) && jobs[j].target.Hermes?);
      VictimSet(old(Content()), Hermes, connector, victims);
      HermesHasNoSlot(old(Content()), victims);
      affected := |victims|;
    }

    lemma VictimSet(s: Tables, backend: Backend, connector: Id, victims: set<Id>)
      requires Victims(s, victims)
      requires victims == set j | j in s.jobs && s.jobs[j].connector == Some(connector) && s.jobs[j].target == backend &&
                                  Active(s.jobs[j].status)
      ensures victims == ConnectorVictims(s, backend, connector)
    {
    }

    lemma HermesHasNoSlot(s: Tables, victims: set<Id>)
      requires Valid(s) && Victims(s, victims) && forall j :: j in victims ==> s.jobs[j].target.Hermes?
      ensures Interrupt(s, victims).slots == s.slots
    {
      hide AttemptsOk, DeliveriesOk;
      forall k | k in s.slots && s.slots[k].active.Some? ensures s.slots[k].active.value.job !in victims {
        SlotAt(s, k);
      }
    }

    method MarkBackendDisconnected(backend: Backend, connector: Id) returns (affected: nat)
      requires Valid(Content()) && !backend.Hermes?
      modifies this`jobs, this`ledger, this`quarantine, this`slots
      ensures Content() == T.MarkBackendDisconnected(old(Content()), backend, connector) && Valid(Content())
      ensures affected == |ConnectorVictims(old(Content()), backend, connector)|
    {
      hide Valid;
      MarkBackendDisconnectedKeeps(Content(), backend, connector);
      var marked := SlotsToMark(backend, connector);
      SelectedVictims(Content(), backend, connector);
      hide ConnectorVictims;
      var victims := LoseSelected(set j | j in jobs && jobs[j].connector == Some(connector) && jobs[j].target == backend);
      assert victims == ConnectorVictims(old(Content()), backend, connector);
      slots := map k | k in slots :: if k in marked then slots[k].(recovery := true) else slots[k];
      affected := |victims|;
    }

    /** Sessions are selected by the attempt they name, before the jobs move. */
    method SlotsToMark(backend: Backend, connector: Id) returns (marked: set<SlotKey>)
      requires Valid(Content()) && !backend.Hermes?
      ensures Interrupt(Content(), ConnectorVictims(Content(), backend, connector)).slots == map k | k in slots ::
                if k in marked then slots[k].(recovery := true) else slots[k]
      ensures |marked| == |ConnectorVictims(Content(), backend, connector)|
    {
      hide Valid;
      marked := set k | k in slots && k.backend == backend && !slots[k].recovery && slots[k].active.Some? &&
                        slots[k].active.value.job in jobs &&
                        (var job := jobs[slots[k].active.value.job];
                         && SlotOf(job) == k && job.lease == Some(slots[k].active.value.lease)
                         && job.generation == slots[k].active.value.generation
                         && job.connector == Some(connector) && Active(job.status));
      SelectedVictims(Content(), backend, connector);
      MarkedSlots(Content(), backend, ConnectorVictims(Content(), backend, connector), marked);
    }

    lemma SelectedVictims(s: Tables, backend: Backend, connector: Id)
      requires Valid(s)
      ensures Victims(s, ConnectorVictims(s, backend, connector))
      ensures ConnectorVictims(s, backend, connector) ==
                set j | j in s.jobs && s.jobs[j].connector == Some(connector) && s.jobs[j].target == backend &&
                        Active(s.jobs[j].status)
    {
      hide AttemptsOk, DeliveriesOk;
      forall j | j in s.jobs && Active(s.jobs[j].status) ensures s.jobs[j].lease.Some? { ActiveJob(s, j); }
    }

    /** Exactly the slots of the lost jobs are marked, one for each; the program throws otherwise. */
    lemma MarkedSlots(s: Tables, backend: Backend, victims: set<Id>, marked: set<SlotKey>)
      requires Valid(s) && Victims(s, victims) && !backend.Hermes? && forall j :: j in victims ==> s.jobs[j].target == backend
      requires forall k :: k in marked <==>
                 && k in s.slots && k.backend == backend && !s.slots[k].recovery && s.slots[k].active.Some?
                 && s.slots[k].active.value.job in victims
                 && (var job := s.jobs[s.slots[k].active.value.job];
                     SlotOf(job) == k && job.lease == Some(s.slots[k].active.value.lease) &&
                     job.generation == s.slots[k].active.value.generation)
      ensures |marked| == |victims|
      ensures Interrupt(s, victims).slots == map k | k in s.slots ::
                if k in marked then s.slots[k].(recovery := true) else s.slots[k]
    {
      hide AttemptsOk, DeliveriesOk;
      forall k | k in s.slots && s.slots[k].active.Some? && s.slots[k].active.value.job in victims ensures k in marked {
        SlotAt(s, k);
      }
      forall j | j in victims
        ensures SlotOf(s.jobs[j]) in marked && s.slots[SlotOf(s.jobs[j])].active.value.job == j
      {
        ActiveJob(s, j);
      }
      OnePerVictim(s, victims, marked);
    }

    lemma {:induction false} OnePerVictim(s: Tables, victims: set<Id>, marked: set<SlotKey>)
      requires forall j :: j in victims ==> j in s.jobs
      requires forall k :: k in marked ==> k in s.slots && s.slots[k].active.Some? && s.slots[k].active.value.job in victims
      requires forall j :: j in victims ==> SlotOf(s.jobs[j]) in marked && s.slots[SlotOf(s.jobs[j])].active.value.job == j
      requires forall k :: k in marked ==> k == SlotOf(s.jobs[s.slots[k].active.value.job])
      ensures |marked| == |victims|
    {
      if victims == {} {
        assert marked == {};
      } else {
        var j :| j in victims;
        OnePerVictim(s, victims - {j}, marked - {SlotOf(s.jobs[j])});
      }
    }

    /** At start-up every active attempt is lost, whoever ran it, and interrupted deliveries are queued again. */
    method RecoverAfterRestart(now: Time) returns (interrupted: nat)
      requires Valid(Content())
      modifies this
      ensures Content() == T.RecoverAfterRestart(old(Content()), now) && Valid(Content())
      ensures interrupted == |ActiveJobs(old(Content()))|
    {
      hide Valid;
      RecoverAfterRestartKeeps(Content(), now);
      NoCancelWaitsForAJob(now);
      pendingCancels := Unexpired(pendingCancels, now);
      // Cancels that match a stored job would be consumed here, and an overflow of old rows trimmed.
      assert pendingCancels.Keys !! jobs.Keys && |pendingCancels| <= PENDING_CANCEL_MAX_ROWS;
      label pruned:
      PruneKeeps(old(Content()), now);
      var victims := LoseSelected(jobs.Keys);
      slots := map k | k in slots :: if slots[k].active.Some? then slots[k].(recovery := true) else slots[k];
      outbox := map j | j in outbox :: if outbox[j].status.Delivering? then outbox[j].(status := Pending) else outbox[j];
      AllSlotsMarked(old(Content()), victims);
      interrupted := |victims|;
    }

    lemma NoCancelWaitsForAJob(now: Time)
      requires Valid(Content())
      ensures Unexpired(pendingCancels, now).Keys !! jobs.Keys && |Unexpired(pendingCancels, now)| <= PENDING_CANCEL_MAX_ROWS
    {
      SmallerPending(pendingCancels, Unexpired(pendingCancels, now));
    }

    lemma PruneKeeps(s: Tables, now: Time)
      requires Valid(s)
      ensures Valid(s.(pendingCancels := Unexpired(s.pendingCancels, now)))
    {
      hide AttemptsOk, DeliveriesOk;
      var t := s.(pendingCancels := Unexpired(s.pendingCancels, now));
      SmallerPending(s.pendingCancels, t.pendingCancels);
      SameDeliveries(s, t);
      SameAttempts(s, t);
    }

    /** After a restart every held slot is evidence: those of the lost jobs, and those that were before. */
    lemma AllSlotsMarked(s: Tables, victims: set<Id>)
      requires Valid(s) && Victims(s, victims) && victims == set j | j in s.jobs && Active(s.jobs[j].status)
      ensures victims == ActiveJobs(s)
      ensures Interrupt(s, victims).slots == map k | k in s.slots ::
                if s.slots[k].active.Some? then s.slots[k].(recovery := true) else s.slots[k]
    {
      hide AttemptsOk, DeliveriesOk;
      forall k | k in s.slots && s.slots[k].active.Some?
        ensures s.slots[k].active.value.job in victims || s.slots[k].recovery
      {
        SlotAt(s, k);
      }
    }

    // -------------------------------------------------------------------------------------------
    // Sessions
    // -------------------------------------------------------------------------------------------

    method QuarantineSession(session: Id)
      requires Valid(Content())
      modifies this`quarantine
      ensures Content() == WithQuarantine(old(Content()), session) && Valid(Content())
    {
      hide Valid;
      QuarantineKeeps(Content(), session);
      quarantine := quarantine + {session};
    }

    /** Creates the row of an account-bound session, or finds the one that is there. */
    method EnsureBackendSession(key: SlotKey)
      requires Valid(Content()) && !key.backend.Hermes?
      modifies this`slots
      ensures Content() == T.EnsureBackendSession(old(Content()), key) && Valid(Content())
    {
      hide Valid;
      SessionCreationKeeps(Content(), key, 0);
      if key !in slots { slots := slots[key := Slot(None, None, false)]; }
    }

    method CreateLocalOpaqueSession(key: SlotKey, thread: Id) returns (created: bool)
      requires Valid(Content()) && !key.backend.Hermes?
      modifies this`slots
      ensures Content() == T.CreateLocalOpaqueSession(old(Content()), key, thread) && Valid(Content())
      ensures created <==> key !in old(slots) && key.session !in quarantine
    {
      hide Valid;
      SessionCreationKeeps(Content(), key, thread);
      if key.session in quarantine || key in slots { return false; }
      slots := slots[key := Slot(Some(thread), None, false)];
      return true;
    }

    method BindBackendThread(key: SlotKey, thread: Id) returns (bound: bool)
      requires Valid(Content()) && !key.backend.Hermes?
      modifies this`slots
      ensures Content() == T.BindBackendThread(old(Content()), key, thread) && Valid(Content())
      ensures bound ==> key in slots && slots[key].thread == Some(thread)
    {
      hide Valid;
      SessionCreationKeeps(Content(), key, thread);
      if key !in slots { return false; }
      if slots[key].thread.Some? { return slots[key].thread.value == thread; }
      if slots[key].recovery || key.session in quarantine { return false; }
      slots := slots[key := slots[key].(thread := Some(thread))];
      return true;
    }

    /** Deletes one slot in recovery; the evidence the delete asks for is always there. */
    method ReleaseBackendSessionRecovery(key: SlotKey) returns (released: bool)
      requires Valid(Content())
      modifies this`slots, this`quarantine
      ensures Content() == T.ReleaseBackendSessionRecovery(old(Content()), key) && Valid(Content())
      ensures released <==> key in old(slots) && old(slots)[key].recovery
    {
      hide Valid;
      ReleaseBackendSessionRecoveryKeeps(Content(), key);
      if key !in slots || !slots[key].recovery { return false; }
      EvidenceAt(key);
      released := slots[key].active.Some? && slots[key].active.value.job in jobs &&
                  SlotOf(jobs[slots[key].active.value.job]) == key &&
                  jobs[slots[key].active.value.job].lease == Some(slots[key].active.value.lease) &&
                  jobs[slots[key].active.value.job].generation == slots[key].active.value.generation &&
                  Terminal(jobs[slots[key].active.value.job].status);
      assert released;
      slots := slots - {key};
      quarantine := quarantine - {key.session};
    }

    lemma EvidenceAt(key: SlotKey)
      requires Valid(Content()) && key in slots && slots[key].recovery
      ensures Laws.Releasable(Content(), key)
    {
      hide AttemptsOk, DeliveriesOk;
      SlotAt(Content(), key);
    }

    lemma RunningSet(session: Id, running: set<Id>)
      requires running == set j | j in jobs && jobs[j].session == session && Active(jobs[j].status)
      ensures running == {} <==> !SessionActive(Content(), session)
    {
      if SessionActive(Content(), session) {
        var j :| j in jobs && jobs[j].session == session && Active(jobs[j].status);
        assert j in running;
      }
    }

    /** The release transaction with each of its refusals. */
    method ReleaseSessionRecovery(session: Id) returns (receipt: Release)
      requires Valid(Content())
      modifies this`slots, this`quarantine
      ensures (Content(), receipt) == T.ReleaseSessionRecovery(old(Content()), session) && Valid(Content())
    {
      hide Valid;
      ReleaseSessionRecoveryKeeps(Content(), session);
      var running := set j | j in jobs && jobs[j].session == session && Active(jobs[j].status);
      RunningSet(session, running);
      if running != {} { return REFUSED; }
      Laws.ReleaseRefusalsUnreachable(Content(), session);
      var existing := set k | k in slots && k.session == session;
      var recovery := set k | k in slots && k.session == session && slots[k].recovery;
      assert existing == SessionSlots(Content(), session) && recovery == RecoverySlots(Content(), session);
      if recovery == {} {
        if session !in quarantine { return REFUSED; }
        var unsafe := set k | k in existing && (slots[k].active.Some? || slots[k].recovery);
        forall k | k in existing ensures !slots[k].recovery && slots[k].active.None? {
          assert k !in recovery && k in SessionSlots(Content(), session);
        }
        assert unsafe == {};
        var retired := set k | k in existing && slots[k].active.None? && !slots[k].recovery;
        assert retired == existing;
        slots := slots - retired;
        quarantine := quarantine - {session};
        return Release(true, existing);
      }
      var releasable := set k | k in recovery && slots[k].active.Some? && slots[k].active.value.job in jobs &&
                                SlotOf(jobs[slots[k].active.value.job]) == k &&
                                jobs[slots[k].active.value.job].lease == Some(slots[k].active.value.lease) &&
                                jobs[slots[k].active.value.job].generation == slots[k].active.value.generation &&
                                Terminal(jobs[slots[k].active.value.job].status);
      assert forall k :: k in recovery ==> Laws.Releasable(Content(), k);
      assert releasable == recovery;
      var activeWithoutRecovery := set k | k in existing && slots[k].active.Some? && !slots[k].recovery;
      assert activeWithoutRecovery == {};
      assert session in quarantine;
      slots := slots - recovery;
      quarantine := quarantine - {session};
      return Release(true, recovery);
    }

    // -------------------------------------------------------------------------------------------
    // Delivery
    // -------------------------------------------------------------------------------------------

    method StartResultDelivery(j: Id, message: Id, retry: bool, now: Time) returns (started: bool)
      requires Valid(Content()) && FreshMessage(Content(), message)
      requires forall d :: d in deliveries ==> d.createdAt <= now
      modifies this`outbox, this`deliveries
      ensures Content() == T.StartResultDelivery(old(Content()), j, message, retry, now) && Valid(Content())
      ensures started <==> CanDeliver(old(Content()), j, retry, now)
    {
      hide Valid;
      StartResultDeliveryKeeps(Content(), j, message, retry, now);
      started := j in outbox && j in jobs && !jobs[j].cancelRequested &&
                 (if retry then outbox[j].status.Delivering?
                  else outbox[j].status.Pending? ||
                       (outbox[j].status.AckFailed? && outbox[j].nextAttempt.Some? && outbox[j].nextAttempt.value <= now));
      if started {
        outbox := outbox[j := outbox[j].(
          status := Delivering, lastMessage := Some(message), nextAttempt := None, deliveredAt := Some(now),
          retryCount := if outbox[j].status.AckFailed? then 0 else outbox[j].retryCount + (if retry then 1 else 0))];
        deliveries := deliveries + [Delivery(message, j, now)];
      }
    }

    method ResetOutboxPending(j: Id)
      requires Valid(Content())
      modifies this`outbox
      ensures Content() == T.ResetOutboxPending(old(Content()), j) && Valid(Content())
    {
      hide Valid;
      ResetOutboxPendingKeeps(Content(), j);
      if j in outbox && outbox[j].status.Delivering? {
        outbox := outbox[j := outbox[j].(status := Pending, nextAttempt := None)];
      }
    }

    /** Undoes a delivery that never left the process. */
    method ResetAfterSendFailure(j: Id, message: Id, retry: bool)
      requires Valid(Content())
      modifies this`outbox, this`deliveries
      ensures Content() == T.ResetAfterSendFailure(old(Content()), j, message, retry) && Valid(Content())
    {
      hide Valid;
      ResetAfterSendFailureKeeps(Content(), j, message, retry);
      if j in outbox && outbox[j].status.Delivering? && outbox[j].lastMessage == Some(message) {
        var remaining := Without(deliveries, j, message);
        var row := outbox[j];
        outbox := outbox[j := DeliveryFields(row, Newest(remaining, j)).(
          status := Pending, nextAttempt := None,
          retryCount := if retry && row.retryCount > 0 then row.retryCount - 1 else row.retryCount)];
        deliveries := remaining;
      }
    }

    method MarkOutboxDelivered(j: Id, now: Time) returns (delivered: bool)
      requires Valid(Content())
      modifies this`outbox
      ensures Content() == T.MarkOutboxDelivered(old(Content()), j, now) && Valid(Content())
      ensures delivered <==> j in old(outbox) && !old(outbox)[j].status.Delivered? && WasSent(old(Content()), j)
    {
      hide Valid;
      MarkOutboxDeliveredKeeps(Content(), j, now);
      delivered := j in outbox && !outbox[j].status.Delivered? && exists d :: d in deliveries && d.job == j;
      if delivered {
        outbox := outbox[j := outbox[j].(status := Delivered, nextAttempt := None, ackedAt := Some(now))];
      }
    }

    method MarkOutboxAckFailed(j: Id, next: Time)
      requires Valid(Content())
      modifies this`outbox
      ensures Content() == T.MarkOutboxAckFailed(old(Content()), j, next) && Valid(Content())
    {
      hide Valid;
      MarkOutboxAckFailedKeeps(Content(), j, next);
      if j in outbox && outbox[j].status.Delivering? {
        outbox := outbox[j := outbox[j].(status := AckFailed, nextAttempt := Some(next))];
      }
    }
  }
}
