/** What every reachable content of the job store satisfies, and the proof that each transaction keeps it. */
module Invariant {
  import opened Tables

  // ---------------------------------------------------------------------------------------------
  // The ledger of one run
  // ---------------------------------------------------------------------------------------------

  /** Events are numbered 1..n and carry the lease of their run. */
  predicate Numbered(events: seq<Event>) {
    forall i :: 0 <= i < |events| ==> events[i].sequence == i + 1 && events[i].lease == events[0].lease
  }

  /** `reserved`, then `accepted` when the backend took the request. */
  predicate Opened(events: seq<Event>, accepted: bool) {
    && |events| == (if accepted then 2 else 1)
    && events[0].kind.Reserved?
    && (accepted ==> events[1].kind.Accepted?)
  }

  /** An opened run followed by the one event that ended it. */
  predicate Closed(events: seq<Event>, accepted: bool, last: Kind) {
    && |events| == (if accepted then 3 else 2)
    && events[0].kind.Reserved?
    && (accepted ==> events[1].kind.Accepted?)
    && events[|events| - 1].kind == last
  }

  /** Only Hermes may report a result or "not started" without the acceptance order a turn imposes. */
  predicate LedgerAgrees(job: Job, events: seq<Event>) {
    match job.status
    case Received => job.generation == 0
    case Acked | Rejected => job.generation > 0 ==> Closed(events, false, NotSent)
    case Dispatching => Opened(events, false)
    case Running => Opened(events, true)
    case Cancelling => Opened(events, false) || Opened(events, true)
    case Succeeded =>
      Closed(events, true, EndedSucceeded) || (job.target.Hermes? && Closed(events, false, EndedSucceeded))
    case Failed =>
      Closed(events, true, EndedFailed) || (job.target.Hermes? && Closed(events, false, EndedFailed))
    case Cancelled =>
      if job.lease.None? then job.generation > 0 ==> Closed(events, false, NotSent)
      else Closed(events, false, CancelledNotSent) || (job.target.Hermes? && Closed(events, true, CancelledNotSent))
    case CancelUnknown => Closed(events, false, EndedCancelUnknown) || Closed(events, true, EndedCancelUnknown)
    case Interrupted => Closed(events, false, EndedInterrupted) || Closed(events, true, EndedInterrupted)
  }

  predicate LeaseAgrees(job: Job, events: seq<Event>) {
    && (job.lease.Some? <==> job.connector.Some?)
    && (Undispatched(job.status) || job.status.Rejected? ==> job.lease.None?)
    && (!Undispatched(job.status) && !job.status.Rejected? && !job.status.Cancelled? ==> job.lease.Some?)
    && (job.lease.Some? ==> job.generation > 0 && |events| > 0 && events[0].lease == job.lease.value)
  }

  // ---------------------------------------------------------------------------------------------
  // Rows
  // ---------------------------------------------------------------------------------------------

  predicate HasResult(status: Status) { status.Succeeded? || status.Failed? || status.Rejected? }
  predicate CancelWon(status: Status) { status.Cancelling? || status.Cancelled? || status.CancelUnknown? }

  predicate JobOk(s: Tables, j: Id)
    requires j in s.jobs
  {
    var job := s.jobs[j];
    var events := Events(s, Run(j, job.generation));
    && (job.cancelRequested <==> CancelWon(job.status))
    && (j in s.outbox <==> HasResult(job.status))
    && LeaseAgrees(job, events)
    && LedgerAgrees(job, events)
    && (Active(job.status) && !job.target.Hermes? ==> Owns(s, j))
  }

  /** The session slot names this very attempt. */
  predicate Owns(s: Tables, j: Id)
    requires j in s.jobs
  {
    && SlotOf(s.jobs[j]) in s.slots
    && !s.slots[SlotOf(s.jobs[j])].recovery
    && s.slots[SlotOf(s.jobs[j])].active.Some?
    && s.slots[SlotOf(s.jobs[j])].active.value.job == j
  }

  /** A held slot names a job of its own backend and session: running, or lost and quarantined. */
  predicate SlotOk(s: Tables, k: SlotKey)
    requires k in s.slots
  {
    var slot := s.slots[k];
    && !k.backend.Hermes?
    && (slot.recovery ==> slot.active.Some?)
    && (slot.active.Some? ==>
          var attempt := slot.active.value;
          && slot.thread.Some?
          && attempt.job in s.jobs
          && var job := s.jobs[attempt.job];
          && SlotOf(job) == k && job.lease == Some(attempt.lease) && job.generation == attempt.generation
          && (!slot.recovery ==>
                && Active(job.status)
                && (attempt.turn.Some? <==> |Events(s, Run(attempt.job, attempt.generation))| == 2))
          && (slot.recovery ==>
                && (job.status.Interrupted? || job.status.CancelUnknown?)
                && k.session in s.quarantine))
  }

  predicate RunOk(s: Tables, r: Run)
    requires r in s.ledger
  {
    && r.job in s.jobs
    && 1 <= r.generation <= s.jobs[r.job].generation
    && |s.ledger[r]| > 0
    && Numbered(s.ledger[r])
    && (r.generation < s.jobs[r.job].generation ==> Closed(s.ledger[r], false, NotSent))
  }

  predicate OutboxOk(s: Tables, j: Id)
    requires j in s.outbox
  {
    var row := s.outbox[j];
    && (row.status.AckFailed? <==> row.nextAttempt.Some?)
    && (row.status.Delivered? <==> row.ackedAt.Some?)
    && (row.status.Delivered? ==> Newest(s.deliveries, j).Some?)
    && DeliveryFields(row, Newest(s.deliveries, j)) == row
  }

  // ---------------------------------------------------------------------------------------------
  // Tables
  // ---------------------------------------------------------------------------------------------

  ghost predicate JobsOk(s: Tables) { forall j :: j in s.jobs ==> JobOk(s, j) }
  ghost predicate SlotsOk(s: Tables) { forall k :: k in s.slots ==> SlotOk(s, k) }
  ghost predicate LedgerOk(s: Tables) {
    && (forall r :: r in s.ledger ==> RunOk(s, r))
    && (forall j, g :: j in s.jobs && 1 <= g <= s.jobs[j].generation ==> Run(j, g) in s.ledger)
  }
  ghost predicate LeasesUnique(s: Tables) {
    forall r, q | r in s.ledger && q in s.ledger && |s.ledger[r]| > 0 && |s.ledger[q]| > 0 ::
      s.ledger[r][0].lease == s.ledger[q][0].lease ==> r == q
  }

  /** At most one attempt per session key, across all backends. */
  ghost predicate OneActivePerSession(s: Tables) {
    forall i, j | i in s.jobs && j in s.jobs && s.jobs[i].session == s.jobs[j].session ::
      Active(s.jobs[i].status) && Active(s.jobs[j].status) ==> i == j
  }
  ghost predicate OneHeldPerSession(s: Tables) {
    forall k, l | k in s.slots && l in s.slots && k.session == l.session ::
      s.slots[k].active.Some? && s.slots[l].active.Some? ==> k == l
  }
  ghost predicate NoneActiveUnderRecovery(s: Tables) {
    forall k, j | k in s.slots && j in s.jobs && s.jobs[j].session == k.session ::
      s.slots[k].recovery ==> !Active(s.jobs[j].status)
  }

  predicate DistinctMessages(deliveries: seq<Delivery>) {
    forall i, k :: 0 <= i < k < |deliveries| ==> deliveries[i].message != deliveries[k].message
  }

  ghost predicate DeliveriesOk(s: Tables) {
    && (forall j :: j in s.outbox ==> j in s.jobs && OutboxOk(s, j))
    && (forall d :: d in s.deliveries ==> d.job in s.outbox)
    && DistinctMessages(s.deliveries)
  }

  /** A cancel waits only for a job that has not arrived, and the waiting list is bounded. */
  ghost predicate PendingOk(s: Tables) {
    && s.pendingCancels.Keys !! s.jobs.Keys
    && |s.pendingCancels| <= PENDING_CANCEL_MAX_ROWS
  }

  ghost predicate AttemptsOk(s: Tables) {
    && JobsOk(s) && SlotsOk(s) && LedgerOk(s) && LeasesUnique(s)
    && OneActivePerSession(s) && OneHeldPerSession(s) && NoneActiveUnderRecovery(s)
  }

  ghost predicate Valid(s: Tables) {
    AttemptsOk(s) && DeliveriesOk(s) && PendingOk(s)
  }

  /** A lease no run has carried; leases are random UUIDs. */
  ghost predicate FreshLease(s: Tables, lease: Id) {
    forall r :: r in s.ledger && |s.ledger[r]| > 0 ==> s.ledger[r][0].lease != lease
  }

  ghost predicate FreshMessage(s: Tables, message: Id) {
    forall d :: d in s.deliveries ==> d.message != message
  }

  // ---------------------------------------------------------------------------------------------
  // One transaction on one job
  // ---------------------------------------------------------------------------------------------

  /** Only the rows of job `j` differ, apart from a quarantine that may have grown. */
  ghost predicate OnlyJob(s: Tables, t: Tables, j: Id) {
    && j in s.jobs
    && t.jobs.Keys == s.jobs.Keys
    && (forall i :: i in s.jobs && i != j ==> t.jobs[i] == s.jobs[i])
    && t.jobs[j].target == s.jobs[j].target && t.jobs[j].session == s.jobs[j].session
    && t.slots.Keys == s.slots.Keys
    && (forall k :: k in s.slots && k != SlotOf(s.jobs[j]) ==> t.slots[k] == s.slots[k])
    && s.quarantine <= t.quarantine
    && (forall i :: i != j ==> (i in t.outbox <==> i in s.outbox))
    && (forall i :: i != j && i in s.outbox ==> t.outbox[i] == s.outbox[i])
    && (forall r: Run :: r != Run(j, t.jobs[j].generation) ==> (r in t.ledger <==> r in s.ledger))
    && (forall r: Run :: r != Run(j, t.jobs[j].generation) && r in s.ledger ==> t.ledger[r] == s.ledger[r])
  }

  /** The run of `j` keeps its lease, or is a fresh run with a fresh lease. */
  ghost predicate RunExtended(s: Tables, t: Tables, j: Id)
    requires j in s.jobs && j in t.jobs
  {
    var r := Run(j, t.jobs[j].generation);
    && (t.jobs[j].generation > 0 ==> r in t.ledger && |t.ledger[r]| > 0 && Numbered(t.ledger[r]))
    && (t.jobs[j].generation == 0 ==> r !in t.ledger)
    && (if t.jobs[j].generation == s.jobs[j].generation then
          t.jobs[j].generation > 0 ==> r in s.ledger && |s.ledger[r]| > 0 && t.ledger[r][0].lease == s.ledger[r][0].lease
        else
          && t.jobs[j].generation == s.jobs[j].generation + 1
          && (s.jobs[j].generation > 0 ==> Closed(Events(s, Run(j, s.jobs[j].generation)), false, NotSent))
          && FreshLease(s, t.ledger[r][0].lease))
  }

  /** Exclusion is inherited by a job that was already active; a new attempt needs a free session. */
  ghost predicate MayBeActive(s: Tables, t: Tables, j: Id)
    requires j in s.jobs && j in t.jobs
  {
    Active(t.jobs[j].status) ==>
      Active(s.jobs[j].status) || (!SessionBusy(s, j) && s.jobs[j].session !in s.quarantine)
  }

  /** The slot of `j` still concerns `j`: it was held by `j` before, or the session was free. */
  ghost predicate MayHold(s: Tables, t: Tables, j: Id)
    requires j in s.jobs && j in t.jobs
  {
    var key := SlotOf(s.jobs[j]);
    key in s.slots && key in t.slots && t.slots[key] != s.slots[key] ==>
      && (t.slots[key].active.Some? ==> t.slots[key].active.value.job == j)
      && (t.slots[key].recovery ==> Active(s.jobs[j].status) && !Active(t.jobs[j].status))
      && (s.slots[key].active.Some? ==> s.slots[key].active.value.job == j && !s.slots[key].recovery)
      && (s.slots[key].active.None? && t.slots[key].active.Some? ==>
            !SessionBusy(s, j) && !Active(s.jobs[j].status) && s.jobs[j].session !in s.quarantine)
  }

  lemma OneJobKeepsAttempts(s: Tables, t: Tables, j: Id)
    requires AttemptsOk(s) && OnlyJob(s, t, j)
    requires JobOk(t, j)
    requires SlotOf(s.jobs[j]) in t.slots ==> SlotOk(t, SlotOf(s.jobs[j]))
    requires RunExtended(s, t, j) && MayBeActive(s, t, j) && MayHold(s, t, j)
    ensures AttemptsOk(t)
  {
    OneJobKeepsJobs(s, t, j);
    OneJobKeepsSlots(s, t, j);
    OneJobKeepsLedger(s, t, j);
    OneJobKeepsExclusion(s, t, j);
  }

  lemma OneJobKeepsJobs(s: Tables, t: Tables, j: Id)
    requires AttemptsOk(s) && OnlyJob(s, t, j) && JobOk(t, j) && MayHold(s, t, j)
    ensures JobsOk(t)
  {
    hide SlotsOk, LedgerOk, LeasesUnique, OneActivePerSession, OneHeldPerSession, NoneActiveUnderRecovery, LedgerAgrees, LeaseAgrees;
    forall i | i in t.jobs ensures JobOk(t, i) {
      if i != j {
        assert JobOk(s, i);
        assert Events(t, Run(i, t.jobs[i].generation)) == Events(s, Run(i, s.jobs[i].generation));
        if Active(s.jobs[i].status) && !s.jobs[i].target.Hermes? {
          assert Owns(s, i);
          assert SlotOf(s.jobs[i]) == SlotOf(s.jobs[j]) ==> t.slots[SlotOf(s.jobs[i])] == s.slots[SlotOf(s.jobs[i])];
        }
      }
    }
  }

  lemma OneJobKeepsSlots(s: Tables, t: Tables, j: Id)
    requires AttemptsOk(s) && OnlyJob(s, t, j)
    requires SlotOf(s.jobs[j]) in t.slots ==> SlotOk(t, SlotOf(s.jobs[j]))
    ensures SlotsOk(t)
  {
    hide JobsOk, LedgerOk, LeasesUnique, OneActivePerSession, OneHeldPerSession, NoneActiveUnderRecovery;
    forall k | k in t.slots ensures SlotOk(t, k) {
      if k != SlotOf(s.jobs[j]) {
        assert SlotOk(s, k);
      }
    }
  }

  lemma OneJobKeepsLedger(s: Tables, t: Tables, j: Id)
    requires AttemptsOk(s) && OnlyJob(s, t, j) && RunExtended(s, t, j)
    ensures LedgerOk(t) && LeasesUnique(t)
  {
    forall r | r in t.ledger ensures RunOk(t, r) {
      OneJobKeepsRun(s, t, j, r);
    }
    forall i, g | i in t.jobs && 1 <= g <= t.jobs[i].generation ensures Run(i, g) in t.ledger {
      if Run(i, g) != Run(j, t.jobs[j].generation) {
        assert Run(i, g) in s.ledger;
      }
    }
    forall r, q | r in t.ledger && q in t.ledger && t.ledger[r][0].lease == t.ledger[q][0].lease ensures r == q {
      OneJobKeepsLeases(s, t, j, r, q);
    }
  }

  lemma OneJobKeepsRun(s: Tables, t: Tables, j: Id, r: Run)
    requires AttemptsOk(s) && OnlyJob(s, t, j) && RunExtended(s, t, j) && r in t.ledger
    ensures RunOk(t, r)
  {
    if r != Run(j, t.jobs[j].generation) {
      assert r in s.ledger && t.ledger[r] == s.ledger[r];
      assert RunOk(s, r);
      if r.job == j && r.generation == s.jobs[j].generation {
        assert r == Run(j, s.jobs[j].generation);
        assert Closed(Events(s, r), false, NotSent);
      }
    }
  }

  lemma OneJobKeepsLeases(s: Tables, t: Tables, j: Id, r: Run, q: Run)
    requires AttemptsOk(s) && OnlyJob(s, t, j) && RunExtended(s, t, j) && r in t.ledger && q in t.ledger
    requires |t.ledger[r]| > 0 && |t.ledger[q]| > 0 && t.ledger[r][0].lease == t.ledger[q][0].lease
    ensures r == q
  {
  }

  lemma OneJobKeepsExclusion(s: Tables, t: Tables, j: Id)
    requires AttemptsOk(s) && OnlyJob(s, t, j) && MayBeActive(s, t, j) && MayHold(s, t, j)
    ensures OneActivePerSession(t) && OneHeldPerSession(t) && NoneActiveUnderRecovery(t)
  {
    OneJobKeepsHeld(s, t, j);
    OneJobKeepsRecovery(s, t, j);
  }

  lemma OneJobKeepsHeld(s: Tables, t: Tables, j: Id)
    requires AttemptsOk(s) && OnlyJob(s, t, j) && MayBeActive(s, t, j) && MayHold(s, t, j)
    ensures OneHeldPerSession(t)
  {
    hide JobsOk, LedgerOk, LeasesUnique;
    var key := SlotOf(s.jobs[j]);
    forall k, l | k in t.slots && l in t.slots && k.session == l.session &&
                  t.slots[k].active.Some? && t.slots[l].active.Some?
      ensures k == l
    {
      if k != l {
        var other := if k == key then l else k;
        assert t.slots[other] == s.slots[other];
        if key in s.slots && other.session == key.session && s.slots[key].active.None? && t.slots[key].active.Some? {
          NothingHeld(s, j, other);
        }
      }
    }
  }

  /** A session that is free for `j` has no held slot. */
  lemma NothingHeld(s: Tables, j: Id, k: SlotKey)
    requires AttemptsOk(s) && j in s.jobs && k in s.slots && k.session == s.jobs[j].session
    requires !SessionBusy(s, j) && !Active(s.jobs[j].status) && s.jobs[j].session !in s.quarantine
    ensures s.slots[k].active.None? && !s.slots[k].recovery
  {
    assert SlotOk(s, k);
  }

  lemma OneJobKeepsRecovery(s: Tables, t: Tables, j: Id)
    requires AttemptsOk(s) && OnlyJob(s, t, j) && MayBeActive(s, t, j) && MayHold(s, t, j)
    ensures NoneActiveUnderRecovery(t)
  {
    forall k, i | k in t.slots && i in t.jobs && t.slots[k].recovery && t.jobs[i].session == k.session
      ensures !Active(t.jobs[i].status)
    {
      assert SlotOk(s, k);
      if k == SlotOf(s.jobs[j]) && t.slots[k] != s.slots[k] {
        assert i != j ==> !Active(s.jobs[i].status);
      } else {
        assert s.slots[k].recovery && k.session in s.quarantine;
      }
    }
  }
}
