/** The guarantees of the job store, for every content a run can reach. */
module Laws {
  import opened Tables
  import opened Invariant
  import opened Preservation
  import opened Runs

  ghost predicate Reachable(s: Tables) {
    exists steps :: IsRun(EMPTY, steps) && s == After(EMPTY, steps)
  }

  lemma ReachableIsValid(s: Tables)
    requires Reachable(s)
    ensures Valid(s)
  {
    hide Valid;
    var steps :| IsRun(EMPTY, steps) && s == After(EMPTY, steps);
    EmptyValid();
    RunsKeepValid(EMPTY, steps);
  }

  // ---------------------------------------------------------------------------------------------
  // The attempt ledger
  // ---------------------------------------------------------------------------------------------

  /** At most one generation of a job was sent: every earlier one is recorded as reserved, then not sent. */
  lemma EarlierGenerationsWereNotSent(s: Tables, j: Id, g: nat)
    requires Valid(s) && j in s.jobs && 1 <= g < s.jobs[j].generation
    ensures Kinds(Events(s, Run(j, g))) == [Reserved, NotSent]
  {
    hide JobsOk, SlotsOk, LeasesUnique, OneActivePerSession, OneHeldPerSession, NoneActiveUnderRecovery, DeliveriesOk;
    assert RunOk(s, Run(j, g));
  }

  predicate Ending(kind: Kind) { !kind.Reserved? && !kind.Accepted? }

  /** What a complete record of one run looks like. */
  predicate WellFormedRun(target: Backend, kinds: seq<Kind>, accepted: bool, last: Option<Kind>) {
    && kinds == [Reserved] + (if accepted then [Accepted] else []) + (if last.Some? then [last.value] else [])
    && (last.Some? ==> Ending(last.value))
    && (last == Some(NotSent) ==> !accepted)
    && (!target.Hermes? && (last == Some(EndedSucceeded) || last == Some(EndedFailed)) ==> accepted)
    && (!target.Hermes? && last == Some(CancelledNotSent) ==> !accepted)
  }

  lemma ClosedKinds(events: seq<Event>, accepted: bool, last: Kind)
    requires Closed(events, accepted, last)
    ensures Kinds(events) == [Reserved] + (if accepted then [Accepted] else []) + [last]
  {
  }

  lemma OpenedKinds(events: seq<Event>, accepted: bool)
    requires Opened(events, accepted)
    ensures Kinds(events) == [Reserved] + (if accepted then [Accepted] else [])
  {
  }

  /** Which of the two flags the record of the current run shows, read off its length and last event. */
  function AcceptedFlag(events: seq<Event>): bool { |events| >= 2 && events[1].kind.Accepted? }
  function LastEnding(events: seq<Event>): Option<Kind> {
    if |events| > 0 && Ending(events[|events| - 1].kind) then Some(events[|events| - 1].kind) else None
  }

  /** reserved, accepted?, ending?; numbered 1..n without a repeated type; durable results follow acceptance. */
  lemma LedgerForm(s: Tables, r: Run)
    requires Valid(s) && r in s.ledger
    ensures r.job in s.jobs
    ensures var events := s.ledger[r];
            && WellFormedRun(s.jobs[r.job].target, Kinds(events), AcceptedFlag(events), LastEnding(events))
            && (forall i :: 0 <= i < |events| ==> events[i].sequence == i + 1)
            && (forall i, k :: 0 <= i < k < |events| ==> events[i].kind != events[k].kind)
  {
    hide AttemptsOk, DeliveriesOk;
    RunFacts(s, r);
    var events := s.ledger[r];
    if r.generation < s.jobs[r.job].generation {
      ClosedKinds(events, false, NotSent);
    } else {
      JobAt(s, r.job);
      CurrentForm(s.jobs[r.job], events);
    }
  }

  lemma RunFacts(s: Tables, r: Run)
    requires AttemptsOk(s) && r in s.ledger
    ensures RunOk(s, r)
  {
  }

  lemma CurrentForm(job: Job, events: seq<Event>)
    requires LedgerAgrees(job, events) && job.generation > 0 && |events| > 0
    ensures WellFormedRun(job.target, Kinds(events), AcceptedFlag(events), LastEnding(events))
    ensures forall i, k :: 0 <= i < k < |events| ==> events[i].kind != events[k].kind
  {
    var accepted := AcceptedFlag(events);
    if LastEnding(events).Some? {
      ClosedKinds(events, accepted, LastEnding(events).value);
    } else {
      OpenedKinds(events, accepted);
    }
  }

  /** The status the last event of a claimed job stands for. */
  function Replay(last: Kind, cancelRequested: bool, hasResult: bool): Status {
    match last
    case Reserved => if cancelRequested then Cancelling else Dispatching
    case Accepted => if cancelRequested then Cancelling else Running
    case NotSent => if cancelRequested then Cancelled else if hasResult then Rejected else Acked
    case CancelledNotSent => Cancelled
    case EndedSucceeded => Succeeded
    case EndedFailed => Failed
    case EndedCancelUnknown => CancelUnknown
    case EndedInterrupted => Interrupted
  }

  function LastKind(s: Tables, j: Id): Kind
    requires j in s.jobs && |Events(s, CurrentRun(s, j))| > 0
  {
    var events := Events(s, CurrentRun(s, j));
    events[|events| - 1].kind
  }

  lemma ClaimedHasEvents(s: Tables, j: Id)
    requires Valid(s) && j in s.jobs && s.jobs[j].generation > 0
    ensures |Events(s, CurrentRun(s, j))| > 0
  {
    hide AttemptsOk, DeliveriesOk;
    RunAt(s, j);
  }

  /** The last event of a claimed job; there always is one. */
  ghost function ClaimedKind(s: Tables, j: Id): Kind
    requires Valid(s) && j in s.jobs && s.jobs[j].generation > 0
  {
    ClaimedHasEvents(s, j);
    LastKind(s, j)
  }

  /** The ledger replays to the status of every claimed job. */
  lemma LedgerReplays(s: Tables, j: Id)
    requires Valid(s) && j in s.jobs && s.jobs[j].generation > 0
    ensures s.jobs[j].status == Replay(ClaimedKind(s, j), s.jobs[j].cancelRequested, j in s.outbox)
  {
    hide AttemptsOk, DeliveriesOk;
    RunAt(s, j);
    JobAt(s, j);
  }

  // A job that is claimed, returned unsent, and then rejected.
  const INGESTED := EMPTY.(jobs := map[1 := Job(Hermes, 7, 1, Received, None, None, 0, false)])
  const CLAIMED := EMPTY.(
    jobs := map[1 := Job(Hermes, 7, 1, Dispatching, Some(5), Some(9), 1, false)],
    ledger := map[Run(1, 1) := [Event(1, Reserved, 9)]])
  const RETURNED := EMPTY.(
    jobs := map[1 := Job(Hermes, 7, 1, Acked, None, None, 1, false)],
    ledger := map[Run(1, 1) := [Event(1, Reserved, 9), Event(2, NotSent, 9)]])
  const REJECTED := RETURNED.(
    jobs := map[1 := Job(Hermes, 7, 1, Rejected, None, None, 1, false)],
    outbox := map[1 := Outbox(Pending, 3, 0, None, None, None, None)])

  lemma IngestOne()
    ensures Next(EMPTY, DoIngest(1, 1, 7, Hermes, 0)) == INGESTED
  {
    assert Unexpired(map[], 0) == map[];
  }

  lemma ClaimOne()
    ensures Next(INGESTED, DoClaim(1, 5, 9)) == CLAIMED && Enabled(INGESTED, DoClaim(1, 5, 9))
  {
    assert !SessionBusy(INGESTED, 1);
    assert [] + [Event(1, Reserved, 9)] == [Event(1, Reserved, 9)];
  }

  lemma ReturnOne()
    ensures Next(CLAIMED, DoReset(1, 9)) == RETURNED
  {
    assert [Event(1, Reserved, 9)] + [Event(2, NotSent, 9)] == [Event(1, Reserved, 9), Event(2, NotSent, 9)];
  }

  lemma RejectOne()
    ensures Next(RETURNED, DoReject(1, 3)) == REJECTED
  {
  }

  const CLAIM_AND_RETURN := [DoIngest(1, 1, 7, Hermes, 0), DoClaim(1, 5, 9), DoReset(1, 9)]

  /** Without the result row, `not_sent` and no cancel leaves two statuses: this run ends Acked or Rejected. */
  lemma NotSentIsAmbiguous()
    ensures var acked, rejected := After(EMPTY, CLAIM_AND_RETURN), After(EMPTY, CLAIM_AND_RETURN + [DoReject(1, 3)]);
            && IsRun(EMPTY, CLAIM_AND_RETURN + [DoReject(1, 3)])
            && 1 in acked.jobs && 1 in rejected.jobs
            && |Events(acked, CurrentRun(acked, 1))| > 0 && |Events(rejected, CurrentRun(rejected, 1))| > 0
            && LastKind(acked, 1) == LastKind(rejected, 1)
            && acked.jobs[1].cancelRequested == rejected.jobs[1].cancelRequested
            && acked.jobs[1].status == Acked && rejected.jobs[1].status == Rejected
  {
    IngestOne(); ClaimOne(); ReturnOne(); RejectOne();
    var steps := CLAIM_AND_RETURN;
    assert Enabled(EMPTY, steps[0]) && Enabled(CLAIMED, steps[2]) && Enabled(RETURNED, DoReject(1, 3));
    hide Next, Enabled, After, IsRun;
    AfterFour(EMPTY, steps[0], steps[1], steps[2], DoReject(1, 3));
    assert steps == [steps[0], steps[1], steps[2]];
    assert steps + [DoReject(1, 3)] == [steps[0], steps[1], steps[2], DoReject(1, 3)];
  }

  lemma AfterOne(s: Tables, p: Step, rest: seq<Step>)
    ensures After(s, [p] + rest) == After(Next(s, p), rest)
    ensures IsRun(s, [p] + rest) <==> Enabled(s, p) && IsRun(Next(s, p), rest)
  {
    assert ([p] + rest)[1..] == rest;
  }

  lemma AfterFour(s: Tables, p: Step, q: Step, r: Step, x: Step)
    ensures After(s, [p, q, r]) == Next(Next(Next(s, p), q), r)
    ensures After(s, [p, q, r, x]) == Next(Next(Next(Next(s, p), q), r), x)
    ensures IsRun(s, [p, q, r, x]) <==>
              Enabled(s, p) && Enabled(Next(s, p), q) && Enabled(Next(Next(s, p), q), r) &&
              Enabled(Next(Next(Next(s, p), q), r), x)
  {
    hide Next, Enabled;
    var a, b, c := Next(s, p), Next(Next(s, p), q), Next(Next(Next(s, p), q), r);
    assert [p, q, r] == [p] + [q, r] && [q, r] == [q] + [r] && [r] == [r] + [];
    assert [p, q, r, x] == [p] + [q, r, x] && [q, r, x] == [q] + [r, x] && [r, x] == [r] + [x] && [x] == [x] + [];
    AfterOne(s, p, [q, r]); AfterOne(a, q, [r]); AfterOne(b, r, []);
    AfterOne(s, p, [q, r, x]); AfterOne(a, q, [r, x]); AfterOne(b, r, [x]); AfterOne(c, x, []);
  }

  /** Exactly there: two claimed jobs with the same last event and cancel flag have the same status unless
      that event is `not_sent` without a cancel and only one of them has a result row. */
  lemma LastEventDetermines(s: Tables, i: Id, t: Tables, j: Id)
    requires Valid(s) && i in s.jobs && s.jobs[i].generation > 0
    requires Valid(t) && j in t.jobs && t.jobs[j].generation > 0
    requires ClaimedKind(s, i) == ClaimedKind(t, j) && s.jobs[i].cancelRequested == t.jobs[j].cancelRequested
    ensures s.jobs[i].status == t.jobs[j].status <==>
            (ClaimedKind(s, i).NotSent? && !s.jobs[i].cancelRequested ==> (i in s.outbox <==> j in t.outbox))
  {
    hide Valid;
    LedgerReplays(s, i);
    LedgerReplays(t, j);
  }

  // ---------------------------------------------------------------------------------------------
  // Leases
  // ---------------------------------------------------------------------------------------------

  /** The messages a backend or connector can send under a lease. */
  ghost predicate UnderLease(step: Step, j: Id, lease: Id) {
    match step
    case DoReset(i, l) => i == j && l == lease
    case DoResetSlot(i, _, l, _) => i == j && l == lease
    case DoCancelUnsent(i, _, l, _) => i == j && l == lease
    case DoCancelNotStarted(i, l) => i == j && l == lease
    case DoRunning(i, _, l) => i == j && l == lease
    case DoBackendRunning(i, _, l, _, _) => i == j && l == lease
    case DoFinish(i, l, _, _) => i == j && l == lease
    case DoFinishBackend(i, _, l, _, _, _, _, _) => i == j && l == lease
    case DoCancelUnknown(i, l) => i == j && l == lease
    case DoLose(i, _, l, _, _, _) => i == j && l == lease
    case _ => false
  }

  /** A message under the lease of an earlier run changes nothing. */
  lemma StaleLeaseChangesNothing(s: Tables, past: Run, step: Step)
    requires Valid(s) && past in s.ledger && |s.ledger[past]| > 0
    requires past.job in s.jobs && past.generation < s.jobs[past.job].generation
    requires UnderLease(step, past.job, s.ledger[past][0].lease)
    ensures Next(s, step) == s
  {
    hide JobsOk, SlotsOk, OneActivePerSession, OneHeldPerSession, NoneActiveUnderRecovery, DeliveriesOk, LedgerOk;
    LeaseOfPastRun(s, past);
  }

  lemma LeaseOfPastRun(s: Tables, past: Run)
    requires Valid(s) && past in s.ledger && |s.ledger[past]| > 0
    requires past.job in s.jobs && past.generation < s.jobs[past.job].generation
    ensures s.jobs[past.job].lease != Some(s.ledger[past][0].lease)
  {
    hide JobsOk, SlotsOk, OneActivePerSession, OneHeldPerSession, NoneActiveUnderRecovery, DeliveriesOk;
    JobAt(s, past.job);
    RunAt(s, past.job);
  }

  // ---------------------------------------------------------------------------------------------
  // Sessions
  // ---------------------------------------------------------------------------------------------

  /** In every reachable state, per session key: at most one job is being executed across all backends, at most
      one slot is held; a slot without recovery names one active job of its own backend, session, lease and
      generation; a slot with recovery names a job of unknown outcome and its session is quarantined; and each
      active job of a durable backend owns such a slot. */
  lemma SessionsAgree(s: Tables)
    requires Reachable(s)
    ensures forall i, j | i in s.jobs && j in s.jobs && s.jobs[i].session == s.jobs[j].session ::
              Active(s.jobs[i].status) && Active(s.jobs[j].status) ==> i == j
    ensures forall k, l | k in s.slots && l in s.slots && k.session == l.session ::
              s.slots[k].active.Some? && s.slots[l].active.Some? ==> k == l
    ensures forall k :: k in s.slots && s.slots[k].active.Some? ==>
              && s.slots[k].active.value.job in s.jobs
              && var job := s.jobs[s.slots[k].active.value.job];
              && SlotOf(job) == k && job.lease == Some(s.slots[k].active.value.lease)
              && job.generation == s.slots[k].active.value.generation
              && (if s.slots[k].recovery then Unknown(job.status) && k.session in s.quarantine else Active(job.status))
    ensures forall j :: j in s.jobs && Active(s.jobs[j].status) && !s.jobs[j].target.Hermes? ==>
              && SlotOf(s.jobs[j]) in s.slots && !s.slots[SlotOf(s.jobs[j])].recovery
              && s.slots[SlotOf(s.jobs[j])].active.Some? && s.slots[SlotOf(s.jobs[j])].active.value.job == j
  {
    ReachableIsValid(s);
    hide LedgerOk, LeasesUnique, DeliveriesOk;
    forall j | j in s.jobs && Active(s.jobs[j].status) && !s.jobs[j].target.Hermes? ensures Owns(s, j) {
      assert JobOk(s, j);
    }
    forall k | k in s.slots ensures SlotOk(s, k) {}
  }

  /** A claim happens only on a session that is neither busy nor quarantined, and holds no slot. */
  lemma ClaimNeedsFreeSession(s: Tables, step: Step, j: Id)
    requires Valid(s) && j in s.jobs && j in Next(s, step).jobs
    requires Next(s, step).jobs[j].generation != s.jobs[j].generation
    ensures s.jobs[j].session !in s.quarantine && !SessionActive(s, s.jobs[j].session)
    ensures forall k :: k in s.slots && k.session == s.jobs[j].session ==> s.slots[k].active.None? && !s.slots[k].recovery
  {
    hide AttemptsOk, DeliveriesOk, Next;
    StepAccounts(s, step);
    forall k | k in s.slots && k.session == s.jobs[j].session
      ensures s.slots[k].active.None? && !s.slots[k].recovery
    {
      NothingHeld(s, j, k);
    }
  }

  /** An attempt whose outcome becomes unknown quarantines its session in the same transaction. */
  lemma UnknownOutcomeIsQuarantined(s: Tables, step: Step, j: Id)
    requires j in s.jobs && j in Next(s, step).jobs
    requires Unknown(Next(s, step).jobs[j].status) && !Unknown(s.jobs[j].status)
    ensures s.jobs[j].session in Next(s, step).quarantine
  {
    hide Next;
    StepAccounts(s, step);
  }

  /** Quarantine ends only by a release, and no release happens while the session runs something. */
  lemma OnlyReleaseEndsQuarantine(s: Tables, step: Step, session: Id)
    requires Valid(s) && session in s.quarantine && session !in Next(s, step).quarantine
    ensures Releases(step, session) && !SessionActive(s, session)
  {
    hide AttemptsOk, DeliveriesOk;
    assert Releases(step, session) by {
      hide Next;
      StepAccounts(s, step);
    }
    if step.DoReleaseSlot? && step.key in s.slots && s.slots[step.key].recovery { RecoverySlot(s, step.key); }
  }

  /** The reasons for which the release transaction can decline once nothing runs on the session. */
  predicate Releasable(s: Tables, k: SlotKey) {
    && k in s.slots && s.slots[k].active.Some?
    && var attempt := s.slots[k].active.value;
    && attempt.job in s.jobs
    && var job := s.jobs[attempt.job];
    && SlotOf(job) == k && job.lease == Some(attempt.lease) && job.generation == attempt.generation && Terminal(job.status)
  }

  lemma ReleaseRefusalsUnreachable(s: Tables, session: Id)
    requires Valid(s) && !SessionActive(s, session)
    ensures forall k :: k in RecoverySlots(s, session) ==> Releasable(s, k)
    ensures forall k :: k in SessionSlots(s, session) && !s.slots[k].recovery ==> s.slots[k].active.None?
    ensures RecoverySlots(s, session) != {} ==> session in s.quarantine
  {
    hide JobsOk, LedgerOk, LeasesUnique, OneActivePerSession, OneHeldPerSession, NoneActiveUnderRecovery, DeliveriesOk;
    forall k | k in SessionSlots(s, session)
      ensures s.slots[k].recovery ==> Releasable(s, k)
      ensures !s.slots[k].recovery ==> s.slots[k].active.None?
    {
      assert SlotOk(s, k);
    }
  }

  /** Release succeeds exactly on quarantined sessions without an active job, and then leaves nothing behind. */
  lemma ReleaseIsExact(s: Tables, session: Id)
    requires Valid(s)
    ensures var (t, r) := ReleaseSessionRecovery(s, session);
            && (r.released <==> session in s.quarantine && !SessionActive(s, session))
            && (r.released ==> session !in t.quarantine && RecoverySlots(t, session) == {} &&
                               (forall k :: k in SessionSlots(t, session) ==> t.slots[k].active.None?) &&
                               t.jobs == s.jobs && t.ledger == s.ledger && t.outbox == s.outbox)
            && (!r.released ==> t == s)
  {
    hide AttemptsOk, DeliveriesOk;
    if !SessionActive(s, session) { ReleaseRefusalsUnreachable(s, session); }
  }

  // ---------------------------------------------------------------------------------------------
  // Cancel or result
  // ---------------------------------------------------------------------------------------------

  lemma CancelOrResult(s: Tables, j: Id)
    requires Valid(s) && j in s.jobs
    ensures s.jobs[j].cancelRequested <==> CancelWon(s.jobs[j].status)
    ensures j in s.outbox <==> HasResult(s.jobs[j].status)
    ensures !(s.jobs[j].cancelRequested && j in s.outbox)
  {
    hide AttemptsOk, DeliveriesOk;
    JobAt(s, j);
  }

  /** Over a whole run: once cancelled, never a result; once a result is queued, it stays and no cancel wins. */
  lemma CancelOrResultForever(s: Tables, steps: seq<Step>, j: Id)
    requires Valid(s) && IsRun(s, steps) && j in s.jobs
    ensures var t := After(s, steps);
            && j in t.jobs
            && (s.jobs[j].cancelRequested ==> j !in t.outbox)
            && (j in s.outbox ==> j in t.outbox && t.outbox[j].result == s.outbox[j].result &&
                                  !t.jobs[j].cancelRequested && t.jobs[j].status == s.jobs[j].status)
            && (Terminal(s.jobs[j].status) ==> t.jobs[j] == s.jobs[j])
  {
    hide Valid;
    RunsKeepValid(s, steps);
    RunsEvolve(s, steps);
    CancelOrResult(s, j);
    CancelOrResult(After(s, steps), j);
  }

  function IngestAcked(s: Tables, j: Id, payload: Id, session: Id, target: Backend, now: Time): Tables {
    MarkAcked(Ingest(s, j, payload, session, target, now), j)
  }

  /** The waiting list has room for an intent that is not already on it. */
  predicate HasRoom(s: Tables, j: Id, now: Time) {
    j in Unexpired(s.pendingCancels, now) || |Unexpired(s.pendingCancels, now)| < PENDING_CANCEL_MAX_ROWS
  }

  /** A cancel that arrives first meets the same state as one that arrives second, exactly when the
      waiting list had room and the job came before the intent expired. */
  lemma CancelCommutesWithIngest(s: Tables, j: Id, payload: Id, session: Id, target: Backend, first: Time, second: Time)
    requires PendingOk(s) && j !in s.jobs && first <= second
    ensures IngestAcked(RequestCancel(s, j, first).0, j, payload, session, target, second)
              == RequestCancel(IngestAcked(s, j, payload, session, target, first), j, second).0
            <==> HasRoom(s, j, first) && second - first <= PENDING_CANCEL_TTL_MS
  {
    CancelAfterIngest(s, j, payload, session, target, first, second);
    IngestAfterCancel(s, j, payload, session, target, first, second);
    hide RequestCancel, IngestAcked;
    var jobs := s.jobs[j := Job(target, session, payload, Cancelled, None, None, 0, true)];
    assert jobs[j].status == Cancelled;
  }

  lemma CancelAfterIngest(s: Tables, j: Id, payload: Id, session: Id, target: Backend, first: Time, second: Time)
    requires j !in s.jobs && first <= second
    ensures RequestCancel(IngestAcked(s, j, payload, session, target, first), j, second).0
              == s.(jobs := s.jobs[j := Job(target, session, payload, Cancelled, None, None, 0, true)],
                    pendingCancels := Unexpired(s.pendingCancels, second) - {j})
  {
    var ingested := Ingest(s, j, payload, session, target, first);
    assert Unexpired(ingested.pendingCancels, second) - {j} == Unexpired(s.pendingCancels, second) - {j};
    var cancelled := Job(target, session, payload, Cancelled, None, None, 0, true);
    var acked := MarkAcked(ingested, j);
    assert CancelledJob(acked.jobs[j]) == cancelled;
    assert acked.jobs[j := cancelled] == s.jobs[j := cancelled];
  }

  lemma IngestAfterCancel(s: Tables, j: Id, payload: Id, session: Id, target: Backend, first: Time, second: Time)
    requires j !in s.jobs && first <= second
    ensures var t := IngestAcked(RequestCancel(s, j, first).0, j, payload, session, target, second);
            if HasRoom(s, j, first) && second - first <= PENDING_CANCEL_TTL_MS
            then t == s.(jobs := s.jobs[j := Job(target, session, payload, Cancelled, None, None, 0, true)],
                         pendingCancels := Unexpired(s.pendingCancels, second) - {j})
            else j in t.jobs && t.jobs[j].status == Acked
  {
    var cancelled := RequestCancel(s, j, first).0;
    if HasRoom(s, j, first) {
      assert cancelled == s.(pendingCancels := Unexpired(s.pendingCancels, first)[j := first]);
      LaterPrune(s.pendingCancels, j, first, second);
    } else {
      assert cancelled == s;
      assert j !in Unexpired(s.pendingCancels, second);
    }
    IngestOfAbsent(cancelled, j, payload, session, target, second);
    hide RequestCancel, IngestAcked, Unexpired;
  }

  lemma LaterPrune(pending: map<Id, Time>, j: Id, first: Time, second: Time)
    requires first <= second
    ensures var refreshed := Unexpired(Unexpired(pending, first)[j := first], second);
            && (j in refreshed <==> second - first <= PENDING_CANCEL_TTL_MS)
            && refreshed - {j} == Unexpired(pending, second) - {j}
  {
  }

  lemma IngestOfAbsent(s: Tables, j: Id, payload: Id, session: Id, target: Backend, now: Time)
    requires j !in s.jobs
    ensures IngestAcked(s, j, payload, session, target, now) == s.(
              jobs := s.jobs[j := if j in Unexpired(s.pendingCancels, now)
                                  then Job(target, session, payload, Cancelled, None, None, 0, true)
                                  else Job(target, session, payload, Acked, None, None, 0, false)],
              pendingCancels := Unexpired(s.pendingCancels, now) - {j})
  {
    var t := Ingest(s, j, payload, session, target, now);
    if j !in Unexpired(s.pendingCancels, now) {
      assert t.jobs[j := t.jobs[j].(status := Acked)] == s.jobs[j := t.jobs[j].(status := Acked)];
    }
  }

  // ---------------------------------------------------------------------------------------------
  // Delivery
  // ---------------------------------------------------------------------------------------------

  lemma StartedForm(s: Tables, j: Id, message: Id, retry: bool, now: Time)
    requires CanDeliver(s, j, retry, now)
    ensures StartResultDelivery(s, j, message, retry, now)
              == s.(outbox := s.outbox[j := StartedRow(s.outbox[j], message, retry, now)],
                    deliveries := s.deliveries + [Delivery(message, j, now)])
  {
  }

  lemma RolledBackForm(s: Tables, j: Id, message: Id, retry: bool)
    requires j in s.outbox && s.outbox[j].status.Delivering? && s.outbox[j].lastMessage == Some(message)
    ensures var remaining := Without(s.deliveries, j, message);
            ResetAfterSendFailure(s, j, message, retry)
              == s.(outbox := s.outbox[j := RolledBackRow(s.outbox[j], Newest(remaining, j), retry)], deliveries := remaining)
  {
    hide Without, Newest;
  }

  lemma RowRoundTrip(row: Outbox, newest: Option<Delivery>, message: Id, retry: bool, now: Time)
    requires DeliveryFields(row, newest) == row && (retry ==> row.status.Delivering?)
    ensures RolledBackRow(StartedRow(row, message, retry, now), newest, retry)
              == row.(status := Pending, nextAttempt := None,
                      retryCount := if row.status.AckFailed? then 0 else row.retryCount)
  {
  }

  lemma UnsentRow(s: Tables, j: Id, message: Id, retry: bool, now: Time)
    requires CanDeliver(s, j, retry, now) && DeliveryFields(s.outbox[j], Newest(s.deliveries, j)) == s.outbox[j]
    requires Without(s.deliveries + [Delivery(message, j, now)], j, message) == s.deliveries
    ensures var t := ResetAfterSendFailure(StartResultDelivery(s, j, message, retry, now), j, message, retry);
            && t == s.(outbox := s.outbox[j := t.outbox[j]])
            && t.outbox[j] == s.outbox[j].(status := Pending, nextAttempt := None,
                                           retryCount := if s.outbox[j].status.AckFailed? then 0 else s.outbox[j].retryCount)
  {
    hide Newest, Without, StartResultDelivery, ResetAfterSendFailure;
    StartedForm(s, j, message, retry, now);
    var started := StartedRow(s.outbox[j], message, retry, now);
    RolledBackForm(StartResultDelivery(s, j, message, retry, now), j, message, retry);
    RowRoundTrip(s.outbox[j], Newest(s.deliveries, j), message, retry, now);
    hide StartedRow, RolledBackRow;
    assert s.outbox[j := started][j := RolledBackRow(started, Newest(s.deliveries, j), retry)]
             == s.outbox[j := RolledBackRow(started, Newest(s.deliveries, j), retry)];
  }

  /** A send that failed leaves no trace: the deliveries and both fields that describe the newest are restored. */
  lemma SendFailureRestores(s: Tables, j: Id, message: Id, retry: bool, now: Time)
    requires Valid(s) && FreshMessage(s, message) && CanDeliver(s, j, retry, now)
    ensures var t := ResetAfterSendFailure(StartResultDelivery(s, j, message, retry, now), j, message, retry);
            && t == s.(outbox := s.outbox[j := t.outbox[j]])
            && t.outbox[j] == s.outbox[j].(status := Pending, nextAttempt := None,
                                           retryCount := if s.outbox[j].status.AckFailed? then 0 else s.outbox[j].retryCount)
  {
    hide AttemptsOk;
    RowAt(s, j);
    WithoutFresh(s.deliveries, j, message, now);
    hide Valid, Newest, Without, StartResultDelivery, ResetAfterSendFailure, DeliveriesOk, OutboxOk;
    UnsentRow(s, j, message, retry, now);
  }

  lemma {:induction false} WithoutFresh(deliveries: seq<Delivery>, j: Id, message: Id, now: Time)
    requires forall d :: d in deliveries ==> d.message != message
    ensures Without(deliveries + [Delivery(message, j, now)], j, message) == deliveries
    ensures Without(deliveries, j, message) == deliveries
  {
    assert (deliveries + [Delivery(message, j, now)])[..|deliveries|] == deliveries;
    if deliveries != [] {
      WithoutFresh(deliveries[..|deliveries| - 1], j, message, now);
      assert deliveries == deliveries[..|deliveries| - 1] + [deliveries[|deliveries| - 1]];
    }
  }

  /** A delivered result left the process in an attempt that was not rolled back, and stays delivered. */
  lemma DeliveredWasSent(s: Tables, steps: seq<Step>, j: Id)
    requires Valid(s) && IsRun(s, steps) && j in s.outbox && s.outbox[j].status.Delivered?
    ensures WasSent(s, j)
    ensures j in After(s, steps).outbox && After(s, steps).outbox[j] == s.outbox[j]
  {
    hide AttemptsOk;
    RowAt(s, j);
    RunsEvolve(s, steps);
  }

  /** `deliveries[k]` is the newest attempt of its job: no other is later, and of equally late ones it came last. */
  predicate IsNewestAt(deliveries: seq<Delivery>, k: nat)
    requires k < |deliveries|
  {
    forall i :: 0 <= i < |deliveries| && deliveries[i].job == deliveries[k].job ==>
      deliveries[i].createdAt <= deliveries[k].createdAt && (deliveries[i].createdAt == deliveries[k].createdAt ==> i <= k)
  }

  /** The selected attempt is the newest, by time and then by insertion. */
  lemma {:induction false} NewestIsLatest(deliveries: seq<Delivery>, j: Id) returns (k: nat)
    requires Newest(deliveries, j).Some?
    ensures k < |deliveries| && deliveries[k] == Newest(deliveries, j).value && IsNewestAt(deliveries, k)
  {
    var n := |deliveries| - 1;
    var last, init := deliveries[n], deliveries[..n];
    assert deliveries == init + [last];
    k := n;
    if Newest(init, j).Some? {
      var earlier := NewestIsLatest(init, j);
      assert forall i :: 0 <= i < n ==> deliveries[i] == init[i];
      if !(last.job == j && init[earlier].createdAt <= last.createdAt) { k := earlier; }
    } else {
      forall i | 0 <= i < n ensures deliveries[i].job != j { assert deliveries[i] == init[i] && init[i] in init; }
    }
  }

  /** last_message_id and delivered_at describe the newest attempt that was not rolled back: none of the job is
      later, the last inserted of equally late ones wins; and they are empty only if none remains. */
  lemma LastMessageIsNewest(s: Tables, j: Id) returns (k: nat)
    requires Valid(s) && j in s.outbox
    ensures WasSent(s, j) ==>
              && k < |s.deliveries| && s.deliveries[k].job == j && IsNewestAt(s.deliveries, k)
              && s.outbox[j].lastMessage == Some(s.deliveries[k].message)
              && s.outbox[j].deliveredAt == Some(s.deliveries[k].createdAt)
    ensures !WasSent(s, j) ==> s.outbox[j].lastMessage.None? && s.outbox[j].deliveredAt.None?
  {
    hide AttemptsOk;
    RowAt(s, j);
    k := 0;
    if WasSent(s, j) { k := NewestIsLatest(s.deliveries, j); }
  }
}
