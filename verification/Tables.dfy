/** The rows of the durable job store and the meaning of each of its transactions.

    `Tables` is the content of the database for one scope key.  Every transaction of the store is
    given here as a function from tables to tables; the class in JobStore.dfy performs the same
    transactions statement by statement and is proved to compute these functions. */
module Tables {

  /** Identifiers, session keys, leases and texts: only their equality matters. */
  type Id = nat
  type Time = int

  datatype Option<+T> = None | Some(value: T)

  datatype Backend = Hermes | Codex | Claude

  datatype Status =
    | Received | Acked
    | Dispatching | Running | Cancelling
    | Succeeded | Cancelled | CancelUnknown | Interrupted | Failed | Rejected

  predicate Undispatched(status: Status) { status.Received? || status.Acked? }

  predicate Active(status: Status) { status.Dispatching? || status.Running? || status.Cancelling? }

  predicate Terminal(status: Status) { !Undispatched(status) && !Active(status) }

  datatype Job = Job(
    target: Backend, session: Id, payload: Id, status: Status,
    connector: Option<Id>, lease: Option<Id>, generation: nat, cancelRequested: bool)

  datatype Attempt = Attempt(job: Id, lease: Id, generation: nat, turn: Option<Id>)

  /** A backend session row: the slot one attempt at a time may occupy. */
  datatype SlotKey = SlotKey(backend: Backend, session: Id)
  datatype Slot = Slot(thread: Option<Id>, active: Option<Attempt>, recovery: bool)

  datatype OutboxStatus = Pending | Delivering | Delivered | AckFailed
  datatype Outbox = Outbox(
    status: OutboxStatus, result: Id, retryCount: nat, lastMessage: Option<Id>,
    nextAttempt: Option<Time>, deliveredAt: Option<Time>, ackedAt: Option<Time>)

  datatype Delivery = Delivery(message: Id, job: Id, createdAt: Time)

  /** The append-only attempt ledger, keyed by job and generation. */
  datatype Kind =
    | Reserved | Accepted | NotSent | CancelledNotSent
    | EndedSucceeded | EndedFailed | EndedCancelUnknown | EndedInterrupted
  datatype Event = Event(sequence: nat, kind: Kind, lease: Id)
  datatype Run = Run(job: Id, generation: nat)

  datatype Tables = Tables(
    jobs: map<Id, Job>,
    slots: map<SlotKey, Slot>,
    quarantine: set<Id>,
    pendingCancels: map<Id, Time>,
    outbox: map<Id, Outbox>,
    deliveries: seq<Delivery>,
    ledger: map<Run, seq<Event>>)

  const EMPTY := Tables(map[], map[], {}, map[], map[], [], map[])
  const PENDING_CANCEL_TTL_MS: int := 24 * 60 * 60 * 1000
  const PENDING_CANCEL_MAX_ROWS: nat := 4096

  /** A row of the ledger for one run; a run without events has none. */
  function Events(s: Tables, run: Run): seq<Event> {
    if run in s.ledger then s.ledger[run] else []
  }

  function Kinds(events: seq<Event>): seq<Kind> {
    seq(|events|, i requires 0 <= i < |events| => events[i].kind)
  }

  function CurrentRun(s: Tables, j: Id): Run
    requires j in s.jobs
  {
    Run(j, s.jobs[j].generation)
  }

  function SlotOf(job: Job): SlotKey { SlotKey(job.target, job.session) }

  // ---------------------------------------------------------------------------------------------
  // Building blocks of the transactions
  // ---------------------------------------------------------------------------------------------

  function Append(s: Tables, j: Id, kind: Kind): Tables
    requires j in s.jobs && s.jobs[j].lease.Some?
  {
    var run := CurrentRun(s, j);
    var events := Events(s, run);
    s.(ledger := s.ledger[run := events + [Event(|events| + 1, kind, s.jobs[j].lease.value)]])
  }

  function WithStatus(s: Tables, j: Id, status: Status): Tables
    requires j in s.jobs
  {
    s.(jobs := s.jobs[j := s.jobs[j].(status := status)])
  }

  /** Moves the job to `status` and records why. */
  function Settle(s: Tables, j: Id, status: Status, kind: Kind): Tables
    requires j in s.jobs && s.jobs[j].lease.Some?
  {
    Append(WithStatus(s, j, status), j, kind)
  }

  function WithAttempt(s: Tables, key: SlotKey, attempt: Option<Attempt>): Tables
    requires key in s.slots
  {
    s.(slots := s.slots[key := s.slots[key].(active := attempt)])
  }

  function WithQuarantine(s: Tables, session: Id): Tables {
    s.(quarantine := s.quarantine + {session})
  }

  /** A result is queued once; a second insert for the same job changes nothing. */
  function WithResult(s: Tables, j: Id, result: Id): Tables {
    if j in s.outbox then s
    else s.(outbox := s.outbox[j := Outbox(Pending, result, 0, None, None, None, None)])
  }

  /** The row that owns the attempt a backend names: same job, lease and generation, no recovery. */
  predicate Holds(s: Tables, j: Id, backend: Backend, lease: Id, generation: nat) {
    && j in s.jobs
    && var job := s.jobs[j];
    && job.target == backend && job.lease == Some(lease) && job.generation == generation
    && var key := SlotKey(backend, job.session);
    && key in s.slots
    && !s.slots[key].recovery
    && s.slots[key].active.Some?
    && var attempt := s.slots[key].active.value;
    && attempt.job == j && attempt.lease == lease && attempt.generation == generation
  }

  function TurnOf(s: Tables, j: Id): Option<Id>
    requires j in s.jobs && SlotOf(s.jobs[j]) in s.slots && s.slots[SlotOf(s.jobs[j])].active.Some?
  {
    s.slots[SlotOf(s.jobs[j])].active.value.turn
  }

  // ---------------------------------------------------------------------------------------------
  // Intake
  // ---------------------------------------------------------------------------------------------

  function Unexpired(pending: map<Id, Time>, now: Time): map<Id, Time> {
    map j | j in pending && pending[j] >= now - PENDING_CANCEL_TTL_MS :: pending[j]
  }

  /** What a cancel does to a job, whatever its status. */
  function CancelledJob(job: Job): Job {
    if Undispatched(job.status) then job.(status := Cancelled, cancelRequested := true)
    else if job.status.Dispatching? || job.status.Running? then job.(status := Cancelling, cancelRequested := true)
    else job
  }

  function Ingest(s: Tables, j: Id, payload: Id, session: Id, target: Backend, now: Time): Tables {
    var pending := Unexpired(s.pendingCancels, now);
    var job := if j in s.jobs then s.jobs[j]
               else Job(target, session, payload, Received, None, None, 0, false);
    s.(jobs := s.jobs[j := if j in pending then CancelledJob(job) else job],
       pendingCancels := pending - {j})
  }

  function MarkAcked(s: Tables, j: Id): Tables {
    if j in s.jobs && s.jobs[j].status.Received? then WithStatus(s, j, Acked) else s
  }

  function Reject(s: Tables, j: Id, result: Id): Tables {
    if j in s.jobs && Undispatched(s.jobs[j].status)
    then WithResult(WithStatus(s, j, Rejected), j, result)
    else s
  }

  datatype CancelOutcome = CancelStored | CancelCapacityExceeded

  function RequestCancel(s: Tables, j: Id, now: Time): (r: (Tables, CancelOutcome)) {
    var pending := Unexpired(s.pendingCancels, now);
    if j in s.jobs then
      (s.(jobs := s.jobs[j := CancelledJob(s.jobs[j])], pendingCancels := pending - {j}), CancelStored)
    else if j !in pending && |pending| >= PENDING_CANCEL_MAX_ROWS then
      (s, CancelCapacityExceeded)
    else
      (s.(pendingCancels := pending[j := now]), CancelStored)
  }

  // ---------------------------------------------------------------------------------------------
  // Claiming an attempt, and proving that it was never sent
  // ---------------------------------------------------------------------------------------------

  ghost predicate SessionBusy(s: Tables, j: Id)
    requires j in s.jobs
  {
    exists i :: i in s.jobs && i != j && s.jobs[i].session == s.jobs[j].session && Active(s.jobs[i].status)
  }

  ghost predicate CanClaim(s: Tables, j: Id, target: Backend) {
    && j in s.jobs
    && s.jobs[j].target == target
    && Undispatched(s.jobs[j].status)
    && !s.jobs[j].cancelRequested
    && !SessionBusy(s, j)
    && s.jobs[j].session !in s.quarantine
  }

  predicate SlotIdle(s: Tables, key: SlotKey) {
    key in s.slots && s.slots[key].thread.Some? && s.slots[key].active.None? && !s.slots[key].recovery
  }

  function Reserve(s: Tables, j: Id, connector: Id, lease: Id): Tables
    requires j in s.jobs
  {
    var job := s.jobs[j].(status := Dispatching, connector := Some(connector), lease := Some(lease),
                          generation := s.jobs[j].generation + 1);
    Append(s.(jobs := s.jobs[j := job]), j, Reserved)
  }

  ghost function ClaimForDispatch(s: Tables, j: Id, connector: Id, lease: Id): Tables {
    if CanClaim(s, j, Hermes) then Reserve(s, j, connector, lease) else s
  }

  ghost predicate CanClaimSlot(s: Tables, j: Id, backend: Backend) {
    CanClaim(s, j, backend) && SlotIdle(s, SlotKey(backend, s.jobs[j].session))
  }

  ghost function ClaimForBackendDispatch(s: Tables, j: Id, backend: Backend, connector: Id, lease: Id): Tables {
    if CanClaimSlot(s, j, backend) then
      WithAttempt(Reserve(s, j, connector, lease), SlotKey(backend, s.jobs[j].session),
                  Some(Attempt(j, lease, s.jobs[j].generation + 1, None)))
    else s
  }

  function ReturnUnsent(s: Tables, j: Id): Tables
    requires j in s.jobs && s.jobs[j].lease.Some?
  {
    var t := Settle(s, j, Acked, NotSent);
    t.(jobs := t.jobs[j := t.jobs[j].(connector := None, lease := None)])
  }

  function ResetUnsentDispatch(s: Tables, j: Id, lease: Id): Tables {
    if j in s.jobs && s.jobs[j].target == Hermes && s.jobs[j].status.Dispatching? && s.jobs[j].lease == Some(lease)
    then ReturnUnsent(s, j)
    else s
  }

  predicate CanResetSlot(s: Tables, j: Id, backend: Backend, lease: Id, generation: nat) {
    Holds(s, j, backend, lease, generation) && s.jobs[j].status.Dispatching? && TurnOf(s, j).None?
  }

  function ResetUnsentBackendDispatch(s: Tables, j: Id, backend: Backend, lease: Id, generation: nat): Tables {
    if CanResetSlot(s, j, backend, lease, generation)
    then WithAttempt(ReturnUnsent(s, j), SlotOf(s.jobs[j]), None)
    else s
  }

  predicate CanCancelUnsent(s: Tables, j: Id, backend: Backend, lease: Id, generation: nat) {
    Holds(s, j, backend, lease, generation) && s.jobs[j].status.Cancelling? && TurnOf(s, j).None?
  }

  function FinishUnsentBackendCancellation(s: Tables, j: Id, backend: Backend, lease: Id, generation: nat): Tables {
    if CanCancelUnsent(s, j, backend, lease, generation)
    then WithAttempt(Settle(s, j, Cancelled, CancelledNotSent), SlotOf(s.jobs[j]), None)
    else s
  }

  predicate CanCancelHermes(s: Tables, j: Id, lease: Id) {
    j in s.jobs && s.jobs[j].target == Hermes && s.jobs[j].status.Cancelling? && s.jobs[j].lease == Some(lease)
  }

  function FinishHermesCancellationNotStarted(s: Tables, j: Id, lease: Id): Tables {
    if CanCancelHermes(s, j, lease) then Settle(s, j, Cancelled, CancelledNotSent) else s
  }

  // ---------------------------------------------------------------------------------------------
  // Acceptance and results
  // ---------------------------------------------------------------------------------------------

  function MarkRunning(s: Tables, j: Id, connector: Id, lease: Id): Tables {
    if j in s.jobs && s.jobs[j].target == Hermes && s.jobs[j].status.Dispatching? &&
       s.jobs[j].lease == Some(lease) && !s.jobs[j].cancelRequested
    then
      var t := Settle(s, j, Running, Accepted);
      t.(jobs := t.jobs[j := t.jobs[j].(connector := Some(connector))])
    else s
  }

  function BindTurn(s: Tables, j: Id, status: Status, turn: Id): Tables
    requires j in s.jobs && s.jobs[j].lease.Some? && SlotOf(s.jobs[j]) in s.slots
    requires s.slots[SlotOf(s.jobs[j])].active.Some?
  {
    WithAttempt(Settle(s, j, status, Accepted), SlotOf(s.jobs[j]),
                Some(s.slots[SlotOf(s.jobs[j])].active.value.(turn := Some(turn))))
  }

  /** The second component tells whether the attempt is (now or already) bound to `turn`. */
  function MarkBackendRunning(s: Tables, j: Id, backend: Backend, lease: Id, generation: nat, turn: Id): (r: (Tables, bool)) {
    if !Holds(s, j, backend, lease, generation) || !Active(s.jobs[j].status) then (s, false)
    else if TurnOf(s, j).Some? then (s, TurnOf(s, j).value == turn && !s.jobs[j].status.Dispatching?)
    else if s.jobs[j].status.Dispatching? then (BindTurn(s, j, Running, turn), true)
    else if s.jobs[j].status.Cancelling? then (BindTurn(s, j, Cancelling, turn), true)
    else (s, false)
  }

  predicate CanFinish(s: Tables, j: Id, lease: Id) {
    j in s.jobs && s.jobs[j].target == Hermes && s.jobs[j].lease == Some(lease) &&
    (s.jobs[j].status.Dispatching? || s.jobs[j].status.Running?) && !s.jobs[j].cancelRequested
  }

  function Verdict(success: bool): Status { if success then Succeeded else Failed }
  function VerdictKind(success: bool): Kind { if success then EndedSucceeded else EndedFailed }

  function FinishWithOutbox(s: Tables, j: Id, lease: Id, success: bool, result: Id): Tables {
    if CanFinish(s, j, lease)
    then WithResult(Settle(s, j, Verdict(success), VerdictKind(success)), j, result)
    else s
  }

  predicate CanFinishBackend(s: Tables, j: Id, backend: Backend, lease: Id, generation: nat, turn: Id) {
    Holds(s, j, backend, lease, generation) && s.jobs[j].status.Running? && !s.jobs[j].cancelRequested &&
    TurnOf(s, j) == Some(turn)
  }

  /** `quarantineSession` is the credential-failure form. */
  function FinishBackendWithOutbox(s: Tables, j: Id, backend: Backend, lease: Id, generation: nat, turn: Id,
                                   success: bool, result: Id, quarantineSession: bool): Tables {
    if CanFinishBackend(s, j, backend, lease, generation, turn) then
      var t := WithResult(Settle(s, j, Verdict(success), VerdictKind(success)), j, result);
      var u := if quarantineSession then WithQuarantine(t, s.jobs[j].session) else t;
      WithAttempt(u, SlotOf(s.jobs[j]), None)
    else s
  }

  // ---------------------------------------------------------------------------------------------
  // Unknown outcomes
  // ---------------------------------------------------------------------------------------------

  function LostStatus(status: Status): Status { if status.Cancelling? then CancelUnknown else Interrupted }
  function LostKind(status: Status): Kind { if status.Cancelling? then EndedCancelUnknown else EndedInterrupted }

  predicate CanMarkCancelUnknown(s: Tables, j: Id, lease: Id) {
    j in s.jobs && s.jobs[j].target == Hermes && s.jobs[j].lease == Some(lease) && s.jobs[j].status.Cancelling?
  }

  function MarkCancelUnknown(s: Tables, j: Id, lease: Id): Tables {
    if CanMarkCancelUnknown(s, j, lease)
    then WithQuarantine(Settle(s, j, CancelUnknown, EndedCancelUnknown), s.jobs[j].session)
    else s
  }

  /** A turn the caller names must be the bound one; an unbound attempt accepts any turn. */
  predicate CanMarkLost(s: Tables, j: Id, backend: Backend, lease: Id, generation: nat, turn: Option<Id>, cancelled: bool) {
    && Holds(s, j, backend, lease, generation)
    && (if cancelled then s.jobs[j].status.Cancelling? else s.jobs[j].status.Dispatching? || s.jobs[j].status.Running?)
    && (TurnOf(s, j) == turn || (TurnOf(s, j).None? && turn.Some?))
  }

  function MarkBackendRecoveryTerminal(s: Tables, j: Id, backend: Backend, lease: Id, generation: nat,
                                       turn: Option<Id>, cancelled: bool): Tables {
    if CanMarkLost(s, j, backend, lease, generation, turn, cancelled) then
      var key := SlotOf(s.jobs[j]);
      var attempt := s.slots[key].active.value;
      var t := WithQuarantine(Settle(s, j, LostStatus(s.jobs[j].status), LostKind(s.jobs[j].status)), s.jobs[j].session);
      t.(slots := t.slots[key := t.slots[key].(recovery := true,
           active := Some(attempt.(turn := if attempt.turn.Some? then attempt.turn else turn)))])
    else s
  }

  /** Every job of `victims` loses its attempt: unknown outcome, quarantined session, slot kept as evidence. */
  function Interrupt(s: Tables, victims: set<Id>): Tables
    requires victims <= s.jobs.Keys
    requires forall j :: j in victims ==> s.jobs[j].lease.Some?
  {
    s.(jobs := map j | j in s.jobs ::
         if j in victims then s.jobs[j].(status := LostStatus(s.jobs[j].status)) else s.jobs[j],
       slots := map k | k in s.slots ::
         if s.slots[k].active.Some? && s.slots[k].active.value.job in victims
         then s.slots[k].(recovery := true) else s.slots[k],
       quarantine := s.quarantine + set j | j in victims :: s.jobs[j].session,
       ledger := map r | r in s.ledger ::
         if r.job in victims && r.generation == s.jobs[r.job].generation
         then s.ledger[r] + [Event(|s.ledger[r]| + 1, LostKind(s.jobs[r.job].status), s.jobs[r.job].lease.value)]
         else s.ledger[r])
  }

  function ConnectorVictims(s: Tables, backend: Backend, connector: Id): set<Id> {
    set j | j in s.jobs && s.jobs[j].connector == Some(connector) && s.jobs[j].target == backend &&
            s.jobs[j].lease.Some? && Active(s.jobs[j].status)
  }

  function MarkConnectorDisconnected(s: Tables, connector: Id): Tables {
    Interrupt(s, ConnectorVictims(s, Hermes, connector))
  }

  function MarkBackendDisconnected(s: Tables, backend: Backend, connector: Id): Tables {
    if backend == Hermes then s else Interrupt(s, ConnectorVictims(s, backend, connector))
  }

  function ActiveJobs(s: Tables): set<Id> {
    set j | j in s.jobs && s.jobs[j].lease.Some? && Active(s.jobs[j].status)
  }

  function RecoverAfterRestart(s: Tables, now: Time): Tables {
    var t := Interrupt(s, ActiveJobs(s));
    t.(pendingCancels := Unexpired(s.pendingCancels, now),
       outbox := map j | j in s.outbox ::
         if s.outbox[j].status.Delivering? then s.outbox[j].(status := Pending) else s.outbox[j])
  }

  // ---------------------------------------------------------------------------------------------
  // Sessions
  // ---------------------------------------------------------------------------------------------

  /** Account-bound sessions start without a thread and are never overwritten. */
  function EnsureBackendSession(s: Tables, key: SlotKey): Tables {
    if key in s.slots then s else s.(slots := s.slots[key := Slot(None, None, false)])
  }

  function CreateLocalOpaqueSession(s: Tables, key: SlotKey, thread: Id): Tables {
    if key in s.slots || key.session in s.quarantine then s
    else s.(slots := s.slots[key := Slot(Some(thread), None, false)])
  }

  function BindBackendThread(s: Tables, key: SlotKey, thread: Id): Tables {
    if key in s.slots && s.slots[key].thread.None? && !s.slots[key].recovery && key.session !in s.quarantine
    then s.(slots := s.slots[key := s.slots[key].(thread := Some(thread))])
    else s
  }

  function SessionSlots(s: Tables, session: Id): set<SlotKey> {
    set k | k in s.slots && k.session == session
  }

  function RecoverySlots(s: Tables, session: Id): set<SlotKey> {
    set k | k in s.slots && k.session == session && s.slots[k].recovery
  }

  predicate SessionActive(s: Tables, session: Id) {
    exists j :: j in s.jobs && s.jobs[j].session == session && Active(s.jobs[j].status)
  }

  datatype Release = Release(released: bool, retired: set<SlotKey>)
  const REFUSED := Release(false, {})

  /** The operator's release: refused while a job runs; otherwise it drops the evidence and the quarantine. */
  function ReleaseSessionRecovery(s: Tables, session: Id): (r: (Tables, Release)) {
    if SessionActive(s, session) || session !in s.quarantine then (s, REFUSED)
    else
      var retired := if RecoverySlots(s, session) == {} then SessionSlots(s, session) else RecoverySlots(s, session);
      (s.(slots := s.slots - retired, quarantine := s.quarantine - {session}), Release(true, retired))
  }

  function ReleaseBackendSessionRecovery(s: Tables, key: SlotKey): Tables {
    if key in s.slots && s.slots[key].recovery
    then s.(slots := s.slots - {key}, quarantine := s.quarantine - {key.session})
    else s
  }

  // ---------------------------------------------------------------------------------------------
  // Delivery
  // ---------------------------------------------------------------------------------------------

  /** ORDER BY created_at DESC, rowid DESC LIMIT 1 over the deliveries of one job. */
  function Newest(deliveries: seq<Delivery>, j: Id): (r: Option<Delivery>)
    ensures r.Some? ==> r.value in deliveries && r.value.job == j
    ensures r.None? ==> forall d :: d in deliveries ==> d.job != j
  {
    if deliveries == [] then None
    else
      var last := deliveries[|deliveries| - 1];
      var earlier := Newest(deliveries[..|deliveries| - 1], j);
      if last.job == j && (earlier.None? || earlier.value.createdAt <= last.createdAt) then Some(last) else earlier
  }

  function Without(deliveries: seq<Delivery>, j: Id, message: Id): seq<Delivery> {
    if deliveries == [] then []
    else
      var last := deliveries[|deliveries| - 1];
      var earlier := Without(deliveries[..|deliveries| - 1], j, message);
      if last.job == j && last.message == message then earlier else earlier + [last]
  }

  predicate CanDeliver(s: Tables, j: Id, retry: bool, now: Time) {
    && j in s.outbox && j in s.jobs && !s.jobs[j].cancelRequested
    && var row := s.outbox[j];
    if retry then row.status.Delivering?
    else row.status.Pending? || (row.status.AckFailed? && row.nextAttempt.Some? && row.nextAttempt.value <= now)
  }

  function StartedRow(row: Outbox, message: Id, retry: bool, now: Time): Outbox {
    row.(status := Delivering, lastMessage := Some(message), nextAttempt := None, deliveredAt := Some(now),
         retryCount := if row.status.AckFailed? then 0 else row.retryCount + (if retry then 1 else 0))
  }

  function StartResultDelivery(s: Tables, j: Id, message: Id, retry: bool, now: Time): Tables {
    if CanDeliver(s, j, retry, now) then
      s.(outbox := s.outbox[j := StartedRow(s.outbox[j], message, retry, now)],
         deliveries := s.deliveries + [Delivery(message, j, now)])
    else s
  }

  function ResetOutboxPending(s: Tables, j: Id): Tables {
    if j in s.outbox && s.outbox[j].status.Delivering?
    then s.(outbox := s.outbox[j := s.outbox[j].(status := Pending, nextAttempt := None)])
    else s
  }

  function DeliveryFields(row: Outbox, newest: Option<Delivery>): Outbox {
    row.(lastMessage := if newest.Some? then Some(newest.value.message) else None,
         deliveredAt := if newest.Some? then Some(newest.value.createdAt) else None)
  }

  function RolledBackRow(row: Outbox, newest: Option<Delivery>, retry: bool): Outbox {
    DeliveryFields(row, newest).(
      status := Pending, nextAttempt := None,
      retryCount := if retry && row.retryCount > 0 then row.retryCount - 1 else row.retryCount)
  }

  function ResetAfterSendFailure(s: Tables, j: Id, message: Id, retry: bool): Tables {
    if j in s.outbox && s.outbox[j].status.Delivering? && s.outbox[j].lastMessage == Some(message) then
      var remaining := Without(s.deliveries, j, message);
      s.(outbox := s.outbox[j := RolledBackRow(s.outbox[j], Newest(remaining, j), retry)], deliveries := remaining)
    else s
  }

  predicate WasSent(s: Tables, j: Id) {
    exists d :: d in s.deliveries && d.job == j
  }

  function MarkOutboxDelivered(s: Tables, j: Id, now: Time): Tables {
    if j in s.outbox && !s.outbox[j].status.Delivered? && WasSent(s, j)
    then s.(outbox := s.outbox[j := s.outbox[j].(status := Delivered, nextAttempt := None, ackedAt := Some(now))])
    else s
  }

  function MarkOutboxAckFailed(s: Tables, j: Id, next: Time): Tables {
    if j in s.outbox && s.outbox[j].status.Delivering?
    then s.(outbox := s.outbox[j := s.outbox[j].(status := AckFailed, nextAttempt := Some(next))])
    else s
  }
}
