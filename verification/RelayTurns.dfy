/** The turns of the relay client over the store it shares with the daemon.

    Every piece of the client's code between two awaits is a move on values, and so is every transaction that the
    rest of the daemon performs in between; a history is any sequence of them.  No interleaving loses a result. */
module RelayTurns {
  import opened Tables
  import T = Tables
  import opened Invariant
  import opened Preservation
  import opened Laws
  import opened Runs

  /** Between turns no result is lost: a row in delivery has an armed timer.  (A row in back-off has its next
      attempt time by `OutboxOk`; a pending row is found by the next replay.) */
  ghost predicate NoneLost(s: Tables, timers: set<Id>, maxRetries: nat) {
    forall j :: j in s.outbox ==> (s.outbox[j].status.Delivering? ==> j in timers) && s.outbox[j].retryCount <= maxRetries
  }

  predicate Due(s: Tables, j: Id, now: Time) {
    && j in s.outbox && j in s.jobs && !s.jobs[j].cancelRequested
    && (s.outbox[j].status.Pending? ||
        (s.outbox[j].status.AckFailed? && s.outbox[j].nextAttempt.Some? && s.outbox[j].nextAttempt.value <= now))
  }

  /** Rows that are neither on their way nor delivered: the measure of the replay. */
  function Waiting(outbox: map<Id, Outbox>): set<Id> {
    set j | j in outbox && !outbox[j].status.Delivering? && !outbox[j].status.Delivered?
  }

  predicate BackingOff(outbox: map<Id, Outbox>, j: Id) {
    j in outbox && outbox[j].status.AckFailed? && outbox[j].nextAttempt.Some?
  }

  /** The recovery timer is armed no later than the earliest back-off ends. */
  predicate Covers(outbox: map<Id, Outbox>, recovery: Option<Time>) {
    forall j :: j in outbox && BackingOff(outbox, j) ==> recovery.Some? && recovery.value <= outbox[j].nextAttempt.value
  }

  ghost predicate ClockOk(s: Tables, now: Time) { forall d :: d in s.deliveries ==> d.createdAt <= now }

  function PowerOfTwo(n: nat): nat { if n == 0 then 1 else 2 * PowerOfTwo(n - 1) }

  /** A started delivery: its row is on its way and needs a timer, the others are as they were. */
  lemma RowStarted(s: Tables, armed: set<Id>, limit: nat, j: Id, message: Id, retry: bool, now: Time)
    requires NoneLost(s, armed, limit) && CanDeliver(s, j, retry, now)
    requires retry ==> s.outbox[j].retryCount < limit
    ensures var t := T.StartResultDelivery(s, j, message, retry, now);
            && NoneLost(t, armed + {j}, limit)
            && Waiting(t.outbox) == Waiting(s.outbox) - {j}
            && t.outbox.Keys == s.outbox.Keys && t.jobs == s.jobs && t.outbox[j].status.Delivering?
            && (retry && s.outbox[j].status.Delivering? ==> t.outbox[j].retryCount == s.outbox[j].retryCount + 1)
            && (forall i :: i in s.outbox && i != j ==> t.outbox[i] == s.outbox[i])
  {
  }

  /** The row of a rolled-back send is pending again; no other row changed. */
  lemma RowRolledBack(s: Tables, armed: set<Id>, limit: nat, j: Id, message: Id, retry: bool, now: Time)
    requires Valid(s) && FreshMessage(s, message) && CanDeliver(s, j, retry, now)
    requires NoneLost(s, armed + {j}, limit)
    ensures var t := T.ResetAfterSendFailure(T.StartResultDelivery(s, j, message, retry, now), j, message, retry);
            && NoneLost(t, armed, limit) && t.deliveries == s.deliveries
            && j in t.outbox && t.outbox[j].status.Pending?
  {
    hide Valid, T.ResetAfterSendFailure, T.StartResultDelivery, Newest, Without;
    SendFailureRestores(s, j, message, retry, now);
  }

  lemma NotStarted(s: Tables, j: Id, message: Id, retry: bool, now: Time)
    requires !CanDeliver(s, j, retry, now)
    ensures T.StartResultDelivery(s, j, message, retry, now) == s
  {
  }

  lemma StartedClock(s: Tables, j: Id, message: Id, retry: bool, now: Time)
    requires ClockOk(s, now)
    ensures ClockOk(T.StartResultDelivery(s, j, message, retry, now), now)
  {
  }

  /** A row in delivery can always be sent again: a result row means that no cancel won. */
  lemma RetryStarts(s: Tables, j: Id, now: Time)
    requires Valid(s) && j in s.outbox && s.outbox[j].status.Delivering?
    ensures CanDeliver(s, j, true, now)
  {
    hide AttemptsOk;
    RowAt(s, j);
    assert j in s.jobs && JobOk(s, j) by { hide DeliveriesOk; JobAt(s, j); }
  }

  lemma UndeliveredRow(s: Tables, armed: set<Id>, limit: nat, j: Id)
    requires NoneLost(s, armed + {j}, limit)
    ensures NoneLost(T.ResetOutboxPending(s, j), armed, limit)
    ensures T.ResetOutboxPending(s, j).deliveries == s.deliveries
    ensures forall recovery :: Covers(s.outbox, recovery) ==> Covers(T.ResetOutboxPending(s, j).outbox, recovery)
  {
  }

  /** A start takes a row out of back-off and puts none in. */
  lemma StartedCovers(s: Tables, j: Id, message: Id, retry: bool, now: Time)
    ensures forall recovery :: Covers(s.outbox, recovery) ==> Covers(T.StartResultDelivery(s, j, message, retry, now).outbox, recovery)
  {
  }

  lemma BackedOffRow(s: Tables, armed: set<Id>, limit: nat, j: Id, next: Time)
    requires NoneLost(s, armed + {j}, limit)
    ensures NoneLost(T.MarkOutboxAckFailed(s, j, next), armed, limit)
  {
  }

  /** Every delivery in progress queued again. */
  function Requeued(outbox: map<Id, Outbox>, ids: set<Id>): map<Id, Outbox> {
    map j | j in outbox ::
      if j in ids && outbox[j].status.Delivering? then outbox[j].(status := Pending, nextAttempt := None) else outbox[j]
  }

  lemma RequeueOne(s: Tables, outbox: map<Id, Outbox>, ids: set<Id>, j: Id)
    requires s.outbox == Requeued(outbox, ids)
    ensures T.ResetOutboxPending(s, j) == s.(outbox := Requeued(outbox, ids + {j}))
  {
    assert T.ResetOutboxPending(s, j).outbox == Requeued(outbox, ids + {j});
  }

  lemma RequeueNone(outbox: map<Id, Outbox>)
    ensures Requeued(outbox, {}) == outbox
  {
  }

  lemma AcknowledgedRow(s: Tables, armed: set<Id>, limit: nat, j: Id, now: Time)
    requires NoneLost(s, armed, limit)
    ensures NoneLost(T.MarkOutboxDelivered(s, j, now), armed, limit)
    ensures j in s.outbox && !s.outbox[j].status.Delivered? && WasSent(s, j) ==>
              NoneLost(T.MarkOutboxDelivered(s, j, now), armed - {j}, limit)
  {
  }

  // ---------------------------------------------------------------------------------------------
  // Moves
  // ---------------------------------------------------------------------------------------------

  /** The back-off after the last retry: doubled per retry, capped at five minutes. */
  function RecoveryDelay(ackTimeout: nat, retryCount: nat): (delay: nat)
    ensures delay <= 5 * 60000 && (ackTimeout > 0 ==> delay > 0)
  {
    var exponent := if retryCount < 1 then 1 else if retryCount > 6 then 6 else retryCount;
    PowerIsPositive(exponent);
    var grown := ackTimeout * PowerOfTwo(exponent);
    if grown > 5 * 60000 then 5 * 60000 else grown
  }

  lemma {:induction false} PowerIsPositive(n: nat)
    ensures PowerOfTwo(n) > 0
  {
    if n > 0 { PowerIsPositive(n - 1); }
  }

  datatype Limits = Limits(maxRetries: nat, ackTimeout: nat)

  /** `timers` are the armed acknowledgement timers, `recovery` is when the recovery timer goes off;
      `caughtUp` tells that a replay has run to its end since the handshake. */
  datatype View = View(s: Tables, timers: set<Id>, recovery: Option<Time>, handshake: bool, open: bool, caughtUp: bool)

  predicate Linked(v: View) { v.handshake && v.open }

  ghost predicate SoundView(v: View, maxRetries: nat) {
    && Valid(v.s) && NoneLost(v.s, v.timers, maxRetries)
    && (Linked(v) && v.caughtUp ==> Covers(v.s.outbox, v.recovery))
  }

  /** `sent` tells whether the socket took the result, `next` is the earliest end of a back-off, if the client asks. */
  datatype Move =
    | Handshake
    | Closes
    | Deliver(j: Id, message: Id, now: Time, sent: bool)
    | ReplayEnds(next: Option<Time>)
    | AckTimer(j: Id, message: Id, now: Time, sent: bool, next: Option<Time>)
    | RecoveryTimer
    | Ack(j: Id, now: Time, next: Option<Time>)
    | ConnectionEnds
    | Other(step: Step)

  /** One send. */
  function Sent(v: View, j: Id, retry: bool, message: Id, now: Time, sent: bool): View {
    if !Linked(v) then if retry then v.(s := T.ResetOutboxPending(v.s, j)) else v
    else if !CanDeliver(v.s, j, retry, now) then v
    else if sent then v.(s := T.StartResultDelivery(v.s, j, message, retry, now), timers := v.timers + {j})
    else v.(s := T.ResetAfterSendFailure(T.StartResultDelivery(v.s, j, message, retry, now), j, message, retry), open := false)
  }

  function Scheduled(v: View, next: Option<Time>): View { v.(recovery := if Linked(v) then next else None) }

  function BackedOff(v: View, limits: Limits, j: Id, now: Time): View {
    v.(s := if j in v.s.outbox
            then T.MarkOutboxAckFailed(v.s, j, now + RecoveryDelay(limits.ackTimeout, v.s.outbox[j].retryCount)) else v.s)
  }

  function Disarmed(v: View, j: Id): View { v.(timers := v.timers - {j}) }

  predicate Unconfirmed(v: View, j: Id) { j in v.s.outbox && v.s.outbox[j].status.Delivering? }

  /** The acknowledgement did not come in time. */
  function Expired(v: View, limits: Limits, j: Id, message: Id, now: Time, sent: bool, next: Option<Time>): View {
    if !Unconfirmed(v, j) then v
    else if !Linked(v) || v.s.outbox[j].retryCount < limits.maxRetries then Sent(v, j, true, message, now, sent)
    else Scheduled(BackedOff(v, limits, j, now), next)
  }

  ghost predicate Settles(s: Tables, j: Id) { j in s.outbox && !s.outbox[j].status.Delivered? && WasSent(s, j) }

  ghost function Moved(v: View, limits: Limits, move: Move): View {
    match move
    case Handshake => v.(handshake := true, open := true, caughtUp := false)
    case Closes => v.(open := false)
    case Deliver(j, message, now, sent) => Sent(v, j, false, message, now, sent)
    case ReplayEnds(next) => Scheduled(v, next).(caughtUp := Linked(v))
    case AckTimer(j, message, now, sent, next) => Expired(Disarmed(v, j), limits, j, message, now, sent, next)
    case RecoveryTimer => v.(recovery := None, caughtUp := false)
    case Ack(j, now, next) =>
      var w := Scheduled(v.(s := T.MarkOutboxDelivered(v.s, j, now)), next);
      if Settles(v.s, j) then Disarmed(w, j) else w
    case ConnectionEnds =>
      v.(handshake := false, recovery := None, timers := {}, s := v.s.(outbox := Requeued(v.s.outbox, v.timers)))
    case Other(step) => v.(s := Next(v.s, step))
  }

  /** MIN(next_attempt_at) over the rows in back-off. */
  ghost predicate IsNext(outbox: map<Id, Outbox>, next: Option<Time>) {
    && Covers(outbox, next)
    && (next.Some? ==> exists j :: j in outbox && BackingOff(outbox, j) && outbox[j].nextAttempt == next)
  }

  /** Message ids are fresh, the clock does not run back, a timer was armed, and the daemon leaves the delivery
      of results to the client.  Each process has its own client, so no restart comes in between. */
  ghost predicate Able(v: View, limits: Limits, move: Move) {
    match move
    case Deliver(_, message, now, _) => Linked(v) ==> FreshMessage(v.s, message) && ClockOk(v.s, now)
    case ReplayEnds(next) => Linked(v) ==> IsNext(v.s.outbox, next)
    case AckTimer(j, message, now, _, next) =>
      && j in v.timers
      && (Linked(v) && Unconfirmed(v, j) ==>
            if v.s.outbox[j].retryCount < limits.maxRetries then FreshMessage(v.s, message) && ClockOk(v.s, now)
            else IsNext(BackedOff(v, limits, j, now).s.outbox, next))
    case Ack(j, now, next) => Linked(v) ==> IsNext(T.MarkOutboxDelivered(v.s, j, now).outbox, next)
    case Other(step) => Enabled(v.s, step) && !IsDelivery(step) && !step.DoRestart?
    case _ => true
  }

  // ---------------------------------------------------------------------------------------------
  // The rest of the daemon
  // ---------------------------------------------------------------------------------------------

  /** Rows stay as they are; what is added waits for its first delivery. */
  predicate Queued(s: Tables, t: Tables) {
    && t.deliveries == s.deliveries
    && (forall j :: j in s.outbox ==> j in t.outbox && t.outbox[j] == s.outbox[j])
    && (forall j :: j in t.outbox && j !in s.outbox ==> t.outbox[j].status.Pending? && t.outbox[j].retryCount == 0)
  }

  lemma IntakeQueues(s: Tables, step: Step)
    requires IsIntake(step)
    ensures Queued(s, NextIntake(s, step))
  {
  }

  lemma ClaimQueues(s: Tables, step: Step)
    requires IsClaim(step)
    ensures Queued(s, NextClaim(s, step))
  {
  }

  lemma UnsentQueues(s: Tables, step: Step)
    requires IsUnsent(step)
    ensures Queued(s, NextUnsent(s, step))
  {
  }

  lemma AcceptanceQueues(s: Tables, step: Step)
    requires step.DoRunning? || step.DoBackendRunning?
    ensures Queued(s, NextProgress(s, step))
  {
  }

  lemma VerdictQueues(s: Tables, step: Step)
    requires step.DoFinish? || step.DoFinishBackend?
    ensures Queued(s, NextProgress(s, step))
  {
  }

  lemma ProgressQueues(s: Tables, step: Step)
    requires IsProgress(step)
    ensures Queued(s, NextProgress(s, step))
  {
    hide Queued, NextProgress;
    if step.DoRunning? || step.DoBackendRunning? { AcceptanceQueues(s, step); } else { VerdictQueues(s, step); }
  }

  lemma LossQueues(s: Tables, step: Step)
    requires IsLoss(step) && !step.DoRestart?
    ensures Queued(s, NextLoss(s, step))
  {
  }

  lemma SessionQueues(s: Tables, step: Step)
    requires IsSession(step)
    ensures Queued(s, NextSession(s, step))
  {
  }

  /** A result stored, a rejection, a cancel, a loss, a release: none touches a result row that is there. */
  lemma StepQueues(s: Tables, step: Step)
    requires !IsDelivery(step) && !step.DoRestart?
    ensures Queued(s, Next(s, step))
  {
    hide Queued, NextIntake, NextClaim, NextUnsent, NextProgress, NextLoss, NextSession, NextDelivery;
    if IsIntake(step) { IntakeQueues(s, step); }
    else if IsClaim(step) { ClaimQueues(s, step); }
    else if IsUnsent(step) { UnsentQueues(s, step); }
    else if IsProgress(step) { ProgressQueues(s, step); }
    else if IsLoss(step) { LossQueues(s, step); }
    else { SessionQueues(s, step); }
  }

  lemma StepKeepsNoneLost(s: Tables, step: Step, timers: set<Id>, maxRetries: nat)
    requires !IsDelivery(step) && !step.DoRestart? && NoneLost(s, timers, maxRetries)
    ensures NoneLost(Next(s, step), timers, maxRetries)
  {
    hide Next;
    StepQueues(s, step);
  }

  lemma StepKeepsCovers(s: Tables, step: Step, recovery: Option<Time>)
    requires !IsDelivery(step) && !step.DoRestart? && Covers(s.outbox, recovery)
    ensures Covers(Next(s, step).outbox, recovery)
  {
    hide Next;
    StepQueues(s, step);
  }

  // ---------------------------------------------------------------------------------------------
  // Every interleaving
  // ---------------------------------------------------------------------------------------------

  /** A send keeps the client sound; a retry comes when the timer of its row is gone. */
  lemma SendKeeps(v: View, maxRetries: nat, j: Id, retry: bool, message: Id, now: Time, sent: bool)
    requires Valid(v.s) && NoneLost(v.s, if retry then v.timers + {j} else v.timers, maxRetries)
    requires Linked(v) && v.caughtUp ==> Covers(v.s.outbox, v.recovery)
    requires Linked(v) ==> FreshMessage(v.s, message) && ClockOk(v.s, now)
    requires retry ==> j in v.s.outbox && v.s.outbox[j].status.Delivering?
    requires retry && Linked(v) ==> v.s.outbox[j].retryCount < maxRetries
    ensures SoundView(Sent(v, j, retry, message, now, sent), maxRetries)
    ensures Evolves(v.s, Sent(v, j, retry, message, now, sent).s)
  {
    hide Valid, NoneLost, Covers, Evolves, CanDeliver, T.StartResultDelivery, T.ResetAfterSendFailure, T.ResetOutboxPending;
    NothingEvolves(v.s);
    if retry { RetryStarts(v.s, j, now); }
    if !Linked(v) {
      if retry {
        UndeliveredRow(v.s, v.timers, maxRetries, j);
        ResetOutboxPendingKeeps(v.s, j);
        StepEvolves(v.s, DoUndeliver(j));
      }
    } else if CanDeliver(v.s, j, retry, now) {
      var armed := if retry then v.timers + {j} else v.timers;
      var t := T.StartResultDelivery(v.s, j, message, retry, now);
      RowStarted(v.s, armed, maxRetries, j, message, retry, now);
      StartResultDeliveryKeeps(v.s, j, message, retry, now);
      StartedCovers(v.s, j, message, retry, now);
      StepEvolves(v.s, DoDeliver(j, message, retry, now));
      assert armed + {j} == v.timers + {j};
      if !sent {
        MoreTimers(v.s, armed, maxRetries, j);
        RollbackKeeps(v.s, v.timers, maxRetries, j, retry, message, now);
      }
    }
  }

  lemma RollbackKeeps(s: Tables, timers: set<Id>, maxRetries: nat, j: Id, retry: bool, message: Id, now: Time)
    requires Valid(s) && NoneLost(s, timers + {j}, maxRetries) && FreshMessage(s, message) && ClockOk(s, now)
    requires CanDeliver(s, j, retry, now)
    ensures var t := T.ResetAfterSendFailure(T.StartResultDelivery(s, j, message, retry, now), j, message, retry);
            Valid(t) && NoneLost(t, timers, maxRetries) && Evolves(s, t)
  {
    hide Valid, NoneLost, Evolves, CanDeliver, T.StartResultDelivery, T.ResetAfterSendFailure;
    var t := T.StartResultDelivery(s, j, message, retry, now);
    StartResultDeliveryKeeps(s, j, message, retry, now);
    RowRolledBack(s, timers, maxRetries, j, message, retry, now);
    ResetAfterSendFailureKeeps(t, j, message, retry);
    StepEvolves(s, DoDeliver(j, message, retry, now));
    StepEvolves(t, DoSendFailed(j, message, retry));
    EvolvesTransitive(s, t, T.ResetAfterSendFailure(t, j, message, retry));
  }

  lemma MoreTimers(s: Tables, armed: set<Id>, limit: nat, j: Id)
    requires NoneLost(s, armed, limit)
    ensures NoneLost(s, armed + {j}, limit)
  {
  }

  lemma AckTimerKeeps(v: View, limits: Limits, move: Move)
    requires SoundView(v, limits.maxRetries) && Able(v, limits, move) && move.AckTimer?
    ensures SoundView(Moved(v, limits, move), limits.maxRetries) && Evolves(v.s, Moved(v, limits, move).s)
  {
    hide Valid, NoneLost, Covers, Evolves, T.MarkOutboxAckFailed, Sent;
    var w := Disarmed(v, move.j);
    assert w.timers + {move.j} == v.timers;
    NothingEvolves(v.s);
    if move.j !in v.s.outbox || !v.s.outbox[move.j].status.Delivering? {
      assert NoneLost(v.s, w.timers, limits.maxRetries) by { NotDelivering(v.s, v.timers, limits.maxRetries, move.j); }
    } else if !Linked(v) || v.s.outbox[move.j].retryCount < limits.maxRetries {
      SendKeeps(w, limits.maxRetries, move.j, true, move.message, move.now, move.sent);
    } else {
      var next := move.now + RecoveryDelay(limits.ackTimeout, v.s.outbox[move.j].retryCount);
      BackedOffRow(v.s, w.timers, limits.maxRetries, move.j, next);
      MarkOutboxAckFailedKeeps(v.s, move.j, next);
      StepEvolves(v.s, DoAckFailed(move.j, next));
    }
  }

  lemma NotDelivering(s: Tables, armed: set<Id>, limit: nat, j: Id)
    requires NoneLost(s, armed, limit) && (j !in s.outbox || !s.outbox[j].status.Delivering?)
    ensures NoneLost(s, armed - {j}, limit)
  {
  }

  lemma AckKeeps(v: View, limits: Limits, move: Move)
    requires SoundView(v, limits.maxRetries) && Able(v, limits, move) && move.Ack?
    ensures SoundView(Moved(v, limits, move), limits.maxRetries) && Evolves(v.s, Moved(v, limits, move).s)
  {
    hide Valid, NoneLost, Covers, Evolves, T.MarkOutboxDelivered;
    AcknowledgedRow(v.s, v.timers, limits.maxRetries, move.j, move.now);
    MarkOutboxDeliveredKeeps(v.s, move.j, move.now);
    StepEvolves(v.s, DoDelivered(move.j, move.now));
  }

  lemma {:induction false} RequeueKeeps(s: Tables, timers: set<Id>)
    requires Valid(s)
    ensures Valid(s.(outbox := Requeued(s.outbox, timers))) && Evolves(s, s.(outbox := Requeued(s.outbox, timers)))
    decreases |timers|
  {
    hide Valid, Evolves, Requeued, T.ResetOutboxPending;
    if timers == {} {
      RequeueNone(s.outbox);
      NothingEvolves(s);
      assert s.(outbox := s.outbox) == s;
    } else {
      var j :| j in timers;
      var t := s.(outbox := Requeued(s.outbox, timers - {j}));
      RequeueKeeps(s, timers - {j});
      RequeueOne(t, s.outbox, timers - {j}, j);
      assert timers - {j} + {j} == timers;
      assert s.(outbox := Requeued(s.outbox, timers)) == T.ResetOutboxPending(t, j);
      ResetOutboxPendingKeeps(t, j);
      StepEvolves(t, DoUndeliver(j));
      EvolvesTransitive(s, t, T.ResetOutboxPending(t, j));
    }
  }

  lemma ConnectionEndsKeeps(v: View, limits: Limits)
    requires SoundView(v, limits.maxRetries)
    ensures var w := Moved(v, limits, ConnectionEnds); SoundView(w, limits.maxRetries) && Evolves(v.s, w.s)
    ensures var w := Moved(v, limits, ConnectionEnds); forall j :: j in w.s.outbox ==> !w.s.outbox[j].status.Delivering?
  {
    hide Valid, Evolves;
    RequeueKeeps(v.s, v.timers);
  }

  lemma OtherKeeps(v: View, limits: Limits, step: Step)
    requires SoundView(v, limits.maxRetries) && Able(v, limits, Other(step))
    ensures var w := Moved(v, limits, Other(step)); SoundView(w, limits.maxRetries) && Evolves(v.s, w.s)
  {
    hide Valid, NoneLost, Covers, Evolves, Next, Enabled;
    StepKeepsValid(v.s, step);
    StepEvolves(v.s, step);
    StepKeepsNoneLost(v.s, step, v.timers, limits.maxRetries);
    if Linked(v) && v.caughtUp { StepKeepsCovers(v.s, step, v.recovery); }
  }

  lemma MoveKeepsSound(v: View, limits: Limits, move: Move)
    requires SoundView(v, limits.maxRetries) && Able(v, limits, move)
    ensures SoundView(Moved(v, limits, move), limits.maxRetries) && Evolves(v.s, Moved(v, limits, move).s)
  {
    match move
    case Deliver(j, message, now, sent) =>
      hide Valid, NoneLost, Covers, Evolves, Sent;
      SendKeeps(v, limits.maxRetries, j, false, message, now, sent);
    case AckTimer(_, _, _, _, _) => hide *; AckTimerKeeps(v, limits, move);
    case Ack(_, _, _) => hide *; AckKeeps(v, limits, move);
    case ConnectionEnds => hide *; ConnectionEndsKeeps(v, limits);
    case Other(step) => hide *; OtherKeeps(v, limits, step);
    case _ => hide Valid, NoneLost, Covers, Evolves; NothingEvolves(v.s);
  }

  ghost predicate IsHistory(v: View, limits: Limits, moves: seq<Move>) {
    moves == [] ||
    var before := moves[..|moves| - 1];
    IsHistory(v, limits, before) && Able(Afterwards(v, limits, before), limits, moves[|moves| - 1])
  }

  ghost function Afterwards(v: View, limits: Limits, moves: seq<Move>): View {
    if moves == [] then v else Moved(Afterwards(v, limits, moves[..|moves| - 1]), limits, moves[|moves| - 1])
  }

  lemma OneMoreMove(v: View, limits: Limits, moves: seq<Move>, move: Move)
    requires IsHistory(v, limits, moves) && Able(Afterwards(v, limits, moves), limits, move)
    ensures IsHistory(v, limits, moves + [move])
    ensures Afterwards(v, limits, moves + [move]) == Moved(Afterwards(v, limits, moves), limits, move)
  {
    assert (moves + [move])[..|moves|] == moves;
  }

  lemma {:induction false} HistoryKeepsSound(v: View, limits: Limits, moves: seq<Move>)
    requires SoundView(v, limits.maxRetries) && IsHistory(v, limits, moves)
    ensures SoundView(Afterwards(v, limits, moves), limits.maxRetries) && Evolves(v.s, Afterwards(v, limits, moves).s)
  {
    hide SoundView, Evolves, Moved, Able;
    if moves == [] {
      NothingEvolves(v.s);
    } else {
      var before := moves[..|moves| - 1];
      HistoryKeepsSound(v, limits, before);
      var w := Afterwards(v, limits, before);
      MoveKeepsSound(w, limits, moves[|moves| - 1]);
      EvolvesTransitive(v.s, w.s, Moved(w, limits, moves[|moves| - 1]).s);
    }
  }

  /** What becomes of a result row: delivered after a real send, waiting for a replay, on its way under a timer,
      or backing off until a time which the recovery timer of a caught-up connection does not miss. */
  ghost predicate Accounted(v: View, j: Id)
    requires j in v.s.outbox
  {
    var row := v.s.outbox[j];
    match row.status
    case Delivered => WasSent(v.s, j)
    case Pending => true
    case Delivering => j in v.timers
    case AckFailed =>
      row.nextAttempt.Some? &&
      (Linked(v) && v.caughtUp ==> v.recovery.Some? && v.recovery.value <= row.nextAttempt.value)
  }

  /** From any recovered store, whatever the client and the rest of the daemon do and in whatever order: no result
      row disappears or changes its text, no delivered row changes again, and each row is accounted for. */
  lemma NoResultIsLost(v: View, limits: Limits, moves: seq<Move>, j: Id)
    requires SoundView(v, limits.maxRetries) && IsHistory(v, limits, moves)
    ensures var w := Afterwards(v, limits, moves); j in w.s.outbox ==> Accounted(w, j)
    ensures var w := Afterwards(v, limits, moves);
            j in v.s.outbox ==> j in w.s.outbox && RowEvolves(v.s.outbox[j], w.s.outbox[j])
  {
    hide Moved, Able, IsHistory, Afterwards, AttemptsOk;
    HistoryKeepsSound(v, limits, moves);
    var w := Afterwards(v, limits, moves);
    if j in w.s.outbox { RowAt(w.s, j); }
  }
}
