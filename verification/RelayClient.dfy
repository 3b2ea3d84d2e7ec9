/** The relay client's side of the outbox: sending, acknowledgement timers, retries, persisted back-off, replay.

    A method runs to its end without other turns in between.  Whether a send throws, and when the socket
    closes, is arbitrary. */
module RelayClients {
  import opened Tables
  import T = Tables
  import opened Invariant
  import opened Preservation
  import opened Laws
  import opened JobStores
  import opened RelayTurns
  import opened Runs

  const BATCH: nat := 100

  /** Only rows of `touched` and the record of attempts differ; no result changes. */
  ghost predicate OnlyRows(s: Tables, t: Tables, touched: set<Id>) {
    && t == s.(outbox := t.outbox, deliveries := t.deliveries)
    && t.outbox.Keys == s.outbox.Keys
    && (forall j :: j in s.outbox && j !in touched ==> t.outbox[j] == s.outbox[j])
    && (forall j :: j in s.outbox ==> t.outbox[j].result == s.outbox[j].result)
  }

  /** Every row of `ids` is on its way under an armed timer. */
  ghost predicate OnTheWay(s: Tables, timers: set<Id>, ids: set<Id>) {
    forall j :: j in ids ==> j in s.outbox && s.outbox[j].status.Delivering? && j in timers
  }

  class RelayClient {
    const store: JobStore
    const maxRetries: nat
    const ackTimeout: nat
    var handshakeComplete: bool
    var open: bool
    var timers: set<Id>
    var recovery: Option<Time>
    /** A replay has run to its end since the handshake. */
    ghost var caughtUp: bool

    ghost function Now(): View
      reads this, store
    {
      View(store.Content(), timers, recovery, handshakeComplete, open, caughtUp)
    }

    ghost function Limit(): Limits { Limits(maxRetries, ackTimeout) }

    ghost predicate Sound()
      reads this, store
    {
      SoundView(Now(), maxRetries)
    }

    /** Sound, but for the row of `j`, whose timer has just gone off. */
    ghost predicate SoundBut(j: Id)
      reads this, store
    {
      && Valid(store.Content()) && NoneLost(store.Content(), timers + {j}, maxRetries)
      && (Connected() && caughtUp ==> Covers(store.outbox, recovery))
    }

    /** On a store that has been recovered after the restart. */
    constructor (store: JobStore, maxRetries: nat, ackTimeout: nat)
      requires Valid(store.Content())
      requires forall j :: j in store.outbox ==> !store.outbox[j].status.Delivering? && store.outbox[j].retryCount <= maxRetries
      ensures Sound() && this.store == store && this.maxRetries == maxRetries && !Connected() && timers == {}
    {
      this.store, this.maxRetries, this.ackTimeout := store, maxRetries, ackTimeout;
      handshakeComplete, open, timers, recovery, caughtUp := false, false, {}, None, false;
    }

    predicate Connected()
      reads this
    {
      handshakeComplete && open
    }

    method HandshakeDone()
      requires Sound()
      modifies this
      ensures Sound() && Now() == Moved(old(Now()), Limit(), Handshake)
    {
      hide Valid, NoneLost, Covers;
      handshakeComplete, open, caughtUp := true, true, false;
    }

    method SocketCloses()
      requires Sound()
      modifies this`open
      ensures Sound() && Now() == Moved(old(Now()), Limit(), Closes)
    {
      hide Valid, NoneLost, Covers;
      open := false;
    }

    /** Stands for a random UUID. */
    method NewMessage() returns (message: Id)
      ensures FreshMessage(store.Content(), message)
    {
      message := 0;
      for i := 0 to |store.deliveries|
        invariant forall k :: 0 <= k < i ==> store.deliveries[k].message < message
      {
        if store.deliveries[i].message >= message { message := store.deliveries[i].message + 1; }
      }
    }

    // -------------------------------------------------------------------------------------------
    // One delivery
    // -------------------------------------------------------------------------------------------

    /** Sends the result once.  `thrown` tells that the socket refused it: then the attempt left no trace and
        the connection is being closed. */
    method DeliverResult(j: Id, retry: bool, now: Time) returns (thrown: bool, message: Id)
      requires (if retry then SoundBut(j) else Sound()) && ClockOk(store.Content(), now)
      requires retry ==> j in store.outbox && store.outbox[j].status.Delivering? && store.outbox[j].retryCount < maxRetries
      modifies this, store
      ensures Sound() && ClockOk(store.Content(), now)
      ensures Now() == Sent(old(Now()), j, retry, message, now, !thrown)
      ensures old(Connected()) ==> FreshMessage(old(store.Content()), message)
      ensures !old(Connected()) ==> !thrown
      ensures thrown ==> !open && CanDeliver(old(store.Content()), j, retry, now)
      ensures thrown ==> store.deliveries == old(store.deliveries) && j in store.outbox && store.outbox[j].status.Pending?
    {
      hide Valid, NoneLost, Covers, Evolves, T.StartResultDelivery, CanDeliver, T.ResetAfterSendFailure, T.ResetOutboxPending;
      message := 0;
      thrown := false;
      ghost var before := Now();
      if !Connected() {
        if retry {
          store.ResetOutboxPending(j);
          UndeliveredRow(before.s, timers, maxRetries, j);
        }
        SendKeeps(before, maxRetries, j, retry, message, now, true);
        return;
      }
      message := NewMessage();
      if retry { RetryStarts(before.s, j, now); }
      var started := store.StartResultDelivery(j, message, retry, now);
      StartedClock(before.s, j, message, retry, now);
      if !started {
        NotStarted(before.s, j, message, retry, now);
        SendKeeps(before, maxRetries, j, retry, message, now, true);
        return;
      }
      var sent: bool := *;
      SendKeeps(before, maxRetries, j, retry, message, now, sent);
      if !sent {
        store.ResetAfterSendFailure(j, message, retry);
        SendLeavesNoTrace(before, j, retry, message, now);
        open := false;
        return true, message;
      }
      timers := timers + {j};
    }

    static lemma SendLeavesNoTrace(v: View, j: Id, retry: bool, message: Id, now: Time)
      requires Valid(v.s) && FreshMessage(v.s, message) && CanDeliver(v.s, j, retry, now) && ClockOk(v.s, now)
      ensures var t := T.ResetAfterSendFailure(T.StartResultDelivery(v.s, j, message, retry, now), j, message, retry);
              t.deliveries == v.s.deliveries && j in t.outbox && t.outbox[j].status.Pending? && ClockOk(t, now)
    {
      hide Valid, T.ResetAfterSendFailure, T.StartResultDelivery, Newest, Without;
      SendFailureRestores(v.s, j, message, retry, now);
    }

    // -------------------------------------------------------------------------------------------
    // Timers
    // -------------------------------------------------------------------------------------------

    /** MIN(next_attempt_at) over the rows in back-off. */
    method NextOutboxAttemptAt() returns (next: Option<Time>)
      requires Valid(store.Content())
      ensures IsNext(store.outbox, next)
    {
      hide Valid;
      next := None;
      var rest := store.outbox.Keys;
      while rest != {}
        invariant rest <= store.outbox.Keys
        invariant forall j :: j in store.outbox && j !in rest && BackingOff(store.outbox, j) ==>
                    next.Some? && next.value <= store.outbox[j].nextAttempt.value
        invariant next.Some? ==> exists j :: j in store.outbox && BackingOff(store.outbox, j) && store.outbox[j].nextAttempt == next
        decreases rest
      {
        var j :| j in rest;
        if BackingOff(store.outbox, j) && (next.None? || store.outbox[j].nextAttempt.value < next.value) {
          next := store.outbox[j].nextAttempt;
        }
        rest := rest - {j};
      }
    }

    method ScheduleOutboxRecovery() returns (ghost next: Option<Time>)
      requires Valid(store.Content()) && NoneLost(store.Content(), timers, maxRetries)
      modifies this`recovery
      ensures Sound() && (Connected() ==> IsNext(store.outbox, next)) && Now() == Scheduled(old(Now()), next)
    {
      hide Valid;
      next := None;
      recovery := None;
      if !Connected() { return; }
      recovery := NextOutboxAttemptAt();
      next := recovery;
    }

    /** The acknowledgement did not come in time. */
    method AckTimerFired(j: Id, now: Time) returns (ghost move: Move)
      requires Sound() && ClockOk(store.Content(), now) && j in timers
      modifies this, store
      ensures Sound() && move.AckTimer? && move.j == j && move.now == now
      ensures Able(old(Now()), Limit(), move) && Now() == Moved(old(Now()), Limit(), move)
      ensures j in old(store.outbox) && old(store.outbox)[j].status.Delivering? ==>
                j in store.outbox && (store.outbox[j].status.Delivering? ==> j in timers) &&
                (store.outbox[j].status.Delivering? ==> store.outbox[j].retryCount == old(store.outbox)[j].retryCount + 1) &&
                (store.outbox[j].status.Pending? ==> !Connected()) && !store.outbox[j].status.Delivered? &&
                (store.outbox[j].status.AckFailed? ==>
                   old(store.outbox)[j].retryCount == maxRetries &&
                   store.outbox[j].nextAttempt == Some(now + RecoveryDelay(ackTimeout, maxRetries)) &&
                   (Connected() ==> Covers(store.outbox, recovery)))
      ensures OnlyRows(old(store.Content()), store.Content(), {j})
      ensures j !in old(store.outbox) || !old(store.outbox)[j].status.Delivering? ==> store.Content() == old(store.Content())
    {
      hide Valid, NoneLost, Covers, Evolves, T.StartResultDelivery, T.ResetAfterSendFailure, T.ResetOutboxPending,
           T.MarkOutboxAckFailed;
      ghost var before := store.Content();
      ghost var whole := Now();
      timers := timers - {j};
      assert timers + {j} == old(timers);
      move := AckTimer(j, 0, now, true, None);
      if j !in store.outbox || !store.outbox[j].status.Delivering? {
        AckTimerKeeps(whole, Limit(), move);
        return;
      }
      if !Connected() {
        store.ResetOutboxPending(j);
        AckTimerKeeps(whole, Limit(), move);
        ResetIsPending(before, j);
        return;
      }
      if store.outbox[j].retryCount < maxRetries {
        RetryStarts(before, j, now);
        var thrown, message := DeliverResult(j, true, now);
        StartTouchesOne(before, timers, j, message, true, now);
        move := AckTimer(j, message, now, !thrown, None);
        if thrown { open := false; } else { RowStarted(before, old(timers), maxRetries, j, message, true, now); }
      } else {
        var end := now + RecoveryDelay(ackTimeout, store.outbox[j].retryCount);
        store.MarkOutboxAckFailed(j, end);
        BackedOffRow(before, timers, maxRetries, j, end);
        RetriesAreBounded(before, old(timers), maxRetries, j);
        BackedOffRowIs(before, j, end);
        ghost var next := ScheduleOutboxRecovery();
        move := AckTimer(j, 0, now, true, next);
      }
    }

    static lemma RetriesAreBounded(s: Tables, armed: set<Id>, limit: nat, j: Id)
      requires NoneLost(s, armed, limit) && j in s.outbox
      ensures s.outbox[j].retryCount <= limit
    {
    }

    static lemma ResetIsPending(s: Tables, j: Id)
      requires j in s.outbox && s.outbox[j].status.Delivering?
      ensures j in T.ResetOutboxPending(s, j).outbox && T.ResetOutboxPending(s, j).outbox[j].status.Pending?
      ensures OnlyRows(s, T.ResetOutboxPending(s, j), {j})
    {
    }

    static lemma BackedOffRowIs(s: Tables, j: Id, next: Time)
      requires j in s.outbox && s.outbox[j].status.Delivering?
      ensures var t := T.MarkOutboxAckFailed(s, j, next);
              j in t.outbox && t.outbox[j].status.AckFailed? && t.outbox[j].nextAttempt == Some(next) && OnlyRows(s, t, {j})
    {
    }

    /** When the connection ends, every result in delivery is pending again and no timer is left. */
    method ClearResultTimers()
      requires Sound()
      modifies this, store
      ensures Sound() && timers == {} && handshakeComplete == old(handshakeComplete) && open == old(open)
      ensures recovery == old(recovery) && caughtUp == old(caughtUp)
      ensures store.Content() == old(store.Content()).(outbox := Requeued(old(store.outbox), old(timers)))
      ensures forall j :: j in store.outbox ==> !store.outbox[j].status.Delivering?
    {
      hide Valid, T.ResetOutboxPending, Requeued;
      assert store.outbox == Requeued(store.outbox, {}) by { RequeueNone(store.outbox); }
      ghost var cleared: set<Id> := {};
      while timers != {}
        invariant Sound() && handshakeComplete == old(handshakeComplete) && open == old(open)
        invariant recovery == old(recovery) && caughtUp == old(caughtUp)
        invariant timers !! cleared && timers + cleared == old(timers)
        invariant store.Content() == old(store.Content()).(outbox := Requeued(old(store.outbox), cleared))
        decreases timers
      {
        var j :| j in timers;
        ghost var before := store.Content();
        store.ResetOutboxPending(j);
        RequeueOne(before, old(store.outbox), cleared, j);
        timers := timers - {j};
        cleared := cleared + {j};
        assert timers + {j} == old(timers) - (cleared - {j});
        UndeliveredRow(before, timers, maxRetries, j);
      }
    }

    method ConnectionLost()
      requires Sound()
      modifies this, store
      ensures Sound() && Now() == Moved(old(Now()), Limit(), ConnectionEnds)
      ensures forall j :: j in store.outbox ==> !store.outbox[j].status.Delivering?
    {
      handshakeComplete := false;
      recovery := None;
      ClearResultTimers();
    }

    // -------------------------------------------------------------------------------------------
    // Replay
    // -------------------------------------------------------------------------------------------

    predicate IsDue(j: Id, now: Time)
      reads this, store
      ensures IsDue(j, now) == Due(store.Content(), j, now)
    {
      && j in store.outbox && j in store.jobs && !store.jobs[j].cancelRequested
      && (store.outbox[j].status.Pending? ||
          (store.outbox[j].status.AckFailed? && store.outbox[j].nextAttempt.Some? && store.outbox[j].nextAttempt.value <= now))
    }

    /** Up to `limit` due rows; fewer only when there are no more. */
    method ListPendingOutbox(limit: nat, now: Time) returns (batch: seq<Id>)
      ensures |batch| <= limit && (forall i :: 0 <= i < |batch| ==> Due(store.Content(), batch[i], now))
      ensures forall i, k :: 0 <= i < k < |batch| ==> batch[i] != batch[k]
      ensures |batch| < limit ==> forall j :: Due(store.Content(), j, now) ==> j in batch
    {
      batch := [];
      var rest := store.outbox.Keys;
      while rest != {} && |batch| < limit
        invariant rest <= store.outbox.Keys && |batch| <= limit
        invariant forall i :: 0 <= i < |batch| ==> Due(store.Content(), batch[i], now) && batch[i] !in rest
        invariant forall i, k :: 0 <= i < k < |batch| ==> batch[i] != batch[k]
        invariant forall j :: Due(store.Content(), j, now) ==> j in batch || j in rest
        decreases rest
      {
        var j :| j in rest;
        rest := rest - {j};
        if IsDue(j, now) { batch := batch + [j]; }
      }
    }

    /** A delivered row is no longer due, the others still are. */
    static lemma DueAfterStart(s: Tables, armed: set<Id>, limit: nat, j: Id, message: Id, now: Time)
      requires NoneLost(s, armed, limit) && CanDeliver(s, j, false, now)
      ensures forall i :: Due(T.StartResultDelivery(s, j, message, false, now), i, now) <==> Due(s, i, now) && i != j
      ensures Waiting(T.StartResultDelivery(s, j, message, false, now).outbox) == Waiting(s.outbox) - {j}
    {
      RowStarted(s, armed, limit, j, message, false, now);
    }

    static lemma DueCanBeDelivered(s: Tables, j: Id, now: Time)
      ensures Due(s, j, now) <==> CanDeliver(s, j, false, now)
      ensures Due(s, j, now) ==> j in Waiting(s.outbox)
    {
    }

    static lemma StartTouchesOne(s: Tables, armed: set<Id>, j: Id, message: Id, retry: bool, now: Time)
      requires CanDeliver(s, j, retry, now)
      ensures var t := T.StartResultDelivery(s, j, message, retry, now);
              && OnlyRows(s, t, {j}) && OnTheWay(t, armed + {j}, {j})
              && OnlyRows(s, T.ResetAfterSendFailure(t, j, message, retry), {j})
    {
    }

    static lemma TouchMore(s: Tables, t: Tables, u: Tables, a: set<Id>, b: set<Id>)
      requires OnlyRows(s, t, a) && OnlyRows(t, u, b)
      ensures OnlyRows(s, u, a + b)
    {
    }

    /** A row on its way stays so while other rows are touched. */
    static lemma StillOnTheWay(s: Tables, t: Tables, armed: set<Id>, more: set<Id>, ids: set<Id>, touched: set<Id>)
      requires OnTheWay(s, armed, ids) && OnlyRows(s, t, touched) && ids !! touched && armed <= more
      ensures OnTheWay(t, more, ids)
    {
    }

    static function Ids(batch: seq<Id>): set<Id> { set j | j in batch }

    method DeliverBatch(batch: seq<Id>, now: Time, ghost start: View, ghost moves: seq<Move>)
      returns (thrown: bool, ghost after: seq<Move>)
      requires Sound() && ClockOk(store.Content(), now) && Connected()
      requires forall i :: 0 <= i < |batch| ==> Due(store.Content(), batch[i], now)
      requires forall i, k :: 0 <= i < k < |batch| ==> batch[i] != batch[k]
      requires IsHistory(start, Limit(), moves) && Afterwards(start, Limit(), moves) == Now()
      modifies this, store
      ensures Sound() && ClockOk(store.Content(), now) && handshakeComplete && caughtUp == old(caughtUp)
      ensures IsHistory(start, Limit(), after) && Afterwards(start, Limit(), after) == Now()
      ensures if thrown then !open else Connected()
      ensures OnlyRows(old(store.Content()), store.Content(), Ids(batch)) && old(timers) <= timers
      ensures !thrown ==> OnTheWay(store.Content(), timers, Ids(batch))
      ensures !thrown ==> forall j :: Due(store.Content(), j, now) <==> Due(old(store.Content()), j, now) && j !in batch
      ensures !thrown ==> Waiting(store.outbox) == Waiting(old(store.outbox)) - set j | j in batch
    {
      hide Valid, T.StartResultDelivery, CanDeliver, Due, NoneLost, T.ResetOutboxPending, T.ResetAfterSendFailure, OnlyRows, OnTheWay;
      assert OnlyRows(old(store.Content()), store.Content(), Ids(batch[..0])) by { NothingTouched(store.Content()); }
      assert OnTheWay(store.Content(), timers, Ids(batch[..0])) by { NobodyOnTheWay(store.Content(), timers); }
      after := moves;
      for i := 0 to |batch|
        invariant Sound() && ClockOk(store.Content(), now) && handshakeComplete && Connected() && caughtUp == old(caughtUp)
        invariant IsHistory(start, Limit(), after) && Afterwards(start, Limit(), after) == Now()
        invariant OnlyRows(old(store.Content()), store.Content(), Ids(batch[..i])) && old(timers) <= timers
        invariant OnTheWay(store.Content(), timers, Ids(batch[..i]))
        invariant forall j :: Due(store.Content(), j, now) <==> Due(old(store.Content()), j, now) && j !in batch[..i]
        invariant Waiting(store.outbox) == Waiting(old(store.outbox)) - set j | j in batch[..i]
      {
        ghost var before := store.Content();
        ghost var armed := timers;
        assert batch[i] !in batch[..i];
        DueCanBeDelivered(before, batch[i], now);
        var message;
        thrown, message := DeliverResult(batch[i], false, now);
        OneMoreMove(start, Limit(), after, Deliver(batch[i], message, now, !thrown));
        after := after + [Deliver(batch[i], message, now, !thrown)];
        StartTouchesOne(before, armed, batch[i], message, false, now);
        TouchMore(old(store.Content()), before, store.Content(), Ids(batch[..i]), {batch[i]});
        assert batch[..i + 1] == batch[..i] + [batch[i]];
        assert Ids(batch[..i + 1]) == Ids(batch[..i]) + {batch[i]};
        if thrown {
          WidenTouched(old(store.Content()), store.Content(), Ids(batch[..i + 1]), Ids(batch));
          return;
        }
        StillOnTheWay(before, store.Content(), armed, timers, Ids(batch[..i]), {batch[i]});
        TwoOnTheWay(store.Content(), timers, Ids(batch[..i]), {batch[i]});
        DueAfterStart(before, armed, maxRetries, batch[i], message, now);
      }
      assert batch[..|batch|] == batch;
      thrown := false;
    }

    static lemma NothingTouched(s: Tables)
      ensures OnlyRows(s, s, {}) && Ids([]) == {}
    {
    }

    static lemma NobodyOnTheWay(s: Tables, armed: set<Id>)
      ensures OnTheWay(s, armed, {}) && Ids([]) == {}
    {
    }

    static lemma WidenTouched(s: Tables, t: Tables, a: set<Id>, b: set<Id>)
      requires OnlyRows(s, t, a) && a <= b
      ensures OnlyRows(s, t, b)
    {
    }

    static lemma TwoOnTheWay(s: Tables, armed: set<Id>, a: set<Id>, b: set<Id>)
      requires OnTheWay(s, armed, a) && OnTheWay(s, armed, b)
      ensures OnTheWay(s, armed, a + b)
    {
    }

    ghost function DueRows(s: Tables, now: Time): set<Id> { set j | j in s.outbox && Due(s, j, now) }

    /** Sends everything that is due and nothing else.  It ends, and if the connection is still up then, nothing
        is due any more: every row that was due is on its way under a timer, and a row in back-off is covered by
        the recovery timer. */
    method ReplayOutbox(now: Time) returns (thrown: bool, ghost moves: seq<Move>)
      requires Sound() && ClockOk(store.Content(), now)
      modifies this, store
      ensures Sound() && handshakeComplete == old(handshakeComplete)
      ensures IsHistory(old(Now()), Limit(), moves) && Afterwards(old(Now()), Limit(), moves) == Now()
      ensures thrown ==> !open
      ensures OnlyRows(old(store.Content()), store.Content(), DueRows(old(store.Content()), now))
      ensures Connected() ==> OnTheWay(store.Content(), timers, DueRows(old(store.Content()), now))
      ensures Connected() ==> caughtUp && Covers(store.outbox, recovery) && forall j :: !Due(store.Content(), j, now)
    {
      hide Valid, Due, NoneLost, CanDeliver, OnlyRows, OnTheWay;
      ghost var start := store.Content();
      ghost var sent: set<Id> := {};
      NothingTouched(start);
      NobodyOnTheWay(start, timers);
      moves := [];
      while Connected()
        invariant IsHistory(old(Now()), Limit(), moves) && Afterwards(old(Now()), Limit(), moves) == Now()
        invariant Sound() && ClockOk(store.Content(), now) && handshakeComplete == old(handshakeComplete)
        invariant OnlyRows(start, store.Content(), sent) && sent <= DueRows(start, now)
        invariant OnTheWay(store.Content(), timers, sent)
        invariant forall j :: Due(store.Content(), j, now) <==> Due(start, j, now) && j !in sent
        decreases Waiting(store.outbox)
      {
        var batch := ListPendingOutbox(BATCH, now);
        if |batch| == 0 { break; }
        DueCanBeDelivered(store.Content(), batch[0], now);
        ghost var waiting := Waiting(store.outbox);
        ghost var before, armed := store.Content(), timers;
        assert Ids(batch) <= DueRows(start, now) by { BatchIsDue(start, before, batch, now); }
        thrown, moves := DeliverBatch(batch, now, old(Now()), moves);
        TouchMore(start, before, store.Content(), sent, Ids(batch));
        if thrown {
          WidenTouched(start, store.Content(), sent + Ids(batch), DueRows(start, now));
          return;
        }
        StillOnTheWay(before, store.Content(), armed, timers, sent, Ids(batch));
        TwoOnTheWay(store.Content(), timers, sent, Ids(batch));
        sent := sent + Ids(batch);
        assert batch[0] in waiting && batch[0] !in Waiting(store.outbox);
        if |batch| < BATCH { break; }
      }
      thrown := false;
      WidenTouched(start, store.Content(), sent, DueRows(start, now));
      assert Connected() ==> DueRows(start, now) == sent;
      ghost var next := ScheduleOutboxRecovery();
      caughtUp := Connected();
      OneMoreMove(old(Now()), Limit(), moves, ReplayEnds(next));
      moves := moves + [ReplayEnds(next)];
    }

    static lemma BatchIsDue(start: Tables, s: Tables, batch: seq<Id>, now: Time)
      requires forall i :: 0 <= i < |batch| ==> Due(s, batch[i], now)
      requires forall j :: Due(s, j, now) ==> Due(start, j, now)
      ensures forall j :: j in batch ==> j in start.outbox && Due(start, j, now)
    {
    }

    method RecoveryTimerFired(now: Time) returns (ghost moves: seq<Move>)
      requires Sound() && ClockOk(store.Content(), now)
      modifies this, store
      ensures Sound() && handshakeComplete == old(handshakeComplete)
      ensures IsHistory(Moved(old(Now()), Limit(), RecoveryTimer), Limit(), moves)
      ensures Afterwards(Moved(old(Now()), Limit(), RecoveryTimer), Limit(), moves) == Now()
      ensures Connected() ==> Covers(store.outbox, recovery) && forall j :: !Due(store.Content(), j, now)
    {
      hide Valid, Due, NoneLost, Covers;
      recovery, caughtUp := None, false;
      var thrown;
      thrown, moves := ReplayOutbox(now);
      if thrown { open := false; }
    }

    // -------------------------------------------------------------------------------------------
    // Acknowledgement
    // -------------------------------------------------------------------------------------------

    /** The row an acknowledgement names: by its job id, or by the id of one of its messages. */
    static ghost predicate Names(s: Tables, candidate: Id, j: Id) {
      (candidate == j && j in s.outbox) || exists d :: d in s.deliveries && d.message == candidate && d.job == j
    }

    method JobOfMessage(message: Id) returns (j: Option<Id>)
      ensures j.Some? ==> exists d :: d in store.deliveries && d.message == message && d.job == j.value
      ensures j.None? ==> forall d :: d in store.deliveries ==> d.message != message
    {
      for i := 0 to |store.deliveries|
        invariant forall k :: 0 <= k < i ==> store.deliveries[k].message != message
      {
        if store.deliveries[i].message == message {
          assert store.deliveries[i] in store.deliveries;
          return Some(store.deliveries[i].job);
        }
      }
      return None;
    }

    method ResolveAckJobId(candidates: seq<Id>) returns (j: Option<Id>)
      ensures j.Some? ==> exists c :: c in candidates && Names(store.Content(), c, j.value)
      ensures j.None? ==> forall c, i :: c in candidates ==> !Names(store.Content(), c, i)
    {
      for k := 0 to |candidates|
        invariant forall c, i :: c in candidates[..k] ==> !Names(store.Content(), c, i)
      {
        if candidates[k] in store.outbox {
          assert Names(store.Content(), candidates[k], candidates[k]);
          return Some(candidates[k]);
        }
        var mapped := JobOfMessage(candidates[k]);
        if mapped.Some? {
          assert Names(store.Content(), candidates[k], mapped.value);
          return mapped;
        }
        assert candidates[..k + 1] == candidates[..k] + [candidates[k]];
      }
      assert candidates[..|candidates|] == candidates;
      return None;
    }

    /** Only a result the acknowledgement names, and that was sent, becomes delivered. */
    method OnResultAck(candidates: seq<Id>, now: Time) returns (acknowledged: Option<Id>, ghost move: Option<Move>)
      requires Sound()
      modifies this, store
      ensures move.None? ==> Now() == old(Now())
      ensures move.Some? ==>
                && move.value.Ack? && (exists c :: c in candidates && Names(old(store.Content()), c, move.value.j))
                && Able(old(Now()), Limit(), move.value) && Now() == Moved(old(Now()), Limit(), move.value)
      ensures Sound() && open == old(open) && handshakeComplete == old(handshakeComplete)
      ensures acknowledged.Some? ==>
                && (exists c :: c in candidates && Names(old(store.Content()), c, acknowledged.value))
                && WasSent(old(store.Content()), acknowledged.value)
                && store.Content() == T.MarkOutboxDelivered(old(store.Content()), acknowledged.value, now)
                && acknowledged.value !in timers
      ensures acknowledged.None? ==> store.Content() == old(store.Content()) && timers == old(timers)
    {
      hide Valid, Names, WasSent, NoneLost;
      var j := ResolveAckJobId(candidates);
      if j.None? { return None, None; }
      ghost var before := store.Content();
      var delivered := store.MarkOutboxDelivered(j.value, now);
      AcknowledgedRow(before, timers, maxRetries, j.value, now);
      ghost var next := ScheduleOutboxRecovery();
      move := Some(Ack(j.value, now, next));
      if delivered {
        timers := timers - {j.value};
        acknowledged := j;
      } else {
        acknowledged := None;
      }
    }
  }
}
