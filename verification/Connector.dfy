/** The connector server: sockets, generations, takeover and late close.

    Hello, message and close transitions are queued and run one after the other; a takeover has one await,
    after the old generation was settled, in which the rest of the daemon may run. */
module Connector {
  import opened Tables
  import T = Tables
  import opened Invariant
  import opened Preservation
  import opened Runs
  import opened JobStores
  import Laws

  datatype Socket = Socket(connectorId: Option<Id>, generation: nat, ready: bool, disconnectHandled: bool)

  const OPENED := Socket(None, 0, false, false)

  datatype Server = Server(sockets: map<Id, Socket>, active: Option<Id>, activeGeneration: nat, nextGeneration: nat)

  const NO_SOCKETS := Server(map[], None, 0, 0)

  predicate IsActive(v: Server, socket: Id) {
    && v.active == Some(socket) && socket in v.sockets
    && v.sockets[socket].ready && v.sockets[socket].generation != 0
    && v.sockets[socket].generation == v.activeGeneration
  }

  function Current(v: Server): Option<Id> {
    if v.active.Some? && IsActive(v, v.active.value) then v.active else None
  }

  function Fence(v: Server, socket: Id): Server {
    if !IsActive(v, socket) then v
    else v.(sockets := v.sockets[socket := v.sockets[socket].(ready := false)], active := None, activeGeneration := 0)
  }

  /** `stored` tells whether the durable disconnect handler succeeded; if not, nothing is marked. */
  function SettleSocket(s: Tables, v: Server, socket: Id, stored: bool): (Tables, Server) {
    if socket !in v.sockets || v.sockets[socket].disconnectHandled then (s, v)
    else if v.sockets[socket].connectorId.None? then
      (s, v.(sockets := v.sockets[socket := v.sockets[socket].(disconnectHandled := true)]))
    else if stored then
      (MarkConnectorDisconnected(s, v.sockets[socket].connectorId.value),
       v.(sockets := v.sockets[socket := v.sockets[socket].(disconnectHandled := true)]))
    else (s, v)
  }

  function SocketClosed(s: Tables, v: Server, socket: Id, stored: bool): (Tables, Server) {
    if socket !in v.sockets || (!IsActive(v, socket) && v.sockets[socket].generation == 0) then (s, v)
    else SettleSocket(s, Fence(v, socket), socket, stored)
  }

  datatype HelloOutcome = Admitted | Repeated | Conflict | Aborted

  predicate CanHello(v: Server, socket: Id) {
    socket in v.sockets && !v.sockets[socket].ready && v.sockets[socket].generation == 0
  }

  /** A hello up to its await: an unresponsive predecessor is fenced and settled, a live one keeps its place. */
  function HelloArrives(s: Tables, v: Server, socket: Id, stale: bool, stored: bool): (Tables, Server, HelloOutcome) {
    if !CanHello(v, socket) then (s, v, Repeated)
    else if Current(v).None? then (s, v, Admitted)
    else if !stale then (s, v, Conflict)
    else
      var previous := Current(v).value;
      var (t, w) := SettleSocket(s, Fence(v, previous), previous, stored);
      (t, w, if w.sockets[previous].disconnectHandled then Admitted else Aborted)
  }

  function Admit(v: Server, socket: Id, connectorId: Id): Server
    requires socket in v.sockets
  {
    var generation := v.nextGeneration + 1;
    Server(v.sockets[socket := v.sockets[socket].(connectorId := Some(connectorId), generation := generation, ready := true)],
           Some(socket), generation, generation)
  }

  class ConnectorServer {
    const store: JobStore
    var sockets: map<Id, Socket>
    var active: Option<Id>
    var activeGeneration: nat
    var nextGeneration: nat

    ghost function Content(): Server
      reads this
    {
      Server(sockets, active, activeGeneration, nextGeneration)
    }

    constructor (store: JobStore)
      ensures this.store == store && Content() == NO_SOCKETS
    {
      this.store := store;
      sockets, active, activeGeneration, nextGeneration := map[], None, 0, 0;
    }

    predicate Serves(socket: Id)
      reads this
      ensures Serves(socket) == IsActive(Content(), socket)
    {
      active == Some(socket) && socket in sockets && sockets[socket].ready && sockets[socket].generation != 0 &&
      sockets[socket].generation == activeGeneration
    }

    method FenceSocket(socket: Id)
      modifies this
      ensures Content() == Fence(old(Content()), socket)
    {
      if !Serves(socket) { return; }
      sockets := sockets[socket := sockets[socket].(ready := false)];
      active := None;
      activeGeneration := 0;
    }

    method SettleDisconnected(socket: Id, stored: bool)
      requires Valid(store.Content())
      modifies this, store
      ensures (store.Content(), Content()) == SettleSocket(old(store.Content()), old(Content()), socket, stored)
      ensures Valid(store.Content())
    {
      hide Valid, T.MarkConnectorDisconnected;
      if socket !in sockets || sockets[socket].disconnectHandled { return; }
      if sockets[socket].connectorId.Some? {
        if !stored { return; }
        var _ := store.MarkConnectorDisconnected(sockets[socket].connectorId.value);
      }
      sockets := sockets[socket := sockets[socket].(disconnectHandled := true)];
    }

    method OnClose(socket: Id, stored: bool)
      requires Valid(store.Content())
      modifies this, store
      ensures (store.Content(), Content()) == SocketClosed(old(store.Content()), old(Content()), socket, stored)
      ensures Valid(store.Content())
    {
      hide Valid, T.MarkConnectorDisconnected;
      if socket !in sockets { return; }
      if Serves(socket) {
        FenceSocket(socket);
      } else if sockets[socket].generation == 0 {
        return;
      }
      SettleDisconnected(socket, stored);
    }

    method AcceptHello(socket: Id, stale: bool, stored: bool) returns (outcome: HelloOutcome)
      requires Valid(store.Content())
      modifies this, store
      ensures (store.Content(), Content(), outcome) == HelloArrives(old(store.Content()), old(Content()), socket, stale, stored)
      ensures Valid(store.Content())
    {
      hide Valid, T.MarkConnectorDisconnected;
      if socket !in sockets || sockets[socket].ready || sockets[socket].generation != 0 { return Repeated; }
      if active.None? || !Serves(active.value) { return Admitted; }
      if !stale { return Conflict; }
      var previous := active.value;
      FenceSocket(previous);
      SettleDisconnected(previous, stored);
      return if sockets[previous].disconnectHandled then Admitted else Aborted;
    }

    method Expose(socket: Id, connectorId: Id)
      requires socket in sockets
      modifies this
      ensures Content() == Admit(old(Content()), socket, connectorId)
    {
      nextGeneration := nextGeneration + 1;
      sockets := sockets[socket := sockets[socket].(connectorId := Some(connectorId), generation := nextGeneration, ready := true)];
      active := Some(socket);
      activeGeneration := nextGeneration;
    }
  }

  // ---------------------------------------------------------------------------------------------
  // All transitions together with the rest of the daemon
  // ---------------------------------------------------------------------------------------------

  /** `arriving` is a hello waiting to be admitted; `claimedUnder` remembers the generation of each claim. */
  datatype State = State(store: Tables, server: Server, arriving: Option<(Id, Id)>, claimedUnder: map<Run, nat>)

  datatype Move =
    | Other(step: Step)
    | Claim(j: Id, lease: Id)
    | Open(socket: Id)
    | Hello(socket: Id, connectorId: Id, stale: bool, stored: bool)
    | Arrived
    | Message(socket: Id, step: Step)
    | Close(socket: Id, stored: bool)

  /** What a connector may say, under its own connector id. */
  predicate Sayable(step: Step, connectorId: Id) {
    || (step.DoRunning? && step.connector == connectorId)
    || step.DoFinish? || step.DoCancelUnknown? || step.DoCancelNotStarted?
  }

  /** Claims for Hermes, acceptance and connector losses go through the connector; a restart is a new server. */
  predicate Elsewhere(step: Step) {
    !step.DoClaim? && !step.DoRunning? && !step.DoConnectorLost? && !step.DoRestart?
  }

  ghost predicate Possible(d: State, move: Move) {
    match move
    case Other(step) => Enabled(d.store, step) && Elsewhere(step)
    case Claim(_, lease) => FreshLease(d.store, lease)
    case Open(socket) => socket !in d.server.sockets
    case Hello(_, _, _, _) => d.arriving.None?
    case Arrived => d.arriving.Some? && d.arriving.value.0 in d.server.sockets
    case Message(_, _) => d.arriving.None?
    case Close(_, _) => d.arriving.None?
  }

  ghost function Moved(d: State, move: Move): State
    requires Possible(d, move)
  {
    match move
    case Other(step) => d.(store := Next(d.store, step))
    case Claim(j, lease) =>
      var current := Current(d.server);
      if current.None? || d.server.sockets[current.value].connectorId.None? then d
      else
        var t := ClaimForDispatch(d.store, j, d.server.sockets[current.value].connectorId.value, lease);
        if t == d.store || j !in t.jobs then d
        else d.(store := t, claimedUnder := d.claimedUnder[CurrentRun(t, j) := d.server.activeGeneration])
    case Open(socket) => d.(server := d.server.(sockets := d.server.sockets[socket := OPENED]))
    case Hello(socket, connectorId, stale, stored) =>
      var (t, v, outcome) := HelloArrives(d.store, d.server, socket, stale, stored);
      d.(store := t, server := v, arriving := if outcome.Admitted? then Some((socket, connectorId)) else None)
    case Arrived => d.(server := Admit(d.server, d.arriving.value.0, d.arriving.value.1), arriving := None)
    case Message(socket, step) =>
      if IsActive(d.server, socket) && d.server.sockets[socket].connectorId.Some? &&
         Sayable(step, d.server.sockets[socket].connectorId.value)
      then d.(store := Next(d.store, step)) else d
    case Close(socket, stored) =>
      var (t, v) := SocketClosed(d.store, d.server, socket, stored);
      d.(store := t, server := v)
  }

  // ---------------------------------------------------------------------------------------------
  // Generations
  // ---------------------------------------------------------------------------------------------

  ghost predicate GenerationsDiffer(sockets: map<Id, Socket>) {
    forall a, b | a in sockets && b in sockets && sockets[a].generation == sockets[b].generation ::
      sockets[a].generation != 0 ==> a == b
  }

  ghost predicate ServerOk(v: Server) {
    && (forall a :: a in v.sockets ==> v.sockets[a].generation <= v.nextGeneration)
    && (forall a :: a in v.sockets && v.sockets[a].generation != 0 ==> v.sockets[a].connectorId.Some?)
    && GenerationsDiffer(v.sockets)
    && (forall a :: a in v.sockets && v.sockets[a].ready ==> v.active == Some(a))
    && (forall a :: a in v.sockets && v.sockets[a].generation == 0 ==> !v.sockets[a].disconnectHandled)
    && (v.active.Some? ==> IsActive(v, v.active.value) && v.activeGeneration == v.nextGeneration &&
                           !v.sockets[v.active.value].disconnectHandled)
    && (v.active.None? ==> v.activeGeneration == 0)
  }

  ghost predicate ArrivingOk(d: State) {
    d.arriving.Some? ==> d.server.active.None? && CanHello(d.server, d.arriving.value.0)
  }

  /** Generations only grow, a socket keeps the one it got, and a newly active one is the highest ever. */
  ghost predicate Grows(v: Server, w: Server) {
    && ServerOk(w) && v.nextGeneration <= w.nextGeneration
    && (w.active.Some? && w.active != v.active ==> w.activeGeneration > v.nextGeneration)
    && (forall a :: a in v.sockets && v.sockets[a].generation != 0 ==>
          a in w.sockets && w.sockets[a].generation == v.sockets[a].generation &&
          w.sockets[a].connectorId == v.sockets[a].connectorId)
  }

  /** One socket changed without changing its generation. */
  lemma SameGenerations(sockets: map<Id, Socket>, a: Id, socket: Socket)
    requires GenerationsDiffer(sockets) && a in sockets && socket.generation == sockets[a].generation
    ensures GenerationsDiffer(sockets[a := socket])
  {
  }

  lemma FenceIs(v: Server, socket: Id)
    requires ServerOk(v)
    ensures v.active != Some(socket) ==> Fence(v, socket) == v
    ensures v.active == Some(socket) ==>
              socket in v.sockets && v.sockets[socket].generation != 0 &&
              Fence(v, socket) == v.(sockets := v.sockets[socket := v.sockets[socket].(ready := false)],
                                     active := None, activeGeneration := 0)
  {
    hide GenerationsDiffer;
  }

  lemma FenceGrows(v: Server, socket: Id)
    requires ServerOk(v)
    ensures Grows(v, Fence(v, socket)) && Fence(v, socket).active != Some(socket)
    ensures forall a :: a in v.sockets && a != socket ==> a in Fence(v, socket).sockets && Fence(v, socket).sockets[a] == v.sockets[a]
    ensures socket in v.sockets ==>
              socket in Fence(v, socket).sockets &&
              Fence(v, socket).sockets[socket].generation == v.sockets[socket].generation
    ensures v.active.None? || v.active == Some(socket) ==> Fence(v, socket).active.None?
  {
    FenceIs(v, socket);
    if v.active == Some(socket) { SameGenerations(v.sockets, socket, v.sockets[socket].(ready := false)); }
    hide Fence, GenerationsDiffer;
  }

  lemma MarkedGrows(v: Server, socket: Id)
    requires ServerOk(v) && v.active != Some(socket) && socket in v.sockets && v.sockets[socket].generation != 0
    ensures Grows(v, v.(sockets := v.sockets[socket := v.sockets[socket].(disconnectHandled := true)]))
  {
    SameGenerations(v.sockets, socket, v.sockets[socket].(disconnectHandled := true));
    hide GenerationsDiffer;
  }

  lemma UnchangedGrows(v: Server)
    requires ServerOk(v)
    ensures Grows(v, v)
  {
  }

  lemma SettleGrows(s: Tables, v: Server, socket: Id, stored: bool)
    requires ServerOk(v) && v.active != Some(socket) && (socket in v.sockets ==> v.sockets[socket].generation != 0)
    ensures var w := SettleSocket(s, v, socket, stored).1;
            && Grows(v, w) && w.active == v.active
            && forall a :: a in v.sockets && a != socket ==> a in w.sockets && w.sockets[a] == v.sockets[a]
  {
    hide MarkConnectorDisconnected, Grows, GenerationsDiffer;
    UnchangedGrows(v);
    if socket in v.sockets { MarkedGrows(v, socket); }
  }

  lemma HelloGrows(s: Tables, v: Server, socket: Id, stale: bool, stored: bool)
    requires ServerOk(v)
    ensures var (_, w, outcome) := HelloArrives(s, v, socket, stale, stored);
            Grows(v, w) && (outcome.Admitted? ==> w.active.None? && CanHello(w, socket))
  {
    if CanHello(v, socket) && Current(v).Some? && stale {
      var previous := Current(v).value;
      FenceGrows(v, previous);
      SettleGrows(s, Fence(v, previous), previous, stored);
      hide SettleSocket, Fence;
    }
  }

  lemma CloseGrows(s: Tables, v: Server, socket: Id, stored: bool)
    requires ServerOk(v)
    ensures Grows(v, SocketClosed(s, v, socket, stored).1)
    ensures v.active.None? ==> SocketClosed(s, v, socket, stored).1.active.None?
  {
    if socket in v.sockets && (IsActive(v, socket) || v.sockets[socket].generation != 0) {
      FenceGrows(v, socket);
      SettleGrows(s, Fence(v, socket), socket, stored);
      hide SettleSocket, Fence;
    }
  }

  lemma GenerationsGrow(d: State, move: Move)
    requires ServerOk(d.server) && ArrivingOk(d) && Possible(d, move)
    ensures Grows(d.server, Moved(d, move).server) && ArrivingOk(Moved(d, move))
  {
    hide Next, ClaimForDispatch, HelloArrives, SocketClosed, GenerationsDiffer, Admit;
    match move
    case Hello(socket, _, stale, stored) => HelloGrows(d.store, d.server, socket, stale, stored);
    case Close(socket, stored) => CloseGrows(d.store, d.server, socket, stored);
    case Arrived => AdmitGrows(d.server, d.arriving.value.0, d.arriving.value.1);
    case Open(socket) => OpenGrows(d.server, socket);
    case _ =>
  }

  lemma AdmitGrows(v: Server, socket: Id, connectorId: Id)
    requires ServerOk(v) && v.active.None? && CanHello(v, socket)
    ensures Grows(v, Admit(v, socket, connectorId))
  {
  }

  lemma OpenGrows(v: Server, socket: Id)
    requires ServerOk(v) && socket !in v.sockets
    ensures Grows(v, v.(sockets := v.sockets[socket := OPENED]))
    ensures forall a :: CanHello(v, a) ==> CanHello(v.(sockets := v.sockets[socket := OPENED]), a)
  {
  }

  /** A superseded socket is not heard. */
  lemma SupersededIsRejected(d: State, socket: Id, step: Step)
    requires ServerOk(d.server) && Possible(d, Message(socket, step)) && d.server.active != Some(socket)
    ensures Moved(d, Message(socket, step)) == d
  {
  }

  // ---------------------------------------------------------------------------------------------
  // No job of an older generation is active when a new one is ready
  // ---------------------------------------------------------------------------------------------

  /** An active Hermes job was active before, in the same run and under the same connector, unless the
      connector that speaks has just accepted it. */
  ghost predicate NothingAwakes(s: Tables, t: Tables, step: Step) {
    forall j | j in t.jobs && t.jobs[j].target.Hermes? && Active(t.jobs[j].status) ::
      && j in s.jobs && s.jobs[j].target.Hermes? && Active(s.jobs[j].status)
      && t.jobs[j].generation == s.jobs[j].generation
      && (t.jobs[j].connector == s.jobs[j].connector || (step.DoRunning? && t.jobs[j].connector == Some(step.connector)))
  }

  lemma NoHermesSlot(s: Tables, session: Id)
    requires Valid(s)
    ensures SlotKey(Hermes, session) !in s.slots
  {
    hide AttemptsOk, DeliveriesOk;
    if SlotKey(Hermes, session) in s.slots { SlotAt(s, SlotKey(Hermes, session)); }
  }

  lemma IntakeAwakesNothing(s: Tables, step: Step)
    requires IsIntake(step)
    ensures NothingAwakes(s, Next(s, step), step)
  {
    hide NextClaim, NextUnsent, NextProgress, NextLoss, NextSession, NextDelivery, Unexpired;
  }

  lemma ClaimSlotAwakesNothing(s: Tables, step: Step)
    requires Valid(s) && step.DoClaimSlot?
    ensures NothingAwakes(s, Next(s, step), step)
  {
    hide NextIntake, NextUnsent, NextProgress, NextLoss, NextSession, NextDelivery;
    hide Valid;
    if step.j in s.jobs { NoHermesSlot(s, s.jobs[step.j].session); }
  }

  lemma ReturnAwakesNothing(s: Tables, step: Step)
    requires step.DoReset? || step.DoResetSlot?
    ensures NothingAwakes(s, Next(s, step), step)
  {
    hide NextIntake, NextClaim, NextProgress, NextLoss, NextSession, NextDelivery;
  }

  lemma CancelledAwakesNothing(s: Tables, step: Step)
    requires step.DoCancelUnsent? || step.DoCancelNotStarted?
    ensures NothingAwakes(s, Next(s, step), step)
  {
    hide NextIntake, NextClaim, NextProgress, NextLoss, NextSession, NextDelivery;
  }

  lemma UnsentAwakesNothing(s: Tables, step: Step)
    requires IsUnsent(step)
    ensures NothingAwakes(s, Next(s, step), step)
  {
    hide Next, NothingAwakes;
    if step.DoReset? || step.DoResetSlot? { ReturnAwakesNothing(s, step); } else { CancelledAwakesNothing(s, step); }
  }

  lemma AcceptAwakesNothing(s: Tables, step: Step)
    requires step.DoRunning?
    ensures NothingAwakes(s, Next(s, step), step)
  {
    hide NextIntake, NextClaim, NextUnsent, NextLoss, NextSession, NextDelivery;
  }

  lemma BackendAcceptAwakesNothing(s: Tables, step: Step)
    requires Valid(s) && step.DoBackendRunning?
    ensures NothingAwakes(s, Next(s, step), step)
  {
    hide Valid;
    BoundJob(s, step);
    hide Next;
  }

  lemma BoundJob(s: Tables, step: Step)
    requires Valid(s) && step.DoBackendRunning?
    ensures var t := Next(s, step);
            t.jobs == s.jobs ||
            (step.j in t.jobs && t.jobs == s.jobs[step.j := t.jobs[step.j]] && !t.jobs[step.j].target.Hermes?)
  {
    hide Valid, NextIntake, NextClaim, NextUnsent, NextLoss, NextSession, NextDelivery;
    if step.j in s.jobs { NoHermesSlot(s, s.jobs[step.j].session); }
  }

  lemma VerdictAwakesNothing(s: Tables, step: Step)
    requires step.DoFinish?
    ensures NothingAwakes(s, Next(s, step), step)
  {
    hide NextIntake, NextClaim, NextUnsent, NextLoss, NextSession, NextDelivery;
  }

  lemma BackendVerdictAwakesNothing(s: Tables, step: Step)
    requires step.DoFinishBackend?
    ensures NothingAwakes(s, Next(s, step), step)
  {
    hide NextIntake, NextClaim, NextUnsent, NextLoss, NextSession, NextDelivery;
  }

  lemma FinishAwakesNothing(s: Tables, step: Step)
    requires step.DoFinish? || step.DoFinishBackend?
    ensures NothingAwakes(s, Next(s, step), step)
  {
    hide Next, NothingAwakes;
    if step.DoFinish? { VerdictAwakesNothing(s, step); } else { BackendVerdictAwakesNothing(s, step); }
  }

  lemma LossAwakesNothing(s: Tables, step: Step)
    requires step.DoCancelUnknown? || step.DoLose? || step.DoConnectorLost? || step.DoBackendLost?
    ensures NothingAwakes(s, Next(s, step), step)
  {
    hide NextIntake, NextClaim, NextUnsent, NextProgress, NextSession, NextDelivery;
  }

  lemma QuietAwakesNothing(s: Tables, step: Step)
    requires IsSession(step) || IsDelivery(step)
    ensures NothingAwakes(s, Next(s, step), step)
  {
    hide NextIntake, NextClaim, NextUnsent, NextProgress, NextLoss, NextSession, NextDelivery;
    if IsSession(step) { SessionKeepsJobs(s, step); } else { DeliveryKeepsJobs(s, step); }
  }

  lemma SessionKeepsJobs(s: Tables, step: Step)
    requires IsSession(step)
    ensures NextSession(s, step).jobs == s.jobs
  {
  }

  lemma DeliveryKeepsJobs(s: Tables, step: Step)
    requires IsDelivery(step)
    ensures NextDelivery(s, step).jobs == s.jobs
  {
  }

  lemma StepAwakesNothing(s: Tables, step: Step)
    requires Valid(s) && !step.DoClaim? && !step.DoRestart?
    ensures NothingAwakes(s, Next(s, step), step)
  {
    hide Valid;
    if IsIntake(step) {
      IntakeAwakesNothing(s, step);
    } else if step.DoClaimSlot? {
      ClaimSlotAwakesNothing(s, step);
    } else if IsUnsent(step) {
      UnsentAwakesNothing(s, step);
    } else if step.DoRunning? {
      AcceptAwakesNothing(s, step);
    } else if step.DoBackendRunning? {
      BackendAcceptAwakesNothing(s, step);
    } else if step.DoFinish? || step.DoFinishBackend? {
      FinishAwakesNothing(s, step);
    } else if step.DoCancelUnknown? || step.DoLose? || step.DoConnectorLost? || step.DoBackendLost? {
      LossAwakesNothing(s, step);
    } else {
      QuietAwakesNothing(s, step);
    }
  }

  /** Every active Hermes job was claimed under the generation that is active now. */
  ghost predicate JobsAreCurrent(d: State) {
    forall j | j in d.store.jobs && d.store.jobs[j].target.Hermes? && Active(d.store.jobs[j].status) ::
      && d.server.active.Some? && d.server.active.value in d.server.sockets
      && CurrentRun(d.store, j) in d.claimedUnder
      && d.claimedUnder[CurrentRun(d.store, j)] == d.server.activeGeneration
      && d.store.jobs[j].connector == d.server.sockets[d.server.active.value].connectorId
  }

  /** Every socket that ever had a generation is active or settled. */
  ghost predicate PastIsSettled(v: Server) {
    forall a :: a in v.sockets && v.sockets[a].generation != 0 ==> v.active == Some(a) || v.sockets[a].disconnectHandled
  }

  ghost predicate Consistent(d: State) {
    Valid(d.store) && ServerOk(d.server) && ArrivingOk(d) && JobsAreCurrent(d) && PastIsSettled(d.server)
  }

  /** The durable disconnect handler does not fail. */
  predicate Reliable(move: Move) {
    (move.Hello? ==> move.stored) && (move.Close? ==> move.stored)
  }

  lemma StepKeepsCurrent(d: State, step: Step)
    requires Consistent(d) && Enabled(d.store, step) && !step.DoClaim? && !step.DoRestart?
    requires step.DoRunning? ==>
               d.server.active.Some? && d.server.sockets[d.server.active.value].connectorId == Some(step.connector)
    ensures Consistent(d.(store := Next(d.store, step)))
  {
    hide Valid, Next, Enabled;
    StepKeepsValid(d.store, step);
    StepAwakesNothing(d.store, step);
  }

  lemma ClaimStepIs(s: Tables, j: Id, connectorId: Id, lease: Id)
    ensures Next(s, DoClaim(j, connectorId, lease)) == ClaimForDispatch(s, j, connectorId, lease)
    ensures FreshLease(s, lease) ==> Enabled(s, DoClaim(j, connectorId, lease))
  {
  }

  lemma ClaimKeeps(d: State, j: Id, lease: Id)
    requires Consistent(d) && FreshLease(d.store, lease)
    ensures Consistent(Moved(d, Claim(j, lease)))
  {
    hide Valid, Next, Enabled, ClaimForDispatch;
    var current := Current(d.server);
    if current.Some? && d.server.sockets[current.value].connectorId.Some? {
      var connectorId := d.server.sockets[current.value].connectorId.value;
      ClaimStepIs(d.store, j, connectorId, lease);
      StepKeepsValid(d.store, DoClaim(j, connectorId, lease));
      ClaimAwakesOne(d.store, j, connectorId, lease);
    }
  }

  /** A claim activates its own job, in a new run and under the connector it names. */
  lemma ClaimAwakesOne(s: Tables, j: Id, connectorId: Id, lease: Id)
    ensures var t := ClaimForDispatch(s, j, connectorId, lease);
            t == s || (&& j in s.jobs && t.jobs == s.jobs[j := t.jobs[j]] && !Active(s.jobs[j].status)
                       && t.jobs[j].connector == Some(connectorId) && t.jobs[j].generation == s.jobs[j].generation + 1)
  {
  }

  /** A settled generation leaves no active Hermes job behind. */
  lemma SettledIsEmpty(d: State)
    requires Consistent(d) && d.server.active.Some?
    ensures var connectorId := d.server.sockets[d.server.active.value].connectorId;
            connectorId.Some? &&
            forall j :: j in d.store.jobs && d.store.jobs[j].target.Hermes? ==>
              !Active(MarkConnectorDisconnected(d.store, connectorId.value).jobs[j].status)
  {
    hide AttemptsOk, DeliveriesOk;
    forall j | j in d.store.jobs && Active(d.store.jobs[j].status) ensures d.store.jobs[j].lease.Some? {
      ActiveJob(d.store, j);
    }
  }

  lemma LostStepIs(s: Tables, connectorId: Id)
    ensures Next(s, DoConnectorLost(connectorId)) == MarkConnectorDisconnected(s, connectorId)
    ensures MarkConnectorDisconnected(s, connectorId).jobs.Keys == s.jobs.Keys
    ensures forall j :: j in s.jobs ==> MarkConnectorDisconnected(s, connectorId).jobs[j].target == s.jobs[j].target
  {
    LostKeepsJobs(s, ConnectorVictims(s, Hermes, connectorId));
    hide Interrupt;
  }

  lemma LostKeepsJobs(s: Tables, victims: set<Id>)
    requires victims <= s.jobs.Keys && forall j :: j in victims ==> s.jobs[j].lease.Some?
    ensures Interrupt(s, victims).jobs.Keys == s.jobs.Keys
    ensures forall j :: j in s.jobs ==> Interrupt(s, victims).jobs[j].target == s.jobs[j].target
  {
  }

  /** Fencing and settling the active socket. */
  lemma RetireKeeps(d: State)
    requires Consistent(d) && d.server.active.Some? && d.arriving.None?
    ensures var socket := d.server.active.value;
            var (t, v) := SettleSocket(d.store, Fence(d.server, socket), socket, true);
            Consistent(d.(store := t, server := v)) && v.active.None? && v.sockets[socket].disconnectHandled
  {
    hide Valid, MarkConnectorDisconnected, Next;
    var socket := d.server.active.value;
    SettledIsEmpty(d);
    var connectorId := d.server.sockets[socket].connectorId.value;
    LostStepIs(d.store, connectorId);
    StepKeepsValid(d.store, DoConnectorLost(connectorId));
  }

  lemma HelloKeeps(d: State, socket: Id, connectorId: Id, stale: bool)
    requires Consistent(d) && d.arriving.None?
    ensures Consistent(Moved(d, Hello(socket, connectorId, stale, true)))
  {
    hide Valid, MarkConnectorDisconnected, SettleSocket, Fence;
    if CanHello(d.server, socket) && Current(d.server).Some? && stale {
      RetireKeeps(d);
      FencedHello(d, socket);
    }
  }

  /** A socket without a generation stays so while another is retired. */
  lemma FencedHello(d: State, socket: Id)
    requires Consistent(d) && d.server.active.Some? && CanHello(d.server, socket)
    ensures CanHello(SettleSocket(d.store, Fence(d.server, d.server.active.value), d.server.active.value, true).1, socket)
  {
    hide Valid, MarkConnectorDisconnected;
  }

  lemma CloseKeeps(d: State, socket: Id)
    requires Consistent(d) && d.arriving.None?
    ensures Consistent(Moved(d, Close(socket, true)))
  {
    hide Valid, MarkConnectorDisconnected;
    if IsActive(d.server, socket) { RetireKeeps(d); }
  }

  lemma MoveKeeps(d: State, move: Move)
    requires Consistent(d) && Possible(d, move) && Reliable(move)
    ensures Consistent(Moved(d, move))
  {
    match move
    case Other(step) => StepKeepsCurrent(d, step);
    case Claim(j, lease) => ClaimKeeps(d, j, lease);
    case Open(socket) => OpenKeeps(d, socket);
    case Hello(socket, connectorId, stale, _) => HelloKeeps(d, socket, connectorId, stale);
    case Arrived => ArrivedKeeps(d);
    case Message(socket, step) => MessageKeeps(d, socket, step);
    case Close(socket, _) => CloseKeeps(d, socket);
  }

  lemma OpenKeeps(d: State, socket: Id)
    requires Consistent(d) && Possible(d, Open(socket))
    ensures Consistent(Moved(d, Open(socket)))
  {
    OpenGrows(d.server, socket);
    hide Valid, GenerationsDiffer;
  }

  lemma ArrivedKeeps(d: State)
    requires Consistent(d) && Possible(d, Arrived)
    ensures Consistent(Moved(d, Arrived))
  {
    AdmitGrows(d.server, d.arriving.value.0, d.arriving.value.1);
    hide Valid, ServerOk;
  }

  lemma SayableIsEnabled(s: Tables, step: Step, connectorId: Id)
    requires Sayable(step, connectorId)
    ensures Enabled(s, step)
  {
  }

  lemma MessageKeeps(d: State, socket: Id, step: Step)
    requires Consistent(d) && Possible(d, Message(socket, step))
    ensures Consistent(Moved(d, Message(socket, step)))
  {
    hide Valid, Next, JobsAreCurrent, PastIsSettled, GenerationsDiffer;
    if Moved(d, Message(socket, step)) != d {
      SayableIsEnabled(d.store, step, d.server.sockets[socket].connectorId.value);
      StepKeepsCurrent(d, step);
    }
  }

  // ---------------------------------------------------------------------------------------------
  // With a handler that may fail
  // ---------------------------------------------------------------------------------------------

  predicate AtConnector(s: Tables, j: Id) {
    j in s.jobs && s.jobs[j].target.Hermes? && Active(s.jobs[j].status)
  }

  /** The socket is active, or fenced and not yet settled, and its connector is this one. */
  predicate Holds(v: Server, socket: Id, connectorId: Option<Id>) {
    && socket in v.sockets && v.sockets[socket].generation != 0 && !v.sockets[socket].disconnectHandled
    && v.sockets[socket].connectorId == connectorId
  }

  ghost predicate Held(v: Server, connectorId: Option<Id>) { exists a :: Holds(v, a, connectorId) }

  /** Every active Hermes job is held by such a socket, and was claimed under a generation there has been. */
  ghost predicate JobsAreHeld(d: State) {
    forall j | AtConnector(d.store, j) ::
      && Held(d.server, d.store.jobs[j].connector)
      && CurrentRun(d.store, j) in d.claimedUnder && d.claimedUnder[CurrentRun(d.store, j)] <= d.server.nextGeneration
  }

  ghost predicate Sound(d: State) {
    Valid(d.store) && ServerOk(d.server) && ArrivingOk(d) && JobsAreHeld(d)
  }

  /** A settlement ends exactly the jobs at its connector. */
  lemma LostExactly(s: Tables, connectorId: Id)
    requires Valid(s)
    ensures var t := MarkConnectorDisconnected(s, connectorId);
            && Valid(t) && t.jobs.Keys == s.jobs.Keys
            && (forall j :: j in s.jobs ==> t.jobs[j] == s.jobs[j].(status := t.jobs[j].status))
            && (forall j :: AtConnector(t, j) <==> AtConnector(s, j) && s.jobs[j].connector != Some(connectorId))
  {
    MarkConnectorDisconnectedKeeps(s, connectorId);
    LostStepIs(s, connectorId);
    hide Valid, MarkConnectorDisconnected, AtConnector, Next;
    var t := MarkConnectorDisconnected(s, connectorId);
    forall j | j in s.jobs
      ensures t.jobs[j] == s.jobs[j].(status := t.jobs[j].status)
      ensures AtConnector(t, j) <==> AtConnector(s, j) && s.jobs[j].connector != Some(connectorId)
    {
      LostJob(s, connectorId, j);
    }
    assert forall j :: AtConnector(s, j) || AtConnector(t, j) ==> j in s.jobs by { OnlyJobsAreThere(s, t); }
  }

  lemma OnlyJobsAreThere(s: Tables, t: Tables)
    requires s.jobs.Keys == t.jobs.Keys
    ensures forall j :: AtConnector(s, j) || AtConnector(t, j) ==> j in s.jobs
  {
  }

  lemma LostJob(s: Tables, connectorId: Id, j: Id)
    requires Valid(s) && j in s.jobs
    ensures var t := MarkConnectorDisconnected(s, connectorId);
            && j in t.jobs && t.jobs[j] == s.jobs[j].(status := t.jobs[j].status)
            && (AtConnector(t, j) <==> AtConnector(s, j) && s.jobs[j].connector != Some(connectorId))
  {
    hide Valid, Interrupt;
    InterruptedJobs(s, ConnectorVictims(s, Hermes, connectorId));
    if AtConnector(s, j) { ActiveHasLease(s, j); }
  }

  lemma InterruptedJobs(s: Tables, victims: set<Id>)
    requires victims <= s.jobs.Keys && forall j :: j in victims ==> s.jobs[j].lease.Some?
    ensures Interrupt(s, victims).jobs.Keys == s.jobs.Keys
    ensures forall j :: j in s.jobs ==>
              Interrupt(s, victims).jobs[j] == if j in victims then s.jobs[j].(status := LostStatus(s.jobs[j].status)) else s.jobs[j]
  {
  }

  lemma ActiveHasLease(s: Tables, j: Id)
    requires Valid(s) && AtConnector(s, j)
    ensures s.jobs[j].lease.Some?
  {
    hide AttemptsOk, DeliveriesOk;
    ActiveJob(s, j);
  }

  /** Fencing or opening a socket, or giving a new generation, leaves jobs where they are held. */
  lemma StillHeld(d: State, e: State)
    requires JobsAreHeld(d) && e.store == d.store && e.claimedUnder == d.claimedUnder
    requires d.server.nextGeneration <= e.server.nextGeneration
    requires forall a, c :: Holds(d.server, a, c) ==> Holds(e.server, a, c)
    ensures JobsAreHeld(e)
  {
    forall c | Held(d.server, c) ensures Held(e.server, c) {
      var a :| Holds(d.server, a, c);
      assert Holds(e.server, a, c);
    }
  }

  lemma ActiveHolds(v: Server)
    requires ServerOk(v) && v.active.Some?
    ensures v.active.value in v.sockets && Held(v, v.sockets[v.active.value].connectorId)
    ensures v.activeGeneration <= v.nextGeneration
  {
    hide GenerationsDiffer;
    assert Holds(v, v.active.value, v.sockets[v.active.value].connectorId);
  }

  lemma StepKeepsHeld(d: State, step: Step)
    requires Sound(d) && Enabled(d.store, step) && !step.DoClaim? && !step.DoRestart?
    requires step.DoRunning? ==>
               d.server.active.Some? && d.server.sockets[d.server.active.value].connectorId == Some(step.connector)
    ensures Sound(d.(store := Next(d.store, step)))
  {
    hide Valid, Next, Enabled, GenerationsDiffer, Held;
    StepKeepsValid(d.store, step);
    StepAwakesNothing(d.store, step);
    if step.DoRunning? { ActiveHolds(d.server); }
    hide ServerOk, ArrivingOk;
    var t := Next(d.store, step);
    forall j | AtConnector(t, j)
      ensures AtConnector(d.store, j) && CurrentRun(t, j) == CurrentRun(d.store, j) && Held(d.server, t.jobs[j].connector)
    {
      assert AtConnector(d.store, j);
    }
  }

  lemma ClaimKeepsHeld(d: State, j: Id, lease: Id)
    requires Sound(d) && FreshLease(d.store, lease)
    ensures Sound(Moved(d, Claim(j, lease)))
  {
    hide Valid, Next, Enabled, ClaimForDispatch, GenerationsDiffer, Held;
    var current := Current(d.server);
    if current.Some? && d.server.sockets[current.value].connectorId.Some? {
      var connectorId := d.server.sockets[current.value].connectorId.value;
      ClaimStepIs(d.store, j, connectorId, lease);
      StepKeepsValid(d.store, DoClaim(j, connectorId, lease));
      ClaimAwakesOne(d.store, j, connectorId, lease);
      ActiveHolds(d.server);
      hide ServerOk, ArrivingOk;
      var c := Moved(d, Claim(j, lease));
      forall i | AtConnector(c.store, i) && i != j ensures AtConnector(d.store, i) && CurrentRun(c.store, i) == CurrentRun(d.store, i) {
      }
    }
  }

  /** A fenced socket is settled: what it held is over, and other jobs are held by others. */
  lemma SettleKeepsHeld(d: State, socket: Id, stored: bool)
    requires Valid(d.store) && JobsAreHeld(d) && (socket in d.server.sockets ==> d.server.sockets[socket].generation != 0)
    requires socket in d.server.sockets ==> d.server.sockets[socket].connectorId.Some?
    ensures var (t, v) := SettleSocket(d.store, d.server, socket, stored);
            Valid(t) && JobsAreHeld(d.(store := t, server := v))
  {
    hide Valid, MarkConnectorDisconnected;
    if socket in d.server.sockets && !d.server.sockets[socket].disconnectHandled && stored {
      LostExactly(d.store, d.server.sockets[socket].connectorId.value);
      var (t, v) := SettleSocket(d.store, d.server, socket, stored);
      forall j | AtConnector(t, j) ensures AtConnector(d.store, j) && Held(v, t.jobs[j].connector) {
        var a :| Holds(d.server, a, d.store.jobs[j].connector);
        assert Holds(v, a, t.jobs[j].connector);
      }
    }
  }

  lemma RetireKeepsHeld(d: State, socket: Id, stored: bool)
    requires Sound(d) && (socket in d.server.sockets ==> d.server.sockets[socket].generation != 0)
    ensures var (t, v) := SettleSocket(d.store, Fence(d.server, socket), socket, stored);
            Valid(t) && JobsAreHeld(d.(store := t, server := v))
  {
    hide Valid, JobsAreHeld, SettleSocket, GenerationsDiffer;
    FenceIs(d.server, socket);
    StillHeld(d, d.(server := Fence(d.server, socket)));
    SettleKeepsHeld(d.(server := Fence(d.server, socket)), socket, stored);
  }

  lemma AdmitKeepsHeld(d: State)
    requires Sound(d) && Possible(d, Arrived)
    ensures JobsAreHeld(Moved(d, Arrived))
  {
    hide Valid, JobsAreHeld, GenerationsDiffer;
    StillHeld(d, Moved(d, Arrived));
  }

  lemma MoveKeepsSound(d: State, move: Move)
    requires Sound(d) && Possible(d, move)
    ensures Sound(Moved(d, move))
  {
    GenerationsGrow(d, move);
    hide Valid, ServerOk, ArrivingOk, JobsAreHeld, Next, Enabled, ClaimForDispatch, SettleSocket, Fence, Admit, Grows;
    match move
    case Other(step) => StepKeepsHeld(d, step);
    case Claim(j, lease) => ClaimKeepsHeld(d, j, lease);
    case Open(socket) => StillHeld(d, Moved(d, move));
    case Hello(socket, connectorId, stale, stored) =>
      if CanHello(d.server, socket) && Current(d.server).Some? && stale {
        ActiveHasGeneration(d.server);
        RetireKeepsHeld(d, Current(d.server).value, stored);
      }
    case Arrived => AdmitKeepsHeld(d);
    case Message(socket, step) =>
      if IsActive(d.server, socket) && Moved(d, move) != d {
        SayableIsEnabled(d.store, step, d.server.sockets[socket].connectorId.value);
        StepKeepsHeld(d, step);
      }
    case Close(socket, stored) =>
      if socket in d.server.sockets && (IsActive(d.server, socket) || d.server.sockets[socket].generation != 0) {
        RetireKeepsHeld(d, socket, stored);
      }
  }

  lemma ActiveHasGeneration(v: Server)
    requires Current(v).Some?
    ensures Current(v).value in v.sockets && v.sockets[Current(v).value].generation != 0
  {
  }

  // ---------------------------------------------------------------------------------------------
  // Histories
  // ---------------------------------------------------------------------------------------------

  ghost predicate IsHistory(d: State, moves: seq<Move>)
    decreases |moves|
  {
    moves == [] || (Possible(d, moves[0]) && IsHistory(Moved(d, moves[0]), moves[1..]))
  }

  predicate AllReliable(moves: seq<Move>) { forall i :: 0 <= i < |moves| ==> Reliable(moves[i]) }

  ghost function Afterwards(d: State, moves: seq<Move>): State
    requires IsHistory(d, moves)
    decreases |moves|
  {
    if moves == [] then d else Afterwards(Moved(d, moves[0]), moves[1..])
  }

  /** A server that has just started on a recovered store. */
  function Restarted(s: Tables): State { State(s, NO_SOCKETS, None, map[]) }

  lemma {:induction false} HistoryKeeps(d: State, moves: seq<Move>)
    requires Consistent(d) && IsHistory(d, moves) && AllReliable(moves)
    ensures Consistent(Afterwards(d, moves))
    decreases |moves|
  {
    hide Consistent, Moved, Possible;
    if moves != [] {
      MoveKeeps(d, moves[0]);
      HistoryKeeps(Moved(d, moves[0]), moves[1..]);
    }
  }

  lemma {:induction false} HistoryKeepsSound(d: State, moves: seq<Move>)
    requires Sound(d) && IsHistory(d, moves)
    ensures Sound(Afterwards(d, moves))
    decreases |moves|
  {
    hide Sound, Moved, Possible;
    if moves != [] {
      MoveKeepsSound(d, moves[0]);
      HistoryKeepsSound(Moved(d, moves[0]), moves[1..]);
    }
  }

  /** From a restarted store, with a reliable handler: whenever a generation is ready, no job of an older one is
      active, and the late close of any socket that is not active, whatever its connector id, changes nothing. */
  lemma TakeoverIsClean(s: Tables, moves: seq<Move>)
    requires Valid(s) && ActiveJobs(s) == {}
    requires IsHistory(Restarted(s), moves) && AllReliable(moves)
    ensures var d := Afterwards(Restarted(s), moves);
            && (forall j :: AtConnector(d.store, j) ==>
                  && d.server.active.Some?
                  && CurrentRun(d.store, j) in d.claimedUnder
                  && d.claimedUnder[CurrentRun(d.store, j)] == d.server.activeGeneration)
            && (forall socket, stored :: socket in d.server.sockets && d.server.active != Some(socket) ==>
                  SocketClosed(d.store, d.server, socket, stored) == (d.store, d.server))
  {
    hide Valid, MarkConnectorDisconnected, IsHistory, Afterwards;
    NothingActive(s);
    HistoryKeeps(Restarted(s), moves);
  }

  /** From a restarted store, whatever the handler does: every active Hermes job is at the connector of a socket
      that is active, or fenced and not yet settled; so a close that comes late can still settle it. */
  lemma JobsStayHeld(s: Tables, moves: seq<Move>)
    requires Valid(s) && ActiveJobs(s) == {} && IsHistory(Restarted(s), moves)
    ensures Sound(Afterwards(Restarted(s), moves))
  {
    NothingActive(s);
    HistoryKeepsSound(Restarted(s), moves);
  }

  lemma NothingActive(s: Tables)
    requires Valid(s) && ActiveJobs(s) == {}
    ensures forall j :: j in s.jobs ==> !Active(s.jobs[j].status)
  {
    hide AttemptsOk, DeliveriesOk;
    forall j | j in s.jobs ensures !Active(s.jobs[j].status) {
      if Active(s.jobs[j].status) { ActiveJob(s, j); }
      assert j !in ActiveJobs(s);
    }
  }

  // ---------------------------------------------------------------------------------------------
  // A new generation, exactly
  // ---------------------------------------------------------------------------------------------

  /** The state once a hello over a stale predecessor is admitted: at once when the settlement succeeds, with
      the same hello sent again when it fails. */
  ghost function TakenOver(d: State, socket: Id, connectorId: Id, stored: bool, again: bool): State
    requires d.arriving.None?
  {
    var a := Moved(d, Hello(socket, connectorId, true, stored));
    var b := if a.arriving.Some? then a else Moved(a, Hello(socket, connectorId, true, again));
    if Possible(b, Arrived) then Moved(b, Arrived) else b
  }

  lemma TakenOverIs(d: State, socket: Id, connectorId: Id, stored: bool, again: bool)
    requires ServerOk(d.server) && d.arriving.None? && d.server.active.Some? && CanHello(d.server, socket)
    ensures d.server.sockets[d.server.active.value].connectorId.Some?
    ensures var c := TakenOver(d, socket, connectorId, stored, again);
            && c.server.active == Some(socket) && c.server.activeGeneration == d.server.nextGeneration + 1
            && c.claimedUnder == d.claimedUnder
            && c.store == (if stored then MarkConnectorDisconnected(d.store, d.server.sockets[d.server.active.value].connectorId.value)
                           else d.store)
  {
    hide MarkConnectorDisconnected, GenerationsDiffer;
  }

  /** The state once a socket has closed and another one's hello is admitted. */
  ghost function Replaced(d: State, former: Id, stored: bool, socket: Id, connectorId: Id): State
    requires d.arriving.None?
  {
    var a := Moved(d, Close(former, stored));
    var b := Moved(a, Hello(socket, connectorId, false, true));
    if Possible(b, Arrived) then Moved(b, Arrived) else b
  }

  /** `former` is the socket in charge: the active one, or a fenced one not yet settled when none is active. */
  predicate InCharge(v: Server, former: Id) {
    && former in v.sockets && v.sockets[former].generation != 0 && !v.sockets[former].disconnectHandled
    && (v.active.None? || v.active == Some(former))
  }

  lemma ReplacedIs(d: State, former: Id, stored: bool, socket: Id, connectorId: Id)
    requires ServerOk(d.server) && d.arriving.None? && InCharge(d.server, former) && CanHello(d.server, socket)
    ensures d.server.sockets[former].connectorId.Some?
    ensures var c := Replaced(d, former, stored, socket, connectorId);
            && c.server.active == Some(socket) && c.server.activeGeneration == d.server.nextGeneration + 1
            && c.claimedUnder == d.claimedUnder
            && c.store == (if stored then MarkConnectorDisconnected(d.store, d.server.sockets[former].connectorId.value) else d.store)
  {
    hide MarkConnectorDisconnected, GenerationsDiffer;
  }

  /** The job is active while a newer generation than the one it was claimed under is ready. */
  ghost predicate LeftBehind(d: State, j: Id) {
    && AtConnector(d.store, j) && d.server.active.Some?
    && CurrentRun(d.store, j) in d.claimedUnder && d.claimedUnder[CurrentRun(d.store, j)] < d.server.activeGeneration
  }

  /** From any reachable state: the new generation of a takeover leaves a job behind if and only if the settlement
      was not stored, or the job is at another connector than the one taken over. */
  lemma TakeoverIsCleanExactly(d: State, socket: Id, connectorId: Id, stored: bool, again: bool, j: Id)
    requires Sound(d) && d.arriving.None? && d.server.active.Some? && CanHello(d.server, socket)
    requires AtConnector(d.store, j)
    ensures var c := TakenOver(d, socket, connectorId, stored, again);
            && c.server.active == Some(socket)
            && (LeftBehind(c, j) <==>
                  !stored || d.store.jobs[j].connector != d.server.sockets[d.server.active.value].connectorId)
  {
    hide TakenOver, MarkConnectorDisconnected, Valid, GenerationsDiffer;
    TakenOverIs(d, socket, connectorId, stored, again);
    LostExactly(d.store, d.server.sockets[d.server.active.value].connectorId.value);
  }

  /** The same for a close, on time or late, followed by an ordinary hello, which needs no takeover. */
  lemma CloseIsCleanExactly(d: State, former: Id, stored: bool, socket: Id, connectorId: Id, j: Id)
    requires Sound(d) && d.arriving.None? && InCharge(d.server, former) && CanHello(d.server, socket)
    requires AtConnector(d.store, j)
    ensures var c := Replaced(d, former, stored, socket, connectorId);
            && c.server.active == Some(socket)
            && (LeftBehind(c, j) <==> !stored || d.store.jobs[j].connector != d.server.sockets[former].connectorId)
  {
    hide Replaced, MarkConnectorDisconnected, Valid, GenerationsDiffer;
    ReplacedIs(d, former, stored, socket, connectorId);
    LostExactly(d.store, d.server.sockets[former].connectorId.value);
  }

  ghost predicate NoneAtConnector(s: Tables) { forall j :: !AtConnector(s, j) }

  ghost predicate AllAt(s: Tables, connectorId: Option<Id>) {
    forall j :: AtConnector(s, j) ==> s.jobs[j].connector == connectorId
  }

  /** After any history, failed settlements included: a takeover leaves no job at a connector if and only if its
      settlement is stored and every job was at the connector taken over, or there was none. */
  lemma TakeoverAfterHistory(s: Tables, moves: seq<Move>, socket: Id, connectorId: Id, stored: bool, again: bool)
    requires Valid(s) && ActiveJobs(s) == {} && IsHistory(Restarted(s), moves)
    requires var d := Afterwards(Restarted(s), moves);
             d.arriving.None? && Current(d.server).Some? && CanHello(d.server, socket)
    ensures var d := Afterwards(Restarted(s), moves);
            var c := TakenOver(d, socket, connectorId, stored, again);
            && c.server.active == Some(socket) && c.server.activeGeneration == d.server.nextGeneration + 1
            && (NoneAtConnector(c.store) <==>
                  if stored then AllAt(d.store, d.server.sockets[Current(d.server).value].connectorId) else NoneAtConnector(d.store))
  {
    hide IsHistory, Afterwards, TakenOver, Valid, MarkConnectorDisconnected, GenerationsDiffer, AtConnector;
    JobsStayHeld(s, moves);
    var d := Afterwards(Restarted(s), moves);
    TakenOverIs(d, socket, connectorId, stored, again);
    LostExactly(d.store, d.server.sockets[d.server.active.value].connectorId.value);
  }

  /** The same for a close and an ordinary hello. */
  lemma CloseAfterHistory(s: Tables, moves: seq<Move>, former: Id, stored: bool, socket: Id, connectorId: Id)
    requires Valid(s) && ActiveJobs(s) == {} && IsHistory(Restarted(s), moves)
    requires var d := Afterwards(Restarted(s), moves);
             d.arriving.None? && InCharge(d.server, former) && CanHello(d.server, socket)
    ensures var d := Afterwards(Restarted(s), moves);
            var c := Replaced(d, former, stored, socket, connectorId);
            && c.server.active == Some(socket) && c.server.activeGeneration == d.server.nextGeneration + 1
            && (NoneAtConnector(c.store) <==>
                  if stored then AllAt(d.store, d.server.sockets[former].connectorId) else NoneAtConnector(d.store))
  {
    hide IsHistory, Afterwards, Replaced, Valid, MarkConnectorDisconnected, GenerationsDiffer, AtConnector;
    JobsStayHeld(s, moves);
    var d := Afterwards(Restarted(s), moves);
    ReplacedIs(d, former, stored, socket, connectorId);
    LostExactly(d.store, d.server.sockets[former].connectorId.value);
  }

  // A job is claimed under the first generation; its socket closes and the settlement fails; a second socket says
  // hello; then a third one takes over, and that settlement is stored, for the connector of the second.
  const LATER_TAKEOVER := [Open(2)] + ([Hello(2, 7, true, true)] + ([Arrived] + []))
  const FIRST := Socket(Some(5), 1, true, false)
  const FENCED := FIRST.(ready := false)
  const SECOND := Socket(Some(6), 2, true, false)
  const RETIRED := SECOND.(ready := false, disconnectHandled := true)
  const CLAIMING := Claimed(Server(map[0 := FIRST], Some(0), 1, 1))
  const EXPOSED := Claimed(Server(map[0 := FENCED, 1 := SECOND], Some(1), 2, 2))
  const EXPOSED_AGAIN := Claimed(Server(map[0 := FENCED, 1 := RETIRED, 2 := Socket(Some(7), 3, true, false)], Some(2), 3, 3))

  function Claimed(server: Server): State { State(Laws.CLAIMED, server, None, map[Run(1, 1) := 1]) }

  function FailedClose(rest: seq<Move>): seq<Move> {
    [Open(0)] + ([Hello(0, 5, false, true)] + ([Arrived] + ([Claim(1, 9)] + CloseAndHello(rest))))
  }

  function CloseAndHello(rest: seq<Move>): seq<Move> {
    [Close(0, false)] + ([Open(1)] + ([Hello(1, 6, false, true)] + ([Arrived] + rest)))
  }

  lemma LeadsTo(d: State, move: Move, e: State, rest: seq<Move>)
    requires Possible(d, move) && Moved(d, move) == e && IsHistory(e, rest)
    ensures IsHistory(d, [move] + rest) && Afterwards(d, [move] + rest) == Afterwards(e, rest)
  {
    assert ([move] + rest)[1..] == rest;
  }

  lemma ToClaim(rest: seq<Move>)
    requires IsHistory(CLAIMING, CloseAndHello(rest))
    ensures IsHistory(Restarted(Laws.INGESTED), FailedClose(rest))
    ensures Afterwards(Restarted(Laws.INGESTED), FailedClose(rest)) == Afterwards(CLAIMING, CloseAndHello(rest))
  {
    Laws.ClaimOne();
    ClaimStepIs(Laws.INGESTED, 1, 5, 9);
    hide Next, ClaimForDispatch, IsHistory, Afterwards;
    var d0 := Restarted(Laws.INGESTED);
    var d1 := d0.(server := Server(map[0 := OPENED], None, 0, 0));
    var d2 := d1.(arriving := Some((0, 5)));
    var d3 := d0.(server := Server(map[0 := FIRST], Some(0), 1, 1));
    LeadsTo(d3, Claim(1, 9), CLAIMING, CloseAndHello(rest));
    LeadsTo(d2, Arrived, d3, [Claim(1, 9)] + CloseAndHello(rest));
    LeadsTo(d1, Hello(0, 5, false, true), d2, [Arrived] + ([Claim(1, 9)] + CloseAndHello(rest)));
    LeadsTo(d0, Open(0), d1, [Hello(0, 5, false, true)] + ([Arrived] + ([Claim(1, 9)] + CloseAndHello(rest))));
  }

  lemma FromClaim(rest: seq<Move>)
    requires IsHistory(EXPOSED, rest)
    ensures IsHistory(CLAIMING, CloseAndHello(rest)) && Afterwards(CLAIMING, CloseAndHello(rest)) == Afterwards(EXPOSED, rest)
  {
    hide IsHistory, Afterwards;
    var d5 := Claimed(Server(map[0 := FENCED], None, 0, 1));
    var d6 := Claimed(Server(map[0 := FENCED, 1 := OPENED], None, 0, 1));
    LeadsTo(d6.(arriving := Some((1, 6))), Arrived, EXPOSED, rest);
    LeadsTo(d6, Hello(1, 6, false, true), d6.(arriving := Some((1, 6))), [Arrived] + rest);
    LeadsTo(d5, Open(1), d6, [Hello(1, 6, false, true)] + ([Arrived] + rest));
    LeadsTo(CLAIMING, Close(0, false), d5, [Open(1)] + ([Hello(1, 6, false, true)] + ([Arrived] + rest)));
  }

  const RIVAL := Claimed(Server(map[0 := FENCED, 1 := SECOND, 2 := OPENED], Some(1), 2, 2))
  const TAKING := Claimed(Server(map[0 := FENCED, 1 := RETIRED, 2 := OPENED], None, 0, 2)).(arriving := Some((2, 7)))

  lemma OtherConnectorIsNotLost()
    ensures MarkConnectorDisconnected(Laws.CLAIMED, 6) == Laws.CLAIMED
  {
    assert ConnectorVictims(Laws.CLAIMED, Hermes, 6) == {};
    NoVictims(Laws.CLAIMED);
  }

  lemma NoVictims(s: Tables)
    ensures Interrupt(s, {}) == s
  {
    assert s.quarantine + {} == s.quarantine;
  }

  lemma SecondIsSettled()
    ensures SettleSocket(Laws.CLAIMED, Fence(RIVAL.server, 1), 1, true) == (Laws.CLAIMED, TAKING.server)
  {
    OtherConnectorIsNotLost();
    hide MarkConnectorDisconnected;
    var sockets := map[0 := FENCED, 1 := SECOND.(ready := false), 2 := OPENED];
    assert RIVAL.server.sockets[1 := SECOND.(ready := false)] == sockets;
    assert Fence(RIVAL.server, 1) == Server(sockets, None, 0, 2);
    hide Fence;
    assert sockets[1 := RETIRED] == TAKING.server.sockets;
  }

  lemma SecondIsTakenOver()
    ensures Possible(RIVAL, Hello(2, 7, true, true)) && Moved(RIVAL, Hello(2, 7, true, true)) == TAKING
  {
    SecondIsSettled();
    assert Current(RIVAL.server) == Some(1);
    hide SettleSocket, Fence;
  }

  lemma ThirdArrives()
    ensures Possible(TAKING, Arrived) && Moved(TAKING, Arrived) == EXPOSED_AGAIN
  {
  }

  lemma FromExposed()
    ensures IsHistory(EXPOSED, LATER_TAKEOVER) && Afterwards(EXPOSED, LATER_TAKEOVER) == EXPOSED_AGAIN
  {
    SecondIsTakenOver();
    ThirdArrives();
    assert Moved(EXPOSED, Open(2)) == RIVAL;
    assert IsHistory(EXPOSED_AGAIN, []) && Afterwards(EXPOSED_AGAIN, []) == EXPOSED_AGAIN;
    hide Moved, IsHistory, Afterwards;
    LeadsTo(TAKING, Arrived, EXPOSED_AGAIN, []);
    LeadsTo(RIVAL, Hello(2, 7, true, true), TAKING, [Arrived] + []);
    LeadsTo(EXPOSED, Open(2), RIVAL, [Hello(2, 7, true, true)] + ([Arrived] + []));
  }

  lemma BothLeaveItBehind()
    ensures LeftBehind(EXPOSED, 1) && LeftBehind(EXPOSED_AGAIN, 1)
  {
  }

  lemma IngestedIsIdle()
    ensures Valid(Laws.INGESTED) && ActiveJobs(Laws.INGESTED) == {}
  {
    Laws.IngestOne();
    EmptyValid();
    StepKeepsValid(EMPTY, DoIngest(1, 1, 7, Hermes, 0));
    hide Valid, Next;
  }

  /** A run: a close whose settlement fails lets an ordinary hello expose a new generation over the old job, and a
      later takeover does not end it although its own settlement is stored. */
  lemma FailedCloseLeavesBehind()
    ensures Valid(Laws.INGESTED) && ActiveJobs(Laws.INGESTED) == {}
    ensures IsHistory(Restarted(Laws.INGESTED), FailedClose([]))
    ensures LeftBehind(Afterwards(Restarted(Laws.INGESTED), FailedClose([])), 1)
    ensures IsHistory(Restarted(Laws.INGESTED), FailedClose(LATER_TAKEOVER))
    ensures LeftBehind(Afterwards(Restarted(Laws.INGESTED), FailedClose(LATER_TAKEOVER)), 1)
  {
    IngestedIsIdle();
    BothLeaveItBehind();
    assert IsHistory(EXPOSED, []) && Afterwards(EXPOSED, []) == EXPOSED;
    hide Valid, IsHistory, Afterwards, LeftBehind, ActiveJobs, FailedClose, CloseAndHello;
    FromExposed();
    FromClaim([]);
    FromClaim(LATER_TAKEOVER);
    ToClaim([]);
    ToClaim(LATER_TAKEOVER);
  }
}
