/** The Hermes side of the connector: one task per offered job, racing with cancel frames.

    Everything between two awaits is one step.  The adapter's dictionaries are the fields of the class
    below; its methods are the steps, and the interleavings of all tasks are runs over their values. */
module HermesAdapter {
  import opened Tables

  /** A job under one lease; the daemon sends each such frame once. */
  datatype Key = Key(j: Id, lease: Id)

  /** Where a job task is suspended. */
  datatype Phase =
    | Queued
    | Rejecting | RejectionReported
    | Accepting(session: Id)
    | Handling(session: Id)
    | Over

  datatype Books = Books(
    offered: map<Id, Id>, offeredCancels: set<Id>,
    rejected: map<Id, Id>, rejectionCancels: set<Id>,
    leases: map<Id, Id>, sources: set<Id>, cancelled: set<Id>,
    admitted: set<Id>)

  const NO_BOOKS := Books(map[], {}, map[], {}, map[], {}, {}, {})

  predicate Maps(m: map<Id, Id>, j: Id, lease: Id) { j in m && m[j] == lease }

  // ---------------------------------------------------------------------------------------------
  // The dictionaries
  // ---------------------------------------------------------------------------------------------

  predicate Reservable(b: Books, key: Key) { key.j in b.offered ==> b.offered[key.j] == key.lease }

  function TakeOffer(b: Books, key: Key): Books { b.(offered := b.offered[key.j := key.lease]) }

  /** The offer goes only with its own lease, the cancel mark in any case. */
  function ReleaseOffer(b: Books, key: Key): Books {
    b.(offered := if Maps(b.offered, key.j, key.lease) then b.offered - {key.j} else b.offered,
       offeredCancels := b.offeredCancels - {key.j})
  }

  function ReleaseMaps(b: Books, j: Id): Books {
    b.(leases := b.leases - {j}, sources := b.sources - {j}, cancelled := b.cancelled - {j})
  }

  /** A session that was admitted and has not finished dispatching admits nothing else. */
  function Admission(b: Books, wish: Option<Id>): Option<Id> {
    if wish.Some? && wish.value in b.admitted then None else wish
  }

  function Started(b: Books, key: Key, wish: Option<Id>): (Books, Phase) {
    var c := TakeOffer(b, key);
    if key.j in c.offeredCancels then (ReleaseOffer(c, key), Over)
    else match Admission(c, wish)
      case None => (ReleaseOffer(c.(rejected := c.rejected[key.j := key.lease]), key), Rejecting)
      case Some(session) =>
        (c.(admitted := c.admitted + {session}, leases := c.leases[key.j := key.lease], sources := c.sources + {key.j}),
         Accepting(session))
  }

  /** After `accepted` was sent, or could not be. */
  function Resumed(b: Books, key: Key, session: Id, delivered: bool): (Books, Phase) {
    if !delivered || key.j in b.offeredCancels
    then (ReleaseOffer(ReleaseMaps(b, key.j), key).(admitted := b.admitted - {session}), Over)
    else (ReleaseOffer(b, key), Handling(session))
  }

  function RejectionOver(b: Books, key: Key): Books {
    b.(rejected := if Maps(b.rejected, key.j, key.lease) then b.rejected - {key.j} else b.rejected,
       rejectionCancels := b.rejectionCancels - {key.j})
  }

  datatype CancelReply = NotStarted | StopSent | Ignored

  function CancelArrives(b: Books, key: Key): (Books, CancelReply) {
    if Maps(b.rejected, key.j, key.lease) then (b.(rejectionCancels := b.rejectionCancels + {key.j}), NotStarted)
    else if Maps(b.offered, key.j, key.lease) then (b.(offeredCancels := b.offeredCancels + {key.j}), NotStarted)
    else if !Maps(b.leases, key.j, key.lease) || key.j !in b.sources then (b, Ignored)
    else (b.(cancelled := b.cancelled + {key.j}), StopSent)
  }

  class LivisBridgeAdapter {
    var offered: map<Id, Id>
    var offeredCancels: set<Id>
    var rejected: map<Id, Id>
    var rejectionCancels: set<Id>
    var leases: map<Id, Id>
    var sources: set<Id>
    var cancelled: set<Id>
    var admitted: set<Id>

    ghost function Content(): Books
      reads this
    {
      Books(offered, offeredCancels, rejected, rejectionCancels, leases, sources, cancelled, admitted)
    }

    constructor ()
      ensures Content() == NO_BOOKS
    {
      offered, offeredCancels, rejected, rejectionCancels := map[], {}, map[], {};
      leases, sources, cancelled, admitted := map[], {}, {}, {};
    }

    /** Fails, and changes nothing, when another lease of the job is still on offer. */
    method ReserveJobOffer(key: Key) returns (reserved: bool)
      modifies this`offered
      ensures reserved <==> Reservable(old(Content()), key)
      ensures Content() == if reserved then TakeOffer(old(Content()), key) else old(Content())
    {
      if key.j in offered && offered[key.j] != key.lease { return false; }
      offered := offered[key.j := key.lease];
      return true;
    }

    method ReleaseJobOffer(key: Key)
      modifies this`offered, this`offeredCancels
      ensures Content() == ReleaseOffer(old(Content()), key)
    {
      if key.j in offered && offered[key.j] == key.lease { offered := offered - {key.j}; }
      offeredCancels := offeredCancels - {key.j};
    }

    method ReleaseJobMaps(j: Id)
      modifies this`leases, this`sources, this`cancelled
      ensures Content() == ReleaseMaps(old(Content()), j)
    {
      sources := sources - {j};
      leases := leases - {j};
      cancelled := cancelled - {j};
    }

    /** From the start of the task to its first await. */
    method HandleJob(key: Key, wish: Option<Id>) returns (phase: Phase)
      requires Reservable(Content(), key)
      modifies this
      ensures (Content(), phase) == Started(old(Content()), key, wish)
    {
      var _ := ReserveJobOffer(key);
      if key.j in offeredCancels {
        ReleaseJobOffer(key);
        return Over;
      }
      if wish.None? || wish.value in admitted {
        rejected := rejected[key.j := key.lease];
        ReleaseJobOffer(key);
        return Rejecting;
      }
      admitted := admitted + {wish.value};
      leases := leases[key.j := key.lease];
      sources := sources + {key.j};
      return Accepting(wish.value);
    }

    /** From the `accepted` frame to the call of handle_message, or to the end. */
    method AfterAccepted(key: Key, session: Id, delivered: bool) returns (phase: Phase)
      modifies this
      ensures (Content(), phase) == Resumed(old(Content()), key, session, delivered)
    {
      if !delivered || key.j in offeredCancels {
        ReleaseJobMaps(key.j);
        ReleaseJobOffer(key);
        admitted := admitted - {session};
        return Over;
      }
      ReleaseJobOffer(key);
      return Handling(session);
    }

    method HandleCancel(key: Key) returns (reply: CancelReply)
      modifies this
      ensures (Content(), reply) == CancelArrives(old(Content()), key)
    {
      if key.j in rejected && rejected[key.j] == key.lease {
        rejectionCancels := rejectionCancels + {key.j};
        return NotStarted;
      }
      if key.j in offered && offered[key.j] == key.lease {
        offeredCancels := offeredCancels + {key.j};
        return NotStarted;
      }
      if key.j !in leases || leases[key.j] != key.lease { return Ignored; }
      if key.j !in sources { return Ignored; }
      cancelled := cancelled + {key.j};
      return StopSent;
    }

    method FinishRejection(key: Key)
      modifies this`rejected, this`rejectionCancels
      ensures Content() == RejectionOver(old(Content()), key)
    {
      if key.j in rejected && rejected[key.j] == key.lease { rejected := rejected - {key.j}; }
      rejectionCancels := rejectionCancels - {key.j};
    }
  }

  // ---------------------------------------------------------------------------------------------
  // All tasks together
  // ---------------------------------------------------------------------------------------------

  /** `notStarted`: jobs reported as not started.  `started`: jobs handed to handle_message. */
  datatype World = World(books: Books, tasks: map<Key, Phase>, notStarted: set<Key>, started: set<Key>)

  const IDLE := World(NO_BOOKS, map[], {}, {})

  datatype Action =
    | JobFrame(key: Key)
    | CancelFrame(key: Key)
    | ResultStored(key: Key)
    | Begin(key: Key, wish: Option<Id>)
    | BeginFails(key: Key)
    | AcceptedSent(key: Key, delivered: bool)
    | HandlingDone(key: Key)
    | Superseded(key: Key)
    | RejectionDone(key: Key)
    | ProcessingComplete(j: Id)
    | FinalSent(j: Id, superseded: bool)
    | Interrupted
    | Disconnect

  predicate At(w: World, key: Key, phase: Phase) { key in w.tasks && w.tasks[key] == phase }

  predicate Offered(phase: Phase) { phase.Queued? || phase.Accepting? }
  predicate Rejected(phase: Phase) { phase.Rejecting? || phase.RejectionReported? }
  predicate Holding(phase: Phase) { phase.Accepting? || phase.Handling? }

  /** A disconnect clears the books but not the tasks.  It is harmless when no job that was reported as not
      started is still queued or being accepted; for the adapter in isolation, when moreover no `accepted` is
      being sent. */
  predicate Calm(w: World, once: bool) {
    forall key :: key in w.tasks ==>
      (Offered(w.tasks[key]) ==> key !in w.notStarted) && (w.tasks[key].Accepting? ==> once)
  }

  /** Each job frame comes once, and with `once` each job has one: the daemon leases a job again only when the frame
      of the earlier lease was dropped.  Without it the adapter is taken in isolation.  Steps of a task need the
      task to be there. */
  predicate Able(w: World, action: Action, once: bool) {
    match action
    case JobFrame(key) => key !in w.tasks && (once ==> forall other :: other in w.tasks ==> other.j != key.j)
    case Begin(key, _) => At(w, key, Queued)
    case BeginFails(key) => At(w, key, Queued)
    case AcceptedSent(key, _) => key in w.tasks && w.tasks[key].Accepting?
    case HandlingDone(key) => key in w.tasks && w.tasks[key].Handling?
    case Superseded(key) => At(w, key, Rejecting)
    case RejectionDone(key) => key in w.tasks && Rejected(w.tasks[key])
    case _ => true
  }

  function ToPhase(w: World, key: Key, next: (Books, Phase)): World {
    w.(books := next.0, tasks := w.tasks[key := next.1])
  }

  function Acted(w: World, action: Action): World
    requires Able(w, action, false)
  {
    match action
    case JobFrame(key) =>
      if Reservable(w.books, key) then ToPhase(w, key, (TakeOffer(w.books, key), Queued)) else w
    case CancelFrame(key) =>
      var (b, reply) := CancelArrives(w.books, key);
      w.(books := b, notStarted := if reply.NotStarted? then w.notStarted + {key} else w.notStarted)
    case ResultStored(key) =>
      if Maps(w.books.rejected, key.j, key.lease)
      then w.(books := w.books.(rejected := w.books.rejected - {key.j})) else w
    case Begin(key, wish) =>
      if Reservable(w.books, key) then ToPhase(w, key, Started(w.books, key, wish)) else ToPhase(w, key, (w.books, Over))
    case BeginFails(key) => ToPhase(w, key, (w.books, Over))
    case AcceptedSent(key, delivered) =>
      var (b, phase) := Resumed(w.books, key, w.tasks[key].session, delivered);
      ToPhase(w, key, (b, phase)).(started := if phase.Handling? then w.started + {key} else w.started)
    case HandlingDone(key) =>
      ToPhase(w, key, (w.books.(admitted := w.books.admitted - {w.tasks[key].session}), Over))
    case Superseded(key) =>
      ToPhase(w, key, (w.books, RejectionReported)).(
        notStarted := if key.j in w.books.rejectionCancels then w.notStarted else w.notStarted + {key})
    case RejectionDone(key) => ToPhase(w, key, (RejectionOver(w.books, key), Over))
    case ProcessingComplete(j) => w.(books := ReleaseMaps(w.books, j))
    case FinalSent(j, superseded) =>
      w.(books := w.books.(sources := w.books.sources - {j},
                           cancelled := w.books.cancelled + if superseded then {j} else {}))
    case Interrupted => w.(books := w.books.(cancelled := w.books.cancelled + w.books.sources))
    case Disconnect =>
      w.(books := w.books.(offered := map[], offeredCancels := {}, rejected := map[], rejectionCancels := {},
                           admitted := {}, cancelled := w.books.cancelled + w.books.sources))
  }

  // ---------------------------------------------------------------------------------------------
  // What every interleaving keeps
  // ---------------------------------------------------------------------------------------------

  /** What the books say about one task. */
  predicate TaskOk(w: World, key: Key, once: bool)
    requires key in w.tasks
  {
    var phase := w.tasks[key];
    && (phase.Accepting? && !once ==> Maps(w.books.offered, key.j, key.lease))
    && (Offered(phase) && key in w.notStarted ==>
          Maps(w.books.offered, key.j, key.lease) && key.j in w.books.offeredCancels)
    && (Rejected(phase) || phase.Handling? ==> !Maps(w.books.offered, key.j, key.lease))
    && (!Rejected(phase) ==> !Maps(w.books.rejected, key.j, key.lease))
    && (phase.Handling? ==> key in w.started)
  }

  ghost predicate Consistent(w: World, once: bool) {
    && (forall key :: key in w.tasks ==> TaskOk(w, key, once))
    && (once ==> forall a, b :: a in w.tasks && b in w.tasks && a.j == b.j ==> a == b)
    && (forall j :: j in w.books.offered ==> Key(j, w.books.offered[j]) in w.tasks)
    && (forall j :: j in w.books.offeredCancels ==> j in w.books.offered)
    && (forall j :: j in w.books.rejected ==> Key(j, w.books.rejected[j]) in w.tasks)
    && (forall key :: key in w.notStarted ==> key in w.tasks && key !in w.started)
    && (forall key :: key in w.started ==> key in w.tasks && (w.tasks[key].Handling? || w.tasks[key].Over?) &&
                                           !Maps(w.books.offered, key.j, key.lease))
  }

  lemma JobFrameKeeps(w: World, action: Action, once: bool)
    requires Consistent(w, once) && Able(w, action, once) && (action.JobFrame?)
    ensures Consistent(Acted(w, action), once)
  {
    var v := Acted(w, action);
    forall key | key in v.tasks ensures TaskOk(v, key, once) {
      if key in w.tasks { assert TaskOk(w, key, once); }
    }
  }

  lemma CancelFrameKeeps(w: World, action: Action, once: bool)
    requires Consistent(w, once) && Able(w, action, once) && (action.CancelFrame?)
    ensures Consistent(Acted(w, action), once)
  {
    var v := Acted(w, action);
    forall key | key in v.tasks ensures TaskOk(v, key, once) {
      if key in w.tasks { assert TaskOk(w, key, once); }
    }
  }

  /** A task whose offer was cancelled before it began, or whose session admits it not. */
  lemma BeginRefusedKeeps(w: World, action: Action, once: bool)
    requires Consistent(w, once) && Able(w, action, once) && action.Begin?
    requires !Reservable(w.books, action.key) || !Started(w.books, action.key, action.wish).1.Accepting?
    ensures Consistent(Acted(w, action), once)
  {
    var v := Acted(w, action);
    forall key | key in v.tasks ensures TaskOk(v, key, once) {
      if key in w.tasks { assert TaskOk(w, key, once); }
    }
  }

  lemma BeginAdmittedKeeps(w: World, action: Action, once: bool)
    requires Consistent(w, once) && Able(w, action, once) && action.Begin?
    requires Reservable(w.books, action.key) && Started(w.books, action.key, action.wish).1.Accepting?
    ensures Consistent(Acted(w, action), once)
  {
    var v := Acted(w, action);
    forall key | key in v.tasks ensures TaskOk(v, key, once) {
      if key in w.tasks { assert TaskOk(w, key, once); }
    }
  }

  lemma BeginKeeps(w: World, action: Action, once: bool)
    requires Consistent(w, once) && Able(w, action, once) && action.Begin?
    ensures Consistent(Acted(w, action), once)
  {
    hide Consistent, Acted;
    if !Reservable(w.books, action.key) || !Started(w.books, action.key, action.wish).1.Accepting? {
      BeginRefusedKeeps(w, action, once);
    } else {
      BeginAdmittedKeeps(w, action, once);
    }
  }

  lemma BeginFailsKeeps(w: World, action: Action, once: bool)
    requires Consistent(w, once) && Able(w, action, once) && action.BeginFails?
    ensures Consistent(Acted(w, action), once)
  {
    var v := Acted(w, action);
    forall key | key in v.tasks ensures TaskOk(v, key, once) {
      if key in w.tasks { assert TaskOk(w, key, once); }
    }
  }

  lemma AcceptedKeeps(w: World, action: Action, once: bool)
    requires Consistent(w, once) && Able(w, action, once) && (action.AcceptedSent?)
    ensures Consistent(Acted(w, action), once)
  {
    var v := Acted(w, action);
    forall key | key in v.tasks ensures TaskOk(v, key, once) {
      if key in w.tasks { assert TaskOk(w, key, once); }
    }
  }

  lemma HandlingDoneKeeps(w: World, action: Action, once: bool)
    requires Consistent(w, once) && Able(w, action, once) && (action.HandlingDone?)
    ensures Consistent(Acted(w, action), once)
  {
    var v := Acted(w, action);
    forall key | key in v.tasks ensures TaskOk(v, key, once) {
      if key in w.tasks { assert TaskOk(w, key, once); }
    }
  }

  lemma RejectionKeeps(w: World, action: Action, once: bool)
    requires Consistent(w, once) && Able(w, action, once) && (action.Superseded? || action.RejectionDone? || action.ResultStored?)
    ensures Consistent(Acted(w, action), once)
  {
    var v := Acted(w, action);
    forall key | key in v.tasks ensures TaskOk(v, key, once) {
      if key in w.tasks { assert TaskOk(w, key, once); }
    }
  }

  lemma OtherKeeps(w: World, action: Action, once: bool)
    requires Consistent(w, once) && Able(w, action, once)
    requires action.ProcessingComplete? || action.FinalSent? || action.Interrupted? || (action.Disconnect? && Calm(w, once))
    ensures Consistent(Acted(w, action), once)
  {
    var v := Acted(w, action);
    forall key | key in v.tasks ensures TaskOk(v, key, once) {
      if key in w.tasks { assert TaskOk(w, key, once); }
    }
  }

  lemma ActionKeeps(w: World, action: Action, once: bool)
    requires Consistent(w, once) && Able(w, action, once) && (action.Disconnect? ==> Calm(w, once))
    ensures Consistent(Acted(w, action), once)
  {
    hide Consistent, Acted;
    match action
    case JobFrame(_) => JobFrameKeeps(w, action, once);
    case CancelFrame(_) => CancelFrameKeeps(w, action, once);
    case Begin(_, _) => BeginKeeps(w, action, once);
    case BeginFails(_) => BeginFailsKeeps(w, action, once);
    case AcceptedSent(_, _) => AcceptedKeeps(w, action, once);
    case HandlingDone(_) => HandlingDoneKeeps(w, action, once);
    case Superseded(_) => RejectionKeeps(w, action, once);
    case RejectionDone(_) => RejectionKeeps(w, action, once);
    case ResultStored(_) => RejectionKeeps(w, action, once);
    case ProcessingComplete(_) => OtherKeeps(w, action, once);
    case FinalSent(_, _) => OtherKeeps(w, action, once);
    case Interrupted => OtherKeeps(w, action, once);
    case Disconnect => OtherKeeps(w, action, once);
  }

  predicate IsHistory(w: World, actions: seq<Action>, once: bool)
    decreases |actions|
  {
    actions == [] || (Able(w, actions[0], once) && IsHistory(Acted(w, actions[0]), actions[1..], once))
  }

  function After(w: World, actions: seq<Action>): World
    requires IsHistory(w, actions, false)
    decreases |actions|
  {
    if actions == [] then w else After(Acted(w, actions[0]), actions[1..])
  }

  /** Disconnects of the adapter itself meet the condition; lost connections need none. */
  predicate IsCalm(w: World, actions: seq<Action>, once: bool)
    requires IsHistory(w, actions, false)
    decreases |actions|
  {
    actions == [] || ((actions[0].Disconnect? ==> Calm(w, once)) && IsCalm(Acted(w, actions[0]), actions[1..], once))
  }

  /** The second conjunct follows from the first; the functions above ask for it. */
  ghost predicate IsCalmHistory(w: World, actions: seq<Action>, once: bool) {
    IsHistory(w, actions, once) && IsHistory(w, actions, false) && IsCalm(w, actions, once)
  }

  lemma {:induction false} HistoryKeeps(w: World, actions: seq<Action>, once: bool)
    requires Consistent(w, once) && IsCalmHistory(w, actions, once)
    ensures Consistent(After(w, actions), once)
    decreases |actions|
  {
    hide Consistent, Acted, Able;
    if actions != [] {
      ActionKeeps(w, actions[0], once);
      HistoryKeeps(Acted(w, actions[0]), actions[1..], once);
    }
  }

  /** The adapter's "not started" is truthful: in every interleaving, a job lease so reported is never handed
      to handle_message, neither before nor after the report. */
  lemma NotStartedIsTruthful(actions: seq<Action>, key: Key, once: bool)
    requires IsCalmHistory(IDLE, actions, once)
    ensures !(key in After(IDLE, actions).notStarted && key in After(IDLE, actions).started)
  {
    HistoryKeeps(IDLE, actions, once);
  }

  /** What a cancel frame is answered, by the point its job has reached. */
  lemma CancelIsExact(w: World, key: Key, once: bool)
    requires Consistent(w, once) && key in w.tasks
    ensures w.tasks[key].Accepting? && !once ==> CancelArrives(w.books, key).1.NotStarted?
    ensures Offered(w.tasks[key]) && Maps(w.books.offered, key.j, key.lease) ==> CancelArrives(w.books, key).1.NotStarted?
    ensures Offered(w.tasks[key]) && !Maps(w.books.offered, key.j, key.lease) ==> !CancelArrives(w.books, key).1.NotStarted?
    ensures key in w.started ==> !CancelArrives(w.books, key).1.NotStarted?
  {
    assert TaskOk(w, key, once);
  }

  // ---------------------------------------------------------------------------------------------
  // A disconnect, exactly
  // ---------------------------------------------------------------------------------------------

  const OFFERED_JOB := Key(1, 2)
  const LYING_RUN := [
    JobFrame(OFFERED_JOB), Begin(OFFERED_JOB, Some(0)), CancelFrame(OFFERED_JOB), Disconnect, AcceptedSent(OFFERED_JOB, true)]

  /** A run of the program that lies: the job is cancelled while `accepted` is being sent and reported as not
      started; the adapter disconnects, which drops the cancel mark; then the send returns and the job starts. */
  lemma DisconnectLies()
    ensures IsHistory(IDLE, LYING_RUN, true) && IsHistory(IDLE, LYING_RUN, false)
    ensures OFFERED_JOB in After(IDLE, LYING_RUN).notStarted && OFFERED_JOB in After(IDLE, LYING_RUN).started
  {
    var a := Acted(IDLE, LYING_RUN[0]);
    var b := Acted(a, LYING_RUN[1]);
    var c := Acted(b, LYING_RUN[2]);
    var d := Acted(c, LYING_RUN[3]);
    var e := Acted(d, LYING_RUN[4]);
    assert OFFERED_JOB in e.notStarted && OFFERED_JOB in e.started;
    hide Acted;
    OneBefore(d, LYING_RUN[4], []);
    OneBefore(c, LYING_RUN[3], LYING_RUN[4..]);
    OneBefore(b, LYING_RUN[2], LYING_RUN[3..]);
    OneBefore(a, LYING_RUN[1], LYING_RUN[2..]);
    OneBefore(IDLE, LYING_RUN[0], LYING_RUN[1..]);
  }

  lemma OneBefore(w: World, action: Action, rest: seq<Action>)
    requires Able(w, action, true) && IsHistory(Acted(w, action), rest, true) && IsHistory(Acted(w, action), rest, false)
    ensures IsHistory(w, [action] + rest, true) && IsHistory(w, [action] + rest, false)
    ensures After(w, [action] + rest) == After(Acted(w, action), rest)
  {
    assert ([action] + rest)[1..] == rest;
  }

  lemma {:induction false} FreshLease(keys: set<Key>) returns (lease: Id)
    ensures forall key :: key in keys ==> key.lease < lease
    decreases |keys|
  {
    if keys == {} {
      lease := 0;
    } else {
      var key :| key in keys;
      var other := FreshLease(keys - {key});
      lease := if other > key.lease then other else key.lease + 1;
      forall k | k in keys ensures k.lease < lease {
        if k != key { assert k in keys - {key}; }
      }
    }
  }

  lemma AfterOne(w: World, action: Action, rest: seq<Action>, once: bool)
    requires Able(w, action, once) && IsCalmHistory(Acted(w, action), rest, once)
    requires action.Disconnect? ==> Calm(w, once)
    ensures IsCalmHistory(w, [action] + rest, once)
    ensures After(w, [action] + rest) == After(Acted(w, action), rest)
  {
    assert ([action] + rest)[1..] == rest;
  }

  ghost predicate CanLie(w: World, once: bool) {
    exists actions, key :: IsCalmHistory(w, actions, once) && key in After(w, actions).notStarted && key in After(w, actions).started
  }

  /** A step that leads to a world that can lie. */
  lemma LiesAfter(w: World, action: Action, once: bool)
    requires Able(w, action, once) && !action.Disconnect? && CanLie(Acted(w, action), once)
    ensures CanLie(w, once)
  {
    var actions, key :| IsCalmHistory(Acted(w, action), actions, once) &&
                        key in After(Acted(w, action), actions).notStarted && key in After(Acted(w, action), actions).started;
    AfterOne(w, action, actions, once);
  }

  lemma LiesNow(w: World, key: Key, once: bool)
    requires key in w.notStarted && key in w.started
    ensures CanLie(w, once)
  {
    assert IsCalmHistory(w, [], once) && After(w, []) == w;
  }

  /** A reported job whose `accepted` is still under way when the books are cleared. */
  lemma ReportedAcceptingLies(w: World, key: Key, once: bool)
    requires key in w.tasks && w.tasks[key].Accepting? && key in w.notStarted && key.j !in w.books.offeredCancels
    ensures CanLie(w, once)
  {
    var v := Acted(w, AcceptedSent(key, true));
    LiesNow(v, key, once);
    LiesAfter(w, AcceptedSent(key, true), once);
  }

  lemma ReportedQueuedLies(w: World, key: Key, once: bool)
    requires At(w, key, Queued) && key in w.notStarted && key.j !in w.books.offeredCancels
    requires Reservable(w.books, key) && w.books.admitted == {}
    ensures CanLie(w, once)
  {
    var v := Acted(w, Begin(key, Some(0)));
    ReportedAcceptingLies(v, key, once);
    LiesAfter(w, Begin(key, Some(0)), once);
  }

  /** The adapter in isolation: a second lease of the job, offered and cancelled while the first still sends
      `accepted`; the first drops the cancel mark of the second. */
  lemma StaleAcceptingLies(w: World, key: Key, next: Key)
    requires key in w.tasks && w.tasks[key].Accepting? && next !in w.tasks && next.j == key.j && next.lease != key.lease
    requires key.j !in w.books.offered && key.j !in w.books.rejected && w.books.admitted == {}
    ensures CanLie(w, false)
  {
    var a := Acted(w, JobFrame(next));
    var b := Acted(a, CancelFrame(next));
    assert b.tasks[key].Accepting? && key in b.tasks;
    var c := Acted(b, AcceptedSent(key, true));
    ReportedQueuedLies(c, next, false);
    LiesAfter(b, AcceptedSent(key, true), false);
    LiesAfter(a, CancelFrame(next), false);
    LiesAfter(w, JobFrame(next), false);
  }

  lemma CalmIsSafe(w: World, once: bool)
    requires Consistent(w, once) && Calm(w, once)
    ensures !CanLie(Acted(w, Disconnect), once)
  {
    var v := Acted(w, Disconnect);
    OtherKeeps(w, Disconnect, once);
    if CanLie(v, once) {
      var actions, key :| IsCalmHistory(v, actions, once) && key in After(v, actions).notStarted && key in After(v, actions).started;
      HistoryKeeps(v, actions, once);
      assert false;
    }
  }

  /** After a disconnect the reports can be trusted if and only if it met the condition: with one frame per job, as
      the daemon sends them, no reported job is still queued or being accepted. */
  lemma DisconnectIsSafeExactly(w: World, once: bool)
    requires Consistent(w, once)
    ensures CanLie(Acted(w, Disconnect), once) <==> !Calm(w, once)
  {
    var v := Acted(w, Disconnect);
    if Calm(w, once) {
      CalmIsSafe(w, once);
    } else {
      var key :| key in w.tasks && ((Offered(w.tasks[key]) && key in w.notStarted) || (w.tasks[key].Accepting? && !once));
      if key in w.notStarted {
        if w.tasks[key].Queued? { ReportedQueuedLies(v, key, once); } else { ReportedAcceptingLies(v, key, once); }
      } else {
        var lease := FreshLease(w.tasks.Keys);
        assert Key(key.j, lease) !in w.tasks.Keys;
        StaleAcceptingLies(v, key, Key(key.j, lease));
      }
    }
  }

  // ---------------------------------------------------------------------------------------------
  // One job per session
  // ---------------------------------------------------------------------------------------------

  /** No two jobs of a session are between admission and the end of their dispatch. */
  ghost predicate Exclusive(w: World) {
    && (forall key :: key in w.tasks && Holding(w.tasks[key]) ==> w.tasks[key].session in w.books.admitted)
    && (forall a, b | a in w.tasks && b in w.tasks && Holding(w.tasks[a]) && Holding(w.tasks[b]) ::
          w.tasks[a].session == w.tasks[b].session ==> a == b)
  }

  lemma ActionKeepsExclusive(w: World, action: Action)
    requires Exclusive(w) && Able(w, action, false)
    requires action.Disconnect? ==> forall key :: key in w.tasks ==> !Holding(w.tasks[key])
    ensures Exclusive(Acted(w, action))
  {
  }

  /** As long as the adapter is not disconnected, at most one job per session is being dispatched. */
  lemma {:induction false} OneDispatchPerSession(w: World, actions: seq<Action>)
    requires Exclusive(w) && IsHistory(w, actions, false) && Disconnect !in actions
    ensures Exclusive(After(w, actions))
    decreases |actions|
  {
    hide Exclusive, Acted, Able;
    if actions != [] {
      ActionKeepsExclusive(w, actions[0]);
      OneDispatchPerSession(Acted(w, actions[0]), actions[1..]);
    }
  }
}
