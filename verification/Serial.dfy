/**
 * The serial machine: trip commands executed one at a time, without transactions, locks or failures.
 * It is the specification that the concurrent protocol is proved to refine.
 */
module Serial {
  import opened Domain

  /** Request metadata that a publish command stamps on its event. */
  datatype Meta = Meta(correlationId: string, causationId: string, traceParent: string, occurredAt: Time)

  datatype Command =
    | Create(driverId: Uuid, fromPoint: string, toPoint: string, departureTime: Time, seats: int, newId: Uuid)
    | Publish(tripId: Uuid, clientId: Uuid, meta: Meta)
    | Start(tripId: Uuid, clientId: Uuid)
  {
    /** The one trip row the command reads or writes. */
    function Key(): Uuid {
      if Create? then newId else tripId
    }
  }

  datatype Verdict = Success | NotFound | NotDriver | AlreadyPublished | WrongStatus | Duplicate

  datatype Tables = Tables(trips: map<Uuid, Trip>, history: seq<HistoryRow>, events: map<Uuid, EventHead>)

  /** The checks a command makes on the row it has read, in the order the code makes them. */
  function Verify(cmd: Command, trip: Trip): Verdict
    requires !cmd.Create?
  {
    if trip.driverId != cmd.clientId then NotDriver
    else if cmd.Publish? && trip.status == Published then AlreadyPublished
    else if trip.status != (if cmd.Publish? then Draft else Published) then WrongStatus
    else Success
  }

  function Target(cmd: Command): TripStatus {
    match cmd
    case Create(_, _, _, _, _, _) => Draft
    case Publish(_, _, _) => Published
    case Start(_, _) => Started
  }

  function CreatedTrip(cmd: Command, now: Time): Trip
    requires cmd.Create?
  {
    Trip(cmd.newId, cmd.driverId, cmd.fromPoint, cmd.toPoint, cmd.departureTime, cmd.seats, Draft, now, now)
  }

  /** The trip has the driver, points, departure time, seats and creation time that the create command gave it. */
  predicate Describes(cmd: Command, now: Time, trip: Trip)
    requires cmd.Create?
  {
    && trip.id == cmd.newId && trip.driverId == cmd.driverId && trip.fromPoint == cmd.fromPoint
    && trip.toPoint == cmd.toPoint
    && trip.departureTime == cmd.departureTime && trip.seats == cmd.seats && trip.createdAt == now
  }

  /** The row after the whole-row UPDATE: `written` supplies every column but the id and created_at. */
  function UpdatedTrip(current: Trip, written: Trip, now: Time): Trip {
    written.(id := current.id, createdAt := current.createdAt, updatedAt := now)
  }

  /** The history rows of the same statement: one if the stored status changes, none otherwise. */
  function UpdateHistory(current: Trip, written: Trip, now: Time): seq<HistoryRow> {
    if current.status != written.status
    then [HistoryRow(current.id, Some(current.status), written.status, now)]
    else []
  }

  function NewEvent(cmd: Command, trip: Trip): TripPublished
    requires cmd.Publish?
  {
    TripPublished(PublishedEventId(trip.id), TripPublishedType, cmd.meta.correlationId, cmd.meta.causationId,
                  cmd.meta.traceParent, trip.id, trip.driverId, cmd.clientId, cmd.meta.occurredAt)
  }

  function NewHead(cmd: Command, trip: Trip, now: Time): EventHead
    requires cmd.Publish?
  {
    EventHead(TripAggregate, trip.id, TripPublishedType, Marshal(NewEvent(cmd, trip)), now)
  }

  function InsertIfAbsent<V>(m: map<Uuid, V>, id: Uuid, v: V): map<Uuid, V> {
    if id in m then m else m[id := v]
  }

  datatype Execution = Execution(tables: Tables, verdict: Verdict)

  function Exec(d: Tables, cmd: Command, now: Time): Execution {
    if cmd.Create? then
      if cmd.newId in d.trips then Execution(d, Duplicate) else
      Execution(d.(trips := d.trips[cmd.newId := CreatedTrip(cmd, now)],
                   history := d.history + [HistoryRow(cmd.newId, None, Draft, now)]), Success)
    else if cmd.tripId !in d.trips then Execution(d, NotFound)
    else
      var current := d.trips[cmd.tripId];
      var verdict := Verify(cmd, current);
      if verdict != Success then Execution(d, verdict) else
      var written := current.(status := Target(cmd));
      var updated := UpdatedTrip(current, written, now);
      Execution(
        Tables(d.trips[cmd.tripId := updated],
               d.history + UpdateHistory(current, written, now),
               if cmd.Publish?
               then InsertIfAbsent(d.events, PublishedEventId(updated.id), NewHead(cmd, updated, now))
               else d.events),
        Success)
  }

  // ----- what a verdict means -----

  /** The verdict on a publish or start command, in the columns of the row: a stranger learns nothing of the status. */
  lemma VerdictMeans(d: Tables, cmd: Command, now: Time)
    requires !cmd.Create?
    ensures var v, found := Exec(d, cmd, now).verdict, cmd.tripId in d.trips;
      var driver := found && d.trips[cmd.tripId].driverId == cmd.clientId;
      && (v == NotFound <==> !found)
      && (v == NotDriver <==> found && d.trips[cmd.tripId].driverId != cmd.clientId)
      && (v == AlreadyPublished <==> driver && cmd.Publish? && d.trips[cmd.tripId].status == Published)
      && (v == WrongStatus <==> driver && d.trips[cmd.tripId].status != Published
                                && !(cmd.Publish? && d.trips[cmd.tripId].status == Draft))
      && (v == Success <==> driver && d.trips[cmd.tripId].status == if cmd.Publish? then Draft else Published)
  {
  }

  /** A create command succeeds exactly under a free id. */
  lemma CreateVerdictMeans(d: Tables, cmd: Command, now: Time)
    requires cmd.Create?
    ensures Exec(d, cmd, now).verdict == if cmd.newId in d.trips then Duplicate else Success
  {
  }

  // ----- traces -----

  datatype Entry = Entry(call: nat, cmd: Command, now: Time, verdict: Verdict)

  function Replay(d: Tables, trace: seq<Entry>): Tables {
    if trace == [] then d else
    var last := trace[|trace| - 1];
    Exec(Replay(d, trace[..|trace| - 1]), last.cmd, last.now).tables
  }

  /** Every recorded verdict is the one the serial machine gives when it replays the trace. */
  ghost predicate VerdictsAgree(d: Tables, trace: seq<Entry>) {
    forall i :: 0 <= i < |trace| ==> Exec(Replay(d, trace[..i]), trace[i].cmd, trace[i].now).verdict == trace[i].verdict
  }

  /** `d` is what the serial machine makes of `d0` by executing `trace`, verdicts included. */
  ghost predicate Serializes(d0: Tables, trace: seq<Entry>, d: Tables) {
    Replay(d0, trace) == d && VerdictsAgree(d0, trace)
  }

  lemma SerializesStep(d0: Tables, trace: seq<Entry>, d: Tables, e: Entry)
    requires Serializes(d0, trace, d)
    requires Exec(d, e.cmd, e.now).verdict == e.verdict
    ensures Serializes(d0, trace + [e], Exec(d, e.cmd, e.now).tables)
  {
    var longer := trace + [e];
    assert longer[..|trace|] == trace;
    forall i | 0 <= i < |longer|
      ensures Exec(Replay(d0, longer[..i]), longer[i].cmd, longer[i].now).verdict == longer[i].verdict
    {
      if i < |trace| {
        assert longer[..i] == trace[..i];
      }
    }
  }

  lemma SerializesPrefix(d0: Tables, trace: seq<Entry>, d: Tables)
    requires Serializes(d0, trace, d) && trace != []
    ensures Serializes(d0, trace[..|trace| - 1], Replay(d0, trace[..|trace| - 1]))
    ensures var e := trace[|trace| - 1];
            Exec(Replay(d0, trace[..|trace| - 1]), e.cmd, e.now) == Execution(d, e.verdict)
  {
    var shorter := trace[..|trace| - 1];
    forall i | 0 <= i < |shorter|
      ensures Exec(Replay(d0, shorter[..i]), shorter[i].cmd, shorter[i].now).verdict == shorter[i].verdict
    {
      assert shorter[..i] == trace[..i];
    }
  }

  // ----- what every serial run keeps -----

  /** No trips yet, and no outbox row that could be taken for a TripPublished event of a trip. */
  ghost predicate Fresh(d: Tables) {
    && d.trips == map[] && d.history == []
    && forall t :: PublishedEventId(t) !in d.events
  }

  /** The status changes recorded for trip `t`, oldest first. */
  function StatusPath(history: seq<HistoryRow>, t: Uuid): seq<(Option<TripStatus>, TripStatus)> {
    if history == [] then [] else
    var last := history[|history| - 1];
    StatusPath(history[..|history| - 1], t) +
    if last.tripId == t then [(last.fromStatus, last.toStatus)] else []
  }

  lemma StatusPathAppend(history: seq<HistoryRow>, row: HistoryRow, t: Uuid)
    ensures StatusPath(history + [row], t) ==
            StatusPath(history, t) + if row.tripId == t then [(row.fromStatus, row.toStatus)] else []
  {
    assert (history + [row])[..|history|] == history;
  }

  /** The chain NULL -> draft -> published -> started, cut at the given status. */
  function LifecycleTo(status: TripStatus): seq<(Option<TripStatus>, TripStatus)> {
    match status
    case Draft => [(None, Draft)]
    case Published => [(None, Draft), (Some(Draft), Published)]
    case Started => [(None, Draft), (Some(Draft), Published), (Some(Published), Started)]
    case OtherStatus(_) => []
  }

  predicate PastDraft(status: TripStatus) {
    status == Published || status == Started
  }

  /** Entry `i` of the trace succeeded and is a publication of trip `t`. */
  predicate Publishes(trace: seq<Entry>, i: int, t: Uuid) {
    0 <= i < |trace| && trace[i].verdict == Success && trace[i].cmd.Publish? && trace[i].cmd.tripId == t
  }

  predicate Starts(trace: seq<Entry>, i: int, t: Uuid) {
    0 <= i < |trace| && trace[i].verdict == Success && trace[i].cmd.Start? && trace[i].cmd.tripId == t
  }

  predicate Creates(trace: seq<Entry>, i: int, t: Uuid) {
    0 <= i < |trace| && trace[i].verdict == Success && trace[i].cmd.Create? && trace[i].cmd.newId == t
  }

  /** The two trips agree on everything but the status and the time of the last update. */
  predicate SameDetails(a: Trip, b: Trip) {
    a.(status := b.status, updatedAt := b.updatedAt) == b
  }

  /** The outbox columns that publish command `cmd` writes, in terms of the command alone. */
  function HeadOf(cmd: Command, now: Time): EventHead
    requires cmd.Publish?
  {
    EventHead(TripAggregate, cmd.tripId, TripPublishedType,
              Marshal(TripPublished(PublishedEventId(cmd.tripId), TripPublishedType,
                                    cmd.meta.correlationId, cmd.meta.causationId, cmd.meta.traceParent,
                                    cmd.tripId, cmd.clientId, cmd.clientId, cmd.meta.occurredAt)),
              now)
  }

  ghost predicate RowsWellFormed(d: Tables) {
    forall t :: t in d.trips ==>
      d.trips[t].id == t && (d.trips[t].status == Draft || PastDraft(d.trips[t].status))
  }

  ghost predicate EventIffPublished(d: Tables) {
    forall t :: PublishedEventId(t) in d.events <==> t in d.trips && PastDraft(d.trips[t].status)
  }

  ghost predicate HistoryIsPath(d: Tables) {
    forall t :: StatusPath(d.history, t) == if t in d.trips then LifecycleTo(d.trips[t].status) else []
  }

  ghost predicate DetailsFromCreation(d: Tables, trace: seq<Entry>) {
    && (forall t :: t in d.trips ==> exists i :: Creates(trace, i, t))
    && (forall t, i :: Creates(trace, i, t) ==>
          t in d.trips && SameDetails(CreatedTrip(trace[i].cmd, trace[i].now), d.trips[t]))
  }

  /** Trip `t` has left draft on behalf of its driver, and its outbox row carries the columns of publish entry `e`. */
  ghost predicate WrittenBy(d: Tables, e: Entry, t: Uuid)
    requires e.cmd.Publish?
  {
    && t in d.trips && PastDraft(d.trips[t].status) && d.trips[t].driverId == e.cmd.clientId
    && PublishedEventId(t) in d.events && d.events[PublishedEventId(t)] == HeadOf(e.cmd, e.now)
  }

  ghost predicate EventsFromPublishers(d: Tables, trace: seq<Entry>) {
    && (forall t :: t in d.trips && PastDraft(d.trips[t].status) ==> exists i :: Publishes(trace, i, t))
    && (forall t, i :: Publishes(trace, i, t) ==> WrittenBy(d, trace[i], t))
  }

  ghost predicate StartsRecorded(d: Tables, trace: seq<Entry>) {
    && (forall t :: t in d.trips && d.trips[t].status == Started ==> exists i :: Starts(trace, i, t))
    && (forall t, i :: Starts(trace, i, t) ==>
          t in d.trips && d.trips[t].status == Started && d.trips[t].driverId == trace[i].cmd.clientId)
  }

  ghost predicate EachSucceedsOnce(trace: seq<Entry>) {
    forall t, i, j ::
      (Publishes(trace, i, t) && Publishes(trace, j, t)) || (Starts(trace, i, t) && Starts(trace, j, t))
      || (Creates(trace, i, t) && Creates(trace, j, t))
      ==> i == j
  }

  ghost predicate ForeignEventsKept(d0: Tables, d: Tables) {
    forall id :: id in d0.events ==> id in d.events && d.events[id] == d0.events[id]
  }

  ghost predicate EventsKnown(d0: Tables, d: Tables) {
    forall id :: id in d.events ==> id in d0.events || (id.V5? && id.name == TripPublishedType)
  }

  ghost predicate SerialInv(d0: Tables, d: Tables, trace: seq<Entry>) {
    && RowsWellFormed(d) && EventIffPublished(d) && HistoryIsPath(d)
    && DetailsFromCreation(d, trace) && EventsFromPublishers(d, trace) && StartsRecorded(d, trace)
    && EachSucceedsOnce(trace) && ForeignEventsKept(d0, d) && EventsKnown(d0, d)
  }

  lemma {:induction false} SerialTheorem(d0: Tables, trace: seq<Entry>, d: Tables)
    requires Fresh(d0) && Serializes(d0, trace, d)
    ensures SerialInv(d0, d, trace)
    decreases |trace|
  {
    if trace == [] {
      SerialStart(d0);
    } else {
      var shorter, e := trace[..|trace| - 1], trace[|trace| - 1];
      var before := Replay(d0, shorter);
      assert trace == shorter + [e];
      SerializesPrefix(d0, trace, d);
      SerialTheorem(d0, shorter, before);
      SerialStep(d0, before, shorter, e, d);
    }
  }

  lemma SerialStart(d0: Tables)
    requires Fresh(d0)
    ensures SerialInv(d0, d0, [])
  {
  }

  lemma SerialStep(d0: Tables, d: Tables, trace: seq<Entry>, e: Entry, d': Tables)
    requires SerialInv(d0, d, trace)
    requires Exec(d, e.cmd, e.now) == Execution(d', e.verdict)
    ensures SerialInv(d0, d', trace + [e])
  {
    RowsStep(d, e, d');
    EventsStep(d0, d, e, d');
    HistoryStep(d, e, d');
    DetailsStep(d, trace, e, d');
    PublishersStep(d, trace, e, d');
    StartsStep(d, trace, e, d');
    OnceStep(d, trace, e, d');
  }

  lemma RowsStep(d: Tables, e: Entry, d': Tables)
    requires RowsWellFormed(d) && Exec(d, e.cmd, e.now) == Execution(d', e.verdict)
    ensures RowsWellFormed(d')
  {
  }

  lemma EventsStep(d0: Tables, d: Tables, e: Entry, d': Tables)
    requires RowsWellFormed(d) && EventIffPublished(d) && ForeignEventsKept(d0, d) && EventsKnown(d0, d)
    requires Exec(d, e.cmd, e.now) == Execution(d', e.verdict)
    ensures EventIffPublished(d') && ForeignEventsKept(d0, d') && EventsKnown(d0, d')
  {
    forall t ensures PublishedEventId(t) in d'.events <==> t in d'.trips && PastDraft(d'.trips[t].status) {
      EventIffPublishedAt(d, e, d', t);
    }
    OnlyOwnEventAdded(d, e, d');
  }

  lemma OnlyOwnEventAdded(d: Tables, e: Entry, d': Tables)
    requires RowsWellFormed(d) && Exec(d, e.cmd, e.now) == Execution(d', e.verdict)
    ensures forall id :: id in d.events ==> id in d'.events && d'.events[id] == d.events[id]
    ensures forall id :: id in d'.events ==> id in d.events || id == PublishedEventId(e.cmd.Key())
  {
  }

  lemma EventIffPublishedAt(d: Tables, e: Entry, d': Tables, t: Uuid)
    requires RowsWellFormed(d) && Exec(d, e.cmd, e.now) == Execution(d', e.verdict)
    requires PublishedEventId(t) in d.events <==> t in d.trips && PastDraft(d.trips[t].status)
    ensures PublishedEventId(t) in d'.events <==> t in d'.trips && PastDraft(d'.trips[t].status)
  {
  }

  lemma HistoryStep(d: Tables, e: Entry, d': Tables)
    requires RowsWellFormed(d) && HistoryIsPath(d) && Exec(d, e.cmd, e.now) == Execution(d', e.verdict)
    ensures HistoryIsPath(d')
  {
    forall t ensures StatusPath(d'.history, t) == if t in d'.trips then LifecycleTo(d'.trips[t].status) else [] {
      HistoryStepAt(d, e, d', t);
    }
  }

  lemma HistoryStepAt(d: Tables, e: Entry, d': Tables, t: Uuid)
    requires StatusPath(d.history, t) == if t in d.trips then LifecycleTo(d.trips[t].status) else []
    requires t in d.trips ==> d.trips[t].id == t
    requires e.cmd.Key() in d.trips ==> d.trips[e.cmd.Key()].id == e.cmd.Key()
    requires Exec(d, e.cmd, e.now) == Execution(d', e.verdict)
    ensures StatusPath(d'.history, t) == if t in d'.trips then LifecycleTo(d'.trips[t].status) else []
  {
    if e.verdict == Success {
      var from := if e.cmd.Create? then None else Some(d.trips[e.cmd.Key()].status);
      var row := HistoryRow(e.cmd.Key(), from, Target(e.cmd), e.now);
      assert d'.history == d.history + [row];
      StatusPathAppend(d.history, row, t);
    }
  }

  lemma DetailsStep(d: Tables, trace: seq<Entry>, e: Entry, d': Tables)
    requires DetailsFromCreation(d, trace) && Exec(d, e.cmd, e.now) == Execution(d', e.verdict)
    ensures DetailsFromCreation(d', trace + [e])
  {
    var longer := trace + [e];
    assert forall t, i :: Creates(trace, i, t) ==> Creates(longer, i, t);
    forall t | t in d'.trips ensures exists i :: Creates(longer, i, t) {
      if t in d.trips {
        var i :| Creates(trace, i, t);
        assert Creates(longer, i, t);
      } else {
        assert Creates(longer, |trace|, t);
      }
    }
    forall t, i | Creates(longer, i, t)
      ensures t in d'.trips && SameDetails(CreatedTrip(longer[i].cmd, longer[i].now), d'.trips[t])
    {
      if i < |trace| { assert Creates(trace, i, t); }
    }
  }

  lemma PublishersStep(d: Tables, trace: seq<Entry>, e: Entry, d': Tables)
    requires RowsWellFormed(d) && EventIffPublished(d) && EventsFromPublishers(d, trace)
    requires Exec(d, e.cmd, e.now) == Execution(d', e.verdict)
    ensures EventsFromPublishers(d', trace + [e])
  {
    var longer := trace + [e];
    forall t | t in d'.trips && PastDraft(d'.trips[t].status) ensures exists i :: Publishes(longer, i, t) {
      if t in d.trips && PastDraft(d.trips[t].status) {
        var i :| Publishes(trace, i, t);
        assert Publishes(longer, i, t);
      } else {
        assert Publishes(longer, |trace|, t);
      }
    }
    forall t, i | Publishes(longer, i, t) ensures WrittenBy(d', longer[i], t) {
      if i < |trace| {
        assert Publishes(trace, i, t);
        WrittenByKept(d, trace[i], t, e, d');
      } else {
        assert PublishedEventId(t) !in d.events;
      }
    }
  }

  lemma WrittenByKept(d: Tables, p: Entry, t: Uuid, e: Entry, d': Tables)
    requires RowsWellFormed(d) && p.cmd.Publish? && WrittenBy(d, p, t)
    requires Exec(d, e.cmd, e.now) == Execution(d', e.verdict)
    ensures WrittenBy(d', p, t)
  {
  }

  lemma StartsStep(d: Tables, trace: seq<Entry>, e: Entry, d': Tables)
    requires StartsRecorded(d, trace) && Exec(d, e.cmd, e.now) == Execution(d', e.verdict)
    ensures StartsRecorded(d', trace + [e])
  {
    var longer := trace + [e];
    forall t | t in d'.trips && d'.trips[t].status == Started ensures exists i :: Starts(longer, i, t) {
      if t in d.trips && d.trips[t].status == Started {
        var i :| Starts(trace, i, t);
        assert Starts(longer, i, t);
      } else {
        assert Starts(longer, |trace|, t);
      }
    }
    forall t, i | Starts(longer, i, t)
      ensures t in d'.trips && d'.trips[t].status == Started && d'.trips[t].driverId == longer[i].cmd.clientId
    {
      if i < |trace| { assert Starts(trace, i, t); }
    }
  }

  /** A second success would have to find the row in a status that the first one left for good. */
  lemma OnceStep(d: Tables, trace: seq<Entry>, e: Entry, d': Tables)
    requires EachSucceedsOnce(trace) && DetailsFromCreation(d, trace)
    requires EventsFromPublishers(d, trace) && StartsRecorded(d, trace)
    requires Exec(d, e.cmd, e.now) == Execution(d', e.verdict)
    ensures EachSucceedsOnce(trace + [e])
  {
    var longer := trace + [e];
    forall t, i | 0 <= i < |trace|
      ensures !(Creates(longer, i, t) && Creates(longer, |trace|, t))
      ensures !(Publishes(longer, i, t) && Publishes(longer, |trace|, t))
      ensures !(Starts(longer, i, t) && Starts(longer, |trace|, t))
    {
      NotTwice(d, trace, e, d', t, i);
    }
    OnceSoFar(trace, e);
  }

  /** An effect that the tables show already cannot succeed again. */
  lemma NotTwice(d: Tables, trace: seq<Entry>, e: Entry, d': Tables, t: Uuid, i: nat)
    requires DetailsFromCreation(d, trace) && EventsFromPublishers(d, trace) && StartsRecorded(d, trace)
    requires Exec(d, e.cmd, e.now) == Execution(d', e.verdict) && i < |trace|
    ensures var longer := trace + [e];
      && !(Creates(longer, i, t) && Creates(longer, |trace|, t))
      && !(Publishes(longer, i, t) && Publishes(longer, |trace|, t))
      && !(Starts(longer, i, t) && Starts(longer, |trace|, t))
  {
    NotCreatedTwice(d, trace, e, d', t, i);
    NotPublishedTwice(d, trace, e, d', t, i);
    NotStartedTwice(d, trace, e, d', t, i);
  }

  lemma NotCreatedTwice(d: Tables, trace: seq<Entry>, e: Entry, d': Tables, t: Uuid, i: nat)
    requires DetailsFromCreation(d, trace) && Exec(d, e.cmd, e.now) == Execution(d', e.verdict) && i < |trace|
    ensures !(Creates(trace + [e], i, t) && Creates(trace + [e], |trace|, t))
  {
    assert Creates(trace + [e], i, t) ==> Creates(trace, i, t);
  }

  lemma NotPublishedTwice(d: Tables, trace: seq<Entry>, e: Entry, d': Tables, t: Uuid, i: nat)
    requires EventsFromPublishers(d, trace) && Exec(d, e.cmd, e.now) == Execution(d', e.verdict) && i < |trace|
    ensures !(Publishes(trace + [e], i, t) && Publishes(trace + [e], |trace|, t))
  {
    assert Publishes(trace + [e], i, t) ==> Publishes(trace, i, t) && WrittenBy(d, trace[i], t);
  }

  lemma NotStartedTwice(d: Tables, trace: seq<Entry>, e: Entry, d': Tables, t: Uuid, i: nat)
    requires StartsRecorded(d, trace) && Exec(d, e.cmd, e.now) == Execution(d', e.verdict) && i < |trace|
    ensures !(Starts(trace + [e], i, t) && Starts(trace + [e], |trace|, t))
  {
    assert Starts(trace + [e], i, t) ==> Starts(trace, i, t);
  }

  lemma OnceSoFar(trace: seq<Entry>, e: Entry)
    requires EachSucceedsOnce(trace)
    ensures var longer := trace + [e];
      forall t, i, j | 0 <= i < |trace| && 0 <= j < |trace| ::
        (Publishes(longer, i, t) && Publishes(longer, j, t)) || (Starts(longer, i, t) && Starts(longer, j, t))
        || (Creates(longer, i, t) && Creates(longer, j, t))
        ==> i == j
  {
    var longer := trace + [e];
    assert forall t, i :: 0 <= i < |trace| ==> Publishes(longer, i, t) == Publishes(trace, i, t);
    assert forall t, i :: 0 <= i < |trace| ==> Starts(longer, i, t) == Starts(trace, i, t);
    assert forall t, i :: 0 <= i < |trace| ==> Creates(longer, i, t) == Creates(trace, i, t);
  }
}
