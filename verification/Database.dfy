/** PostgreSQL as the repositories use it: shared tables and row locks, and transactions with private writes. */
module Database {
  import opened Domain
  import opened Errors
  import opened Serial
  import opened Protocol
  import opened Selection

  /** Committed tables, and who holds which row or key, at one moment. */
  datatype World = World(
    trips: map<Uuid, Trip>, history: seq<HistoryRow>, outbox: Outbox,
    tripLocks: map<Uuid, CallId>, keyLocks: map<Uuid, CallId>, eventLocks: map<Uuid, PubId>)

  function WorldOf(s: State): World {
    World(s.trips, s.history, s.outbox, s.tripLocks, s.keyLocks, s.eventLocks)
  }

  // What a statement of transaction `holder` waits for: a row that somebody else has locked, or a key that somebody
  // else is inserting.

  predicate TripBlocked(w: World, id: Uuid, holder: CallId) {
    id in w.trips && HeldByOther(w.tripLocks, id, holder)
  }

  predicate TripKeyBlocked(w: World, id: Uuid, holder: CallId) {
    id !in w.trips && HeldByOther(w.tripLocks, id, holder)
  }

  predicate EventBlocked(w: World, id: Uuid, holder: PubId) {
    id in w.outbox && HeldByOther(w.eventLocks, id, holder)
  }

  predicate EventKeyBlocked(w: World, id: Uuid, holder: CallId) {
    HeldByOther(w.keyLocks, id, holder)
  }

  /**
   * A statement waits for a row that is there and locked, or for a key that is not there but locked, by somebody else.
   */
  lemma WaitsForOthersOnly(w: World, id: Uuid, holder: nat)
    ensures TripBlocked(w, id, holder) <==> id in w.trips && id in w.tripLocks && w.tripLocks[id] != holder
    ensures TripKeyBlocked(w, id, holder) <==> id !in w.trips && id in w.tripLocks && w.tripLocks[id] != holder
    ensures EventBlocked(w, id, holder) <==> id in w.outbox && id in w.eventLocks && w.eventLocks[id] != holder
    ensures EventKeyBlocked(w, id, holder) <==> id in w.keyLocks && w.keyLocks[id] != holder
  {
  }

  /**
   * The database in one place.  A statement that has to wait takes the world in which its wait ends as an input: what
   * the others have made of the database by then.  Without a wait that input is of no account.
   */
  class Pool {
    var trips: map<Uuid, Trip>
    var history: seq<HistoryRow>
    var outbox: Outbox
    var tripLocks: map<Uuid, CallId>
    var keyLocks: map<Uuid, CallId>
    var eventLocks: map<Uuid, PubId>

    constructor (outbox: Outbox)
      ensures trips == map[] && history == [] && this.outbox == outbox
      ensures tripLocks == map[] && keyLocks == map[] && eventLocks == map[]
    {
      trips, history, this.outbox := map[], [], outbox;
      tripLocks, keyLocks, eventLocks := map[], map[], map[];
    }

    function AsWorld(): World
      reads this
    {
      World(trips, history, outbox, tripLocks, keyLocks, eventLocks)
    }

    /** The tables and locks are those of `s`. */
    ghost predicate Holds(s: State)
      reads this
    {
      AsWorld() == WorldOf(s)
    }

    /** Others have been at work while this session slept. */
    method WakeIn(world: World)
      modifies this
      ensures AsWorld() == world
    {
      trips, history, outbox := world.trips, world.history, world.outbox;
      tripLocks, keyLocks, eventLocks := world.tripLocks, world.keyLocks, world.eventLocks;
    }
  }

  datatype Owner = CallTx(call: CallId) | PubTx(pub: PubId)

  /** pgx.Tx: what the transaction has written is visible to itself only, until it commits. */
  class PgTx {
    const pool: Pool
    const owner: Owner
    const now: Time
    var trips: map<Uuid, Trip>
    var history: seq<HistoryRow>
    var outbox: Outbox

    constructor (pool: Pool, owner: Owner, now: Time)
      ensures this.pool == pool && this.owner == owner && this.now == now
      ensures trips == map[] && history == [] && outbox == map[]
    {
      this.pool, this.owner, this.now := pool, owner, now;
      trips, history, outbox := map[], [], map[];
    }

    /** The writes take effect unless the commit was lost; the locks go either way. */
    method Commit(outcome: CommitOutcome) returns (err: Option<Error>)
      modifies this, pool
      ensures err == if outcome == CommitOk then None else Some(Foreign(FromDatabase))
      ensures Ended(old(pool.trips), old(pool.history), old(pool.outbox), old(trips), old(history), old(outbox),
                    outcome != CommitErrorLost)
      ensures LocksReleased(old(pool.tripLocks), old(pool.keyLocks), old(pool.eventLocks))
    {
      if outcome != CommitErrorLost {
        pool.trips := pool.trips + trips;
        pool.history := pool.history + history;
        pool.outbox := pool.outbox + outbox;
      }
      ReleaseLocks();
      err := if outcome == CommitOk then None else Some(Foreign(FromDatabase));
    }

    method Rollback()
      modifies this, pool
      ensures Ended(old(pool.trips), old(pool.history), old(pool.outbox), old(trips), old(history), old(outbox), false)
      ensures LocksReleased(old(pool.tripLocks), old(pool.keyLocks), old(pool.eventLocks))
    {
      ReleaseLocks();
      trips, history, outbox := map[], [], map[];
    }

    method ReleaseLocks()
      modifies pool`tripLocks, pool`keyLocks, pool`eventLocks
      ensures LocksReleased(old(pool.tripLocks), old(pool.keyLocks), old(pool.eventLocks))
    {
      match owner {
        case CallTx(id) => pool.tripLocks, pool.keyLocks := Released(pool.tripLocks, id), Released(pool.keyLocks, id);
        case PubTx(p) => pool.eventLocks := Released(pool.eventLocks, p);
      }
    }

    ghost predicate Ended(trips0: map<Uuid, Trip>, history0: seq<HistoryRow>, outbox0: Outbox,
                          trips1: map<Uuid, Trip>, history1: seq<HistoryRow>, outbox1: Outbox, applied: bool)
      reads pool
    {
      if applied
      then pool.trips == trips0 + trips1 && pool.history == history0 + history1 && pool.outbox == outbox0 + outbox1
      else pool.trips == trips0 && pool.history == history0 && pool.outbox == outbox0
    }

    ghost predicate LocksReleased(tripLocks: map<Uuid, CallId>, keyLocks: map<Uuid, CallId>,
                                  eventLocks: map<Uuid, PubId>)
      reads pool
    {
      match owner
      case CallTx(id) =>
        pool.tripLocks == Released(tripLocks, id) && pool.keyLocks == Released(keyLocks, id)
          && pool.eventLocks == eventLocks
      case PubTx(p) =>
        pool.tripLocks == tripLocks && pool.keyLocks == keyLocks && pool.eventLocks == Released(eventLocks, p)
    }
  }

  // ----- the outbox repository -----

  function Ids(events: seq<Picked>): seq<Uuid> {
    seq(|events|, i requires 0 <= i < |events| => events[i].id)
  }

  /** Each picked row is the committed version. */
  predicate Current(outbox: Outbox, events: seq<Picked>) {
    forall i :: 0 <= i < |events| ==> events[i].id in outbox && events[i].row == outbox[events[i].id]
  }

  /** What the query may return when the rows `held` are locked. */
  ghost predicate IsBatch(outbox: Outbox, held: set<Uuid>, events: seq<Picked>) {
    IsSelection(outbox, held, Ids(events)) && Current(outbox, events)
  }

  /** The rows that the query returns out of the first `k` candidates. */
  ghost function Chosen(outbox: Outbox, held: set<Uuid>, order: seq<Uuid>, k: nat): seq<Picked>
    requires k <= |order|
  {
    if k == 0 then [] else
    var earlier, id := Chosen(outbox, held, order, k - 1), order[k - 1];
    if id in held || id !in outbox then earlier else earlier + [Picked(id, outbox[id])]
  }

  /** The candidates stand by age, and the limit is not reached before `k` of them have been seen. */
  ghost predicate Scannable(outbox: Outbox, held: set<Uuid>, order: seq<Uuid>, k: nat) {
    k <= |order| &&
    if k == 0 then SortedPending(outbox, order)
    else Scannable(outbox, held, order, k - 1) && |Chosen(outbox, held, order, k - 1)| < BATCH_LIMIT
  }

  lemma {:induction false} ScannableIsSorted(outbox: Outbox, held: set<Uuid>, order: seq<Uuid>, k: nat)
    requires Scannable(outbox, held, order, k)
    ensures SortedPending(outbox, order)
  {
    if k > 0 { ScannableIsSorted(outbox, held, order, k - 1); }
  }

  /** The query goes through the first `seen` candidates, and stops there with `events`. */
  ghost predicate Scans(outbox: Outbox, held: set<Uuid>, order: seq<Uuid>, seen: nat, events: seq<Picked>) {
    && Scannable(outbox, held, order, seen) && events == Chosen(outbox, held, order, seen)
    && (seen == |order| || |events| == BATCH_LIMIT)
  }

  lemma IdsAppend(events: seq<Picked>, event: Picked)
    ensures Ids(events + [event]) == Ids(events) + [event.id]
  {
  }

  ghost predicate ChosenWell(outbox: Outbox, held: set<Uuid>, order: seq<Uuid>, k: nat) {
    k <= |order| && Scanned(outbox, held, order, k, Ids(Chosen(outbox, held, order, k)))
      && Current(outbox, Chosen(outbox, held, order, k))
  }

  lemma ChooseNext(outbox: Outbox, held: set<Uuid>, order: seq<Uuid>, k: nat)
    requires SortedPending(outbox, order) && k < |order| && ChosenWell(outbox, held, order, k)
    requires |Chosen(outbox, held, order, k)| < BATCH_LIMIT
    ensures ChosenWell(outbox, held, order, k + 1)
  {
    SelectNext(outbox, held, order, k, Ids(Chosen(outbox, held, order, k)));
    assert order[k] in order;
    IdsAppend(Chosen(outbox, held, order, k), Picked(order[k], outbox[order[k]]));
  }

  /** What has been chosen so far is a selection from what has been seen so far. */
  lemma {:induction false} ChosenIsScanned(outbox: Outbox, held: set<Uuid>, order: seq<Uuid>, k: nat)
    requires Scannable(outbox, held, order, k)
    ensures ChosenWell(outbox, held, order, k)
  {
    ScannableIsSorted(outbox, held, order, k);
    if k > 0 {
      ChosenIsScanned(outbox, held, order, k - 1);
      ChooseNext(outbox, held, order, k - 1);
    }
  }

  lemma NextIsNew(outbox: Outbox, held: set<Uuid>, order: seq<Uuid>, k: nat)
    requires k < |order| && Scannable(outbox, held, order, k)
    requires |Chosen(outbox, held, order, k)| < BATCH_LIMIT
    ensures order[k] in outbox && order[k] !in Ids(Chosen(outbox, held, order, k))
  {
    ScannableIsSorted(outbox, held, order, k);
    ChosenIsScanned(outbox, held, order, k);
    SelectNext(outbox, held, order, k, Ids(Chosen(outbox, held, order, k)));
    assert order[k] in order;
  }

  /** The scan chooses what the query promises. */
  lemma ScanIsBatch(outbox: Outbox, held: set<Uuid>, order: seq<Uuid>, seen: nat, events: seq<Picked>)
    requires Scans(outbox, held, order, seen, events)
    ensures IsBatch(outbox, held, events)
    ensures var free := |Free(outbox, held)|; |events| == if free <= 100 then free else 100
  {
    ScannableIsSorted(outbox, held, order, seen);
    ChosenIsScanned(outbox, held, order, seen);
    SelectionDone(outbox, held, order, seen, Ids(events));
  }

  /** `locks` with the picked rows locked by `p`. */
  function LockedBy(locks: map<Uuid, PubId>, events: seq<Picked>, p: PubId): map<Uuid, PubId> {
    if events == [] then locks
    else LockedBy(locks, events[..|events| - 1], p)[events[|events| - 1].id := p]
  }

  lemma LockedByAppend(locks: map<Uuid, PubId>, events: seq<Picked>, event: Picked, p: PubId)
    ensures LockedBy(locks, events + [event], p) == LockedBy(locks, events, p)[event.id := p]
  {
    assert (events + [event])[..|events|] == events;
  }

  lemma {:induction false} LockedByKeys(locks: map<Uuid, PubId>, events: seq<Picked>, p: PubId)
    ensures forall id :: id in LockedBy(locks, events, p) <==> id in locks || id in Ids(events)
    ensures forall id :: id in Ids(events) ==> LockedBy(locks, events, p)[id] == p
    ensures forall id :: id in locks && id !in Ids(events) ==> LockedBy(locks, events, p)[id] == locks[id]
  {
    if events != [] {
      var shorter := events[..|events| - 1];
      LockedByKeys(locks, shorter, p);
      IdsAppend(shorter, events[|events| - 1]);
      assert events == shorter + [events[|events| - 1]];
    }
  }

  /** How the batch query goes: well, or an error at once, or an error once it has come to so many candidates. */
  datatype QueryOutcome = QueryOk | QueryFails | ReadFails(after: nat)

  class OutboxRepository {
    const pool: Pool

    constructor (pool: Pool)
      ensures this.pool == pool
    {
      this.pool := pool;
    }

    function CountPending(): (count: nat)
      reads pool
      ensures count == |PendingIds(pool.outbox)|
    {
      |set id | id in pool.outbox && pool.outbox[id].status == Pending|
    }

    /** ORDER BY created_at over the pending rows. */
    method PendingByAge() returns (order: seq<Uuid>)
      ensures SortedPending(pool.outbox, order)
    {
      order := [];
      var rest := set id | id in pool.outbox && pool.outbox[id].status == Pending;
      while rest != {}
        invariant PartlySorted(pool.outbox, order, rest)
        invariant forall id :: id in rest ==> id in pool.outbox
        decreases rest
      {
        OldestExists(pool.outbox, rest);
        var oldest :| oldest in rest
          && forall id :: id in rest ==> CreatedAt(pool.outbox, oldest) <= CreatedAt(pool.outbox, id);
        ExtractOldest(pool.outbox, order, rest, oldest);
        order, rest := order + [oldest], rest - {oldest};
      }
    }

    /**
     * SELECT ... ORDER BY created_at LIMIT 100 FOR UPDATE SKIP LOCKED; by `ScanIsBatch` the result is a batch.  If
     * reading the rows fails, those that the query has come to stay locked.
     */
    method LockPending(tx: PgTx, outcome: QueryOutcome)
      returns (events: seq<Picked>, err: Option<Error>, ghost order: seq<Uuid>, ghost seen: nat)
      requires tx.pool == pool && tx.owner.PubTx?
      modifies pool`eventLocks
      ensures err == match outcome
                     case QueryOk => None
                     case QueryFails => Some(Wrapped(SelectingPending, Foreign(FromDatabase)))
                     case ReadFails(_) => Some(Wrapped(ReadingPending, Foreign(FromDatabase)))
      ensures seen <= |order| && (err.Some? ==> events == [])
      ensures var w := old(pool.AsWorld());
        match outcome
        case QueryOk =>
          && Scans(w.outbox, w.eventLocks.Keys, order, seen, events)
          && (var free := |Free(w.outbox, w.eventLocks.Keys)|; |events| == if free <= 100 then free else 100)
          && pool.AsWorld() == w.(eventLocks := LockedBy(w.eventLocks, events, tx.owner.pub))
        case QueryFails => pool.AsWorld() == w
        case ReadFails(after) =>
          && Scannable(w.outbox, w.eventLocks.Keys, order, seen) && seen <= after
          && var taken := Chosen(w.outbox, w.eventLocks.Keys, order, seen);
             && (seen == after || seen == |order| || |taken| == 100)
             && pool.AsWorld() == w.(eventLocks := LockedBy(w.eventLocks, taken, tx.owner.pub))
    {
      var sorted := PendingByAge();
      events, err, order, seen := [], None, sorted, 0;
      if outcome.QueryFails? {
        return [], Some(Wrapped(SelectingPending, Foreign(FromDatabase))), order, 0;
      }
      ghost var held := pool.eventLocks.Keys;
      var k := 0;
      while k < |sorted| && |events| < BATCH_LIMIT && outcome != ReadFails(k)
        invariant k <= |sorted| && |events| <= BATCH_LIMIT && (outcome.ReadFails? ==> k <= outcome.after)
        invariant events == Chosen(pool.outbox, held, sorted, k) && Scannable(pool.outbox, held, sorted, k)
        invariant pool.eventLocks == LockedBy(old(pool.eventLocks), events, tx.owner.pub)
      {
        var id := sorted[k];
        NextIsNew(pool.outbox, held, sorted, k);
        LockedByKeys(old(pool.eventLocks), events, tx.owner.pub);
        if id !in pool.eventLocks {
          LockedByAppend(old(pool.eventLocks), events, Picked(id, pool.outbox[id]), tx.owner.pub);
          pool.eventLocks := pool.eventLocks[id := tx.owner.pub];
          events := events + [Picked(id, pool.outbox[id])];
        }
        k := k + 1;
      }
      seen := k;
      if outcome.QueryOk? { ScanIsBatch(pool.outbox, held, sorted, seen, events); }
      if outcome.ReadFails? {
        return [], Some(Wrapped(ReadingPending, Foreign(FromDatabase))), order, seen;
      }
    }

    /** UPDATE ... SET status = 'sent', sent_at = now() WHERE id = $1 */
    method MarkSent(tx: PgTx, id: Uuid, fails: bool, world: World) returns (err: Option<Error>)
      requires tx.pool == pool && tx.owner.PubTx?
      requires EventBlocked(pool.AsWorld(), id, tx.owner.pub) ==> fails || !EventBlocked(world, id, tx.owner.pub)
      modifies tx`outbox, pool
      ensures err.Some? <==> fails
      ensures
        var w := if EventBlocked(old(pool.AsWorld()), id, tx.owner.pub) then world else old(pool.AsWorld());
        var seen := Seen(w.outbox, old(tx.outbox), id);
        && tx.outbox ==
           (if fails || seen.None? then old(tx.outbox)
            else old(tx.outbox)[id := seen.value.(status := Sent, sentAt := Some(tx.now))])
        && pool.AsWorld() == if fails || seen.None? then w else w.(eventLocks := w.eventLocks[id := tx.owner.pub])
    {
      if EventBlocked(pool.AsWorld(), id, tx.owner.pub) { pool.WakeIn(world); }
      if fails { return Some(Wrapped(MarkingSent, Foreign(FromDatabase))); }
      var seen := Seen(pool.outbox, tx.outbox, id);
      if seen.Some? {
        pool.eventLocks := pool.eventLocks[id := tx.owner.pub];
        tx.outbox := tx.outbox[id := seen.value.(status := Sent, sentAt := Some(tx.now))];
      }
      err := None;
    }

    /** UPDATE ... SET attempts = attempts + 1, last_error = $2 WHERE id = $1 */
    method MarkFailed(tx: PgTx, id: Uuid, reason: Reason, fails: bool, world: World) returns (err: Option<Error>)
      requires tx.pool == pool && tx.owner.PubTx?
      requires EventBlocked(pool.AsWorld(), id, tx.owner.pub) ==> fails || !EventBlocked(world, id, tx.owner.pub)
      modifies tx`outbox, pool
      ensures err.Some? <==> fails
      ensures
        var w := if EventBlocked(old(pool.AsWorld()), id, tx.owner.pub) then world else old(pool.AsWorld());
        var seen := Seen(w.outbox, old(tx.outbox), id);
        && tx.outbox ==
           (if fails || seen.None? then old(tx.outbox)
            else old(tx.outbox)[id := seen.value.(attempts := seen.value.attempts + 1, lastError := Some(reason))])
        && pool.AsWorld() == if fails || seen.None? then w else w.(eventLocks := w.eventLocks[id := tx.owner.pub])
    {
      if EventBlocked(pool.AsWorld(), id, tx.owner.pub) { pool.WakeIn(world); }
      if fails { return Some(Wrapped(RecordingFailure, Foreign(FromDatabase))); }
      var seen := Seen(pool.outbox, tx.outbox, id);
      if seen.Some? {
        pool.eventLocks := pool.eventLocks[id := tx.owner.pub];
        tx.outbox := tx.outbox[id := seen.value.(attempts := seen.value.attempts + 1, lastError := Some(reason))];
      }
      err := None;
    }

    /** INSERT INTO outbox_events ... ON CONFLICT (id) DO NOTHING */
    method CreateOutboxEvent(tx: PgTx, id: Uuid, head: EventHead, fails: bool, world: World)
      returns (err: Option<Error>)
      requires tx.pool == pool && tx.owner.CallTx?
      requires EventKeyBlocked(pool.AsWorld(), id, tx.owner.call) ==>
        fails || !EventKeyBlocked(world, id, tx.owner.call)
      modifies tx`outbox, pool
      ensures err == if fails then Some(Wrapped(InsertingEvent, Foreign(FromDatabase))) else None
      ensures
        var w := if EventKeyBlocked(old(pool.AsWorld()), id, tx.owner.call) then world else old(pool.AsWorld());
        var inserted := !fails && id !in w.outbox && id !in old(tx.outbox);
        && tx.outbox ==
           (if inserted then old(tx.outbox)[id := OutboxRow(head, Pending, 0, None, None)] else old(tx.outbox))
        && pool.AsWorld() == if inserted then w.(keyLocks := w.keyLocks[id := tx.owner.call]) else w
    {
      if EventKeyBlocked(pool.AsWorld(), id, tx.owner.call) { pool.WakeIn(world); }
      if fails { return Some(Wrapped(InsertingEvent, Foreign(FromDatabase))); }
      if id !in pool.outbox && id !in tx.outbox {
        pool.keyLocks := pool.keyLocks[id := tx.owner.call];
        tx.outbox := tx.outbox[id := OutboxRow(head, Pending, 0, None, None)];
      }
      err := None;
    }
  }

  // ----- the trip repository -----

  class TripRepository {
    const pool: Pool

    constructor (pool: Pool)
      ensures this.pool == pool
    {
      this.pool := pool;
    }

    /** SELECT ... WHERE id = $1 FOR UPDATE */
    method GetForUpdateByID(tx: PgTx, id: Uuid, fails: bool, world: World)
      returns (trip: Option<Trip>, err: Option<Error>)
      requires tx.pool == pool && tx.owner.CallTx? && tx.trips == map[]
      requires TripBlocked(pool.AsWorld(), id, tx.owner.call) ==> fails || !TripBlocked(world, id, tx.owner.call)
      modifies pool
      ensures trip.Some? <==> err.None?
      ensures
        var w := if TripBlocked(old(pool.AsWorld()), id, tx.owner.call) then world else old(pool.AsWorld());
        && err == (if fails then Some(Wrapped(SelectingTrip, Foreign(FromDatabase)))
                   else if id !in w.trips then Some(Base(ErrTripNotFound)) else None)
        && (trip.Some? ==> trip.value == w.trips[id])
        && pool.AsWorld() == if trip.Some? then w.(tripLocks := w.tripLocks[id := tx.owner.call]) else w
    {
      if TripBlocked(pool.AsWorld(), id, tx.owner.call) { pool.WakeIn(world); }
      if fails { return None, Some(Wrapped(SelectingTrip, Foreign(FromDatabase))); }
      if id !in pool.trips { return None, Some(Base(ErrTripNotFound)); }
      pool.tripLocks := pool.tripLocks[id := tx.owner.call];
      return Some(pool.trips[id]), None;
    }

    /** One statement: rewrite the whole row from `trip`, and record the change of the stored status. */
    method Update(tx: PgTx, trip: Trip, fails: bool, world: World) returns (updated: Option<Trip>, err: Option<Error>)
      requires tx.pool == pool && tx.owner.CallTx? && tx.trips == map[]
      requires TripBlocked(pool.AsWorld(), trip.id, tx.owner.call) ==>
        fails || !TripBlocked(world, trip.id, tx.owner.call)
      modifies tx`trips, tx`history, pool
      ensures updated.Some? <==> err.None?
      ensures
        var w := if TripBlocked(old(pool.AsWorld()), trip.id, tx.owner.call) then world else old(pool.AsWorld());
        && err == (if fails then Some(Wrapped(UpdatingTrip, Foreign(FromDatabase)))
                   else if trip.id !in w.trips then Some(Base(ErrTripNotFound)) else None)
        && (updated.Some? ==>
              && pool.AsWorld() == w.(tripLocks := w.tripLocks[trip.id := tx.owner.call])
              && tx.trips == map[trip.id := updated.value]
              && (var before := w.trips[trip.id];
                  && updated.value == Trip(before.id, trip.driverId, trip.fromPoint, trip.toPoint, trip.departureTime,
                                           trip.seats, trip.status, before.createdAt, tx.now)
                  && tx.history == old(tx.history) +
                     if before.status == trip.status then []
                     else [HistoryRow(before.id, Some(before.status), trip.status, tx.now)]))
        && (updated.None? ==> tx.trips == map[] && tx.history == old(tx.history) && pool.AsWorld() == w)
    {
      if TripBlocked(pool.AsWorld(), trip.id, tx.owner.call) { pool.WakeIn(world); }
      if fails { return None, Some(Wrapped(UpdatingTrip, Foreign(FromDatabase))); }
      if trip.id !in pool.trips { return None, Some(Base(ErrTripNotFound)); }
      var oldTrip := pool.trips[trip.id];
      var row := Trip(oldTrip.id, trip.driverId, trip.fromPoint, trip.toPoint, trip.departureTime, trip.seats,
                      trip.status, oldTrip.createdAt, tx.now);
      pool.tripLocks := pool.tripLocks[trip.id := tx.owner.call];
      tx.trips := tx.trips[trip.id := row];
      if oldTrip.status != row.status {
        tx.history := tx.history + [HistoryRow(row.id, Some(oldTrip.status), row.status, tx.now)];
      }
      return Some(row), None;
    }

    /** Insert the trip and its first history row; `newId` is what gen_random_uuid() returns. */
    method Create(tx: PgTx, trip: Trip, newId: Uuid, insertFails: bool, historyFails: bool, world: World)
      returns (created: Option<Trip>, err: Option<Error>)
      requires tx.pool == pool && tx.owner.CallTx? && tx.trips == map[]
      requires TripKeyBlocked(pool.AsWorld(), newId, tx.owner.call) ==>
        insertFails || !TripKeyBlocked(world, newId, tx.owner.call)
      modifies tx`trips, tx`history, pool
      ensures created.Some? <==> err.None?
      ensures
        var w := if TripKeyBlocked(old(pool.AsWorld()), newId, tx.owner.call) then world else old(pool.AsWorld());
        var inserted := !insertFails && newId !in w.trips && trip.seats <= 2147483647;
        && err == (if !inserted then Some(Wrapped(InsertingTrip, Foreign(FromDatabase)))
                   else if historyFails then Some(Wrapped(InsertingHistory, Foreign(FromDatabase))) else None)
        && pool.AsWorld() == (if inserted then w.(tripLocks := w.tripLocks[newId := tx.owner.call]) else w)
        && tx.trips ==
           (if inserted then map[newId := trip.(id := newId, createdAt := tx.now, updatedAt := tx.now)] else map[])
        && tx.history == old(tx.history)
           + (if created.Some? then [HistoryRow(newId, None, trip.status, tx.now)] else [])
      ensures created.Some? ==> created.value == tx.trips[newId]
    {
      if TripKeyBlocked(pool.AsWorld(), newId, tx.owner.call) { pool.WakeIn(world); }
      if insertFails || newId in pool.trips || trip.seats > MAX_INT4 {
        return None, Some(Wrapped(InsertingTrip, Foreign(FromDatabase)));
      }
      var row := trip.(id := newId, createdAt := tx.now, updatedAt := tx.now);
      pool.tripLocks := pool.tripLocks[newId := tx.owner.call];
      tx.trips := tx.trips[newId := row];
      if historyFails { return None, Some(Wrapped(InsertingHistory, Foreign(FromDatabase))); }
      tx.history := tx.history + [HistoryRow(newId, None, row.status, tx.now)];
      return Some(row), None;
    }
  }
}
