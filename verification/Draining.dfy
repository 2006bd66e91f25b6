/** How fast undisturbed batches drain the outbox, and which rows can stop them. */
module Draining {
  import opened Domain
  import opened Protocol
  import opened Selection

  ghost function Deliverable(outbox: Outbox): set<Uuid> {
    set id | id in PendingIds(outbox) && Unmarshal(outbox[id].head.payload).Some?
  }

  ghost function Undecodable(outbox: Outbox): set<Uuid> {
    set id | id in PendingIds(outbox) && Unmarshal(outbox[id].head.payload).None?
  }

  /**
   * One undisturbed batch: no other lock, no failure, and Kafka accepts every message that decodes.  The chosen
   * deliverable rows become sent, the chosen undecodable rows stay pending, everything else stays as it is.
   */
  ghost predicate QuietBatch(before: Outbox, after: Outbox) {
    exists ids :: QuietBatchOf(before, ids, after)
  }

  ghost predicate QuietBatchOf(before: Outbox, ids: seq<Uuid>, after: Outbox) {
    && IsSelection(before, {}, ids) && after.Keys == before.Keys
    && (forall id :: id in before ==> after[id].head == before[id].head)
    && (forall id :: id in before && id !in ids ==> after[id] == before[id])
    && (forall id ::
        id in ids && id in before ==>
          after[id].status == if Unmarshal(before[id].head.payload).Some? then Sent else Pending)
  }

  /** `tables[0]`, then one undisturbed batch after another. */
  ghost predicate QuietBatches(tables: seq<Outbox>) {
    |tables| > 0 && forall i :: 0 <= i < |tables| - 1 ==> QuietBatch(tables[i], tables[i + 1])
  }

  lemma QuietBatchSets(before: Outbox, ids: seq<Uuid>, after: Outbox)
    requires QuietBatchOf(before, ids, after)
    ensures Undecodable(after) == Undecodable(before)
    ensures Deliverable(after) == Deliverable(before) - Elements(ids)
    ensures Elements(ids) <= Deliverable(before) + Undecodable(before)
  {
    forall id | id in ids ensures id in PendingIds(before) {
      assert id in Free(before, {});
    }
  }

  lemma QuietBatchCounts(before: Outbox, after: Outbox)
    requires QuietBatch(before, after)
    ensures Undecodable(after) == Undecodable(before)
    ensures var n, k := |Deliverable(before)|, |Undecodable(before)|;
      |Deliverable(after)| <= if k < 100 && n > 100 - k then n - (100 - k)
        else if k < 100 then 0 else n
  {
    var ids :| QuietBatchOf(before, ids, after);
    QuietBatchSets(before, ids, after);
    CountElements(ids);
    FreeSplits(before);
    SplitCounts(Deliverable(before), Undecodable(before), Elements(ids));
  }

  lemma FreeSplits(outbox: Outbox)
    ensures Free(outbox, {}) == Deliverable(outbox) + Undecodable(outbox)
  {
  }

  lemma SplitCounts(good: set<Uuid>, bad: set<Uuid>, chosen: set<Uuid>)
    requires good !! bad && chosen <= good + bad
    ensures |good + bad| == |good| + |bad|
    ensures |chosen| <= |chosen * good| + |bad|
    ensures |good - chosen| == |good| - |chosen * good|
  {
    assert chosen == (chosen * good) + (chosen * bad);
    SubsetIsSmaller(chosen * bad, bad);
    assert good == (good - chosen) + (chosen * good);
  }

  lemma RestIsQuiet(tables: seq<Outbox>)
    requires QuietBatches(tables) && |tables| > 1
    ensures QuietBatches(tables[1..])
  {
    forall i | 0 <= i < |tables| - 2 ensures QuietBatch(tables[1..][i], tables[1..][i + 1]) {
      assert QuietBatch(tables[i + 1], tables[i + 2]);
    }
  }

  /**
   * With k < 100 undecodable pending rows, m undisturbed batches leave nothing deliverable once m * (100 - k)
   * reaches the number of deliverable rows, that is, after ceil(n / (100 - k)) batches.
   */
  lemma {:induction false} DrainingBound(tables: seq<Outbox>)
    requires QuietBatches(tables) && |Undecodable(tables[0])| < 100
    requires (|tables| - 1) * (100 - |Undecodable(tables[0])|) >= |Deliverable(tables[0])|
    ensures Deliverable(tables[|tables| - 1]) == {}
    ensures Undecodable(tables[|tables| - 1]) == Undecodable(tables[0])
    decreases |tables|
  {
    var room, n := 100 - |Undecodable(tables[0])|, |Deliverable(tables[0])|;
    if |tables| > 1 {
      var rest := tables[1..];
      QuietBatchCounts(tables[0], tables[1]);
      RestIsQuiet(tables);
      assert (|tables| - 1) * room == (|rest| - 1) * room + room;
      if n <= room { ProductIsNatural(|rest| - 1, room); }
      DrainingBound(rest);
    }
  }

  lemma ProductIsNatural(a: int, b: int)
    requires a >= 0 && b >= 0
    ensures a * b >= 0
  {
  }

  lemma NotChosen(outbox: Outbox, ids: seq<Uuid>, stuck: set<Uuid>, good: Uuid)
    requires IsSelection(outbox, {}, ids) && |stuck| >= 100 && stuck <= Undecodable(outbox)
    requires good in Deliverable(outbox)
    requires forall id :: id in stuck ==> CreatedAt(outbox, id) < CreatedAt(outbox, good)
    ensures good !in ids
  {
    assert good !in stuck && |stuck + {good}| == |stuck| + 1;
    CountElements(ids);
    if good in ids {
      forall id | id in stuck ensures id in ids {
        assert id in Free(outbox, {});
      }
      SubsetIsSmaller(stuck + {good}, Elements(ids));
    }
  }

  // ----- the fate of a single row -----

  /** The members of `ids` that are not younger than row `good`. */
  ghost function NotYounger(outbox: Outbox, ids: set<Uuid>, good: Uuid): set<Uuid>
    requires good in outbox
  {
    set id | id in ids && id in outbox && CreatedAt(outbox, id) <= CreatedAt(outbox, good)
  }

  /** A batch that leaves the row behind is full of rows that are not younger. */
  lemma LeftBehind(outbox: Outbox, ids: seq<Uuid>, good: Uuid)
    requires IsSelection(outbox, {}, ids) && good in Deliverable(outbox) && good !in ids
    ensures |ids| == 100
    ensures Elements(ids) <= NotYounger(outbox, Deliverable(outbox), good)
      + NotYounger(outbox, Undecodable(outbox), good)
  {
    assert good in Free(outbox, {});
    forall id | id in ids ensures id in PendingIds(outbox) && CreatedAt(outbox, id) <= CreatedAt(outbox, good) {
      assert id in Free(outbox, {});
    }
    CountElements(ids);
    assert forall id :: id in Elements(ids) + {good} ==> id in Free(outbox, {});
    SubsetIsSmaller(Elements(ids) + {good}, Free(outbox, {}));
  }

  lemma RowAdvances(before: Outbox, ids: seq<Uuid>, after: Outbox, good: Uuid)
    requires QuietBatchOf(before, ids, after) && good in Deliverable(before) && good !in ids
    ensures good in Deliverable(after)
    ensures NotYounger(after, Undecodable(after), good) == NotYounger(before, Undecodable(before), good)
    ensures |NotYounger(after, Deliverable(after), good)| + 100
         <= |NotYounger(before, Deliverable(before), good)| + |NotYounger(before, Undecodable(before), good)|
  {
    var g, b := NotYounger(before, Deliverable(before), good), NotYounger(before, Undecodable(before), good);
    LeftBehind(before, ids, good);
    CountElements(ids);
    SplitCounts(g, b, Elements(ids));
    AgesStay(before, ids, after, good);
  }

  /** A batch without `good` takes its rows from those ahead of it, and leaves the undecodable ones. */
  lemma AgesStay(before: Outbox, ids: seq<Uuid>, after: Outbox, good: Uuid)
    requires QuietBatchOf(before, ids, after) && good in Deliverable(before) && good !in ids
    ensures good in Deliverable(after)
    ensures NotYounger(after, Undecodable(after), good) == NotYounger(before, Undecodable(before), good)
    ensures NotYounger(after, Deliverable(after), good)
         == NotYounger(before, Deliverable(before), good) - Elements(ids)
  {
    QuietBatchSets(before, ids, after);
  }

  // ----- while commands go on publishing -----

  /** Rows may have been inserted, all of them younger than `good`; and no row has changed. */
  ghost predicate Grows(before: Outbox, after: Outbox, good: Uuid) {
    && good in before && before.Keys <= after.Keys && (forall id :: id in before ==> after[id] == before[id])
    && forall id :: id in after && id !in before ==> CreatedAt(after, id) > CreatedAt(before, good)
  }

  /** An undisturbed batch, but for younger rows that are inserted before its query and while it is under way. */
  ghost predicate BusyBatch(before: Outbox, after: Outbox, good: Uuid) {
    exists seen, done :: BusyBatchOf(before, seen, done, after, good)
  }

  ghost predicate BusyBatchOf(before: Outbox, seen: Outbox, done: Outbox, after: Outbox, good: Uuid) {
    Grows(before, seen, good) && QuietBatch(seen, done) && Grows(done, after, good)
  }

  /** One such batch after another. */
  ghost predicate BusyBatches(tables: seq<Outbox>, good: Uuid) {
    |tables| > 0 && forall i :: 0 <= i < |tables| - 1 ==> BusyBatch(tables[i], tables[i + 1], good)
  }

  lemma RestIsBusy(tables: seq<Outbox>, good: Uuid)
    requires BusyBatches(tables, good) && |tables| > 1
    ensures BusyBatches(tables[1..], good)
  {
    forall i | 0 <= i < |tables| - 2 ensures BusyBatch(tables[1..][i], tables[1..][i + 1], good) {
      assert BusyBatch(tables[i + 1], tables[i + 2], good);
    }
  }

  lemma QuietIsBusy(tables: seq<Outbox>, good: Uuid)
    requires QuietBatches(tables) && good in tables[0]
    ensures BusyBatches(tables, good)
  {
    SameRows(tables);
    forall i | 0 <= i < |tables| - 1 ensures BusyBatch(tables[i], tables[i + 1], good) {
      assert BusyBatchOf(tables[i], tables[i], tables[i + 1], tables[i + 1], good);
    }
  }

  lemma {:induction false} SameRows(tables: seq<Outbox>)
    requires QuietBatches(tables)
    ensures forall i :: 0 <= i < |tables| ==> tables[i].Keys == tables[0].Keys
    decreases |tables|
  {
    if |tables| > 1 {
      var rest := tables[1..];
      RestIsQuiet(tables);
      SameRows(rest);
      assert QuietBatch(tables[0], tables[1]);
      assert forall i :: 0 < i < |tables| ==> tables[i] == rest[i - 1];
    }
  }

  /** The newcomers are out of the way: nothing that counts for the fate of `good` changes. */
  lemma GrowthIsHarmless(before: Outbox, after: Outbox, good: Uuid)
    requires Grows(before, after, good)
    ensures NotYounger(after, Deliverable(after), good) == NotYounger(before, Deliverable(before), good)
    ensures NotYounger(after, Undecodable(after), good) == NotYounger(before, Undecodable(before), good)
    ensures good in Deliverable(after) <==> good in Deliverable(before)
    ensures Undecodable(before) <= Undecodable(after)
  {
  }

  lemma {:induction false} StaysSent(tables: seq<Outbox>, good: Uuid)
    requires BusyBatches(tables, good) && good !in Deliverable(tables[0])
    ensures good !in Deliverable(tables[|tables| - 1])
    decreases |tables|
  {
    if |tables| > 1 {
      var seen, done :| BusyBatchOf(tables[0], seen, done, tables[1], good);
      GrowthIsHarmless(tables[0], seen, good);
      var ids :| QuietBatchOf(seen, ids, done);
      QuietBatchSets(seen, ids, done);
      GrowthIsHarmless(done, tables[1], good);
      RestIsBusy(tables, good);
      StaysSent(tables[1..], good);
    }
  }

  /**
   * A hundred undecodable rows, all older than a good row, keep it waiting for ever, whatever is published meanwhile.
   */
  lemma {:induction false} StuckBehindHundred(tables: seq<Outbox>, stuck: set<Uuid>, good: Uuid)
    requires BusyBatches(tables, good) && |stuck| >= 100 && stuck <= Undecodable(tables[0])
    requires good in Deliverable(tables[0])
    requires forall id :: id in stuck ==> CreatedAt(tables[0], id) < CreatedAt(tables[0], good)
    ensures good in Deliverable(tables[|tables| - 1])
    decreases |tables|
  {
    if |tables| > 1 {
      var seen, done :| BusyBatchOf(tables[0], seen, done, tables[1], good);
      GrowthIsHarmless(tables[0], seen, good);
      var ids :| QuietBatchOf(seen, ids, done);
      NotChosen(seen, ids, stuck, good);
      QuietBatchSets(seen, ids, done);
      GrowthIsHarmless(done, tables[1], good);
      RestIsBusy(tables, good);
      StuckBehindHundred(tables[1..], stuck, good);
    }
  }

  lemma OneBatchAtLeast(m: nat, room: int, n: int)
    requires m * room >= n >= 1
    ensures m >= 1
  {
  }

  lemma OneBatchLess(m: int, room: int, n: int, left: int)
    requires m * room >= n && left + room <= n
    ensures (m - 1) * room >= left
  {
    assert (m - 1) * room == m * room - room;
  }

  /**
   * Only undecodable rows that are not younger count: with fewer than 100 of them, the row is sent in time, however
   * many undecodable rows are younger, and however many younger rows are inserted meanwhile.
   */
  lemma {:induction false} RowDrains(tables: seq<Outbox>, good: Uuid)
    requires BusyBatches(tables, good) && good in Deliverable(tables[0])
    requires |NotYounger(tables[0], Undecodable(tables[0]), good)| < 100
    requires (|tables| - 1) * (100 - |NotYounger(tables[0], Undecodable(tables[0]), good)|)
          >= |NotYounger(tables[0], Deliverable(tables[0]), good)|
    ensures good !in Deliverable(tables[|tables| - 1])
    decreases |tables|
  {
    var older, ahead := NotYounger(tables[0], Undecodable(tables[0]), good),
      NotYounger(tables[0], Deliverable(tables[0]), good);
    assert good in ahead;
    OneBatchAtLeast(|tables| - 1, 100 - |older|, |ahead|);
    var rest := tables[1..];
    RestIsBusy(tables, good);
    FirstBatch(tables[0], tables[1], good);
    if good in Deliverable(tables[1]) {
      OneBatchLess(|rest|, 100 - |older|, |ahead|, |NotYounger(tables[1], Deliverable(tables[1]), good)|);
      RowDrains(rest, good);
    } else {
      StaysSent(rest, good);
    }
  }

  /** Either the row is sent at once, or a batch of rows that are not younger is out of its way. */
  lemma FirstBatch(before: Outbox, after: Outbox, good: Uuid)
    requires BusyBatch(before, after, good) && good in Deliverable(before)
    ensures good in Deliverable(after) ==>
      && NotYounger(after, Undecodable(after), good) == NotYounger(before, Undecodable(before), good)
      && |NotYounger(after, Deliverable(after), good)| + 100
      <= |NotYounger(before, Deliverable(before), good)| + |NotYounger(before, Undecodable(before), good)|
  {
    var seen, done :| BusyBatchOf(before, seen, done, after, good);
    GrowthIsHarmless(before, seen, good);
    var ids :| QuietBatchOf(seen, ids, done);
    QuietBatchSets(seen, ids, done);
    if good !in ids { RowAdvances(seen, ids, done, good); }
    GrowthIsHarmless(done, after, good);
  }

  /**
   * With distinct creation times the condition is exact: however long the run, and whatever younger rows are inserted,
   * the row stays unsent if a hundred undecodable rows are older; otherwise as many batches as there are deliverable
   * rows up to it suffice.
   */
  lemma SentExactlyIfFewOlder(tables: seq<Outbox>, good: Uuid)
    requires BusyBatches(tables, good) && good in Deliverable(tables[0])
    requires forall a, b ::
      a in tables[0] && b in tables[0] && a != b ==> CreatedAt(tables[0], a) != CreatedAt(tables[0], b)
    requires |tables| > |NotYounger(tables[0], Deliverable(tables[0]), good)|
    ensures good !in Deliverable(tables[|tables| - 1]) <==>
      |NotYounger(tables[0], Undecodable(tables[0]), good)| < 100
  {
    var older := NotYounger(tables[0], Undecodable(tables[0]), good);
    if |older| < 100 {
      var m, room := |tables| - 1, 100 - |older|;
      assert m * room == m + m * (room - 1);
      ProductIsNatural(m, room - 1);
      RowDrains(tables, good);
    } else {
      StuckBehindHundred(tables, older, good);
    }
  }
}
