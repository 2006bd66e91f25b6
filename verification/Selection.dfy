/**
 * What SELECT ... WHERE pending ORDER BY created_at LIMIT 100
 * FOR UPDATE SKIP LOCKED promises, and how runs keep to it.
 */
module Selection {
  import opened Domain
  import opened Protocol

  function CreatedAt(outbox: Outbox, id: Uuid): Time
    requires id in outbox
  {
    outbox[id].head.createdAt
  }

  /** The rows that the query may return: pending, and not locked by anybody. */
  ghost function Free(outbox: Outbox, held: set<Uuid>): set<Uuid> {
    PendingIds(outbox) - held
  }

  ghost predicate NoDuplicates(ids: seq<Uuid>) {
    forall i, j :: 0 <= i < j < |ids| ==> ids[i] != ids[j]
  }

  ghost predicate OldestFirst(outbox: Outbox, ids: seq<Uuid>) {
    forall i, j ::
      0 <= i < j < |ids| && ids[i] in outbox && ids[j] in outbox ==>
        CreatedAt(outbox, ids[i]) <= CreatedAt(outbox, ids[j])
  }

  function Min(a: nat, b: nat): nat {
    if a <= b then a else b
  }

  /**
   * A duplicate-free list of free rows, oldest first, as long as the limit allows, that passes over no free row
   * strictly older than one it contains.
   */
  ghost predicate IsSelection(outbox: Outbox, held: set<Uuid>, ids: seq<Uuid>) {
    && NoDuplicates(ids) && OldestFirst(outbox, ids)
    && (forall id :: id in ids ==> id in Free(outbox, held))
    && |ids| == Min(BATCH_LIMIT, |Free(outbox, held)|)
    && (forall id, left ::
        id in ids && left in Free(outbox, held) && left !in ids ==> CreatedAt(outbox, id) <= CreatedAt(outbox, left))
  }

  ghost function Elements(ids: seq<Uuid>): set<Uuid> {
    set id | id in ids
  }

  lemma {:induction false} CountElements(ids: seq<Uuid>)
    requires NoDuplicates(ids)
    ensures |Elements(ids)| == |ids|
  {
    if ids != [] {
      var shorter := ids[..|ids| - 1];
      CountElements(shorter);
      assert Elements(ids) == Elements(shorter) + {ids[|ids| - 1]};
    }
  }

  /** The selection, while it is under way: `k` candidates seen, `ids` chosen from them. */
  ghost predicate Scanned(outbox: Outbox, held: set<Uuid>, order: seq<Uuid>, k: nat, ids: seq<Uuid>) {
    && k <= |order| && |ids| <= BATCH_LIMIT
    && NoDuplicates(ids) && OldestFirst(outbox, ids)
    && (forall id :: id in ids ==> id in order[..k] && id !in held)
    && (forall id :: id in order[..k] && id !in held ==> id in ids)
  }

  lemma SelectNext(outbox: Outbox, held: set<Uuid>, order: seq<Uuid>, k: nat, ids: seq<Uuid>)
    requires SortedPending(outbox, order) && Scanned(outbox, held, order, k, ids)
    requires k < |order| && |ids| < BATCH_LIMIT
    ensures order[k] !in ids
    ensures Scanned(outbox, held, order, k + 1, if order[k] in held then ids else ids + [order[k]])
  {
    assert order[..k + 1] == order[..k] + [order[k]];
    forall id | id in ids
      ensures id in outbox && order[k] in outbox && id != order[k]
        && CreatedAt(outbox, id) <= CreatedAt(outbox, order[k])
    {
      var i :| 0 <= i < k && order[i] == id;
      assert order[i] in order && order[k] in order;
    }
  }

  lemma SelectionDone(outbox: Outbox, held: set<Uuid>, order: seq<Uuid>, k: nat, ids: seq<Uuid>)
    requires SortedPending(outbox, order) && Scanned(outbox, held, order, k, ids)
    requires k == |order| || |ids| == BATCH_LIMIT
    ensures IsSelection(outbox, held, ids)
    ensures var free := |Free(outbox, held)|; |ids| == if free <= 100 then free else 100
  {
    forall id | id in ids ensures id in Free(outbox, held) {
      assert id in order;
    }
    CountElements(ids);
    if k == |order| {
      AllSelected(outbox, held, order, ids);
    } else {
      SubsetIsSmaller(Elements(ids), Free(outbox, held));
    }
    forall id, left | id in ids && left in Free(outbox, held) && left !in ids
      ensures CreatedAt(outbox, id) <= CreatedAt(outbox, left)
    {
      LeftIsLater(outbox, held, order, k, ids, id, left);
    }
  }

  lemma AllSelected(outbox: Outbox, held: set<Uuid>, order: seq<Uuid>, ids: seq<Uuid>)
    requires SortedPending(outbox, order) && Scanned(outbox, held, order, |order|, ids)
    ensures Elements(ids) == Free(outbox, held)
  {
    assert order[..|order|] == order;
  }

  lemma LeftIsLater(outbox: Outbox, held: set<Uuid>, order: seq<Uuid>, k: nat, ids: seq<Uuid>, id: Uuid, left: Uuid)
    requires SortedPending(outbox, order) && Scanned(outbox, held, order, k, ids)
    requires id in ids && left in Free(outbox, held) && left !in ids
    ensures id in outbox && CreatedAt(outbox, id) <= CreatedAt(outbox, left)
  {
    var i :| 0 <= i < k && order[i] == id;
    assert left in order && left !in order[..k];
    assert order == order[..k] + order[k..];
    var j :| 0 <= j < |order[k..]| && order[k..][j] == left;
    assert order[i] in order && order[k + j] == left;
  }

  lemma SubsetIsSmaller<T>(a: set<T>, b: set<T>)
    requires a <= b
    ensures |a| <= |b|
  {
    assert b == a + (b - a);
  }

  // ----- there is always an oldest row, hence an order -----

  lemma {:induction false} OldestExists(outbox: Outbox, ids: set<Uuid>)
    requires ids != {} && forall id :: id in ids ==> id in outbox
    ensures exists oldest ::
      oldest in ids && forall id :: id in ids ==> CreatedAt(outbox, oldest) <= CreatedAt(outbox, id)
    decreases |ids|
  {
    var one :| one in ids;
    if ids != {one} {
      OldestExists(outbox, ids - {one});
      var other :| other in ids - {one}
        && forall id :: id in ids - {one} ==> CreatedAt(outbox, other) <= CreatedAt(outbox, id);
      var oldest := if CreatedAt(outbox, one) <= CreatedAt(outbox, other) then one else other;
      assert oldest in ids && forall id :: id in ids ==> CreatedAt(outbox, oldest) <= CreatedAt(outbox, id);
    }
  }

  /** `done` then `rest`: what sorting by repeated extraction of the oldest row keeps. */
  ghost predicate PartlySorted(outbox: Outbox, done: seq<Uuid>, rest: set<Uuid>) {
    && NoDuplicates(done) && OldestFirst(outbox, done)
    && (forall id :: id in PendingIds(outbox) <==> id in done || id in rest)
    && (forall id :: id in done ==> id !in rest)
    && (forall id, later ::
        id in done && later in rest && id in outbox && later in outbox ==>
          CreatedAt(outbox, id) <= CreatedAt(outbox, later))
  }

  lemma ExtractOldest(outbox: Outbox, done: seq<Uuid>, rest: set<Uuid>, oldest: Uuid)
    requires PartlySorted(outbox, done, rest) && oldest in rest
    requires forall id :: id in rest ==> id in outbox && CreatedAt(outbox, oldest) <= CreatedAt(outbox, id)
    ensures PartlySorted(outbox, done + [oldest], rest - {oldest})
  {
    forall id, later | id in done + [oldest] && later in rest - {oldest} && id in outbox && later in outbox
      ensures CreatedAt(outbox, id) <= CreatedAt(outbox, later)
    {
      assert id in done || id == oldest;
    }
  }

  lemma {:induction false} OrderExists(outbox: Outbox, done: seq<Uuid>, rest: set<Uuid>)
    requires PartlySorted(outbox, done, rest)
    ensures exists order :: SortedPending(outbox, order)
    decreases |rest|
  {
    if rest == {} {
      assert SortedPending(outbox, done);
    } else {
      OldestExists(outbox, rest);
      var oldest :| oldest in rest && forall id :: id in rest ==> CreatedAt(outbox, oldest) <= CreatedAt(outbox, id);
      ExtractOldest(outbox, done, rest, oldest);
      OrderExists(outbox, done + [oldest], rest - {oldest});
    }
  }

  lemma SortedOrderExists(outbox: Outbox)
    ensures exists order :: SortedPending(outbox, order)
  {
    OrderExists(outbox, [], PendingIds(outbox));
  }
}
