/** The statements of one publisher as runs of the state machine, and what they amount to. */
module PublisherSteps {
  import opened Domain
  import opened Errors
  import opened Protocol
  import opened Selection
  import opened Draining
  import opened Database
  import P = PublisherProof

  /** What Kafka does with one WriteMessages call: an error may come with any number of copies appended. */
  datatype SendOutcome = Accepts(extraCopies: nat) | Refuses(copies: nat, text: string)

  /** What Kafka answers to the message of each row; where nothing is said, it accepts. */
  type Answers = map<Uuid, SendOutcome>

  function AnswerFor(send: Answers, row: Uuid): SendOutcome {
    if row in send then send[row] else Accepts(0)
  }

  /** Which statements of a batch fail. */
  datatype Faults = Faults(begin: bool, select: QueryOutcome, mark: set<Uuid>, commit: CommitOutcome, count: bool)

  // ----- the query as a sequence of steps -----

  ghost function AfterTaking(g: State, p: PubId, order: seq<Uuid>, k: nat): State
    requires p in g.pubs && k <= |order|
  {
    var chosen := Chosen(g.outbox, g.eventLocks.Keys, order, k);
    g.(pubs := g.pubs[p := g.pubs[p].(pc := Selecting, queue := order[k..], batch := chosen)],
       eventLocks := LockedBy(g.eventLocks, chosen, p))
  }

  ghost function TakeRun(p: PubId, order: seq<Uuid>, k: nat): seq<Action> {
    if k == 0 then [PubStep(p, Snapshot(order))] else TakeRun(p, order, k - 1) + [PubStep(p, TakeRow)]
  }

  ghost predicate OnlyBy(p: PubId, run: seq<Action>) {
    forall a :: a in run ==> a.PubStep? && a.pub == p
  }

  /** What the steps of publisher `p` have done since `g`: a run of its own, ending in `g'`. */
  ghost predicate Ran(g: State, p: PubId, run: seq<Action>, g': State) {
    Leads(g, run, g') && OnlyBy(p, run)
  }

  lemma RanNext(g: State, p: PubId, run: seq<Action>, g': State, a: PubAction)
    requires Ran(g, p, run, g') && PubEnabled(g', p, a)
    ensures Ran(g, p, run + [PubStep(p, a)], PubNext(g', p, a))
  {
    LeadsNext(g, run, g', PubStep(p, a));
  }

  lemma RanOn(g: State, p: PubId, run: seq<Action>, g': State, run': seq<Action>, g'': State)
    requires Ran(g, p, run, g') && Ran(g', p, run', g'')
    ensures Ran(g, p, run + run', g'')
  {
    LeadsOn(g, run, g', run', g'');
  }

  lemma {:induction false} ChosenSeen(outbox: Outbox, held: set<Uuid>, order: seq<Uuid>, k: nat)
    requires k <= |order|
    ensures forall id :: id in Ids(Chosen(outbox, held, order, k)) ==> id in order[..k]
  {
    if k > 0 {
      ChosenSeen(outbox, held, order, k - 1);
      var earlier, all := Chosen(outbox, held, order, k - 1), Chosen(outbox, held, order, k);
      assert order[..k] == order[..k - 1] + [order[k - 1]];
      if all != earlier { IdsAppend(earlier, all[|all| - 1]); }
    }
  }

  /** The next candidate is pending, and it is locked exactly if it was locked from the start. */
  lemma NextCandidate(g: State, p: PubId, order: seq<Uuid>, k: nat)
    requires SortedPending(g.outbox, order) && k < |order|
    ensures order[k] in g.outbox && g.outbox[order[k]].status == Pending
    ensures order[k] in LockedBy(g.eventLocks, Chosen(g.outbox, g.eventLocks.Keys, order, k), p) <==>
      order[k] in g.eventLocks
  {
    ChosenSeen(g.outbox, g.eventLocks.Keys, order, k);
    LockedByKeys(g.eventLocks, Chosen(g.outbox, g.eventLocks.Keys, order, k), p);
    assert order[k] in order && order[k] !in order[..k];
  }

  /** Taking a row and then the pick of it, as a value. */
  lemma TakenRow(s: State, p: PubId, id: Uuid, rest: seq<Uuid>)
    requires p in s.pubs && s.pubs[p].pc == Selecting && s.pubs[p].queue == [id] + rest
    requires |s.pubs[p].batch| < BATCH_LIMIT
    requires id in s.outbox && s.outbox[id].status == Pending
    ensures PubEnabled(s, p, TakeRow)
    ensures DoTakeRow(s, p) ==
      if id in s.eventLocks then s.(pubs := s.pubs[p := s.pubs[p].(queue := rest)])
      else s.(pubs := s.pubs[p := s.pubs[p].(queue := rest, batch := s.pubs[p].batch + [Picked(id, s.outbox[id])])],
              eventLocks := s.eventLocks[id := p])
  {
    assert s.pubs[p].queue[1..] == rest;
  }

  lemma TakeOne(g: State, p: PubId, order: seq<Uuid>, k: nat)
    requires p in g.pubs && SortedPending(g.outbox, order) && k < |order|
    requires |Chosen(g.outbox, g.eventLocks.Keys, order, k)| < BATCH_LIMIT
    ensures PubEnabled(AfterTaking(g, p, order, k), p, TakeRow)
    ensures DoTakeRow(AfterTaking(g, p, order, k), p) == AfterTaking(g, p, order, k + 1)
  {
    var s, id := AfterTaking(g, p, order, k), order[k];
    NextCandidate(g, p, order, k);
    assert order[k..] == [id] + order[k + 1..];
    TakenRow(s, p, id, order[k + 1..]);
    TakenNext(g, p, order, k);
  }

  lemma TakenNext(g: State, p: PubId, order: seq<Uuid>, k: nat)
    requires p in g.pubs && k < |order| && order[k] in g.outbox
    ensures var s, s', id := AfterTaking(g, p, order, k), AfterTaking(g, p, order, k + 1), order[k];
      if id in g.eventLocks then s' == s.(pubs := s.pubs[p := s.pubs[p].(queue := order[k + 1..])])
      else s' == s.(pubs :=
                    s.pubs[p :=
                           s.pubs[p].(queue := order[k + 1..], batch := s.pubs[p].batch + [Picked(id, s.outbox[id])])],
                    eventLocks := s.eventLocks[id := p])
  {
    var s, s', id := AfterTaking(g, p, order, k), AfterTaking(g, p, order, k + 1), order[k];
    LockedByAppend(g.eventLocks, Chosen(g.outbox, g.eventLocks.Keys, order, k), Picked(id, g.outbox[id]), p);
    assert s.pubs[p := s'.pubs[p]] == s'.pubs;
  }

  predicate JustOpened(g: State, p: PubId) {
    p in g.pubs && g.pubs[p].pc == Opened && g.pubs[p].batch == []
  }

  /** The first `k` rows of `order` can be scanned one by one. */
  ghost predicate Took(g: State, p: PubId, order: seq<Uuid>, k: nat)
    requires p in g.pubs && k <= |order|
  {
    Ran(g, p, TakeRun(p, order, k), AfterTaking(g, p, order, k))
  }

  lemma TakeNone(g: State, p: PubId, order: seq<Uuid>)
    requires JustOpened(g, p) && SortedPending(g.outbox, order)
    ensures Took(g, p, order, 0)
  {
    assert order[0..] == order;
    LeadsNowhere(g);
    RanNext(g, p, [], g, Snapshot(order));
    assert [] + [PubStep(p, Snapshot(order))] == TakeRun(p, order, 0);
  }

  lemma TakeOneMore(g: State, p: PubId, order: seq<Uuid>, k: nat)
    requires p in g.pubs && k < |order| && Scannable(g.outbox, g.eventLocks.Keys, order, k + 1) && Took(g, p, order, k)
    ensures Took(g, p, order, k + 1)
  {
    ScannableIsSorted(g.outbox, g.eventLocks.Keys, order, k + 1);
    TakeOne(g, p, order, k);
    RanNext(g, p, TakeRun(p, order, k), AfterTaking(g, p, order, k), TakeRow);
  }

  /** The query is a snapshot followed by one step per scanned row. */
  lemma {:induction false} TakeRows(g: State, p: PubId, order: seq<Uuid>, k: nat)
    requires JustOpened(g, p) && Scannable(g.outbox, g.eventLocks.Keys, order, k)
    ensures Took(g, p, order, k)
  {
    if k == 0 {
      TakeNone(g, p, order);
    } else {
      TakeRows(g, p, order, k - 1);
      TakeOneMore(g, p, order, k - 1);
    }
  }

  /** The state in which the rows `events` are picked and locked, and sending begins. */
  ghost function Loaded(g: State, p: PubId, events: seq<Picked>): State
    requires p in g.pubs
  {
    g.(pubs := g.pubs[p := g.pubs[p].(pc := Sending, queue := [], batch := events)],
       eventLocks := LockedBy(g.eventLocks, events, p))
  }

  lemma SelectEnds(g: State, p: PubId, order: seq<Uuid>, seen: nat, events: seq<Picked>)
    requires p in g.pubs && Scans(g.outbox, g.eventLocks.Keys, order, seen, events)
    ensures PubEnabled(AfterTaking(g, p, order, seen), p, EndSelect)
    ensures PubNext(AfterTaking(g, p, order, seen), p, EndSelect) == Loaded(g, p, events)
  {
    assert PubNext(AfterTaking(g, p, order, seen), p, EndSelect).pubs == Loaded(g, p, events).pubs;
  }

  lemma SelectRun(g: State, p: PubId, order: seq<Uuid>, seen: nat, events: seq<Picked>)
    requires JustOpened(g, p) && Scans(g.outbox, g.eventLocks.Keys, order, seen, events)
    ensures Ran(g, p, TakeRun(p, order, seen) + [PubStep(p, EndSelect)], Loaded(g, p, events))
  {
    TakeRows(g, p, order, seen);
    SelectEnds(g, p, order, seen, events);
    RanNext(g, p, TakeRun(p, order, seen), AfterTaking(g, p, order, seen), EndSelect);
  }

  /** A run of one publisher keeps the publishers' invariant. */
  lemma RanKeeps(g: State, p: PubId, run: seq<Action>, g': State)
    requires P.PublisherInv(g) && Ran(g, p, run, g')
    ensures P.PublisherInv(g')
  {
    LeadsIsFinal(g, run, g');
    RunKeepsPublisher(g, run, p);
  }

  lemma {:induction false} RunKeepsPublisher(g: State, run: seq<Action>, p: PubId)
    requires P.PublisherInv(g) && ValidRun(g, run) && OnlyBy(p, run)
    ensures P.PublisherInv(Final(g, run))
    decreases |run|
  {
    if run != [] {
      var shorter, last := run[..|run| - 1], run[|run| - 1];
      RunKeepsPublisher(g, shorter, p);
      assert last in run;
      P.PubStepKeeps(Final(g, shorter), p, last.pub_action);
    }
  }

  lemma RanOne(g: State, p: PubId, a: PubAction)
    requires PubEnabled(g, p, a)
    ensures Ran(g, p, [PubStep(p, a)], PubNext(g, p, a))
  {
    LeadsNowhere(g);
    RanNext(g, p, [], g, a);
    assert [] + [PubStep(p, a)] == [PubStep(p, a)];
  }

  /** A statement fails, and the transaction can only be rolled back. */
  ghost function Doom(g: State, p: PubId): State
    requires p in g.pubs
  {
    SetPub(g, p, g.pubs[p].(pc := Doomed))
  }

  lemma DoomRun(g: State, p: PubId)
    requires JustOpened(g, p)
    ensures Ran(g, p, [PubStep(p, TxError)], Doom(g, p))
  {
    RanOne(g, p, TxError);
  }

  /** The state after pool.Begin. */
  ghost function Opening(g: State, p: PubId, now: Time, fails: bool): State
    requires p in g.pubs
  {
    SetPub(g, p, if fails then g.pubs[p].(pc := Counting) else g.pubs[p].(pc := Opened, now := now))
  }

  ghost function OpenAction(now: Time, fails: bool): PubAction {
    if fails then OpenTxError else OpenTx(now)
  }

  lemma OpenStep(g: State, p: PubId, now: Time, fails: bool)
    requires p in g.pubs && g.pubs[p].pc == Resting
    ensures Ran(g, p, [PubStep(p, OpenAction(now, fails))], Opening(g, p, now, fails))
  {
    RanOne(g, p, OpenAction(now, fails));
  }

  /** The state after the query. */
  ghost function Selected(g: State, p: PubId, outcome: QueryOutcome, order: seq<Uuid>, seen: nat,
                          events: seq<Picked>): State
    requires p in g.pubs && seen <= |order|
  {
    match outcome
    case QueryOk => Loaded(g, p, events)
    case QueryFails => Doom(g, p)
    case ReadFails(_) => Doom(AfterTaking(g, p, order, seen), p)
  }

  ghost function SelectActions(p: PubId, outcome: QueryOutcome, order: seq<Uuid>, seen: nat): seq<Action> {
    match outcome
    case QueryOk => TakeRun(p, order, seen) + [PubStep(p, EndSelect)]
    case QueryFails => [PubStep(p, TxError)]
    case ReadFails(_) => TakeRun(p, order, seen) + [PubStep(p, TxError)]
  }

  /** How far the query has come. */
  ghost predicate QueryWent(g: State, outcome: QueryOutcome, order: seq<Uuid>, seen: nat, events: seq<Picked>) {
    && seen <= |order|
    && match outcome
       case QueryOk => Scans(g.outbox, g.eventLocks.Keys, order, seen, events)
       case QueryFails => true
       case ReadFails(_) => Scannable(g.outbox, g.eventLocks.Keys, order, seen)
  }

  lemma SelectStep(g: State, p: PubId, outcome: QueryOutcome, order: seq<Uuid>, seen: nat, events: seq<Picked>)
    requires JustOpened(g, p) && QueryWent(g, outcome, order, seen, events)
    ensures Ran(g, p, SelectActions(p, outcome, order, seen), Selected(g, p, outcome, order, seen, events))
  {
    match outcome
    case QueryOk => SelectRun(g, p, order, seen, events);
    case QueryFails => DoomRun(g, p);
    case ReadFails(_) =>
      TakeRows(g, p, order, seen);
      RanNext(g, p, TakeRun(p, order, seen), AfterTaking(g, p, order, seen), TxError);
  }

  // ----- one turn of the loop -----

  /** The transaction of `p` is about to send a row, or has the answer to a send and is about to record it. */
  predicate AtRow(g: State, p: PubId) {
    p in g.pubs && g.pubs[p].pc == Sending && NextIsOurs(g, p)
  }

  /** There is a next row, and we have it locked. */
  predicate NextIsOurs(g: State, p: PubId)
    requires p in g.pubs
  {
    g.pubs[p].next < |g.pubs[p].batch| && Ours(g.eventLocks, p, g.pubs[p].batch[g.pubs[p].next])
  }

  predicate AtMark(g: State, p: PubId, failure: Option<Reason>) {
    && p in g.pubs && NextIsOurs(g, p)
    && g.pubs[p].pc == match failure case None => AckReceived case Some(reason) => SendFailed(reason)
  }

  /** The copies that one call leaves in the topic, whatever becomes of the transaction. */
  function Appended(event: Picked, outcome: SendOutcome): seq<LogEntry> {
    match Unmarshal(event.row.head.payload)
    case None => []
    case Some(message) =>
      Copies(event.id, ToMessage(message),
             match outcome case Accepts(extra) => extra + 1 case Refuses(copies, _) => copies)
  }

  function SendAction(event: Picked, outcome: SendOutcome): PubAction {
    if Unmarshal(event.row.head.payload).None? then SendDecodeError
    else match outcome case Accepts(extra) => SendAck(extra + 1) case Refuses(copies, text) => SendNack(copies, text)
  }

  /** Why an event was not sent, if it was not. */
  function Failure(event: Picked, outcome: SendOutcome): Option<Reason> {
    if Unmarshal(event.row.head.payload).None? then Some(DecodeFailure)
    else match outcome case Accepts(_) => None case Refuses(_, text) => Some(SendFailure(text))
  }

  /** `g'` is `g` after the answer for the next row: nothing but log, counters and acknowledgements has changed. */
  ghost predicate KafkaAnswered(g: State, p: PubId, g': State, event: Picked, outcome: SendOutcome)
    requires p in g.pubs
  {
    && AtMark(g', p, Failure(event, outcome))
    && g'.outbox == g.outbox && g'.eventLocks == g.eventLocks && g'.log == g.log + Appended(event, outcome)
    && var pub, pub' := g.pubs[p], g'.pubs[p];
       && pub'.batch == pub.batch && pub'.now == pub.now && pub'.next == pub.next && pub'.writes == pub.writes
  }

  lemma AckAnswers(g: State, p: PubId, event: Picked, extra: nat)
    requires AtRow(g, p) && event == g.pubs[p].batch[g.pubs[p].next] && Unmarshal(event.row.head.payload).Some?
    ensures PubEnabled(g, p, SendAck(extra + 1))
    ensures KafkaAnswered(g, p, DoSendAck(g, p, extra + 1), event, Accepts(extra))
  {
  }

  lemma RefusalAnswers(g: State, p: PubId, event: Picked, outcome: SendOutcome, appended: seq<LogEntry>, reason: Reason)
    requires AtRow(g, p) && event == g.pubs[p].batch[g.pubs[p].next]
    requires Failure(event, outcome) == Some(reason) && appended == Appended(event, outcome)
    ensures KafkaAnswered(g, p, DoSendFailed(g, p, appended, reason), event, outcome)
  {
  }

  lemma SendStep(g: State, p: PubId, event: Picked, outcome: SendOutcome)
    requires AtRow(g, p) && event == g.pubs[p].batch[g.pubs[p].next]
    ensures PubEnabled(g, p, SendAction(event, outcome))
    ensures KafkaAnswered(g, p, PubNext(g, p, SendAction(event, outcome)), event, outcome)
  {
    match SendAction(event, outcome)
    case SendDecodeError => RefusalAnswers(g, p, event, outcome, [], DecodeFailure);
    case SendAck(_) => AckAnswers(g, p, event, outcome.extraCopies);
    case SendNack(copies, text) =>
      RefusalAnswers(g, p, event, outcome, Copies(event.id, ToMessage(Unmarshal(event.row.head.payload).value), copies),
                     SendFailure(text));
  }

  /** `g'` is `g` after the UPDATE of the row, or after its failure. */
  ghost predicate RowRecorded(g: State, p: PubId, g': State, failure: Option<Reason>, fails: bool)
    requires AtMark(g, p, failure)
  {
    && p in g'.pubs && g' == g.(pubs := g.pubs[p := g'.pubs[p]])
    && var pub, pub' := g.pubs[p], g'.pubs[p];
       && pub'.counters == pub.counters && pub'.now == pub.now && pub'.batch == pub.batch && pub'.acked == pub.acked
       && pub'.pc == (if fails then Doomed else Sending) && pub'.next == (if fails then pub.next else pub.next + 1)
       && pub'.writes == Marked(g.outbox, pub.writes, pub.batch[pub.next].id, pub.now, failure, fails)
  }

  function Marked(outbox: Outbox, writes: Outbox, id: Uuid, now: Time, failure: Option<Reason>, fails: bool): Outbox {
    var seen := Seen(outbox, writes, id);
    if fails || seen.None? then writes
    else writes[id := match failure case None => SentRow(seen.value, now)
                case Some(reason) => FailedRow(seen.value, reason)]
  }

  function MarkAction(fails: bool): PubAction {
    if fails then TxError else Mark
  }

  lemma MarkStep(g: State, p: PubId, failure: Option<Reason>, fails: bool)
    requires AtMark(g, p, failure)
    ensures PubEnabled(g, p, MarkAction(fails))
    ensures RowRecorded(g, p, PubNext(g, p, MarkAction(fails)), failure, fails)
  {
    assert PubNext(g, p, MarkAction(fails)) == if fails then SetPub(g, p, g.pubs[p].(pc := Doomed)) else DoMark(g, p);
  }

  /** `g'` is `g` after one turn of the loop for `event`. */
  ghost predicate Turned(g: State, p: PubId, g': State, event: Picked, outcome: SendOutcome, fails: bool) {
    && p in g.pubs && p in g'.pubs
    && g'.outbox == g.outbox && g'.eventLocks == g.eventLocks && g'.log == g.log + Appended(event, outcome)
    && var pub, pub' := g.pubs[p], g'.pubs[p];
       && pub'.batch == pub.batch && pub'.now == pub.now
       && pub'.pc == (if fails then Doomed else Sending) && pub'.next == (if fails then pub.next else pub.next + 1)
       && pub'.writes == Marked(g.outbox, pub.writes, event.id, pub.now, Failure(event, outcome), fails)
  }

  lemma RanTwo(g: State, p: PubId, a: PubAction, g': State, b: PubAction, g'': State)
    requires PubEnabled(g, p, a) && g' == PubNext(g, p, a) && PubEnabled(g', p, b) && g'' == PubNext(g', p, b)
    ensures Ran(g, p, [PubStep(p, a), PubStep(p, b)], g'')
  {
    LeadsNowhere(g);
    RanNext(g, p, [], g, a);
    assert [] + [PubStep(p, a)] == [PubStep(p, a)];
    RanNext(g, p, [PubStep(p, a)], g', b);
    assert [PubStep(p, a)] + [PubStep(p, b)] == [PubStep(p, a), PubStep(p, b)];
  }

  // ----- the whole loop -----

  /** The row that a picked event becomes: sent, or failed once more with the reason of this failure. */
  function Outcome(event: Picked, outcome: SendOutcome, now: Time): OutboxRow {
    match Failure(event, outcome)
    case None => SentRow(event.row, now)
    case Some(reason) => FailedRow(event.row, reason)
  }

  /** The private writes after the first `k` events. */
  ghost function MarksOf(events: seq<Picked>, send: Answers, now: Time, k: nat): Outbox
    requires k <= |events|
  {
    if k == 0 then map[] else
    var event := events[k - 1];
    MarksOf(events, send, now, k - 1)[event.id := Outcome(event, AnswerFor(send, event.id), now)]
  }

  lemma {:induction false} MarksOfAt(events: seq<Picked>, send: Answers, now: Time, k: nat)
    requires k <= |events| && NoDuplicates(Ids(events))
    ensures forall i :: 0 <= i < k ==>
      && events[i].id in MarksOf(events, send, now, k)
      && MarksOf(events, send, now, k)[events[i].id] == Outcome(events[i], AnswerFor(send, events[i].id), now)
    ensures forall id :: id in MarksOf(events, send, now, k) ==> id in Ids(events)[..k]
  {
    if k > 0 {
      MarksOfAt(events, send, now, k - 1);
      assert Ids(events)[..k] == Ids(events)[..k - 1] + [events[k - 1].id];
      forall i | 0 <= i < k - 1 ensures events[i].id != events[k - 1].id {
        assert Ids(events)[i] == events[i].id && Ids(events)[k - 1] == events[k - 1].id;
      }
    }
  }

  /** The UPDATE addresses the picked version of a row that this transaction has not marked yet. */
  lemma MarkedNext(outbox: Outbox, events: seq<Picked>, send: Answers, now: Time, k: nat)
    requires k < |events| && NoDuplicates(Ids(events)) && Current(outbox, events)
    ensures Marked(outbox, MarksOf(events, send, now, k), events[k].id, now,
                   Failure(events[k], AnswerFor(send, events[k].id)), false)
         == MarksOf(events, send, now, k + 1)
  {
    MarksOfAt(events, send, now, k);
    assert Ids(events)[k] == events[k].id && events[k].id !in Ids(events)[..k];
  }

  ghost function AppendedBy(events: seq<Picked>, send: Answers, k: nat): seq<LogEntry>
    requires k <= |events|
  {
    if k == 0 then [] else AppendedBy(events, send, k - 1) + Appended(events[k - 1], AnswerFor(send, events[k - 1].id))
  }

  /** No UPDATE of the first `k` events fails. */
  predicate MarksHold(events: seq<Picked>, markFails: set<Uuid>, k: nat)
    requires k <= |events|
  {
    k == 0 || (MarksHold(events, markFails, k - 1) && events[k - 1].id !in markFails)
  }

  /**
   * How many events are sent, from the `k`-th on: all of them,
   * or those up to and including the first whose UPDATE fails.
   */
  function SentFrom(events: seq<Picked>, markFails: set<Uuid>, k: nat): (n: nat)
    requires k <= |events|
    ensures k <= n <= |events|
    decreases |events| - k
  {
    if k == |events| then k else if events[k].id in markFails then k + 1 else SentFrom(events, markFails, k + 1)
  }

  function Sends(events: seq<Picked>, markFails: set<Uuid>): nat {
    SentFrom(events, markFails, 0)
  }

  lemma {:induction false} SendsFrom(events: seq<Picked>, markFails: set<Uuid>, k: nat)
    requires k <= |events| && MarksHold(events, markFails, k)
    ensures Sends(events, markFails) == SentFrom(events, markFails, k)
  {
    if k > 0 { SendsFrom(events, markFails, k - 1); }
  }

  lemma FailedMarkStays(events: seq<Picked>, markFails: set<Uuid>, k: nat)
    requires k < |events| && events[k].id in markFails
    ensures !MarksHold(events, markFails, |events|)
  {
    var j := k + 1;
    while j < |events|
      invariant j <= |events| && !MarksHold(events, markFails, j)
    {
      j := j + 1;
    }
  }

  /** If an UPDATE fails, it is the first of a failing row, and the row has been sent before. */
  lemma {:induction false} SendsStopAtFailure(events: seq<Picked>, markFails: set<Uuid>)
    ensures var n := Sends(events, markFails);
      if MarksHold(events, markFails, |events|) then n == |events|
      else 0 < n <= |events| && MarksHold(events, markFails, n - 1) && events[n - 1].id in markFails
  {
    var k := 0;
    while k < |events| && events[k].id !in markFails
      invariant k <= |events| && MarksHold(events, markFails, k)
    {
      k := k + 1;
    }
    SendsFrom(events, markFails, k);
    if k < |events| { FailedMarkStays(events, markFails, k); }
  }

  ghost predicate AtLoop(g: State, p: PubId, events: seq<Picked>) {
    && p in g.pubs && g.pubs[p].pc == Sending && g.pubs[p].batch == events && Untouched(g.pubs[p])
    && NoDuplicates(Ids(events)) && Current(g.outbox, events) && AllOurs(g.eventLocks, p, events)
  }

  predicate Ours(locks: map<Uuid, PubId>, p: PubId, event: Picked) {
    event.id in locks && locks[event.id] == p
  }

  predicate AllOurs(locks: map<Uuid, PubId>, p: PubId, events: seq<Picked>) {
    forall i :: 0 <= i < |events| ==> Ours(locks, p, events[i])
  }

  predicate Untouched(pub: Pub) {
    pub.next == 0 && pub.writes == map[]
  }

  /** Only the log and the publisher's own memory have changed since `g`. */
  ghost predicate SameTables(g: State, p: PubId, g': State, events: seq<Picked>) {
    && p in g.pubs && p in g'.pubs && g'.outbox == g.outbox && g'.eventLocks == g.eventLocks
    && g'.pubs[p].batch == events && g'.pubs[p].now == g.pubs[p].now
  }

  ghost predicate LoopAt(g: State, p: PubId, g': State, events: seq<Picked>, send: Answers, k: nat)
    requires k <= |events|
  {
    && SameTables(g, p, g', events) && g'.pubs[p].pc == Sending && g'.pubs[p].next == k
    && g'.pubs[p].writes == MarksOf(events, send, g.pubs[p].now, k) && g'.log == g.log + AppendedBy(events, send, k)
  }

  /** The loop is over, well or at a failed UPDATE. */
  ghost predicate LoopDone(g: State, p: PubId, g': State, events: seq<Picked>, send: Answers, markFails: set<Uuid>,
                           failed: bool)
  {
    var n := Sends(events, markFails);
    && (failed <==> !MarksHold(events, markFails, |events|)) && (failed ==> n > 0)
    && SameTables(g, p, g', events) && g'.log == g.log + AppendedBy(events, send, n)
    && var marked := if failed then n - 1 else n;
       && g'.pubs[p].writes == MarksOf(events, send, g.pubs[p].now, marked)
       && g'.pubs[p].next == marked && g'.pubs[p].pc == if failed then Doomed else Sending
  }

  lemma LoopNext(g: State, p: PubId, before: State, after: State, events: seq<Picked>, send: Answers,
                 markFails: set<Uuid>, k: nat)
    requires k < |events| && LoopAt(g, p, before, events, send, k) && NoDuplicates(Ids(events))
      && Current(g.outbox, events)
    requires MarksHold(events, markFails, k)
    requires Turned(before, p, after, events[k], AnswerFor(send, events[k].id), events[k].id in markFails)
    ensures if events[k].id in markFails then LoopDone(g, p, after, events, send, markFails, true)
            else LoopAt(g, p, after, events, send, k + 1)
  {
    assert (g.log + AppendedBy(events, send, k)) + Appended(events[k], AnswerFor(send, events[k].id)) ==
           g.log + (AppendedBy(events, send, k) + Appended(events[k], AnswerFor(send, events[k].id)));
    MarkedNext(g.outbox, events, send, g.pubs[p].now, k);
    SendsFrom(events, markFails, k);
    if events[k].id in markFails { FailedMarkStays(events, markFails, k); }
  }

  /** The first `k` events have been sent and marked. */
  ghost predicate SentSome(g: State, p: PubId, run: seq<Action>, g': State, events: seq<Picked>, send: Answers,
                           markFails: set<Uuid>, k: nat)
    requires k <= |events|
  {
    Ran(g, p, run, g') && LoopAt(g, p, g', events, send, k) && MarksHold(events, markFails, k)
  }

  ghost predicate SentAll(g: State, p: PubId, run: seq<Action>, g': State, events: seq<Picked>, send: Answers,
                          markFails: set<Uuid>, failed: bool) {
    Ran(g, p, run, g') && LoopDone(g, p, g', events, send, markFails, failed)
  }

  lemma TurnDone(g: State, p: PubId, run: seq<Action>, before: State, turn: seq<Action>, after: State,
                 events: seq<Picked>, send: Answers, markFails: set<Uuid>, k: nat)
    requires k < |events| && AtLoop(g, p, events) && SentSome(g, p, run, before, events, send, markFails, k)
    requires Ran(before, p, turn, after)
    requires Turned(before, p, after, events[k], AnswerFor(send, events[k].id), events[k].id in markFails)
    ensures if events[k].id in markFails then SentAll(g, p, run + turn, after, events, send, markFails, true)
            else SentSome(g, p, run + turn, after, events, send, markFails, k + 1)
  {
    RanOn(g, p, run, before, turn, after);
    LoopNext(g, p, before, after, events, send, markFails, k);
  }

  lemma LoopEnds(g: State, p: PubId, run: seq<Action>, g': State, events: seq<Picked>, send: Answers,
                 markFails: set<Uuid>)
    requires SentSome(g, p, run, g', events, send, markFails, |events|)
    ensures SentAll(g, p, run, g', events, send, markFails, false)
  {
    SendsFrom(events, markFails, |events|);
  }

  // ----- the whole batch -----

  /** Locks that were free before go again with the rest. */
  lemma ReleaseLocked(locks: map<Uuid, PubId>, events: seq<Picked>, p: PubId)
    requires forall id :: id in Ids(events) ==> id !in locks
    ensures Released(LockedBy(locks, events, p), p) == Released(locks, p)
  {
    LockedByKeys(locks, events, p);
  }

  /**
   * The block has ended, well or not: the tables are as before, no
   * lock of others has changed, and the log has what was sent.
   */
  ghost predicate AfterBlock(g: State, p: PubId, g': State, batch: seq<Picked>, send: Answers, markFails: set<Uuid>,
                             failed: bool)
  {
    && p in g.pubs && p in g'.pubs && g'.outbox == g.outbox
    && Released(g'.eventLocks, p) == Released(g.eventLocks, p)
    && g'.pubs[p].now == g.pubs[p].now && g'.log == g.log + AppendedBy(batch, send, Sends(batch, markFails))
    && if failed then g'.pubs[p].pc == Doomed
       else AllMarked(g'.pubs[p]) && g'.pubs[p].writes == MarksOf(batch, send, g.pubs[p].now, |batch|)
  }

  /** After the query, the loop may start: the rows are distinct, current, and ours. */
  lemma LoadedAtLoop(g: State, p: PubId, events: seq<Picked>)
    requires p in g.pubs && Untouched(g.pubs[p]) && IsBatch(g.outbox, g.eventLocks.Keys, events)
    ensures AtLoop(Loaded(g, p, events), p, events)
  {
    LockedByKeys(g.eventLocks, events, p);
    forall i | 0 <= i < |events| ensures Ours(LockedBy(g.eventLocks, events, p), p, events[i]) {
      assert Ids(events)[i] == events[i].id;
    }
  }

  lemma LoopEndsBlock(g: State, p: PubId, g': State, events: seq<Picked>, send: Answers, markFails: set<Uuid>,
                      failed: bool)
    requires p in g.pubs && LoopDone(Loaded(g, p, events), p, g', events, send, markFails, failed)
    requires IsBatch(g.outbox, g.eventLocks.Keys, events)
    ensures AfterBlock(g, p, g', events, send, markFails, failed) && g'.eventLocks == LockedBy(g.eventLocks, events, p)
    ensures failed <==> !MarksHold(events, markFails, |events|)
  {
    SendsStopAtFailure(events, markFails);
    ReleaseLocked(g.eventLocks, events, p);
  }

  /** A failed query ends the block before anything is sent; what it has locked, it has locked itself. */
  lemma QueryEndsBlock(g: State, p: PubId, outcome: QueryOutcome, order: seq<Uuid>, seen: nat, send: Answers,
                       markFails: set<Uuid>)
    requires p in g.pubs && outcome != QueryOk && QueryWent(g, outcome, order, seen, [])
    ensures AfterBlock(g, p, Selected(g, p, outcome, order, seen, []), [], send, markFails, true)
  {
    SendsStopAtFailure([], markFails);
    if outcome.ReadFails? {
      ChosenIsScanned(g.outbox, g.eventLocks.Keys, order, seen);
      ReleaseLocked(g.eventLocks, Chosen(g.outbox, g.eventLocks.Keys, order, seen), p);
    }
  }

  ghost predicate RowOutcome(before: Outbox, event: Picked, send: Answers, now: Time, after: Outbox) {
    && event.id in before && event.id in after && event.row == before[event.id]
    && after[event.id] == Outcome(event, AnswerFor(send, event.id), now)
  }

  /** After the commit, the rows of the batch have their outcome, and no other row has moved. */
  ghost predicate BatchOutcome(before: Outbox, batch: seq<Picked>, send: Answers, now: Time, after: Outbox) {
    && after.Keys == before.Keys
    && (forall i :: 0 <= i < |batch| ==> RowOutcome(before, batch[i], send, now, after))
    && (forall id :: id in before && id !in Ids(batch) ==> after[id] == before[id])
  }

  /** The same, column by column. */
  lemma BatchColumns(before: Outbox, batch: seq<Picked>, send: Answers, now: Time, after: Outbox, i: nat)
    requires BatchOutcome(before, batch, send, now, after) && i < |batch|
    ensures var id := batch[i].id;
      && id in before && id in after
      && var row, decodes, answer := before[id], Unmarshal(before[id].head.payload).Some?, AnswerFor(send, id);
         after[id] ==
           if decodes && answer.Accepts? then OutboxRow(row.head, Sent, row.attempts, row.lastError, Some(now))
           else OutboxRow(row.head, row.status, row.attempts + 1,
                          Some(if decodes then SendFailure(answer.text) else DecodeFailure), row.sentAt)
  {
    assert RowOutcome(before, batch[i], send, now, after);
  }

  /** No statement of the transaction fails. */
  predicate Succeeds(faults: Faults, batch: seq<Picked>) {
    BlockSucceeds(faults, batch) && faults.commit == CommitOk
  }

  predicate BlockSucceeds(faults: Faults, batch: seq<Picked>) {
    !faults.begin && MarksDone(faults, batch)
  }

  predicate MarksDone(faults: Faults, batch: seq<Picked>) {
    faults.select == QueryOk && MarksHold(batch, faults.mark, |batch|)
  }

  /** The block has run in `g`, and left `g'`, with the batch that it has sent. */
  ghost predicate BlockRan(g: State, p: PubId, g': State, faults: Faults, send: Answers, batch: seq<Picked>) {
    && AfterBlock(g, p, g', batch, send, faults.mark, !MarksDone(faults, batch))
    && if faults.select != QueryOk then batch == []
       else IsBatch(g.outbox, g.eventLocks.Keys, batch) && g'.eventLocks == LockedBy(g.eventLocks, batch, p)
  }

  /**
   * What a transaction does to the tables: everything or nothing,
   * and the locks are as before.  The log keeps what was sent.
   */
  ghost predicate Processed(g: State, g': State, now: Time, faults: Faults, send: Answers, batch: seq<Picked>) {
    && g'.eventLocks == g.eventLocks
    && (if faults.begin || faults.select != QueryOk then batch == [] else IsBatch(g.outbox, g.eventLocks.Keys, batch))
    && g'.log == g.log + AppendedBy(batch, send, Sends(batch, faults.mark))
    && if BlockSucceeds(faults, batch) && faults.commit != CommitErrorLost
       then BatchOutcome(g.outbox, batch, send, now, g'.outbox)
       else g'.outbox == g.outbox
  }

  /** Only tables, locks and log count. */
  lemma StillProcessed(g: State, ended: State, g': State, now: Time, faults: Faults, send: Answers, batch: seq<Picked>)
    requires Processed(g, ended, now, faults, send, batch)
    requires g'.outbox == ended.outbox && g'.eventLocks == ended.eventLocks && g'.log == ended.log
    ensures Processed(g, g', now, faults, send, batch)
  {
  }

  lemma RestingIsUntouched(g: State, p: PubId)
    requires P.PublisherInv(g) && p in g.pubs && g.pubs[p].pc == Resting
    ensures g.pubs[p].batch == [] && g.pubs[p].writes == map[] && Untouched(g.pubs[p])
  {
    P.NothingPicked(g.pubs[p]);
  }

  lemma BatchEffect(outbox: Outbox, batch: seq<Picked>, send: Answers, now: Time)
    requires NoDuplicates(Ids(batch)) && Current(outbox, batch)
    ensures BatchOutcome(outbox, batch, send, now, outbox + MarksOf(batch, send, now, |batch|))
  {
    var marks := MarksOf(batch, send, now, |batch|);
    MarksOfAt(batch, send, now, |batch|);
    assert forall i :: 0 <= i < |batch| ==> Ids(batch)[i] == batch[i].id;
    forall id | id in marks ensures id in outbox && id in Ids(batch) {
      assert id in Ids(batch)[..|batch|];
    }
  }

  lemma NothingToRelease(locks: map<Uuid, PubId>, p: PubId)
    requires forall id :: id in locks ==> locks[id] != p
    ensures Released(locks, p) == locks
  {
  }

  lemma LocksRestored(g: State, p: PubId)
    requires P.PublisherInv(g) && p in g.pubs && g.pubs[p].pc == Resting
    ensures Released(g.eventLocks, p) == g.eventLocks
  {
    P.NothingPicked(g.pubs[p]);
    P.NoneLocked(g, p);
    NothingToRelease(g.eventLocks, p);
  }

  /** The outbox after the end of the transaction. */
  lemma BatchCommitted(outbox: Outbox, held: set<Uuid>, ready: State, p: PubId, batch: seq<Picked>, send: Answers,
                       now: Time, applied: bool)
    requires p in ready.pubs && ready.outbox == outbox && IsBatch(outbox, held, batch)
    requires applied ==> ready.pubs[p].writes == MarksOf(batch, send, now, |batch|)
    ensures if applied then BatchOutcome(outbox, batch, send, now, EndTx(ready, p, applied).outbox)
            else EndTx(ready, p, applied).outbox == outbox
  {
    if applied { BatchEffect(outbox, batch, send, now); }
  }

  /** What the block has made of the state in which the transaction was opened. */
  ghost predicate BatchReady(g: State, p: PubId, ready: State, now: Time, faults: Faults, send: Answers,
                             batch: seq<Picked>)
  {
    && p in ready.pubs && ready.outbox == g.outbox && Released(ready.eventLocks, p) == Released(g.eventLocks, p)
    && ready.log == g.log + AppendedBy(batch, send, Sends(batch, faults.mark))
    && (if faults.select != QueryOk then batch == [] else IsBatch(g.outbox, g.eventLocks.Keys, batch))
    && (MarksDone(faults, batch) ==> ready.pubs[p].writes == MarksOf(batch, send, now, |batch|))
  }

  lemma BlockIsReady(g: State, p: PubId, ready: State, now: Time, faults: Faults, send: Answers, batch: seq<Picked>)
    requires p in g.pubs && BlockRan(Opening(g, p, now, false), p, ready, faults, send, batch)
    ensures BatchReady(g, p, ready, now, faults, send, batch)
  {
  }

  lemma ReadyIsProcessed(g: State, p: PubId, ready: State, now: Time, faults: Faults, send: Answers, batch: seq<Picked>,
                         applied: bool)
    requires BatchReady(g, p, ready, now, faults, send, batch) && Released(ready.eventLocks, p) == g.eventLocks
      && !faults.begin
    requires applied <==> MarksDone(faults, batch) && faults.commit != CommitErrorLost
    ensures Processed(g, EndTx(ready, p, applied), now, faults, send, batch)
  {
    if faults.select == QueryOk { BatchCommitted(g.outbox, g.eventLocks.Keys, ready, p, batch, send, now, applied); }
  }

  lemma BatchProcessed(g: State, p: PubId, ready: State, now: Time, faults: Faults, send: Answers, batch: seq<Picked>)
    requires P.PublisherInv(g) && p in g.pubs && g.pubs[p].pc == Resting && !faults.begin
    requires BlockRan(Opening(g, p, now, false), p, ready, faults, send, batch)
    ensures var applied := MarksDone(faults, batch) && faults.commit != CommitErrorLost;
      Processed(g, EndTx(ready, p, applied), now, faults, send, batch)
  {
    BlockIsReady(g, p, ready, now, faults, send, batch);
    LocksRestored(g, p);
    ReadyIsProcessed(g, p, ready, now, faults, send, batch,
                     MarksDone(faults, batch) && faults.commit != CommitErrorLost);
  }

  // ----- many batches -----

  /** What one tick meets: the time, the failing statements, and the answers of Kafka. */
  datatype Tick = Tick(now: Time, faults: Faults, send: Answers)

  /** No statement but the count fails, and Kafka accepts every message. */
  ghost predicate QuietTick(t: Tick) {
    !t.faults.begin && t.faults.select == QueryOk && t.faults.mark == {} && t.faults.commit == CommitOk
      && forall id :: AnswerFor(t.send, id).Accepts?
  }

  ghost predicate Quiet(ticks: seq<Tick>) {
    forall i :: 0 <= i < |ticks| ==> QuietTick(ticks[i])
  }

  /** Nobody else holds an outbox row, and every tick is quiet. */
  ghost predicate Undisturbed(g: State, ticks: seq<Tick>) {
    g.eventLocks == map[] && Quiet(ticks)
  }

  /** So many batches are enough to drain the outbox: ceil(n / (100 - k)) of them, if k < 100. */
  ghost predicate Suffices(outbox: Outbox, batches: nat) {
    |Undecodable(outbox)| < 100 && batches * (100 - |Undecodable(outbox)|) >= |Deliverable(outbox)|
  }

  lemma {:induction false} NoMarkFails(events: seq<Picked>, k: nat)
    requires k <= |events|
    ensures MarksHold(events, {}, k)
  {
    if k > 0 { NoMarkFails(events, k - 1); }
  }

  /** An undisturbed tick of the publisher is a quiet batch. */
  lemma TickIsQuiet(g: State, g': State, t: Tick, batch: seq<Picked>)
    requires Processed(g, g', t.now, t.faults, t.send, batch) && QuietTick(t) && g.eventLocks == map[]
    ensures QuietBatch(g.outbox, g'.outbox)
  {
    NoMarkFails(batch, |batch|);
    assert g.eventLocks.Keys == {};
    OutcomeIsQuiet(g.outbox, batch, t, g'.outbox);
  }

  lemma OutcomeIsQuiet(before: Outbox, batch: seq<Picked>, t: Tick, after: Outbox)
    requires IsBatch(before, {}, batch) && BatchOutcome(before, batch, t.send, t.now, after) && QuietTick(t)
    ensures QuietBatchOf(before, Ids(batch), after)
  {
    forall id | id in Ids(batch) && id in before
      ensures after[id].head == before[id].head
      ensures after[id].status == if Unmarshal(before[id].head.payload).Some? then Sent else Pending
    {
      var i :| 0 <= i < |batch| && Ids(batch)[i] == id;
      assert RowOutcome(before, batch[i], t.send, t.now, after);
      assert id in Free(before, {});
    }
  }

  lemma QuietExtends(tables: seq<Outbox>, after: Outbox)
    requires QuietBatches(tables) && QuietBatch(tables[|tables| - 1], after)
    ensures QuietBatches(tables + [after])
  {
    var longer := tables + [after];
    forall i | 0 <= i < |longer| - 1 ensures QuietBatch(longer[i], longer[i + 1]) {
      if i < |tables| - 1 { assert QuietBatch(tables[i], tables[i + 1]); }
    }
  }

  /** `tables` are the outboxes between the first `k` ticks. */
  ghost predicate Ticked(g: State, g': State, ticks: seq<Tick>, k: nat, tables: seq<Outbox>) {
    && k <= |ticks| && |tables| == k + 1 && tables[0] == g.outbox && tables[k] == g'.outbox
    && g'.eventLocks == g.eventLocks
    && (g.eventLocks == map[] && Quiet(ticks[..k]) ==> QuietBatches(tables))
  }

  lemma TickDone(g: State, before: State, after: State, ticks: seq<Tick>, k: nat, batch: seq<Picked>,
                 tables: seq<Outbox>)
    requires k < |ticks| && Ticked(g, before, ticks, k, tables)
    requires Processed(before, after, ticks[k].now, ticks[k].faults, ticks[k].send, batch)
    ensures Ticked(g, after, ticks, k + 1, tables + [after.outbox])
  {
    if g.eventLocks == map[] && Quiet(ticks[..k + 1]) {
      assert ticks[..k + 1][k] == ticks[k];
      assert forall j :: 0 <= j < k ==> ticks[..k + 1][j] == ticks[..k][j];
      TickIsQuiet(before, after, ticks[k], batch);
      QuietExtends(tables, after.outbox);
    }
  }

  /** `run` is what the first `k` ticks have done. */
  ghost predicate TicksRan(g: State, p: PubId, run: seq<Action>, g': State, ticks: seq<Tick>, k: nat,
                           tables: seq<Outbox>)
  {
    Ran(g, p, run, g') && Ticked(g, g', ticks, k, tables)
  }

  lemma TickRan(g: State, p: PubId, run: seq<Action>, before: State, tick: seq<Action>, after: State,
                ticks: seq<Tick>, k: nat, batch: seq<Picked>, tables: seq<Outbox>)
    requires k < |ticks| && TicksRan(g, p, run, before, ticks, k, tables) && Ran(before, p, tick, after)
    requires Processed(before, after, ticks[k].now, ticks[k].faults, ticks[k].send, batch)
    ensures TicksRan(g, p, run + tick, after, ticks, k + 1, tables + [after.outbox])
  {
    RanOn(g, p, run, before, tick, after);
    TickDone(g, before, after, ticks, k, batch, tables);
  }

  /** Undisturbed ticks, enough of them, leave nothing deliverable. */
  lemma TicksDrain(g: State, g': State, ticks: seq<Tick>, tables: seq<Outbox>)
    requires Ticked(g, g', ticks, |ticks|, tables)
    ensures Undisturbed(g, ticks) && Suffices(g.outbox, |ticks|) ==> Deliverable(g'.outbox) == {}
  {
    assert ticks[..|ticks|] == ticks;
    if Undisturbed(g, ticks) && Suffices(g.outbox, |ticks|) { DrainingBound(tables); }
  }

  /** errors.Join */
  function Join(a: Option<Error>, b: Option<Error>): Option<Error> {
    match (a, b)
    case (None, None) => None
    case (Some(x), None) => Some(Wrap(Joined, [x]))
    case (None, Some(y)) => Some(Wrap(Joined, [y]))
    case (Some(x), Some(y)) => Some(Wrap(Joined, [x, y]))
  }
}
