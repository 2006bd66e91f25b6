/** Runs of the system in which its weaknesses show. */
module Witnesses {
  import opened Domain
  import opened Errors
  import opened Serial
  import opened Protocol
  import opened Database
  import opened CallSteps
  import opened CallRuns
  import opened Statuses
  import M = Permissions

  // ----- an error of the commit tells nothing -----

  /** The call answers the error of its commit, and has taken effect or not. */
  predicate EndedAtCommit(s: State, id: CallId, cmd: Command, applied: bool) {
    && id in s.calls && s.calls[id].cmd == cmd && s.calls[id].pc == Finished(Rejected(CommitError(cmd)), applied)
    && HttpStatus(cmd, s.calls[id].pc.reply) == 500
  }

  /**
   * Wherever a command would succeed, two runs are possible that end in the same answer, 500 with the error of the
   * commit: after the one the command has taken effect, after the other the data are as they were.
   */
  lemma CommitErrorTellsNothing(g: State, id: CallId, cmd: Command, clock: Time, now: Time)
    returns (run: seq<Action>, s: State, run': seq<Action>, s': State)
    requires MayCall(g, id) && (cmd.Create? ==> ValidCreate(cmd, clock)) && !Blocked(WorldOf(g), id, cmd)
    requires BlockFailure(cmd, g.trips, NO_FAULTS).None?
    ensures Made(g, id, run, s) && EndedAtCommit(s, id, cmd, true)
    ensures Exec(View(g), cmd, now) == Execution(View(s), Success)
    ensures Made(g, id, run', s') && EndedAtCommit(s', id, cmd, false) && View(s') == View(g)
  {
    s, run := CallEnds(g, id, cmd, clock, NO_FAULTS.(commit := CommitErrorApplied), now);
    s', run' := CallEnds(g, id, cmd, clock, NO_FAULTS.(commit := CommitErrorLost), now);
    FailureShows(cmd, CommitError(cmd));
  }

  // ----- the retry of a publish may be answered 409 -----

  const DRIVER := V4(0)
  const TRIP := V4(1)
  const CREATE := Create(DRIVER, "A", "B", 1, 1, TRIP)
  const PUBLISH := Publish(TRIP, DRIVER, Meta("", "", "", 0))
  const START := Start(TRIP, DRIVER)

  const EMPTY := State(map[], [], map[], map[], map[], map[], map[], map[], [], [], multiset{}, multiset{})

  lemma EmptyArises()
    ensures Init(EMPTY) && Arises(EMPTY)
  {
    LeadsNowhere(EMPTY);
  }

  lemma StepLeavesOthers(s: State, id: CallId, a: CallAction)
    requires CallEnabled(s, id, a)
    ensures CallNext(s, id, a).calls - {id} == s.calls - {id}
  {
    M.CallMovesAlone(s, id, a);
  }

  /** A call leaves the other calls alone. */
  lemma {:induction false} CallLeavesOthers(s: State, run: seq<Action>, id: CallId)
    requires ValidRun(s, run) && OnlyCall(id, run)
    ensures Final(s, run).calls - {id} == s.calls - {id}
    decreases |run|
  {
    if run != [] {
      var shorter, last := run[..|run| - 1], run[|run| - 1];
      assert last in run;
      CallLeavesOthers(s, shorter, id);
      StepLeavesOthers(Final(s, shorter), id, last.call_action);
    }
  }

  /** The trip of this run has the given status, nobody holds a lock, and call ids from `n` on are free. */
  ghost predicate TripAt(g: State, status: TripStatus, n: nat) {
    && Arises(g) && g.tripLocks == map[] && TRIP in g.trips
    && g.trips[TRIP].driverId == DRIVER && g.trips[TRIP].status == status
    && forall id :: id in g.calls ==> id < n
  }

  /** One more call, alone in the system. */
  lemma NextCall(g: State, id: CallId, cmd: Command, faults: CallFaults) returns (g': State, run: seq<Action>)
    requires Arises(g) && g.tripLocks == map[] && (cmd.Create? ==> ValidCreate(cmd, 0))
    requires forall o :: o in g.calls ==> o < id
    ensures Arises(g') && Leads(g, run, g') && g'.tripLocks == map[]
    ensures forall o :: o in g.calls ==> o in g'.calls && g'.calls[o] == g.calls[o]
    ensures forall o :: o in g'.calls ==> o < id + 1
    ensures Answered(g, id, cmd, 0, g', InService(cmd, TxFailure(cmd, g.trips, faults)),
                     !faults.begin && Applies(cmd, g.trips, faults))
  {
    g', run := CallEnds(g, id, cmd, 0, faults, 0);
    LeadsIsFinal(g, run, g');
    CallLeavesOthers(g, run, id);
    forall o | o in g.calls ensures o in g'.calls && g'.calls[o] == g.calls[o] {
      assert o in g.calls - {id};
    }
    forall o | o in g'.calls && o != id ensures o in g.calls {
      assert o in g'.calls - {id};
    }
  }

  lemma Drafted() returns (g: State)
    ensures TripAt(g, Draft, 1)
  {
    EmptyArises();
    assert !Blank("A") && !Blank("B") by { assert "A"[0] == 'A' && "B"[0] == 'B'; }
    var run;
    g, run := NextCall(EMPTY, 0, CREATE, NO_FAULTS);
  }

  /** The publish commits, but its client is told that the commit has failed. */
  lemma PublishedUnnoticed() returns (g: State)
    ensures TripAt(g, Published, 2) && EndedAtCommit(g, 1, PUBLISH, true)
  {
    var draft := Drafted();
    var run;
    g, run := NextCall(draft, 1, PUBLISH, NO_FAULTS.(commit := CommitErrorApplied));
    FailureShows(PUBLISH, CommitError(PUBLISH));
  }

  lemma ThenStarted() returns (g: State)
    ensures TripAt(g, Started, 3) && EndedAtCommit(g, 1, PUBLISH, true)
  {
    var published := PublishedUnnoticed();
    var run;
    g, run := NextCall(published, 2, START, NO_FAULTS);
  }

  /**
   * A run in which a publish takes effect and is answered 500, the trip is started, and the retry of that same publish
   * is answered 409, although it was the retried command that has published the trip.
   */
  lemma RetryGetsConflict() returns (s0: State, run: seq<Action>, s: State)
    ensures Init(s0) && Leads(s0, run, s) && EndedAtCommit(s, 1, PUBLISH, true)
    ensures 3 in s.calls && s.calls[3].cmd == PUBLISH && s.calls[3].pc.Finished? && s.calls[3].pc.reply.Rejected?
    ensures !s.calls[3].pc.applied && HttpStatus(PUBLISH, s.calls[3].pc.reply) == 409
    ensures TRIP in s.trips && s.trips[TRIP].status == Started
  {
    var g := ThenStarted();
    s, run := NextCall(g, 3, PUBLISH, NO_FAULTS);
    AnswerIsVerdict(View(g), PUBLISH, 0);
    var start, past :| Init(start) && Leads(start, past, s);
    s0, run := start, past;
  }

  /** Both ends of the publish of a drafted trip, with the same answer. */
  lemma PublishEndsEitherWay() returns (g: State, run: seq<Action>, s: State, run': seq<Action>, s': State)
    ensures Arises(g) && Leads(g, run, s) && Leads(g, run', s')
    ensures EndedAtCommit(s, 1, PUBLISH, true) && TRIP in s.trips && s.trips[TRIP].status == Published
    ensures EndedAtCommit(s', 1, PUBLISH, false) && TRIP in s'.trips && s'.trips[TRIP].status == Draft
  {
    g := Drafted();
    run, s, run', s' := CommitErrorTellsNothing(g, 1, PUBLISH, 0, 0);
    assert View(s').trips == View(g).trips;
  }
}
