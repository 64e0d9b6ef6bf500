/** A launcher that clears its record after an aborted release without looking at the group (`codex_worker.py`): exactly
    when restart safety survives it. */
module AbortedRelease {
  import opened Processes
  import opened Models
  import opened JobStore
  import opened StoreInvariant
  import opened RestartSafety
  import L = GuardedLauncher

  // ----- A run in which the write raises although its byte went out -----

  const GUARDIAN := ProcessIdentity(100, 100, 501, "python", 1, 0)
  const TARGET := ProcessIdentity(101, 100, 501, "codex", 2, 0)

  const BEGUN := Launch(L.Setup(false, 5, 60, 1), true, 0, 0, 0, GUARDIAN, "codex", L.Identify, None, false, false,
                        false)

  const LEASE := Lease(0, 0, 100, 0)

  const QUEUED := Store(map[0 := Item(Backlog, DEFAULT_GATES, [Backlog])],
                        map[0 := Job(0, Investigator, "investigate", Pending, None, None)], map[], map[], map[])

  const CLAIMED := Store(map[0 := Item(Investigating, DEFAULT_GATES, [Backlog, Investigating])],
                         map[0 := Job(0, Investigator, "investigate", Running, Some(LEASE), None)],
                         map[0 := Attempt(0, 0, 0, AttemptRunning)], map[], map[])

  const ROW := ProcessRow(0, 0, GUARDIAN, "codex", Active, None)

  const RECORDED := CLAIMED.(processes := map[0 := ROW])

  const CLEARED := CLAIMED.(processes := map[0 := ROW.(state := Stopped)])

  const QUEUING := [
    StoreMoves(CreateItem(0, Backlog, [], Some(NewJob(0, Investigator, "investigate"))), None),
    StoreMoves(ClaimJob(0, 0, 0, 0, 0, 100), None)]

  const RELEASING := [
    GuardianStarts(0, BEGUN),
    LauncherMoves(0, L.Identified(Returned(GUARDIAN)), 0, 0, false),
    LauncherMoves(0, L.Recorded(Returned(())), 0, 0, false),
    LauncherMoves(0, L.CancelRead(false), 0, 0, false),
    LauncherMoves(0, L.CancelRead(false), 0, 0, false),
    LauncherMoves(0, L.BarrierWritten(true, Raised(OtherError)), 0, 0, false)]

  const ABORTING := [
    GuardianForks(0, TARGET),
    ProcessExits(Proc(GUARDIAN, GUARDIAN, Guardian)),
    ReleaseAborted(0, 0, 0),
    StoreMoves(InterruptJob(0, 0, 0, 0, None), None)]

  function LaunchIn(phase: L.Phase): Launch {
    BEGUN.(phase := phase)
  }

  function SystemIn(store: Store, launch: Launch): System {
    System(store, {Proc(GUARDIAN, GUARDIAN, Guardian)}, {GUARDIAN}, map[0 := launch], map[], map[], map[], None)
  }

  /** The system after a move that is possible. */
  ghost predicate Goes(sys: System, m: Move, next: System) {
    Enabled(sys, m) && Do(sys, m) == next
  }

  lemma OneMore(moves: seq<Move>, m: Move, sys: System, next: System)
    requires After(moves) == Some(sys) && Goes(sys, m, next)
    ensures After(moves + [m]) == Some(next)
  {
    assert (moves + [m])[..|moves|] == moves;
  }

  // ----- The store's part -----

  lemma StoreQueues()
    ensures Next(EMPTY, QUEUING[0].step) == QUEUED
  {
    assert Decide(EMPTY, QUEUING[0].step)
           == Ok(AddItem(0, Item(Backlog, DEFAULT_GATES, [Backlog]), Some(NewJob(0, Investigator, "investigate"))));
  }

  lemma StoreClaims()
    ensures Next(QUEUED, QUEUING[1].step) == CLAIMED && FreshIds(QUEUED, QUEUING[1].step)
  {
    assert Decide(QUEUED, QUEUING[1].step) == Ok(StartAttempt(0, LEASE));
    assert Item(Backlog, DEFAULT_GATES, [Backlog]).Enter(Investigating)
           == Item(Investigating, DEFAULT_GATES, [Backlog, Investigating]);
  }

  lemma StoreRecords()
    ensures Decide(CLAIMED, RecordStep(BEGUN, 0, 0)).Ok? && Next(CLAIMED, RecordStep(BEGUN, 0, 0)) == RECORDED
  {
    assert Decide(CLAIMED, RecordStep(BEGUN, 0, 0)) == Ok(SetRow(0, ROW));
  }

  lemma StoreClears()
    ensures Decide(RECORDED, ClearStep(BEGUN, 0, 0)).Ok? && Next(RECORDED, ClearStep(BEGUN, 0, 0)) == CLEARED
  {
    assert RowNames(RECORDED, 0, 0, 100, 100);
    assert Decide(RECORDED, ClearStep(BEGUN, 0, 0)) == Ok(SetRow(0, ROW.(state := Stopped)));
  }

  lemma StoreRequeues()
    ensures 0 in Next(CLEARED, ABORTING[3].step).jobs && Next(CLEARED, ABORTING[3].step).jobs[0].status == Pending
  {
    assert Decide(CLEARED, ABORTING[3].step) == Ok(EndAttempt(0, Interrupted, Pending, Backlog, None, None, None));
  }

  // ----- The moves -----

  lemma Queued()
    ensures Goes(START, QUEUING[0], START.(store := QUEUED))
    ensures Goes(START.(store := QUEUED), QUEUING[1], START.(store := CLAIMED))
  {
    StoreQueues();
    StoreClaims();
  }

  lemma Begun()
    ensures Goes(START.(store := CLAIMED), RELEASING[0], SystemIn(CLAIMED, BEGUN))
  {
  }

  /** A step of the launcher that calls neither the store nor the fence. */
  lemma LauncherGoes(store: Store, l: Launch, e: L.LaunchEvent, next: Launch)
    requires LauncherMayMove(SystemIn(store, l), l, e, 0, 0, false) && !e.Recorded? && !e.Cleared?
    requires !e.FenceEntered? && !e.FenceLeft? && LaunchAfter(l, e, 0, false) == next
    ensures Goes(SystemIn(store, l), LauncherMoves(0, e, 0, 0, false), SystemIn(store, next))
  {
    assert map[0 := l][0 := next] == map[0 := next];
  }

  lemma Identified()
    ensures Goes(SystemIn(CLAIMED, BEGUN), RELEASING[1], SystemIn(CLAIMED, LaunchIn(L.Record(GUARDIAN))))
  {
    LauncherGoes(CLAIMED, BEGUN, RELEASING[1].event, LaunchIn(L.Record(GUARDIAN)));
  }

  function RecordedIn(phase: L.Phase): Launch {
    LaunchIn(phase).(row := Some(0))
  }

  lemma RecordingIsPossible()
    ensures Enabled(SystemIn(CLAIMED, LaunchIn(L.Record(GUARDIAN))), RELEASING[2])
    ensures CalledStep(LaunchIn(L.Record(GUARDIAN)), RELEASING[2].event, 0, 0) == RecordStep(BEGUN, 0, 0)
  {
    StoreRecords();
    assert RecordStep(LaunchIn(L.Record(GUARDIAN)), 0, 0) == RecordStep(BEGUN, 0, 0);
  }

  lemma GuardianRecorded()
    ensures Goes(SystemIn(CLAIMED, LaunchIn(L.Record(GUARDIAN))), RELEASING[2],
                 SystemIn(RECORDED, RecordedIn(L.FirstCheck(GUARDIAN))))
  {
    StoreRecords();
    RecordingIsPossible();
    var before := LaunchIn(L.Record(GUARDIAN));
    assert map[0 := before][0 := RecordedIn(L.FirstCheck(GUARDIAN))] == map[0 := RecordedIn(L.FirstCheck(GUARDIAN))];
  }

  lemma CancellationRead()
    ensures Goes(SystemIn(RECORDED, RecordedIn(L.FirstCheck(GUARDIAN))), RELEASING[3],
                 SystemIn(RECORDED, RecordedIn(L.SecondCheck(GUARDIAN))))
    ensures Goes(SystemIn(RECORDED, RecordedIn(L.SecondCheck(GUARDIAN))), RELEASING[4],
                 SystemIn(RECORDED, RecordedIn(L.WriteBarrier(GUARDIAN))))
  {
    LauncherGoes(RECORDED, RecordedIn(L.FirstCheck(GUARDIAN)), L.CancelRead(false),
                 RecordedIn(L.SecondCheck(GUARDIAN)));
    LauncherGoes(RECORDED, RecordedIn(L.SecondCheck(GUARDIAN)), L.CancelRead(false),
                 RecordedIn(L.WriteBarrier(GUARDIAN)));
  }

  const WRITTEN := BEGUN.(phase := L.CloseBarrier(GUARDIAN, false, true), row := Some(0), delivered := true,
                          writeRaised := true)

  lemma WriteRaises()
    ensures Goes(SystemIn(RECORDED, RecordedIn(L.WriteBarrier(GUARDIAN))), RELEASING[5], SystemIn(RECORDED, WRITTEN))
  {
    LauncherGoes(RECORDED, RecordedIn(L.WriteBarrier(GUARDIAN)), RELEASING[5].event, WRITTEN);
  }

  const FORKED := SystemIn(RECORDED, WRITTEN).(
    alive := {Proc(GUARDIAN, GUARDIAN, Guardian), Proc(TARGET, GUARDIAN, Target)}, born := {GUARDIAN, TARGET})

  const ORPHANED := FORKED.(alive := {Proc(TARGET, GUARDIAN, Target)})

  const FORGOTTEN := ORPHANED.(store := CLEARED, launches := map[0 := WRITTEN.(phase := L.Failed)])

  lemma TargetStarts()
    ensures Goes(SystemIn(RECORDED, WRITTEN), ABORTING[0], FORKED)
  {
  }

  lemma GuardianDies()
    ensures Goes(FORKED, ABORTING[1], ORPHANED)
  {
    assert Proc(GUARDIAN, GUARDIAN, Guardian) != Proc(TARGET, GUARDIAN, Target);
  }

  lemma RecordCleared()
    ensures Goes(ORPHANED, ABORTING[2], FORGOTTEN)
  {
    StoreClears();
    assert ClearStep(WRITTEN, 0, 0) == ClearStep(BEGUN, 0, 0);
    assert map[0 := WRITTEN][0 := WRITTEN.(phase := L.Failed)] == map[0 := WRITTEN.(phase := L.Failed)];
  }

  lemma Requeued()
    ensures Enabled(FORGOTTEN, ABORTING[3])
    ensures var sys := Do(FORGOTTEN, ABORTING[3]);
            LiveTarget(sys, 0) && sys.launches[0].Misled() && sys.launches[0].jobId == 0
            && 0 in sys.store.jobs && sys.store.jobs[0].status == Pending
  {
    StoreRequeues();
    assert Proc(TARGET, GUARDIAN, Target) in FORGOTTEN.alive;
  }

  /** With a write that raises although its byte went out, the job is queued again over a live target. */
  lemma MisledRun() returns (moves: seq<Move>)
    ensures After(moves).Some?
    ensures var sys := After(moves).value;
            LiveTarget(sys, 0) && sys.launches[0].Misled() && sys.launches[0].jobId == 0
            && 0 in sys.store.jobs && sys.store.jobs[0].status == Pending
  {
    moves := ReleasedRun();
    TargetStarts();
    OneMore(moves, ABORTING[0], SystemIn(RECORDED, WRITTEN), FORKED);
    moves := moves + [ABORTING[0]];
    GuardianDies();
    OneMore(moves, ABORTING[1], FORKED, ORPHANED);
    moves := moves + [ABORTING[1]];
    RecordCleared();
    OneMore(moves, ABORTING[2], ORPHANED, FORGOTTEN);
    moves := moves + [ABORTING[2]];
    Requeued();
    OneMore(moves, ABORTING[3], FORGOTTEN, Do(FORGOTTEN, ABORTING[3]));
    moves := moves + [ABORTING[3]];
  }

  lemma RecordedRun() returns (moves: seq<Move>)
    ensures After(moves) == Some(SystemIn(RECORDED, RecordedIn(L.FirstCheck(GUARDIAN))))
  {
    Queued();
    OneMore([], QUEUING[0], START, START.(store := QUEUED));
    moves := [] + [QUEUING[0]];
    OneMore(moves, QUEUING[1], START.(store := QUEUED), START.(store := CLAIMED));
    moves := moves + [QUEUING[1]];
    Begun();
    OneMore(moves, RELEASING[0], START.(store := CLAIMED), SystemIn(CLAIMED, BEGUN));
    moves := moves + [RELEASING[0]];
    Identified();
    OneMore(moves, RELEASING[1], SystemIn(CLAIMED, BEGUN), SystemIn(CLAIMED, LaunchIn(L.Record(GUARDIAN))));
    moves := moves + [RELEASING[1]];
    GuardianRecorded();
    OneMore(moves, RELEASING[2], SystemIn(CLAIMED, LaunchIn(L.Record(GUARDIAN))),
            SystemIn(RECORDED, RecordedIn(L.FirstCheck(GUARDIAN))));
    moves := moves + [RELEASING[2]];
  }

  lemma ReleasedRun() returns (moves: seq<Move>)
    ensures After(moves) == Some(SystemIn(RECORDED, WRITTEN))
  {
    moves := RecordedRun();
    CancellationRead();
    OneMore(moves, RELEASING[3], SystemIn(RECORDED, RecordedIn(L.FirstCheck(GUARDIAN))),
            SystemIn(RECORDED, RecordedIn(L.SecondCheck(GUARDIAN))));
    moves := moves + [RELEASING[3]];
    OneMore(moves, RELEASING[4], SystemIn(RECORDED, RecordedIn(L.SecondCheck(GUARDIAN))),
            SystemIn(RECORDED, RecordedIn(L.WriteBarrier(GUARDIAN))));
    moves := moves + [RELEASING[4]];
    WriteRaises();
    OneMore(moves, RELEASING[5], SystemIn(RECORDED, RecordedIn(L.WriteBarrier(GUARDIAN))), SystemIn(RECORDED, WRITTEN));
    moves := moves + [RELEASING[5]];
  }

  // ----- The exact condition -----

  ghost predicate StillRunning(sys: System, launch: Id)
    requires launch in sys.launches
  {
    var l := sys.launches[launch];
    && l.jobId in sys.store.jobs && sys.store.jobs[l.jobId].status == Running
    && sys.store.jobs[l.jobId].lease.Some? && sys.store.jobs[l.jobId].lease.value.token == l.token
  }

  /** No run gives a job out again over a live target of the launch. */
  ghost predicate Protected(moves: seq<Move>, launch: Id) {
    After(moves).Some? && LiveTarget(After(moves).value, launch) ==> StillRunning(After(moves).value, launch)
  }

  ghost predicate MisledIn(moves: seq<Move>, launch: Id) {
    After(moves).Some? && launch in After(moves).value.launches && After(moves).value.launches[launch].Misled()
  }

  /** Clearing after an aborted release is safe exactly if a write that raises has never delivered its byte. */
  lemma AbortIsSafeIff(mayMislead: bool)
    ensures (forall moves, launch :: (MisledIn(moves, launch) ==> mayMislead) ==> Protected(moves, launch))
            <==> !mayMislead
  {
    if mayMislead {
      var moves := MisledRun();
      assert !Protected(moves, 0);
    } else {
      forall moves, launch | !MisledIn(moves, launch)
        ensures Protected(moves, launch)
      {
        if After(moves).Some? && LiveTarget(After(moves).value, launch) {
          NoRequeueWhileTargetLives(moves, launch);
        }
      }
    }
  }
}
