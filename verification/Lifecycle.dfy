/** The life of a work item over every history of transactions. */
module Lifecycle {
  import opened Processes
  import opened Models
  import opened JobStore
  import opened StoreInvariant

  // ---- The lifecycle graph ----

  /** Claims, stage results, requeues and exhausted retries; nothing leaves a terminal state. */
  predicate Edge(from: ItemState, to: ItemState) {
    match from
    case Backlog => to == Investigating
    case Investigating => to in {ReadyForFix, Blocked, Backlog}
    case ReadyForFix => to == Fixing
    case Fixing => to in {ReadyForTest, Blocked, ReadyForFix}
    case ReadyForTest => to == Testing
    case Testing => to in {VerifiedGreen, ReadyForFix, Blocked, ReadyForTest}
    case VerifiedGreen | Blocked | OtherState(_) => false
  }

  predicate Path(history: seq<ItemState>) {
    && history != [] && history[0] in {Backlog, ReadyForFix, ReadyForTest, Blocked}
    && forall i | 0 <= i < |history| - 1 :: Edge(history[i], history[i + 1])
  }

  /** Each item's state is the last that it entered. */
  ghost predicate Trails(s: Store) {
    forall i <- s.items :: s.items[i].history != [] && s.items[i].state == s.items[i].history[|s.items[i].history| - 1]
  }

  ghost predicate AllPaths(s: Store) {
    forall i <- s.items :: Path(s.items[i].history)
  }

  // ---- What a change does to an item ----

  /** The change gives a job up for good. */
  predicate GivesUp(c: Change) {
    c.EndAttempt? && c.status == Failed
  }

  /** Only a failure gives up, and what it then puts into the item is the state that its caller named. */
  lemma OnlyFailuresGiveUp(s: Store, step: Step)
    requires Decide(s, step).Ok? && GivesUp(Decide(s, step).value)
    ensures step.FailJob? && Decide(s, step).value.jobId == step.jobId
            && Decide(s, step).value.next == step.blockedState
    ensures step.jobId in s.jobs && ItemIs(s, s.jobs[step.jobId].item, ActiveState(s.jobs[step.jobId].role))
  {
  }

  /** Items stay, with their gates; their histories only grow. */
  ghost predicate ItemsGrow(s: Store, after: Store) {
    forall i <- s.items ::
      && i in after.items && after.items[i].gates == s.items[i].gates
      && s.items[i].history <= after.items[i].history
      && (s.items[i].state == VerifiedGreen ==> after.items[i].state == VerifiedGreen)
  }

  lemma ItemsGrowStep(s: Store, step: Step)
    requires Inv(s) && FreshIds(s, step)
    ensures ItemsGrow(s, Next(s, step)) && (Trails(s) ==> Trails(Next(s, step)))
  {
    if Decide(s, step).Ok? {
      DecisionsAreGuarded(s, step);
      ChangeMoves(s, Decide(s, step).value);
      MovesGrow(s, Next(s, step));
    }
  }

  /** An item is left alone, or enters one state from a state in which work is queued or under way. */
  lemma ItemChanges(s: Store, c: Change, i: Id)
    requires Guarded(s, c) && i in s.items
    ensures i in Perform(s, c).items
    ensures var before, after := s.items[i], Perform(s, c).items[i];
            after == before || (after == before.Enter(after.state) && before.state != VerifiedGreen)
  {
  }

  lemma NewItems(s: Store, c: Change, i: Id)
    requires Guarded(s, c) && i !in s.items && i in Perform(s, c).items
    ensures Perform(s, c).items[i].history == [Perform(s, c).items[i].state] && Path(Perform(s, c).items[i].history)
  {
  }

  /** How any change treats the items. */
  ghost predicate ItemsMove(s: Store, after: Store) {
    && (forall i <- s.items ::
          && i in after.items
          && (after.items[i] == s.items[i]
              || (after.items[i] == s.items[i].Enter(after.items[i].state) && s.items[i].state != VerifiedGreen)))
    && (forall i <- after.items :: i !in s.items ==> after.items[i].history == [after.items[i].state])
  }

  lemma ChangeMoves(s: Store, c: Change)
    requires Guarded(s, c)
    ensures ItemsMove(s, Perform(s, c))
  {
    forall i <- s.items
      ensures i in Perform(s, c).items
      ensures Perform(s, c).items[i] == s.items[i]
              || (Perform(s, c).items[i] == s.items[i].Enter(Perform(s, c).items[i].state)
                  && s.items[i].state != VerifiedGreen)
    {
      ItemChanges(s, c, i);
    }
    forall i | i in Perform(s, c).items && i !in s.items
      ensures Perform(s, c).items[i].history == [Perform(s, c).items[i].state]
    {
      NewItems(s, c, i);
    }
  }

  lemma MovesGrow(s: Store, after: Store)
    requires ItemsMove(s, after)
    ensures ItemsGrow(s, after) && (Trails(s) ==> Trails(after))
  {
  }

  lemma ItemsGrowNext(steps: seq<Step>, k: nat)
    requires Fresh(steps) && k < |steps|
    ensures ItemsGrow(Run(steps[..k]), Run(steps[..k + 1]))
  {
    StepAt(steps, k);
    ItemsGrowStep(Run(steps[..k]), steps[k]);
  }

  lemma {:induction false} ItemsGrowAlong(steps: seq<Step>, i: nat, j: nat)
    requires Fresh(steps) && i <= j <= |steps|
    ensures ItemsGrow(Run(steps[..i]), Run(steps[..j]))
    decreases j
  {
    if i == j {
      GrowthStarts(Run(steps[..i]));
    } else {
      ItemsGrowAlong(steps, i, j - 1);
      ItemsGrowNext(steps, j - 1);
      GrowthComposes(Run(steps[..i]), Run(steps[..j - 1]), Run(steps[..j]));
    }
  }

  lemma GrowthStarts(s: Store)
    ensures ItemsGrow(s, s)
  {
  }

  lemma GrowthComposes(a: Store, b: Store, c: Store)
    requires ItemsGrow(a, b) && ItemsGrow(b, c)
    ensures ItemsGrow(a, c)
  {
    forall i <- a.items
      ensures i in c.items && a.items[i].history <= c.items[i].history
    {
      assert a.items[i].history <= b.items[i].history <= c.items[i].history;
    }
  }

  /** One transaction of a history, and what holds before it. */
  lemma StepAt(steps: seq<Step>, k: nat)
    requires Fresh(steps) && k < |steps|
    ensures Inv(Run(steps[..k])) && FreshIds(Run(steps[..k]), steps[k])
    ensures Run(steps[..k + 1]) == Next(Run(steps[..k]), steps[k])
  {
    FreshPrefix(steps, k);
    RunKeeps(steps[..k]);
    assert steps[..k + 1][..k] == steps[..k];
  }

  lemma {:induction false} TrailsAlways(steps: seq<Step>)
    requires Fresh(steps)
    ensures Trails(Run(steps))
  {
    if steps != [] {
      var n := |steps| - 1;
      LastStep(steps);
      TrailsAlways(steps[..n]);
      ItemsGrowStep(Run(steps[..n]), steps[n]);
    }
  }

  // ---- Paths ----

  /** A failure that gives up for a state that the lifecycle does not lead to. */
  predicate Strays(s: Store, step: Step) {
    && Decide(s, step).Ok? && GivesUp(Decide(s, step).value)
    && step.FailJob? && step.jobId in s.jobs && !Edge(ActiveState(s.jobs[step.jobId].role), step.blockedState)
  }

  predicate ChangeStays(s: Store, c: Change) {
    c.EndAttempt? ==> c.jobId in s.jobs && Edge(ActiveState(s.jobs[c.jobId].role), c.next)
  }

  lemma PathExtends(history: seq<ItemState>, next: ItemState)
    requires Path(history) && Edge(history[|history| - 1], next)
    ensures Path(history + [next])
  {
  }

  lemma PathPrefix(history: seq<ItemState>, longer: seq<ItemState>)
    requires history != [] && history <= longer && Path(longer)
    ensures Path(history)
  {
    forall i | 0 <= i < |history| - 1
      ensures Edge(history[i], history[i + 1])
    {
      assert history[i] == longer[i] && history[i + 1] == longer[i + 1];
    }
  }

  lemma PathsKept(s: Store, c: Change)
    requires Guarded(s, c) && Trails(s) && AllPaths(s) && ChangeStays(s, c)
    ensures AllPaths(Perform(s, c))
  {
    var after := Perform(s, c);
    forall i <- after.items
      ensures Path(after.items[i].history)
    {
      if i !in s.items {
        NewItems(s, c, i);
      } else {
        ItemChanges(s, c, i);
        if after.items[i] != s.items[i] {
          PathExtends(s.items[i].history, after.items[i].state);
        }
      }
    }
  }

  lemma SettledStays(s: Store, c: Change)
    requires Guarded(s, c) && !GivesUp(c)
    ensures ChangeStays(s, c)
  {
  }

  lemma GuardedStays(s: Store, step: Step)
    requires Inv(s) && FreshIds(s, step) && Decide(s, step).Ok? && !Strays(s, step)
    ensures ChangeStays(s, Decide(s, step).value)
  {
    if GivesUp(Decide(s, step).value) {
      OnlyFailuresGiveUp(s, step);
    } else {
      DecisionsAreGuarded(s, step);
      SettledStays(s, Decide(s, step).value);
    }
  }

  lemma StrayingBreaks(s: Store, step: Step)
    requires Inv(s) && FreshIds(s, step) && Trails(s) && Strays(s, step)
    ensures !AllPaths(Next(s, step))
  {
    OnlyFailuresGiveUp(s, step);
    var item := s.jobs[step.jobId].item;
    var before, after := s.items[item].history, Next(s, step).items[item].history;
    assert after == before + [step.blockedState];
    assert !Edge(after[|before| - 1], after[|before| - 1 + 1]);
  }

  /** Exactly the failures decide whether every item's history is a path of the lifecycle graph, whatever workers
      return and callers ask for: it is unless one gave up for a state that the graph does not lead to. */
  lemma {:induction false} HistoriesArePathsIff(steps: seq<Step>)
    requires Fresh(steps)
    ensures AllPaths(Run(steps)) <==> forall k | 0 <= k < |steps| :: !Strays(Run(steps[..k]), steps[k])
  {
    if forall k | 0 <= k < |steps| :: !Strays(Run(steps[..k]), steps[k]) {
      UnstrayedArePaths(steps);
    }
    forall k | 0 <= k < |steps| && Strays(Run(steps[..k]), steps[k])
      ensures !AllPaths(Run(steps))
    {
      StepAt(steps, k);
      FreshPrefix(steps, k);
      TrailsAlways(steps[..k]);
      StrayingBreaks(Run(steps[..k]), steps[k]);
      FreshPrefix(steps, k + 1);
      TrailsAlways(steps[..k + 1]);
      ItemsGrowAlong(steps, k + 1, |steps|);
      assert steps[..|steps|] == steps;
      BrokenStaysBroken(Run(steps[..k + 1]), Run(steps));
    }
  }

  lemma BrokenStaysBroken(s: Store, later: Store)
    requires Trails(s) && !AllPaths(s) && ItemsGrow(s, later)
    ensures !AllPaths(later)
  {
    var i :| i in s.items && !Path(s.items[i].history);
    if Path(later.items[i].history) {
      PathPrefix(s.items[i].history, later.items[i].history);
    }
  }

  lemma {:induction false} UnstrayedArePaths(steps: seq<Step>)
    requires Fresh(steps) && forall k | 0 <= k < |steps| :: !Strays(Run(steps[..k]), steps[k])
    ensures AllPaths(Run(steps))
  {
    if steps != [] {
      var n := |steps| - 1;
      LastStep(steps);
      forall k | 0 <= k < n
        ensures !Strays(Run(steps[..n][..k]), steps[..n][k])
      {
        assert steps[..n][..k] == steps[..k];
      }
      UnstrayedArePaths(steps[..n]);
      TrailsAlways(steps[..n]);
      PathsStep(Run(steps[..n]), steps[n]);
    }
  }

  lemma PathsStep(s: Store, step: Step)
    requires Inv(s) && FreshIds(s, step) && Trails(s) && AllPaths(s) && !Strays(s, step)
    ensures AllPaths(Next(s, step))
  {
    if Decide(s, step).Ok? {
      DecisionsAreGuarded(s, step);
      GuardedStays(s, step);
      PathsKept(s, Decide(s, step).value);
    }
  }

  // ---- VERIFIED_GREEN ----

  /** A tester's commit, with a live lease and no process left, whose counting handoff is about this very item,
      passes every gate the item requires with evidence, and attaches that evidence. */
  ghost predicate GreenCommit(s: Store, step: Step, item: Id, h: Handoff) {
    && step.CommitStage? && step.next == VerifiedGreen && Decide(s, step).Ok?
    && LiveLease(s, step.jobId, step.worker, step.token, step.now)
    && s.jobs[step.jobId].role == Tester && s.jobs[step.jobId].item == item && item in s.items
    && AllStopped(s, s.jobs[step.jobId].lease.value.attempt)
    && (if step.allowSimulated then h == step.handoff else step.canonical == Some(h))
    && h.Test? && h.Valid() && h.itemId == item && h.outcome == Passed && ProvenGreen(s.items[item].gates, h.proofs)
    && Attached(h, step.allowSimulated, step.files)
  }

  lemma GreenChangeEnds(s: Store, c: Change, item: Id)
    requires Applicable(s, c) && item in s.items && s.items[item].state != VerifiedGreen
    requires c.AddItem? ==> c.itemId !in s.items
    requires item in Perform(s, c).items && Perform(s, c).items[item].state == VerifiedGreen
    ensures c.EndAttempt? && c.next == VerifiedGreen && s.jobs[c.jobId].item == item
  {
    assert forall role :: ActiveState(role) != VerifiedGreen;
  }

  lemma GreenEndIsCommit(s: Store, step: Step)
    requires Decide(s, step).Ok? && Decide(s, step).value.EndAttempt? && Decide(s, step).value.next == VerifiedGreen
    requires !GivesUp(Decide(s, step).value)
    ensures step.CommitStage? && step.next == VerifiedGreen && Decide(s, step).value.jobId == step.jobId
  {
    assert forall role :: QueuedState(role) != VerifiedGreen;
  }

  lemma AddedItemsAreNew(s: Store, step: Step)
    requires Decide(s, step).Ok? && Decide(s, step).value.AddItem?
    ensures Decide(s, step).value.itemId !in s.items
  {
  }

  /** A failure that gives its item up as verified. */
  predicate FailsGreen(s: Store, step: Step) {
    && Decide(s, step).Ok? && GivesUp(Decide(s, step).value) && step.FailJob? && step.blockedState == VerifiedGreen
  }

  lemma GreenCommitFollows(s: Store, step: Step, item: Id)
    requires step.CommitStage? && step.next == VerifiedGreen && Decide(s, step).Ok?
    requires step.jobId in s.jobs && s.jobs[step.jobId].item == item && item in s.items
    ensures exists h :: GreenCommit(s, step, item, h)
  {
    var h := ValidatedHandoff(s, step.jobId, step.handoff, step.canonical, step.next, step.allowSimulated,
                              step.files).value;
    CommitIsGuarded(s, step);
    assert Decide(s, step).value.result == Some(h);
    assert GreenCommit(s, step, item, h);
  }

  /** An item turns green by a commit that earned it, or by a failure that named that state. */
  lemma TurnsGreenBy(s: Store, step: Step, item: Id)
    requires item in s.items && s.items[item].state != VerifiedGreen
    requires item in Next(s, step).items && Next(s, step).items[item].state == VerifiedGreen
    ensures FailsGreen(s, step) || exists h :: GreenCommit(s, step, item, h)
  {
    DecisionsApply(s, step);
    var c := Decide(s, step).value;
    if c.AddItem? {
      AddedItemsAreNew(s, step);
    }
    GreenChangeEnds(s, c, item);
    if GivesUp(c) {
      OnlyFailuresGiveUp(s, step);
    } else {
      GreenEndIsCommit(s, step);
      GreenCommitFollows(s, step, item);
    }
  }

  ghost predicate CommittedGreen(steps: seq<Step>, item: Id) {
    exists k, h :: 0 <= k < |steps| && GreenCommit(Run(steps[..k]), steps[k], item, h)
  }

  ghost predicate NeverFailsGreen(steps: seq<Step>) {
    forall k | 0 <= k < |steps| :: !FailsGreen(Run(steps[..k]), steps[k])
  }

  ghost predicate GreenIsEarned(steps: seq<Step>) {
    forall item | IsGreen(Run(steps), item) :: CommittedGreen(steps, item)
  }

  ghost predicate IsGreen(s: Store, item: Id) {
    item in s.items && s.items[item].state == VerifiedGreen
  }

  /** The item was there and not green before a transaction, and green after it. */
  ghost predicate TurnsAt(s: Store, after: Store, item: Id) {
    item in s.items && !IsGreen(s, item) && IsGreen(after, item)
  }

  lemma LastTurn(s: Store, step: Step, item: Id)
    requires Inv(s) && FreshIds(s, step) && !IsGreen(s, item) && IsGreen(Next(s, step), item)
    ensures TurnsAt(s, Next(s, step), item)
  {
    if item !in s.items {
      NewItemsAreNotGreen(s, step, item);
    }
  }

  lemma {:induction false} TurningPoint(steps: seq<Step>, j: nat, item: Id) returns (k: nat)
    requires Fresh(steps) && j <= |steps| && IsGreen(Run(steps[..j]), item)
    ensures k < j && TurnsAt(Run(steps[..k]), Run(steps[..k + 1]), item)
    decreases j
  {
    k := j - 1;
    if IsGreen(Run(steps[..k]), item) {
      k := TurningPoint(steps, k, item);
    } else {
      StepAt(steps, k);
      LastTurn(Run(steps[..k]), steps[k], item);
    }
  }

  lemma NewItemsAreNotGreen(s: Store, step: Step, item: Id)
    requires Inv(s) && FreshIds(s, step) && item !in s.items && item in Next(s, step).items
    ensures Next(s, step).items[item].state != VerifiedGreen
  {
    DecisionsAreGuarded(s, step);
    NewItems(s, Decide(s, step).value, item);
  }

  /** A commit or a failure works on an item that is not green, and leaves it as it says. */
  lemma EndsActiveItem(s: Store, step: Step)
    requires Inv(s) && FreshIds(s, step) && Decide(s, step).Ok? && Decide(s, step).value.EndAttempt?
    ensures var c := Decide(s, step).value;
            && c.jobId in s.jobs && s.jobs[c.jobId].item in s.items
            && s.items[s.jobs[c.jobId].item].state != VerifiedGreen
            && s.jobs[c.jobId].item in Next(s, step).items && Next(s, step).items[s.jobs[c.jobId].item].state == c.next
  {
    DecisionsAreGuarded(s, step);
  }

  lemma CommitTurnsGreen(s: Store, step: Step, item: Id, h: Handoff)
    requires Inv(s) && FreshIds(s, step) && GreenCommit(s, step, item, h)
    ensures item in s.items && s.items[item].state != VerifiedGreen
    ensures item in Next(s, step).items && Next(s, step).items[item].state == VerifiedGreen
  {
    EndsActiveItem(s, step);
  }

  lemma FailureTurnsGreen(s: Store, step: Step)
    requires Inv(s) && FreshIds(s, step) && FailsGreen(s, step)
    ensures var item := s.jobs[step.jobId].item;
            && item in s.items && s.items[item].state != VerifiedGreen
            && item in Next(s, step).items && Next(s, step).items[item].state == VerifiedGreen
  {
    OnlyFailuresGiveUp(s, step);
    EndsActiveItem(s, step);
  }

  /** An item turns green only once. */
  lemma TurnsGreenOnce(steps: seq<Step>, item: Id, i: nat, j: nat)
    requires Fresh(steps) && i < |steps| && j < |steps|
    requires item in Run(steps[..i + 1]).items && Run(steps[..i + 1]).items[item].state == VerifiedGreen
    requires item in Run(steps[..j]).items && Run(steps[..j]).items[item].state != VerifiedGreen
    ensures j <= i
  {
    if i < j {
      ItemsGrowAlong(steps, i + 1, j);
    }
  }

  lemma FailedGreenIsUnearned(steps: seq<Step>, k: nat)
    requires Fresh(steps) && k < |steps| && FailsGreen(Run(steps[..k]), steps[k])
    ensures !GreenIsEarned(steps)
  {
    StepAt(steps, k);
    FailureTurnsGreen(Run(steps[..k]), steps[k]);
    var item := Run(steps[..k]).jobs[steps[k].jobId].item;
    ItemsGrowAlong(steps, k + 1, |steps|);
    assert steps[..|steps|] == steps;
    if CommittedGreen(steps, item) {
      var i, h :| 0 <= i < |steps| && GreenCommit(Run(steps[..i]), steps[i], item, h);
      StepAt(steps, i);
      CommitTurnsGreen(Run(steps[..i]), steps[i], item, h);
      TurnsGreenOnce(steps, item, i, k);
      TurnsGreenOnce(steps, item, k, i);
    }
  }

  /** Every green item has a commit in its past that earned it, unless a failure named that state: exactly then. */
  lemma GreenWasEarnedIff(steps: seq<Step>)
    requires Fresh(steps)
    ensures GreenIsEarned(steps) <==> NeverFailsGreen(steps)
  {
    if NeverFailsGreen(steps) {
      forall item | IsGreen(Run(steps), item)
        ensures CommittedGreen(steps, item)
      {
        assert steps[..|steps|] == steps;
        var k := TurningPoint(steps, |steps|, item);
        StepAt(steps, k);
        TurnsGreenBy(Run(steps[..k]), steps[k], item);
      }
    }
    forall k | 0 <= k < |steps| && FailsGreen(Run(steps[..k]), steps[k])
      ensures !GreenIsEarned(steps)
    {
      FailedGreenIsUnearned(steps, k);
    }
  }

  // ---- One open job per item ----

  predicate JobMatchesItem(s: Store, job: Job) {
    ItemIs(s, job.item, if job.status == Pending then QueuedState(job.role) else ActiveState(job.role))
  }

  ghost predicate OpenJobsMatch(s: Store) {
    forall j <- s.jobs :: s.jobs[j].Open() ==> JobMatchesItem(s, s.jobs[j])
  }

  ghost predicate OpenJobsAreUnique(s: Store) {
    forall i, j | i in s.jobs && j in s.jobs && s.jobs[i].item == s.jobs[j].item ::
      s.jobs[i].Open() && s.jobs[j].Open() ==> i == j
  }

  predicate HasOpenJob(s: Store, item: Id) {
    exists j <- s.jobs :: s.jobs[j].Open() && s.jobs[j].item == item
  }

  ghost predicate LiveItemsHaveJobs(s: Store) {
    forall i <- s.items :: !Terminal(s.items[i].state) ==> HasOpenJob(s, i)
  }

  /** Every live item has exactly one open job, queued or active as the item is; so terminal items have none. */
  ghost predicate OneOpenJob(s: Store) {
    OpenJobsMatch(s) && OpenJobsAreUnique(s) && LiveItemsHaveJobs(s)
  }

  lemma TerminalItemsHaveNoOpenJob(s: Store, item: Id)
    requires OneOpenJob(s) && item in s.items && Terminal(s.items[item].state)
    ensures !HasOpenJob(s, item)
  {
  }

  /** Not through the supervisor: a job added to an existing item, a live item created without a job, or a job given
      up for a state in which its item stays live. */
  predicate Unsupervised(c: Change) {
    || c.AddJob?
    || (c.AddItem? && c.initial.None? && !Terminal(c.item.state))
    || (GivesUp(c) && !Terminal(c.next))
  }

  lemma OpenJobPersists(s: Store, c: Change, item: Id)
    requires Guarded(s, c) && HasOpenJob(s, item)
    requires c.EndAttempt? && s.jobs[c.jobId].item == item ==> c.status == Pending || c.successor.Some?
    ensures HasOpenJob(Perform(s, c), item)
  {
    var after := Perform(s, c);
    var j :| j in s.jobs && s.jobs[j].Open() && s.jobs[j].item == item;
    if c.EndAttempt? && s.jobs[c.jobId].item == item {
      var k := if c.status == Pending then c.jobId else c.successor.value.id;
      assert after.jobs[k].Open() && after.jobs[k].item == item;
    } else {
      assert after.jobs[j].Open() && after.jobs[j].item == item;
    }
  }

  lemma LiveItemsKept(s: Store, c: Change)
    requires Guarded(s, c) && LiveItemsHaveJobs(s) && !Unsupervised(c)
    ensures LiveItemsHaveJobs(Perform(s, c))
  {
    var after := Perform(s, c);
    forall i <- after.items | !Terminal(after.items[i].state)
      ensures HasOpenJob(after, i)
    {
      if i in s.items {
        OpenJobPersists(s, c, i);
      } else {
        assert after.jobs[c.initial.value.id].Open();
      }
    }
  }

  lemma UniquenessKept(s: Store, c: Change)
    requires References(s) && Guarded(s, c) && OpenJobsAreUnique(s) && !Unsupervised(c)
    ensures OpenJobsAreUnique(Perform(s, c))
  {
  }

  lemma MatchKept(s: Store, c: Change)
    requires References(s) && Guarded(s, c) && OpenJobsMatch(s) && OpenJobsAreUnique(s)
    ensures OpenJobsMatch(Perform(s, c))
  {
  }

  lemma GivenUpItemsHaveNoJob(s: Store, c: Change)
    requires Guarded(s, c) && OpenJobsAreUnique(s) && GivesUp(c)
    ensures var item := s.jobs[c.jobId].item;
            item in Perform(s, c).items && Perform(s, c).items[item].state == c.next && !HasOpenJob(Perform(s, c), item)
  {
  }

  lemma UnsupervisedBreaks(s: Store, c: Change)
    requires References(s) && Guarded(s, c) && OneOpenJob(s) && Unsupervised(c)
    ensures !OneOpenJob(Perform(s, c))
  {
    var after := Perform(s, c);
    if c.AddJob? {
      assert HasOpenJob(s, c.itemId);
      var j :| j in s.jobs && s.jobs[j].Open() && s.jobs[j].item == c.itemId;
      assert after.jobs[j].Open() && after.jobs[c.job.id].Open() && j != c.job.id;
    } else if c.AddItem? {
      assert !HasOpenJob(after, c.itemId);
    } else {
      GivenUpItemsHaveNoJob(s, c);
    }
  }

  /** Exactly which accepted transactions keep one open job per live item: all but the unsupervised ones, so of the
      failures those that requeue or name a terminal state. */
  lemma OneOpenJobKept(s: Store, step: Step)
    requires Inv(s) && OneOpenJob(s) && FreshIds(s, step) && Decide(s, step).Ok?
    ensures OneOpenJob(Next(s, step)) <==> !Unsupervised(Decide(s, step).value)
  {
    var c := Decide(s, step).value;
    DecisionsAreGuarded(s, step);
    if Unsupervised(c) {
      UnsupervisedBreaks(s, c);
    } else {
      LiveItemsKept(s, c);
      UniquenessKept(s, c);
      MatchKept(s, c);
    }
  }

  ghost predicate Supervised(steps: seq<Step>) {
    forall i :: 0 <= i < |steps| ==>
      var decision := Decide(Run(steps[..i]), steps[i]);
      decision.Ok? ==> !Unsupervised(decision.value)
  }

  /** In every history made by the supervisor and its workers each live item has exactly one open job. */
  lemma {:induction false} OneOpenJobAlways(steps: seq<Step>)
    requires Fresh(steps) && Supervised(steps)
    ensures OneOpenJob(Run(steps))
  {
    if steps != [] {
      var n := |steps| - 1;
      FreshPrefix(steps, n);
      forall i | 0 <= i < n
        ensures var decision := Decide(Run(steps[..n][..i]), steps[..n][i]);
                decision.Ok? ==> !Unsupervised(decision.value)
      {
        assert steps[..n][..i] == steps[..i];
      }
      OneOpenJobAlways(steps[..n]);
      RunKeeps(steps[..n]);
      if Decide(Run(steps[..n]), steps[n]).Ok? {
        OneOpenJobKept(Run(steps[..n]), steps[n]);
      }
    }
  }

  // ---- What the scheduler asks of the store ----

  /** `SQLiteSchedulerStorage.fail_job`: it requeues, and leaves the blocked state at its default. */
  function SchedulerFailure(jobId: Id, worker: Id, token: Id, now: int, maxAttempts: int, worktreeLost: bool): Step {
    FailJob(jobId, worker, token, now, maxAttempts, true, Blocked, worktreeLost)
  }

  predicate FailsAsScheduler(step: Step) {
    step.FailJob? ==>
      step == SchedulerFailure(step.jobId, step.worker, step.token, step.now, step.maxAttempts, step.worktreeLost)
  }

  /** Whoever else calls the store: if all failures come from the scheduler, every history is a path, every green item
      was earned, and no failure leaves a live item without a job. */
  lemma SchedulerFailuresAreSafe(steps: seq<Step>)
    requires Fresh(steps) && forall k | 0 <= k < |steps| :: FailsAsScheduler(steps[k])
    ensures AllPaths(Run(steps)) && GreenIsEarned(steps)
    ensures forall k | 0 <= k < |steps| :: BlocksWhatItGivesUp(Run(steps[..k]), steps[k])
  {
    forall k | 0 <= k < |steps|
      ensures BlocksWhatItGivesUp(Run(steps[..k]), steps[k])
      ensures !Strays(Run(steps[..k]), steps[k]) && !FailsGreen(Run(steps[..k]), steps[k])
    {
      BlocksAsScheduler(Run(steps[..k]), steps[k]);
    }
    HistoriesArePathsIff(steps);
    GreenWasEarnedIff(steps);
  }

  predicate BlocksWhatItGivesUp(s: Store, step: Step) {
    Decide(s, step).Ok? && GivesUp(Decide(s, step).value) ==> Decide(s, step).value.next == Blocked
  }

  lemma BlocksAsScheduler(s: Store, step: Step)
    requires FailsAsScheduler(step)
    ensures BlocksWhatItGivesUp(s, step) && !Strays(s, step) && !FailsGreen(s, step)
  {
    if Decide(s, step).Ok? && GivesUp(Decide(s, step).value) {
      OnlyFailuresGiveUp(s, step);
    }
  }

  /** Three calls that end with an item verified: create it with its job, claim the job, and fail it so. */
  const UNEARNED := [
    CreateItem(0, Backlog, [FocusedTests], Some(NewJob(1, Investigator, "investigator"))),
    ClaimJob(1, 2, 3, 4, 0, 10),
    FailJob(1, 2, 4, 1, 3, false, VerifiedGreen, false)]

  lemma UnearnedRuns()
    ensures Run(UNEARNED[..0]) == EMPTY
    ensures Run(UNEARNED[..1]) == Next(EMPTY, UNEARNED[0])
    ensures Run(UNEARNED[..2]) == Next(Next(EMPTY, UNEARNED[0]), UNEARNED[1])
    ensures Run(UNEARNED) == Next(Next(Next(EMPTY, UNEARNED[0]), UNEARNED[1]), UNEARNED[2])
  {
    assert UNEARNED[..1][..0] == UNEARNED[..0] == [];
    assert UNEARNED[..2][..1] == UNEARNED[..1];
    assert UNEARNED[..|UNEARNED| - 1] == UNEARNED[..2];
  }

  lemma UnearnedStates()
    ensures var created := Next(EMPTY, UNEARNED[0]);
            var claimed := Next(created, UNEARNED[1]);
            && FreshIds(EMPTY, UNEARNED[0]) && FreshIds(created, UNEARNED[1]) && FreshIds(claimed, UNEARNED[2])
            && FailsGreen(claimed, UNEARNED[2])
            && claimed.jobs.Keys == {1} && claimed.jobs[1].item == 0 && claimed.jobs[1].role == Investigator
  {
    var created := Next(EMPTY, UNEARNED[0]);
    assert created.items == map[0 := Item(Backlog, [FocusedTests], [Backlog])];
    assert created.jobs == map[1 := Job(0, Investigator, "investigator", Pending, None, None)];
    var claimed := Next(created, UNEARNED[1]);
    assert LiveLease(claimed, 1, 2, 4, 1) && 1 !in claimed.interrupts && AllStopped(claimed, 3)
           && 3 in claimed.attempts;
    assert ItemIs(claimed, 0, Investigating);
  }

  lemma UnearnedIsFresh()
    ensures Fresh(UNEARNED) && FailsGreen(Run(UNEARNED[..2]), UNEARNED[2])
    ensures Run(UNEARNED[..2]).jobs.Keys == {1} && Run(UNEARNED[..2]).jobs[1].item == 0
    ensures Run(UNEARNED[..2]).jobs[1].role == Investigator
  {
    UnearnedRuns();
    UnearnedStates();
    forall k | 0 <= k < |UNEARNED|
      ensures FreshIds(Run(UNEARNED[..k]), UNEARNED[k])
    {
      assert k == 0 || k == 1 || k == 2;
    }
  }

  lemma WithoutCommits(steps: seq<Step>, item: Id)
    requires forall k | 0 <= k < |steps| :: !steps[k].CommitStage?
    ensures !CommittedGreen(steps, item)
  {
  }

  /** `fail_job(..., requeue=False, blocked_item_state="verified_green")` turns an investigator's item green. */
  lemma AnyWorkerCanFailGreen()
    ensures Fresh(UNEARNED) && IsGreen(Run(UNEARNED), 0) && !CommittedGreen(UNEARNED, 0) && !AllPaths(Run(UNEARNED))
  {
    UnearnedIsFresh();
    StepAt(UNEARNED, 2);
    assert UNEARNED[..3] == UNEARNED;
    FailureTurnsGreen(Run(UNEARNED[..2]), UNEARNED[2]);
    WithoutCommits(UNEARNED, 0);
    assert Strays(Run(UNEARNED[..2]), UNEARNED[2]);
    HistoriesArePathsIff(UNEARNED);
  }

  // ---- The scheduler and the store agree ----

  predicate Judged(role: WorkerRole, allowSimulated: bool) {
    role == Tester && !allowSimulated
  }

  /** For each output that the scheduler finalises the store comes to the same next state and successor, and accepts it
      exactly when its evidence is attached.  A tester outside simulation is judged by the canonical handoff instead:
      whatever the worker handed in, and accepted exactly when that one is the same and the gates are supported. */
  lemma FinalizeMeetsStore(s: Store, jobId: Id, output: Handoff, allowSimulated: bool, files: set<string>)
    requires jobId in s.jobs && s.jobs[jobId].item in s.items
    requires BindOutput(s.jobs[jobId].role, s.jobs[jobId].item, output).Some?
    requires var job := s.jobs[jobId];
             FinalizeHandoff(s.items[job.item].gates, BindOutput(job.role, job.item, output).value).Some?
    ensures var job := s.jobs[jobId];
            var gates, h := s.items[job.item].gates, BindOutput(job.role, job.item, output).value;
            var decision := FinalizeHandoff(gates, h).value;
            && h.itemId == job.item
            && decision.nextState in StageNextStates(job.role)
            && decision.successor == SuccessorRole(decision.nextState)
            && (!Judged(job.role, allowSimulated) ==> forall canonical ::
                  ValidatedHandoff(s, jobId, h, canonical, decision.nextState, allowSimulated, files) ==
                  if Attached(h, allowSimulated, files) then Ok(h) else Err(InvalidArgument))
            && (Judged(job.role, allowSimulated) ==> forall handedIn ::
                  ValidatedHandoff(s, jobId, handedIn, Some(h), decision.nextState, allowSimulated, files) ==
                  if gates in {[FocusedTests], DEFAULT_GATES} && Attached(h, allowSimulated, files) then Ok(h)
                  else Err(InvalidArgument))
  {
    var h := BindOutput(s.jobs[jobId].role, s.jobs[jobId].item, output).value;
    if h.Test? {
      GateDecisions(s.items[s.jobs[jobId].item].gates, h);
    }
  }
}
