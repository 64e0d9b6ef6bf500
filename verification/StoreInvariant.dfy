/** What every transaction of the store keeps. */
module StoreInvariant {
  import opened Processes
  import opened Models
  import opened JobStore

  ghost predicate References(s: Store) {
    && (forall j <- s.jobs :: s.jobs[j].item in s.items)
    && (forall r <- s.processes ::
          s.processes[r].attempt in s.attempts && s.attempts[s.processes[r].attempt].job == s.processes[r].job)
  }

  ghost predicate JobLeases(s: Store) {
    forall j <- s.jobs ::
      if s.jobs[j].status == Running then
        && s.jobs[j].lease.Some?
        && var lease := s.jobs[j].lease.value;
           lease.attempt in s.attempts
           && s.attempts[lease.attempt] == Attempt(j, lease.owner, lease.token, AttemptRunning)
      else s.jobs[j].lease.None?
  }

  ghost predicate AttemptLeases(s: Store) {
    forall a {:trigger s.attempts[a].status} | a in s.attempts :: s.attempts[a].status == AttemptRunning ==>
      s.attempts[a].job in s.jobs && s.jobs[s.attempts[a].job].status == Running
      && s.jobs[s.attempts[a].job].lease.Some? && s.jobs[s.attempts[a].job].lease.value.attempt == a
  }

  /** A running job holds the lease of its one running attempt; no other job holds any. */
  ghost predicate Leases(s: Store) {
    JobLeases(s) && AttemptLeases(s)
  }

  ghost predicate Tokens(s: Store) {
    forall a, b | a in s.attempts && b in s.attempts :: s.attempts[a].token == s.attempts[b].token ==> a == b
  }

  ghost predicate RowsAreCurrent(s: Store) {
    forall r <- s.processes :: s.processes[r].state != Stopped ==>
      var job := s.processes[r].job;
      job in s.jobs && s.jobs[job].status == Running && s.jobs[job].lease.Some?
      && s.jobs[job].lease.value.attempt == s.processes[r].attempt
  }

  /** A process not known to have stopped belongs to the current attempt of a running job, and is alone there. */
  ghost predicate ProcessRows(s: Store) {
    RowsAreCurrent(s) && OneRowPerLiveAttempt(s)
  }

  ghost predicate ActiveStates(s: Store) {
    forall j <- s.jobs :: s.jobs[j].status == Running ==> ItemIs(s, s.jobs[j].item, ActiveState(s.jobs[j].role))
  }

  ghost predicate OneJobAtWork(s: Store) {
    forall i, j | i in s.jobs && j in s.jobs && s.jobs[i].item == s.jobs[j].item ::
      s.jobs[i].status == Running && s.jobs[j].status == Running ==> i == j
  }

  /** Running jobs work on different items, each in the active state of its job. */
  ghost predicate ActiveItems(s: Store) {
    ActiveStates(s) && OneJobAtWork(s)
  }

  ghost predicate Inv(s: Store) {
    References(s) && Leases(s) && Tokens(s) && ProcessRows(s) && ActiveItems(s)
  }

  lemma ReferencesKept(s: Store, c: Change)
    requires References(s) && Leases(s) && Guarded(s, c)
    ensures References(Perform(s, c))
  {
  }

  lemma JobLeasesKept(s: Store, c: Change)
    requires Leases(s) && Guarded(s, c)
    ensures JobLeases(Perform(s, c))
  {
  }

  lemma AttemptLeasesKept(s: Store, c: Change)
    requires Leases(s) && Guarded(s, c)
    ensures AttemptLeases(Perform(s, c))
  {
  }

  lemma TokensKept(s: Store, c: Change)
    requires Tokens(s) && Guarded(s, c)
    ensures Tokens(Perform(s, c))
  {
  }

  lemma RowsStayCurrent(s: Store, c: Change)
    requires JobLeases(s) && ProcessRows(s) && Guarded(s, c)
    ensures RowsAreCurrent(Perform(s, c))
  {
  }

  lemma RowsStaySingle(s: Store, c: Change)
    requires References(s) && ProcessRows(s) && Guarded(s, c)
    ensures OneRowPerLiveAttempt(Perform(s, c))
  {
  }

  lemma ActiveStatesKept(s: Store, c: Change)
    requires References(s) && ActiveItems(s) && Guarded(s, c)
    ensures ActiveStates(Perform(s, c))
  {
  }

  lemma OneJobAtWorkKept(s: Store, c: Change)
    requires References(s) && ActiveItems(s) && Guarded(s, c)
    ensures OneJobAtWork(Perform(s, c))
  {
  }

  /** Every transaction, accepted or refused, keeps the invariant. */
  lemma StepKeeps(s: Store, step: Step)
    requires Inv(s) && FreshIds(s, step)
    ensures Inv(Next(s, step))
  {
    if Decide(s, step).Ok? {
      var c := Decide(s, step).value;
      DecisionsAreGuarded(s, step);
      ReferencesKept(s, c);
      JobLeasesKept(s, c);
      AttemptLeasesKept(s, c);
      TokensKept(s, c);
      RowsStayCurrent(s, c);
      RowsStaySingle(s, c);
      ActiveStatesKept(s, c);
      OneJobAtWorkKept(s, c);
    }
  }

  lemma FreshPrefix(steps: seq<Step>, i: nat)
    requires Fresh(steps) && i <= |steps|
    ensures Fresh(steps[..i])
  {
    forall k | 0 <= k < i
      ensures FreshIds(Run(steps[..i][..k]), steps[..i][k])
    {
      assert steps[..i][..k] == steps[..k];
    }
  }

  lemma {:induction false} RunKeeps(steps: seq<Step>)
    requires Fresh(steps)
    ensures Inv(Run(steps))
  {
    if steps != [] {
      var n := |steps| - 1;
      FreshPrefix(steps, n);
      RunKeeps(steps[..n]);
      StepKeeps(Run(steps[..n]), steps[n]);
    }
  }

  /** The last transaction of a history, and what holds before it. */
  lemma LastStep(steps: seq<Step>)
    requires Fresh(steps) && steps != []
    ensures var n := |steps| - 1;
            && Fresh(steps[..n]) && Inv(Run(steps[..n])) && FreshIds(Run(steps[..n]), steps[n])
            && Run(steps) == Next(Run(steps[..n]), steps[n])
  {
    FreshPrefix(steps, |steps| - 1);
    RunKeeps(steps[..|steps| - 1]);
  }
}
