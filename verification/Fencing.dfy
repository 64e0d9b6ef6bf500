/** A lease token speaks for one attempt: whatever ends that attempt silences the token for good. */
module Fencing {
  import opened Processes
  import opened Models
  import opened JobStore
  import opened StoreInvariant

  predicate Fenced(step: Step) {
    || step.HeartbeatJob? || step.RecordProcess? || step.ClearProcess?
    || step.CommitStage? || step.FailJob? || step.InterruptJob?
  }

  /** The four outcomes a claim may report; an operator's interruption is an InterruptJob with a request. */
  predicate Closes(step: Step) {
    step.CommitStage? || step.FailJob? || step.InterruptJob?
  }

  ghost predicate Silenced(s: Store, token: Id) {
    exists a :: a in s.attempts && s.attempts[a].token == token && s.attempts[a].status != AttemptRunning
  }

  /** A slot whose job was recovered, claimed again or finished cannot change anything. */
  lemma StaleTokenIsRefused(s: Store, step: Step)
    requires Fenced(step)
    requires !(step.jobId in s.jobs && s.jobs[step.jobId].status == Running && s.jobs[step.jobId].lease.Some?
               && s.jobs[step.jobId].lease.value.token == step.token
               && s.jobs[step.jobId].lease.value.owner == step.worker)
    ensures Decide(s, step).Err? && Next(s, step) == s
  {
    assert !LiveLease(s, step.jobId, step.worker, step.token, step.now);
  }

  lemma SilencedIsRefused(s: Store, step: Step)
    requires Leases(s) && Tokens(s) && Fenced(step) && Silenced(s, step.token)
    ensures Decide(s, step).Err?
  {
    var a :| a in s.attempts && s.attempts[a].token == step.token && s.attempts[a].status != AttemptRunning;
    if step.jobId in s.jobs && s.jobs[step.jobId].status == Running {
      var current := s.jobs[step.jobId].lease.value.attempt;
      assert s.attempts[current].token != step.token;
    }
    assert !LiveLease(s, step.jobId, step.worker, step.token, step.now);
  }

  /** Attempts are never forgotten, keep their token, and once ended stay as they ended. */
  ghost predicate AttemptsGrow(s: Store, after: Store) {
    forall a <- s.attempts ::
      && a in after.attempts && after.attempts[a].token == s.attempts[a].token
      && (s.attempts[a].status != AttemptRunning ==> after.attempts[a] == s.attempts[a])
  }

  lemma ChangeGrows(s: Store, c: Change)
    requires Leases(s) && Guarded(s, c)
    ensures AttemptsGrow(s, Perform(s, c))
    ensures c.EndAttempt? ==> Silenced(Perform(s, c), s.jobs[c.jobId].lease.value.token)
  {
    if c.EndAttempt? {
      var attempt := s.jobs[c.jobId].lease.value.attempt;
      var ended := Perform(s, c).attempts[attempt];
      assert ended.token == s.jobs[c.jobId].lease.value.token && ended.status != AttemptRunning;
    }
  }

  lemma StepGrows(s: Store, step: Step)
    requires Inv(s) && FreshIds(s, step)
    ensures AttemptsGrow(s, Next(s, step))
  {
    if Decide(s, step).Ok? {
      DecisionsAreGuarded(s, step);
      ChangeGrows(s, Decide(s, step).value);
    }
  }

  lemma CloseSilences(s: Store, step: Step)
    requires Inv(s) && Closes(step) && Decide(s, step).Ok?
    ensures Silenced(Next(s, step), step.token)
  {
    var c := Decide(s, step).value;
    assert c.EndAttempt? && c.jobId == step.jobId && s.jobs[step.jobId].lease.value.token == step.token;
    DecisionsAreGuarded(s, step);
    ChangeGrows(s, c);
  }

  lemma SilenceStep(s: Store, step: Step, token: Id)
    requires Inv(s) && FreshIds(s, step) && Silenced(s, token)
    ensures Silenced(Next(s, step), token)
  {
    StepGrows(s, step);
    var a :| a in s.attempts && s.attempts[a].token == token && s.attempts[a].status != AttemptRunning;
    assert a in Next(s, step).attempts;
  }

  lemma SilenceNext(steps: seq<Step>, n: nat, token: Id)
    requires Fresh(steps) && n < |steps| && Silenced(Run(steps[..n]), token)
    ensures Silenced(Run(steps[..n + 1]), token)
  {
    FreshPrefix(steps, n);
    RunKeeps(steps[..n]);
    assert FreshIds(Run(steps[..n]), steps[n]);
    SilenceStep(Run(steps[..n]), steps[n], token);
    assert steps[..n + 1][..n] == steps[..n];
  }

  lemma {:induction false} SilenceLasts(steps: seq<Step>, i: nat, j: nat, token: Id)
    requires Fresh(steps) && i <= j <= |steps| && Silenced(Run(steps[..i]), token)
    ensures Silenced(Run(steps[..j]), token)
    decreases j
  {
    if i < j {
      SilenceLasts(steps, i, j - 1, token);
      SilenceNext(steps, j - 1, token);
    }
  }

  ghost predicate Accepted(steps: seq<Step>, i: nat)
    requires i < |steps|
  {
    Decide(Run(steps[..i]), steps[i]).Ok?
  }

  /** In every history at most one commit, failure or interruption is accepted per lease token, and after it no other
      fenced call with that token is either. */
  lemma AtMostOneOutcomePerToken(steps: seq<Step>, i: nat, j: nat)
    requires Fresh(steps) && i < j < |steps|
    requires Closes(steps[i]) && Accepted(steps, i) && Fenced(steps[j]) && steps[j].token == steps[i].token
    ensures !Accepted(steps, j)
  {
    FreshPrefix(steps, i);
    RunKeeps(steps[..i]);
    CloseSilences(Run(steps[..i]), steps[i]);
    assert steps[..i + 1][..i] == steps[..i];
    SilenceLasts(steps, i + 1, j, steps[i].token);
    FreshPrefix(steps, j);
    RunKeeps(steps[..j]);
    SilencedIsRefused(Run(steps[..j]), steps[j]);
  }
}
