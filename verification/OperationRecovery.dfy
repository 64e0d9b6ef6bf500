/** `ManagedWorktreeManager.reconcile_expired` and `retry_quarantined_processes`: lifecycle operations left behind. */
module OperationRecovery {
  import opened Processes
  import opened Reconciler

  datatype Kind = Create | Remove | UnknownKind

  datatype ProcessState = NoProcess | Active | Stopped

  datatype Operation = Operation(
    id: nat,
    kind: Kind,
    binding: Option<Binding>,
    processState: ProcessState,
    stdoutPath: string,
    stderrPath: string,
    stdoutHash: Option<string>,
    stderrHash: Option<string>)

  /** A call returned, raised an `Exception`, or raised what only `except BaseException` catches. */
  datatype Done = Succeeded | Refused | Interrupted

  /** What a recovery does, with what came of it; a file's hash is None where it is absent, replaced or foreign. */
  datatype Act =
    | Reconciled(calls: seq<Event>, verdict: Option<Verdict>)
    | Cleared(processId: int, processGroupId: int, done: Done)
    | Resumed(row: Operation, done: Done)
    | ArtifactsRead(stdout: Option<string>, stderr: Option<string>)
    | ArtifactsRecorded(stdoutHash: string, stderrHash: string, done: Done)
    | StateInspected(done: Done)
    | Completed(kind: Kind, done: Done)
    | Quarantining(allowActive: bool, done: Done)
    | Refreshed(running: Option<bool>)
    | RetryFinished(done: Done)

  /** No completion returned; one may have been called, and may have committed before it raised. */
  predicate NoCompletion(acts: seq<Act>) {
    forall act | act in acts :: !IsCompletion(act)
  }

  predicate NothingCompleted(acts: seq<Act>) {
    forall act | act in acts :: !act.Completed?
  }

  /** The guardian's reconcile made these calls and allows release. */
  predicate Released(c: Context, b: Binding, act: Act, status: Status) {
    && act.Reconciled? && act.verdict.Some?
    && Replay(c, b, act.calls) == Some(Finished(act.verdict.value))
    && act.verdict.value.CanRelease() && act.verdict.value.status == status
  }

  /** Paths as configured, hashes as persisted where any were. */
  predicate ArtifactsMatch(paths: nat -> (string, string), row: Operation, stdoutHash: string, stderrHash: string) {
    && row.binding.Some?
    && (row.stdoutPath, row.stderrPath) == paths(row.id)
    && row.stdoutHash in {None, Some(stdoutHash)}
    && row.stderrHash in {None, Some(stderrHash)}
  }

  /** Artifacts matched and recorded, the Git state inspected, the operation completed; in that order. */
  predicate Adopted(paths: nat -> (string, string), kind: Kind, row: Operation, acts: seq<Act>) {
    && |acts| == 4
    && acts[0].ArtifactsRead? && acts[0].stdout.Some? && acts[0].stderr.Some?
    && ArtifactsMatch(paths, row, acts[0].stdout.value, acts[0].stderr.value)
    && acts[1] == ArtifactsRecorded(acts[0].stdout.value, acts[0].stderr.value, Succeeded)
    && acts[2] == StateInspected(Succeeded)
    && acts[3] == Completed(kind, Succeeded)
    && kind != UnknownKind
  }

  predicate ClearedOf(b: Binding, act: Act) {
    act == Cleared(b.processId, b.processGroupId, Succeeded)
  }

  predicate ExpiredSuccess(c: Context, paths: nat -> (string, string), op: Operation, acts: seq<Act>, status: Status) {
    op.binding.Some? &&
    if op.processState.Active? then
      && |acts| == 6 && Released(c, op.binding.value, acts[0], status) && ClearedOf(op.binding.value, acts[1])
      && Adopted(paths, op.kind, op, acts[2..])
    else
      Adopted(paths, op.kind, op, acts) && status == Gone
  }

  /** One expired operation: its result, None when the recovery itself was interrupted. */
  predicate ExpiredOutcome(c: Context, paths: nat -> (string, string), op: Operation, acts: seq<Act>,
                           result: Option<Status>)
  {
    match result
    case None =>
      && NoCompletion(acts) && ExpiredEarned(paths, op, acts)
      && acts != [] && acts[|acts| - 1] == Quarantining(false, Interrupted)
    case Some(status) =>
      if status == Quarantined then
        NoCompletion(acts) && ExpiredEarned(paths, op, acts) && acts != [] && acts[|acts| - 1].Quarantining?
      else ExpiredSuccess(c, paths, op, acts, status)
  }

  predicate RetrySuccess(c: Context, paths: nat -> (string, string), op: Operation, acts: seq<Act>, status: Status) {
    op.binding.Some? &&
    match op.processState
    case Stopped =>
      && |acts| == 5 && status == Gone
      && acts[0].Resumed? && acts[0].done.Succeeded? && Adopted(paths, op.kind, acts[0].row, acts[1..])
    case Active =>
      && |acts| == 7 && Released(c, op.binding.value, acts[0], status) && ClearedOf(op.binding.value, acts[1])
      && acts[2].Resumed? && acts[2].done.Succeeded? && Adopted(paths, op.kind, acts[2].row, acts[3..])
    case NoProcess =>
      && |acts| == 6 && Released(c, op.binding.value, acts[0], status)
      && acts[1].Resumed? && acts[1].done.Succeeded? && Adopted(paths, op.kind, acts[1].row, acts[2..])
  }

  /** A guardian already stopped, or one that its reconcile releases. */
  predicate Reaped(c: Context, op: Operation, acts: seq<Act>, status: Status) {
    op.binding.Some? &&
    if op.processState.Stopped? then acts == [] && status == Gone
    else |acts| == 1 && Released(c, op.binding.value, acts[0], status)
  }

  /** The last act quarantines, gives the retry up, or failed to find out which of the two to do. */
  predicate EndsUncompleted(acts: seq<Act>) {
    NoCompletion(acts) && acts != [] &&
    var last := acts[|acts| - 1];
    last.Quarantining? || last.RetryFinished? || (last.Refreshed? && last.running.None?)
  }

  /** One retried operation: its result, None when its reconcile raised. */
  predicate RetryOutcome(c: Context, paths: nat -> (string, string), op: Operation, acts: seq<Act>,
                         result: Option<Status>)
  {
    match result
    case None => |acts| == 1 && acts[0].Reconciled? && acts[0].verdict.None?
    case Some(status) =>
      if status == Quarantined then EndsUncompleted(acts) && RetryEarned(paths, op, acts)
      else RetrySuccess(c, paths, op, acts, status)
  }

  datatype Attempt = Adopting(status: Status) | NotReleased | RaisedInside

  class ManagedWorktreeManager {
    const reconciler: ExternalProcessReconciler
    /** Where the artifacts of an operation belong. */
    const paths: nat -> (string, string)
    ghost var journal: seq<Act>

    constructor (reconciler: ExternalProcessReconciler, paths: nat -> (string, string))
      ensures this.reconciler == reconciler && this.paths == paths && journal == []
    {
      this.reconciler, this.paths, journal := reconciler, paths, [];
    }

    // ----- Calls into the store, the file system and Git; their answers are arbitrary -----

    ghost method Note(act: Act)
      modifies this`journal
      ensures journal == old(journal) + [act]
    {
      journal := journal + [act];
    }

    method ClearProcess(b: Binding) returns (done: Done)
      modifies this`journal
      ensures journal == old(journal) + [Cleared(b.processId, b.processGroupId, done)]
    {
      done := *;
      Note(Cleared(b.processId, b.processGroupId, done));
    }

    method Resume(op: Operation) returns (row: Operation, done: Done)
      modifies this`journal
      ensures journal == old(journal) + [Resumed(row, done)]
    {
      row, done := *, *;
      Note(Resumed(row, done));
    }

    method ReadArtifacts() returns (stdout: Option<string>, stderr: Option<string>)
      modifies this`journal
      ensures journal == old(journal) + [ArtifactsRead(stdout, stderr)]
    {
      stdout, stderr := *, *;
      Note(ArtifactsRead(stdout, stderr));
    }

    method RecordArtifacts(stdoutHash: string, stderrHash: string) returns (done: Done)
      modifies this`journal
      ensures journal == old(journal) + [ArtifactsRecorded(stdoutHash, stderrHash, done)]
    {
      done := *;
      Note(ArtifactsRecorded(stdoutHash, stderrHash, done));
    }

    method InspectState() returns (done: Done)
      modifies this`journal
      ensures journal == old(journal) + [StateInspected(done)]
    {
      done := *;
      Note(StateInspected(done));
    }

    method Complete(kind: Kind) returns (done: Done)
      modifies this`journal
      ensures journal == old(journal) + [Completed(kind, done)]
    {
      done := *;
      Note(Completed(kind, done));
    }

    method Quarantine(allowActive: bool) returns (done: Done)
      modifies this`journal
      ensures journal == old(journal) + [Quarantining(allowActive, done)]
    {
      done := *;
      Note(Quarantining(allowActive, done));
    }

    /** Whether the operation is running now; None when that could not be read. */
    method Refresh() returns (running: Option<bool>)
      modifies this`journal
      ensures journal == old(journal) + [Refreshed(running)]
    {
      running := *;
      Note(Refreshed(running));
    }

    method FinishRetry() returns (done: Done)
      modifies this`journal
      ensures journal == old(journal) + [RetryFinished(done)]
    {
      done := *;
      Note(RetryFinished(done));
    }

    /** None when the reconcile raised. */
    method ReconcileGuardian(b: Binding) returns (verdict: Option<Verdict>, ghost act: Act)
      requires reconciler.context.Valid()
      modifies this`journal, reconciler.runtime
      ensures journal == old(journal) + [act] && act.Reconciled? && act.verdict == verdict
      ensures verdict.Some? ==> Replay(reconciler.context, b, act.calls) == Some(Finished(verdict.value))
    {
      ghost var from := reconciler.runtime.calls;
      var r := reconciler.Reconcile(b);
      verdict := if r.Answer? then Some(r.value) else None;
      act := Reconciled(if r.Answer? then reconciler.runtime.calls[|from|..] else [], verdict);
      Note(act);
    }

    // ----- Adopting exact state -----

    /** `_recover_operation_artifacts` */
    method RecoverArtifacts(row: Operation) returns (recovered: bool, ghost acts: seq<Act>)
      modifies this`journal
      ensures journal == old(journal) + acts && NothingCompleted(acts)
      ensures recovered ==>
                && |acts| == 2 && acts[0].ArtifactsRead? && acts[0].stdout.Some? && acts[0].stderr.Some?
                && ArtifactsMatch(paths, row, acts[0].stdout.value, acts[0].stderr.value)
                && acts[1] == ArtifactsRecorded(acts[0].stdout.value, acts[0].stderr.value, Succeeded)
    {
      if row.binding.None? || (row.stdoutPath, row.stderrPath) != paths(row.id) {
        return false, [];
      }
      var stdout, stderr := ReadArtifacts();
      acts := [ArtifactsRead(stdout, stderr)];
      if stdout.None? || stderr.None? {
        return false, acts;
      }
      if (row.stdoutHash.Some? && row.stdoutHash != stdout) || (row.stderrHash.Some? && row.stderrHash != stderr) {
        return false, acts;
      }
      var done := RecordArtifacts(stdout.value, stderr.value);
      acts := acts + [ArtifactsRecorded(stdout.value, stderr.value, done)];
      recovered := done.Succeeded?;
    }

    /** Artifacts, then `_reconcile_creation` or `_reconcile_removal`; false when anything raised. */
    method Adopt(kind: Kind, row: Operation) returns (adopted: bool, ghost acts: seq<Act>)
      modifies this`journal
      ensures journal == old(journal) + acts
      ensures if adopted then Adopted(paths, kind, row, acts) else NoCompletion(acts)
      ensures forall k | 0 <= k < |acts| && acts[k].Completed? ::
                k == 3 && acts[k].kind == kind && AdoptedAt(paths, row, acts, k)
    {
      adopted, acts := RecoverArtifacts(row);
      if !adopted || kind == UnknownKind {
        return false, acts;
      }
      var done := InspectState();
      acts := acts + [StateInspected(done)];
      if !done.Succeeded? {
        return false, acts;
      }
      done := Complete(kind);
      acts := acts + [Completed(kind, done)];
      adopted := done.Succeeded?;
    }

    // ----- `reconcile_expired` -----

    /** An active guardian is reaped and its row cleared before anything is adopted. */
    method TryExpired(op: Operation) returns (attempt: Attempt, ghost acts: seq<Act>)
      requires reconciler.context.Valid()
      modifies this`journal, reconciler.runtime
      ensures journal == old(journal) + acts
      ensures match attempt
              case Adopting(status) =>
                status != Quarantined && ExpiredSuccess(reconciler.context, paths, op, acts, status)
              case NotReleased => NoCompletion(acts) && acts != [] && acts[|acts| - 1] == Quarantining(true, Succeeded)
              case RaisedInside => NoCompletion(acts)
      ensures ExpiredEarned(paths, op, acts)
    {
      acts := [];
      var status := Gone;
      if op.binding.Some? && op.processState.Active? {
        ghost var reconciled;
        var verdict;
        verdict, reconciled := ReconcileGuardian(op.binding.value);
        acts := [reconciled];
        if verdict.None? {
          return RaisedInside, acts;
        }
        if !verdict.value.CanRelease() {
          var quarantined := Quarantine(true);
          acts := acts + [Quarantining(true, quarantined)];
          return if quarantined.Succeeded? then NotReleased else RaisedInside, acts;
        }
        status := verdict.value.status;
        var cleared := ClearProcess(op.binding.value);
        acts := acts + [Cleared(op.binding.value.processId, op.binding.value.processGroupId, cleared)];
        if !cleared.Succeeded? {
          return RaisedInside, acts;
        }
      }
      ghost var adopting;
      var adopted;
      adopted, adopting := Adopt(op.kind, op);
      ExpiredAdopts(reconciler.context, paths, op, acts, adopting, adopted, status);
      acts := acts + adopting;
      attempt := if adopted then Adopting(status) else RaisedInside;
    }

    method RecoverExpired(op: Operation) returns (result: Option<Status>, ghost acts: seq<Act>)
      requires reconciler.context.Valid()
      modifies this`journal, reconciler.runtime
      ensures journal == old(journal) + acts
      ensures ExpiredOutcome(reconciler.context, paths, op, acts, result)
    {
      var attempt;
      attempt, acts := TryExpired(op);
      match attempt {
        case Adopting(status) => result := Some(status);
        case NotReleased => result := Some(Quarantined);
        case RaisedInside =>
          var done := Quarantine(false);
          acts := acts + [Quarantining(false, done)];
          result := if done.Interrupted? then None else Some(Quarantined);
      }
    }

    /** One result for each claimed operation, in order, unless a recovery is interrupted. */
    method ReconcileExpired(claimed: seq<Operation>)
      returns (results: seq<Status>, ghost parts: seq<seq<Act>>, interrupted: bool)
      requires reconciler.context.Valid()
      modifies this`journal, reconciler.runtime
      ensures journal == old(journal) + Flat(parts)
      ensures !interrupted ==> |results| == |parts| == |claimed|
      ensures interrupted ==>
                && |parts| == |results| + 1 <= |claimed|
                && ExpiredOutcome(reconciler.context, paths, claimed[|results|], parts[|results|], None)
      ensures forall i | 0 <= i < |results| ::
                ExpiredOutcome(reconciler.context, paths, claimed[i], parts[i], Some(results[i]))
    {
      results, parts, interrupted := [], [], false;
      while |results| < |claimed|
        invariant |parts| == |results| <= |claimed|
        invariant journal == old(journal) + Flat(parts)
        invariant forall i | 0 <= i < |results| ::
                    ExpiredOutcome(reconciler.context, paths, claimed[i], parts[i], Some(results[i]))
        decreases |claimed| - |results|
      {
        ghost var acts;
        var result;
        result, acts := RecoverExpired(claimed[|results|]);
        FlatAppends(old(journal), parts, acts);
        parts := parts + [acts];
        if result.None? {
          interrupted := true;
          return;
        }
        results := results + [result.value];
      }
    }

    // ----- `retry_quarantined_processes` -----

    method TryRetry(op: Operation, b: Binding) returns (adopted: bool, ghost acts: seq<Act>)
      requires op.binding == Some(b)
      modifies this`journal
      ensures journal == old(journal) + acts
      ensures !adopted ==> NoCompletion(acts)
      ensures forall k | 0 <= k < |acts| && acts[k].Completed? :: RetryTried(paths, op, b, acts, k)
      ensures adopted ==> RetryAdopted(paths, op, acts)
    {
      acts := [];
      if op.processState.Active? {
        var cleared := ClearProcess(b);
        acts := [Cleared(b.processId, b.processGroupId, cleared)];
        if !cleared.Succeeded? {
          return false, acts;
        }
      }
      var row, resumed := Resume(op);
      acts := acts + [Resumed(row, resumed)];
      if !resumed.Succeeded? {
        return false, acts;
      }
      ghost var before := acts;
      ghost var adopting;
      adopted, adopting := Adopt(op.kind, row);
      acts := acts + adopting;
      assert acts[|before|..] == adopting && acts[..|before|] == before;
    }

    /** After an exception: quarantine what runs again, or give the retry up. */
    method EndRetry() returns (ghost acts: seq<Act>)
      modifies this`journal
      ensures journal == old(journal) + acts && EndsUncompleted(acts) && NothingCompleted(acts)
    {
      var running := Refresh();
      acts := [Refreshed(running)];
      if running.None? {
        return;
      }
      if running.value {
        var done := Quarantine(false);
        acts := acts + [Quarantining(false, done)];
      } else {
        var done := FinishRetry();
        acts := acts + [RetryFinished(done)];
      }
    }

    /** Whether the guardian may be released; None when its reconcile raised. */
    method ReapGuardian(op: Operation) returns (status: Option<Status>, ghost acts: seq<Act>)
      requires reconciler.context.Valid()
      modifies this`journal, reconciler.runtime
      ensures journal == old(journal) + acts && NothingCompleted(acts)
      ensures status.None? ==> |acts| == 1 && acts[0].Reconciled? && acts[0].verdict.None?
      ensures status.Some? && status.value != Quarantined ==> Reaped(reconciler.context, op, acts, status.value)
    {
      if op.binding.None? {
        return Some(Quarantined), [];
      }
      if op.processState.Stopped? {
        return Some(Gone), [];
      }
      ghost var reconciled;
      var verdict;
      verdict, reconciled := ReconcileGuardian(op.binding.value);
      acts := [reconciled];
      status := if verdict.None? then None else Some(verdict.value.status);
    }

    method RetryQuarantined(op: Operation) returns (result: Option<Status>, ghost acts: seq<Act>)
      requires reconciler.context.Valid()
      modifies this`journal, reconciler.runtime
      ensures journal == old(journal) + acts
      ensures RetryOutcome(reconciler.context, paths, op, acts, result)
    {
      var status;
      status, acts := ReapGuardian(op);
      if status.None? {
        return None, acts;
      }
      ghost var more;
      if status.value != Quarantined {
        var adopted;
        adopted, more := TryRetry(op, op.binding.value);
        RetryTries(reconciler.context, paths, op, acts, more, adopted, status.value);
        acts := acts + more;
        if adopted {
          return status, acts;
        }
      } else {
        var done := FinishRetry();
        acts := acts + [RetryFinished(done)];
        if done.Succeeded? {
          return Some(Quarantined), acts;
        }
      }
      more := EndRetry();
      MoreIsEarned(paths, op, acts, more);
      acts := acts + more;
      result := Some(Quarantined);
    }

    /** One result for each claimed operation, in order, unless a reconcile raises. */
    method RetryQuarantinedProcesses(claimed: seq<Operation>)
      returns (results: seq<Status>, ghost parts: seq<seq<Act>>, raised: bool)
      requires reconciler.context.Valid()
      modifies this`journal, reconciler.runtime
      ensures journal == old(journal) + Flat(parts)
      ensures !raised ==> |results| == |parts| == |claimed|
      ensures raised ==>
                && |parts| == |results| + 1 <= |claimed|
                && RetryOutcome(reconciler.context, paths, claimed[|results|], parts[|results|], None)
      ensures forall i | 0 <= i < |results| ::
                RetryOutcome(reconciler.context, paths, claimed[i], parts[i], Some(results[i]))
    {
      results, parts, raised := [], [], false;
      while |results| < |claimed|
        invariant |parts| == |results| <= |claimed|
        invariant journal == old(journal) + Flat(parts)
        invariant forall i | 0 <= i < |results| ::
                    RetryOutcome(reconciler.context, paths, claimed[i], parts[i], Some(results[i]))
        decreases |claimed| - |results|
      {
        ghost var acts;
        var result;
        result, acts := RetryQuarantined(claimed[|results|]);
        FlatAppends(old(journal), parts, acts);
        parts := parts + [acts];
        if result.None? {
          raised := true;
          return;
        }
        results := results + [result.value];
      }
    }
  }

  function Flat(parts: seq<seq<Act>>): seq<Act> {
    if parts == [] then [] else Flat(parts[..|parts| - 1]) + parts[|parts| - 1]
  }

  lemma FlatAppends(before: seq<Act>, parts: seq<seq<Act>>, acts: seq<Act>)
    ensures before + Flat(parts + [acts]) == before + Flat(parts) + acts
  {
    assert (parts + [acts])[..|parts|] == parts;
  }

  /** What a retry that adopts does from the clear on. */
  predicate RetryAdopted(paths: nat -> (string, string), op: Operation, acts: seq<Act>) {
    op.binding.Some? &&
    if op.processState.Active? then
      && |acts| == 6 && ClearedOf(op.binding.value, acts[0]) && acts[1].Resumed? && acts[1].done.Succeeded?
      && Adopted(paths, op.kind, acts[1].row, acts[2..])
    else
      && |acts| == 5 && acts[0].Resumed? && acts[0].done.Succeeded?
      && Adopted(paths, op.kind, acts[0].row, acts[1..])
  }

  /** A retry that adopts, after what came of its guardian. */
  lemma RetrySucceeds(c: Context, paths: nat -> (string, string), op: Operation, reaped: seq<Act>, acts: seq<Act>,
                      status: Status)
    requires Reaped(c, op, reaped, status)
    requires RetryAdopted(paths, op, acts)
    ensures RetrySuccess(c, paths, op, reaped + acts, status)
  {
    if op.processState.Active? {
      assert (reaped + acts)[3..] == acts[2..];
    } else if op.processState.Stopped? {
      assert (reaped + acts)[1..] == acts[1..];
    } else {
      assert (reaped + acts)[2..] == acts[1..];
    }
  }

  // ----- What a completion rests on -----

  predicate IsCompletion(act: Act) {
    act.Completed? && act.done.Succeeded?
  }

  /** Just before act k the row's artifacts matched and were recorded, and the Git state was inspected. */
  predicate AdoptedAt(paths: nat -> (string, string), row: Operation, acts: seq<Act>, k: nat) {
    && 3 <= k < |acts|
    && acts[k - 3].ArtifactsRead? && acts[k - 3].stdout.Some? && acts[k - 3].stderr.Some?
    && ArtifactsMatch(paths, row, acts[k - 3].stdout.value, acts[k - 3].stderr.value)
    && acts[k - 2] == ArtifactsRecorded(acts[k - 3].stdout.value, acts[k - 3].stderr.value, Succeeded)
    && acts[k - 1] == StateInspected(Succeeded)
  }

  /** The guardian's reconcile, first of all, ended on an empty listing of its group. */
  predicate SeenGone(b: Binding, acts: seq<Act>) {
    acts != [] && acts[0].Reconciled? && acts[0].calls != [] && EmptyGroup(b, acts[0].calls[|acts[0].calls| - 1])
  }

  /** Every completion that was called, whatever came of the call, rests on its artifacts and on an active guardian
      seen gone and cleared. */
  predicate ExpiredEarned(paths: nat -> (string, string), op: Operation, acts: seq<Act>) {
    forall k | 0 <= k < |acts| && acts[k].Completed? ::
      && acts[k].kind == op.kind && op.binding.Some? && AdoptedAt(paths, op, acts, k)
      && (op.processState.Active? ==> SeenGone(op.binding.value, acts) && ClearedOf(op.binding.value, acts[1]) && k > 1)
  }

  /** The same of a retry. */
  predicate RetryEarned(paths: nat -> (string, string), op: Operation, acts: seq<Act>) {
    forall k | 0 <= k < |acts| && acts[k].Completed? :: RetryEarnedAt(paths, op, acts, k)
  }

  predicate RetryEarnedAt(paths: nat -> (string, string), op: Operation, acts: seq<Act>, k: nat) {
    && 4 <= k < |acts| && acts[k].Completed? && acts[k].kind == op.kind && op.binding.Some?
    && acts[k - 4].Resumed? && acts[k - 4].done.Succeeded? && AdoptedAt(paths, acts[k - 4].row, acts, k)
    && (!op.processState.Stopped? ==> SeenGone(op.binding.value, acts))
    && (op.processState.Active? ==> ClearedOf(op.binding.value, acts[1]) && k > 5)
  }

  /** Act k of a retry, counted from the end of its reconcile. */
  predicate RetryTried(paths: nat -> (string, string), op: Operation, b: Binding, acts: seq<Act>, k: nat) {
    && 4 <= k < |acts| && acts[k].Completed? && acts[k].kind == op.kind
    && acts[k - 4].Resumed? && acts[k - 4].done.Succeeded? && AdoptedAt(paths, acts[k - 4].row, acts, k)
    && (op.processState.Active? ==> ClearedOf(b, acts[0]) && k > 4)
  }

  lemma RetryAttemptIsEarned(
    c: Context, paths: nat -> (string, string), op: Operation, reaped: seq<Act>, acts: seq<Act>, status: Status)
    requires Reaped(c, op, reaped, status) && NothingCompleted(reaped)
    requires forall k | 0 <= k < |acts| && acts[k].Completed? :: RetryTried(paths, op, op.binding.value, acts, k)
    ensures RetryEarned(paths, op, reaped + acts)
  {
    if !op.processState.Stopped? {
      ReleasedIsSeenGone(c, op.binding.value, reaped, status);
    }
    NothingAt(reaped);
    forall k | 0 <= k < |reaped + acts| && (reaped + acts)[k].Completed?
      ensures RetryEarnedAt(paths, op, reaped + acts, k)
    {
      assert RetryTried(paths, op, op.binding.value, acts, k - |reaped|);
    }
  }

  /** A try of a retry, after what came of its guardian. */
  lemma RetryTries(c: Context, paths: nat -> (string, string), op: Operation, reaped: seq<Act>, acts: seq<Act>,
                   adopted: bool, status: Status)
    requires Reaped(c, op, reaped, status) && NothingCompleted(reaped)
    requires if adopted then RetryAdopted(paths, op, acts) else NoCompletion(acts)
    requires forall k | 0 <= k < |acts| && acts[k].Completed? :: RetryTried(paths, op, op.binding.value, acts, k)
    ensures if adopted then RetrySuccess(c, paths, op, reaped + acts, status)
            else NoCompletion(reaped + acts) && RetryEarned(paths, op, reaped + acts)
  {
    if adopted {
      RetrySucceeds(c, paths, op, reaped, acts, status);
    } else {
      RetryAttemptIsEarned(c, paths, op, reaped, acts, status);
    }
  }

  /** An adoption of an expired operation, after what came of its guardian. */
  lemma ExpiredAdopts(c: Context, paths: nat -> (string, string), op: Operation, before: seq<Act>, acts: seq<Act>,
                      adopted: bool, status: Status)
    requires if op.binding.Some? && op.processState.Active? then
               && |before| == 2 && Released(c, op.binding.value, before[0], status)
               && ClearedOf(op.binding.value, before[1])
             else before == [] && status == Gone
    requires if adopted then Adopted(paths, op.kind, op, acts) else NoCompletion(acts)
    requires forall k | 0 <= k < |acts| && acts[k].Completed? ::
               k == 3 && acts[k].kind == op.kind && AdoptedAt(paths, op, acts, k)
    ensures adopted ==> ExpiredSuccess(c, paths, op, before + acts, status)
    ensures !adopted ==> NoCompletion(before + acts)
    ensures ExpiredEarned(paths, op, before + acts)
  {
    assert (before + acts)[|before|..] == acts;
    if op.binding.Some? && op.processState.Active? {
      ReleasedIsSeenGone(c, op.binding.value, before, status);
      assert forall k | |before| <= k < |before + acts| :: (before + acts)[k] == acts[k - |before|];
    } else {
      assert before + acts == acts;
    }
  }

  lemma NothingAt(acts: seq<Act>)
    requires NothingCompleted(acts)
    ensures forall i | 0 <= i < |acts| :: !acts[i].Completed?
  {
    forall i | 0 <= i < |acts|
      ensures !acts[i].Completed?
    {
      assert acts[i] in acts;
    }
  }

  lemma MoreIsEarned(paths: nat -> (string, string), op: Operation, acts: seq<Act>, more: seq<Act>)
    requires RetryEarned(paths, op, acts) && NoCompletion(acts) && NothingCompleted(more) && EndsUncompleted(more)
    ensures RetryEarned(paths, op, acts + more) && EndsUncompleted(acts + more)
  {
    NothingAt(more);
    forall k | 0 <= k < |acts + more| && (acts + more)[k].Completed?
      ensures RetryEarnedAt(paths, op, acts + more, k)
    {
      assert RetryEarnedAt(paths, op, acts, k);
    }
  }

  lemma ReleasedIsSeenGone(c: Context, b: Binding, acts: seq<Act>, status: Status)
    requires acts != [] && Released(c, b, acts[0], status)
    ensures SeenGone(b, acts)
  {
    ReleaseRule(c, b, acts[0].calls);
  }

  lemma LastIsCompletion(paths: nat -> (string, string), kind: Kind, row: Operation, acts: seq<Act>, from: nat)
    requires from <= |acts| && Adopted(paths, kind, row, acts[from..])
    requires forall i | 0 <= i < from :: !acts[i].Completed?
    ensures |acts| == from + 4 && IsCompletion(acts[from + 3]) && acts[from + 3].kind == kind
    ensures forall k | 0 <= k < from + 3 :: !acts[k].Completed?
    ensures AdoptedAt(paths, row, acts, from + 3)
  {
    var adopting := acts[from..];
    assert forall i | 0 <= i < 4 :: adopting[i] == acts[from + i];
  }

  /**
   * A completion of an expired operation, also one whose call raises after it committed, comes after its artifacts
   * matched, and an active guardian had been seen gone with its whole group and cleared; a completion returns exactly
   * when the result is releasable, and then it is the last act.
   */
  lemma ExpiredCompletionIsEarned(
    c: Context, paths: nat -> (string, string), op: Operation, acts: seq<Act>, result: Option<Status>, k: nat)
    requires ExpiredOutcome(c, paths, op, acts, result) && k < |acts|
    ensures IsCompletion(acts[k]) <==> result.Some? && result.value != Quarantined && k == |acts| - 1
    ensures acts[k].Completed? ==> acts[k].kind == op.kind && op.binding.Some? && AdoptedAt(paths, op, acts, k)
    ensures acts[k].Completed? && op.processState.Active? ==>
              SeenGone(op.binding.value, acts) && ClearedOf(op.binding.value, acts[1]) && k > 1
  {
    if result.None? || result.value == Quarantined {
      assert acts[k] in acts;
    } else if op.processState.Active? {
      LastIsCompletion(paths, op.kind, op, acts, 2);
      ReleasedIsSeenGone(c, op.binding.value, acts, result.value);
    } else {
      assert acts[0..] == acts;
      LastIsCompletion(paths, op.kind, op, acts, 0);
    }
  }

  /** The same of a retry, whose artifacts are those of the row it resumed. */
  lemma RetryCompletionIsEarned(
    c: Context, paths: nat -> (string, string), op: Operation, acts: seq<Act>, result: Option<Status>, k: nat)
    requires RetryOutcome(c, paths, op, acts, result) && k < |acts|
    ensures IsCompletion(acts[k]) <==> result.Some? && result.value != Quarantined && k == |acts| - 1
    ensures acts[k].Completed? ==> RetryEarnedAt(paths, op, acts, k)
  {
    if result.Some? && result.value != Quarantined {
      var from := if op.processState.Active? then 3 else if op.processState.Stopped? then 1 else 2;
      LastIsCompletion(paths, op.kind, acts[from - 1].row, acts, from);
      if !op.processState.Stopped? {
        ReleasedIsSeenGone(c, op.binding.value, acts, result.value);
      }
    } else if result.Some? {
      assert acts[k] in acts;
    }
  }
}
