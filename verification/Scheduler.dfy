/** `scheduler.py`: the scheduler's methods, step by step, against the state functions of `ClaimAccounts`. */
module Scheduler {
  import opened Processes
  import opened Models
  import opened RoleLanes
  import opened ClaimLoop
  import opened ClaimAccounts

  /** Slots that are only freed are not more in use. */
  lemma {:induction false} FreeingKeepsActive(slots: seq<Slot>, others: seq<Slot>)
    requires |slots| == |others| && forall i | 0 <= i < |slots| :: Free(slots[i]) ==> Free(others[i])
    ensures Active(others) <= Active(slots)
  {
    if slots != [] {
      FreeingKeepsActive(slots[..|slots| - 1], others[..|others| - 1]);
    }
  }

  lemma {:induction false} AllFree(slots: seq<Slot>)
    requires forall slot | slot in slots :: Free(slot)
    ensures Active(slots) == 0
  {
    if slots != [] {
      AllFree(slots[..|slots| - 1]);
    }
  }

  /** One more turn of the claiming loop. */
  lemma FillTurn(slots: seq<Slot>, order: seq<nat>, k: nat, limit: nat, answers: Id -> ClaimAnswer)
    requires k < |order|
    ensures Fill(slots, order[..k + 1], limit, answers)
            == FillOne(Fill(slots, order[..k], limit, answers), order[k], limit, answers)
  {
    assert order[..k + 1][..k] == order[..k];
  }

  /** A loop that stops early, at the limit or by raising, has done all that the whole order would. */
  lemma FillStops(slots: seq<Slot>, order: seq<nat>, k: nat, limit: nat, answers: Id -> ClaimAnswer)
    requires k <= |order|
    requires var f := Fill(slots, order[..k], limit, answers); k == |order| || Active(f.slots) >= limit || f.raised
    ensures Fill(slots, order, limit, answers) == Fill(slots, order[..k], limit, answers)
  {
    assert order == order[..k] + order[k..];
    if k < |order| {
      FullStaysFull(slots, order[..k], order[k..], limit, answers);
    } else {
      assert order[..k] == order;
    }
  }

  class Scheduler {
    const limit: nat
    var slots: seq<Slot>
    var cursor: nat
    var stale: seq<Id>
    /** The exceptions of `errors`, each with the claim it came from. */
    var errors: seq<Report>
    /** Claims for which the store accepted a commit, a failure or an interruption. */
    ghost var accepted: set<Claim>
    ghost var lent: set<Claim>
    ghost var left: set<Claim>

    ghost function Now(): State
      reads this
    {
      State(slots, cursor, stale, errors, accepted, lent, left)
    }

    ghost predicate Bounded()
      reads this
    {
      cursor < 3 && Active(slots) <= limit
    }

    ghost predicate Valid()
      reads this
    {
      Bounded() && Sound(Now())
    }

    constructor (limit: nat, slots: seq<Slot>)
      requires limit >= 1 && forall slot | slot in slots :: Free(slot) && slot.end.None? && !slot.cancelling
      ensures Valid() && Fresh(Now()) && this.limit == limit && this.slots == slots
    {
      this.limit := limit;
      this.slots := slots;
      cursor, stale, errors, accepted, lent, left := 0, [], [], {}, {}, {};
      new;
      AllFree(slots);
      FreshIsSound(Now());
    }

    /** Recover, cancel, reap, then fill free slots in claim order; None when a claim breaks the store's promise. */
    method RunOnce(recovered: seq<Id>, answers: Id -> ClaimAnswer) returns (claims: Option<nat>)
      requires Valid()
      modifies this
      ensures Valid() && Now() == Ticked(limit, old(Now()), recovered, answers)
      ensures var f := Claimed(limit, Reap(Recover(old(Now()), recovered)), answers);
              claims == if f.raised then None else Some(f.claims)
    {
      TickKeeps(limit, Now(), recovered, answers);
      CancelRecovered(recovered);
      ReapFinishedSlots();
      claims := ClaimFreeSlots(answers);
    }

    method CancelRecovered(recovered: seq<Id>)
      requires Bounded()
      modifies this`slots, this`stale
      ensures Bounded() && Now() == Recover(old(Now()), recovered)
    {
      stale := WithStale(stale, recovered);
      ghost var start := slots;
      var i := 0;
      while i < |slots|
        invariant i <= |slots| == |start| && stale == WithStale(old(stale), recovered)
        invariant forall k | 0 <= k < |start| :: slots[k] == if k < i then Cancelling(start, recovered)[k] else start[k]
      {
        if slots[i].claim.Some? && slots[i].claim.value.jobId in recovered {
          slots := slots[i := slots[i].(cancelling := true)];
        }
        i := i + 1;
      }
      assert slots == Cancelling(start, recovered);
      FreeingKeepsActive(start, slots);
    }

    /** Frees each slot whose task is done and keeps the exception that escaped it. */
    method ReapFinishedSlots()
      requires Bounded()
      modifies this`slots, this`errors, this`left
      ensures Bounded() && Now() == Reap(old(Now()))
    {
      ghost var start := slots;
      var i := 0;
      while i < |slots|
        invariant i <= |slots| == |start| && errors == old(errors) + Escapes(start, i) && left == old(left)
        invariant forall k | 0 <= k < |start| :: slots[k] == if k < i then Reaped(start)[k] else start[k]
      {
        if slots[i].end.Some? {
          if slots[i].end.value.Escaped? {
            errors := errors + [Report(slots[i].end.value.error, slots[i].claim)];
          }
          slots := slots[i := slots[i].Release()];
        }
        i := i + 1;
      }
      left := left + Finished(start);
      assert slots == Reaped(start);
      FreeingKeepsActive(start, slots);
    }

    /** The claiming loop and the cursor's move behind the last claim. */
    method ClaimFreeSlots(answers: Id -> ClaimAnswer) returns (claims: Option<nat>)
      requires Bounded()
      modifies this`slots, this`cursor, this`lent
      ensures Bounded() && Now() == Lend(limit, old(Now()), answers)
      ensures var f := Claimed(limit, old(Now()), answers); claims == if f.raised then None else Some(f.claims)
    {
      var count, last, raised := TryInOrder(ClaimOrder(Roles(slots), cursor), answers);
      lent := lent + Held(slots);
      if raised {
        return None;
      }
      if last.Some? {
        cursor := CursorAfter(last.value);
      }
      claims := Some(count);
    }

    /** The loop, up to the global limit: what it leaves is what trying the whole order would. */
    method TryInOrder(order: seq<nat>, answers: Id -> ClaimAnswer)
      returns (count: nat, last: Option<WorkerRole>, raised: bool)
      requires Bounded()
      modifies this`slots
      ensures Bounded() && Fill(old(slots), order, limit, answers) == Filling(slots, count, last, raised)
    {
      ghost var start := slots;
      count, last, raised := 0, None, false;
      var k := 0;
      while k < |order| && Active(slots) < limit && !raised
        invariant 0 <= k <= |order| && Bounded()
        invariant Fill(start, order[..k], limit, answers) == Filling(slots, count, last, raised)
      {
        FillTurn(start, order, k, limit, answers);
        count, last, raised := TrySlot(order[k], answers, count, last);
        k := k + 1;
      }
      FillStops(start, order, k, limit, answers);
    }

    /** Asks the store for a job if the slot is free, checks the claim, and lends the slot to it. */
    method TrySlot(i: nat, answers: Id -> ClaimAnswer, count: nat, last: Option<WorkerRole>)
      returns (count': nat, last': Option<WorkerRole>, raised: bool)
      requires Bounded() && Active(slots) < limit
      modifies this`slots
      ensures Bounded()
      ensures FillOne(Filling(old(slots), count, last, false), i, limit, answers)
              == Filling(slots, count', last', raised)
    {
      count', last', raised := count, last, false;
      if i < |slots| && Free(slots[i]) {
        var answer := answers(i);
        if answer.Job? {
          if !ValidClaim(slots[i], answer) {
            return count, last, true;
          }
          ActiveUpdate(slots, i, slots[i].Lend(answer.claim));
          count', last' := count + 1, Some(slots[i].role);
          slots := slots[i := slots[i].Lend(answer.claim)];
        }
      }
    }

    /** The task of a slot runs to its end. */
    method EndTask(i: nat, a: Answers)
      requires Valid() && AtWork(Now(), i) && (a.work == WasCancelled ==> slots[i].cancelling)
      modifies this`slots, this`stale, this`errors, this`accepted
      ensures Valid() && Now() == EndClaim(old(Now()), i, a)
    {
      EndKeeps(Now(), i, a);
      SettleSlot(i, a);
    }

    method SettleSlot(i: nat, a: Answers)
      requires Bounded() && AtWork(Now(), i)
      modifies this`slots, this`stale, this`errors, this`accepted
      ensures Bounded() && Now() == EndClaim(old(Now()), i, a)
    {
      var end := ExecuteClaim(slots[i].claim.value, a);
      FreeingKeepsActive(slots, slots[i := slots[i].(end := Some(end))]);
      slots := slots[i := slots[i].(end := Some(end))];
    }

    /** What the store accepted, the stale jobs and the errors are those of the settlement. */
    twostate predicate SettledAs(claim: Claim, s: Settlement)
      reads this
    {
      && stale == s.stale
      && errors == old(errors) + Reports(claim, s.errors)
      && accepted == if s.accepted then old(accepted) + {claim} else old(accepted)
    }

    /** One claim from its worker's end to its settlement. */
    method ExecuteClaim(claim: Claim, a: Answers) returns (end: TaskEnd)
      modifies this`stale, this`errors, this`accepted
      ensures SettledAs(claim, Settle(claim, old(stale), a)) && end == Settle(claim, old(stale), a).end
    {
      var outcome := a.work;
      if outcome == Done {
        outcome := AfterPoll(a.pollAfterWork, Done);
      }
      if outcome == Done {
        outcome := Finalize(claim, a);
      }
      end := Ended;
      match outcome {
        case Done =>
        case OperatorInterruption => end := CompleteInterrupt(claim, a.interrupt);
        case LeaseLost => stale := stale + [claim.jobId];
        case HeartbeatFailure(error) => RequeueAfterHeartbeatFailure(claim, error, a);
        case WasCancelled => end := CancelledTask;
        case OtherFailure(_) => end := FailClaim(claim, a);
      }
    }

    /** Binding the output and `_finalize_handoff`. */
    method Finalize(claim: Claim, a: Answers) returns (outcome: Outcome)
      modifies this`accepted
      ensures outcome == Finalized(a)
      ensures accepted == if outcome == Done then old(accepted) + {claim} else old(accepted)
    {
      if a.bound.Some? {
        return OtherFailure(a.bound.value);
      }
      match a.commit {
        case Yes =>
          accepted := accepted + {claim};
          outcome := Done;
        case No => outcome := AfterPoll(a.pollAfterCommit, LeaseLost);
        case Raises(error) => outcome := OtherFailure(error);
      }
    }

    method CompleteInterrupt(claim: Claim, answer: Answer) returns (end: TaskEnd)
      modifies this`stale, this`accepted
      ensures SettledAs(claim, Interrupted(claim, old(stale), answer))
      ensures end == Interrupted(claim, old(stale), answer).end
    {
      end := Ended;
      match answer {
        case Yes => accepted := accepted + {claim};
        case No => stale := stale + [claim.jobId];
        case Raises(error) => end := Escaped(error);
      }
    }

    method RequeueAfterHeartbeatFailure(claim: Claim, error: string, a: Answers)
      modifies this`stale, this`errors, this`accepted
      ensures SettledAs(claim, HeartbeatFailed(claim, old(stale), error, a))
    {
      errors := errors + [Report(error, Some(claim))];
      match a.requeue {
        case Yes => accepted := accepted + {claim};
        case No =>
          if a.recovery.Some? {
            stale := WithStale(stale, a.recovery.value);
            OneStale(stale, claim.jobId);
            if claim.jobId !in stale {
              stale := stale + [claim.jobId];
            }
          } else {
            errors := errors + [Report(RECOVERY_FAILED, Some(claim))];
          }
        case Raises(another) => errors := errors + [Report(another, Some(claim))];
      }
    }

    method FailClaim(claim: Claim, a: Answers) returns (end: TaskEnd)
      modifies this`stale, this`accepted
      ensures SettledAs(claim, WorkFailed(claim, old(stale), a)) && end == WorkFailed(claim, old(stale), a).end
    {
      end := Ended;
      match a.fail {
        case Yes => accepted := accepted + {claim};
        case Raises(error) => end := Escaped(error);
        case No =>
          match a.pollAfterFail {
            case NothingPending => stale := stale + [claim.jobId];
            case Pending => end := CompleteInterrupt(claim, a.interruptAfterFail);
            case IllFormed => end := Escaped("operator interrupt storage returned an invalid request");
            case PollRaises(error) => end := Escaped(error);
          }
      }
    }

    /** Cancels every task, waits for them, gives each claim back, recovers and reaps: every slot is free again, and
        every claim that was ever lent is accounted for. */
    method Shutdown(ends: nat -> Answers, answers: nat -> Answer, recovery: Option<seq<Id>>)
      requires Valid()
      modifies this
      ensures Valid() && Now() == Shut(old(Now()), ends, answers, recovery)
      ensures Active(slots) == 0 && lent == old(lent) && forall c | c in lent :: Accounted(Now(), c)
    {
      ShutAccounts(Now(), ends, answers, recovery);
      CancelTasks();
      AwaitTasks(ends);
      GiveClaimsBack(answers, recovery);
      ReapFinishedSlots();
      AllFree(slots);
    }

    method CancelTasks()
      requires Bounded()
      modifies this`slots
      ensures Bounded() && Now() == CancelAll(old(Now()))
    {
      ghost var start := Now();
      var i := 0;
      while i < |slots|
        invariant i <= |slots| == |start.slots|
        invariant forall k | 0 <= k < |slots| :: slots[k] == if k < i then CancelAll(start).slots[k] else start.slots[k]
      {
        if slots[i].claim.Some? {
          slots := slots[i := slots[i].(cancelling := true)];
        }
        i := i + 1;
      }
      assert slots == CancelAll(start).slots;
      FreeingKeepsActive(start.slots, slots);
    }

    method AwaitTasks(ends: nat -> Answers)
      requires Bounded()
      modifies this`slots, this`stale, this`errors, this`accepted
      ensures Bounded() && Now() == EndAll(old(Now()), |old(slots)|, ends)
    {
      ghost var start := Now();
      var i := 0;
      while i < |slots|
        invariant i <= |slots| == |start.slots| && Bounded() && Now() == EndAll(start, i, ends)
      {
        if slots[i].claim.Some? && slots[i].end.None? {
          SettleSlot(i, ends(i));
        }
        i := i + 1;
      }
    }

    /** Every claim is offered back to the store; those it does not take are recorded as stale after a recovery. */
    method GiveClaimsBack(answers: nat -> Answer, recovery: Option<seq<Id>>)
      modifies this`stale, this`errors, this`accepted
      ensures Now() == Returning(old(Now()), answers, recovery)
    {
      ghost var start := Now();
      var rejected: seq<Id> := [];
      var i := 0;
      while i < |slots|
        invariant i <= |slots| && stale == start.stale
        invariant GiveBack(start, i, answers) == GivenBack(accepted, errors, rejected)
      {
        if slots[i].claim.Some? {
          var claim := slots[i].claim.value;
          match answers(i) {
            case Yes => accepted := accepted + {claim};
            case No => rejected := rejected + [claim.jobId];
            case Raises(error) =>
              errors := errors + [Report(error, Some(claim))];
              rejected := rejected + [claim.jobId];
          }
        }
        i := i + 1;
      }
      if recovery.Some? {
        stale := WithStale(stale, recovery.value);
      } else {
        errors := errors + [Report(RECOVERY_FAILED, None)];
      }
      stale := WithStale(stale, rejected);
    }
  }
}
