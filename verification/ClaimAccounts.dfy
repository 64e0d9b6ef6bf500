/** How claims end, are reaped and are given back: every claim that leaves its slot is accounted for. */
module ClaimAccounts {
  import opened Processes
  import opened Models
  import opened RoleLanes
  import opened ClaimLoop

  // ----- How a claim ends -----

  /** A store call that says whether it was accepted. */
  datatype Answer = Yes | No | Raises(error: string)

  /** `_poll_operator_interrupt`; an ill-formed request counts as a heartbeat failure. */
  datatype Poll = NothingPending | Pending | IllFormed | PollRaises(error: string)

  /** How the body of `_execute_claim` leaves: done, or by an exception. */
  datatype Outcome =
    | Done
    | OperatorInterruption
    | LeaseLost
    | HeartbeatFailure(error: string)
    | WasCancelled
    | OtherFailure(error: string)

  /** The answers one claim meets, in the order of the code. */
  datatype Answers = Answers(
    work: Outcome,
    pollAfterWork: Poll,
    bound: Option<string>,
    commit: Answer,
    pollAfterCommit: Poll,
    interrupt: Answer,
    requeue: Answer,
    recovery: Option<seq<Id>>,
    fail: Answer,
    pollAfterFail: Poll,
    interruptAfterFail: Answer)

  function AfterPoll(poll: Poll, nothing: Outcome): Outcome {
    match poll
    case NothingPending => nothing
    case Pending => OperatorInterruption
    case IllFormed => HeartbeatFailure("operator interrupt storage returned an invalid request")
    case PollRaises(error) => OtherFailure(error)
  }

  const RECOVERY_FAILED := "recovery failed"

  /** How a claim's task ended, whether the store accepted an outcome, the stale jobs after it, and its errors. */
  datatype Settlement = Settlement(end: TaskEnd, accepted: bool, stale: seq<Id>, errors: seq<string>)

  /** `_record_recovered_job_ids`: each id once, in order. */
  function WithStale(stale: seq<Id>, ids: seq<Id>): (r: seq<Id>)
    ensures stale <= r && forall id :: id in r <==> id in stale || id in ids
  {
    if ids == [] then stale
    else
      var n := |ids| - 1;
      var before := WithStale(stale, ids[..n]);
      assert ids == ids[..n] + [ids[n]];
      if ids[n] in before then before else before + [ids[n]]
  }

  lemma OneStale(stale: seq<Id>, id: Id)
    ensures WithStale(stale, [id]) == if id in stale then stale else stale + [id]
  {
    assert [id][..0] == [];
  }

  /** `_finalize_handoff` of an output that could be bound. */
  function Finalized(a: Answers): Outcome {
    if a.bound.Some? then OtherFailure(a.bound.value)
    else
      match a.commit
      case Yes => Done
      case No => AfterPoll(a.pollAfterCommit, LeaseLost)
      case Raises(error) => OtherFailure(error)
  }

  function Worked(a: Answers): Outcome {
    var worked := if a.work == Done then AfterPoll(a.pollAfterWork, Done) else a.work;
    if worked == Done then Finalized(a) else worked
  }

  function Interrupted(claim: Claim, stale: seq<Id>, answer: Answer): Settlement {
    match answer
    case Yes => Settlement(Ended, true, stale, [])
    case No => Settlement(Ended, false, stale + [claim.jobId], [])
    case Raises(error) => Settlement(Escaped(error), false, stale, [])
  }

  function HeartbeatFailed(claim: Claim, stale: seq<Id>, error: string, a: Answers): Settlement {
    match a.requeue
    case Yes => Settlement(Ended, true, stale, [error])
    case Raises(another) => Settlement(Ended, false, stale, [error, another])
    case No =>
      if a.recovery.None? then Settlement(Ended, false, stale, [error, RECOVERY_FAILED])
      else Settlement(Ended, false, WithStale(WithStale(stale, a.recovery.value), [claim.jobId]), [error])
  }

  function WorkFailed(claim: Claim, stale: seq<Id>, a: Answers): Settlement {
    match a.fail
    case Yes => Settlement(Ended, true, stale, [])
    case Raises(error) => Settlement(Escaped(error), false, stale, [])
    case No =>
      match a.pollAfterFail
      case NothingPending => Settlement(Ended, false, stale + [claim.jobId], [])
      case Pending => Interrupted(claim, stale, a.interruptAfterFail)
      case IllFormed => Settlement(Escaped("operator interrupt storage returned an invalid request"), false, stale, [])
      case PollRaises(error) => Settlement(Escaped(error), false, stale, [])
  }

  /** What `_execute_claim` comes to. */
  function Settle(claim: Claim, stale: seq<Id>, a: Answers): Settlement {
    match Worked(a)
    case Done => Settlement(Ended, true, stale, [])
    case OperatorInterruption => Interrupted(claim, stale, a.interrupt)
    case LeaseLost => Settlement(Ended, false, stale + [claim.jobId], [])
    case HeartbeatFailure(error) => HeartbeatFailed(claim, stale, error, a)
    case WasCancelled => Settlement(CancelledTask, false, stale, [])
    case OtherFailure(_) => WorkFailed(claim, stale, a)
  }

  /** A claim that ends on its own has an accepted outcome, is stale, or leaves an error; only a cancelled worker ends
      as cancelled; and nothing is accepted unless the store said so. */
  lemma SettledIsAccounted(claim: Claim, stale: seq<Id>, a: Answers)
    ensures var s := Settle(claim, stale, a);
            && (s.end == Ended ==> s.accepted || claim.jobId in s.stale || s.errors != [])
            && (s.end == CancelledTask <==> a.work == WasCancelled)
            && (s.end != Ended ==> !s.accepted && s.stale == stale && s.errors == [])
            && (s.accepted ==> Yes in [a.commit, a.interrupt, a.requeue, a.fail, a.interruptAfterFail])
            && stale <= s.stale
  {
  }

  // ----- The scheduler's state and events -----

  /** An error, and the claim whose it is; the scheduler keeps only the exception. */
  datatype Report = Report(error: string, claim: Option<Claim>)

  /** `lent` are all claims that a slot was ever lent to, `left` those that have left it again. */
  datatype State = State(
    slots: seq<Slot>,
    cursor: nat,
    stale: seq<Id>,
    errors: seq<Report>,
    accepted: set<Claim>,
    lent: set<Claim>,
    left: set<Claim>)

  function Held(slots: seq<Slot>): set<Claim> {
    set i | 0 <= i < |slots| && slots[i].claim.Some? :: slots[i].claim.value
  }

  function Finished(slots: seq<Slot>): set<Claim> {
    set i | 0 <= i < |slots| && slots[i].claim.Some? && slots[i].end.Some? :: slots[i].claim.value
  }

  function Reports(claim: Claim, errors: seq<string>): (r: seq<Report>)
    ensures |r| == |errors| && forall i | 0 <= i < |r| :: r[i].claim == Some(claim)
  {
    seq(|errors|, i requires 0 <= i < |errors| => Report(errors[i], Some(claim)))
  }

  /** `_reap_finished_slots`: a slot whose task is done becomes free. */
  function Reaped(slots: seq<Slot>): (r: seq<Slot>)
    ensures |r| == |slots|
  {
    seq(|slots|, i requires 0 <= i < |slots| => if slots[i].end.Some? then slots[i].Release() else slots[i])
  }

  /** The exceptions that escaped the first n slots' tasks, in slot order; a cancellation is not an error. */
  function Escapes(slots: seq<Slot>, n: nat): seq<Report>
    requires n <= |slots|
  {
    if n == 0 then []
    else
      var slot := slots[n - 1];
      Escapes(slots, n - 1)
      + if slot.end.Some? && slot.end.value.Escaped? then [Report(slot.end.value.error, slot.claim)] else []
  }

  function Reap(st: State): State {
    st.(slots := Reaped(st.slots), errors := st.errors + Escapes(st.slots, |st.slots|),
        left := st.left + Finished(st.slots))
  }

  /** `_cancel_recovered_jobs`: tasks of recovered jobs are asked to cancel. */
  function Cancelling(slots: seq<Slot>, recovered: seq<Id>): (r: seq<Slot>)
    ensures |r| == |slots|
  {
    seq(|slots|, i requires 0 <= i < |slots| =>
      if slots[i].claim.Some? && slots[i].claim.value.jobId in recovered then slots[i].(cancelling := true)
      else slots[i])
  }

  function Recover(st: State, recovered: seq<Id>): State {
    st.(stale := WithStale(st.stale, recovered), slots := Cancelling(st.slots, recovered))
  }

  /** The claiming loop and the cursor's move. */
  function Claimed(limit: nat, st: State, answers: Id -> ClaimAnswer): Filling
    requires st.cursor < 3
  {
    Fill(st.slots, ClaimOrder(Roles(st.slots), st.cursor), limit, answers)
  }

  function Lend(limit: nat, st: State, answers: Id -> ClaimAnswer): State
    requires st.cursor < 3
  {
    var f := Claimed(limit, st, answers);
    st.(slots := f.slots, cursor := NextCursor(st.cursor, f), lent := st.lent + Held(f.slots))
  }

  /** `run_once` */
  function Ticked(limit: nat, st: State, recovered: seq<Id>, answers: Id -> ClaimAnswer): State
    requires st.cursor < 3
  {
    Lend(limit, Reap(Recover(st, recovered)), answers)
  }

  predicate AtWork(st: State, i: nat) {
    i < |st.slots| && st.slots[i].claim.Some? && st.slots[i].end.None?
  }

  /** The task of slot i ends. */
  function EndClaim(st: State, i: nat, a: Answers): State
    requires AtWork(st, i)
  {
    var claim := st.slots[i].claim.value;
    var s := Settle(claim, st.stale, a);
    st.(slots := st.slots[i := st.slots[i].(end := Some(s.end))], stale := s.stale,
        errors := st.errors + Reports(claim, s.errors),
        accepted := if s.accepted then st.accepted + {claim} else st.accepted)
  }

  // `shutdown`: cancel every task, await them all, give every claim back, recover, reap.

  function CancelAll(st: State): State {
    st.(slots := seq(|st.slots|, i requires 0 <= i < |st.slots| =>
          if st.slots[i].claim.Some? then st.slots[i].(cancelling := true) else st.slots[i]))
  }

  function EndAll(st: State, n: nat, ends: nat -> Answers): (r: State)
    requires n <= |st.slots|
    ensures |r.slots| == |st.slots|
  {
    if n == 0 then st
    else
      var before := EndAll(st, n - 1, ends);
      if AtWork(before, n - 1) then EndClaim(before, n - 1, ends(n - 1)) else before
  }

  datatype GivenBack = GivenBack(accepted: set<Claim>, errors: seq<Report>, rejected: seq<Id>)

  function GiveBack(st: State, n: nat, answers: nat -> Answer): GivenBack
    requires n <= |st.slots|
  {
    if n == 0 then GivenBack(st.accepted, st.errors, [])
    else
      var before, slot := GiveBack(st, n - 1, answers), st.slots[n - 1];
      if slot.claim.None? then before
      else
        match answers(n - 1)
        case Yes => before.(accepted := before.accepted + {slot.claim.value})
        case No => before.(rejected := before.rejected + [slot.claim.value.jobId])
        case Raises(error) =>
          before.(errors := before.errors + [Report(error, slot.claim)],
                  rejected := before.rejected + [slot.claim.value.jobId])
  }

  function Returning(st: State, answers: nat -> Answer, recovery: Option<seq<Id>>): State {
    var r := GiveBack(st, |st.slots|, answers);
    st.(accepted := r.accepted,
        errors := if recovery.Some? then r.errors else r.errors + [Report(RECOVERY_FAILED, None)],
        stale := WithStale(if recovery.Some? then WithStale(st.stale, recovery.value) else st.stale, r.rejected))
  }

  function Shut(st: State, ends: nat -> Answers, answers: nat -> Answer, recovery: Option<seq<Id>>): State {
    var cancelled := CancelAll(st);
    Reap(Returning(EndAll(cancelled, |cancelled.slots|, ends), answers, recovery))
  }

  datatype Event =
    | Ticks(recovered: seq<Id>, claims: Id -> ClaimAnswer)
    | ClaimEnds(slot: nat, answers: Answers)
    | ShutsDown(ends: nat -> Answers, interrupts: nat -> Answer, recovery: Option<seq<Id>>)

  /** A task ends as cancelled only when it was asked to. */
  predicate Possible(st: State, e: Event) {
    match e
    case Ticks(_, _) => st.cursor < 3
    case ClaimEnds(i, a) => AtWork(st, i) && (a.work == WasCancelled ==> st.slots[i].cancelling)
    case ShutsDown(_, _, _) => true
  }

  function After(limit: nat, st: State, e: Event): State
    requires Possible(st, e)
  {
    match e
    case Ticks(recovered, claims) => Ticked(limit, st, recovered, claims)
    case ClaimEnds(i, a) => EndClaim(st, i, a)
    case ShutsDown(ends, interrupts, recovery) => Shut(st, ends, interrupts, recovery)
  }

  /** The state after events; None when one of them was not possible. */
  function Run(limit: nat, start: State, events: seq<Event>): Option<State> {
    if events == [] then Some(start)
    else
      var before := Run(limit, start, events[..|events| - 1]);
      if before.Some? && Possible(before.value, events[|events| - 1])
      then Some(After(limit, before.value, events[|events| - 1])) else None
  }

  // ----- Accounting -----

  /** The claim has an accepted outcome, its job is known to be stale, or one of the errors is its. */
  predicate Accounted(st: State, c: Claim) {
    c in st.accepted || c.jobId in st.stale || exists r | r in st.errors :: r.claim == Some(c)
  }

  /** Nothing accounted for is forgotten. */
  ghost predicate Remembers(st: State, after: State) {
    && st.accepted <= after.accepted
    && (forall id | id in st.stale :: id in after.stale)
    && (forall r | r in st.errors :: r in after.errors)
  }

  lemma AccountedStays(st: State, after: State, c: Claim)
    requires Remembers(st, after) && Accounted(st, c)
    ensures Accounted(after, c)
  {
  }

  /** A task that ended has accounted for its claim, or was cancelled as asked, or hands its exception to the reaper. */
  predicate EndIsSound(st: State, slot: Slot) {
    slot.end.Some? && slot.claim.Some? ==>
      (slot.end.value == Ended ==> Accounted(st, slot.claim.value))
      && (slot.end.value == CancelledTask ==> slot.cancelling)
  }

  predicate SlotIsSound(st: State, slot: Slot) {
    && (slot.claim.None? ==> slot.end.None? && !slot.cancelling)
    && (slot.claim.Some? && slot.cancelling ==> slot.claim.value.jobId in st.stale)
    && EndIsSound(st, slot)
  }

  ghost predicate Sound(st: State) {
    && (forall i | 0 <= i < |st.slots| :: SlotIsSound(st, st.slots[i]))
    && (forall c | c in st.left :: Accounted(st, c))
    && st.lent == st.left + Held(st.slots)
  }

  // A reap accounts for what leaves.

  lemma {:induction false} EscapesAreReported(slots: seq<Slot>, n: nat, i: nat)
    requires i < n <= |slots| && slots[i].end.Some? && slots[i].end.value.Escaped?
    ensures Report(slots[i].end.value.error, slots[i].claim) in Escapes(slots, n)
  {
    if i < n - 1 {
      EscapesAreReported(slots, n - 1, i);
    }
  }

  lemma ReapRemembers(st: State)
    ensures Remembers(st, Reap(st))
  {
  }

  /** What the reaper needs of a finished slot. */
  predicate MayLeave(st: State, slot: Slot) {
    slot.claim.Some? && slot.end.Some? ==> slot.end.value.Escaped? || Accounted(st, slot.claim.value)
  }

  lemma LeavingIsAccounted(st: State, i: nat)
    requires i < |st.slots| && st.slots[i].claim.Some? && st.slots[i].end.Some? && MayLeave(st, st.slots[i])
    ensures Accounted(Reap(st), st.slots[i].claim.value)
  {
    if st.slots[i].end.value.Escaped? {
      EscapesAreReported(st.slots, |st.slots|, i);
      assert Report(st.slots[i].end.value.error, st.slots[i].claim) in Reap(st).errors;
    } else {
      ReapRemembers(st);
      AccountedStays(st, Reap(st), st.slots[i].claim.value);
    }
  }

  lemma ReapedHold(st: State)
    ensures Held(Reap(st).slots) + Finished(st.slots) == Held(st.slots)
  {
    var reaped := Reap(st).slots;
    forall c
      ensures c in Held(st.slots) <==> c in Held(reaped) || c in Finished(st.slots)
    {
      if c in Held(st.slots) {
        var i :| 0 <= i < |st.slots| && st.slots[i].claim == Some(c);
        if st.slots[i].end.None? {
          assert reaped[i].claim == Some(c);
        }
      }
      if c in Held(reaped) {
        var i :| 0 <= i < |reaped| && reaped[i].claim == Some(c);
        assert st.slots[i].claim == Some(c);
      }
    }
  }

  lemma LeftIsAccounted(st: State)
    requires forall i | 0 <= i < |st.slots| :: MayLeave(st, st.slots[i])
    requires forall c | c in st.left :: Accounted(st, c)
    ensures forall c | c in Reap(st).left :: Accounted(Reap(st), c)
  {
    ReapRemembers(st);
    forall c | c in Reap(st).left
      ensures Accounted(Reap(st), c)
    {
      if c in st.left {
        AccountedStays(st, Reap(st), c);
      } else {
        var i :| 0 <= i < |st.slots| && st.slots[i].claim == Some(c) && st.slots[i].end.Some?;
        LeavingIsAccounted(st, i);
      }
    }
  }

  lemma ReapKeeps(st: State)
    requires Sound(st)
    ensures Sound(Reap(st))
  {
    forall i | 0 <= i < |st.slots|
      ensures MayLeave(st, st.slots[i]) && SlotIsSound(Reap(st), Reap(st).slots[i])
    {
      assert SlotIsSound(st, st.slots[i]);
    }
    LeftIsAccounted(st);
    ReapedHold(st);
  }

  // The other parts of a tick.

  lemma SlotStaysSound(st: State, after: State, slot: Slot)
    requires SlotIsSound(st, slot) && Remembers(st, after)
    ensures SlotIsSound(after, slot)
  {
    if slot.claim.Some? && Accounted(st, slot.claim.value) {
      AccountedStays(st, after, slot.claim.value);
    }
  }

  lemma LeftStaysAccounted(st: State, after: State)
    requires (forall c | c in st.left :: Accounted(st, c)) && Remembers(st, after)
    ensures forall c | c in st.left :: Accounted(after, c)
  {
    forall c | c in st.left
      ensures Accounted(after, c)
    {
      AccountedStays(st, after, c);
    }
  }

  lemma SameClaimsHeld(slots: seq<Slot>, others: seq<Slot>)
    requires |slots| == |others| && forall i | 0 <= i < |slots| :: slots[i].claim == others[i].claim
    ensures Held(slots) == Held(others)
  {
    forall c
      ensures c in Held(slots) <==> c in Held(others)
    {
      if i :| 0 <= i < |slots| && slots[i].claim == Some(c) {
        assert others[i].claim == Some(c);
      }
      if i :| 0 <= i < |others| && others[i].claim == Some(c) {
        assert slots[i].claim == Some(c);
      }
    }
  }

  lemma RecoverKeeps(st: State, recovered: seq<Id>)
    requires Sound(st)
    ensures Sound(Recover(st, recovered))
  {
    var after := Recover(st, recovered);
    assert Remembers(st, after);
    forall i | 0 <= i < |st.slots|
      ensures SlotIsSound(after, after.slots[i])
    {
      SlotStaysSound(st, after, st.slots[i]);
    }
    LeftStaysAccounted(st, after);
    SameClaimsHeld(st.slots, after.slots);
  }

  /** The loop touches no slot in use, and lends free ones afresh. */
  lemma {:induction false} FillLends(slots: seq<Slot>, order: seq<nat>, limit: nat, answers: Id -> ClaimAnswer, i: nat)
    requires i < |slots| && i < |Fill(slots, order, limit, answers).slots|
    ensures var slot := Fill(slots, order, limit, answers).slots[i];
            slot == slots[i] || (Free(slots[i]) && slot.claim.Some? && slot == slots[i].Lend(slot.claim.value))
  {
    if order != [] {
      var n := |order| - 1;
      FillKeeps(slots, order[..n], limit, answers);
      FillLends(slots, order[..n], limit, answers, i);
    }
  }

  lemma LendKeeps(limit: nat, st: State, answers: Id -> ClaimAnswer)
    requires Sound(st) && st.cursor < 3
    ensures Sound(Lend(limit, st, answers))
  {
    var after, order := Lend(limit, st, answers), ClaimOrder(Roles(st.slots), st.cursor);
    FillKeeps(st.slots, order, limit, answers);
    forall i | 0 <= i < |after.slots|
      ensures SlotIsSound(after, after.slots[i])
    {
      FillLends(st.slots, order, limit, answers, i);
      SlotStaysSound(st, after, st.slots[i]);
    }
    LeftStaysAccounted(st, after);
    forall c | c in Held(st.slots)
      ensures c in Held(after.slots)
    {
      var i :| 0 <= i < |st.slots| && st.slots[i].claim == Some(c);
      FillLends(st.slots, order, limit, answers, i);
      assert after.slots[i].claim == Some(c);
    }
  }

  lemma TickKeeps(limit: nat, st: State, recovered: seq<Id>, answers: Id -> ClaimAnswer)
    requires Sound(st) && st.cursor < 3
    ensures Sound(Ticked(limit, st, recovered, answers))
  {
    RecoverKeeps(st, recovered);
    ReapKeeps(Recover(st, recovered));
    LendKeeps(limit, Reap(Recover(st, recovered)), answers);
  }

  // The end of a claim.

  lemma EndRemembers(st: State, i: nat, a: Answers)
    requires AtWork(st, i)
    ensures Remembers(st, EndClaim(st, i, a))
  {
    SettledIsAccounted(st.slots[i].claim.value, st.stale, a);
  }

  lemma EndIsAccounted(st: State, i: nat, a: Answers)
    requires AtWork(st, i) && (a.work == WasCancelled ==> st.slots[i].cancelling)
    ensures EndIsSound(EndClaim(st, i, a), EndClaim(st, i, a).slots[i])
  {
    var claim, after := st.slots[i].claim.value, EndClaim(st, i, a);
    var s := Settle(claim, st.stale, a);
    SettledIsAccounted(claim, st.stale, a);
    if s.errors != [] {
      assert Reports(claim, s.errors)[0] in after.errors;
    }
  }

  lemma EndKeeps(st: State, i: nat, a: Answers)
    requires Sound(st) && AtWork(st, i) && (a.work == WasCancelled ==> st.slots[i].cancelling)
    ensures Sound(EndClaim(st, i, a))
  {
    var after := EndClaim(st, i, a);
    EndRemembers(st, i, a);
    EndIsAccounted(st, i, a);
    forall k | 0 <= k < |after.slots|
      ensures SlotIsSound(after, after.slots[k])
    {
      SlotStaysSound(st, after, st.slots[k]);
    }
    LeftStaysAccounted(st, after);
    SameClaimsHeld(st.slots, after.slots);
  }

  // The shutdown.

  lemma {:induction false} EndAllEnds(st: State, n: nat, ends: nat -> Answers)
    requires n <= |st.slots|
    ensures var after := EndAll(st, n, ends);
            && Remembers(st, after) && after.left == st.left && after.lent == st.lent && after.cursor == st.cursor
            && (forall k | 0 <= k < |st.slots| :: after.slots[k].claim == st.slots[k].claim
                  && (k >= n ==> after.slots[k] == st.slots[k]))
            && (forall k | 0 <= k < n && st.slots[k].claim.Some? :: after.slots[k].end.Some?)
            && (forall k | 0 <= k < n && st.slots[k].claim.None? :: after.slots[k] == st.slots[k])
  {
    if n > 0 {
      EndAllEnds(st, n - 1, ends);
      var before := EndAll(st, n - 1, ends);
      if AtWork(before, n - 1) {
        EndRemembers(before, n - 1, ends(n - 1));
      }
    }
  }

  lemma {:induction false} GiveBackAccounts(st: State, n: nat, answers: nat -> Answer, i: nat)
    requires i < n <= |st.slots| && st.slots[i].claim.Some?
    ensures var r := GiveBack(st, n, answers);
            st.slots[i].claim.value in r.accepted || st.slots[i].claim.value.jobId in r.rejected
    ensures answers(i) == Yes ==> st.slots[i].claim.value in GiveBack(st, n, answers).accepted
    ensures answers(i) != Yes ==> st.slots[i].claim.value.jobId in GiveBack(st, n, answers).rejected
  {
    if i < n - 1 {
      GiveBackAccounts(st, n - 1, answers, i);
    }
  }

  lemma {:induction false} GiveBackRemembers(st: State, n: nat, answers: nat -> Answer)
    requires n <= |st.slots|
    ensures st.accepted <= GiveBack(st, n, answers).accepted
    ensures st.errors <= GiveBack(st, n, answers).errors
  {
    if n > 0 {
      GiveBackRemembers(st, n - 1, answers);
    }
  }

  lemma ReturningAccounts(st: State, answers: nat -> Answer, recovery: Option<seq<Id>>)
    ensures var after := Returning(st, answers, recovery);
            && Remembers(st, after) && after.slots == st.slots && after.left == st.left && after.lent == st.lent
            && forall i | 0 <= i < |st.slots| && st.slots[i].claim.Some? :: Accounted(after, st.slots[i].claim.value)
  {
    var after := Returning(st, answers, recovery);
    GiveBackRemembers(st, |st.slots|, answers);
    forall i | 0 <= i < |st.slots| && st.slots[i].claim.Some?
      ensures Accounted(after, st.slots[i].claim.value)
    {
      GiveBackAccounts(st, |st.slots|, answers, i);
    }
  }

  /** Once every claim was offered back, each slot that holds one has ended, and the reap frees it. */
  lemma OfferedSlots(st: State, ends: nat -> Answers, answers: nat -> Answer, recovery: Option<seq<Id>>)
    requires Sound(st)
    ensures var ended := EndAll(CancelAll(st), |st.slots|, ends);
            var given := Returning(ended, answers, recovery);
            && Remembers(st, given) && given.left == st.left && given.lent == st.lent && |given.slots| == |st.slots|
            && (forall i | 0 <= i < |st.slots| :: given.slots[i].claim == st.slots[i].claim)
            && (forall i | 0 <= i < |st.slots| :: MayLeave(given, given.slots[i]))
            && (forall i | 0 <= i < |st.slots| :: Free(Reaped(given.slots)[i]) && !Reaped(given.slots)[i].cancelling
                                                   && Reaped(given.slots)[i].end.None?)
  {
    var cancelled := CancelAll(st);
    EndAllEnds(cancelled, |st.slots|, ends);
    var ended := EndAll(cancelled, |st.slots|, ends);
    ReturningAccounts(ended, answers, recovery);
    forall i | 0 <= i < |st.slots|
      ensures SlotIsSound(st, st.slots[i])
    {
    }
  }

  /** After a shutdown every slot is free, and every claim ever lent is accounted for. */
  lemma ShutAccounts(st: State, ends: nat -> Answers, answers: nat -> Answer, recovery: Option<seq<Id>>)
    requires Sound(st)
    ensures var after := Shut(st, ends, answers, recovery);
            && Sound(after) && Held(after.slots) == {} && after.lent == st.lent == after.left
            && (forall c | c in after.lent :: Accounted(after, c))
            && (forall slot | slot in after.slots :: Free(slot))
  {
    OfferedSlots(st, ends, answers, recovery);
    var given := Returning(EndAll(CancelAll(st), |st.slots|, ends), answers, recovery);
    LeftStaysAccounted(st, given);
    SameClaimsHeld(st.slots, given.slots);
    LeftIsAccounted(given);
    ReapedHold(given);
  }

  // ----- Over every run -----

  lemma EventKeeps(limit: nat, st: State, e: Event)
    requires Sound(st) && Possible(st, e)
    ensures Sound(After(limit, st, e))
  {
    match e
    case Ticks(recovered, claims) => TickKeeps(limit, st, recovered, claims);
    case ClaimEnds(i, a) => EndKeeps(st, i, a);
    case ShutsDown(ends, interrupts, recovery) => ShutAccounts(st, ends, interrupts, recovery);
  }

  predicate Fresh(st: State) {
    && (forall i | 0 <= i < |st.slots| :: Free(st.slots[i]) && st.slots[i].end.None? && !st.slots[i].cancelling)
    && st.cursor == 0 && st.stale == [] && st.errors == [] && st.accepted == st.lent == st.left == {}
  }

  lemma FreshIsSound(st: State)
    requires Fresh(st)
    ensures Sound(st)
  {
  }

  lemma {:induction false} RunsAreSound(limit: nat, start: State, events: seq<Event>)
    requires Fresh(start) && Run(limit, start, events).Some?
    ensures Sound(Run(limit, start, events).value)
  {
    if events != [] {
      RunsAreSound(limit, start, events[..|events| - 1]);
      EventKeeps(limit, Run(limit, start, events[..|events| - 1]).value, events[|events| - 1]);
    }
  }

  /** Over every sequence of ticks, claim ends and shutdowns: each claim that was ever lent is still in a slot, or has
      an accepted outcome, or its job is recorded as stale, or one of the errors is its; and after a shutdown none is
      in a slot. */
  lemma EveryClaimIsAccounted(limit: nat, start: State, events: seq<Event>)
    requires Fresh(start) && Run(limit, start, events).Some?
    ensures var st := Run(limit, start, events).value;
            && (forall c | c in st.lent :: c in Held(st.slots) || Accounted(st, c))
            && (events != [] && events[|events| - 1].ShutsDown? ==> Held(st.slots) == {})
  {
    RunsAreSound(limit, start, events);
    if events != [] && events[|events| - 1].ShutsDown? {
      var before, last := events[..|events| - 1], events[|events| - 1];
      RunsAreSound(limit, start, before);
      ShutAccounts(Run(limit, start, before).value, last.ends, last.interrupts, last.recovery);
    }
  }

  // A worker that raises a cancellation of its own accord.

  lemma {:induction false} EscapesOfOthers(slots: seq<Slot>, n: nat, c: Claim)
    requires n <= |slots|
    requires forall k | 0 <= k < n && slots[k].claim == Some(c) :: slots[k].end != None && !slots[k].end.value.Escaped?
    ensures forall r | r in Escapes(slots, n) :: r.claim != Some(c)
  {
    if n > 0 {
      EscapesOfOthers(slots, n - 1, c);
    }
  }

  /** The condition is needed: a task that ends as cancelled although nobody asked leaves its slot in the next tick
      with no accepted outcome, no stale job and no error. */
  lemma UnaskedCancellationIsLost(limit: nat, st: State, i: nat, a: Answers)
    requires AtWork(st, i) && a.work == WasCancelled && st.cursor < 3 && !Accounted(st, st.slots[i].claim.value)
    requires forall k | 0 <= k < |st.slots| && k != i :: st.slots[k].claim != st.slots[i].claim
    ensures var c, after := st.slots[i].claim.value, Ticked(limit, EndClaim(st, i, a), [], _ => NoJob);
            c in after.left && c !in after.accepted && !Accounted(after, c)
  {
    var c := st.slots[i].claim.value;
    var ended := EndClaim(st, i, a);
    var recovered := Recover(ended, []);
    EscapesOfOthers(recovered.slots, |recovered.slots|, c);
    assert recovered.slots[i].claim == Some(c) && recovered.slots[i].end.Some?;
  }
}
