/** The claiming loop of `Scheduler.run_once`: free slots are lent to claims in claim order, and no role starves. */
module ClaimLoop {
  import opened Processes
  import opened Models
  import opened RoleLanes

  type Id = nat

  datatype Claim = Claim(jobId: Id, token: Id)

  /** How a slot's task ended; an exception that escapes it is kept for the reaper. */
  datatype TaskEnd = Ended | CancelledTask | Escaped(error: string)

  /** A worker slot: free, or lent to a claim whose task may have been asked to cancel and may have ended. */
  datatype Slot = Slot(role: WorkerRole, worker: Id, claim: Option<Claim>, cancelling: bool, end: Option<TaskEnd>) {
    function Lend(claim: Claim): Slot {
      this.(claim := Some(claim), cancelling := false, end := None)
    }

    function Release(): Slot {
      this.(claim := None, cancelling := false, end := None)
    }
  }

  datatype ClaimAnswer = NoJob | Job(claim: Claim, role: WorkerRole, owner: Id)

  predicate Free(slot: Slot) {
    slot.claim.None?
  }

  function Roles(slots: seq<Slot>): (r: seq<WorkerRole>)
    ensures |r| == |slots| && forall i :: 0 <= i < |slots| ==> r[i] == slots[i].role
  {
    seq(|slots|, i requires 0 <= i < |slots| => slots[i].role)
  }

  function Active(slots: seq<Slot>): nat {
    if slots == [] then 0
    else Active(slots[..|slots| - 1]) + if Free(slots[|slots| - 1]) then 0 else 1
  }

  // ---- The claiming loop ----

  /** The loop's variables: the slots, the number of claims, the role of the last one, and whether it raised. */
  datatype Filling = Filling(slots: seq<Slot>, claims: nat, last: Option<WorkerRole>, raised: bool)

  predicate ValidClaim(slot: Slot, answer: ClaimAnswer) {
    answer.Job? && answer.role == slot.role && answer.owner == slot.worker
  }

  /** One turn of the loop; once the limit is reached no later turn does anything. */
  function FillOne(f: Filling, i: nat, limit: nat, answers: Id -> ClaimAnswer): Filling {
    if f.raised || i >= |f.slots| || Active(f.slots) >= limit || !Free(f.slots[i]) then f
    else
      match answers(i)
      case NoJob => f
      case Job(claim, _, _) =>
        if !ValidClaim(f.slots[i], answers(i)) then f.(raised := true)
        else
          Filling(f.slots[i := f.slots[i].Lend(claim)], f.claims + 1, Some(f.slots[i].role), false)
  }

  function Fill(slots: seq<Slot>, order: seq<nat>, limit: nat, answers: Id -> ClaimAnswer): Filling {
    if order == [] then Filling(slots, 0, None, false)
    else FillOne(Fill(slots, order[..|order| - 1], limit, answers), order[|order| - 1], limit, answers)
  }

  function NextCursor(cursor: nat, f: Filling): (r: nat)
    requires cursor < 3
    ensures r < 3
  {
    if f.raised || f.last.None? then cursor else CursorAfter(f.last.value)
  }

  lemma {:induction false} ActiveUpdate(slots: seq<Slot>, i: nat, slot: Slot)
    requires i < |slots| && Free(slots[i]) && !Free(slot)
    ensures Active(slots[i := slot]) == Active(slots) + 1
  {
    var n := |slots| - 1;
    if i == n {
      assert slots[i := slot][..n] == slots[..n];
    } else {
      ActiveUpdate(slots[..n], i, slot);
      assert slots[i := slot][..n] == slots[..n][i := slot];
    }
  }

  /** What one tick keeps: roles and workers, the slots in use, and the global limit. */
  lemma {:induction false} FillKeeps(slots: seq<Slot>, order: seq<nat>, limit: nat, answers: Id -> ClaimAnswer)
    ensures var f := Fill(slots, order, limit, answers);
            && |f.slots| == |slots|
            && (forall i :: 0 <= i < |slots| ==>
                  f.slots[i].role == slots[i].role && f.slots[i].worker == slots[i].worker
                  && (!Free(slots[i]) ==> f.slots[i] == slots[i]))
            && Active(f.slots) == Active(slots) + f.claims
            && (Active(slots) <= limit ==> Active(f.slots) <= limit)
            && (f.claims > 0 <==> f.last.Some?)
  {
    if order != [] {
      var n := |order| - 1;
      FillKeeps(slots, order[..n], limit, answers);
      var f := Fill(slots, order[..n], limit, answers);
      var i := order[n];
      if i < |f.slots| && Free(f.slots[i]) && answers(i).Job? {
        ActiveUpdate(f.slots, i, f.slots[i].Lend(answers(i).claim));
      }
    }
  }

  // ---- Fairness ----

  /** A slot whose role the store would serve, by a valid claim, whenever asked. */
  predicate Served(slots: seq<Slot>, answers: Id -> ClaimAnswer, i: nat)
    requires i < |slots|
  {
    ValidClaim(slots[i], answers(i))
  }

  /** The role's first lane slot. */
  predicate FirstLane(slots: seq<Slot>, role: WorkerRole, i: nat) {
    var mine := SlotsOf(Roles(slots), role);
    mine != [] && mine[0] == i
  }

  /** A listing only grows. */
  lemma {:induction false} ListingGrows(slots: seq<WorkerRole>, cursor: nat, lane: nat, position: nat,
                                        lane': nat, position': nat)
    requires cursor < 3 && position <= 3 && position' <= 3
    requires lane < lane' || (lane == lane' && position <= position')
    ensures Listed(slots, cursor, lane, position) <= Listed(slots, cursor, lane', position')
    decreases lane', position'
  {
    if lane != lane' || position != position' {
      if position' > 0 {
        ListingGrows(slots, cursor, lane, position, lane', position' - 1);
      } else {
        ListingGrows(slots, cursor, lane, position, lane' - 1, 3);
      }
    }
  }

  lemma {:induction false} FirstLaneRoles(slots: seq<WorkerRole>, cursor: nat, position: nat)
    requires cursor < 3 && position <= 3
    ensures forall i <- Listed(slots, cursor, 0, position) :: i < |slots| && Distance(cursor, slots[i]) < position
  {
    if position > 0 {
      FirstLaneRoles(slots, cursor, position - 1);
    }
  }

  /** The listing before a role's first slot holds only first-lane slots of roles nearer to the cursor. */
  lemma FirstSlotPosition(slots: seq<WorkerRole>, cursor: nat, role: WorkerRole)
    returns (before: seq<nat>, after: seq<nat>)
    requires cursor < 3 && SlotsOf(slots, role) != []
    ensures ClaimOrder(slots, cursor) == before + [SlotsOf(slots, role)[0]] + after
    ensures forall i <- before :: i < |slots| && Distance(cursor, slots[i]) < Distance(cursor, role)
  {
    var d := Distance(cursor, role);
    before := Listed(slots, cursor, 0, d);
    FirstLaneRoles(slots, cursor, d);
    FirstTurn(slots, cursor, role);
    ListingGrows(slots, cursor, 0, d + 1, MaxLanes(slots), 0);
    after := ClaimOrder(slots, cursor)[|before| + 1..];
    PrefixSplits(before + [SlotsOf(slots, role)[0]], ClaimOrder(slots, cursor));
  }

  lemma FirstTurn(slots: seq<WorkerRole>, cursor: nat, role: WorkerRole)
    requires cursor < 3 && SlotsOf(slots, role) != []
    ensures Listed(slots, cursor, 0, Distance(cursor, role) + 1)
            == Listed(slots, cursor, 0, Distance(cursor, role)) + [SlotsOf(slots, role)[0]]
  {
    assert Entry(slots, role, 0) == [SlotsOf(slots, role)[0]];
  }

  lemma PrefixSplits(prefix: seq<nat>, whole: seq<nat>)
    requires prefix <= whole
    ensures whole == prefix + whole[|prefix|..]
  {
  }

  /** Slots outside the listing are untouched, and the last claim is one of the listed roles. */
  lemma {:induction false} FillTouches(slots: seq<Slot>, order: seq<nat>, limit: nat, answers: Id -> ClaimAnswer)
    ensures var f := Fill(slots, order, limit, answers);
            && |f.slots| == |slots|
            && (forall i :: 0 <= i < |slots| && i !in order ==> f.slots[i] == slots[i])
            && (f.last.Some? ==> exists i <- order :: i < |slots| && slots[i].role == f.last.value)
  {
    FillKeeps(slots, order, limit, answers);
    if order != [] {
      var n := |order| - 1;
      FillTouches(slots, order[..n], limit, answers);
      FillKeeps(slots, order[..n], limit, answers);
      assert order == order[..n] + [order[n]];
      assert order[n] in order;
    }
  }

  lemma {:induction false} FullStaysFull(slots: seq<Slot>, order: seq<nat>, more: seq<nat>, limit: nat,
                                         answers: Id -> ClaimAnswer)
    requires var f := Fill(slots, order, limit, answers); Active(f.slots) >= limit || f.raised
    ensures Fill(slots, order + more, limit, answers) == Fill(slots, order, limit, answers)
  {
    if more == [] {
      assert order + more == order;
    } else {
      var n := |more| - 1;
      FullStaysFull(slots, order, more[..n], limit, answers);
      assert (order + more)[..|order| + n] == order + more[..n];
    }
  }

  lemma {:induction false} ClaimStays(slots: seq<Slot>, order: seq<nat>, more: seq<nat>, limit: nat,
                                      answers: Id -> ClaimAnswer, i: nat)
    requires i < |slots| == |Fill(slots, order, limit, answers).slots|
             && !Free(Fill(slots, order, limit, answers).slots[i])
    ensures |Fill(slots, order + more, limit, answers).slots| == |slots|
    ensures !Free(Fill(slots, order + more, limit, answers).slots[i])
  {
    if more == [] {
      assert order + more == order;
    } else {
      var n := |more| - 1;
      ClaimStays(slots, order, more[..n], limit, answers, i);
      assert (order + more)[..|order| + n] == order + more[..n];
    }
  }

  predicate NeverRaises(slots: seq<Slot>, answers: Id -> ClaimAnswer) {
    forall i :: 0 <= i < |slots| ==> answers(i) == NoJob || ValidClaim(slots[i], answers(i))
  }

  lemma {:induction false} NoRaise(slots: seq<Slot>, order: seq<nat>, limit: nat, answers: Id -> ClaimAnswer)
    requires NeverRaises(slots, answers)
    ensures !Fill(slots, order, limit, answers).raised
  {
    if order != [] {
      var n := |order| - 1;
      NoRaise(slots, order[..n], limit, answers);
      FillKeeps(slots, order[..n], limit, answers);
    }
  }

  /** The limit was reached before the role's turn: every claim went to a role nearer to the cursor. */
  lemma FullBeforeTurn(slots: seq<Slot>, cursor: nat, limit: nat, answers: Id -> ClaimAnswer, role: WorkerRole,
                       before: seq<nat>, rest: seq<nat>)
    requires cursor < 3 && NeverRaises(slots, answers)
    requires forall j <- before :: j < |slots| && Distance(cursor, slots[j].role) < Distance(cursor, role)
    requires Active(Fill(slots, before, limit, answers).slots) >= limit
    ensures var f := Fill(slots, before + rest, limit, answers);
            if f.claims > 0 then Distance(NextCursor(cursor, f), role) < Distance(cursor, role)
            else NextCursor(cursor, f) == cursor
  {
    FullStaysFull(slots, before, rest, limit, answers);
    FillTouches(slots, before, limit, answers);
    FillKeeps(slots, before, limit, answers);
    NoRaise(slots, before, limit, answers);
    var f := Fill(slots, before, limit, answers);
    if f.last.Some? {
      var j :| j in before && j < |slots| && slots[j].role == f.last.value;
      CursorApproaches(cursor, slots[j].role, role);
    }
  }

  lemma ServedInTurn(slots: seq<Slot>, limit: nat, answers: Id -> ClaimAnswer, before: seq<nat>, i: nat,
                     after: seq<nat>)
    requires i < |slots| && i !in before && Free(slots[i]) && Served(slots, answers, i) && NeverRaises(slots, answers)
    requires Active(Fill(slots, before, limit, answers).slots) < limit
    ensures var f := Fill(slots, before + [i] + after, limit, answers); |f.slots| == |slots| && !Free(f.slots[i])
  {
    FillTouches(slots, before, limit, answers);
    NoRaise(slots, before, limit, answers);
    FillKeeps(slots, before, limit, answers);
    assert (before + [i])[..|before|] == before;
    FillKeeps(slots, before + [i], limit, answers);
    ClaimStays(slots, before + [i], after, limit, answers, i);
  }

  /** In a tick, a role whose first slot is free and which the store would serve is either claimed for, or all claims
      of the tick went to roles nearer to the cursor and the role moves strictly nearer itself. */
  lemma TickServesOrAdvances(slots: seq<Slot>, cursor: nat, limit: nat, answers: Id -> ClaimAnswer, role: WorkerRole,
                             i: nat)
    requires cursor < 3 && FirstLane(slots, role, i) && Free(slots[i])
    requires Served(slots, answers, i) && NeverRaises(slots, answers)
    ensures var f := Fill(slots, ClaimOrder(Roles(slots), cursor), limit, answers);
            && |f.slots| == |slots|
            && (Free(f.slots[i]) ==>
                  if f.claims > 0 then Distance(NextCursor(cursor, f), role) < Distance(cursor, role)
                  else NextCursor(cursor, f) == cursor)
  {
    var before, after := FirstSlotPosition(Roles(slots), cursor, role);
    TurnServesOrAdvances(slots, cursor, limit, answers, role, before, i, after);
  }

  lemma TurnServesOrAdvances(slots: seq<Slot>, cursor: nat, limit: nat, answers: Id -> ClaimAnswer, role: WorkerRole,
                             before: seq<nat>, i: nat, after: seq<nat>)
    requires cursor < 3 && i < |slots| && slots[i].role == role && Free(slots[i])
    requires Served(slots, answers, i) && NeverRaises(slots, answers)
    requires forall j <- before :: j < |slots| && Distance(cursor, slots[j].role) < Distance(cursor, role)
    ensures var f := Fill(slots, before + [i] + after, limit, answers);
            && |f.slots| == |slots|
            && (Free(f.slots[i]) ==>
                  if f.claims > 0 then Distance(NextCursor(cursor, f), role) < Distance(cursor, role)
                  else NextCursor(cursor, f) == cursor)
  {
    if Active(Fill(slots, before, limit, answers).slots) >= limit {
      FullBeforeTurn(slots, cursor, limit, answers, role, before, [i] + after);
      assert before + [i] + after == before + ([i] + after);
      FillKeeps(slots, before + [i] + after, limit, answers);
    } else {
      ServedInTurn(slots, limit, answers, before, i, after);
    }
  }

  /** One tick: the slots after the reap that precedes claiming, and the store's answers. */
  datatype Tick = Tick(slots: seq<Slot>, cursor: nat, answers: Id -> ClaimAnswer)

  function Filled(t: Tick, limit: nat): Filling
    requires t.cursor < 3
  {
    Fill(t.slots, ClaimOrder(Roles(t.slots), t.cursor), limit, t.answers)
  }

  /** A run of ticks in which a role always has its first slot free and would be served, yet is never claimed for.
      Between ticks tasks may finish and free other slots. */
  ghost predicate Starving(ticks: seq<Tick>, limit: nat, role: WorkerRole, i: nat) {
    && (forall k :: 0 <= k < |ticks| ==>
          && ticks[k].cursor < 3 && FirstLane(ticks[k].slots, role, i)
          && i < |ticks[k].slots| && Free(ticks[k].slots[i])
          && Served(ticks[k].slots, ticks[k].answers, i) && NeverRaises(ticks[k].slots, ticks[k].answers)
          && |Filled(ticks[k], limit).slots| > i && Free(Filled(ticks[k], limit).slots[i]))
    && (forall k :: 0 <= k < |ticks| - 1 ==>
          ticks[k + 1].cursor == NextCursor(ticks[k].cursor, Filled(ticks[k], limit)))
  }

  function ClaimingTicks(ticks: seq<Tick>, limit: nat): nat
    requires forall k :: 0 <= k < |ticks| ==> ticks[k].cursor < 3
  {
    if ticks == [] then 0
    else (if Filled(ticks[0], limit).claims > 0 then 1 else 0) + ClaimingTicks(ticks[1..], limit)
  }

  lemma {:induction false} StarvationIsBounded(ticks: seq<Tick>, limit: nat, role: WorkerRole, i: nat)
    requires Starving(ticks, limit, role, i) && ticks != []
    ensures ClaimingTicks(ticks, limit) <= Distance(ticks[0].cursor, role)
  {
    var t := ticks[0];
    TickServesOrAdvances(t.slots, t.cursor, limit, t.answers, role, i);
    var rest := ticks[1..];
    if rest == [] {
      assert ClaimingTicks(rest, limit) == 0;
    } else {
      assert rest[0].cursor == NextCursor(t.cursor, Filled(t, limit));
      StarvationIsBounded(rest, limit, role, i);
    }
  }

  /** Such a role is claimed for within three claiming ticks. */
  lemma ServedWithinThreeClaimingTicks(ticks: seq<Tick>, limit: nat, role: WorkerRole, i: nat)
    requires Starving(ticks, limit, role, i)
    ensures ClaimingTicks(ticks, limit) < 3
  {
    if ticks != [] {
      StarvationIsBounded(ticks, limit, role, i);
    }
  }
}
