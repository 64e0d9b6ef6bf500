/** `Scheduler._claim_order` and the claiming loop of `run_once`: lanes interleave the roles, a cursor rotates them. */
module RoleLanes {
  import opened Models

  /** `tuple(WorkerRole)` */
  const ROLES := [Investigator, Fixer, Tester]

  function RoleIndex(role: WorkerRole): (i: nat)
    ensures i < 3 && ROLES[i] == role
  {
    match role
    case Investigator => 0
    case Fixer => 1
    case Tester => 2
  }

  /** `roles[cursor:] + roles[:cursor]` */
  function OrderedRoles(cursor: nat): (r: seq<WorkerRole>)
    requires cursor < 3
    ensures |r| == 3
  {
    ROLES[cursor..] + ROLES[..cursor]
  }

  lemma OrderedRolesAre(cursor: nat)
    requires cursor < 3
    ensures OrderedRoles(cursor) ==
            if cursor == 0 then [Investigator, Fixer, Tester]
            else if cursor == 1 then [Fixer, Tester, Investigator]
            else [Tester, Investigator, Fixer]
  {
    assert ROLES[..0] == [] && ROLES[..1] == [Investigator] && ROLES[..2] == [Investigator, Fixer];
    assert ROLES[0..] == ROLES && ROLES[1..] == [Fixer, Tester] && ROLES[2..] == [Tester];
  }

  /** The rotated distance of a role from the cursor: its index in OrderedRoles. */
  function Distance(cursor: nat, role: WorkerRole): (d: nat)
    requires cursor < 3
    ensures d < 3 && OrderedRoles(cursor)[d] == role
    ensures forall i :: 0 <= i < 3 && OrderedRoles(cursor)[i] == role ==> i == d
  {
    OrderedRolesAre(cursor);
    if cursor <= RoleIndex(role) then RoleIndex(role) - cursor else RoleIndex(role) + 3 - cursor
  }

  /** `(roles.index(last) + 1) % len(roles)` */
  function CursorAfter(last: WorkerRole): (r: nat)
    ensures r < 3
  {
    if RoleIndex(last) == 2 then 0 else RoleIndex(last) + 1
  }

  /** Rotating past a nearer role brings a role strictly nearer. */
  lemma CursorApproaches(cursor: nat, last: WorkerRole, role: WorkerRole)
    requires cursor < 3 && Distance(cursor, last) < Distance(cursor, role)
    ensures Distance(CursorAfter(last), role) < Distance(cursor, role)
  {
  }

  function SlotsBefore(slots: seq<WorkerRole>, n: nat, role: WorkerRole): (r: seq<nat>)
    requires n <= |slots|
    ensures |r| <= n && forall i :: 0 <= i < |r| ==> r[i] < n && slots[r[i]] == role
  {
    if n == 0 then [] else SlotsBefore(slots, n - 1, role) + if slots[n - 1] == role then [n - 1] else []
  }

  /** The indices of the slots of one role, in slot order; `slots` gives each slot's role. */
  function SlotsOf(slots: seq<WorkerRole>, role: WorkerRole): (r: seq<nat>)
    ensures |r| <= |slots| && forall i :: 0 <= i < |r| ==> r[i] < |slots| && slots[r[i]] == role
  {
    SlotsBefore(slots, |slots|, role)
  }

  function Max(a: nat, b: nat): nat {
    if a < b then b else a
  }

  function MaxLanes(slots: seq<WorkerRole>): nat {
    Max(|SlotsOf(slots, Investigator)|, Max(|SlotsOf(slots, Fixer)|, |SlotsOf(slots, Tester)|))
  }

  function Entry(slots: seq<WorkerRole>, role: WorkerRole, lane: nat): seq<nat> {
    if lane < |SlotsOf(slots, role)| then [SlotsOf(slots, role)[lane]] else []
  }

  /** What the double loop has listed when it comes to a lane and a position among the ordered roles. */
  function Listed(slots: seq<WorkerRole>, cursor: nat, lane: nat, position: nat): seq<nat>
    requires cursor < 3 && position <= 3
    decreases lane, position
  {
    if position > 0 then
      Listed(slots, cursor, lane, position - 1) + Entry(slots, OrderedRoles(cursor)[position - 1], lane)
    else if lane > 0 then
      Listed(slots, cursor, lane - 1, 3)
    else
      []
  }

  function ClaimOrder(slots: seq<WorkerRole>, cursor: nat): seq<nat>
    requires cursor < 3
  {
    Listed(slots, cursor, MaxLanes(slots), 0)
  }

  // ---- A fair permutation ----

  /** Of the first n entries those of one role. */
  function OfRoleBefore(slots: seq<WorkerRole>, order: seq<nat>, n: nat, role: WorkerRole): seq<nat>
    requires n <= |order|
  {
    if n == 0 then []
    else
      var last := order[n - 1];
      OfRoleBefore(slots, order, n - 1, role) + if last < |slots| && slots[last] == role then [last] else []
  }

  /** The entries of one role, in order of appearance. */
  function OfRole(slots: seq<WorkerRole>, order: seq<nat>, role: WorkerRole): seq<nat> {
    OfRoleBefore(slots, order, |order|, role)
  }

  lemma {:induction false} OfRoleLocal(slots: seq<WorkerRole>, a: seq<nat>, b: seq<nat>, n: nat, role: WorkerRole)
    requires n <= |a| && n <= |b| && forall i | 0 <= i < n :: a[i] == b[i]
    ensures OfRoleBefore(slots, a, n, role) == OfRoleBefore(slots, b, n, role)
  {
    if n > 0 {
      OfRoleLocal(slots, a, b, n - 1, role);
    }
  }

  lemma OfRoleExtends(slots: seq<WorkerRole>, order: seq<nat>, entry: seq<nat>, role: WorkerRole)
    requires |entry| <= 1
    ensures OfRole(slots, order + entry, role) == OfRole(slots, order, role) + OfRole(slots, entry, role)
  {
    OfRoleLocal(slots, order, order + entry, |order|, role);
    if entry == [] {
      assert OfRole(slots, order, role) + [] == OfRole(slots, order, role);
    } else {
      assert OfRoleBefore(slots, entry, 0, role) == [];
    }
  }

  lemma EntryOfRole(slots: seq<WorkerRole>, turn: WorkerRole, lane: nat, role: WorkerRole)
    ensures OfRole(slots, Entry(slots, turn, lane), role) == if turn == role then Entry(slots, role, lane) else []
  {
    var entry := Entry(slots, turn, lane);
    if entry != [] {
      assert OfRoleBefore(slots, entry, 0, role) == [];
    }
  }

  /** The first slots of a role, at most `turns` of them. */
  function Turns(slots: seq<WorkerRole>, role: WorkerRole, turns: nat): seq<nat> {
    var mine := SlotsOf(slots, role);
    mine[..if turns < |mine| then turns else |mine|]
  }

  lemma OneMoreTurn(slots: seq<WorkerRole>, role: WorkerRole, lane: nat)
    ensures Turns(slots, role, lane) + Entry(slots, role, lane) == Turns(slots, role, lane + 1)
  {
    var mine := SlotsOf(slots, role);
    if lane < |mine| {
      assert mine[..lane + 1] == mine[..lane] + [mine[lane]];
    } else {
      assert mine + [] == mine;
    }
  }

  lemma NextTurn(slots: seq<WorkerRole>, order: seq<nat>, turn: WorkerRole, lane: nat, role: WorkerRole)
    ensures OfRole(slots, order + Entry(slots, turn, lane), role)
         == if turn == role then OfRole(slots, order, role) + Entry(slots, role, lane) else OfRole(slots, order, role)
  {
    OfRoleExtends(slots, order, Entry(slots, turn, lane), role);
    EntryOfRole(slots, turn, lane, role);
    assert OfRole(slots, order, role) + [] == OfRole(slots, order, role);
  }

  /** How often a role's turn has come at (lane, position). */
  function TurnsDue(cursor: nat, lane: nat, position: nat, role: WorkerRole): nat
    requires cursor < 3
  {
    lane + if Distance(cursor, role) < position then 1 else 0
  }

  lemma TurnIsDue(cursor: nat, lane: nat, position: nat, role: WorkerRole)
    requires cursor < 3 && 0 < position <= 3
    ensures if OrderedRoles(cursor)[position - 1] == role
            then TurnsDue(cursor, lane, position - 1, role) == lane
                 && TurnsDue(cursor, lane, position, role) == lane + 1
            else TurnsDue(cursor, lane, position, role) == TurnsDue(cursor, lane, position - 1, role)
  {
  }

  /** At (lane, position) each role has been listed once per full lane, and once more if its turn in this lane is
      over. */
  lemma {:induction false} ListedByRole(slots: seq<WorkerRole>, cursor: nat, lane: nat, position: nat, role: WorkerRole)
    requires cursor < 3 && position <= 3
    ensures OfRole(slots, Listed(slots, cursor, lane, position), role)
         == Turns(slots, role, TurnsDue(cursor, lane, position, role))
    decreases lane, position
  {
    if position > 0 {
      ListedByRole(slots, cursor, lane, position - 1, role);
      TurnIsDue(cursor, lane, position, role);
      NextTurn(slots, Listed(slots, cursor, lane, position - 1), OrderedRoles(cursor)[position - 1], lane, role);
      OneMoreTurn(slots, role, lane);
    } else if lane > 0 {
      ListedByRole(slots, cursor, lane - 1, 3, role);
    }
  }

  lemma {:induction false} PrefixIsListed(slots: seq<WorkerRole>, cursor: nat, lane: nat, position: nat, k: nat)
    returns (lane': nat, position': nat)
    requires cursor < 3 && position <= 3 && k <= |Listed(slots, cursor, lane, position)|
    ensures position' <= 3 && Listed(slots, cursor, lane, position)[..k] == Listed(slots, cursor, lane', position')
    decreases lane, position
  {
    var listed := Listed(slots, cursor, lane, position);
    if k == |listed| {
      lane', position' := lane, position;
      assert listed[..k] == listed;
    } else if position > 0 {
      lane', position' := PrefixIsListed(slots, cursor, lane, position - 1, k);
      assert listed[..k] == Listed(slots, cursor, lane, position - 1)[..k];
    } else {
      lane', position' := PrefixIsListed(slots, cursor, lane - 1, 3, k);
    }
  }

  /** Each role's slots are listed completely and in their own order. */
  lemma OrderListsEveryRole(slots: seq<WorkerRole>, cursor: nat, role: WorkerRole)
    requires cursor < 3
    ensures OfRole(slots, ClaimOrder(slots, cursor), role) == SlotsOf(slots, role)
  {
    ListedByRole(slots, cursor, MaxLanes(slots), 0, role);
    var mine := SlotsOf(slots, role);
    assert mine[..|mine|] == mine;
  }

  lemma {:induction false} SlotsOfContains(slots: seq<WorkerRole>, n: nat, role: WorkerRole, i: nat)
    requires i < n <= |slots| && slots[i] == role
    ensures multiset(SlotsBefore(slots, n, role))[i] == 1
    decreases n
  {
    var before, last := SlotsBefore(slots, n - 1, role), if slots[n - 1] == role then [n - 1] else [];
    AppendCounts(before, last, i);
    if i == n - 1 {
      assert i !in before;
    } else {
      assert i !in last;
      SlotsOfContains(slots, n - 1, role, i);
    }
  }

  lemma AppendCounts(a: seq<nat>, b: seq<nat>, i: nat)
    ensures multiset(a + b)[i] == multiset(a)[i] + multiset(b)[i]
    ensures i !in b ==> multiset(b)[i] == 0
    ensures i !in a ==> multiset(a)[i] == 0
  {
    assert multiset(a + b) == multiset(a) + multiset(b);
  }

  function Count(s: seq<nat>, n: nat, i: nat): nat
    requires n <= |s|
  {
    if n == 0 then 0 else Count(s, n - 1, i) + if s[n - 1] == i then 1 else 0
  }

  lemma {:induction false} CountIsMultiplicity(s: seq<nat>, n: nat, i: nat)
    requires n <= |s|
    ensures multiset(s[..n])[i] == Count(s, n, i)
  {
    if n > 0 {
      CountIsMultiplicity(s, n - 1, i);
      assert s[..n] == s[..n - 1] + [s[n - 1]];
    }
  }

  lemma {:induction false} CountLocal(a: seq<nat>, b: seq<nat>, n: nat, i: nat)
    requires n <= |a| && n <= |b| && forall k | 0 <= k < n :: a[k] == b[k]
    ensures Count(a, n, i) == Count(b, n, i)
  {
    if n > 0 {
      CountLocal(a, b, n - 1, i);
    }
  }

  lemma CountAppends(a: seq<nat>, b: seq<nat>, i: nat)
    requires |b| <= 1
    ensures Count(a + b, |a + b|, i) == Count(a, |a|, i) + if b == [i] then 1 else 0
  {
    CountLocal(a, a + b, |a|, i);
  }

  lemma {:induction false} OfRoleCounts(slots: seq<WorkerRole>, order: seq<nat>, n: nat, i: nat)
    requires i < |slots| && n <= |order|
    ensures Count(order, n, i)
            == Count(OfRoleBefore(slots, order, n, slots[i]), |OfRoleBefore(slots, order, n, slots[i])|, i)
  {
    if n > 0 {
      OfRoleCounts(slots, order, n - 1, i);
      var last := order[n - 1];
      CountAppends(OfRoleBefore(slots, order, n - 1, slots[i]),
                   if last < |slots| && slots[last] == slots[i] then [last] else [], i);
    }
  }

  lemma MultiplicityOfRole(slots: seq<WorkerRole>, order: seq<nat>, i: nat)
    requires i < |slots|
    ensures multiset(order)[i] == multiset(OfRole(slots, order, slots[i]))[i]
  {
    var mine := OfRole(slots, order, slots[i]);
    OfRoleCounts(slots, order, |order|, i);
    CountIsMultiplicity(order, |order|, i);
    CountIsMultiplicity(mine, |mine|, i);
    assert order[..|order|] == order && mine[..|mine|] == mine;
  }

  lemma {:induction false} ListedInRange(slots: seq<WorkerRole>, cursor: nat, lane: nat, position: nat)
    requires cursor < 3 && position <= 3
    ensures forall i <- Listed(slots, cursor, lane, position) :: i < |slots|
    decreases lane, position
  {
    if position > 0 {
      ListedInRange(slots, cursor, lane, position - 1);
    } else if lane > 0 {
      ListedInRange(slots, cursor, lane - 1, 3);
    }
  }

  /** The claim order is a permutation of the slots. */
  lemma OrderIsPermutation(slots: seq<WorkerRole>, cursor: nat)
    requires cursor < 3
    ensures forall i :: 0 <= i < |slots| ==> multiset(ClaimOrder(slots, cursor))[i] == 1
    ensures forall i <- ClaimOrder(slots, cursor) :: i < |slots|
  {
    ListedInRange(slots, cursor, MaxLanes(slots), 0);
    forall i | 0 <= i < |slots|
      ensures multiset(ClaimOrder(slots, cursor))[i] == 1
    {
      var order := ClaimOrder(slots, cursor);
      MultiplicityOfRole(slots, order, i);
      OrderListsEveryRole(slots, cursor, slots[i]);
      SlotsOfContains(slots, |slots|, slots[i], i);
    }
  }

  /** In every prefix of the order, two roles that both still have slots to come differ by at most one. */
  lemma PrefixesAreBalanced(slots: seq<WorkerRole>, cursor: nat, k: nat, a: WorkerRole, b: WorkerRole)
    requires cursor < 3 && k <= |ClaimOrder(slots, cursor)|
    requires |OfRole(slots, ClaimOrder(slots, cursor)[..k], a)| < |SlotsOf(slots, a)|
    requires |OfRole(slots, ClaimOrder(slots, cursor)[..k], b)| < |SlotsOf(slots, b)|
    ensures |OfRole(slots, ClaimOrder(slots, cursor)[..k], a)| <= |OfRole(slots, ClaimOrder(slots, cursor)[..k], b)| + 1
  {
    var lane, position := PrefixIsListed(slots, cursor, MaxLanes(slots), 0, k);
    ListedByRole(slots, cursor, lane, position, a);
    ListedByRole(slots, cursor, lane, position, b);
  }
}
