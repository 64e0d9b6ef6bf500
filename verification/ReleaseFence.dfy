/** The release fence against a revocation of the admission it depends on: the store's write transaction puts the two
    in one order. */
module ReleaseFence {
  import opened Processes
  import opened JobStore
  import opened StoreInvariant
  import opened RestartSafety
  import Fencing
  import L = GuardedLauncher

  /** While a launch is inside its fence it holds the transaction, and what let it in still holds. */
  ghost predicate FenceOk(sys: System) {
    && (forall l <- sys.launches :: InsideFence(sys.launches[l]) && !sys.launches[l].crashed ==>
          sys.holder == Some(l) && Authorized(sys, sys.launches[l]))
    && (forall a <- sys.pins :: a in sys.store.attempts)
  }

  /** Whatever the fence looks at. */
  predicate SameAuthority(sys: System, next: System) {
    next.store == sys.store && next.admissions == sys.admissions && next.pins == sys.pins
  }

  lemma OnlyWritesChangeAuthority(sys: System, m: Move)
    requires Enabled(sys, m) && !WritesStore(m)
    ensures SameAuthority(sys, Do(sys, m))
  {
  }

  lemma AuthorityStays(sys: System, next: System, l: Launch, after: Launch)
    requires SameAuthority(sys, next) && Authorized(sys, l)
    requires after.jobId == l.jobId && after.worker == l.worker && after.token == l.token
    requires after.guardian == l.guardian && after.target == l.target
    ensures Authorized(next, after)
  {
  }

  /** The only way in is through the fence's own checks. */
  lemma EnteringIsChecked(sys: System, m: Move)
    requires Enabled(sys, m) && m.LauncherMoves? && InsideFence(Do(sys, m).launches[m.launch])
    requires !InsideFence(sys.launches[m.launch])
    ensures m.event.FenceEntered? && m.event.outcome.Returned?
    ensures FenceOpens(sys, sys.launches[m.launch], m.now)
  {
  }

  lemma OwnMoveKeepsFence(sys: System, m: Move)
    requires FenceOk(sys) && Enabled(sys, m) && m.LauncherMoves? && InsideFence(Do(sys, m).launches[m.launch])
    ensures Do(sys, m).holder == Some(m.launch) && Authorized(Do(sys, m), Do(sys, m).launches[m.launch])
  {
    var l, next := sys.launches[m.launch], Do(sys, m);
    if InsideFence(l) {
      assert !WritesStore(m);
      OnlyWritesChangeAuthority(sys, m);
    } else {
      EnteringIsChecked(sys, m);
      assert next.store == sys.store;
    }
    AuthorityStays(sys, next, l, next.launches[m.launch]);
  }

  lemma OthersKeepFence(sys: System, m: Move, k: Id)
    requires FenceOk(sys) && Enabled(sys, m) && !(m.LauncherMoves? && m.launch == k) && k in Do(sys, m).launches
    requires InsideFence(Do(sys, m).launches[k]) && !Do(sys, m).launches[k].crashed
    ensures Do(sys, m).holder == Some(k) && Authorized(Do(sys, m), Do(sys, m).launches[k])
  {
    var next := Do(sys, m);
    if k in sys.launches {
      LaunchUnlessMoved(sys, m, k);
      assert InsideFence(sys.launches[k]) && !sys.launches[k].crashed;
      HolderStays(sys, m, k);
      OnlyWritesChangeAuthority(sys, m);
      AuthorityStays(sys, next, sys.launches[k], next.launches[k]);
    }
  }

  /** While a launch holds the transaction nobody else writes; only its own steps and its crash let it go. */
  lemma HolderStays(sys: System, m: Move, k: Id)
    requires Enabled(sys, m) && sys.holder == Some(k) && !(m.LauncherMoves? && m.launch == k)
    ensures !WritesStore(m)
    ensures m == SupervisorCrashes(k) || Do(sys, m).holder == Some(k)
  {
  }

  /** Only an accepted claim pins, and then its own new attempt. */
  lemma OnlyClaimsPin(sys: System, m: Move)
    requires Enabled(sys, m)
    ensures var next := Do(sys, m);
            next.pins == sys.pins
            || (m.StoreMoves? && m.step.ClaimJob? && m.step.attempt !in sys.store.attempts
                && Decide(sys.store, m.step).Ok? && m.pin.Some? && next.store == Next(sys.store, m.step)
                && next.pins == sys.pins[m.step.attempt := m.pin.value])
  {
  }

  lemma ClaimedAttemptExists(s: Store, step: Step)
    requires step.ClaimJob? && Decide(s, step).Ok?
    ensures step.attempt in Next(s, step).attempts
  {
  }

  /** Attempts keep the admission they were claimed under. */
  lemma PinsStay(sys: System, m: Move)
    requires SystemOk(sys) && FenceOk(sys) && Enabled(sys, m)
    ensures forall a <- Do(sys, m).pins :: a in Do(sys, m).store.attempts
    ensures forall a <- sys.store.attempts ::
              (a in Do(sys, m).pins <==> a in sys.pins) && (a in sys.pins ==> Do(sys, m).pins[a] == sys.pins[a])
  {
    MoveIsCalm(sys, m);
    PinsGrow(sys, m);
    PinsAcross(sys, Do(sys, m));
  }

  /** Only new attempts are newly pinned. */
  ghost predicate PinsGrew(sys: System, next: System) {
    && (forall a <- sys.pins :: a in next.pins)
    && (forall a <- next.pins ::
          if a in sys.pins then next.pins[a] == sys.pins[a] || a !in sys.store.attempts
          else a !in sys.store.attempts && a in next.store.attempts)
  }

  lemma PinsGrow(sys: System, m: Move)
    requires Enabled(sys, m)
    ensures PinsGrew(sys, Do(sys, m))
  {
    OnlyClaimsPin(sys, m);
    if Do(sys, m).pins != sys.pins {
      ClaimedAttemptExists(sys.store, m.step);
    }
  }

  lemma PinsAcross(sys: System, next: System)
    requires PinsGrew(sys, next) && Fencing.AttemptsGrow(sys.store, next.store)
    requires forall a <- sys.pins :: a in sys.store.attempts
    ensures forall a <- next.pins :: a in next.store.attempts
    ensures forall a <- sys.store.attempts ::
              (a in next.pins <==> a in sys.pins) && (a in sys.pins ==> next.pins[a] == sys.pins[a])
  {
  }

  lemma FenceKept(sys: System, m: Move)
    requires SystemOk(sys) && FenceOk(sys) && Enabled(sys, m)
    ensures FenceOk(Do(sys, m))
  {
    var next := Do(sys, m);
    PinsStay(sys, m);
    forall k <- next.launches | InsideFence(next.launches[k]) && !next.launches[k].crashed
      ensures next.holder == Some(k) && Authorized(next, next.launches[k])
    {
      if m.LauncherMoves? && m.launch == k {
        OwnMoveKeepsFence(sys, m);
      } else {
        OthersKeepFence(sys, m, k);
      }
    }
  }

  lemma {:induction false} ReachableFences(moves: seq<Move>)
    requires After(moves).Some?
    ensures FenceOk(After(moves).value)
  {
    if moves != [] {
      var n := |moves| - 1;
      ReachableFences(moves[..n]);
      ReachableIsOk(moves[..n]);
      FenceKept(After(moves[..n]).value, moves[n]);
    }
  }

  /** In every run, a fenced launch writes its byte only while its token holds the lease, the admission its attempt was
      claimed under is active, and its own guardian is on record as active. */
  lemma FencedByteIsAuthorized(moves: seq<Move>, m: Move)
    requires After(moves).Some? && Enabled(After(moves).value, m) && m.LauncherMoves? && m.event.BarrierWritten?
    requires After(moves).value.launches[m.launch].setup.fenced
    ensures Authorized(After(moves).value, After(moves).value.launches[m.launch])
  {
    ReachableFences(moves);
    WritingIsInside(After(moves).value, m);
  }

  lemma WritingIsInside(sys: System, m: Move)
    requires Enabled(sys, m) && m.LauncherMoves? && m.event.BarrierWritten? && sys.launches[m.launch].setup.fenced
    ensures InsideFence(sys.launches[m.launch]) && !sys.launches[m.launch].crashed
  {
  }

  // ----- Revocation -----

  ghost predicate PinnedTo(sys: System, l: Launch, admission: Id) {
    exists a <- sys.pins ::
      a in sys.store.attempts && sys.store.attempts[a].token == l.token && sys.pins[a] == admission
  }

  /** The attempt on record for the launch stays the one of its token. */
  lemma PinnedAcross(sys: System, next: System, l: Launch, mine: Id, admission: Id)
    requires mine in sys.store.attempts && sys.store.attempts[mine].token == l.token
    requires Fencing.AttemptsGrow(sys.store, next.store) && Tokens(next.store)
    requires mine in next.pins ==> mine in sys.pins && next.pins[mine] == sys.pins[mine]
    requires PinnedTo(next, l, admission)
    ensures PinnedTo(sys, l, admission)
  {
  }

  /** A launch on record was pinned before, if it is now. */
  lemma PinnedBefore(sys: System, m: Move, l: Launch, admission: Id)
    requires SystemOk(sys) && FenceOk(sys) && Enabled(sys, m) && l.row.Some? && LaunchOk(sys, l)
    requires PinnedTo(Do(sys, m), l, admission)
    ensures PinnedTo(sys, l, admission)
  {
    MoveIsCalm(sys, m);
    PinsStay(sys, m);
    PinnedAcross(sys, Do(sys, m), l, sys.store.processes[l.row.value].attempt, admission);
  }

  lemma AuthorizedPin(sys: System, l: Launch, admission: Id)
    requires SystemOk(sys) && Authorized(sys, l) && PinnedTo(sys, l, admission)
    ensures admission in sys.admissions && sys.admissions[admission].active
  {
    var lease := sys.store.jobs[l.jobId].lease.value;
    var a :| a in sys.pins && a in sys.store.attempts && sys.store.attempts[a].token == l.token
             && sys.pins[a] == admission;
    assert sys.store.attempts[lease.attempt].token == l.token;
    assert a == lease.attempt;
  }

  predicate Revoked(sys: System, admission: Id) {
    admission in sys.admissions && !sys.admissions[admission].active
  }

  lemma RevokedOnce(sys: System, m: Move, admission: Id)
    requires Enabled(sys, m) && (Revoked(sys, admission) || m == AdmissionRevoked(admission))
    ensures Revoked(Do(sys, m), admission)
  {
  }

  lemma LastMove(moves: seq<Move>)
    requires moves != [] && After(moves).Some?
    ensures var before := After(moves[..|moves| - 1]);
            before.Some? && Enabled(before.value, moves[|moves| - 1])
            && After(moves).value == Do(before.value, moves[|moves| - 1])
  {
  }

  lemma {:induction false} RevokedStays(moves: seq<Move>, revoked: nat, admission: Id)
    requires After(moves).Some? && revoked < |moves| && moves[revoked] == AdmissionRevoked(admission)
    ensures Revoked(After(moves).value, admission)
    decreases |moves|
  {
    var n := |moves| - 1;
    LastMove(moves);
    if revoked < n {
      RevokedStays(moves[..n], revoked, admission);
    }
    RevokedOnce(After(moves[..n]).value, moves[n], admission);
  }

  ghost predicate FencedAndDelivered(sys: System, launch: Id) {
    launch in sys.launches && sys.launches[launch].setup.fenced && sys.launches[launch].delivered
  }

  /** Only its own write delivers a launch's byte. */
  lemma DeliveredByWrite(sys: System, m: Move, k: Id)
    requires Enabled(sys, m) && FencedAndDelivered(Do(sys, m), k)
    ensures k in sys.launches && sys.launches[k].setup.fenced && sys.launches[k].token == Do(sys, m).launches[k].token
    ensures !sys.launches[k].delivered ==>
              m.LauncherMoves? && m.launch == k && m.event.BarrierWritten? && L.PastRecord(sys.launches[k].phase)
  {
  }

  /** A move after the revocation releases no launch under that admission. */
  lemma NoReleaseWhenRevoked(sys: System, m: Move, k: Id, admission: Id)
    requires SystemOk(sys) && FenceOk(sys) && Enabled(sys, m) && Revoked(sys, admission)
    requires FencedAndDelivered(Do(sys, m), k) && PinnedTo(Do(sys, m), Do(sys, m).launches[k], admission)
    ensures FencedAndDelivered(sys, k) && PinnedTo(sys, sys.launches[k], admission)
  {
    DeliveredByWrite(sys, m, k);
    var l := sys.launches[k];
    assert LaunchOk(sys, l);
    assert PinnedTo(Do(sys, m), l, admission);
    PinnedBefore(sys, m, l, admission);
    if !l.delivered {
      WritingIsInside(sys, m);
      AuthorizedPin(sys, l, admission);
    }
  }

  /** A fenced launch under a revoked admission that has its byte got it before the revocation, in every run: the
      revocation either comes after the write or prevents it, however launches, crashes and recoveries go on. */
  lemma {:induction false} RevocationIsFinal(moves: seq<Move>, revoked: nat, launch: Id, admission: Id)
    requires After(moves).Some? && revoked < |moves| && moves[revoked] == AdmissionRevoked(admission)
    requires FencedAndDelivered(After(moves).value, launch)
    requires PinnedTo(After(moves).value, After(moves).value.launches[launch], admission)
    ensures After(moves[..revoked]).Some? && FencedAndDelivered(After(moves[..revoked]).value, launch)
    decreases |moves|
  {
    var n := |moves| - 1;
    LastMove(moves);
    if revoked < n {
      ReachableIsOk(moves[..n]);
      ReachableFences(moves[..n]);
      RevokedStays(moves[..n], revoked, admission);
      NoReleaseWhenRevoked(After(moves[..n]).value, moves[n], launch, admission);
      RevocationIsFinal(moves[..n], revoked, launch, admission);
      assert moves[..n][..revoked] == moves[..revoked];
    } else {
      RevokingReleasesNothing(After(moves[..n]).value, admission, launch);
    }
  }

  lemma RevokingReleasesNothing(sys: System, admission: Id, k: Id)
    requires Enabled(sys, AdmissionRevoked(admission))
    ensures FencedAndDelivered(Do(sys, AdmissionRevoked(admission)), k) ==> FencedAndDelivered(sys, k)
  {
  }
}
