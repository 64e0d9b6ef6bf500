/** Launcher, reconciler and store together, over an operating system in which processes fork, exit and reuse numbers
    between any two steps, supervisors crash, leases expire and recoveries race: no job is given out again while a
    target process of an earlier attempt lives. */
module RestartSafety {
  import opened Processes
  import opened JobStore
  import opened StoreInvariant
  import Fencing
  import L = GuardedLauncher
  import R = Reconciler

  datatype Role = Guardian | Target | Foreign

  /** A live process, with the identity of the guardian (for a stranger: of itself) that it descends from. */
  datatype Proc = Proc(id: ProcessIdentity, leader: ProcessIdentity, role: Role)

  /** One launch on behalf of a lease, and how far it has come.  A trusting launcher (`codex_worker.py`) clears its
      record after an aborted release without looking at the group; the guarded runner never does. */
  datatype Launch = Launch(
    setup: L.Setup, trusting: bool, jobId: Id, worker: Id, token: Id, guardian: ProcessIdentity, target: string,
    phase: L.Phase, row: Option<Id>, delivered: bool, writeRaised: bool, crashed: bool)
  {
    /** The byte went out although its write raised, and the launcher will act as if it had not. */
    predicate Misled() {
      trusting && delivered && writeRaised
    }
  }

  /** One reconciliation of a claimed row, and how far it has come. */
  datatype Session = Session(
    context: R.Context, row: Id, attempt: Id, owner: Id, token: Id, identity: ProcessIdentity, target: string,
    phase: R.Phase)
  {
    /** `ExternalProcessBinding.from_mapping` of the claimed row. */
    function Binding(): R.Binding {
      R.Binding(0, attempt, identity.processId, identity.processGroupId, Some(identity.userId),
                Some(identity.executable), Some(identity.startSeconds), Some(identity.startMicroseconds), Some(target),
                Some("darwin_libproc_v1"))
    }

    predicate Releasing() {
      phase.Finished? && phase.verdict.CanRelease()
    }
  }

  /** A row of `focused_test_admissions`. */
  datatype Admission = Admission(job: Id, active: bool)

  /** `pins` are the admissions that attempts were claimed under; `holder` is the launch whose release fence has the
      store's write transaction open. */
  datatype System = System(
    store: Store, alive: set<Proc>, born: set<ProcessIdentity>, launches: map<Id, Launch>, sessions: map<Id, Session>,
    admissions: map<Id, Admission>, pins: map<Id, Id>, holder: Option<Id>)

  datatype Move =
    | ProcessExits(proc: Proc)
    | ForeignStarts(id: ProcessIdentity)
    | GuardianStarts(launch: Id, info: Launch)
    | GuardianForks(launch: Id, id: ProcessIdentity)
    | TargetForks(proc: Proc, id: ProcessIdentity)
    | LauncherMoves(launch: Id, event: L.LaunchEvent, now: int, row: Id, committed: bool)
    | ReleaseAborted(launch: Id, now: int, row: Id)
    | SupervisorCrashes(launch: Id)
    | AdmissionCreated(admission: Id, jobId: Id)
    | AdmissionRevoked(admission: Id)
    | StoreMoves(step: Step, pin: Option<Id>)
    | ReconciliationClaimed(session: Id, context: R.Context, row: Id, owner: Id, token: Id, now: int, leaseTime: int,
                            includeQuarantined: bool)
    | ReconcilerMoves(session: Id, observed: Event)
    | ReconciliationCompleted(session: Id, now: int)

  // ---- The operating system ----

  predicate NoMember(alive: set<Proc>, groupId: int) {
    forall p <- alive :: p.id.processGroupId != groupId
  }

  /** Neither the guardian nor any descendant of it is alive. */
  predicate Extinct(alive: set<Proc>, guardian: ProcessIdentity) {
    forall p <- alive :: p.leader != guardian
  }

  /** An inspection that finds a process under a number is right about it at that instant. */
  predicate Seen(alive: set<Proc>, processId: int, found: ProcessIdentity) {
    found.processId == processId && exists p <- alive :: p.id == found
  }

  predicate Identifying(l: Launch) {
    l.phase == L.Identify && !l.crashed
  }

  /** No process has the number, and no launcher still holds it: a child that was not waited for keeps its own. */
  predicate FreePid(sys: System, processId: int) {
    && (forall p <- sys.alive :: p.id.processId != processId)
    && (forall l <- sys.launches :: Identifying(sys.launches[l]) ==> sys.launches[l].guardian.processId != processId)
  }

  /** A call that finds nobody in a group is right about it at that instant. */
  predicate TruthfulOs(alive: set<Proc>, e: Event) {
    e.ListGroup? && e.members == Returned([]) ==> NoMember(alive, e.groupId)
  }

  // ---- What each move needs ----

  function RecordStep(l: Launch, now: int, row: Id): Step {
    RecordProcess(l.jobId, l.worker, l.token, now, row, l.guardian, l.target)
  }

  function ClearStep(l: Launch, now: int, row: Id): Step {
    ClearProcess(l.jobId, l.worker, l.token, now, row, l.guardian.processId, l.guardian.processGroupId)
  }

  /** The store is called; a call that raises may still have committed. */
  predicate Calls(e: L.LaunchEvent, committed: bool) {
    (e.Recorded? || e.Cleared?) && (e.outcome.Returned? || committed)
  }

  function CalledStep(l: Launch, e: L.LaunchEvent, now: int, row: Id): Step
    requires e.Recorded? || e.Cleared?
  {
    if e.Recorded? then RecordStep(l, now, row) else ClearStep(l, now, row)
  }

  /** The row that the store answers with: the one just written, or the identical one already there. */
  predicate Recorded(s: Store, l: Launch, now: int, row: Id)
    requires Decide(s, RecordStep(l, now, row)).Ok?
  {
    var after := Next(s, RecordStep(l, now, row));
    && row in after.processes && after.processes[row].identity == l.guardian && after.processes[row].state == Active
    && after.processes[row].attempt == s.jobs[l.jobId].lease.value.attempt
  }

  /** What the release fence asks of the store, the lease's clock apart.  No attempt has two active rows, so the row
      found is the latest. */
  predicate Authorized(sys: System, l: Launch) {
    var s := sys.store;
    && l.jobId in s.jobs && s.jobs[l.jobId].status == Running && s.jobs[l.jobId].lease.Some?
    && s.jobs[l.jobId].lease.value.owner == l.worker && s.jobs[l.jobId].lease.value.token == l.token
    && var attempt := s.jobs[l.jobId].lease.value.attempt;
       && attempt in sys.pins && sys.pins[attempt] in sys.admissions
       && sys.admissions[sys.pins[attempt]] == Admission(l.jobId, true)
       && exists r <- s.processes ::
            && s.processes[r].attempt == attempt && s.processes[r].job == l.jobId && s.processes[r].state == Active
            && s.processes[r].identity == l.guardian && s.processes[r].target == l.target
  }

  /** `focused_test_guardian_release_fence` and `browser_guardian_release_fence`, up to the `yield`. */
  predicate FenceOpens(sys: System, l: Launch, now: int) {
    LiveLease(sys.store, l.jobId, l.worker, l.token, now) && Authorized(sys, l)
  }

  predicate LauncherMayMove(sys: System, l: Launch, e: L.LaunchEvent, now: int, row: Id, committed: bool) {
    && !l.crashed && L.Expects(l.setup, l.phase, e)
    && (e.Identified? && e.identity.Returned? ==> Seen(sys.alive, l.guardian.processId, e.identity.value))
    && (e.Os? ==> TruthfulOs(sys.alive, e.event))
    && (e == L.GroupProbed(L.NoSuchGroup) ==> NoMember(sys.alive, l.guardian.processGroupId))
    && (e.FenceEntered? && e.outcome.Returned? ==> FenceOpens(sys, l, now))
    && (Calls(e, committed) ==>
          && Decide(sys.store, CalledStep(l, e, now, row)).Ok?
          && (e.Recorded? ==> Recorded(sys.store, l, now, row)))
  }

  predicate InsideFence(l: Launch) {
    l.setup.fenced && (l.phase.FencedCheck? || l.phase.WriteBarrier? || l.phase.LeaveFence?)
  }

  function ClaimStep(m: Move): Step
    requires m.ReconciliationClaimed?
  {
    ClaimReconciliation(m.row, m.owner, m.token, m.now, m.leaseTime, m.includeQuarantined)
  }

  function CompleteStep(s: Session, now: int): Step
    requires s.phase.Finished?
  {
    CompleteReconciliation(s.row, s.attempt, s.owner, s.token, now, s.identity, s.target, s.phase.verdict.status)
  }

  /** Moves that open a write transaction: they wait for the one that is open. */
  predicate WritesStore(m: Move) {
    match m
    case LauncherMoves(_, e, _, _, committed) => Calls(e, committed) || (e.FenceEntered? && e.outcome.Returned?)
    case ReleaseAborted(_, _, _) | AdmissionCreated(_, _) | AdmissionRevoked(_) | StoreMoves(_, _) => true
    case ReconciliationClaimed(_, _, _, _, _, _, _, _) | ReconciliationCompleted(_, _) => true
    case _ => false
  }

  /** The paths on which the trusting launcher gives up behind its record: before the write, or because it raised. */
  predicate Aborting(p: L.Phase) {
    p.FirstCheck? || (p.CloseBarrier? && p.failed)
  }

  predicate Enabled(sys: System, m: Move) {
    (WritesStore(m) ==> sys.holder.None?) && Possible(sys, m)
  }

  predicate Possible(sys: System, m: Move) {
    match m
    case ProcessExits(proc) => proc in sys.alive
    case ForeignStarts(id) => id !in sys.born && FreePid(sys, id.processId)
    case GuardianStarts(launch, info) =>
      && launch !in sys.launches && info.guardian !in sys.born && FreePid(sys, info.guardian.processId)
      && info.phase == L.Identify && info.row.None?
      && !info.delivered && !info.writeRaised && !info.crashed && (info.trusting ==> !info.setup.fenced)
    case GuardianForks(launch, id) =>
      && launch in sys.launches && sys.launches[launch].delivered && id !in sys.born && FreePid(sys, id.processId)
      && Proc(sys.launches[launch].guardian, sys.launches[launch].guardian, Guardian) in sys.alive
      && id.processGroupId == sys.launches[launch].guardian.processGroupId
    case TargetForks(proc, id) =>
      && proc in sys.alive && proc.role == Target && id !in sys.born && FreePid(sys, id.processId)
      && id.processGroupId == proc.id.processGroupId
    case LauncherMoves(launch, event, now, row, committed) =>
      launch in sys.launches && LauncherMayMove(sys, sys.launches[launch], event, now, row, committed)
    case ReleaseAborted(launch, now, row) =>
      && launch in sys.launches && sys.launches[launch].trusting && !sys.launches[launch].crashed
      && Aborting(sys.launches[launch].phase)
      && Proc(sys.launches[launch].guardian, sys.launches[launch].guardian, Guardian) !in sys.alive
      && Decide(sys.store, ClearStep(sys.launches[launch], now, row)).Ok?
    case SupervisorCrashes(launch) => launch in sys.launches
    case AdmissionCreated(admission, _) => admission !in sys.admissions
    case AdmissionRevoked(admission) => admission in sys.admissions
    case StoreMoves(step, pin) =>
      && FreshIds(sys.store, step)
      && (pin.Some? ==> step.ClaimJob? && pin.value in sys.admissions
                        && sys.admissions[pin.value] == Admission(step.jobId, true))
      && !step.RecordProcess? && !step.ClearProcess? && !step.ClaimReconciliation? && !step.CompleteReconciliation?
    case ReconciliationClaimed(session, _, _, _, _, _, _, _) =>
      session !in sys.sessions && Decide(sys.store, ClaimStep(m)).Ok?
    case ReconcilerMoves(session, observed) =>
      && session in sys.sessions
      && var s := sys.sessions[session];
         R.Refusal(s.context, s.Binding()).None? && R.Expects(s.Binding(), s.phase, observed)
         && TruthfulOs(sys.alive, observed)
    case ReconciliationCompleted(session, now) =>
      session in sys.sessions && sys.sessions[session].phase.Finished?
  }

  // ---- What each move does ----

  function StoreAfterCall(s: Store, l: Launch, e: L.LaunchEvent, now: int, row: Id, committed: bool): Store {
    if Calls(e, committed) then Next(s, CalledStep(l, e, now, row)) else s
  }

  function LaunchAfter(l: Launch, e: L.LaunchEvent, row: Id, committed: bool): Launch
    requires L.Expects(l.setup, l.phase, e)
  {
    l.(phase := L.Advance(l.setup, l.phase, e),
       row := if e.Recorded? && Calls(e, committed) then Some(row) else l.row,
       delivered := l.delivered || (e.BarrierWritten? && e.delivered),
       writeRaised := l.writeRaised || (e.BarrierWritten? && e.outcome.Raised?))
  }

  /** Leaving the fence commits, and a supervisor that dies inside it rolls back: either ends the transaction. */
  function HolderAfter(holder: Option<Id>, launch: Id, e: L.LaunchEvent): Option<Id> {
    if e.FenceEntered? && e.outcome.Returned? then Some(launch)
    else if e.FenceLeft? && holder == Some(launch) then None else holder
  }

  function Do(sys: System, m: Move): System
    requires Enabled(sys, m)
  {
    match m
    case ProcessExits(proc) => sys.(alive := sys.alive - {proc})
    case ForeignStarts(id) => sys.(alive := sys.alive + {Proc(id, id, Foreign)}, born := sys.born + {id})
    case GuardianStarts(launch, info) =>
      sys.(alive := sys.alive + {Proc(info.guardian, info.guardian, Guardian)}, born := sys.born + {info.guardian},
           launches := sys.launches[launch := info])
    case GuardianForks(launch, id) =>
      sys.(alive := sys.alive + {Proc(id, sys.launches[launch].guardian, Target)}, born := sys.born + {id})
    case TargetForks(proc, id) => sys.(alive := sys.alive + {Proc(id, proc.leader, Target)}, born := sys.born + {id})
    case LauncherMoves(launch, event, now, row, committed) =>
      var l := sys.launches[launch];
      sys.(store := StoreAfterCall(sys.store, l, event, now, row, committed),
           launches := sys.launches[launch := LaunchAfter(l, event, row, committed)],
           holder := HolderAfter(sys.holder, launch, event))
    case ReleaseAborted(launch, now, row) =>
      var l := sys.launches[launch];
      sys.(store := Next(sys.store, ClearStep(l, now, row)), launches := sys.launches[launch := l.(phase := L.Failed)])
    case SupervisorCrashes(launch) =>
      sys.(launches := sys.launches[launch := sys.launches[launch].(crashed := true)],
           holder := if sys.holder == Some(launch) then None else sys.holder)
    case AdmissionCreated(admission, jobId) =>
      sys.(admissions := sys.admissions[admission := Admission(jobId, true)])
    case AdmissionRevoked(admission) =>
      sys.(admissions := sys.admissions[admission := sys.admissions[admission].(active := false)])
    case StoreMoves(step, pin) =>
      sys.(store := Next(sys.store, step),
           pins := if pin.Some? && Decide(sys.store, step).Ok? then sys.pins[step.attempt := pin.value] else sys.pins)
    case ReconciliationClaimed(session, context, row, owner, token, _, _, _) =>
      var p := sys.store.processes[row];
      var begun := Session(context, row, p.attempt, owner, token, p.identity, p.target, R.Escaped);
      sys.(store := Next(sys.store, ClaimStep(m)),
           sessions := sys.sessions[session := begun.(phase := R.Start(context, begun.Binding()))])
    case ReconcilerMoves(session, observed) =>
      var s := sys.sessions[session];
      sys.(sessions := sys.sessions[session := s.(phase := R.Advance(s.context, s.Binding(), s.phase, observed))])
    case ReconciliationCompleted(session, now) =>
      sys.(store := Next(sys.store, CompleteStep(sys.sessions[session], now)))
  }

  const START := System(EMPTY, {}, {}, map[], map[], map[], map[], None)

  /** The system after a sequence of moves; None when one of them was not possible. */
  function After(moves: seq<Move>): Option<System> {
    if moves == [] then Some(START)
    else
      match After(moves[..|moves| - 1])
      case None => None
      case Some(sys) => if Enabled(sys, moves[|moves| - 1]) then Some(Do(sys, moves[|moves| - 1])) else None
  }

  // ---- Invariant ----

  /** Only targets descend from another process, and then from the guardian of a launch that has its byte. */
  ghost predicate PersonOk(sys: System, p: Proc) {
    && p.id in sys.born && p.leader in sys.born && p.id.processGroupId == p.leader.processGroupId
    && (p.role != Target ==> p.id == p.leader)
    && (p.role == Foreign ==> forall l <- sys.launches :: sys.launches[l].guardian != p.leader)
    && (p.role == Target ==>
          exists l <- sys.launches :: sys.launches[l].guardian == p.leader && sys.launches[l].delivered)
  }

  ghost predicate WorldOk(sys: System) {
    && (forall p <- sys.alive :: PersonOk(sys, p))
    && (forall r <- sys.store.processes :: sys.store.processes[r].identity in sys.born)
  }

  /** What a launch has not done yet, by its phase. */
  predicate Quiet(l: Launch) {
    && (L.BeforeWrite(l.phase) ==> !l.delivered && !l.writeRaised)
    && (l.trusting ==> !l.setup.fenced)
    && (l.phase.EnterFence? || l.phase.FencedCheck? || l.phase.LeaveFence? ==> l.setup.fenced)
    && (l.trusting && l.phase.CloseBarrier? && l.phase.failed ==> l.writeRaised)
  }

  ghost predicate LaunchOk(sys: System, l: Launch) {
    var rows, attempts := sys.store.processes, sys.store.attempts;
    && l.guardian in sys.born && Quiet(l)
    && (l.delivered || L.PastRecord(l.phase) ==> l.row.Some?)
    && L.Identifies(l.phase, l.guardian)
    && (l.phase.Cleaning? ==> L.CleanupSound(l.phase.ending, l.phase.cleanup))
    && (L.Emptied(l.phase) ==> Extinct(sys.alive, l.guardian))
    && (l.row.Some? ==>
          && l.row.value in rows && rows[l.row.value].identity == l.guardian
          && rows[l.row.value].attempt in attempts && attempts[rows[l.row.value].attempt].token == l.token
          && rows[l.row.value].job == l.jobId
          && (rows[l.row.value].state == Stopped ==> Extinct(sys.alive, l.guardian) || l.Misled()))
  }

  ghost predicate SessionOk(sys: System, s: Session) {
    && s.identity in sys.born
    && (s.Releasing() ==> Extinct(sys.alive, s.identity))
  }

  ghost predicate GuardiansDiffer(sys: System) {
    forall l, k | l in sys.launches && k in sys.launches ::
      sys.launches[l].guardian == sys.launches[k].guardian ==> l == k
  }

  /** While a launcher identifies its guardian, nobody else has the guardian's number. */
  ghost predicate NumbersHeld(sys: System) {
    forall l, p | l in sys.launches && p in sys.alive && Identifying(sys.launches[l]) ::
      p.id.processId == sys.launches[l].guardian.processId ==> p.id == sys.launches[l].guardian
  }

  ghost predicate SystemOk(sys: System) {
    && Inv(sys.store) && WorldOk(sys) && GuardiansDiffer(sys) && NumbersHeld(sys)
    && (forall l <- sys.launches :: LaunchOk(sys, sys.launches[l]))
    && (forall s <- sys.sessions :: SessionOk(sys, sys.sessions[s]))
  }

  /** Whose row may stop: nobody's that is still there, except a misled launch's. */
  ghost predicate MayStop(sys: System, guardian: ProcessIdentity) {
    Extinct(sys.alive, guardian)
    || exists l <- sys.launches :: sys.launches[l].guardian == guardian && sys.launches[l].Misled()
  }

  lemma NobodyMeansExtinct(sys: System, guardian: ProcessIdentity)
    requires WorldOk(sys) && NoMember(sys.alive, guardian.processGroupId)
    ensures Extinct(sys.alive, guardian)
  {
  }

  /** Nothing that was extinct comes back, rows keep their meaning, and a row stops only over an extinct group. */
  ghost predicate Calm(sys: System, next: System) {
    && sys.born <= next.born
    && (forall g <- sys.born :: Extinct(sys.alive, g) ==> Extinct(next.alive, g))
    && Fencing.AttemptsGrow(sys.store, next.store)
    && (forall r <- sys.store.processes ::
          && r in next.store.processes
          && var p, q := sys.store.processes[r], next.store.processes[r];
             && q.attempt == p.attempt && q.job == p.job && q.identity == p.identity
             && (q.state == Stopped ==> p.state == Stopped || MayStop(sys, p.identity)))
  }

  lemma LaunchStays(sys: System, next: System, k: Id)
    requires Calm(sys, next) && GuardiansDiffer(sys) && k in sys.launches && LaunchOk(sys, sys.launches[k])
    ensures LaunchOk(next, sys.launches[k])
  {
  }

  lemma SessionStays(sys: System, next: System, s: Session)
    requires Calm(sys, next) && SessionOk(sys, s)
    ensures SessionOk(next, s)
  {
  }

  // ---- Each move is calm ----

  lemma ExtinctionLasts(sys: System, m: Move, g: ProcessIdentity)
    requires WorldOk(sys) && Enabled(sys, m) && g in sys.born && Extinct(sys.alive, g)
    ensures Extinct(Do(sys, m).alive, g)
  {
  }

  /** How a guarded change treats rows and attempts. */
  lemma RowsKeepIdentity(s: Store, c: Change)
    requires Inv(s) && Guarded(s, c)
    ensures forall r <- s.processes ::
              && r in Perform(s, c).processes
              && var p, q := s.processes[r], Perform(s, c).processes[r];
                 q.attempt == p.attempt && q.job == p.job && q.identity == p.identity
  {
  }

  lemma RowsStop(s: Store, c: Change, r: Id)
    requires Guarded(s, c) && r in s.processes && r in Perform(s, c).processes
    requires Perform(s, c).processes[r].state == Stopped && s.processes[r].state != Stopped
    ensures (c.SetRow? && c.row == r && c.value.state == Stopped) || (c.EndAttempt? && c.stopped == Some(r))
  {
  }

  lemma RowsEvolve(s: Store, c: Change)
    requires Inv(s) && Guarded(s, c)
    ensures Fencing.AttemptsGrow(s, Perform(s, c))
    ensures forall r <- s.processes ::
              && r in Perform(s, c).processes
              && var p, q := s.processes[r], Perform(s, c).processes[r];
                 q.attempt == p.attempt && q.job == p.job && q.identity == p.identity
                 && (q.state == Stopped && p.state != Stopped ==>
                       (c.SetRow? && c.row == r && c.value.state == Stopped) || (c.EndAttempt? && c.stopped == Some(r)))
  {
    Fencing.ChangeGrows(s, c);
    RowsKeepIdentity(s, c);
    forall r <- s.processes | Perform(s, c).processes[r].state == Stopped && s.processes[r].state != Stopped
      ensures (c.SetRow? && c.row == r && c.value.state == Stopped) || (c.EndAttempt? && c.stopped == Some(r))
    {
      RowsStop(s, c, r);
    }
  }

  /** The change, if any, that a store call makes. */
  ghost predicate StopsOnly(sys: System, step: Step) {
    var s := sys.store;
    Decide(s, step).Ok? ==>
      match Decide(s, step).value
      case SetRow(row, value) =>
        value.state == Stopped && row in s.processes ==> MayStop(sys, s.processes[row].identity)
      case EndAttempt(_, _, _, _, _, _, stopped) =>
        stopped.Some? && stopped.value in s.processes ==> MayStop(sys, s.processes[stopped.value].identity)
      case _ => true
  }

  lemma ChangeIsCalm(sys: System, next: System, step: Step)
    requires Inv(sys.store) && FreshIds(sys.store, step) && StopsOnly(sys, step)
    requires next.store == Next(sys.store, step) && next.alive == sys.alive && next.born == sys.born
    ensures Calm(sys, next) && Inv(next.store)
  {
    StepKeeps(sys.store, step);
    if Decide(sys.store, step).Ok? {
      DecisionsAreGuarded(sys.store, step);
      RowsEvolve(sys.store, Decide(sys.store, step).value);
    }
  }

  /** A clear names exactly the launch's own row: the live token fixes the attempt, and the store insists that the
      process numbers are unambiguous in it. */
  lemma ClearNamesOwnRow(sys: System, l: Launch, now: int, row: Id)
    requires Inv(sys.store) && LaunchOk(sys, l) && l.row.Some? && Decide(sys.store, ClearStep(l, now, row)).Ok?
    ensures row == l.row.value
  {
    var s := sys.store;
    var lease := s.jobs[l.jobId].lease.value;
    assert s.attempts[lease.attempt].token == l.token;
    assert s.processes[l.row.value].attempt == lease.attempt;
    assert RowNames(s, l.row.value, lease.attempt, l.guardian.processId, l.guardian.processGroupId);
  }

  lemma RecordStopsNothing(sys: System, l: Launch, now: int, row: Id)
    ensures StopsOnly(sys, RecordStep(l, now, row))
  {
  }

  lemma ClearStopsOwnRow(sys: System, l: Launch, now: int, row: Id)
    requires Inv(sys.store) && LaunchOk(sys, l) && l.row.Some? && MayStop(sys, l.guardian)
    ensures StopsOnly(sys, ClearStep(l, now, row))
  {
    if Decide(sys.store, ClearStep(l, now, row)).Ok? {
      ClearNamesOwnRow(sys, l, now, row);
    }
  }

  lemma LauncherMoveIsCall(sys: System, m: Move)
    requires m.LauncherMoves? && Enabled(sys, m)
    ensures m.event.Cleared? ==> sys.launches[m.launch].phase.Clear?
    ensures Do(sys, m).store == StoreAfterCall(sys.store, sys.launches[m.launch], m.event, m.now, m.row, m.committed)
    ensures Do(sys, m).alive == sys.alive && Do(sys, m).born == sys.born
  {
  }

  lemma LauncherIsCalm(sys: System, m: Move)
    requires m.LauncherMoves? && Enabled(sys, m) && Inv(sys.store) && LaunchOk(sys, sys.launches[m.launch])
    ensures Calm(sys, Do(sys, m)) && Inv(Do(sys, m).store)
  {
    LauncherMoveIsCall(sys, m);
    LauncherCallIsCalm(sys, Do(sys, m), sys.launches[m.launch], m.event, m.now, m.row, m.committed);
  }

  lemma LauncherCallIsCalm(sys: System, next: System, l: Launch, e: L.LaunchEvent, now: int, row: Id, committed: bool)
    requires Inv(sys.store) && LaunchOk(sys, l) && (e.Cleared? ==> l.phase.Clear?)
    requires next.store == StoreAfterCall(sys.store, l, e, now, row, committed)
    requires next.alive == sys.alive && next.born == sys.born
    ensures Calm(sys, next) && Inv(next.store)
  {
    if !Calls(e, committed) {
      StillIsCalm(sys, next);
    } else if e.Recorded? {
      RecordStopsNothing(sys, l, now, row);
      CallIsCalm(sys, next, RecordStep(l, now, row));
    } else {
      ClearCallIsCalm(sys, next, l, now, row);
    }
  }

  lemma ClearCallIsCalm(sys: System, next: System, l: Launch, now: int, row: Id)
    requires Inv(sys.store) && LaunchOk(sys, l) && l.row.Some? && MayStop(sys, l.guardian)
    requires next.store == Next(sys.store, ClearStep(l, now, row)) && next.alive == sys.alive && next.born == sys.born
    ensures Calm(sys, next) && Inv(next.store)
  {
    ClearStopsOwnRow(sys, l, now, row);
    CallIsCalm(sys, next, ClearStep(l, now, row));
  }

  lemma CallIsCalm(sys: System, next: System, step: Step)
    requires Inv(sys.store) && !step.ClaimJob? && StopsOnly(sys, step)
    requires next.store == Next(sys.store, step) && next.alive == sys.alive && next.born == sys.born
    ensures Calm(sys, next) && Inv(next.store)
  {
    ChangeIsCalm(sys, next, step);
  }

  lemma StillIsCalm(sys: System, next: System)
    requires next.store == sys.store && sys.born <= next.born
    requires forall g <- sys.born :: Extinct(sys.alive, g) ==> Extinct(next.alive, g)
    ensures Calm(sys, next)
  {
  }

  lemma ClaimStopsNothing(sys: System, m: Move)
    requires m.ReconciliationClaimed?
    ensures StopsOnly(sys, ClaimStep(m))
  {
  }

  lemma CompletionStopsExtinct(sys: System, session: Session, now: int)
    requires session.phase.Finished? && (session.Releasing() ==> Extinct(sys.alive, session.identity))
    ensures StopsOnly(sys, CompleteStep(session, now))
  {
  }

  lemma OtherStepsStopNothing(sys: System, step: Step)
    requires !step.RecordProcess? && !step.ClearProcess? && !step.ClaimReconciliation? && !step.CompleteReconciliation?
    ensures StopsOnly(sys, step)
  {
  }

  lemma ClaimIsCalm(sys: System, m: Move)
    requires Inv(sys.store) && Enabled(sys, m) && m.ReconciliationClaimed?
    ensures Calm(sys, Do(sys, m)) && Inv(Do(sys, m).store)
  {
    ClaimStopsNothing(sys, m);
    CallIsCalm(sys, Do(sys, m), ClaimStep(m));
  }

  lemma CompletionIsCalm(sys: System, m: Move)
    requires Inv(sys.store) && Enabled(sys, m) && m.ReconciliationCompleted? && SessionOk(sys, sys.sessions[m.session])
    ensures Calm(sys, Do(sys, m)) && Inv(Do(sys, m).store)
  {
    CompletionStopsExtinct(sys, sys.sessions[m.session], m.now);
    CallIsCalm(sys, Do(sys, m), CompleteStep(sys.sessions[m.session], m.now));
  }

  lemma OtherStepIsCalm(sys: System, m: Move)
    requires Inv(sys.store) && Enabled(sys, m) && m.StoreMoves?
    ensures Calm(sys, Do(sys, m)) && Inv(Do(sys, m).store)
  {
    OtherStepsStopNothing(sys, m.step);
    ChangeIsCalm(sys, Do(sys, m), m.step);
  }

  /** A guardian that died without its byte left nobody behind. */
  lemma UnreleasedIsExtinct(sys: System, k: Id)
    requires WorldOk(sys) && GuardiansDiffer(sys) && k in sys.launches && !sys.launches[k].delivered
    requires Proc(sys.launches[k].guardian, sys.launches[k].guardian, Guardian) !in sys.alive
    ensures Extinct(sys.alive, sys.launches[k].guardian)
  {
    forall p <- sys.alive
      ensures p.leader != sys.launches[k].guardian
    {
      if p.role == Guardian {
        assert p == Proc(p.leader, p.leader, Guardian);
      }
    }
  }

  lemma AbortIsCalm(sys: System, m: Move)
    requires SystemOk(sys) && m.ReleaseAborted? && Enabled(sys, m)
    ensures Calm(sys, Do(sys, m)) && Inv(Do(sys, m).store)
  {
    var l := sys.launches[m.launch];
    assert LaunchOk(sys, l);
    if !l.delivered {
      UnreleasedIsExtinct(sys, m.launch);
    } else {
      assert l.Misled();
    }
    ClearCallIsCalm(sys, Do(sys, m), l, m.now, m.row);
  }

  lemma WorldMoveIsCalm(sys: System, m: Move)
    requires WorldOk(sys) && Enabled(sys, m) && Do(sys, m).store == sys.store
    ensures Calm(sys, Do(sys, m))
  {
    forall g <- sys.born | Extinct(sys.alive, g)
      ensures Extinct(Do(sys, m).alive, g)
    {
      ExtinctionLasts(sys, m, g);
    }
    StillIsCalm(sys, Do(sys, m));
  }

  lemma WorldMoveKeepsStore(sys: System, m: Move)
    requires Enabled(sys, m) && !m.LauncherMoves? && !m.ReleaseAborted?
    requires !m.ReconciliationClaimed? && !m.ReconciliationCompleted? && !m.StoreMoves?
    ensures Do(sys, m).store == sys.store
  {
  }

  lemma MoveIsCalm(sys: System, m: Move)
    requires SystemOk(sys) && Enabled(sys, m)
    ensures Calm(sys, Do(sys, m)) && Inv(Do(sys, m).store)
  {
    if m.LauncherMoves? {
      LauncherIsCalm(sys, m);
    } else if m.ReleaseAborted? {
      AbortIsCalm(sys, m);
    } else if m.ReconciliationClaimed? {
      ClaimIsCalm(sys, m);
    } else if m.ReconciliationCompleted? {
      CompletionIsCalm(sys, m);
    } else if m.StoreMoves? {
      OtherStepIsCalm(sys, m);
    } else {
      WorldMoveKeepsStore(sys, m);
      WorldMoveIsCalm(sys, m);
    }
  }

  // ---- The actor that moves ----

  /** What a launcher identifies under its child's number is its guardian. */
  lemma GuardianIsIdentified(sys: System, m: Move)
    requires NumbersHeld(sys) && m.LauncherMoves? && Enabled(sys, m)
    ensures m.event.Identified? && m.event.identity.Returned? ==>
              m.event.identity.value == sys.launches[m.launch].guardian
  {
  }

  lemma LauncherStaysOk(sys: System, m: Move)
    requires Inv(sys.store) && WorldOk(sys) && GuardiansDiffer(sys) && NumbersHeld(sys) && m.LauncherMoves?
    requires Enabled(sys, m) && Calm(sys, Do(sys, m))
    requires LaunchOk(sys, sys.launches[m.launch])
    ensures LaunchOk(Do(sys, m), Do(sys, m).launches[m.launch])
  {
    var l, e, next := sys.launches[m.launch], m.event, Do(sys, m);
    LaunchStays(sys, next, m.launch);
    GuardianIsIdentified(sys, m);
    LauncherPhase(sys, l, e);
    QuietKept(l, e, m.row, m.committed);
    assert next.alive == sys.alive;
    if e.Recorded? && Calls(e, m.committed) {
      RecordedRow(sys.store, l, m.now, m.row);
      RecordingOk(next, l, e, m.row, m.committed);
    } else {
      AdvancedOk(next, l, e, m.row, m.committed);
    }
  }

  /** What a launcher's step means for its phase. */
  ghost predicate PhaseSound(alive: set<Proc>, l: Launch, e: L.LaunchEvent)
    requires L.Expects(l.setup, l.phase, e)
  {
    var p := L.Advance(l.setup, l.phase, e);
    && L.Identifies(p, l.guardian)
    && (p.Cleaning? ==> L.CleanupSound(p.ending, p.cleanup))
    && (L.Emptied(p) ==> Extinct(alive, l.guardian))
    && (L.PastRecord(p) ==> L.PastRecord(l.phase) || (e.Recorded? && e.outcome.Returned?))
    && (e.BarrierWritten? ==> L.PastRecord(l.phase))
  }

  lemma QuietKept(l: Launch, e: L.LaunchEvent, row: Id, committed: bool)
    requires L.Expects(l.setup, l.phase, e) && Quiet(l)
    ensures Quiet(LaunchAfter(l, e, row, committed))
  {
  }

  lemma AdvancedOk(sys: System, l: Launch, e: L.LaunchEvent, row: Id, committed: bool)
    requires LaunchOk(sys, l) && L.Expects(l.setup, l.phase, e) && PhaseSound(sys.alive, l, e)
    requires !(e.Recorded? && Calls(e, committed)) && Quiet(LaunchAfter(l, e, row, committed))
    ensures LaunchOk(sys, LaunchAfter(l, e, row, committed))
  {
    var after := LaunchAfter(l, e, row, committed);
    assert after.row == l.row && (l.Misled() ==> after.Misled()) && after.guardian == l.guardian;
  }

  lemma RecordingOk(sys: System, l: Launch, e: L.LaunchEvent, row: Id, committed: bool)
    requires LaunchOk(sys, l) && L.Expects(l.setup, l.phase, e) && PhaseSound(sys.alive, l, e)
    requires e.Recorded? && Calls(e, committed) && RowOfLaunch(sys.store, l, row)
    requires Quiet(LaunchAfter(l, e, row, committed))
    ensures LaunchOk(sys, LaunchAfter(l, e, row, committed))
  {
  }

  lemma EmptiedOnlyIfExtinct(sys: System, l: Launch, e: L.LaunchEvent)
    requires WorldOk(sys) && L.Expects(l.setup, l.phase, e) && L.Identifies(l.phase, l.guardian)
    requires l.phase.Cleaning? ==> L.CleanupSound(l.phase.ending, l.phase.cleanup)
    requires L.Emptied(l.phase) ==> Extinct(sys.alive, l.guardian)
    requires e.Os? ==> TruthfulOs(sys.alive, e.event)
    requires e == L.GroupProbed(L.NoSuchGroup) ==> NoMember(sys.alive, l.guardian.processGroupId)
    ensures L.Emptied(L.Advance(l.setup, l.phase, e)) ==> Extinct(sys.alive, l.guardian)
  {
    if L.Emptied(L.Advance(l.setup, l.phase, e)) && !L.Emptied(l.phase) {
      L.EmptiedBySight(l.setup, l.phase, e);
      NobodyMeansExtinct(sys, l.guardian);
    }
  }

  lemma LauncherPhase(sys: System, l: Launch, e: L.LaunchEvent)
    requires WorldOk(sys) && LaunchOk(sys, l) && L.Expects(l.setup, l.phase, e)
    requires e.Identified? && e.identity.Returned? ==> e.identity.value == l.guardian
    requires e.Os? ==> TruthfulOs(sys.alive, e.event)
    requires e == L.GroupProbed(L.NoSuchGroup) ==> NoMember(sys.alive, l.guardian.processGroupId)
    ensures PhaseSound(sys.alive, l, e)
  {
    EmptiedOnlyIfExtinct(sys, l, e);
    L.IdentityKept(l.setup, l.phase, e, l.guardian);
    L.SoundnessKept(l.setup, l.phase, e);
    L.RecordComesFirst(l.setup, l.phase, e);
  }

  /** A live row of the launch's guardian in the attempt of its token. */
  ghost predicate RowOfLaunch(s: Store, l: Launch, row: Id) {
    && row in s.processes && s.processes[row].identity == l.guardian && s.processes[row].state != Stopped
    && s.processes[row].job == l.jobId
    && s.processes[row].attempt in s.attempts && s.attempts[s.processes[row].attempt].token == l.token
  }

  lemma RecordedRow(s: Store, l: Launch, now: int, row: Id)
    requires Inv(s) && Decide(s, RecordStep(l, now, row)).Ok?
    requires Recorded(s, l, now, row)
    ensures RowOfLaunch(Next(s, RecordStep(l, now, row)), l, row)
  {
    var lease := s.jobs[l.jobId].lease.value;
    assert s.attempts[lease.attempt].token == l.token && s.attempts[lease.attempt].job == l.jobId;
  }

  lemma OneLaunchKept(sys: System, m: Move, l: Id)
    requires Inv(sys.store) && WorldOk(sys) && GuardiansDiffer(sys) && NumbersHeld(sys) && Enabled(sys, m)
    requires Calm(sys, Do(sys, m))
    requires l in Do(sys, m).launches
    requires l in sys.launches ==> LaunchOk(sys, sys.launches[l])
    ensures LaunchOk(Do(sys, m), Do(sys, m).launches[l])
  {
    if m.LauncherMoves? && m.launch == l {
      LauncherStaysOk(sys, m);
    } else if l in sys.launches {
      LaunchStays(sys, Do(sys, m), l);
      OthersKeepLaunch(sys, m, l);
    } else {
      BegunOk(sys, m, l);
    }
  }

  /** Without a step of its own a launch changes at most by crashing or by giving up. */
  lemma OthersKeepLaunch(sys: System, m: Move, l: Id)
    requires Enabled(sys, m) && l in sys.launches && !(m.LauncherMoves? && m.launch == l)
    requires LaunchOk(Do(sys, m), sys.launches[l])
    ensures l in Do(sys, m).launches && LaunchOk(Do(sys, m), Do(sys, m).launches[l])
  {
    LaunchUnlessMoved(sys, m, l);
    GivenUpOk(Do(sys, m), sys.launches[l], Do(sys, m).launches[l]);
  }

  lemma LaunchUnlessMoved(sys: System, m: Move, l: Id)
    requires Enabled(sys, m) && l in sys.launches && !(m.LauncherMoves? && m.launch == l)
    ensures l in Do(sys, m).launches
    ensures var before, after := sys.launches[l], Do(sys, m).launches[l];
            && after == before.(phase := after.phase, crashed := after.crashed)
            && (after.phase == before.phase || after.phase == L.Failed) && (before.crashed ==> after.crashed)
  {
  }

  lemma GivenUpOk(sys: System, before: Launch, after: Launch)
    requires LaunchOk(sys, before) && after == before.(phase := after.phase, crashed := after.crashed)
    requires after.phase == before.phase || after.phase == L.Failed
    ensures LaunchOk(sys, after)
  {
  }

  lemma BegunOk(sys: System, m: Move, l: Id)
    requires Enabled(sys, m) && l !in sys.launches && l in Do(sys, m).launches
    ensures LaunchOk(Do(sys, m), Do(sys, m).launches[l])
  {
    assert m.GuardianStarts?;
  }

  lemma LaunchesKept(sys: System, m: Move)
    requires Inv(sys.store) && WorldOk(sys) && GuardiansDiffer(sys) && NumbersHeld(sys) && Enabled(sys, m)
    requires Calm(sys, Do(sys, m))
    requires forall l <- sys.launches :: LaunchOk(sys, sys.launches[l])
    ensures forall l <- Do(sys, m).launches :: LaunchOk(Do(sys, m), Do(sys, m).launches[l])
  {
    forall l <- Do(sys, m).launches
      ensures LaunchOk(Do(sys, m), Do(sys, m).launches[l])
    {
      OneLaunchKept(sys, m, l);
    }
  }

  lemma SessionMoveOk(sys: System, m: Move)
    requires WorldOk(sys) && m.ReconcilerMoves? && Enabled(sys, m) && SessionOk(sys, sys.sessions[m.session])
    ensures SessionOk(Do(sys, m), Do(sys, m).sessions[m.session])
  {
    var s := sys.sessions[m.session];
    if Do(sys, m).sessions[m.session].Releasing() {
      R.ReleaseSeesEmptyGroup(s.context, s.Binding(), s.phase, m.observed);
      NobodyMeansExtinct(sys, s.identity);
    }
  }

  lemma OneSessionKept(sys: System, m: Move, k: Id)
    requires WorldOk(sys) && Enabled(sys, m) && Calm(sys, Do(sys, m)) && k in Do(sys, m).sessions
    requires k in sys.sessions ==> SessionOk(sys, sys.sessions[k])
    ensures SessionOk(Do(sys, m), Do(sys, m).sessions[k])
  {
    if m.ReconcilerMoves? && m.session == k {
      SessionMoveOk(sys, m);
    } else if k in sys.sessions {
      SessionUnlessMoved(sys, m, k);
      SessionStays(sys, Do(sys, m), sys.sessions[k]);
    } else {
      SessionBegun(sys, m, k);
    }
  }

  lemma SessionUnlessMoved(sys: System, m: Move, k: Id)
    requires Enabled(sys, m) && k in sys.sessions && !(m.ReconcilerMoves? && m.session == k)
    ensures k in Do(sys, m).sessions && Do(sys, m).sessions[k] == sys.sessions[k]
  {
  }

  lemma SessionBegun(sys: System, m: Move, k: Id)
    requires WorldOk(sys) && Enabled(sys, m) && k !in sys.sessions && k in Do(sys, m).sessions
    ensures SessionOk(Do(sys, m), Do(sys, m).sessions[k])
  {
    assert m.ReconciliationClaimed?;
  }

  lemma SessionsKept(sys: System, m: Move)
    requires WorldOk(sys) && Enabled(sys, m) && Calm(sys, Do(sys, m))
    requires forall s <- sys.sessions :: SessionOk(sys, sys.sessions[s])
    ensures forall s <- Do(sys, m).sessions :: SessionOk(Do(sys, m), Do(sys, m).sessions[s])
  {
    forall k <- Do(sys, m).sessions
      ensures SessionOk(Do(sys, m), Do(sys, m).sessions[k])
    {
      OneSessionKept(sys, m, k);
    }
  }

  /** Launches stay, with their guardian and with their byte; a new one has a guardian that never was before. */
  lemma LaunchesStay(sys: System, m: Move)
    requires Enabled(sys, m)
    ensures var next := Do(sys, m);
            && (forall k <- sys.launches :: k in next.launches && next.launches[k].guardian == sys.launches[k].guardian
                                            && (sys.launches[k].delivered ==> next.launches[k].delivered))
            && (forall k <- next.launches :: k !in sys.launches ==>
                  m.GuardianStarts? && k == m.launch && next.launches[k].guardian !in sys.born)
  {
  }

  lemma PeopleStay(sys: System, m: Move)
    requires Enabled(sys, m)
    ensures sys.born <= Do(sys, m).born
    ensures forall p <- Do(sys, m).alive :: p in sys.alive || Newborn(sys, m, p)
  {
  }

  /** A process that a move starts. */
  predicate Newborn(sys: System, m: Move, p: Proc) {
    match m
    case ForeignStarts(id) => p == Proc(id, id, Foreign) && id !in sys.born
    case GuardianStarts(_, info) => p == Proc(info.guardian, info.guardian, Guardian) && info.guardian !in sys.born
    case GuardianForks(launch, id) =>
      && launch in sys.launches && sys.launches[launch].delivered
      && p == Proc(id, sys.launches[launch].guardian, Target)
      && Proc(sys.launches[launch].guardian, sys.launches[launch].guardian, Guardian) in sys.alive
      && id.processGroupId == sys.launches[launch].guardian.processGroupId
    case TargetForks(q, id) =>
      q in sys.alive && q.role == Target && p == Proc(id, q.leader, Target) && id.processGroupId == q.id.processGroupId
    case _ => false
  }

  lemma TargetKeepsLaunch(sys: System, m: Move, p: Proc)
    requires WorldOk(sys) && Enabled(sys, m) && p.role == Target && (p in sys.alive || Newborn(sys, m, p))
    ensures exists l <- Do(sys, m).launches ::
              Do(sys, m).launches[l].guardian == p.leader && Do(sys, m).launches[l].delivered
  {
    LaunchesStay(sys, m);
    var next := Do(sys, m);
    if p in sys.alive || m.TargetForks? {
      var q := if p in sys.alive then p else m.proc;
      var l :| l in sys.launches && sys.launches[l].guardian == q.leader && sys.launches[l].delivered;
      assert next.launches[l].guardian == p.leader && next.launches[l].delivered;
    } else {
      assert next.launches[m.launch].delivered;
    }
  }

  lemma NewRowsAreRecorded(s: Store, step: Step, r: Id)
    requires r !in s.processes && r in Next(s, step).processes
    ensures step.RecordProcess? && Next(s, step).processes[r].identity == step.identity
  {
    assert Decide(s, step).Ok?;
    NewRowOfChange(s, step, Decide(s, step).value, r);
  }

  lemma NewRowOfChange(s: Store, step: Step, c: Change, r: Id)
    requires Decide(s, step) == Ok(c) && Applicable(s, c) && r !in s.processes && r in Perform(s, c).processes
    ensures step.RecordProcess? && Perform(s, c).processes[r].identity == step.identity
  {
    NewRowIsSet(s, c, r);
    OnlyRecordsAddRows(s, step);
  }

  lemma NewRowIsSet(s: Store, c: Change, r: Id)
    requires Applicable(s, c) && r !in s.processes && r in Perform(s, c).processes
    ensures c.SetRow? && c.row == r && Perform(s, c).processes[r] == c.value
  {
  }

  lemma OnlyRecordsAddRows(s: Store, step: Step)
    requires Decide(s, step).Ok? && Decide(s, step).value.SetRow? && Decide(s, step).value.row !in s.processes
    ensures step.RecordProcess? && Decide(s, step).value.value.identity == step.identity
  {
  }

  lemma RowIdentitiesKept(sys: System, m: Move)
    requires WorldOk(sys) && (forall l <- sys.launches :: sys.launches[l].guardian in sys.born) && Enabled(sys, m)
    requires Calm(sys, Do(sys, m))
    ensures forall r <- Do(sys, m).store.processes :: Do(sys, m).store.processes[r].identity in Do(sys, m).born
  {
    var next := Do(sys, m);
    forall r <- next.store.processes
      ensures next.store.processes[r].identity in next.born
    {
      if r !in sys.store.processes {
        match m
        case LauncherMoves(launch, e, now, row, _) =>
          NewRowsAreRecorded(sys.store, CalledStep(sys.launches[launch], e, now, row), r);
        case ReleaseAborted(launch, now, row) =>
          NewRowsAreRecorded(sys.store, ClearStep(sys.launches[launch], now, row), r);
        case StoreMoves(step, _) => NewRowsAreRecorded(sys.store, step, r);
        case ReconciliationClaimed(_, _, _, _, _, _, _, _) => NewRowsAreRecorded(sys.store, ClaimStep(m), r);
        case ReconciliationCompleted(session, now) =>
          NewRowsAreRecorded(sys.store, CompleteStep(sys.sessions[session], now), r);
        case _ =>
      }
    }
  }

  lemma PersonKept(sys: System, m: Move, p: Proc)
    requires WorldOk(sys) && Enabled(sys, m) && (p in sys.alive || Newborn(sys, m, p)) && p in Do(sys, m).alive
    requires forall l <- sys.launches :: sys.launches[l].guardian in sys.born
    ensures p.id in Do(sys, m).born && p.leader in Do(sys, m).born && p.id.processGroupId == p.leader.processGroupId
    ensures p.role != Target ==> p.id == p.leader
    ensures p.role == Foreign ==> forall l <- Do(sys, m).launches :: Do(sys, m).launches[l].guardian != p.leader
  {
    LaunchesStay(sys, m);
  }

  lemma GuardiansKept(sys: System, m: Move)
    requires GuardiansDiffer(sys) && Enabled(sys, m)
    requires forall l <- sys.launches :: sys.launches[l].guardian in sys.born
    ensures GuardiansDiffer(Do(sys, m))
  {
    LaunchesStay(sys, m);
  }

  /** A launcher that still identifies did so before, or has just begun. */
  lemma IdentifyingBefore(sys: System, m: Move, k: Id)
    requires Enabled(sys, m) && k in Do(sys, m).launches && Identifying(Do(sys, m).launches[k])
    ensures if k in sys.launches then
              Identifying(sys.launches[k]) && Do(sys, m).launches[k].guardian == sys.launches[k].guardian
            else
              m.GuardianStarts? && k == m.launch && Do(sys, m).launches[k] == m.info
  {
    if k in sys.launches {
      if m.LauncherMoves? && m.launch == k {
        MovedIsIdentified(sys, m);
      } else {
        LaunchUnlessMoved(sys, m, k);
      }
    }
  }

  lemma MovedIsIdentified(sys: System, m: Move)
    requires Enabled(sys, m) && m.LauncherMoves?
    ensures !Identifying(Do(sys, m).launches[m.launch])
  {
    var l := sys.launches[m.launch];
    assert L.Advance(l.setup, l.phase, m.event) != L.Identify;
  }

  lemma NewbornsNumber(sys: System, m: Move, p: Proc)
    requires Enabled(sys, m) && Newborn(sys, m, p)
    ensures FreePid(sys, p.id.processId)
  {
  }

  lemma NumbersKept(sys: System, m: Move)
    requires NumbersHeld(sys) && Enabled(sys, m)
    ensures NumbersHeld(Do(sys, m))
  {
    var next := Do(sys, m);
    PeopleStay(sys, m);
    forall k, p | k in next.launches && p in next.alive && Identifying(next.launches[k])
      ensures p.id.processId == next.launches[k].guardian.processId ==> p.id == next.launches[k].guardian
    {
      IdentifyingBefore(sys, m, k);
      if p !in sys.alive {
        NewbornsNumber(sys, m, p);
      } else if k !in sys.launches {
        NewbornsNumber(sys, m, Proc(m.info.guardian, m.info.guardian, Guardian));
      }
    }
  }

  lemma WorldKept(sys: System, m: Move)
    requires SystemOk(sys) && Enabled(sys, m)
    ensures WorldOk(Do(sys, m)) && GuardiansDiffer(Do(sys, m)) && NumbersHeld(Do(sys, m))
  {
    NumbersKept(sys, m);
    assert forall l <- sys.launches :: LaunchOk(sys, sys.launches[l]);
    MoveIsCalm(sys, m);
    RowIdentitiesKept(sys, m);
    GuardiansKept(sys, m);
    PeopleKept(sys, m);
  }

  lemma PeopleKept(sys: System, m: Move)
    requires WorldOk(sys) && Enabled(sys, m) && forall l <- sys.launches :: sys.launches[l].guardian in sys.born
    ensures forall p <- Do(sys, m).alive :: PersonOk(Do(sys, m), p)
  {
    PeopleStay(sys, m);
    var next := Do(sys, m);
    forall p <- next.alive
      ensures PersonOk(next, p)
    {
      PersonKept(sys, m, p);
      if p.role == Target {
        TargetKeepsLaunch(sys, m, p);
      }
    }
  }

  lemma SystemKept(sys: System, m: Move)
    requires SystemOk(sys) && Enabled(sys, m)
    ensures SystemOk(Do(sys, m))
  {
    MoveIsCalm(sys, m);
    WorldKept(sys, m);
    LaunchesKept(sys, m);
    SessionsKept(sys, m);
  }

  lemma {:induction false} ReachableIsOk(moves: seq<Move>)
    requires After(moves).Some?
    ensures SystemOk(After(moves).value)
  {
    if moves != [] {
      var n := |moves| - 1;
      ReachableIsOk(moves[..n]);
      SystemKept(After(moves[..n]).value, moves[n]);
    }
  }

  // ---- Theorems ----

  predicate LiveTarget(sys: System, launch: Id) {
    launch in sys.launches && exists p <- sys.alive :: p.role == Target && p.leader == sys.launches[launch].guardian
  }

  /** Wherever a target lives, its job is still running the very attempt that launched it, under its token; so a job
      is pending again, or finished, or running a later attempt, only when no target of an earlier launch is alive. */
  lemma NoRequeueWhileTargetLives(moves: seq<Move>, launch: Id)
    requires After(moves).Some? && LiveTarget(After(moves).value, launch)
    requires !After(moves).value.launches[launch].Misled()
    ensures var sys := After(moves).value;
            var l := sys.launches[launch];
            && l.jobId in sys.store.jobs && sys.store.jobs[l.jobId].status == Running
            && sys.store.jobs[l.jobId].lease.Some? && sys.store.jobs[l.jobId].lease.value.token == l.token
            && l.delivered && l.row.Some?
            && l.row.value in sys.store.processes && sys.store.processes[l.row.value].state != Stopped
            && sys.store.processes[l.row.value].attempt == sys.store.jobs[l.jobId].lease.value.attempt
            && sys.store.processes[l.row.value].identity == l.guardian
  {
    ReachableIsOk(moves);
    var sys := After(moves).value;
    var l := sys.launches[launch];
    var p :| p in sys.alive && p.role == Target && p.leader == l.guardian;
    var k :| k in sys.launches && sys.launches[k].guardian == p.leader && sys.launches[k].delivered;
    assert k == launch && LaunchOk(sys, l);
    assert !Extinct(sys.alive, l.guardian);
  }

  /** Two generations of one job's targets are never alive together. */
  lemma OneGenerationAtATime(moves: seq<Move>, launch: Id, other: Id)
    requires After(moves).Some? && LiveTarget(After(moves).value, launch) && LiveTarget(After(moves).value, other)
    requires !After(moves).value.launches[launch].Misled() && !After(moves).value.launches[other].Misled()
    requires After(moves).value.launches[launch].jobId == After(moves).value.launches[other].jobId
    ensures launch == other
  {
    ReachableIsOk(moves);
    NoRequeueWhileTargetLives(moves, launch);
    NoRequeueWhileTargetLives(moves, other);
    var sys := After(moves).value;
    assert sys.launches[launch].row == sys.launches[other].row;
    assert sys.launches[launch].guardian == sys.launches[other].guardian;
  }
}
