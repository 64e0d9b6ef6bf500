/** The scheduler's atomic store (`storage.py`): each transaction either applies in full or is refused and changes
    nothing.  Only the guards that can let a transaction through are here; see README for those that only refuse. */
module JobStore {
  import opened Processes
  import opened Models
  import Reconciler

  type Id = nat

  datatype StoreError = LeaseConflict | TransitionConflict | NotFound | InvalidArgument | IntegrityError

  datatype Result<+T> = Ok(value: T) | Err(error: StoreError)

  /** `history` is the item's event trail: every state it entered, oldest first. */
  datatype Item = Item(state: ItemState, gates: seq<GateKind>, history: seq<ItemState>) {
    function Enter(next: ItemState): Item {
      this.(state := next, history := history + [next])
    }
  }

  datatype JobStatus = Pending | Running | Completed | Failed

  datatype Lease = Lease(owner: Id, token: Id, expires: int, attempt: Id)

  datatype Job = Job(
    item: Id, role: WorkerRole, stage: string, status: JobStatus, lease: Option<Lease>, result: Option<Handoff>)
  {
    predicate Open() {
      status in {Pending, Running}
    }
  }

  datatype AttemptStatus = AttemptRunning | Succeeded | AttemptFailed | Expired | Interrupted

  datatype Attempt = Attempt(job: Id, worker: Id, token: Id, status: AttemptStatus)

  datatype RowState = Active | RowQuarantined | Stopped

  datatype Fence = Fence(owner: Id, token: Id, expires: int)

  /** A row of `external_processes`. */
  datatype ProcessRow = ProcessRow(
    attempt: Id, job: Id, identity: ProcessIdentity, target: string, state: RowState, fence: Option<Fence>)

  datatype Interrupt = Interrupt(request: Id, attempt: Id, owner: Id, token: Id)

  datatype Store = Store(
    items: map<Id, Item>,
    jobs: map<Id, Job>,
    attempts: map<Id, Attempt>,
    processes: map<Id, ProcessRow>,
    interrupts: map<Id, Interrupt>)

  datatype NewJob = NewJob(id: Id, role: WorkerRole, stage: string)

  /** What an accepted transaction does to the tables. */
  datatype Change =
    | NoChange
    | AddItem(itemId: Id, item: Item, initial: Option<NewJob>)
    | AddJob(itemId: Id, job: NewJob)
    | StartAttempt(jobId: Id, lease: Lease)
    | ExtendLease(jobId: Id, expires: int)
    | AskInterrupt(jobId: Id, interrupt: Interrupt)
    | SetRow(row: Id, value: ProcessRow)
    | EndAttempt(jobId: Id, ended: AttemptStatus, status: JobStatus, next: ItemState, result: Option<Handoff>,
                 successor: Option<NewJob>, stopped: Option<Id>)

  /** One transaction with its arguments, the clock reading and the identifiers it draws. */
  datatype Step =
    | CreateItem(item: Id, state: ItemState, gates: seq<GateKind>, initial: Option<NewJob>)
    | EnqueueJob(item: Id, job: NewJob)
    | ClaimJob(jobId: Id, worker: Id, attempt: Id, token: Id, now: int, leaseTime: int)
    | HeartbeatJob(jobId: Id, worker: Id, token: Id, now: int, leaseTime: int)
    | RecordProcess(jobId: Id, worker: Id, token: Id, now: int, row: Id, identity: ProcessIdentity, target: string)
    | ClearProcess(jobId: Id, worker: Id, token: Id, now: int, row: Id, processId: int, processGroupId: int)
    | CommitStage(jobId: Id, worker: Id, token: Id, now: int, handoff: Handoff, canonical: Option<Handoff>,
                  next: ItemState, successor: Option<NewJob>, allowSimulated: bool, files: set<string>)
    | FailJob(jobId: Id, worker: Id, token: Id, now: int, maxAttempts: int, requeue: bool, blockedState: ItemState,
              worktreeLost: bool)
    | InterruptJob(jobId: Id, worker: Id, token: Id, now: int, operatorRequest: Option<Id>)
    | RequestInterrupt(jobId: Id, token: Id, now: int, request: Id)
    | ExpireJob(jobId: Id, now: int)
    | ClaimReconciliation(row: Id, owner: Id, token: Id, now: int, leaseTime: int, includeQuarantined: bool)
    | CompleteReconciliation(row: Id, attempt: Id, owner: Id, token: Id, now: int, identity: ProcessIdentity,
                             target: string, status: Reconciler.Status)

  // ---- Guards ----

  /** `_assert_live_lease` */
  predicate LiveLease(s: Store, jobId: Id, worker: Id, token: Id, now: int) {
    && jobId in s.jobs && s.jobs[jobId].status == Running && s.jobs[jobId].lease.Some?
    && s.jobs[jobId].lease.value.owner == worker && s.jobs[jobId].lease.value.token == token
    && s.jobs[jobId].lease.value.expires > now
  }

  function LeaseError(s: Store, jobId: Id): StoreError {
    if jobId in s.jobs then LeaseConflict else NotFound
  }

  /** `_assert_external_process_stopped` */
  predicate AllStopped(s: Store, attempt: Id) {
    forall r <- s.processes :: s.processes[r].attempt == attempt ==> s.processes[r].state == Stopped
  }

  predicate ItemIs(s: Store, item: Id, state: ItemState) {
    item in s.items && s.items[item].state == state
  }

  // ---- What a change does ----

  function QueuedJob(item: Id, job: NewJob): Job {
    Job(item, job.role, job.stage, Pending, None, None)
  }

  function WithJob(s: Store, item: Id, job: Option<NewJob>): Store {
    if job.None? then s else s.(jobs := s.jobs[job.value.id := QueuedJob(item, job.value)])
  }

  function WithRowStopped(s: Store, row: Option<Id>): Store
    requires row.Some? ==> row.value in s.processes
  {
    if row.None? then s
    else s.(processes := s.processes[row.value := s.processes[row.value].(state := Stopped, fence := None)])
  }

  /** The names a change uses exist. */
  predicate Applicable(s: Store, c: Change) {
    match c
    case StartAttempt(jobId, _) => jobId in s.jobs && s.jobs[jobId].item in s.items
    case ExtendLease(jobId, _) => jobId in s.jobs && s.jobs[jobId].lease.Some?
    case EndAttempt(jobId, _, _, _, _, _, stopped) =>
      && jobId in s.jobs && s.jobs[jobId].lease.Some? && s.jobs[jobId].item in s.items
      && s.jobs[jobId].lease.value.attempt in s.attempts && (stopped.Some? ==> stopped.value in s.processes)
    case _ => true
  }

  function Perform(s: Store, c: Change): Store
    requires Applicable(s, c)
  {
    match c
    case NoChange => s
    case AddItem(itemId, item, initial) => WithJob(s.(items := s.items[itemId := item]), itemId, initial)
    case AddJob(itemId, job) => WithJob(s, itemId, Some(job))
    case StartAttempt(jobId, lease) =>
      var job := s.jobs[jobId];
      s.(items := s.items[job.item := s.items[job.item].Enter(ActiveState(job.role))],
         jobs := s.jobs[jobId := job.(status := Running, lease := Some(lease))],
         attempts := s.attempts[lease.attempt := Attempt(jobId, lease.owner, lease.token, AttemptRunning)])
    case ExtendLease(jobId, expires) =>
      var job := s.jobs[jobId];
      s.(jobs := s.jobs[jobId := job.(lease := Some(job.lease.value.(expires := expires)))])
    case AskInterrupt(jobId, interrupt) => s.(interrupts := s.interrupts[jobId := interrupt])
    case SetRow(row, value) => s.(processes := s.processes[row := value])
    case EndAttempt(jobId, ended, status, next, result, successor, stopped) =>
      var job := s.jobs[jobId];
      var attempt := job.lease.value.attempt;
      var closed := s.(items := s.items[job.item := s.items[job.item].Enter(next)],
                       jobs := s.jobs[jobId := job.(status := status, lease := None, result := result)],
                       attempts := s.attempts[attempt := s.attempts[attempt].(status := ended)],
                       interrupts := s.interrupts - {jobId});
      WithRowStopped(WithJob(closed, job.item, successor), stopped)
  }

  // ---- The transactions ----

  const DEFAULT_GATES := [FocusedTests, Browser, Database]

  predicate OpenJobExists(s: Store, item: Id, job: NewJob) {
    exists j <- s.jobs ::
      s.jobs[j].item == item && s.jobs[j].role == job.role && s.jobs[j].stage == job.stage && s.jobs[j].Open()
  }

  /** `_enqueue_job` for an item in a given state. */
  function QueueError(s: Store, item: Id, state: ItemState, job: NewJob): Option<StoreError> {
    if state != QueuedState(job.role) then Some(TransitionConflict)
    else if job.stage == "" then Some(InvalidArgument)
    else if job.id in s.jobs || OpenJobExists(s, item, job) then Some(IntegrityError)
    else None
  }

  function Create(s: Store, itemId: Id, state: ItemState, gates: seq<GateKind>, initial: Option<NewJob>)
    : Result<Change> {
    var required := if gates == [] then DEFAULT_GATES else gates;
    if state !in {Backlog, ReadyForFix, ReadyForTest, Blocked} || !Distinct(required) then Err(InvalidArgument)
    else if itemId in s.items then Err(IntegrityError)
    else if initial.Some? && state != QueuedState(initial.value.role) then Err(InvalidArgument)
    else if initial.Some? && QueueError(s, itemId, state, initial.value).Some? then
      Err(QueueError(s, itemId, state, initial.value).value)
    else Ok(AddItem(itemId, Item(state, required, [state]), initial))
  }

  function Enqueue(s: Store, itemId: Id, job: NewJob): Result<Change> {
    if itemId !in s.items then Err(NotFound)
    else if QueueError(s, itemId, s.items[itemId].state, job).Some? then
      Err(QueueError(s, itemId, s.items[itemId].state, job).value)
    else Ok(AddJob(itemId, job))
  }

  function Claim(s: Store, jobId: Id, worker: Id, attempt: Id, token: Id, now: int, leaseTime: int): Result<Change> {
    if leaseTime <= 0 then Err(InvalidArgument)
    else if jobId !in s.jobs || s.jobs[jobId].status != Pending then Err(NotFound)
    else if !ItemIs(s, s.jobs[jobId].item, QueuedState(s.jobs[jobId].role)) then Err(NotFound)
    else Ok(StartAttempt(jobId, Lease(worker, token, now + leaseTime, attempt)))
  }

  function Heartbeat(s: Store, jobId: Id, worker: Id, token: Id, now: int, leaseTime: int): Result<Change> {
    if leaseTime <= 0 then Err(InvalidArgument)
    else if !LiveLease(s, jobId, worker, token, now) then Err(LeaseError(s, jobId))
    else Ok(ExtendLease(jobId, now + leaseTime))
  }

  predicate SameBirth(a: ProcessIdentity, b: ProcessIdentity) {
    a.processId == b.processId && a.startSeconds == b.startSeconds && a.startMicroseconds == b.startMicroseconds
  }

  predicate Recordable(identity: ProcessIdentity, target: string) {
    && identity.processId > 1 && identity.processGroupId == identity.processId && identity.userId >= 0
    && identity.executable != "" && target != "" && identity.startSeconds > 0
    && 0 <= identity.startMicroseconds < 1000000
  }

  function Record(s: Store, jobId: Id, worker: Id, token: Id, now: int, row: Id, identity: ProcessIdentity,
                  target: string): Result<Change> {
    if !Recordable(identity, target) then Err(InvalidArgument)
    else if !LiveLease(s, jobId, worker, token, now) then Err(LeaseError(s, jobId))
    else
      var attempt := s.jobs[jobId].lease.value.attempt;
      if exists r <- s.processes :: s.processes[r].attempt == attempt && s.processes[r].state == Active
                                    && s.processes[r].identity == identity && s.processes[r].target == target
      then Ok(NoChange)
      else if !AllStopped(s, attempt) then Err(LeaseConflict)
      else if row in s.processes
              || (exists r <- s.processes ::
                    s.processes[r].state != Stopped && SameBirth(s.processes[r].identity, identity))
      then Err(LeaseConflict)
      else Ok(SetRow(row, ProcessRow(attempt, jobId, identity, target, Active, None)))
  }

  predicate RowNames(s: Store, row: Id, attempt: Id, processId: int, processGroupId: int) {
    && row in s.processes && s.processes[row].attempt == attempt
    && s.processes[row].identity.processId == processId && s.processes[row].identity.processGroupId == processGroupId
  }

  function Clear(s: Store, jobId: Id, worker: Id, token: Id, now: int, row: Id, processId: int, processGroupId: int)
    : Result<Change> {
    if !LiveLease(s, jobId, worker, token, now) then Err(LeaseError(s, jobId))
    else
      var attempt := s.jobs[jobId].lease.value.attempt;
      if !RowNames(s, row, attempt, processId, processGroupId)
         || (exists r <- s.processes :: r != row && RowNames(s, r, attempt, processId, processGroupId))
         || s.processes[row].state != Active then Err(LeaseConflict)
      else Ok(SetRow(row, s.processes[row].(state := Stopped)))
  }

  /** `_validate_stage_result`: the handoff that counts, which for a tester outside simulation is not the worker's. */
  function ValidatedHandoff(s: Store, jobId: Id, handoff: Handoff, canonical: Option<Handoff>, next: ItemState,
                            allowSimulated: bool, files: set<string>): Result<Handoff>
    requires jobId in s.jobs && s.jobs[jobId].item in s.items
  {
    var job := s.jobs[jobId];
    var gates := s.items[job.item].gates;
    var authoritative := job.role == Tester && !allowSimulated;
    if authoritative && (gates !in {[FocusedTests], DEFAULT_GATES} || canonical.None?) then Err(InvalidArgument)
    else
      var h := if authoritative then canonical.value else handoff;
      if h.Role() != job.role || !h.Valid() || FinalizeHandoff(gates, h).None? || h.itemId != job.item then
        Err(InvalidArgument)
      else if FinalizeHandoff(gates, h).value.nextState != next then Err(TransitionConflict)
      else if !Attached(h, allowSimulated, files) then Err(InvalidArgument)
      else Ok(h)
  }

  function Commit(s: Store, step: Step): Result<Change>
    requires step.CommitStage?
  {
    var jobId := step.jobId;
    if !LiveLease(s, jobId, step.worker, step.token, step.now) then Err(LeaseError(s, jobId))
    else if jobId in s.interrupts then Err(LeaseConflict)
    else
      var job := s.jobs[jobId];
      var attempt := job.lease.value.attempt;
      if step.next !in StageNextStates(job.role) then Err(TransitionConflict)
      else if job.item !in s.items || attempt !in s.attempts then Err(NotFound)
      else
        match ValidatedHandoff(s, jobId, step.handoff, step.canonical, step.next, step.allowSimulated, step.files)
        case Err(error) => Err(error)
        case Ok(h) =>
          var successor := step.successor;
          if (if successor.None? then None else Some(successor.value.role)) != SuccessorRole(step.next) then
            Err(TransitionConflict)
          else if !ItemIs(s, job.item, ActiveState(job.role)) then Err(TransitionConflict)
          else if !AllStopped(s, attempt) then Err(LeaseConflict)
          else if successor.Some? && QueueError(s, job.item, step.next, successor.value).Some? then
            Err(QueueError(s, job.item, step.next, successor.value).value)
          else Ok(EndAttempt(jobId, Succeeded, Completed, step.next, Some(h), successor, None))
  }

  function FailedAttempts(s: Store, jobId: Id): nat {
    |set a | a in s.attempts && s.attempts[a].job == jobId && s.attempts[a].status == AttemptFailed|
  }

  /** The state named for a job that is not tried again goes into the item as it is. */
  function Fail(s: Store, jobId: Id, worker: Id, token: Id, now: int, maxAttempts: int, requeue: bool,
                blockedState: ItemState, worktreeLost: bool): Result<Change> {
    if maxAttempts < 1 then Err(InvalidArgument)
    else if !LiveLease(s, jobId, worker, token, now) then Err(LeaseError(s, jobId))
    else
      var job := s.jobs[jobId];
      var attempt := job.lease.value.attempt;
      if jobId in s.interrupts || !AllStopped(s, attempt) || attempt !in s.attempts then Err(LeaseConflict)
      else if !ItemIs(s, job.item, ActiveState(job.role)) then Err(TransitionConflict)
      else if requeue && FailedAttempts(s, jobId) + 1 < maxAttempts && !worktreeLost then
        Ok(EndAttempt(jobId, AttemptFailed, Pending, QueuedState(job.role), job.result, None, None))
      else
        Ok(EndAttempt(jobId, AttemptFailed, Failed, blockedState, job.result, None, None))
  }

  /** The back-to-queue change shared by interruption, expiry and reconciliation. */
  function Requeue(s: Store, jobId: Id, ended: AttemptStatus, stopped: Option<Id>): Result<Change>
    requires jobId in s.jobs && s.jobs[jobId].lease.Some?
  {
    var job := s.jobs[jobId];
    if job.lease.value.attempt !in s.attempts then Err(LeaseConflict)
    else if !ItemIs(s, job.item, ActiveState(job.role)) then Err(TransitionConflict)
    else Ok(EndAttempt(jobId, ended, Pending, QueuedState(job.role), job.result, None, stopped))
  }

  function InterruptWork(s: Store, jobId: Id, worker: Id, token: Id, now: int, request: Option<Id>): Result<Change> {
    if !LiveLease(s, jobId, worker, token, now) then Err(LeaseError(s, jobId))
    else
      var attempt := s.jobs[jobId].lease.value.attempt;
      if (match request
          case None => jobId in s.interrupts
          case Some(id) => jobId !in s.interrupts || s.interrupts[jobId] != Interrupt(id, attempt, worker, token))
      then Err(LeaseConflict)
      else if !AllStopped(s, attempt) then Err(LeaseConflict)
      else Requeue(s, jobId, Interrupted, None)
  }

  function Ask(s: Store, jobId: Id, token: Id, now: int, request: Id): Result<Change> {
    if jobId !in s.jobs then Err(NotFound)
    else
      var job := s.jobs[jobId];
      if job.status != Running || job.lease.None? || job.lease.value.token != token || job.lease.value.expires <= now
         || jobId in s.interrupts then Err(LeaseConflict)
      else
        Ok(AskInterrupt(jobId, Interrupt(request, job.lease.value.attempt, job.lease.value.owner, token)))
  }

  /** One job of `_recover_expired`: not while a process of the attempt is unaccounted for. */
  function Expire(s: Store, jobId: Id, now: int): Result<Change> {
    if jobId !in s.jobs || s.jobs[jobId].status != Running || s.jobs[jobId].lease.None?
       || s.jobs[jobId].lease.value.expires > now then Err(NotFound)
    else if !AllStopped(s, s.jobs[jobId].lease.value.attempt) then Err(LeaseConflict)
    else Requeue(s, jobId, Expired, None)
  }

  predicate ExpiredAndCurrent(s: Store, row: ProcessRow, now: int) {
    && row.job in s.jobs && s.jobs[row.job].status == Running && s.jobs[row.job].lease.Some?
    && s.jobs[row.job].lease.value.attempt == row.attempt && s.jobs[row.job].lease.value.expires <= now
  }

  function ClaimRow(s: Store, row: Id, owner: Id, token: Id, now: int, leaseTime: int, includeQuarantined: bool):
    Result<Change>
  {
    if leaseTime <= 0 then Err(InvalidArgument)
    else if row !in s.processes then Err(NotFound)
    else
      var p := s.processes[row];
      if p.state == Stopped || (p.state == RowQuarantined && !includeQuarantined) || !ExpiredAndCurrent(s, p, now)
         || (p.fence.Some? && p.fence.value.expires > now) then Err(NotFound)
      else Ok(SetRow(row, p.(fence := Some(Fence(owner, token, now + leaseTime)))))
  }

  /** Only a releasable status stops the row, and then the job goes back to its queue in the same transaction. */
  function Complete(s: Store, step: Step): Result<Change>
    requires step.CompleteReconciliation?
  {
    if step.row !in s.processes then Err(NotFound)
    else
      var p := s.processes[step.row];
      if p.attempt != step.attempt || p.fence.None? || p.fence.value.owner != step.owner
         || p.fence.value.token != step.token
         || p.fence.value.expires <= step.now || !ExpiredAndCurrent(s, p, step.now)
         || p.identity != step.identity || p.target != step.target then Err(LeaseConflict)
      else if step.status == Reconciler.Quarantined then
        if p.state == Stopped then Err(IntegrityError)
        else Ok(SetRow(step.row, p.(state := RowQuarantined, fence := None)))
      else if p.state == Stopped then Err(LeaseConflict)
      else Requeue(s, p.job, Expired, Some(step.row))
  }

  function Decide(s: Store, step: Step): Result<Change> {
    match step
    case CreateItem(item, state, gates, initial) => Create(s, item, state, gates, initial)
    case EnqueueJob(item, job) => Enqueue(s, item, job)
    case ClaimJob(jobId, worker, attempt, token, now, leaseTime) =>
      Claim(s, jobId, worker, attempt, token, now, leaseTime)
    case HeartbeatJob(jobId, worker, token, now, leaseTime) => Heartbeat(s, jobId, worker, token, now, leaseTime)
    case RecordProcess(jobId, worker, token, now, row, identity, target) =>
      Record(s, jobId, worker, token, now, row, identity, target)
    case ClearProcess(jobId, worker, token, now, row, processId, processGroupId) =>
      Clear(s, jobId, worker, token, now, row, processId, processGroupId)
    case CommitStage(_, _, _, _, _, _, _, _, _, _) => Commit(s, step)
    case FailJob(jobId, worker, token, now, maxAttempts, requeue, blockedState, worktreeLost) =>
      Fail(s, jobId, worker, token, now, maxAttempts, requeue, blockedState, worktreeLost)
    case InterruptJob(jobId, worker, token, now, request) => InterruptWork(s, jobId, worker, token, now, request)
    case RequestInterrupt(jobId, token, now, request) => Ask(s, jobId, token, now, request)
    case ExpireJob(jobId, now) => Expire(s, jobId, now)
    case ClaimReconciliation(row, owner, token, now, leaseTime, includeQuarantined) =>
      ClaimRow(s, row, owner, token, now, leaseTime, includeQuarantined)
    case CompleteReconciliation(_, _, _, _, _, _, _, _) => Complete(s, step)
  }

  /** Identifiers are drawn fresh (`uuid4`). */
  predicate FreshIds(s: Store, step: Step) {
    step.ClaimJob? ==>
      step.attempt !in s.attempts && forall a <- s.attempts :: s.attempts[a].token != step.token
  }

  // ---- What the guards establish ----

  /** A tester's passing handoff about this item, with evidence for every gate the item requires. */
  ghost predicate Earned(s: Store, jobId: Id, result: Option<Handoff>)
    requires jobId in s.jobs && s.jobs[jobId].item in s.items
  {
    && s.jobs[jobId].role == Tester && result.Some? && result.value.Test? && result.value.Valid()
    && result.value.itemId == s.jobs[jobId].item && result.value.outcome == Passed
    && ProvenGreen(s.items[s.jobs[jobId].item].gates, result.value.proofs)
  }

  /** Everything the tables rely on when a change is performed. */
  ghost predicate Guarded(s: Store, c: Change) {
    && Applicable(s, c)
    && match c
       case NoChange => true
       case AddItem(itemId, item, initial) =>
         && itemId !in s.items && item.history == [item.state]
         && item.state in {Backlog, ReadyForFix, ReadyForTest, Blocked}
         && (initial.Some? ==> initial.value.id !in s.jobs && item.state == QueuedState(initial.value.role))
       case AddJob(itemId, job) => ItemIs(s, itemId, QueuedState(job.role)) && job.id !in s.jobs
       case StartAttempt(jobId, lease) =>
         && s.jobs[jobId].status == Pending && ItemIs(s, s.jobs[jobId].item, QueuedState(s.jobs[jobId].role))
         && lease.attempt !in s.attempts && forall a <- s.attempts :: s.attempts[a].token != lease.token
       case ExtendLease(jobId, _) => s.jobs[jobId].status == Running
       case AskInterrupt(_, _) => true
       case SetRow(row, value) =>
         if row in s.processes then
           var p := s.processes[row];
           value == p.(state := value.state, fence := value.fence) && (value.state == Stopped || p.state != Stopped)
         else
           && value.job in s.jobs && s.jobs[value.job].status == Running && s.jobs[value.job].lease.Some?
           && s.jobs[value.job].lease.value.attempt == value.attempt && AllStopped(s, value.attempt)
           && forall r <- s.processes ::
                s.processes[r].state != Stopped ==> !SameBirth(s.processes[r].identity, value.identity)
       case EndAttempt(jobId, ended, status, next, result, successor, stopped) =>
         var job := s.jobs[jobId];
         var attempt := job.lease.value.attempt;
         && job.status == Running && ItemIs(s, job.item, ActiveState(job.role)) && ended != AttemptRunning
         && (stopped.Some? ==> s.processes[stopped.value].attempt == attempt)
         && (forall r <- s.processes :: s.processes[r].attempt == attempt ==>
               s.processes[r].state == Stopped || stopped == Some(r))
         && (match status
             case Pending => next == QueuedState(job.role) && successor.None?
             case Failed => successor.None?
             case Completed =>
               && next in StageNextStates(job.role)
               && (if successor.None? then SuccessorRole(next).None?
                   else SuccessorRole(next) == Some(successor.value.role) && successor.value.id !in s.jobs)
               && (next == VerifiedGreen ==> Earned(s, jobId, result))
             case Running => false)
  }

  /** At most one process per attempt is not known to have stopped. */
  ghost predicate OneRowPerLiveAttempt(s: Store) {
    forall r, q | r in s.processes && q in s.processes && s.processes[r].attempt == s.processes[q].attempt ::
      s.processes[r].state != Stopped && s.processes[q].state != Stopped ==> r == q
  }

  lemma CommitIsGuarded(s: Store, step: Step)
    requires step.CommitStage? && Commit(s, step).Ok?
    ensures Guarded(s, Commit(s, step).value)
  {
    var job := s.jobs[step.jobId];
    var h := ValidatedHandoff(s, step.jobId, step.handoff, step.canonical, step.next, step.allowSimulated,
                              step.files).value;
    if step.next == VerifiedGreen {
      GateDecisions(s.items[job.item].gates, h);
    }
  }

  lemma CompleteIsGuarded(s: Store, step: Step)
    requires step.CompleteReconciliation? && Complete(s, step).Ok? && OneRowPerLiveAttempt(s)
    ensures Guarded(s, Complete(s, step).value)
  {
  }

  lemma DecisionsAreGuarded(s: Store, step: Step)
    requires FreshIds(s, step) && Decide(s, step).Ok? && OneRowPerLiveAttempt(s)
    requires forall j <- s.jobs :: s.jobs[j].item in s.items
    ensures Guarded(s, Decide(s, step).value)
  {
    match step
    case CommitStage(_, _, _, _, _, _, _, _, _, _) => CommitIsGuarded(s, step);
    case CompleteReconciliation(_, _, _, _, _, _, _, _) => CompleteIsGuarded(s, step);
    case _ =>
  }

  lemma DecisionsApply(s: Store, step: Step)
    requires Decide(s, step).Ok?
    ensures Applicable(s, Decide(s, step).value)
  {
  }

  /** A refused transaction rolls back. */
  function Next(s: Store, step: Step): Store {
    match Decide(s, step)
    case Ok(c) =>
      DecisionsApply(s, step);
      Perform(s, c)
    case Err(_) => s
  }

  const EMPTY := Store(map[], map[], map[], map[], map[])

  /** The store after a history of transactions, whoever issued them and in whatever order. */
  function Run(steps: seq<Step>): Store {
    if steps == [] then EMPTY else Next(Run(steps[..|steps| - 1]), steps[|steps| - 1])
  }

  ghost predicate Fresh(steps: seq<Step>) {
    forall i :: 0 <= i < |steps| ==> FreshIds(Run(steps[..i]), steps[i])
  }
}
