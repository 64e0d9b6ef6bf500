/** `GuardedGitCommandRunner.run` (`worktrees.py`): a guardian blocks on a barrier until it is durably recorded, and its
    record is cleared only after its whole process group was seen empty. */
module GuardedLauncher {
  import opened Processes

  /** Whether a release fence guards the barrier write, and the timings (`pause` is the 0.02 s between polls). */
  datatype Setup = Setup(fenced: bool, grace: int, timeout: int, pause: int) {
    predicate Valid() {
      grace > 0 && timeout > 0 && pause > 0
    }
  }

  datatype Probe = NoSuchGroup | NotPermitted | Present | ProbeFailed

  datatype ControlWrite = Written | BrokenPipe | WriteFailed

  /** One effect of `run` on its environment, with the answer. */
  datatype LaunchEvent =
    | Identified(identity: Reply<ProcessIdentity>)
    | Recorded(outcome: Reply<()>)
    | CancelRead(cancelled: bool)
    | FenceEntered(outcome: Reply<()>)
    | BarrierWritten(delivered: bool, outcome: Reply<()>)
    | FenceLeft(outcome: Reply<()>)
    | BarrierClosed
    | ProcessWaited(exited: bool)
    | ProcessKilled
    | StatusPolled(alive: bool)
    | StatusJoined
    | StatusRead(hasCode: bool)
    | Os(event: Event)
    | GroupProbed(answer: Probe)
    | ControlWritten(control: ControlWrite)
    | ThreadsJoined(joined: bool)
    | Cleared(outcome: Reply<()>)

  /** Why the process group is being taken down. */
  datatype Ending =
    | Refused(cancelled: bool, failed: bool)
    | Completed(hasCode: bool)
    | TimedOut
    | Cancelled
  {
    predicate ChildCompleted() {
      Completed? && hasCode
    }
  }

  datatype GroupState = Gone | GuardianOnly | Populated

  /** The four places that call `_owned_group_state`. */
  datatype Site = AtEntry | BeforeTerm(state: GroupState) | Settling(deadline: int) | BeforeKill

  /** Where `_terminate_guardian`, `_release_guardian` and `_wait_for_group_exit` stand. */
  datatype Cleanup =
    | Inspecting(site: Site)
    | Listing(site: Site, observed: Option<ProcessIdentity>)
    | Reinspecting(site: Site, observed: Option<ProcessIdentity>, members: seq<ProcessIdentity>)
    | SendingTerm(state: GroupState)
    | ArmingSettle(state: GroupState)
    | SettleClock(deadline: int)
    | SettlePause(deadline: int)
    | SendingKill
    | AwaitingGone
    | WritingControl
    | AwaitingReleased
    | AwaitingKilled
    | ArmingDrain
    | DrainClock(deadline: int)
    | DrainProbe(deadline: int)
    | DrainPause(deadline: int)

  datatype Phase =
    | Identify
    | Record(id: ProcessIdentity)
    | FirstCheck(id: ProcessIdentity)
    | SecondCheck(id: ProcessIdentity)
    | EnterFence(id: ProcessIdentity)
    | FencedCheck(id: ProcessIdentity)
    | WriteBarrier(id: ProcessIdentity)
    | LeaveFence(id: ProcessIdentity, cancelled: bool, failed: bool)
    | CloseBarrier(id: ProcessIdentity, cancelled: bool, failed: bool)
    | AwaitRefused(id: ProcessIdentity, ending: Ending)
    | MonitorArm(id: ProcessIdentity)
    | MonitorPoll(id: ProcessIdentity, deadline: int)
    | MonitorCancel(id: ProcessIdentity, deadline: int)
    | MonitorClock(id: ProcessIdentity, deadline: int)
    | MonitorJoin(id: ProcessIdentity, deadline: int)
    | ReadStatus(id: ProcessIdentity)
    | Cleaning(id: ProcessIdentity, ending: Ending, cleanup: Cleanup)
    | Join(id: ProcessIdentity, ending: Ending)
    | Clear(id: ProcessIdentity, ending: Ending)
    | Ended(id: ProcessIdentity, ending: Ending)
    | AbortClose
    | AbortWait
    | AbortKill
    | AbortReap
    | Failed

  predicate ExpectsCleanup(s: Setup, id: ProcessIdentity, cleanup: Cleanup, e: LaunchEvent) {
    match cleanup
    case Inspecting(_) | Reinspecting(_, _, _) => e.Os? && e.event.Inspect? && e.event.processId == id.processId
    case Listing(_, _) => e.Os? && e.event.ListGroup? && e.event.groupId == id.processGroupId
    case SendingTerm(_) =>
      e.Os? && e.event.SignalGroup? && e.event.groupId == id.processGroupId && e.event.signal == SigTerm
    case SendingKill =>
      e.Os? && e.event.SignalGroup? && e.event.groupId == id.processGroupId && e.event.signal == SigKill
    case ArmingSettle(_) | SettleClock(_) | ArmingDrain | DrainClock(_) => e.Os? && e.event.ReadClock?
    case SettlePause(_) | DrainPause(_) => e == Os(Sleep(s.pause))
    case AwaitingGone | AwaitingReleased | AwaitingKilled => e.ProcessWaited?
    case WritingControl => e.ControlWritten?
    case DrainProbe(_) => e.GroupProbed?
  }

  /** The next effect of `run` in a phase, whatever it answers. */
  predicate Expects(s: Setup, p: Phase, e: LaunchEvent) {
    match p
    case Identify => e.Identified?
    case Record(_) => e.Recorded?
    case FirstCheck(_) | SecondCheck(_) | FencedCheck(_) | MonitorCancel(_, _) => e.CancelRead?
    case EnterFence(_) => e.FenceEntered?
    case WriteBarrier(_) => e.BarrierWritten? && (e.outcome.Returned? ==> e.delivered)
    case LeaveFence(_, _, _) => e.FenceLeft?
    case CloseBarrier(_, _, _) | AbortClose => e.BarrierClosed?
    case AwaitRefused(_, _) | AbortWait | AbortReap => e.ProcessWaited?
    case AbortKill => e.ProcessKilled?
    case MonitorArm(_) | MonitorClock(_, _) => e.Os? && e.event.ReadClock?
    case MonitorPoll(_, _) => e.StatusPolled?
    case MonitorJoin(_, _) => e.StatusJoined?
    case ReadStatus(_) => e.StatusRead?
    case Cleaning(id, _, cleanup) => ExpectsCleanup(s, id, cleanup, e)
    case Join(_, _) => e.ThreadsJoined?
    case Clear(_, _) => e.Cleared?
    case Ended(_, _) | Failed => false
  }

  /** `_owned_group_state`; None when it raises. */
  function OwnedState(id: ProcessIdentity, observed: Option<ProcessIdentity>, members: seq<ProcessIdentity>,
                      again: Option<ProcessIdentity>): Option<GroupState> {
    if observed.None? || again.None? then if members == [] then Some(Gone) else None
    else if observed.value != id || again.value != id then None
    else if MemberWithPid(members, id.processId) != Some(id) then None
    else Some(if |members| == 1 then GuardianOnly else Populated)
  }

  /** `_terminate_guardian` after its settling loop. */
  function AfterSettling(ending: Ending, state: GroupState): Cleanup {
    if ending.ChildCompleted() && state == GuardianOnly then WritingControl
    else if state == Gone then AwaitingGone
    else Inspecting(BeforeKill)
  }

  /** How a caller of `_owned_group_state` goes on. */
  function AfterState(ending: Ending, site: Site, state: GroupState): Cleanup {
    match site
    case AtEntry =>
      if state == Gone then AwaitingGone
      else if ending.ChildCompleted() && state == GuardianOnly then WritingControl
      else Inspecting(BeforeTerm(state))
    case BeforeTerm(entry) => if state == Gone then ArmingSettle(entry) else SendingTerm(entry)
    case Settling(deadline) => if state == Populated then SettleClock(deadline) else AfterSettling(ending, state)
    case BeforeKill => if state == Gone then AwaitingKilled else SendingKill
  }

  predicate SignalFailed(outcome: Reply<()>) {
    outcome.Raised? && outcome.failure != ProcessLookupError
  }

  function AdvanceCleanup(s: Setup, id: ProcessIdentity, ending: Ending, cleanup: Cleanup, e: LaunchEvent): Phase
    requires ExpectsCleanup(s, id, cleanup, e)
  {
    match cleanup
    case Inspecting(site) =>
      if e.event.found.Raised? then Failed else Cleaning(id, ending, Listing(site, e.event.found.value))
    case Listing(site, observed) =>
      if e.event.members.Raised? then Failed
      else Cleaning(id, ending, Reinspecting(site, observed, e.event.members.value))
    case Reinspecting(site, observed, members) =>
      if e.event.found.Raised? then Failed
      else
        (match OwnedState(id, observed, members, e.event.found.value)
         case None => Failed
         case Some(state) => Cleaning(id, ending, AfterState(ending, site, state)))
    case SendingTerm(state) =>
      if SignalFailed(e.event.outcome) then Failed else Cleaning(id, ending, ArmingSettle(state))
    case ArmingSettle(state) =>
      var deadline := e.event.now + s.grace;
      Cleaning(id, ending, if state == Populated then SettleClock(deadline) else AfterSettling(ending, state))
    case SettleClock(deadline) =>
      Cleaning(id, ending, if e.event.now < deadline then SettlePause(deadline) else AfterSettling(ending, Populated))
    case SettlePause(deadline) => Cleaning(id, ending, Inspecting(Settling(deadline)))
    case SendingKill => if SignalFailed(e.event.outcome) then Failed else Cleaning(id, ending, AwaitingKilled)
    case AwaitingGone => if e.exited then Join(id, ending) else Failed
    case WritingControl => if e.control == WriteFailed then Failed else Cleaning(id, ending, AwaitingReleased)
    case AwaitingReleased | AwaitingKilled => if e.exited then Cleaning(id, ending, ArmingDrain) else Failed
    case ArmingDrain => Cleaning(id, ending, DrainClock(e.event.now + s.grace))
    case DrainClock(deadline) => if e.event.now < deadline then Cleaning(id, ending, DrainProbe(deadline)) else Failed
    case DrainProbe(deadline) =>
      (match e.answer
       case NoSuchGroup => Join(id, ending)
       case ProbeFailed => Failed
       case _ => Cleaning(id, ending, DrainPause(deadline)))
    case DrainPause(deadline) => Cleaning(id, ending, DrainClock(deadline))
  }

  function Advance(s: Setup, p: Phase, e: LaunchEvent): Phase
    requires Expects(s, p, e)
  {
    match p
    case Identify => if e.identity.Raised? then AbortClose else Record(e.identity.value)
    case Record(id) => if e.outcome.Raised? then AbortClose else FirstCheck(id)
    case FirstCheck(id) => if e.cancelled then CloseBarrier(id, true, false) else SecondCheck(id)
    case SecondCheck(id) =>
      if e.cancelled then CloseBarrier(id, true, false) else if s.fenced then EnterFence(id) else WriteBarrier(id)
    case EnterFence(id) => if e.outcome.Raised? then CloseBarrier(id, false, true) else FencedCheck(id)
    case FencedCheck(id) => if e.cancelled then LeaveFence(id, true, false) else WriteBarrier(id)
    case WriteBarrier(id) =>
      if s.fenced then LeaveFence(id, false, e.outcome.Raised?) else CloseBarrier(id, false, e.outcome.Raised?)
    case LeaveFence(id, cancelled, failed) => CloseBarrier(id, cancelled, failed || e.outcome.Raised?)
    case CloseBarrier(id, cancelled, failed) =>
      if cancelled || failed then AwaitRefused(id, Refused(cancelled, failed)) else MonitorArm(id)
    case AwaitRefused(id, ending) => Cleaning(id, ending, if e.exited then ArmingDrain else Inspecting(AtEntry))
    case MonitorArm(id) => MonitorPoll(id, e.event.now + s.timeout)
    case MonitorPoll(id, deadline) => if e.alive then MonitorCancel(id, deadline) else ReadStatus(id)
    case MonitorCancel(id, deadline) =>
      if e.cancelled then Cleaning(id, Cancelled, Inspecting(AtEntry)) else MonitorClock(id, deadline)
    case MonitorClock(id, deadline) =>
      if deadline - e.event.now <= 0 then Cleaning(id, TimedOut, Inspecting(AtEntry)) else MonitorJoin(id, deadline)
    case MonitorJoin(id, deadline) => MonitorPoll(id, deadline)
    case ReadStatus(id) => Cleaning(id, Completed(e.hasCode), Inspecting(AtEntry))
    case Cleaning(id, ending, cleanup) => AdvanceCleanup(s, id, ending, cleanup, e)
    case Join(id, ending) => if e.joined then Clear(id, ending) else Failed
    case Clear(id, ending) => if e.outcome.Raised? then Failed else Ended(id, ending)
    case AbortClose => AbortWait
    case AbortWait => if e.exited then Failed else AbortKill
    case AbortKill => AbortReap
    case AbortReap => Failed
  }

  /** The phase after a history; None when `run` would not have produced it. */
  function Replay(s: Setup, events: seq<LaunchEvent>): Option<Phase> {
    if events == [] then Some(Identify)
    else
      var last := events[|events| - 1];
      match Replay(s, events[..|events| - 1])
      case None => None
      case Some(p) => if Expects(s, p, last) then Some(Advance(s, p, last)) else None
  }

  lemma ReplayExtends(s: Setup, events: seq<LaunchEvent>, e: LaunchEvent)
    requires Replay(s, events).Some? && Expects(s, Replay(s, events).value, e)
    ensures Replay(s, events + [e]) == Some(Advance(s, Replay(s, events).value, e))
  {
    assert (events + [e])[..|events|] == events;
  }

  // ---- Crash-safe launch ----

  /** The record call has returned. */
  predicate PastRecord(p: Phase) {
    || p.FirstCheck? || p.SecondCheck? || p.EnterFence? || p.FencedCheck? || p.WriteBarrier? || p.LeaveFence?
    || p.CloseBarrier? || PastBarrier(p)
  }

  /** The write end of the barrier is closed. */
  predicate PastBarrier(p: Phase) {
    p.AwaitRefused? || p.MonitorArm? || p.MonitorPoll? || p.MonitorCancel? || p.MonitorClock? || p.MonitorJoin?
    || p.ReadStatus? || p.Cleaning? || p.Join? || p.Clear? || p.Ended?
  }

  predicate RecordReturned(e: LaunchEvent) {
    e.Recorded? && e.outcome.Returned?
  }

  predicate FenceGranted(e: LaunchEvent) {
    e.FenceEntered? && e.outcome.Returned?
  }

  ghost predicate WasRecorded(events: seq<LaunchEvent>) {
    exists r :: 0 <= r < |events| && RecordReturned(events[r])
  }

  ghost predicate NotCancelled(events: seq<LaunchEvent>) {
    forall i :: 0 <= i < |events| && events[i].CancelRead? ==> !events[i].cancelled
  }

  /** The guardian is on record, every cancellation read so far said no, and the fence, if there is one, was entered
      and asked once more about cancellation. */
  ghost predicate Permitted(s: Setup, events: seq<LaunchEvent>) {
    var n := |events|;
    && WasRecorded(events) && NotCancelled(events)
    && (s.fenced ==> n >= 2 && FenceGranted(events[n - 2]) && events[n - 1].CancelRead?)
  }

  ghost predicate NoWrite(events: seq<LaunchEvent>) {
    forall i :: 0 <= i < |events| ==> !events[i].BarrierWritten?
  }

  /** The byte is written at most once, and only with permission. */
  ghost predicate ReleaseDiscipline(s: Setup, events: seq<LaunchEvent>) {
    && (forall i :: 0 <= i < |events| && events[i].BarrierWritten? ==> Permitted(s, events[..i]))
    && (forall i, j :: 0 <= i < j < |events| && events[i].BarrierWritten? ==> !events[j].BarrierWritten?)
  }

  predicate BeforeWrite(p: Phase) {
    p.Identify? || p.Record? || p.FirstCheck? || p.SecondCheck? || p.EnterFence? || p.FencedCheck? || p.WriteBarrier?
  }

  ghost predicate ReleasePhase(s: Setup, p: Phase, events: seq<LaunchEvent>) {
    var n := |events|;
    && (PastRecord(p) ==> WasRecorded(events))
    && (BeforeWrite(p) ==> NoWrite(events) && NotCancelled(events))
    && (p.EnterFence? ==> s.fenced)
    && (p.FencedCheck? ==> s.fenced && n >= 1 && FenceGranted(events[n - 1]))
    && (p.WriteBarrier? ==> Permitted(s, events))
  }

  ghost predicate ReleaseHistory(s: Setup, p: Phase, events: seq<LaunchEvent>) {
    ReleaseDiscipline(s, events) && ReleasePhase(s, p, events)
  }

  lemma DisciplineExtends(s: Setup, events: seq<LaunchEvent>, e: LaunchEvent)
    requires ReleaseDiscipline(s, events)
    requires e.BarrierWritten? ==> Permitted(s, events) && NoWrite(events)
    ensures ReleaseDiscipline(s, events + [e])
  {
    var later := events + [e];
    forall i | 0 <= i < |later| && later[i].BarrierWritten?
      ensures Permitted(s, later[..i])
    {
      assert later[..i] == events[..i];
      assert i == |events| ==> later[..i] == events;
    }
  }

  lemma WriteIsPermitted(s: Setup, p: Phase, events: seq<LaunchEvent>, e: LaunchEvent)
    requires Expects(s, p, e) && ReleasePhase(s, p, events) && e.BarrierWritten?
    ensures Permitted(s, events) && NoWrite(events)
  {
  }

  lemma RecordStays(events: seq<LaunchEvent>, e: LaunchEvent)
    ensures WasRecorded(events) || RecordReturned(e) ==> WasRecorded(events + [e])
  {
    var later := events + [e];
    assert later[|events|] == e;
    if r :| 0 <= r < |events| && RecordReturned(events[r]) {
      assert RecordReturned(later[r]);
    }
  }

  lemma ReleasePhaseStep(s: Setup, p: Phase, events: seq<LaunchEvent>, e: LaunchEvent)
    requires Expects(s, p, e) && ReleasePhase(s, p, events)
    ensures ReleasePhase(s, Advance(s, p, e), events + [e])
  {
    RecordStays(events, e);
    NothingWrittenStays(events, e);
  }

  lemma NothingWrittenStays(events: seq<LaunchEvent>, e: LaunchEvent)
    ensures (events + [e])[|events|] == e && (events + [e])[..|events|] == events
    ensures events != [] ==> (events + [e])[|events| - 1] == events[|events| - 1]
    ensures NoWrite(events) && !e.BarrierWritten? ==> NoWrite(events + [e])
    ensures NotCancelled(events) && !(e.CancelRead? && e.cancelled) ==> NotCancelled(events + [e])
  {
    var later := events + [e];
    assert forall i :: 0 <= i < |events| ==> later[i] == events[i];
  }

  lemma ReleaseStep(s: Setup, p: Phase, events: seq<LaunchEvent>, e: LaunchEvent)
    requires Expects(s, p, e) && ReleaseHistory(s, p, events)
    ensures ReleaseHistory(s, Advance(s, p, e), events + [e])
  {
    if e.BarrierWritten? {
      WriteIsPermitted(s, p, events, e);
    }
    DisciplineExtends(s, events, e);
    ReleasePhaseStep(s, p, events, e);
  }

  lemma {:induction false} ReplayRelease(s: Setup, events: seq<LaunchEvent>)
    requires Replay(s, events).Some?
    ensures ReleaseHistory(s, Replay(s, events).value, events)
  {
    if events != [] {
      var n := |events| - 1;
      ReplayRelease(s, events[..n]);
      ReleaseStep(s, Replay(s, events[..n]).value, events[..n], events[n]);
      assert events[..n] + [events[n]] == events;
    }
  }

  /** In every history: the barrier byte goes out at most once, after the record returned, with no cancellation seen
      and from inside the fence; so a refused fence or an earlier cancellation means that it never goes out. */
  lemma StartsOnlyWhenPermitted(s: Setup, events: seq<LaunchEvent>, i: nat)
    requires Replay(s, events).Some? && i < |events| && events[i].BarrierWritten?
    ensures Permitted(s, events[..i]) && forall j :: i < j < |events| ==> !events[j].BarrierWritten?
  {
    ReplayRelease(s, events);
  }

  // ---- Clear only after the group was seen empty ----

  predicate SeenEmpty(id: ProcessIdentity, e: LaunchEvent) {
    e == Os(ListGroup(id.processGroupId, Returned([]))) || e == GroupProbed(NoSuchGroup)
  }

  /** The group has been seen empty on the way to this phase. */
  predicate Emptied(p: Phase) {
    || p.Join? || p.Clear? || p.Ended?
    || (p.Cleaning? && (p.cleanup.AwaitingGone? || (p.cleanup.Reinspecting? && p.cleanup.members == [])))
  }

  /** The only way in is an answer that says so. */
  lemma EmptiedBySight(s: Setup, p: Phase, e: LaunchEvent)
    requires Expects(s, p, e) && Emptied(Advance(s, p, e)) && !Emptied(p)
    requires p.Cleaning? ==> CleanupSound(p.ending, p.cleanup)
    ensures p.Cleaning? && SeenEmpty(p.id, e)
  {
  }

  predicate SoundState(ending: Ending, state: GroupState) {
    state != Gone && !(ending.ChildCompleted() && state == GuardianOnly)
  }

  predicate SoundSite(ending: Ending, site: Site) {
    site.BeforeTerm? ==> SoundState(ending, site.state)
  }

  /** Remembered group states: none survives as Gone, or as a guardian ready for release. */
  predicate CleanupSound(ending: Ending, cleanup: Cleanup) {
    match cleanup
    case Inspecting(site) => SoundSite(ending, site)
    case Listing(site, _) => SoundSite(ending, site)
    case Reinspecting(site, _, _) => SoundSite(ending, site)
    case SendingTerm(state) => SoundState(ending, state)
    case ArmingSettle(state) => SoundState(ending, state)
    case _ => true
  }

  lemma SoundnessKept(s: Setup, p: Phase, e: LaunchEvent)
    requires Expects(s, p, e) && (p.Cleaning? ==> CleanupSound(p.ending, p.cleanup))
    ensures var next := Advance(s, p, e); next.Cleaning? ==> CleanupSound(next.ending, next.cleanup)
  {
  }

  predicate HasIdentity(p: Phase) {
    !p.Identify? && !p.AbortClose? && !p.AbortWait? && !p.AbortKill? && !p.AbortReap? && !p.Failed?
  }

  predicate Identifies(p: Phase, id: ProcessIdentity) {
    HasIdentity(p) ==> p.id == id
  }

  lemma IdentityKept(s: Setup, p: Phase, e: LaunchEvent, id: ProcessIdentity)
    requires Expects(s, p, e) && Identifies(p, id)
    requires e.Identified? && e.identity.Returned? ==> e.identity.value == id
    ensures Identifies(Advance(s, p, e), id)
  {
  }

  /** The byte and everything after it lie behind the record. */
  lemma RecordComesFirst(s: Setup, p: Phase, e: LaunchEvent)
    requires Expects(s, p, e)
    ensures PastRecord(Advance(s, p, e)) ==> PastRecord(p) || (e.Recorded? && e.outcome.Returned?)
    ensures e.BarrierWritten? ==> PastRecord(p)
  {
  }

  // ---- Signals and the control byte ----

  predicate Verified(id: ProcessIdentity, e: LaunchEvent) {
    e == Os(Inspect(id.processId, Returned(Some(id))))
  }

  /** The last three effects re-proved that the guardian leads its own group. */
  ghost predicate JustOwned(id: ProcessIdentity, events: seq<LaunchEvent>) {
    var n := |events|;
    && n >= 3 && Verified(id, events[n - 3]) && Verified(id, events[n - 1])
    && events[n - 2].Os? && events[n - 2].event.ListGroup? && events[n - 2].event.groupId == id.processGroupId
    && events[n - 2].event.members.Returned?
    && MemberWithPid(events[n - 2].event.members.value, id.processId) == Some(id)
  }

  ghost predicate JustAlone(id: ProcessIdentity, events: seq<LaunchEvent>) {
    JustOwned(id, events) && events[|events| - 2].event.members == Returned([id])
  }

  predicate IsSignal(e: LaunchEvent, signal: SignalNumber) {
    e.Os? && e.event.SignalGroup? && e.event.signal == signal
  }

  ghost predicate NoSignal(events: seq<LaunchEvent>, signal: SignalNumber) {
    forall i :: 0 <= i < |events| ==> !IsSignal(events[i], signal)
  }

  predicate ChildStatus(e: LaunchEvent) {
    e.StatusRead? && e.hasCode
  }

  ghost predicate CodeRead(events: seq<LaunchEvent>) {
    exists r :: 0 <= r < |events| && ChildStatus(events[r])
  }

  /** Each signal follows at once on a proof of ownership of the signalled group; the control byte follows at once on a
      proof that the guardian is alone in it, the child's status having been read; a clear follows a sight of emptiness
      with no signal in between. */
  ghost predicate CareAt(id: ProcessIdentity, events: seq<LaunchEvent>, i: nat)
    requires i < |events|
  {
    var before := events[..i];
    && (events[i].Os? && events[i].event.SignalGroup? ==>
          events[i].event.groupId == id.processGroupId && JustOwned(id, before)
          && (events[i].event.signal == SigTerm ==> NoSignal(before, SigTerm))
          && NoSignal(before, SigKill))
    && (events[i].ControlWritten? ==> JustAlone(id, before) && CodeRead(before))
    && (events[i].Cleared? ==> WasSeenEmpty(id, before))
  }

  ghost predicate Careful(id: ProcessIdentity, events: seq<LaunchEvent>) {
    forall i :: 0 <= i < |events| ==> CareAt(id, events, i)
  }

  ghost predicate SiteHistory(site: Site, events: seq<LaunchEvent>) {
    && NoSignal(events, SigKill)
    && (site.AtEntry? || site.BeforeTerm? ==> NoSignal(events, SigTerm))
  }

  /** The group was seen empty, and nothing was signalled since. */
  ghost predicate WasSeenEmpty(id: ProcessIdentity, events: seq<LaunchEvent>) {
    exists k :: 0 <= k < |events| && SeenEmpty(id, events[k]) && Unsignalled(events, k)
  }

  predicate Signals(e: LaunchEvent) {
    e.Os? && e.event.SignalGroup?
  }

  ghost predicate Unsignalled(events: seq<LaunchEvent>, from: int) {
    forall i :: 0 <= i < |events| && from <= i ==> !Signals(events[i])
  }

  ghost predicate CleanupHistory(id: ProcessIdentity, ending: Ending, cleanup: Cleanup, events: seq<LaunchEvent>) {
    var n := |events|;
    && CleanupSound(ending, cleanup)
    && (ending.ChildCompleted() ==> CodeRead(events))
    && match cleanup
       case Inspecting(site) => SiteHistory(site, events)
       case Listing(site, observed) =>
         SiteHistory(site, events) && n >= 1 && events[n - 1] == Os(Inspect(id.processId, Returned(observed)))
       case Reinspecting(site, observed, members) =>
         && SiteHistory(site, events) && n >= 2 && events[n - 2] == Os(Inspect(id.processId, Returned(observed)))
         && events[n - 1] == Os(ListGroup(id.processGroupId, Returned(members)))
       case SendingTerm(_) => JustOwned(id, events) && NoSignal(events, SigTerm) && NoSignal(events, SigKill)
       case ArmingSettle(_) | SettleClock(_) | SettlePause(_) => NoSignal(events, SigKill)
       case SendingKill => JustOwned(id, events) && NoSignal(events, SigKill)
       case WritingControl => JustAlone(id, events) && ending.ChildCompleted()
       case AwaitingGone => WasSeenEmpty(id, events)
       case _ => true
  }

  ghost predicate CareHistory(id: ProcessIdentity, p: Phase, events: seq<LaunchEvent>) {
    && Careful(id, events)
    && !p.Identify?
    && (HasIdentity(p) ==> p.id == id)
    && (p.Cleaning? ==> CleanupHistory(id, p.ending, p.cleanup, events))
    && (p.Join? || p.Clear? ==> WasSeenEmpty(id, events))
    && (p.AwaitRefused? ==> p.ending.Refused?)
    && (!p.Cleaning? && !p.Join? && !p.Clear? && !p.Ended? && !p.Failed? ==>
          NoSignal(events, SigTerm) && NoSignal(events, SigKill))
  }

  lemma CarefulExtends(id: ProcessIdentity, events: seq<LaunchEvent>, e: LaunchEvent)
    requires Careful(id, events) && CareAt(id, events + [e], |events|)
    ensures Careful(id, events + [e])
  {
    var later := events + [e];
    forall i | 0 <= i < |later|
      ensures CareAt(id, later, i)
    {
      if i < |events| {
        assert later[..i] == events[..i] && later[i] == events[i];
        assert CareAt(id, events, i);
      }
    }
  }

  lemma HistoryGrows(id: ProcessIdentity, events: seq<LaunchEvent>, e: LaunchEvent)
    ensures CodeRead(events) ==> CodeRead(events + [e])
    ensures (WasSeenEmpty(id, events) && !Signals(e)) || SeenEmpty(id, e) ==> WasSeenEmpty(id, events + [e])
    ensures forall signal :: NoSignal(events, signal) && !IsSignal(e, signal) ==> NoSignal(events + [e], signal)
    ensures ChildStatus(e) ==> CodeRead(events + [e])
  {
    var later := events + [e];
    assert later[|events|] == e;
    assert forall i :: 0 <= i < |events| ==> later[i] == events[i];
    if SeenEmpty(id, e) {
      assert Unsignalled(later, |events|);
    } else if WasSeenEmpty(id, events) && !Signals(e) {
      var k :| 0 <= k < |events| && SeenEmpty(id, events[k]) && Unsignalled(events, k);
      assert SeenEmpty(id, later[k]) && Unsignalled(later, k);
    }
  }

  /** The step of `_terminate_guardian` that reads the group for the last time before acting. */
  lemma OwnershipProved(id: ProcessIdentity, ending: Ending, cleanup: Cleanup, events: seq<LaunchEvent>, e: LaunchEvent)
    requires cleanup.Reinspecting? && CleanupHistory(id, ending, cleanup, events)
    requires e.Os? && e.event.Inspect? && e.event.processId == id.processId && e.event.found.Returned?
    ensures match OwnedState(id, cleanup.observed, cleanup.members, e.event.found.value)
            case None => true
            case Some(Gone) => WasSeenEmpty(id, events + [e])
            case Some(GuardianOnly) => JustAlone(id, events + [e])
            case Some(Populated) => JustOwned(id, events + [e])
  {
    var later := events + [e];
    var n := |events|;
    assert later[n - 2] == events[n - 2] && later[n - 1] == events[n - 1] && later[n] == e;
    if cleanup.members == [] {
      assert SeenEmpty(id, later[n - 1]) && Unsignalled(later, n - 1);
    } else if |cleanup.members| == 1 {
      assert cleanup.members == [cleanup.members[0]];
    }
  }

  lemma CleanupActsWithCare(s: Setup, id: ProcessIdentity, ending: Ending, cleanup: Cleanup, events: seq<LaunchEvent>,
                            e: LaunchEvent)
    requires ExpectsCleanup(s, id, cleanup, e) && Careful(id, events) && CleanupHistory(id, ending, cleanup, events)
    ensures Careful(id, events + [e])
  {
    assert (events + [e])[..|events|] == events;
    CarefulExtends(id, events, e);
  }

  /** What a cleanup step leaves behind is backed by the extended history. */
  ghost predicate Remembered(id: ProcessIdentity, ending: Ending, p: Phase, events: seq<LaunchEvent>) {
    && (p.Cleaning? ==> p.id == id && p.ending == ending && CleanupHistory(id, ending, p.cleanup, events))
    && (p.Join? ==> p.id == id && WasSeenEmpty(id, events))
    && (p.Cleaning? || p.Join? || p.Failed?)
  }

  lemma OwnershipRemembered(s: Setup, id: ProcessIdentity, ending: Ending, cleanup: Cleanup, events: seq<LaunchEvent>,
                            e: LaunchEvent)
    requires ExpectsCleanup(s, id, cleanup, e) && CleanupHistory(id, ending, cleanup, events)
    requires cleanup.Inspecting? || cleanup.Listing? || cleanup.Reinspecting?
    ensures Remembered(id, ending, AdvanceCleanup(s, id, ending, cleanup, e), events + [e])
  {
    HistoryGrows(id, events, e);
    if cleanup.Reinspecting? && e.event.found.Returned? {
      OwnershipProved(id, ending, cleanup, events, e);
    }
  }

  lemma CleanupRemembers(s: Setup, id: ProcessIdentity, ending: Ending, cleanup: Cleanup, events: seq<LaunchEvent>,
                         e: LaunchEvent)
    requires ExpectsCleanup(s, id, cleanup, e) && CleanupHistory(id, ending, cleanup, events)
    ensures Remembered(id, ending, AdvanceCleanup(s, id, ending, cleanup, e), events + [e])
  {
    if cleanup.Inspecting? || cleanup.Listing? || cleanup.Reinspecting? {
      OwnershipRemembered(s, id, ending, cleanup, events, e);
    } else {
      HistoryGrows(id, events, e);
    }
  }

  lemma CareStep(s: Setup, id: ProcessIdentity, p: Phase, events: seq<LaunchEvent>, e: LaunchEvent)
    requires Expects(s, p, e) && CareHistory(id, p, events)
    ensures CareHistory(id, Advance(s, p, e), events + [e])
  {
    if p.Cleaning? {
      CleanupActsWithCare(s, id, p.ending, p.cleanup, events, e);
      CleanupRemembers(s, id, p.ending, p.cleanup, events, e);
    } else {
      PlainCareStep(s, id, p, events, e);
    }
  }

  lemma PlainCallIsCareful(s: Setup, id: ProcessIdentity, p: Phase, events: seq<LaunchEvent>, e: LaunchEvent)
    requires Expects(s, p, e) && CareHistory(id, p, events) && !p.Cleaning?
    ensures CareAt(id, events + [e], |events|)
  {
    assert (events + [e])[..|events|] == events;
  }

  lemma PlainCareStep(s: Setup, id: ProcessIdentity, p: Phase, events: seq<LaunchEvent>, e: LaunchEvent)
    requires Expects(s, p, e) && CareHistory(id, p, events) && !p.Cleaning?
    ensures CareHistory(id, Advance(s, p, e), events + [e])
  {
    HistoryGrows(id, events, e);
    PlainCallIsCareful(s, id, p, events, e);
    CarefulExtends(id, events, e);
  }

  lemma {:induction false} ReplayCare(s: Setup, id: ProcessIdentity, events: seq<LaunchEvent>)
    requires Replay(s, events).Some? && events != [] && events[0] == Identified(Returned(id))
    ensures CareHistory(id, Replay(s, events).value, events)
  {
    var n := |events| - 1;
    if n == 0 {
      assert events == [Identified(Returned(id))] && Replay(s, events[..0]) == Some(Identify);
    } else {
      ReplayCare(s, id, events[..n]);
      CareStep(s, id, Replay(s, events[..n]).value, events[..n], events[n]);
      assert events[..n] + [events[n]] == events;
    }
  }

  /** On every way through `run`: success, timeout, cancellation and failed release. */
  lemma CleansUpCarefully(s: Setup, id: ProcessIdentity, events: seq<LaunchEvent>)
    requires Replay(s, events).Some? && events != [] && events[0] == Identified(Returned(id))
    ensures Careful(id, events)
  {
    ReplayCare(s, id, events);
  }
}
