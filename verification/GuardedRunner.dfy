/** The code of `GuardedGitCommandRunner.run`, proved to make only the moves of the protocol in GuardedLauncher. */
module GuardedRunner {
  import opened Processes
  import opened GuardedLauncher

  /** Everything `run` acts on: pipes, the guardian, the store callbacks, the runtime and a clock that never runs
      backwards.  Answers and delays are arbitrary; `log` keeps them. */
  class Host {
    const setup: Setup
    ghost var log: seq<LaunchEvent>
    ghost var phase: Phase
    var now: int

    constructor (setup: Setup)
      ensures this.setup == setup && log == [] && phase == Identify && Valid()
    {
      this.setup := setup;
      log := [];
      phase := Identify;
      now := *;
    }

    ghost predicate Valid()
      reads this
    {
      Replay(setup, log) == Some(phase)
    }

    method Note(ghost e: LaunchEvent)
      requires Valid() && Expects(setup, phase, e)
      modifies this
      ensures Valid() && log == old(log) + [e] && phase == Advance(setup, old(phase), e) && now >= old(now)
    {
      ReplayExtends(setup, log, e);
      phase := Advance(setup, phase, e);
      log := log + [e];
      var later: int :| later >= now;
      now := later;
    }

    method InspectStableGuardian() returns (identity: Reply<ProcessIdentity>)
      requires Valid() && phase.Identify?
      modifies this
      ensures Valid() && log == old(log) + [Identified(identity)]
              && phase == Advance(setup, old(phase), Identified(identity))
    {
      identity := *;
      Note(Identified(identity));
    }

    method RecordProcess() returns (outcome: Reply<()>)
      requires Valid() && phase.Record?
      modifies this
      ensures Valid() && log == old(log) + [Recorded(outcome)] && phase == Advance(setup, old(phase), Recorded(outcome))
    {
      outcome := *;
      Note(Recorded(outcome));
    }

    method CancellationIsSet() returns (cancelled: bool)
      requires Valid() && Expects(setup, phase, CancelRead(true))
      modifies this
      ensures Valid() && log == old(log) + [CancelRead(cancelled)]
      ensures Expects(setup, old(phase), CancelRead(cancelled))
      ensures phase == Advance(setup, old(phase), CancelRead(cancelled)) && now >= old(now)
    {
      cancelled := *;
      Note(CancelRead(cancelled));
    }

    method EnterFence() returns (outcome: Reply<()>)
      requires Valid() && phase.EnterFence?
      modifies this
      ensures Valid() && log == old(log) + [FenceEntered(outcome)]
              && phase == Advance(setup, old(phase), FenceEntered(outcome))
    {
      outcome := *;
      Note(FenceEntered(outcome));
    }

    /** The byte may have been delivered even when the write raises. */
    method WriteBarrier() returns (outcome: Reply<()>)
      requires Valid() && phase.WriteBarrier?
      modifies this
      ensures Valid() && exists delivered ::
                && Expects(setup, old(phase), BarrierWritten(delivered, outcome))
                && log == old(log) + [BarrierWritten(delivered, outcome)]
                && phase == Advance(setup, old(phase), BarrierWritten(delivered, outcome))
    {
      outcome := *;
      ghost var delivered := *;
      if outcome.Returned? {
        delivered := true;
      }
      Note(BarrierWritten(delivered, outcome));
    }

    method LeaveFence() returns (outcome: Reply<()>)
      requires Valid() && phase.LeaveFence?
      modifies this
      ensures Valid() && log == old(log) + [FenceLeft(outcome)]
              && phase == Advance(setup, old(phase), FenceLeft(outcome))
    {
      outcome := *;
      Note(FenceLeft(outcome));
    }

    method CloseBarrier()
      requires Valid() && (phase.CloseBarrier? || phase.AbortClose?)
      modifies this
      ensures Valid() && log == old(log) + [BarrierClosed] && phase == Advance(setup, old(phase), BarrierClosed)
    {
      Note(BarrierClosed);
    }

    /** `process.wait` within the grace period; false stands for TimeoutExpired. */
    method WaitProcess() returns (exited: bool)
      requires Valid() && Expects(setup, phase, ProcessWaited(true))
      modifies this
      ensures Valid() && log == old(log) + [ProcessWaited(exited)]
      ensures Expects(setup, old(phase), ProcessWaited(exited))
      ensures phase == Advance(setup, old(phase), ProcessWaited(exited))
    {
      exited := *;
      Note(ProcessWaited(exited));
    }

    method KillProcess()
      requires Valid() && phase.AbortKill?
      modifies this
      ensures Valid() && log == old(log) + [ProcessKilled] && phase == AbortReap
    {
      Note(ProcessKilled);
    }

    method StatusThreadAlive() returns (alive: bool)
      requires Valid() && phase.MonitorPoll?
      modifies this
      ensures Valid() && log == old(log) + [StatusPolled(alive)]
              && phase == Advance(setup, old(phase), StatusPolled(alive))
      ensures now >= old(now)
    {
      alive := *;
      Note(StatusPolled(alive));
    }

    /** `status_thread.join(limit)`: returns early only if the thread is done, which the next poll would report. */
    method JoinStatusThread(limit: int)
      requires Valid() && phase.MonitorJoin? && limit > 0
      modifies this
      ensures Valid() && log == old(log) + [StatusJoined] && phase == Advance(setup, old(phase), StatusJoined)
      ensures now >= old(now) + limit
    {
      Note(StatusJoined);
      var later: int :| later >= now + limit;
      now := later;
    }

    method StatusHasCode() returns (hasCode: bool)
      requires Valid() && phase.ReadStatus?
      modifies this
      ensures Valid() && log == old(log) + [StatusRead(hasCode)]
              && phase == Advance(setup, old(phase), StatusRead(hasCode))
    {
      hasCode := *;
      Note(StatusRead(hasCode));
    }

    method Inspect(processId: int) returns (found: Reply<Option<ProcessIdentity>>)
      requires Valid() && Expects(setup, phase, Os(Event.Inspect(processId, Returned(None))))
      modifies this
      ensures Valid() && log == old(log) + [Os(Event.Inspect(processId, found))]
      ensures Expects(setup, old(phase), Os(Event.Inspect(processId, found)))
      ensures phase == Advance(setup, old(phase), Os(Event.Inspect(processId, found))) && now >= old(now)
    {
      found := *;
      Note(Os(Event.Inspect(processId, found)));
    }

    method ListGroup(groupId: int) returns (members: Reply<seq<ProcessIdentity>>)
      requires Valid() && Expects(setup, phase, Os(Event.ListGroup(groupId, Returned([]))))
      modifies this
      ensures Valid() && log == old(log) + [Os(Event.ListGroup(groupId, members))]
      ensures Expects(setup, old(phase), Os(Event.ListGroup(groupId, members)))
      ensures phase == Advance(setup, old(phase), Os(Event.ListGroup(groupId, members))) && now >= old(now)
    {
      members := *;
      Note(Os(Event.ListGroup(groupId, members)));
    }

    method SignalGroup(groupId: int, signal: SignalNumber) returns (outcome: Reply<()>)
      requires Valid() && Expects(setup, phase, Os(Event.SignalGroup(groupId, signal, Returned(()))))
      modifies this
      ensures Valid() && log == old(log) + [Os(Event.SignalGroup(groupId, signal, outcome))]
      ensures Expects(setup, old(phase), Os(Event.SignalGroup(groupId, signal, outcome)))
      ensures phase == Advance(setup, old(phase), Os(Event.SignalGroup(groupId, signal, outcome)))
    {
      outcome := *;
      Note(Os(Event.SignalGroup(groupId, signal, outcome)));
    }

    method Monotonic() returns (reading: int)
      requires Valid() && Expects(setup, phase, Os(ReadClock(0)))
      modifies this
      ensures Valid() && log == old(log) + [Os(ReadClock(reading))]
      ensures Expects(setup, old(phase), Os(ReadClock(reading)))
      ensures phase == Advance(setup, old(phase), Os(ReadClock(reading))) && now >= reading >= old(now)
    {
      reading := now;
      Note(Os(ReadClock(reading)));
    }

    method Sleep()
      requires Valid() && Expects(setup, phase, Os(Event.Sleep(setup.pause)))
      modifies this
      ensures Valid() && log == old(log) + [Os(Event.Sleep(setup.pause))]
      ensures phase == Advance(setup, old(phase), Os(Event.Sleep(setup.pause))) && now >= old(now) + setup.pause
    {
      Note(Os(Event.Sleep(setup.pause)));
      var later: int :| later >= now + setup.pause;
      now := later;
    }

    method ProbeGroup() returns (answer: Probe)
      requires Valid() && Expects(setup, phase, GroupProbed(Present))
      modifies this
      ensures Valid() && log == old(log) + [GroupProbed(answer)]
      ensures Expects(setup, old(phase), GroupProbed(answer))
      ensures phase == Advance(setup, old(phase), GroupProbed(answer)) && now >= old(now)
    {
      answer := *;
      Note(GroupProbed(answer));
    }

    method WriteControl() returns (control: ControlWrite)
      requires Valid() && Expects(setup, phase, ControlWritten(Written))
      modifies this
      ensures Valid() && log == old(log) + [ControlWritten(control)]
      ensures Expects(setup, old(phase), ControlWritten(control))
      ensures phase == Advance(setup, old(phase), ControlWritten(control))
    {
      control := *;
      Note(ControlWritten(control));
    }

    method JoinThreads() returns (joined: bool)
      requires Valid() && phase.Join?
      modifies this
      ensures Valid() && log == old(log) + [ThreadsJoined(joined)]
              && phase == Advance(setup, old(phase), ThreadsJoined(joined))
    {
      joined := *;
      Note(ThreadsJoined(joined));
    }

    method ClearProcess() returns (outcome: Reply<()>)
      requires Valid() && phase.Clear?
      modifies this
      ensures Valid() && log == old(log) + [Cleared(outcome)] && phase == Advance(setup, old(phase), Cleared(outcome))
    {
      outcome := *;
      Note(Cleared(outcome));
    }
  }

  class GuardedCommandRunner {
    const host: Host

    constructor (host: Host)
      ensures this.host == host
    {
      this.host := host;
    }

    /** How `run` ends: after its clear, for the reason given, or with an exception before it. */
    method Run() returns (ending: Option<Ending>)
      requires host.setup.Valid() && host.Valid() && host.phase == Identify
      modifies host
      ensures host.Valid()
      ensures ending.Some? ==> host.phase.Ended? && host.phase.ending == ending.value
      ensures ending.None? ==> host.phase == Failed
    {
      var id, cancelled, failed := Launch();
      if id.None? {
        return None;
      }
      var why, reaped := Reap(id.value, cancelled, failed);
      if !reaped {
        return None;
      }
      var joined := host.JoinThreads();
      if !joined {
        return None;
      }
      var cleared := host.ClearProcess();
      return if cleared.Raised? then None else Some(why);
    }

    /** Up to the closing of the barrier: identify, record, and write the byte unless something speaks against it. */
    method Launch() returns (id: Option<ProcessIdentity>, cancelled: bool, failed: bool)
      requires host.Valid() && host.phase == Identify
      modifies host
      ensures host.Valid()
      ensures id.None? ==> host.phase == Failed
      ensures id.Some? ==>
                host.phase == if cancelled || failed then AwaitRefused(id.value, Refused(cancelled, failed))
                              else MonitorArm(id.value)
    {
      cancelled, failed := false, false;
      id := IdentifyAndRecord();
      if id.Some? {
        cancelled := CancelledBeforeRelease(id.value);
        if !cancelled {
          cancelled, failed := Release(id.value);
        }
        host.CloseBarrier();
      }
    }

    method IdentifyAndRecord() returns (id: Option<ProcessIdentity>)
      requires host.Valid() && host.phase == Identify
      modifies host
      ensures host.Valid() && host.phase == if id.None? then Failed else FirstCheck(id.value)
    {
      var identified := host.InspectStableGuardian();
      if identified.Raised? {
        WaitOrKillUnreleased();
        return None;
      }
      var recorded := host.RecordProcess();
      if recorded.Raised? {
        WaitOrKillUnreleased();
        return None;
      }
      return Some(identified.value);
    }

    method CancelledBeforeRelease(id: ProcessIdentity) returns (cancelled: bool)
      requires host.Valid() && host.phase == FirstCheck(id)
      modifies host
      ensures host.Valid()
      ensures host.phase == if cancelled then CloseBarrier(id, true, false)
                            else if host.setup.fenced then EnterFence(id) else WriteBarrier(id)
    {
      cancelled := host.CancellationIsSet();
      if !cancelled {
        cancelled := host.CancellationIsSet();
      }
    }

    method Release(id: ProcessIdentity) returns (cancelled: bool, failed: bool)
      requires host.Valid() && host.phase == if host.setup.fenced then EnterFence(id) else WriteBarrier(id)
      modifies host
      ensures host.Valid() && host.phase == CloseBarrier(id, cancelled, failed)
    {
      if !host.setup.fenced {
        var written := host.WriteBarrier();
        return false, written.Raised?;
      }
      cancelled, failed := WriteInsideFence(id);
    }

    /** After the barrier: take the guardian's group down, however the command fared. */
    method Reap(id: ProcessIdentity, cancelled: bool, failed: bool) returns (why: Ending, reaped: bool)
      requires host.setup.Valid() && host.Valid()
      requires host.phase == if cancelled || failed then AwaitRefused(id, Refused(cancelled, failed))
                             else MonitorArm(id)
      modifies host
      ensures host.Valid() && host.phase == if reaped then Join(id, why) else Failed
    {
      if cancelled || failed {
        why := Refused(cancelled, failed);
        var exited := host.WaitProcess();
        if exited {
          reaped := WaitForGroupExit(id, why);
          return;
        }
      } else {
        why := Monitor(id);
      }
      reaped := TerminateGuardian(id, why);
    }

    method WaitOrKillUnreleased()
      requires host.Valid() && host.phase == AbortClose
      modifies host
      ensures host.Valid() && host.phase == Failed
    {
      host.CloseBarrier();
      var exited := host.WaitProcess();
      if !exited {
        host.KillProcess();
        exited := host.WaitProcess();
      }
    }

    /** The `with release_fence(...)` block. */
    method WriteInsideFence(id: ProcessIdentity) returns (cancelled: bool, failed: bool)
      requires host.Valid() && host.setup.fenced && host.phase == EnterFence(id)
      modifies host
      ensures host.Valid() && host.phase == CloseBarrier(id, cancelled, failed)
    {
      cancelled, failed := false, false;
      var entered := host.EnterFence();
      if entered.Raised? {
        failed := true;
        return;
      }
      cancelled := host.CancellationIsSet();
      if !cancelled {
        var written := host.WriteBarrier();
        failed := written.Raised?;
      }
      var left := host.LeaveFence();
      failed := failed || left.Raised?;
    }

    /** Waits for the child's status, a cancellation or the timeout. */
    method Monitor(id: ProcessIdentity) returns (why: Ending)
      requires host.setup.Valid() && host.Valid() && host.phase == MonitorArm(id)
      modifies host
      ensures host.Valid() && host.phase == Cleaning(id, why, Inspecting(AtEntry))
    {
      var reading := host.Monotonic();
      var deadline := reading + host.setup.timeout;
      while true
        invariant host.Valid() && host.phase == MonitorPoll(id, deadline)
        decreases deadline - host.now
      {
        var alive := host.StatusThreadAlive();
        if !alive {
          break;
        }
        var stop := WatchOnce(id, deadline);
        if stop.Some? {
          return stop.value;
        }
      }
      var hasCode := host.StatusHasCode();
      return Completed(hasCode);
    }

    method WatchOnce(id: ProcessIdentity, deadline: int) returns (stop: Option<Ending>)
      requires host.setup.Valid() && host.Valid() && host.phase == MonitorCancel(id, deadline)
      modifies host
      ensures host.Valid()
      ensures stop.Some? ==> host.phase == Cleaning(id, stop.value, Inspecting(AtEntry))
      ensures stop.None? ==>
                host.phase == MonitorPoll(id, deadline) && host.now > old(host.now) && old(host.now) < deadline
    {
      var cancelled := host.CancellationIsSet();
      if cancelled {
        return Some(Cancelled);
      }
      var reading := host.Monotonic();
      var remaining := deadline - reading;
      if remaining <= 0 {
        return Some(TimedOut);
      }
      host.JoinStatusThread(Min(host.setup.pause, remaining));
      return None;
    }

    /** `_owned_group_state`; None stands for the exception. */
    method OwnedGroupState(id: ProcessIdentity, why: Ending, site: Site) returns (state: Option<GroupState>)
      requires host.Valid() && host.phase == Cleaning(id, why, Inspecting(site))
      modifies host
      ensures host.Valid() && host.now >= old(host.now)
      ensures state.None? ==> host.phase == Failed
      ensures state.Some? ==> host.phase == Cleaning(id, why, AfterState(why, site, state.value))
    {
      var observed := host.Inspect(id.processId);
      if observed.Raised? {
        return None;
      }
      var members := host.ListGroup(id.processGroupId);
      if members.Raised? {
        return None;
      }
      var again := host.Inspect(id.processId);
      if again.Raised? {
        return None;
      }
      state := OwnedState(id, observed.value, members.value, again.value);
    }

    /** `_terminate_guardian`: true when it returns, with the group gone. */
    method TerminateGuardian(id: ProcessIdentity, why: Ending) returns (reaped: bool)
      requires host.setup.Valid() && host.Valid() && host.phase == Cleaning(id, why, Inspecting(AtEntry))
      modifies host
      ensures host.Valid() && host.phase == if reaped then Join(id, why) else Failed
    {
      var entry := OwnedGroupState(id, why, AtEntry);
      if entry.None? {
        return false;
      }
      if entry.value == Gone {
        reaped := host.WaitProcess();
        return;
      }
      if why.ChildCompleted() && entry.value == GuardianOnly {
        reaped := ReleaseGuardian(id, why);
        return;
      }
      var signalled := SignalOwnedGroup(id, why, BeforeTerm(entry.value), SigTerm);
      if !signalled {
        return false;
      }
      var settled := Settle(id, why, entry.value);
      if settled.None? {
        return false;
      }
      if why.ChildCompleted() && settled.value == GuardianOnly {
        reaped := ReleaseGuardian(id, why);
        return;
      }
      if settled.value == Gone {
        reaped := host.WaitProcess();
        return;
      }
      reaped := KillGroup(id, why);
    }

    method KillGroup(id: ProcessIdentity, why: Ending) returns (reaped: bool)
      requires host.setup.Valid() && host.Valid() && host.phase == Cleaning(id, why, Inspecting(BeforeKill))
      modifies host
      ensures host.Valid() && host.phase == if reaped then Join(id, why) else Failed
    {
      var signalled := SignalOwnedGroup(id, why, BeforeKill, SigKill);
      if !signalled {
        return false;
      }
      var exited := host.WaitProcess();
      if !exited {
        return false;
      }
      reaped := WaitForGroupExit(id, why);
    }

    /** `_signal_group`: nothing is sent to a group that is gone. */
    method SignalOwnedGroup(id: ProcessIdentity, why: Ending, site: Site, signal: SignalNumber) returns (ok: bool)
      requires host.Valid() && host.phase == Cleaning(id, why, Inspecting(site))
      requires if signal == SigTerm then site.BeforeTerm? else site.BeforeKill?
      modifies host
      ensures host.Valid() && host.phase == if !ok then Failed
                            else
                              Cleaning(id, why,
                                       if site.BeforeTerm? then ArmingSettle(site.state) else AwaitingKilled)
    {
      var state := OwnedGroupState(id, why, site);
      if state.None? {
        return false;
      }
      if state.value == Gone {
        return true;
      }
      var outcome := host.SignalGroup(id.processGroupId, signal);
      return !SignalFailed(outcome);
    }

    /** The loop after SIGTERM, while the group is populated and time is left. */
    method Settle(id: ProcessIdentity, why: Ending, entry: GroupState) returns (state: Option<GroupState>)
      requires host.setup.Valid() && host.Valid() && host.phase == Cleaning(id, why, ArmingSettle(entry))
      modifies host
      ensures host.Valid()
      ensures state.None? ==> host.phase == Failed
      ensures state.Some? ==> host.phase == Cleaning(id, why, AfterSettling(why, state.value))
    {
      var reading := host.Monotonic();
      var deadline := reading + host.setup.grace;
      state := Some(entry);
      var again := entry == Populated;
      while again
        invariant host.Valid()
        invariant again ==> state.Some? && host.phase == Cleaning(id, why, SettleClock(deadline))
        invariant !again && state.None? ==> host.phase == Failed
        invariant !again && state.Some? ==> host.phase == Cleaning(id, why, AfterSettling(why, state.value))
        decreases again, deadline - host.now
      {
        again, state := SettleOnce(id, why, deadline);
      }
    }

    /** The group is looked at once more, if time is left. */
    method SettleOnce(id: ProcessIdentity, why: Ending, deadline: int) returns (again: bool, state: Option<GroupState>)
      requires host.setup.Valid() && host.Valid() && host.phase == Cleaning(id, why, SettleClock(deadline))
      modifies host
      ensures host.Valid()
      ensures again ==> state.Some? && host.phase == Cleaning(id, why, SettleClock(deadline))
      ensures again ==> host.now > old(host.now) && old(host.now) < deadline
      ensures !again && state.None? ==> host.phase == Failed
      ensures !again && state.Some? ==> host.phase == Cleaning(id, why, AfterSettling(why, state.value))
    {
      var reading := host.Monotonic();
      if reading >= deadline {
        return false, Some(Populated);
      }
      host.Sleep();
      state := OwnedGroupState(id, why, Settling(deadline));
      again := state == Some(Populated);
    }

    method ReleaseGuardian(id: ProcessIdentity, why: Ending) returns (reaped: bool)
      requires host.setup.Valid() && host.Valid() && host.phase == Cleaning(id, why, WritingControl)
      modifies host
      ensures host.Valid() && host.phase == if reaped then Join(id, why) else Failed
    {
      var control := host.WriteControl();
      if control == WriteFailed {
        return false;
      }
      var exited := host.WaitProcess();
      if !exited {
        return false;
      }
      reaped := WaitForGroupExit(id, why);
    }

    method WaitForGroupExit(id: ProcessIdentity, why: Ending) returns (exited: bool)
      requires host.setup.Valid() && host.Valid() && host.phase == Cleaning(id, why, ArmingDrain)
      modifies host
      ensures host.Valid() && host.phase == if exited then Join(id, why) else Failed
    {
      var reading := host.Monotonic();
      var deadline := reading + host.setup.grace;
      var result: Option<bool> := None;
      while result.None?
        invariant host.Valid()
        invariant host.phase == match result
                                case None => Cleaning(id, why, DrainClock(deadline))
                                case Some(gone) => if gone then Join(id, why) else Failed
        decreases result.None?, deadline - host.now
      {
        result := ProbeOnce(id, why, deadline);
      }
      return result.value;
    }

    method ProbeOnce(id: ProcessIdentity, why: Ending, deadline: int) returns (result: Option<bool>)
      requires host.setup.Valid() && host.Valid() && host.phase == Cleaning(id, why, DrainClock(deadline))
      modifies host
      ensures host.Valid()
      ensures host.phase == match result
                            case None => Cleaning(id, why, DrainClock(deadline))
                            case Some(gone) => if gone then Join(id, why) else Failed
      ensures result.None? ==> host.now > old(host.now) && old(host.now) < deadline
    {
      var reading := host.Monotonic();
      if reading >= deadline {
        return Some(false);
      }
      var answer := host.ProbeGroup();
      if answer == NoSuchGroup {
        return Some(true);
      }
      if answer == ProbeFailed {
        return Some(false);
      }
      host.Sleep();
      return None;
    }
  }
}
