/** `process_reconciler.py`: terminate, release or quarantine one persisted launcher binding. */
module Reconciler {
  import opened Processes

  datatype Binding = Binding(
    jobId: nat,
    attemptId: nat,
    processId: int,
    processGroupId: int,
    userId: Option<int>,
    executable: Option<string>,
    startSeconds: Option<int>,
    startMicroseconds: Option<int>,
    targetExecutable: Option<string>,
    identityVersion: Option<string>)
  {
    function ExpectedIdentity(): Option<ProcessIdentity> {
      if userId.None? || executable.None? || executable.value == "" || startSeconds.None? || startMicroseconds.None?
      then None
      else Some(ProcessIdentity(processId, processGroupId, userId.value, executable.value,
                                startSeconds.value, startMicroseconds.value))
    }
  }

  /** `os.getpid()`, `os.getpgrp()`, `os.getuid()`, and the two timings the constructor accepts. */
  datatype Context = Context(pid: int, pgrp: int, uid: int, grace: int, poll: int) {
    predicate Valid() {
      grace > 0 && poll > 0
    }
  }

  datatype Status = Gone | Terminated | Quarantined

  datatype Reason =
    | ProtectedProcess
    | IncompleteIdentity
    | ForeignOwner
    | VanishedButPopulated
    | GroupGone
    | GroupGoneAfterReuse
    | IdentityMismatch
    | LauncherNotInGroup
    | ChangedBeforeTerm
    | ExitedAfterTerm
    | MembershipChanged
    | ChangedBeforeKill
    | ExitedAfterKill
    | SurvivedKill
    | RuntimeFailed

  datatype Verdict = Verdict(status: Status, reason: Reason) {
    predicate CanRelease() {
      status in {Gone, Terminated}
    }
  }

  /** The checks made before the runtime is touched. */
  function Refusal(c: Context, b: Binding): Option<Reason> {
    if b.processId <= 1 || b.processGroupId <= 1 || b.processId == c.pid || b.processGroupId == c.pgrp then
      Some(ProtectedProcess)
    else if b.identityVersion != Some("darwin_libproc_v1") || b.ExpectedIdentity().None?
            || b.targetExecutable.None? || b.targetExecutable.value == "" then
      Some(IncompleteIdentity)
    else if b.ExpectedIdentity().value.userId != c.uid then
      Some(ForeignOwner)
    else
      None
  }

  predicate VerifiedSubset(remaining: seq<ProcessIdentity>, original: seq<ProcessIdentity>) {
    remaining != [] && forall m <- remaining :: MemberWithPid(original, m.processId) == Some(m)
  }

  /** Where `_wait_for_group_exit` stands; `polls` counts its `list_group` calls. */
  datatype Wait =
    | Arming
    | Polling(deadline: int, polls: nat)
    | Checking(deadline: int, polls: nat, failed: bool)
    | Pausing(deadline: int, polls: nat, duration: int)

  /** Where `reconcile` stands: what the next call will be, or how it ended. */
  datatype Phase =
    | InspectLauncher
    | ListAfterVanish
    | ListAfterMismatch
    | ListOriginal
    | InspectBeforeTerm(original: seq<ProcessIdentity>)
    | SendTerm(original: seq<ProcessIdentity>)
    | Waiting(killed: bool, original: seq<ProcessIdentity>, wait: Wait)
    | ListRemaining(original: seq<ProcessIdentity>)
    | InspectBeforeKill(original: seq<ProcessIdentity>)
    | SendKill(original: seq<ProcessIdentity>)
    | ListSurvivors
    | Finished(verdict: Verdict)
    | Escaped

  function Start(c: Context, b: Binding): Phase {
    match Refusal(c, b)
    case Some(reason) => Finished(Verdict(Quarantined, reason))
    case None => InspectLauncher
  }

  /** The call `reconcile` makes in a phase, whatever it answers. */
  predicate Expects(b: Binding, p: Phase, e: Event) {
    match p
    case InspectLauncher | InspectBeforeTerm(_) | InspectBeforeKill(_) => e.Inspect? && e.processId == b.processId
    case ListAfterVanish | ListAfterMismatch | ListOriginal | ListRemaining(_) | ListSurvivors =>
      e.ListGroup? && e.groupId == b.processGroupId
    case SendTerm(_) => e.SignalGroup? && e.groupId == b.processGroupId && e.signal == SigTerm
    case SendKill(_) => e.SignalGroup? && e.groupId == b.processGroupId && e.signal == SigKill
    case Waiting(_, _, wait) =>
      (match wait
       case Arming | Checking(_, _, _) => e.ReadClock?
       case Polling(_, _) => e.ListGroup? && e.groupId == b.processGroupId
       case Pausing(_, _, duration) => e == Sleep(duration))
    case Finished(_) | Escaped => false
  }

  function Failing(failure: Failure): Phase {
    if Handled(failure) then Finished(Verdict(Quarantined, RuntimeFailed)) else Escaped
  }

  function AdvanceWait(c: Context, p: Phase, e: Event): Phase
    requires p.Waiting?
    requires match p.wait
             case Arming | Checking(_, _, _) => e.ReadClock?
             case Polling(_, _) => e.ListGroup?
             case Pausing(_, _, _) => e.Sleep?
  {
    match p.wait
    case Arming => p.(wait := Polling(e.now + c.grace, 0))
    case Polling(deadline, polls) =>
      (match e.members
       case Raised(failure) =>
         if Transient(failure) then p.(wait := Checking(deadline, polls + 1, true)) else Failing(failure)
       case Returned(members) =>
         if members == [] then
           Finished(Verdict(Terminated, if p.killed then ExitedAfterKill else ExitedAfterTerm))
         else
           p.(wait := Checking(deadline, polls + 1, false)))
    case Checking(deadline, polls, failed) =>
      if deadline - e.now > 0 then p.(wait := Pausing(deadline, polls, Min(c.poll, deadline - e.now)))
      else if failed then Finished(Verdict(Quarantined, RuntimeFailed))
      else if p.killed then ListSurvivors
      else ListRemaining(p.original)
    case Pausing(deadline, polls, _) => p.(wait := Polling(deadline, polls))
  }

  function Advance(c: Context, b: Binding, p: Phase, e: Event): Phase
    requires Refusal(c, b).None? && Expects(b, p, e)
  {
    var expected := b.ExpectedIdentity();
    match p
    case InspectLauncher =>
      (match e.found
       case Raised(failure) => Failing(failure)
       case Returned(observed) =>
         if observed.None? then ListAfterVanish
         else if observed != expected then ListAfterMismatch
         else ListOriginal)
    case ListAfterVanish =>
      (match e.members
       case Raised(failure) => Failing(failure)
       case Returned(members) =>
         Finished(if members == [] then Verdict(Gone, GroupGone) else Verdict(Quarantined, VanishedButPopulated)))
    case ListAfterMismatch =>
      (match e.members
       case Raised(failure) => Failing(failure)
       case Returned(members) =>
         Finished(if members == [] then Verdict(Gone, GroupGoneAfterReuse) else Verdict(Quarantined, IdentityMismatch)))
    case ListOriginal =>
      (match e.members
       case Raised(failure) => Failing(failure)
       case Returned(members) =>
         if MemberWithPid(members, b.processId) != expected then Finished(Verdict(Quarantined, LauncherNotInGroup))
         else InspectBeforeTerm(members))
    case InspectBeforeTerm(original) =>
      (match e.found
       case Raised(failure) => Failing(failure)
       case Returned(observed) =>
         if observed != expected then Finished(Verdict(Quarantined, ChangedBeforeTerm)) else SendTerm(original))
    case SendTerm(original) =>
      if e.outcome.Raised? && e.outcome.failure != ProcessLookupError then Failing(e.outcome.failure)
      else Waiting(false, original, Arming)
    case Waiting(_, _, _) => AdvanceWait(c, p, e)
    case ListRemaining(original) =>
      (match e.members
       case Raised(failure) => Failing(failure)
       case Returned(members) =>
         if VerifiedSubset(members, original) then InspectBeforeKill(original)
         else Finished(Verdict(Quarantined, MembershipChanged)))
    case InspectBeforeKill(original) =>
      (match e.found
       case Raised(failure) => Failing(failure)
       case Returned(observed) =>
         if observed != expected then Finished(Verdict(Quarantined, ChangedBeforeKill)) else SendKill(original))
    case SendKill(original) =>
      if e.outcome.Raised? && e.outcome.failure != ProcessLookupError then Failing(e.outcome.failure)
      else Waiting(true, original, Arming)
    case ListSurvivors =>
      (match e.members
       case Raised(failure) => Failing(failure)
       case Returned(_) => Finished(Verdict(Quarantined, SurvivedKill)))
  }

  /** The phase after a history of calls; None when `reconcile` would not have made those calls. */
  function Replay(c: Context, b: Binding, events: seq<Event>): Option<Phase> {
    if events == [] then Some(Start(c, b))
    else
      var last := events[|events| - 1];
      match Replay(c, b, events[..|events| - 1])
      case None => None
      case Some(p) => if Expects(b, p, last) && Refusal(c, b).None? then Some(Advance(c, b, p, last)) else None
  }

  lemma ReplayExtends(c: Context, b: Binding, events: seq<Event>, e: Event)
    requires Refusal(c, b).None? && Replay(c, b, events).Some? && Expects(b, Replay(c, b, events).value, e)
    ensures Replay(c, b, events + [e]) == Some(Advance(c, b, Replay(c, b, events).value, e))
  {
    assert (events + [e])[..|events|] == events;
  }

  /** `list_group` of the bound group answered with no member. */
  predicate EmptyGroup(b: Binding, e: Event) {
    e == ListGroup(b.processGroupId, Returned([]))
  }

  predicate LauncherVerified(b: Binding, e: Event) {
    e == Inspect(b.processId, Returned(b.ExpectedIdentity()))
  }

  // ---- Signal discipline, for every runtime ----

  /** A signal at k: the bound group, straight after an inspection that returned the exact identity, and
      before that a member snapshot. */
  ghost predicate GuardedSignal(b: Binding, events: seq<Event>, k: int, signal: SignalNumber) {
    && 2 <= k < |events|
    && events[k].SignalGroup? && events[k].groupId == b.processGroupId && events[k].signal == signal
    && LauncherVerified(b, events[k - 1])
    && events[k - 2].ListGroup? && events[k - 2].groupId == b.processGroupId && events[k - 2].members.Returned?
  }

  /** At most one SIGTERM and then at most one SIGKILL.  The launcher belongs to the snapshot before SIGTERM, and
      every member of the snapshot before SIGKILL belongs to it too. */
  ghost predicate SignalDiscipline(b: Binding, events: seq<Event>) {
    || (forall i :: 0 <= i < |events| ==> !events[i].SignalGroup?)
    || (exists term ::
          && GuardedSignal(b, events, term, SigTerm)
          && MemberWithPid(events[term - 2].members.value, b.processId) == b.ExpectedIdentity()
          && ((forall i :: 0 <= i < |events| && events[i].SignalGroup? ==> i == term)
              || exists kill ::
                   && term < kill && GuardedSignal(b, events, kill, SigKill)
                   && VerifiedSubset(events[kill - 2].members.value, events[term - 2].members.value)
                   && forall i :: 0 <= i < |events| && events[i].SignalGroup? ==> i == term || i == kill))
  }

  ghost predicate NoSignal(events: seq<Event>) {
    forall i :: 0 <= i < |events| ==> !events[i].SignalGroup?
  }

  ghost predicate TermSent(b: Binding, events: seq<Event>, original: seq<ProcessIdentity>) {
    && |events| > 3 && GuardedSignal(b, events, 3, SigTerm) && events[1].members == Returned(original)
    && MemberWithPid(original, b.processId) == b.ExpectedIdentity()
  }

  ghost predicate OnlyTerm(events: seq<Event>) {
    forall i :: 0 <= i < |events| && events[i].SignalGroup? ==> i == 3
  }

  ghost predicate KillSent(b: Binding, events: seq<Event>, kill: int, original: seq<ProcessIdentity>) {
    && 3 < kill && GuardedSignal(b, events, kill, SigKill)
    && VerifiedSubset(events[kill - 2].members.value, original)
    && forall i :: 0 <= i < |events| && events[i].SignalGroup? ==> i == 3 || i == kill
  }

  /** What each phase says about the calls already made. */
  ghost predicate PhaseHistory(b: Binding, p: Phase, events: seq<Event>) {
    var n := |events|;
    match p
    case InspectLauncher => n == 0
    case ListAfterVanish | ListAfterMismatch => NoSignal(events)
    case ListOriginal => n == 1 && NoSignal(events)
    case InspectBeforeTerm(original) =>
      && n == 2 && NoSignal(events) && events[1] == ListGroup(b.processGroupId, Returned(original))
      && MemberWithPid(original, b.processId) == b.ExpectedIdentity()
    case SendTerm(original) =>
      && n == 3 && NoSignal(events) && events[1] == ListGroup(b.processGroupId, Returned(original))
      && LauncherVerified(b, events[2])
      && MemberWithPid(original, b.processId) == b.ExpectedIdentity()
    case Waiting(killed, original, _) =>
      && TermSent(b, events, original)
      && (if killed then exists kill :: KillSent(b, events, kill, original) else OnlyTerm(events))
    case ListRemaining(original) => TermSent(b, events, original) && OnlyTerm(events)
    case InspectBeforeKill(original) =>
      && n > 4 && TermSent(b, events, original) && OnlyTerm(events)
      && events[n - 1].ListGroup? && events[n - 1].groupId == b.processGroupId && events[n - 1].members.Returned?
      && VerifiedSubset(events[n - 1].members.value, original)
    case SendKill(original) =>
      && n > 5 && TermSent(b, events, original) && OnlyTerm(events)
      && events[n - 2].ListGroup? && events[n - 2].groupId == b.processGroupId && events[n - 2].members.Returned?
      && VerifiedSubset(events[n - 2].members.value, original)
      && LauncherVerified(b, events[n - 1])
    case ListSurvivors => SignalDiscipline(b, events)
    case Finished(_) | Escaped => SignalDiscipline(b, events)
  }

  lemma HistoryGivesDiscipline(b: Binding, p: Phase, events: seq<Event>)
    requires PhaseHistory(b, p, events)
    ensures SignalDiscipline(b, events)
  {
    match p
    case Waiting(killed, original, _) =>
      if killed {
        var kill :| KillSent(b, events, kill, original);
        assert GuardedSignal(b, events, 3, SigTerm);
        assert GuardedSignal(b, events, kill, SigKill);
      } else {
        assert GuardedSignal(b, events, 3, SigTerm);
      }
    case ListRemaining(_) | InspectBeforeKill(_) | SendKill(_) => assert GuardedSignal(b, events, 3, SigTerm);
    case _ =>
  }

  lemma SignalsPersist(b: Binding, events: seq<Event>, e: Event)
    ensures forall k, s :: GuardedSignal(b, events, k, s) ==> GuardedSignal(b, events + [e], k, s)
    ensures forall original :: TermSent(b, events, original) ==> TermSent(b, events + [e], original)
    ensures !e.SignalGroup? && NoSignal(events) ==> NoSignal(events + [e])
    ensures !e.SignalGroup? && OnlyTerm(events) ==> OnlyTerm(events + [e])
    ensures !e.SignalGroup? ==>
              forall k, original :: KillSent(b, events, k, original) ==> KillSent(b, events + [e], k, original)
  {
    assert forall i :: 0 <= i < |events| ==> (events + [e])[i] == events[i];
  }

  lemma DisciplinePersists(b: Binding, events: seq<Event>, e: Event)
    requires SignalDiscipline(b, events) && !e.SignalGroup?
    ensures SignalDiscipline(b, events + [e])
  {
    var later := events + [e];
    SignalsPersist(b, events, e);
    if !NoSignal(events) {
      var term :| && GuardedSignal(b, events, term, SigTerm)
          && MemberWithPid(events[term - 2].members.value, b.processId) == b.ExpectedIdentity()
          && ((forall i :: 0 <= i < |events| && events[i].SignalGroup? ==> i == term)
              || exists kill ::
                   && term < kill && GuardedSignal(b, events, kill, SigKill)
                   && VerifiedSubset(events[kill - 2].members.value, events[term - 2].members.value)
                   && forall i :: 0 <= i < |events| && events[i].SignalGroup? ==> i == term || i == kill);
      assert GuardedSignal(b, later, term, SigTerm);
      assert later[term - 2] == events[term - 2];
    }
  }

  lemma EarlyStep(c: Context, b: Binding, p: Phase, events: seq<Event>, e: Event)
    requires Refusal(c, b).None? && Expects(b, p, e) && PhaseHistory(b, p, events)
    requires p.InspectLauncher? || p.ListAfterVanish? || p.ListAfterMismatch? || p.ListOriginal? || p.InspectBeforeTerm?
             || p.ListSurvivors?
    ensures PhaseHistory(b, Advance(c, b, p, e), events + [e])
  {
    SignalsPersist(b, events, e);
    DisciplinePersists(b, events, e);
  }

  lemma SignalStep(c: Context, b: Binding, p: Phase, events: seq<Event>, e: Event)
    requires Refusal(c, b).None? && Expects(b, p, e) && PhaseHistory(b, p, events)
    requires p.SendTerm? || p.SendKill?
    ensures PhaseHistory(b, Advance(c, b, p, e), events + [e])
  {
    var later := events + [e];
    SignalsPersist(b, events, e);
    if p.SendTerm? {
      assert TermSent(b, later, p.original) && OnlyTerm(later);
      HistoryGivesDiscipline(b, ListRemaining(p.original), later);
    } else {
      assert KillSent(b, later, |events|, p.original);
      HistoryGivesDiscipline(b, Waiting(true, p.original, Arming), later);
    }
  }

  lemma WaitStep(c: Context, b: Binding, p: Phase, events: seq<Event>, e: Event)
    requires Refusal(c, b).None? && Expects(b, p, e) && PhaseHistory(b, p, events)
    requires p.Waiting?
    ensures PhaseHistory(b, Advance(c, b, p, e), events + [e])
  {
    var later := p.(wait := Arming);
    assert PhaseHistory(b, later, events + [e]) by {
      SignalsPersist(b, events, e);
      if p.killed {
        var kill :| KillSent(b, events, kill, p.original);
        assert KillSent(b, events + [e], kill, p.original);
      }
    }
    HistoryGivesDiscipline(b, later, events + [e]);
  }

  lemma RemainingStep(c: Context, b: Binding, p: Phase, events: seq<Event>, e: Event)
    requires Refusal(c, b).None? && Expects(b, p, e) && PhaseHistory(b, p, events)
    requires p.ListRemaining? || p.InspectBeforeKill?
    ensures PhaseHistory(b, Advance(c, b, p, e), events + [e])
  {
    SignalsPersist(b, events, e);
    HistoryGivesDiscipline(b, ListRemaining(p.original), events + [e]);
  }

  lemma HistoryStep(c: Context, b: Binding, p: Phase, events: seq<Event>, e: Event)
    requires Refusal(c, b).None? && Expects(b, p, e) && PhaseHistory(b, p, events)
    ensures PhaseHistory(b, Advance(c, b, p, e), events + [e])
  {
    match p
    case SendTerm(_) | SendKill(_) => SignalStep(c, b, p, events, e);
    case Waiting(_, _, _) => WaitStep(c, b, p, events, e);
    case ListRemaining(_) | InspectBeforeKill(_) => RemainingStep(c, b, p, events, e);
    case _ => EarlyStep(c, b, p, events, e);
  }

  lemma {:induction false} ReplayHistory(c: Context, b: Binding, events: seq<Event>)
    requires Replay(c, b, events).Some?
    ensures PhaseHistory(b, Replay(c, b, events).value, events)
  {
    if events != [] {
      var n := |events| - 1;
      var before, e := events[..n], events[n];
      assert events == before + [e];
      var p := Replay(c, b, before).value;
      ReplayHistory(c, b, before);
      HistoryStep(c, b, p, before, e);
    }
  }

  /** Whatever the runtime answers, signals stay inside the discipline, and a refused binding makes no call. */
  lemma SignalsAreDisciplined(c: Context, b: Binding, events: seq<Event>)
    requires Replay(c, b, events).Some?
    ensures SignalDiscipline(b, events)
    ensures Refusal(c, b).Some? ==>
              events == [] && Replay(c, b, events).value == Finished(Verdict(Quarantined, Refusal(c, b).value))
  {
    ReplayHistory(c, b, events);
    HistoryGivesDiscipline(b, Replay(c, b, events).value, events);
  }

  // ---- Release rule ----

  /** The first inspection answered, but not with the recorded identity. */
  predicate LauncherNotFound(b: Binding, e: Event) {
    e.Inspect? && e.found.Returned? && e.found.value != b.ExpectedIdentity()
  }

  /** What precedes the call that may release: nothing but the failed inspection, or a signal and its polling. */
  ghost predicate BeforeRelease(b: Binding, p: Phase, events: seq<Event>) {
    var n := |events|;
    match p
    case InspectLauncher => n == 0
    case ListAfterVanish | ListAfterMismatch => n == 1 && LauncherNotFound(b, events[0])
    case Waiting(_, _, Arming) => n >= 4 && events[n - 1].SignalGroup?
    case Waiting(_, _, Polling(_, _)) =>
      n >= 5 && (events[n - 1].Sleep? || (events[n - 1].ReadClock? && events[n - 2].SignalGroup?))
    case Waiting(_, _, _) => n >= 6
    case ListOriginal => n == 1
    case InspectBeforeTerm(_) => n == 2
    case SendTerm(_) => n == 3
    case ListRemaining(_) | InspectBeforeKill(_) | SendKill(_) => n >= 6
    case ListSurvivors | Finished(_) | Escaped => true
  }

  lemma BeforeReleaseStep(c: Context, b: Binding, p: Phase, events: seq<Event>, e: Event)
    requires Refusal(c, b).None? && Expects(b, p, e) && BeforeRelease(b, p, events)
    ensures BeforeRelease(b, Advance(c, b, p, e), events + [e])
  {
    assert forall i :: 0 <= i < |events| ==> (events + [e])[i] == events[i];
  }

  lemma {:induction false} ReplayBeforeRelease(c: Context, b: Binding, events: seq<Event>)
    requires Replay(c, b, events).Some?
    ensures BeforeRelease(b, Replay(c, b, events).value, events)
  {
    if events != [] {
      var n := |events| - 1;
      ReplayBeforeRelease(c, b, events[..n]);
      BeforeReleaseStep(c, b, Replay(c, b, events[..n]).value, events[..n], events[n]);
      assert events[..n] + [events[n]] == events;
    }
  }

  /** The group was last polled, not merely listed: the call follows a sleep or the arming of a wait. */
  predicate PolledLast(events: seq<Event>) {
    var n := |events|;
    n >= 6 && (events[n - 2].Sleep? || (events[n - 2].ReadClock? && events[n - 3].SignalGroup?))
  }

  /** Exactly when a binding is released: its group answered empty to the last call, and that call either follows
      a first inspection that did not find the launcher or is a poll after a signal. */
  lemma ReleaseRule(c: Context, b: Binding, events: seq<Event>)
    requires Replay(c, b, events).Some? && Replay(c, b, events).value.Finished?
    ensures var v := Replay(c, b, events).value.verdict; var n := |events|;
            && (v.status == Gone <==> n == 2 && LauncherNotFound(b, events[0]) && EmptyGroup(b, events[1]))
            && (v.status == Terminated <==> n >= 6 && EmptyGroup(b, events[n - 1]) && PolledLast(events))
            && (v.CanRelease() ==> n > 0 && EmptyGroup(b, events[n - 1]))
  {
    if events != [] {
      var n := |events| - 1;
      ReplayBeforeRelease(c, b, events[..n]);
      assert events[..n] + [events[n]] == events;
    }
  }

  /** One step: only an empty listing of the bound group turns a reconcile into a release. */
  lemma ReleaseSeesEmptyGroup(c: Context, b: Binding, p: Phase, e: Event)
    requires Refusal(c, b).None? && Expects(b, p, e)
    requires Advance(c, b, p, e).Finished? && Advance(c, b, p, e).verdict.CanRelease()
    ensures EmptyGroup(b, e)
  {
  }

  // ---- Time bound ----

  function CeilDiv(a: int, b: int): int
    requires b > 0
  {
    (a + b - 1) / b
  }

  /** With a clock that only moves in Sleep: how long the current wait has slept, and when it began. */
  ghost predicate WaitTiming(c: Context, start: int, slept: int, wait: Wait) {
    var grace, poll := c.grace, c.poll;
    match wait
    case Arming => true
    case Polling(deadline, polls) =>
      start <= deadline - grace && start + slept == deadline - grace + Min(polls * poll, grace)
      && (polls - 1) * poll < grace
    case Checking(deadline, polls, _) =>
      start <= deadline - grace && polls >= 1 && start + slept == deadline - grace + Min((polls - 1) * poll, grace)
      && (polls - 2) * poll < grace
    case Pausing(deadline, polls, duration) =>
      start <= deadline - grace && polls >= 1 && start + slept == deadline - grace + (polls - 1) * poll
      && (polls - 1) * poll < grace && duration == Min(poll, grace - (polls - 1) * poll)
  }

  /** Each of the two waits sleeps at most the grace period. */
  ghost predicate Timing(c: Context, p: Phase, start: int, slept: int) {
    match p
    case InspectLauncher | ListAfterVanish | ListAfterMismatch | ListOriginal | InspectBeforeTerm(_) | SendTerm(_) =>
      slept == 0
    case Waiting(killed, _, wait) =>
      && WaitTiming(c, start, slept, wait)
      && (match wait
          case Arming => slept <= if killed then c.grace else 0
          case Polling(deadline, _) => deadline - start <= if killed then 2 * c.grace else c.grace
          case Checking(deadline, _, _) => deadline - start <= if killed then 2 * c.grace else c.grace
          case Pausing(deadline, _, _) => deadline - start <= if killed then 2 * c.grace else c.grace)
    case ListRemaining(_) | InspectBeforeKill(_) | SendKill(_) => slept <= c.grace
    case ListSurvivors | Finished(_) | Escaped => slept <= 2 * c.grace
  }

  lemma TimingStep(c: Context, b: Binding, p: Phase, e: Event, start: int, slept: int)
    requires c.Valid() && Refusal(c, b).None? && Expects(b, p, e) && Timing(c, p, start, slept)
    requires slept >= 0 && (e.ReadClock? ==> e.now == start + slept)
    ensures Timing(c, Advance(c, b, p, e), start, slept + if e.Sleep? then e.duration else 0)
  {
    if p.Waiting? && p.wait.Pausing? {
      var polls, poll := p.wait.polls, c.poll;
      assert polls * poll == (polls - 1) * poll + poll;
    } else if p.Waiting? && p.wait.Polling? {
      var polls, poll := p.wait.polls, c.poll;
      assert (polls + 1 - 2) * poll == (polls - 1) * poll;
      assert (polls + 1 - 1) * poll == polls * poll;
    }
  }

  lemma {:induction false} ReplayTiming(c: Context, b: Binding, events: seq<Event>, start: int)
    requires c.Valid() && Replay(c, b, events).Some? && ExactClock(events, start)
    ensures Slept(events) >= 0 && Timing(c, Replay(c, b, events).value, start, Slept(events))
  {
    if events != [] {
      var n := |events| - 1;
      forall i | 0 <= i < n && events[..n][i].ReadClock?
        ensures events[..n][i].now == start + Slept(events[..n][..i])
      {
        assert events[..n][..i] == events[..i];
      }
      ReplayTiming(c, b, events[..n], start);
      TimingStep(c, b, Replay(c, b, events[..n]).value, events[n], start, Slept(events[..n]));
    }
  }

  lemma PollCount(c: Context, polls: int)
    requires c.Valid() && (polls - 2) * c.poll < c.grace
    ensures polls <= CeilDiv(c.grace, c.poll) + 1
  {
    var q := CeilDiv(c.grace, c.poll);
    assert c.grace + c.poll - 1 == q * c.poll + (c.grace + c.poll - 1) % c.poll;
    LessFactor(polls - 2, q, c.poll);
  }

  lemma LessFactor(x: int, y: int, k: int)
    requires k > 0 && x * k < y * k
    ensures x < y
  {
  }

  /** With an exact clock a wait polls at most ceil(grace / poll) + 1 times, a reconcile sleeps at most twice the
      grace period, and so it ends inside any lease the adapter accepts. */
  lemma ReconcileTimeBound(c: Context, b: Binding, events: seq<Event>, start: int, lease: int)
    requires c.Valid() && Replay(c, b, events).Some? && ExactClock(events, start)
    requires lease > 2 * c.grace + c.poll
    ensures Slept(events) <= 2 * c.grace < lease
    ensures var p := Replay(c, b, events).value;
            && (p.Waiting? && p.wait.Polling? ==> p.wait.polls <= CeilDiv(c.grace, c.poll))
            && (p.Waiting? && p.wait.Checking? ==> p.wait.polls <= CeilDiv(c.grace, c.poll) + 1)
  {
    ReplayTiming(c, b, events, start);
    var p := Replay(c, b, events).value;
    if p.Waiting? && p.wait.Checking? {
      PollCount(c, p.wait.polls);
    } else if p.Waiting? && p.wait.Polling? {
      PollCount(c, p.wait.polls + 1);
    }
  }

  // ---- The method ----

  /** Any operating system and any clock that never runs backwards: answers and delays are arbitrary. */
  class Runtime {
    ghost var calls: seq<Event>
    var now: int

    constructor () {
      calls := [];
      now := *;
    }

    method Inspect(processId: int) returns (found: Reply<Option<ProcessIdentity>>)
      modifies this
      ensures calls == old(calls) + [Event.Inspect(processId, found)] && now >= old(now)
    {
      found := *;
      calls := calls + [Event.Inspect(processId, found)];
      var later :| later >= now;
      now := later;
    }

    method ListGroup(groupId: int) returns (members: Reply<seq<ProcessIdentity>>)
      modifies this
      ensures calls == old(calls) + [Event.ListGroup(groupId, members)] && now >= old(now)
    {
      members := *;
      calls := calls + [Event.ListGroup(groupId, members)];
      var later :| later >= now;
      now := later;
    }

    method SignalGroup(groupId: int, signal: SignalNumber) returns (outcome: Reply<()>)
      modifies this
      ensures calls == old(calls) + [Event.SignalGroup(groupId, signal, outcome)] && now >= old(now)
    {
      outcome := *;
      calls := calls + [Event.SignalGroup(groupId, signal, outcome)];
      var later :| later >= now;
      now := later;
    }

    method Monotonic() returns (reading: int)
      modifies this
      ensures calls == old(calls) + [ReadClock(reading)] && reading == now >= old(now)
    {
      var later :| later >= now;
      now := later;
      reading := now;
      calls := calls + [ReadClock(reading)];
    }

    method Sleep(duration: int)
      modifies this
      ensures calls == old(calls) + [Event.Sleep(duration)] && now >= old(now) + duration
    {
      calls := calls + [Event.Sleep(duration)];
      var later :| later >= now + duration;
      now := later;
    }
  }

  datatype Outcome<+T> = Answer(value: T) | Propagate(failure: Failure)

  class ExternalProcessReconciler {
    const context: Context
    const runtime: Runtime

    constructor (context: Context, runtime: Runtime)
      requires context.Valid()
      ensures this.context == context && this.runtime == runtime
    {
      this.context := context;
      this.runtime := runtime;
    }

    /** The calls since `from` are those `reconcile` makes, and they led to p. */
    ghost predicate Reached(b: Binding, from: seq<Event>, p: Phase)
      reads runtime
    {
      && from <= runtime.calls
      && Replay(context, b, runtime.calls[|from|..]) == Some(p)
    }

    lemma Follow(b: Binding, from: seq<Event>, calls: seq<Event>, p: Phase, e: Event)
      requires Refusal(context, b).None? && from <= calls
      requires Replay(context, b, calls[|from|..]) == Some(p) && Expects(b, p, e)
      ensures from <= calls + [e]
      ensures Replay(context, b, (calls + [e])[|from|..]) == Some(Advance(context, b, p, e))
    {
      ReplayExtends(context, b, calls[|from|..], e);
      assert (calls + [e])[|from|..] == calls[|from|..] + [e];
    }

    method WaitForGroupExit(b: Binding, ghost from: seq<Event>, ghost start: Phase) returns (r: Outcome<bool>)
      requires context.Valid() && Refusal(context, b).None?
      requires start.Waiting? && start.wait.Arming? && Reached(b, from, start)
      modifies runtime
      ensures r == Answer(true) ==>
                Reached(b, from,
                        Finished(Verdict(Terminated, if start.killed then ExitedAfterKill else ExitedAfterTerm)))
      ensures r == Answer(false) ==>
                Reached(b, from, if start.killed then ListSurvivors else ListRemaining(start.original))
      ensures r.Propagate? ==> Reached(b, from, Failing(r.failure))
    {
      ghost var p := start;
      ghost var calls := runtime.calls;
      var reading := runtime.Monotonic();
      Follow(b, from, calls, p, ReadClock(reading));
      p := Advance(context, b, p, ReadClock(reading));
      var deadline := reading + context.grace;
      while true
        invariant p.Waiting? && p.killed == start.killed && p.original == start.original
        invariant p.wait.Polling? && p.wait.deadline == deadline
        invariant Reached(b, from, p)
        decreases deadline - runtime.now
      {
        ghost var before := runtime.now;
        calls := runtime.calls;
        var members := runtime.ListGroup(b.processGroupId);
        Follow(b, from, calls, p, ListGroup(b.processGroupId, members));
        p := Advance(context, b, p, ListGroup(b.processGroupId, members));
        if members.Raised? && !Transient(members.failure) {
          return Propagate(members.failure);
        }
        if members.Returned? && members.value == [] {
          return Answer(true);
        }
        calls := runtime.calls;
        reading := runtime.Monotonic();
        Follow(b, from, calls, p, ReadClock(reading));
        p := Advance(context, b, p, ReadClock(reading));
        var remaining := deadline - reading;
        if remaining <= 0 {
          return if members.Raised? then Propagate(members.failure) else Answer(false);
        }
        calls := runtime.calls;
        var pause := Min(context.poll, remaining);
        runtime.Sleep(pause);
        Follow(b, from, calls, p, Event.Sleep(pause));
        p := Advance(context, b, p, Event.Sleep(pause));
      }
    }

    /** The result, or the exception that escapes, is the one the calls made lead to. */
    method Reconcile(b: Binding) returns (r: Outcome<Verdict>)
      requires context.Valid()
      modifies runtime
      ensures r.Answer? ==> Reached(b, old(runtime.calls), Finished(r.value))
      ensures r.Propagate? ==> Reached(b, old(runtime.calls), Escaped) && !Handled(r.failure)
    {
      ghost var from := runtime.calls;
      assert runtime.calls[|from|..] == [];
      var refusal := Refusal(context, b);
      if refusal.Some? {
        return Answer(Verdict(Quarantined, refusal.value));
      }
      r := ReconcileVerified(b, from);
      if r.Propagate? && Handled(r.failure) {
        r := Answer(Verdict(Quarantined, RuntimeFailed));
      }
    }

    /** The body of the `try`: an exception leaves as Propagate. */
    method ReconcileVerified(b: Binding, ghost from: seq<Event>) returns (r: Outcome<Verdict>)
      requires context.Valid() && Refusal(context, b).None?
      requires Reached(b, from, InspectLauncher)
      modifies runtime
      ensures r.Answer? ==> Reached(b, from, Finished(r.value))
      ensures r.Propagate? ==> Reached(b, from, Failing(r.failure))
    {
      var expected := b.ExpectedIdentity();
      ghost var calls := runtime.calls;
      var observed := runtime.Inspect(b.processId);
      Follow(b, from, calls, InspectLauncher, Inspect(b.processId, observed));
      if observed.Raised? {
        return Propagate(observed.failure);
      }
      if observed.value != expected {
        var vanished := observed.value.None?;
        calls := runtime.calls;
        var members := runtime.ListGroup(b.processGroupId);
        Follow(b, from, calls, if vanished then ListAfterVanish else ListAfterMismatch,
               ListGroup(b.processGroupId, members));
        if members.Raised? {
          return Propagate(members.failure);
        }
        if members.value == [] {
          return Answer(Verdict(Gone, if vanished then GroupGone else GroupGoneAfterReuse));
        }
        return Answer(Verdict(Quarantined, if vanished then VanishedButPopulated else IdentityMismatch));
      }

      calls := runtime.calls;
      var original := runtime.ListGroup(b.processGroupId);
      Follow(b, from, calls, ListOriginal, ListGroup(b.processGroupId, original));
      if original.Raised? {
        return Propagate(original.failure);
      }
      if MemberWithPid(original.value, b.processId) != expected {
        return Answer(Verdict(Quarantined, LauncherNotInGroup));
      }
      calls := runtime.calls;
      observed := runtime.Inspect(b.processId);
      Follow(b, from, calls, InspectBeforeTerm(original.value), Inspect(b.processId, observed));
      if observed.Raised? {
        return Propagate(observed.failure);
      }
      if observed.value != expected {
        return Answer(Verdict(Quarantined, ChangedBeforeTerm));
      }
      r := SignalAndWait(b, from, original.value, false);
      if r.Propagate? || r.value.status == Terminated {
        return;
      }

      calls := runtime.calls;
      var remaining := runtime.ListGroup(b.processGroupId);
      Follow(b, from, calls, ListRemaining(original.value), ListGroup(b.processGroupId, remaining));
      if remaining.Raised? {
        return Propagate(remaining.failure);
      }
      if !VerifiedSubset(remaining.value, original.value) {
        return Answer(Verdict(Quarantined, MembershipChanged));
      }
      calls := runtime.calls;
      observed := runtime.Inspect(b.processId);
      Follow(b, from, calls, InspectBeforeKill(original.value), Inspect(b.processId, observed));
      if observed.Raised? {
        return Propagate(observed.failure);
      }
      if observed.value != expected {
        return Answer(Verdict(Quarantined, ChangedBeforeKill));
      }
      r := SignalAndWait(b, from, original.value, true);
      if r.Propagate? || r.value.status == Terminated {
        return;
      }
      calls := runtime.calls;
      var survivors := runtime.ListGroup(b.processGroupId);
      Follow(b, from, calls, ListSurvivors, ListGroup(b.processGroupId, survivors));
      if survivors.Raised? {
        return Propagate(survivors.failure);
      }
      return Answer(Verdict(Quarantined, SurvivedKill));
    }

    /** One signal, a vanished group being no error, then the wait; Quarantined means that the group is still there. */
    method SignalAndWait(b: Binding, ghost from: seq<Event>, original: seq<ProcessIdentity>, kill: bool)
      returns (r: Outcome<Verdict>)
      requires context.Valid() && Refusal(context, b).None?
      requires Reached(b, from, if kill then SendKill(original) else SendTerm(original))
      modifies runtime
      ensures r.Answer? && r.value.status == Terminated ==> Reached(b, from, Finished(r.value))
      ensures r.Answer? && r.value.status != Terminated ==>
                Reached(b, from, if kill then ListSurvivors else ListRemaining(original))
      ensures r.Propagate? ==> Reached(b, from, Failing(r.failure))
    {
      ghost var p := if kill then SendKill(original) else SendTerm(original);
      ghost var calls := runtime.calls;
      var signal := if kill then SigKill else SigTerm;
      var outcome := runtime.SignalGroup(b.processGroupId, signal);
      Follow(b, from, calls, p, SignalGroup(b.processGroupId, signal, outcome));
      if outcome.Raised? && outcome.failure != ProcessLookupError {
        return Propagate(outcome.failure);
      }
      var exited := WaitForGroupExit(b, from, Waiting(kill, original, Arming));
      match exited {
        case Propagate(failure) => r := Propagate(failure);
        case Answer(true) => r := Answer(Verdict(Terminated, if kill then ExitedAfterKill else ExitedAfterTerm));
        case Answer(false) => r := Answer(Verdict(Quarantined, if kill then SurvivedKill else MembershipChanged));
      }
    }
  }
}
