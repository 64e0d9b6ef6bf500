/** The operating-system boundary: kernel identities, the calls a supervisor makes, and what they may answer. */
module Processes {

  datatype Option<+T> = None | Some(value: T)

  /** Changes whenever a PID is reused: the birth time is part of it. */
  datatype ProcessIdentity = ProcessIdentity(
    processId: int,
    processGroupId: int,
    userId: int,
    executable: string,
    startSeconds: int,
    startMicroseconds: int)

  datatype SignalNumber = SigTerm | SigKill

  /** `ProcessLookupError` is an `OSError`; `OtherError` is any exception outside the handled classes. */
  datatype Failure = OsError | ProcessLookupError | InspectionError | InvalidValue | OtherError

  /** `except (OSError, ProcessInspectionError, ValueError)` */
  predicate Handled(failure: Failure) {
    failure != OtherError
  }

  /** `except (OSError, ProcessInspectionError)` */
  predicate Transient(failure: Failure) {
    failure in {OsError, ProcessLookupError, InspectionError}
  }

  datatype Reply<+T> = Returned(value: T) | Raised(failure: Failure)

  /** One call on the runtime or the clock, with its answer.  Time is an integer in any fixed unit. */
  datatype Event =
    | Inspect(processId: int, found: Reply<Option<ProcessIdentity>>)
    | ListGroup(groupId: int, members: Reply<seq<ProcessIdentity>>)
    | SignalGroup(groupId: int, signal: SignalNumber, outcome: Reply<()>)
    | ReadClock(now: int)
    | Sleep(duration: int)

  /** `{identity.process_id: identity for identity in members}.get(processId)`: the last entry wins. */
  function MemberWithPid(members: seq<ProcessIdentity>, processId: int): (r: Option<ProcessIdentity>)
    ensures r.Some? ==> r.value in members && r.value.processId == processId
    ensures r.None? <==> forall m <- members :: m.processId != processId
  {
    if members == [] then None
    else if members[|members| - 1].processId == processId then Some(members[|members| - 1])
    else MemberWithPid(members[..|members| - 1], processId)
  }

  function Min(a: int, b: int): int {
    if a <= b then a else b
  }

  /** Total time spent in `Sleep`. */
  function Slept(events: seq<Event>): int {
    if events == [] then 0
    else
      var last := events[|events| - 1];
      Slept(events[..|events| - 1]) + if last.Sleep? then last.duration else 0
  }

  /** A clock that moves only while its owner sleeps, and then by exactly the time asked for. */
  ghost predicate ExactClock(events: seq<Event>, start: int) {
    forall i :: 0 <= i < |events| && events[i].ReadClock? ==> events[i].now == start + Slept(events[..i])
  }
}
