/** `_inspect_stable_guardian`: the identity under which a guardian is recorded was held for a whole window. */
module StableGuardian {
  import opened Processes
  import opened Reconciler

  /** Milliseconds. */
  const WINDOW := 50
  const PAUSE := 10
  const LIMIT := 2000

  /** An inspection found this identity, and the clock was then read. */
  predicate FoundAt(processId: int, identity: ProcessIdentity, calls: seq<Event>, i: int) {
    && 0 <= i < |calls| - 1
    && calls[i] == Event.Inspect(processId, Returned(Some(identity)))
    && calls[i + 1].ReadClock?
  }

  /** No inspection from call i on found anything else. */
  predicate OnlySince(processId: int, identity: ProcessIdentity, calls: seq<Event>, i: int) {
    forall j | 0 <= i <= j < |calls| && calls[j].Inspect? ::
      calls[j] == Event.Inspect(processId, Returned(Some(identity)))
  }

  /** Two inspections a window apart found this identity, the last one now, and none between found another. */
  predicate HeldForWindow(processId: int, identity: ProcessIdentity, calls: seq<Event>) {
    && FoundAt(processId, identity, calls, |calls| - 2)
    && exists i | 0 <= i < |calls| - 2 ::
      && FoundAt(processId, identity, calls, i)
      && OnlySince(processId, identity, calls, i)
      && calls[|calls| - 1].now - calls[i + 1].now >= WINDOW
  }

  method InspectStableGuardian(runtime: Runtime, processId: int, grace: int) returns (r: Reply<ProcessIdentity>)
    modifies runtime
    ensures old(runtime.calls) <= runtime.calls
    ensures r.Returned? ==>
              && r.value.processId == r.value.processGroupId == processId
              && HeldForWindow(processId, r.value, runtime.calls[|old(runtime.calls)|..])
  {
    ghost var from := |runtime.calls|;
    var start := runtime.Monotonic();
    var deadline := start + Min(LIMIT, grace * 10);
    var previous: Option<ProcessIdentity>, stableSince := None, 0;
    ghost var since := 0;
    while true
      invariant old(runtime.calls) <= runtime.calls && from == |old(runtime.calls)|
      invariant previous.Some? ==>
                  && previous.value.processId == previous.value.processGroupId == processId
                  && FoundAt(processId, previous.value, runtime.calls[from..], since)
                  && OnlySince(processId, previous.value, runtime.calls[from..], since)
                  && runtime.calls[from..][since + 1].now == stableSince
      decreases deadline - runtime.now
    {
      var reading := runtime.Monotonic();
      if reading >= deadline {
        return Raised(OtherError);
      }
      ghost var before := runtime.calls[from..];
      var found := runtime.Inspect(processId);
      if found.Raised? && found.failure != InspectionError {
        return Raised(found.failure);
      }
      var observed := if found.Returned? then found.value else None;
      var now := runtime.Monotonic();
      ghost var calls := runtime.calls[from..];
      assert calls == before + [Event.Inspect(processId, found), ReadClock(now)];
      if observed.None? || observed.value.processId != processId || observed.value.processGroupId != processId {
        previous := None;
      } else if observed != previous {
        previous, stableSince, since := observed, now, |before|;
      } else if now - stableSince >= WINDOW {
        assert FoundAt(processId, observed.value, calls, |before|);
        assert FoundAt(processId, observed.value, calls, since);
        return Returned(observed.value);
      }
      assert previous.Some? ==>
          FoundAt(processId, previous.value, calls, since) && OnlySince(processId, previous.value, calls, since);
      runtime.Sleep(PAUSE);
      assert runtime.calls[from..] == calls + [Event.Sleep(PAUSE)];
    }
  }
}
