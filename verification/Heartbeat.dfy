/** `Scheduler._heartbeat`: a lease is renewed from inside the previous one.  Store calls take no time here. */
module Heartbeat {

  datatype Answer = Accepted | Refused | StorageError

  /** `lease_seconds`, `heartbeat_interval_seconds`, `heartbeat_error_retries`. */
  datatype Timing = Timing(lease: real, interval: real, retries: nat) {
    /** What the constructor accepts. */
    predicate Valid() {
      0.0 < interval < lease
    }

    /** `min(0.05, interval / 10.0)` */
    function Pause(): real {
      if interval / 10.0 < 0.05 then interval / 10.0 else 0.05
    }

    /** Even the last retry of a beat comes before the lease expires. */
    predicate Safe() {
      interval + retries as real * Pause() < lease
    }
  }

  /** The default interval. */
  function Default(lease: real, retries: nat): Timing {
    Timing(lease, lease / 3.0, retries)
  }

  datatype Beat = Renewed(at: real) | LeaseLost(at: real) | StorageFailure(at: real)

  /** When retry number k of a beat that began to sleep at `start` reaches the store. */
  function RetryTime(t: Timing, start: real, k: nat): real {
    start + t.interval + k as real * t.Pause()
  }

  /** The retry that settles a beat: the first that the store answers. */
  ghost predicate Settles(t: Timing, answers: nat -> Answer, k: nat) {
    k <= t.retries && answers(k) != StorageError && forall i: nat :: i < k ==> answers(i) == StorageError
  }

  /** Within the retries the store answers, and first with an acceptance. */
  ghost predicate Renews(t: Timing, answers: nat -> Answer) {
    exists k: nat :: Settles(t, answers, k) && answers(k) == Accepted
  }

  /** Within the retries the store answers, and first with a refusal. */
  ghost predicate Loses(t: Timing, answers: nat -> Answer) {
    exists k: nat :: Settles(t, answers, k) && answers(k) == Refused
  }

  ghost predicate NeverAnswered(t: Timing, answers: nat -> Answer) {
    forall k: nat :: k <= t.retries ==> answers(k) == StorageError
  }

  /** Every beat has exactly one of three ends, and the first answered retry says which and when. */
  method RunBeat(t: Timing, start: real, answers: nat -> Answer) returns (beat: Beat)
    requires t.Valid()
    ensures beat.Renewed? <==> Renews(t, answers)
    ensures beat.LeaseLost? <==> Loses(t, answers)
    ensures beat.StorageFailure? <==> NeverAnswered(t, answers)
    ensures forall k: nat :: Settles(t, answers, k) ==> beat.at == RetryTime(t, start, k)
    ensures NeverAnswered(t, answers) ==> beat.at == RetryTime(t, start, t.retries)
    ensures Tried(t, start, beat.at)
  {
    var now := start + t.interval;
    var retry := 0;
    while true
      invariant 0 <= retry <= t.retries && now == RetryTime(t, start, retry)
      invariant forall i: nat :: i < retry ==> answers(i) == StorageError
      decreases t.retries - retry
    {
      var answer := answers(retry);
      assert answer != StorageError ==> Settles(t, answers, retry);
      if answer == Accepted {
        return Renewed(now);
      } else if answer == Refused {
        return LeaseLost(now);
      } else if retry == t.retries {
        return StorageFailure(now);
      }
      now := now + t.Pause();
      retry := retry + 1;
    }
  }

  /** `at` is when some try of the beat that began at `start` reached the store. */
  ghost predicate Tried(t: Timing, start: real, at: real) {
    exists k: nat :: k <= t.retries && at == RetryTime(t, start, k)
  }

  /** Each renewal is a try of the beat before it. */
  ghost predicate Chained(t: Timing, renewals: seq<real>) {
    forall i: nat | i + 1 < |renewals| :: Tried(t, renewals[i], renewals[i + 1])
  }

  /** The loop for `beats` rounds, or until the beat that raises: its renewals, the lease's start first. */
  method RunHeartbeat(t: Timing, start: real, beats: nat, answers: nat -> nat -> Answer)
    returns (renewals: seq<real>, raised: bool)
    requires t.Valid()
    ensures 0 < |renewals| <= beats + 1 && renewals[0] == start && Chained(t, renewals)
    ensures !raised ==> |renewals| == beats + 1
    ensures raised ==> |renewals| <= beats && !Renews(t, answers(|renewals| - 1))
    ensures forall i: nat | i + 1 < |renewals| :: Renews(t, answers(i))
    ensures t.Safe() ==> forall i: nat | i + 1 < |renewals| :: renewals[i] < renewals[i + 1] < renewals[i] + t.lease
  {
    renewals, raised := [start], false;
    var n := 0;
    while n < beats
      invariant 0 <= n <= beats && |renewals| == n + 1 && renewals[0] == start && Chained(t, renewals)
      invariant forall i: nat | i < n :: Renews(t, answers(i))
    {
      var beat := RunBeat(t, renewals[n], answers(n));
      if !beat.Renewed? {
        raised := true;
        break;
      }
      renewals := renewals + [beat.at];
      n := n + 1;
    }
    RenewalsInTime(t, renewals);
  }

  lemma Monotone(k: nat, n: nat, pause: real)
    requires k <= n && pause >= 0.0
    ensures k as real * pause <= n as real * pause
  {
  }

  lemma RetriesInTime(t: Timing, start: real, k: nat)
    requires t.Valid() && k <= t.retries
    ensures start < RetryTime(t, start, k)
    ensures t.Safe() ==> RetryTime(t, start, k) < start + t.lease
  {
    Monotone(k, t.retries, t.Pause());
    Monotone(0, k, t.Pause());
  }

  lemma RenewalsInTime(t: Timing, renewals: seq<real>)
    requires t.Valid() && Chained(t, renewals)
    ensures t.Safe() ==> forall i: nat | i + 1 < |renewals| :: renewals[i] < renewals[i + 1] < renewals[i] + t.lease
  {
    forall i: nat | i + 1 < |renewals|
      ensures t.Safe() ==> renewals[i] < renewals[i + 1] < renewals[i] + t.lease
    {
      assert Tried(t, renewals[i], renewals[i + 1]);
      var k: nat :| k <= t.retries && renewals[i + 1] == RetryTime(t, renewals[i], k);
      RetriesInTime(t, renewals[i], k);
    }
  }

  /** Every renewal falls inside the lease it renews, whatever the store answers, exactly when the timing is safe. */
  lemma RenewsInTimeIffSafe(t: Timing, start: real)
    requires t.Valid()
    ensures (forall k: nat :: k <= t.retries ==> RetryTime(t, start, k) < start + t.lease) <==> t.Safe()
  {
    forall k: nat | k <= t.retries
      ensures t.Safe() ==> RetryTime(t, start, k) < start + t.lease
    {
      RetriesInTime(t, start, k);
    }
    assert RetryTime(t, start, t.retries) == start + t.interval + t.retries as real * t.Pause();
  }

  lemma DefaultPause(lease: real, retries: nat)
    requires lease > 0.0
    ensures Default(lease, retries).Pause() <= lease / 30.0
    ensures lease < 1.5 ==> Default(lease, retries).Pause() == lease / 30.0
  {
  }

  lemma NineteenPauses(pause: real, lease: real)
    requires pause <= lease / 30.0
    ensures 19 as real * pause <= 19.0 * lease / 30.0
  {
  }

  /** With the default interval every lease is safe exactly for fewer than twenty retries. */
  lemma DefaultIsSafeBelowTwentyRetries(retries: nat)
    ensures (forall lease: real :: lease > 0.0 ==> Default(lease, retries).Safe()) <==> retries < 20
  {
    if retries < 20 {
      forall lease: real | lease > 0.0
        ensures Default(lease, retries).Safe()
      {
        DefaultPause(lease, retries);
        var pause := Default(lease, retries).Pause();
        Monotone(retries, 19, pause);
        NineteenPauses(pause, lease);
      }
    } else {
      DefaultPause(1.0, retries);
      var t := Default(1.0, retries);
      Monotone(20, retries, t.Pause());
      assert !t.Safe();
    }
  }
}
