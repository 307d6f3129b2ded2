/** The heartbeat loop of one job (`start_heartbeat`): it renews the lease and cancels the handler when the
    lease is lost or can no longer be renewed in time. Waiting takes exactly as long as asked for. */
module Heartbeat {
  import opened Drafts

  /** What one renewal does; `latency` is at most one interval, which is where the loop gives up on it. */
  datatype Beat = Renewed(latency: real) | Lost(latency: real) | Broken(latency: real)

  predicate Timed(beats: seq<Beat>, interval: real) {
    forall k :: 0 <= k < |beats| ==> 0.0 <= beats[k].latency <= interval
  }

  /** The state of the loop: the time now, of the last renewal, and failures in a row since. */
  datatype Pulse = Pulse(now: real, lastOk: real, failures: nat, cancelled: bool)

  function Next(p: Pulse, b: Beat, interval: real, lease: real): Pulse {
    var now := p.now + interval + b.latency;
    match b
    case Renewed(_) => Pulse(now, now, 0, false)
    case Lost(_) => Pulse(now, p.lastOk, p.failures, true)
    case Broken(_) => Pulse(now, p.lastOk, p.failures + 1, now - p.lastOk + interval >= lease)
  }

  /** The loop over the renewals `beats`, until it cancels the handler or the handler ends by itself. */
  function After(beats: seq<Beat>, start: real, interval: real, lease: real): Pulse {
    if beats == [] then Pulse(start, start, 0, false)
    else
      var before := After(beats[..|beats| - 1], start, interval, lease);
      if before.cancelled then before else Next(before, beats[|beats| - 1], interval, lease)
  }

  method Run(beats: seq<Beat>, start: real, interval: real, lease: real) returns (p: Pulse)
    ensures p == After(beats, start, interval, lease)
  {
    var now, lastOk, failures := start, start, 0;
    for k := 0 to |beats|
      invariant After(beats[..k], start, interval, lease) == Pulse(now, lastOk, failures, false)
    {
      now := now + interval + beats[k].latency;
      var alive := beats[k].Renewed?;
      assert beats[..k + 1][..k] == beats[..k];
      if beats[k].Broken? {
        failures := failures + 1;
        var elapsed := now - lastOk;
        if elapsed + interval < lease {
          continue;
        }
      } else if alive {
        lastOk, failures := now, 0;
      }
      if !alive {
        StaysCancelled(beats, k + 1, start, interval, lease);
        return Pulse(now, lastOk, failures, true);
      }
    }
    assert beats[..|beats|] == beats;
    p := Pulse(now, lastOk, failures, false);
  }

  /** Once cancelled, the loop is over: later renewals play no part. */
  lemma {:induction false} StaysCancelled(beats: seq<Beat>, k: nat, start: real, interval: real, lease: real)
    requires k <= |beats| && After(beats[..k], start, interval, lease).cancelled
    ensures After(beats, start, interval, lease) == After(beats[..k], start, interval, lease)
    decreases |beats|
  {
    if k < |beats| {
      assert beats[..|beats| - 1][..k] == beats[..k];
      StaysCancelled(beats[..|beats| - 1], k, start, interval, lease);
    } else {
      assert beats[..k] == beats;
    }
  }

  // ----- what keeps the loop going, told from the renewals alone -----

  /** When the last of the renewals has answered. */
  function TimeAt(beats: seq<Beat>, start: real, interval: real): real {
    if beats == [] then start else TimeAt(beats[..|beats| - 1], start, interval) + interval + beats[|beats| - 1].latency
  }

  /** When the last renewal that succeeded answered; the start counts as one. */
  function LastRenewal(beats: seq<Beat>, start: real, interval: real): real {
    if beats == [] || beats[|beats| - 1].Renewed? then TimeAt(beats, start, interval)
    else LastRenewal(beats[..|beats| - 1], start, interval)
  }

  function FailuresSince(beats: seq<Beat>): nat {
    if beats == [] || beats[|beats| - 1].Renewed? then 0 else FailuresSince(beats[..|beats| - 1]) + 1
  }

  /** The last of the renewals succeeded, or failed while one more still fits into the lease. */
  predicate RoomLeft(beats: seq<Beat>, start: real, interval: real, lease: real) {
    beats != [] ==>
      var last := beats[|beats| - 1];
      || last.Renewed?
      || (last.Broken? && TimeAt(beats, start, interval) - LastRenewal(beats, start, interval) + interval < lease)
  }

  /** The handler runs on exactly as long as every renewal succeeded or failed with room left; the loop then knows
      the time of the last success and the failures since. */
  lemma {:induction false} RunsOnIff(beats: seq<Beat>, start: real, interval: real, lease: real)
    ensures var p := After(beats, start, interval, lease);
            && (!p.cancelled <==> forall k :: 0 <= k <= |beats| ==> RoomLeft(beats[..k], start, interval, lease))
            && (!p.cancelled ==>
                  p == Pulse(TimeAt(beats, start, interval), LastRenewal(beats, start, interval), FailuresSince(beats), false))
  {
    assert beats[..|beats|] == beats;
    if beats != [] {
      var init := beats[..|beats| - 1];
      RunsOnIff(init, start, interval, lease);
      assert forall k :: 0 <= k <= |init| ==> init[..k] == beats[..k];
    }
  }

  /** A handler that was cancelled was cancelled at the first renewal that lost the lease or left no room, when that
      one answered. */
  lemma {:induction false} CancelledByTheFirst(beats: seq<Beat>, start: real, interval: real, lease: real) returns (k: nat)
    requires After(beats, start, interval, lease).cancelled
    ensures k < |beats| && !RoomLeft(beats[..k + 1], start, interval, lease)
    ensures forall j :: 0 <= j <= k ==> RoomLeft(beats[..j], start, interval, lease)
    ensures var p := After(beats, start, interval, lease);
            p.now == TimeAt(beats[..k + 1], start, interval) && p.lastOk == LastRenewal(beats[..k], start, interval)
  {
    var init := beats[..|beats| - 1];
    if After(init, start, interval, lease).cancelled {
      k := CancelledByTheFirst(init, start, interval, lease);
      assert init[..k + 1] == beats[..k + 1] && forall j :: 0 <= j <= k ==> init[..j] == beats[..j];
    } else {
      k := |init|;
      RunsOnIff(init, start, interval, lease);
      RunsOnIff(beats, start, interval, lease);
      assert beats[..k + 1] == beats && forall j :: 0 <= j <= k ==> init[..j] == beats[..j];
    }
  }

  /** A lost lease cancels the handler, whatever comes before or after, and no later than at the answer that says so. */
  lemma LosingTheLeaseCancels(beats: seq<Beat>, k: nat, start: real, interval: real, lease: real)
    requires k < |beats| && beats[k].Lost?
    ensures var p := After(beats, start, interval, lease);
            p.cancelled && (0.0 <= interval && Timed(beats, interval) ==> p.now <= TimeAt(beats[..k + 1], start, interval))
  {
    assert !RoomLeft(beats[..k + 1], start, interval, lease);
    RunsOnIff(beats, start, interval, lease);
    var first := CancelledByTheFirst(beats, start, interval, lease);
    assert first <= k;
    if 0.0 <= interval && Timed(beats, interval) {
      TimePasses(beats, first + 1, k + 1, start, interval);
    }
  }

  lemma {:induction false} TimePasses(beats: seq<Beat>, i: nat, j: nat, start: real, interval: real)
    requires 0.0 <= interval && Timed(beats, interval) && i <= j <= |beats|
    ensures TimeAt(beats[..i], start, interval) <= TimeAt(beats[..j], start, interval)
    decreases j
  {
    if i < j {
      TimePasses(beats, i, j - 1, start, interval);
      assert beats[..j][..j - 1] == beats[..j - 1];
    }
  }

  /** While the loop runs on after failures, there was still time for another renewal; and every failure in a
      row took at least one interval. */
  lemma {:induction false} RunsOnInTime(beats: seq<Beat>, start: real, interval: real, lease: real)
    requires interval > 0.0 && Timed(beats, interval)
    ensures var p := After(beats, start, interval, lease);
            !p.cancelled ==>
              p.now - p.lastOk >= p.failures as real * interval
              && (if p.failures == 0 then p.now == p.lastOk else p.now - p.lastOk + interval < lease)
  {
    if beats != [] {
      var before := After(beats[..|beats| - 1], start, interval, lease);
      RunsOnInTime(beats[..|beats| - 1], start, interval, lease);
      assert (before.failures + 1) as real * interval == before.failures as real * interval + interval;
    }
  }

  function Ceil(x: real): int {
    -((-x).Floor)
  }

  /** The handler is cancelled before the last renewal plus lease plus interval, and by a failure no later than
      number max(1, ceil(lease / interval) - 1) in a row. After a second failure the lease is overrun by less
      than the time the last renewal hung. */
  lemma CancelledInTime(beats: seq<Beat>, last: Beat, start: real, interval: real, lease: real)
    requires 0.0 < interval < lease && Timed(beats + [last], interval)
    requires !After(beats, start, interval, lease).cancelled
    ensures var p := After(beats + [last], start, interval, lease);
            p.cancelled ==>
              p.now < p.lastOk + lease + interval
              && (p.failures >= 2 ==> p.now < p.lastOk + lease + last.latency)
              && (last.Broken? ==> 1 <= p.failures && (p.failures == 1 || p.failures <= Ceil(lease / interval) - 1))
  {
    assert (beats + [last])[..|beats|] == beats;
    assert forall k :: 0 <= k < |beats| ==> (beats + [last])[k] == beats[k];
    assert (beats + [last])[|beats|] == last;
    RunsOnInTime(beats, start, interval, lease);
    var before, p := After(beats, start, interval, lease), After(beats + [last], start, interval, lease);
    if last.Broken? && before.failures > 0 {
      var f := before.failures;
      assert (f + 1) as real * interval == f as real * interval + interval < lease;
      CeilBound(f + 1, interval, lease);
    }
  }

  lemma CeilBound(f: nat, interval: real, lease: real)
    requires interval > 0.0
    ensures f as real * interval < lease <==> f <= Ceil(lease / interval) - 1
  {
    var q := lease / interval;
    assert q * interval == lease;
    if f as real < q {
      assert f as real * interval < q * interval;
    } else {
      assert f as real * interval >= q * interval;
    }
    assert f as real < q <==> f <= Ceil(q) - 1 by {
      assert (-q).Floor as real <= -q < (-q).Floor as real + 1.0;
    }
  }

  // ----- when a cancellation comes before the lease ends -----

  /** With renewals that hang for at most `hang`, every cancellation comes before the lease of the last renewal ends. */
  ghost predicate CancelsInTime(interval: real, lease: real, hang: real) {
    forall beats, start :: Timed(beats, hang) ==> InTime(After(beats, start, interval, lease), lease)
  }

  predicate InTime(p: Pulse, lease: real) {
    p.cancelled ==> p.now <= p.lastOk + lease
  }

  function Times(n: nat, x: real): real {
    n as real * x
  }

  /** After some number of failures in a row the lease still has room for a renewal that does not hang, but not for
      all of them hanging. */
  predicate Overrunnable(interval: real, lease: real, hang: real, n: nat) {
    n >= 1 && Times(n, interval) < lease < Times(n, interval + hang)
  }

  /** `n` renewals in a row that fail after hanging for `latency`. */
  function Failing(n: nat, latency: real): (r: seq<Beat>)
    ensures |r| == n && forall k :: 0 <= k < n ==> r[k] == Broken(latency)
  {
    seq(n, k => Broken(latency))
  }

  /** They keep the loop going as long as the last but one leaves room for another. */
  lemma {:induction false} FailingRunsOn(n: nat, latency: real, interval: real, lease: real)
    requires 0.0 < interval && 0.0 <= latency && (n > 0 ==> Times(n, interval + latency) + interval < lease)
    ensures After(Failing(n, latency), 0.0, interval, lease) == Pulse(Times(n, interval + latency), 0.0, n, false)
  {
    if n > 0 {
      assert Failing(n, latency)[..n - 1] == Failing(n - 1, latency);
      assert Times(n, interval + latency) == Times(n - 1, interval + latency) + (interval + latency);
      FailingRunsOn(n - 1, latency, interval, lease);
    }
  }

  /** A cycle of interval and hang that `n - 1` failures survive and `n` overrun the lease with. */
  lemma OverrunningCycle(interval: real, lease: real, hang: real, n: nat) returns (cycle: real)
    requires 0.0 < interval < lease && 0.0 <= hang && Overrunnable(interval, lease, hang, n)
    ensures interval <= cycle <= interval + hang && Times(n, cycle) > lease
    ensures n > 1 ==> Times(n - 1, cycle) + interval < lease
  {
    var m, longest := n as real, interval + hang;
    cycle := longest;
    if n > 1 && Times(n - 1, longest) + interval >= lease {
      var low, high := lease / m, (lease - interval) / (m - 1.0);
      assert low * m == lease && high * (m - 1.0) == lease - interval;
      Ordered(interval, low, m);
      assert low * (m - 1.0) == lease - low;
      Ordered(low, high, m - 1.0);
      Ordered(longest, high, m - 1.0);
      cycle := (low + high) / 2.0;
      Ordered(low, cycle, m);
      Ordered(cycle, high, m - 1.0);
    }
  }

  lemma Ordered(a: real, b: real, factor: real)
    requires factor > 0.0
    ensures a < b <==> a * factor < b * factor
  {}

  /** So some run is cancelled too late. */
  lemma OverrunHappens(interval: real, lease: real, hang: real, n: nat)
    requires 0.0 < interval < lease && 0.0 <= hang && Overrunnable(interval, lease, hang, n)
    ensures !CancelsInTime(interval, lease, hang)
  {
    var cycle := OverrunningCycle(interval, lease, hang, n);
    var latency := cycle - interval;
    var beats := Failing(n, latency);
    assert beats[..n - 1] == Failing(n - 1, latency);
    FailingRunsOn(n - 1, latency, interval, lease);
    assert Times(n, cycle) == Times(n - 1, cycle) + cycle;
    assert After(beats, 0.0, interval, lease) == Pulse(Times(n, cycle), 0.0, n, true);
    assert Timed(beats, hang);
  }

  /** While the loop runs on, each failure in a row took between one interval and one interval and a hang. */
  lemma {:induction false} FailuresTake(beats: seq<Beat>, start: real, interval: real, lease: real, hang: real)
    requires 0.0 < interval && Timed(beats, hang)
    ensures var p := After(beats, start, interval, lease);
            !p.cancelled ==> Times(p.failures, interval) <= p.now - p.lastOk <= Times(p.failures, interval + hang)
                             && (p.failures > 0 ==> p.now - p.lastOk + interval < lease)
  {
    if beats != [] {
      var before := After(beats[..|beats| - 1], start, interval, lease);
      FailuresTake(beats[..|beats| - 1], start, interval, lease, hang);
      Longer(before.failures, interval);
      Longer(before.failures, interval + hang);
    }
  }

  lemma Longer(n: nat, x: real)
    ensures Times(n + 1, x) == Times(n, x) + x && Times(0, x) == 0.0
  {}

  /** A late cancellation shows such a number of failures. */
  lemma {:induction false} LateMeansOverrun(beats: seq<Beat>, start: real, interval: real, lease: real, hang: real)
    requires 0.0 < interval < lease && Timed(beats, hang) && !InTime(After(beats, start, interval, lease), lease)
    ensures exists n :: Overrunnable(interval, lease, hang, n)
  {
    var init := beats[..|beats| - 1];
    var before := After(init, start, interval, lease);
    if before.cancelled {
      LateMeansOverrun(init, start, interval, lease, hang);
    } else {
      FailuresTake(init, start, interval, lease, hang);
      Longer(before.failures, interval);
      Longer(before.failures, interval + hang);
      assert Overrunnable(interval, lease, hang, before.failures + 1);
    }
  }

  /** The exact condition on the settings: every cancellation comes before the lease ends, for all runs, exactly when
      there is no number of failures that fits the lease without hanging and overruns it with hanging. */
  lemma CancelsInTimeIff(interval: real, lease: real, hang: real)
    requires 0.0 < interval < lease && 0.0 <= hang
    ensures CancelsInTime(interval, lease, hang) <==> forall n: nat :: !Overrunnable(interval, lease, hang, n)
  {
    if n: nat :| Overrunnable(interval, lease, hang, n) {
      OverrunHappens(interval, lease, hang, n);
    } else {
      forall beats, start | Timed(beats, hang) ensures InTime(After(beats, start, interval, lease), lease) {
        if !InTime(After(beats, start, interval, lease), lease) {
          LateMeansOverrun(beats, start, interval, lease, hang);
          assert false;
        }
      }
    }
  }

  lemma AtLeastTwo(n: nat, x: real)
    requires x > 0.0
    ensures n >= 2 ==> Times(n, x) >= 2.0 * x
  {
    if n >= 2 {
      Ordered(2.0, n as real, x);
    }
  }

  /** When renewals may hang for a whole interval, which is where the loop gives up on them, only a lease of exactly
      two intervals is safe. */
  lemma OnlyTwoIntervalsAreSafe(interval: real, lease: real)
    requires 0.0 < interval < lease
    ensures CancelsInTime(interval, lease, interval) <==> lease == 2.0 * interval
  {
    CancelsInTimeIff(interval, lease, interval);
    if lease == 2.0 * interval {
      forall n: nat ensures !Overrunnable(interval, lease, interval, n) {
        AtLeastTwo(n, interval);
        assert Times(1, interval + interval) == 2.0 * interval;
      }
    } else {
      var n := MostThatFit(interval, lease);
      Longer(n, interval);
      Twice(n, interval);
      AtLeastTwo(n, interval);
      hide Times;
      assert Overrunnable(interval, lease, interval, n);
    }
  }

  /** The largest number of intervals that end before the lease does. */
  lemma MostThatFit(interval: real, lease: real) returns (n: nat)
    requires 0.0 < interval < lease
    ensures n >= 1 && Times(n, interval) < lease <= Times(n + 1, interval) && (n == 1 ==> Times(n, interval) == interval)
  {
    CeilBound(1, interval, lease);
    n := Ceil(lease / interval) - 1;
    CeilBound(n, interval, lease);
    CeilBound(n + 1, interval, lease);
  }

  lemma Twice(n: nat, x: real)
    ensures Times(n, x + x) == Times(n, x) + Times(n, x)
  {}

  /** With the default settings the handler is cancelled in time exactly as long as no renewal hangs for more than
      2.5 seconds. */
  lemma DefaultsAreSafeUpToHalf(hang: real)
    requires 0.0 <= hang <= 5.0
    ensures CancelsInTime(5.0, 15.0, hang) <==> hang <= 2.5
  {
    CancelsInTimeIff(5.0, 15.0, hang);
    if hang > 2.5 {
      assert Overrunnable(5.0, 15.0, hang, 2);
    } else {
      forall n: nat ensures !Overrunnable(5.0, 15.0, hang, n) {
        assert n <= 1 || n == 2 || n >= 3;
      }
    }
  }

  /** The cancellation can come after the lease has ended: with 5 and 15 seconds, renewals hanging 4.9 and
      5 seconds, it comes 19.9 seconds after the last renewal. Exclusion rests on the generation. */
  lemma CancelledAfterTheLease()
    ensures After([Broken(4.9), Broken(5.0)], 0.0, 5.0, 15.0) == Pulse(19.9, 0.0, 2, true)
  {
    var beats := [Broken(4.9), Broken(5.0)];
    assert beats[..1] == [Broken(4.9)] && beats[..1][..0] == [];
    assert After(beats[..1], 0.0, 5.0, 15.0) == Pulse(9.9, 0.0, 1, false);
  }
}
