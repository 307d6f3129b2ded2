/** When a vendor counts as degraded: the tracker keeps only the last three failure times per vendor, and
    that is enough to decide what the whole history says. */
module VendorHealth {
  import opened Drafts
  import opened Budget

  const DEGRADED_THRESHOLD := 3
  const DEGRADED_WINDOW := 60.0

  datatype Event = Failure(vendor: string, kind: ErrorKind, at: real) | Success(vendor: string)

  predicate Counted(kind: ErrorKind) {
    kind == SERVER || kind == TRANSPORT
  }

  /** Times of the counted failures of a vendor since its last success. */
  function Streak(history: seq<Event>, vendor: string): seq<real> {
    if history == [] then []
    else
      var before := Streak(history[..|history| - 1], vendor);
      match history[|history| - 1]
      case Failure(v, kind, at) => if v == vendor && Counted(kind) then before + [at] else before
      case Success(v) => if v == vendor then [] else before
  }

  /** How many of the times lie at or after `from`. */
  function Recent(times: seq<real>, since: real): nat {
    if times == [] then 0 else Recent(times[..|times| - 1], since) + if times[|times| - 1] >= since then 1 else 0
  }

  /** Degraded: three failures in a row within a minute of the last one, which is itself not over a minute old. */
  predicate Degraded(history: seq<Event>, vendor: string, now: real) {
    var s := Streak(history, vendor);
    && s != []
    && now - s[|s| - 1] <= DEGRADED_WINDOW
    && Recent(s, s[|s| - 1] - DEGRADED_WINDOW) >= DEGRADED_THRESHOLD
  }

  predicate Forward(times: seq<real>) {
    forall i, j :: 0 <= i < j < |times| ==> times[i] <= times[j]
  }

  predicate NoneLater(times: seq<real>, now: real) {
    forall k :: 0 <= k < |times| ==> times[k] <= now
  }

  function LastThree(s: seq<real>): seq<real> {
    if |s| <= DEGRADED_THRESHOLD then s else s[|s| - DEGRADED_THRESHOLD..]
  }

  lemma {:induction false} NoneRecent(times: seq<real>, since: real)
    requires forall k :: 0 <= k < |times| ==> times[k] < since
    ensures Recent(times, since) == 0
  {
    if times != [] {
      NoneRecent(times[..|times| - 1], since);
    }
  }

  lemma {:induction false} RecentAtMost(times: seq<real>, since: real)
    ensures Recent(times, since) <= |times|
  {
    if times != [] {
      RecentAtMost(times[..|times| - 1], since);
    }
  }

  /** With times in order, three are recent exactly when the third from the end is. */
  lemma ThirdFromTheEnd(times: seq<real>, since: real)
    requires Forward(times)
    ensures Recent(times, since) >= 3 <==> |times| >= 3 && times[|times| - 3] >= since
  {
    RecentAtMost(times, since);
    if |times| >= 3 {
      var n := |times|;
      var a, b, c := times[..n - 1], times[..n - 2], times[..n - 3];
      assert a[..n - 2] == b && b[..n - 3] == c;
      assert Recent(b, since) == Recent(c, since) + if times[n - 3] >= since then 1 else 0;
      assert Recent(a, since) == Recent(b, since) + if times[n - 2] >= since then 1 else 0;
      assert Recent(times, since) == Recent(a, since) + if times[n - 1] >= since then 1 else 0;
      if times[n - 3] < since {
        NoneRecent(c, since);
      }
    }
  }

  function Pushed(times: seq<real>, now: real): seq<real> {
    var more := times + [now];
    if |more| > DEGRADED_THRESHOLD then more[1..] else more
  }

  lemma PushKeepsTheLastThree(s: seq<real>, now: real)
    requires Forward(s) && NoneLater(s, now)
    ensures Forward(s + [now]) && LastThree(s + [now]) == Pushed(LastThree(s), now)
  {}

  lemma FailureTouchesOneVendor(history: seq<Event>, vendor: string, kind: ErrorKind, now: real, v: string)
    ensures Streak(history + [Failure(vendor, kind, now)], v) == if v == vendor && Counted(kind) then Streak(history, v) + [now] else Streak(history, v)
  {
    assert (history + [Failure(vendor, kind, now)])[..|history|] == history;
  }

  /** Another vendor's failure changes nothing, nor does one that is neither a server nor a transport error. */
  lemma OthersDoNotCount(history: seq<Event>, vendor: string, e: Event, now: real)
    requires e.vendor != vendor || (e.Failure? && e.kind !in {SERVER, TRANSPORT})
    ensures Degraded(history + [e], vendor, now) == Degraded(history, vendor, now)
  {
    assert (history + [e])[..|history|] == history;
  }

  /** Right after a success a vendor is not degraded; after three server or transport errors in a row it is, exactly
      when the third came within 60 seconds of the first and is itself no more than 60 seconds ago. */
  lemma ThreeInARowDegrade(history: seq<Event>, vendor: string, kinds: seq<ErrorKind>, a: real, b: real, c: real, now: real)
    requires |kinds| == 3 && (forall k :: k in kinds ==> k in {SERVER, TRANSPORT})
    requires Forward(Streak(history, vendor)) && NoneLater(Streak(history, vendor), a) && a <= b <= c
    ensures !Degraded(history + [Success(vendor)], vendor, now)
    ensures var h := history + [Failure(vendor, kinds[0], a)] + [Failure(vendor, kinds[1], b)] + [Failure(vendor, kinds[2], c)];
            Degraded(h, vendor, now) <==> c - a <= 60.0 && now - c <= 60.0
  {
    assert (history + [Success(vendor)])[..|history|] == history;
    assert kinds[0] in kinds && kinds[1] in kinds && kinds[2] in kinds;
    ThreeMore(history, vendor, kinds, a, b, c);
    hide Streak, Degraded;
    StreakDecides(history + [Failure(vendor, kinds[0], a)] + [Failure(vendor, kinds[1], b)] + [Failure(vendor, kinds[2], c)], vendor, now);
  }

  lemma StreakDecides(history: seq<Event>, vendor: string, now: real)
    requires Forward(Streak(history, vendor)) && |Streak(history, vendor)| >= 3
    ensures var s := Streak(history, vendor);
            Degraded(history, vendor, now) <==> s[|s| - 1] - s[|s| - 3] <= 60.0 && now - s[|s| - 1] <= 60.0
  {
    var s := Streak(history, vendor);
    ThirdFromTheEnd(s, s[|s| - 1] - 60.0);
    hide Streak, Recent, Forward;
  }

  lemma ThreeMore(history: seq<Event>, vendor: string, kinds: seq<ErrorKind>, a: real, b: real, c: real)
    requires |kinds| == 3 && Counted(kinds[0]) && Counted(kinds[1]) && Counted(kinds[2])
    ensures var h := history + [Failure(vendor, kinds[0], a)] + [Failure(vendor, kinds[1], b)] + [Failure(vendor, kinds[2], c)];
            Streak(h, vendor) == Streak(history, vendor) + [a, b, c]
  {
    hide Streak;
    var h1 := history + [Failure(vendor, kinds[0], a)];
    var h2 := h1 + [Failure(vendor, kinds[1], b)];
    FailureTouchesOneVendor(history, vendor, kinds[0], a, vendor);
    FailureTouchesOneVendor(h1, vendor, kinds[1], b, vendor);
    FailureTouchesOneVendor(h2, vendor, kinds[2], c, vendor);
  }

  class Tracker {
    var failures: map<string, seq<real>>
    ghost var history: seq<Event>

    /** Time runs forward within every streak, and the table holds its last three times. */
    ghost predicate Valid()
      reads this
    {
      forall v :: Forward(Streak(history, v)) && Kept(failures, v) == LastThree(Streak(history, v))
    }

    constructor ()
      ensures Valid() && history == []
    {
      failures, history := map[], [];
    }

    method RecordFailure(vendor: string, kind: ErrorKind, now: real)
      requires Valid() && NoneLater(Streak(history, vendor), now)
      modifies this
      ensures Valid() && history == old(history) + [Failure(vendor, kind, now)]
    {
      forall v ensures Streak(history + [Failure(vendor, kind, now)], v) == if v == vendor && Counted(kind) then Streak(history, v) + [now] else Streak(history, v) {
        FailureTouchesOneVendor(history, vendor, kind, now, v);
      }
      hide Streak, Forward, LastThree;
      PushKeepsTheLastThree(Streak(history, vendor), now);
      history := history + [Failure(vendor, kind, now)];
      if !Counted(kind) {
        return;
      }
      var times := if vendor in failures then failures[vendor] else [];
      times := times + [now];
      if |times| > DEGRADED_THRESHOLD {
        times := times[1..];
      }
      failures := failures[vendor := times];
    }

    method RecordSuccess(vendor: string)
      requires Valid()
      modifies this
      ensures Valid() && history == old(history) + [Success(vendor)]
    {
      assert (history + [Success(vendor)])[..|history|] == history;
      history := history + [Success(vendor)];
      failures := failures - {vendor};
    }

    /** Decides from three times what the whole history says. */
    method IsDegraded(vendor: string, now: real) returns (degraded: bool)
      requires Valid()
      ensures degraded == Degraded(history, vendor, now)
    {
      ghost var s := Streak(history, vendor);
      assert Forward(s) && Kept(failures, vendor) == LastThree(s);
      if s != [] {
        ThirdFromTheEnd(s, s[|s| - 1] - DEGRADED_WINDOW);
      }
      if vendor !in failures || |failures[vendor]| < DEGRADED_THRESHOLD {
        return false;
      }
      var times := failures[vendor];
      if now - times[|times| - 1] > DEGRADED_WINDOW {
        return false;
      }
      degraded := times[|times| - 1] - times[0] <= DEGRADED_WINDOW;
    }
  }

  function Kept(failures: map<string, seq<real>>, vendor: string): seq<real> {
    if vendor in failures then failures[vendor] else []
  }
}
