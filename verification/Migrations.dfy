/** The migration runner: which scripts are ours, and several runners at once over one schema table. Each
    script and its record commit in one transaction under one advisory lock. */
module Migrations {
  import opened Drafts

  const BACKEND_OWNED: set<nat> := {4}

  /** A file of the directory; `version` is None when its name is not `NNN_*.sql`. */
  datatype File = File(name: string, version: Option<nat>)

  datatype Discovery = Found(versions: seq<nat>) | Duplicate(version: nat)

  // ----- which scripts are applied (`_discover`) -----

  predicate Ours(f: File, max: nat) {
    f.version.Some? && f.version.value <= max && f.version.value !in BACKEND_OWNED
  }

  predicate Ascending(s: seq<nat>) {
    forall i, j :: 0 <= i < j < |s| ==> s[i] < s[j]
  }

  lemma AscendingAppend(s: seq<nat>, v: nat)
    requires Ascending(s) && forall x :: x in s ==> x < v
    ensures Ascending(s + [v])
  {
    forall i, j | 0 <= i < j < |s| + 1 ensures (s + [v])[i] < (s + [v])[j] {
      assert s[i] in s;
    }
  }

  predicate Repeated(files: seq<File>, max: nat) {
    exists i, j :: 0 <= i < j < |files| && Ours(files[i], max) && Ours(files[j], max) && files[i].version == files[j].version
  }

  /** The versions of our files in ascending order. */
  ghost predicate Discovered(files: seq<File>, max: nat, versions: seq<nat>) {
    && Ascending(versions)
    && forall v :: v in versions <==> exists k :: 0 <= k < |files| && Ours(files[k], max) && files[k].version == Some(v)
  }

  /** The versions of our files in ascending order, each once; an error exactly when two of our files share one. */
  method Discover(files: seq<File>, max: nat) returns (d: Discovery)
    ensures d.Duplicate? <==> Repeated(files, max)
    ensures d.Found? ==> Discovered(files, max, d.versions)
    ensures d.Found? ==> forall v :: v in d.versions <==> v <= max && v != 4 && exists k :: 0 <= k < |files| && files[k].version == Some(v)
  {
    var found: set<nat> := {};
    for n := 0 to |files|
      invariant forall v :: v in found <==> exists k :: 0 <= k < n && Ours(files[k], max) && files[k].version == Some(v)
      invariant !Repeated(files[..n], max)
    {
      assert files[..n + 1] == files[..n] + [files[n]];
      if !Ours(files[n], max) {
        continue;
      }
      var v := files[n].version.value;
      if v in found {
        return Duplicate(v);
      }
      found := found + {v};
    }
    assert files[..|files|] == files;
    var versions := Sorted(found, max);
    d := Found(versions);
  }

  method Sorted(found: set<nat>, max: nat) returns (r: seq<nat>)
    requires forall v :: v in found ==> v <= max
    ensures Ascending(r) && forall v :: v in r <==> v in found
  {
    r := [];
    for v := 0 to max + 1
      invariant Ascending(r) && forall x :: x in r <==> x in found && x < v
    {
      if v in found {
        AscendingAppend(r, v);
        r := r + [v];
      }
    }
  }

  // ----- several runners -----

  /** One run of `migrate`: its list, the versions it read at the start, how far it got, what it applied. */
  datatype Runner = Runner(pending: seq<nat>, already: set<nat>, at: nat, newly: seq<nat>, alive: bool)

  /** `applied` lists the committed scripts in the order of their commits. */
  datatype World = World(applied: seq<nat>, runners: seq<Runner>)

  datatype Event = Start(pending: seq<nat>) | Turn(who: nat) | Crash(who: nat)

  predicate Possible(w: World, e: Event) {
    match e
    case Start(_) => true
    case Turn(who) => who < |w.runners| && w.runners[who].alive && w.runners[who].at < |w.runners[who].pending|
    case Crash(who) => who < |w.runners|
  }

  /** One turn is one version: skipped when it was applied at the start or meanwhile, else run and recorded. */
  function After(w: World, e: Event): World
    requires Possible(w, e)
  {
    match e
    case Start(pending) => w.(runners := w.runners + [Runner(pending, set v | v in w.applied, 0, [], true)])
    case Turn(who) =>
      var r := w.runners[who];
      var v := r.pending[r.at];
      if v in r.already || v in w.applied then w.(runners := w.runners[who := r.(at := r.at + 1)])
      else World(w.applied + [v], w.runners[who := r.(at := r.at + 1, newly := r.newly + [v])])
    case Crash(who) => w.(runners := w.runners[who := w.runners[who].(alive := false)])
  }

  ghost predicate IsRun(trace: seq<World>, events: seq<Event>) {
    && |trace| == |events| + 1
    && forall k :: 0 <= k < |events| ==> Possible(trace[k], events[k]) && trace[k + 1] == After(trace[k], events[k])
  }

  lemma StepIn(trace: seq<World>, events: seq<Event>, k: nat)
    requires IsRun(trace, events) && k < |events|
    ensures Possible(trace[k], events[k]) && trace[k + 1] == After(trace[k], events[k])
  {}

  /** Every script is applied at most once and by exactly one runner; a runner has everything applied that it
      is past, and nothing but its own versions is applied by it. */
  ghost predicate WorldOk(w: World) {
    && Distinct(w.applied)
    && (forall i :: 0 <= i < |w.runners| ==> RunnerOk(w.runners[i], w.applied))
    && (forall i, j, v :: 0 <= i < j < |w.runners| && v in w.runners[i].newly ==> v !in w.runners[j].newly)
  }

  predicate RunnerOk(r: Runner, applied: seq<nat>) {
    && r.at <= |r.pending|
    && (forall k :: 0 <= k < r.at ==> r.pending[k] in applied)
    && (forall v :: v in r.already ==> v in applied)
    && (forall v :: v in r.newly ==> v in applied && v in r.pending)
    && Distinct(r.newly)
  }

  lemma TurnKeeps(w: World, who: nat)
    requires WorldOk(w) && Possible(w, Turn(who))
    ensures WorldOk(After(w, Turn(who)))
  {
    var after := After(w, Turn(who));
    forall i | 0 <= i < |after.runners| ensures RunnerOk(after.runners[i], after.applied) {
      assert RunnerOk(w.runners[i], w.applied);
    }
    assert Distinct(after.applied);
    hide Distinct;
    forall i, j, v | 0 <= i < j < |after.runners| && v in after.runners[i].newly ensures v !in after.runners[j].newly {
      assert RunnerOk(w.runners[i], w.applied) && RunnerOk(w.runners[j], w.applied);
    }
  }

  lemma StepKeepsWorld(w: World, e: Event)
    requires WorldOk(w) && Possible(w, e)
    ensures WorldOk(After(w, e))
  {
    if e.Turn? {
      TurnKeeps(w, e.who);
    } else {
      forall i | 0 <= i < |After(w, e).runners| ensures RunnerOk(After(w, e).runners[i], After(w, e).applied) {
        if i < |w.runners| {
          assert RunnerOk(w.runners[i], w.applied);
        }
      }
    }
  }

  lemma {:induction false} RunKeepsWorld(trace: seq<World>, events: seq<Event>, k: nat)
    requires IsRun(trace, events) && WorldOk(trace[0]) && k < |trace|
    ensures WorldOk(trace[k])
  {
    hide WorldOk, After, Possible;
    if k > 0 {
      RunKeepsWorld(trace, events, k - 1);
      StepIn(trace, events, k - 1);
      StepKeepsWorld(trace[k - 1], events[k - 1]);
    }
  }

  /** With any number of runners, starting, racing and crashing in any order, no script commits twice, no
      script is claimed by two runners, and a runner that got through its list leaves all of it applied. */
  lemma EachScriptOnce(trace: seq<World>, events: seq<Event>, k: nat, i: nat)
    requires IsRun(trace, events) && WorldOk(trace[0]) && k < |trace| && i < |trace[k].runners|
    ensures Distinct(trace[k].applied)
    ensures forall j, v :: 0 <= j < |trace[k].runners| && j != i && v in trace[k].runners[i].newly ==> v !in trace[k].runners[j].newly
    ensures trace[k].runners[i].at == |trace[k].runners[i].pending| ==> forall v :: v in trace[k].runners[i].pending ==> v in trace[k].applied
  {
    RunKeepsWorld(trace, events, k);
    assert RunnerOk(trace[k].runners[i], trace[k].applied);
  }

  /** A runner that has crashed takes no further turn. */
  lemma {:induction false} CrashedStaysDown(trace: seq<World>, events: seq<Event>, i: nat, j: nat, who: nat)
    requires IsRun(trace, events) && i < j <= |events| && events[i] == Crash(who)
    ensures who < |trace[j].runners| && trace[j].runners[who] == trace[i].runners[who].(alive := false)
    ensures j < |events| ==> events[j] != Turn(who)
    decreases j
  {
    StepIn(trace, events, j - 1);
    if i + 1 < j {
      CrashedStaysDown(trace, events, i, j - 1, who);
    }
    if j < |events| {
      StepIn(trace, events, j);
    }
  }

  /** `n` turns of one runner with nobody else about. */
  function Turns(w: World, who: nat, n: nat): (r: World)
    requires who < |w.runners| && w.runners[who].alive && w.runners[who].at + n <= |w.runners[who].pending|
    ensures |r.runners| == |w.runners| && r.runners[who].(newly := []) == w.runners[who].(at := w.runners[who].at + n, newly := [])
  {
    if n == 0 then w else After(Turns(w, who, n - 1), Turn(who))
  }

  lemma {:induction false} TurnsKeepWorld(w: World, who: nat, n: nat)
    requires WorldOk(w) && who < |w.runners| && w.runners[who].alive && w.runners[who].at + n <= |w.runners[who].pending|
    ensures WorldOk(Turns(w, who, n))
  {
    if n > 0 {
      TurnsKeepWorld(w, who, n - 1);
      StepKeepsWorld(Turns(w, who, n - 1), Turn(who));
    }
  }

  /** A runner that starts, whatever the others left behind, can always take its turns to the end of its list, and then
      all of it is applied. */
  lemma StartedRunnerFinishes(w: World, pending: seq<nat>)
    requires WorldOk(w)
    ensures var started, who := After(w, Start(pending)), |w.runners|;
            && started.runners[who].alive && started.runners[who].pending == pending && started.runners[who].at == 0
            && forall v :: v in pending ==> v in Turns(started, who, |pending|).applied
  {
    var started, who := After(w, Start(pending)), |w.runners|;
    StepKeepsWorld(w, Start(pending));
    hide WorldOk, RunnerOk;
    TurnsKeepWorld(started, who, |pending|);
  }

  // ----- order -----

  /** All runners have the same ascending list and the table is a prefix of it, each runner at most one past its end. */
  ghost predicate InOrder(w: World, list: seq<nat>) {
    && w.applied <= list
    && forall i :: 0 <= i < |w.runners| ==> w.runners[i].pending == list && w.runners[i].at <= |w.applied|
  }

  predicate SameList(events: seq<Event>, list: seq<nat>) {
    forall k :: 0 <= k < |events| && events[k].Start? ==> events[k].pending == list
  }

  lemma StepKeepsOrder(w: World, e: Event, list: seq<nat>)
    requires Ascending(list) && InOrder(w, list) && WorldOk(w) && Possible(w, e) && (e.Start? ==> e.pending == list)
    ensures InOrder(After(w, e), list)
  {
    if e.Turn? {
      var r := w.runners[e.who];
      var v := list[r.at];
      assert r.pending == list;
      assert RunnerOk(r, w.applied);
      assert v in w.applied <==> r.at < |w.applied| by {
        if v in w.applied {
          var k :| 0 <= k < |w.applied| && w.applied[k] == v;
          assert list[k] == v;
        }
      }
      assert v !in w.applied ==> r.at == |w.applied| && w.applied + [v] == list[..r.at + 1];
    }
  }

  /** Started on an empty table with one list, the scripts commit in ascending order: at every moment the
      table is a prefix of the list. */
  lemma {:induction false} AppliedInOrder(trace: seq<World>, events: seq<Event>, list: seq<nat>, k: nat)
    requires IsRun(trace, events) && trace[0] == World([], []) && Ascending(list) && SameList(events, list) && k < |trace|
    ensures InOrder(trace[k], list)
  {
    hide After, Possible;
    if k > 0 {
      AppliedInOrder(trace, events, list, k - 1);
      RunKeepsWorld(trace, events, k - 1);
      StepIn(trace, events, k - 1);
      StepKeepsOrder(trace[k - 1], events[k - 1], list);
    }
  }

  /** Every runner took its list from the files it found, up to its own highest version. */
  ghost predicate ListsDiscovered(events: seq<Event>, max: nat) {
    forall i :: 0 <= i < |events| && events[i].Start? ==> exists files :: Discovered(files, max, events[i].pending)
  }

  /** Whatever files the runners find, neither a version of the backend nor one above the highest that is ours is ever
      applied; and every applied version comes from a file of ours that some runner found. */
  lemma {:induction false} ForeignNeverApplied(trace: seq<World>, events: seq<Event>, max: nat, v: nat, k: nat)
    requires IsRun(trace, events) && trace[0] == World([], []) && k < |trace| && ListsDiscovered(events, max)
    ensures v in trace[k].applied || (exists i :: 0 <= i < |trace[k].runners| && v in trace[k].runners[i].pending)
            ==> v <= max && v != 4 && exists e :: 0 <= e < k && events[e].Start? && v in events[e].pending
  {
    hide Discovered;
    if k > 0 {
      ForeignNeverApplied(trace, events, max, v, k - 1);
      StepIn(trace, events, k - 1);
      var e := events[k - 1];
      if e.Start? && v in e.pending {
        var files :| Discovered(files, max, e.pending);
        DiscoveredIsOurs(files, max, e.pending, v);
      }
    }
  }

  lemma DiscoveredIsOurs(files: seq<File>, max: nat, versions: seq<nat>, v: nat)
    requires Discovered(files, max, versions) && v in versions
    ensures v <= max && v != 4
  {}

  // ----- one runner alone -----

  class SchemaTable {
    var applied: seq<nat>

    constructor ()
      ensures applied == []
    {
      applied := [];
    }

    /** The transaction under the lock: looks again, then runs and records the script. */
    method ApplyIfMissing(v: nat) returns (done: bool)
      requires Distinct(applied)
      modifies this
      ensures Distinct(applied) && done == (v !in old(applied))
      ensures applied == if done then old(applied) + [v] else old(applied)
    {
      done := v !in applied;
      if done {
        applied := applied + [v];
      }
    }

    /** Applies what is missing, in the order of the list, and returns exactly that. */
    method Migrate(pending: seq<nat>) returns (newly: seq<nat>)
      requires Distinct(applied) && Ascending(pending)
      modifies this
      ensures Distinct(applied) && applied == old(applied) + newly && Ascending(newly)
      ensures forall v :: v in newly <==> v in pending && v !in old(applied)
    {
      var already := applied;
      newly := [];
      for n := 0 to |pending|
        invariant Distinct(applied) && applied == already + newly && already == old(applied)
        invariant Ascending(newly) && forall v :: v in newly <==> v in pending[..n] && v !in already
      {
        var v := pending[n];
        assert pending[..n + 1] == pending[..n] + [v];
        assert v !in pending[..n];
        assert forall x :: x in newly ==> x < v;
        if v in already {
          continue;
        }
        var done := ApplyIfMissing(v);
        if done {
          AscendingAppend(newly, v);
          newly := newly + [v];
        }
      }
      assert pending[..|pending|] == pending;
    }
  }
}
