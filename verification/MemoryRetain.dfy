/** Late retains against backend invalidations: a retain checks the privacy epochs, commits its facts, and
    checks again; the backend raises an epoch and soft-deletes matching facts in one transaction. */
module MemoryRetain {
  import opened Drafts

  /** `key` stands for the unique columns of `memory_facts`. */
  datatype Spec = Spec(key: string, sourceType: string, sourceId: string, post: Option<string>)

  /** `owner` is the retain that inserted the row, `seen` the epochs its snapshot recorded. */
  datatype Row = Row(spec: Spec, owner: nat, seen: map<string, nat>, live: bool)

  datatype Phase = Checked | Committed | Rechecked | Refused

  datatype Retain = Retain(event: string, expected: map<string, nat>, specs: seq<Spec>, phase: Phase)

  datatype Target = Target(sourceType: string, sourceId: string)

  /** One invalidation: what it hit, the scope key it raised, and the epoch it raised it to. */
  datatype Invalidation = Invalidation(target: Target, key: string, epoch: nat)

  /** Committed rows, and where every retain stands. */
  datatype Db = Db(epochs: map<string, nat>, facts: seq<Row>, processed: set<string>, retains: seq<Retain>, invalidations: seq<Invalidation>)

  // ----- the statements -----

  /** A scope without a row has epoch 0. */
  function EpochOf(epochs: map<string, nat>, key: string): nat {
    if key in epochs then epochs[key] else 0
  }

  predicate EpochsMatch(epochs: map<string, nat>, expected: map<string, nat>) {
    forall k :: k in expected ==> EpochOf(epochs, k) == expected[k]
  }

  /** The deleted facts of an invalidation: those of its source, and for a post everything derived from it. */
  predicate Matches(t: Target, s: Spec) {
    (s.sourceType == t.sourceType && s.sourceId == t.sourceId) || (t.sourceType == "POST" && s.post == Some(t.sourceId))
  }

  predicate HasKey(facts: seq<Row>, key: string) {
    exists k :: 0 <= k < |facts| && facts[k].spec.key == key
  }

  /** `INSERT ... ON CONFLICT DO NOTHING` for each fact in turn; a deleted row keeps its key. */
  function Inserted(facts: seq<Row>, specs: seq<Spec>, owner: nat, seen: map<string, nat>): seq<Row> {
    if specs == [] then facts
    else
      var before := Inserted(facts, specs[..|specs| - 1], owner, seen);
      var s := specs[|specs| - 1];
      if HasKey(before, s.key) then before else before + [Row(s, owner, seen, true)]
  }

  function Deleted(facts: seq<Row>, t: Target): (r: seq<Row>)
    ensures |r| == |facts| && forall k :: 0 <= k < |r| ==> r[k] == if Matches(t, facts[k].spec) then facts[k].(live := false) else facts[k]
  {
    seq(|facts|, k requires 0 <= k < |facts| => if Matches(t, facts[k].spec) then facts[k].(live := false) else facts[k])
  }

  /** Soft-deletes what one retain inserted. */
  function Revoked(facts: seq<Row>, owner: nat): (r: seq<Row>)
    ensures |r| == |facts| && forall k :: 0 <= k < |r| ==> r[k] == if facts[k].owner == owner then facts[k].(live := false) else facts[k]
  {
    seq(|facts|, k requires 0 <= k < |facts| => if facts[k].owner == owner then facts[k].(live := false) else facts[k])
  }

  // ----- steps -----

  datatype Step =
    | Begin(event: string, expected: map<string, nat>, specs: seq<Spec>)
    | Commit(r: nat)
    | Rollback(r: nat)
    | Recheck(r: nat)
    | Invalidate(target: Target, key: string)

  /** A second retain of an event still in flight waits for the first one's transaction to end. */
  predicate InFlight(db: Db, event: string) {
    exists k :: 0 <= k < |db.retains| && db.retains[k].event == event && db.retains[k].phase == Checked
  }

  predicate Possible(db: Db, s: Step) {
    match s
    case Begin(event, _, _) => !InFlight(db, event)
    case Commit(r) => r < |db.retains| && db.retains[r].phase == Checked
    case Rollback(r) => r < |db.retains| && db.retains[r].phase == Checked
    case Recheck(r) => r < |db.retains| && db.retains[r].phase == Committed
    case Invalidate(_, _) => true
  }

  function WithPhase(db: Db, r: nat, phase: Phase): Db
    requires r < |db.retains|
  {
    db.(retains := db.retains[r := db.retains[r].(phase := phase)])
  }

  /** A retain that added no row has nothing to check again. */
  function CommittedPhase(before: seq<Row>, facts: seq<Row>): Phase {
    if |facts| == |before| then Rechecked else Committed
  }

  function After(db: Db, s: Step): Db
    requires Possible(db, s)
  {
    match s
    case Begin(event, expected, specs) =>
      var phase := if event in db.processed || !EpochsMatch(db.epochs, expected) then Refused else Checked;
      db.(retains := db.retains + [Retain(event, expected, specs, phase)])
    case Commit(r) =>
      var x := db.retains[r];
      var facts := Inserted(db.facts, x.specs, r, x.expected);
      WithPhase(db, r, CommittedPhase(db.facts, facts)).(facts := facts, processed := db.processed + {x.event})
    case Rollback(r) => WithPhase(db, r, Refused)
    case Recheck(r) =>
      WithPhase(db, r, Rechecked).(facts := if EpochsMatch(db.epochs, db.retains[r].expected) then db.facts else Revoked(db.facts, r))
    case Invalidate(t, key) =>
      var epoch := EpochOf(db.epochs, key) + 1;
      db.(epochs := db.epochs[key := epoch], facts := Deleted(db.facts, t), invalidations := db.invalidations + [Invalidation(t, key, epoch)])
  }

  // ----- the invariant -----

  /** A fact whose retain has run its recheck is not alive against any invalidation that hit it: its snapshot
      is at least as new as every such invalidation of a scope it recorded. */
  predicate Respects(f: Row, v: Invalidation) {
    Matches(v.target, f.spec) && v.key in f.seen ==> f.seen[v.key] >= v.epoch
  }

  ghost predicate FactOk(db: Db, f: Row) {
    && f.owner < |db.retains| && f.seen == db.retains[f.owner].expected
    && (db.retains[f.owner].phase == Committed || db.retains[f.owner].phase == Rechecked)
    && (f.live && db.retains[f.owner].phase == Rechecked ==> forall k :: 0 <= k < |db.invalidations| ==> Respects(f, db.invalidations[k]))
  }

  predicate UniqueKeys(facts: seq<Row>) {
    forall i, j :: 0 <= i < j < |facts| ==> facts[i].spec.key != facts[j].spec.key
  }

  predicate HasCommitted(r: Retain) {
    r.phase == Committed || r.phase == Rechecked
  }

  /** Each event was committed by exactly one retain, and what is in flight is new. */
  ghost predicate EventsOk(db: Db) {
    && (forall k :: 0 <= k < |db.retains| && HasCommitted(db.retains[k]) ==> db.retains[k].event in db.processed)
    && (forall k :: 0 <= k < |db.retains| && db.retains[k].phase == Checked ==> db.retains[k].event !in db.processed)
    && (forall j, k :: 0 <= j < k < |db.retains| && db.retains[j].phase != Refused && db.retains[k].phase != Refused
          ==> db.retains[j].event != db.retains[k].event)
  }

  /** Epochs only rise: neither an invalidation nor an accepted retain recorded one that was never reached. */
  ghost predicate EpochsOk(db: Db) {
    && (forall k :: 0 <= k < |db.invalidations| ==> db.invalidations[k].epoch <= EpochOf(db.epochs, db.invalidations[k].key))
    && (forall r :: 0 <= r < |db.retains| && db.retains[r].phase != Refused ==> NotAhead(db.epochs, db.retains[r].expected))
  }

  predicate NotAhead(epochs: map<string, nat>, expected: map<string, nat>) {
    forall k :: k in expected ==> expected[k] <= EpochOf(epochs, k)
  }

  ghost predicate DbOk(db: Db) {
    && (forall k :: 0 <= k < |db.facts| ==> FactOk(db, db.facts[k]))
    && UniqueKeys(db.facts) && EventsOk(db) && EpochsOk(db)
  }

  /** What an insertion adds: nothing is changed, and new rows are alive, belong to the retain and have new keys. */
  lemma {:induction false} InsertedFacts(facts: seq<Row>, specs: seq<Spec>, owner: nat, seen: map<string, nat>)
    requires UniqueKeys(facts)
    ensures var r := Inserted(facts, specs, owner, seen);
            facts <= r && UniqueKeys(r)
            && (forall k :: |facts| <= k < |r| ==> r[k].live && r[k].owner == owner && r[k].seen == seen && r[k].spec in specs)
            && (forall s :: s in specs ==> HasKey(r, s.key))
  {
    if specs != [] {
      var init, s := specs[..|specs| - 1], specs[|specs| - 1];
      InsertedFacts(facts, init, owner, seen);
      var before, r := Inserted(facts, init, owner, seen), Inserted(facts, specs, owner, seen);
      assert specs == init + [s];
      if !HasKey(before, s.key) {
        assert r[|before|].spec.key == s.key;
      }
      forall x | x in specs ensures HasKey(r, x.key) {
        if x in init {
          var k :| 0 <= k < |before| && before[k].spec.key == x.key;
          assert r[k].spec.key == x.key;
        }
      }
    }
  }

  lemma CommitKeeps(db: Db, r: nat)
    requires DbOk(db) && r < |db.retains| && db.retains[r].phase == Checked
    ensures DbOk(After(db, Commit(r)))
  {
    var x := db.retains[r];
    InsertedFacts(db.facts, x.specs, r, x.expected);
    var after := After(db, Commit(r));
    hide Inserted;
    forall k | 0 <= k < |after.facts| ensures FactOk(after, after.facts[k]) {
      if k < |db.facts| {
        assert after.facts[k] == db.facts[k] && FactOk(db, db.facts[k]);
      }
    }
  }

  lemma RecheckKeeps(db: Db, r: nat)
    requires DbOk(db) && r < |db.retains| && db.retains[r].phase == Committed
    ensures DbOk(After(db, Recheck(r)))
  {
    var after := After(db, Recheck(r));
    forall k | 0 <= k < |after.facts| ensures FactOk(after, after.facts[k]) {
      assert FactOk(db, db.facts[k]);
      if db.facts[k].owner == r && after.facts[k].live {
        forall v | 0 <= v < |db.invalidations| ensures Respects(after.facts[k], db.invalidations[v]) {}
      }
    }
  }

  lemma InvalidateKeeps(db: Db, t: Target, key: string)
    requires DbOk(db)
    ensures DbOk(After(db, Invalidate(t, key)))
  {
    var after := After(db, Invalidate(t, key));
    var n := |db.invalidations|;
    forall k | 0 <= k < |after.facts| ensures FactOk(after, after.facts[k]) {
      assert FactOk(db, db.facts[k]);
      if after.facts[k].live && after.retains[after.facts[k].owner].phase == Rechecked {
        forall v | 0 <= v < |after.invalidations| ensures Respects(after.facts[k], after.invalidations[v]) {
          if v < n {
            assert Respects(db.facts[k], db.invalidations[v]);
          }
        }
      }
    }
  }

  lemma BeginKeeps(db: Db, s: Step)
    requires DbOk(db) && Possible(db, s) && (s.Begin? || s.Rollback?)
    ensures DbOk(After(db, s))
  {
    var after := After(db, s);
    forall k | 0 <= k < |after.facts| ensures FactOk(after, after.facts[k]) {
      assert FactOk(db, db.facts[k]);
    }
  }

  lemma StepKeepsDb(db: Db, s: Step)
    requires DbOk(db) && Possible(db, s)
    ensures DbOk(After(db, s))
  {
    hide DbOk;
    match s
    case Begin(_, _, _) => BeginKeeps(db, s);
    case Commit(r) => CommitKeeps(db, r);
    case Rollback(r) => BeginKeeps(db, s);
    case Recheck(r) => RecheckKeeps(db, r);
    case Invalidate(t, key) => InvalidateKeeps(db, t, key);
  }

  // ----- runs -----

  ghost predicate IsRun(trace: seq<Db>, steps: seq<Step>) {
    && |trace| == |steps| + 1
    && forall k :: 0 <= k < |steps| ==> Possible(trace[k], steps[k]) && trace[k + 1] == After(trace[k], steps[k])
  }

  lemma StepIn(trace: seq<Db>, steps: seq<Step>, k: nat)
    requires IsRun(trace, steps) && k < |steps|
    ensures Possible(trace[k], steps[k]) && trace[k + 1] == After(trace[k], steps[k])
  {}

  lemma {:induction false} RunKeepsDb(trace: seq<Db>, steps: seq<Step>, k: nat)
    requires IsRun(trace, steps) && DbOk(trace[0]) && k < |trace|
    ensures DbOk(trace[k])
  {
    hide DbOk, After, Possible;
    if k > 0 {
      RunKeepsDb(trace, steps, k - 1);
      StepIn(trace, steps, k - 1);
      StepKeepsDb(trace[k - 1], steps[k - 1]);
    }
  }

  /** No committed retain still owes its recheck. */
  predicate AllRechecked(db: Db) {
    forall k :: 0 <= k < |db.retains| ==> db.retains[k].phase != Committed
  }

  /** Once every committed retain has run its recheck, no fact is alive that an invalidation hit at a later epoch
      than the fact's snapshot recorded. */
  lemma HitFactsAreNewer(trace: seq<Db>, steps: seq<Step>, k: nat, i: nat, v: nat)
    requires IsRun(trace, steps) && DbOk(trace[0]) && k < |trace| && AllRechecked(trace[k])
    requires i < |trace[k].facts| && trace[k].facts[i].live && v < |trace[k].invalidations|
    ensures Respects(trace[k].facts[i], trace[k].invalidations[v])
  {
    RunKeepsDb(trace, steps, k);
    assert FactOk(trace[k], trace[k].facts[i]);
  }

  /** Once a post is deleted and no recheck is owed, none of the facts that were there lives on that came from the post
      or was derived from it, and one that is alive was retained under a snapshot that knew of the deletion. */
  lemma DeletedPostIsForgotten(trace: seq<Db>, steps: seq<Step>, j: nat, k: nat, post: string, key: string, i: nat)
    requires IsRun(trace, steps) && DbOk(trace[0]) && j < |steps| && steps[j] == Invalidate(Target("POST", post), key) && j < k < |trace|
    requires i < |trace[k].facts| && (trace[k].facts[i].spec.post == Some(post) || (trace[k].facts[i].spec.sourceType == "POST" && trace[k].facts[i].spec.sourceId == post))
    ensures i < |trace[j].facts| ==> !trace[k].facts[i].live
    ensures AllRechecked(trace[k]) && trace[k].facts[i].live && key in trace[k].facts[i].seen
            ==> trace[k].facts[i].seen[key] > EpochOf(trace[j].epochs, key)
  {
    StepIn(trace, steps, j);
    var n := |trace[j].invalidations|;
    var v := trace[j + 1].invalidations[n];
    assert v == Invalidation(Target("POST", post), key, EpochOf(trace[j].epochs, key) + 1);
    hide After, Possible, DbOk, EpochOf;
    DeletionIsFinal(trace, steps, j + 1, k);
    DeletionIsFinal(trace, steps, j, k);
    InvalidationsStay(trace, steps, j + 1, k);
    if AllRechecked(trace[k]) && trace[k].facts[i].live {
      HitFactsAreNewer(trace, steps, k, i, n);
    }
  }

  lemma {:induction false} InvalidationsStay(trace: seq<Db>, steps: seq<Step>, i: nat, j: nat)
    requires IsRun(trace, steps) && i <= j < |trace|
    ensures trace[i].invalidations <= trace[j].invalidations
    decreases j
  {
    if i < j {
      InvalidationsStay(trace, steps, i, j - 1);
      StepIn(trace, steps, j - 1);
    }
  }

  /** An invalidation touches nothing else: not another source's facts, unless they were derived from a deleted post. */
  lemma OthersAreSpared(db: Db, t: Target, key: string, i: nat)
    requires i < |db.facts| && (db.facts[i].spec.sourceType != t.sourceType || db.facts[i].spec.sourceId != t.sourceId)
    requires t.sourceType != "POST" || db.facts[i].spec.post != Some(t.sourceId)
    ensures After(db, Invalidate(t, key)).facts[i] == db.facts[i]
  {}

  // ----- when all live facts are current -----

  /** Every live fact records exactly the current epochs. */
  predicate AllCurrent(db: Db) {
    forall i :: 0 <= i < |db.facts| && db.facts[i].live ==> EpochsMatch(db.epochs, db.facts[i].seen)
  }

  /** A live fact whose retain has finished. */
  predicate Standing(db: Db, i: nat) {
    i < |db.facts| && db.facts[i].live && db.facts[i].owner < |db.retains| && db.retains[db.facts[i].owner].phase == Rechecked
  }

  ghost predicate StandingCurrent(db: Db) {
    forall i: nat :: Standing(db, i) ==> EpochsMatch(db.epochs, db.facts[i].seen)
  }

  /** The step raises a scope that a standing fact recorded, and does not delete the fact: deletion goes by source
      and post, not by scope. Retains still in flight cannot be missed, their own recheck sees the new epoch. */
  predicate Missed(db: Db, s: Step, i: nat) {
    s.Invalidate? && Standing(db, i) && s.key in db.facts[i].seen && !Matches(s.target, db.facts[i].spec)
  }

  lemma SeenIsNotAhead(db: Db, i: nat)
    requires DbOk(db) && i < |db.facts|
    ensures NotAhead(db.epochs, db.facts[i].seen)
  {
    hide EpochOf, Respects, NotAhead;
    assert FactOk(db, db.facts[i]);
  }

  /** What one step does to a standing fact: a current one stays current unless the step misses it, and a stale one
      stays stale. */
  lemma StandingStep(db: Db, s: Step, i: nat)
    requires DbOk(db) && Possible(db, s) && Standing(db, i) && Standing(After(db, s), i)
    ensures After(db, s).facts[i].seen == db.facts[i].seen
    ensures EpochsMatch(After(db, s).epochs, db.facts[i].seen) <==> EpochsMatch(db.epochs, db.facts[i].seen) && !Missed(db, s, i)
  {
    var after, seen := After(db, s), db.facts[i].seen;
    if s.Commit? {
      InsertedFacts(db.facts, db.retains[s.r].specs, s.r, db.retains[s.r].expected);
    }
    SeenIsNotAhead(db, i);
    hide DbOk, Inserted;
    if s.Invalidate? && !EpochsMatch(db.epochs, seen) {
      var k :| k in seen && EpochOf(db.epochs, k) != seen[k];
      assert EpochOf(after.epochs, k) > seen[k];
    }
  }

  /** A fact comes to stand by a recheck that found its epochs current. */
  lemma ComesToStandCurrent(db: Db, s: Step, i: nat)
    requires DbOk(db) && Possible(db, s) && !Standing(db, i) && Standing(After(db, s), i)
    ensures EpochsMatch(After(db, s).epochs, After(db, s).facts[i].seen)
  {
    if s.Commit? {
      InsertedFacts(db.facts, db.retains[s.r].specs, s.r, db.retains[s.r].expected);
    }
    if i < |db.facts| {
      assert FactOk(db, db.facts[i]);
    }
    hide Inserted, Respects, EventsOk, EpochsOk;
  }

  /** One step keeps the standing facts current exactly when it misses none of them; so every step but an
      invalidation does. */
  lemma InvalidationKeepsCurrentIff(db: Db, s: Step)
    requires DbOk(db) && Possible(db, s) && StandingCurrent(db)
    ensures StandingCurrent(After(db, s)) <==> forall i: nat :: !Missed(db, s, i)
  {
    var after := After(db, s);
    forall i: nat | Standing(after, i) && !Missed(db, s, i) ensures EpochsMatch(after.epochs, after.facts[i].seen) {
      if Standing(db, i) {
        StandingStep(db, s, i);
      } else {
        ComesToStandCurrent(db, s, i);
      }
    }
    forall i: nat | Missed(db, s, i) ensures Standing(after, i) && !EpochsMatch(after.epochs, after.facts[i].seen) {
      assert Standing(after, i);
      StandingStep(db, s, i);
    }
  }

  /** A fact missed by an earlier step of the run. */
  ghost predicate MissedBefore(trace: seq<Db>, steps: seq<Step>, k: nat, i: nat)
    requires k <= |steps| < |trace|
  {
    exists j :: 0 <= j < k && Missed(trace[j], steps[j], i)
  }

  lemma StoodBefore(trace: seq<Db>, steps: seq<Step>, j: nat, k: nat, i: nat)
    requires IsRun(trace, steps) && DbOk(trace[0]) && j <= k < |trace| && Standing(trace[j], i) && i < |trace[k].facts| && trace[k].facts[i].live
    ensures Standing(trace[k], i)
  {
    hide DbOk, After, Possible, IsRun;
    DeletionIsFinal(trace, steps, j, k);
  }

  /** In every run, at every moment: a standing fact is current exactly when no invalidation before has missed it. */
  lemma {:induction false} StandingIsCurrentIff(trace: seq<Db>, steps: seq<Step>, k: nat, i: nat)
    requires IsRun(trace, steps) && DbOk(trace[0]) && StandingCurrent(trace[0]) && k < |trace| && Standing(trace[k], i)
    ensures EpochsMatch(trace[k].epochs, trace[k].facts[i].seen) <==> !MissedBefore(trace, steps, k, i)
  {
    hide DbOk, After, Possible, EpochsMatch;
    if k > 0 {
      var db, s := trace[k - 1], steps[k - 1];
      StepIn(trace, steps, k - 1);
      RunKeepsDb(trace, steps, k - 1);
      StepGrows(db, s);
      if Standing(db, i) {
        StandingIsCurrentIff(trace, steps, k - 1, i);
        StandingStep(db, s, i);
        assert MissedBefore(trace, steps, k, i) <==> MissedBefore(trace, steps, k - 1, i) || Missed(db, s, i);
      } else {
        ComesToStandCurrent(db, s, i);
        if j :| 0 <= j < k && Missed(trace[j], steps[j], i) {
          DeletionIsFinal(trace, steps, j, k - 1);
          StoodBefore(trace, steps, j, k - 1, i);
          assert false;
        }
      }
    }
  }

  /** For every interleaving of retains and invalidations: once every committed retain has run its recheck, all live
      facts are current exactly when every fact that an invalidation missed is deleted by then. */
  lemma NoStaleFactSurvives(trace: seq<Db>, steps: seq<Step>, k: nat)
    requires IsRun(trace, steps) && DbOk(trace[0]) && StandingCurrent(trace[0]) && k < |trace| && AllRechecked(trace[k])
    ensures AllCurrent(trace[k]) <==> forall i: nat :: MissedBefore(trace, steps, k, i) ==> !Standing(trace[k], i)
  {
    assert |trace| == |steps| + 1;
    hide IsRun, EpochsMatch, After, Possible;
    RunKeepsDb(trace, steps, k);
    forall i: nat | i < |trace[k].facts| && trace[k].facts[i].live ensures Standing(trace[k], i) {
      assert FactOk(trace[k], trace[k].facts[i]);
    }
    hide DbOk, MissedBefore;
    forall i: nat | Standing(trace[k], i) ensures EpochsMatch(trace[k].epochs, trace[k].facts[i].seen) <==> !MissedBefore(trace, steps, k, i) {
      StandingIsCurrentIff(trace, steps, k, i);
    }
  }

  /** Along a whole run the standing facts are current at every moment exactly when no invalidation misses one; and
      then all live facts are current whenever no recheck is owed. */
  lemma AlwaysCurrentIffNoneMissed(trace: seq<Db>, steps: seq<Step>)
    requires IsRun(trace, steps) && DbOk(trace[0]) && StandingCurrent(trace[0])
    ensures (forall k :: 0 <= k < |trace| ==> StandingCurrent(trace[k])) <==> (forall j, i: nat :: 0 <= j < |steps| ==> !Missed(trace[j], steps[j], i))
    ensures (forall j, i: nat :: 0 <= j < |steps| ==> !Missed(trace[j], steps[j], i))
            ==> forall k :: 0 <= k < |trace| && AllRechecked(trace[k]) ==> AllCurrent(trace[k])
  {
    hide DbOk, After, Possible, EpochsMatch;
    if forall j, i: nat :: 0 <= j < |steps| ==> !Missed(trace[j], steps[j], i) {
      forall k, i: nat | 0 <= k < |trace| && Standing(trace[k], i) ensures EpochsMatch(trace[k].epochs, trace[k].facts[i].seen) {
        StandingIsCurrentIff(trace, steps, k, i);
      }
      forall k | 0 <= k < |trace| && AllRechecked(trace[k]) ensures AllCurrent(trace[k]) {
        NoStaleFactSurvives(trace, steps, k);
      }
    } else {
      var j, i: nat :| 0 <= j < |steps| && Missed(trace[j], steps[j], i);
      StepIn(trace, steps, j);
      RunKeepsDb(trace, steps, j);
      if StandingCurrent(trace[j]) {
        InvalidationKeepsCurrentIff(trace[j], steps[j]);
        assert !StandingCurrent(trace[j + 1]);
      }
    }
  }

  /** A fact of another source keeps living under the old epoch of the same scope. */
  lemma AnotherSourceSurvives()
    ensures exists db: Db, t: Target, key: string :: DbOk(db) && AllRechecked(db) && AllCurrent(db) && !AllCurrent(After(db, Invalidate(t, key)))
  {
    var f := Row(Spec("k", "VERDICT", "v1", None), 0, map["room:1" := 0], true);
    var r := Retain("e", map["room:1" := 0], [f.spec], Rechecked);
    var db := Db(map[], [f], {"e"}, [r], []);
    var t := Target("VERDICT", "v2");
    assert FactOk(db, db.facts[0]);
    assert DbOk(db) && AllRechecked(db) && AllCurrent(db);
    var after := After(db, Invalidate(t, "room:1"));
    assert after.facts[0] == f && EpochOf(after.epochs, "room:1") == 1;
    assert !EpochsMatch(after.epochs, after.facts[0].seen);
  }

  // ----- replays and deletions -----

  /** What one step may do to committed rows: facts are only added, a deleted one stays deleted, processed
      events stay processed, and a refused or finished retain stays so. */
  predicate Grows(a: Db, b: Db) {
    && |a.facts| <= |b.facts| && a.processed <= b.processed && |a.retains| <= |b.retains|
    && (forall k :: 0 <= k < |a.facts| ==> b.facts[k].spec == a.facts[k].spec && b.facts[k].owner == a.facts[k].owner && (b.facts[k].live ==> a.facts[k].live))
    && (forall k :: 0 <= k < |a.retains| && (a.retains[k].phase == Refused || a.retains[k].phase == Rechecked) ==> b.retains[k] == a.retains[k])
  }

  lemma StepGrows(db: Db, s: Step)
    requires DbOk(db) && Possible(db, s)
    ensures Grows(db, After(db, s))
  {
    if s.Commit? {
      InsertedFacts(db.facts, db.retains[s.r].specs, s.r, db.retains[s.r].expected);
    }
    hide Inserted;
  }

  /** Deleted facts never come back, and a processed event is never processed again, in any run. */
  lemma {:induction false} DeletionIsFinal(trace: seq<Db>, steps: seq<Step>, i: nat, j: nat)
    requires IsRun(trace, steps) && DbOk(trace[0]) && i <= j < |trace|
    ensures Grows(trace[i], trace[j])
    decreases j
  {
    hide DbOk, After, Possible;
    if i < j {
      DeletionIsFinal(trace, steps, i, j - 1);
      RunKeepsDb(trace, steps, j - 1);
      StepIn(trace, steps, j - 1);
      StepGrows(trace[j - 1], steps[j - 1]);
    }
  }

  /** A retain of an event that was committed before is refused, changes nothing, and never owns a fact: once an
      event is committed, every replay of it, however late and with whatever facts, leaves the memory as it is. */
  lemma ReplayChangesNothing(trace: seq<Db>, steps: seq<Step>, i: nat, j: nat, k: nat)
    requires IsRun(trace, steps) && DbOk(trace[0]) && i < j < |steps| && j < k < |trace|
    requires steps[i].Commit? && steps[i].r < |trace[i].retains|
    requires steps[j].Begin? && steps[j].event == trace[i].retains[steps[i].r].event
    ensures trace[j + 1] == trace[j].(retains := trace[j].retains + [Retain(steps[j].event, steps[j].expected, steps[j].specs, Refused)])
    ensures forall f :: 0 <= f < |trace[k].facts| ==> trace[k].facts[f].owner != |trace[j].retains|
  {
    var replay := |trace[j].retains|;
    StepIn(trace, steps, i);
    StepIn(trace, steps, j);
    assert steps[j].event in trace[i + 1].processed;
    DeletionIsFinal(trace, steps, i + 1, j);
    assert trace[j + 1].retains[replay].phase == Refused;
    hide After, Possible, IsRun, EventsOk, EpochsOk;
    DeletionIsFinal(trace, steps, j + 1, k);
    RunKeepsDb(trace, steps, k);
    forall f | 0 <= f < |trace[k].facts| ensures trace[k].facts[f].owner != replay {
      assert FactOk(trace[k], trace[k].facts[f]);
    }
  }

  /** A retain that is rolled back leaves nothing behind, then or later. */
  lemma RolledBackOwnsNothing(trace: seq<Db>, steps: seq<Step>, j: nat, k: nat)
    requires IsRun(trace, steps) && DbOk(trace[0]) && j < |steps| && j < k < |trace| && steps[j].Rollback?
    ensures trace[j + 1].facts == trace[j].facts && trace[j + 1].processed == trace[j].processed
    ensures forall f :: 0 <= f < |trace[k].facts| ==> trace[k].facts[f].owner != steps[j].r
  {
    StepIn(trace, steps, j);
    assert trace[j + 1].retains[steps[j].r].phase == Refused;
    hide After, Possible, IsRun, EventsOk, EpochsOk;
    DeletionIsFinal(trace, steps, j + 1, k);
    RunKeepsDb(trace, steps, k);
    forall f | 0 <= f < |trace[k].facts| ensures trace[k].facts[f].owner != steps[j].r {
      assert FactOk(trace[k], trace[k].facts[f]);
    }
  }

  // ----- the retain itself -----

  class MemoryDb {
    var db: Db

    ghost predicate Valid()
      reads this
    {
      DbOk(db)
    }

    constructor ()
      ensures Valid() && db == Db(map[], [], {}, [], [])
    {
      db := Db(map[], [], {}, [], []);
    }

    /** The transaction up to its commit: the event and the epochs decide whether anything is written. */
    method BeginRetain(event: string, expected: map<string, nat>, specs: seq<Spec>) returns (id: nat, accepted: bool)
      requires Valid() && !InFlight(db, event)
      modifies this
      ensures Valid() && db == After(old(db), Begin(event, expected, specs))
      ensures id == |old(db).retains| && accepted == (event !in old(db).processed && EpochsMatch(old(db).epochs, expected))
    {
      hide DbOk;
      StepKeepsDb(db, Begin(event, expected, specs));
      id := |db.retains|;
      accepted := event !in db.processed && EpochsMatch(db.epochs, expected);
      db := db.(retains := db.retains + [Retain(event, expected, specs, if accepted then Checked else Refused)]);
    }

    /** Inserts the facts one by one and commits; returns how many rows are new. */
    method CommitRetain(id: nat) returns (added: nat)
      requires Valid() && id < |db.retains| && db.retains[id].phase == Checked
      modifies this
      ensures Valid() && db == After(old(db), Commit(id)) && added == |db.facts| - |old(db).facts|
      ensures db.retains[id].phase == (if added > 0 then Committed else Rechecked) && old(db).retains[id].event in db.processed
    {
      hide DbOk;
      StepKeepsDb(db, Commit(id));
      var x := db.retains[id];
      var facts := db.facts;
      added := 0;
      for n := 0 to |x.specs|
        invariant facts == Inserted(db.facts, x.specs[..n], id, x.expected) && |facts| == |db.facts| + added
      {
        assert x.specs[..n + 1][..n] == x.specs[..n];
        if !HasKey(facts, x.specs[n].key) {
          facts := facts + [Row(x.specs[n], id, x.expected, true)];
          added := added + 1;
        }
      }
      assert x.specs[..|x.specs|] == x.specs;
      db := WithPhase(db, id, CommittedPhase(db.facts, facts)).(facts := facts, processed := db.processed + {x.event});
    }

    /** The check after the commit; when an epoch has moved, the rows just inserted are deleted again. */
    method RecheckRetain(id: nat) returns (revoked: bool)
      requires Valid() && id < |db.retains| && db.retains[id].phase == Committed
      modifies this
      ensures Valid() && db == After(old(db), Recheck(id)) && revoked == !EpochsMatch(old(db).epochs, old(db).retains[id].expected)
    {
      hide DbOk;
      StepKeepsDb(db, Recheck(id));
      revoked := !EpochsMatch(db.epochs, db.retains[id].expected);
      var facts := if revoked then Revoked(db.facts, id) else db.facts;
      db := WithPhase(db, id, Rechecked).(facts := facts);
    }
  }
}
