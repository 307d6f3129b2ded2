/** The preparation cache: its two keys (`input_hash`, `dossier_key`), saving a preparation and its banter
    under concurrent savers, and finding a valid one again. A hash stands for the value it is taken of. */
module PreparationCache {
  import opened Drafts

  // ----- keys -----

  /** Room ids are ordered as the strings they stand for. */
  datatype Room = Room(id: int, ruleVersion: int, intensity: Intensity)

  datatype Rule = Rule(room: int, version: int)

  /** `trial` stands for what a snapshot says about the trial itself: jury, final verdict, comment. */
  datatype Snapshot = Snapshot(postId: string, post: string, intake: Option<string>, audience: string, rooms: seq<Room>,
                               epochs: seq<(string, nat)>, trial: string)

  /** `input_hash`: the post, the intake result, the audience, the rooms as listed and the epochs as listed. */
  datatype InputHash = InputHash(postId: string, post: string, intake: Option<string>, audience: string, rooms: seq<Room>, epochs: seq<(string, nat)>)

  function HashOf(s: Snapshot): InputHash {
    InputHash(s.postId, s.post, s.intake, s.audience, s.rooms, s.epochs)
  }

  /** `dossier_key`: the post, the intake result and the rule versions by room. */
  datatype DossierKey = DossierKey(postId: string, post: string, intake: Option<string>, rules: seq<Rule>)

  datatype BanterKey = BanterKey(dossier: nat, intensity: Intensity, prompt: string)

  function Pairs(rooms: seq<Room>): (r: seq<Rule>)
    ensures |r| == |rooms| && forall k :: 0 <= k < |r| ==> r[k] == Rule(rooms[k].id, rooms[k].ruleVersion)
  {
    seq(|rooms|, k requires 0 <= k < |rooms| => Rule(rooms[k].id, rooms[k].ruleVersion))
  }

  function Insert(x: Rule, s: seq<Rule>): seq<Rule> {
    if s == [] || x.room <= s[0].room then [x] + s else [s[0]] + Insert(x, s[1..])
  }

  /** A stable sort by room id. */
  function Sort(s: seq<Rule>): seq<Rule> {
    if s == [] then [] else Insert(s[0], Sort(s[1..]))
  }

  function KeyOf(s: Snapshot): DossierKey {
    DossierKey(s.postId, s.post, s.intake, Sort(Pairs(s.rooms)))
  }

  /** The dossier key that every snapshot with these inputs has. */
  function KeyIn(h: InputHash): DossierKey {
    DossierKey(h.postId, h.post, h.intake, Sort(Pairs(h.rooms)))
  }

  /** The versions recorded for one room, in order. */
  function VersionsOf(s: seq<Rule>, id: int): seq<int> {
    if s == [] then [] else (if s[0].room == id then [s[0].version] else []) + VersionsOf(s[1..], id)
  }

  predicate Sorted(s: seq<Rule>) {
    forall i, j :: 0 <= i < j < |s| ==> s[i].room <= s[j].room
  }

  lemma {:induction false} InsertSorts(x: Rule, s: seq<Rule>)
    requires Sorted(s)
    ensures Sorted(Insert(x, s)) && |Insert(x, s)| == |s| + 1
    ensures Insert(x, s)[0] == (if s == [] || x.room <= s[0].room then x else s[0])
  {
    if s != [] && x.room > s[0].room {
      InsertSorts(x, s[1..]);
      var tail := Insert(x, s[1..]);
      assert forall k :: 0 <= k < |tail| ==> tail[0].room <= tail[k].room;
    }
  }

  lemma {:induction false} InsertKeepsVersions(x: Rule, s: seq<Rule>, id: int)
    ensures VersionsOf(Insert(x, s), id) == (if x.room == id then [x.version] else []) + VersionsOf(s, id)
  {
    var own := if x.room == id then [x.version] else [];
    if s == [] || x.room <= s[0].room {
      ConsVersions(x, s, id);
    } else {
      var first := if s[0].room == id then [s[0].version] else [];
      InsertKeepsVersions(x, s[1..], id);
      ConsVersions(s[0], Insert(x, s[1..]), id);
      ConsVersions(s[0], s[1..], id);
      assert s == [s[0]] + s[1..];
      assert own == [] || first == [];
    }
  }

  lemma ConsVersions(x: Rule, s: seq<Rule>, id: int)
    ensures VersionsOf([x] + s, id) == (if x.room == id then [x.version] else []) + VersionsOf(s, id)
  {
    assert ([x] + s)[1..] == s;
  }

  lemma {:induction false} SortKeepsVersions(s: seq<Rule>, id: int)
    ensures Sorted(Sort(s)) && |Sort(s)| == |s| && VersionsOf(Sort(s), id) == VersionsOf(s, id)
  {
    if s != [] {
      SortKeepsVersions(s[1..], id);
      InsertSorts(s[0], Sort(s[1..]));
      InsertKeepsVersions(s[0], Sort(s[1..]), id);
    }
  }

  lemma HeadHasVersions(s: seq<Rule>)
    requires s != []
    ensures VersionsOf(s, s[0].room) != []
  {}

  /** A sorted list is determined by the versions of each room. */
  lemma {:induction false} SortedIsDetermined(a: seq<Rule>, b: seq<Rule>)
    requires Sorted(a) && Sorted(b) && forall id :: VersionsOf(a, id) == VersionsOf(b, id)
    ensures a == b
  {
    if a == [] || b == [] {
      if b != [] {
        HeadHasVersions(b);
      }
      if a != [] {
        HeadHasVersions(a);
      }
    } else {
      var x := a[0];
      assert VersionsOf(a, x.room) == [x.version] + VersionsOf(a[1..], x.room);
      SmallestLeads(b, x.room);
      SmallestLeads(a, b[0].room);
      assert VersionsOf(b, b[0].room) == [b[0].version] + VersionsOf(b[1..], b[0].room);
      assert a[0].room == b[0].room;
      assert a[0].version == VersionsOf(a, x.room)[0] == VersionsOf(b, x.room)[0] == b[0].version;
      forall id ensures VersionsOf(a[1..], id) == VersionsOf(b[1..], id) {
        var own := if x.room == id then [x.version] else [];
        assert VersionsOf(a, id) == own + VersionsOf(a[1..], id) && VersionsOf(b, id) == own + VersionsOf(b[1..], id);
        assert (own + VersionsOf(a[1..], id))[|own|..] == VersionsOf(a[1..], id);
        assert (own + VersionsOf(b[1..], id))[|own|..] == VersionsOf(b[1..], id);
      }
      SortedIsDetermined(a[1..], b[1..]);
      assert a == [a[0]] + a[1..] && b == [b[0]] + b[1..];
    }
  }

  /** A room with versions is somewhere in a sorted list, so the list starts at or before it. */
  lemma {:induction false} SmallestLeads(s: seq<Rule>, id: int)
    ensures VersionsOf(s, id) != [] ==> s != [] && exists k :: 0 <= k < |s| && s[k].room == id
  {
    if s != [] && s[0].room != id {
      SmallestLeads(s[1..], id);
      if VersionsOf(s, id) != [] {
        var k :| 0 <= k < |s[1..]| && s[1..][k].room == id;
        assert s[k + 1].room == id;
      }
    }
  }

  /** Every room records the same versions in the same order. */
  ghost predicate SameVersions(a: seq<Rule>, b: seq<Rule>) {
    forall id :: VersionsOf(a, id) == VersionsOf(b, id)
  }

  /** Two lists of rooms give the same key part exactly when every room records the same versions in the same
      order; the order of different rooms never matters. */
  lemma RuleKeyIgnoresRoomOrder(a: seq<Rule>, b: seq<Rule>)
    ensures Sort(a) == Sort(b) <==> SameVersions(a, b)
  {
    forall id ensures VersionsOf(Sort(a), id) == VersionsOf(a, id) && VersionsOf(Sort(b), id) == VersionsOf(b, id) {
      SortKeepsVersions(a, id);
      SortKeepsVersions(b, id);
    }
    SortKeepsVersions(a, 0);
    SortKeepsVersions(b, 0);
    if Sort(a) == Sort(b) {
      forall id ensures VersionsOf(a, id) == VersionsOf(b, id) {
        SortKeepsVersions(a, id);
        SortKeepsVersions(b, id);
      }
    } else if SameVersions(a, b) {
      SortedIsDetermined(Sort(a), Sort(b));
    }
  }

  predicate OnePerRoom(s: seq<Rule>) {
    forall i, j :: 0 <= i < j < |s| ==> s[i].room != s[j].room
  }

  predicate HasRoom(s: seq<Rule>, id: int) {
    exists k :: 0 <= k < |s| && s[k].room == id
  }

  lemma {:induction false} OneVersionPerRoom(s: seq<Rule>, id: int)
    requires OnePerRoom(s)
    ensures !HasRoom(s, id) ==> VersionsOf(s, id) == []
    ensures forall k :: 0 <= k < |s| && s[k].room == id ==> VersionsOf(s, id) == [s[k].version]
  {
    if s != [] {
      var rest := s[1..];
      assert forall k :: 0 <= k < |rest| ==> rest[k] == s[k + 1];
      OneVersionPerRoom(rest, id);
      assert !HasRoom(s, id) ==> s[0].room != id;
      assert HasRoom(rest, id) ==> HasRoom(s, id);
    }
  }

  predicate SameRules(a: seq<Rule>, b: seq<Rule>) {
    (forall k :: 0 <= k < |a| ==> a[k] in b) && (forall k :: 0 <= k < |b| ==> b[k] in a)
  }

  lemma RulesWithinVersions(a: seq<Rule>, b: seq<Rule>, k: nat)
    requires OnePerRoom(a) && OnePerRoom(b) && k < |a| && VersionsOf(a, a[k].room) == VersionsOf(b, a[k].room)
    ensures a[k] in b
  {
    OneVersionPerRoom(a, a[k].room);
    OneVersionPerRoom(b, a[k].room);
    assert HasRoom(b, a[k].room);
    var j :| 0 <= j < |b| && b[j].room == a[k].room;
    assert b[j] == a[k];
  }

  lemma VersionsWithinRules(a: seq<Rule>, b: seq<Rule>, id: int)
    requires OnePerRoom(a) && OnePerRoom(b) && SameRules(a, b)
    ensures VersionsOf(a, id) == VersionsOf(b, id)
  {
    OneVersionPerRoom(a, id);
    OneVersionPerRoom(b, id);
    if HasRoom(a, id) {
      var k :| 0 <= k < |a| && a[k].room == id;
      var j :| 0 <= j < |b| && b[j] == a[k];
    } else {
      assert HasRoom(b, id) ==> HasRoom(a, id);
    }
  }

  /** With distinct rooms the dossier key depends on nothing but the post, the intake result and the set of
      rule versions: not on room order, intensities, audience or epochs. */
  lemma DossierKeyIgnoresTheRest(s: Snapshot, t: Snapshot)
    requires OnePerRoom(Pairs(s.rooms)) && OnePerRoom(Pairs(t.rooms))
    ensures KeyOf(s) == KeyOf(t) <==>
            s.postId == t.postId && s.post == t.post && s.intake == t.intake && SameRules(Pairs(s.rooms), Pairs(t.rooms))
  {
    var a, b := Pairs(s.rooms), Pairs(t.rooms);
    RuleKeyIgnoresRoomOrder(a, b);
    if Sort(a) == Sort(b) {
      forall k | 0 <= k < |a| ensures a[k] in b {
        RulesWithinVersions(a, b, k);
      }
      forall k | 0 <= k < |b| ensures b[k] in a {
        RulesWithinVersions(b, a, k);
      }
    }
    if SameRules(a, b) {
      forall id ensures VersionsOf(a, id) == VersionsOf(b, id) {
        VersionsWithinRules(a, b, id);
      }
    }
  }

  /** Lists with the same rooms in the same order and the same versions per room are the same. */
  lemma {:induction false} SamePlacesSameRules(a: seq<Rule>, b: seq<Rule>)
    requires SameVersions(a, b) && |a| == |b| && forall k :: 0 <= k < |a| ==> a[k].room == b[k].room
    ensures a == b
  {
    if a != [] {
      assert a == [a[0]] + a[1..] && b == [b[0]] + b[1..];
      forall id ensures VersionsOf(a[1..], id) == VersionsOf(b[1..], id) && (id == a[0].room ==> a[0].version == b[0].version) {
        assert VersionsOf(a, id) == VersionsOf(b, id);
        var own, other := if a[0].room == id then [a[0].version] else [], if b[0].room == id then [b[0].version] else [];
        assert (own + VersionsOf(a[1..], id))[..|own|] == own && (other + VersionsOf(b[1..], id))[..|other|] == other;
        assert (own + VersionsOf(a[1..], id))[|own|..] == VersionsOf(a[1..], id);
        assert (other + VersionsOf(b[1..], id))[|other|..] == VersionsOf(b[1..], id);
      }
      assert VersionsOf(a[1..], a[0].room) == VersionsOf(b[1..], a[0].room);
      SamePlacesSameRules(a[1..], b[1..]);
    }
  }

  /** Two snapshots have the same input hash exactly when they have the same dossier key and list the same rooms in the
      same order, with the same intensities, for the same audience under the same epochs. */
  lemma SameInputSameKey(s: Snapshot, t: Snapshot)
    ensures HashOf(s) == HashOf(t) <==>
            KeyOf(s) == KeyOf(t) && s.audience == t.audience && s.epochs == t.epochs
            && |s.rooms| == |t.rooms| && forall k :: 0 <= k < |s.rooms| ==> s.rooms[k].id == t.rooms[k].id && s.rooms[k].intensity == t.rooms[k].intensity
  {
    if KeyOf(s) == KeyOf(t) && |s.rooms| == |t.rooms| && (forall k :: 0 <= k < |s.rooms| ==> s.rooms[k].id == t.rooms[k].id && s.rooms[k].intensity == t.rooms[k].intensity) {
      var a, b := Pairs(s.rooms), Pairs(t.rooms);
      RuleKeyIgnoresRoomOrder(a, b);
      SamePlacesSameRules(a, b);
      forall k | 0 <= k < |s.rooms| ensures s.rooms[k] == t.rooms[k] {
        assert a[k] == b[k];
      }
    }
  }

  /** The trial has no part in either key: a snapshot finds its preparation again once the jury has spoken. */
  lemma TrialDoesNotMatter(s: Snapshot, trial: string, preps: seq<Prep>, prompt: string)
    ensures var t := s.(trial := trial); KeyOf(t) == KeyOf(s) && RowOf(preps, HashOf(t), prompt) == RowOf(preps, HashOf(s), prompt)
  {}

  // ----- the rows -----

  datatype Status = DOSSIER_READY | COMPLETE | INVALIDATED

  /** One candidate list per intensity, stored under its banter key. */
  datatype Entry = Entry(key: BanterKey, candidates: seq<string>)

  datatype Prep = Prep(hash: InputHash, prompt: string, status: Status, dossier: nat, banter: Option<map<Intensity, Entry>>)

  datatype Dossier = Dossier(key: DossierKey, epochs: set<(string, nat)>, live: bool)

  /** Rows are identified by their position. */
  datatype Db = Db(preps: seq<Prep>, dossiers: seq<Dossier>)

  function EpochSet(s: seq<(string, nat)>): set<(string, nat)> {
    set p | p in s
  }

  predicate SameRow(p: Prep, hash: InputHash, prompt: string) {
    p.hash == hash && p.prompt == prompt
  }

  /** The row of a key, if there is one. */
  function RowOf(preps: seq<Prep>, hash: InputHash, prompt: string): (r: Option<nat>)
    ensures r.Some? ==> r.value < |preps| && SameRow(preps[r.value], hash, prompt)
    ensures r.None? ==> forall k :: 0 <= k < |preps| ==> !SameRow(preps[k], hash, prompt)
  {
    if preps == [] then None
    else
      var n := |preps| - 1;
      if SameRow(preps[n], hash, prompt) then Some(n)
      else
        var r := RowOf(preps[..n], hash, prompt);
        assert forall k :: 0 <= k < n ==> preps[..n][k] == preps[k];
        r
  }

  /** One row per key; every row's dossier exists, was made for the same dossier key and under the same epochs;
      banter is there exactly when the row is complete, each intensity under its own key. */
  ghost predicate DbOk(db: Db) {
    && (forall i, j :: 0 <= i < j < |db.preps| ==> !SameRow(db.preps[i], db.preps[j].hash, db.preps[j].prompt))
    && (forall k :: 0 <= k < |db.preps| ==> PrepOk(db.preps[k], db.dossiers))
  }

  predicate PrepOk(p: Prep, dossiers: seq<Dossier>) {
    && p.dossier < |dossiers|
    && dossiers[p.dossier].key == KeyIn(p.hash) && dossiers[p.dossier].epochs == EpochSet(p.hash.epochs)
    && (p.status == COMPLETE ==> p.banter.Some?) && (p.status == DOSSIER_READY ==> p.banter.None?)
    && (p.banter.Some? ==> forall i :: i in p.banter.value ==> p.banter.value[i].key == BanterKey(p.dossier, i, p.prompt))
  }

  // ----- saving -----

  /** `dossier` is an existing row when it is used again, else the new row is inserted with the preparation. */
  datatype Source = Reused(dossier: nat) | Made

  predicate FitsSnapshot(db: Db, s: Snapshot, source: Source) {
    source.Reused? ==> source.dossier < |db.dossiers| && db.dossiers[source.dossier].key == KeyOf(s) && db.dossiers[source.dossier].epochs == EpochSet(s.epochs)
  }

  function SaveIn(db: Db, s: Snapshot, prompt: string, source: Source): Db {
    if RowOf(db.preps, HashOf(s), prompt).Some? then db
    else
      match source
      case Reused(d) => db.(preps := db.preps + [Prep(HashOf(s), prompt, DOSSIER_READY, d, None)])
      case Made =>
        Db(db.preps + [Prep(HashOf(s), prompt, DOSSIER_READY, |db.dossiers|, None)],
           db.dossiers + [Dossier(KeyOf(s), EpochSet(s.epochs), true)])
  }

  function Entries(dossier: nat, prompt: string, banter: map<Intensity, seq<string>>): map<Intensity, Entry> {
    map i | i in banter :: Entry(BanterKey(dossier, i, prompt), banter[i])
  }

  predicate TakesBanter(db: Db, id: nat) {
    id < |db.preps| && db.preps[id].banter.None? && db.preps[id].status == DOSSIER_READY
  }

  function BanterIn(db: Db, id: nat, banter: map<Intensity, seq<string>>): Db {
    if TakesBanter(db, id) then
      var p := db.preps[id];
      db.(preps := db.preps[id := p.(status := COMPLETE, banter := Some(Entries(p.dossier, p.prompt, banter)))])
    else db
  }

  /** The backend withdraws a dossier and every preparation that rests on it. */
  function WithdrawIn(db: Db, dossier: nat): Db
    requires dossier < |db.dossiers|
  {
    Db(seq(|db.preps|, k requires 0 <= k < |db.preps| => if db.preps[k].dossier == dossier then db.preps[k].(status := INVALIDATED) else db.preps[k]),
       db.dossiers[dossier := db.dossiers[dossier].(live := false)])
  }

  datatype Event = ESave(s: Snapshot, prompt: string, source: Source) | EBanter(id: nat, banter: map<Intensity, seq<string>>) | EWithdraw(dossier: nat)

  predicate Possible(db: Db, e: Event) {
    match e
    case ESave(s, _, source) => FitsSnapshot(db, s, source)
    case EBanter(_, _) => true
    case EWithdraw(d) => d < |db.dossiers|
  }

  function After(db: Db, e: Event): Db
    requires Possible(db, e)
  {
    match e
    case ESave(s, prompt, source) => SaveIn(db, s, prompt, source)
    case EBanter(id, banter) => BanterIn(db, id, banter)
    case EWithdraw(d) => WithdrawIn(db, d)
  }

  ghost predicate IsRun(trace: seq<Db>, events: seq<Event>) {
    && |trace| == |events| + 1
    && forall k :: 0 <= k < |events| ==> Possible(trace[k], events[k]) && trace[k + 1] == After(trace[k], events[k])
  }

  lemma StepIn(trace: seq<Db>, events: seq<Event>, k: nat)
    requires IsRun(trace, events) && k < |events|
    ensures Possible(trace[k], events[k]) && trace[k + 1] == After(trace[k], events[k])
  {}

  lemma StepKeepsDb(db: Db, e: Event)
    requires DbOk(db) && Possible(db, e)
    ensures DbOk(After(db, e))
  {
    hide EpochSet, Sort;
    var after := After(db, e);
    forall k | 0 <= k < |after.preps| ensures PrepOk(after.preps[k], after.dossiers) {
      if k < |db.preps| {
        assert PrepOk(db.preps[k], db.dossiers);
      }
    }
  }

  /** A row keeps its key and dossier; a banter once stored is never replaced, and a complete row changes only
      by being withdrawn. */
  predicate Keeps(a: Db, b: Db) {
    && |a.preps| <= |b.preps|
    && forall k :: 0 <= k < |a.preps| ==>
         && b.preps[k].hash == a.preps[k].hash && b.preps[k].prompt == a.preps[k].prompt && b.preps[k].dossier == a.preps[k].dossier
         && (a.preps[k].banter.Some? ==> b.preps[k].banter == a.preps[k].banter)
         && (a.preps[k].status == COMPLETE ==> b.preps[k].status != DOSSIER_READY)
         && (a.preps[k].status == INVALIDATED ==> b.preps[k] == a.preps[k])
  }

  lemma StepKeepsRows(db: Db, e: Event)
    requires Possible(db, e)
    ensures Keeps(db, After(db, e))
  {}

  lemma {:induction false} RunKeepsRows(trace: seq<Db>, events: seq<Event>, i: nat, j: nat)
    requires IsRun(trace, events) && DbOk(trace[0]) && i <= j < |trace|
    ensures DbOk(trace[j]) && Keeps(trace[i], trace[j])
    decreases j
  {
    hide DbOk, After, Possible;
    if j > 0 {
      RunKeepsRows(trace, events, 0, j - 1);
      StepIn(trace, events, j - 1);
      StepKeepsDb(trace[j - 1], events[j - 1]);
      if i < j {
        RunKeepsRows(trace, events, i, j - 1);
        StepKeepsRows(trace[j - 1], events[j - 1]);
      }
    }
  }

  /** However many savers race, a key names one row from the first save on, and everyone is given that row. */
  lemma OneRowPerKey(trace: seq<Db>, events: seq<Event>, i: nat, j: nat, hash: InputHash, prompt: string)
    requires IsRun(trace, events) && DbOk(trace[0]) && i <= j < |trace|
    requires RowOf(trace[i].preps, hash, prompt).Some?
    ensures RowOf(trace[j].preps, hash, prompt) == RowOf(trace[i].preps, hash, prompt)
  {
    RunKeepsRows(trace, events, i, j);
    var k := RowOf(trace[i].preps, hash, prompt).value;
    assert SameRow(trace[j].preps[k], hash, prompt);
    var l := RowOf(trace[j].preps, hash, prompt).value;
    RowsAreUnique(trace[j], k, l, hash, prompt);
  }

  lemma RowsAreUnique(db: Db, k: nat, l: nat, hash: InputHash, prompt: string)
    requires DbOk(db) && k < |db.preps| && l < |db.preps| && SameRow(db.preps[k], hash, prompt) && SameRow(db.preps[l], hash, prompt)
    ensures k == l
  {}

  /** After a save the key has its row: the one that was there, or a new last one. */
  lemma SavedRow(db: Db, s: Snapshot, prompt: string, source: Source)
    ensures var after, was := SaveIn(db, s, prompt, source), RowOf(db.preps, HashOf(s), prompt);
            && db.preps <= after.preps && db.dossiers <= after.dossiers
            && RowOf(after.preps, HashOf(s), prompt) == Some(if was.Some? then was.value else |db.preps|)
            && |after.preps| == |db.preps| + (if was.Some? then 0 else 1)
            && (was.Some? ==> after == db)
  {
    hide HashOf, KeyOf, EpochSet;
    var after := SaveIn(db, s, prompt, source);
    if RowOf(db.preps, HashOf(s), prompt).None? {
      assert SameRow(after.preps[|db.preps|], HashOf(s), prompt);
    }
  }

  // ----- loading -----

  predicate Usable(db: Db, k: nat)
    requires k < |db.preps| && db.preps[k].dossier < |db.dossiers|
  {
    db.preps[k].status != INVALIDATED && db.dossiers[db.preps[k].dossier].live
  }

  datatype Found = Found(prep: nat, dossier: nat, banter: map<Intensity, seq<string>>)

  /** All stored candidates of an exact row; of a partial one only those stored under the right banter key. */
  function Candidates(p: Prep, exact: bool): map<Intensity, seq<string>> {
    if p.banter.None? then map[]
    else map i | i in p.banter.value && (exact || p.banter.value[i].key == BanterKey(p.dossier, i, p.prompt)) :: p.banter.value[i].candidates
  }

  /** Row `k` was saved under this prompt for the same post, intake, rules and epochs, and was not withdrawn. */
  predicate Fits(db: Db, k: nat, s: Snapshot, prompt: string) {
    && k < |db.preps| && db.preps[k].dossier < |db.dossiers|
    && var p := db.preps[k];
       && p.prompt == prompt && KeyIn(p.hash) == KeyOf(s) && EpochSet(p.hash.epochs) == EpochSet(s.epochs)
       && p.status in {DOSSIER_READY, COMPLETE} && db.dossiers[p.dossier].live
  }

  lemma FitsIsPartial(db: Db, k: nat, s: Snapshot, prompt: string)
    requires k < |db.preps| && PrepOk(db.preps[k], db.dossiers)
    ensures Fits(db, k, s, prompt) <==> Partial(db, k, s, prompt)
  {
    hide KeyIn, KeyOf, EpochSet;
  }

  /** The row of the snapshot's own key fits whenever it can be used at all, and either way of reading it gives the same. */
  lemma ExactFits(db: Db, k: nat, s: Snapshot, prompt: string)
    requires k < |db.preps| && PrepOk(db.preps[k], db.dossiers) && SameRow(db.preps[k], HashOf(s), prompt)
    ensures Fits(db, k, s, prompt) <==> Usable(db, k) && db.dossiers[db.preps[k].dossier].epochs == EpochSet(s.epochs)
    ensures Candidates(db.preps[k], true) == Candidates(db.preps[k], false)
  {
    ExactIsPartial(db.preps[k]);
    hide EpochSet, Candidates;
  }

  predicate Partial(db: Db, k: nat, s: Snapshot, prompt: string)
    requires k < |db.preps| && db.preps[k].dossier < |db.dossiers|
  {
    && Usable(db, k) && db.preps[k].prompt == prompt
    && db.dossiers[db.preps[k].dossier].key == KeyOf(s) && db.dossiers[db.preps[k].dossier].epochs == EpochSet(s.epochs)
  }

  lemma UsableStep(db: Db, e: Event, k: nat)
    requires Possible(db, e) && k < |db.preps| && db.preps[k].dossier < |db.dossiers|
    ensures var after := After(db, e);
            && k < |after.preps| && after.preps[k].dossier == db.preps[k].dossier < |after.dossiers|
            && (Usable(after, k) <==> Usable(db, k) && e != EWithdraw(db.preps[k].dossier))
  {
    hide HashOf, KeyOf, EpochSet, Entries;
  }

  /** A preparation can be used until its dossier is withdrawn, and never again after that. */
  lemma {:induction false} UsableUntilWithdrawn(trace: seq<Db>, events: seq<Event>, i: nat, j: nat, k: nat)
    requires IsRun(trace, events) && DbOk(trace[0]) && i <= j < |trace| && k < |trace[i].preps|
    ensures k < |trace[j].preps| && trace[j].preps[k].dossier == trace[i].preps[k].dossier
    ensures trace[i].preps[k].dossier < |trace[i].dossiers| && trace[j].preps[k].dossier < |trace[j].dossiers|
    ensures Usable(trace[j], k) <==> Usable(trace[i], k) && forall m :: i <= m < j ==> events[m] != EWithdraw(trace[i].preps[k].dossier)
    decreases j
  {
    hide After, Possible, Usable;
    RunKeepsRows(trace, events, 0, i);
    if i < j {
      UsableUntilWithdrawn(trace, events, i, j - 1, k);
      StepIn(trace, events, j - 1);
      UsableStep(trace[j - 1], events[j - 1], k);
    }
  }

  lemma {:induction false} DossierStaysDead(trace: seq<Db>, events: seq<Event>, i: nat, j: nat, dossier: nat)
    requires IsRun(trace, events) && i < j < |trace| && events[i] == EWithdraw(dossier)
    ensures dossier < |trace[j].dossiers| && !trace[j].dossiers[dossier].live
    decreases j
  {
    hide HashOf, KeyOf, EpochSet, Entries, RowOf;
    StepIn(trace, events, j - 1);
    if i + 1 < j {
      DossierStaysDead(trace, events, i, j - 1, dossier);
    }
  }

  /** Nothing that rests on a withdrawn dossier can be used, not even a preparation saved for it afterwards. */
  lemma WithdrawnForGood(trace: seq<Db>, events: seq<Event>, i: nat, j: nat, k: nat)
    requires IsRun(trace, events) && i < j < |trace| && events[i].EWithdraw? && k < |trace[j].preps| && trace[j].preps[k].dossier == events[i].dossier
    ensures trace[j].preps[k].dossier < |trace[j].dossiers| && !Usable(trace[j], k)
  {
    DossierStaysDead(trace, events, i, j, events[i].dossier);
  }

  /** A preparation saved with a dossier of its own can be used, until then without banter. */
  lemma FreshPrepIsUsable(db: Db, s: Snapshot, prompt: string)
    requires RowOf(db.preps, HashOf(s), prompt).None?
    ensures var after, k := After(db, ESave(s, prompt, Made)), |db.preps|;
            && k < |after.preps| && after.preps[k].dossier < |after.dossiers| && Fits(after, k, s, prompt)
            && Candidates(after.preps[k], true) == map[]
  {}

  /** What ends the waiting of a row for its banter. */
  predicate Settles(e: Event, id: nat, dossier: nat) {
    e == EWithdraw(dossier) || (e.EBanter? && e.id == id)
  }

  lemma {:induction false} WaitsForBanter(trace: seq<Db>, events: seq<Event>, i: nat, j: nat, id: nat)
    requires IsRun(trace, events) && i < j < |trace| && events[i].ESave? && |trace[i].preps| == id < |trace[i + 1].preps|
    requires forall m :: i < m < j ==> !Settles(events[m], id, trace[i + 1].preps[id].dossier)
    ensures id < |trace[j].preps| && trace[j].preps[id] == trace[i + 1].preps[id]
    ensures trace[j].preps[id].status == DOSSIER_READY && trace[j].preps[id].banter.None?
    decreases j
  {
    hide HashOf, KeyOf, EpochSet, Entries, RowOf;
    StepIn(trace, events, j - 1);
    if i + 1 < j {
      WaitsForBanter(trace, events, i, j - 1, id);
      assert !Settles(events[j - 1], id, trace[i + 1].preps[id].dossier);
    }
  }

  /** A saved row takes the first banter that is sent to it, unless its dossier was withdrawn before, and keeps it: every
      later reader is given exactly that one. */
  lemma FirstBanterStays(trace: seq<Db>, events: seq<Event>, i: nat, b: nat, j: nat, id: nat)
    requires IsRun(trace, events) && DbOk(trace[0]) && i < b < j < |trace| && events[i].ESave? && |trace[i].preps| == id < |trace[i + 1].preps|
    requires forall m :: i < m < b ==> !Settles(events[m], id, trace[i + 1].preps[id].dossier)
    requires events[b].EBanter? && events[b].id == id
    ensures id < |trace[j].preps| && Candidates(trace[j].preps[id], true) == events[b].banter
  {
    WaitsForBanter(trace, events, i, b, id);
    StepIn(trace, events, b);
    RunKeepsRows(trace, events, b + 1, j);
    hide IsRun, DbOk;
  }

  class PrepCache {
    var db: Db

    ghost predicate Valid()
      reads this
    {
      DbOk(db)
    }

    constructor ()
      ensures Valid() && db == Db([], [])
    {
      db := Db([], []);
    }

    /** Inserts the row of the snapshot's key, unless it is there; either way its id is returned. None stands
        for the error of a dossier whose epochs have moved. */
    method SavePrep(s: Snapshot, prompt: string, source: Source, epochsMoved: bool) returns (r: Option<(nat, bool)>)
      requires Valid() && FitsSnapshot(db, s, source)
      modifies this
      ensures Valid() && db == if epochsMoved then old(db) else SaveIn(old(db), s, prompt, source)
      ensures r.None? <==> epochsMoved
      ensures old(db).preps <= db.preps && old(db).dossiers <= db.dossiers && |db.preps| <= |old(db).preps| + 1
      ensures r.Some? && !r.value.1 ==> !(exists k :: 0 <= k < |old(db).preps| && SameRow(old(db).preps[k], HashOf(s), prompt))
      ensures r.Some? ==> RowOf(db.preps, HashOf(s), prompt) == Some(r.value.0) && r.value.1 == RowOf(old(db).preps, HashOf(s), prompt).Some?
    {
      hide DbOk, SaveIn, RowOf, SameRow, HashOf, KeyOf, EpochSet;
      if epochsMoved {
        return None;
      }
      StepKeepsDb(db, ESave(s, prompt, source));
      SavedRow(db, s, prompt, source);
      var existing := RowOf(db.preps, HashOf(s), prompt);
      if existing.Some? {
        return Some((existing.value, true));
      }
      db := SaveIn(db, s, prompt, source);
      r := Some((|db.preps| - 1, false));
    }

    /** Stores banter once; a row that has some, or was withdrawn, is left alone. */
    method SaveBanter(id: nat, banter: map<Intensity, seq<string>>) returns (stored: bool)
      requires Valid()
      modifies this
      ensures Valid() && db == BanterIn(old(db), id, banter) && stored == TakesBanter(old(db), id)
      ensures stored ==> Candidates(db.preps[id], true) == Candidates(db.preps[id], false) == banter
      ensures |db.preps| == |old(db).preps| && forall k :: 0 <= k < |db.preps| && !(stored && k == id) ==> db.preps[k] == old(db).preps[k]
    {
      hide DbOk;
      StepKeepsDb(db, EBanter(id, banter));
      stored := TakesBanter(db, id);
      db := BanterIn(db, id, banter);
    }

    /** The row with the snapshot's input hash when it is usable, else the newest row whose dossier was made for the same dossier
        key under the same epochs. Whatever is returned is live, fits the snapshot's epochs and dossier key, and
        a result is missed only when no usable row fits. */
    method LoadValidPrep(s: Snapshot, prompt: string) returns (r: Option<Found>)
      requires Valid()
      ensures r.Some? ==>
        var k := r.value.prep;
        k < |db.preps| && Fits(db, k, s, prompt) && r.value.dossier == db.preps[k].dossier && r.value.banter == Candidates(db.preps[k], false)
      ensures r.None? <==> forall k: nat :: k < |db.preps| ==> !Fits(db, k, s, prompt)
      ensures var exact := RowOf(db.preps, HashOf(s), prompt);
              if exact.Some? && Fits(db, exact.value, s, prompt) then r.Some? && r.value.prep == exact.value
              else r.Some? ==> forall k: nat :: r.value.prep < k < |db.preps| ==> !Fits(db, k, s, prompt)
    {
      hide Fits, Partial, Usable, RowOf, SameRow, HashOf, KeyOf, KeyIn, EpochSet, Candidates;
      var exact := RowOf(db.preps, HashOf(s), prompt);
      if exact.Some? {
        var k := exact.value;
        assert PrepOk(db.preps[k], db.dossiers);
        ExactFits(db, k, s, prompt);
        if Usable(db, k) && db.dossiers[db.preps[k].dossier].epochs == EpochSet(s.epochs) {
          return Some(Found(k, db.preps[k].dossier, Candidates(db.preps[k], true)));
        }
      }
      var n: nat := |db.preps|;
      while n > 0
        invariant n <= |db.preps|
        invariant forall k: nat :: n <= k < |db.preps| ==> !Fits(db, k, s, prompt)
      {
        n := n - 1;
        assert PrepOk(db.preps[n], db.dossiers);
        FitsIsPartial(db, n, s, prompt);
        if Partial(db, n, s, prompt) {
          return Some(Found(n, db.preps[n].dossier, Candidates(db.preps[n], false)));
        }
      }
      r := None;
    }
  }

  /** On an exact row the banter keys fit anyway, so both ways of reading it give the same candidates. */
  lemma ExactIsPartial(p: Prep)
    requires p.banter.Some? ==> forall i :: i in p.banter.value ==> p.banter.value[i].key == BanterKey(p.dossier, i, p.prompt)
    ensures Candidates(p, true) == Candidates(p, false)
  {}
}
