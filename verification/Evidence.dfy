/** Evidence labels and visibility: the pack (`build_evidence`), facts the model infers from it
    (`merge_inferred_facts`), and the rooms a fact may be shown to (`usable`, `_narrowest_scope`). */
module Evidence {
  import opened Drafts
  import Amounts = JurorAmounts
  import EvaluationReport

  // ----- visibility -----

  datatype Scope = PUBLIC | ROOMS(rooms: set<string>) | PRIVATE

  /** May a text for the target rooms use evidence of this scope? Rooms evidence never serves an empty target. */
  predicate Usable(s: Scope, target: set<string>) {
    match s
    case PUBLIC => true
    case ROOMS(rooms) => target != {} && target <= rooms
    case PRIVATE => false
  }

  function Intersection(scopes: seq<Scope>): Option<set<string>> {
    if scopes == [] then None
    else
      var rest := Intersection(scopes[1..]);
      if !scopes[0].ROOMS? then rest
      else if rest.None? then Some(scopes[0].rooms)
      else Some(scopes[0].rooms * rest.value)
  }

  /** Private if any is; else the rooms common to all room scopes; else public. */
  function NarrowestScope(scopes: seq<Scope>): Scope {
    if exists k :: 0 <= k < |scopes| && scopes[k].PRIVATE? then PRIVATE
    else
      var rooms := Intersection(scopes);
      if rooms.None? then PUBLIC else ROOMS(rooms.value)
  }

  lemma {:induction false} IntersectionMeaning(scopes: seq<Scope>, target: set<string>)
    ensures Intersection(scopes).None? <==> forall k :: 0 <= k < |scopes| ==> !scopes[k].ROOMS?
    ensures Intersection(scopes).Some? ==>
      (target <= Intersection(scopes).value <==> forall k :: 0 <= k < |scopes| && scopes[k].ROOMS? ==> target <= scopes[k].rooms)
  {
    if scopes != [] {
      IntersectionMeaning(scopes[1..], target);
      var rest := scopes[1..];
      assert forall k :: 0 <= k < |rest| ==> rest[k] == scopes[k + 1];
      assert forall k :: 0 < k < |scopes| ==> scopes[k] == rest[k - 1];
    }
  }

  /** The exact meet: usable for a target precisely when every one of the scopes is. */
  lemma NarrowestIsTheMeet(scopes: seq<Scope>, target: set<string>)
    ensures Usable(NarrowestScope(scopes), target) <==> forall k :: 0 <= k < |scopes| ==> Usable(scopes[k], target)
  {
    IntersectionMeaning(scopes, target);
    if k :| 0 <= k < |scopes| && scopes[k].ROOMS? {
      assert Usable(scopes[k], target) ==> target != {};
    }
  }

  // ----- facts and labels -----

  /** `cites` holds the positions an inferred fact was drawn from; code evidence cites nothing. */
  datatype EvidenceFact = EvidenceFact(name: string, scope: Scope, sources: seq<string>, text: string, cites: seq<nat>)

  datatype Dossier = Dossier(facts: seq<EvidenceFact>, labelMap: map<string, nat>)

  function LabelOf(n: nat): string {
    "F" + Amounts.Plain(n)
  }

  lemma LabelsDiffer(m: nat, n: nat)
    ensures LabelOf(m) == LabelOf(n) <==> m == n
  {
    assert LabelOf(m)[1..] == Amounts.Plain(m) && LabelOf(n)[1..] == Amounts.Plain(n);
  }

  /** A label of the pack is one the card contract accepts, and no letter alone is. */
  lemma LabelsFitTheContract(n: nat)
    ensures EvidenceLabel(LabelOf(n)) && !EvidenceLabel(LabelOf(n)[..1]) && !EvidenceLabel(LabelOf(n)[1..]) && !EvidenceLabel("FF")
  {
    assert LabelOf(n)[1..] == Amounts.Plain(n) && !IsDigit("FF"[1]);
  }

  /** Labels are exactly F0 to Fn-1 in order, and the label map knows those and no others, each under its own id. */
  ghost predicate Labelled(d: Dossier) {
    && (forall k :: 0 <= k < |d.facts| ==> d.facts[k].name == LabelOf(k) && LabelOf(k) in d.labelMap)
    && (forall l :: l in d.labelMap ==> exists k :: 0 <= k < |d.facts| && l == LabelOf(k))
    && (forall l, m :: l in d.labelMap && m in d.labelMap && d.labelMap[l] == d.labelMap[m] ==> l == m)
  }

  /** The ids are new: none of them is in use yet. */
  ghost predicate UnusedFrom(d: Dossier, supply: nat) {
    forall l :: l in d.labelMap ==> d.labelMap[l] < supply
  }

  lemma OneMoreFact(d: Dossier, f: EvidenceFact, supply: nat)
    requires Labelled(d) && UnusedFrom(d, supply) && f.name == LabelOf(|d.facts|)
    ensures var r := Dossier(d.facts + [f], d.labelMap[f.name := supply]); Labelled(r) && UnusedFrom(r, supply + 1)
  {
    hide LabelOf;
    var r := Dossier(d.facts + [f], d.labelMap[f.name := supply]);
    forall k | 0 <= k < |d.facts| ensures d.facts[k].name != f.name {
      LabelsDiffer(k, |d.facts|);
    }
    assert f.name !in d.labelMap;
    forall l | l in r.labelMap ensures exists k :: 0 <= k < |r.facts| && l == LabelOf(k) {
      if l != f.name {
        var k :| 0 <= k < |d.facts| && l == LabelOf(k);
        assert k < |r.facts|;
      }
    }
  }

  lemma EmptyDossier(supply: nat)
    ensures Labelled(Dossier([], map[])) && UnusedFrom(Dossier([], map[]), supply)
  {}

  datatype Draft = Draft(scope: Scope, sources: seq<string>, text: string)

  /** The pack: at most `limit` facts, cut from behind. None stands for the error of a limit below one. */
  method BuildEvidence(drafts: seq<Draft>, limit: int, supply: nat) returns (r: Option<Dossier>)
    ensures r.None? <==> limit < 1
    ensures r.Some? ==> Labelled(r.value) && |r.value.facts| == (if |drafts| < limit then |drafts| else limit)
    ensures r.Some? ==> UnusedFrom(r.value, supply + |r.value.facts|)
    ensures r.Some? ==> forall k :: 0 <= k < |r.value.facts| ==>
              r.value.facts[k] == EvidenceFact(LabelOf(k), drafts[k].scope, drafts[k].sources, drafts[k].text, [])
  {
    EmptyDossier(supply);
    hide Labelled, UnusedFrom, LabelOf;
    if limit < 1 {
      return None;
    }
    var pack := if |drafts| < limit then drafts else drafts[..limit];
    var d := Dossier([], map[]);
    for k := 0 to |pack|
      invariant Labelled(d) && UnusedFrom(d, supply + k) && |d.facts| == k
      invariant forall i :: 0 <= i < k ==> d.facts[i] == EvidenceFact(LabelOf(i), pack[i].scope, pack[i].sources, pack[i].text, [])
    {
      var f := EvidenceFact(LabelOf(k), pack[k].scope, pack[k].sources, pack[k].text, []);
      OneMoreFact(d, f, supply + k);
      d := Dossier(d.facts + [f], d.labelMap[f.name := supply + k]);
    }
    r := Some(d);
  }

  // ----- inferred facts -----

  datatype ItemKind = RULE_HIT | MITIGATION | REASON_ANALYSIS | UNKNOWN_KIND

  /** One item of the model's answer; None where the field has the wrong type. */
  datatype Item = Item(kind: ItemKind, text: Option<string>, refs: Option<seq<string>>)

  predicate OnlyBlanks(s: string) {
    forall k :: 0 <= k < |s| ==> White(s[k])
  }

  predicate Named(facts: seq<EvidenceFact>, name: string) {
    exists k :: 0 <= k < |facts| && facts[k].name == name
  }

  predicate Accepted(d: Dossier, i: Item) {
    && i.kind != UNKNOWN_KIND && i.text.Some? && !OnlyBlanks(i.text.value)
    && i.refs.Some? && i.refs.value != [] && forall k :: 0 <= k < |i.refs.value| ==> Named(d.facts, i.refs.value[k])
  }

  function PositionOf(facts: seq<EvidenceFact>, name: string): (k: nat)
    requires Named(facts, name)
    ensures k < |facts| && facts[k].name == name
  {
    if facts[0].name == name then 0
    else
      assert Named(facts[1..], name) by {
        var k :| 0 <= k < |facts| && facts[k].name == name;
        assert facts[1..][k - 1].name == name;
      }
      1 + PositionOf(facts[1..], name)
  }

  function Positions(d: Dossier, refs: seq<string>): (r: seq<nat>)
    requires forall k :: 0 <= k < |refs| ==> Named(d.facts, refs[k])
    ensures |r| == |refs| && forall k :: 0 <= k < |r| ==> r[k] == PositionOf(d.facts, refs[k])
  {
    seq(|refs|, k requires 0 <= k < |refs| => PositionOf(d.facts, refs[k]))
  }

  /** The positions an accepted item cites, each once. */
  function CitedBy(d: Dossier, refs: seq<string>): (r: seq<nat>)
    requires forall k :: 0 <= k < |refs| ==> Named(d.facts, refs[k])
    ensures InRange(d.facts, r) && (refs != [] ==> r != [])
  {
    var all := Positions(d, refs);
    var r := EvaluationReport.Dedup(all);
    assert forall k :: 0 <= k < |r| ==> r[k] in all;
    assert refs != [] ==> all[0] in r;
    r
  }

  /** An inferred fact cites exactly the facts its item names. */
  lemma CitesWhatItNames(d: Dossier, refs: seq<string>, p: nat)
    requires forall k :: 0 <= k < |refs| ==> Named(d.facts, refs[k])
    ensures p in CitedBy(d, refs) <==> exists k :: 0 <= k < |refs| && PositionOf(d.facts, refs[k]) == p
  {
    var all := Positions(d, refs);
    assert p in all <==> exists k :: 0 <= k < |all| && all[k] == p;
  }

  predicate InRange(facts: seq<EvidenceFact>, cites: seq<nat>) {
    forall k :: 0 <= k < |cites| ==> cites[k] < |facts|
  }

  function ScopesOf(facts: seq<EvidenceFact>, cites: seq<nat>): (r: seq<Scope>)
    requires InRange(facts, cites)
    ensures |r| == |cites| && forall k :: 0 <= k < |r| ==> r[k] == facts[cites[k]].scope
  {
    seq(|cites|, k requires 0 <= k < |cites| => facts[cites[k]].scope)
  }

  /** The sources behind the cited facts, each once, in the order they first come up. */
  function SourcesOf(facts: seq<EvidenceFact>, cites: seq<nat>): (r: seq<string>)
    requires InRange(facts, cites)
    ensures Distinct(r) && forall s :: s in r <==> exists k :: 0 <= k < |cites| && s in facts[cites[k]].sources
  {
    if cites == [] then []
    else
      var n := |cites| - 1;
      assert forall k :: 0 <= k < n ==> cites[..n][k] == cites[k];
      EvaluationReport.Dedup(SourcesOf(facts, cites[..n]) + facts[cites[n]].sources)
  }

  const EVIDENCE_TEXT_MAX := 500

  /** The fact an accepted item becomes under `name`: as narrow as everything it cites together. */
  function Infer(d: Dossier, i: Item, name: string): EvidenceFact
    requires Accepted(d, i)
  {
    var cites := CitedBy(d, i.refs.value);
    EvidenceFact(name, NarrowestScope(ScopesOf(d.facts, cites)), SourcesOf(d.facts, cites),
         if |i.text.value| > EVIDENCE_TEXT_MAX then i.text.value[..EVIDENCE_TEXT_MAX] else i.text.value, cites)
  }

  predicate BecomesFact(d: Dossier, i: Item) {
    Accepted(d, i) && i.kind != REASON_ANALYSIS
  }

  function Admitted(d: Dossier, items: seq<Item>): (r: seq<Item>)
    ensures forall k :: 0 <= k < |r| ==> Accepted(d, r[k])
  {
    if items == [] then []
    else Admitted(d, items[..|items| - 1]) + if BecomesFact(d, items[|items| - 1]) then [items[|items| - 1]] else []
  }

  /** A rule hit or a mitigation that says something and names at least one label and only known ones. */
  predicate Admissible(d: Dossier, i: Item) {
    && i.kind in {RULE_HIT, MITIGATION}
    && i.text.Some? && (exists k :: 0 <= k < |i.text.value| && !White(i.text.value[k]))
    && i.refs.Some? && |i.refs.value| > 0 && forall k :: 0 <= k < |i.refs.value| ==> i.refs.value[k] in d.labelMap
  }

  /** Exactly the admissible items become facts, and none is taken twice. */
  lemma {:induction false} AdmittedExactly(d: Dossier, items: seq<Item>, i: Item)
    requires Labelled(d)
    ensures multiset(Admitted(d, items))[i] == if Admissible(d, i) then multiset(items)[i] else 0
  {
    hide Labelled, Admissible, BecomesFact;
    if items != [] {
      var last := items[|items| - 1];
      AdmittedExactly(d, items[..|items| - 1], i);
      assert items == items[..|items| - 1] + [last];
      BecomesFactIff(d, last);
    }
  }

  lemma BecomesFactIff(d: Dossier, i: Item)
    requires Labelled(d)
    ensures BecomesFact(d, i) <==> Admissible(d, i)
  {
    hide Labelled, Named;
    if i.refs.Some? {
      forall k | 0 <= k < |i.refs.value| ensures Named(d.facts, i.refs.value[k]) <==> i.refs.value[k] in d.labelMap {
        NamedIsLabelled(d, i.refs.value[k]);
      }
    }
  }

  lemma NamedIsLabelled(d: Dossier, name: string)
    requires Labelled(d)
    ensures Named(d.facts, name) <==> name in d.labelMap
  {
    hide LabelOf;
  }

  /** The fact carries the item's words, cut after 500 characters, and is as visible as all it cites. */
  lemma InferredText(d: Dossier, i: Item, name: string)
    requires Accepted(d, i)
    ensures var f := Infer(d, i, name);
            && f.text <= i.text.value && (|i.text.value| <= 500 ==> f.text == i.text.value) && (|i.text.value| > 500 ==> |f.text| == 500)
            && f.name == name && f.cites != []
  {
    hide NarrowestScope, SourcesOf;
  }

  /** `facts` is the dossier's own followed by one inferred fact per admitted item, in order. */
  ghost predicate Appended(d: Dossier, admitted: seq<Item>, facts: seq<EvidenceFact>)
    requires forall k :: 0 <= k < |admitted| ==> Accepted(d, admitted[k])
  {
    && d.facts <= facts && |facts| == |d.facts| + |admitted|
    && forall k :: 0 <= k < |admitted| ==> facts[|d.facts| + k] == Infer(d, admitted[k], LabelOf(|d.facts| + k))
  }

  lemma AppendOne(d: Dossier, admitted: seq<Item>, facts: seq<EvidenceFact>, i: Item)
    requires forall k :: 0 <= k < |admitted| ==> Accepted(d, admitted[k])
    requires Appended(d, admitted, facts) && Accepted(d, i)
    ensures forall k :: 0 <= k < |admitted + [i]| ==> Accepted(d, (admitted + [i])[k])
    ensures Appended(d, admitted + [i], facts + [Infer(d, i, LabelOf(|facts|))])
  {
    hide Infer, LabelOf, Accepted;
    var all, more := admitted + [i], facts + [Infer(d, i, LabelOf(|facts|))];
    forall k | 0 <= k < |all| ensures more[|d.facts| + k] == Infer(d, all[k], LabelOf(|d.facts| + k)) {
      if k < |admitted| {
        assert facts[|d.facts| + k] == Infer(d, admitted[k], LabelOf(|d.facts| + k));
      }
    }
  }

  /** Appends the admitted items as facts and collects the texts of the reason analysis. Items are judged
      against the labels that were there before, so nothing can cite a fact of the same answer. */
  method MergeInferredFacts(d: Dossier, items: seq<Item>, supply: nat) returns (r: Dossier, analysis: seq<string>)
    requires Labelled(d) && UnusedFrom(d, supply)
    ensures Labelled(r) && Appended(d, Admitted(d, items), r.facts)
    ensures forall t :: t in analysis <==> exists k :: 0 <= k < |items| && items[k].kind == REASON_ANALYSIS && Accepted(d, items[k]) && items[k].text == Some(t)
  {
    hide Labelled, UnusedFrom, Infer, Accepted, LabelOf, Appended;
    StartOf(d);
    r, analysis := d, [];
    var next := supply;
    assert items[..0] == [];
    for n := 0 to |items|
      invariant Labelled(r) && UnusedFrom(r, next)
      invariant Appended(d, Admitted(d, items[..n]), r.facts)
      invariant forall t :: t in analysis <==> exists k :: 0 <= k < n && items[k].kind == REASON_ANALYSIS && Accepted(d, items[k]) && items[k].text == Some(t)
    {
      var item := items[n];
      assert items[..n + 1][..n] == items[..n] && items[..n + 1][n] == item;
      assert Admitted(d, items[..n + 1]) == if BecomesFact(d, item) then Admitted(d, items[..n]) + [item] else Admitted(d, items[..n]);
      if !Accepted(d, item) {
        continue;
      }
      AcceptedHasText(d, item);
      if item.kind == REASON_ANALYSIS {
        analysis := analysis + [item.text.value];
        continue;
      }
      var f := Infer(d, item, LabelOf(|r.facts|));
      LabelOfInferred(d, item, LabelOf(|r.facts|));
      OneMoreFact(r, f, next);
      AppendOne(d, Admitted(d, items[..n]), r.facts, item);
      r := Dossier(r.facts + [f], r.labelMap[f.name := next]);
      next := next + 1;
    }
    assert items[..|items|] == items;
  }

  lemma StartOf(d: Dossier)
    ensures Appended(d, [], d.facts)
  {}

  lemma AcceptedHasText(d: Dossier, i: Item)
    requires Accepted(d, i)
    ensures i.text.Some?
  {}

  lemma LabelOfInferred(d: Dossier, i: Item, name: string)
    requires Accepted(d, i)
    ensures Infer(d, i, name).name == name
  {}

  // ----- no fact reaches a room its evidence may not reach -----

  /** Cited facts come earlier, and an inferred fact is exactly as visible as everything it cites. */
  ghost predicate Grounded(facts: seq<EvidenceFact>) {
    forall k :: 0 <= k < |facts| ==> GroundedAt(facts, k)
  }

  ghost predicate GroundedAt(facts: seq<EvidenceFact>, k: nat)
    requires k < |facts|
  {
    && (forall j :: 0 <= j < |facts[k].cites| ==> facts[k].cites[j] < k)
    && (facts[k].cites != [] ==> facts[k].scope == NarrowestScope(ScopesOf(facts, facts[k].cites)))
  }

  lemma PackIsGrounded(facts: seq<EvidenceFact>)
    requires forall k :: 0 <= k < |facts| ==> facts[k].cites == []
    ensures Grounded(facts)
  {}

  /** Merging keeps it so, however many answers are merged one after the other. */
  lemma MergeKeepsGrounded(d: Dossier, items: seq<Item>, r: Dossier)
    requires Grounded(d.facts) && Appended(d, Admitted(d, items), r.facts)
    ensures Grounded(r.facts)
  {
    hide NarrowestScope, LabelOf, Accepted, SourcesOf, Admitted;
    forall k | 0 <= k < |r.facts| ensures GroundedAt(r.facts, k) {
      if k < |d.facts| {
        assert r.facts[k] == d.facts[k] && GroundedAt(d.facts, k);
        assert ScopesOf(r.facts, d.facts[k].cites) == ScopesOf(d.facts, d.facts[k].cites);
      } else {
        var i := Admitted(d, items)[k - |d.facts|];
        assert Accepted(d, i);
        assert r.facts[k] == Infer(d, i, LabelOf(k));
        assert ScopesOf(r.facts, r.facts[k].cites) == ScopesOf(d.facts, r.facts[k].cites);
      }
    }
  }

  /** A dossier that was built from drafts and then had any number of answers merged into it, one after the other. */
  ghost predicate IsHistory(dossiers: seq<Dossier>, answers: seq<seq<Item>>) {
    && |dossiers| == |answers| + 1
    && (forall k :: 0 <= k < |dossiers[0].facts| ==> dossiers[0].facts[k].cites == [])
    && forall n :: 0 <= n < |answers| ==> Appended(dossiers[n], Admitted(dossiers[n], answers[n]), dossiers[n + 1].facts)
  }

  lemma {:induction false} HistoryIsGrounded(dossiers: seq<Dossier>, answers: seq<seq<Item>>, n: nat)
    requires IsHistory(dossiers, answers) && n < |dossiers|
    ensures Grounded(dossiers[n].facts)
  {
    hide Appended, Admitted;
    if n == 0 {
      PackIsGrounded(dossiers[0].facts);
    } else {
      HistoryIsGrounded(dossiers, answers, n - 1);
      assert Appended(dossiers[n - 1], Admitted(dossiers[n - 1], answers[n - 1]), dossiers[n - 1 + 1].facts);
      hide Grounded;
      MergeKeepsGrounded(dossiers[n - 1], answers[n - 1], dossiers[n]);
    }
  }

  /** From the pack through any number of answers to the texts: a fact is given to the writers of the target rooms
      exactly when all the code evidence it rests on may be shown there. */
  lemma OnlyGroundedFactsReachTheTarget(dossiers: seq<Dossier>, answers: seq<seq<Item>>, n: nat, k: nat, target: set<string>)
    requires IsHistory(dossiers, answers) && n < |dossiers| && k < |dossiers[n].facts|
    ensures Grounded(dossiers[n].facts)
    ensures dossiers[n].facts[k] in TargetPack(dossiers[n].facts, target) <==>
            forall root :: 0 <= root < |dossiers[n].facts| && RestsOn(dossiers[n].facts, k, root) ==> Usable(dossiers[n].facts[root].scope, target)
  {
    HistoryIsGrounded(dossiers, answers, n);
    hide Grounded, IsHistory, Usable;
    NothingIsLaundered(dossiers[n].facts, k, target);
    assert dossiers[n].facts[k] in dossiers[n].facts;
  }

  /** Code evidence that fact `k` rests on, directly or through other inferred facts. */
  ghost predicate RestsOn(facts: seq<EvidenceFact>, k: nat, root: nat)
    requires Grounded(facts) && k < |facts|
    decreases k
  {
    if facts[k].cites == [] then root == k
    else
      assert GroundedAt(facts, k);
      exists j :: 0 <= j < |facts[k].cites| && RestsOn(facts, facts[k].cites[j], root)
  }

  /** An inferred fact may be used for a target exactly when all the code evidence behind it may, through any
      number of inferences. */
  lemma {:induction false} NothingIsLaundered(facts: seq<EvidenceFact>, k: nat, target: set<string>)
    requires Grounded(facts) && k < |facts|
    ensures Usable(facts[k].scope, target) <==> forall root :: 0 <= root < |facts| && RestsOn(facts, k, root) ==> Usable(facts[root].scope, target)
    decreases k
  {
    assert GroundedAt(facts, k);
    var cites := facts[k].cites;
    if cites != [] {
      NarrowestIsTheMeet(ScopesOf(facts, cites), target);
      forall j | 0 <= j < |cites|
        ensures Usable(facts[cites[j]].scope, target) <==> forall root :: 0 <= root < |facts| && RestsOn(facts, cites[j], root) ==> Usable(facts[root].scope, target)
      {
        NothingIsLaundered(facts, cites[j], target);
      }
      hide NarrowestScope, Usable;
    } else {
      assert RestsOn(facts, k, k);
    }
  }

  /** The facts a text for the target rooms may use, in order. */
  function TargetPack(facts: seq<EvidenceFact>, target: set<string>): (r: seq<EvidenceFact>)
    ensures forall f :: f in r <==> f in facts && Usable(f.scope, target)
    ensures forall f :: multiset(r)[f] == if Usable(f.scope, target) then multiset(facts)[f] else 0
  {
    if facts == [] then []
    else
      assert facts == facts[..|facts| - 1] + [facts[|facts| - 1]];
      TargetPack(facts[..|facts| - 1], target) + if Usable(facts[|facts| - 1].scope, target) then [facts[|facts| - 1]] else []
  }
}
