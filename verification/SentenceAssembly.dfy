/** `assemble`: run the text rules over a set of drafts, then accept, send back for rewriting, or
    replace the offending texts by templates and look once more. */
module SentenceAssembly {
  import opened Drafts
  import opened Budget
  import opened SentenceState
  import TextRules

  /** Why an assembly failed. The last three are exits of the source proved to be dead. */
  datatype Why = WrongSet | AllTemplate | RegenerateRejected | TemplateRejected | TemplateUnavailable
               | GlobalIssue | ContractBroken | RetryExhausted

  datatype Assembly =
    | Failed(why: Why)
    | Repair(targets: seq<Intensity>)
    | Ready(drafts: map<Intensity, Draft>, sources: map<Intensity, Source>, writerDraft: WriterDraft)

  function FailureOf(why: Why): FailCode {
    match why
    case AllTemplate => EVAL_FAILED
    case RegenerateRejected => EVAL_FAILED
    case TemplateUnavailable => EVAL_FAILED
    case _ => FailCode.SCHEMA_INVALID
  }

  const REPAIR_MIN_REMAINING := 5.0

  /** The part of the repair condition that no text has a say in. */
  predicate RepairOpen(cfg: Config, cs: Case, st: State, now: real) {
    && cs.mode == INITIAL
    && st.repairCount < cfg.maxRepair
    && Remaining(st.expires, now) >= REPAIR_MIN_REMAINING
  }

  /** `can_repair` at the instant `now`; it reads the sources recorded in the graph state. */
  predicate CanRepair(cfg: Config, cs: Case, st: State, now: real, targets: seq<Intensity>) {
    && RepairOpen(cfg, cs, st, now)
    && forall k :: 0 <= k < |targets| ==> targets[k] in st.sources && st.sources[targets[k]] == AI
  }

  /** A text is bad when the rules object to it or its cleaned form is no card. */
  predicate Bad(cfg: Config, labels: map<string, string>, d: Draft) {
    TextRules.TextIssues(cfg.lexicon, labels, d) != [] || !IsCard(TextRules.Cleaned(cfg.lexicon, labels, d))
  }

  function ByIntensity(texts: seq<Draft>, scope: seq<Intensity>): (m: map<Intensity, Draft>)
    requires |texts| == |scope| && Distinct(scope)
    ensures forall i :: i in m <==> i in scope
    ensures forall k :: 0 <= k < |scope| ==> m[scope[k]] == texts[k]
  {
    map i | i in scope :: texts[Position(scope, i)]
  }

  /** The offending intensities, rule issues first, then texts that are no cards. */
  method CollectBad(cfg: Config, labels: map<string, string>, originals: seq<Draft>, cleaned: seq<Draft>, issues: seq<TextRules.Issue>, scope: seq<Intensity>)
    returns (bad: seq<Intensity>)
    requires |originals| == |cleaned| == |scope| && Distinct(scope)
    requires forall k :: 0 <= k < |scope| ==> cleaned[k] == TextRules.Cleaned(cfg.lexicon, labels, originals[k])
    requires forall k :: 0 <= k < |scope| ==> TextRules.IssuesAt(issues, k) == TextRules.TextIssues(cfg.lexicon, labels, originals[k])
    requires forall x :: x in issues ==> x.at.Some? && x.at.value < |scope|
    ensures Distinct(bad) && forall i :: i in bad ==> i in scope
    ensures forall k :: 0 <= k < |scope| ==> (scope[k] in bad <==> Bad(cfg, labels, originals[k]))
  {
    ghost var objected := seq(|scope|, k requires 0 <= k < |scope| => exists x :: x in issues && x.at == Some(k));
    bad := ObjectedTo(issues, scope, objected);
    forall k | 0 <= k < |scope| ensures objected[k] <==> TextRules.TextIssues(cfg.lexicon, labels, originals[k]) != [] {
      TextRules.NoIssuesAt(issues, k);
    }
    var cards := seq(|scope|, k requires 0 <= k < |scope| => IsCard(cleaned[k]));
    bad := AddUncarded(bad, scope, cards, objected);
  }

  method ObjectedTo(issues: seq<TextRules.Issue>, scope: seq<Intensity>, ghost objected: seq<bool>) returns (bad: seq<Intensity>)
    requires Distinct(scope) && |objected| == |scope|
    requires forall x :: x in issues ==> x.at.Some? && x.at.value < |scope|
    requires forall k :: 0 <= k < |scope| ==> (objected[k] <==> exists x :: x in issues && x.at == Some(k))
    ensures Distinct(bad) && forall i :: i in bad ==> i in scope
    ensures forall k :: 0 <= k < |scope| ==> (scope[k] in bad <==> objected[k])
  {
    bad := [];
    for n := 0 to |issues|
      invariant Distinct(bad) && forall i :: i in bad ==> i in scope
      invariant forall k :: 0 <= k < |scope| ==> (scope[k] in bad <==> exists x :: x in issues[..n] && x.at == Some(k))
    {
      var i := scope[issues[n].at.value];
      assert issues[..n + 1] == issues[..n] + [issues[n]];
      if i !in bad {
        bad := bad + [i];
      }
    }
    assert issues[..|issues|] == issues;
  }

  method AddUncarded(found: seq<Intensity>, scope: seq<Intensity>, cards: seq<bool>, ghost objected: seq<bool>) returns (bad: seq<Intensity>)
    requires Distinct(scope) && |objected| == |cards| == |scope|
    requires Distinct(found) && forall i :: i in found ==> i in scope
    requires forall k :: 0 <= k < |scope| ==> (scope[k] in found <==> objected[k])
    ensures Distinct(bad) && forall i :: i in bad ==> i in scope
    ensures forall k :: 0 <= k < |scope| ==> (scope[k] in bad <==> objected[k] || !cards[k])
  {
    bad := found;
    for n := 0 to |scope|
      invariant Distinct(bad) && forall i :: i in bad ==> i in scope
      invariant forall k :: 0 <= k < n ==> (scope[k] in bad <==> objected[k] || !cards[k])
      invariant forall k :: n <= k < |scope| ==> (scope[k] in bad <==> objected[k])
    {
      if !cards[n] && scope[n] !in bad {
        bad := bad + [scope[n]];
      }
    }
  }

  datatype Substitution = Replaced(drafts: map<Intensity, Draft>, sources: map<Intensity, Source>) | Refused(why: Why)

  /** `ds`, `ss` are `drafts`, `sources` with the AI texts of `done` replaced by their templates. */
  predicate PartlyReplaced(cfg: Config, decision: Option<Decision>, drafts: map<Intensity, Draft>, sources: map<Intensity, Source>,
                           done: seq<Intensity>, ds: map<Intensity, Draft>, ss: map<Intensity, Source>) {
    && ds.Keys == ss.Keys == drafts.Keys == sources.Keys
    && forall i :: i in drafts ==>
      if i in done then sources[i] == AI && ss[i] == TEMPLATE && Some(ds[i]) == TemplateFor(cfg, decision, i)
      else ds[i] == drafts[i] && ss[i] == sources[i]
  }

  /** The same as functions: the listed texts replaced where a template exists. */
  function TemplatedDrafts(cfg: Config, decision: Option<Decision>, drafts: map<Intensity, Draft>, listed: seq<Intensity>): map<Intensity, Draft> {
    map i | i in drafts :: if i in listed && TemplateFor(cfg, decision, i).Some? then TemplateFor(cfg, decision, i).value else drafts[i]
  }

  function TemplatedSources(sources: map<Intensity, Source>, listed: seq<Intensity>): map<Intensity, Source> {
    map i | i in sources :: if i in listed then TEMPLATE else sources[i]
  }

  lemma ReplacedIsTemplated(cfg: Config, decision: Option<Decision>, drafts: map<Intensity, Draft>, sources: map<Intensity, Source>,
                            listed: seq<Intensity>, ds: map<Intensity, Draft>, ss: map<Intensity, Source>)
    requires PartlyReplaced(cfg, decision, drafts, sources, listed, ds, ss)
    ensures ds == TemplatedDrafts(cfg, decision, drafts, listed) && ss == TemplatedSources(sources, listed)
  {
    hide TemplateFor;
    assert forall i :: i in ss ==> i in drafts;
  }

  /** Puts templates in place of the listed texts; a text that already is a template cannot be saved. */
  method Substitute(cfg: Config, cs: Case, decision: Option<Decision>, drafts: map<Intensity, Draft>, sources: map<Intensity, Source>, listed: seq<Intensity>)
    returns (r: Substitution)
    requires ValidConfig(cfg) && DraftsAgree(cs, drafts, sources)
    requires Distinct(listed) && forall i :: i in listed ==> i in drafts
    ensures r.Replaced? ==> DraftsAgree(cs, r.drafts, r.sources) && PartlyReplaced(cfg, decision, drafts, sources, listed, r.drafts, r.sources)
    ensures r.Refused? ==> (r.why == TemplateRejected && exists i :: i in listed && i in sources && sources[i] == TEMPLATE)
                           || (r.why == TemplateUnavailable && exists i :: i in listed && TemplateFor(cfg, decision, i).None?)
  {
    NothingReplaced(cfg, cs, decision, drafts, sources);
    hide TemplateFor, ValidConfig, DraftsAgree, PartlyReplaced;
    var ds, ss := drafts, sources;
    assert listed[..0] == [];
    for n := 0 to |listed|
      invariant DraftsAgree(cs, ds, ss)
      invariant PartlyReplaced(cfg, decision, drafts, sources, listed[..n], ds, ss)
    {
      assert listed[n] !in listed[..n] && listed[n] in listed;
      assert listed[..n + 1] == listed[..n] + [listed[n]];
      r := SubstituteOne(cfg, cs, decision, drafts, sources, listed[..n], listed[n], ds, ss);
      if r.Refused? {
        return;
      }
      ds, ss := r.drafts, r.sources;
    }
    assert listed[..|listed|] == listed;
    r := Replaced(ds, ss);
  }

  /** One text: refused when it already is a template or has none. */
  method SubstituteOne(cfg: Config, cs: Case, decision: Option<Decision>, drafts: map<Intensity, Draft>, sources: map<Intensity, Source>,
                       done: seq<Intensity>, i: Intensity, ds: map<Intensity, Draft>, ss: map<Intensity, Source>) returns (r: Substitution)
    requires ValidConfig(cfg) && DraftsAgree(cs, ds, ss) && PartlyReplaced(cfg, decision, drafts, sources, done, ds, ss)
    requires i in drafts && i !in done
    ensures r.Replaced? ==> DraftsAgree(cs, r.drafts, r.sources) && PartlyReplaced(cfg, decision, drafts, sources, done + [i], r.drafts, r.sources)
    ensures r.Refused? ==> (r.why == TemplateRejected && i in sources && sources[i] == TEMPLATE)
                           || (r.why == TemplateUnavailable && TemplateFor(cfg, decision, i).None?)
  {
    hide TemplateFor, ValidConfig, DraftsAgree, PartlyReplaced;
    Untouched(cfg, decision, drafts, sources, done, ds, ss, i);
    if ss[i] == TEMPLATE {
      return Refused(TemplateRejected);
    }
    var t := TemplateFor(cfg, decision, i);
    if t.None? {
      return Refused(TemplateUnavailable);
    }
    OneMoreReplaced(cfg, cs, decision, drafts, sources, done, i, ds, ss);
    r := Replaced(ds[i := t.value], ss[i := TEMPLATE]);
  }

  lemma NothingReplaced(cfg: Config, cs: Case, decision: Option<Decision>, drafts: map<Intensity, Draft>, sources: map<Intensity, Source>)
    requires DraftsAgree(cs, drafts, sources)
    ensures PartlyReplaced(cfg, decision, drafts, sources, [], drafts, sources) && forall i :: i in drafts ==> i in sources
  {}

  lemma Untouched(cfg: Config, decision: Option<Decision>, drafts: map<Intensity, Draft>, sources: map<Intensity, Source>,
                  done: seq<Intensity>, ds: map<Intensity, Draft>, ss: map<Intensity, Source>, i: Intensity)
    requires PartlyReplaced(cfg, decision, drafts, sources, done, ds, ss) && i in drafts && i !in done
    ensures i in ds && i in ss && i in sources && ds[i] == drafts[i] && ss[i] == sources[i]
  {}

  lemma OneMoreReplaced(cfg: Config, cs: Case, decision: Option<Decision>, drafts: map<Intensity, Draft>, sources: map<Intensity, Source>,
                        done: seq<Intensity>, i: Intensity, ds: map<Intensity, Draft>, ss: map<Intensity, Source>)
    requires ValidConfig(cfg) && DraftsAgree(cs, ds, ss) && PartlyReplaced(cfg, decision, drafts, sources, done, ds, ss)
    requires i in drafts && i !in done && ss[i] == AI && TemplateFor(cfg, decision, i).Some?
    ensures var t := TemplateFor(cfg, decision, i).value;
            DraftsAgree(cs, ds[i := t], ss[i := TEMPLATE])
            && PartlyReplaced(cfg, decision, drafts, sources, done + [i], ds[i := t], ss[i := TEMPLATE])
  {
    hide IsCard, Scope;
  }

  function TemplateFor(cfg: Config, decision: Option<Decision>, i: Intensity): Option<Draft> {
    cfg.template(i, if decision.Some? then Some(decision.value.sentence) else None)
  }

  datatype Look = Settled(outcome: Assembly) | Again(drafts: map<Intensity, Draft>, sources: map<Intensity, Source>)

  /** What one substitution makes of a set of texts: bad AI texts become templates, the others stay. */
  predicate Substituted(cfg: Config, labels: map<string, string>, decision: Option<Decision>, drafts: map<Intensity, Draft>, sources: map<Intensity, Source>,
                        newDrafts: map<Intensity, Draft>, newSources: map<Intensity, Source>) {
    && drafts.Keys == sources.Keys == newDrafts.Keys == newSources.Keys
    && forall i :: i in drafts ==>
      if Bad(cfg, labels, drafts[i]) then sources[i] == AI && newSources[i] == TEMPLATE && Some(newDrafts[i]) == TemplateFor(cfg, decision, i)
      else newDrafts[i] == drafts[i] && newSources[i] == sources[i]
  }

  /** `ready` holds the cleaned form of every text, and none of them was bad. */
  predicate CleanedFrom(cfg: Config, labels: map<string, string>, drafts: map<Intensity, Draft>, ready: map<Intensity, Draft>) {
    && drafts.Keys == ready.Keys
    && forall i :: i in drafts ==> !Bad(cfg, labels, drafts[i]) && ready[i] == TextRules.Cleaned(cfg.lexicon, labels, drafts[i])
  }

  predicate ExactlyBad(cfg: Config, labels: map<string, string>, drafts: map<Intensity, Draft>, bad: seq<Intensity>) {
    Distinct(bad) && forall i :: i in bad <==> i in drafts && Bad(cfg, labels, drafts[i])
  }

  predicate SomeBad(cfg: Config, labels: map<string, string>, drafts: map<Intensity, Draft>) {
    exists i :: i in drafts && Bad(cfg, labels, drafts[i])
  }

  /** A bad text that is a template already, or that no template can replace. */
  predicate Stuck(cfg: Config, labels: map<string, string>, decision: Option<Decision>, drafts: map<Intensity, Draft>, sources: map<Intensity, Source>) {
    exists i :: i in drafts && Bad(cfg, labels, drafts[i]) && ((i in sources && sources[i] == TEMPLATE) || TemplateFor(cfg, decision, i).None?)
  }

  /** The failure names a bad template only when there is one, a missing template only when one is missing. */
  predicate StuckBecause(cfg: Config, labels: map<string, string>, decision: Option<Decision>, drafts: map<Intensity, Draft>, sources: map<Intensity, Source>, why: Why) {
    exists i :: i in drafts && Bad(cfg, labels, drafts[i])
                && ((why == TemplateRejected && i in sources && sources[i] == TEMPLATE) || (why == TemplateUnavailable && TemplateFor(cfg, decision, i).None?))
  }

  predicate MayRewriteBad(cfg: Config, cs: Case, st: State, now: real, drafts: map<Intensity, Draft>) {
    && RepairOpen(cfg, cs, st, now)
    && forall i :: i in drafts && Bad(cfg, st.labels, drafts[i]) ==> i in st.sources && st.sources[i] == AI
  }

  /** Which way one turn goes. */
  predicate LookGoes(cfg: Config, cs: Case, labels: map<string, string>, drafts: map<Intensity, Draft>, sources: map<Intensity, Source>,
                     decision: Option<Decision>, mayRewrite: bool, r: Look) {
    if !Covers(cs, sources) then r == Settled(Failed(WrongSet))
    else if !SomeBad(cfg, labels, drafts) then r.Settled? && if SomeAI(sources) then r.outcome.Ready? else r.outcome == Failed(AllTemplate)
    else if cs.mode == REGENERATE then r == Settled(Failed(RegenerateRejected))
    else if mayRewrite then r.Settled? && r.outcome.Repair?
    else if Stuck(cfg, labels, decision, drafts, sources) then
      r.Settled? && r.outcome.Failed? && StuckBecause(cfg, labels, decision, drafts, sources, r.outcome.why)
    else r.Again?
  }

  /** The draft an assembly hands on carries the corrected meme tag and the hints of the writers. */
  predicate Trimmings(cs: Case, st: State, decision: Option<Decision>, o: Assembly) {
    o.Ready? ==> o.writerDraft.memeTag == MemeTagFor(cs, decision) && o.writerDraft.hints == st.hints
  }

  /** One turn of the two-turn loop. */
  method LookOnce(cfg: Config, cs: Case, st: State, now: real, drafts: map<Intensity, Draft>, sources: map<Intensity, Source>,
                  decision: Option<Decision>, allowRepair: bool) returns (r: Look)
    requires ValidConfig(cfg) && DraftsAgree(cs, drafts, sources)
    requires Distinct(Scope(cs)) && 1 <= |Scope(cs)| <= 3
    requires cs.mode == REGENERATE ==> AllAI(sources)
    ensures LookGoes(cfg, cs, st.labels, drafts, sources, decision, allowRepair && MayRewriteBad(cfg, cs, st, now, drafts), r)
    ensures r.Settled? ==> Trimmings(cs, st, decision, r.outcome)
    ensures r.Settled? && r.outcome.Ready? ==>
      Assembled(cs, r.outcome.writerDraft, r.outcome.drafts, r.outcome.sources) && r.outcome.sources == sources
      && CleanedFrom(cfg, st.labels, drafts, r.outcome.drafts)
    ensures r.Settled? && r.outcome.Repair? ==> r.outcome.targets != [] && ExactlyBad(cfg, st.labels, drafts, r.outcome.targets)
    ensures r.Again? ==> DraftsAgree(cs, r.drafts, r.sources) && Substituted(cfg, st.labels, decision, drafts, sources, r.drafts, r.sources)
  {
    hide Bad, Assembled, ExactlyBad, Substituted, CleanedFrom, SomeBad, IsCard, CanRepair, MayRewriteBad, DraftsAgree, ValidConfig, Scope, Stuck, StuckBecause, SomeAI, MemeTagFor;
    if !Covers(cs, sources) {
      return Settled(Failed(WrongSet));
    }
    var texts, bad, global := Inspect(cfg, cs, st.labels, drafts, sources);
    if global {
      return Settled(Failed(GlobalIssue));
    }
    BadListed(cfg, cs, st, now, drafts, bad);
    if bad == [] {
      GoodTextsAreCards(cfg, cs, st.labels, drafts, sources, texts);
      var o := Accept(cs, st.hints, sources, decision, texts);
      if o.Ready? {
        ReadyIsAssembled(cfg, cs, st.labels, drafts, sources, texts, o);
      }
      return Settled(o);
    }
    if cs.mode == REGENERATE {
      return Settled(Failed(RegenerateRejected));
    }
    if allowRepair && CanRepair(cfg, cs, st, now, bad) {
      return Settled(Repair(bad));
    }
    r := Retry(cfg, cs, st, decision, drafts, sources, bad);
  }

  lemma BadListed(cfg: Config, cs: Case, st: State, now: real, drafts: map<Intensity, Draft>, bad: seq<Intensity>)
    requires ExactlyBad(cfg, st.labels, drafts, bad)
    ensures bad != [] <==> SomeBad(cfg, st.labels, drafts)
    ensures CanRepair(cfg, cs, st, now, bad) <==> MayRewriteBad(cfg, cs, st, now, drafts)
  {
    hide Bad, RepairOpen;
    if bad != [] {
      assert bad[0] in bad;
    }
    assert forall k :: 0 <= k < |bad| ==> bad[k] in bad;
  }

  /** The cleaned texts in the order of the scope. */
  predicate CleanedInOrder(cfg: Config, cs: Case, labels: map<string, string>, drafts: map<Intensity, Draft>, texts: seq<Draft>) {
    && |texts| == |Scope(cs)|
    && forall k :: 0 <= k < |texts| ==> Scope(cs)[k] in drafts && texts[k] == TextRules.Cleaned(cfg.lexicon, labels, drafts[Scope(cs)[k]])
  }

  lemma GoodTextsAreCards(cfg: Config, cs: Case, labels: map<string, string>, drafts: map<Intensity, Draft>, sources: map<Intensity, Source>, texts: seq<Draft>)
    requires DraftsAgree(cs, drafts, sources) && Covers(cs, sources) && ExactlyBad(cfg, labels, drafts, [])
    requires CleanedInOrder(cfg, cs, labels, drafts, texts)
    ensures forall k :: 0 <= k < |texts| ==> texts[k].intensity == Scope(cs)[k] && IsCard(texts[k])
  {
    hide IsCard, TextRules.TextIssues, TextRules.WithoutIds;
    forall k | 0 <= k < |texts| ensures texts[k].intensity == Scope(cs)[k] && IsCard(texts[k]) {
      assert Scope(cs)[k] in drafts && !Bad(cfg, labels, drafts[Scope(cs)[k]]);
    }
  }

  method Retry(cfg: Config, cs: Case, st: State, decision: Option<Decision>, drafts: map<Intensity, Draft>, sources: map<Intensity, Source>, bad: seq<Intensity>)
    returns (r: Look)
    requires ValidConfig(cfg) && DraftsAgree(cs, drafts, sources)
    requires ExactlyBad(cfg, st.labels, drafts, bad)
    ensures if Stuck(cfg, st.labels, decision, drafts, sources) then
              r.Settled? && r.outcome.Failed? && StuckBecause(cfg, st.labels, decision, drafts, sources, r.outcome.why)
            else r.Again? && DraftsAgree(cs, r.drafts, r.sources) && Substituted(cfg, st.labels, decision, drafts, sources, r.drafts, r.sources)
  {
    hide Bad, IsCard, TemplateFor, ValidConfig, Scope;
    var s := Substitute(cfg, cs, decision, drafts, sources, bad);
    match s
    case Refused(why) => r := Settled(Failed(why));
    case Replaced(ds, ss) => r := Again(ds, ss);
  }

  /** Rules and card check over a full set of texts: the offending intensities, and never a global issue. */
  method Inspect(cfg: Config, cs: Case, labels: map<string, string>, drafts: map<Intensity, Draft>, sources: map<Intensity, Source>)
    returns (texts: seq<Draft>, bad: seq<Intensity>, global: bool)
    requires DraftsAgree(cs, drafts, sources) && Covers(cs, sources) && Distinct(Scope(cs))
    ensures !global && ExactlyBad(cfg, labels, drafts, bad)
    ensures CleanedInOrder(cfg, cs, labels, drafts, texts)
  {
    hide Bad, IsCard, TextRules.Cleaned, Scope, DraftsAgree, Covers, ExactlyBad, CleanedInOrder;
    ScopeInDrafts(cs, drafts, sources);
    var originals := InOrder(drafts, Scope(cs));
    texts, bad, global := InspectInOrder(cfg, labels, originals, Scope(cs));
    BadByIntensity(cfg, labels, drafts, Scope(cs), originals, bad);
    CleanedByPosition(cfg, cs, labels, drafts, originals, texts);
  }

  lemma ScopeInDrafts(cs: Case, drafts: map<Intensity, Draft>, sources: map<Intensity, Source>)
    requires DraftsAgree(cs, drafts, sources) && Covers(cs, sources)
    ensures drafts.Keys == sources.Keys && forall i :: i in drafts <==> i in Scope(cs)
    ensures forall i :: i in drafts ==> drafts[i].intensity == i
  {
    hide Scope;
    assert drafts.Keys == sources.Keys;
  }

  lemma CleanedByPosition(cfg: Config, cs: Case, labels: map<string, string>, drafts: map<Intensity, Draft>, originals: seq<Draft>, texts: seq<Draft>)
    requires (forall i :: i in Scope(cs) ==> i in drafts) && originals == InOrder(drafts, Scope(cs))
    requires |texts| == |originals| && forall k :: 0 <= k < |texts| ==> texts[k] == TextRules.Cleaned(cfg.lexicon, labels, originals[k])
    ensures CleanedInOrder(cfg, cs, labels, drafts, texts)
  {
    hide Scope, TextRules.Cleaned;
  }

  lemma BadByIntensity(cfg: Config, labels: map<string, string>, drafts: map<Intensity, Draft>, scope: seq<Intensity>, originals: seq<Draft>, bad: seq<Intensity>)
    requires (forall i :: i in drafts <==> i in scope) && originals == InOrder(drafts, scope)
    requires Distinct(bad) && forall i :: i in bad ==> i in scope
    requires forall k :: 0 <= k < |scope| ==> (scope[k] in bad <==> Bad(cfg, labels, originals[k]))
    ensures ExactlyBad(cfg, labels, drafts, bad)
  {
    hide Bad;
    forall i | i in drafts ensures i in bad <==> Bad(cfg, labels, drafts[i]) {
      assert scope[Position(scope, i)] == i;
    }
  }

  method InspectInOrder(cfg: Config, labels: map<string, string>, originals: seq<Draft>, scope: seq<Intensity>)
    returns (cleaned: seq<Draft>, bad: seq<Intensity>, global: bool)
    requires Distinct(scope) && |originals| == |scope| && forall k :: 0 <= k < |scope| ==> originals[k].intensity == scope[k]
    ensures !global && |cleaned| == |scope|
    ensures forall k :: 0 <= k < |scope| ==> cleaned[k] == TextRules.Cleaned(cfg.lexicon, labels, originals[k])
    ensures Distinct(bad) && forall i :: i in bad ==> i in scope
    ensures forall k :: 0 <= k < |scope| ==> (scope[k] in bad <==> Bad(cfg, labels, originals[k]))
  {
    var issues;
    cleaned, issues := TextRules.ApplyTextRules(cfg.lexicon, labels, originals, scope);
    assert Intensities(originals) == scope;
    global := exists k :: 0 <= k < |issues| && issues[k].at.None?;
    assert forall x :: x in issues ==> x.at.Some?;
    assert forall k :: 0 <= k < |scope| ==> !TextRules.Repeats(originals, k);
    bad := CollectBad(cfg, labels, originals, cleaned, issues, scope);
  }

  /** All texts are clean: build the draft unless nothing but templates is left. */
  method Accept(cs: Case, hints: Option<string>, sources: map<Intensity, Source>, decision: Option<Decision>, texts: seq<Draft>)
    returns (o: Assembly)
    requires Covers(cs, sources) && Distinct(Scope(cs)) && 1 <= |Scope(cs)| <= 3
    requires |texts| == |Scope(cs)| && forall k :: 0 <= k < |texts| ==> texts[k].intensity == Scope(cs)[k] && IsCard(texts[k])
    ensures if SomeAI(sources) then o == Ready(ByIntensity(texts, Scope(cs)), sources, WriterDraft(texts, MemeTagFor(cs, decision), hints))
            else o == Failed(AllTemplate)
  {
    hide IsCard, TextRules.CorrectMemeTag;
    var scope := Scope(cs);
    assert Intensities(texts) == scope;
    CardsMeetTheContract(texts);
    if !IsWriterDraft(texts) {
      return Failed(ContractBroken);
    }
    assert SomeAI(sources) <==> exists k :: 0 <= k < |scope| && sources[scope[k]] == AI by {
      if i :| i in sources && sources[i] == AI {
        assert scope[Position(scope, i)] == i;
      }
    }
    if forall k :: 0 <= k < |scope| ==> sources[scope[k]] == TEMPLATE {
      return Failed(AllTemplate);
    }
    o := Ready(ByIntensity(texts, scope), sources, WriterDraft(texts, MemeTagFor(cs, decision), hints));
  }

  function MemeTagFor(cs: Case, decision: Option<Decision>): TextRules.MemeTag {
    TextRules.CorrectMemeTag(cs.result, cs.allowed, if decision.Some? then Some(decision.value.sentence) else None)
  }

  /** The heavy tag goes with a guilty verdict whose sentence has the highest rank of all that are allowed. */
  lemma TagTellsTheVerdict(cs: Case, decision: Option<Decision>)
    ensures MemeTagFor(cs, decision) == TextRules.GUILTY_HEAVY <==>
            cs.result.Guilty? && decision.Some? && exists k :: TextRules.FirstWith(cs.allowed, Some(decision.value.sentence), k)
                                                                && forall j :: 0 <= j < |cs.allowed| ==> cs.allowed[j].rank <= cs.allowed[k].rank
  {
    TextRules.HeavyMeansTopRank(cs.result, cs.allowed, if decision.Some? then Some(decision.value.sentence) else None);
    hide TextRules.CorrectMemeTag;
  }

  lemma ReadyIsAssembled(cfg: Config, cs: Case, labels: map<string, string>, drafts: map<Intensity, Draft>, sources: map<Intensity, Source>,
                         texts: seq<Draft>, o: Assembly)
    requires DraftsAgree(cs, drafts, sources) && Covers(cs, sources) && Distinct(Scope(cs))
    requires cs.mode == REGENERATE ==> AllAI(sources)
    requires ExactlyBad(cfg, labels, drafts, []) && SomeAI(sources)
    requires CleanedInOrder(cfg, cs, labels, drafts, texts)
    requires o.Ready? && o.drafts == ByIntensity(texts, Scope(cs)) && o.sources == sources && o.writerDraft.texts == texts
    ensures Assembled(cs, o.writerDraft, o.drafts, o.sources) && CleanedFrom(cfg, labels, drafts, o.drafts)
  {
    hide Scope, Bad, TextRules.Cleaned, Assembled, CleanedFrom, ExactlyBad, DraftsAgree, SomeAI, AllAI;
    CleanedAt(cfg, cs, labels, drafts, sources, texts, o.drafts);
    GoodTextsAreCards(cfg, cs, labels, drafts, sources, texts);
    AssembledFromParts(cs, texts, o, sources);
  }

  /** By intensity, every text is the cleaned original of a good one. */
  lemma CleanedAt(cfg: Config, cs: Case, labels: map<string, string>, drafts: map<Intensity, Draft>, sources: map<Intensity, Source>,
                  texts: seq<Draft>, ready: map<Intensity, Draft>)
    requires DraftsAgree(cs, drafts, sources) && Covers(cs, sources) && Distinct(Scope(cs)) && ExactlyBad(cfg, labels, drafts, [])
    requires CleanedInOrder(cfg, cs, labels, drafts, texts)
    requires ready == ByIntensity(texts, Scope(cs))
    ensures CleanedFrom(cfg, labels, drafts, ready)
    ensures forall k :: 0 <= k < |texts| ==> Scope(cs)[k] in sources && texts[k].source == sources[Scope(cs)[k]]
  {
    hide Scope, Bad, TextRules.Cleaned, DraftsAgree, Covers, ExactlyBad;
    ScopeInDrafts(cs, drafts, sources);
    NoneBad(cfg, labels, drafts);
    ReadyAt(cfg, labels, drafts, Scope(cs), texts, ready);
    forall k | 0 <= k < |texts| ensures Scope(cs)[k] in sources && texts[k].source == sources[Scope(cs)[k]] {
      SourceAt(cfg, cs, labels, drafts, sources, Scope(cs)[k]);
    }
  }

  lemma NoneBad(cfg: Config, labels: map<string, string>, drafts: map<Intensity, Draft>)
    requires ExactlyBad(cfg, labels, drafts, [])
    ensures forall i :: i in drafts ==> !Bad(cfg, labels, drafts[i])
  {
    hide Bad;
  }

  lemma ReadyAt(cfg: Config, labels: map<string, string>, drafts: map<Intensity, Draft>, scope: seq<Intensity>, texts: seq<Draft>, ready: map<Intensity, Draft>)
    requires Distinct(scope) && |texts| == |scope| && ready == ByIntensity(texts, scope) && forall i :: i in drafts <==> i in scope
    requires forall k :: 0 <= k < |scope| ==> scope[k] in drafts && texts[k] == TextRules.Cleaned(cfg.lexicon, labels, drafts[scope[k]])
    ensures drafts.Keys == ready.Keys && forall i :: i in drafts ==> ready[i] == TextRules.Cleaned(cfg.lexicon, labels, drafts[i])
  {
    hide TextRules.Cleaned;
    forall i | i in drafts ensures i in ready && ready[i] == TextRules.Cleaned(cfg.lexicon, labels, drafts[i]) {
      assert scope[Position(scope, i)] == i;
    }
  }

  lemma SourceAt(cfg: Config, cs: Case, labels: map<string, string>, drafts: map<Intensity, Draft>, sources: map<Intensity, Source>, i: Intensity)
    requires DraftsAgree(cs, drafts, sources) && i in drafts
    ensures i in sources && TextRules.Cleaned(cfg.lexicon, labels, drafts[i]).source == sources[i]
  {
    hide Scope, TextRules.WithoutIds;
    assert i in sources;
  }

  lemma AssembledFromParts(cs: Case, texts: seq<Draft>, o: Assembly, sources: map<Intensity, Source>)
    requires Distinct(Scope(cs)) && Covers(cs, sources) && SomeAI(sources) && (cs.mode == REGENERATE ==> AllAI(sources))
    requires |texts| == |Scope(cs)| && o.Ready? && o.drafts == ByIntensity(texts, Scope(cs)) && o.sources == sources && o.writerDraft.texts == texts
    requires forall k :: 0 <= k < |texts| ==> texts[k].intensity == Scope(cs)[k] && IsCard(texts[k]) && texts[k].source == sources[Scope(cs)[k]]
    ensures Assembled(cs, o.writerDraft, o.drafts, o.sources)
  {
    hide Scope, IsCard;
    forall i | i in o.drafts ensures o.drafts[i].intensity == i && o.drafts[i].source == sources[i] && IsCard(o.drafts[i]) {
      assert Scope(cs)[Position(Scope(cs), i)] == i;
    }
    assert o.drafts.Keys == sources.Keys;
    assert texts == InOrder(o.drafts, Scope(cs));
  }

  /** What the whole assembly comes to. Nothing decides it but the texts, their templates and whether the bad ones
      may be rewritten at the instant of the first turn; the exits for a global issue, a broken contract and an exhausted retry do not occur. */
  predicate AssemblyGoes(cfg: Config, cs: Case, labels: map<string, string>, drafts: map<Intensity, Draft>, sources: map<Intensity, Source>,
                         decision: Option<Decision>, mayRewrite: bool, r: Assembly) {
    if !Covers(cs, sources) then r == Failed(WrongSet)
    else if !SomeBad(cfg, labels, drafts) then if SomeAI(sources) then r.Ready? else r == Failed(AllTemplate)
    else if cs.mode == REGENERATE then r == Failed(RegenerateRejected)
    else if mayRewrite then r.Repair?
    else if Stuck(cfg, labels, decision, drafts, sources) then r.Failed? && StuckBecause(cfg, labels, decision, drafts, sources, r.why)
    else if BadTemplate(cfg, labels, decision, drafts) then r == Failed(TemplateRejected)
    else if GoodAI(cfg, labels, drafts, sources) then r.Ready?
    else r == Failed(AllTemplate)
  }

  /** The template that would replace some bad text is bad itself. */
  predicate BadTemplate(cfg: Config, labels: map<string, string>, decision: Option<Decision>, drafts: map<Intensity, Draft>) {
    exists i :: i in drafts && Bad(cfg, labels, drafts[i]) && TemplateFor(cfg, decision, i).Some? && Bad(cfg, labels, TemplateFor(cfg, decision, i).value)
  }

  predicate GoodAI(cfg: Config, labels: map<string, string>, drafts: map<Intensity, Draft>, sources: map<Intensity, Source>) {
    exists i :: i in drafts && i in sources && sources[i] == AI && !Bad(cfg, labels, drafts[i])
  }

  /** The two turns. Whatever the texts, the templates and the clock, the loop never runs out: after one
      round of substitution the set is either accepted or refused. */
  method Assemble(cfg: Config, cs: Case, clock: nat -> real, st: State, drafts: map<Intensity, Draft>, sources: map<Intensity, Source>,
                  decision: Option<Decision>, allowRepair: bool) returns (r: Assembly, tick: nat)
    requires ValidConfig(cfg) && Monotone(clock) && DraftsAgree(cs, drafts, sources)
    requires Distinct(Scope(cs)) && 1 <= |Scope(cs)| <= 3
    requires cs.mode == REGENERATE ==> AllAI(sources)
    requires allowRepair ==> sources == st.sources
    ensures st.tick < tick <= st.tick + 2
    ensures AssemblyGoes(cfg, cs, st.labels, drafts, sources, decision, allowRepair && MayRewriteBad(cfg, cs, st, clock(st.tick), drafts), r)
    ensures r.Repair? ==> r.targets != [] && ExactlyBad(cfg, st.labels, drafts, r.targets)
    ensures r.Ready? ==> Assembled(cs, r.writerDraft, r.drafts, r.sources) && AcceptedFrom(cfg, cs, st.labels, decision, drafts, sources, r)
    ensures Trimmings(cs, st, decision, r)
  {
    hide Bad, Assembled, Substituted, CleanedFrom, SomeBad, ExactlyBad, AcceptedFrom, MayRewriteBad, ValidConfig, Scope, DraftsAgree, Covers, SomeAI,
         LookGoes, AssemblyGoes, Stuck, StuckBecause, AllAI, Trimmings, InTurn;
    tick := st.tick;
    ghost var mayRewrite := allowRepair && MayRewriteBad(cfg, cs, st, clock(st.tick), drafts);
    var ds, ss := drafts, sources;
    FirstTurn(cfg, cs, st.labels, drafts, sources, decision, mayRewrite);
    for turn := 0 to 2
      invariant tick == st.tick + turn && turn < 2
      invariant DraftsAgree(cs, ds, ss) && (cs.mode == REGENERATE ==> AllAI(ss))
      invariant InTurn(cfg, cs, st.labels, drafts, sources, decision, mayRewrite, turn, ds, ss)
    {
      var look := LookOnce(cfg, cs, st, clock(tick), ds, ss, decision, allowRepair);
      TimeRuns(clock, st.tick, tick);
      AfterLook(cfg, cs, st, clock(st.tick), clock(tick), drafts, sources, decision, allowRepair, turn, ds, ss, look);
      tick := tick + 1;
      match look
      case Settled(o) => return o, tick;
      case Again(nds, nss) => ds, ss := nds, nss;
    }
    assert false;
    r := Failed(RetryExhausted);
  }

  /** The state in front of the second turn. */
  predicate Retried(cfg: Config, cs: Case, labels: map<string, string>, drafts: map<Intensity, Draft>, sources: map<Intensity, Source>,
                    decision: Option<Decision>, mayRewrite: bool, ds: map<Intensity, Draft>, ss: map<Intensity, Source>) {
    && Covers(cs, sources) && SomeBad(cfg, labels, drafts) && cs.mode == INITIAL
    && !mayRewrite && !Stuck(cfg, labels, decision, drafts, sources)
    && Substituted(cfg, labels, decision, drafts, sources, ds, ss)
  }

  /** The state in front of a turn. */
  predicate InTurn(cfg: Config, cs: Case, labels: map<string, string>, drafts: map<Intensity, Draft>, sources: map<Intensity, Source>,
                   decision: Option<Decision>, mayRewrite: bool, turn: nat, ds: map<Intensity, Draft>, ss: map<Intensity, Source>) {
    if turn == 0 then drafts.Keys == sources.Keys && ds == drafts && ss == sources
    else Retried(cfg, cs, labels, drafts, sources, decision, mayRewrite, ds, ss)
  }

  lemma FirstTurn(cfg: Config, cs: Case, labels: map<string, string>, drafts: map<Intensity, Draft>, sources: map<Intensity, Source>,
                  decision: Option<Decision>, mayRewrite: bool)
    requires DraftsAgree(cs, drafts, sources)
    ensures InTurn(cfg, cs, labels, drafts, sources, decision, mayRewrite, 0, drafts, sources)
  {}

  lemma TimeRuns(clock: nat -> real, early: nat, late: nat)
    requires Monotone(clock) && early <= late
    ensures clock(early) <= clock(late)
  {}

  /** Either turn decides what it leads to; only the first can lead to another. */
  lemma AfterLook(cfg: Config, cs: Case, st: State, now: real, later: real, drafts: map<Intensity, Draft>, sources: map<Intensity, Source>,
                  decision: Option<Decision>, allowRepair: bool, turn: nat, ds: map<Intensity, Draft>, ss: map<Intensity, Source>, look: Look)
    requires turn < 2 && now <= later && (turn == 0 ==> later == now) && (allowRepair ==> sources == st.sources)
    requires InTurn(cfg, cs, st.labels, drafts, sources, decision, allowRepair && MayRewriteBad(cfg, cs, st, now, drafts), turn, ds, ss)
    requires LookGoes(cfg, cs, st.labels, ds, ss, decision, allowRepair && MayRewriteBad(cfg, cs, st, later, ds), look)
    requires look.Settled? && look.outcome.Ready? ==> look.outcome.sources == ss && CleanedFrom(cfg, st.labels, ds, look.outcome.drafts)
    requires look.Again? ==> Substituted(cfg, st.labels, decision, ds, ss, look.drafts, look.sources)
    ensures look.Settled? ==> AssemblyGoes(cfg, cs, st.labels, drafts, sources, decision, allowRepair && MayRewriteBad(cfg, cs, st, now, drafts), look.outcome)
    ensures look.Settled? && look.outcome.Ready? ==> AcceptedFrom(cfg, cs, st.labels, decision, drafts, sources, look.outcome)
    ensures look.Settled? && look.outcome.Repair? ==> ds == drafts
    ensures look.Again? ==> turn == 0 && cs.mode == INITIAL
    ensures look.Again? ==>
              InTurn(cfg, cs, st.labels, drafts, sources, decision, allowRepair && MayRewriteBad(cfg, cs, st, now, drafts), 1, look.drafts, look.sources)
  {
    hide LookGoes, AssemblyGoes, AcceptedFrom, Substituted, CleanedFrom, MayRewriteBad, Covers, SomeBad, Stuck;
    if turn == 0 {
      FirstLook(cfg, cs, st.labels, drafts, sources, decision, allowRepair && MayRewriteBad(cfg, cs, st, now, drafts), look);
    } else {
      SecondLook(cfg, cs, st, now, later, drafts, sources, decision, allowRepair, ds, ss, look);
    }
  }

  lemma FirstLook(cfg: Config, cs: Case, labels: map<string, string>, drafts: map<Intensity, Draft>, sources: map<Intensity, Source>,
                  decision: Option<Decision>, mayRewrite: bool, look: Look)
    requires drafts.Keys == sources.Keys && LookGoes(cfg, cs, labels, drafts, sources, decision, mayRewrite, look)
    requires look.Settled? && look.outcome.Ready? ==> look.outcome.sources == sources && CleanedFrom(cfg, labels, drafts, look.outcome.drafts)
    requires look.Again? ==> Substituted(cfg, labels, decision, drafts, sources, look.drafts, look.sources)
    ensures look.Settled? ==> AssemblyGoes(cfg, cs, labels, drafts, sources, decision, mayRewrite, look.outcome)
    ensures look.Settled? && look.outcome.Ready? ==> AcceptedFrom(cfg, cs, labels, decision, drafts, sources, look.outcome)
    ensures look.Again? ==> cs.mode == INITIAL && Retried(cfg, cs, labels, drafts, sources, decision, mayRewrite, look.drafts, look.sources)
  {
    hide Bad, TextRules.Cleaned, Covers, SomeBad, SomeAI, Stuck, StuckBecause, Substituted, TemplateFor;
  }

  /** A second substitution is impossible, a rewrite can only be asked for in the first turn because time only
      runs forward, and whatever is accepted comes from the texts the assembly was called with. */
  lemma SecondLook(cfg: Config, cs: Case, st: State, now: real, later: real, drafts: map<Intensity, Draft>, sources: map<Intensity, Source>,
                   decision: Option<Decision>, allowRepair: bool, ds: map<Intensity, Draft>, ss: map<Intensity, Source>, look: Look)
    requires Retried(cfg, cs, st.labels, drafts, sources, decision, allowRepair && MayRewriteBad(cfg, cs, st, now, drafts), ds, ss) && now <= later
    requires allowRepair ==> sources == st.sources
    requires LookGoes(cfg, cs, st.labels, ds, ss, decision, allowRepair && MayRewriteBad(cfg, cs, st, later, ds), look)
    requires look.Settled? && look.outcome.Ready? ==> look.outcome.sources == ss && CleanedFrom(cfg, st.labels, ds, look.outcome.drafts)
    ensures look.Settled? && !look.outcome.Repair?
    ensures AssemblyGoes(cfg, cs, st.labels, drafts, sources, decision, false, look.outcome)
    ensures look.outcome.Ready? ==> AcceptedFrom(cfg, cs, st.labels, decision, drafts, sources, look.outcome)
  {
    hide Bad, TextRules.Cleaned, Covers, SomeBad, SomeAI, MayRewriteBad, Stuck, StuckBecause, Substituted, TemplateFor, BadTemplate, GoodAI, CleanedFrom, AcceptedFrom;
    if allowRepair {
      NoSecondRewrite(cfg, cs, st, now, later, drafts, sources, decision, ds, ss);
    }
    SecondSet(cfg, cs, st.labels, decision, drafts, sources, ds, ss);
    if look.outcome.Ready? {
      AcceptedSecond(cfg, cs, st.labels, decision, drafts, sources, ds, look.outcome);
    }
  }

  lemma NoSecondRewrite(cfg: Config, cs: Case, st: State, now: real, later: real, drafts: map<Intensity, Draft>, sources: map<Intensity, Source>,
                        decision: Option<Decision>, ds: map<Intensity, Draft>, ss: map<Intensity, Source>)
    requires Substituted(cfg, st.labels, decision, drafts, sources, ds, ss) && now <= later && sources == st.sources
    ensures MayRewriteBad(cfg, cs, st, later, ds) ==> MayRewriteBad(cfg, cs, st, now, drafts)
  {
    hide Bad, TemplateFor;
  }

  /** After a substitution only templates can be bad, and an AI text is left exactly when one was good. */
  lemma SecondSet(cfg: Config, cs: Case, labels: map<string, string>, decision: Option<Decision>, drafts: map<Intensity, Draft>, sources: map<Intensity, Source>,
                  ds: map<Intensity, Draft>, ss: map<Intensity, Source>)
    requires Substituted(cfg, labels, decision, drafts, sources, ds, ss)
    ensures Covers(cs, ss) <==> Covers(cs, sources)
    ensures SomeAI(ss) <==> GoodAI(cfg, labels, drafts, sources)
    ensures SomeBad(cfg, labels, ds) <==> BadTemplate(cfg, labels, decision, drafts)
    ensures SomeBad(cfg, labels, ds) ==> Stuck(cfg, labels, decision, ds, ss)
    ensures forall why :: StuckBecause(cfg, labels, decision, ds, ss, why) ==> why == TemplateRejected
  {
    hide Bad, TemplateFor;
    assert forall i :: i in ds && Bad(cfg, labels, ds[i]) ==> Bad(cfg, labels, drafts[i]) && ss[i] == TEMPLATE && Some(ds[i]) == TemplateFor(cfg, decision, i);
    assert forall i :: i in drafts && Bad(cfg, labels, drafts[i]) ==> Some(ds[i]) == TemplateFor(cfg, decision, i);
    assert forall i :: i in ss <==> i in sources;
  }

  lemma AcceptedSecond(cfg: Config, cs: Case, labels: map<string, string>, decision: Option<Decision>, drafts: map<Intensity, Draft>, sources: map<Intensity, Source>,
                       ds: map<Intensity, Draft>, r: Assembly)
    requires r.Ready? && cs.mode == INITIAL && Substituted(cfg, labels, decision, drafts, sources, ds, r.sources) && CleanedFrom(cfg, labels, ds, r.drafts)
    ensures AcceptedFrom(cfg, cs, labels, decision, drafts, sources, r)
  {
    hide Bad, TextRules.Cleaned, TemplateFor;
  }

  /** Where the texts of an accepted set come from: a good text is its cleaned form with its source,
      a bad one was an AI text and is now the cleaned template. */
  predicate AcceptedFrom(cfg: Config, cs: Case, labels: map<string, string>, decision: Option<Decision>, drafts: map<Intensity, Draft>, sources: map<Intensity, Source>, r: Assembly)
    requires r.Ready?
  {
    && drafts.Keys == sources.Keys == r.drafts.Keys == r.sources.Keys
    && forall i :: i in drafts ==>
        if Bad(cfg, labels, drafts[i]) then
          && cs.mode == INITIAL && sources[i] == AI && r.sources[i] == TEMPLATE
          && TemplateFor(cfg, decision, i).Some? && r.drafts[i] == TextRules.Cleaned(cfg.lexicon, labels, TemplateFor(cfg, decision, i).value)
        else r.sources[i] == sources[i] && r.drafts[i] == TextRules.Cleaned(cfg.lexicon, labels, drafts[i])
  }

  /** A text that came through with its source is its own cleaned form, the rules have nothing against it and it is a card;
      one that was replaced was an AI text in a first run, and what stands there now is a template without reproach. */
  lemma AcceptedObeysTheRules(cfg: Config, cs: Case, wd: WriterDraft, labels: map<string, string>, decision: Option<Decision>,
                              drafts: map<Intensity, Draft>, sources: map<Intensity, Source>, r: Assembly, i: Intensity)
    requires r.Ready? && AcceptedFrom(cfg, cs, labels, decision, drafts, sources, r) && Assembled(cs, wd, r.drafts, r.sources) && i in drafts
    ensures i in r.drafts && i in r.sources && i in sources && IsCard(r.drafts[i]) && r.drafts[i].source == r.sources[i]
    ensures r.sources[i] == sources[i] <==> TextRules.TextIssues(cfg.lexicon, labels, drafts[i]) == [] && IsCard(TextRules.Cleaned(cfg.lexicon, labels, drafts[i]))
    ensures r.sources[i] == sources[i] ==> r.drafts[i] == TextRules.Cleaned(cfg.lexicon, labels, drafts[i])
    ensures r.sources[i] != sources[i] ==> cs.mode == INITIAL && sources[i] == AI && r.sources[i] == TEMPLATE
    ensures r.sources[i] != sources[i] ==> TemplateFor(cfg, decision, i).Some?
                                           && r.drafts[i] == TextRules.Cleaned(cfg.lexicon, labels, TemplateFor(cfg, decision, i).value)
  {
    hide TextRules.TextIssues, TextRules.Cleaned, IsCard, TemplateFor, Scope, InOrder, SomeAI, AllAI;
  }
}
