/** The evaluator node (`run_evaluator`): up to three rounds of judging, replacing by templates and
    reassembling, ending in an accepted draft, a request for a rewrite, or a failure. */
module SentenceJudging {
  import opened Drafts
  import opened Budget
  import opened SentenceState
  import opened SentenceAssembly
  import opened SentenceEvaluator
  import E = EvaluationReport
  import TextRules

  const EVAL_ROUNDS := 3

  datatype EvalUpdate =
    | EvalStale
    | EvalFailed(code: FailCode)
    | EvalRepair(drafts: map<Intensity, Draft>, sources: map<Intensity, Source>, decision: Option<Decision>,
                 targets: seq<Intensity>, kept: map<Intensity, (Draft, E.Entry)>)
    | EvalAccepted(report: E.Report, hash: Hash, decision: Option<Decision>, draft: WriterDraft,
                   drafts: map<Intensity, Draft>, sources: map<Intensity, Source>)

  /** What a round works on: the draft, the texts it was made of, the decision and the kept entries. */
  datatype Desk = Desk(draft: WriterDraft, drafts: map<Intensity, Draft>, sources: map<Intensity, Source>, decision: Option<Decision>,
                       kept: map<Intensity, (Draft, E.Entry)>)

  datatype Turn = Stop(update: EvalUpdate) | Next(draft: WriterDraft, drafts: map<Intensity, Draft>, sources: map<Intensity, Source>, decision: Option<Decision>)

  // ----- what an update guarantees -----

  /** An accepted draft is the assembled one, hashed with the decision it was judged with; the report covers
      the scope and passes it, and every AI text in it was cleared by a round that saw exactly that text. */
  ghost predicate AcceptedSound(cs: Case, rounds: seq<EvalRound>, u: EvalUpdate)
    requires u.EvalAccepted?
  {
    && u.hash == Hash(u.draft, u.decision)
    && Assembled(cs, u.draft, u.drafts, u.sources)
    && E.Accepts(u.report, Scope(cs))
    && AllVouched(rounds, u.drafts)
    && DecisionCleared(rounds, u.hash)
  }

  /** A rewrite is asked for in the first run only, while rewrites are left, and what is kept was cleared. */
  ghost predicate RepairSound(cfg: Config, cs: Case, st: State, rounds: seq<EvalRound>, u: EvalUpdate)
    requires u.EvalRepair?
  {
    && cs.mode == INITIAL && st.repairCount < cfg.maxRepair
    && u.targets != [] && Distinct(u.targets) && (forall i :: i in u.targets ==> i in Scope(cs))
    && DraftsAgree(cs, u.drafts, u.sources)
    && KeptSound(cs, rounds, u.kept)
  }

  predicate SameNeed(a: Option<Decision>, b: Option<Decision>) {
    && a.Some? == b.Some?
    && (a.Some? ==> a.value.sentence == b.value.sentence)
  }

  ghost predicate UpdateSound(cfg: Config, cs: Case, st: State, rounds: seq<EvalRound>, u: EvalUpdate) {
    match u
    case EvalStale => true
    case EvalFailed(_) => true
    case EvalRepair(_, _, decision, _, _) => RepairSound(cfg, cs, st, rounds, u) && SameNeed(st.decision, decision)
    case EvalAccepted(_, _, decision, _, _, _) => AcceptedSound(cs, rounds, u) && SameNeed(st.decision, decision)
  }

  ghost predicate TurnSound(cfg: Config, cs: Case, st: State, rounds: seq<EvalRound>, t: Turn) {
    match t
    case Stop(u) => UpdateSound(cfg, cs, st, rounds, u)
    case Next(draft, drafts, sources, decision) =>
      Assembled(cs, draft, drafts, sources) && SameNeed(st.decision, decision) && cs.mode == INITIAL
  }

  // ----- reading a rejected report -----

  predicate Global(issue: E.Issue) {
    issue.where != E.AtReasonCheck && !E.PerText(issue)
  }

  method ReadIssues(issues: seq<E.Issue>) returns (global: bool, reasonFailed: bool)
    ensures global <==> GloballyFailed(issues)
    ensures !global ==> (reasonFailed <==> ReasonFailed(issues))
  {
    reasonFailed := false;
    for n := 0 to |issues|
      invariant forall x :: x in issues[..n] ==> !Global(x)
      invariant reasonFailed <==> exists x :: x in issues[..n] && x.where == E.AtReasonCheck
    {
      assert issues[..n + 1] == issues[..n] + [issues[n]];
      if issues[n].where == E.AtReasonCheck {
        reasonFailed := true;
      } else if !E.PerText(issues[n]) {
        assert issues[n] in issues && Global(issues[n]);
        return true, reasonFailed;
      }
    }
    assert issues[..|issues|] == issues;
    global := false;
  }

  predicate IsRejected(verdicts: map<Intensity, E.Entry>, i: Intensity) {
    i in verdicts && verdicts[i].pass == E.Verdict(false)
  }

  predicate IsPassed(verdicts: map<Intensity, E.Entry>, i: Intensity) {
    i in verdicts && verdicts[i].pass == E.Verdict(true)
  }

  function Rejected(targets: seq<Intensity>, verdicts: map<Intensity, E.Entry>): (r: seq<Intensity>)
    ensures forall i :: i in r <==> i in targets && IsRejected(verdicts, i)
    ensures Distinct(targets) ==> Distinct(r)
  {
    Filter(targets, i => IsRejected(verdicts, i))
  }

  function Incomplete(targets: seq<Intensity>, verdicts: map<Intensity, E.Entry>): (r: seq<Intensity>)
    ensures forall i :: i in r <==> i in targets && !IsRejected(verdicts, i) && !IsPassed(verdicts, i)
    ensures Distinct(targets) ==> Distinct(r)
  {
    Filter(targets, i => !IsRejected(verdicts, i) && !IsPassed(verdicts, i))
  }

  /** Entries of the texts that passed and are not replaced, paired with the text they were given for. */
  function Keep(cs: Case, drafts: map<Intensity, Draft>, verdicts: map<Intensity, E.Entry>): map<Intensity, (Draft, E.Entry)> {
    map i | i in verdicts && i in Scope(cs) && i in drafts && IsPassed(verdicts, i) :: (drafts[i], verdicts[i])
  }

  /** The verdicts a round arrived at are backed by what the rounds saw. */
  ghost predicate Backed(cs: Case, rounds: seq<EvalRound>, drafts: map<Intensity, Draft>, verdicts: map<Intensity, E.Entry>) {
    forall i :: i in drafts && IsPassed(verdicts, i) ==>
      verdicts[i].key == E.Known(i) && (drafts[i].source == AI ==> Vouched(rounds, drafts[i]))
  }

  lemma RoundIsBacked(cfg: Config, cs: Case, rounds: seq<EvalRound>, kept: map<Intensity, (Draft, E.Entry)>, wd: WriterDraft,
                      drafts: map<Intensity, Draft>, sources: map<Intensity, Source>, output: E.Output, round: EvalRound, verdicts: map<Intensity, E.Entry>)
    requires Distinct(Scope(cs)) && KeptSound(cs, rounds, kept) && Assembled(cs, wd, drafts, sources)
    requires Recorded(cfg, wd.texts, Unjudged(Scope(cs), Reusable(kept, wd.texts)), output, round)
    requires Verdicts(wd.texts, output.texts, Reusable(kept, wd.texts), verdicts)
    ensures Backed(cs, rounds + [round], drafts, verdicts)
  {
    hide Recorded, AllCards, Vouched, SomeAI;
    var scope := Scope(cs);
    forall i | i in drafts && IsPassed(verdicts, i) && drafts[i].source == AI
      ensures Vouched(rounds + [round], drafts[i])
    {
      var k := Position(scope, i);
      assert wd.texts[k] == drafts[i];
      forall j, l | 0 <= j < l < |wd.texts| ensures wd.texts[j].intensity != wd.texts[l].intensity {
        assert wd.texts[j] == drafts[scope[j]] && wd.texts[l] == drafts[scope[l]];
      }
      hide Verdicts, KeptSound;
      PassMeansVouched(cfg, cs, rounds, kept, wd.texts, output, round, verdicts, i, k);
    }
  }

  lemma KeepIsSound(cs: Case, rounds: seq<EvalRound>, drafts: map<Intensity, Draft>, sources: map<Intensity, Source>, verdicts: map<Intensity, E.Entry>)
    requires Backed(cs, rounds, drafts, verdicts) && DraftsAgree(cs, drafts, sources)
    ensures KeptSound(cs, rounds, Keep(cs, drafts, verdicts))
  {
    hide Vouched, Scope;
  }

  /** An accepted report passes every target, so every AI text of the draft is vouched for. */
  lemma AcceptanceVouches(cs: Case, rounds: seq<EvalRound>, drafts: map<Intensity, Draft>, sources: map<Intensity, Source>,
                          verdicts: map<Intensity, E.Entry>, report: E.Report, output: E.Output)
    requires Backed(cs, rounds, drafts, verdicts) && DraftsAgree(cs, drafts, sources) && E.Accepts(report, Scope(cs))
    requires ReportOf(Scope(cs), output, verdicts, report)
    ensures AllVouched(rounds, drafts)
  {
    hide Vouched, Scope, E.Parses, Listed;
    forall i | i in drafts ensures IsPassed(verdicts, i) {
      assert i in Scope(cs) && E.Mentions(report.texts, i);
      var k :| 0 <= k < |report.texts| && report.texts[k].key == E.Known(i);
      assert report.texts[k] in report.texts;
    }
  }

  // ----- one round -----

  /** Replaces the reason of a rejected decision by its template; None when that is impossible. */
  function WithTemplateReason(cfg: Config, decision: Option<Decision>): (d: Option<Option<Decision>>)
    ensures d.Some? ==> SameNeed(decision, d.value) && decision.Some? && d.value.value.reasonSource == TEMPLATE
    ensures d.Some? <==> decision.Some? && cfg.reasonTemplate(decision.value.sentence).Some?
    ensures d.Some? ==> d.value.value.reason == cfg.reasonTemplate(decision.value.sentence)
  {
    if decision.None? then None
    else
      var reason := cfg.reasonTemplate(decision.value.sentence);
      if reason.None? then None else Some(Some(decision.value.(reason := reason, reasonSource := TEMPLATE)))
  }

  predicate RepairWanted(cfg: Config, cs: Case, st: State, now: real, sources: map<Intensity, Source>, rejected: seq<Intensity>) {
    && rejected != []
    && RepairOpen(cfg, cs, st, now)
    && forall k :: 0 <= k < |rejected| ==> rejected[k] in sources && sources[rejected[k]] == AI
  }

  predicate Unreplaceable(cfg: Config, decision: Option<Decision>, sources: map<Intensity, Source>, i: Intensity) {
    (i in sources && sources[i] == TEMPLATE) || TemplateFor(cfg, decision, i).None?
  }

  /** The decision the next step works with; None when its rejected reason has no template. */
  function Chosen(cfg: Config, decision: Option<Decision>, reasonFailed: bool): Option<Option<Decision>> {
    if reasonFailed then WithTemplateReason(cfg, decision) else Some(decision)
  }

  /** A request for a rewrite: exactly the rejected texts, templates in place of those without a verdict,
      and the passing entries kept unless the decision changed. */
  ghost predicate Rewritten(cfg: Config, cs: Case, drafts: map<Intensity, Draft>, sources: map<Intensity, Source>, decision: Option<Decision>,
                            verdicts: map<Intensity, E.Entry>, reasonFailed: bool, t: Turn) {
    if exists i :: i in Incomplete(Scope(cs), verdicts) && Unreplaceable(cfg, decision, sources, i) then t == Stop(EvalFailed(EVAL_FAILED))
    else
      && t.Stop? && t.update.EvalRepair?
      && t.update.targets == Rejected(Scope(cs), verdicts) && t.update.decision == decision
      && t.update.kept == (if reasonFailed then map[] else Keep(cs, drafts, verdicts))
      && PartlyReplaced(cfg, decision, drafts, sources, Incomplete(Scope(cs), verdicts), t.update.drafts, t.update.sources)
  }

  /** Templates for all texts that did not pass, then the assembly without a rewrite: another round when it
      succeeds, a failure otherwise. */
  ghost predicate Continued(cfg: Config, cs: Case, st: State, drafts: map<Intensity, Draft>, sources: map<Intensity, Source>,
                            decision: Option<Decision>, verdicts: map<Intensity, E.Entry>, t: Turn) {
    if exists i :: i in Scope(cs) && !IsPassed(verdicts, i) && Unreplaceable(cfg, decision, sources, i) then t == Stop(EvalFailed(EVAL_FAILED))
    else exists a :: Reassembled(cfg, cs, st, NotPassed(Scope(cs), verdicts), drafts, sources, decision, a)
                     && t == if a.Ready? then Next(a.writerDraft, a.drafts, a.sources, decision) else Stop(EvalFailed(EVAL_FAILED))
  }

  /** `a` is what the assembly makes of the texts with templates in place of the listed ones. */
  ghost predicate Reassembled(cfg: Config, cs: Case, st: State, listed: seq<Intensity>, drafts: map<Intensity, Draft>, sources: map<Intensity, Source>,
                              decision: Option<Decision>, a: Assembly) {
    var ds, ss := TemplatedDrafts(cfg, decision, drafts, listed), TemplatedSources(sources, listed);
    && AssemblyGoes(cfg, cs, st.labels, ds, ss, decision, false, a)
    && (a.Ready? ==> Assembled(cs, a.writerDraft, a.drafts, a.sources) && AcceptedFrom(cfg, cs, st.labels, decision, ds, ss, a))
    && Trimmings(cs, st, decision, a)
  }

  function NotPassed(targets: seq<Intensity>, verdicts: map<Intensity, E.Entry>): (r: seq<Intensity>)
    ensures forall i :: i in r <==> i in targets && !IsPassed(verdicts, i)
    ensures Distinct(targets) ==> Distinct(r)
  {
    DisjointLists(targets, verdicts);
    Rejected(targets, verdicts) + Incomplete(targets, verdicts)
  }

  predicate ReasonFailed(issues: seq<E.Issue>) {
    exists x :: x in issues && x.where == E.AtReasonCheck
  }

  predicate GloballyFailed(issues: seq<E.Issue>) {
    exists x :: x in issues && Global(x)
  }

  /** What the node does about a rejected report. */
  ghost predicate Reaction(cfg: Config, cs: Case, st: State, now: real, drafts: map<Intensity, Draft>, sources: map<Intensity, Source>,
                           decision: Option<Decision>, verdicts: map<Intensity, E.Entry>, hopeless: bool, reasonFailed: bool, t: Turn) {
    var chosen := Chosen(cfg, decision, reasonFailed);
    if hopeless || chosen.None? then t == Stop(EvalFailed(EVAL_FAILED))
    else if RepairWanted(cfg, cs, st, now, sources, Rejected(Scope(cs), verdicts)) then
      Rewritten(cfg, cs, drafts, sources, chosen.value, verdicts, reasonFailed, t)
    else Continued(cfg, cs, st, drafts, sources, chosen.value, verdicts, t)
  }

  /** After a rejected report: templates for what cannot be rewritten, then a rewrite or another round. */
  method React(cfg: Config, cs: Case, env: Env, st: State, start: nat, drafts: map<Intensity, Draft>, sources: map<Intensity, Source>,
               decision: Option<Decision>, verdicts: map<Intensity, E.Entry>, issues: seq<E.Issue>, ghost rounds: seq<EvalRound>)
    returns (t: Turn, tick: nat)
    requires ValidConfig(cfg) && Monotone(env.clock) && Distinct(Scope(cs)) && 1 <= |Scope(cs)| <= 3
    requires cs.mode == INITIAL && DraftsAgree(cs, drafts, sources) && Covers(cs, sources)
    requires Backed(cs, rounds, drafts, verdicts) && SameNeed(st.decision, decision)
    ensures tick >= start && TurnSound(cfg, cs, st, rounds, t)
    ensures Reaction(cfg, cs, st, env.clock(start), drafts, sources, decision, verdicts, GloballyFailed(issues), ReasonFailed(issues), t)
  {
    hide Backed, Vouched, KeptSound, Assembled, ValidConfig, GloballyFailed, ReasonFailed, Rewritten, Continued, RepairOpen, Monotone, Rejected, Incomplete, DraftsAgree, Covers, Scope;
    var global, reasonFailed := ReadIssues(issues);
    if global {
      return Stop(EvalFailed(EVAL_FAILED)), start;
    }
    var chosen := decision;
    if reasonFailed {
      var replaced := WithTemplateReason(cfg, decision);
      if replaced.None? {
        return Stop(EvalFailed(EVAL_FAILED)), start;
      }
      chosen := replaced.value;
    }
    if RepairWanted(cfg, cs, st, env.clock(start), sources, Rejected(Scope(cs), verdicts)) {
      RepairLeft(cfg, cs, st, env.clock(start));
      t := AskForRewrite(cfg, cs, st, drafts, sources, chosen, verdicts, reasonFailed, rounds);
      tick := start + 1;
    } else {
      t, tick := ReplaceAndGoOn(cfg, cs, env, st, start + 1, drafts, sources, chosen, verdicts);
    }
  }

  /** Rejected texts go back to the writers; texts without a verdict become templates. */
  method AskForRewrite(cfg: Config, cs: Case, st: State, drafts: map<Intensity, Draft>, sources: map<Intensity, Source>, decision: Option<Decision>,
                       verdicts: map<Intensity, E.Entry>, reasonFailed: bool, ghost rounds: seq<EvalRound>) returns (t: Turn)
    requires ValidConfig(cfg) && Distinct(Scope(cs)) && DraftsAgree(cs, drafts, sources) && Covers(cs, sources)
    requires Backed(cs, rounds, drafts, verdicts) && Rejected(Scope(cs), verdicts) != []
    requires cs.mode == INITIAL && st.repairCount < cfg.maxRepair
    ensures t.Stop? && (t.update.EvalFailed? || t.update.EvalRepair?)
    ensures t.update.EvalRepair? ==> RepairSound(cfg, cs, st, rounds, t.update) && t.update.decision == decision
    ensures Rewritten(cfg, cs, drafts, sources, decision, verdicts, reasonFailed, t)
  {
    assert drafts.Keys == sources.Keys;
    hide Backed, Vouched, KeptSound, Keep, ValidConfig, PartlyReplaced, Scope, Rewritten, RepairSound, DraftsAgree, Covers;
    var rejected, incomplete := Rejected(Scope(cs), verdicts), Incomplete(Scope(cs), verdicts);
    InScope(cs, sources, incomplete);
    var s := Substitute(cfg, cs, decision, drafts, sources, incomplete);
    if s.Refused? {
      t := Stop(EvalFailed(EVAL_FAILED));
      RefusedRewrite(cfg, cs, drafts, sources, decision, verdicts, reasonFailed);
    } else {
      t := Stop(EvalRepair(s.drafts, s.sources, decision, rejected, if reasonFailed then map[] else Keep(cs, drafts, verdicts)));
      RewriteIsAsked(cfg, cs, st, drafts, sources, decision, verdicts, reasonFailed, rounds, t.update);
    }
  }

  lemma InScope(cs: Case, sources: map<Intensity, Source>, listed: seq<Intensity>)
    requires Covers(cs, sources) && forall i :: i in listed ==> i in Scope(cs)
    ensures forall i :: i in listed ==> i in sources
  {}

  lemma RefusedRewrite(cfg: Config, cs: Case, drafts: map<Intensity, Draft>, sources: map<Intensity, Source>, decision: Option<Decision>,
                       verdicts: map<Intensity, E.Entry>, reasonFailed: bool)
    requires exists i :: i in Incomplete(Scope(cs), verdicts) && Unreplaceable(cfg, decision, sources, i)
    ensures Rewritten(cfg, cs, drafts, sources, decision, verdicts, reasonFailed, Stop(EvalFailed(EVAL_FAILED)))
  {}

  lemma RewriteIsAsked(cfg: Config, cs: Case, st: State, drafts: map<Intensity, Draft>, sources: map<Intensity, Source>, decision: Option<Decision>,
                       verdicts: map<Intensity, E.Entry>, reasonFailed: bool, rounds: seq<EvalRound>, u: EvalUpdate)
    requires DraftsAgree(cs, drafts, sources) && Covers(cs, sources) && Distinct(Scope(cs)) && Backed(cs, rounds, drafts, verdicts)
    requires cs.mode == INITIAL && st.repairCount < cfg.maxRepair
    requires u.EvalRepair? && u.decision == decision && u.targets == Rejected(Scope(cs), verdicts) && u.targets != []
    requires u.kept == if reasonFailed then map[] else Keep(cs, drafts, verdicts)
    requires DraftsAgree(cs, u.drafts, u.sources)
    requires PartlyReplaced(cfg, decision, drafts, sources, Incomplete(Scope(cs), verdicts), u.drafts, u.sources)
    ensures RepairSound(cfg, cs, st, rounds, u)
    ensures Rewritten(cfg, cs, drafts, sources, decision, verdicts, reasonFailed, Stop(u))
  {
    assert drafts.Keys == sources.Keys;
    hide Backed, Vouched, KeptSound, Keep, PartlyReplaced, Scope, DraftsAgree;
    KeepIsSound(cs, rounds, drafts, sources, verdicts);
    NothingKept(cs, rounds);
    ReplaceableAll(cfg, decision, drafts, sources, Incomplete(Scope(cs), verdicts), u.drafts, u.sources);
  }

  /** Texts that did not pass become templates, and the set is assembled again. */
  method ReplaceAndGoOn(cfg: Config, cs: Case, env: Env, st: State, start: nat, drafts: map<Intensity, Draft>, sources: map<Intensity, Source>,
                        decision: Option<Decision>, verdicts: map<Intensity, E.Entry>) returns (t: Turn, tick: nat)
    requires ValidConfig(cfg) && Monotone(env.clock) && Distinct(Scope(cs)) && 1 <= |Scope(cs)| <= 3
    requires cs.mode == INITIAL && DraftsAgree(cs, drafts, sources) && Covers(cs, sources)
    ensures tick >= start && ((t.Stop? && t.update.EvalFailed?) || t.Next?)
    ensures t.Next? ==> Assembled(cs, t.draft, t.drafts, t.sources) && t.decision == decision
    ensures Continued(cfg, cs, st, drafts, sources, decision, verdicts, t)
  {
    assert drafts.Keys == sources.Keys;
    hide Assembled, ValidConfig, PartlyReplaced, AcceptedFrom, ExactlyBad, Monotone, Scope, AssemblyGoes, NotPassed, Unreplaceable, IsPassed,
         Trimmings, DraftsAgree, Continued;
    var listed := NotPassed(Scope(cs), verdicts);
    var s := Substitute(cfg, cs, decision, drafts, sources, listed);
    if s.Refused? {
      CannotReplace(cfg, cs, st, drafts, sources, decision, verdicts);
      return Stop(EvalFailed(EVAL_FAILED)), start;
    }
    var a;
    a, tick := Assemble(cfg, cs, env.clock, st.(tick := start), s.drafts, s.sources, decision, false);
    t := match a
      case Ready(ds, ss, draft) => Next(draft, ds, ss, decision)
      case _ => Stop(EvalFailed(EVAL_FAILED));
    SameTrimmings(cs, st, st.(tick := start), decision, a);
    AssembledGoesOn(cfg, cs, st, drafts, sources, decision, verdicts, s.drafts, s.sources, a);
  }

  lemma AssembledGoesOn(cfg: Config, cs: Case, st: State, drafts: map<Intensity, Draft>, sources: map<Intensity, Source>, decision: Option<Decision>,
                        verdicts: map<Intensity, E.Entry>, ds: map<Intensity, Draft>, ss: map<Intensity, Source>, a: Assembly)
    requires PartlyReplaced(cfg, decision, drafts, sources, NotPassed(Scope(cs), verdicts), ds, ss) && forall i :: i in Scope(cs) ==> i in drafts
    requires AssemblyGoes(cfg, cs, st.labels, ds, ss, decision, false, a) && Trimmings(cs, st, decision, a)
    requires a.Ready? ==> Assembled(cs, a.writerDraft, a.drafts, a.sources) && AcceptedFrom(cfg, cs, st.labels, decision, ds, ss, a)
    ensures Continued(cfg, cs, st, drafts, sources, decision, verdicts, if a.Ready? then Next(a.writerDraft, a.drafts, a.sources, decision) else Stop(EvalFailed(EVAL_FAILED)))
  {
    hide Assembled, PartlyReplaced, AcceptedFrom, Scope, AssemblyGoes, NotPassed, Unreplaceable, IsPassed, Trimmings, TemplatedDrafts, TemplatedSources;
    var listed := NotPassed(Scope(cs), verdicts);
    ReplaceableAll(cfg, decision, drafts, sources, listed, ds, ss);
    ReplacedIsTemplated(cfg, decision, drafts, sources, listed, ds, ss);
    assert Reassembled(cfg, cs, st, listed, drafts, sources, decision, a);
  }

  lemma SameTrimmings(cs: Case, st: State, other: State, decision: Option<Decision>, a: Assembly)
    requires Trimmings(cs, other, decision, a) && other.hints == st.hints
    ensures Trimmings(cs, st, decision, a)
  {}

  lemma CannotReplace(cfg: Config, cs: Case, st: State, drafts: map<Intensity, Draft>, sources: map<Intensity, Source>, decision: Option<Decision>,
                      verdicts: map<Intensity, E.Entry>)
    requires exists i :: i in NotPassed(Scope(cs), verdicts) && ((i in sources && sources[i] == TEMPLATE) || TemplateFor(cfg, decision, i).None?)
    ensures Continued(cfg, cs, st, drafts, sources, decision, verdicts, Stop(EvalFailed(EVAL_FAILED)))
  {
    hide TemplateFor, IsPassed, Scope, Reassembled;
    var i :| i in NotPassed(Scope(cs), verdicts) && ((i in sources && sources[i] == TEMPLATE) || TemplateFor(cfg, decision, i).None?);
    assert Unreplaceable(cfg, decision, sources, i);
  }

  lemma ReplaceableAll(cfg: Config, decision: Option<Decision>, drafts: map<Intensity, Draft>, sources: map<Intensity, Source>,
                       listed: seq<Intensity>, ds: map<Intensity, Draft>, ss: map<Intensity, Source>)
    requires PartlyReplaced(cfg, decision, drafts, sources, listed, ds, ss) && forall i :: i in listed ==> i in drafts
    ensures forall i :: i in listed ==> !Unreplaceable(cfg, decision, sources, i)
    ensures ds.Keys == ss.Keys == drafts.Keys == sources.Keys
  {
    hide TemplateFor;
  }

  /** What the next round finds of a text: one that passed and obeys the rules is carried on, cleaned, with its source;
      one that did not pass was an AI text and is a template now. */
  lemma CarriedOn(cfg: Config, cs: Case, st: State, drafts: map<Intensity, Draft>, sources: map<Intensity, Source>,
                  decision: Option<Decision>, verdicts: map<Intensity, E.Entry>, t: Turn, i: Intensity)
    requires DraftsAgree(cs, drafts, sources) && Continued(cfg, cs, st, drafts, sources, decision, verdicts, t) && t.Next? && i in drafts
    ensures i in sources && i in t.drafts && i in t.sources
    ensures !IsPassed(verdicts, i) ==> sources[i] == AI && t.sources[i] == TEMPLATE
    ensures IsPassed(verdicts, i) && !Bad(cfg, st.labels, drafts[i]) ==>
              t.sources[i] == sources[i] && t.drafts[i] == TextRules.Cleaned(cfg.lexicon, st.labels, drafts[i])
  {
    hide Bad, TextRules.Cleaned, TemplateFor, Scope, AssemblyGoes, NotPassed, Assembled, Trimmings;
    var listed := NotPassed(Scope(cs), verdicts);
    assert i in sources && i in Scope(cs);
    var a :| Reassembled(cfg, cs, st, listed, drafts, sources, decision, a)
             && t == if a.Ready? then Next(a.writerDraft, a.drafts, a.sources, decision) else Stop(EvalFailed(EVAL_FAILED));
    assert !IsPassed(verdicts, i) ==> !Unreplaceable(cfg, decision, sources, i);
  }

  lemma DisjointLists(targets: seq<Intensity>, verdicts: map<Intensity, E.Entry>)
    ensures Distinct(targets) ==> Distinct(Rejected(targets, verdicts) + Incomplete(targets, verdicts))
  {
    hide Filter;
    var a, b := Rejected(targets, verdicts), Incomplete(targets, verdicts);
    if Distinct(targets) {
      forall i, j | 0 <= i < j < |a + b| ensures (a + b)[i] != (a + b)[j] {
        if i < |a| <= j {
          assert a[i] in a && b[j - |a|] in b;
        }
      }
    }
  }

  lemma NothingKept(cs: Case, rounds: seq<EvalRound>)
    ensures KeptSound(cs, rounds, map[])
  {}

  lemma RepairLeft(cfg: Config, cs: Case, st: State, now: real)
    requires RepairOpen(cfg, cs, st, now)
    ensures cs.mode == INITIAL && st.repairCount < cfg.maxRepair
  {}

  /** One turn of the loop, exactly: what the answers of the round come to; of a full round, whether its verdicts pass;
      of a rejected one, the reaction. */
  ghost predicate TurnGoes(cfg: Config, cs: Case, env: Env, st: State, attempt: nat, start: nat, d: Desk, number: nat,
                           r: RoundResult, report: E.Report, verdicts: map<Intensity, E.Entry>, t: Turn) {
    && RoundGoes(cfg, cs, d.draft, d.decision, Asked(cs, d), AnswersOf(cfg, cs, env, st.expires, Asked(cs, d), number, start), r)
    && match r
       case RoundInvalidated => t == Stop(EvalStale)
       case RoundSkipped => t == Stop(EvalFailed(FailCode.DEADLINE_EXCEEDED))
       case RoundFailed(errors) => t == Stop(EvalFailed(EvaluatorFailureCode(errors)))
       case RoundOk(output, _) =>
         && Verdicts(d.draft.texts, output.texts, Reusable(d.kept, d.draft.texts), verdicts) && ReportOf(Scope(cs), output, verdicts, report)
         && if Passes(Scope(cs), output, verdicts) then
              t == Stop(EvalAccepted(report, Hash(d.draft, d.decision), d.decision, d.draft, d.drafts, d.sources))
            else if attempt == EVAL_ROUNDS - 1 || cs.mode == REGENERATE then t == Stop(EvalFailed(EVAL_FAILED))
            else Reaction(cfg, cs, st, env.clock(start + |Groups(cfg, Asked(cs, d))|), d.drafts, d.sources, d.decision, verdicts,
                          E.Hopeless(report, Scope(cs)), !E.Passing(report.reasonCheck), t)
  }

  /** A rejected round: in a first run the first two are reacted to and the third is the last, a new text is judged once. */
  lemma RejectedRounds(cfg: Config, cs: Case, env: Env, st: State, attempt: nat, start: nat, d: Desk, number: nat,
                       r: RoundResult, report: E.Report, verdicts: map<Intensity, E.Entry>, t: Turn)
    requires TurnGoes(cfg, cs, env, st, attempt, start, d, number, r, report, verdicts, t)
    requires attempt < 3 && r.RoundOk? && !Passes(Scope(cs), r.output, verdicts)
    ensures cs.mode == REGENERATE || attempt == 2 ==> t == Stop(EvalFailed(EVAL_FAILED))
    ensures cs.mode == INITIAL && attempt < 2 ==>
              Reaction(cfg, cs, st, env.clock(start + |Groups(cfg, Asked(cs, d))|), d.drafts, d.sources, d.decision, verdicts,
                       E.Hopeless(report, Scope(cs)), !E.Passing(report.reasonCheck), t)
  {
    hide Reaction, RoundGoes, Verdicts, ReportOf, Passes, E.Hopeless;
  }

  /** Only AI texts the evaluator rejected are rewritten, in a first run with a rewrite and five seconds left. */
  lemma OnlyRejectedAITextsAreRewritten(cfg: Config, cs: Case, st: State, now: real, drafts: map<Intensity, Draft>, sources: map<Intensity, Source>,
                                        decision: Option<Decision>, verdicts: map<Intensity, E.Entry>, hopeless: bool, reasonFailed: bool, t: Turn)
    requires Reaction(cfg, cs, st, now, drafts, sources, decision, verdicts, hopeless, reasonFailed, t) && t.Stop? && t.update.EvalRepair?
    ensures cs.mode == INITIAL && st.repairCount < cfg.maxRepair && now + 5.0 <= st.expires && !hopeless && t.update.targets != []
    ensures forall i :: i in t.update.targets <==> i in Scope(cs) && i in verdicts && verdicts[i].pass == E.Verdict(false)
    ensures forall i :: i in t.update.targets ==> i in sources && sources[i] == AI
  {
    hide Scope, PartlyReplaced, Keep, Reassembled, Unreplaceable;
  }

  /** The decision changes exactly by a rejected reason, which becomes the template of the sentence; the sentence stays. */
  lemma RejectedReasonIsReplaced(cfg: Config, cs: Case, st: State, now: real, drafts: map<Intensity, Draft>, sources: map<Intensity, Source>,
                                 decision: Option<Decision>, verdicts: map<Intensity, E.Entry>, hopeless: bool, reasonFailed: bool, t: Turn)
    requires Reaction(cfg, cs, st, now, drafts, sources, decision, verdicts, hopeless, reasonFailed, t)
    requires t.Next? || t.update.EvalRepair?
    ensures var d := if t.Next? then t.decision else t.update.decision;
            if reasonFailed then decision.Some? && d == Some(Decision(decision.value.sentence, cfg.reasonTemplate(decision.value.sentence), TEMPLATE))
            else d == decision
  {
    hide Scope, PartlyReplaced, Reassembled, Keep, RepairWanted, Unreplaceable, Incomplete, Rejected, NotPassed, IsPassed;
  }

  /** The intensities a round asks about. */
  function Asked(cs: Case, d: Desk): seq<Intensity> {
    Unjudged(Scope(cs), Reusable(d.kept, d.draft.texts))
  }

  /** One turn of the loop. */
  method Judge(cfg: Config, cs: Case, env: Env, st: State, attempt: nat, start: nat, d: Desk, number: nat, ghost before: seq<EvalRound>)
    returns (t: Turn, rounds: seq<EvalRound>, calls: seq<nat>, tick: nat, ghost r: RoundResult, ghost report: E.Report, ghost verdicts: map<Intensity, E.Entry>)
    requires ValidConfig(cfg) && Monotone(env.clock) && Distinct(Scope(cs)) && 1 <= |Scope(cs)| <= 3
    requires Assembled(cs, d.draft, d.drafts, d.sources) && KeptSound(cs, before, d.kept) && SameNeed(st.decision, d.decision)
    ensures tick >= start && |rounds| <= 1 && (!Split(cfg, Scope(cs)) && |rounds| == 1 ==> |rounds[0].calls| == 1)
    ensures |calls| <= 2 && Distinct(calls) && forall c :: c in calls ==> 2 * number <= c < 2 * (number + 1)
    ensures TurnSound(cfg, cs, st, before + rounds, t)
    ensures attempt == EVAL_ROUNDS - 1 ==> t.Stop? && !t.update.EvalRepair?
    ensures TurnGoes(cfg, cs, env, st, attempt, start, d, number, r, report, verdicts, t)
    ensures rounds == (if r.RoundOk? then [r.round] else [])
    ensures calls == CallsIn(cfg, cs, d.decision, Asked(cs, d), number, AnswersOf(cfg, cs, env, st.expires, Asked(cs, d), number, start))
  {
    hide Recorded, Assembled, KeptSound, Verdicts, Backed, Vouched, ValidConfig, E.Accepts, E.Parses, AllVouched, Monotone, Reusable, Unjudged,
         RoundGoes, AnswersOf, ReportOf, Passes, Reaction, E.Hopeless, CallsIn;
    rounds := [];
    var scope, texts := Scope(cs), d.draft.texts;
    var reused := Reusable(d.kept, texts);
    var result;
    result, calls, tick := Evaluate(cfg, cs, env, st.expires, d.draft, d.decision, Unjudged(scope, reused), number, start);
    r, report, verdicts := result, NO_REPORT, map[];
    match result
    case RoundInvalidated => t := Stop(EvalStale);
    case RoundSkipped => t := Stop(EvalFailed(FailCode.DEADLINE_EXCEEDED));
    case RoundFailed(errors) => t := Stop(EvalFailed(EvaluatorFailureCode(errors)));
    case RoundOk(output, round) =>
      rounds := [round];
      RoundSize(cfg, texts, scope, reused, output, round);
      RoundJudged(cfg, cs, d.draft, d.decision, Unjudged(scope, reused), AnswersOf(cfg, cs, env, st.expires, Unjudged(scope, reused), number, start), result);
      ReusedKeys(cs, before, d.kept, texts);
      var answer, found := BuildReport(scope, texts, output, reused);
      report, verdicts := answer, found;
      RoundIsBacked(cfg, cs, before, d.kept, d.draft, d.drafts, d.sources, output, round, found);
      VerdictKeys(texts, output.texts, reused, found);
      AcceptedIffPasses(scope, output, found, answer);
      var issues := E.ValidateEvaluation(answer, scope);
      AssembledParts(cs, d.draft, d.drafts, d.sources);
      if issues == [] {
        AcceptanceVouches(cs, before + rounds, d.drafts, d.sources, found, answer, output);
        AcceptanceClears(cfg, cs, d.draft, d.decision, Unjudged(scope, reused), before, output, round, found);
        t := Stop(EvalAccepted(answer, Hash(d.draft, d.decision), d.decision, d.draft, d.drafts, d.sources));
      } else if attempt == EVAL_ROUNDS - 1 || cs.mode == REGENERATE {
        t := Stop(EvalFailed(EVAL_FAILED));
      } else {
        t, tick := React(cfg, cs, env, st, tick, d.drafts, d.sources, d.decision, found, issues, before + rounds);
      }
  }

  /** A round whose verdicts pass has cleared the decision along with the draft. */
  lemma AcceptanceClears(cfg: Config, cs: Case, wd: WriterDraft, decision: Option<Decision>, asked: seq<Intensity>, before: seq<EvalRound>,
                         output: E.Output, round: EvalRound, verdicts: map<Intensity, E.Entry>)
    requires Passes(Scope(cs), output, verdicts) && Recorded(cfg, wd.texts, asked, output, round) && round.judged == Hash(wd, decision)
    ensures DecisionCleared(before + [round], Hash(wd, decision))
  {
    hide E.CheckClears, E.JointlyClear, Scope, Groups, JointEntries;
    assert (before + [round])[|before|] == round;
  }

  lemma RoundJudged(cfg: Config, cs: Case, wd: WriterDraft, decision: Option<Decision>, scope: seq<Intensity>, answers: seq<Answer>, r: RoundResult)
    requires |answers| == |Groups(cfg, scope)| && RoundGoes(cfg, cs, wd, decision, scope, answers, r) && r.RoundOk?
    ensures r.round.judged == Hash(wd, decision)
  {
    hide Groups, BrokenKinds, Joint, CallOf, NeedsSentence;
  }

  ghost const NO_REPORT := E.Report([], E.Absent, E.Absent, false)

  lemma VerdictKeys(texts: seq<Draft>, entries: seq<E.Entry>, reused: map<Intensity, E.Entry>, verdicts: map<Intensity, E.Entry>)
    requires Verdicts(texts, entries, reused, verdicts)
    ensures forall i :: i in verdicts ==> verdicts[i].key == E.Known(i)
  {
    hide E.Clears, E.Mentions, HasTemplate, FromEntries;
  }

  lemma AssembledParts(cs: Case, wd: WriterDraft, drafts: map<Intensity, Draft>, sources: map<Intensity, Source>)
    requires Assembled(cs, wd, drafts, sources)
    ensures DraftsAgree(cs, drafts, sources) && Covers(cs, sources)
  {}

  lemma RoundSize(cfg: Config, texts: seq<Draft>, scope: seq<Intensity>, reused: map<Intensity, E.Entry>, output: E.Output, round: EvalRound)
    requires Recorded(cfg, texts, Unjudged(scope, reused), output, round)
    ensures !Split(cfg, scope) ==> |round.calls| == 1
  {
    if !Split(cfg, scope) {
      UnsplitStays(cfg, scope, reused);
    }
  }

  /** What is left of a scope that is not split is not split either. */
  lemma UnsplitStays(cfg: Config, scope: seq<Intensity>, reused: map<Intensity, E.Entry>)
    requires !Split(cfg, scope)
    ensures !Split(cfg, Unjudged(scope, reused))
  {}

  lemma ReusedKeys(cs: Case, rounds: seq<EvalRound>, kept: map<Intensity, (Draft, E.Entry)>, texts: seq<Draft>)
    requires KeptSound(cs, rounds, kept)
    ensures forall i :: i in Reusable(kept, texts) ==> i in Scope(cs) && Reusable(kept, texts)[i].key == E.Known(i)
  {
    hide Vouched, Scope;
  }

  // ----- the loop -----

  /** Calls of one visit: two indices per round at most, all within the rounds of this visit. */
  predicate VisitCalls(calls: seq<nat>, first: nat, next: nat) {
    && first <= next && |calls| <= 2 * (next - first) && Distinct(calls)
    && forall c :: c in calls ==> 2 * first <= c < 2 * next
  }

  predicate OneCallEach(rounds: seq<EvalRound>) {
    forall r :: 0 <= r < |rounds| ==> |rounds[r].calls| == 1
  }

  /** What a visit to the evaluator comes to. */
  datatype Visited = Visited(update: EvalUpdate, rounds: seq<EvalRound>, calls: seq<nat>, number: nat)

  /** The turns of a visit from the given one on: the first that stops decides it, the others hand on their sets of texts. */
  ghost predicate Visit(cfg: Config, cs: Case, env: Env, st: State, attempt: nat, start: nat, d: Desk, done: Visited, v: Visited)
    requires attempt < EVAL_ROUNDS
    decreases EVAL_ROUNDS - attempt, 0
  {
    exists r, report, verdicts, t ::
      && TurnGoes(cfg, cs, env, st, attempt, start, d, done.number, r, report, verdicts, t)
      && if t.Stop? then v == OneRoundMore(cfg, cs, env, st, start, d, done, r).(update := t.update)
         else attempt + 1 < EVAL_ROUNDS
              && LaterVisit(cfg, cs, env, st, attempt + 1, start, NextDesk(t), OneRoundMore(cfg, cs, env, st, start, d, done, r), v)
  }

  ghost predicate LaterVisit(cfg: Config, cs: Case, env: Env, st: State, attempt: nat, start: nat, d: Desk, done: Visited, v: Visited)
    requires attempt < EVAL_ROUNDS
    decreases EVAL_ROUNDS - attempt, 1
  {
    exists at: nat :: start <= at && Visit(cfg, cs, env, st, attempt, at, d, done, v)
  }

  function NextDesk(t: Turn): Desk
    requires t.Next?
  {
    Desk(t.draft, t.drafts, t.sources, t.decision, map[])
  }

  function OneRoundMore(cfg: Config, cs: Case, env: Env, st: State, start: nat, d: Desk, done: Visited, r: RoundResult): Visited {
    var calls := CallsIn(cfg, cs, d.decision, Asked(cs, d), done.number, AnswersOf(cfg, cs, env, st.expires, Asked(cs, d), done.number, start));
    Visited(done.update, done.rounds + (if r.RoundOk? then [r.round] else []), done.calls + calls, done.number + 1)
  }

  /** Where a visit starts. */
  function DeskOf(st: State): Desk
    requires st.writerDraft.Some?
  {
    Desk(st.writerDraft.value, st.drafts, st.sources, st.decision, st.kept)
  }

  function NothingDone(st: State): Visited {
    Visited(EvalStale, [], [], st.evalRound)
  }

  /** The whole node. It leaves the loop by the third round at the latest, whatever the evaluator says. */
  method RunEvaluator(cfg: Config, cs: Case, env: Env, st: State) returns (v: Visited, tick: nat)
    requires ValidConfig(cfg) && Monotone(env.clock) && Distinct(Scope(cs)) && 1 <= |Scope(cs)| <= 3
    requires st.writerDraft.Some? && Assembled(cs, st.writerDraft.value, st.drafts, st.sources)
    requires KeptSound(cs, st.log.rounds, st.kept)
    ensures tick >= st.tick && UpdateSound(cfg, cs, st, st.log.rounds + v.rounds, v.update)
    ensures VisitCalls(v.calls, st.evalRound, v.number)
    ensures v.number <= st.evalRound + if cs.mode == REGENERATE then 1 else EVAL_ROUNDS
    ensures !Split(cfg, Scope(cs)) ==> OneCallEach(v.rounds)
    ensures Visit(cfg, cs, env, st, 0, st.tick, DeskOf(st), NothingDone(st), v)
  {
    hide Assembled, KeptSound, ValidConfig, Monotone, UpdateSound, TurnGoes, Visit, OneRoundMore;
    var d := DeskOf(st);
    v, tick := NothingDone(st), st.tick;
    assert st.log.rounds + v.rounds == st.log.rounds;
    for attempt := 0 to EVAL_ROUNDS
      invariant attempt < EVAL_ROUNDS && v.number == st.evalRound + attempt && tick >= st.tick
      invariant cs.mode == REGENERATE ==> attempt == 0
      invariant Assembled(cs, d.draft, d.drafts, d.sources) && SameNeed(st.decision, d.decision)
      invariant KeptSound(cs, st.log.rounds + v.rounds, d.kept)
      invariant VisitCalls(v.calls, st.evalRound, v.number)
      invariant !Split(cfg, Scope(cs)) ==> OneCallEach(v.rounds)
      invariant forall end :: Visit(cfg, cs, env, st, attempt, tick, d, v, end) ==> Visit(cfg, cs, env, st, 0, st.tick, DeskOf(st), NothingDone(st), end)
    {
      ghost var start, before := tick, v;
      var t, more, started;
      ghost var r, report, verdicts;
      t, more, started, tick, r, report, verdicts := Judge(cfg, cs, env, st, attempt, tick, d, v.number, st.log.rounds + v.rounds);
      MoreCalls(v.calls, started, st.evalRound, v.number);
      assert st.log.rounds + v.rounds + more == st.log.rounds + (v.rounds + more);
      v := Visited(v.update, v.rounds + more, v.calls + started, v.number + 1);
      assert v == OneRoundMore(cfg, cs, env, st, start, d, before, r) by { OneRoundMoreIs(cfg, cs, env, st, start, d, before, r); }
      match t
      case Stop(update) =>
        v := v.(update := update);
        LastTurn(cfg, cs, env, st, attempt, start, d, before, r, report, verdicts, t, v);
        return;
      case Next(_, _, _, _) =>
        NextTurn(cfg, cs, env, st, attempt, start, d, before, r, report, verdicts, t, tick, v);
        d := NextDesk(t);
        NothingKept(cs, st.log.rounds + v.rounds);
    }
    assert false;
  }

  lemma OneRoundMoreIs(cfg: Config, cs: Case, env: Env, st: State, start: nat, d: Desk, done: Visited, r: RoundResult)
    ensures var calls := CallsIn(cfg, cs, d.decision, Asked(cs, d), done.number, AnswersOf(cfg, cs, env, st.expires, Asked(cs, d), done.number, start));
            OneRoundMore(cfg, cs, env, st, start, d, done, r)
            == Visited(done.update, done.rounds + (if r.RoundOk? then [r.round] else []), done.calls + calls, done.number + 1)
  {}

  lemma LastTurn(cfg: Config, cs: Case, env: Env, st: State, attempt: nat, start: nat, d: Desk, done: Visited,
                 r: RoundResult, report: E.Report, verdicts: map<Intensity, E.Entry>, t: Turn, v: Visited)
    requires attempt < EVAL_ROUNDS && t.Stop?
    requires TurnGoes(cfg, cs, env, st, attempt, start, d, done.number, r, report, verdicts, t)
    requires v == OneRoundMore(cfg, cs, env, st, start, d, done, r).(update := t.update)
    ensures Visit(cfg, cs, env, st, attempt, start, d, done, v)
  {
    hide TurnGoes, OneRoundMore;
  }

  lemma NextTurn(cfg: Config, cs: Case, env: Env, st: State, attempt: nat, start: nat, d: Desk, done: Visited,
                 r: RoundResult, report: E.Report, verdicts: map<Intensity, E.Entry>, t: Turn, at: nat, next: Visited)
    requires attempt + 1 < EVAL_ROUNDS && t.Next? && start <= at
    requires TurnGoes(cfg, cs, env, st, attempt, start, d, done.number, r, report, verdicts, t)
    requires next == OneRoundMore(cfg, cs, env, st, start, d, done, r)
    ensures forall end :: Visit(cfg, cs, env, st, attempt + 1, at, NextDesk(t), next, end) ==> Visit(cfg, cs, env, st, attempt, start, d, done, end)
  {
    hide TurnGoes, OneRoundMore;
    forall end | Visit(cfg, cs, env, st, attempt + 1, at, NextDesk(t), next, end) ensures Visit(cfg, cs, env, st, attempt, start, d, done, end) {
      assert LaterVisit(cfg, cs, env, st, attempt + 1, start, NextDesk(t), next, end);
    }
  }

  lemma MoreCalls(calls: seq<nat>, started: seq<nat>, first: nat, number: nat)
    requires VisitCalls(calls, first, number)
    requires |started| <= 2 && Distinct(started) && forall c :: c in started ==> 2 * number <= c < 2 * (number + 1)
    ensures VisitCalls(calls + started, first, number + 1)
  {
    var all := calls + started;
    forall i, j | 0 <= i < j < |all| ensures all[i] != all[j] {
      if i < |calls| <= j {
        assert calls[i] in calls && started[j - |calls|] in started;
      }
    }
  }
}
