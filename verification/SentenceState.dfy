/** State, environment and history of one run of the sentencing graph (graph C). */
module SentenceState {
  import opened Drafts
  import Budget
  import EvaluationReport
  import TextRules

  datatype Mode = INITIAL | REGENERATE

  datatype Decision = Decision(sentence: string, reason: Option<string>, reasonSource: Source)

  /** The snapshot fields the graph branches on. `targets` has no repetition and is not empty
      (the snapshot contract); `requested` is the payload's subset of a text retry. */
  datatype Case = Case(
    mode: Mode, result: TextRules.Result, spent: bool, targets: seq<Intensity>, defaultIntensity: Intensity,
    requested: Option<seq<Intensity>>, allowed: seq<TextRules.Allowed>, fallback: string)

  ghost predicate ValidCase(cs: Case) {
    && cs.targets != [] && Distinct(cs.targets)
    && (cs.requested.Some? ==> cs.requested.value != [])
    && cs.allowed != []
  }

  /** Settings and fixed texts. `hellApart`: the hell evaluator is a different model. */
  datatype Config = Config(
    maxRepair: nat, caps: Budget.Caps, hellApart: bool, retrySeconds: real,
    lexicon: TextRules.Lexicon,
    template: (Intensity, Option<string>) -> Option<Draft>,
    reasonTemplate: string -> Option<string>)

  /** A template is a card of the asked intensity marked TEMPLATE (`template_text_draft`). */
  ghost predicate ValidConfig(cfg: Config) {
    && (forall i, s :: cfg.template(i, s).Some? ==>
          cfg.template(i, s).value.intensity == i && cfg.template(i, s).value.source == TEMPLATE && IsCard(cfg.template(i, s).value))
    && (forall i, parts, c :: c in cfg.lexicon.hits(i, parts) ==> c != TextRules.SetMismatch && c != TextRules.DuplicateIntensity)
  }

  // ----- what the outside world may answer -----

  datatype BeginReply = Conflict | Begun(remaining: real, fixed: Option<Decision>) | BeginError

  /** A model call for a sentence: `Invalidated` is the epoch check failing before or between attempts. */
  datatype SentenceReply = Sentenced(sentence: string, reason: Option<string>) | SentenceBroken | SentenceInvalidated

  datatype WriteReply =
    | Written(draft: Draft, angleAllowed: bool, hints: Option<string>, hintsValid: bool)
    | WriteBroken(kind: Budget.ErrorKind)
    | WriteInvalidated

  /** `JudgedNothing` is the empty object, which a case that needs a sentence drops before the replies are joined. */
  datatype EvalReply = Judged(output: EvaluationReport.Output) | JudgedNothing | EvalBroken(kind: Budget.ErrorKind) | EvalInvalidated

  datatype FinalizeReply = Accepted | Rejected422 | Discard409 | Invalid409 | OtherError

  datatype DossierReply = DossierReady(labels: map<string, string>) | DossierInvalidated

  /** Every answer of one run, whatever it may be. Clock readings are numbered in the order they are taken. */
  datatype Env = Env(
    clock: nat -> real,
    begin: BeginReply,
    prep: Option<map<string, string>>,
    dossier: DossierReply,
    sentence: SentenceReply,
    write: (nat, Intensity) -> WriteReply,
    evaluate: (nat, bool) -> EvalReply,
    stale: nat -> bool,
    finalize: nat -> FinalizeReply)

  /** The one assumption made of the environment: time does not run backwards. */
  ghost predicate Monotone(clock: nat -> real) {
    forall i: nat, j: nat :: i <= j ==> clock(i) <= clock(j)
  }

  // ----- history of a run -----

  /** One evaluator call: the texts it was shown, and the entries and checks it answered. */
  datatype EvalCall = EvalCall(hell: bool, seen: seq<Draft>, entries: seq<EvaluationReport.Entry>,
                               sentence: EvaluationReport.Check, reason: EvaluationReport.Check)

  /** One evaluator round over the hashed draft and decision: one call, or two when hell is judged apart. */
  datatype EvalRound = EvalRound(calls: seq<EvalCall>, judged: Hash)

  datatype WriterDraft = WriterDraft(texts: seq<Draft>, memeTag: TextRules.MemeTag, hints: Option<string>)

  /** `draft_hash`: an injective function of the draft and the decision. */
  datatype Hash = Hash(draft: WriterDraft, decision: Option<Decision>)

  datatype Request = Request(hash: Hash, decision: Option<Decision>, draft: WriterDraft, evaluation: EvaluationReport.Report, sources: map<Intensity, Source>)

  datatype Log = Log(writerCalls: seq<nat>, evalCalls: seq<nat>, rounds: seq<EvalRound>, requests: seq<Request>, saved: nat, reported: seq<Budget.FailCode>)

  // ----- graph state -----

  datatype State = State(
    tick: nat, expires: real,
    decision: Option<Decision>, fixed: bool,
    labels: map<string, string>,
    drafts: map<Intensity, Draft>, sources: map<Intensity, Source>,
    hints: Option<string>, skipped: bool, invalid: set<Intensity>, writerErrors: seq<Budget.ErrorKind>,
    writerDraft: Option<WriterDraft>,
    evaluation: Option<EvaluationReport.Report>, draftHash: Option<Hash>,
    kept: map<Intensity, (Draft, EvaluationReport.Entry)>,
    repairTargets: seq<Intensity>, repairCount: nat, evalRound: nat,
    failure: Option<Budget.FailCode>, log: Log)

  function InitialState(): State {
    State(0, 0.0, None, false, map[], map[], map[], None, false, {}, [], None, None, None, map[], [], 0, 0, None,
          Log([], [], [], [], 0, []))
  }

  // ----- scope and presence of a sentence -----

  function Filter(s: seq<Intensity>, keep: Intensity -> bool): (r: seq<Intensity>)
    ensures forall i :: i in r <==> i in s && keep(i)
    ensures Distinct(s) ==> Distinct(r)
    ensures |r| <= |s|
  {
    if s == [] then []
    else
      assert s == [s[0]] + s[1..];
      assert Distinct(s) ==> Distinct(s[1..]);
      (if keep(s[0]) then [s[0]] else []) + Filter(s[1..], keep)
  }

  /** The intensities this run writes: all targets, or the requested ones of a text retry. */
  function Scope(cs: Case): seq<Intensity> {
    if cs.mode == REGENERATE && cs.requested.Some? then Filter(cs.targets, i => i in cs.requested.value) else cs.targets
  }

  predicate RequestedOutside(cs: Case) {
    cs.mode == REGENERATE && cs.requested.Some? && exists k :: 0 <= k < |cs.requested.value| && cs.requested.value[k] !in cs.targets
  }

  lemma ScopeIsSane(cs: Case)
    requires ValidCase(cs) && !RequestedOutside(cs)
    ensures Scope(cs) != [] && Distinct(Scope(cs)) && |Scope(cs)| <= 3
    ensures forall i :: i in Scope(cs) ==> i in cs.targets
  {
    if cs.mode == REGENERATE && cs.requested.Some? {
      var first := cs.requested.value[0];
      assert first in cs.targets && first in cs.requested.value;
      assert first in Scope(cs);
    }
    DistinctBound(Scope(cs));
  }

  /** Only a guilty verdict on money already spent carries a sentence. */
  predicate NeedsSentence(cs: Case) {
    cs.result.Guilty? && cs.spent
  }

  function Position(targets: seq<Intensity>, i: Intensity): (p: nat)
    requires i in targets
    ensures p < |targets| && targets[p] == i
  {
    if targets[0] == i then 0 else 1 + Position(targets[1..], i)
  }

  /** `repair_count * 3 + position`. */
  function WriterCallIndex(offset: nat, position: nat): nat {
    offset * 3 + position
  }

  /** `round * 2 + (1 if hell apart)`. */
  function EvaluatorCallIndex(round: nat, hell: bool): nat {
    round * 2 + if hell then 1 else 0
  }

  // ----- texts vouched for by an evaluator -----

  function JointEntries(calls: seq<EvalCall>): seq<EvaluationReport.Entry> {
    if calls == [] then [] else JointEntries(calls[..|calls| - 1]) + calls[|calls| - 1].entries
  }

  function SentenceChecks(calls: seq<EvalCall>): (r: seq<EvaluationReport.Check>)
    ensures |r| == |calls| && forall k :: 0 <= k < |r| ==> r[k] == calls[k].sentence
  {
    seq(|calls|, k requires 0 <= k < |calls| => calls[k].sentence)
  }

  function ReasonChecks(calls: seq<EvalCall>): (r: seq<EvaluationReport.Check>)
    ensures |r| == |calls| && forall k :: 0 <= k < |r| ==> r[k] == calls[k].reason
  {
    seq(|calls|, k requires 0 <= k < |calls| => calls[k].reason)
  }

  /** The calls of a round together let the sentence and its reason through. */
  predicate ChecksClear(round: EvalRound) {
    EvaluationReport.JointlyClear(SentenceChecks(round.calls)) && EvaluationReport.JointlyClear(ReasonChecks(round.calls))
  }

  /** Some round judged exactly this draft with this decision, and its calls let sentence and reason through. */
  ghost predicate DecisionCleared(rounds: seq<EvalRound>, hash: Hash) {
    exists r :: 0 <= r < |rounds| && rounds[r].judged == hash && ChecksClear(rounds[r])
  }

  lemma ClearedGrows(rounds: seq<EvalRound>, more: seq<EvalRound>, hash: Hash)
    requires DecisionCleared(rounds, hash)
    ensures DecisionCleared(rounds + more, hash)
  {
    hide ChecksClear;
    var r :| 0 <= r < |rounds| && rounds[r].judged == hash && ChecksClear(rounds[r]);
    assert (rounds + more)[r] == rounds[r];
  }

  predicate Shown(round: EvalRound, d: Draft) {
    exists c :: 0 <= c < |round.calls| && d in round.calls[c].seen
  }

  /** Some round was shown exactly this text and its joint answer clears the text's intensity. */
  ghost predicate Vouched(rounds: seq<EvalRound>, d: Draft) {
    exists r :: 0 <= r < |rounds| && Shown(rounds[r], d) && EvaluationReport.Clears(JointEntries(rounds[r].calls), d.intensity)
  }

  /** The stronger form: the very call that was shown the text cleared it. */
  ghost predicate VouchedByItsCall(rounds: seq<EvalRound>, d: Draft) {
    exists r, c :: 0 <= r < |rounds| && 0 <= c < |rounds[r].calls|
                   && d in rounds[r].calls[c].seen && EvaluationReport.Clears(rounds[r].calls[c].entries, d.intensity)
  }

  lemma VouchedGrows(rounds: seq<EvalRound>, more: seq<EvalRound>, d: Draft)
    requires Vouched(rounds, d)
    ensures Vouched(rounds + more, d)
  {
    var r :| 0 <= r < |rounds| && Shown(rounds[r], d) && EvaluationReport.Clears(JointEntries(rounds[r].calls), d.intensity);
    assert (rounds + more)[r] == rounds[r];
  }

  /** Without a split round the two notions agree. */
  lemma OneCallRoundsVouchAlone(rounds: seq<EvalRound>, d: Draft)
    requires Vouched(rounds, d) && forall r :: 0 <= r < |rounds| ==> |rounds[r].calls| <= 1
    ensures VouchedByItsCall(rounds, d)
  {
    hide EvaluationReport.Clears;
    var r :| 0 <= r < |rounds| && Shown(rounds[r], d) && EvaluationReport.Clears(JointEntries(rounds[r].calls), d.intensity);
    var c :| 0 <= c < |rounds[r].calls| && d in rounds[r].calls[c].seen;
    JointOfOne(rounds[r].calls);
    assert EvaluationReport.Clears(rounds[r].calls[c].entries, d.intensity);
  }

  lemma JointOfOne(calls: seq<EvalCall>)
    requires |calls| == 1
    ensures JointEntries(calls) == calls[0].entries
  {
    assert calls[..0] == [];
    assert JointEntries(calls) == JointEntries(calls[..0]) + calls[0].entries;
  }

  // ----- consistency of drafts -----

  /** Every recorded source is the source of a recorded text of that intensity, all within the scope. */
  predicate DraftsAgree(cs: Case, drafts: map<Intensity, Draft>, sources: map<Intensity, Source>) {
    && drafts.Keys == sources.Keys
    && forall i :: i in drafts ==> drafts[i].intensity == i && drafts[i].source == sources[i] && i in Scope(cs)
  }

  predicate Covers(cs: Case, sources: map<Intensity, Source>) {
    forall i :: i in sources <==> i in Scope(cs)
  }

  function InOrder(drafts: map<Intensity, Draft>, scope: seq<Intensity>): (r: seq<Draft>)
    requires forall i :: i in scope ==> i in drafts
    ensures |r| == |scope| && forall k :: 0 <= k < |r| ==> r[k] == drafts[scope[k]]
  {
    seq(|scope|, k requires 0 <= k < |scope| => drafts[scope[k]])
  }

  predicate AllCards(drafts: map<Intensity, Draft>) {
    forall i :: i in drafts ==> IsCard(drafts[i])
  }

  predicate SomeAI(sources: map<Intensity, Source>) {
    exists i :: i in sources && sources[i] == AI
  }

  predicate AllAI(sources: map<Intensity, Source>) {
    forall i :: i in sources ==> sources[i] == AI
  }

  /** A full set of cards, one per intensity of the scope and in its order, that may go to the evaluator. */
  predicate Assembled(cs: Case, wd: WriterDraft, drafts: map<Intensity, Draft>, sources: map<Intensity, Source>) {
    && DraftsAgree(cs, drafts, sources) && Covers(cs, sources)
    && wd.texts == InOrder(drafts, Scope(cs))
    && AllCards(drafts)
    && SomeAI(sources)
    && (cs.mode == REGENERATE ==> AllAI(sources))
  }
}
