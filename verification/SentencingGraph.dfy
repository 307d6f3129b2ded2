/** The sentencing graph (graph C): its nodes, its edges and whole runs of it. */
module SentencingGraph {
  import opened Drafts
  import opened Budget
  import opened SentenceState
  import opened SentenceAssembly
  import opened SentenceWriter
  import opened SentenceEvaluator
  import opened SentenceJudging
  import E = EvaluationReport
  import TextRules

  datatype Crash = BeginError | FinalizeError | NotEvaluated | HashMismatch

  datatype Ending = Dropped | Saved | Discarded | Reported | Crashed(cause: Crash)

  datatype Stage = Begin | Prep | Sentence | Write | Gate | Validate | Judging | Rewrite | Finish | Failing | End(ending: Ending)

  // ----- what holds of every request sent to finalize -----

  /** The draft of a request: one card per intensity of the scope, sources as recorded, an AI text among
      them (nothing else in a text retry), each AI text cleared by a round that saw exactly that text. */
  ghost predicate DraftSound(cs: Case, rounds: seq<EvalRound>, texts: seq<Draft>, sources: map<Intensity, Source>) {
    && Intensities(texts) == Scope(cs)
    && (forall k :: 0 <= k < |texts| ==> IsCard(texts[k]) && texts[k].intensity in sources && sources[texts[k].intensity] == texts[k].source)
    && (exists k :: 0 <= k < |texts| && texts[k].source == AI)
    && (cs.mode == REGENERATE ==> forall k :: 0 <= k < |texts| ==> texts[k].source == AI)
    && (forall k :: 0 <= k < |texts| && texts[k].source == AI ==> Vouched(rounds, texts[k]))
  }

  /** A sentence is present exactly when the case needs one; a fixed one is never changed, any other is on
      the allowed list or the fallback. */
  ghost predicate DecisionSound(cs: Case, env: Env, d: Option<Decision>) {
    && (d.Some? <==> NeedsSentence(cs))
    && (d.Some? ==> SentenceOrigin(cs, env, d.value.sentence))
  }

  predicate SentenceOrigin(cs: Case, env: Env, sentence: string) {
    match FixedBy(env)
    case Some(fixed) => sentence == fixed.sentence
    case None => sentence == cs.fallback || exists k :: 0 <= k < |cs.allowed| && cs.allowed[k].code == sentence
  }

  function FixedBy(env: Env): Option<Decision> {
    match env.begin
    case Begun(_, fixed) => fixed
    case _ => None
  }

  ghost predicate RequestSound(cs: Case, env: Env, rounds: seq<EvalRound>, q: Request) {
    && q.hash == Hash(q.draft, q.decision)
    && DecisionSound(cs, env, q.decision)
    && E.Accepts(q.evaluation, Scope(cs))
    && DraftSound(cs, rounds, q.draft.texts, q.sources)
    && DecisionCleared(rounds, q.hash)
  }

  ghost predicate RequestsSound(cs: Case, env: Env, lg: Log) {
    forall k :: 0 <= k < |lg.requests| ==> RequestSound(cs, env, lg.rounds, lg.requests[k])
  }

  // ----- bookkeeping of calls -----

  /** `writers` visits of the writers and `number` evaluator rounds lie behind; no index was used twice. */
  predicate CallsSound(cs: Case, lg: Log, writers: nat, number: nat) {
    && Distinct(lg.writerCalls) && |lg.writerCalls| <= |Scope(cs)| * writers && (forall c :: c in lg.writerCalls ==> c < 3 * writers)
    && Distinct(lg.evalCalls) && |lg.evalCalls| <= 2 * number && (forall c :: c in lg.evalCalls ==> c < 2 * number)
  }

  lemma MoreRoom(cs: Case, lg: Log, writers: nat, number: nat, moreWriters: nat, moreNumber: nat)
    requires CallsSound(cs, lg, writers, number) && writers <= moreWriters && number <= moreNumber
    ensures CallsSound(cs, lg, moreWriters, moreNumber)
  {
    hide Scope;
    assert |Scope(cs)| * moreWriters == |Scope(cs)| * writers + |Scope(cs)| * (moreWriters - writers);
  }

  /** How often the writers may be asked in one run: once, and once more per rewrite. */
  function Limit(cfg: Config, cs: Case): nat {
    if cs.mode == REGENERATE then 1 else cfg.maxRepair + 1
  }

  /** Rounds that so many evaluator visits can hold: a text retry gives up after the first. */
  function RoundsIn(cs: Case, visits: nat): nat {
    if cs.mode == REGENERATE then visits else 3 * visits
  }

  /** Visits of the writers behind a stage. */
  function WriterVisits(cfg: Config, cs: Case, stage: Stage, st: State): nat {
    if stage in {Begin, Prep, Sentence, Write} then 0
    else if stage == Failing then Limit(cfg, cs)
    else st.repairCount + 1
  }

  /** Evaluator visits that may lie behind a stage; also the requests to finalize. */
  function JudgingVisits(stage: Stage, st: State): nat {
    if stage in {Rewrite, Finish, Failing} then st.repairCount + 1 else st.repairCount
  }

  function RequestsBehind(stage: Stage, st: State): nat {
    if stage in {Rewrite, Failing} then st.repairCount + 1 else st.repairCount
  }

  // ----- the invariant of a run -----

  predicate Sane(cs: Case) {
    Distinct(Scope(cs)) && 1 <= |Scope(cs)| <= 3 && Distinct(cs.targets) && |cs.targets| <= 3
  }

  ghost predicate Counted(cfg: Config, cs: Case, env: Env, stage: Stage, st: State) {
    && st.repairCount <= cfg.maxRepair && (cs.mode == REGENERATE ==> st.repairCount == 0)
    && st.evalRound <= RoundsIn(cs, JudgingVisits(stage, st))
    && CallsSound(cs, st.log, WriterVisits(cfg, cs, stage, st), st.evalRound)
    && RequestsSound(cs, env, st.log) && |st.log.requests| <= RequestsBehind(stage, st)
    && st.log.saved == 0 && st.log.reported == []
    && (!Split(cfg, Scope(cs)) ==> OneCallEach(st.log.rounds))
  }

  /** Before any text was written. */
  predicate Blank(st: State) {
    && st.drafts == map[] && st.sources == map[] && st.kept == map[] && st.invalid == {}
    && st.repairCount == 0 && st.evalRound == 0
  }

  ghost predicate Drafted(cs: Case, env: Env, st: State) {
    && DecisionSound(cs, env, st.decision)
    && DraftsAgree(cs, st.drafts, st.sources) && (forall i :: i in st.invalid ==> i in Scope(cs))
    && (cs.mode == REGENERATE ==> AllAI(st.sources))
    && KeptSound(cs, st.log.rounds, st.kept)
  }

  ghost predicate HasDraft(cs: Case, st: State) {
    st.writerDraft.Some? && Assembled(cs, st.writerDraft.value, st.drafts, st.sources)
  }

  ghost predicate IsJudged(cs: Case, st: State) {
    && HasDraft(cs, st)
    && st.draftHash == Some(Hash(st.writerDraft.value, st.decision))
    && st.evaluation.Some? && E.Accepts(st.evaluation.value, Scope(cs))
    && AllVouched(st.log.rounds, st.drafts)
    && DecisionCleared(st.log.rounds, st.draftHash.value)
  }

  predicate Targeted(cfg: Config, cs: Case, st: State) {
    && cs.mode == INITIAL && st.repairCount < cfg.maxRepair
    && st.repairTargets != [] && Distinct(st.repairTargets) && forall i :: i in st.repairTargets ==> i in Scope(cs)
  }

  /** The decision before the sentencing node: present only when fixed. */
  ghost predicate Undecided(cs: Case, env: Env, st: State) {
    && (st.fixed <==> st.decision.Some?)
    && (FixedBy(env).Some? <==> st.fixed)
    && (st.decision.Some? ==> DecisionSound(cs, env, st.decision))
    && (cs.mode == REGENERATE && NeedsSentence(cs) ==> st.fixed)
  }

  ghost predicate Inv(cfg: Config, cs: Case, env: Env, stage: Stage, st: State) {
    match stage
    case Begin => st == InitialState()
    case End(ending) => Ended(cfg, cs, env, ending, st)
    case _ => Counted(cfg, cs, env, stage, st) && Local(cfg, cs, env, stage, st) && (stage != Failing ==> Sane(cs))
  }

  ghost predicate Local(cfg: Config, cs: Case, env: Env, stage: Stage, st: State) {
    match stage
    case Prep => Blank(st) && Undecided(cs, env, st)
    case Sentence => Blank(st) && Undecided(cs, env, st) && !st.fixed && NeedsSentence(cs)
    case Write => Blank(st) && DecisionSound(cs, env, st.decision)
    case Gate => Drafted(cs, env, st)
    case Validate => Drafted(cs, env, st)
    case Judging => Drafted(cs, env, st) && HasDraft(cs, st)
    case Rewrite => Drafted(cs, env, st) && Targeted(cfg, cs, st)
    case Finish => Drafted(cs, env, st) && IsJudged(cs, st)
    case Failing => st.failure.Some?
    case _ => true
  }

  /** Saving and reporting a failure exclude each other, and neither guard in front of finalize ever fires. */
  predicate Outcome(ending: Ending, lg: Log) {
    && lg.saved == (if ending == Saved then 1 else 0)
    && |lg.reported| == (if ending == Reported then 1 else 0)
    && ending != Crashed(NotEvaluated) && ending != Crashed(HashMismatch)
    && (ending == Saved ==> lg.requests != [])
  }

  /** What a run did, whatever came of it: every request was sound, rewrites and calls stayed within their
      limits, and no two calls shared an index. */
  ghost predicate RunFacts(cfg: Config, cs: Case, env: Env, st: State) {
    && RequestsSound(cs, env, st.log)
    && st.repairCount <= cfg.maxRepair && (cs.mode == REGENERATE ==> st.repairCount == 0)
    && |st.log.requests| <= Limit(cfg, cs)
    && CallsSound(cs, st.log, Limit(cfg, cs), RoundsIn(cs, Limit(cfg, cs)))
    && (!Split(cfg, Scope(cs)) ==> OneCallEach(st.log.rounds))
  }

  ghost predicate Ended(cfg: Config, cs: Case, env: Env, ending: Ending, st: State) {
    Outcome(ending, st.log) && RunFacts(cfg, cs, env, st)
  }

  /** The order in which stages may follow each other between two rewrites. */
  function Rank(stage: Stage): nat {
    match stage
    case Begin => 10
    case Prep => 9
    case Sentence => 8
    case Write => 7
    case Gate => 6
    case Validate => 5
    case Judging => 4
    case Finish => 3
    case Rewrite => 2
    case Failing => 1
    case End(_) => 0
  }

  /** Every edge either uses up a rewrite or moves down the order: the measure that ends every run. */
  predicate Down(stage: Stage, st: State, next: Stage, st': State) {
    st'.repairCount > st.repairCount || (st'.repairCount == st.repairCount && Rank(next) < Rank(stage))
  }
}
