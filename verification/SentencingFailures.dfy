/** Why a run of the sentencing graph reports a failure: every code has its cause, told from the snapshot, the clock and
    the answers alone. */
module SentencingFailures {
  import opened Drafts
  import opened Budget
  import opened SentenceState
  import opened SentenceAssembly
  import opened SentenceWriter
  import opened SentenceEvaluator
  import opened SentenceJudging
  import opened SentencingGraph
  import opened SentencingRun
  import E = EvaluationReport

  // ----- the causes, stage by stage -----

  /** What was requested, or the sentence the backend fixed, does not fit the case. */
  predicate DoesNotFit(cs: Case, fixed: Option<Decision>) {
    || (fixed.Some? && !(cs.result.Guilty? && cs.spent))
    || (cs.mode == REGENERATE && cs.result.Guilty? && cs.spent && fixed.None?)
    || (cs.mode == REGENERATE && cs.requested.Some? && exists i :: i in cs.requested.value && i !in cs.targets)
  }

  /** A writer that still had time was told that the epochs have moved. */
  predicate WriterInvalidated(cfg: Config, env: Env, expires: real, offset: nat, asked: seq<Intensity>, start: nat) {
    exists k :: 0 <= k < |asked| && env.clock(start + k) + cfg.caps.evaluator + 0.5 < expires && env.write(offset, asked[k]) == WriteInvalidated
  }

  predicate HasAIText(st: State, i: Intensity) {
    i in st.sources && st.sources[i] == AI
  }

  /** No text came from the writers at all, or in a text retry not every one. */
  predicate TooFewTexts(cs: Case, st: State) {
    && (cs.mode == INITIAL ==> forall i :: i in Scope(cs) ==> !HasAIText(st, i))
    && (cs.mode == REGENERATE ==> Scope(cs) == [] || exists i :: i in Scope(cs) && !HasAIText(st, i))
  }

  predicate WritersCause(cs: Case, st: State, code: FailCode) {
    match code
    case SCHEMA_INVALID =>
      if TooFewTexts(cs, st) then st.invalid != {} && forall i :: i in Scope(cs) ==> HasAIText(st, i) || i in st.invalid
      else exists i :: i in Scope(cs) && i !in st.drafts
    case BUDGET_EXCEEDED => TooFewTexts(cs, st) && BUDGET in st.writerErrors
    case DEADLINE_EXCEEDED => TooFewTexts(cs, st) && BUDGET !in st.writerErrors && (st.skipped || TIMEOUT in st.writerErrors)
    case VENDOR_UNAVAILABLE => TooFewTexts(cs, st) && BUDGET !in st.writerErrors && TIMEOUT !in st.writerErrors && !st.skipped
    case _ => false
  }

  predicate BadAt(cfg: Config, st: State, i: Intensity) {
    i in st.drafts && Bad(cfg, st.labels, st.drafts[i])
  }

  /** The rules refuse the set: a bad text in a text retry or without a template, or no good AI text; or a template that
      is there, or would have to be, is itself bad. */
  predicate RulesCause(cfg: Config, cs: Case, st: State, code: FailCode) {
    match code
    case EVAL_FAILED =>
      || (cs.mode == REGENERATE && exists i :: BadAt(cfg, st, i))
      || (exists i :: BadAt(cfg, st, i) && TemplateFor(cfg, st.decision, i).None?)
      || (forall i :: i in st.drafts && HasAIText(st, i) ==> BadAt(cfg, st, i))
    case SCHEMA_INVALID =>
      || !Covers(cs, st.sources)
      || (exists i :: BadAt(cfg, st, i) && ((i in st.sources && st.sources[i] == TEMPLATE)
                                            || (TemplateFor(cfg, st.decision, i).Some? && Bad(cfg, st.labels, TemplateFor(cfg, st.decision, i).value))))
    case _ => false
  }

  /** How a round of the evaluator ends a visit. */
  predicate RoundCause(r: RoundResult, code: FailCode) {
    match code
    case EVIDENCE_INVALIDATED => r.RoundInvalidated?
    case DEADLINE_EXCEEDED => r.RoundSkipped?
    case BUDGET_EXCEEDED => r.RoundFailed? && BUDGET in r.errors
    case VENDOR_UNAVAILABLE => r.RoundFailed? && BUDGET !in r.errors && (DEGRADED in r.errors || AUTH in r.errors)
    case EVAL_FAILED => r.RoundOk? || (r.RoundFailed? && BUDGET !in r.errors && DEGRADED !in r.errors && AUTH !in r.errors)
    case _ => false
  }

  /** Some turn of the visit ended it for this code; a full round only did when its verdicts do not pass. */
  ghost predicate JudgingCause(cfg: Config, cs: Case, env: Env, st: State, code: FailCode) {
    exists attempt, start, d, number, r, report, verdicts, t ::
      && TurnGoes(cfg, cs, env, st, attempt, start, d, number, r, report, verdicts, t)
      && RoundCause(r, code) && (r.RoundOk? ==> !Passes(Scope(cs), r.output, verdicts))
  }

  /** The epochs moved before sending, or the backend says so, or it rejects what cannot be written again. */
  predicate SendingCause(env: Env, st: State, code: FailCode) {
    var n := |st.log.requests|;
    match code
    case EVIDENCE_INVALIDATED => env.stale(n) || env.finalize(n).Invalid409?
    case SCHEMA_INVALID => !env.stale(n) && env.finalize(n).Rejected422?
    case _ => false
  }

  ghost predicate Cause(cfg: Config, cs: Case, env: Env, stage: Stage, st: State, code: FailCode) {
    match stage
    case Begin => code == FailCode.SCHEMA_INVALID && env.begin.Begun? && DoesNotFit(cs, env.begin.fixed)
    case Prep => code == EVIDENCE_INVALIDATED && env.prep.None? && env.dossier.DossierInvalidated?
    case Sentence => code == EVIDENCE_INVALIDATED && env.clock(st.tick) < st.expires && env.sentence.SentenceInvalidated?
    case Write => code == EVIDENCE_INVALIDATED && WriterInvalidated(cfg, env, st.expires, 0, Scope(cs), st.tick)
    case Rewrite => code == EVIDENCE_INVALIDATED && WriterInvalidated(cfg, env, st.expires, st.repairCount + 1, st.repairTargets, st.tick)
    case Gate => WritersCause(cs, st, code)
    case Validate => RulesCause(cfg, cs, st, code)
    case Judging => JudgingCause(cfg, cs, env, st, code)
    case Finish => SendingCause(env, st, code)
    case _ => false
  }

  // ----- every step into failure has its cause -----

  lemma BeginFails(cfg: Config, cs: Case, env: Env, st: State, next: Stage, st': State)
    requires BeginGoes(cfg, cs, env, st, next, st')
    ensures next == Failing <==> env.begin.Begun? && DoesNotFit(cs, env.begin.fixed)
    ensures next == Failing ==> st'.failure == Some(FailCode.SCHEMA_INVALID)
  {
    if cs.requested.Some? {
      var requested := cs.requested.value;
      assert forall i :: i in requested <==> exists k :: 0 <= k < |requested| && requested[k] == i;
    }
  }

  lemma SentencingFails(cfg: Config, cs: Case, env: Env, st: State, next: Stage, st': State)
    requires Positive(cfg.caps) && cs.allowed != [] && SentencingGoes(cfg, cs, env, st, next, st')
    ensures next == Failing <==> env.clock(st.tick) < st.expires && env.sentence.SentenceInvalidated?
    ensures next == Failing ==> st'.failure == Some(EVIDENCE_INVALIDATED)
  {
    NodesGetTheirTime(cfg.caps, st.expires, env.clock(st.tick));
    hide NodeTimeout, ParseSentencing;
  }

  lemma InvalidatedIff(cfg: Config, env: Env, expires: real, offset: nat, asked: seq<Intensity>, start: nat)
    requires Positive(cfg.caps)
    ensures AnyInvalidated(OutcomesOf(cfg, env, expires, offset, asked, start)) <==> WriterInvalidated(cfg, env, expires, offset, asked, start)
  {
    var outcomes := OutcomesOf(cfg, env, expires, offset, asked, start);
    forall k | 0 <= k < |asked|
      ensures outcomes[k].Invalidated? <==> env.clock(start + k) + cfg.caps.evaluator + 0.5 < expires && env.write(offset, asked[k]) == WriteInvalidated
    {
      NodesGetTheirTime(cfg.caps, expires, env.clock(start + k));
      hide NodeTimeout, IsCard;
    }
    hide OutcomesOf, WriteOne, NodeTimeout;
  }

  lemma WritersFail(cfg: Config, cs: Case, env: Env, st: State, next: Stage, st': State)
    requires Positive(cfg.caps) && ValidConfig(cfg) && WriterGoes(cfg, cs, env, st, next, st')
    ensures next == Failing <==> WriterInvalidated(cfg, env, st.expires, 0, Scope(cs), st.tick)
    ensures next == Failing ==> st'.failure == Some(EVIDENCE_INVALIDATED)
  {
    InvalidatedIff(cfg, env, st.expires, 0, Scope(cs), st.tick);
    hide OutcomesOf, AnyInvalidated, WriterInvalidated, Scope, Wrote, WriterCalls;
  }

  lemma RewritersFail(cfg: Config, cs: Case, env: Env, st: State, next: Stage, st': State)
    requires Positive(cfg.caps) && ValidConfig(cfg) && (forall i :: i in st.repairTargets ==> i in cs.targets) && RewriteGoes(cfg, cs, env, st, next, st')
    ensures next == Failing <==> WriterInvalidated(cfg, env, st.expires, st.repairCount + 1, st.repairTargets, st.tick)
    ensures next == Failing ==> st'.failure == Some(EVIDENCE_INVALIDATED)
  {
    hide OutcomesOf, AnyInvalidated, WriterInvalidated, Wrote, WriterCalls, AfterRewrite, ValidConfig;
    InvalidatedIff(cfg, env, st.expires, st.repairCount + 1, st.repairTargets, st.tick);
  }

  lemma GateFails(cfg: Config, cs: Case, env: Env, st: State, next: Stage, st': State)
    requires GateGoes(cfg, cs, env, st, next, st') && next == Failing
    ensures st'.failure.Some? && WritersCause(cs, st, st'.failure.value)
  {
    WritersBlame(st.writerErrors, st.skipped);
    ListedAI(Scope(cs), st);
    hide JoinRepairs, WriterFailureCode, Filter, Scope, HasAIText, IsAI;
    assert forall k :: 0 <= k < |Scope(cs)| ==> Scope(cs)[k] in Scope(cs);
    if Scope(cs) != [] {
      assert IsAI(st.sources, Scope(cs)[0]) || !IsAI(st.sources, Scope(cs)[0]);
    }
  }

  lemma ListedAI(scope: seq<Intensity>, st: State)
    ensures (forall i :: i in scope ==> !HasAIText(st, i)) <==> forall k :: 0 <= k < |scope| ==> !IsAI(st.sources, scope[k])
    ensures (exists i :: i in scope && !HasAIText(st, i)) <==> exists k :: 0 <= k < |scope| && !IsAI(st.sources, scope[k])
    ensures (forall i :: i in scope ==> HasAIText(st, i) || i in st.invalid) <==> forall k :: 0 <= k < |scope| ==> IsAI(st.sources, scope[k]) || scope[k] in st.invalid
  {
    assert forall i :: HasAIText(st, i) == IsAI(st.sources, i);
    hide HasAIText, IsAI;
    assert forall k :: 0 <= k < |scope| ==> scope[k] in scope;
  }

  lemma RulesFail(cfg: Config, cs: Case, env: Env, st: State, next: Stage, st': State)
    requires ValidateGoes(cfg, cs, env, st, next, st') && next == Failing
    ensures st'.failure.Some? && RulesCause(cfg, cs, st, st'.failure.value)
  {
    hide AssemblyGoes, RulesCause, Trimmings, Assembled, AcceptedFrom, ExactlyBad, MayRewriteBad, DraftsAgree;
    var a, tick: nat :|
      && next == AssemblyRoute(a) && st' == AfterAssembly(st, tick, a)
      && AssemblyGoes(cfg, cs, st.labels, st.drafts, st.sources, st.decision, MayRewriteBad(cfg, cs, st, env.clock(st.tick), st.drafts), a);
    RulesRefuse(cfg, cs, st, MayRewriteBad(cfg, cs, st, env.clock(st.tick), st.drafts), a);
  }

  lemma RulesRefuse(cfg: Config, cs: Case, st: State, mayRewrite: bool, a: Assembly)
    requires AssemblyGoes(cfg, cs, st.labels, st.drafts, st.sources, st.decision, mayRewrite, a) && a.Failed?
    ensures RulesCause(cfg, cs, st, FailureOf(a.why))
  {
    hide Bad, TemplateFor, Scope, Covers;
    assert forall i :: BadAt(cfg, st, i) <==> i in st.drafts && Bad(cfg, st.labels, st.drafts[i]);
  }

  lemma TurnFails(cfg: Config, cs: Case, env: Env, st: State, attempt: nat, start: nat, d: Desk, number: nat,
                  r: RoundResult, report: E.Report, verdicts: map<Intensity, E.Entry>, t: Turn, code: FailCode)
    requires TurnGoes(cfg, cs, env, st, attempt, start, d, number, r, report, verdicts, t)
    requires t == Stop(EvalFailed(code)) || (t == Stop(EvalStale) && code == EVIDENCE_INVALIDATED)
    ensures RoundCause(r, code) && (r.RoundOk? ==> !Passes(Scope(cs), r.output, verdicts))
  {
    hide RoundGoes, Passes, Verdicts, ReportOf, EvaluatorFailureCode, Scope, Reaction;
    match r
    case RoundInvalidated =>
    case RoundSkipped =>
    case RoundFailed(errors) => EvaluatorBlames(errors);
    case RoundOk(output, _) =>
      if !Passes(Scope(cs), output, verdicts) && attempt != EVAL_ROUNDS - 1 && cs.mode == INITIAL {
        ReactionFails(cfg, cs, st, env.clock(start + |Groups(cfg, Asked(cs, d))|), d.drafts, d.sources, d.decision, verdicts,
                      E.Hopeless(report, Scope(cs)), !E.Passing(report.reasonCheck), t);
      }
  }

  lemma ReactionFails(cfg: Config, cs: Case, st: State, now: real, drafts: map<Intensity, Draft>, sources: map<Intensity, Source>,
                      decision: Option<Decision>, verdicts: map<Intensity, E.Entry>, hopeless: bool, reasonFailed: bool, t: Turn)
    requires Reaction(cfg, cs, st, now, drafts, sources, decision, verdicts, hopeless, reasonFailed, t)
    ensures t != Stop(EvalStale) && (t.Stop? && t.update.EvalFailed? ==> t.update.code == EVAL_FAILED)
  {
    hide Scope, PartlyReplaced, Reassembled, Keep, RepairWanted, Unreplaceable, Incomplete, Rejected, NotPassed, IsPassed;
  }

  lemma {:induction false} VisitFails(cfg: Config, cs: Case, env: Env, st: State, attempt: nat, start: nat, d: Desk, done: Visited, v: Visited, code: FailCode)
    requires attempt < EVAL_ROUNDS && Visit(cfg, cs, env, st, attempt, start, d, done, v)
    requires v.update == EvalFailed(code) || (v.update == EvalStale && code == EVIDENCE_INVALIDATED)
    ensures JudgingCause(cfg, cs, env, st, code)
    decreases EVAL_ROUNDS - attempt
  {
    hide TurnGoes, OneRoundMore;
    var r, report, verdicts, t :|
      && TurnGoes(cfg, cs, env, st, attempt, start, d, done.number, r, report, verdicts, t)
      && if t.Stop? then v == OneRoundMore(cfg, cs, env, st, start, d, done, r).(update := t.update)
         else attempt + 1 < EVAL_ROUNDS
              && LaterVisit(cfg, cs, env, st, attempt + 1, start, NextDesk(t), OneRoundMore(cfg, cs, env, st, start, d, done, r), v);
    if t.Stop? {
      TurnFails(cfg, cs, env, st, attempt, start, d, done.number, r, report, verdicts, t, code);
    } else {
      var at: nat :| start <= at && Visit(cfg, cs, env, st, attempt + 1, at, NextDesk(t), OneRoundMore(cfg, cs, env, st, start, d, done, r), v);
      VisitFails(cfg, cs, env, st, attempt + 1, at, NextDesk(t), OneRoundMore(cfg, cs, env, st, start, d, done, r), v, code);
    }
  }

  lemma EvaluatorFails(cfg: Config, cs: Case, env: Env, st: State, next: Stage, st': State)
    requires st.writerDraft.Some? && EvaluatorGoes(cfg, cs, env, st, next, st') && next == Failing
    ensures st'.failure.Some? && JudgingCause(cfg, cs, env, st, st'.failure.value)
  {
    hide Visit, JudgingCause;
    var v :| Visit(cfg, cs, env, st, 0, st.tick, DeskOf(st), NothingDone(st), v)
             && next == UpdateRoute(v.update)
             && st' == AfterUpdate(st, v.update, v.number, st'.tick, st.log.(evalCalls := st.log.evalCalls + v.calls, rounds := st.log.rounds + v.rounds));
    VisitFails(cfg, cs, env, st, 0, st.tick, DeskOf(st), NothingDone(st), v, st'.failure.value);
  }

  lemma SendingFails(cfg: Config, cs: Case, env: Env, st: State, next: Stage, st': State)
    requires FinalizeGoes(cfg, cs, env, st, next, st') && next == Failing
    ensures st'.failure.Some? && SendingCause(env, st, st'.failure.value)
  {
    hide FinalizeGoes, Scope, IsAI;
    if env.stale(|st.log.requests|) {
      StaleIsNotSent(cfg, cs, env, st, next, st');
    } else {
      AnswerDecides(cfg, cs, env, st, next, st');
    }
  }

  lemma StaleIsNotSent(cfg: Config, cs: Case, env: Env, st: State, next: Stage, st': State)
    requires FinalizeGoes(cfg, cs, env, st, next, st') && env.stale(|st.log.requests|)
    ensures next == Failing && st'.failure == Some(EVIDENCE_INVALIDATED) && st'.log == st.log
  {
    hide AfterFinalize, FinalizeRoute, RequestOf;
  }

  /** A step that fails says why, and that is what happened. */
  lemma StepFailsForACause(cfg: Config, cs: Case, env: Env, stage: Stage, st: State, next: Stage, st': State)
    requires ValidCase(cs) && ValidConfig(cfg) && Positive(cfg.caps)
    requires StepGoes(cfg, cs, env, stage, st, next, st') && next == Failing
    ensures st'.failure.Some? && Cause(cfg, cs, env, stage, st, st'.failure.value)
  {
    hide ValidCase, ValidConfig, BeginGoes, SentencingGoes, WriterGoes, RewriteGoes, GateGoes, ValidateGoes, EvaluatorGoes, FinalizeGoes,
         WriterInvalidated, WritersCause, RulesCause, JudgingCause, SendingCause, DoesNotFit, Scope;
    assert cs.allowed != [] by { AllowedIsThere(cs); }
    match stage
    case Begin => BeginFails(cfg, cs, env, st, next, st');
    case Prep =>
    case Sentence => SentencingFails(cfg, cs, env, st, next, st');
    case Write => WritersFail(cfg, cs, env, st, next, st');
    case Gate => GateFails(cfg, cs, env, st, next, st');
    case Validate => RulesFail(cfg, cs, env, st, next, st');
    case Judging => EvaluatorFails(cfg, cs, env, st, next, st');
    case Rewrite => RewritersFail(cfg, cs, env, st, next, st');
    case Finish => SendingFails(cfg, cs, env, st, next, st');
    case Failing =>
    case End(_) =>
  }

  lemma OnlyFailingReports(cfg: Config, cs: Case, env: Env, stage: Stage, st: State, st': State)
    requires ValidCase(cs) && ValidConfig(cfg) && StepGoes(cfg, cs, env, stage, st, End(Reported), st')
    ensures stage == Failing && st.failure.Some? && st'.log.reported == [st.failure.value]
  {
    hide ValidCase, ValidConfig, WriterInvalidated, OutcomesOf, WriterCalls, Wrote, Join, Visit, AfterJoin, AfterUpdate, AfterAssembly, AfterFinalize, Scope,
         AssemblyGoes, AITexts, RepairOpen, RequestOf, Expiry, PresenceBroken, RequestedOutside, NodeTimeout, ParseSentencing, AcceptedFrom, Assembled, Trimmings;
    assert cs.allowed != [] by { AllowedIsThere(cs); }
  }

  /** In every run that ends with a report, the code that is reported is the one of the step that failed, and what
      happened at that step is its cause. */
  lemma ReportedForACause(cfg: Config, cs: Case, env: Env, trace: seq<Moment>)
    requires ValidCase(cs) && ValidConfig(cfg) && Positive(cfg.caps)
    requires Steps(cfg, cs, env, trace) && trace[|trace| - 1].stage == End(Reported)
    ensures |trace| >= 3 && trace[|trace| - 2].stage == Failing
    ensures var failed, code := trace[|trace| - 3], trace[|trace| - 2].state.failure;
            code.Some? && trace[|trace| - 1].state.log.reported == [code.value] && Cause(cfg, cs, env, failed.stage, failed.state, code.value)
  {
    hide StepGoes, Cause, ValidCase, ValidConfig, InitialState;
    var n := |trace| - 1;
    assert StepGoes(cfg, cs, env, trace[n - 1].stage, trace[n - 1].state, trace[n - 1 + 1].stage, trace[n - 1 + 1].state);
    OnlyFailingReports(cfg, cs, env, trace[n - 1].stage, trace[n - 1].state, trace[n].state);
    assert StepGoes(cfg, cs, env, trace[n - 2].stage, trace[n - 2].state, trace[n - 2 + 1].stage, trace[n - 2 + 1].state);
    StepFailsForACause(cfg, cs, env, trace[n - 2].stage, trace[n - 2].state, trace[n - 1].stage, trace[n - 1].state);
  }

  lemma AllowedIsThere(cs: Case)
    requires ValidCase(cs)
    ensures cs.allowed != []
  {}
}
