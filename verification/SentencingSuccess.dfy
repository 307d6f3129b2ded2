/** When everything goes well the graph saves: a run whose writers keep the rules, whose evaluator praises every
    text and whose backend agrees ends with the writers' own texts saved, for whatever else happens around it. */
module SentencingSuccess {
  import opened Drafts
  import opened Budget
  import opened SentenceState
  import opened SentenceAssembly
  import opened SentenceWriter
  import opened SentenceEvaluator
  import opened SentenceJudging
  import opened SentencingGraph
  import opened SentencingRun
  import E = EvaluationReport
  import TextRules

  /** The last clock reading that a run without rewrites takes before its evaluator was asked. */
  const LAST_READING := 11

  // ----- a favourable environment -----

  /** The text the writer of an intensity delivers. */
  function Delivered(env: Env, i: Intensity): Draft
    requires env.write(0, i).Written?
  {
    env.write(0, i).draft.(source := AI)
  }

  /** A card of the asked intensity, with everything around it in order, to which the rules do not object. */
  predicate GoodReply(cfg: Config, env: Env, i: Intensity) {
    var w := env.write(0, i);
    && !DossierLost(env)
    && w.Written? && w.angleAllowed && w.hintsValid && w.draft.intensity == i
    && IsCard(Delivered(env, i)) && !Bad(cfg, LabelsOf(env), Delivered(env, i))
  }

  /** Nothing but praise, and for every text of the group. */
  predicate Praises(output: E.Output, group: seq<Intensity>) {
    && !output.extraKeys
    && (forall e :: e in output.texts ==> e.key.Known? && e.key.i in group && e.pass == E.Verdict(true) && e.violations == [] && e.problems == [])
    && (forall i :: i in group ==> E.Mentions(output.texts, i))
    && output.sentenceCheck == PASSING_CHECK && output.reasonCheck == PASSING_CHECK
  }

  predicate Praised(cfg: Config, env: Env, group: seq<Intensity>) {
    env.evaluate(0, HellCall(cfg, group)).Judged? && Praises(env.evaluate(0, HellCall(cfg, group)).output, group)
  }

  /** Every call of the first round answers, and the joint answer praises every text. */
  predicate JointlyPraised(cfg: Config, cs: Case, env: Env) {
    && (forall g :: 0 <= g < |Groups(cfg, Scope(cs))| ==> env.evaluate(0, HellCall(cfg, Groups(cfg, Scope(cs))[g])).Judged?)
    && Praises(Joint(Answers(cfg, cs, env)), Scope(cs))
  }

  function Answers(cfg: Config, cs: Case, env: Env): (r: seq<Answer>)
    requires forall g :: 0 <= g < |Groups(cfg, Scope(cs))| ==> env.evaluate(0, HellCall(cfg, Groups(cfg, Scope(cs))[g])).Judged?
    ensures |r| == |Groups(cfg, Scope(cs))| && Answered(r)
  {
    var groups := Groups(cfg, Scope(cs));
    seq(|groups|, g requires 0 <= g < |groups| => Ok(Filled(cs, env.evaluate(0, HellCall(cfg, groups[g])).output)))
  }

  predicate InTime(cfg: Config, expires: real, now: real) {
    NodeTimeout(WRITER, cfg.caps, expires, now).Some? && NodeTimeout(EVALUATOR, cfg.caps, expires, now).Some?
  }

  predicate Favourable(cfg: Config, cs: Case, env: Env) {
    && env.begin.Begun? && !RequestedOutside(cs) && !PresenceBroken(cs, env.begin.fixed)
    && !env.sentence.SentenceInvalidated?
    && InTime(cfg, Expiry(cfg, cs, env), env.clock(LAST_READING))
    && (forall i :: i in Scope(cs) ==> GoodReply(cfg, env, i))
    && JointlyPraised(cfg, cs, env)
    && !env.stale(0) && env.finalize(0).Accepted?
  }

  // ----- what holds along a favourable run -----

  predicate Fresh(cfg: Config, cs: Case, env: Env, st: State)
    requires env.begin.Begun?
  {
    && st.expires == Expiry(cfg, cs, env) && st.evalRound == 0 && st.kept == map[] && st.log.requests == [] && st.log.rounds == []
    && (st.decision.Some? <==> NeedsSentence(cs))
  }

  /** Every intensity of the scope has the writer's own text, and nothing else is there. */
  predicate OwnTexts(cs: Case, env: Env, drafts: map<Intensity, Draft>, sources: map<Intensity, Source>) {
    && (forall i :: i in drafts <==> i in Scope(cs)) && (forall i :: i in sources <==> i in Scope(cs))
    && (forall i :: i in sources ==> sources[i] == AI)
    && forall i :: i in drafts ==> env.write(0, i).Written? && drafts[i] == Delivered(env, i)
  }

  /** The texts to be saved: the writers' own, cleaned. */
  predicate CleanTexts(cfg: Config, cs: Case, env: Env, wd: WriterDraft) {
    && !DossierLost(env) && |wd.texts| == |Scope(cs)|
    && forall k :: 0 <= k < |wd.texts| ==>
      env.write(0, Scope(cs)[k]).Written? && wd.texts[k] == TextRules.Cleaned(cfg.lexicon, LabelsOf(env), Delivered(env, Scope(cs)[k]))
  }

  /** One request was sent, with the writers' own texts, after one round. */
  predicate SavedOwnTexts(cfg: Config, cs: Case, env: Env, lg: Log) {
    && |lg.requests| == 1 && CleanTexts(cfg, cs, env, lg.requests[0].draft)
    && OnRecord(cfg, cs, env, lg.rounds, lg.requests[0].draft.texts)
  }

  /** The one round of the run is on record: who was shown which texts and answered what. */
  predicate OnRecord(cfg: Config, cs: Case, env: Env, rounds: seq<EvalRound>, texts: seq<Draft>) {
    var groups := Groups(cfg, Scope(cs));
    && |rounds| == 1 && |rounds[0].calls| == |groups|
    && forall g :: 0 <= g < |groups| ==>
      && env.evaluate(0, HellCall(cfg, groups[g])).Judged?
      && rounds[0].calls[g] == CallOf(cfg, texts, groups[g], Filled(cs, env.evaluate(0, HellCall(cfg, groups[g])).output))
  }

  predicate Smooth(cfg: Config, cs: Case, env: Env, stage: Stage, st: State)
    requires env.begin.Begun? && !DossierLost(env)
  {
    match stage
    case Begin => st == InitialState()
    case Prep => st == InitialState().(tick := 2, expires := Expiry(cfg, cs, env), decision := env.begin.fixed, fixed := env.begin.fixed.Some?)
    case Sentence => st == InitialState().(tick := 2, expires := Expiry(cfg, cs, env), labels := LabelsOf(env)) && NeedsSentence(cs)
    case Write => Fresh(cfg, cs, env, st) && st.tick <= 3 && st.labels == LabelsOf(env) && st.drafts == map[] && st.sources == map[] && st.invalid == {}
    case Gate => Fresh(cfg, cs, env, st) && st.tick <= 6 && st.labels == LabelsOf(env) && OwnTexts(cs, env, st.drafts, st.sources) && st.invalid == {}
    case Validate => Fresh(cfg, cs, env, st) && st.tick <= 8 && st.labels == LabelsOf(env) && OwnTexts(cs, env, st.drafts, st.sources)
    case Judging => Fresh(cfg, cs, env, st) && st.tick <= 10 && st.writerDraft.Some? && CleanTexts(cfg, cs, env, st.writerDraft.value)
    case Finish =>
      && st.log.requests == [] && st.writerDraft.Some? && CleanTexts(cfg, cs, env, st.writerDraft.value)
      && OnRecord(cfg, cs, env, st.log.rounds, st.writerDraft.value.texts)
    case End(ending) => ending == Saved && SavedOwnTexts(cfg, cs, env, st.log)
    case _ => false
  }

  lemma EarlierIsInTime(cfg: Config, env: Env, expires: real, early: nat, late: nat)
    requires Monotone(env.clock) && early <= late && InTime(cfg, expires, env.clock(late))
    ensures InTime(cfg, expires, env.clock(early))
  {
    assert env.clock(early) <= env.clock(late);
  }

  lemma SmoothBegin(cfg: Config, cs: Case, env: Env, st: State, next: Stage, st': State)
    requires Favourable(cfg, cs, env) && !DossierLost(env) && Smooth(cfg, cs, env, Begin, st) && BeginGoes(cfg, cs, env, st, next, st')
    ensures Smooth(cfg, cs, env, next, st')
  {
    hide Scope, GoodReply, JointlyPraised, InTime, Expiry, Groups;
  }

  lemma SmoothPrep(cfg: Config, cs: Case, env: Env, st: State, next: Stage, st': State)
    requires Favourable(cfg, cs, env) && !DossierLost(env) && Smooth(cfg, cs, env, Prep, st) && PrepareGoes(cs, env, st, next, st')
    ensures Smooth(cfg, cs, env, next, st')
  {
    hide Scope, GoodReply, JointlyPraised, InTime, Expiry, Groups;
  }

  lemma SmoothSentence(cfg: Config, cs: Case, env: Env, st: State, next: Stage, st': State)
    requires cs.allowed != [] && Favourable(cfg, cs, env) && !DossierLost(env)
    requires Smooth(cfg, cs, env, Sentence, st) && SentencingGoes(cfg, cs, env, st, next, st')
    ensures Smooth(cfg, cs, env, next, st')
  {
    hide Scope, GoodReply, JointlyPraised, InTime, Expiry, Groups, ParseSentencing;
  }

  // ----- the writers -----

  lemma GoodOutcomes(cfg: Config, cs: Case, env: Env, st: State, k: nat)
    requires Monotone(env.clock) && Favourable(cfg, cs, env) && |Scope(cs)| <= 3 && k < |Scope(cs)|
    requires st.expires == Expiry(cfg, cs, env) && st.tick <= 3
    ensures var o := OutcomesOf(cfg, env, st.expires, 0, Scope(cs), st.tick)[k];
            GoodReply(cfg, env, Scope(cs)[k]) && o.AIText? && o.draft == Delivered(env, Scope(cs)[k])
  {
    hide Scope, Bad, IsCard, Expiry, Groups;
    assert Scope(cs)[k] in Scope(cs);
    EarlierIsInTime(cfg, env, st.expires, st.tick + k, LAST_READING);
  }

  lemma SmoothWrite(cfg: Config, cs: Case, env: Env, st: State, next: Stage, st': State)
    requires ValidConfig(cfg) && Monotone(env.clock) && Sane(cs) && Favourable(cfg, cs, env) && !DossierLost(env)
    requires Smooth(cfg, cs, env, Write, st) && WriterGoes(cfg, cs, env, st, next, st')
    ensures Smooth(cfg, cs, env, next, st')
  {
    hide Scope, ValidConfig, OutcomesOf, WriterCalls, Merged, Favourable, Expiry;
    var outcomes := OutcomesOf(cfg, env, st.expires, 0, Scope(cs), st.tick);
    forall k | 0 <= k < |Scope(cs)|
      ensures GoodReply(cfg, env, Scope(cs)[k]) && outcomes[k].AIText? && outcomes[k].draft == Delivered(env, Scope(cs)[k])
    {
      GoodOutcomes(cfg, cs, env, st, k);
    }
    hide GoodReply;
    assert next == Gate;
    WrittenTexts(cfg, cs, env, st, outcomes, Board(st'));
  }

  lemma WrittenTexts(cfg: Config, cs: Case, env: Env, st: State, outcomes: seq<Outcome>, now: Fanned)
    requires ValidConfig(cfg) && st.drafts == map[] && st.sources == map[] && st.invalid == {}
    requires |outcomes| == |Scope(cs)| && Owned(Scope(cs), outcomes) && Merged(cfg, cs, st.decision, Scope(cs), outcomes, Board(st), now)
    requires forall k :: 0 <= k < |outcomes| ==> env.write(0, Scope(cs)[k]).Written? && outcomes[k].AIText? && outcomes[k].draft == Delivered(env, Scope(cs)[k])
    ensures OwnTexts(cs, env, now.drafts, now.sources) && now.invalid == {}
  {
    hide Scope, ValidConfig, Delivered;
    var scope := Scope(cs);
    assert scope[..|outcomes|] == scope;
    forall i ensures i in now.drafts <==> i in scope
      ensures i in now.sources <==> i in scope
      ensures i in scope ==> now.sources[i] == AI && env.write(0, i).Written? && now.drafts[i] == Delivered(env, i)
      ensures i !in now.invalid
    {
      if i in scope {
        var k :| 0 <= k < |scope| && scope[k] == i;
        assert Placed(now.drafts, now.sources, scope[k], TextFrom(cfg, cs, st.decision, outcomes[k], scope[k]));
      } else {
        assert SameAt(Board(st), now, i);
      }
    }
  }

  // ----- the gate and the rules -----

  lemma SmoothGate(cfg: Config, cs: Case, env: Env, st: State, next: Stage, st': State)
    requires Sane(cs) && env.begin.Begun? && !DossierLost(env)
    requires Smooth(cfg, cs, env, Gate, st) && GateGoes(cfg, cs, env, st, next, st')
    ensures Smooth(cfg, cs, env, next, st')
  {
    hide Scope, Expiry, Delivered, NodeTimeout, WriterFailureCode;
    assert forall k :: 0 <= k < |Scope(cs)| ==> Scope(cs)[k] in Scope(cs) && IsAI(st.sources, Scope(cs)[k]);
    assert IsAI(st.sources, Scope(cs)[0]);
  }

  lemma SmoothValidate(cfg: Config, cs: Case, env: Env, st: State, next: Stage, st': State)
    requires Sane(cs) && Favourable(cfg, cs, env) && !DossierLost(env)
    requires Smooth(cfg, cs, env, Validate, st) && ValidateGoes(cfg, cs, env, st, next, st')
    ensures Smooth(cfg, cs, env, next, st')
  {
    hide Scope, Expiry, Delivered, Bad, TextRules.Cleaned, MayRewriteBad, AssemblyGoes, AcceptedFrom, Trimmings, ExactlyBad, Assembled;
    var a, tick: nat :|
      && next == AssemblyRoute(a) && st' == AfterAssembly(st, tick, a) && st.tick < tick <= st.tick + 2
      && AssemblyGoes(cfg, cs, st.labels, st.drafts, st.sources, st.decision, MayRewriteBad(cfg, cs, st, env.clock(st.tick), st.drafts), a)
      && (a.Repair? ==> ExactlyBad(cfg, st.labels, st.drafts, a.targets))
      && (a.Ready? ==> Assembled(cs, a.writerDraft, a.drafts, a.sources) && AcceptedFrom(cfg, cs, st.labels, st.decision, st.drafts, st.sources, a))
      && Trimmings(cs, st, st.decision, a);
    OwnTextsAreReady(cfg, cs, env, st, MayRewriteBad(cfg, cs, st, env.clock(st.tick), st.drafts), a);
    OwnTextsComeClean(cfg, cs, env, st, a);
  }

  lemma OwnTextsAreReady(cfg: Config, cs: Case, env: Env, st: State, mayRewrite: bool, a: Assembly)
    requires Sane(cs) && Favourable(cfg, cs, env) && !DossierLost(env) && st.labels == LabelsOf(env) && OwnTexts(cs, env, st.drafts, st.sources)
    requires AssemblyGoes(cfg, cs, st.labels, st.drafts, st.sources, st.decision, mayRewrite, a)
    ensures a.Ready?
  {
    hide Scope, Bad, IsCard, Expiry, Groups, JointlyPraised, InTime, Stuck, StuckBecause, BadTemplate, GoodAI;
    assert forall i :: i in st.drafts ==> GoodReply(cfg, env, i);
    assert Scope(cs)[0] in Scope(cs);
    assert Scope(cs)[0] in st.sources;
  }

  lemma OwnTextsComeClean(cfg: Config, cs: Case, env: Env, st: State, a: Assembly)
    requires Favourable(cfg, cs, env) && !DossierLost(env) && st.labels == LabelsOf(env) && OwnTexts(cs, env, st.drafts, st.sources)
    requires a.Ready? && Assembled(cs, a.writerDraft, a.drafts, a.sources) && AcceptedFrom(cfg, cs, st.labels, st.decision, st.drafts, st.sources, a)
    ensures CleanTexts(cfg, cs, env, a.writerDraft)
  {
    hide Scope, Bad, IsCard, Expiry, Groups, JointlyPraised, InTime, TextRules.Cleaned, TemplateFor, Delivered, SomeAI, AllAI;
    forall k | 0 <= k < |Scope(cs)|
      ensures env.write(0, Scope(cs)[k]).Written?
      ensures a.writerDraft.texts[k] == TextRules.Cleaned(cfg.lexicon, LabelsOf(env), Delivered(env, Scope(cs)[k]))
    {
      assert Scope(cs)[k] in Scope(cs) && GoodReply(cfg, env, Scope(cs)[k]) && Scope(cs)[k] in st.drafts;
    }
  }

  // ----- the evaluator -----

  lemma FirstDesk(cs: Case, st: State)
    requires st.writerDraft.Some? && st.kept == map[]
    ensures Asked(cs, DeskOf(st)) == Scope(cs) && Reusable(st.kept, st.writerDraft.value.texts) == map[]
  {
    hide Scope;
    KeepAll(Scope(cs), i => i !in Reusable(st.kept, st.writerDraft.value.texts));
  }

  lemma {:induction false} KeepAll(s: seq<Intensity>, keep: Intensity -> bool)
    requires forall i :: i in s ==> keep(i)
    ensures Filter(s, keep) == s
  {
    if s != [] {
      assert s == [s[0]] + s[1..];
      KeepAll(s[1..], keep);
    }
  }

  lemma GivenAnswers(cfg: Config, cs: Case, env: Env, expires: real, start: nat)
    requires Monotone(env.clock) && Favourable(cfg, cs, env) && expires == Expiry(cfg, cs, env) && start <= 10
    ensures JointlyPraised(cfg, cs, env) && AnswersOf(cfg, cs, env, expires, Scope(cs), 0, start) == Answers(cfg, cs, env)
  {
    hide Scope, GoodReply, Expiry, Groups, Praises, Filled, HellCall;
    var groups, given, answers := Groups(cfg, Scope(cs)), AnswersOf(cfg, cs, env, expires, Scope(cs), 0, start), Answers(cfg, cs, env);
    forall g | 0 <= g < |groups| ensures given[g] == answers[g] {
      EarlierIsInTime(cfg, env, expires, start + g, LAST_READING);
    }
  }

  lemma PraiseFilled(cs: Case, output: E.Output, group: seq<Intensity>)
    requires Praises(output, group)
    ensures Praises(Filled(cs, output), group)
  {
    hide E.Mentions;
  }

  /** When every call praises the texts it was shown, the joint answer praises them all. */
  lemma PraisedTogether(cfg: Config, cs: Case, env: Env)
    requires forall g :: 0 <= g < |Groups(cfg, Scope(cs))| ==> Praised(cfg, env, Groups(cfg, Scope(cs))[g])
    ensures JointlyPraised(cfg, cs, env)
  {
    hide Scope, Groups, Praises, Filled, HellCall;
    var groups := Groups(cfg, Scope(cs));
    var answers := Answers(cfg, cs, env);
    forall g | 0 <= g < |groups| ensures Praises(answers[g].output, groups[g]) {
      PraiseFilled(cs, env.evaluate(0, HellCall(cfg, groups[g])).output, groups[g]);
    }
    JointPraise(cfg, Scope(cs), answers);
  }

  /** Joint praise of the groups is praise of the scope. */
  lemma JointPraise(cfg: Config, scope: seq<Intensity>, answers: seq<Answer>)
    requires |answers| == |Groups(cfg, scope)| && forall g :: 0 <= g < |answers| ==> answers[g].Ok? && Praises(answers[g].output, Groups(cfg, scope)[g])
    ensures Praises(Joint(answers), scope)
  {
    hide E.Mentions;
    if |answers| == 2 {
      var a, b := answers[0].output, answers[1].output;
      forall i | i in scope ensures E.Mentions(a.texts + b.texts, i) {
        MentionedInEither(a.texts, b.texts, i);
      }
      assert Praises(a, Groups(cfg, scope)[0]) && Praises(b, Groups(cfg, scope)[1]);
    }
  }

  lemma MentionedInEither(a: seq<E.Entry>, b: seq<E.Entry>, i: Intensity)
    ensures E.Mentions(a, i) || E.Mentions(b, i) ==> E.Mentions(a + b, i)
  {
    if E.Mentions(a, i) {
      var k :| 0 <= k < |a| && a[k].key == E.Known(i);
      assert (a + b)[k].key == E.Known(i);
    } else if E.Mentions(b, i) {
      var k :| 0 <= k < |b| && b[k].key == E.Known(i);
      assert (a + b)[|a| + k].key == E.Known(i);
    }
  }

  /** A praised scope passes. */
  lemma PraisePasses(scope: seq<Intensity>, texts: seq<Draft>, output: E.Output, verdicts: map<Intensity, E.Entry>)
    requires Praises(output, scope) && Verdicts(texts, output.texts, map[], verdicts)
    ensures Passes(scope, output, verdicts)
  {
    hide E.Clears, HasTemplate, FromEntries, E.ShapedEntry;
    forall i ensures E.Mentions(output.texts, i) <==> i in scope {
      if E.Mentions(output.texts, i) {
        var k :| 0 <= k < |output.texts| && output.texts[k].key == E.Known(i);
        assert output.texts[k] in output.texts;
      }
    }
    forall i | i in verdicts ensures verdicts[i].pass == E.Verdict(true) && E.ShapedEntry(verdicts[i]) {
      PraisedVerdict(scope, texts, output, verdicts[i], i);
    }
  }

  lemma PraisedVerdict(scope: seq<Intensity>, texts: seq<Draft>, output: E.Output, verdict: E.Entry, i: Intensity)
    requires Praises(output, scope) && FromEntries(texts, output.texts, i, verdict)
    ensures verdict.pass == E.Verdict(true) && E.ShapedEntry(verdict)
  {
    var m :| E.Summarises(m, output.texts, i) && verdict == Final(texts, m);
    forall k | 0 <= k < |output.texts|
      ensures output.texts[k].pass == E.Verdict(true) && output.texts[k].violations == [] && output.texts[k].problems == []
    {
      assert output.texts[k] in output.texts;
    }
    NonEmpty(m.violations);
    NonEmpty(m.problems);
  }

  lemma NonEmpty<T>(s: seq<T>)
    ensures s != [] ==> exists x :: x in s
  {
    if s != [] {
      assert s[0] in s;
    }
  }

  /** The first turn of a favourable visit accepts the draft it was given. */
  lemma FirstTurnAccepts(cfg: Config, cs: Case, env: Env, st: State, r: RoundResult, report: E.Report, verdicts: map<Intensity, E.Entry>, t: Turn)
    requires Monotone(env.clock) && Favourable(cfg, cs, env) && st.writerDraft.Some? && Fresh(cfg, cs, env, st) && st.tick <= 10
    requires TurnGoes(cfg, cs, env, st, 0, st.tick, DeskOf(st), 0, r, report, verdicts, t)
    ensures t.Stop? && t.update.EvalAccepted? && t.update.draft == st.writerDraft.value
    ensures r.RoundOk? && OnRecord(cfg, cs, env, [r.round], st.writerDraft.value.texts)
  {
    hide Scope, Expiry, Groups, Praises, Favourable, AnswersOf, Verdicts, ReportOf, Passes, Reaction, E.Hopeless, Asked, Reusable, BrokenKinds, NeedsSentence, CallOf, Filled,
         HellCall, Joint;
    FirstDesk(cs, st);
    GivenAnswers(cfg, cs, env, st.expires, st.tick);
    assert BrokenKinds(Answers(cfg, cs, env)) == [];
    assert r.RoundOk?;
    FilledTexts(cfg, cs, env);
    PraisePasses(Scope(cs), st.writerDraft.value.texts, r.output, verdicts);
  }

  lemma FilledTexts(cfg: Config, cs: Case, env: Env)
    requires JointlyPraised(cfg, cs, env)
    ensures forall g :: 0 <= g < |Groups(cfg, Scope(cs))| ==>
              Said(Answers(cfg, cs, env)[g]) == Filled(cs, env.evaluate(0, HellCall(cfg, Groups(cfg, Scope(cs))[g])).output)
  {
    hide Scope, Groups, Praises;
  }

  lemma VisitAccepts(cfg: Config, cs: Case, env: Env, st: State, v: Visited)
    requires Monotone(env.clock) && Favourable(cfg, cs, env) && st.writerDraft.Some? && Fresh(cfg, cs, env, st) && st.tick <= 10
    requires Visit(cfg, cs, env, st, 0, st.tick, DeskOf(st), NothingDone(st), v)
    ensures v.update.EvalAccepted? && v.update.draft == st.writerDraft.value
    ensures OnRecord(cfg, cs, env, v.rounds, st.writerDraft.value.texts)
  {
    assert st.evalRound == 0;
    hide Fresh, TurnGoes, Favourable, OneRoundMore, LaterVisit, OnRecord;
    var r, report, verdicts, t :| TurnGoes(cfg, cs, env, st, 0, st.tick, DeskOf(st), 0, r, report, verdicts, t)
      && if t.Stop? then v == OneRoundMore(cfg, cs, env, st, st.tick, DeskOf(st), NothingDone(st), r).(update := t.update)
         else LaterVisit(cfg, cs, env, st, 1, st.tick, NextDesk(t), OneRoundMore(cfg, cs, env, st, st.tick, DeskOf(st), NothingDone(st), r), v);
    FirstTurnAccepts(cfg, cs, env, st, r, report, verdicts, t);
    OneRoundMoreIs(cfg, cs, env, st, st.tick, DeskOf(st), NothingDone(st), r);
    assert [] + [r.round] == [r.round];
  }

  lemma FreshParts(cfg: Config, cs: Case, env: Env, st: State)
    requires Favourable(cfg, cs, env) && Fresh(cfg, cs, env, st)
    ensures env.begin.Begun? && st.log.requests == [] && st.log.rounds == []
  {
    hide Scope, GoodReply, JointlyPraised, InTime, Expiry, Groups;
  }

  lemma AcceptedUpdate(st: State, v: Visited, tick: nat, lg: Log)
    requires v.update.EvalAccepted?
    ensures UpdateRoute(v.update) == Finish
    ensures var st' := AfterUpdate(st, v.update, v.number, tick, lg);
            st'.writerDraft == Some(v.update.draft) && st'.log.requests == lg.requests && st'.log.rounds == lg.rounds
  {}

  lemma SmoothJudging(cfg: Config, cs: Case, env: Env, st: State, next: Stage, st': State)
    requires Monotone(env.clock) && Favourable(cfg, cs, env) && !DossierLost(env)
    requires Smooth(cfg, cs, env, Judging, st) && EvaluatorGoes(cfg, cs, env, st, next, st')
    ensures Smooth(cfg, cs, env, next, st')
  {
    hide Fresh, CleanTexts, Favourable, Visit, AfterUpdate, UpdateRoute, Monotone, DeskOf, OnRecord;
    FreshParts(cfg, cs, env, st);
    var v :| Visit(cfg, cs, env, st, 0, st.tick, DeskOf(st), NothingDone(st), v)
             && next == UpdateRoute(v.update)
             && st' == AfterUpdate(st, v.update, v.number, st'.tick, st.log.(evalCalls := st.log.evalCalls + v.calls, rounds := st.log.rounds + v.rounds));
    VisitAccepts(cfg, cs, env, st, v);
    assert [] + v.rounds == v.rounds;
    AcceptedUpdate(st, v, st'.tick, st.log.(evalCalls := st.log.evalCalls + v.calls, rounds := st.log.rounds + v.rounds));
  }

  lemma SmoothFinish(cfg: Config, cs: Case, env: Env, st: State, next: Stage, st': State)
    requires Favourable(cfg, cs, env) && !DossierLost(env)
    requires Smooth(cfg, cs, env, Finish, st) && FinalizeGoes(cfg, cs, env, st, next, st')
    ensures Smooth(cfg, cs, env, next, st')
  {
    hide Scope, GoodReply, JointlyPraised, InTime, Expiry, Groups, CleanTexts, AITexts, RepairOpen, OnRecord;
  }

  // ----- whole runs -----

  lemma FavourableKeepsDossier(cfg: Config, cs: Case, env: Env)
    requires ValidCase(cs) && Favourable(cfg, cs, env)
    ensures !DossierLost(env) && Sane(cs)
  {
    hide Scope, JointlyPraised, InTime, Expiry, Groups;
    ScopeIsSane(cs);
    TargetsAreFew(cs);
    assert Scope(cs)[0] in Scope(cs);
    assert GoodReply(cfg, env, Scope(cs)[0]);
  }

  lemma SmoothStep(cfg: Config, cs: Case, env: Env, stage: Stage, st: State, next: Stage, st': State)
    requires ValidCase(cs) && ValidConfig(cfg) && Monotone(env.clock) && Favourable(cfg, cs, env) && !DossierLost(env) && Sane(cs)
    requires Smooth(cfg, cs, env, stage, st) && StepGoes(cfg, cs, env, stage, st, next, st')
    ensures Smooth(cfg, cs, env, next, st')
  {
    assert cs.allowed != [];
    hide Favourable, ValidCase, ValidConfig, Monotone, Sane, BeginGoes, PrepareGoes, SentencingGoes, WriterGoes, GateGoes, ValidateGoes, EvaluatorGoes,
         RewriteGoes, FinalizeGoes;
    match stage
    case Begin => SmoothBegin(cfg, cs, env, st, next, st');
    case Prep => SmoothPrep(cfg, cs, env, st, next, st');
    case Sentence => SmoothSentence(cfg, cs, env, st, next, st');
    case Write => SmoothWrite(cfg, cs, env, st, next, st');
    case Gate => SmoothGate(cfg, cs, env, st, next, st');
    case Validate => SmoothValidate(cfg, cs, env, st, next, st');
    case Judging => SmoothJudging(cfg, cs, env, st, next, st');
    case Finish => SmoothFinish(cfg, cs, env, st, next, st');
    case _ =>
  }

  /** Whatever the rest of the environment: a favourable run that ends has saved, with one request after one round, and
      what it saved is the writers' own texts, cleaned, in the order of the scope. `SentencingRun.Run` shows that every run ends. */
  lemma {:induction false} FavourableRunSaves(cfg: Config, cs: Case, env: Env, trace: seq<Moment>)
    requires ValidCase(cs) && ValidConfig(cfg) && Monotone(env.clock) && Favourable(cfg, cs, env) && Steps(cfg, cs, env, trace)
    requires trace[|trace| - 1].stage.End?
    ensures var last := trace[|trace| - 1];
            last.stage == End(Saved) && SavedOwnTexts(cfg, cs, env, last.state.log)
  {
    FavourableKeepsDossier(cfg, cs, env);
    SmoothTo(cfg, cs, env, trace, |trace| - 1);
    hide Favourable, SavedOwnTexts;
  }

  lemma {:induction false} SmoothTo(cfg: Config, cs: Case, env: Env, trace: seq<Moment>, n: nat)
    requires ValidCase(cs) && ValidConfig(cfg) && Monotone(env.clock) && Favourable(cfg, cs, env) && !DossierLost(env) && Sane(cs)
    requires Steps(cfg, cs, env, trace) && n < |trace|
    ensures Smooth(cfg, cs, env, trace[n].stage, trace[n].state)
    decreases n
  {
    hide Favourable, ValidCase, ValidConfig, Monotone, Sane, StepGoes;
    if n > 0 {
      SmoothTo(cfg, cs, env, trace, n - 1);
      SmoothStep(cfg, cs, env, trace[n - 1].stage, trace[n - 1].state, trace[n].stage, trace[n].state);
    }
  }

  // ----- the conditions can be met -----

  function Plain(i: Intensity): Draft {
    Draft(i, "a", [Statement("a", Opinion, [])], "", AI)
  }

  lemma PlainIsCard(i: Intensity)
    ensures IsCard(Plain(i))
  {
    var a := "a";
    assert !White(a[0]) && !LineBreak(a[0]);
  }

  lemma PlainHasNoIssues(lx: TextRules.Lexicon, i: Intensity)
    requires forall i, parts :: lx.hits(i, parts) == []
    ensures TextRules.Cleaned(lx, map[], Plain(i)) == Plain(i) && TextRules.TextIssues(lx, map[], Plain(i)) == []
  {
    hide TextRules.StripIds, White;
    var a, stmts := "a", Plain(i).statement;
    assert a[1..] == "" && !TextRules.HasId(lx, a);
    assert stmts[..0] == [] && stmts[1..] == [];
    assert TextRules.Kept(stmts, map[]) == stmts;
    assert TextRules.Untainted(lx, stmts) == stmts;
    assert TotalLength(stmts) == 1;
  }

  /** A passing entry for each intensity. */
  function PraiseFor(scope: seq<Intensity>): E.Output {
    E.Output(seq(|scope|, k requires 0 <= k < |scope| => E.Entry(E.Known(scope[k]), E.Verdict(true), [], [])), PASSING_CHECK, PASSING_CHECK, false)
  }

  lemma PraiseForPraises(scope: seq<Intensity>)
    ensures Praises(PraiseFor(scope), scope)
  {
    forall i | i in scope ensures E.Mentions(PraiseFor(scope).texts, i) {
      assert PraiseFor(scope).texts[Position(scope, i)].key == E.Known(i);
    }
  }

  function PlainLexicon(): TextRules.Lexicon {
    TextRules.Lexicon((c: char) => IsDigit(c), (c: char) => c == ' ', (i: Intensity, parts: seq<string>) => [])
  }

  function PlainConfig(hellApart: bool): Config {
    Config(0, Caps(1.0, 1.0, 1.0), hellApart, 9.0, PlainLexicon(), (i: Intensity, s: Option<string>) => None, (s: string) => None)
  }

  /** Each call answers with praise for its group. */
  function PlainEnv(hellApart: bool, targets: seq<Intensity>): Env {
    Env((n: nat) => 0.0, Begun(9.0, None), Some(map[]), DossierReady(map[]), SentenceBroken,
        (n: nat, i: Intensity) => Written(Plain(i), true, None, true),
        (n: nat, hell: bool) => Judged(PraiseFor(if hell then [Hell] else Groups(PlainConfig(hellApart), targets)[0])),
        (n: nat) => false, (n: nat) => Accepted)
  }

  lemma PlainReply(hellApart: bool, targets: seq<Intensity>, i: Intensity)
    ensures GoodReply(PlainConfig(hellApart), PlainEnv(hellApart, targets), i)
  {
    hide TextRules.TextIssues, TextRules.Cleaned, IsCard, Groups, PraiseFor;
    PlainIsCard(i);
    PlainHasNoIssues(PlainLexicon(), i);
  }

  lemma PlainPraise(hellApart: bool, targets: seq<Intensity>, g: nat)
    requires g < |Groups(PlainConfig(hellApart), targets)|
    ensures Praised(PlainConfig(hellApart), PlainEnv(hellApart, targets), Groups(PlainConfig(hellApart), targets)[g])
  {
    hide PraiseFor, Praises;
    PraiseForPraises(Groups(PlainConfig(hellApart), targets)[g]);
  }

  /** A favourable run exists for every set of targets, whether or not hell is judged apart. */
  lemma FavourableExists(hellApart: bool, targets: seq<Intensity>) returns (cfg: Config, cs: Case, env: Env)
    requires targets != [] && Distinct(targets)
    ensures cfg.hellApart == hellApart && Scope(cs) == targets
    ensures ValidCase(cs) && ValidConfig(cfg) && Monotone(env.clock) && Favourable(cfg, cs, env)
  {
    hide GoodReply, Praised, JointlyPraised, Groups, PraiseFor;
    cfg, env := PlainConfig(hellApart), PlainEnv(hellApart, targets);
    cs := Case(INITIAL, TextRules.NotGuilty, false, targets, targets[0], None, [TextRules.Allowed("x", 0)], "x");
    forall i ensures GoodReply(cfg, env, i) {
      PlainReply(hellApart, targets, i);
    }
    forall g | 0 <= g < |Groups(cfg, targets)| ensures Praised(cfg, env, Groups(cfg, targets)[g]) {
      PlainPraise(hellApart, targets, g);
    }
    PraisedTogether(cfg, cs, env);
  }
}
