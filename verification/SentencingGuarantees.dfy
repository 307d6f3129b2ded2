/** Consequences of the run invariant, and the exact limits of "every text was judged by the call that saw it". */
module SentencingGuarantees {
  import opened Drafts
  import opened SentenceState
  import opened SentenceAssembly
  import opened SentenceEvaluator
  import opened SentenceJudging
  import opened SentencingGraph
  import opened SentencingRun
  import opened SentencingSuccess
  import E = EvaluationReport
  import TextRules

  /** Unless hell is judged apart beside other intensities, the very call that was shown an AI text cleared it, for
      every request of every run. */
  lemma EveryTextClearedByItsCall(cfg: Config, cs: Case, env: Env, ending: Ending, st: State, q: Request, d: Draft)
    requires Ended(cfg, cs, env, ending, st) && !Split(cfg, Scope(cs))
    requires q in st.log.requests && d in q.draft.texts && d.source == AI
    ensures VouchedByItsCall(st.log.rounds, d)
  {
    hide E.Accepts, DecisionSound, E.Clears, JointEntries, Scope, IsCard;
    var k :| 0 <= k < |st.log.requests| && st.log.requests[k] == q;
    assert RequestSound(cs, env, st.log.rounds, st.log.requests[k]);
    var n :| 0 <= n < |q.draft.texts| && q.draft.texts[n] == d;
    OneCallRoundsVouchAlone(st.log.rounds, d);
  }

  /** A round can be trusted when an intensity cleared by the joint answer was cleared by a call that saw its text. */
  ghost predicate Trustworthy(cfg: Config, texts: seq<Draft>, scope: seq<Intensity>) {
    forall output, round, d ::
      Recorded(cfg, texts, scope, output, round) && d in texts && d.intensity in scope && E.Clears(JointEntries(round.calls), d.intensity)
      ==> ClearedBySeer(round, d)
  }

  ghost predicate ClearedBySeer(round: EvalRound, d: Draft) {
    exists c :: 0 <= c < |round.calls| && d in round.calls[c].seen && E.Clears(round.calls[c].entries, d.intensity)
  }

  /** Exactly the rounds that are not split can be trusted: the answer of the ordinary call may carry an entry
      for hell, and nothing on this side drops it. */
  lemma TrustworthyIffNotSplit(cfg: Config, texts: seq<Draft>, scope: seq<Intensity>)
    requires forall i :: i in scope ==> exists d :: d in texts && d.intensity == i
    ensures Trustworthy(cfg, texts, scope) <==> !Split(cfg, scope)
  {
    hide E.Clears;
    if Split(cfg, scope) {
      var d :| d in texts && d.intensity == Hell;
      var output, round := StrayEntry(cfg, texts, scope, d);
      assert !ClearedBySeer(round, d);
    } else {
      forall output, round, d
        | Recorded(cfg, texts, scope, output, round) && d in texts && d.intensity in scope && E.Clears(JointEntries(round.calls), d.intensity)
        ensures ClearedBySeer(round, d)
      {
        ScopeIsShown(cfg, texts, scope, output, round, d);
        JointOfOne(round.calls);
      }
    }
  }

  /** The counterexample: the ordinary call passes hell unasked, the hell call answers without an entry. */
  lemma StrayEntry(cfg: Config, texts: seq<Draft>, scope: seq<Intensity>, d: Draft) returns (output: E.Output, round: EvalRound)
    requires Split(cfg, scope) && d in texts && d.intensity == Hell
    ensures Recorded(cfg, texts, scope, output, round) && E.Clears(JointEntries(round.calls), Hell) && !ClearedBySeer(round, d)
  {
    hide Groups, TextsOf, E.CheckClears, E.JointlyClear, SentenceChecks, ReasonChecks, JointEntries, E.Clears;
    var stray := E.Entry(E.Known(Hell), E.Verdict(true), [], []);
    var groups := Groups(cfg, scope);
    var first := EvalCall(false, TextsOf(texts, groups[0]), [stray], PASSING_CHECK, PASSING_CHECK);
    var second := EvalCall(true, TextsOf(texts, groups[1]), [], PASSING_CHECK, PASSING_CHECK);
    round := EvalRound([first, second], Hash(WriterDraft(texts, TextRules.NOT_GUILTY, None), None));
    output := E.Output([stray], PASSING_CHECK, PASSING_CHECK, false);
    SplitGroups(cfg, scope);
    PassingChecksClear(round);
    EntriesOfTwo(first, second);
    OneEntryClears(stray, Hell);
    NoEntryClears(Hell);
  }

  lemma PassingChecksClear(round: EvalRound)
    requires forall k :: 0 <= k < |round.calls| ==> round.calls[k].sentence == PASSING_CHECK && round.calls[k].reason == PASSING_CHECK
    ensures E.CheckClears(PASSING_CHECK) && ChecksClear(round)
  {}

  lemma EntriesOfTwo(a: EvalCall, b: EvalCall)
    ensures JointEntries([a, b]) == a.entries + b.entries
  {
    assert [a, b][..1] == [a];
    JointOfOne([a]);
  }

  lemma OneEntryClears(e: E.Entry, i: Intensity)
    requires e.key == E.Known(i) && e.pass == E.Verdict(true)
    ensures E.Clears([e] + [], i)
  {
    assert ([e] + [])[0].key == E.Known(i);
  }

  lemma NoEntryClears(i: Intensity)
    ensures !E.Clears([], i)
  {}

  // ----- the other half, for whole runs -----

  /** The same world, except that the ordinary evaluator call answers for hell too and the hell call for nothing. */
  function StrayEnv(cs: Case, env: Env): Env {
    env.(evaluate := (n: nat, hell: bool) => Judged(PraiseFor(if hell then [] else Scope(cs))))
  }

  lemma SplitGroups(cfg: Config, scope: seq<Intensity>)
    requires Split(cfg, scope)
    ensures |Groups(cfg, scope)| == 2 && !HellCall(cfg, Groups(cfg, scope)[0]) && HellCall(cfg, Groups(cfg, scope)[1])
    ensures Hell !in Groups(cfg, scope)[0]
  {}

  lemma StrayIsPraise(cfg: Config, cs: Case, env: Env)
    requires Split(cfg, Scope(cs))
    ensures JointlyPraised(cfg, cs, StrayEnv(cs, env))
  {
    hide Scope, Groups, HellCall, PraiseFor, Praises, Split;
    SplitGroups(cfg, Scope(cs));
    JoinedWithSilence(cs);
    PraiseForPraises(Scope(cs));
    PraiseFilled(cs, PraiseFor(Scope(cs)), Scope(cs));
  }

  lemma JoinedWithSilence(cs: Case)
    ensures E.MergeReports(Filled(cs, PraiseFor(Scope(cs))), Filled(cs, PraiseFor([]))) == Filled(cs, PraiseFor(Scope(cs)))
  {
    hide Scope;
    assert PraiseFor(Scope(cs)).texts + PraiseFor([]).texts == PraiseFor(Scope(cs)).texts;
  }

  lemma StrayIsFavourable(cfg: Config, cs: Case, env: Env)
    requires Favourable(cfg, cs, env) && Split(cfg, Scope(cs))
    ensures Favourable(cfg, cs, StrayEnv(cs, env))
  {
    hide Scope, Split, JointlyPraised, GoodReply, InTime, Expiry, PraiseFor, Groups;
    StrayIsPraise(cfg, cs, env);
    SameExpiry(cfg, cs, env);
    forall i | i in Scope(cs) ensures GoodReply(cfg, StrayEnv(cs, env), i) {
      SameReply(cfg, cs, env, i);
    }
  }

  lemma SameReply(cfg: Config, cs: Case, env: Env, i: Intensity)
    requires GoodReply(cfg, env, i)
    ensures GoodReply(cfg, StrayEnv(cs, env), i)
  {
    hide Scope, PraiseFor, Bad, IsCard;
  }

  lemma SameExpiry(cfg: Config, cs: Case, env: Env)
    requires env.begin.Begun?
    ensures Expiry(cfg, cs, StrayEnv(cs, env)) == Expiry(cfg, cs, env)
  {
    hide Scope, PraiseFor;
  }

  /** The text for hell in what such a run saves was shown to the hell call only, and that said nothing about it. */
  lemma StrayTextIsUncleared(cfg: Config, cs: Case, env: Env, lg: Log) returns (d: Draft)
    requires Favourable(cfg, cs, StrayEnv(cs, env)) && Split(cfg, Scope(cs)) && SavedOwnTexts(cfg, cs, StrayEnv(cs, env), lg)
    ensures |lg.requests| == 1 && d in lg.requests[0].draft.texts && d.source == AI && d.intensity == Hell && !VouchedByItsCall(lg.rounds, d)
  {
    hide Scope, Split, Favourable, CleanTexts, OnRecord, E.Clears;
    var texts := lg.requests[0].draft.texts;
    var k := HellText(cfg, cs, StrayEnv(cs, env), lg.requests[0].draft);
    d := texts[k];
    CallsOnRecord(cfg, cs, env, lg.rounds, texts);
    NotCleared(Hell);
  }

  lemma HellText(cfg: Config, cs: Case, env: Env, wd: WriterDraft) returns (k: nat)
    requires Favourable(cfg, cs, env) && Split(cfg, Scope(cs)) && CleanTexts(cfg, cs, env, wd)
    ensures k < |wd.texts| && wd.texts[k].source == AI && wd.texts[k].intensity == Hell
  {
    hide Scope, JointlyPraised, InTime, Expiry, Bad, IsCard, TextRules.WithoutIds, Groups;
    k := Position(Scope(cs), Hell);
    assert GoodReply(cfg, env, Hell);
  }

  lemma CallsOnRecord(cfg: Config, cs: Case, env: Env, rounds: seq<EvalRound>, texts: seq<Draft>)
    requires Split(cfg, Scope(cs)) && OnRecord(cfg, cs, StrayEnv(cs, env), rounds, texts)
    ensures |rounds| == 1 && |rounds[0].calls| == 2 && rounds[0].calls[1].entries == []
    ensures forall d :: d in rounds[0].calls[0].seen ==> d.intensity != Hell
  {
    hide Scope, Groups, HellCall, Split, PraiseFor, NeedsSentence;
    SplitGroups(cfg, Scope(cs));
    NoPraise();
  }

  lemma NotCleared(i: Intensity)
    ensures !E.Clears([], i)
  {}

  lemma NoPraise()
    ensures PraiseFor([]).texts == []
  {}

  /** The exact limit, for whole runs: wherever a run can go well, a split scope has a run that saves an AI text which
      the call that was shown it never cleared. */
  method UnclearedRun(cfg: Config, cs: Case, env: Env) returns (st: State, ending: Ending, ghost trace: seq<Moment>, ghost d: Draft)
    requires ValidCase(cs) && ValidConfig(cfg) && Monotone(env.clock) && Favourable(cfg, cs, env) && Split(cfg, Scope(cs))
    ensures Ended(cfg, cs, StrayEnv(cs, env), ending, st) && ending == Saved
    ensures trace != [] && Steps(cfg, cs, StrayEnv(cs, env), trace) && trace[|trace| - 1] == Moment(End(ending), st)
    ensures |st.log.requests| == 1 && d in st.log.requests[0].draft.texts && d.source == AI && d.intensity == Hell && !VouchedByItsCall(st.log.rounds, d)
  {
    hide Ended, Steps, Favourable, Split, ValidCase, ValidConfig, Scope, Monotone, SavedOwnTexts, VouchedByItsCall;
    StrayIsFavourable(cfg, cs, env);
    SameClock(cs, env);
    st, ending, trace := Run(cfg, cs, StrayEnv(cs, env));
    FavourableRunSaves(cfg, cs, StrayEnv(cs, env), trace);
    d := StrayTextIsUncleared(cfg, cs, env, st.log);
  }

  lemma SameClock(cs: Case, env: Env)
    requires Monotone(env.clock)
    ensures Monotone(StrayEnv(cs, env).clock)
  {}

  /** A text retry asks each writer at most once, the evaluator for one round, and sends at most one request. */
  lemma TextRetryIsShort(cfg: Config, cs: Case, env: Env, ending: Ending, st: State)
    requires Ended(cfg, cs, env, ending, st) && cs.mode == REGENERATE
    ensures |st.log.writerCalls| <= |Scope(cs)| && |st.log.evalCalls| <= 2 && |st.log.requests| <= 1
  {
    hide RequestsSound, Scope;
    assert |Scope(cs)| * 1 == |Scope(cs)|;
  }
}
