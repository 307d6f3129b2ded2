/** The deadline along a run: what the gateway promises of single calls, carried to the nodes of the sentencing graph. */
module SentencingDeadline {
  import opened Drafts
  import opened Budget
  import opened SentenceState
  import opened SentenceWriter
  import opened SentenceEvaluator
  import opened SentenceJudging
  import opened SentencingGraph
  import opened SentencingRun
  import Gateway
  import SentenceAssembly

  /** The clock of a run whose writer calls go through the gateway and whose other steps take no time: from the join on,
      up to the reading `until`, it shows when the last writer call was over. `st` is the state the writers start from. */
  ghost predicate Punctual(cfg: Config, cs: Case, env: Env, st: State, worlds: seq<Gateway.World>, until: nat) {
    && |worlds| == |Scope(cs)| && (forall k :: 0 <= k < |worlds| ==> Gateway.ForwardInTime(worlds[k]))
    && exists k :: 0 <= k < |worlds| && LastToEnd(cfg, env, st, worlds[k], k, st.tick + |worlds|, until)
  }

  /** Writer `k` was started, and the readings from `first` to `until` show the end of its call. */
  ghost predicate LastToEnd(cfg: Config, env: Env, st: State, w: Gateway.World, k: nat, first: nat, until: nat) {
    && NodeTimeout(WRITER, cfg.caps, st.expires, env.clock(st.tick + k)).Some?
    && forall n :: first <= n <= until ==> env.clock(n) == Gateway.WriterCall(cfg.caps, st.expires, w, env.clock(st.tick + k)).end
  }

  /** The four moments from the writers to the evaluator, without a rewrite in between. */
  ghost predicate StraightOn(cfg: Config, cs: Case, env: Env, trace: seq<Moment>, n: nat)
    requires ValidCase(cs) && ValidConfig(cfg) && n + 3 < |trace|
  {
    && Steps(cfg, cs, env, trace)
    && trace[n].stage == Write && trace[n + 1].stage == Gate && trace[n + 2].stage == Validate && trace[n + 3].stage == Judging
  }

  lemma WriteStep(cfg: Config, cs: Case, env: Env, st: State, st': State)
    requires ValidConfig(cfg) && WriterGoes(cfg, cs, env, st, Gate, st')
    ensures st'.expires == st.expires && st'.tick == st.tick + |Scope(cs)|
  {
    hide Scope, ValidConfig, OutcomesOf, WriterCalls, AnyInvalidated, Wrote;
  }

  lemma GateStep(cfg: Config, cs: Case, env: Env, st: State, st': State)
    requires GateGoes(cfg, cs, env, st, Validate, st')
    ensures st'.expires == st.expires && st'.tick == st.tick + 2
  {
    hide Join;
  }

  lemma ValidateStep(cfg: Config, cs: Case, env: Env, st: State, st': State)
    requires ValidateGoes(cfg, cs, env, st, Judging, st')
    ensures st'.expires == st.expires && st'.tick > st.tick && st'.writerDraft.Some?
  {
    hide Scope, SentenceAssembly.AssemblyGoes, SentenceAssembly.ExactlyBad, Assembled, SentenceAssembly.AcceptedFrom, SentenceAssembly.Trimmings, SentenceAssembly.MayRewriteBad;
  }

  lemma OnTheWay(cfg: Config, cs: Case, env: Env, trace: seq<Moment>, n: nat)
    requires ValidCase(cs) && ValidConfig(cfg) && n + 3 < |trace| && StraightOn(cfg, cs, env, trace, n)
    ensures var st, later := trace[n].state, trace[n + 3].state;
            later.expires == st.expires && st.tick + |Scope(cs)| < later.tick && later.writerDraft.Some?
  {
    hide Scope, ValidCase, ValidConfig, WriterGoes, GateGoes, ValidateGoes, StepGoes, InitialState;
    var a, b, c, d := trace[n].state, trace[n + 1].state, trace[n + 2].state, trace[n + 3].state;
    TheirSteps(cfg, cs, env, a, b, c, d);
    WriteStep(cfg, cs, env, a, b);
    GateStep(cfg, cs, env, b, c);
    ValidateStep(cfg, cs, env, c, d);
  }

  lemma TheirSteps(cfg: Config, cs: Case, env: Env, a: State, b: State, c: State, d: State)
    requires ValidCase(cs) && ValidConfig(cfg)
    requires StepGoes(cfg, cs, env, Write, a, Gate, b) && StepGoes(cfg, cs, env, Gate, b, Validate, c) && StepGoes(cfg, cs, env, Validate, c, Judging, d)
    ensures WriterGoes(cfg, cs, env, a, Gate, b) && GateGoes(cfg, cs, env, b, Validate, c) && ValidateGoes(cfg, cs, env, c, Judging, d)
  {
    hide Scope, ValidCase, ValidConfig, WriterGoes, GateGoes, ValidateGoes;
  }

  /** With the clock at the end of a started writer call, the evaluator has its full cap, and after it finalize its time. */
  lemma AfterTheWriters(cfg: Config, env: Env, st: State, w: Gateway.World, k: nat, first: nat, until: nat, at: nat, evaluating: Gateway.World)
    requires Positive(cfg.caps) && Gateway.ForwardInTime(w) && Gateway.ForwardInTime(evaluating)
    requires LastToEnd(cfg, env, st, w, k, first, until) && first <= at <= until
    ensures NodeTimeout(EVALUATOR, cfg.caps, st.expires, env.clock(at)) == Some(cfg.caps.evaluator)
    ensures var call := Gateway.Call(evaluating, Gateway.NodeScope(EVALUATOR, cfg.caps, st.expires, cfg.caps.evaluator), env.clock(at));
            Remaining(st.expires, call.end) >= FINALIZE_RESERVE
  {
    hide NodeTimeout, Gateway.WriterCall, Gateway.Call, Gateway.ForwardInTime, Positive;
    assert [w][0] == w && [env.clock(st.tick + k)][0] == env.clock(st.tick + k);
    Gateway.WritersLeaveTimeForTheRest(cfg.caps, st.expires, [w], [env.clock(st.tick + k)], evaluating, env.clock(at));
  }

  /** If any writer was started, the evaluator gets its full cap in the first round, none of its calls is skipped, and
      when a call of it is over there is still the time kept for finalize. */
  lemma FirstRoundHasItsTime(cfg: Config, cs: Case, env: Env, trace: seq<Moment>, n: nat, worlds: seq<Gateway.World>, evaluating: Gateway.World, g: nat)
    requires ValidCase(cs) && ValidConfig(cfg) && n + 3 < |trace| && StraightOn(cfg, cs, env, trace, n) && Positive(cfg.caps)
    requires Punctual(cfg, cs, env, trace[n].state, worlds, trace[n + 3].state.tick + 1) && Gateway.ForwardInTime(evaluating)
    requires var st := trace[n + 3].state; st.writerDraft.Some? ==> g < |Groups(cfg, Asked(cs, DeskOf(st)))|
    ensures var st := trace[n + 3].state;
            && st.writerDraft.Some?
            && NodeTimeout(EVALUATOR, cfg.caps, st.expires, env.clock(st.tick + g)) == Some(cfg.caps.evaluator)
            && !AnswersOf(cfg, cs, env, st.expires, Asked(cs, DeskOf(st)), st.evalRound, st.tick)[g].NotStarted?
            && var call := Gateway.Call(evaluating, Gateway.NodeScope(EVALUATOR, cfg.caps, st.expires, cfg.caps.evaluator), env.clock(st.tick + g));
               Remaining(st.expires, call.end) >= FINALIZE_RESERVE
  {
    hide Scope, ValidCase, ValidConfig, StraightOn, Groups, Asked, NodeTimeout, LastToEnd, Gateway.Call, Gateway.ForwardInTime, Positive;
    OnTheWay(cfg, cs, env, trace, n);
    var st, later := trace[n].state, trace[n + 3].state;
    var k :| 0 <= k < |worlds| && LastToEnd(cfg, env, st, worlds[k], k, st.tick + |worlds|, later.tick + 1);
    AfterTheWriters(cfg, env, st, worlds[k], k, st.tick + |worlds|, later.tick + 1, later.tick + g, evaluating);
  }
}
