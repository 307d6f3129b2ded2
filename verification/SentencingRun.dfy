/** The nodes of the sentencing graph, one method each, and the run that follows its edges. */
module SentencingRun {
  import opened Drafts
  import opened Budget
  import opened SentenceState
  import opened SentenceAssembly
  import opened SentenceWriter
  import opened SentenceEvaluator
  import opened SentenceJudging
  import opened SentencingGraph
  import E = EvaluationReport
  import TextRules

  const SENTENCING_REASON_MAX := 100

  // ----- begin_generation -----

  /** The sentence the backend fixed does not fit the case, or a text retry of a sentenced case came without one. */
  predicate PresenceBroken(cs: Case, fixed: Option<Decision>) {
    (fixed.Some? && !NeedsSentence(cs)) || (cs.mode == REGENERATE && NeedsSentence(cs) && fixed.None?)
  }

  /** The deadline of a run: what the backend grants, and in a text retry no more than its own budget. */
  function Expiry(cfg: Config, cs: Case, env: Env): (e: real)
    requires env.begin.Begun?
    ensures e <= env.clock(1) + env.begin.remaining && (cs.mode == REGENERATE ==> e <= env.clock(0) + cfg.retrySeconds)
    ensures e == env.clock(1) + env.begin.remaining || (cs.mode == REGENERATE && e == env.clock(0) + cfg.retrySeconds)
  {
    var granted := env.clock(1) + env.begin.remaining;
    if cs.mode == REGENERATE then Min(granted, env.clock(0) + cfg.retrySeconds) else granted
  }

  ghost predicate BeginGoes(cfg: Config, cs: Case, env: Env, st: State, next: Stage, st': State) {
    match env.begin
    case Conflict => next == End(Dropped) && st' == st
    case BeginError => next == End(Crashed(Crash.BeginError)) && st' == st
    case Begun(_, fixed) =>
      if RequestedOutside(cs) || PresenceBroken(cs, fixed) then next == Failing && st'.failure == Some(FailCode.SCHEMA_INVALID)
      else next == Prep && st' == st.(tick := 2, expires := Expiry(cfg, cs, env), decision := fixed, fixed := fixed.Some?)
  }

  method BeginGeneration(cfg: Config, cs: Case, env: Env, st: State) returns (st': State, next: Stage)
    requires ValidCase(cs) && Inv(cfg, cs, env, Begin, st)
    ensures Inv(cfg, cs, env, next, st') && Down(Begin, st, next, st')
    ensures BeginGoes(cfg, cs, env, st, next, st')
  {
    hide Scope;
    match env.begin
    case Conflict => return st, End(Dropped);
    case BeginError => return st, End(Crashed(Crash.BeginError));
    case Begun(remaining, fixed) =>
      var expires := env.clock(1) + remaining;
      if cs.mode == REGENERATE {
        expires := Min(expires, env.clock(0) + cfg.retrySeconds);
      }
      st' := st.(tick := 2, expires := expires);
      if RequestedOutside(cs) || PresenceBroken(cs, fixed) {
        st' := st'.(failure := Some(FailCode.SCHEMA_INVALID));
        next := Failing;
      } else {
        ScopeIsSane(cs);
        TargetsAreFew(cs);
        st' := st'.(decision := fixed, fixed := fixed.Some?);
        next := Prep;
      }
  }

  lemma TargetsAreFew(cs: Case)
    requires ValidCase(cs)
    ensures Distinct(cs.targets) && |cs.targets| <= 3
  {
    DistinctBound(cs.targets);
  }

  // ----- load_valid_prep, inline_context, minimal_dossier -----

  predicate GoesToSentencing(cs: Case, st: State) {
    cs.mode == INITIAL && !st.fixed && NeedsSentence(cs)
  }

  /** No stored preparation, and saving a fresh dossier met moved epochs. */
  predicate DossierLost(env: Env) {
    env.prep.None? && env.dossier.DossierInvalidated?
  }

  function LabelsOf(env: Env): map<string, string>
    requires !DossierLost(env)
  {
    if env.prep.Some? then env.prep.value else env.dossier.labels
  }

  ghost predicate PrepareGoes(cs: Case, env: Env, st: State, next: Stage, st': State) {
    if DossierLost(env) then next == Failing && st'.failure == Some(EVIDENCE_INVALIDATED)
    else next == (if GoesToSentencing(cs, st) then Sentence else Write) && st' == st.(labels := LabelsOf(env))
  }

  method Prepare(cfg: Config, cs: Case, env: Env, st: State) returns (st': State, next: Stage)
    requires Inv(cfg, cs, env, Prep, st)
    ensures Inv(cfg, cs, env, next, st') && Down(Prep, st, next, st')
    ensures PrepareGoes(cs, env, st, next, st')
  {
    hide Scope, SentenceOrigin;
    if env.prep.None? && env.dossier.DossierInvalidated? {
      return st.(failure := Some(EVIDENCE_INVALIDATED)), Failing;
    }
    st' := st.(labels := if env.prep.Some? then env.prep.value else env.dossier.labels);
    next := if GoesToSentencing(cs, st) then Sentence else Write;
  }

  // ----- sentencing -----

  /** The code of the highest rank; of several, the last. */
  function Top(allowed: seq<TextRules.Allowed>): (r: TextRules.Allowed)
    requires allowed != []
    ensures r in allowed && forall a :: a in allowed ==> a.rank <= r.rank
    ensures exists k :: 0 <= k < |allowed| && allowed[k] == r && forall j :: k < j < |allowed| ==> allowed[j].rank < r.rank
  {
    if |allowed| == 1 then allowed[0]
    else
      var init, last := allowed[..|allowed| - 1], allowed[|allowed| - 1];
      assert allowed == init + [last];
      var best := Top(init);
      if last.rank >= best.rank then last else best
  }

  predicate IsAllowed(cs: Case, sentence: string) {
    exists k :: 0 <= k < |cs.allowed| && cs.allowed[k].code == sentence
  }

  /** A sentence outside the allowed list is cut to the highest one; an overlong reason becomes its template. */
  function ParseSentencing(cfg: Config, cs: Case, sentence: string, reason: Option<string>): (d: Decision)
    requires cs.allowed != []
    ensures IsAllowed(cs, d.sentence) && (IsAllowed(cs, sentence) ==> d.sentence == sentence)
    ensures !IsAllowed(cs, sentence) ==> exists a :: a in cs.allowed && a.code == d.sentence && forall b :: b in cs.allowed ==> b.rank <= a.rank
    ensures if reason.Some? && |reason.value| > 100 then d.reasonSource == TEMPLATE && d.reason == cfg.reasonTemplate(d.sentence)
            else d.reasonSource == AI && d.reason == reason
  {
    var top := Top(cs.allowed);
    var k :| 0 <= k < |cs.allowed| && cs.allowed[k] == top;
    assert cs.allowed[k].code == top.code;
    var code := if IsAllowed(cs, sentence) then sentence else top.code;
    if reason.Some? && |reason.value| > SENTENCING_REASON_MAX then Decision(code, cfg.reasonTemplate(code), TEMPLATE)
    else Decision(code, reason, AI)
  }

  function RuleSentence(cs: Case): Decision {
    Decision(cs.fallback, None, TEMPLATE)
  }

  /** Only a call that was started can stop the run; without an answer the rule sentences. */
  ghost predicate SentencingGoes(cfg: Config, cs: Case, env: Env, st: State, next: Stage, st': State)
    requires cs.allowed != []
  {
    var started := NodeTimeout(SENTENCING, cfg.caps, st.expires, env.clock(st.tick)).Some?;
    if started && env.sentence.SentenceInvalidated? then next == Failing && st'.failure == Some(EVIDENCE_INVALIDATED)
    else
      var d := if started && env.sentence.Sentenced? then ParseSentencing(cfg, cs, env.sentence.sentence, env.sentence.reason) else RuleSentence(cs);
      next == Write && st' == st.(tick := st.tick + 1, decision := Some(d))
  }

  method Sentencing(cfg: Config, cs: Case, env: Env, st: State) returns (st': State, next: Stage)
    requires ValidCase(cs) && Inv(cfg, cs, env, Sentence, st)
    ensures Inv(cfg, cs, env, next, st') && Down(Sentence, st, next, st')
    ensures SentencingGoes(cfg, cs, env, st, next, st')
  {
    hide Scope, ParseSentencing;
    var timeout := NodeTimeout(SENTENCING, cfg.caps, st.expires, env.clock(st.tick));
    st' := st.(tick := st.tick + 1);
    next := Write;
    if timeout.None? {
      st' := st'.(decision := Some(RuleSentence(cs)));
      return;
    }
    match env.sentence
    case SentenceInvalidated =>
      st' := st'.(failure := Some(EVIDENCE_INVALIDATED));
      next := Failing;
    case SentenceBroken => st' := st'.(decision := Some(RuleSentence(cs)));
    case Sentenced(sentence, reason) => st' := st'.(decision := Some(ParseSentencing(cfg, cs, sentence, reason)));
  }

  /** Sentencing is asked for exactly in a first run of a guilty verdict on money already spent, without a fixed sentence. */
  lemma WhoIsSentenced(cs: Case, env: Env, st: State, next: Stage, st': State)
    requires PrepareGoes(cs, env, st, next, st') && !(env.prep.None? && env.dossier.DossierInvalidated?)
    ensures next == Sentence <==> cs.mode == INITIAL && !st.fixed && cs.result.Guilty? && cs.spent
    ensures next != Sentence ==> next == Write
    ensures st'.labels == (if env.prep.Some? then env.prep.value else env.dossier.labels)
  {}

  /** The model sentences where it answered in time, within the allowed list; otherwise the fallback stands, without a reason. */
  lemma WhoSentences(cfg: Config, cs: Case, env: Env, st: State, next: Stage, st': State)
    requires Positive(cfg.caps) && cs.allowed != [] && SentencingGoes(cfg, cs, env, st, next, st') && next == Write
    ensures st'.decision.Some?
    ensures var d, inTime := st'.decision.value, env.clock(st.tick) < st.expires;
            && (!(inTime && env.sentence.Sentenced?) ==> d == Decision(cs.fallback, None, TEMPLATE))
            && (inTime && env.sentence.Sentenced? && (exists a :: a in cs.allowed && a.code == env.sentence.sentence) ==> d.sentence == env.sentence.sentence)
            && (inTime && env.sentence.Sentenced? ==> exists a :: a in cs.allowed && a.code == d.sentence)
  {
    NodesGetTheirTime(cfg.caps, st.expires, env.clock(st.tick));
    hide NodeTimeout;
    if env.sentence.Sentenced? {
      var d := ParseSentencing(cfg, cs, env.sentence.sentence, env.sentence.reason);
      assert forall k :: 0 <= k < |cs.allowed| ==> cs.allowed[k] in cs.allowed;
      if a :| a in cs.allowed && a.code == env.sentence.sentence {
        assert IsAllowed(cs, env.sentence.sentence);
      }
    }
    hide ParseSentencing;
  }

  // ----- writer and writer_repair -----

  /** A duplicate-free part of a list is no longer than the list. */
  lemma {:induction false} PartIsShorter(part: seq<Intensity>, whole: seq<Intensity>)
    requires Distinct(part) && forall i :: i in part ==> i in whole
    ensures |part| <= |whole|
    decreases |whole|
  {
    if part != [] {
      var first := part[0];
      assert first in part;
      var k :| 0 <= k < |whole| && whole[k] == first;
      var rest := whole[..k] + whole[k + 1..];
      forall i | i in part[1..] ensures i in rest {
        assert i in part;
        var j :| 0 <= j < |whole| && whole[j] == i;
        assert i == if j < k then rest[j] else rest[j - 1];
      }
      PartIsShorter(part[1..], rest);
    }
  }

  lemma MoreWriterCalls(cs: Case, lg: Log, writers: nat, number: nat, asked: seq<Intensity>, calls: seq<nat>)
    requires CallsSound(cs, lg, writers, number)
    requires Distinct(asked) && forall i :: i in asked ==> i in Scope(cs)
    requires |calls| <= |asked| && Distinct(calls) && forall c :: c in calls ==> 3 * writers <= c < 3 * (writers + 1)
    ensures CallsSound(cs, lg.(writerCalls := lg.writerCalls + calls), writers + 1, number)
  {
    hide Scope;
    PartIsShorter(asked, Scope(cs));
    var all := lg.writerCalls + calls;
    forall i, j | 0 <= i < j < |all| ensures all[i] != all[j] {
      if i < |lg.writerCalls| <= j {
        assert lg.writerCalls[i] in lg.writerCalls && calls[j - |lg.writerCalls|] in calls;
      }
    }
    assert |Scope(cs)| * (writers + 1) == |Scope(cs)| * writers + |Scope(cs)|;
  }

  lemma ScopeInTargets(cs: Case)
    ensures forall i :: i in Scope(cs) ==> i in cs.targets
  {}

  /** The indices of one visit are different, and those of the next visit lie above them. */
  lemma VisitIndices(cs: Case, offset: nat, asked: seq<Intensity>, outcomes: seq<Outcome>)
    requires |outcomes| == |asked| && Distinct(asked) && |cs.targets| <= 3 && forall i :: i in asked ==> i in cs.targets
    ensures var calls := WriterCalls(cs, offset, asked, outcomes);
            Distinct(calls) && |calls| <= |asked| && forall c :: c in calls ==> 3 * offset <= c < 3 * (offset + 1)
  {
    hide WriterCalls;
    WriterCallsSound(cs, offset, asked, outcomes);
  }

  /** The part of the state the writers work on. */
  function Board(st: State): Fanned {
    Fanned(st.drafts, st.sources, st.hints, st.skipped, st.invalid, st.writerErrors)
  }

  /** Asks the writers and enters their calls in the log. */
  method Ask(cfg: Config, cs: Case, env: Env, st: State, asked: seq<Intensity>, offset: nat) returns (r: FanOutcome, tick: nat, lg: Log)
    requires ValidConfig(cfg) && Sane(cs) && Distinct(asked) && forall i :: i in asked ==> i in Scope(cs)
    requires DraftsAgree(cs, st.drafts, st.sources) && (forall i :: i in st.invalid ==> i in Scope(cs))
    requires cs.mode == REGENERATE ==> AllAI(st.sources)
    requires CallsSound(cs, st.log, offset, st.evalRound) && RequestsSound(cs, env, st.log)
    ensures CallsSound(cs, lg, offset + 1, st.evalRound) && RequestsSound(cs, env, lg)
    ensures var outcomes := OutcomesOf(cfg, env, st.expires, offset, asked, st.tick);
            && (r.FanInvalidated? <==> AnyInvalidated(outcomes)) && tick == st.tick + |asked|
            && lg == st.log.(writerCalls := st.log.writerCalls + WriterCalls(cs, offset, asked, outcomes))
    ensures r.FanDone? ==> DraftsAgree(cs, r.out.drafts, r.out.sources) && (forall i :: i in r.out.invalid ==> i in Scope(cs))
    ensures r.FanDone? && cs.mode == REGENERATE ==> AllAI(r.out.sources)
    ensures r.FanDone? ==> Wrote(cfg, cs, env, st.expires, st.decision, Board(st), asked, offset, st.tick, r.out)
  {
    hide Scope, RequestsSound, CallsSound, ValidConfig, Wrote, OutcomesOf, WriterCalls, AnyInvalidated, DraftsAgree, AllAI;
    var calls;
    ScopeInTargets(cs);
    r, calls, tick := FanOut(cfg, cs, env, st.expires, st.decision, Board(st), asked, offset, st.tick);
    VisitIndices(cs, offset, asked, OutcomesOf(cfg, env, st.expires, offset, asked, st.tick));
    MoreWriterCalls(cs, st.log, offset, st.evalRound, asked, calls);
    SameRequests(cs, env, st.log, calls);
    lg := st.log.(writerCalls := st.log.writerCalls + calls);
  }

  /** `st'` is `st` after the writers: nothing but their part, the clock and the log has changed. */
  predicate OnlyBoard(st: State, st': State) {
    st' == st.(tick := st'.tick, log := st'.log, drafts := st'.drafts, sources := st'.sources, hints := st'.hints,
               skipped := st'.skipped, invalid := st'.invalid, writerErrors := st'.writerErrors)
  }

  ghost predicate WriterGoes(cfg: Config, cs: Case, env: Env, st: State, next: Stage, st': State)
    requires ValidConfig(cfg)
  {
    var outcomes := OutcomesOf(cfg, env, st.expires, 0, Scope(cs), st.tick);
    && st'.log == st.log.(writerCalls := st.log.writerCalls + WriterCalls(cs, 0, Scope(cs), outcomes)) && st'.tick == st.tick + |Scope(cs)|
    && if AnyInvalidated(outcomes) then next == Failing && st'.failure == Some(EVIDENCE_INVALIDATED)
       else next == Gate && OnlyBoard(st, st') && Wrote(cfg, cs, env, st.expires, st.decision, Board(st), Scope(cs), 0, st.tick, Board(st'))
  }

  method Writer(cfg: Config, cs: Case, env: Env, st: State) returns (st': State, next: Stage)
    requires ValidConfig(cfg) && Inv(cfg, cs, env, Write, st)
    ensures Inv(cfg, cs, env, next, st') && Down(Write, st, next, st')
    ensures WriterGoes(cfg, cs, env, st, next, st')
  {
    hide OutcomesOf, WriterCalls, AnyInvalidated, Wrote, Scope, DecisionSound, RequestsSound, CallsSound, ValidConfig, OneCallEach, KeptSound, DraftsAgree;
    EmptyBoard(cs, st);
    var r, tick, lg := Ask(cfg, cs, env, st, Scope(cs), 0);
    match r
    case FanInvalidated =>
      MoreRoom(cs, lg, 1, st.evalRound, Limit(cfg, cs), st.evalRound);
      st' := st.(tick := tick, log := lg, failure := Some(EVIDENCE_INVALIDATED));
      next := Failing;
    case FanDone(out) =>
      st' := st.(tick := tick, log := lg, drafts := out.drafts, sources := out.sources, hints := out.hints,
                 skipped := out.skipped, invalid := out.invalid, writerErrors := out.errors);
      next := Gate;
  }

  lemma EmptyBoard(cs: Case, st: State)
    requires Blank(st)
    ensures DraftsAgree(cs, st.drafts, st.sources) && AllAI(st.sources)
    ensures KeptSound(cs, st.log.rounds, st.kept)
  {}

  lemma SameRequests(cs: Case, env: Env, lg: Log, calls: seq<nat>)
    requires RequestsSound(cs, env, lg)
    ensures RequestsSound(cs, env, lg.(writerCalls := lg.writerCalls + calls))
  {
    hide RequestSound;
  }

  /** The same for the texts to be rewritten, under a fresh call offset; afterwards nothing is judged and one more rewrite counted. */
  ghost predicate RewriteGoes(cfg: Config, cs: Case, env: Env, st: State, next: Stage, st': State)
    requires ValidConfig(cfg) && forall i :: i in st.repairTargets ==> i in cs.targets
  {
    var offset := st.repairCount + 1;
    var outcomes := OutcomesOf(cfg, env, st.expires, offset, st.repairTargets, st.tick);
    var lg := st.log.(writerCalls := st.log.writerCalls + WriterCalls(cs, offset, st.repairTargets, outcomes));
    && st'.log == lg
    && if AnyInvalidated(outcomes) then next == Failing && st'.failure == Some(EVIDENCE_INVALIDATED)
       else next == Validate && exists out ::
         Wrote(cfg, cs, env, st.expires, st.decision, Board(st), st.repairTargets, offset, st.tick, out)
         && st' == AfterRewrite(st, st.tick + |st.repairTargets|, lg, out)
  }

  method WriterRepair(cfg: Config, cs: Case, env: Env, st: State) returns (st': State, next: Stage)
    requires ValidConfig(cfg) && Inv(cfg, cs, env, Rewrite, st)
    ensures Inv(cfg, cs, env, next, st') && Down(Rewrite, st, next, st')
    ensures RewriteGoes(cfg, cs, env, st, next, st')
  {
    hide OutcomesOf, WriterCalls, AnyInvalidated, Wrote, Scope, RequestsSound, CallsSound, ValidConfig, OneCallEach, Drafted, DraftsAgree, AllAI, AfterRewrite;
    DraftedBoard(cs, env, st);
    var r, tick, lg := Ask(cfg, cs, env, st, st.repairTargets, st.repairCount + 1);
    match r
    case FanInvalidated =>
      MoreRoom(cs, lg, st.repairCount + 2, st.evalRound, Limit(cfg, cs), st.evalRound);
      st' := st.(tick := tick, log := lg, failure := Some(EVIDENCE_INVALIDATED));
      next := Failing;
    case FanDone(out) =>
      st' := AfterRewrite(st, tick, lg, out);
      RewriteLeadsOn(cs, env, st, tick, lg, out);
      next := Validate;
  }

  lemma DraftedBoard(cs: Case, env: Env, st: State)
    requires Drafted(cs, env, st)
    ensures DraftsAgree(cs, st.drafts, st.sources) && (forall i :: i in st.invalid ==> i in Scope(cs))
    ensures cs.mode == REGENERATE ==> AllAI(st.sources)
  {}

  lemma RewriteLeadsOn(cs: Case, env: Env, st: State, tick: nat, lg: Log, out: Fanned)
    requires Drafted(cs, env, st) && lg == st.log.(writerCalls := lg.writerCalls)
    requires DraftsAgree(cs, out.drafts, out.sources) && (forall i :: i in out.invalid ==> i in Scope(cs))
    requires cs.mode == REGENERATE ==> AllAI(out.sources)
    ensures var st' := AfterRewrite(st, tick, lg, out);
            Drafted(cs, env, st') && st'.repairCount == st.repairCount + 1 && st'.evalRound == st.evalRound && st'.log == lg
            && Board(st') == out.(skipped := st.skipped)
  {
    hide Scope, DecisionSound, KeptSound, DraftsAgree, AllAI;
  }

  function AfterRewrite(st: State, tick: nat, lg: Log, out: Fanned): State {
    st.(tick := tick, log := lg, drafts := out.drafts, sources := out.sources, hints := out.hints, invalid := out.invalid, writerErrors := out.errors,
        repairCount := st.repairCount + 1, repairTargets := [], evaluation := None, draftHash := None, failure := None)
  }

  // ----- join, deterministic_validate, evaluator -----

  /** Moving on along an edge keeps the counts, as long as nothing was asked on the way. */
  lemma Onward(cfg: Config, cs: Case, env: Env, stage: Stage, st: State, next: Stage, st': State)
    requires stage in {Gate, Validate, Judging, Finish} && next in {Validate, Judging, Finish, Rewrite, Failing} && Rank(next) < Rank(stage)
    requires Counted(cfg, cs, env, stage, st)
    requires st'.repairCount == st.repairCount && st'.log == st.log && st'.evalRound == st.evalRound
    ensures Counted(cfg, cs, env, next, st') && Down(stage, st, next, st')
  {
    hide CallsSound, RequestsSound, OneCallEach;
    MoreRoom(cs, st.log, WriterVisits(cfg, cs, stage, st), st.evalRound, WriterVisits(cfg, cs, next, st'), st.evalRound);
  }

  ghost predicate GateGoes(cfg: Config, cs: Case, env: Env, st: State, next: Stage, st': State) {
    var j := Join(cfg, cs, st, env.clock(st.tick), env.clock(st.tick + 1));
    next == JoinRoute(j) && st' == AfterJoin(st, j)
  }

  method PassGate(cfg: Config, cs: Case, env: Env, st: State) returns (st': State, next: Stage)
    requires Inv(cfg, cs, env, Gate, st)
    ensures Inv(cfg, cs, env, next, st') && Down(Gate, st, next, st')
    ensures GateGoes(cfg, cs, env, st, next, st')
    ensures next == Validate ==> Covers(cs, st'.sources) && SomeAI(st'.sources)
  {
    hide Scope, DecisionSound, Counted, Down, Join, DraftsAgree, KeptSound, AllAI, AfterJoin, Drafted, Local, SomeAI;
    GateParts(cfg, cs, env, st);
    var j := Join(cfg, cs, st, env.clock(st.tick), env.clock(st.tick + 1));
    st', next := AfterJoin(st, j), JoinRoute(j);
    JoinLeadsOn(cfg, cs, env, st, env.clock(st.tick), env.clock(st.tick + 1));
    Onward(cfg, cs, env, Gate, st, next, st');
  }

  function JoinRoute(j: Joined): Stage {
    match j
    case JoinRepair(_) => Rewrite
    case JoinFailed(_) => Failing
    case JoinOn => Validate
  }

  function AfterJoin(st: State, j: Joined): State {
    match j
    case JoinRepair(targets) => st.(tick := st.tick + 2, repairTargets := targets, kept := map[], failure := None)
    case JoinFailed(code) => st.(tick := st.tick + 2, failure := Some(code))
    case JoinOn => st.(tick := st.tick + 2, failure := None)
  }

  lemma GateParts(cfg: Config, cs: Case, env: Env, st: State)
    requires Local(cfg, cs, env, Gate, st)
    ensures Drafted(cs, env, st)
  {}

  lemma JoinLeadsOn(cfg: Config, cs: Case, env: Env, st: State, now: real, later: real)
    requires Drafted(cs, env, st) && Sane(cs)
    ensures var j := Join(cfg, cs, st, now, later);
            var st' := AfterJoin(st, j);
            && Local(cfg, cs, env, JoinRoute(j), st') && st'.repairCount == st.repairCount && st'.log == st.log && st'.evalRound == st.evalRound
            && (j.JoinRepair? ==> st'.repairTargets == j.targets)
            && (j.JoinFailed? ==> st'.failure == Some(j.code))
            && (j.JoinOn? ==> Covers(cs, st'.sources) && SomeAI(st'.sources))
  {
    hide Scope, DecisionSound, Join, DraftsAgree, KeptSound, AllAI, SomeAI;
    match Join(cfg, cs, st, now, later)
    case JoinRepair(targets) =>
      JoinRepairsInvalidCards(cfg, cs, st, now, later);
      NothingKept(cs, st.log.rounds);
    case JoinFailed(_) =>
    case JoinOn => JoinOnIsComplete(cfg, cs, st, now, later);
  }

  /** The assembly decides, with leave to have bad texts rewritten. */
  ghost predicate ValidateGoes(cfg: Config, cs: Case, env: Env, st: State, next: Stage, st': State) {
    exists a, tick: nat ::
      && next == AssemblyRoute(a) && st' == AfterAssembly(st, tick, a) && st.tick < tick <= st.tick + 2
      && AssemblyGoes(cfg, cs, st.labels, st.drafts, st.sources, st.decision, MayRewriteBad(cfg, cs, st, env.clock(st.tick), st.drafts), a)
      && (a.Repair? ==> ExactlyBad(cfg, st.labels, st.drafts, a.targets))
      && (a.Ready? ==> Assembled(cs, a.writerDraft, a.drafts, a.sources) && AcceptedFrom(cfg, cs, st.labels, st.decision, st.drafts, st.sources, a))
      && Trimmings(cs, st, st.decision, a)
  }

  method DeterministicValidate(cfg: Config, cs: Case, env: Env, st: State) returns (st': State, next: Stage)
    requires ValidConfig(cfg) && Monotone(env.clock) && Inv(cfg, cs, env, Validate, st)
    ensures Inv(cfg, cs, env, next, st') && Down(Validate, st, next, st')
    ensures ValidateGoes(cfg, cs, env, st, next, st')
  {
    hide AssemblyGoes, Trimmings, MayRewriteBad, Scope, Counted, Down, Drafted, Local, Assembled, AcceptedFrom, ExactlyBad, ValidConfig, Monotone, AllAI, AfterAssembly, DraftsAgree;
    DraftedParts(cfg, cs, env, st);
    var a, tick := Assemble(cfg, cs, env.clock, st, st.drafts, st.sources, st.decision, true);
    st', next := AfterAssembly(st, tick, a), AssemblyRoute(a);
    RewriteNeedsLeave(cfg, cs, st, env.clock(st.tick), a);
    AssemblyLeadsOn(cfg, cs, env, st, tick, a);
    Onward(cfg, cs, env, Validate, st, next, st');
  }

  lemma RewriteNeedsLeave(cfg: Config, cs: Case, st: State, now: real, a: Assembly)
    requires AssemblyGoes(cfg, cs, st.labels, st.drafts, st.sources, st.decision, MayRewriteBad(cfg, cs, st, now, st.drafts), a)
    ensures a.Repair? ==> cs.mode == INITIAL && st.repairCount < cfg.maxRepair
  {
    hide Scope, Covers, SomeBad, SomeAI, Stuck, StuckBecause, BadTemplate, GoodAI, Bad;
  }

  function AssemblyRoute(a: Assembly): Stage {
    match a
    case Failed(_) => Failing
    case Repair(_) => Rewrite
    case Ready(_, _, _) => Judging
  }

  function AfterAssembly(st: State, tick: nat, a: Assembly): State {
    match a
    case Failed(why) => st.(tick := tick, failure := Some(FailureOf(why)))
    case Repair(targets) => st.(tick := tick, failure := None, repairTargets := targets, kept := map[])
    case Ready(drafts, sources, draft) => st.(tick := tick, failure := None, drafts := drafts, sources := sources, writerDraft := Some(draft))
  }

  lemma DraftedParts(cfg: Config, cs: Case, env: Env, st: State)
    requires Local(cfg, cs, env, Validate, st)
    ensures Drafted(cs, env, st) && DraftsAgree(cs, st.drafts, st.sources) && (cs.mode == REGENERATE ==> AllAI(st.sources)) && KeptSound(cs, st.log.rounds, st.kept)
  {}

  lemma AssemblyLeadsOn(cfg: Config, cs: Case, env: Env, st: State, tick: nat, a: Assembly)
    requires Drafted(cs, env, st)
    requires a.Repair? ==> cs.mode == INITIAL && st.repairCount < cfg.maxRepair && a.targets != [] && ExactlyBad(cfg, st.labels, st.drafts, a.targets)
    requires a.Ready? ==> Assembled(cs, a.writerDraft, a.drafts, a.sources)
    ensures var st' := AfterAssembly(st, tick, a);
            Local(cfg, cs, env, AssemblyRoute(a), st') && st'.repairCount == st.repairCount && st'.log == st.log && st'.evalRound == st.evalRound
    ensures a.Repair? ==> AfterAssembly(st, tick, a).repairTargets == a.targets
    ensures a.Ready? ==> var st' := AfterAssembly(st, tick, a);
                         st'.writerDraft == Some(a.writerDraft) && st'.drafts == a.drafts && st'.sources == a.sources
  {
    hide Scope, DecisionSound, ExactlyBad, Assembled, KeptSound, DraftsAgree, AllAI;
    match a
    case Failed(_) =>
    case Repair(targets) =>
      BadAreInScope(cfg, cs, st, targets);
      NothingKept(cs, st.log.rounds);
    case Ready(drafts, sources, draft) =>
      AssembledAgrees(cs, draft, drafts, sources);
  }

  lemma BadAreInScope(cfg: Config, cs: Case, st: State, targets: seq<Intensity>)
    requires DraftsAgree(cs, st.drafts, st.sources) && ExactlyBad(cfg, st.labels, st.drafts, targets)
    ensures Distinct(targets) && forall i :: i in targets ==> i in Scope(cs)
  {
    hide Scope, Bad;
  }

  lemma AssembledAgrees(cs: Case, wd: WriterDraft, drafts: map<Intensity, Draft>, sources: map<Intensity, Source>)
    requires Assembled(cs, wd, drafts, sources)
    ensures DraftsAgree(cs, drafts, sources) && (cs.mode == REGENERATE ==> AllAI(sources))
  {}

  lemma MoreEvalCalls(cs: Case, lg: Log, writers: nat, number: nat, calls: seq<nat>, next: nat, rounds: seq<EvalRound>)
    requires CallsSound(cs, lg, writers, number) && VisitCalls(calls, number, next)
    ensures CallsSound(cs, lg.(evalCalls := lg.evalCalls + calls, rounds := lg.rounds + rounds), writers, next)
  {
    hide Scope;
    var all := lg.evalCalls + calls;
    forall i, j | 0 <= i < j < |all| ensures all[i] != all[j] {
      if i < |lg.evalCalls| <= j {
        assert lg.evalCalls[i] in lg.evalCalls && calls[j - |lg.evalCalls|] in calls;
      }
    }
  }

  lemma MoreRounds(cs: Case, env: Env, lg: Log, calls: seq<nat>, rounds: seq<EvalRound>)
    requires RequestsSound(cs, env, lg)
    ensures RequestsSound(cs, env, lg.(evalCalls := lg.evalCalls + calls, rounds := lg.rounds + rounds))
  {
    hide Vouched, Scope, DecisionSound, E.Accepts;
    forall k | 0 <= k < |lg.requests| ensures RequestSound(cs, env, lg.rounds + rounds, lg.requests[k]) {
      var texts := lg.requests[k].draft.texts;
      assert RequestSound(cs, env, lg.rounds, lg.requests[k]);
      ClearedGrows(lg.rounds, rounds, lg.requests[k].hash);
      forall n | 0 <= n < |texts| && texts[n].source == AI ensures Vouched(lg.rounds + rounds, texts[n]) {
        VouchedGrows(lg.rounds, rounds, texts[n]);
      }
    }
  }

  /** Runs the evaluator node and enters its calls and rounds in the log. */
  method AskEvaluator(cfg: Config, cs: Case, env: Env, st: State) returns (v: Visited, tick: nat, lg: Log)
    requires ValidConfig(cfg) && Monotone(env.clock) && Sane(cs) && HasDraft(cs, st)
    requires KeptSound(cs, st.log.rounds, st.kept)
    requires CallsSound(cs, st.log, st.repairCount + 1, st.evalRound) && RequestsSound(cs, env, st.log)
    requires !Split(cfg, Scope(cs)) ==> OneCallEach(st.log.rounds)
    ensures lg == st.log.(evalCalls := st.log.evalCalls + v.calls, rounds := st.log.rounds + v.rounds)
    ensures UpdateSound(cfg, cs, st, lg.rounds, v.update) && st.evalRound <= v.number <= st.evalRound + RoundsIn(cs, 1)
    ensures CallsSound(cs, lg, st.repairCount + 1, v.number) && RequestsSound(cs, env, lg)
    ensures !Split(cfg, Scope(cs)) ==> OneCallEach(lg.rounds)
    ensures Visit(cfg, cs, env, st, 0, st.tick, DeskOf(st), NothingDone(st), v)
  {
    hide Visit, Scope, RequestsSound, CallsSound, KeptSound, Assembled, ValidConfig, Monotone, UpdateSound, VisitCalls;
    v, tick := RunEvaluator(cfg, cs, env, st);
    VisitMoves(v.calls, st.evalRound, v.number);
    MoreEvalCalls(cs, st.log, st.repairCount + 1, st.evalRound, v.calls, v.number, v.rounds);
    MoreRounds(cs, env, st.log, v.calls, v.rounds);
    lg := st.log.(evalCalls := st.log.evalCalls + v.calls, rounds := st.log.rounds + v.rounds);
  }

  lemma VisitMoves(calls: seq<nat>, first: nat, next: nat)
    requires VisitCalls(calls, first, next)
    ensures first <= next
  {}

  /** The counts after the evaluator node. */
  lemma AfterJudging(cfg: Config, cs: Case, env: Env, st: State, lg: Log, number: nat, next: Stage, st': State)
    requires Counted(cfg, cs, env, Judging, st) && next in {Finish, Rewrite, Failing}
    requires lg == st.log.(evalCalls := lg.evalCalls, rounds := lg.rounds) && st.evalRound <= number <= st.evalRound + RoundsIn(cs, 1)
    requires CallsSound(cs, lg, st.repairCount + 1, number) && RequestsSound(cs, env, lg) && (!Split(cfg, Scope(cs)) ==> OneCallEach(lg.rounds))
    requires st'.repairCount == st.repairCount && st'.log == lg && st'.evalRound == number
    ensures Counted(cfg, cs, env, next, st') && Down(Judging, st, next, st')
  {
    hide CallsSound, RequestsSound, OneCallEach;
    MoreRoom(cs, lg, st.repairCount + 1, number, WriterVisits(cfg, cs, next, st'), number);
  }

  lemma CountsOf(cfg: Config, cs: Case, env: Env, st: State)
    requires Counted(cfg, cs, env, Judging, st)
    ensures CallsSound(cs, st.log, st.repairCount + 1, st.evalRound) && RequestsSound(cs, env, st.log)
    ensures !Split(cfg, Scope(cs)) ==> OneCallEach(st.log.rounds)
  {}

  /** The visit decides, and all its calls and rounds are on record. */
  ghost predicate EvaluatorGoes(cfg: Config, cs: Case, env: Env, st: State, next: Stage, st': State)
    requires st.writerDraft.Some?
  {
    exists v :: Visit(cfg, cs, env, st, 0, st.tick, DeskOf(st), NothingDone(st), v)
                && next == UpdateRoute(v.update)
                && st' == AfterUpdate(st, v.update, v.number, st'.tick, st.log.(evalCalls := st.log.evalCalls + v.calls, rounds := st.log.rounds + v.rounds))
  }

  lemma EvaluatorMoved(cfg: Config, cs: Case, env: Env, st: State, v: Visited, tick: nat)
    requires st.writerDraft.Some? && Visit(cfg, cs, env, st, 0, st.tick, DeskOf(st), NothingDone(st), v)
    ensures var lg := st.log.(evalCalls := st.log.evalCalls + v.calls, rounds := st.log.rounds + v.rounds);
            EvaluatorGoes(cfg, cs, env, st, UpdateRoute(v.update), AfterUpdate(st, v.update, v.number, tick, lg))
  {
    hide Visit, UpdateRoute;
  }

  method Evaluator(cfg: Config, cs: Case, env: Env, st: State) returns (st': State, next: Stage)
    requires ValidConfig(cfg) && Monotone(env.clock) && Inv(cfg, cs, env, Judging, st)
    ensures Inv(cfg, cs, env, next, st') && Down(Judging, st, next, st')
    ensures EvaluatorGoes(cfg, cs, env, st, next, st')
  {
    hide Visit, Scope, Counted, Down, Local, Drafted, RequestsSound, CallsSound, OneCallEach, KeptSound, Assembled, ValidConfig, Monotone, UpdateSound, AfterUpdate;
    JudgingParts(cfg, cs, env, st);
    CountsOf(cfg, cs, env, st);
    var v, tick, lg := AskEvaluator(cfg, cs, env, st);
    st', next := AfterUpdate(st, v.update, v.number, tick, lg), UpdateRoute(v.update);
    UpdateLeadsOn(cfg, cs, env, st, v.update, v.number, tick, lg);
    AfterJudging(cfg, cs, env, st, lg, v.number, next, st');
    EvaluatorMoved(cfg, cs, env, st, v, tick);
  }

  function UpdateRoute(u: EvalUpdate): Stage {
    match u
    case EvalRepair(_, _, _, _, _) => Rewrite
    case EvalAccepted(_, _, _, _, _, _) => Finish
    case _ => Failing
  }

  function AfterUpdate(st: State, u: EvalUpdate, number: nat, tick: nat, lg: Log): State {
    var next := st.(tick := tick, log := lg, evalRound := number);
    match u
    case EvalStale => next.(failure := Some(EVIDENCE_INVALIDATED))
    case EvalFailed(code) => next.(failure := Some(code), kept := map[])
    case EvalRepair(drafts, sources, decision, targets, kept) =>
      next.(drafts := drafts, sources := sources, decision := decision, repairTargets := targets, kept := kept,
            evaluation := None, draftHash := None, failure := None)
    case EvalAccepted(report, hash, decision, draft, drafts, sources) =>
      next.(drafts := drafts, sources := sources, decision := decision, writerDraft := Some(draft), evaluation := Some(report),
            draftHash := Some(hash), kept := map[], failure := None)
  }

  lemma JudgingParts(cfg: Config, cs: Case, env: Env, st: State)
    requires Local(cfg, cs, env, Judging, st)
    ensures Drafted(cs, env, st) && HasDraft(cs, st) && KeptSound(cs, st.log.rounds, st.kept)
  {}

  lemma UpdateLeadsOn(cfg: Config, cs: Case, env: Env, st: State, u: EvalUpdate, number: nat, tick: nat, lg: Log)
    requires Drafted(cs, env, st) && UpdateSound(cfg, cs, st, lg.rounds, u)
    ensures var st' := AfterUpdate(st, u, number, tick, lg);
            Local(cfg, cs, env, UpdateRoute(u), st') && st'.repairCount == st.repairCount && st'.log == lg && st'.evalRound == number
  {
    hide Scope, DecisionSound, KeptSound, Assembled, E.Accepts, AllVouched, AllAI, DraftsAgree, SameNeed;
    match u
    case EvalStale =>
    case EvalFailed(_) =>
    case EvalRepair(_, _, decision, _, _) =>
      RepairIsInitial(cfg, cs, st, lg.rounds, u);
      SameNeedSound(cs, env, st.decision, decision);
    case EvalAccepted(_, _, decision, draft, drafts, sources) =>
      SameNeedSound(cs, env, st.decision, decision);
      AssembledAgrees(cs, draft, drafts, sources);
      NothingKept(cs, lg.rounds);
  }

  lemma RepairIsInitial(cfg: Config, cs: Case, st: State, rounds: seq<EvalRound>, u: EvalUpdate)
    requires u.EvalRepair? && RepairSound(cfg, cs, st, rounds, u)
    ensures cs.mode == INITIAL && st.repairCount < cfg.maxRepair
  {}

  lemma SameNeedSound(cs: Case, env: Env, was: Option<Decision>, now: Option<Decision>)
    requires DecisionSound(cs, env, was) && SameNeed(was, now)
    ensures DecisionSound(cs, env, now)
  {}

  // ----- finalize and generation_failed -----

  function RequestOf(st: State): Request
    requires st.writerDraft.Some? && st.evaluation.Some? && st.draftHash.Some?
  {
    Request(st.draftHash.value, st.decision, st.writerDraft.value, st.evaluation.value, st.sources)
  }

  lemma JudgedIsSound(cs: Case, env: Env, st: State)
    requires Drafted(cs, env, st) && IsJudged(cs, st)
    ensures RequestSound(cs, env, st.log.rounds, RequestOf(st))
  {
    hide Scope, E.Accepts, DecisionSound, KeptSound, DraftSound, Assembled, AllVouched;
    AssembledIsSound(cs, st.log.rounds, st.writerDraft.value, st.drafts, st.sources);
  }

  lemma AssembledIsSound(cs: Case, rounds: seq<EvalRound>, wd: WriterDraft, drafts: map<Intensity, Draft>, sources: map<Intensity, Source>)
    requires Assembled(cs, wd, drafts, sources) && AllVouched(rounds, drafts)
    ensures DraftSound(cs, rounds, wd.texts, sources)
  {
    hide Vouched, IsCard, Scope;
    var texts, scope := wd.texts, Scope(cs);
    assert forall k :: 0 <= k < |texts| ==> scope[k] in scope && scope[k] in drafts && texts[k] == drafts[scope[k]] && texts[k].intensity == scope[k];
    assert Intensities(texts) == scope;
    var i :| i in sources && sources[i] == AI;
    assert texts[Position(scope, i)].source == AI;
  }

  lemma OneMoreRequest(cs: Case, env: Env, lg: Log, q: Request)
    requires RequestsSound(cs, env, lg) && RequestSound(cs, env, lg.rounds, q)
    ensures RequestsSound(cs, env, lg.(requests := lg.requests + [q]))
  {
    hide RequestSound;
  }

  /** The AI texts of the scope: what a rejected request has rewritten. */
  function AITexts(cs: Case, sources: map<Intensity, Source>): (r: seq<Intensity>)
    ensures forall i :: i in r <==> i in Scope(cs) && IsAI(sources, i)
    ensures Distinct(Scope(cs)) ==> Distinct(r)
  {
    Filter(Scope(cs), i => IsAI(sources, i))
  }

  /** What one answer of the backend leads to. */
  function FinalizeRoute(cfg: Config, cs: Case, st: State, now: real, reply: FinalizeReply): Stage {
    match reply
    case Accepted => End(Saved)
    case Discard409 => End(Discarded)
    case Invalid409 => Failing
    case Rejected422 => if AITexts(cs, st.sources) != [] && RepairOpen(cfg, cs, st, now) then Rewrite else Failing
    case OtherError => End(Crashed(FinalizeError))
  }

  function AfterFinalize(cfg: Config, cs: Case, st: State, now: real, reply: FinalizeReply): State {
    match reply
    case Accepted => st.(failure := None, log := st.log.(saved := st.log.saved + 1))
    case Discard409 => st.(failure := None)
    case Invalid409 => st.(failure := Some(EVIDENCE_INVALIDATED))
    case Rejected422 =>
      if FinalizeRoute(cfg, cs, st, now, reply) == Rewrite then st.(failure := None, repairTargets := AITexts(cs, st.sources), kept := map[])
      else st.(failure := Some(FailCode.SCHEMA_INVALID))
    case OtherError => st
  }

  /** Stale epochs stop before sending; otherwise the request is sent and the backend's answer decides. */
  ghost predicate FinalizeGoes(cfg: Config, cs: Case, env: Env, st: State, next: Stage, st': State) {
    var n := |st.log.requests|;
    if env.stale(n) then next == Failing && st' == st.(failure := Some(EVIDENCE_INVALIDATED))
    else
      && st.draftHash.Some? && st.evaluation.Some? && st.writerDraft.Some?
      && var sent := st.(tick := st.tick + 1, log := st.log.(requests := st.log.requests + [RequestOf(st)]));
         next == FinalizeRoute(cfg, cs, sent, env.clock(st.tick), env.finalize(n))
         && st' == AfterFinalize(cfg, cs, sent, env.clock(st.tick), env.finalize(n))
  }

  /** Sends the request. Both guards in front are proved to be dead: the draft and the decision are always the ones judged. */
  method Finalize(cfg: Config, cs: Case, env: Env, st: State) returns (st': State, next: Stage)
    requires Inv(cfg, cs, env, Finish, st)
    ensures Inv(cfg, cs, env, next, st') && Down(Finish, st, next, st')
    ensures FinalizeGoes(cfg, cs, env, st, next, st')
  {
    hide Scope, Counted, Drafted, Assembled, E.Accepts, AllVouched, Ended, Targeted, AITexts, RepairOpen, AfterFinalize;
    assert st.draftHash.Some? && st.evaluation.Some?;
    if st.draftHash.None? || st.evaluation.None? {
      return st, End(Crashed(NotEvaluated));
    }
    if Hash(st.writerDraft.value, st.decision) != st.draftHash.value {
      return st, End(Crashed(HashMismatch));
    }
    var n := |st.log.requests|;
    if env.stale(n) {
      st' := st.(failure := Some(EVIDENCE_INVALIDATED));
      next := Failing;
      Onward(cfg, cs, env, Finish, st, next, st');
      return;
    }
    var q := RequestOf(st);
    var sent := st.(tick := st.tick + 1, log := st.log.(requests := st.log.requests + [q]));
    var reply := env.finalize(n);
    st', next := AfterFinalize(cfg, cs, sent, env.clock(st.tick), reply), FinalizeRoute(cfg, cs, sent, env.clock(st.tick), reply);
    FinalizeLeadsOn(cfg, cs, env, st, sent, env.clock(st.tick), reply);
  }

  /** What the answer of the backend comes to: it alone ends the run, and a rejected request is written again, all its AI
      texts and nothing else, exactly in a first run with a rewrite and five seconds left and an AI text to write. */
  lemma AnswerDecides(cfg: Config, cs: Case, env: Env, st: State, next: Stage, st': State)
    requires FinalizeGoes(cfg, cs, env, st, next, st') && !env.stale(|st.log.requests|)
    ensures var reply := env.finalize(|st.log.requests|);
            && (next == End(Saved) <==> reply.Accepted?) && (next == End(Discarded) <==> reply.Discard409?)
            && (next == End(Crashed(FinalizeError)) <==> reply.OtherError?)
            && (next == Rewrite <==>
                  && reply.Rejected422? && cs.mode == INITIAL && st.repairCount < cfg.maxRepair && env.clock(st.tick) + 5.0 <= st.expires
                  && exists i :: i in Scope(cs) && IsAI(st.sources, i))
            && (next == Rewrite ==> st'.kept == map[] && forall i :: i in st'.repairTargets <==> i in Scope(cs) && IsAI(st.sources, i))
            && (reply.Invalid409? ==> next == Failing && st'.failure == Some(EVIDENCE_INVALIDATED))
            && (reply.Rejected422? && next != Rewrite ==> next == Failing && st'.failure == Some(FailCode.SCHEMA_INVALID))
            && st'.log.saved == st.log.saved + (if reply.Accepted? then 1 else 0)
  {
    hide Scope, RequestOf, IsAI, FinalizeRoute, AfterFinalize;
    var sent := st.(tick := st.tick + 1, log := st.log.(requests := st.log.requests + [RequestOf(st)]));
    RouteDecides(cfg, cs, sent, env.clock(st.tick), env.finalize(|st.log.requests|));
  }

  lemma RouteDecides(cfg: Config, cs: Case, sent: State, now: real, reply: FinalizeReply)
    ensures var next, st' := FinalizeRoute(cfg, cs, sent, now, reply), AfterFinalize(cfg, cs, sent, now, reply);
            && (next == End(Saved) <==> reply.Accepted?) && (next == End(Discarded) <==> reply.Discard409?)
            && (next == End(Crashed(FinalizeError)) <==> reply.OtherError?)
            && (next == Rewrite <==>
                  && reply.Rejected422? && cs.mode == INITIAL && sent.repairCount < cfg.maxRepair && now + 5.0 <= sent.expires
                  && exists i :: i in Scope(cs) && IsAI(sent.sources, i))
            && (next == Rewrite ==> st'.kept == map[] && forall i :: i in st'.repairTargets <==> i in Scope(cs) && IsAI(sent.sources, i))
            && (reply.Invalid409? ==> next == Failing && st'.failure == Some(EVIDENCE_INVALIDATED))
            && (reply.Rejected422? && next != Rewrite ==> next == Failing && st'.failure == Some(FailCode.SCHEMA_INVALID))
            && st'.log.saved == sent.log.saved + (if reply.Accepted? then 1 else 0)
  {
    hide Scope, IsAI;
    var ai := AITexts(cs, sent.sources);
    assert ai != [] ==> ai[0] in ai;
  }

  lemma SentCounts(cfg: Config, cs: Case, env: Env, st: State, sent: State)
    requires Counted(cfg, cs, env, Finish, st) && Drafted(cs, env, st) && IsJudged(cs, st)
    requires sent == st.(tick := st.tick + 1, log := st.log.(requests := st.log.requests + [RequestOf(st)]))
    ensures Counted(cfg, cs, env, Rewrite, sent) && Counted(cfg, cs, env, Failing, sent) && RunFacts(cfg, cs, env, sent)
  {
    hide RequestSound, Scope, OneCallEach, Assembled, AllVouched, E.Accepts, Drafted;
    JudgedIsSound(cs, env, st);
    OneMoreRequest(cs, env, st.log, RequestOf(st));
    hide RequestsSound;
    assert CallsSound(cs, sent.log, st.repairCount + 1, st.evalRound);
    hide CallsSound;
    MoreRoom(cs, sent.log, st.repairCount + 1, st.evalRound, Limit(cfg, cs), RoundsIn(cs, Limit(cfg, cs)));
    MoreRoom(cs, sent.log, st.repairCount + 1, st.evalRound, Limit(cfg, cs), st.evalRound);
  }

  lemma FinalizeLeadsOn(cfg: Config, cs: Case, env: Env, st: State, sent: State, now: real, reply: FinalizeReply)
    requires Inv(cfg, cs, env, Finish, st)
    requires sent == st.(tick := st.tick + 1, log := st.log.(requests := st.log.requests + [RequestOf(st)]))
    ensures var next := FinalizeRoute(cfg, cs, sent, now, reply);
            var st' := AfterFinalize(cfg, cs, sent, now, reply);
            Inv(cfg, cs, env, next, st') && Down(Finish, st, next, st') && st'.log.requests == sent.log.requests
  {
    SentCounts(cfg, cs, env, st, sent);
    assert sent.log.saved == 0 && sent.log.reported == [] && sent.log.requests != [];
    hide Scope, Drafted, IsJudged, AITexts, RunFacts, Counted, Targeted, RepairOpen, FinalizeRoute, AfterFinalize, Inv, Sane;
    if reply.Invalid409? || reply.Rejected422? {
      LeadsBack(cfg, cs, env, st, sent, now, reply);
    } else {
      LeadsToEnd(cfg, cs, env, sent, now, reply);
    }
    Descends(cfg, cs, sent, now, reply);
  }

  lemma Descends(cfg: Config, cs: Case, sent: State, now: real, reply: FinalizeReply)
    ensures Rank(FinalizeRoute(cfg, cs, sent, now, reply)) < Rank(Finish)
    ensures var st' := AfterFinalize(cfg, cs, sent, now, reply);
            st'.repairCount == sent.repairCount && st'.log.requests == sent.log.requests
  {
    hide RepairOpen, AITexts, AfterFinalize;
    KeepsRequests(cfg, cs, sent, now, reply);
  }

  lemma KeepsRequests(cfg: Config, cs: Case, sent: State, now: real, reply: FinalizeReply)
    ensures var st' := AfterFinalize(cfg, cs, sent, now, reply);
            st'.repairCount == sent.repairCount && st'.log.requests == sent.log.requests
  {
    hide RepairOpen, AITexts, FinalizeRoute;
    match reply
    case Accepted =>
    case Discard409 =>
    case Invalid409 =>
    case Rejected422 =>
    case OtherError =>
  }

  lemma LeadsToEnd(cfg: Config, cs: Case, env: Env, sent: State, now: real, reply: FinalizeReply)
    requires RunFacts(cfg, cs, env, sent) && sent.log.saved == 0 && sent.log.reported == [] && sent.log.requests != []
    requires reply.Accepted? || reply.Discard409? || reply.OtherError?
    ensures Inv(cfg, cs, env, FinalizeRoute(cfg, cs, sent, now, reply), AfterFinalize(cfg, cs, sent, now, reply))
  {
    hide RunFacts, Counted, Local, AITexts, RepairOpen, InitialState;
    match reply
    case Accepted => FactsIgnoreSaving(cfg, cs, env, sent);
    case Discard409 => FactsIgnoreSaving(cfg, cs, env, sent);
    case OtherError =>
  }

  lemma LeadsBack(cfg: Config, cs: Case, env: Env, st: State, sent: State, now: real, reply: FinalizeReply)
    requires Counted(cfg, cs, env, Rewrite, sent) && Counted(cfg, cs, env, Failing, sent)
    requires Drafted(cs, env, st) && Sane(cs) && sent == st.(tick := st.tick + 1, log := st.log.(requests := sent.log.requests))
    requires reply.Invalid409? || reply.Rejected422?
    ensures Inv(cfg, cs, env, FinalizeRoute(cfg, cs, sent, now, reply), AfterFinalize(cfg, cs, sent, now, reply))
  {
    var next, st' := FinalizeRoute(cfg, cs, sent, now, reply), AfterFinalize(cfg, cs, sent, now, reply);
    if next == Rewrite {
      RewriteAfterRejection(cfg, cs, env, st, sent, now);
    }
    hide Counted, Drafted, Sane, Targeted, AITexts, RepairOpen;
    CountsCarryOver(cfg, cs, env, next, sent, st');
  }

  lemma CountsCarryOver(cfg: Config, cs: Case, env: Env, stage: Stage, st: State, st': State)
    requires Counted(cfg, cs, env, stage, st)
    requires st'.repairCount == st.repairCount && st'.log == st.log && st'.evalRound == st.evalRound
    ensures Counted(cfg, cs, env, stage, st')
  {
    hide RequestsSound, CallsSound;
  }

  lemma FactsIgnoreSaving(cfg: Config, cs: Case, env: Env, st: State)
    requires RunFacts(cfg, cs, env, st)
    ensures RunFacts(cfg, cs, env, st.(failure := None)) && RunFacts(cfg, cs, env, st.(failure := None, log := st.log.(saved := st.log.saved + 1)))
  {
    hide RequestSound, Scope;
  }

  lemma FactsIgnoreReport(cfg: Config, cs: Case, env: Env, st: State, code: FailCode)
    requires RunFacts(cfg, cs, env, st)
    ensures RunFacts(cfg, cs, env, st.(log := st.log.(reported := [code])))
  {
    hide RequestSound, Scope;
  }

  lemma RewriteAfterRejection(cfg: Config, cs: Case, env: Env, st: State, sent: State, now: real)
    requires Drafted(cs, env, st) && Sane(cs) && RepairOpen(cfg, cs, sent, now) && AITexts(cs, sent.sources) != []
    requires sent == st.(tick := st.tick + 1, log := st.log.(requests := sent.log.requests))
    ensures var st' := sent.(failure := None, repairTargets := AITexts(cs, sent.sources), kept := map[]);
            Drafted(cs, env, st') && Targeted(cfg, cs, st')
  {
    hide Scope, DecisionSound, DraftsAgree, AllAI;
    NothingKept(cs, sent.log.rounds);
  }

  method GenerationFailed(cfg: Config, cs: Case, env: Env, st: State) returns (st': State, next: Stage)
    requires Inv(cfg, cs, env, Failing, st)
    ensures Inv(cfg, cs, env, next, st') && Down(Failing, st, next, st')
    ensures next == End(Reported) && st' == st.(log := st.log.(reported := [st.failure.value]))
  {
    hide Scope, RunFacts, CallsSound;
    FailingFacts(cfg, cs, env, st);
    FactsIgnoreReport(cfg, cs, env, st, st.failure.value);
    st' := st.(log := st.log.(reported := [st.failure.value]));
    next := End(Reported);
  }

  lemma FailingFacts(cfg: Config, cs: Case, env: Env, st: State)
    requires Counted(cfg, cs, env, Failing, st)
    ensures RunFacts(cfg, cs, env, st)
  {
    hide Scope, RequestsSound, OneCallEach, CallsSound;
    MoreRoom(cs, st.log, Limit(cfg, cs), st.evalRound, Limit(cfg, cs), RoundsIn(cs, Limit(cfg, cs)));
  }

  // ----- whole runs -----

  /** Node and edge: what the node of a stage makes of a state, and where it leads. */
  ghost predicate StepGoes(cfg: Config, cs: Case, env: Env, stage: Stage, st: State, next: Stage, st': State)
    requires ValidCase(cs) && ValidConfig(cfg)
  {
    match stage
    case Begin => BeginGoes(cfg, cs, env, st, next, st')
    case Prep => PrepareGoes(cs, env, st, next, st')
    case Sentence => SentencingGoes(cfg, cs, env, st, next, st')
    case Write => WriterGoes(cfg, cs, env, st, next, st')
    case Gate => GateGoes(cfg, cs, env, st, next, st')
    case Validate => ValidateGoes(cfg, cs, env, st, next, st')
    case Judging => st.writerDraft.Some? && EvaluatorGoes(cfg, cs, env, st, next, st')
    case Rewrite => (forall i :: i in st.repairTargets ==> i in cs.targets) && RewriteGoes(cfg, cs, env, st, next, st')
    case Finish => FinalizeGoes(cfg, cs, env, st, next, st')
    case Failing => st.failure.Some? && next == End(Reported) && st' == st.(log := st.log.(reported := [st.failure.value]))
    case End(_) => false
  }

  lemma StageParts(cfg: Config, cs: Case, env: Env, stage: Stage, st: State)
    requires Inv(cfg, cs, env, stage, st)
    ensures stage == Judging ==> st.writerDraft.Some?
    ensures stage == Rewrite ==> forall i :: i in st.repairTargets ==> i in cs.targets
    ensures stage == Failing ==> st.failure.Some?
  {
    hide Counted, Drafted, Assembled, Sane;
  }

  /** One node, and the edge behind it. */
  method Step(cfg: Config, cs: Case, env: Env, stage: Stage, st: State) returns (st': State, next: Stage)
    requires ValidCase(cs) && ValidConfig(cfg) && Monotone(env.clock)
    requires !stage.End? && Inv(cfg, cs, env, stage, st)
    ensures Inv(cfg, cs, env, next, st') && Down(stage, st, next, st')
    ensures StepGoes(cfg, cs, env, stage, st, next, st')
  {
    hide Inv, Down, ValidCase, ValidConfig, Monotone, BeginGoes, PrepareGoes, SentencingGoes, WriterGoes, GateGoes, ValidateGoes, EvaluatorGoes,
         RewriteGoes, FinalizeGoes;
    StageParts(cfg, cs, env, stage, st);
    match stage
    case Begin => st', next := BeginGeneration(cfg, cs, env, st);
    case Prep => st', next := Prepare(cfg, cs, env, st);
    case Sentence => st', next := Sentencing(cfg, cs, env, st);
    case Write => st', next := Writer(cfg, cs, env, st);
    case Gate => st', next := PassGate(cfg, cs, env, st);
    case Validate => st', next := DeterministicValidate(cfg, cs, env, st);
    case Judging => st', next := Evaluator(cfg, cs, env, st);
    case Rewrite => st', next := WriterRepair(cfg, cs, env, st);
    case Finish => st', next := Finalize(cfg, cs, env, st);
    case Failing => st', next := GenerationFailed(cfg, cs, env, st);
  }

  lemma RepairsBounded(cfg: Config, cs: Case, env: Env, stage: Stage, st: State)
    requires Inv(cfg, cs, env, stage, st)
    ensures st.repairCount <= cfg.maxRepair
  {
    hide RequestsSound, CallsSound, Local;
  }

  datatype Moment = Moment(stage: Stage, state: State)

  /** Steps from the first moment on, one after the other. */
  ghost predicate Steps(cfg: Config, cs: Case, env: Env, trace: seq<Moment>)
    requires ValidCase(cs) && ValidConfig(cfg)
  {
    && trace != [] && trace[0] == Moment(Begin, InitialState())
    && forall k :: 0 <= k < |trace| - 1 ==> StepGoes(cfg, cs, env, trace[k].stage, trace[k].state, trace[k + 1].stage, trace[k + 1].state)
  }

  lemma OneStepMore(cfg: Config, cs: Case, env: Env, trace: seq<Moment>, m: Moment)
    requires ValidCase(cs) && ValidConfig(cfg) && Steps(cfg, cs, env, trace)
    requires StepGoes(cfg, cs, env, trace[|trace| - 1].stage, trace[|trace| - 1].state, m.stage, m.state)
    ensures Steps(cfg, cs, env, trace + [m])
  {
    hide StepGoes, ValidCase, ValidConfig, InitialState;
  }

  lemma FirstMoment(cfg: Config, cs: Case, env: Env)
    requires ValidCase(cs) && ValidConfig(cfg)
    ensures Steps(cfg, cs, env, [Moment(Begin, InitialState())]) && Inv(cfg, cs, env, Begin, InitialState())
    ensures var st := InitialState();
            && st.tick == 0 && st.decision.None? && !st.fixed && st.drafts == map[] && !st.skipped && st.invalid == {} && st.writerErrors == []
            && st.repairCount == 0 && st.evalRound == 0 && st.failure.None? && st.log == Log([], [], [], [], 0, [])
  {
    hide StepGoes, ValidCase, ValidConfig;
  }

  lemma LastMoment(cfg: Config, cs: Case, env: Env, ending: Ending, st: State)
    requires Inv(cfg, cs, env, End(ending), st)
    ensures Ended(cfg, cs, env, ending, st)
  {
    hide Ended;
  }

  /** Every run ends, whatever the models and the backend answer and however the clock runs forward. */
  method Run(cfg: Config, cs: Case, env: Env) returns (st: State, ending: Ending, ghost trace: seq<Moment>)
    requires ValidCase(cs) && ValidConfig(cfg) && Monotone(env.clock)
    ensures Ended(cfg, cs, env, ending, st)
    ensures trace != [] && Steps(cfg, cs, env, trace) && trace[|trace| - 1] == Moment(End(ending), st)
  {
    hide Inv, Ended, ValidCase, ValidConfig, Monotone, StepGoes, Steps, InitialState;
    st := InitialState();
    var stage := Begin;
    trace := [Moment(stage, st)];
    FirstMoment(cfg, cs, env);
    while !stage.End?
      invariant Inv(cfg, cs, env, stage, st)
      invariant trace != [] && Steps(cfg, cs, env, trace) && trace[|trace| - 1] == Moment(stage, st)
      decreases cfg.maxRepair - st.repairCount, Rank(stage)
    {
      var next, st';
      st', next := Step(cfg, cs, env, stage, st);
      RepairsBounded(cfg, cs, env, next, st');
      OneStepMore(cfg, cs, env, trace, Moment(next, st'));
      st, stage := st', next;
      trace := trace + [Moment(stage, st)];
    }
    ending := stage.ending;
    LastMoment(cfg, cs, env, ending, st);
  }
}
