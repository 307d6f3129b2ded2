/** The writers: one call per intensity (`write_one`), their merge into the drafts (`fan_out`) and the
    gate behind them (`join`). */
module SentenceWriter {
  import opened Drafts
  import opened Budget
  import opened SentenceState
  import SentenceAssembly

  /** What came of one writer call. */
  datatype Outcome = AIText(draft: Draft, hints: Option<string>) | InvalidCard | FailedCall(kind: ErrorKind) | Skipped | Invalidated

  /** The answer holds a card of the asked intensity, an angle that was allowed, and hints that are valid. */
  predicate Usable(w: WriteReply, i: Intensity) {
    w.Written? && IsCard(w.draft) && w.draft.intensity == i && w.angleAllowed && w.hintsValid
  }

  /** One writer call, started only when time is left for the evaluator and finalize. */
  function WriteOne(cfg: Config, env: Env, expires: real, offset: nat, i: Intensity, now: real): (o: Outcome)
    ensures o.AIText? ==> o.draft.intensity == i && o.draft.source == AI && IsCard(o.draft)
    ensures o.Skipped? <==> NodeTimeout(WRITER, cfg.caps, expires, now).None?
    ensures o.Invalidated? <==> !o.Skipped? && env.write(offset, i).WriteInvalidated?
    ensures o.AIText? <==> !o.Skipped? && Usable(env.write(offset, i), i)
    ensures o.AIText? ==> o.draft == env.write(offset, i).draft.(source := AI) && o.hints == env.write(offset, i).hints
    ensures o.InvalidCard? ==> env.write(offset, i).Written? && (!IsCard(env.write(offset, i).draft.(source := AI)) || !env.write(offset, i).hintsValid)
    ensures !o.Skipped? && env.write(offset, i).WriteBroken? <==> o.FailedCall? && !env.write(offset, i).Written?
  {
    if NodeTimeout(WRITER, cfg.caps, expires, now).None? then Skipped
    else
      match env.write(offset, i)
      case WriteInvalidated => Invalidated
      case WriteBroken(kind) => FailedCall(kind)
      case Written(raw, angleAllowed, hints, hintsValid) =>
        var text := raw.(source := AI);
        if !IsCard(text) then InvalidCard
        else if text.intensity != i || !angleAllowed then FailedCall(SCHEMA)
        else if !hintsValid then InvalidCard
        else AIText(text, hints)
  }

  /** The outcomes of one visit, each call at its own clock reading. */
  function OutcomesOf(cfg: Config, env: Env, expires: real, offset: nat, intensities: seq<Intensity>, start: nat): (r: seq<Outcome>)
    ensures |r| == |intensities|
  {
    seq(|intensities|, k requires 0 <= k < |intensities| => WriteOne(cfg, env, expires, offset, intensities[k], env.clock(start + k)))
  }

  /** The indices of the calls that were started, in order. */
  function WriterCalls(cs: Case, offset: nat, intensities: seq<Intensity>, outcomes: seq<Outcome>): seq<nat>
    requires |outcomes| == |intensities| && forall i :: i in intensities ==> i in cs.targets
  {
    if intensities == [] then []
    else
      var n := |intensities| - 1;
      WriterCalls(cs, offset, intensities[..n], outcomes[..n])
      + if outcomes[n].Skipped? then [] else [WriterCallIndex(offset, Position(cs.targets, intensities[n]))]
  }

  lemma OneMoreWriter(cs: Case, offset: nat, intensities: seq<Intensity>, n: nat, outcomes: seq<Outcome>, o: Outcome)
    requires n == |outcomes| < |intensities| && forall i :: i in intensities ==> i in cs.targets
    ensures WriterCalls(cs, offset, intensities[..n + 1], outcomes + [o])
            == WriterCalls(cs, offset, intensities[..n], outcomes)
               + if o.Skipped? then [] else [WriterCallIndex(offset, Position(cs.targets, intensities[n]))]
  {
    assert intensities[..n + 1][..n] == intensities[..n] && (outcomes + [o])[..n] == outcomes;
  }

  predicate IndexOfOne(cs: Case, offset: nat, intensities: seq<Intensity>, c: nat)
    requires forall i :: i in intensities ==> i in cs.targets
  {
    exists i :: i in intensities && c == WriterCallIndex(offset, Position(cs.targets, i))
  }

  /** They are different, and each belongs to one of the intensities. */
  lemma {:induction false} WriterCallsSound(cs: Case, offset: nat, intensities: seq<Intensity>, outcomes: seq<Outcome>)
    requires |outcomes| == |intensities| && Distinct(intensities) && forall i :: i in intensities ==> i in cs.targets
    ensures var calls := WriterCalls(cs, offset, intensities, outcomes);
            Distinct(calls) && |calls| <= |intensities| && forall c :: c in calls ==> IndexOfOne(cs, offset, intensities, c)
    decreases |intensities|
  {
    hide Position, IndexOfOne, WriterCallIndex;
    if intensities != [] {
      var n := |intensities| - 1;
      var before := WriterCalls(cs, offset, intensities[..n], outcomes[..n]);
      WriterCallsSound(cs, offset, intensities[..n], outcomes[..n]);
      LastIndexIsNew(cs, offset, intensities);
      assert forall c :: c in before ==> IndexOfOne(cs, offset, intensities[..n], c);
    }
  }

  lemma LastIndexIsNew(cs: Case, offset: nat, intensities: seq<Intensity>)
    requires intensities != [] && Distinct(intensities) && forall i :: i in intensities ==> i in cs.targets
    ensures var n := |intensities| - 1;
            var mine := WriterCallIndex(offset, Position(cs.targets, intensities[n]));
            IndexOfOne(cs, offset, intensities, mine)
            && forall c :: IndexOfOne(cs, offset, intensities[..n], c) ==> c != mine && IndexOfOne(cs, offset, intensities, c)
  {
    hide Position;
    var n := |intensities| - 1;
    var mine := WriterCallIndex(offset, Position(cs.targets, intensities[n]));
    assert intensities[n] in intensities;
    forall c | IndexOfOne(cs, offset, intensities[..n], c) ensures c != mine && IndexOfOne(cs, offset, intensities, c) {
      var i :| i in intensities[..n] && c == WriterCallIndex(offset, Position(cs.targets, i));
      var j :| 0 <= j < n && intensities[..n][j] == i;
      assert intensities[j] == i && i != intensities[n];
      SamePosition(cs.targets, i, intensities[n]);
    }
  }

  lemma NoWriters(cs: Case, offset: nat)
    ensures WriterCalls(cs, offset, [], []) == []
  {}

  /** All writers of one visit. */
  method Gather(cfg: Config, cs: Case, env: Env, expires: real, offset: nat, intensities: seq<Intensity>, start: nat)
    returns (outcomes: seq<Outcome>, calls: seq<nat>, tick: nat)
    requires forall i :: i in intensities ==> i in cs.targets
    ensures outcomes == OutcomesOf(cfg, env, expires, offset, intensities, start) && tick == start + |intensities|
    ensures calls == WriterCalls(cs, offset, intensities, outcomes)
  {
    hide WriteOne, IsCard, NodeTimeout, Position, WriterCalls;
    outcomes, calls, tick := [], [], start;
    NoWriters(cs, offset);
    for n := 0 to |intensities|
      invariant |outcomes| == n && tick == start + n
      invariant forall k :: 0 <= k < n ==> outcomes[k] == WriteOne(cfg, env, expires, offset, intensities[k], env.clock(start + k))
      invariant calls == WriterCalls(cs, offset, intensities[..n], outcomes)
    {
      var i := intensities[n];
      var o := WriteOne(cfg, env, expires, offset, i, env.clock(tick));
      if !o.Skipped? {
        calls := calls + [WriterCallIndex(offset, Position(cs.targets, i))];
      }
      OneMoreWriter(cs, offset, intensities, n, outcomes, o);
      outcomes := outcomes + [o];
      tick := tick + 1;
    }
    assert intensities[..|intensities|] == intensities;
  }

  lemma SamePosition(targets: seq<Intensity>, a: Intensity, b: Intensity)
    requires a in targets && b in targets
    ensures Position(targets, a) == Position(targets, b) <==> a == b
  {}

  /** The text an outcome leaves behind: the writer's own, else a template, which a text retry never uses. */
  function TextFrom(cfg: Config, cs: Case, decision: Option<Decision>, o: Outcome, i: Intensity): (t: Option<Draft>)
    requires ValidConfig(cfg) && (o.AIText? ==> o.draft.intensity == i && o.draft.source == AI)
    ensures t.Some? ==> t.value.intensity == i && (t.value.source == AI <==> o.AIText?)
  {
    if o.AIText? then Some(o.draft)
    else if cs.mode == REGENERATE then None
    else SentenceAssembly.TemplateFor(cfg, decision, i)
  }

  predicate Placed(drafts: map<Intensity, Draft>, sources: map<Intensity, Source>, i: Intensity, t: Option<Draft>) {
    match t
    case None => i !in drafts && i !in sources
    case Some(d) => i in drafts && i in sources && drafts[i] == d && sources[i] == d.source
  }

  /** Drafts, sources, hints and invalid cards after a visit. */
  datatype Fanned = Fanned(drafts: map<Intensity, Draft>, sources: map<Intensity, Source>, hints: Option<string>,
                           skipped: bool, invalid: set<Intensity>, errors: seq<ErrorKind>)

  /** Every outcome asked for is answered for: a text of that intensity, and nothing from anybody else. */
  predicate Owned(intensities: seq<Intensity>, outcomes: seq<Outcome>) {
    && |outcomes| <= |intensities|
    && forall k :: 0 <= k < |outcomes| && outcomes[k].AIText? ==> outcomes[k].draft.intensity == intensities[k] && outcomes[k].draft.source == AI
  }

  ghost predicate MergedTexts(cfg: Config, cs: Case, decision: Option<Decision>, intensities: seq<Intensity>, outcomes: seq<Outcome>, was: Fanned, now: Fanned)
    requires ValidConfig(cfg) && Owned(intensities, outcomes)
  {
    && (forall k :: 0 <= k < |outcomes| ==> Placed(now.drafts, now.sources, intensities[k], TextFrom(cfg, cs, decision, outcomes[k], intensities[k])))
    && (forall i :: i !in intensities[..|outcomes|] ==> SameAt(was, now, i))
  }

  predicate SameAt(was: Fanned, now: Fanned, i: Intensity) {
    && (i in now.drafts <==> i in was.drafts) && (i in was.drafts ==> now.drafts[i] == was.drafts[i])
    && (i in now.sources <==> i in was.sources) && (i in was.sources ==> now.sources[i] == was.sources[i])
  }

  /** Hints follow the default intensity; a card is marked invalid exactly when its last attempt was. */
  ghost predicate MergedRest(cs: Case, intensities: seq<Intensity>, outcomes: seq<Outcome>, was: Fanned, now: Fanned)
    requires |outcomes| <= |intensities|
  {
    && (forall k :: 0 <= k < |outcomes| ==> (intensities[k] in now.invalid <==> outcomes[k].InvalidCard?))
    && (forall i :: i !in intensities[..|outcomes|] ==> (i in now.invalid <==> i in was.invalid))
    && (forall k :: 0 <= k < |outcomes| && intensities[k] == cs.defaultIntensity ==> now.hints == HintsOf(outcomes[k]))
    && (cs.defaultIntensity !in intensities[..|outcomes|] ==> now.hints == was.hints)
    && (now.skipped <==> was.skipped || exists k :: 0 <= k < |outcomes| && outcomes[k].Skipped?)
    && (forall e :: e in now.errors <==> e in was.errors || exists k :: 0 <= k < |outcomes| && ErrorOf(outcomes[k]) == Some(e))
  }

  function HintsOf(o: Outcome): Option<string> {
    if o.AIText? then o.hints else None
  }

  function ErrorOf(o: Outcome): Option<ErrorKind> {
    match o
    case InvalidCard => Some(SCHEMA)
    case FailedCall(kind) => Some(kind)
    case _ => None
  }

  ghost predicate Merged(cfg: Config, cs: Case, decision: Option<Decision>, intensities: seq<Intensity>, outcomes: seq<Outcome>, was: Fanned, now: Fanned)
    requires ValidConfig(cfg) && Owned(intensities, outcomes)
  {
    MergedTexts(cfg, cs, decision, intensities, outcomes, was, now) && MergedRest(cs, intensities, outcomes, was, now)
  }

  /** One outcome folded into the drafts. */
  function Fold(cfg: Config, cs: Case, decision: Option<Decision>, was: Fanned, i: Intensity, o: Outcome): Fanned
    requires ValidConfig(cfg) && (o.AIText? ==> o.draft.intensity == i && o.draft.source == AI)
  {
    var t := TextFrom(cfg, cs, decision, o, i);
    Fanned(if t.Some? then was.drafts[i := t.value] else was.drafts - {i},
           if t.Some? then was.sources[i := t.value.source] else was.sources - {i},
           if i != cs.defaultIntensity then was.hints else HintsOf(o),
           was.skipped || o.Skipped?,
           if o.InvalidCard? then was.invalid + {i} else was.invalid - {i},
           was.errors + if ErrorOf(o).Some? then [ErrorOf(o).value] else [])
  }

  lemma FoldTexts(cfg: Config, cs: Case, decision: Option<Decision>, intensities: seq<Intensity>, outcomes: seq<Outcome>, o: Outcome, was: Fanned, now: Fanned)
    requires ValidConfig(cfg) && Distinct(intensities) && |outcomes| < |intensities| && Owned(intensities, outcomes + [o])
    requires Owned(intensities, outcomes) && MergedTexts(cfg, cs, decision, intensities, outcomes, was, now)
    ensures var i := intensities[|outcomes|];
            (o.AIText? ==> o.draft.intensity == i && o.draft.source == AI)
            && MergedTexts(cfg, cs, decision, intensities, outcomes + [o], was, Fold(cfg, cs, decision, now, i, o))
  {
    hide ValidConfig, TextFrom, IsCard;
    var n := |outcomes|;
    var i := intensities[n];
    var all := outcomes + [o];
    assert all[n] == o;
    var next := Fold(cfg, cs, decision, now, i, o);
    assert intensities[..n + 1] == intensities[..n] + [i];
    assert forall j :: j != i ==> SameAt(now, next, j);
    forall k | 0 <= k < n + 1 ensures Placed(next.drafts, next.sources, intensities[k], TextFrom(cfg, cs, decision, all[k], intensities[k])) {
      if k < n {
        assert all[k] == outcomes[k] && intensities[k] != i && SameAt(now, next, intensities[k]);
        assert Placed(now.drafts, now.sources, intensities[k], TextFrom(cfg, cs, decision, outcomes[k], intensities[k]));
      }
    }
  }

  lemma FoldRest(cfg: Config, cs: Case, decision: Option<Decision>, intensities: seq<Intensity>, outcomes: seq<Outcome>, o: Outcome, was: Fanned, now: Fanned)
    requires ValidConfig(cfg) && Distinct(intensities) && |outcomes| < |intensities| && Owned(intensities, outcomes + [o])
    requires MergedRest(cs, intensities, outcomes, was, now)
    requires o.AIText? ==> o.draft.intensity == intensities[|outcomes|] && o.draft.source == AI
    ensures MergedRest(cs, intensities, outcomes + [o], was, Fold(cfg, cs, decision, now, intensities[|outcomes|], o))
  {
    hide ValidConfig, TextFrom, IsCard, Owned;
    var n := |outcomes|;
    var all := outcomes + [o];
    assert intensities[..n + 1] == intensities[..n] + [intensities[n]];
    assert all[n] == o && forall k :: 0 <= k < n ==> all[k] == outcomes[k] && intensities[k] != intensities[n];
    var next := Fold(cfg, cs, decision, now, intensities[n], o);
    forall e ensures e in next.errors <==> e in was.errors || exists k :: 0 <= k < n + 1 && ErrorOf(all[k]) == Some(e) {
      if ErrorOf(o) == Some(e) {
        assert ErrorOf(all[n]) == Some(e);
      }
      if k :| 0 <= k < n && ErrorOf(outcomes[k]) == Some(e) {
        assert ErrorOf(all[k]) == Some(e);
      }
    }
    assert (exists k :: 0 <= k < n + 1 && all[k].Skipped?) <==> (exists k :: 0 <= k < n && outcomes[k].Skipped?) || o.Skipped?;
  }

  /** `now` is what the answers of one visit make of `was`. */
  ghost predicate Wrote(cfg: Config, cs: Case, env: Env, expires: real, decision: Option<Decision>, was: Fanned, asked: seq<Intensity>, offset: nat, start: nat, now: Fanned)
    requires ValidConfig(cfg)
  {
    Merged(cfg, cs, decision, asked, OutcomesOf(cfg, env, expires, offset, asked, start), was, now)
  }

  datatype FanOutcome = FanInvalidated | FanDone(out: Fanned)

  predicate AnyInvalidated(outcomes: seq<Outcome>) {
    exists k :: 0 <= k < |outcomes| && outcomes[k].Invalidated?
  }

  /** All writers of one visit. When any of them was invalidated the whole visit is, after all calls ended. */
  method FanOut(cfg: Config, cs: Case, env: Env, expires: real, decision: Option<Decision>, was: Fanned, intensities: seq<Intensity>, offset: nat, start: nat)
    returns (r: FanOutcome, calls: seq<nat>, tick: nat)
    requires ValidConfig(cfg) && Distinct(intensities) && forall i :: i in intensities ==> i in Scope(cs) && i in cs.targets
    requires DraftsAgree(cs, was.drafts, was.sources) && (forall i :: i in was.invalid ==> i in Scope(cs))
    requires cs.mode == REGENERATE ==> AllAI(was.sources)
    ensures tick == start + |intensities|
    ensures calls == WriterCalls(cs, offset, intensities, OutcomesOf(cfg, env, expires, offset, intensities, start))
    ensures r.FanInvalidated? <==> AnyInvalidated(OutcomesOf(cfg, env, expires, offset, intensities, start))
    ensures r.FanDone? ==> DraftsAgree(cs, r.out.drafts, r.out.sources) && (forall i :: i in r.out.invalid ==> i in Scope(cs))
    ensures r.FanDone? && cs.mode == REGENERATE ==> AllAI(r.out.sources)
    ensures r.FanDone? ==> Wrote(cfg, cs, env, expires, decision, was, intensities, offset, start, r.out)
  {
    hide WriteOne, IsCard, NodeTimeout, Merged, Fold, ValidConfig, WriterCalls, Scope, DraftsAgree, AllAI;
    var outcomes;
    outcomes, calls, tick := Gather(cfg, cs, env, expires, offset, intensities, start);
    if AnyInvalidated(outcomes) {
      return FanInvalidated, calls, tick;
    }
    var out := MergeAll(cfg, cs, decision, was, intensities, outcomes);
    MergedKeepsAgreement(cfg, cs, decision, intensities, outcomes, was, out);
    r := FanDone(out);
  }

  method MergeAll(cfg: Config, cs: Case, decision: Option<Decision>, was: Fanned, intensities: seq<Intensity>, outcomes: seq<Outcome>) returns (out: Fanned)
    requires ValidConfig(cfg) && Distinct(intensities) && |outcomes| == |intensities| && Owned(intensities, outcomes)
    ensures Merged(cfg, cs, decision, intensities, outcomes, was, out)
  {
    out := was;
    for n := 0 to |intensities|
      invariant Merged(cfg, cs, decision, intensities, outcomes[..n], was, out)
    {
      hide Merged, Fold, ValidConfig;
      assert outcomes[..n + 1] == outcomes[..n] + [outcomes[n]];
      OneMoreMerged(cfg, cs, decision, intensities, outcomes[..n], outcomes[n], was, out);
      out := Fold(cfg, cs, decision, out, intensities[n], outcomes[n]);
    }
    assert outcomes[..|outcomes|] == outcomes;
  }

  lemma OneMoreMerged(cfg: Config, cs: Case, decision: Option<Decision>, intensities: seq<Intensity>, outcomes: seq<Outcome>, o: Outcome, was: Fanned, now: Fanned)
    requires ValidConfig(cfg) && Distinct(intensities) && |outcomes| < |intensities| && Owned(intensities, outcomes + [o]) && Owned(intensities, outcomes)
    requires Merged(cfg, cs, decision, intensities, outcomes, was, now)
    ensures var i := intensities[|outcomes|];
            (o.AIText? ==> o.draft.intensity == i && o.draft.source == AI)
            && Merged(cfg, cs, decision, intensities, outcomes + [o], was, Fold(cfg, cs, decision, now, i, o))
  {
    hide ValidConfig, Fold, Owned, MergedTexts, MergedRest;
    FoldTexts(cfg, cs, decision, intensities, outcomes, o, was, now);
    FoldRest(cfg, cs, decision, intensities, outcomes, o, was, now);
  }

  lemma MergedKeepsAgreement(cfg: Config, cs: Case, decision: Option<Decision>, intensities: seq<Intensity>, outcomes: seq<Outcome>, was: Fanned, now: Fanned)
    requires ValidConfig(cfg) && |outcomes| == |intensities| && Owned(intensities, outcomes) && forall i :: i in intensities ==> i in Scope(cs)
    requires Merged(cfg, cs, decision, intensities, outcomes, was, now)
    requires DraftsAgree(cs, was.drafts, was.sources) && (forall i :: i in was.invalid ==> i in Scope(cs))
    requires cs.mode == REGENERATE ==> AllAI(was.sources)
    ensures DraftsAgree(cs, now.drafts, now.sources) && (forall i :: i in now.invalid ==> i in Scope(cs))
    ensures cs.mode == REGENERATE ==> AllAI(now.sources)
  {
    hide ValidConfig;
    forall i ensures i in now.drafts <==> i in now.sources
      ensures i in now.drafts ==> now.drafts[i].intensity == i && now.drafts[i].source == now.sources[i] && i in Scope(cs)
      ensures i in now.sources && cs.mode == REGENERATE ==> now.sources[i] == AI
      ensures i in now.invalid ==> i in Scope(cs)
    {
      assert intensities[..|outcomes|] == intensities;
      if i in intensities {
        var k :| 0 <= k < |intensities| && intensities[k] == i;
        assert Placed(now.drafts, now.sources, intensities[k], TextFrom(cfg, cs, decision, outcomes[k], intensities[k]));
      }
    }
  }

  // ----- the gate behind the writers (`join`) -----

  datatype Joined = JoinRepair(targets: seq<Intensity>) | JoinFailed(code: FailCode) | JoinOn

  predicate JoinRepairs(cfg: Config, cs: Case, st: State, now: real, later: real) {
    && st.invalid != {}
    && SentenceAssembly.RepairOpen(cfg, cs, st, now)
    && NodeTimeout(WRITER, cfg.caps, st.expires, later).Some?
  }

  predicate IsAI(sources: map<Intensity, Source>, i: Intensity) {
    i in sources && sources[i] == AI
  }

  function Join(cfg: Config, cs: Case, st: State, now: real, later: real): Joined {
    var scope := Scope(cs);
    if JoinRepairs(cfg, cs, st, now, later) then JoinRepair(Filter(scope, i => i in st.invalid))
    else if (forall k :: 0 <= k < |scope| ==> !IsAI(st.sources, scope[k]))
            || (cs.mode == REGENERATE && exists k :: 0 <= k < |scope| && !IsAI(st.sources, scope[k])) then
      if st.invalid != {} && forall k :: 0 <= k < |scope| ==> IsAI(st.sources, scope[k]) || scope[k] in st.invalid then JoinFailed(FailCode.SCHEMA_INVALID)
      else JoinFailed(WriterFailureCode(st.writerErrors, st.skipped))
    else if exists k :: 0 <= k < |scope| && scope[k] !in st.drafts then JoinFailed(FailCode.SCHEMA_INVALID)
    else JoinOn
  }

  /** Past the gate there is a text for every intensity, an AI text among them, and in a text retry nothing else. */
  lemma JoinOnIsComplete(cfg: Config, cs: Case, st: State, now: real, later: real)
    requires DraftsAgree(cs, st.drafts, st.sources)
    requires Join(cfg, cs, st, now, later).JoinOn?
    ensures Covers(cs, st.sources) && SomeAI(st.sources) && (cs.mode == REGENERATE ==> AllAI(st.sources))
  {
    hide JoinRepairs, Scope, WriterFailureCode;
    var scope := Scope(cs);
    var k :| 0 <= k < |scope| && IsAI(st.sources, scope[k]);
    assert scope[k] in st.sources && st.sources[scope[k]] == AI;
    assert st.drafts.Keys == st.sources.Keys;
    forall i ensures i in st.sources <==> i in scope
      ensures cs.mode == REGENERATE && i in st.sources ==> st.sources[i] == AI
    {
      if i in st.sources {
        assert i in st.drafts;
      }
      if i in scope {
        var j :| 0 <= j < |scope| && scope[j] == i;
        assert scope[j] in st.drafts;
        assert cs.mode == REGENERATE ==> IsAI(st.sources, scope[j]);
      }
    }
  }

  /** A rewrite is asked for here exactly in a first run with an invalid card, a rewrite and five seconds left, and time to
      start a writer when the clock is read again. */
  lemma JoinRepairsIff(cfg: Config, cs: Case, st: State, now: real, later: real)
    requires Positive(cfg.caps)
    ensures Join(cfg, cs, st, now, later).JoinRepair? <==>
            && cs.mode == INITIAL && st.repairCount < cfg.maxRepair && now + 5.0 <= st.expires && later + cfg.caps.evaluator + 0.5 < st.expires
            && exists i :: i in st.invalid
  {
    NodesGetTheirTime(cfg.caps, st.expires, later);
    hide Scope, NodeTimeout, WriterFailureCode, Filter;
  }

  /** A repair asked for here rewrites exactly the invalid cards, in the first run only, and while rewrites are left. */
  lemma JoinRepairsInvalidCards(cfg: Config, cs: Case, st: State, now: real, later: real)
    requires Distinct(Scope(cs)) && forall i :: i in st.invalid ==> i in Scope(cs)
    requires Join(cfg, cs, st, now, later).JoinRepair?
    ensures var ts := Join(cfg, cs, st, now, later).targets;
            ts != [] && Distinct(ts) && (forall i :: i in ts <==> i in st.invalid)
    ensures cs.mode == INITIAL && st.repairCount < cfg.maxRepair
  {
    hide Scope, NodeTimeout;
    var i :| i in st.invalid;
    assert i in Filter(Scope(cs), i => i in st.invalid);
  }

  /** Money is blamed only when money ran out, time only when a call was skipped or timed out. */
  lemma JoinBlamesHonestly(cfg: Config, cs: Case, st: State, now: real, later: real)
    requires Join(cfg, cs, st, now, later).JoinFailed?
    ensures var code := Join(cfg, cs, st, now, later).code;
            (code == BUDGET_EXCEEDED ==> BUDGET in st.writerErrors)
            && (code == FailCode.DEADLINE_EXCEEDED ==> (st.skipped || TIMEOUT in st.writerErrors) && BUDGET !in st.writerErrors)
            && (code == FailCode.SCHEMA_INVALID ==> st.invalid != {} || exists i :: i in Scope(cs) && i !in st.drafts)
  {
    hide JoinRepairs, Scope;
  }
}
