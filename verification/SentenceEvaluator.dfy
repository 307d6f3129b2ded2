/** One evaluator round (`evaluate`) and what its answers mean for the texts that were shown. */
module SentenceEvaluator {
  import opened Drafts
  import opened Budget
  import opened SentenceState
  import E = EvaluationReport

  datatype Answer = Ok(output: E.Output) | Hollow | Broken(kind: ErrorKind) | NotStarted | Stale

  const PASSING_CHECK := E.Check(E.Verdict(true), [])

  /** What an answer says; the joint report of no replies at all passes both checks and mentions no text. */
  function Said(a: Answer): E.Output
    requires a.Ok? || a.Hollow?
  {
    if a.Ok? then a.output else E.Output([], PASSING_CHECK, PASSING_CHECK, false)
  }

  /** Checks about the sentence are filled in when the case has none. */
  function Filled(cs: Case, output: E.Output): E.Output {
    if NeedsSentence(cs) then output else output.(sentenceCheck := PASSING_CHECK, reasonCheck := PASSING_CHECK)
  }

  /** One evaluator call. */
  function AskOne(cfg: Config, cs: Case, env: Env, expires: real, round: nat, hell: bool, now: real): (a: Answer)
    ensures a.NotStarted? <==> NodeTimeout(EVALUATOR, cfg.caps, expires, now).None?
    ensures a.Ok? && !NeedsSentence(cs) ==> a.output.sentenceCheck == PASSING_CHECK && a.output.reasonCheck == PASSING_CHECK
  {
    if NodeTimeout(EVALUATOR, cfg.caps, expires, now).None? then NotStarted
    else
      match env.evaluate(round, hell)
      case EvalInvalidated => Stale
      case EvalBroken(kind) => Broken(kind)
      case JudgedNothing => if NeedsSentence(cs) then Hollow else Ok(E.Output([], PASSING_CHECK, PASSING_CHECK, false))
      case Judged(output) => Ok(Filled(cs, output))
  }

  /** Hell is judged by its own call when another model judges it and it is not alone. */
  predicate Split(cfg: Config, scope: seq<Intensity>) {
    cfg.hellApart && Hell in scope && |scope| > 1
  }

  function Groups(cfg: Config, scope: seq<Intensity>): (g: seq<seq<Intensity>>)
    ensures 1 <= |g| <= 2 && (|g| == 2 <==> Split(cfg, scope))
    ensures forall i :: i in scope ==> i in g[0] || (|g| == 2 && i in g[1])
    ensures |g| == 2 ==> g[1] == [Hell] && g[0] != [Hell]
  {
    if Split(cfg, scope) then [Filter(scope, i => i != Hell), [Hell]] else [scope]
  }

  /** The call goes to the hell model. */
  predicate HellCall(cfg: Config, group: seq<Intensity>) {
    cfg.hellApart && group == [Hell]
  }

  function TextsOf(texts: seq<Draft>, group: seq<Intensity>): (r: seq<Draft>)
    ensures forall d :: d in r <==> d in texts && d.intensity in group
  {
    if texts == [] then []
    else (if texts[0].intensity in group then [texts[0]] else []) + TextsOf(texts[1..], group)
  }

  /** Hell is judged apart exactly when another model judges it and some other intensity is judged as well. */
  lemma HellIsApartIff(cfg: Config, scope: seq<Intensity>)
    requires Distinct(scope)
    ensures |Groups(cfg, scope)| == 2 <==> cfg.hellApart && Hell in scope && (Mild in scope || Spicy in scope)
    ensures |Groups(cfg, scope)| == 2 ==> forall i :: i in Groups(cfg, scope)[0] <==> i in scope && i != Hell
    ensures |Groups(cfg, scope)| == 1 ==> Groups(cfg, scope) == [scope]
    ensures forall g :: 0 <= g < |Groups(cfg, scope)| ==>
              (HellCall(cfg, Groups(cfg, scope)[g]) <==> cfg.hellApart && Hell in Groups(cfg, scope)[g] && |Groups(cfg, scope)[g]| == 1)
  {
    if |scope| > 1 {
      assert scope[0] != scope[1] && scope[0] in scope && scope[1] in scope;
    }
  }

  /** What one call makes of the reply: in a case with a sentence the reply as it is, the empty object standing for no reply;
      in any other the two checks pass whatever the reply says, and the empty object is a reply that mentions no text. */
  lemma RepliesAreTakenAsTheyAre(cfg: Config, cs: Case, env: Env, expires: real, round: nat, hell: bool, now: real)
    requires Positive(cfg.caps)
    ensures var a, judged := AskOne(cfg, cs, env, expires, round, hell, now), cs.result.Guilty? && cs.spent;
            && (a.NotStarted? <==> now + 0.5 >= expires)
            && (now + 0.5 < expires ==>
                  match env.evaluate(round, hell)
                  case EvalInvalidated => a == Stale
                  case EvalBroken(kind) => a == Answer.Broken(kind)
                  case Judged(output) =>
                    a.Ok? && a.output.texts == output.texts && a.output.extraKeys == output.extraKeys
                    && (judged ==> a.output == output) && (!judged ==> E.Passing(a.output.sentenceCheck) && E.Passing(a.output.reasonCheck))
                  case JudgedNothing =>
                    (a.Hollow? <==> judged) && Said(a).texts == [] && !Said(a).extraKeys && E.Passing(Said(a).sentenceCheck) && E.Passing(Said(a).reasonCheck))
  {
    NodesGetTheirTime(cfg.caps, expires, now);
    hide NodeTimeout;
  }

  datatype RoundResult =
    | RoundInvalidated
    | RoundFailed(errors: seq<ErrorKind>)
    | RoundSkipped
    | RoundOk(output: E.Output, round: EvalRound)

  /** What a finished round has on record: who was shown which texts and answered what. */
  ghost predicate Recorded(cfg: Config, texts: seq<Draft>, scope: seq<Intensity>, output: E.Output, round: EvalRound) {
    && |round.calls| == |Groups(cfg, scope)|
    && (forall g :: 0 <= g < |round.calls| ==> round.calls[g].seen == TextsOf(texts, Groups(cfg, scope)[g]))
    && output.texts == JointEntries(round.calls)
    && (E.CheckClears(output.sentenceCheck) <==> E.JointlyClear(SentenceChecks(round.calls)))
    && (E.CheckClears(output.reasonCheck) <==> E.JointlyClear(ReasonChecks(round.calls)))
  }

  /** The answers of one round, one per group, each asked at its own clock reading. */
  function AnswersOf(cfg: Config, cs: Case, env: Env, expires: real, scope: seq<Intensity>, number: nat, start: nat): (r: seq<Answer>)
    ensures |r| == |Groups(cfg, scope)|
  {
    var groups := Groups(cfg, scope);
    seq(|groups|, g requires 0 <= g < |groups| => AskOne(cfg, cs, env, expires, number, HellCall(cfg, groups[g]), env.clock(start + g)))
  }

  /** The indices of the calls that were started, in order. */
  function Started(cfg: Config, groups: seq<seq<Intensity>>, answers: seq<Answer>, number: nat): seq<nat>
    requires |groups| == |answers|
  {
    if groups == [] then []
    else
      var n := |groups| - 1;
      Started(cfg, groups[..n], answers[..n], number) + if answers[n].NotStarted? then [] else [EvaluatorCallIndex(number, HellCall(cfg, groups[n]))]
  }

  lemma OneMoreCall(cfg: Config, groups: seq<seq<Intensity>>, n: nat, answers: seq<Answer>, a: Answer, number: nat)
    requires n == |answers| < |groups|
    ensures Started(cfg, groups[..n + 1], answers + [a], number)
            == Started(cfg, groups[..n], answers, number) + if a.NotStarted? then [] else [EvaluatorCallIndex(number, HellCall(cfg, groups[n]))]
    ensures Started(cfg, [], [], number) == []
  {
    assert groups[..n + 1][..n] == groups[..n] && (answers + [a])[..n] == answers;
  }

  /** They are different and belong to this round. */
  lemma StartedSound(cfg: Config, scope: seq<Intensity>, answers: seq<Answer>, number: nat)
    requires |answers| == |Groups(cfg, scope)|
    ensures var calls := Started(cfg, Groups(cfg, scope), answers, number);
            |calls| <= 2 && Distinct(calls) && forall c :: c in calls ==> 2 * number <= c < 2 * (number + 1)
    ensures 2 * number + 1 in Started(cfg, Groups(cfg, scope), answers, number) ==> cfg.hellApart && Hell in scope
    ensures 2 * number in Started(cfg, Groups(cfg, scope), answers, number) ==> !(cfg.hellApart && scope == [Hell])
  {
    var groups := Groups(cfg, scope);
    assert Started(cfg, groups[..0], answers[..0], number) == [];
    if |groups| == 2 {
      assert groups[..1][..0] == groups[..0] && answers[..1][..0] == answers[..0];
    }
  }

  lemma AnswerAt(cfg: Config, cs: Case, env: Env, expires: real, scope: seq<Intensity>, number: nat, start: nat, g: nat)
    requires g < |Groups(cfg, scope)|
    ensures AnswersOf(cfg, cs, env, expires, scope, number, start)[g]
            == AskOne(cfg, cs, env, expires, number, HellCall(cfg, Groups(cfg, scope)[g]), env.clock(start + g))
  {
    hide AskOne, HellCall, Groups;
  }

  method AskAll(cfg: Config, cs: Case, env: Env, expires: real, scope: seq<Intensity>, number: nat, start: nat)
    returns (answers: seq<Answer>, calls: seq<nat>, tick: nat)
    ensures tick == start + |answers| && answers == AnswersOf(cfg, cs, env, expires, scope, number, start)
    ensures calls == Started(cfg, Groups(cfg, scope), answers, number)
  {
    hide AskOne, NodeTimeout, Started, Groups, HellCall, AnswersOf;
    var groups := Groups(cfg, scope);
    ghost var all := AnswersOf(cfg, cs, env, expires, scope, number, start);
    answers, calls, tick := [], [], start;
    OneMoreCall(cfg, groups, 0, [], NotStarted, number);
    for g := 0 to |groups|
      invariant tick == start + g && answers == all[..g]
      invariant calls == Started(cfg, groups[..g], answers, number)
    {
      AnswerAt(cfg, cs, env, expires, scope, number, start, g);
      var a := AskOne(cfg, cs, env, expires, number, HellCall(cfg, groups[g]), env.clock(tick));
      if !a.NotStarted? {
        calls := calls + [EvaluatorCallIndex(number, HellCall(cfg, groups[g]))];
      }
      OneMoreCall(cfg, groups, g, answers, a, number);
      answers := answers + [a];
      tick := tick + 1;
    }
    assert groups[..|groups|] == groups && all[..|groups|] == all;
  }

  function BrokenKinds(answers: seq<Answer>): (r: seq<ErrorKind>)
    ensures forall k :: k in r <==> Answer.Broken(k) in answers
    ensures r == [] <==> forall g :: 0 <= g < |answers| ==> !answers[g].Broken?
  {
    if answers == [] then []
    else
      assert answers == [answers[0]] + answers[1..];
      (if answers[0].Broken? then [answers[0].kind] else []) + BrokenKinds(answers[1..])
  }

  predicate Answered(answers: seq<Answer>) {
    forall g :: 0 <= g < |answers| ==> answers[g].Ok? || answers[g].Hollow?
  }

  /** The record of one call. */
  function CallOf(cfg: Config, texts: seq<Draft>, group: seq<Intensity>, said: E.Output): EvalCall {
    EvalCall(HellCall(cfg, group), TextsOf(texts, group), said.texts, said.sentenceCheck, said.reasonCheck)
  }

  /** The joint report: replies without any key do not take part. */
  function Joint(answers: seq<Answer>): E.Output
    requires 1 <= |answers| <= 2 && Answered(answers)
  {
    if |answers| == 1 || answers[1].Hollow? then Said(answers[0])
    else if answers[0].Hollow? then answers[1].output
    else E.MergeReports(answers[0].output, answers[1].output)
  }

  /** What a round with these answers comes to: stale epochs come before errors, errors before calls not started.
      Only when all calls answered is there a joint output, and the round records who saw and said what. */
  predicate RoundGoes(cfg: Config, cs: Case, wd: WriterDraft, decision: Option<Decision>, scope: seq<Intensity>, answers: seq<Answer>, r: RoundResult)
    requires |answers| == |Groups(cfg, scope)|
  {
    if NeedsSentence(cs) != decision.Some? then r == RoundFailed([])
    else if exists g :: 0 <= g < |answers| && answers[g].Stale? then r.RoundInvalidated?
    else if BrokenKinds(answers) != [] then r == RoundFailed(BrokenKinds(answers))
    else if exists g :: 0 <= g < |answers| && answers[g].NotStarted? then r.RoundSkipped?
    else
      && r.RoundOk?
      && r.output == Joint(answers)
      && r.round.judged == Hash(wd, decision) && |r.round.calls| == |answers|
      && forall g :: 0 <= g < |answers| ==> r.round.calls[g] == CallOf(cfg, wd.texts, Groups(cfg, scope)[g], Said(answers[g]))
  }

  function CallsIn(cfg: Config, cs: Case, decision: Option<Decision>, scope: seq<Intensity>, number: nat, answers: seq<Answer>): seq<nat>
    requires |answers| == |Groups(cfg, scope)|
  {
    if NeedsSentence(cs) != decision.Some? then [] else Started(cfg, Groups(cfg, scope), answers, number)
  }

  /** One round over the intensities of `scope`. */
  method Evaluate(cfg: Config, cs: Case, env: Env, expires: real, wd: WriterDraft, decision: Option<Decision>, scope: seq<Intensity>, number: nat, start: nat)
    returns (r: RoundResult, calls: seq<nat>, tick: nat)
    ensures tick == start + if NeedsSentence(cs) == decision.Some? then |Groups(cfg, scope)| else 0
    ensures |calls| <= 2 && Distinct(calls) && forall c :: c in calls ==> 2 * number <= c < 2 * (number + 1)
    ensures RoundGoes(cfg, cs, wd, decision, scope, AnswersOf(cfg, cs, env, expires, scope, number, start), r)
    ensures calls == CallsIn(cfg, cs, decision, scope, number, AnswersOf(cfg, cs, env, expires, scope, number, start))
    ensures r.RoundOk? ==> tick == start + |Groups(cfg, scope)| && Recorded(cfg, wd.texts, scope, r.output, r.round)
  {
    hide AskOne, NodeTimeout, Groups, AnswersOf, Started, Recorded, TextsOf, HellCall, BrokenKinds, E.MergeReports;
    if NeedsSentence(cs) != decision.Some? {
      return RoundFailed([]), [], start;
    }
    var answers;
    answers, calls, tick := AskAll(cfg, cs, env, expires, scope, number, start);
    StartedSound(cfg, scope, answers, number);
    if exists g :: 0 <= g < |answers| && answers[g].Stale? {
      return RoundInvalidated, calls, tick;
    }
    var errors := BrokenKinds(answers);
    if errors != [] {
      return RoundFailed(errors), calls, tick;
    }
    if exists g :: 0 <= g < |answers| && answers[g].NotStarted? {
      return RoundSkipped, calls, tick;
    }
    r := Combine(cfg, wd, decision, scope, answers);
  }

  method Combine(cfg: Config, wd: WriterDraft, decision: Option<Decision>, scope: seq<Intensity>, answers: seq<Answer>) returns (r: RoundResult)
    requires |answers| == |Groups(cfg, scope)| && Answered(answers)
    ensures r.RoundOk? && Recorded(cfg, wd.texts, scope, r.output, r.round)
    ensures r.output == Joint(answers)
    ensures r.round.judged == Hash(wd, decision) && |r.round.calls| == |answers|
    ensures forall g :: 0 <= g < |answers| ==> r.round.calls[g] == CallOf(cfg, wd.texts, Groups(cfg, scope)[g], Said(answers[g]))
  {
    hide E.CheckClears, E.JointlyClear;
    var groups := Groups(cfg, scope);
    var c0 := CallOf(cfg, wd.texts, groups[0], Said(answers[0]));
    if |answers| == 1 {
      OneCallJoins(c0);
      r := RoundOk(Said(answers[0]), EvalRound([c0], Hash(wd, decision)));
    } else {
      var c1 := CallOf(cfg, wd.texts, groups[1], Said(answers[1]));
      TwoCallsJoin(c0, c1);
      JointIsMerged(answers);
      r := RoundOk(Joint(answers), EvalRound([c0, c1], Hash(wd, decision)));
    }
  }

  lemma OneCallJoins(c: EvalCall)
    ensures JointEntries([c]) == c.entries
    ensures E.CheckClears(c.sentence) <==> E.JointlyClear(SentenceChecks([c]))
    ensures E.CheckClears(c.reason) <==> E.JointlyClear(ReasonChecks([c]))
  {
    hide E.CheckClears, E.JointlyClear;
    JointOfOne([c]);
    E.OneClears(c.sentence);
    E.OneClears(c.reason);
    assert SentenceChecks([c]) == [c.sentence] && ReasonChecks([c]) == [c.reason];
  }

  lemma TwoCallsJoin(a: EvalCall, b: EvalCall)
    ensures JointEntries([a, b]) == a.entries + b.entries
    ensures E.CheckClears(E.JoinChecks(a.sentence, b.sentence)) <==> E.JointlyClear(SentenceChecks([a, b]))
    ensures E.CheckClears(E.JoinChecks(a.reason, b.reason)) <==> E.JointlyClear(ReasonChecks([a, b]))
  {
    hide E.CheckClears, E.JointlyClear, E.JoinChecks;
    JointOfOne([a]);
    assert [a, b][..1] == [a];
    E.JoinedIffJointly(a.sentence, b.sentence);
    E.JoinedIffJointly(a.reason, b.reason);
    assert SentenceChecks([a, b]) == [a.sentence, b.sentence] && ReasonChecks([a, b]) == [a.reason, b.reason];
  }

  /** Dropping an empty reply gives the entries and checks that merging it would: it passes both and mentions nothing. */
  lemma JointIsMerged(answers: seq<Answer>)
    requires |answers| == 2 && Answered(answers)
    ensures var a, b, j := Said(answers[0]), Said(answers[1]), Joint(answers);
            && j.texts == a.texts + b.texts
            && (E.CheckClears(j.sentenceCheck) <==> E.CheckClears(E.JoinChecks(a.sentenceCheck, b.sentenceCheck)))
            && (E.CheckClears(j.reasonCheck) <==> E.CheckClears(E.JoinChecks(a.reasonCheck, b.reasonCheck)))
  {
    var a, b := Said(answers[0]), Said(answers[1]);
    NeutralCheck(a.sentenceCheck);
    NeutralCheck(a.reasonCheck);
    NeutralCheck(b.sentenceCheck);
    NeutralCheck(b.reasonCheck);
  }

  lemma NeutralCheck(c: E.Check)
    ensures E.CheckClears(E.JoinChecks(c, PASSING_CHECK)) <==> E.CheckClears(c)
    ensures E.CheckClears(E.JoinChecks(PASSING_CHECK, c)) <==> E.CheckClears(c)
  {
    if c.Check? {
      assert c.violations + [] == c.violations && [] + c.violations == c.violations;
    }
  }

  /** Every text of the scope was shown to some call of the round. */
  lemma ScopeIsShown(cfg: Config, texts: seq<Draft>, scope: seq<Intensity>, output: E.Output, round: EvalRound, d: Draft)
    requires Recorded(cfg, texts, scope, output, round) && d in texts && d.intensity in scope
    ensures Shown(round, d)
  {
    var g := if d.intensity in Groups(cfg, scope)[0] then 0 else 1;
    assert d in round.calls[g].seen;
  }

  // ----- the report of a round -----

  predicate HasTemplate(texts: seq<Draft>, i: Intensity) {
    exists k :: 0 <= k < |texts| && texts[k].intensity == i && texts[k].source == TEMPLATE
  }

  /** A template is let through whatever the evaluator said about it. */
  function PassTemplate(texts: seq<Draft>, e: E.Entry): E.Entry {
    if e.key.Known? && HasTemplate(texts, e.key.i) then e.(pass := E.Verdict(true), violations := [], problems := []) else e
  }

  function Final(texts: seq<Draft>, e: E.Entry): (f: E.Entry)
    ensures f.key == e.key
  {
    PassTemplate(texts, E.ForgiveEntry(e))
  }

  /** The verdict is what is left of the merged raw entries. */
  ghost predicate FromEntries(texts: seq<Draft>, entries: seq<E.Entry>, i: Intensity, verdict: E.Entry) {
    exists m :: E.Summarises(m, entries, i) && verdict == Final(texts, m)
  }

  /** The verdict the round arrives at for each intensity: its own merged answer, else the kept entry. */
  ghost predicate Verdicts(texts: seq<Draft>, entries: seq<E.Entry>, reused: map<Intensity, E.Entry>, verdicts: map<Intensity, E.Entry>) {
    && (forall i :: i in verdicts <==> E.Mentions(entries, i) || i in reused)
    && (forall i :: i in verdicts ==> verdicts[i].key == E.Known(i))
    && (forall i :: i in verdicts && E.Mentions(entries, i) ==>
          && FromEntries(texts, entries, i, verdicts[i])
          && (verdicts[i].pass == E.Verdict(true) <==> HasTemplate(texts, i) || E.Clears(entries, i)))
    && (forall i :: i in verdicts && !E.Mentions(entries, i) ==> verdicts[i] == reused[i])
  }

  /** The verdicts on the targets, in their order. */
  function Listed(verdicts: map<Intensity, E.Entry>, targets: seq<Intensity>): (r: seq<E.Entry>)
    ensures forall e :: e in r <==> exists i :: i in targets && i in verdicts && e == verdicts[i]
    ensures (forall i :: i in targets ==> i in verdicts) ==> |r| == |targets| && forall k :: 0 <= k < |r| ==> r[k] == verdicts[targets[k]]
  {
    if targets == [] then []
    else
      var init, last := targets[..|targets| - 1], targets[|targets| - 1];
      assert targets == init + [last];
      Listed(verdicts, init) + if last in verdicts then [verdicts[last]] else []
  }

  /** The verdicts on the targets in their order, everything else behind them. */
  method Ordered(verdicts: map<Intensity, E.Entry>, targets: seq<Intensity>, order: seq<Intensity>, extras: seq<E.Entry>) returns (r: seq<E.Entry>)
    requires forall i :: i in verdicts ==> i in targets || i in order
    requires forall i :: i in order ==> i in verdicts
    ensures Listed(verdicts, targets) <= r
    ensures forall e :: e in r <==> (exists i :: i in verdicts && e == verdicts[i]) || e in extras
    ensures r == Listed(verdicts, targets) <==> (forall i :: i in verdicts ==> i in targets) && extras == []
  {
    r := [];
    for n := 0 to |targets|
      invariant r == Listed(verdicts, targets[..n])
    {
      assert targets[..n + 1][..n] == targets[..n];
      if targets[n] in verdicts {
        r := r + [verdicts[targets[n]]];
      }
    }
    assert targets[..|targets|] == targets;
    var head := r;
    for n := 0 to |order|
      invariant head <= r && (r == head <==> forall i :: i in order[..n] ==> i in targets)
      invariant forall e :: e in r <==> exists i :: (i in targets || i in order[..n]) && i in verdicts && e == verdicts[i]
    {
      assert order[..n + 1] == order[..n] + [order[n]];
      if order[n] !in targets {
        r := r + [verdicts[order[n]]];
      }
    }
    assert order[..|order|] == order;
    r := r + extras;
  }

  function VerdictMap(texts: seq<Draft>, merged: map<Intensity, E.Entry>, reused: map<Intensity, E.Entry>): map<Intensity, E.Entry> {
    map i | i in merged.Keys + reused.Keys :: if i in merged then Final(texts, merged[i]) else reused[i]
  }

  lemma VerdictMapIsRight(texts: seq<Draft>, entries: seq<E.Entry>, merged: map<Intensity, E.Entry>, reused: map<Intensity, E.Entry>)
    requires forall i :: i in merged <==> E.Mentions(entries, i)
    requires forall i :: i in merged ==> E.Summarises(merged[i], entries, i)
    requires forall i :: i in reused ==> reused[i].key == E.Known(i)
    ensures Verdicts(texts, entries, reused, VerdictMap(texts, merged, reused))
    ensures forall i :: i in VerdictMap(texts, merged, reused) ==> VerdictMap(texts, merged, reused)[i].key == E.Known(i)
  {
    hide E.Clears, HasTemplate, E.Mentions, E.Summarises, Final, FromEntries;
    forall i | i in merged
      ensures Final(texts, merged[i]).key == E.Known(i) && FromEntries(texts, entries, i, Final(texts, merged[i]))
      ensures Final(texts, merged[i]).pass == E.Verdict(true) <==> HasTemplate(texts, i) || E.Clears(entries, i)
    {
      FinalPasses(texts, entries, merged[i], i);
    }
  }

  lemma FinalPasses(texts: seq<Draft>, entries: seq<E.Entry>, e: E.Entry, i: Intensity)
    requires E.Mentions(entries, i) && E.Summarises(e, entries, i)
    ensures Final(texts, e).key == E.Known(i) && FromEntries(texts, entries, i, Final(texts, e))
    ensures Final(texts, e).pass == E.Verdict(true) <==> HasTemplate(texts, i) || E.Clears(entries, i)
  {
    hide E.Clears, HasTemplate;
    E.ForgivenIffClears(e, entries, i);
  }

  /** The report written down from the verdicts. */
  ghost predicate ReportOf(targets: seq<Intensity>, output: E.Output, verdicts: map<Intensity, E.Entry>, report: E.Report) {
    && Listed(verdicts, targets) <= report.texts
    && (forall e :: e in report.texts && e.key.Known? <==> e.key.Known? && e.key.i in verdicts && e == verdicts[e.key.i])
    && ((exists e :: e in report.texts && e.key.Unknown?) <==> Strangers(output))
    && (!Strangers(output) && (forall i :: i in verdicts ==> i in targets) ==> report.texts == Listed(verdicts, targets))
    && report.sentenceCheck == E.ForgiveCheck(output.sentenceCheck) && report.reasonCheck == E.ForgiveCheck(output.reasonCheck)
    && report.extraKeys == output.extraKeys
  }

  /** An entry about something that is no intensity. */
  predicate Strangers(output: E.Output) {
    exists e :: e in output.texts && e.key.Unknown?
  }

  method BuildReport(targets: seq<Intensity>, texts: seq<Draft>, output: E.Output, reused: map<Intensity, E.Entry>)
    returns (report: E.Report, verdicts: map<Intensity, E.Entry>)
    requires forall i :: i in reused ==> i in targets && reused[i].key == E.Known(i)
    ensures Verdicts(texts, output.texts, reused, verdicts) && ReportOf(targets, output, verdicts, report)
  {
    hide E.Clears, E.Summarises, E.Mentions, HasTemplate, Final, Verdicts, Listed, ReportOf;
    var merged, order, extras := E.MergeSameIntensity(output.texts);
    verdicts := VerdictMap(texts, merged, reused);
    VerdictMapIsRight(texts, output.texts, merged, reused);
    var others := seq(|extras|, k requires 0 <= k < |extras| => Final(texts, extras[k]));
    var list := Ordered(verdicts, targets, order, others);
    report := E.Report(list, E.ForgiveCheck(output.sentenceCheck), E.ForgiveCheck(output.reasonCheck), output.extraKeys);
    OthersAreStrangers(texts, output, extras, others);
    ListedReport(targets, output, verdicts, others, report);
  }

  lemma OthersAreStrangers(texts: seq<Draft>, output: E.Output, extras: seq<E.Entry>, others: seq<E.Entry>)
    requires forall e :: e in extras <==> e in output.texts && e.key.Unknown?
    requires |others| == |extras| && forall k :: 0 <= k < |extras| ==> others[k] == Final(texts, extras[k])
    ensures forall e :: e in others ==> e.key.Unknown?
    ensures others != [] <==> Strangers(output)
  {
    hide Final;
    assert extras != [] ==> extras[0] in extras;
  }

  lemma ListedReport(targets: seq<Intensity>, output: E.Output, verdicts: map<Intensity, E.Entry>, others: seq<E.Entry>, report: E.Report)
    requires forall i :: i in verdicts ==> verdicts[i].key == E.Known(i)
    requires (forall e :: e in others ==> e.key.Unknown?) && (others != [] <==> Strangers(output))
    requires Listed(verdicts, targets) <= report.texts
    requires forall e :: e in report.texts <==> (exists i :: i in verdicts && e == verdicts[i]) || e in others
    requires report.texts == Listed(verdicts, targets) <==> (forall i :: i in verdicts ==> i in targets) && others == []
    requires report == E.Report(report.texts, E.ForgiveCheck(output.sentenceCheck), E.ForgiveCheck(output.reasonCheck), output.extraKeys)
    ensures ReportOf(targets, output, verdicts, report)
  {
    hide Listed, Strangers, E.ForgiveCheck;
    assert others != [] ==> others[0] in others;
  }

  /** What it takes to be let through: nothing outside the contract, both checks passing or rejecting for advisory codes
      alone, and a passing verdict for each target and for nothing else. */
  predicate Passes(targets: seq<Intensity>, output: E.Output, verdicts: map<Intensity, E.Entry>) {
    && !output.extraKeys && !Strangers(output)
    && CheckPasses(output.sentenceCheck) && CheckPasses(output.reasonCheck)
    && (forall i :: i in verdicts <==> i in targets)
    && (forall i :: i in verdicts ==> verdicts[i].pass == E.Verdict(true) && E.ShapedEntry(verdicts[i]))
  }

  /** A check that clears as it arrived, in shape as far as anything of it is left. */
  predicate CheckPasses(c: E.Check) {
    E.CheckClears(c) && (c.pass == E.Verdict(true) ==> E.ShapedViolations(c.violations))
  }

  lemma ForgivenCheckPasses(c: E.Check)
    ensures E.ShapedCheck(E.ForgiveCheck(c)) && E.Passing(E.ForgiveCheck(c)) <==> CheckPasses(c)
  {
    E.ForgivenCheckIffClears(c);
    hide E.ForgiveCheck, E.CheckClears;
  }

  /** The report is accepted exactly when its verdicts pass. */
  lemma AcceptedIffPasses(targets: seq<Intensity>, output: E.Output, verdicts: map<Intensity, E.Entry>, report: E.Report)
    requires Distinct(targets) && 1 <= |targets| <= 3 && ReportOf(targets, output, verdicts, report)
    requires forall i :: i in verdicts ==> verdicts[i].key == E.Known(i)
    ensures E.Accepts(report, targets) <==> Passes(targets, output, verdicts)
  {
    if E.Accepts(report, targets) {
      AcceptedPasses(targets, output, verdicts, report);
    }
    if Passes(targets, output, verdicts) {
      PassingIsAccepted(targets, output, verdicts, report);
    }
  }

  lemma AcceptedPasses(targets: seq<Intensity>, output: E.Output, verdicts: map<Intensity, E.Entry>, report: E.Report)
    requires ReportOf(targets, output, verdicts, report) && E.Accepts(report, targets)
    requires forall i :: i in verdicts ==> verdicts[i].key == E.Known(i)
    ensures Passes(targets, output, verdicts)
  {
    hide E.ShapedEntry, E.ShapedCheck, E.Passing, E.ForgiveCheck, CheckPasses, Listed;
    ForgivenCheckPasses(output.sentenceCheck);
    ForgivenCheckPasses(output.reasonCheck);
    forall i | i in verdicts ensures i in targets && verdicts[i].pass == E.Verdict(true) && E.ShapedEntry(verdicts[i]) {
      assert verdicts[i] in report.texts;
    }
    forall i | i in targets ensures i in verdicts {
      var k :| 0 <= k < |report.texts| && report.texts[k].key == E.Known(i);
      assert report.texts[k] in report.texts;
    }
  }

  lemma PassingTexts(targets: seq<Intensity>, output: E.Output, verdicts: map<Intensity, E.Entry>, report: E.Report)
    requires ReportOf(targets, output, verdicts, report) && Passes(targets, output, verdicts)
    requires forall i :: i in verdicts ==> verdicts[i].key == E.Known(i)
    ensures |report.texts| == |targets|
    ensures forall k :: 0 <= k < |targets| ==>
              report.texts[k].key == E.Known(targets[k]) && targets[k] in targets && E.ShapedEntry(report.texts[k]) && report.texts[k].pass == E.Verdict(true)
    ensures !report.extraKeys && E.ShapedCheck(report.sentenceCheck) && E.ShapedCheck(report.reasonCheck)
    ensures E.Passing(report.sentenceCheck) && E.Passing(report.reasonCheck)
  {
    hide E.ShapedEntry, E.ShapedCheck, E.Passing, E.ForgiveCheck, CheckPasses, Listed;
    ForgivenCheckPasses(output.sentenceCheck);
    ForgivenCheckPasses(output.reasonCheck);
    assert forall k :: 0 <= k < |targets| ==> targets[k] in targets;
  }

  lemma PassingIsAccepted(targets: seq<Intensity>, output: E.Output, verdicts: map<Intensity, E.Entry>, report: E.Report)
    requires Distinct(targets) && 1 <= |targets| <= 3
    requires ReportOf(targets, output, verdicts, report) && Passes(targets, output, verdicts)
    requires forall i :: i in verdicts ==> verdicts[i].key == E.Known(i)
    ensures E.Accepts(report, targets)
  {
    hide E.ShapedEntry, E.ShapedCheck, E.Passing, E.ForgiveCheck, Passes, ReportOf;
    var texts := report.texts;
    PassingTexts(targets, output, verdicts, report);
    forall i | i in targets ensures E.Mentions(texts, i) {
      assert texts[Position(targets, i)].key == E.Known(i);
    }
  }

  // ----- kept entries -----

  /** Entries carried over a rewrite: passing, and for an AI text vouched for by an earlier round. */
  ghost predicate KeptSound(cs: Case, rounds: seq<EvalRound>, kept: map<Intensity, (Draft, E.Entry)>) {
    forall i :: i in kept ==>
      && i in Scope(cs) && kept[i].0.intensity == i && kept[i].1.key == E.Known(i)
      && kept[i].1.pass == E.Verdict(true)
      && (kept[i].0.source == AI ==> Vouched(rounds, kept[i].0))
  }

  /** Only an entry whose text has not changed since is used again. */
  function Reusable(kept: map<Intensity, (Draft, E.Entry)>, texts: seq<Draft>): map<Intensity, E.Entry> {
    map i | i in kept && kept[i].0 in texts :: kept[i].1
  }

  /** The intensities the next round has to judge; all of them when every one could be reused. */
  function Unjudged(targets: seq<Intensity>, reused: map<Intensity, E.Entry>): (s: seq<Intensity>)
    ensures forall i :: i in targets && i !in reused ==> i in s
  {
    var rest := Filter(targets, i => i !in reused);
    if rest == [] then targets else rest
  }

  ghost predicate AllVouched(rounds: seq<EvalRound>, drafts: map<Intensity, Draft>) {
    forall i :: i in drafts && drafts[i].source == AI ==> Vouched(rounds, drafts[i])
  }

  /** A passing verdict on an AI text means that some round saw exactly that text and cleared it. */
  lemma PassMeansVouched(cfg: Config, cs: Case, rounds: seq<EvalRound>, kept: map<Intensity, (Draft, E.Entry)>, texts: seq<Draft>,
                         output: E.Output, round: EvalRound, verdicts: map<Intensity, E.Entry>, i: Intensity, k: nat)
    requires KeptSound(cs, rounds, kept)
    requires k < |texts| && texts[k].intensity == i && texts[k].source == AI && i in Scope(cs)
    requires forall j, l :: 0 <= j < l < |texts| ==> texts[j].intensity != texts[l].intensity
    requires Recorded(cfg, texts, Unjudged(Scope(cs), Reusable(kept, texts)), output, round)
    requires Verdicts(texts, output.texts, Reusable(kept, texts), verdicts) && i in verdicts && verdicts[i].pass == E.Verdict(true)
    ensures Vouched(rounds + [round], texts[k])
  {
    hide E.Clears, JointEntries, Scope;
    var reused := Reusable(kept, texts);
    var all := rounds + [round];
    assert all[|rounds|] == round;
    if i in reused {
      var j :| 0 <= j < |texts| && texts[j] == kept[i].0;
      assert texts[j] == texts[k];
      VouchedGrows(rounds, [round], texts[k]);
    } else {
      ScopeIsShown(cfg, texts, Unjudged(Scope(cs), reused), output, round, texts[k]);
      assert !HasTemplate(texts, i);
      assert Shown(all[|rounds|], texts[k]) && E.Clears(JointEntries(all[|rounds|].calls), texts[k].intensity);
    }
  }

  /** A round judges exactly the texts whose entries cannot be used again, and all of them when every entry can. */
  lemma UnjudgedExactly(targets: seq<Intensity>, reused: map<Intensity, E.Entry>, i: Intensity)
    ensures i in Unjudged(targets, reused) <==> i in targets && (i in reused ==> forall j :: j in targets ==> j in reused)
  {
    var rest := Filter(targets, j => j !in reused);
    if rest != [] {
      assert rest[0] in rest;
    }
  }
}
