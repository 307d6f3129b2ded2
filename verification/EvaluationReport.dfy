/** The evaluator's report: merging entries of one intensity, forgiving advisory codes, and the
    structural check that decides whether a report is a pass. */
module EvaluationReport {
  import opened Drafts

  /** A `pass` field as it arrives from the model. */
  datatype Pass = Missing | NotBool | Verdict(ok: bool)

  datatype Violation =
    | Advisory(detail: string, shaped: bool)               // UNGROUNDED_CLAIM
    | Hard(code: string, detail: string, shaped: bool)     // every other code
    | NotAnObject                                          // JSON value that is no object

  datatype Key = Known(i: Intensity) | Unknown(name: string)

  datatype Entry = Entry(key: Key, pass: Pass, violations: seq<Violation>, problems: seq<string>)

  datatype Check = Absent | Check(pass: Pass, violations: seq<Violation>)

  /** One evaluator reply. `extraKeys`: it carries keys outside the contract. */
  datatype Output = Output(texts: seq<Entry>, sentenceCheck: Check, reasonCheck: Check, extraKeys: bool)

  // ----- merging entries of the same intensity (`_merge_same_intensity`) -----

  predicate Mentions(entries: seq<Entry>, i: Intensity) {
    exists k :: 0 <= k < |entries| && entries[k].key == Known(i)
  }

  predicate AllVerdicts(entries: seq<Entry>, i: Intensity) {
    forall k :: 0 <= k < |entries| && entries[k].key == Known(i) ==> entries[k].pass.Verdict?
  }

  predicate AllPass(entries: seq<Entry>, i: Intensity) {
    forall k :: 0 <= k < |entries| && entries[k].key == Known(i) ==> entries[k].pass == Verdict(true)
  }

  predicate Cites(entries: seq<Entry>, i: Intensity, v: Violation) {
    exists k :: 0 <= k < |entries| && entries[k].key == Known(i) && v in entries[k].violations
  }

  predicate Notes(entries: seq<Entry>, i: Intensity, p: string) {
    exists k :: 0 <= k < |entries| && entries[k].key == Known(i) && p in entries[k].problems
  }

  function Dedup<T(==,!new)>(s: seq<T>): (r: seq<T>)
    ensures forall x :: x in r <==> x in s
    ensures Distinct(r)
  {
    if s == [] then []
    else
      var init, last := s[..|s| - 1], s[|s| - 1];
      var d := Dedup(init);
      assert s == init + [last];
      if last in d then d else d + [last]
  }

  function MergePass(first: Pass, second: Pass): Pass {
    if first.Verdict? && second.Verdict? then Verdict(first.ok && second.ok)
    else if !first.Verdict? then first
    else second
  }

  function MergeTwo(target: Entry, entry: Entry): Entry {
    target.(pass := MergePass(target.pass, entry.pass),
            violations := Dedup(target.violations + entry.violations),
            problems := Dedup(target.problems + entry.problems))
  }

  /** What the merged entry of intensity `i` says about the raw entries it came from. */
  ghost predicate Summarises(e: Entry, entries: seq<Entry>, i: Intensity) {
    && e.key == Known(i)
    && (e.pass.Verdict? <==> AllVerdicts(entries, i))
    && (e.pass == Verdict(true) <==> AllPass(entries, i))
    && (forall v :: v in e.violations <==> Cites(entries, i, v))
    && (forall p :: p in e.problems <==> Notes(entries, i, p))
  }

  lemma SummarisesStep(e: Entry, entries: seq<Entry>, next: Entry, i: Intensity)
    requires Mentions(entries, i) && Summarises(e, entries, i)
    ensures next.key == Known(i) ==> Summarises(MergeTwo(e, next), entries + [next], i)
    ensures next.key != Known(i) ==> Summarises(e, entries + [next], i)
  {
    var all := entries + [next];
    var n := |entries|;
    assert all[n] == next;
    assert forall k :: 0 <= k < n ==> all[k] == entries[k];
    assert AllVerdicts(all, i) <==> AllVerdicts(entries, i) && (next.key == Known(i) ==> next.pass.Verdict?);
    assert AllPass(all, i) <==> AllPass(entries, i) && (next.key == Known(i) ==> next.pass == Verdict(true));
    forall v ensures Cites(all, i, v) <==> Cites(entries, i, v) || (next.key == Known(i) && v in next.violations) {
      if Cites(entries, i, v) {
        var k :| 0 <= k < n && entries[k].key == Known(i) && v in entries[k].violations;
        assert all[k].key == Known(i) && v in all[k].violations;
      }
      if next.key == Known(i) && v in next.violations {
        assert all[n].key == Known(i) && v in all[n].violations;
      }
    }
    forall p ensures Notes(all, i, p) <==> Notes(entries, i, p) || (next.key == Known(i) && p in next.problems) {
      if Notes(entries, i, p) {
        var k :| 0 <= k < n && entries[k].key == Known(i) && p in entries[k].problems;
        assert all[k].key == Known(i) && p in all[k].problems;
      }
      if next.key == Known(i) && p in next.problems {
        assert all[n].key == Known(i) && p in all[n].problems;
      }
    }
  }

  lemma NothingMentioned()
    ensures forall i :: !Mentions([], i)
  {}

  /** Folds entries of one intensity into one, keeping first-seen order; entries whose intensity is
      unknown are left alone so that the structural check still sees them. */
  method MergeSameIntensity(entries: seq<Entry>) returns (merged: map<Intensity, Entry>, order: seq<Intensity>, extras: seq<Entry>)
    ensures Distinct(order) && merged.Keys == set i | i in order
    ensures forall i :: i in merged <==> Mentions(entries, i)
    ensures forall i :: i in merged ==> Summarises(merged[i], entries, i)
    ensures forall e :: e in extras <==> e in entries && e.key.Unknown?
  {
    hide Summarises, MergeTwo, Mentions;
    NothingMentioned();
    merged, order, extras := map[], [], [];
    for n := 0 to |entries|
      invariant Distinct(order) && merged.Keys == set i | i in order
      invariant forall i :: i in merged <==> Mentions(entries[..n], i)
      invariant forall i :: i in merged ==> Summarises(merged[i], entries[..n], i)
      invariant forall e :: e in extras <==> e in entries[..n] && e.key.Unknown?
    {
      var entry := entries[n];
      ghost var was := merged;
      ghost var pre, post := entries[..n], entries[..n + 1];
      assert post == pre + [entry];
      assert forall i :: Mentions(post, i) <==> Mentions(pre, i) || entry.key == Known(i) by {
        forall i ensures Mentions(post, i) <==> Mentions(pre, i) || entry.key == Known(i) {
          MentionsStep(pre, entry, i);
        }
      }
      forall i | i in was
        ensures entry.key == Known(i) ==> Summarises(MergeTwo(was[i], entry), post, i)
        ensures entry.key != Known(i) ==> Summarises(was[i], post, i)
      {
        SummarisesStep(was[i], pre, entry, i);
      }
      if entry.key.Unknown? {
        extras := extras + [entry];
      } else if entry.key.i !in merged {
        FirstEntry(pre, entry);
        merged := merged[entry.key.i := entry];
        order := order + [entry.key.i];
      } else {
        merged := merged[entry.key.i := MergeTwo(merged[entry.key.i], entry)];
      }
    }
    assert entries[..|entries|] == entries;
  }

  lemma MentionsStep(pre: seq<Entry>, entry: Entry, i: Intensity)
    ensures Mentions(pre + [entry], i) <==> Mentions(pre, i) || entry.key == Known(i)
  {
    var post := pre + [entry];
    assert post[|pre|] == entry;
    if Mentions(pre, i) {
      var k :| 0 <= k < |pre| && pre[k].key == Known(i);
      assert post[k].key == Known(i);
    }
  }

  lemma FirstEntry(pre: seq<Entry>, entry: Entry)
    requires entry.key.Known? && !Mentions(pre, entry.key.i)
    ensures Summarises(entry, pre + [entry], entry.key.i)
  {
    var all := pre + [entry];
    assert all[|pre|] == entry;
    assert forall k :: 0 <= k < |pre| ==> all[k] == pre[k] && pre[k].key != entry.key;
    forall v ensures v in entry.violations <==> Cites(all, entry.key.i, v) {
      if v in entry.violations {
        assert all[|pre|].key == Known(entry.key.i) && v in all[|pre|].violations;
      }
    }
    forall p ensures p in entry.problems <==> Notes(all, entry.key.i, p) {
      if p in entry.problems {
        assert all[|pre|].key == Known(entry.key.i) && p in all[|pre|].problems;
      }
    }
  }

  // ----- forgiving advisory codes (`_forgive_advisory`) -----

  function Objects(vs: seq<Violation>): (r: seq<Violation>)
    ensures forall v :: v in r <==> v in vs && !v.NotAnObject?
  {
    if vs == [] then []
    else (if vs[0].NotAnObject? then [] else [vs[0]]) + Objects(vs[1..])
  }

  function HardOnes(vs: seq<Violation>): (r: seq<Violation>)
    ensures forall v :: v in r <==> v in vs && !v.Advisory?
    ensures |r| <= |vs|
    ensures |r| == |vs| <==> forall v :: v in vs ==> !v.Advisory?
  {
    if vs == [] then []
    else
      assert vs == [vs[0]] + vs[1..];
      (if vs[0].Advisory? then [] else [vs[0]]) + HardOnes(vs[1..])
  }

  function ForgiveEntry(e: Entry): Entry {
    if e.pass != Verdict(false) then e
    else
      var objects := Objects(e.violations);
      var kept := HardOnes(objects);
      if |kept| == |objects| then e
      else if kept != [] then e.(violations := kept)
      else e.(violations := [], pass := Verdict(true), problems := [])
  }

  function ForgiveCheck(c: Check): Check {
    if c.Absent? || c.pass != Verdict(false) then c
    else
      var objects := Objects(c.violations);
      var kept := HardOnes(objects);
      if |kept| == |objects| then c
      else if kept != [] then c.(violations := kept)
      else c.(violations := [], pass := Verdict(true))
  }

  /** A check as it arrives is let through when it passes, or when it rejects for advisory codes and nothing harder. */
  predicate CheckClears(c: Check) {
    c.Check? && (c.pass == Verdict(true)
                 || (c.pass == Verdict(false) && (exists v :: v in c.violations && v.Advisory?) && forall v :: v in c.violations ==> !v.Hard?))
  }

  /** Forgiving lets exactly those checks through; of a check that cites advisory and harder codes the harder ones are
      left, and any other check stays as it is. */
  lemma ForgivenCheckIffClears(c: Check)
    ensures Passing(ForgiveCheck(c)) <==> CheckClears(c)
    ensures CheckClears(c) ==> ForgiveCheck(c) == if c.pass == Verdict(true) then c else Check(Verdict(true), [])
    ensures !CheckClears(c) ==>
              ForgiveCheck(c) == c
              || (c.Check? && ForgiveCheck(c).Check? && ForgiveCheck(c).pass == c.pass == Verdict(false)
                  && forall v :: v in ForgiveCheck(c).violations <==> v in c.violations && v.Hard?)
    ensures c.Check? && c.pass == Verdict(false) && (exists v :: v in c.violations && v.Advisory?) ==> forall v :: v in ForgiveCheck(c).violations ==> v.Hard?
  {
    if c.Check? && c.pass == Verdict(false) {
      var objects := Objects(c.violations);
      var kept := HardOnes(objects);
      if |kept| != |objects| {
        var v :| v in objects && v.Advisory?;
        assert v in c.violations;
      } else {
        assert forall v :: v in c.violations && v.Advisory? ==> v in objects;
      }
      if kept != [] {
        assert kept[0] in kept && kept[0] in c.violations && kept[0].Hard?;
      } else {
        assert forall v :: v in c.violations && v.Hard? ==> v in objects && v in kept;
      }
    }
  }

  /** What a set of raw entries must look like for intensity `i` to be let through: they are all
      verdicts, and either none rejects, or some advisory code was cited and nothing harder was. */
  ghost predicate Clears(entries: seq<Entry>, i: Intensity) {
    && Mentions(entries, i)
    && AllVerdicts(entries, i)
    && (AllPass(entries, i)
        || ((exists v: Violation :: v.Advisory? && Cites(entries, i, v)) && (forall v: Violation :: Cites(entries, i, v) ==> !v.Hard?)))
  }

  /** Merging and then forgiving lets an intensity through exactly when its raw entries clear it. */
  lemma ForgivenIffClears(e: Entry, entries: seq<Entry>, i: Intensity)
    requires Mentions(entries, i) && Summarises(e, entries, i)
    ensures ForgiveEntry(e).key == e.key
    ensures ForgiveEntry(e).pass == Verdict(true) <==> Clears(entries, i)
  {
    if e.pass == Verdict(false) {
      var objects := Objects(e.violations);
      var kept := HardOnes(objects);
      if |kept| == |objects| {
        assert forall v :: v in objects ==> !v.Advisory?;
        assert forall v :: Cites(entries, i, v) ==> v in e.violations;
        assert forall v: Violation :: v.Advisory? && v in e.violations ==> v in objects;
      } else {
        var v :| v in objects && v.Advisory?;
        assert Cites(entries, i, v);
        if kept != [] {
          assert kept[0] in kept;
          assert kept[0].Hard? && Cites(entries, i, kept[0]);
        } else {
          forall v | Cites(entries, i, v) ensures !v.Hard? {
            assert v in e.violations && (v in objects ==> !v.Hard? || v in kept);
          }
        }
      }
    }
  }

  // ----- joining the reports of split calls (`_merge_reports`) -----

  function JoinChecks(a: Check, b: Check): Check {
    if a.Absent? || b.Absent? then Absent
    else if !a.pass.Verdict? || !b.pass.Verdict? then Check(NotBool, [])
    else Check(Verdict(a.pass.ok && b.pass.ok), a.violations + b.violations)
  }

  function MergeReports(a: Output, b: Output): Output {
    Output(a.texts + b.texts, JoinChecks(a.sentenceCheck, b.sentenceCheck), JoinChecks(a.reasonCheck, b.reasonCheck), false)
  }

  /** Several checks of one thing let it through together: all are verdicts, and none rejects, or advisory codes were
      cited and nothing harder. */
  predicate JointlyClear(checks: seq<Check>) {
    && (forall k :: 0 <= k < |checks| ==> checks[k].Check? && checks[k].pass.Verdict?)
    && ((forall k :: 0 <= k < |checks| ==> checks[k].pass.ok)
        || ((exists k, v :: 0 <= k < |checks| && v in checks[k].violations && v.Advisory?)
            && forall k, v :: 0 <= k < |checks| && v in checks[k].violations ==> !v.Hard?))
  }

  lemma OneClears(c: Check)
    ensures JointlyClear([c]) <==> CheckClears(c)
  {
    assert [c][0] == c;
    if CheckClears(c) && c.pass == Verdict(false) {
      var v :| v in c.violations && v.Advisory?;
      assert v in [c][0].violations;
    }
  }

  /** Joining two checks lets through exactly what the two let through together. */
  lemma JoinedIffJointly(a: Check, b: Check)
    ensures CheckClears(JoinChecks(a, b)) <==> JointlyClear([a, b])
    ensures JoinChecks(a, b).Absent? <==> a.Absent? || b.Absent?
    ensures a.Check? && b.Check? && !(a.pass.Verdict? && b.pass.Verdict?) ==> JoinChecks(a, b) == Check(NotBool, [])
  {
    var checks := [a, b];
    assert checks[0] == a && checks[1] == b;
    if a.Check? && b.Check? && a.pass.Verdict? && b.pass.Verdict? {
      forall v ensures v in JoinChecks(a, b).violations <==> exists k :: 0 <= k < 2 && v in checks[k].violations {
        if v in a.violations {
          assert v in checks[0].violations;
        }
        if v in b.violations {
          assert v in checks[1].violations;
        }
      }
    }
  }

  /** The joint report has the entries of both, lets through on either check what both let through together, and never
      carries keys of its own. */
  lemma MergedReport(a: Output, b: Output)
    ensures var m := MergeReports(a, b);
            && m.texts == a.texts + b.texts && !m.extraKeys
            && (CheckClears(m.sentenceCheck) <==> JointlyClear([a.sentenceCheck, b.sentenceCheck]))
            && (CheckClears(m.reasonCheck) <==> JointlyClear([a.reasonCheck, b.reasonCheck]))
  {
    JoinedIffJointly(a.sentenceCheck, b.sentenceCheck);
    JoinedIffJointly(a.reasonCheck, b.reasonCheck);
  }

  // ----- structural check (`validate_evaluation`) -----

  datatype Report = Report(texts: seq<Entry>, sentenceCheck: Check, reasonCheck: Check, extraKeys: bool)

  datatype IssueCode = SchemaInvalid | MissingCheck | PassNotBoolean | CheckFailed | DuplicateIntensity | MissingIntensity | IntensitySetMismatch
  datatype Where = AtRoot | AtTexts | AtSentenceCheck | AtReasonCheck
  datatype Issue = Issue(code: IssueCode, where: Where)

  predicate ShapedViolations(vs: seq<Violation>) {
    |vs| <= 20 && forall k :: 0 <= k < |vs| ==> !vs[k].NotAnObject? && vs[k].shaped
  }

  predicate ShapedCheck(c: Check) {
    c.Check? && c.pass.Verdict? && ShapedViolations(c.violations)
  }

  predicate ShapedEntry(e: Entry) {
    && e.key.Known? && e.pass.Verdict? && ShapedViolations(e.violations)
    && |e.problems| <= 10 && forall k :: 0 <= k < |e.problems| ==> |e.problems[k]| <= 300
  }

  /** The strict contract parse of a report. */
  predicate Parses(r: Report) {
    && !r.extraKeys && ShapedCheck(r.sentenceCheck) && ShapedCheck(r.reasonCheck)
    && 1 <= |r.texts| <= 3 && forall k :: 0 <= k < |r.texts| ==> ShapedEntry(r.texts[k])
  }

  /** A report of the right types is in contract exactly within its limits: one to three entries, 20 violations each and
      on either check, 10 problems of 300 characters. */
  lemma ReportLimits(r: Report)
    requires !r.extraKeys && r.sentenceCheck.Check? && r.reasonCheck.Check? && r.sentenceCheck.pass.Verdict? && r.reasonCheck.pass.Verdict?
    requires forall e :: e in r.texts ==> e.key.Known? && e.pass.Verdict? && forall v :: v in e.violations ==> !v.NotAnObject? && v.shaped
    requires forall v :: v in r.sentenceCheck.violations + r.reasonCheck.violations ==> !v.NotAnObject? && v.shaped
    ensures Parses(r) <==>
            && 1 <= |r.texts| <= 3 && |r.sentenceCheck.violations| <= 20 && |r.reasonCheck.violations| <= 20
            && forall e :: e in r.texts ==> |e.violations| <= 20 && |e.problems| <= 10 && forall p :: p in e.problems ==> |p| <= 300
  {
    forall e | e in r.texts
      ensures ShapedEntry(e) <==> |e.violations| <= 20 && |e.problems| <= 10 && forall p :: p in e.problems ==> |p| <= 300
    {
      assert forall k :: 0 <= k < |e.violations| ==> e.violations[k] in e.violations;
      assert forall k :: 0 <= k < |e.problems| ==> e.problems[k] in e.problems;
    }
    var vs, ws := r.sentenceCheck.violations, r.reasonCheck.violations;
    assert forall k :: 0 <= k < |vs| ==> vs[k] in vs + ws;
    assert forall k :: 0 <= k < |ws| ==> ws[k] in vs + ws;
    assert forall k :: 0 <= k < |r.texts| ==> r.texts[k] in r.texts;
    hide ShapedEntry;
  }

  function PassIssue(p: Pass, where: Where): seq<Issue> {
    match p
    case Missing => [Issue(MissingCheck, where)]
    case NotBool => [Issue(PassNotBoolean, where)]
    case Verdict(ok) => if ok then [] else [Issue(CheckFailed, where)]
  }

  function CheckIssue(c: Check, where: Where): seq<Issue> {
    if c.Absent? then [Issue(MissingCheck, where)] else PassIssue(c.pass, where)
  }

  predicate Passing(c: Check) {
    c.Check? && c.pass == Verdict(true)
  }

  /** The issue of a check names what is wrong with it. */
  lemma CheckIssueNames(c: Check, where: Where)
    ensures Passing(c) ==> CheckIssue(c, where) == []
    ensures c.Absent? || c.pass.Missing? ==> CheckIssue(c, where) == [Issue(MissingCheck, where)]
    ensures c.Check? && c.pass.NotBool? ==> CheckIssue(c, where) == [Issue(PassNotBoolean, where)]
    ensures c.Check? && c.pass == Verdict(false) ==> CheckIssue(c, where) == [Issue(CheckFailed, where)]
  {}

  /** A report that lets the draft through: it parses, both checks pass, and the targets are covered
      exactly, once each, all passing. */
  predicate Accepts(r: Report, targets: seq<Intensity>) {
    && Parses(r)
    && Passing(r.sentenceCheck) && Passing(r.reasonCheck)
    && DistinctKeys(r.texts)
    && (forall k :: 0 <= k < |r.texts| ==> r.texts[k].pass == Verdict(true)) && NoStranger(r.texts, targets)
    && (forall i :: i in targets ==> Mentions(r.texts, i))
  }

  predicate DistinctKeys(texts: seq<Entry>) {
    forall j, k :: 0 <= j < k < |texts| ==> texts[j].key != texts[k].key
  }

  predicate HasPass(texts: seq<Entry>, p: Pass) {
    exists k :: 0 <= k < |texts| && texts[k].pass == p
  }

  lemma NoEntries()
    ensures DistinctKeys([]) && forall p :: !HasPass([], p)
  {}

  lemma OneEntryMore(texts: seq<Entry>, e: Entry, seen: seq<Key>)
    requires |seen| == |texts| && forall k :: 0 <= k < |seen| ==> seen[k] == texts[k].key
    ensures forall p :: HasPass(texts + [e], p) <==> HasPass(texts, p) || e.pass == p
    ensures DistinctKeys(texts + [e]) <==> DistinctKeys(texts) && e.key !in seen
  {
    var all := texts + [e];
    assert all[|texts|] == e && forall k :: 0 <= k < |texts| ==> all[k] == texts[k];
    forall p | HasPass(texts, p) ensures HasPass(all, p) {
      var k :| 0 <= k < |texts| && texts[k].pass == p;
      assert all[k].pass == p;
    }
  }

  /** Issues of the entries themselves: a repeated intensity, or a `pass` that is not true. */
  method EntryIssues(texts: seq<Entry>) returns (issues: seq<Issue>)
    ensures issues == [] <==> DistinctKeys(texts) && forall k :: 0 <= k < |texts| ==> texts[k].pass == Verdict(true)
    ensures forall x :: x in issues ==> x.where == AtTexts && x.code in {DuplicateIntensity, MissingCheck, PassNotBoolean, CheckFailed}
    ensures Issue(DuplicateIntensity, AtTexts) in issues <==> !DistinctKeys(texts)
    ensures Issue(MissingCheck, AtTexts) in issues <==> HasPass(texts, Missing)
    ensures Issue(PassNotBoolean, AtTexts) in issues <==> HasPass(texts, NotBool)
    ensures Issue(CheckFailed, AtTexts) in issues <==> HasPass(texts, Verdict(false))
  {
    hide HasPass, DistinctKeys;
    NoEntries();
    issues := [];
    var seen: seq<Key> := [];
    for n := 0 to |texts|
      invariant |seen| == n && forall k :: 0 <= k < n ==> seen[k] == texts[k].key
      invariant issues == [] <==> DistinctKeys(texts[..n]) && forall k :: 0 <= k < n ==> texts[k].pass == Verdict(true)
      invariant forall x :: x in issues ==> x.where == AtTexts && x.code in {DuplicateIntensity, MissingCheck, PassNotBoolean, CheckFailed}
      invariant Issue(DuplicateIntensity, AtTexts) in issues <==> !DistinctKeys(texts[..n])
      invariant Issue(MissingCheck, AtTexts) in issues <==> HasPass(texts[..n], Missing)
      invariant Issue(PassNotBoolean, AtTexts) in issues <==> HasPass(texts[..n], NotBool)
      invariant Issue(CheckFailed, AtTexts) in issues <==> HasPass(texts[..n], Verdict(false))
    {
      assert texts[..n + 1] == texts[..n] + [texts[n]];
      OneEntryMore(texts[..n], texts[n], seen);
      if texts[n].key in seen {
        issues := issues + [Issue(DuplicateIntensity, AtTexts)];
      }
      seen := seen + [texts[n].key];
      issues := issues + PassIssue(texts[n].pass, AtTexts);
    }
    assert texts[..|texts|] == texts;
  }

  /** Every entry is about a target. */
  predicate NoStranger(texts: seq<Entry>, targets: seq<Intensity>) {
    forall k :: 0 <= k < |texts| ==> texts[k].key.Known? && texts[k].key.i in targets
  }

  /** Issues of the coverage: a target without an entry, or an entry outside the targets. */
  method CoverageIssues(texts: seq<Entry>, targets: seq<Intensity>) returns (issues: seq<Issue>)
    ensures issues == [] <==> (forall i :: i in targets ==> Mentions(texts, i))
                              && NoStranger(texts, targets)
    ensures forall x :: x in issues ==> x.where == AtTexts && x.code in {MissingIntensity, IntensitySetMismatch}
    ensures Issue(IntensitySetMismatch, AtTexts) in issues <==> !NoStranger(texts, targets)
  {
    issues := [];
    for n := 0 to |targets|
      invariant issues == [] <==> forall k :: 0 <= k < n ==> Mentions(texts, targets[k])
      invariant forall x :: x in issues ==> x.where == AtTexts && x.code == MissingIntensity
    {
      if !Mentions(texts, targets[n]) {
        issues := issues + [Issue(MissingIntensity, AtTexts)];
      }
    }
    ghost var covered := issues == [];
    for n := 0 to |texts|
      invariant issues == [] <==> covered && forall k :: 0 <= k < n ==> texts[k].key.Known? && texts[k].key.i in targets
      invariant forall x :: x in issues ==> x.where == AtTexts && x.code in {MissingIntensity, IntensitySetMismatch}
      invariant Issue(IntensitySetMismatch, AtTexts) in issues <==> exists k :: 0 <= k < n && !(texts[k].key.Known? && texts[k].key.i in targets)
    {
      if !(texts[n].key.Known? && texts[n].key.i in targets) {
        issues := issues + [Issue(IntensitySetMismatch, AtTexts)];
      }
    }
  }

  /** An issue that a rewrite or a template of single texts can answer. */
  predicate PerText(issue: Issue) {
    issue.where == AtTexts && issue.code in {MissingIntensity, MissingCheck, PassNotBoolean, CheckFailed}
  }

  /** A report nothing can be made of: it breaks the contract, rejects the sentence, or judges a text twice or
      one that is no target. */
  predicate Hopeless(r: Report, targets: seq<Intensity>) {
    !Parses(r) || !Passing(r.sentenceCheck) || !DistinctKeys(r.texts) || !NoStranger(r.texts, targets)
  }

  /** Collects the issues; an empty list is a pass, anything else is a failure. */
  method ValidateEvaluation(r: Report, targets: seq<Intensity>) returns (issues: seq<Issue>)
    ensures issues == [] <==> Accepts(r, targets)
    ensures Issue(SchemaInvalid, AtRoot) in issues <==> !Parses(r)
    ensures (exists x :: x in issues && x.where == AtReasonCheck) <==> !Passing(r.reasonCheck)
    ensures (exists x :: x in issues && x.where != AtReasonCheck && !PerText(x)) <==> Hopeless(r, targets)
  {
    hide Parses, DistinctKeys, NoStranger, Mentions, HasPass, CheckIssue;
    var root: seq<Issue> := if Parses(r) then [] else [Issue(SchemaInvalid, AtRoot)];
    var sentence := CheckIssue(r.sentenceCheck, AtSentenceCheck);
    var reason := CheckIssue(r.reasonCheck, AtReasonCheck);
    var entries := EntryIssues(r.texts);
    var coverage := CoverageIssues(r.texts, targets);
    issues := root + (sentence + (reason + (entries + coverage)));
    IssueOfCheck(r.sentenceCheck, AtSentenceCheck);
    IssueOfCheck(r.reasonCheck, AtReasonCheck);
    Collected(root, sentence, reason, entries, coverage);
  }

  lemma IssueOfCheck(c: Check, where: Where)
    ensures CheckIssue(c, where) == [] <==> Passing(c)
    ensures forall x :: x in CheckIssue(c, where) ==> x.where == where
    ensures CheckIssue(c, where) != [] ==> CheckIssue(c, where)[0] in CheckIssue(c, where)
  {}

  lemma Collected(a: seq<Issue>, b: seq<Issue>, c: seq<Issue>, d: seq<Issue>, e: seq<Issue>)
    ensures forall x :: x in a + (b + (c + (d + e))) <==> x in a || x in b || x in c || x in d || x in e
  {}
}
