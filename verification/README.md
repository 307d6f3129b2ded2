# Verified model of the geoji AI worker

The repository is a job worker on Postgres that has language models write and judge verdict texts. This
project models the protocols its correctness rests on and proves what they keep:

- **The sentencing graph.** `Drafts`, `TextRules`, `EvaluationReport` and `Budget` hold the shapes and rules;
  `SentenceState` the state, the environment and the history of a run; `SentenceWriter`, `SentenceAssembly`,
  `SentenceEvaluator` and `SentenceJudging` the nodes with loops; `SentencingGraph` the run invariant and
  `SentencingRun` the nodes, the edges and the run; `SentencingGuarantees` what follows for every request,
  `SentencingSuccess` when a run saves, `SentencingFailures` why one reports a failure and `SentencingDeadline`
  what time its evaluator has.
  Models and backend are an environment that may answer anything; the one assumption is that the clock does
  not run backwards.
- **Money and the gateway.** `CallLedger` is the budget and call rows under any interleaving of callers and
  sweepers; `Gateway` is one call with its retry, its cancellation points and its deadline.
- **The lease queue.** `JobQueue` is the table under claims, owned operations and the reaper; `Heartbeat` is
  the loop that renews a lease.
- **Other Postgres protocols.** `MemoryRetain` (late retains against invalidations), `Migrations` (several
  runners at once), `PreparationCache` (keys, concurrent savers, loading).
- **Smaller cores.** `Evidence` (labels and scopes), `JurorAmounts` (the amount parser), `VendorHealth`.

Each database transaction is one atomic step and each await a point where the environment decides. Hashes are
injective, fresh uuids come from a supply, seconds are reals. A row table is a sequence whose positions are the
ids. Where the source updates state in place, a method with that loop or those assignments is proved equal to a
specification function, and the properties are proved about that function for every run.

Where the code keeps less than its documentation says, the exact condition under which it keeps it is proved, with
an input that shows the rest:

- No call leaves its ledger row open exactly when the inner model's answers, the first and after a retry the second,
  can be priced and are not `DEGRADED` or `BUDGET`: `closed` is set before `ledger_status`, which raises for those two
  kinds, and negative ticks cannot be priced.
- The heartbeat cancels before the lease ends exactly when no number of failures fits the lease without hanging but
  overruns it with hanging; with the defaults that is a hang of at most 2.5 seconds. Exclusion comes from the
  generation.
- Removing ids in place takes one pass; it leaves one behind exactly when an id is glued to the one before it
  ("F1F2" becomes "F2").
- With a separate evaluator for hell, an entry for hell in the ordinary reply counts, so "the call that saw the text
  cleared it" holds exactly where hell is not judged beside other intensities.
- The invalidation SQL deletes facts by source and post, not by scope. A live fact of a finished retain is current
  exactly when no invalidation has raised a scope it recorded without deleting it.

## Model

| member | source | states |
|---|---|---|
| SentencingRun.Run | src/geoji_ai/graphs/sentencing.py:2266-2369 | every run of the graph ends, for every answer of models and backend and every clock that runs forward; it is a chain of exact steps, and at its end every request sent was sound, saving and reporting exclude each other, neither guard in front of finalize ever fired, rewrites, rounds and calls are within their limits and no two calls share an index |
| SentencingRun.Step | src/geoji_ai/graphs/sentencing.py:2331-2369 | each node does exactly what its relation says, leads along one of its edges, keeps the invariant of the stage it leads to and uses up a rewrite or moves down the stage order |
| SentencingRun.BeginGeneration | src/geoji_ai/graphs/sentencing.py:1215-1279 | each answer of the backend leads to exactly one exit: dropped, crashed, failed for a request or sentence that does not fit, or on with the deadline, in a text retry never beyond its own budget |
| SentencingRun.Prepare | src/geoji_ai/graphs/sentencing.py:1281-1377 | fails exactly when no valid preparation exists and saving a fresh dossier meets moved epochs; goes to sentencing exactly for an initial guilty spent case without a fixed sentence, with nothing but the labels changed |
| SentencingRun.WhoIsSentenced | src/geoji_ai/graphs/sentencing.py:2274-2292 | sentencing is asked for exactly in a first run of a guilty verdict on money already spent without a fixed sentence |
| SentencingRun.Sentencing | src/geoji_ai/graphs/sentencing.py:1429-1491 | stopped by moved epochs only when a call was started; otherwise the model's sentence as corrected, or the rule's when there was no time or no answer |
| SentencingRun.WhoSentences | src/geoji_ai/graphs/sentencing.py:1429-1491 | the model sentences where it answered in time, with its own sentence when that is allowed and always with an allowed one; otherwise the fallback stands, without a reason |
| SentencingRun.ParseSentencing | src/geoji_ai/graphs/sentencing.py:1395-1427 | the sentence is the model's own when that is allowed and one of highest rank otherwise; exactly a reason of more than 100 characters becomes the template of that sentence |
| SentencingRun.Top | src/geoji_ai/graphs/sentencing.py:1400-1407 | the last entry of the highest rank on the allowed list |
| SentencingRun.Writer | src/geoji_ai/graphs/sentencing.py:1631-1632 | fails exactly when one call was invalidated; otherwise drafts, sources, hints and invalid cards become exactly what the answers make of them, nothing else changes, and the log gets exactly the started calls |
| SentencingRun.WriterRepair | src/geoji_ai/graphs/sentencing.py:2026-2040 | the same for the texts to be rewritten only, under a fresh call offset; afterwards nothing counts as judged and one more rewrite is used up |
| SentencingRun.PassGate | src/geoji_ai/graphs/sentencing.py:1634-1690 | follows the join decision exactly and changes nothing else; past it the set of texts is complete with an AI text among them |
| SentencingRun.DeterministicValidate | src/geoji_ai/graphs/sentencing.py:1692-1704 | accepts, has exactly the bad texts rewritten, or fails, as the assembly rule says; a set that goes on is made of the cleaned texts, with cleaned templates only in place of bad AI texts |
| SentencingRun.Evaluator | src/geoji_ai/graphs/sentencing.py:2021-2024 | does exactly what the visit comes to, with all its rounds and calls on record |
| SentencingRun.Finalize | src/geoji_ai/graphs/sentencing.py:2044-2159 | the two runtime errors cannot occur; stale epochs stop before sending; otherwise the request with the judged hash, draft, decision and report is sent and the answer alone decides the rest |
| SentencingRun.FinalizeLeadsOn | src/geoji_ai/graphs/sentencing.py:2087-2159 | what each answer of the backend leads to keeps the run invariant, a rejected request being rewritten only while rewrites are left |
| SentencingRun.AnswerDecides | src/geoji_ai/graphs/sentencing.py:2087-2159 | the answer of the backend alone ends the run; a rejected request is written again, all its AI texts and nothing else, exactly in a first run with a rewrite and five seconds left and an AI text to write |
| SentencingFailures.ReportedForACause | src/geoji_ai/graphs/sentencing.py:1215-2175 | in every run that ends with a report, the reported code is that of the step that failed, and what the snapshot, the clock and the answers were at that step is its cause: misfit, moved epochs, too few texts for money, time or vendor, texts the rules refuse, a round that ended the visit, or the backend's refusal |
| SentencingFailures.StepFailsForACause | src/geoji_ai/graphs/sentencing.py:1215-2175 | every step into failure, at every stage, says exactly why |
| SentencingFailures.BeginFails | src/geoji_ai/graphs/sentencing.py:1225-1260 | begin fails exactly when the requested intensities or the fixed sentence do not fit the case |
| SentencingFailures.SentencingFails | src/geoji_ai/graphs/sentencing.py:1429-1491 | sentencing fails exactly when it still had time and was told of moved epochs |
| SentencingFailures.WritersFail | src/geoji_ai/graphs/sentencing.py:1557-1632 | the writers fail exactly when one that still had its time behind evaluator and finalize was told of moved epochs |
| SentencingFailures.RewritersFail | src/geoji_ai/graphs/sentencing.py:2026-2040 | and so do the rewriters, over the texts to be rewritten |
| SentencingFailures.GateFails | src/geoji_ai/graphs/sentencing.py:1634-1690 | behind the writers a run fails for too few texts, blaming money before time before vendor, or invalid cards when those are all that is missing |
| SentencingFailures.RulesRefuse | src/geoji_ai/graphs/sentencing.py:1054-1200 | an assembly fails for a bad text in a text retry or without a template, for no good AI text, or for a bad template, under the code that belongs to it |
| SentencingFailures.TurnFails | src/geoji_ai/graphs/sentencing.py:1847-1947 | a round ends a visit for moved epochs, for time, for the kinds of its errors, or for verdicts that do not pass |
| SentencingFailures.SendingFails | src/geoji_ai/graphs/sentencing.py:2044-2159 | finalize fails for epochs moved before sending, for the backend's word that they did, or for a rejected request |
| SentencingRun.GenerationFailed | src/geoji_ai/graphs/sentencing.py:2161-2175 | exactly one failure code is reported |
| SentencingRun.JudgedIsSound | src/geoji_ai/graphs/sentencing.py:2049-2086 | a judged state yields a sound request: one card per intensity of the scope, sources as recorded, an AI text among them, every AI text cleared by a round that saw exactly that text, and the decision cleared by a round that judged exactly this draft and decision |
| SentencingRun.MoreWriterCalls | src/geoji_ai/application/llm_gateway.py:109-113 | writer indices of one visit are new: offset times three plus position never repeats |
| SentencingRun.MoreEvalCalls | src/geoji_ai/application/llm_gateway.py:116-120 | evaluator indices of one visit are new: round times two plus the hell bit never repeats |
| SentencingRun.PartIsShorter | src/geoji_ai/graphs/sentencing.py:1621-1632 | a duplicate-free part of the scope asks at most as many writers as the scope has intensities |
| SentencingGraph.MoreRoom | src/geoji_ai/graphs/sentencing.py:1017-1025 | call bounds grow with the visits still allowed |
| SentencingGuarantees.EveryTextClearedByItsCall | src/geoji_ai/graphs/sentencing.py:1708-1816 | whenever hell is not judged apart beside other intensities, the very call that was shown an AI text cleared it, for every request of every run |
| SentencingGuarantees.UnclearedRun | src/geoji_ai/graphs/sentencing.py:1732-1816 | and only then: for a split scope, wherever a run can go well, there is a run that saves an AI text the call that was shown it never cleared |
| SentencingGuarantees.StrayTextIsUncleared | src/geoji_ai/graphs/sentencing.py:705-724 | in that run the text for hell was shown to the hell call only, and that answered without an entry |
| SentenceJudging.UnsplitStays | src/geoji_ai/graphs/sentencing.py:1852-1854 | a later round over part of an unsplit scope is not split either |
| SentencingGuarantees.TrustworthyIffNotSplit | src/geoji_ai/graphs/sentencing.py:1732-1816 | that holds of a round for all replies exactly when hell is not judged apart |
| SentencingGuarantees.StrayEntry | src/geoji_ai/graphs/sentencing.py:705-724 | the reply that breaks it: the ordinary call passes hell unasked and the hell call answers without an entry |
| SentencingGuarantees.TextRetryIsShort | src/geoji_ai/graphs/sentencing.py:1912-1916 | a text retry asks each writer at most once, the evaluator for one round, and sends at most one request |
| SentencingSuccess.FavourableRunSaves | src/geoji_ai/graphs/sentencing.py:2266-2369 | whatever else happens, a run whose writers deliver cards the rules accept, whose evaluator praises every text in its joint answer in time and whose backend agrees ends saved, after one round and with one request holding the writers' own texts, cleaned, in scope order |
| SentencingSuccess.SmoothStep | src/geoji_ai/graphs/sentencing.py:2331-2369 | every step of such a run stays on the straight path from begin to finalize |
| SentencingSuccess.FavourableExists | src/geoji_ai/graphs/sentencing.py:2266-2369 | such runs exist for every set of targets, whether or not hell is judged apart |
| SentencingSuccess.FirstTurnAccepts | src/geoji_ai/graphs/sentencing.py:1847-1907 | joint praise for every text makes the first round accept the draft it was given, and puts on record who saw and said what |
| SentencingSuccess.PraisedTogether | src/geoji_ai/graphs/sentencing.py:705-724 | when every call praises the texts it was shown, the joint answer praises them all |
| SentencingSuccess.PraisePasses | src/geoji_ai/graphs/sentencing.py:1876-1891 | replies that only praise, and mention every text, pass |
| SentencingSuccess.WrittenTexts | src/geoji_ai/graphs/sentencing.py:1580-1621 | when every writer delivers, the merged drafts are exactly the delivered texts |
| SentencingSuccess.OwnTextsAreReady | src/geoji_ai/graphs/sentencing.py:1054-1120 | delivered texts the rules accept are assembled without any template |
| SentencingDeadline.FirstRoundHasItsTime | src/geoji_ai/domain/budget.py:81-96 | along a run whose writer calls go through the gateway, if any writer was started the first evaluator round has its full cap, none of its calls is skipped, and finalize keeps its half second |
| SentenceWriter.WriteOne | src/geoji_ai/graphs/sentencing.py:1495-1555 | a text is the AI's exactly when the answer is a card of the asked intensity with an allowed angle and valid hints, and then it is that card; skipped exactly when the time behind the reserve is gone, invalidated exactly when a started call was, an invalid card only for its shape or its hints |
| SentenceWriter.Gather | src/geoji_ai/graphs/sentencing.py:1567-1572 | every outcome at its own clock reading, and exactly the indices of the calls not skipped, in order |
| SentenceWriter.WriterCallsSound | src/geoji_ai/application/llm_gateway.py:109-113 | the indices of one visit are different and each belongs to an intensity that was asked |
| SentenceWriter.FanOut | src/geoji_ai/graphs/sentencing.py:1557-1629 | the visit is invalidated exactly when one call was; otherwise every intensity holds its text or template or nothing, untouched intensities stay, and a text retry never gets a template |
| SentenceWriter.FoldTexts | src/geoji_ai/graphs/sentencing.py:1580-1620 | merging one more outcome places exactly its text and leaves the others |
| SentenceWriter.FoldRest | src/geoji_ai/graphs/sentencing.py:1580-1629 | hints follow the default intensity, invalid cards their last attempt, errors and skips accumulate |
| SentenceWriter.MergedKeepsAgreement | src/geoji_ai/graphs/sentencing.py:1557-1629 | recorded sources keep agreeing with the texts |
| SentenceWriter.JoinOnIsComplete | src/geoji_ai/graphs/sentencing.py:1660-1690 | past the join every intensity has a text, one of them the AI's, in a text retry all of them |
| SentenceWriter.JoinRepairsInvalidCards | src/geoji_ai/graphs/sentencing.py:1634-1659 | a rewrite here covers exactly the invalid cards, in a first run with rewrites left |
| SentenceWriter.JoinRepairsIff | src/geoji_ai/graphs/sentencing.py:1634-1659 | and is asked for exactly in a first run with an invalid card, a rewrite and five seconds left, and time to start a writer |
| SentenceWriter.JoinBlamesHonestly | src/geoji_ai/domain/retries.py:94-107 | a failure names money only when money ran out and time only when a call was skipped or timed out |
| SentenceAssembly.Assemble | src/geoji_ai/graphs/sentencing.py:1027-1200 | the outcome is determined by the texts, their templates and whether the bad ones may be rewritten at the first instant: accepted, rewritten, or failed for a named cause; the exhausted-retry, broken-contract and global-issue exits are dead |
| SentenceAssembly.LookOnce | src/geoji_ai/graphs/sentencing.py:1054-1192 | one turn goes exactly one way: wrong set, all templates, accepted, refused in a text retry, rewritten, stuck at a bad or missing template, or substituted |
| SentenceAssembly.AfterLook | src/geoji_ai/graphs/sentencing.py:1054-1200 | either turn settles the whole assembly or, in the first turn only, leads to the second |
| SentenceAssembly.SecondLook | src/geoji_ai/graphs/sentencing.py:1054-1200 | the second turn never substitutes or rewrites, and decides as the texts before the substitution demand |
| SentenceAssembly.SecondSet | src/geoji_ai/graphs/sentencing.py:1155-1192 | after a substitution only templates can be bad, being bad means being stuck, and an AI text is left exactly when one was good |
| SentenceAssembly.NoSecondRewrite | src/geoji_ai/graphs/sentencing.py:1017-1025 | bad texts that may be rewritten in the second turn could have been in the first, because time only runs forward |
| SentenceAssembly.Substitute | src/geoji_ai/graphs/sentencing.py:1155-1192 | exactly the listed texts become their templates; refused exactly at a text that is a template already or has none |
| SentenceAssembly.CollectBad | src/geoji_ai/graphs/sentencing.py:1065-1091 | the bad texts are exactly those the rules object to or whose cleaned form is no card |
| SentenceAssembly.Inspect | src/geoji_ai/graphs/sentencing.py:1056-1091 | every text is cleaned and judged on its own, and no issue is ever global |
| SentenceAssembly.Accept | src/geoji_ai/graphs/sentencing.py:1092-1120 | an all-template set is refused, any other becomes the draft in scope order |
| SentenceAssembly.ReadyIsAssembled | src/geoji_ai/graphs/sentencing.py:1106-1120 | an accepted set is one card per intensity with agreeing sources |
| SentenceAssembly.AcceptedObeysTheRules | src/geoji_ai/graphs/sentencing.py:1054-1192 | a text of an accepted set keeps its source exactly when the rules have nothing against it and its cleaned form is a card, and then it is that form; any other was an AI text in a first run and is a template now |
| SentenceAssembly.TagTellsTheVerdict | src/geoji_ai/domain/validation.py:591-611 | the heavy tag goes with a guilty verdict whose sentence has the highest rank of all that are allowed |
| SentenceJudging.RunEvaluator | src/geoji_ai/graphs/sentencing.py:1818-2019 | three rounds at most, one in a text retry, each exactly as the round rule says, with every round and call on record; an accepted draft is the assembled one, hashed with its decision, covered and passed by its report, every AI text vouched for |
| SentenceJudging.Judge | src/geoji_ai/graphs/sentencing.py:1847-1915 | one round does exactly this: stale epochs, errors and missing time end the visit with their code; of a full round the draft is accepted exactly when its verdicts pass; a rejected one fails in the last round or a text retry and is reacted to otherwise |
| SentenceJudging.RejectedRounds | src/geoji_ai/graphs/sentencing.py:1908-1922 | a rejected round is reacted to in the first two rounds of a first run, and final in the third or in a text retry |
| SentenceJudging.OnlyRejectedAITextsAreRewritten | src/geoji_ai/graphs/sentencing.py:1949-1956 | a rewrite covers exactly the rejected texts of the scope, all of them the AI's, in a first run with a rewrite and five seconds left |
| SentenceJudging.RejectedReasonIsReplaced | src/geoji_ai/graphs/sentencing.py:1931-1947 | the decision changes exactly by a rejected reason, which becomes the template of the sentence |
| SentenceJudging.AcceptanceClears | src/geoji_ai/graphs/sentencing.py:1891-1907 | an accepted round judged exactly this draft and decision, and its calls together let sentence and reason through |
| SentenceJudging.React | src/geoji_ai/graphs/sentencing.py:1916-2017 | the reaction to a rejected report is exactly: fail on a global issue, template the reason, rewrite the rejected texts, or replace what did not pass and go on |
| SentenceJudging.AskForRewrite | src/geoji_ai/graphs/sentencing.py:1949-2010 | a rewrite names exactly the rejected texts, replaces those without a verdict and keeps the passing entries unless the decision changed |
| SentenceJudging.ReplaceAndGoOn | src/geoji_ai/graphs/sentencing.py:1956-2017 | fails exactly when a text that did not pass is a template or has none, or when the assembly of the replaced set fails; otherwise goes on with that set |
| SentenceJudging.CarriedOn | src/geoji_ai/graphs/sentencing.py:1956-2017 | in the next round a text that passed and obeys the rules is the same, cleaned; one that did not pass was an AI text and is a template |
| SentenceJudging.ReadIssues | src/geoji_ai/graphs/sentencing.py:1923-1930 | finds a global issue exactly when there is one, and a rejected reason otherwise |
| SentenceJudging.RoundIsBacked | src/geoji_ai/graphs/sentencing.py:1848-1891 | every passing verdict on an AI text rests on a round that saw exactly that text, kept entries included |
| SentenceJudging.KeepIsSound | src/geoji_ai/graphs/sentencing.py:1984-1994 | entries carried over a rewrite are passing and vouched for |
| SentenceJudging.AcceptanceVouches | src/geoji_ai/graphs/sentencing.py:1891-1907 | an accepted report vouches for every AI text of the draft |
| SentenceJudging.WithTemplateReason | src/geoji_ai/graphs/sentencing.py:1931-1947 | a rejected reason is replaced exactly when there is a decision with a template, by that template, and the sentence never changes |
| SentenceEvaluator.Evaluate | src/geoji_ai/graphs/sentencing.py:1708-1816 | stale epochs come before errors, errors before calls not started, and only when all calls answered is there a joint output, without the replies that are empty objects; the round records for each call which texts it saw and what it answered |
| SentenceEvaluator.AskAll | src/geoji_ai/graphs/sentencing.py:1732-1807 | one answer per group at its own clock reading, and exactly the indices of the started calls |
| SentenceEvaluator.StartedSound | src/geoji_ai/application/llm_gateway.py:116-120 | the indices of one round are different and belong to that round, the odd one to a hell call and the even one to the other |
| SentenceEvaluator.Groups | src/geoji_ai/graphs/sentencing.py:1732-1737 | every intensity of the scope is in a group, and hell is apart exactly when another model judges it beside others |
| SentenceEvaluator.HellIsApartIff | src/geoji_ai/graphs/sentencing.py:1732-1737 | hell is judged apart exactly when another model judges it and some other intensity is judged too, which then fill the other call |
| SentenceEvaluator.UnjudgedExactly | src/geoji_ai/graphs/sentencing.py:1852-1854 | a round judges exactly the texts whose entries cannot be used again, and all of them when every entry can |
| SentenceEvaluator.RepliesAreTakenAsTheyAre | src/geoji_ai/graphs/sentencing.py:1774-1811 | what a call makes of its reply: as it is in a case with a sentence, both checks passing in any other; the empty object is no reply or one that mentions no text |
| SentenceEvaluator.BuildReport | src/geoji_ai/graphs/sentencing.py:1876-1891 | an intensity passes exactly when it is a template, or its raw entries clear it, or its unmentioned text was kept; a check exactly when the raw check does; the report lists the verdicts on the targets in their order, and strangers exactly when the reply had some |
| SentenceEvaluator.AcceptedIffPasses | src/geoji_ai/graphs/sentencing.py:1883-1891 | the report is accepted exactly when the reply is in contract, both raw checks pass or reject for advisory codes and nothing harder, and each target and nothing else has a passing well-shaped verdict |
| SentenceEvaluator.FinalPasses | src/geoji_ai/graphs/sentencing.py:744-797 | forgiving and passing templates let an intensity through exactly when it is a template or its raw entries clear it |
| SentenceEvaluator.PassMeansVouched | src/geoji_ai/graphs/sentencing.py:1852-1854 | a passing verdict on an AI text means a round saw that text and cleared it |
| SentenceEvaluator.ScopeIsShown | src/geoji_ai/graphs/sentencing.py:1739-1746 | every text of the scope was shown to some call of the round |
| SentenceState.ScopeIsSane | src/geoji_ai/graphs/sentencing.py:1245-1253 | the scope of a run is one to three different targets |
| SentenceState.OneCallRoundsVouchAlone | src/geoji_ai/graphs/sentencing.py:1732-1737 | in a round of one call the joint answer is that call's answer |
| EvaluationReport.MergeSameIntensity | src/geoji_ai/graphs/sentencing.py:651-693 | the merged entry of an intensity passes exactly when all its raw entries do, is a verdict exactly when all are, cites exactly what they cite; unknown intensities are left alone |
| EvaluationReport.SummarisesStep | src/geoji_ai/graphs/sentencing.py:665-692 | one more raw entry keeps that |
| EvaluationReport.ForgivenIffClears | src/geoji_ai/graphs/sentencing.py:744-765 | merging and forgiving lets an intensity through exactly when its raw entries are verdicts that all pass or cite an advisory code and nothing harder |
| EvaluationReport.ForgivenCheckIffClears | src/geoji_ai/graphs/sentencing.py:744-765 | forgiving lets a check through exactly when it passes or rejects citing an advisory code and nothing harder; of a check that cites both the harder codes are left, any other stays as it is |
| EvaluationReport.JoinedIffJointly | src/geoji_ai/graphs/sentencing.py:705-724 | joining two checks lets through exactly what both let through together; a missing one makes the joint check missing, one without a verdict makes it none |
| EvaluationReport.MergedReport | src/geoji_ai/graphs/sentencing.py:705-724 | the joint report has the entries of both replies, lets through on either check what both let through together, and carries no keys of its own |
| EvaluationReport.CheckIssueNames | src/geoji_ai/domain/validation.py:252-275 | the issue of a check names whether it is missing, no boolean or rejects |
| EvaluationReport.ReportLimits | src/geoji_ai/contracts/evaluation.py:29-61 | a report of the right types is in contract exactly within one to three entries, 20 violations, 10 problems of 300 characters |
| EvaluationReport.ValidateEvaluation | src/geoji_ai/domain/validation.py:238-300 | no issue exactly when the report parses, both checks pass and the targets are covered once each, all passing; a reason issue exactly when that check fails; an issue no rewrite can answer exactly when the contract is broken, the sentence rejected, a text judged twice or one that is no target |
| EvaluationReport.EntryIssues | src/geoji_ai/domain/validation.py:276-288 | no issue exactly when intensities differ and every entry passes; a repeated intensity, a missing, a non-boolean and a false pass are each named exactly when there is one |
| EvaluationReport.CoverageIssues | src/geoji_ai/domain/validation.py:290-300 | no issue exactly when every target has an entry and no entry is outside the targets |
| Drafts.CardsMeetTheContract | src/geoji_ai/contracts/writer.py:84-133 | cards of different intensities always meet the stored contract |
| Drafts.PlainCard | src/geoji_ai/contracts/writer.py:103-117 | plain lines make a card exactly within 20 characters of headline, one sentence of 100 and 16 labels |
| Drafts.CardsAreLines | src/geoji_ai/contracts/writer.py:22-33 | the headline and the sentence of a card are one line each and not blank |
| Drafts.StoredLimits | src/geoji_ai/contracts/writer.py:84-101 | the stored contract is exactly 30 characters of headline and one to four non-empty sentences of 300 together |
| Drafts.DistinctBound | src/geoji_ai/contracts/writer.py:120-133 | different intensities are at most three |
| TextRules.ApplyTextRules | src/geoji_ai/domain/validation.py:614-684 | text k gets exactly its own issues and its own cleaned form, whatever the other texts are; the one global issue is there exactly when some intensity is written but not asked for or the other way round |
| TextRules.RebuildText | src/geoji_ai/domain/validation.py:413-482 | grounded sentences kept, ids removed, lengths checked |
| TextRules.KeepGrounded | src/geoji_ai/domain/validation.py:425-441 | exactly the sentences that need no ground or have one |
| TextRules.KeptExactly | src/geoji_ai/domain/validation.py:425-441 | opinions always stay; a fact or a claim stays exactly when it cites something and nothing unknown |
| TextRules.UngroundedIsNamed | src/geoji_ai/domain/validation.py:425-455 | a text is called ungrounded exactly when it had sentences and none may stay; its headline is stripped exactly when it carries an id |
| TextRules.DropBranchIsIdFree | src/geoji_ai/domain/validation.py:441-449 | when some kept sentence is free of ids the text keeps exactly the grounded id-free sentences |
| TextRules.StripBranchIdFree | src/geoji_ai/domain/validation.py:444-456 | otherwise the text ends free of ids exactly when no id is glued to the one before it |
| TextRules.StripIdsExact | src/geoji_ai/domain/validation.py:397-398 | one removal pass leaves a text free of ids exactly when no match is followed at once by another id |
| TextRules.ListIsOneMatch | src/geoji_ai/domain/validation.py:331-332 | a list of ids is one match, commas included |
| TextRules.StrippedIsTidy | src/geoji_ai/domain/validation.py:397-398 | a stripped text has no runs of blanks and none at either end |
| TextRules.BlankedIds | src/geoji_ai/domain/validation.py:331-332 | the single pass exposes an id exactly at a glued one |
| TextRules.GluedIdsSurvive | src/geoji_ai/domain/validation.py:397-398 | F1F2 comes out as F2 |
| TextRules.EvidenceRefs | src/geoji_ai/domain/validation.py:485-498 | every known label of every sentence and nothing else |
| TextRules.NoIssuesMeansWithinLimits | src/geoji_ai/domain/validation.py:455-482 | a text has no issue exactly when a sentence is left, the word lists have no hit and the rebuilt text is within the stored limits; intensity and source stay |
| TextRules.DuplicatesAreNamed | src/geoji_ai/domain/validation.py:640-660 | a text is called a duplicate exactly when one before it has its intensity |
| TextRules.RankOf | src/geoji_ai/domain/validation.py:591-611 | the rank of the first entry with the sentence, none exactly when no entry has it |
| TextRules.HeavyMeansTopRank | src/geoji_ai/domain/validation.py:591-611 | the heavy tag means exactly a guilty verdict whose sentence is on the list at the highest rank; each other verdict has its own tag and no other |
| CallLedger.RunsConserve | src/geoji_ai/adapters/postgres_call_ledger.py:244-422 | along every interleaving of callers and sweepers: reserved is what open and unswept calls hold, spent is what was charged, each call is settled at most once and finally, caps only rise |
| CallLedger.RunsPrice | src/geoji_ai/adapters/postgres_call_ledger.py:379-422 | along every run each settlement agrees with its row: a complete call was charged its known cost or else its estimate, a swept one its estimate, a failed one its known cost, its estimate or nothing |
| CallLedger.ClosingCharges | src/geoji_ai/adapters/postgres_call_ledger.py:405-422 | closing an open call adds its known cost to what its post has spent, the estimate when the cost is unknown, nothing without any response; the estimate leaves what is reserved, and no other money moves; of ticks only whole micro-USD count |
| CallLedger.CostIsKnownOrNot | src/geoji_ai/domain/budget.py:185-199 | a cost is known, unknown, or has negative ticks, which is refused |
| CallLedger.SweepTakesTheOld | src/geoji_ai/adapters/postgres_call_ledger.py:126-151 | a sweep takes exactly the reservations and unknown calls from before the cutoff, each to unknown at its estimate; sent, closed and later calls stay as they are |
| CallLedger.StaleCounts | src/geoji_ai/adapters/postgres_call_ledger.py:126-134 | the report counts exactly the reservations from before the cutoff |
| CallLedger.LateCloseChangesNothing | src/geoji_ai/adapters/postgres_call_ledger.py:90-105 | a settlement after the call was closed or swept changes nothing, however late |
| CallLedger.SpendingIsCapped | src/geoji_ai/adapters/postgres_call_ledger.py:244-258 | spending exceeds the cap by no more than calls went over their estimates |
| CallLedger.ReserveKeepsSound | src/geoji_ai/adapters/postgres_call_ledger.py:244-278 | a reservation keeps the books, and a refused one leaves nothing behind |
| CallLedger.CloseKeepsSound | src/geoji_ai/adapters/postgres_call_ledger.py:379-422 | closing moves the estimate out of reserved and the charge into spent |
| CallLedger.UnknownKeepsSound | src/geoji_ai/adapters/postgres_call_ledger.py:307-312 | an unknown outcome keeps the estimate held |
| CallLedger.SweepKeepsSound | src/geoji_ai/adapters/postgres_call_ledger.py:314-377 | a sweep keeps the books |
| CallLedger.SweepTwice | src/geoji_ai/adapters/postgres_call_ledger.py:137-151 | a second sweep at the same cutoff finds nothing |
| CallLedger.MarkingKeepsSums | src/geoji_ai/adapters/postgres_call_ledger.py:126-134 | marking stale reservations moves no money |
| CallLedger.SettlingMovesDues | src/geoji_ai/adapters/postgres_call_ledger.py:137-160 | settling moves exactly the due estimates |
| CallLedger.DuesAreRight | src/geoji_ai/adapters/postgres_call_ledger.py:137-151 | the sweep settles exactly the old unknown calls, each once, in order |
| CallLedger.StepGrows | src/geoji_ai/adapters/postgres_call_ledger.py:52-160 | no transaction takes back a settlement, changes a closed call or lowers a cap |
| CallLedger.Ledger.Reserve | src/geoji_ai/adapters/postgres_call_ledger.py:244-278 | refused exactly when the raised cap would be exceeded, in conflict exactly when the key is taken, and otherwise one more reserved call |
| CallLedger.Ledger.Close | src/geoji_ai/adapters/postgres_call_ledger.py:379-422 | closes exactly the open rows, as the pricing law says; negative ticks are refused before anything is touched |
| CallLedger.Ledger.Settle | src/geoji_ai/adapters/postgres_call_ledger.py:280-290 | completes an open call: its post has spent the known cost more, or the estimate when the cost is unknown, and the estimate is no longer reserved |
| CallLedger.Ledger.Fail | src/geoji_ai/adapters/postgres_call_ledger.py:292-305 | fails an open call likewise, and one without usage and cost for nothing |
| CallLedger.Ledger.MarkUnknown | src/geoji_ai/adapters/postgres_call_ledger.py:307-312 | only an open row changes, and no money moves |
| CallLedger.Ledger.SweepUnknown | src/geoji_ai/adapters/postgres_call_ledger.py:314-377 | the whole sweep and its report; nothing is touched for a non-positive age |
| CallLedger.PerKey | src/geoji_ai/adapters/postgres_call_ledger.py:348-354 | the sums per post and the total of what is due |
| CallLedger.MoveAll | src/geoji_ai/adapters/postgres_call_ledger.py:355-364 | every due account is moved once, in whatever order |
| Gateway.ScopedCall | src/geoji_ai/application/llm_gateway.py:362-452 | the loop with its retry, waits, epoch check and aborts does what the specification says |
| Gateway.ClosesOnceUnlessUnledgered | src/geoji_ai/application/llm_gateway.py:362-452 | one or two attempts, and exactly one closing asked for, the one the exit and the last answer demand, except exactly when the last error is of a kind without a ledger status |
| Gateway.CallClosesItsRow | src/geoji_ai/application/llm_gateway.py:518-530 | the row of a call stays open exactly after a kind without a ledger status or for a cost that cannot be priced; otherwise it is complete after a reply, failed or unknown by the kind of the error, unknown after an interruption; a row a sweeper took is left alone |
| Gateway.CallIsCharged | src/geoji_ai/application/llm_gateway.py:392-452 | what a call is charged follows from what its last attempt ended in: the known cost, the estimate when it is unknown, nothing without a response, nothing yet where billing is unclear or the call was interrupted |
| Gateway.BadAnswerStays | src/geoji_ai/application/llm_gateway.py:392-452 | for every other model there is a call that leaves its row open |
| Gateway.RetriesOnlyTheRetryable | src/geoji_ai/domain/retries.py:130-149 | a second attempt follows only a first one that met a rate limit or a server error |
| Gateway.SecondAttemptIff | src/geoji_ai/application/llm_gateway.py:398-420 | a second attempt is made exactly when the first met a rate limit or server error, the wait the vendor asks for leaves time, nothing interrupts it and the epochs are current; it begins after that wait with the time left before the reserve |
| Gateway.ExitIsToldByTheWorld | src/geoji_ai/application/llm_gateway.py:392-452 | the exit is read off the last answer and what happened around it; moved epochs end a call exactly when its only attempt could be retried, the wait went through and the closing was not interrupted |
| Gateway.BrokenCallIsUnknown | src/geoji_ai/application/llm_gateway.py:362-380 | a call that outlasts its time or breaks ends at once as a timeout or transport error, marked unknown |
| Gateway.AnswerIsPassedOn | src/geoji_ai/application/llm_gateway.py:392-452 | an answer in time is settled at its cost, an error of another kind closed as failed or unknown by its kind, one of the two kinds without a status not at all |
| Gateway.WellBehavedModelsAlwaysClose | src/geoji_ai/application/llm_gateway.py:421-426 | a model leaves no row open, however its calls are timed and interrupted, exactly when its first answer is priced and of a kind with a ledger status, and its second too if the first is tried again |
| Gateway.DegradedInsideLeavesTheRowOpen | src/geoji_ai/domain/retries.py:110-121 | a DEGRADED raised inside leaves the row open |
| Gateway.TryFits | src/geoji_ai/application/llm_gateway.py:392-452 | a reply is settled at its own cost, an error closed by its own kind and bill, an abort marked unknown |
| Gateway.RowEndsClosed | src/geoji_ai/application/llm_gateway.py:518-530 | after its closing the row is open exactly when it was and the closing carries negative ticks |
| Gateway.AttemptsKeepTheReserve | src/geoji_ai/domain/retries.py:130-149 | every attempt, the wait and the retry included, ends before the reserved time |
| Gateway.WritersLeaveTimeForTheRest | src/geoji_ai/domain/budget.py:81-96 | if writers were started, the evaluator gets its full cap and finalize its half second |
| Budget.Backoff | src/geoji_ai/domain/retries.py:130-149 | there is a wait exactly for a rate limit or server error on the first attempt when what the vendor asks for fits into the time left before the reserve, and it is exactly that |
| Budget.NodesGetTheirTime | src/geoji_ai/domain/budget.py:81-142 | each node gets its cap or what is left behind the steps after it, whichever is smaller: nothing behind sentencing, half a second behind the evaluator, the evaluator's cap and half a second behind the writers; it is not started when nothing is left |
| Budget.WritersBlame | src/geoji_ai/domain/retries.py:88-107 | money before time before vendor, each exactly when it applies |
| Budget.EvaluatorBlames | src/geoji_ai/graphs/sentencing.py:362-371 | money before a degraded or refusing vendor before the evaluation, each exactly when it applies |
| JobQueue.StaleTokensChangeNothing | src/geoji_ai/adapters/postgres_jobs.py:41-44 | once a row left RUNNING for a generation, no operation with it ever changes anything |
| JobQueue.OneExitPerClaim | src/geoji_ai/adapters/postgres_jobs.py:27-100 | each claim ends at most once |
| JobQueue.ClaimsGetFreshGenerations | src/geoji_ai/workers/main.py:81-87 | two claims never share a generation, even under one worker id |
| JobQueue.LiveLeaseIsExclusive | src/geoji_ai/adapters/postgres_jobs.py:41-100 | while a lease is alive only its holder can change the row |
| JobQueue.TerminalForever | src/geoji_ai/adapters/postgres_jobs.py:27-100 | finished rows never change |
| JobQueue.EachEndHasItsCause | src/geoji_ai/adapters/postgres_jobs.py:41-100 | over every run from the empty table a job has succeeded exactly when its owner's completion was accepted, and is cancelled or failed exactly when one of the causes for that occurred |
| JobQueue.EndsByItsCause | src/geoji_ai/adapters/postgres_jobs.py:62-100 | one step ends an unfinished job exactly by the cause of the status it takes |
| JobQueue.FailureIsTriedAgain | src/geoji_ai/adapters/postgres_jobs.py:75-82 | a failure with attempts left and the next try before the deadline can be claimed again exactly from now plus the delay |
| JobQueue.TakenBackIsTriedAgain | src/geoji_ai/adapters/postgres_jobs.py:90-100 | an expired job with attempts and time left can be claimed again |
| JobQueue.ReleaseUndoesTheClaim | src/geoji_ai/adapters/postgres_jobs.py:84-87 | a claim and its release leave the job as it was |
| JobQueue.HeartbeatKeepsTheClaim | src/geoji_ai/adapters/postgres_jobs.py:55-60 | a heartbeat moves the end of the lease and nothing else, and the claim is its owner's until then |
| JobQueue.RunKeepsTable | src/geoji_ai/adapters/postgres_jobs.py:27-100 | queued rows have attempts left, running rows a lease of a known generation, and a sentence with a deadline is available before it |
| JobQueue.GoneForever | src/geoji_ai/adapters/postgres_jobs.py:27-100 | a generation that lost its row never gets it back |
| JobQueue.StepsLowerTheMeasure | src/geoji_ai/adapters/postgres_jobs.py:27-100 | every step but heartbeat and release brings a job closer to its end |
| JobQueue.ClaimsAreBounded | src/geoji_ai/adapters/postgres_jobs.py:27-38 | attempts are claims minus releases, so a job is claimed at most max_attempts times plus its releases |
| JobQueue.Jobs.ClaimNext | src/geoji_ai/adapters/postgres_jobs.py:27-38 | the first claimable unlocked row in queue order, none exactly when there is none: no other has a higher priority, or the same and was available or created earlier |
| JobQueue.QueueIsALine | src/geoji_ai/adapters/postgres_jobs.py:27-38 | the queue order is total and goes by priority, then availability, then age |
| JobQueue.Jobs.Own | src/geoji_ai/adapters/postgres_jobs.py:41-87 | heartbeat, complete, cancel, fail and release change exactly the owned row, as the laws of the queue say of each |
| JobQueue.Jobs.ReapExpired | src/geoji_ai/adapters/postgres_jobs.py:90-100 | every expired row, and no other, is taken back: none is left, attempts and the last error stay, and only rows with attempts left are queued again |
| Heartbeat.CancelledInTime | src/geoji_ai/workers/heartbeat.py:42-66 | cancelled before last renewal plus lease plus interval, by failure number max(1, ceil(lease/interval)-1) in a row, and over the lease by less than the last hang |
| Heartbeat.RunsOnIff | src/geoji_ai/workers/heartbeat.py:42-66 | the handler runs on exactly as long as every renewal succeeded or failed with room for another; the loop then knows the time of the last success and the failures since |
| Heartbeat.CancelledByTheFirst | src/geoji_ai/workers/heartbeat.py:42-66 | a cancelled handler was cancelled at the first renewal that lost the lease or left no room, when that one answered |
| Heartbeat.LosingTheLeaseCancels | src/geoji_ai/workers/heartbeat.py:61-66 | a lost lease cancels the handler whatever comes before or after, no later than at the answer that says so |
| Heartbeat.CancelsInTimeIff | src/geoji_ai/workers/heartbeat.py:7-10 | every cancellation comes before the lease of the last renewal ends, in all runs, exactly when no number of failures fits the lease without hanging and overruns it with hanging |
| Heartbeat.OnlyTwoIntervalsAreSafe | src/geoji_ai/workers/heartbeat.py:50-66 | where renewals may hang for a whole interval, that is exactly a lease of two intervals |
| Heartbeat.DefaultsAreSafeUpToHalf | src/geoji_ai/workers/heartbeat.py:7-10 | with 5 and 15 seconds it is exactly as long as no renewal hangs for more than 2.5 |
| Heartbeat.OverrunHappens | src/geoji_ai/workers/heartbeat.py:42-66 | such a number of failures has a run that is cancelled too late |
| Heartbeat.LateMeansOverrun | src/geoji_ai/workers/heartbeat.py:42-66 | a run cancelled too late shows such a number of failures |
| Heartbeat.FailuresTake | src/geoji_ai/workers/heartbeat.py:42-66 | failures in a row take at least an interval and at most an interval and a hang each, and leave room while the loop runs on |
| Heartbeat.RunsOnInTime | src/geoji_ai/workers/heartbeat.py:42-66 | running on means there was time for another renewal |
| Heartbeat.CancelledAfterTheLease | src/geoji_ai/workers/heartbeat.py:50-60 | a cancellation 19.9 s after the last renewal under a 15 s lease |
| Heartbeat.Run | src/geoji_ai/workers/heartbeat.py:42-66 | the loop does what the specification says, and so runs on and cancels exactly as the laws above say |
| Heartbeat.CeilBound | src/geoji_ai/workers/heartbeat.py:50-60 | the count form of the bound |
| MemoryRetain.NoStaleFactSurvives | src/geoji_ai/adapters/postgres_memory.py:326-390 | for every interleaving, once all rechecks ran, all live facts carry the current epochs exactly when every fact that an invalidation missed is deleted by then; retains in flight are never missed |
| MemoryRetain.InvalidationKeepsCurrentIff | database/sql/invalidate_scope.sql:11-12 | one step of any kind keeps the facts of finished retains current exactly when it is no invalidation that raises a scope one of them recorded without deleting it |
| MemoryRetain.StandingIsCurrentIff | src/geoji_ai/adapters/postgres_memory.py:354-377 | in every run at every moment a live fact of a finished retain is current exactly when no invalidation before has missed it |
| MemoryRetain.AlwaysCurrentIffNoneMissed | src/geoji_ai/adapters/postgres_memory.py:326-390 | along a whole run those facts are always current exactly when no invalidation misses one, and then all live facts are whenever no recheck is owed |
| MemoryRetain.HitFactsAreNewer | src/geoji_ai/adapters/postgres_memory.py:326-390 | once all rechecks ran no live fact was hit by an invalidation at a later epoch than its snapshot recorded |
| MemoryRetain.DeletedPostIsForgotten | database/sql/invalidate_scope.sql:10-12 | once a post is deleted nothing that was there lives on that came from it or was derived from it, and once no recheck is owed whatever is alive was retained knowing of the deletion |
| MemoryRetain.OthersAreSpared | database/sql/invalidate_scope.sql:10-12 | an invalidation touches no fact of another source that was not derived from a deleted post |
| MemoryRetain.RolledBackOwnsNothing | src/geoji_ai/adapters/postgres_memory.py:333-352 | a retain that is rolled back leaves nothing behind, then or later |
| MemoryRetain.AnotherSourceSurvives | database/sql/invalidate_scope.sql:11-12 | a fact of another source lives on under the old epoch |
| MemoryRetain.DeletionIsFinal | src/geoji_ai/adapters/postgres_memory.py:154-172 | deleted facts never come back and processed events stay processed |
| MemoryRetain.ReplayChangesNothing | src/geoji_ai/adapters/postgres_memory.py:335-340 | however late an event that was committed comes again, and with whatever facts, it is refused, changes nothing and never owns a fact |
| MemoryRetain.CommitKeeps | src/geoji_ai/adapters/postgres_memory.py:347-352 | a commit keeps every fact's standing and each event with one retain |
| MemoryRetain.RecheckKeeps | src/geoji_ai/adapters/postgres_memory.py:361-377 | the recheck makes what stays alive respect every earlier invalidation |
| MemoryRetain.InvalidateKeeps | database/sql/invalidate_scope.sql:10-12 | an invalidation spares only newer snapshots and unfinished retains |
| MemoryRetain.InsertedFacts | src/geoji_ai/adapters/postgres_memory.py:161-168 | inserting adds only new keys and changes nothing that is there |
| MemoryRetain.MemoryDb.BeginRetain | src/geoji_ai/adapters/postgres_memory.py:333-345 | accepted exactly for a new event under matching epochs |
| MemoryRetain.MemoryDb.CommitRetain | src/geoji_ai/adapters/postgres_memory.py:346-352 | inserts the facts and counts the new rows |
| MemoryRetain.MemoryDb.RecheckRetain | src/geoji_ai/adapters/postgres_memory.py:357-377 | revokes exactly when an epoch moved |
| Migrations.EachScriptOnce | src/geoji_ai/adapters/postgres_migrations.py:76-119 | with any number of racing and crashing runners no script commits twice, none is claimed by two, a finished runner leaves its list applied |
| Migrations.StartedRunnerFinishes | src/geoji_ai/adapters/postgres_migrations.py:76-119 | a runner that starts, whatever others left behind, can take its turns to the end of its list, and then all of it is applied |
| Migrations.CrashedStaysDown | src/geoji_ai/adapters/postgres_migrations.py:98-119 | a runner that has crashed takes no further turn |
| Migrations.AppliedInOrder | src/geoji_ai/adapters/postgres_migrations.py:91-119 | started empty with one list, the table is always a prefix of it |
| Migrations.ForeignNeverApplied | src/geoji_ai/adapters/postgres_migrations.py:25-29 | whatever files the runners find, version 4, which is the backend's, or one above ours is never applied, and every applied one comes from a file of ours that some runner found |
| Migrations.Discover | src/geoji_ai/adapters/postgres_migrations.py:46-63 | every version of a file up to the highest that is ours, except 4, once each in ascending order; an error exactly when two of our files share one |
| Migrations.TurnKeeps | src/geoji_ai/adapters/postgres_migrations.py:98-119 | one turn under the lock keeps that |
| Migrations.SchemaTable.Migrate | src/geoji_ai/adapters/postgres_migrations.py:91-119 | alone, applies exactly what is missing in order |
| JurorAmounts.ParserIsTheGrammar | src/geoji_ai/domain/juror_amounts.py:22-54 | accepted with a value exactly when the tokens read as an amount of that value with descending large units and descending small units per section |
| JurorAmounts.SpellingRoundTrip | src/geoji_ai/domain/juror_amounts.py:22-54 | the Korean spelling of every number below 10^16 is read back |
| JurorAmounts.CommaFormRoundTrip | src/geoji_ai/application/build_evidence.py:91-92 | every whole amount printed with commas is read back, negative ones included |
| JurorAmounts.DecimalMeans | src/geoji_ai/domain/juror_amounts.py:17-51 | a decimal number is worth its digits without the dot, divided by ten for each digit behind it |
| JurorAmounts.WellWrittenIff | src/geoji_ai/domain/juror_amounts.py:17-17 | a number is well written exactly when it is a whole number, or one with a dot and at least one digit behind it |
| JurorAmounts.WholeNumbersAre | src/geoji_ai/domain/juror_amounts.py:17-17 | a whole number is digits alone, or four and more of them with a comma in front of every three from the right |
| JurorAmounts.DecimalAmount | src/geoji_ai/domain/juror_amounts.py:22-54 | a decimal number with a unit is read as that many units exactly when they come to a whole amount, and refused otherwise |
| JurorAmounts.InUnitsRoundTrip | src/geoji_ai/domain/juror_amounts.py:22-54 | every number written as a decimal number of any of the six units is read back |
| JurorAmounts.FirstSignCounts | src/geoji_ai/domain/juror_amounts.py:23-30 | of the signs in front only the first one counts |
| JurorAmounts.BlankPlaysNoPart | src/geoji_ai/domain/juror_amounts.py:23-23 | a blank plays no part, wherever it stands |
| JurorAmounts.ParseAmount | src/geoji_ai/domain/juror_amounts.py:22-54 | the loop does what the specification says, and so reads exactly the amounts of the grammar at their value |
| JurorAmounts.AcceptedIsWellFormed | src/geoji_ai/domain/juror_amounts.py:31-51 | whatever is accepted is well formed |
| JurorAmounts.WellFormedIsAccepted | src/geoji_ai/domain/juror_amounts.py:31-51 | whatever is well formed is accepted with its meaning |
| JurorAmounts.ExtendStep | src/geoji_ai/domain/juror_amounts.py:31-51 | each token is accepted exactly when the amount stays well formed with it |
| JurorAmounts.CommasAreWellWritten | src/geoji_ai/domain/juror_amounts.py:17-17 | the comma form matches the number pattern and has its value |
| JurorAmounts.SpellReads | src/geoji_ai/domain/juror_amounts.py:16-16 | a spelling is read as the tokens of its amount |
| JurorAmounts.SpellMeaning | src/geoji_ai/domain/juror_amounts.py:18-19 | that amount is well formed and means the number |
| Evidence.NarrowestIsTheMeet | src/geoji_ai/graphs/preparation.py:163-170 | the narrowest scope is usable for a target exactly when all its parts are |
| Evidence.NothingIsLaundered | src/geoji_ai/graphs/preparation.py:163-220 | an inferred fact is usable exactly when all code evidence behind it is, through any number of inferences |
| Evidence.OnlyGroundedFactsReachTheTarget | src/geoji_ai/graphs/preparation.py:173-220 | from the pack through any number of merged answers, a fact is given to the writers of a target exactly when all the code evidence it rests on may be shown there |
| Evidence.HistoryIsGrounded | src/geoji_ai/graphs/preparation.py:173-220 | a pack and any number of merged answers keep facts as visible as what they cite |
| Evidence.MergeKeepsGrounded | src/geoji_ai/graphs/preparation.py:173-220 | merging keeps facts as visible as what they cite, and citing only earlier ones |
| Evidence.MergeInferredFacts | src/geoji_ai/graphs/preparation.py:173-220 | exactly the admitted items become facts, in order, under the next labels; labels stay F0 to Fn-1 with the label map on exactly those |
| Evidence.AdmittedExactly | src/geoji_ai/graphs/preparation.py:185-220 | exactly the rule hits and mitigations that say something and name at least one label and only known ones become facts, none of them twice |
| Evidence.InferredText | src/geoji_ai/graphs/preparation.py:199-215 | an inferred fact carries the item's words, cut after 500 characters, and cites something |
| Evidence.BuildEvidence | src/geoji_ai/application/build_evidence.py:249-291 | at most the limit of facts, labelled F0 to Fn-1 under fresh ids |
| Evidence.LabelsFitTheContract | src/geoji_ai/application/build_evidence.py:267-283 | every label of the pack is one the card contract accepts |
| Evidence.CitesWhatItNames | src/geoji_ai/graphs/preparation.py:199-203 | an inferred fact cites exactly the facts its item names |
| Evidence.OneMoreFact | src/geoji_ai/application/build_evidence.py:267-283 | one more fact under the next label keeps the labelling |
| Evidence.TargetPack | src/geoji_ai/application/build_evidence.py:299-302 | exactly the facts usable for the target rooms, each as often as before |
| Evidence.IntersectionMeaning | src/geoji_ai/graphs/preparation.py:167-170 | the rooms common to all room scopes |
| PreparationCache.OneRowPerKey | src/geoji_ai/adapters/postgres_preparation.py:71-86 | however many savers race, a key names one row from its first save on |
| PreparationCache.RunKeepsRows | src/geoji_ai/adapters/postgres_preparation.py:93-96 | stored banter never changes and every row keeps its key and dossier |
| PreparationCache.FirstBanterStays | src/geoji_ai/adapters/postgres_preparation.py:93-96 | a saved row takes the first banter sent to it unless its dossier was withdrawn before, and every later reader is given exactly that one |
| PreparationCache.FreshPrepIsUsable | src/geoji_ai/adapters/postgres_preparation.py:256-291 | a preparation saved with a dossier of its own can be used at once, without banter |
| PreparationCache.UsableUntilWithdrawn | src/geoji_ai/adapters/postgres_preparation.py:98-126 | a preparation can be used until its dossier is withdrawn, and never again after that |
| PreparationCache.WithdrawnForGood | database/sql/invalidate_scope.sql:6-9 | nothing that rests on a withdrawn dossier can be used, not even a preparation saved for it afterwards |
| PreparationCache.DossierKeyIgnoresTheRest | src/geoji_ai/domain/input_hash.py:85-100 | with distinct rooms the dossier key is equal exactly for equal post, intake and rule versions, whatever the room order, intensities and epochs |
| PreparationCache.RuleKeyIgnoresRoomOrder | src/geoji_ai/domain/input_hash.py:90-96 | two room lists give one key exactly when each room has the same versions in the same order |
| PreparationCache.SortedIsDetermined | src/geoji_ai/domain/input_hash.py:90-96 | a sorted list is determined by each room's versions |
| PreparationCache.SortKeepsVersions | src/geoji_ai/domain/input_hash.py:90-96 | the sort is stable per room |
| PreparationCache.SameInputSameKey | src/geoji_ai/domain/input_hash.py:72-100 | two snapshots have one input hash exactly when they have one dossier key and agree in audience, epochs and the rooms with their intensities as listed |
| PreparationCache.StepKeepsDb | src/geoji_ai/adapters/postgres_preparation.py:256-308 | one row per key, each with a dossier of its key and epochs |
| PreparationCache.PrepCache.SavePrep | src/geoji_ai/adapters/postgres_preparation.py:256-291 | every saver is given the one row of its key, new only when there was none, and nothing stored before changes |
| PreparationCache.PrepCache.SaveBanter | src/geoji_ai/adapters/postgres_preparation.py:293-306 | banter is stored once, is read back as it was given, and no other row changes |
| PreparationCache.PrepCache.LoadValidPrep | src/geoji_ai/adapters/postgres_preparation.py:310-369 | the exact row whenever it is usable, else the newest one that fits; what is returned was saved under this prompt for the same post, intake, rules and epochs and was not withdrawn, candidates only under their banter key; missed only when nothing fits |
| VendorHealth.Tracker.IsDegraded | src/geoji_ai/domain/vendor_health.py:43-49 | three kept times decide what the whole history says |
| VendorHealth.ThreeInARowDegrade | src/geoji_ai/domain/vendor_health.py:18-49 | after three server or transport errors in a row a vendor is degraded exactly when the third came within 60 seconds of the first and is no more than 60 seconds ago; right after a success it is not |
| VendorHealth.OthersDoNotCount | src/geoji_ai/domain/vendor_health.py:32-37 | another vendor's failure, or one of another kind, changes nothing |
| VendorHealth.Tracker.RecordFailure | src/geoji_ai/domain/vendor_health.py:32-37 | counts server and transport errors of that vendor only |
| VendorHealth.Tracker.RecordSuccess | src/geoji_ai/domain/vendor_health.py:39-41 | a success ends the streak |
| VendorHealth.ThirdFromTheEnd | src/geoji_ai/domain/vendor_health.py:43-49 | three failures are recent exactly when the third from the end is |

## Left out

- HTTP, database drivers, LangGraph and asyncio internals, prompts, model texts, logging, metrics and alerts.
- Regex lexicons and ending heuristics: per-text predicates of the environment (`Lexicon`), as are Unicode character classes.
- NFC/NFKC normalisation and JSON bytes; the regular expression that finds amounts in a text, before `_parse_amount`.
- The difference between the inline and the minimal dossier: both only decide which labels the run gets.
- Avoid-lists, eval_repaired and other state that only feeds prompts or metrics; the drafts kept beside an ALL_TEMPLATE failure.
- The node_results cache, the price lookup and the checks before a reservation: nothing is reserved on those exits.
- A failing generation_failed call: the run counts as reported.
- Concurrent calls are taken in the order their tasks start, which is the order a fair semaphore serves them.
- Worker bookkeeping of in-flight jobs: when a job moves between two slots of one process, the first slot's clean-up drops the second one's entry; only the release at shutdown depends on it.
- The backend cancelling a job from outside, and lock waits: a claim sees a set of locked rows.
- Recall queries, rule-hit lookup, banter filters and copying, share cards, the intake and jury-vote graphs, percentile metrics.
- Semaphore fairness, database latency and scheduler delay are taken as zero.
