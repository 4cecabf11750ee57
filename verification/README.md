# HubScope, verified

A Dafny model of the parts of HubScope whose correctness is hardest to see by reading: the
two-stage evaluation pipeline with its crash recovery, retry and resume, the Python-literal
matcher behind output-prediction cases, the alert state machine, the overview snapshot cache, the
probe scheduler, and the bounded counters and exact arithmetic around them.
`dafny verify dfyconfig.toml` checks everything.

## How the program is modelled

- **Shared state.** A mutex-protected block, a channel hand-off, a hub call, a webhook call or a
  database statement is one atomic step. A protocol is a state, a set of actions with guards, and
  the runs they generate; theorems quantify over all runs, so over every interleaving.
- **Objects.** Go types whose methods update their fields are classes (`PyParsing.PyParser`,
  `PipelineObject.Pipeline`, `Recovery.Store`, `Campaign.Store`, `AlertObject.Evaluator`,
  `Overview.Cache`, `Scheduler.Table`, `Captcha.Trigger`, `LoginDelay.Delayer`). Their methods
  keep the loops and branches of the Go code and are proved to do exactly what a specification
  function prescribes; the protocol steps are built from the same functions, or the methods are proved to
  be those steps, so the theorems are about what the methods do.
- **Numbers.** `float64` scores are `real`, strings of the literal parser are byte sequences,
  instants are integers counting nanoseconds, and event ids are positions in an append-only log.
- **Oracles.** What a hub answers, what a judge says, whether a send succeeds and when a context is
  cancelled are arbitrary inputs or arbitrary actions.

| files | what they hold |
|---|---|
| `Bytes`, `PyGrammar`, `PyInverse`, `Permutations`, `KeySort`, `PyCanon`, `PyEscapes`, `PyRoundTrip`, `PyReading`, `PyParser`, `PyLiteral`, `PyScalars`, `OutputMatch`, `OutputShapes` | the literal language as two inverse functions, canonical text, the cursor-based parser proved against them, what scalars mean byte by byte, extraction and verdict, and what the shapes of a reply give |
| `Median`, `Pipeline`, `PipelineMachine` | the jury rule, the pipeline object, one batch as a state machine |
| `PipelineInvariant`, `PipelineFrame`, `PipelineKeeps`, `PipelineVotes`, `PipelineRuns`, `PipelineSafety` | what every step keeps, and the proof that it does |
| `PipelineTheorems`, `PipelineScores`, `PipelineProgress`, `PipelineCircuit`, `PipelineRows`, `PipelineStuck`, `PipelineStranded` | completion, scores, progress, the circuit breaker, the rows of a finished run from answers and votes alone, and exactly which batches can get stuck |
| `Recovery`, `Campaign`, `Resume` | the crash sweep, campaign and run statuses with retry, resume |
| `QuietHours`, `Alerts`, `AlertDelivery`, `AlertState`, `AlertRounds`, `AlertFlush`, `AlertObject` | the quiet window, the alert machine, delivery, flags, what a round writes and what leaves the program, the evaluator object |
| `Overview`, `Scheduler`, `Counters`, `Numeric` | snapshot cache, probe scheduler, sliding-window counters, decimal normal forms |

## Where the code does not do what is said of it

Each of these is the code as it stands, with a lemma that shows it and, where there is one, the
exact condition under which the promise holds.

1. The overview cache's comment calls the forced third attempt the safe direction (it "only risks
   one extra rebuild"). It is not: whichever marker moved, and however far, some run stores such a
   snapshot and serves it stale to the next request (`Overview.ForcedExitCanBeStale`). For the
   markers of any stored attempt, every hit on them is fresh exactly when both held
   (`Overview.FreshExactlyWhenMarkersHeld`).
2. The jury rule is the true median on every input exactly when at most three votes are cast
   (`Median.MedianRuleExact`); with four or more it takes the second smallest.
3. A batch with a time budget gives its judges a guard that lets them leave when it is spent, but
   an exam worker waiting in a vote offer is then never released: with everybody waiting or gone,
   nobody looks at the clock, and only an operator's cancel moves the batch. That can happen
   exactly when the batch has a budget and gets to a sample with judges
   (`PipelineStuck.StuckExactly`). Batches without a budget, retries among them, can always finish
   (`PipelineProgress.UntimedFinishes`).
4. Resume and retry of chosen units mark a run's cells done after every cell. A run can then be
   stamped done while another of its cells has not started, and that is possible exactly when some
   run of the batch has two cells (`Resume.DoneTooEarlyIff`).
5. A reply that is nothing but a literal is extracted whole exactly when `[ANSWER]` does not occur
   in it (`OutputMatch.BareLiteral`); a string literal that spells the tag scores 0 against itself
   (`OutputMatch.TagInsideStringMisses`). In a code fence (`OutputShapes.FencedLiteral`) and behind
   `==` (`OutputShapes.AssertedLiteral`) the same condition decides.
6. Crash recovery scores a case from the answers it finds. For all verdicts it agrees with the live
   pipeline exactly when every sample that was answered and has a jury is persisted
   (`Recovery.RecoveryAgreesExactly`); `Recovery.PartialAnswersScoreDifferently` is an instance.
7. While alerting is not configured, a transition flips the cached flag without an event, so cache
   and log part company: a round keeps them together exactly when alerting is configured or the
   round changes nothing (`AlertState.CacheStaysExactly`).
8. Superfluous leading zeros survive numeric normalization, so `-00` and `0` have equal values and
   different normal forms (`Numeric.LeadingZerosDiffer`). Forms agree exactly when value, sign and
   number of integer digits do (`Numeric.FormsAgreeExactly`); without superfluous zeros that is
   when values do (`Numeric.EqualValuesEqualForms`).
9. An endpoint that is disabled and enabled again while its round is in flight restarts as soon as
   that round completes, not an interval later (`Scheduler.RestartsAtOnce`): the mark set by the
   dispatch that missed it is never taken back. It restarts early exactly when some dispatch during
   its last completed round did not list it (`Scheduler.StartsEarlyExactly`).
10. A process that dies between the stamp of a campaign's last run and the settling of the campaign
    leaves it failed with all runs done (`Campaign.CrashBeforeSettle`), because the cleanup at the
    next start fails every unsettled campaign. The settled standing tells the truth throughout
    exactly when no restart falls there (`Campaign.AlwaysTruthful`).

## Model

| member | source | states |
|---|---|---|
| PyInverse.ParseIsInverse | internal/evaluator/outputmatch.go:143-451 | reading a text yields a tree exactly when the tree is well formed and the text is its spelling followed by the rest: the grammar is unambiguous and parser and printer are inverse |
| PyInverse.Sound | internal/evaluator/outputmatch.go:156-451 | whatever is parsed is a well-formed tree whose spelling is exactly the consumed bytes |
| PyInverse.Complete | internal/evaluator/outputmatch.go:156-451 | every well-formed tree, whatever blanks, quotes, escapes, grouping and trailing commas it uses, parses back from its spelling |
| PyInverse.NumberExtend | internal/evaluator/outputmatch.go:267-278 | a number token followed by anything that may follow a value is matched in full and no further |
| PyRoundTrip.CanonParses | internal/evaluator/outputmatch.go:125-451 | the canonical text of any value parses, and to that value with dicts and sets put in order |
| PyRoundTrip.CanonDecidesEquiv | internal/evaluator/outputmatch.go:381-451 | two values have the same canonical text exactly when they differ only in the order of dict entries and set elements, duplicates counted |
| PyRoundTrip.NormSpec | internal/evaluator/outputmatch.go:436-450 | ordering a value all the way down gives a well-formed, ordered value with the same canonical text |
| PyRoundTrip.PlainPiecesOk | internal/evaluator/outputmatch.go:194-265 | escaping any byte string and decoding it again gives the same bytes |
| PyEscapes.PieceSpells | internal/evaluator/outputmatch.go:204-239 | a piece of a quoted body decodes to exactly the byte its text spells: n, t, r, the backslash and both quotes after a backslash, or two hexadecimal digits, stated in byte values |
| PyEscapes.EveryByteInHex | internal/evaluator/outputmatch.go:222-231 | for every byte each hexadecimal spelling, whatever the case of its digits, decodes to that byte |
| PyEscapes.SpellsOnce | internal/evaluator/outputmatch.go:204-239 | at most one front of a text spells a byte, and only one byte |
| KeySort.SortSpec | internal/evaluator/outputmatch.go:437-449 | sorting entries by key text, then value text, orders and rearranges |
| KeySort.SortedUnique | internal/evaluator/outputmatch.go:437-449 | two sorted arrangements of the same entries are equal, so an unstable library sort gives a determined result |
| Permutations.PermutationOf | internal/evaluator/outputmatch.go:378-380 | equal multisets of entries are matched up by a permutation of positions |
| PyParsing.PyParser.SkipWS | internal/evaluator/outputmatch.go:145-154 | the cursor moves over exactly the longest run of blanks |
| PyParsing.PyParser.ParseValue | internal/evaluator/outputmatch.go:156-179 | from any cursor the outcome, the text and the new cursor are those of the reading specification; it terminates and never reads past the end |
| PyParsing.PyParser.ParseString | internal/evaluator/outputmatch.go:185-242 | a string or bytes literal comes out decoded and re-quoted, a malformed one fails |
| PyParsing.PyParser.ParseBody | internal/evaluator/outputmatch.go:193-242 | the loop over a quoted body decodes it up to its closing quote or fails |
| PyParsing.PyParser.ParsePiece | internal/evaluator/outputmatch.go:204-239 | succeeds exactly when some front of the input spells a byte by the table of escapes in plain byte values, consumes that front and returns that byte |
| PyParsing.PyParser.EscapePyString | internal/evaluator/outputmatch.go:246-265 | the escaping loop computes the escape function |
| PyParsing.PyParser.ParseNumber | internal/evaluator/outputmatch.go:271-278 | the longest number token without its leading plus, or failure |
| PyParsing.PyParser.ParseKeyword | internal/evaluator/outputmatch.go:281-295 | True, False or None in any letter case, consuming the whole word, or failure |
| PyParsing.PyParser.ParseList | internal/evaluator/outputmatch.go:297-304 | a list's canonical text |
| PyParsing.PyParser.ParseTuple | internal/evaluator/outputmatch.go:311-340 | unit, grouping and tuples told apart as Python does |
| PyParsing.PyParser.ParseElems | internal/evaluator/outputmatch.go:344-376 | comma-separated values up to the closer with one optional trailing comma |
| PyParsing.PyParser.ParseDictOrSet | internal/evaluator/outputmatch.go:381-451 | a dict or set with its entries in canonical order |
| PyParsing.PyParser.ParseEntries | internal/evaluator/outputmatch.go:388-435 | the entry loop, whose first entry decides between dict and set |
| PyLiteral.CanonicalPyLiteral | internal/evaluator/outputmatch.go:125-136 | succeeds exactly on texts that are one literal between blanks, with its canonical text |
| PyLiteral.DenotesSpelling | internal/evaluator/outputmatch.go:118-136 | a text is a literal with a given value exactly when, trimmed, it is the spelling of a well-formed tree of that value and blanks |
| PyLiteral.TrimKeepsTheMiddle | internal/evaluator/outputmatch.go:126 | trimming cuts a blank-free middle out of the text and is idempotent |
| PyLiteral.CanonicalIsFixed | internal/evaluator/outputmatch.go:125-136 | canonicalising a canonical text gives the same text |
| PyLiteral.CanonicalDenotes | internal/evaluator/outputmatch.go:125-136 | the canonical text of a value denotes that value, put in order |
| PyLiteral.CanonicalDecides | internal/evaluator/outputmatch.go:118-136 | two literals have equal canonical texts exactly when their values are equal up to entry order |
| PyLiteral.ParenthesesAndTuples | internal/evaluator/outputmatch.go:306-340 | for every literal, "(v)" is v, "(v,)" is a one-element tuple, and the two never have the same canonical text |
| PyLiteral.NumbersMatchVerbatim | internal/evaluator/outputmatch.go:269-278 | two number tokens match exactly when they are the same characters apart from a leading plus, so 1 never matches 1.0 |
| PyLiteral.UnicodeBlanks | internal/evaluator/outputmatch.go:126-126 | the trimmed multi-byte blanks are the UTF-8 spellings of exactly the Unicode white-space code points |
| PyScalars.StringMeans | internal/evaluator/outputmatch.go:184-242 | a quoted text with b, B or no prefix denotes a string of given bytes exactly when its body spells them one after another by the table, in both quote styles |
| PyScalars.StringsMatch | internal/evaluator/outputmatch.go:184-265 | two strings match exactly when they spell the same bytes and both or neither are byte strings, whatever quotes and escapes they use |
| PyScalars.KeywordMeans | internal/evaluator/outputmatch.go:280-295 | a text of letters denotes True, False or None when it is that word in any case, and nothing otherwise |
| PyScalars.NumberMeans | internal/evaluator/outputmatch.go:267-278 | the number token is the longest front made of sign, digits, fraction and exponent, none when no front is, and stands for itself without a leading plus |
| PyScalars.BlanksMeanNothing | internal/evaluator/outputmatch.go:143-154 | any run of the six ASCII blanks before a text changes nothing |
| OutputMatch.TopLevelDoubleEq | internal/evaluator/outputmatch.go:93-116 | the first "==" that no string literal encloses, or -1 when there is none |
| OutputMatch.ExtractOutputLiteral | internal/evaluator/outputmatch.go:51-91 | tag, fence, language line and "==" are unwrapped in this order, with the same failures |
| OutputMatch.UnwrapFence | internal/evaluator/outputmatch.go:64-81 | the loop-free unwrapping computes the fence step whose results on every fenced reply the next rows fix |
| OutputMatch.OutputMatchVerdict | internal/evaluator/outputmatch.go:25-44 | no score for a bad expected text, 0 or 1 otherwise, as the verdict function says |
| OutputMatch.VerdictMeaning | internal/evaluator/outputmatch.go:17-44 | the score is 1 exactly when both texts are literals with values equal up to entry order, null exactly when the expected text is no literal, and otherwise 0 |
| OutputMatch.LiteralHasNoDoubleEq | internal/evaluator/outputmatch.go:82-91 | no literal contains "==" outside its strings, so the assertion unwrap never cuts one |
| OutputMatch.BareLiteral | internal/evaluator/outputmatch.go:46-91 | a reply that is one literal is extracted whole exactly when the opening tag does not occur in it |
| OutputMatch.BareLiteralVerdict | internal/evaluator/outputmatch.go:25-91 | such a reply scores by value alone, and an expected text accepts itself |
| OutputMatch.TaggedLiteral | internal/evaluator/outputmatch.go:56-63 | between answer tags a literal survives exactly when the closing tag is not in it |
| OutputShapes.FencedLiteral | internal/evaluator/outputmatch.go:64-91 | a literal without a fence inside, in a code fence whose opening line is blank or one word, is extracted whole exactly when it does not hold the answer tag |
| OutputShapes.FencedVerdict | internal/evaluator/outputmatch.go:25-91 | such a reply scores by the literal's value alone |
| OutputShapes.PhraseStays | internal/evaluator/outputmatch.go:74-80 | an opening line of several words is not dropped: what is extracted is that line and the literal |
| OutputShapes.FenceFails | internal/evaluator/outputmatch.go:64-73 | a fence that is never closed, or has text behind its first closing, extracts nothing and scores 0 |
| OutputShapes.AssertedLiteral | internal/evaluator/outputmatch.go:82-91 | behind any text without quote, "=" or fence, what follows "==" and blanks is extracted whole exactly when it does not hold the answer tag |
| OutputShapes.TagsInText | internal/evaluator/outputmatch.go:56-63 | inside any running text, what stands between the first opening tag and the closing tag, or the end when that is missing, is extracted |
| OutputMatch.TagInsideStringMisses | internal/evaluator/outputmatch.go:56-63 | a concrete string literal that scores 0 against itself |
| Median.TakeMedian | internal/evaluator/pipeline.go:547-569 | the loop over slots and the sort compute the partial-jury rule |
| Median.MedianRuleExact | internal/evaluator/pipeline.go:544-569 | with n votes cast the rule is the true median on every input exactly when n is at most three |
| Median.MedianIgnoresOrder | internal/evaluator/pipeline.go:547-569 | the median depends only on the multiset of non-null votes |
| Median.MedianUnit | internal/evaluator/pipeline.go:544-569 | votes in [0,1] have their median there; it is null exactly when nobody voted |
| Median.RuleOfVotes | internal/evaluator/pipeline.go:544-569 | one vote is itself, two give their mean, and with three or more the rule gives the second smallest: a vote with one other not above it and none of the rest below it |
| PipelineObject.Pipeline.OpenCase | internal/evaluator/pipeline.go:135-142 | opens an aggregate once, leaving an open one alone |
| PipelineObject.Pipeline.SettleSample | internal/evaluator/pipeline.go:163-206 | folds a median and hands out the case's score exactly when the last sample settles |
| PipelineObject.Pipeline.RegisterVotes | internal/evaluator/pipeline.go:225-231 | registers an empty ballot and adds its votes to the run's outstanding work before any offer |
| PipelineObject.Pipeline.LandVote | internal/evaluator/pipeline.go:315-336 | fills the slot, and gives the median exactly when the last expected vote lands |
| PipelineObject.Pipeline.DecrementPending | internal/evaluator/pipeline.go:347-355 | takes one vote off and finishes the run, once, when nothing is left |
| PipelineObject.Pipeline.MarkCellsDone | internal/evaluator/pipeline.go:359-371 | records that the cells are done and finishes the run if no vote is outstanding |
| PipelineObject.Pipeline.RunFinished | internal/evaluator/pipeline.go:373-379 | finishing happens at most once and only with cells done and no vote outstanding |
| PipelineSafety.StepKeeps | internal/evaluator/pipeline.go:134-379 | every step of exam cells, votes, pools, driver and cancel keeps the batch invariant: counters equal the work that is really outstanding, and each unsettled sample, unwritten row and unstamped run is in exactly one pair of hands |
| PipelineSafety.RunHolds | internal/evaluator/evaluator.go:385-466 | the invariant holds in every state of every run |
| PipelineTheorems.NeverCrashes | internal/evaluator/pipeline.go:225-288 | no interleaving sends on the closed vote channel or folds into a missing aggregate |
| PipelineTheorems.OneStamp | internal/evaluator/evaluator.go:413-466 | a run has at most one terminal stamp at any moment and exactly one when the driver is through |
| PipelineTheorems.DoneIsComplete | internal/evaluator/pipeline.go:315-379 | a run stamped done has all its cells back and all its votes counted off, and every case it opened has exactly one row, holding the case's score |
| PipelineTheorems.DoneGridIsComplete | internal/evaluator/evaluator.go:1088-1157 | a fresh batch's done run has one row for every case of every cell it did not skip, null for the cases the circuit breaker refused |
| PipelineTheorems.OtherRowsUntouched | internal/evaluator/retry.go:52-57 | rows outside the batch's grid never change, and in a retry every scored row is outside |
| PipelineTheorems.OneRowAtMost | internal/evaluator/pipeline.go:160-206 | a case never gets a second result row, which is what retry and resume take for granted |
| PipelineTheorems.CutNeverDone | internal/evaluator/pipeline.go:221-245 | a run whose vote fan-out a cancel cut short is never stamped done and ends failed |
| PipelineScores.ScoreIsMean | internal/evaluator/pipeline.go:186-206 | a case's score is the mean of the medians its samples settle with, null when none has one |
| PipelineScores.ScoreFromWorth | internal/evaluator/evaluator.go:1183-1216 | read off the answers alone, a failed call and an answer without judges contribute nothing, a rule its score, another answer the median of its judges' votes, and the score is their mean |
| PipelineScores.WrittenRow | internal/evaluator/pipeline.go:160-206 | in every run a written case has exactly one row, the mean of what its samples are worth by their answers and votes |
| PipelineScores.RuleCaseRow | internal/evaluator/evaluator.go:1193-1200 | in every run a written case whose samples a rule scored has the mean of the scores that are not null, null when all are |
| PipelineScores.ScoreUnit | internal/evaluator/verdict.go:137-143 | verdicts and rule scores in [0,1] give a score in [0,1] |
| PipelineScores.ThreeJudges | internal/evaluator/pipeline.go:544-569 | with one to three judges a sample settles with the true median of the non-null votes |
| PipelineScores.Confluence | internal/evaluator/pipeline.go:160-206 | in any two runs, with any worker counts, orders, cancels and other work, a case that has its row has the same row when its own answers and slot-indexed verdicts are the same |
| PipelineScores.StoredVotesAreVerdicts | internal/evaluator/pipeline.go:293-311 | at any moment the vote table holds exactly the judged slots, each with what its judge said |
| PipelineScores.UncancelledIsDone | internal/evaluator/evaluator.go:443-466 | without a cancel every run of a finished batch is stamped done |
| PipelineProgress.StepShrinks | internal/evaluator/evaluator.go:477-528 | every step leaves less work than there was |
| PipelineProgress.NoEndlessRun | internal/evaluator/evaluator.go:477-528 | no batch runs for ever |
| PipelineProgress.CanStep | internal/evaluator/pipeline.go:225-288 | until the driver is through some step other than a cancel is enabled, unless the batch has a time budget and all judges have left a waiting offer |
| PipelineProgress.UntimedFinishes | internal/evaluator/retry.go:148-174 | from every reachable state of a batch whose judges have no guard, a retry for one, the driver can be brought to its end without a cancel |
| PipelineCircuit.CircuitHolds | internal/evaluator/evaluator.go:1140-1155 | in every state of every run a cell's count of unanswered cases is that of its answers, and the circuit has not opened before the case it is at |
| PipelineRows.OpenedHolds | internal/evaluator/evaluator.go:1138-1157 | in every state of every run a cell that is through has opened exactly the cases before its circuit opened, which in an uncancelled retry are all |
| PipelineRows.ReachesExactly | internal/evaluator/evaluator.go:1140-1155 | the circuit refuses a case exactly when five cases in a row before it had every call fail |
| PipelineRows.FinishedRow | internal/evaluator/evaluator.go:1088-1217 | the rows of a fresh batch's done run as a function of the answers and votes: none for a skipped model, null for one that cannot be asked and behind five unanswered cases in a row, else the mean of what the samples are worth |
| PipelineRows.RetriedRow | internal/evaluator/retry.go:447-488 | a done retry that was not cancelled leaves that mean for every case of a model that can be asked; others, and in a cancelled retry those not reached, keep their row |
| PipelineStuck.StuckExactly | internal/evaluator/evaluator.go:366-405 | a batch can reach an unfinished state where only a cancel is possible exactly when it has a time budget and gets to a sample with judges |
| PipelineStuck.GetsStuck | internal/evaluator/pipeline.go:225-288 | in the run that shows it nobody takes a vote, leaves or cancels until, at the very end, all judges leave |
| PipelineStranded.FreshBatchStrands | internal/evaluator/evaluator.go:381-405 | the smallest such run: one run, one cell, one sample, one judge |
| Recovery.PickLatest | internal/evaluator/recovery.go:121-132 | the loop keeps each sample's latest attempt and the order of first appearance |
| Recovery.LatestSpec | internal/evaluator/recovery.go:121-132 | the kept answers are recorded ones, every sample has one, and none is superseded |
| Recovery.EarliestOfEquals | internal/evaluator/recovery.go:121-132 | of equal attempts of a sample the one recorded first is kept |
| Recovery.OrderSpec | internal/evaluator/recovery.go:124-132 | the order lists every sample exactly once |
| Recovery.Store.RecoverCase | internal/evaluator/recovery.go:92-196 | adds the missing vote rows and exactly one result row, nothing when there are no answers |
| Recovery.Store.JudgeMissing | internal/evaluator/recovery.go:152-179 | asks only the judges without a row and keeps what is stored, null votes included |
| Recovery.MissingExactly | internal/evaluator/recovery.go:163-179 | the added rows are one for each slot without a row, in slot order, with that judge's verdict, and no others |
| Recovery.RescueStores | internal/evaluator/recovery.go:134-187 | after the rescue a stored slot is as it was, a missing slot of an answered sample holds its verdict, and nothing else has changed |
| Recovery.RescueAgain | internal/evaluator/recovery.go:163-207 | rescuing again asks nobody and gives the same aggregate |
| Recovery.RecoveryAgrees | internal/evaluator/recovery.go:120-196 | from any subset of stored votes, and with samples persisted in any order, the recovered score is the one the live pipeline writes for the same answers and verdicts as long as no answered sample with a jury is missing |
| Recovery.RecoveryAgreesExactly | internal/evaluator/recovery.go:120-196 | for a case of which something was persisted, the two scores agree for all verdicts exactly under that condition |
| Recovery.MissingSampleShows | internal/evaluator/recovery.go:133-196 | the verdicts for which they differ when such a sample is missing |
| Recovery.CrashThenRecover | internal/evaluator/recovery.go:90-196 | after a crash at any step of any run, with the vote table as that run left it, the recovered score is the live one |
| Recovery.CrashThenSweep | internal/evaluator/recovery.go:45-196 | and after one sweep over all cells every such case without a row has exactly the row the live run would have written, whatever the cells before it added to the vote table |
| Recovery.PartialAnswersScoreDifferently | internal/evaluator/recovery.go:133 | a concrete case of two samples of which one was persisted |
| Recovery.RecoverRun | internal/evaluator/recovery.go:47-88 | the sweep over a run's cells skips cells with a row and rule cases, and recovers the others |
| Recovery.SweepLeavesRows | internal/evaluator/recovery.go:53-88 | rows that were there are untouched, and a cell without one has one afterwards exactly when it is a judge cell with answers |
| Recovery.SecondSweepIdle | internal/evaluator/recovery.go:47-88 | a second sweep changes nothing, whatever the judges would say now |
| Campaign.Store.SettleCampaign | internal/store/campaign.go:198-222 | settles once: not while a run executes, failed without runs or with a failed run, else done |
| Campaign.Store.SettleEmptyCampaign | internal/store/campaign.go:433-441 | marks an unsettled campaign without runs done |
| Campaign.SettlesAs | internal/store/campaign.go:198-441 | an unsettled campaign without runs becomes done by the empty settle; one whose runs are all through becomes done when all are, else failed; a settled one stays |
| Campaign.Store.ReopenCampaignRuns | internal/store/campaign.go:375-411 | from a settled campaign only, puts it and the listed runs back to executing |
| Campaign.Store.ReopenCampaignForRetry | internal/store/campaign.go:250-285 | from a settled campaign only, puts it and exactly the runs holding a null result back to executing |
| Campaign.Store.FinishEvalRun | internal/store/eval_run.go:325-330 | stamps one run |
| Campaign.Store.CloseOutInterrupted | internal/store/store.go:551-566 | the cleanup at start: executing runs fail, then every unsettled campaign |
| Campaign.AlwaysConsistent | internal/store/campaign.go:190-285 | in every sequence of operations, restarts included, a settled campaign has no executing run, and done means all runs done |
| Campaign.TruthLostExactly | internal/store/store.go:551-566 | one operation makes a failed standing untrue exactly when it is a restart that finds every run done and the campaign unsettled |
| Campaign.CrashBeforeSettle | internal/store/store.go:560-566 | a concrete such restart |
| Campaign.AlwaysTruthful | internal/store/campaign.go:190-285 | after every operation of a sequence done means all runs done and failed means none or a failed one, exactly when no restart comes between the last run and the settling |
| Campaign.FirstOneWins | internal/store/campaign.go:196-249 | a settled campaign keeps its standing until it is reopened, and of two racing retries one gets through |
| Campaign.ReopenedRuns | internal/store/campaign.go:239-285 | reopening moves exactly the runs with a null result and changes no row |
| Campaign.RetrySettles | internal/evaluator/retry.go:35-175 | from any settled campaign without an executing run, after a retry of failed results, cancelled or not, every reopened run is done or failed, the others are as they were, the campaign is settled and truthful, and no scored result has changed |
| Campaign.UncancelledRetry | internal/evaluator/retry.go:35-175 | when nobody cancels it every reopened run ends done, and the campaign done unless a run it did not reopen had failed |
| Resume.Todo | internal/evaluator/retry.go:366-388 | the plan holds exactly the enabled cases of a member without a row or whose last row is null |
| Resume.PlanSparesScores | internal/evaluator/retry.go:325-388 | while a unit has at most one row the plan leaves out exactly the scored units |
| Resume.ResumeKeepsScores | internal/evaluator/retry.go:325-432 | in every state of every resume, cancelled or not, every scored row is as it was |
| Resume.OnlyTheGridChanges | internal/evaluator/retry.go:286-323 | no step works on, or changes a row of, a unit outside the plan |
| Resume.EagerIsOrdinary | internal/evaluator/retry.go:417-430 | with one cell to a run, marking after every cell is marking after the last, so all batch theorems apply |
| Resume.DoneTooEarlyIff | internal/evaluator/retry.go:243-247 | a run can be stamped done before its cells are back exactly when some run has two cells |
| QuietHours.NextBoundary | internal/alerter/quiet.go:80-92 | the two-day search finds the first whole hour ahead at which the clock shows a bound |
| QuietHours.BoundaryFlips | internal/alerter/quiet.go:53-92 | that instant is strictly ahead and at most a day away, and is the first at which quiet and loud change places |
| QuietHours.WindowHours | internal/alerter/quiet.go:68-74 | counting hours on from the start, the window holds exactly those before the end: an instant is quiet exactly when its hour is start plus k for some k below the distance to the end |
| QuietHours.StartIsQuietEndIsLoud | internal/alerter/quiet.go:64-74 | an instant that shows the start hour is quiet and one that shows the end hour is not |
| QuietHours.BoundaryTurns | internal/alerter/quiet.go:76-92 | the next boundary is a whole hour showing a bound, and the window goes on there exactly when it shows the start and off exactly when it shows the end |
| QuietHours.QuietMinute | internal/alerter/window.go:135-139 | a flush is held exactly when the switch is on, the bounds are two different hours of the day and some instant of the minute before it is due has a quiet hour |
| QuietHours.TwoInstantsSuffice | internal/alerter/window.go:99-139 | checking the two ends of the 60s window finds a quiet instant exactly when there is one |
| AlertObject.Evaluator.IsAlerted | internal/alerter/evaluator.go:136-147 | the cached flag, else the newest down or recovered event; the answer is cached |
| AlertObject.Evaluator.IsGroupAlerted | internal/alerter/group.go:49-60 | the same for a vendor |
| AlertObject.Evaluator.HandleRound | internal/alerter/evaluator.go:107-130 | a round opens a closed endpoint at three failures in a row and closes an open one below three, else changes nothing |
| AlertObject.Evaluator.MakeTransition | internal/alerter/evaluator.go:170-229 | flag, event, group evaluation and buffered transition with its absorbed mark, in this order |
| AlertObject.Evaluator.EvaluateGroupOf | internal/alerter/group.go:69-115 | opens a vendor at two faulty members and half of them, closes it below half |
| AlertObject.Evaluator.MakeGroupTransition | internal/alerter/group.go:128-173 | flips the flag, and when configured records the event and buffers the frozen card |
| AlertObject.Evaluator.RecoveredMembers | internal/alerter/group.go:182-212 | the members not faulty whose newest event is a recovery recorded after the group opened |
| AlertObject.Evaluator.Flush | internal/alerter/window.go:114-252 | the object's flush is the flush step, whose deliveries AlertFlush.FlushDelivers and AlertFlush.FlushHeld fix |
| AlertObject.Evaluator.DropConfirmed | internal/alerter/window.go:141-163 | keeps, in order, exactly the buffered items whose event is not confirmed |
| AlertObject.Evaluator.SendAll | internal/alerter/window.go:218-252 | group cards first, then at most one card of each kind |
| AlertObject.Evaluator.SendCard | internal/alerter/window.go:294-312 | writes the result back to the card's events and records the card |
| AlertObject.ReplayCoverage | internal/alerter/window.go:199-216 | the per-family sets built in place are the replayed coverage |
| AlertObject.IdsToShow | internal/alerter/window.go:222-249 | the ids left for one kind of card |
| AlertObject.Evaluator.DeliverQuietSummary | internal/alerter/quiet.go:229-314 | reports and confirms the unconfirmed open anchors and the deferred drops, or nothing |
| AlertObject.Evaluator.SummaryAnchors | internal/store/alerts.go:334-435 | the anchors: opening events that are their subject's newest, unconfirmed, an endpoint's folded into its vendor's |
| AlertObject.Evaluator.HandleScoreDrop | internal/alerter/score_drop.go:163-176 | a drop inside quiet hours is recorded unconfirmed and deferred, another is sent at once |
| AlertDelivery.StepKeeps | internal/alerter/window.go:114-312 | every step keeps confirmations honest: a report is confirmed exactly when it was delivered once |
| AlertDelivery.DeliveredOnce | internal/alerter/window.go:141-163 | over every run of rounds, drops, flushes, summaries, failed sends and restarts nothing is delivered twice under its own id |
| AlertDelivery.ConfirmationsStay | internal/store/alerts.go:229-245 | events keep their place and kind, and a confirmation is never taken back |
| AlertDelivery.CoveredExactly | internal/alerter/window.go:178-216 | the replay withholds a member exactly when some group_down card of its family lists it as faulty and no later group_recovered card lists it as recovered |
| AlertDelivery.FlushAccounting | internal/alerter/window.go:152-251 | every unconfirmed transition is exactly one of absorbed, covered, on the down card, on the recovered card, and an unabsorbed recovery is always shown |
| AlertFlush.FlushDelivers | internal/alerter/window.go:147-312 | with a webhook and no quiet instant, every unconfirmed group event, every unconfirmed down neither absorbed nor still told, and every unconfirmed, unabsorbed recovery is delivered and confirmed exactly when its card's send succeeded; one batch event per card, group cards first; nothing else changes |
| AlertFlush.FlushHeld | internal/alerter/window.go:135-177 | without a webhook or with a quiet instant in its minute a flush only empties the window: log and deliveries stay |
| AlertFlush.SummaryDelivers | internal/alerter/quiet.go:229-314 | with a webhook the summary delivers exactly the open unconfirmed stories, an endpoint's only when its vendor has none, and the deferred drops, confirmed as its send went, with one event of its own; with nothing to tell it does nothing |
| AlertFlush.DropDelivers | internal/alerter/score_drop.go:163-176 | a score drop outside quiet hours is confirmed as its own send went; inside it stays unconfirmed and deferred |
| AlertFlush.DeferredDropIsTold | internal/alerter/quiet.go:229-314 | a deferred drop is delivered once by the next summary whose send succeeds |
| AlertState.RunFollows | internal/alerter/evaluator.go:132-147 | while alerting stays configured every cached flag equals the one derived from the log after every step, and the transitions depend on the rounds alone |
| AlertState.RestartTransparent | internal/store/alerts.go:276-318 | wiping caches and buffers at any points leaves the sequence of transitions unchanged |
| AlertState.CacheStaysExactly | internal/alerter/evaluator.go:165-206 | a round keeps cache and log together exactly when alerting is configured or the round changes nothing |
| AlertState.TransitionsAlternate | internal/alerter/evaluator.go:122-130 | each endpoint's and each vendor's transitions start with a down and strictly alternate |
| AlertState.Hysteresis | internal/alerter/group.go:62-115 | after every evaluation an open vendor has at least half its members faulty, a closed one fewer than two or less than half |
| AlertRounds.RoundWrites | internal/alerter/evaluator.go:104-229 | read off the log, a configured round records the endpoint's event at three failures or below them, then its vendor's at two and half of the members or below half, and buffers the transition, absorbed exactly when the group was open before or is open after it; else it writes nothing |
| AlertRounds.GroupWrites | internal/alerter/group.go:62-173 | the vendor's event and its frozen card: the members whose alert is open, and on a recovery those that came back since the group opened |
| Overview.StableHitIsFresh | internal/server/overview_snapshot.go:84-201 | a hit on a snapshot whose markers held is of the request's hour and contains every write whose invalidation is over and every probe its watermark counted, for every interleaving |
| Overview.ServedExactly | internal/server/overview_snapshot.go:118-136 | a request is served exactly when its scope's snapshot has its watermark, the current generation and its hour; else it joins the rebuild or leads one |
| Overview.FreshExactlyWhenMarkersHeld | internal/server/overview_snapshot.go:181-198 | for the markers of any stored attempt, every hit on them in every run is fresh exactly when both markers held |
| Overview.StaleExactly | internal/server/overview_snapshot.go:157-201 | some run serves a snapshot with given markers stale exactly when they moved during a third attempt after two attempts that moved one each |
| Overview.ForcedExitCanBeStale | internal/server/overview_snapshot.go:151-201 | for every such pair of markers, a run whose next request is served a snapshot that misses a write or a probe |
| Overview.Cache.InvalidateOverview | internal/server/overview_snapshot.go:88-93 | the critical section is the protocol's invalidation step, for any committed writes or none, and the object goes on agreeing with the protocol state |
| Overview.Cache.LookUp | internal/server/overview_snapshot.go:118-136 | the protocol's look step: serves exactly on a hit, else leads or joins one rebuild per scope |
| Overview.Cache.StoreSnapshot | internal/server/overview_snapshot.go:140-147 | the protocol's store step: the built snapshot is the scope's, with its body, and the rebuild is over |
| Overview.Rebuild | internal/server/overview_snapshot.go:157-201 | repeats attempts exactly where the protocol does and returns what the protocol stores |
| Scheduler.Table.DispatchRounds | internal/scheduler/scheduler.go:122-178 | resolves each interval, starts what is due, forgets what is disabled, and returns the wake time |
| Scheduler.Table.StartIfDue | internal/scheduler/scheduler.go:140-159 | one endpoint's turn in the dispatch loop |
| Scheduler.Table.FinishRound | internal/scheduler/scheduler.go:209-224 | records a completion, or forgets a dropped endpoint |
| Scheduler.OneRoundEach | internal/scheduler/scheduler.go:145-188 | in every run each endpoint has at most one round in flight, and the semaphore's cap holds |
| Scheduler.NoneIdleAndDue | internal/scheduler/scheduler.go:119-160 | after a dispatch no enabled endpoint is both idle and due |
| Scheduler.WakesInTime | internal/scheduler/scheduler.go:119-178 | the loop wakes no later than the poll interval and no later than any idle endpoint's due time |
| Scheduler.WakeIsEarliest | internal/scheduler/scheduler.go:122-160 | the wake time is exactly the earliest of those |
| Scheduler.StartsEarlyExactly | internal/scheduler/scheduler.go:149-224 | an idle endpoint that was enabled at its last completion and ever since restarts before that completion plus its interval exactly when some dispatch during that round did not list it |
| Scheduler.RestartsOnTime | internal/scheduler/scheduler.go:149-224 | so one that every dispatch listed since its last completed round began restarts no earlier |
| Scheduler.StartsAfterOwnInterval | internal/scheduler/scheduler.go:140-233 | a dispatch starts an idle endpoint with a completion exactly when its own positive interval, else the default, has passed since |
| Scheduler.RestartsAtOnce | internal/scheduler/scheduler.go:162-219 | a concrete run: disabled and enabled again in flight, it restarts at its completion |
| Captcha.Trigger.Required | internal/server/captcha.go:91-113 | the answer is that of counting all failures since the last reset inside the window |
| Captcha.Trigger.RecordFailure | internal/server/captcha.go:118-168 | the bounded, swept tables go on accounting for the full history; only a full table leaves a new key uncounted |
| Captcha.Trigger.Reset | internal/server/captcha.go:172-177 | forgets both keys |
| LoginDelay.Delayer.Penalize | internal/server/logindelay.go:87-151 | the delay is the penalty of all failures since the last reset inside the window, this one included |
| LoginDelay.Delayer.Reset | internal/server/logindelay.go:154-158 | forgets the user |
| Counters.NoteRemembers | internal/server/captcha.go:143-168 | sliding, appending and capping keep the entry equal to the recent tail of the history |
| Counters.SweepRemembers | internal/server/captcha.go:123-136 | sweeping a stale entry loses nothing that could still count |
| Counters.CaptchaAnswer | internal/server/captcha.go:99-113 | the capped list and the full history give the same answer at any later time |
| Counters.PenaltyAnswer | internal/server/logindelay.go:114-143 | the capped list and the full history earn the same penalty |
| Counters.PenaltyBands | internal/server/logindelay.go:133-143 | nothing up to the threshold, then the first band, the second, and the last for ever; with growing bands one more failure never waits less |
| Counters.ArmedExactly | internal/server/captcha.go:91-113 | a captcha is due exactly when the failure that many places from the newest is still inside the window |
| Numeric.NormalizeIsNormal | internal/evaluator/numeric.go:76-89 | on every token the chain of string functions computes the normal token's spelling |
| Numeric.DecoratedToken | internal/evaluator/numeric.go:76-89 | blanks around a token, a dollar sign and then a plus before it make no difference |
| Numeric.NormalKeepsValue | internal/evaluator/numeric.go:71-89 | normalizing keeps the rational value |
| Numeric.NormalizeIdempotent | internal/evaluator/numeric.go:71-89 | normalizing twice is normalizing once |
| Numeric.EqualFormsEqualValues | internal/evaluator/numeric.go:71-89 | equal normal forms mean equal values, for all tokens |
| Numeric.FormsAgreeExactly | internal/evaluator/numeric.go:71-89 | for all tokens, normal forms are equal exactly when value, sign and number of integer digits are |
| Numeric.EqualValuesEqualForms | internal/evaluator/numeric.go:71-89 | without superfluous leading zeros normal forms are equal exactly when values are |
| Numeric.LeadingZerosDiffer | internal/evaluator/numeric.go:85-87 | two tokens with equal values and different forms |

## Left out

Statements that are narrower than the code around them:

- PipelineProgress.UntimedFinishes: shows that the driver can always be brought to its end and that no run is endless; that a scheduler picks an enabled step is assumed.
- Overview.StableHitIsFresh: speaks about hits; a request that joins a rebuild in flight is given whatever the leader built.
- Recovery.RecoveryAgrees: a cell whose answers are all lost gets no row at all; the lemma assumes that the model, its hub and an endpoint still resolve; the code skips the case otherwise.
- Numeric.EqualValuesEqualForms: starts from matched tokens; finding the token in a reply and Unicode folding are not modelled, and surrounding blanks are the four ASCII ones.
- QuietHours.BoundaryFlips: one fixed offset from UTC, so no daylight-saving changes.
- OutputShapes.FencedLiteral: an opening line made of multi-byte Unicode blanks alone is not covered.
- Campaign.RetrySettles: takes at most one result row per unit, which `PipelineTheorems.OneRowAtMost` shows every batch keeps; the table itself has no such constraint.
- LoginDelay.Delayer.Penalize: returns the delay; the sleep and its early release are not modelled.
- Resume.DoneTooEarlyIff: the driver stamps leftovers once per run, where the code repeats the same stamp once per cell.

What the program does and the model does not:

- A case row's answer text, latency, token counts, verdict detail and caliber, which `recordAnswer` folds: sums over one cell's own samples, in the order that cell asks them.
- Cost accounting, queue-depth counters, task logs, card and message texts.
- The campaign's time budget and the all-cells-dead abort act as an external cancel or as judges leaving early; the probe gate, jury selection and jury confirmation come before the batch starts.
- `RetryUnits` restricts the retry to listed units, and `RetryAnsweredUnits` shares the machine of `Resume` but may delete scored rows on purpose; its run stays reopened when every requested case is disabled.
- Arming and superseding the quiet-boundary timer: a summary may come at any moment.
- Store errors, deleted endpoints, models and hubs, and events that share a second.
- `float64` rounding.
- Sorting is any arrangement that is sorted; `sort.Slice`, `sort.Strings` and `sort.Float64s` are not modelled themselves.
- Snapshot bodies, ETags and truncating the clock to the hour: the hour marker is compared for equality only.
- Transport, sessions, roles, audit, classification, report scoring, the instruction-following checks and the web frontend.
