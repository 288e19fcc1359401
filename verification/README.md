# Verified models of the grading platform's core

These Dafny modules model the parts of an exam-grading platform whose behaviour
is hardest to see by reading them, and prove what they promise. Each loop or
state-changing routine of the program is a method proved equal to a
specification function, and the theorems are about those functions, for every
input, every run or every interleaving.

- **Calibration** (`Calibration*.dfy`): the in-place pool-adjacent-violators fit,
  the step predictor and the binned evaluation. The fit is monotone, conserves
  its counts and has calibration error zero on its own records. It is the
  least-squares function of the signal for every outcome exactly when the signals
  are tie-safe: a tied point joins a block that may already have been pooled to
  the left, and the exact patterns for which that cannot hurt are characterised.
- **Restricted LaTeX** (`Latex*.dfy`): the cursor parser, and a concrete grammar
  with every notation it reads. The parser accepts exactly that grammar, the
  grammar is unambiguous, and printing and parsing undo each other.
- **Idempotent single flight** (`SingleFlight*.dfy`, `GradingAttempts.dfy`): the
  service object with its ordered cache and in-flight table, and a transition
  system in which any number of clients interleave its critical sections. An
  event log and a per-key protocol carry the safety statements.
- **Blind annotation** (`Annotation*.dfy`, `Kappa*.dfy`, `Agreement.dfy`): label
  checks, greedy planning, merging and finalizing, end to end, and quadratic
  weighted kappa.
- **Compact paper protocol** (`Paper*.dfy`): reading order, bounded chunks,
  hydration, provenance checks, merging, and the route from answers to result.
- **Dataset split, lease heartbeat, suggestion contract, round robin**
  (`DatasetSplit*.dfy`, `Lease*.dfy`, `Suggestion*.dfy`, `RoundRobin*.dfy`).

`Ordering.dfy`, `Grouping.dfy`, `RealArithmetic.dfy`, `Substrings.dfy` and
`Wrappers.dfy` hold shared vocabulary.

## Where the code and its promises part

- The annotation document promises workloads within one of each other whenever
  all teachers share eligibility (`lab/docs/blind-annotation-workflow.md:58`).
  The code also demands an independent adjudicator for every pair, so this fails
  when, say, a teacher is the only adjudicator. `AnnotationBalance` gives that
  case and the exact condition for one step; `AnnotationFairTeams` gives the
  exact condition for a plan, and for a team: all its plans stay balanced
  exactly when every two of its teachers leave an independent adjudicator.
- Least-squares optimality fails for some tied signals; `CalibrationTies` says
  for exactly which patterns of signals, `CalibrationRecords` for which records.
- `splitByQuestionGroup` reports leakage for a single group when validation and
  test both ask for one half, because validation's count becomes -1; with three
  groups the same ratios leave validation empty. Both are exact conditions.
- Direct-text offsets are taken after stripping, so they quote the original
  content exactly when it has no leading white space. The paper parser strips
  its documents first, so its own calls are on the good side.
- The heartbeat promises to retry only before the last successful lease expires,
  and measures that lease from the return of the send. Counted from its grant,
  which lies inside that send, the promise holds exactly for timings without a
  tight number of waits (`LeaseGrants`). The shipped timings are tight.
- A teacher plan that passes the binding check need not leave an adjudicator for
  a dispute; without one merging fails (`MergeSucceedsIff`). It need not use
  distinct bundle identifiers or record its sample identifiers; then merging
  succeeds and finalizing never does (`AnnotationFinalLimits`). Built plans do
  all three.
- An adjudication task handed out while an earlier sample is still open can move
  to another adjudicator with further submissions (`AnnotationMergeTasks`).
- The paper parser does not check that block identifiers are unique or pages
  whole, so a good answer can be refused; `PaperRoute` says for which documents.

## Model

| member | source | states |
|---|---|---|
| Calibration.MergeRightmost | lab/src/evaluators/calibration.js:32-42 | the inner pooling loop leaves the stack exactly as the recursive pooling of its last block, and stops when the last two means are in order |
| Calibration.FitIsotonicCalibration | lab/src/evaluators/calibration.js:18-55 | the fit of any non-empty list is the specified block list, an empty list is an error |
| Calibration.PredictCalibratedProbability | lab/src/evaluators/calibration.js:57-68 | the scan over blocks returns the specified step value, an empty model is an error |
| Calibration.FillBuckets | lab/src/evaluators/calibration.js:82-86 | every prediction lands in the bucket of its clamped floor index, in order |
| Calibration.SummariseBins | lab/src/evaluators/calibration.js:87-95 | the running calibration error is the weighted sum of the gaps between accuracy and average probability over the non-empty buckets |
| Calibration.EvaluateCalibration | lab/src/evaluators/calibration.js:70-105 | calibration error, squared error and bins of an evaluation, and its two error cases |
| CalibrationStructure.FitPrefixStructure | lab/src/evaluators/calibration.js:24-44 | after every point the blocks are separated runs of the sorted points, cover all of them, and their means never decrease, ties included |
| CalibrationStructure.PredictIsStepValue | lab/src/evaluators/calibration.js:57-68 | the scan equals the mean of the last block whose minimum signal is at most the signal, and of the first block when there is none |
| CalibrationStructure.FittedPredictionMonotone | lab/src/evaluators/calibration.js:57-68 | for every training list, a larger signal never gets a smaller probability |
| CalibrationStructure.FitConserves | lab/src/evaluators/calibration.js:24-53 | block counts add up to the records and block sums to the acceptable outcomes among them |
| CalibrationInSample.InSampleCalibrationIsExact | lab/src/evaluators/calibration.js:70-95 | fitting any non-empty list, ties included, and evaluating on it gives a calibration error of exactly zero for every positive number of bins |
| CalibrationOptimality.TieSafeFitIsLeastSquares | lab/src/evaluators/calibration.js:18-55 | without a harmful tie no non-decreasing function of the signal fits the outcomes with less squared error |
| CalibrationOptimality.InSampleBrierIsMinimal | lab/src/evaluators/calibration.js:97 | without a harmful tie the reported squared error is the least any non-decreasing predictor of the signal can reach |
| CalibrationTies.LeastSquaresForAllOutcomesIffTieSafe | lab/src/evaluators/calibration.js:26-29 | for a given pattern of signals the fit is least squares for every outcome the records could have exactly when the pattern is tie-safe; a tie can join a point to a block that was already pooled to the left |
| CalibrationTies.HarmfulTieMisses | lab/src/evaluators/calibration.js:26-29 | every pattern that is not tie-safe has outcomes on which the fit is not least squares |
| CalibrationTies.DistinctSignalsAreTieSafe | lab/src/evaluators/calibration.js:18-55 | pairwise distinct signals are tie-safe |
| CalibrationSequences.BestSequenceForAllOutcomesIffDistinct | lab/src/evaluators/calibration.js:18-55 | the fit beats every non-decreasing list of values, one per sorted record, for every outcome exactly when the signals are pairwise distinct |
| CalibrationRecords.RecordsFitWellIffTieSafe | lab/src/evaluators/calibration.js:7-29 | for records in any order with sound schema and evidence, the fit is least squares whatever gold scores in range they get exactly when their sorted reliability signals are tie-safe |
| CalibrationRecords.FiveRecordsCanMiss | lab/src/evaluators/calibration.js:7-29 | the smallest harmful pattern as records the code can receive: five of them, three recognised perfectly, get gold scores on which the fit is not least squares |
| Latex.Parser.Take | services/math-verification-worker/math_verification_worker/parser.py:99-104 | taking a token returns it and advances by one, or fails at the end |
| Latex.Parser.Parse | services/math-verification-worker/math_verification_worker/parser.py:20-31 | the whole parse is the specified outcome, including the trailing-input error |
| Latex.Parser.Expression | services/math-verification-worker/math_verification_worker/parser.py:33-38 | the sum loop computes the specified left-associative tree and leaves the cursor where the specification does |
| Latex.Parser.Term | services/math-verification-worker/math_verification_worker/parser.py:40-49 | the product loop, with explicit and implicit products, computes the specified tree and cursor |
| Latex.Parser.PowerOf | services/math-verification-worker/math_verification_worker/parser.py:51-56 | an atom with an optional exponent, as specified |
| Latex.Parser.Atom | services/math-verification-worker/math_verification_worker/parser.py:58-80 | every kind of atom and every error, as specified |
| Latex.Parser.GroupOf | services/math-verification-worker/math_verification_worker/parser.py:82-90 | a braced or parenthesised group without a group node, as specified |
| LatexGrammar.ParseUndoesPrint | services/math-verification-worker/math_verification_worker/parser.py:20-104 | whatever notation a sentence is written in, parsing it gives exactly its meaning |
| LatexGrammar.AcceptedWasWritten | services/math-verification-worker/math_verification_worker/parser.py:20-104 | every token list the parser accepts is the printed form of a sentence with that meaning |
| LatexGrammar.ParserDecidesGrammar | services/math-verification-worker/math_verification_worker/parser.py:20-104 | the parser returns a tree for a token list if and only if the list is written by the grammar with that meaning |
| LatexGrammar.GrammarIsUnambiguous | services/math-verification-worker/math_verification_worker/parser.py:20-104 | no token list has two meanings |
| LatexGrammar.ParseUndoesPrintTree | services/math-verification-worker/math_verification_worker/parser.py:20-104 | printing a well-formed tree with its canonical brackets and parsing it gives the tree back |
| LatexGrammar.ParseResultsAreTrees | services/math-verification-worker/math_verification_worker/parser.py:20-104 | a tree is a possible parse result if and only if it has the four-level shape |
| LatexGrammar.ParsePrintParse | services/math-verification-worker/math_verification_worker/parser.py:20-104 | printing an accepted tree and parsing again gives the same tree |
| SingleFlight.GradingService.PurgeCache | ai-services/grading_agent/app.py:220-224 | collecting and then deleting expired keys keeps exactly the entries created at or after the cutoff, in order |
| SingleFlight.GradingService.Admit | ai-services/grading_agent/app.py:77-110 | the admission section: purge, replay with a touch, conflict, wait or own, as specified |
| SingleFlight.GradingService.EvictOldest | ai-services/grading_agent/app.py:159-160 | the eviction loop drops exactly the surplus from the old end |
| SingleFlight.GradingService.Publish | ai-services/grading_agent/app.py:157-163 | the success section stores, evicts, fills the record and removes it from the table, as specified |
| SingleFlight.GradingService.Abandon | ai-services/grading_agent/app.py:139-154 | the failure section fills the error and removes the record, as specified |
| SingleFlightSafety.RunsAreSafe | ai-services/grading_agent/app.py:76-164 | every state reached by any interleaving of any number of clients keeps the whole invariant: table and records match, one owner per record, cache and table follow the event log, order of touches, grounded answers |
| SingleFlightSafety.StepKeepsInv | ai-services/grading_agent/app.py:76-164 | each section, model outcome, wake-up and time-out keeps the invariant |
| SingleFlightAnswers.AdmissionDecision | ai-services/grading_agent/app.py:77-110 | a request owns, waits, replays or conflicts exactly as fresh entries and running requests dictate, where fresh means created at most the time to live before that clock reading |
| SingleFlightTimes.AnswersAreOnTime | ai-services/grading_agent/app.py:77-90 | in every run a replayed answer is the one last stored for its key and digest, at most the time to live before the replay's clock reading, with only replays in between; and an answer expires only at a reading more than the time to live after it was stored |
| SingleFlightAnswers.ReachableStatesAreSafe | ai-services/grading_agent/app.py:76-164 | no key is both cached and in flight, the cache respects its limit, a finished record has exactly one of result and error, and every answer given was computed for that key and digest |
| SingleFlightAnswers.InflightKeyHasOneOwner | ai-services/grading_agent/app.py:91-110 | each key in flight has exactly one owner, working on that key |
| SingleFlightAnswers.WaitersAreServed | ai-services/grading_agent/app_v2.py:374-388 | a waiting client can wake or its record still has an owner |
| SingleFlightAnswers.FinishedRecordsAreFinal | ai-services/grading_agent/app_v2.py:390-417 | a finished record never changes, records only change when their owner finishes, and that removes them from the table |
| SingleFlightAnswers.NoRunWhileAnswerKept | ai-services/grading_agent/app.py:77-164 | between two model runs for a key the first one failed, or it succeeded and its entry then expired or was evicted |
| SingleFlightAnswers.RunsAreAccountedFor | ai-services/grading_agent/app.py:77-164 | every model run started for a key ended in one removal event, apart from the one that is running or cached |
| SingleFlightAnswers.EvictsLeastRecentlyTouched | ai-services/grading_agent/app.py:157-160 | storing drops exactly the surplus, and every dropped key was touched before every kept one |
| GradingAttempts.GradeUncached | ai-services/grading_agent/app.py:166-209 | the run returns the first usable output with its attempt count, repair reason and prior codes, or the error of the attempt that ended it |
| GradingAttempts.StopsAtFirstEnd | ai-services/grading_agent/app.py:171-218 | the stopping attempt is the unique first one that is usable, not repairable or the last allowed |
| Kappa.FillTables | lab/src/annotations/gold.js:161-169 | the counting loop leaves the matrix and both histograms holding exactly the counts of the pairs |
| Kappa.WeightedSums | lab/src/annotations/gold.js:170-177 | the double loop computes both weighted sums over the tables |
| Kappa.QuadraticWeightedKappa | lab/src/annotations/gold.js:158-179 | the histogram computation equals the direct formula: one minus the mean squared gap of the pairs over the mean squared gap of all cross pairs |
| KappaBounds.GapIdentity | lab/src/annotations/gold.js:170-178 | the lower bound in closed form: twice the expected minus the observed gaps is a sum of squares |
| KappaBounds.KappaRange | lab/src/annotations/gold.js:158-179 | kappa lies in [-1, 1]; it is 1 exactly when all pairs agree, and -1 exactly when the raters mirror each other around equal means without agreeing throughout |
| KappaBounds.KappaIsSymmetric | lab/src/annotations/gold.js:158-179 | swapping the raters leaves kappa unchanged |
| KappaBounds.BinsInRange | lab/src/annotations/gold.js:183-184 | every score in range gets a bin from 0 to the number of bins |
| KappaBounds.BinsAreMonotone | lab/src/annotations/gold.js:184 | a higher score never gets a lower bin |
| Agreement.AgreementKappa | lab/src/annotations/gold.js:181-184 | the pair list of a report on valid bundles, and its kappa |
| Agreement.AgreementInRange | lab/src/annotations/gold.js:158-184 | valid bundles give bins in range and kappa in [-1, 1], and 1 exactly when the two scores of every bundle share a bin |
| Agreement.UndisputedIsPerfect | lab/src/annotations/gold.js:94-184 | bundles that need no adjudicator have kappa 1 |
| Annotation.CheckDecision | lab/src/annotations/gold.js:44-75 | one decision raises no fault exactly when it is sound |
| Annotation.ValidateLabel | lab/src/annotations/gold.js:18-81 | no fault is reported exactly for a label that decides every rubric point once, soundly, with scores that add up |
| Annotation.AdjudicationIsSymmetric | lab/src/annotations/gold.js:94-101 | whether two labels need an adjudicator does not depend on their order |
| Annotation.AgreementIsPointwise | lab/src/annotations/gold.js:87-101 | labels that need no adjudicator agree on every decided point in status and score, and in evidence up to order and spelling |
| Annotation.AgreedGoldIsBothScores | lab/src/annotations/gold.js:139-156 | without an adjudication the gold score is the score of both labels |
| AnnotationPlan.AssertDatasetBinding | lab/src/annotations/workflow.js:128-142 | the loop over samples returns the identifier set or the first error, as specified |
| AnnotationPlan.SelectTeacherPair | lab/src/annotations/workflow.js:101-126 | the nested loops and the ranking choose the specified pair |
| AnnotationPlan.BuildBlindAnnotationPlan | lab/src/annotations/workflow.js:144-217 | the planning loop over the sorted samples builds the specified plan or fails as specified |
| AnnotationPlan.CheckAssignments | lab/src/annotations/workflow.js:224-238 | the loop over assignments finds no fault exactly when identifiers differ and every teacher is qualified for an existing sample |
| AnnotationPlan.AssertPlanBinding | lab/src/annotations/workflow.js:219-247 | the binding check passes exactly for a plan that binds |
| AnnotationChoice.ChoiceIsLeastRanked | lab/src/annotations/workflow.js:101-126 | a pair is chosen exactly when one is eligible; it is eligible and no eligible pair ranks before it |
| AnnotationBuilt.PlanHasShape | lab/src/annotations/workflow.js:151-172 | after every sample the assignments are those of the chosen pairs and both counters count them |
| AnnotationBuilt.WorkIsConserved | lab/src/annotations/workflow.js:151-172 | after k samples the workloads add up to 2k and the pair counts to k |
| AnnotationBinding.BuiltPlanBinds | lab/src/annotations/workflow.js:144-247 | every plan that is built passes the binding check and leaves each sample an independent adjudicator |
| AnnotationBinding.PlanningSucceedsIff | lab/src/annotations/workflow.js:101-172 | planning succeeds exactly when roster and dataset are in order and every sample has an eligible pair |
| AnnotationBinding.PacketsAreBlind | lab/src/annotations/workflow.js:174-196 | no packet holds two assignments of one sample |
| AnnotationBalance.StepStaysBalancedIff | lab/src/annotations/workflow.js:101-126 | from balanced loads one choice keeps them within one exactly when two least loaded teachers form an eligible pair, or a lone least loaded teacher is in one |
| AnnotationBalance.SharedTeamStaysBalanced | lab/src/annotations/workflow.js:101-172 | with a shared team whose every pair leaves an adjudicator, loads stay within one after every sample |
| AnnotationBalance.SharedEligibilityIsNotEnough | lab/src/annotations/workflow.js:107-110 | with equal eligibility but a teaching sole adjudicator, two samples give loads 2, 2 and 0 |
| AnnotationFairTeams.PlanStaysBalancedIff | lab/src/annotations/workflow.js:101-172 | the loads of a plan for one team stay within one after every sample exactly when every choice found two least loaded teachers who could be paired, or a lone one who could be paired |
| AnnotationFairTeams.AlwaysBalancedIff | lab/src/annotations/workflow.js:101-172 | every plan for a shared team, whatever the samples, their number and the seed, keeps loads within one after every sample exactly when every two of its teachers leave an independent adjudicator for every kind of sample |
| AnnotationMerge.Receive | lab/src/annotations/workflow.js:273-291 | the submission loop finds no fault exactly for acceptable submissions, and then holds exactly them |
| AnnotationMerge.SelectAdjudicator | lab/src/annotations/workflow.js:249-260 | filtering and ranking the roster chooses the specified adjudicator |
| AnnotationMerge.SortBundles | lab/src/annotations/workflow.js:300-341 | the loop over samples sorts bundles, chooses adjudicators and fails as specified |
| AnnotationMerge.MergeTeacherSubmissions | lab/src/annotations/workflow.js:262-364 | the whole merge computes the specified state or error |
| AnnotationMergeFacts.AdjudicatorChosen | lab/src/annotations/workflow.js:249-260 | an adjudicator is found exactly when someone may adjudicate, and none who may has less work |
| AnnotationMergeFacts.AgreedIsValid | lab/src/annotations/workflow.js:307-312 | an agreed bundle always passes validation |
| AnnotationMergeResults.MergeSucceedsIff | lab/src/annotations/workflow.js:262-341 | on a bound plan merging succeeds exactly when the submissions are acceptable and every disputed sample leaves an adjudicator |
| AnnotationMergeResults.BuiltPlansMerge | lab/src/annotations/workflow.js:262-341 | for a built plan merging succeeds exactly when the submissions are acceptable |
| AnnotationMergeOrder.MergeSplitsSamples | lab/src/annotations/workflow.js:293-345 | completed, disputed and incomplete samples add up to all samples, and each task matches its disputed bundle |
| AnnotationMergeOrder.EachSampleOnce | lab/src/annotations/workflow.js:293-345 | a sample is completed, disputed or has an open assignment exactly as its verdict says, so in one place only |
| AnnotationMergeOrder.MergeIgnoresOrder | lab/src/annotations/workflow.js:262-363 | any permutation of the submissions gives the same result |
| AnnotationMergeOrder.MergeIsMonotone | lab/src/annotations/workflow.js:262-363 | any part of a mergeable set merges, and its completed and disputed bundles stay so, unchanged, in the larger set |
| AnnotationMergeTasks.DecidedTasksStay | lab/src/annotations/workflow.js:313-340 | once the first samples in order are decided, their adjudication tasks are the same, adjudicator and place, for every larger set of submissions that merges |
| AnnotationMergeTasks.OpenTasksCanMove | lab/src/annotations/workflow.js:313-340 | before that a task can move: an input where the second sample goes to one adjudicator, and to another once the first sample is disputed too |
| AnnotationFinal.ReceiveRulings | lab/src/annotations/workflow.js:396-419 | the loop over adjudications finds no fault exactly for acceptable ones |
| AnnotationFinal.FinalizeAdjudications | lab/src/annotations/workflow.js:366-444 | the whole finalization computes the specified bundles or error |
| AnnotationFinalFacts.StateChecks | lab/src/annotations/workflow.js:366-395 | the merged state of a bound plan without shared bundle identifiers is stopped before the rulings only by open assignments |
| AnnotationFinalResults.BoundFinalizeSucceedsIff | lab/src/annotations/workflow.js:366-444 | for any bound plan and its merged state, finalizing succeeds exactly when no assignment is open, the rulings fit, are complete and cite their two labels, no two disputed bundles share an identifier and the plan records its sample identifiers; the result is one valid bundle per sample, with an independent adjudicator exactly where the labels disagree |
| AnnotationFinalResults.FinalizeSucceedsIff | lab/src/annotations/workflow.js:366-444 | for built plans that is exactly when no assignment is open and the rulings fit, are complete and cite their two labels |
| AnnotationFinalLimits.SharedBundleIsNeverFinal | lab/src/annotations/workflow.js:366-444 | a bound plan with one bundle identifier for two samples: its submissions merge, and no rulings finalize the state |
| AnnotationFinalLimits.UnrecordedIsNeverFinal | lab/src/annotations/workflow.js:366-444 | the same for a bound plan that records no sample identifiers |
| PaperLayout.ArrangeLines | ai-services/grading_agent/paper_compact.py:659-696 | the line loop, its scan for a line and the final sorts compute the order that LinesFromTheTop and LinesReadInOrder characterise |
| PaperLayout.FindColumns | ai-services/grading_agent/paper_compact.py:699-751 | sampling, ranking and testing gutters returns the partition that ColumnsFollowPreference characterises |
| PaperLayout.OrderBands | ai-services/grading_agent/paper_compact.py:639-656 | the loop over separators computes the specified bands |
| PaperLayout.OrderItems | ai-services/grading_agent/paper_compact.py:627-656 | the recursive cut computes the specified order |
| Ordering.SortWithSorts | ai-services/grading_agent/paper_compact.py:662 | sorting by any strict weak order leaves no element less than an earlier one; the comparisons of reading order are such orders |
| Ordering.SortWithIsStable | ai-services/grading_agent/paper_compact.py:691-694 | tied elements keep their order |
| PaperLayoutOrder.MedianIsMiddle | ai-services/grading_agent/paper_compact.py:687-689 | at most half of the values lie below the chosen one and fewer than half above it |
| PaperLayoutOrder.NearestLineIff | ai-services/grading_agent/paper_compact.py:668-676 | an item joins a line exactly when it is the first of the nearest lines within their thresholds, and none exactly when none is within its threshold |
| PaperLayoutOrder.LinesFromTheTop | ai-services/grading_agent/paper_compact.py:677-696 | the order is the lines by non-decreasing centre, each centre the mean of its boxed items' centres, and then the items without a box by index |
| PaperLayoutOrder.LinesReadInOrder | ai-services/grading_agent/paper_compact.py:690-696 | of two items the later one has no box, or starts no further left in the same line, or is in a line at least as low |
| PaperLayoutOrder.ColumnsFollowPreference | ai-services/grading_agent/paper_compact.py:708-751 | a page stays whole exactly when no sampled gutter is usable, and is otherwise cut at a usable gutter to which no usable one is preferred |
| PaperLayoutFacts.SortLinesKeepsAll | ai-services/grading_agent/paper_compact.py:659-696 | line grouping keeps every item exactly as often as it occurs |
| PaperLayoutFacts.PartitionFollowsGutter | ai-services/grading_agent/paper_compact.py:699-751 | a partition loses nothing, both columns hold at least four items, the left one ends at the gutter and the right one starts at it |
| PaperLayoutFacts.ReadingOrderKeepsAll | ai-services/grading_agent/paper_compact.py:627-656 | reading order is a permutation of its input at every depth, also for equal items |
| PaperLayoutFacts.ColumnsReadLeftFirst | ai-services/grading_agent/paper_compact.py:635-637 | without spanning items all of the left column comes before the right one |
| PaperLayoutFacts.ReadBeforeSeparator | ai-services/grading_agent/paper_compact.py:639-656 | exactly the earlier separators, and the column items above the top of one of the separators so far, come before a separator |
| PaperChunks.FormGroups | ai-services/grading_agent/paper_compact.py:783-797 | the first loop forms the specified logical groups |
| PaperChunks.SplitBlocks | ai-services/grading_agent/paper_compact.py:782-832 | both nested loops cut the specified chunks |
| PaperChunkFacts.GroupsFollowQuestions | ai-services/grading_agent/paper_compact.py:783-797 | groups partition the blocks in order, hold at most one question start, and a section start only opens a group |
| PaperChunkFacts.ChunksAreBounded | ai-services/grading_agent/paper_compact.py:799-832 | chunks concatenate to the blocks, none is empty, and each has at most 48 blocks and 1100 characters unless it is one over-long block |
| PaperChunkFacts.FittingGroupsStayWhole | ai-services/grading_agent/paper_compact.py:799-832 | no chunk ends inside a group that fits into one chunk |
| PaperText.SplitText | ai-services/grading_agent/paper_compact.py:570-609 | the range loop cuts the specified ranges |
| PaperText.RangesTile | ai-services/grading_agent/paper_compact.py:575-609 | ranges run from 0 to the end without gap or overlap, none is empty or longer than 2400, and all but the last are over half of that and end at the limit or after a break |
| PaperText.SlicesRebuild | ai-services/grading_agent/paper_compact.py:575-609 | the chunk texts concatenate to the stripped content |
| PaperText.OffsetsQuoteOriginalIff | ai-services/grading_agent/paper_compact.py:571-591 | recorded offsets stay inside the original content and quote it there exactly when it does not begin with white space |
| PaperSources.EveryBlockInOneChunk | ai-services/grading_agent/paper_compact.py:523-567 | every visible block is in exactly one chunk of its own page, under an alias from 1 to at most 48 |
| PaperProvenance.ValidateRefs | ai-services/grading_agent/paper_parser.py:869-948 | the checks pass exactly for valid references |
| PaperProvenance.HydrateRefs | ai-services/grading_agent/paper_compact.py:914-930 | aliases hydrate exactly when there are some, all known and none repeated |
| PaperProvenance.BlockRefValidIff | ai-services/grading_agent/paper_parser.py:893-922 | a block reference is accepted exactly when the first block with its identifier has a page of that value, whatever its number type, that box and that finite confidence |
| PaperProvenance.HydrationRoundTrip | ai-services/grading_agent/paper_compact.py:914-930 | for documents in which the first block with the identifier of each visible block has its page value, box and finite confidence, and for plain text, every hydrated reference passes validation |
| PaperMerge.ValidateOutput | ai-services/grading_agent/paper_parser.py:680-837 | the validator accepts exactly valid output |
| PaperMerge.ExpandCollection | ai-services/grading_agent/paper_compact.py:855-897 | a collection expands exactly when all aliases hydrate, with numbered identifiers |
| PaperMerge.MergeCompactChunks | ai-services/grading_agent/paper_parser.py:555-607 | the merging loops compute the specified output |
| PaperMergeFacts.ExpansionIsGrounded | ai-services/grading_agent/paper_compact.py:835-911 | whatever the model answers, an expansion that succeeds has valid provenance and distinct identifiers |
| PaperMergeFacts.MergedRoleMeaning | ai-services/grading_agent/paper_parser.py:580-592 | a merged role is unknown when nothing is known and a role exactly when all known observations agree on it |
| PaperMergeFacts.MergedConfidenceIsHighest | ai-services/grading_agent/paper_parser.py:593-600 | the merged confidence is the highest one that supports the merged role, and missing exactly when none does |
| PaperMergeFacts.MergedOutputIsValid | ai-services/grading_agent/paper_parser.py:541-607 | merging outputs that each passed validation for their own document always passes the final validation |
| PaperMergeFacts.ExpandedOutputsAreNumbered | ai-services/grading_agent/paper_compact.py:869-871 | expanded outputs carry their own chunk number, as the merge theorem asks |
| PaperRoute.RunCompact | ai-services/grading_agent/paper_parser.py:481-552 | expanding and validating chunk by chunk, merging and the final validation, stopping at the first check that fails |
| PaperRoute.ExpansionValidIff | ai-services/grading_agent/paper_parser.py:529-537 | for a document whose visible blocks can be quoted (the first block with each identifier has the same page value, box and finite confidence) an expanded answer passes its validation exactly when the model used known aliases, classified the one source and kept fields and confidences in range |
| PaperRoute.NeverRefusedIffQuotable | ai-services/grading_agent/paper_parser.py:529-537 | a document never makes such a good answer fail exactly when the first block with the identifier of each visible block has its page value, box and finite confidence |
| PaperRoute.RouteSucceedsIff | ai-services/grading_agent/paper_parser.py:481-552 | for documents whose visible blocks can all be quoted the route succeeds exactly when there is a chunk and the model keeps its side for every one; nothing else can fail, and the result is valid for all documents |
| DatasetSplit.CollectGroups | lab/src/datasets/governance.js:125-130 | the grouping loop builds the specified groups or reports the first sample without a key |
| DatasetSplit.AuditSplitLeakage | lab/src/datasets/governance.js:156-167 | the audit passes exactly when no key is in two splits |
| DatasetSplit.SplitByQuestionGroup | lab/src/datasets/governance.js:115-154 | the whole split computes the specified outcome |
| DatasetSplitFacts.RoundingLemma | lab/src/datasets/governance.js:133-134 | two shares of at most the whole round to at most one more than it |
| DatasetSplitFacts.CountsAreSound | lab/src/datasets/governance.js:133-144 | from two groups on the counts are not negative, add up and leave a group for training |
| DatasetSplitFacts.AllSplitsGetGroupsIff | lab/src/datasets/governance.js:135-144 | from three groups on every split gets a group unless there are three groups and two ratios of one half |
| DatasetSplitFacts.SplitSucceedsIff | lab/src/datasets/governance.js:115-152 | with ratios in range and keys for all samples the split succeeds exactly unless there is one group and two ratios of one half |
| DatasetSplitFacts.SplitIsSafe | lab/src/datasets/governance.js:145-153 | the three splits together are the samples, no group is in two of them, and the counts add up |
| DatasetSplitFacts.AllSplitsFilledIff | lab/src/datasets/governance.js:135-149 | from three groups on all splits hold samples, with that one exception |
| DatasetSplitFacts.DefaultRatiosWork | lab/src/datasets/governance.js:117 | the default ratios always split and fill all three splits from three groups on |
| Lease.ValidateLeaseTiming | packages/worker-runtime-python/edugrade_worker_runtime/lease.py:12-22 | the timing check accepts exactly valid timings |
| Lease.LeaseHeartbeat.Enter | packages/worker-runtime-python/edugrade_worker_runtime/lease.py:57-62 | entering records the time of the first success |
| Lease.LeaseHeartbeat.Run | packages/worker-runtime-python/edugrade_worker_runtime/lease.py:87-95 | the loop leaves the last success and error the specification gives for the attempts made |
| Lease.AttemptsEndWithinLease | packages/worker-runtime-python/edugrade_worker_runtime/lease.py:87-99 | for any pattern of successes and failures with bounded sends, every attempt ends strictly before a lease counted from the last success lapses |
| Lease.ToleratedFailuresAreBounded | packages/worker-runtime-python/edugrade_worker_runtime/lease.py:87-99 | a run of tolerated failures with one more wait and send still fits into the lease |
| LeaseGrants.RetriesInTimeIffNotTight | packages/worker-runtime-python/edugrade_worker_runtime/lease.py:29-35 | counted from its grant inside the last successful send, every attempt of every punctual run ends before the lease lapses exactly when no number of waits m has m intervals and one timeout below the lease and the lease at most m intervals and m + 1 timeouts |
| LeaseGrants.TightAtLargest | packages/worker-runtime-python/edugrade_worker_runtime/lease.py:12-22 | only the largest number of waits that leaves room for a send needs checking |
| LeaseGrants.LapseIsShort | packages/worker-runtime-python/edugrade_worker_runtime/lease.py:87-99 | with any valid timing an attempt ends less than one timeout after the lease counted from its grant lapsed |
| LeaseGrants.ShippedTimingsAreTight | services/image-quality-worker/image_quality/config.py:14-18 | the shipped timings 300/10/3 and 600/30/10 are tight, at 23 and 15 waits, so a lease counted from its grant can lapse during a retry |
| Suggestion.ReadMatches | ai-services/grading_agent/contract.py:276-305 | the loop over matched points accepts exactly sound ones and splits them into standing and demoted |
| Suggestion.ReadMissing | ai-services/grading_agent/contract.py:307-319 | the loop over missing points accepts exactly sound ones that were not claimed |
| Suggestion.ReadEvidence | ai-services/grading_agent/contract.py:324-358 | the loop over evidence accepts exactly sound lists and keeps the relevant items |
| Suggestion.CheckLinks | ai-services/grading_agent/contract.py:360-367 | links are accepted exactly when each leads to evidence of its own point |
| Suggestion.NormalizeModelOutput | ai-services/grading_agent/contract.py:243-420 | a suggestion is returned exactly for acceptable output, and is then the specified one |
| SuggestionFacts.PointsArePartitioned | ai-services/grading_agent/contract.py:272-322 | matched and missing points are disjoint, each listed once, and together the rubric |
| SuggestionFacts.MatchIsGoverned | ai-services/grading_agent/contract.py:285-305 | a matched point is in the rubric, scores within its range, and if strict has an alias in the answer |
| SuggestionFacts.LinksAreBacked | ai-services/grading_agent/contract.py:360-367 | every linked identifier has evidence for the same point whose folded excerpt occurs in the answer |
| SuggestionFacts.EvidenceIsReferenced | ai-services/grading_agent/contract.py:324-368 | no unreferenced, rejected or ungrounded evidence survives |
| SuggestionFacts.ScoreIsRecomputed | ai-services/grading_agent/contract.py:385-405 | the score is the sum of the matched scores and at most the maximum |
| SuggestionFacts.FlagsAreGoverned | ai-services/grading_agent/contract.py:370-383 | a flag is listed once, and exactly when the model raised it or a rule calls for it |
| RoundRobin.GroupPositions | lab/src/evaluators/modelSelection.js:70-75 | the grouping loop lists the positions of each key in order of first appearance |
| RoundRobin.TakeInTurn | lab/src/evaluators/modelSelection.js:78-86 | the queue loop takes the first cells in round order, and the round that adds nothing never happens |
| RoundRobin.SelectDiverse | lab/src/evaluators/modelSelection.js:65-88 | all samples without or with a large limit, an error for a limit below one, else the selection |
| RoundRobinFacts.SelectionIsFair | lab/src/evaluators/modelSelection.js:65-88 | the selection has the limit length, takes a prefix of every group, and no group is more than one ahead of another that has samples left |
| RoundRobinFacts.SelectionHasNoRepeats | lab/src/evaluators/modelSelection.js:65-88 | no position is selected twice |

## Left out

- Floating-point rounding: scores, signals, ratios, coordinates and times are exact reals, and tolerances of 1e-6 and 1e-9 are equalities.
- Non-finite numbers: where the program rejects them they are absent values; signals and scores are always numbers.
- Calibration.EvaluateCalibration: asks for a model whose probabilities are not negative, as every fitted model's are; a negative probability would index a bucket that does not exist.
- The coverage and risk table of `evaluateCalibration`: six independent filters.
- The regular-expression lexer of the LaTeX parser; the parser starts at tokens, whose kinds are those the lexer can produce.
- Single flight: each locked section is one atomic step, a clock reading is an arbitrary integer, a waiter's look at its record is a step of the run; in-flight records are handles into an append-only table; copies are values; `BaseException` exits, logging, readiness and the v2 semaphore and fixtures are not modelled. The two v2 services run the same protocol.
- GradingAttempts.GradeUncached: models the v1 rule for repairable errors; the v2 service repairs the same codes without looking at the retryable mark.
- Digests and hash identifiers are injective: they are kept as what was hashed. Hash orders and hash parities are arbitrary functions. Truncation to 20 hex digits is not modelled.
- Sorting by `localeCompare` is sorting by an integer rank of the identifier.
- Field-by-field format checks (field names, pseudonym patterns, time stamps, schema versions, hash patterns) are one flag on the value they belong to, or absent.
- Python's recursion limit: some hundreds of nested groups fit into the token limit and raise an error of the runtime, where the model parses them.
- Source label identifiers are compared as multisets; the program compares sorted lists joined with `|`, which agrees when identifiers hold no `|`.
- Label signatures are multisets of decisions; the joined strings of the program agree with that when rubric identifiers hold no separator characters.
- Packet files, their hashes, label templates and the field whitelist of samples; samples are what the packets carry.
- Agreement.AgreementKappa: asks for valid bundles with a positive maximum score; a score out of range would index a row that does not exist, and a maximum of zero gives no number.
- The averages beside kappa in `computeInterRaterAgreement` and the agreement gates: each is one term.
- Kappa.QuadraticWeightedKappa: asks for a positive number of bins, as the annotation policy has; the program would divide by zero.
- The rule-based reconstruction of anchored papers and the choice between the parsing routes: built on text patterns.
- Patterns for question starts and section starts, Unicode folding and blank tests are arbitrary functions.
- `_ocr_chunks` is modelled on values: the page dictionary and the reference dictionaries are functions of the blocks.
- Block identifiers are strings; a page number is an integer, a number or boolean with its value, text with what it converts to, or missing. A boolean confidence is a missing one.
- The identifiers of expanded candidates keep kind, chunk and position; their formatting with dashes and zero padding is taken to be injective.
- Evidence requirements, rubric scores and question types of parsed candidates are one flag per candidate.
- Trimming of derived question texts before hashing is part of the digest function.
- The heartbeat thread, its stop event and its join; the model runs over the attempts made before it is stopped, and waits last exactly the interval.
- Feedback texts, teacher notes and telemetry of suggestions.
- HTTP servers, adapters, model calls, configuration, image analysis, user interfaces and scripts.
