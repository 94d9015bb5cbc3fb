# Vocabulary lifecycle: a verified model

The program keeps a learner's vocabulary in two stores that cannot be changed together: an
append-only event log and the notes and cards of Anki. Assessments are produced into the log,
a reconciler moves each channel of a unit (reading, listening, writing, speaking) through its
life states, and new units enter through an intent log. Every durable effect can end in three
ways: it is not applied and the call raises, it is applied and the call raises, or it is applied
and the call returns. A run may stop between any two effects. The model says what holds however
often and wherever that happens.

## How the model is built

**The reconciler** (`Lifecycle`, `Journal`, `Revlog`, `Observation`, `Mastery`, `Decision`,
`Protocol`). A `World` holds the note's states, the cards, the review rows, the unit's part of the
log and the clock. One call is a program of durable effects computed from what it reads
(`Protocol.Reconcile`); a call that is cut has carried out a prefix of it (`Protocol.Exec`). Identities are
the identity tuple itself, time is an integer number of microseconds. `Reconciler.Deployment` is the
imperative reconciler over fields that it reassigns; its store calls end as a given sequence of
outcomes says, and each method is proved to carry out its program and to stop early exactly when a
store call failed.

**Proofs about it.** `Safety` states the invariant at a stage (nothing pending, one transition
pending, one dormancy group pending) and the guard of each effect, and proves that a guarded effect
keeps the invariant. `Runs`, `GroupRuns` and `Recovery` prove that every effect a call reaches is
guarded. `Lifetime` concludes for all lifetimes, `Readbacks` and `Interleaving` for all interleavings of
single effects and reads with arriving evidence, `Quiet` for lifetimes without new evidence, `Consequences`
says what the invariant means, `Wedge` and `ProducedLifetime` when a call refuses. `MasteryChain` says what
the mastery selection means for any number of passes. `Warrants` says of rows, cards, assessments and chains
alone what a fresh decision plans, and `Outcomes` what a call that gets through has committed and aborted.

**The assessment ledgers and their producer** (`Ledgers`, `Intake`, `Payloads`, `Producer`, `Bindings`,
`ProducedMastery`).
Three append-only ledgers, the operations that write them, the planners and the producer's history
validator, and the producer that appends a SPEAK/JUDGE pair one record at a time. `Bindings` says of the
ledger records alone what an emitted event has to do with them.

**Forging a unit** (`Forge`), **corpus emission** (`CorpusEmission`), **unit matching** (`Matcher`),
**card templates** (`Braces`, `Mustache`), **files** (`LogFile`, `CanonicalFile`), **bootstrap**
(`Bootstrap`). `Faults` and `Wrappers` hold what the others share.

## What is assumed

- One `updateNoteFields` call is atomic: it changes all states it names or none (`Protocol.SetStates`).
  So is one `suspend` call (`Protocol.SuspendCards`). The code relies on the first and reads both back.
- The journal has one writer at a time: one reconcile call runs for a unit, and one emission, one
  forge command or one intake operation at a time. `Bootstrap` is the exception and allows any number
  of processes.
- A JUDGE is stamped no earlier than the log's last record. Reviews may arrive in any order and with any
  id. Only what is said of evidence that is never given up needs them in order, and says so
  (`World.reviewsInOrder`).
- Nobody edits state fields or deletes notes by hand.
- Different assessment attempts have different id strings (`ProducedMastery.Injective`), and content
  references name their content.

## Findings

- A call with nothing pending can refuse for ever. It refuses a decision that repeats a transition
  identity with an ABORT in its journal (vocab/reconcile.py:1205-1218), and it does so exactly then
  (`Consequences.RefusedExactlyWhenAborted`), at every later call with the same evidence
  (`Consequences.RefusalLasts`). `Wedge.SuspensionWedges` gives the family of inputs: a stability transition is
  prepared, the call is cut, the card is suspended, recovery aborts, the card is put back. From then on the unit
  decides the same transition at every call and every call refuses it. `Wedge.WedgedExample` is one such lifetime
  from before the first call.
- Mastery selection is greedy. A repeated stimulus can hide a pair of passes that satisfies the documented
  rule (`Mastery.RepeatedStimulusHidesAPair`). `Mastery.MasteryExactly` says when mastery is granted in general; with
  pairwise distinct stimuli it is granted exactly when such a pair exists, and the novelty rule of the producer
  provides that (`ProducedMastery.ProducedMasteryIsExact`).

## Model

| member | source | states |
|---|---|---|
| Lifetime.EveryLifetime | vocab/reconcile.py:363-404 | From any deployment before its first call, through any calls cut after any effect, any arriving JUDGEs, reviews in any order, card changes and passing time, the invariant holds: chains replay along allowed edges, at most one operation is pending, its channels alone may differ from their replay |
| Lifetime.OrderForgotten | vocab/reconcile.py:2315-2418 | A review out of order leaves replay, note, transactions and stage as the invariant has them, and only ends the promise about evidence that is never aborted |
| Interleaving.EveryInterleaving | vocab/reconcile.py:1150-1295 | The same when evidence arrives and cards change between any two effects or reads of a call, whose program was made from what it read at its start |
| Interleaving.GroupCommitsFollowALook | vocab/reconcile.py:1268-1295 | With the reads between the effects as steps of their own, and cards changing at any time: a group COMMIT only follows a look of the same call that saw every note DORMANT and every card suspended |
| Interleaving.LookedDuringTheCall | vocab/reconcile.py:1940-1975 | What was looked at is the deployment at an earlier moment, since when no call began |
| Readbacks.CallCommitsLast | vocab/reconcile.py:1248-1295 | No call does anything but commit members behind its first group COMMIT |
| Readbacks.TasksKeepEffects | vocab/reconcile.py:1331-1396 | The reads between the effects leave the program of effects as it is |
| Readbacks.TasksAreGuarded | vocab/reconcile.py:1268-1295 | In such a program a look at the cards comes before the first group COMMIT |
| Interleaving.EffectFollows | vocab/reconcile.py:1221-1245 | The next effect of a call stays permitted after more evidence, and leads to the same stage as without it |
| Safety.AllowedKeepsInvariant | vocab/reconcile.py:1298-1412 | Every durable effect that its guard allows leads from the invariant at one stage to the invariant at the next |
| Safety.AllowedKeepsView | vocab/reconcile.py:1298-1328 | On replay, transactions and note alone: a guarded PREPARE, COMMIT, ABORT, note update or suspension keeps the history well formed and the stage's shape |
| Safety.WalkKeepsInvariant | vocab/reconcile.py:1221-1295 | A program all of whose reached effects are guarded keeps the invariant |
| Lifetime.CallWalks | vocab/reconcile.py:363-404 | Every effect a call reaches is guarded where it happens, wherever the call is cut; after the last one nothing is pending |
| Lifetime.CallThatGetsThrough | vocab/reconcile.py:363-404 | A call that is not interrupted either refuses without any effect or leaves nothing pending |
| Lifetime.OnlyEvidenceStopsACall | vocab/reconcile.py:1415-1524 | The journal never stops a call: mixed terminals, ambiguous or foreign members and the manual-intervention branches are unreachable; what is left are unreadable evidence and a reused identity |
| Lifetime.SurroundingsKeepInvariant | vocab/reconcile.py:2020-2094 | New reviews, JUDGEs, card changes and time keep the invariant and the stage |
| Recovery.WorkIsStage | vocab/reconcile.py:1415-1524 | The recovery finds in the journal exactly the operation that is pending |
| Recovery.NeverMixed | vocab/reconcile.py:1527-1557 | The check for groups with both COMMIT and ABORT never fires |
| Recovery.FreshWalks | vocab/reconcile.py:1150-1202 | Materializing a fresh decision, cut anywhere, only does guarded effects and ends with nothing pending |
| Recovery.SingleWalks | vocab/reconcile.py:1649-1744 | So does recovering one channel |
| Recovery.GroupWalks | vocab/reconcile.py:1841-2000 | So does recovering a dormancy group |
| Recovery.DormancyWalks | vocab/reconcile.py:1248-1295 | PREPAREs, one note update, the suspension and the COMMITs of a group, from whatever members are prepared already |
| Recovery.IrrevocableIsReproduced | vocab/reconcile.py:1669-1677 | While reviews arrive in order, a pending first review, lapse, assessment failure or relapse review is decided again by every later decision, so it is redone and not aborted |
| Recovery.ChosenIsPlanned | vocab/reconcile.py:205-360 | What a channel decides for itself is part of the unit's decision, and then no dormancy is due |
| Recovery.FreshRefusals | vocab/reconcile.py:1002-1065 | Observation and decision never produce what the input check or the materialization validator refuses; the only refusal of a decision is a repeated assessment id |
| GroupRuns.PreparesWalk | vocab/reconcile.py:1259-1266 | Preparing the members of a group, cut anywhere, leaves the group pending at its source |
| GroupRuns.MovesWalk | vocab/reconcile.py:1268-1287 | After the note update and the suspension the whole note is DORMANT and every card suspended |
| Runs.UntouchedByWalk | vocab/reconcile.py:1221-1245 | A program leaves replay, note, card and evidence of every channel it does not name as they were |
| Runs.WholeWalks | vocab/reconcile.py:1221-1245 | One transition's PREPARE, note update and COMMIT, cut anywhere |
| Consequences.NoteFollowsOrIsUnderway | vocab/reconcile.py:2746-2796 | In every reachable deployment a channel's note holds the end of its committed chain, or the target of a prepared and unfinished transition that extends it |
| Consequences.NoSplitGroups | vocab/reconcile.py:1527-1557 | No group has a COMMIT of one member and an ABORT of another |
| Consequences.CommittedGroupIsWhole | vocab/reconcile.py:1248-1295 | A group with a COMMIT has prepared every channel of the unit and aborted none |
| Consequences.CommitsWaitForCards | vocab/reconcile.py:1268-1295 | Where a call appends a group COMMIT, the whole note is DORMANT and every card suspended; cards are suspended only once the whole note is DORMANT |
| Consequences.IrrevocableIsNeverAborted | vocab/reconcile.py:1669-1744 | While reviews arrive in order, no reachable journal has an ABORT of a first review, lapse, assessment failure or relapse review |
| Consequences.AnyPartReconstructs | vocab/reconcile.py:1747-1838 | From the records of any non-empty part of a group the reconstruction yields the group's whole tuple of plans, and no other evidence describes them |
| Consequences.RefusedExactlyWhenAborted | vocab/reconcile.py:1205-1218 | A call with nothing pending refuses its decision exactly when the decision repeats an aborted transition |
| Consequences.RefusalLasts | vocab/reconcile.py:1205-1218 | A refused decision is refused at every later instant while the evidence stays the same |
| Consequences.CommitsLieBehind | vocab/reconcile.py:2746-2796 | Every committed transition of a channel left an earlier episode than the one its chain is in |
| Wedge.SuspensionWedges | vocab/reconcile.py:1205-1218 | From every deployment whose only decision is an untried stability transition, four moves lead to one where every later call refuses |
| Wedge.WedgedForever | vocab/reconcile.py:1205-1218 | With one PREPARE and one ABORT more and all else equal, every later call refuses the decision |
| Wedge.WedgedExample | vocab/reconcile.py:1205-1218 | A concrete lifetime of five moves from before the first call that ends there |
| Quiet.QuietLifeAbortsNothing | vocab/reconcile.py:1649-1744 | While no evidence arrives, no lifetime aborts anything, however its calls are cut |
| Quiet.CallKeepsDue | vocab/reconcile.py:1150-1295 | A call cut anywhere leaves what is pending such that it would be decided again |
| Quiet.DueCallHasNoAborts | vocab/reconcile.py:1669-1744 | Such a call has no ABORT in its program and reports no conflict |
| Quiet.CutCallIsNotAborted | vocab/reconcile.py:1649-1744 | The call after a cut one finishes what is pending or stops at evidence that cannot be read |
| Quiet.CutCallIsFinished | vocab/reconcile.py:1649-1744 | If it gets through, everything that was pending is committed under the prepared identities |
| Quiet.CutGroupIsFinished | vocab/reconcile.py:1841-2000 | The call after a cut dormancy group always gets through |
| Outcomes.FreshDoes | vocab/reconcile.py:1150-1218 | A call with nothing pending commits exactly what the stores warrant, wakes and reports what they call for, and refuses only when that cannot be told or repeats an aborted identity |
| Outcomes.RecoveryDoes | vocab/reconcile.py:1649-1744 | A pending transition is committed where the note shows its target; where it shows its source it is redone exactly if the stores still warrant it, and otherwise aborted |
| Outcomes.GroupRecoveryDoes | vocab/reconcile.py:1841-2000 | A pending group the note shows DORMANT has its unfinished members committed; one it shows MASTERED is completed exactly if no member was aborted and the stores still warrant it, and otherwise its unfinished members are aborted |
| Outcomes.DoesWhatItReports | vocab/reconcile.py:1150-1295 | A call that gets through has committed and aborted exactly what it reports, the committed channels show their targets, and no other channel has moved |
| ProducedLifetime.OnlyReviewsStopACall | vocab/reconcile.py:754-798 | With JUDGEs from the producer a call stops only at review rows that cannot be read, or at an aborted identity |
| ProducedLifetime.ReadsWhatWasProduced | vocab/reconcile.py:2438-2488 | The assessments the reconciler reads from the shared log are exactly the produced ones, in order |
| ProducedLifetime.ProducedMasteredExactlyWhen | vocab/reconcile.py:255-281 | On a produced log STABLE to MASTERED is planned exactly when no lapse followed the entry and any two passes satisfy the documented rule |
| Journal.JournalTransactions | vocab/reconcile.py:2799-2846 | The fold over the log, record by record: refused at the first record that is out of protocol |
| Journal.FoldMeaning | vocab/reconcile.py:2799-2846 | A transaction is there exactly when its PREPARE is logged, and is committed or aborted exactly when that record is logged |
| Journal.EveryRecordOnce | vocab/reconcile.py:2799-2846 | In a readable journal no identity is prepared or terminated twice, and a terminal follows its PREPARE with the same plan |
| Journal.ReadExactlyInProtocol | vocab/reconcile.py:2799-2846 | The journal is read exactly when every record takes an allowed edge and is a first PREPARE or the one end of an earlier PREPARE of the same plan |
| Journal.EpisodeProvenance | vocab/reconcile.py:2746-2796 | The walk along the committed chain computes the channel's replay |
| Journal.ReplayMeaning | vocab/reconcile.py:2746-2796 | A channel without COMMIT is in its initial episode; otherwise its state, episode and entry are those of its last COMMIT |
| Journal.ReplaysExactlyWhenLinked | vocab/reconcile.py:2746-2796 | A channel has a replay exactly when each of its COMMITs goes on from where the one before ended, the first from NEW |
| Revlog.ReadCard | vocab/reconcile.py:2315-2418 | Reading a card's rows succeeds exactly when they are readable and repeat no id of another card, and gives their summary |
| Revlog.OrderedIsSorted | vocab/reconcile.py:2379-2389 | Sorting keeps exactly the rows and puts them in id order |
| Revlog.FirstIdAfterIsEarliest | vocab/reconcile.py:2913-2926 | The first review id after an entry is the earliest one after it |
| Revlog.NewerReviewKeepsFirsts | vocab/reconcile.py:2913-2926 | A newer review never replaces a first review, a first lapse or a first review after entry |
| Observation.LoadRevlog | vocab/reconcile.py:2315-2418 | Card by card with the ids seen so far: all summaries, or none when any card is unreadable or two share an id |
| Observation.LoadEpisodes | vocab/reconcile.py:2857-2910 | Every channel's chain is walked and must end in the state the note holds |
| Observation.ObserveUnit | vocab/reconcile.py:2020-2094 | The snapshot, or the refusal that the first unreadable store causes |
| DecisionFacts.ObservedInputIsValid | vocab/reconcile.py:472-663 | Every observed snapshot passes the decision's own input checks |
| DecisionFacts.DecisionsMaterialize | vocab/reconcile.py:1002-1147 | Every decision passes the materialization validator |
| DecisionFacts.DecisionsStableInTime | vocab/reconcile.py:205-360 | With the stores fixed, what is planned at one instant is planned with the same identity at every later one |
| DecisionFacts.CountersMoveOneWay | vocab/reconcile.py:2379-2416 | As time passes a card gets no younger and its recent lapses no more; nothing else of its summary changes |
| DecisionFacts.CountersImplyBoundary | vocab/reconcile.py:710-751 | On observed counters, 21 days of age and no lapse in the window already imply the eligibility boundary |
| DecisionFacts.ShownIsDecided | vocab/reconcile.py:205-360 | Irrevocable evidence that the stores show is what its channel decides, at every instant |
| Warrants.PlansAreWarranted | vocab/reconcile.py:205-360 | A fresh decision plans exactly the transitions that review rows, cards, assessments and committed chains warrant, each with the evidence that warrants it |
| Warrants.MasteredExactlyWhen | vocab/reconcile.py:255-281 | STABLE to MASTERED is planned exactly for a STABLE channel with no lapse after its entry and a pass at least seven days after the one that opened its failure-free run, on another stimulus |
| Warrants.StableExactlyWhen | vocab/reconcile.py:710-751 | LEARNING to STABLE is planned exactly when the interval is at least 21, the card awake, the first review at least 21 days old and no lapse in the last 30 days |
| Warrants.DormantExactlyWhen | vocab/reconcile.py:314-338 | Dormancy is planned, and then for every channel, exactly when all are MASTERED, none has failed since its entry and 30 days have passed since the latest entry |
| Warrants.SideEffectsAreWarranted | vocab/reconcile.py:297-352 | A decision suspends all cards exactly with a group, asks to wake exactly the suspended cards of channels leaving DORMANT, and names as leeches exactly the channels of a tagged unit with four lapses |
| Warrants.DecidedWhenReadable | vocab/reconcile.py:2020-2094 | The decision is missing exactly for rows that are no reviews of the past with distinct ids, then for a history out of protocol, out of chain or of the future; otherwise it is there unless a STABLE channel repeats an assessment id |
| Warrants.CountersSay | vocab/reconcile.py:2379-2416 | The counters are the lapses of the last thirty days and the whole days since the first review |
| Decision.ValidateMaterializationDecision | vocab/reconcile.py:1002-1147 | The validator as a scan over the plans accepts exactly the valid decisions |
| Decision.ValidGroupIsMemberPlans | vocab/reconcile.py:1068-1147 | A valid dormancy group in channel order is exactly the tuple of member plans of its evidence |
| Mastery.FindMasteryEvidence | vocab/reconcile.py:754-798 | The scan with its running selection, reset at a failure, computes the specified selection |
| Mastery.MasteryExactly | vocab/reconcile.py:754-798 | Mastery is granted exactly when a counted pass lies at least seven days after the pass that opened its failure-free run, on another stimulus; the earliest such pass decides |
| Mastery.MasterySound | vocab/reconcile.py:754-798 | Whatever is granted quotes two novel passes of one failure-free run, on distinct stimuli, at least seven days apart |
| Mastery.MasteryCompleteOnDistinctStimuli | vocab/reconcile.py:754-798 | With pairwise distinct stimuli it is granted exactly when such a pair exists |
| MasteryChain.SelectionIsChain | vocab/reconcile.py:754-798 | For any number k of required passes, what is selected is a chain of k novel passes of one failure-free run, neighbours at least seven days apart, on pairwise distinct stimuli |
| MasteryChain.SelectionFindsChains | vocab/reconcile.py:754-798 | For any k and pairwise distinct stimuli, something is selected exactly when such a chain of k passes exists |
| Mastery.SelectionIsFinal | vocab/reconcile.py:754-798 | A later assessment never changes a selection that was made |
| Mastery.RepeatedStimulusHidesAPair | vocab/reconcile.py:775-797 | Three passes on stimuli A, B, A on which a valid pair is not found |
| Mastery.SelectNeverRefuses | vocab/reconcile.py:765-772 | With distinct assessment ids the duplicate refusal never fires |
| Mastery.EarliestFailureMeaning | vocab/reconcile.py:801-814 | The earliest counted failure after entry is found exactly when there is one |
| Reconciler.Deployment.ReconcileUnit | vocab/reconcile.py:363-404 | The call carries out a prefix of its program, all of it exactly when no store call failed, and keeps the invariant; if it returns, it has done what it reports, and reports what the deployment it found calls for |
| Reconciler.Deployment.PendingWork | vocab/reconcile.py:1415-1524 | What the journal says has to be finished is the pending operation |
| Reconciler.Deployment.MaterializeDecision | vocab/reconcile.py:1150-1202 | A fresh decision is refused, materialized as singles, or as a group |
| Reconciler.Deployment.CompleteUngrouped | vocab/reconcile.py:1231-1245 | Note update, readback, COMMIT |
| Reconciler.Deployment.MaterializeDormancy | vocab/reconcile.py:1248-1295 | Missing PREPAREs, note update, readback, suspension, readback, COMMITs, in this order |
| Reconciler.Deployment.RecoverOne | vocab/reconcile.py:1649-1744 | At the source redone if decided again and aborted otherwise, at the target committed, elsewhere aborted |
| Reconciler.Deployment.RecoverDormancyGroup | vocab/reconcile.py:1841-2000 | The group's recovery by what the note shows and what its members' records are |
| Reconciler.Deployment.AbortPreparedPlans | vocab/reconcile.py:2003-2017 | One ABORT for each prepared plan, then the conflict |
| Ledgers.ReadSlots | vocab/exposure.py:156-174 | A ledger is read exactly when no slot repeats |
| Ledgers.ValidateCaptureBindings | vocab/capture_ledger.py:89-111 | Accepted exactly when every receipt binds one exposure and a readable artifact |
| Ledgers.ValidateDispositionBindings | vocab/disposition_ledger.py:96-123 | Accepted exactly when every disposition binds one R, L or W exposure and no capture |
| Ledgers.ValidateHistories | vocab/exposure.py:320-358 | The joint boundary of the three ledgers |
| Ledgers.ExactlyOneStatus | vocab/exposure.py:320-358 | In valid histories every attempt is unreserved, reserved, captured or disposed, and only one of these |
| Ledgers.StatusOnlyAdvances | vocab/response_capture.py:180-242 | However valid histories grow, an attempt only moves from unreserved to reserved to exactly one terminal, and then never again |
| Ledgers.NoveltyForReservedAttempt | vocab/exposure.py:177-214 | The scan computes the novelty bit, or refuses an attempt that is not reserved once |
| Ledgers.NoveltyAt | vocab/exposure.py:177-214 | A reservation is novel exactly when none before it has its unit, channel and stimulus |
| Ledgers.NoveltyIsStable | vocab/exposure.py:177-214 | The bit never changes as reservations are added |
| Ledgers.OnlyTheFirstIsNovel | vocab/exposure.py:177-214 | Of all reservations of one unit, channel and stimulus at most one is novel |
| Ledgers.SomeReservationIsNovel | vocab/exposure.py:177-214 | And one of them is, no later than any given one |
| Intake.DisplayPermit.Consume | vocab/exposure.py:119-123 | A permit is consumed once |
| Intake.Store.ReserveExposure | vocab/exposure.py:230-308 | A permit comes back exactly when nothing failed, the attempt was free and its stimulus stored; then the reservation is durable and the novelty bit right |
| Intake.Store.CaptureResponse | vocab/response_capture.py:180-242 | Captured exactly when nothing failed and the consumed permit's attempt was open; a bounded commit failure is reported exactly for an open R, L or W attempt whose receipt the ledger refused and, read back, does not hold |
| Intake.Store.CommitReceipt | vocab/response_capture.py:231-242 | A bounded commit failure is reported exactly when the ledger refused the receipt of an R, L or W attempt and, read back, does not hold it |
| Intake.Store.RecordDisposition | vocab/response_capture.py:416-471 | A disposition is recorded exactly under its conditions; infrastructure failure needs a bounded commit failure and nothing else may claim one |
| Intake.Store.CloseTextSubmission | vocab/response_capture.py:316-389 | Returning normally leaves exactly one terminal record: the exact bytes, or the code that tells a missing or blank answer, one that cannot be decoded, and a failed commit apart; without failures it returns normally exactly for an open attempt |
| Intake.RunKeepsValid | vocab/response_capture.py:180-471 | Any run of allowed deeds keeps the ledgers valid and only lets them grow |
| Intake.RunOnlyAdvances | vocab/response_capture.py:180-471 | In any such run an attempt's status only advances |
| Intake.EveryIntakeRun | vocab/response_capture.py:180-471 | From empty ledgers every attempt always has exactly one status |
| Intake.WrittenOffIsNotCaptured | vocab/response_capture.py:474-506 | An attempt written off for an infrastructure failure has no durable capture, then or later |
| Payloads.OneShape | vocab/assessment_producer.py:361-383 | Every JUDGE that the history validator accepts has exactly one of its shapes, and the dispatch finds it |
| Payloads.FailuresFitChannels | vocab/assessment_producer.py:361-383 | A valid FAIL names a failure of its channel: R and L have one, W and S share three |
| Payloads.VerdictsAreReviewed | vocab/assessment_producer.py:361-383 | A valid PASS or FAIL speaks in the name of its assessor and was approved by a named reviewer |
| Payloads.SpeakDeterminesJudge | vocab/speech_planning.py:747-787 | Companion JUDGEs of one SPEAK differ at most in the novelty bit, and not at all without a verdict |
| Payloads.TextPlansAreValid | vocab/assessment_planning.py:146-263 | Everything the text planner issues on imported and reviewed evidence passes the history validator unchanged |
| Payloads.PolicyPlansAreValid | vocab/assessment_planning.py:266-294 | So does everything the policy planner issues |
| Payloads.SpeechPlansAreValid | vocab/speech_planning.py:155-307 | So do both halves of a speech plan, and they are companions |
| Payloads.TextPlanSays | vocab/assessment_planning.py:146-263 | When a text JUDGE is issued, and that it repeats the reviewed result with its failure or reason, or says that the target is absent, about the attempt, response and novelty bit of the evidence |
| Payloads.SpeechPlanSays | vocab/speech_planning.py:155-307 | When a pair is issued, and that both halves repeat the reviewed result, or say that the target is absent, or abstain for the transcription; only the SPEAK has the transcript and only the JUDGE counts |
| Payloads.PolicyPlanSays | vocab/assessment_planning.py:266-294 | A policy JUDGE abstains for the disposition's code and quotes no response |
| Payloads.VerdictReachesLifecycle | vocab/reconcile.py:2491-2608 | What the lifecycle reads from a text JUDGE is a pass for a passed result, a failure for a failed one, and nothing for an abstention |
| Payloads.ValidTextWasPlanned | vocab/assessment_producer.py:361-383 | Every text JUDGE the history validator accepts is what the planner issues on some reviewed evidence |
| Payloads.ValidPolicyWasPlanned | vocab/assessment_producer.py:361-383 | So is every policy JUDGE |
| Payloads.ValidSpeechWasPlanned | vocab/assessment_producer.py:361-383 | So is every speech JUDGE |
| Payloads.ValidSpeakWasPlanned | vocab/assessment_producer.py:361-383 | So is every SPEAK, with its transcript |
| Payloads.LifecycleAccepts | vocab/reconcile.py:2491-2608 | The lifecycle accepts every valid JUDGE at any time from its stamp on, and reads its assessment exactly when the outcome is PASS or FAIL |
| Producer.EventLog.EmitPlannedJudge | vocab/assessment_producer.py:93-140 | Appends the missing JUDGE or nothing, and returns normally exactly when the plan is accepted and nothing failed |
| Producer.EventLog.EmitPlannedSpeechAssessment | vocab/assessment_producer.py:143-225 | Appends what is missing of the pair in order, with the readback between; on a valid log it returns normally exactly when the plan is accepted and nothing failed |
| Producer.EventLog.ConfirmSpeakAppend | vocab/assessment_producer.py:534-559 | Confirms exactly a valid log that holds this SPEAK and no JUDGE of its attempt |
| Producer.SpeakIsConfirmed | vocab/assessment_producer.py:534-559 | On a valid log the confirmation never refuses a SPEAK that was just appended |
| Producer.LogStaysValid | vocab/assessment_producer.py:386-471 | However the ledgers grow, every event already emitted stays valid, binding and novelty bit included |
| Producer.CutEmissionKeepsLog | vocab/assessment_producer.py:143-225 | An emission cut after any append leaves a valid log in which each speech JUDGE follows its SPEAK |
| Producer.EmissionIsTheRest | vocab/assessment_producer.py:506-531 | From wherever a plan has come the next call appends exactly the rest of it |
| Producer.ConflictingPlanRefused | vocab/assessment_producer.py:506-531 | Once a plan has started, every other plan of its attempt is refused |
| Producer.EveryRunFromEmpty | vocab/assessment_producer.py:93-225 | From an empty log, in every run of cut calls and growing ledgers: at most one SPEAK and one JUDGE an attempt, all of one plan, in order |
| Producer.EveryRunHolds | vocab/assessment_producer.py:93-225 | Any such run keeps this from wherever it holds |
| Producer.AcceptedPlanIsCompleted | vocab/assessment_producer.py:93-225 | An accepted plan that gets through leaves exactly its events, and a further call appends nothing |
| Producer.CutThenResumed | vocab/assessment_producer.py:93-225 | A cut call resumed appends exactly what the first left out |
| Bindings.CorrespondsExactly | vocab/assessment_producer.py:386-471 | The producer accepts a valid payload exactly when its attempt is reserved once under its unit, channel and stimulus, its response is the captured artifact of an attempt not disposed of, or its reason the disposal's code, and its novelty bit that of the reservation |
| Bindings.AcceptedExactlyWhenBound | vocab/assessment_producer.py:93-225 | A plan is accepted exactly when the ledgers so bind its events and the log has a first part of them; then the rest is appended |
| Bindings.EveryEventIsBound | vocab/assessment_producer.py:386-471 | Whatever was emitted in a run from an empty log is so bound by the ledgers at its end |
| Bindings.LogAcceptedExactlyWhen | vocab/assessment_producer.py:305-335 | A log is accepted exactly when each of its events is valid and so bound, no slot is filled twice, and each speech JUDGE has a SPEAK that says the same |
| Bindings.PlansAreIssued | vocab/assessment_planning.py:146-294 | Whatever the planners make of reviewed evidence is a plan the producer takes |
| ProducedMastery.NovelEventsDiffer | vocab/assessment_producer.py:456-471 | Two novel assessments of a unit and channel have different stimuli and identities |
| ProducedMastery.ProducedMasteryIsExact | vocab/reconcile.py:754-798 | On produced logs the selection never refuses, and grants mastery exactly when a pair satisfies the documented rule |
| Forge.InspectPendingIntent | vocab/forge/recovery.py:76-112 | One pending intent, none, or ambiguity, each exactly when that is so |
| Forge.ActionKeepsInv | vocab/forge/pipeline.py:290-434 | Intent, note, acceptance, abandonment and remarks keep the invariant |
| Forge.NeverAmbiguous | vocab/forge/recovery.py:76-112 | No reachable history is ambiguous for any unit |
| Forge.EveryLifetime | vocab/forge/pipeline.py:208-434 | At most one note a unit, each with an intent of its own, at most one pending intent a unit, at most one acceptance or abandonment an intent |
| Forge.NotesFollowIntents | vocab/forge/pipeline.py:338-434 | A note is only added while an intent for its unit is pending and no note of it exists |
| Forge.PendingIsResolvable | vocab/forge/recovery.py:151-356 | A pending intent can always be accepted when its note exists and abandoned when none does, and is then no longer pending |
| Forge.Workshop.ForgeUnit | vocab/forge/pipeline.py:208-434 | Created, rejected, and what is said of a pending attempt, each exactly under its conditions; every other result says what is durable |
| Forge.Workshop.CommitUnit | vocab/forge/pipeline.py:338-434 | Intent, note, acceptance in this order; whatever was lost stays for recovery |
| Forge.Workshop.EmitRejection | vocab/forge/pipeline.py:135-180 | One rejection record under a fresh attempt id, or none |
| Forge.Workshop.HistoryForAttempt | vocab/forge/recovery.py:115-131 | What the log says of an attempt: confusing, not meant, ended, or waiting for its unit |
| Forge.Workshop.RepairEvidence | vocab/forge/recovery.py:151-255 | The missing acceptance is written, and each other answer given, exactly under its conditions |
| Forge.Workshop.AbandonIntent | vocab/forge/recovery.py:258-356 | A pending intent without a note is abandoned, and each other answer given, exactly under its conditions |
| Matcher.ChunkMatchEnd | vocab/validators.py:72-96 | The greedy pass finds the least end of a chunk occurrence at a start, or that there is none |
| Matcher.FrameMatchEnd | vocab/validators.py:122-138 | So does trying slots from one to six tokens for a frame |
| Matcher.UnitMatchSpans | vocab/validators.py:141-182 | Every start with an occurrence is reported once, in order, with its least end; an invalid unit is refused |
| Matcher.ContainsUnit | vocab/validators.py:185-187 | True exactly when some occurrence exists |
| Matcher.EndsMonotone | vocab/validators.py:141-182 | A later occurrence never ends before the least end of an earlier start |
| Matcher.NothingBeatsTaken | vocab/corpus.py:511-521 | No family of disjoint spans is larger than the one taken from the left |
| Matcher.CountUnitOccurrences | vocab/corpus.py:511-521 | The count is the largest number of pairwise disjoint occurrences in the block |
| CorpusEmission.ValidatedHistory | vocab/corpus.py:647-712 | The history is accepted exactly when ids are unique and sound, file counts agree, and the month's corpus is this one; then it is indexed by id |
| CorpusEmission.EventStore.RunPreflight | vocab/corpus.py:715-744 | Missing plans and existing ids, or a refusal exactly when the result does not fit the log |
| CorpusEmission.EventStore.EmitScan | vocab/corpus.py:747-797 | Appends a prefix of the missing plans, all of them and with a report exactly when no append failed; a result that does not fit appends nothing |
| CorpusEmission.CutEmission | vocab/corpus.py:747-797 | A run cut after any append leaves exactly the rest missing |
| CorpusEmission.CutAndRestarted | vocab/corpus.py:747-797 | Any number of cut runs followed by a whole one leave what one whole run leaves |
| CorpusEmission.CompletedEmission | vocab/corpus.py:747-797 | After a whole run every plan is recorded exactly once and nothing is missing |
| CorpusEmission.EveryCountIsRecorded | vocab/corpus.py:607-644 | After a whole run each counted unit has one record for the source and month, which carries its count and the scan's corpus; whatever was added carries a count of the scan |
| CorpusEmission.ReportPartitions | vocab/corpus.py:715-797 | Appended and existing ids together are exactly the plans' ids |
| CorpusEmission.OtherScansFit | vocab/corpus.py:647-712 | Emissions for other months or sources in between do not disturb |
| CorpusEmission.MonthIsImmutable | vocab/corpus.py:699-711 | Once a month has a record, a scan of another corpus for it is refused |
| CorpusEmission.EveryEmissionLife | vocab/corpus.py:747-797 | Over any emissions of any scans, cut anywhere, no identity is recorded twice and nothing is lost |
| Braces.CutTemplate | vocab/anki_template.py:192-236 | Texts and tags alternate, each tag from the first opening pair to the first closing pair, and written back they are the template |
| Braces.CutsAreUnique | vocab/anki_template.py:192-236 | A template has only one such cutting |
| Mustache.ParseMustache | vocab/anki_template.py:192-340 | The loop with its stack computes the parse |
| Mustache.ParseTemplate | vocab/anki_template.py:192-340 | The parse from the characters of the template |
| Mustache.ParseIsDetermined | vocab/anki_template.py:192-340 | The template's characters alone determine the parse |
| Mustache.TagNamesAreProper | vocab/anki_template.py:236-324 | Whatever a tag says, the section or field name taken from it is trimmed, not empty and without a colon |
| Mustache.ProperNamesHaveTags | vocab/anki_template.py:236-324 | Every such name can be opened, closed and, unless it starts with a marker, referred to |
| Mustache.CleanExactlyWhenNested | vocab/anki_template.py:192-340 | No violation exactly when the tags are well formed and nest; then each text and reference carries the sections open at it |
| Mustache.EmptyTargetShowsNothing | vocab/anki_template.py:708-793 | A front that passes the gate check renders nothing visible while its Target is empty |
| Mustache.PassingFrontHasOneGate | vocab/anki_template.py:708-803 | Such a front is text, one positive Target section at top level, text, with no Target section inside |
| Mustache.PassesExactlyWhenOneGate | vocab/anki_template.py:708-803 | A front passes exactly when it is written from invisible text around one positive top-level Target section that holds no other target section |
| LogFile.ReadTrailingRecord | vocab/events.py:354-383 | For every chunk size the backward scan returns the last line of the forward split |
| LogFile.Read | vocab/events.py:263-313 | The lenient read drops a final line that is no JSON and refuses any other bad line |
| LogFile.ReadStrict | vocab/events.py:315-329 | The strict read accepts exactly the files whose lines are all terminated and events |
| LogFile.Log.Append | vocab/events.py:225-261 | Nothing is written behind a torn or malformed final record |
| LogFile.CutAppendReads | vocab/events.py:225-261 | An append cut at any byte leaves a log that reads strictly as before, with the one new event, or not at all |
| LogFile.TornLenient | vocab/events.py:263-313 | Read leniently, a torn log gives the old events, with the new one when only its newline is missing |
| LogFile.EveryLogLife | vocab/events.py:225-329 | Over any appends cut anywhere the strict read gives exactly the events that arrived whole, or refuses for good once one was torn |
| CanonicalFile.ReadStrictCanonical | vocab/t12_jsonl.py:21-54 | The reader over physical lines computes the specified reading |
| CanonicalFile.ReadsExactlyWhatWasWritten | vocab/t12_jsonl.py:21-54 | A file reads as a history exactly when it is that history written down byte for byte |
| CanonicalFile.CutRecordReads | vocab/t12_jsonl.py:57-77 | An append cut at any byte leaves the old history, the new one, or a refusal |
| CanonicalFile.ReadbackVouchesForTheFile | vocab/t12_jsonl.py:57-77 | When the readback ends with the appended record, the file before was sound and grew by that record alone |
| CanonicalFile.Ledger.Append | vocab/t12_jsonl.py:57-77 | Returns normally exactly when nothing failed and the file reads back with the record last |
| Bootstrap.EveryRace | vocab/runtime/bootstrap.py:136-236 | However processes race, fail and die: an identity only with every durable entry, all entries by one maker, mutual exclusion, and success only for the publisher |
| Bootstrap.OnlyOneSucceeds | vocab/runtime/bootstrap.py:136-236 | At most one process ever succeeds |
| Bootstrap.PublishedForGood | vocab/runtime/identity.py:180-235 | A published identity stays as it is |
| Bootstrap.AbandonedRootIsNeverAdopted | vocab/runtime/bootstrap.py:75-88 | Once its builder has ended, a partly built root never changes again and gets no identity |
| Bootstrap.NothingInTheWay | vocab/runtime/bootstrap.py:160-229 | Under the lock no entry, ledger or identity is ever found existing, and none missing at the end |
| Bootstrap.UndisturbedBootstrapSucceeds | vocab/runtime/bootstrap.py:136-236 | Into an empty and unlocked root a bootstrap that nothing disturbs succeeds |
| Bootstrap.ActKeepsInv | vocab/runtime/lock.py:62-111 | Every step of every process, and a human clearing the lock of an ended holder, keeps the invariant |

## Left out

- The unit's part of the log: records of other units are not modelled beside it; `ProducedLifetime` shows how it is read from a shared log.
- SHA-256 and JSON: identities are the identity tuples themselves, and files are read through given decoders.
- Float rounding of review ids and local days: time is a whole number of microseconds.
- One observation is one snapshot: evidence arriving between two reads of the same observation is not modelled.
- The checks on types, blank strings, patterns and field sets, which the datatypes here replace.
- Generation and validation of a unit by the forge: their outcome is handed in.
- Card identity: a card stands for its channel, and its ownership and ordinal checks are not part of this model.
- Manifest lookup before a reservation: the item is handed in.
- UTF-8 classification of a text submission: the class is handed in.
- `initialize_t12_ledgers` on existing files; inside a bootstrap only its creating branch is reachable, which `Bootstrap.NothingInTheWay` shows.
- `reactivate_relapse_channel`.
- Token normalisation, and HTML or script that makes template text invisible: tokens are opaque and invisibility is a given predicate.
- The contents of the files a bootstrap creates, beyond their existence and maker; `_validate_created_state` may fail for any reason.
- Corpus reading and registry reading, and the summation of block counts over files: they only add easy members.
- Preflight, configuration, the Anki HTTP client, text to speech and the command line.
- `Reconciler.Deployment` reads its stores directly; a read that fails is a call that fails, a read that returns wrong data is not modelled.
- Bootstrap has no class: the interleaving of several processes is its subject, so it is a state machine over their steps.
