# Verified model of the AEEIS collaboration core

AEEIS keeps durable, replayable state machines for work that several agents share. This
project models the decisions of those state machines in Dafny and proves what they promise
over whole runs: across replays, crashes, late replies and concurrent callers.

- **Debate** (`Debate`, `DebateRuns`, `DebateMeaning`, `DebateEvidence`, `Orchestrator`): an append-only room is moderated message
  by message, with trust levels and a gap ledger; the Adjudicator re-derives old verdicts from
  the final room; the orchestrator's round loop ends.
- **Durable attempts and budgets** (`Budget`, `BudgetMeaning`, `DebateService`, `DebateServiceRuns`, `DebateEffects`,
  `Competition`, `CompetitionRuns`, `CompetitionEffects`, `CompetitionVerdicts`, `CompetitionCourse`,
  `CompetitionResume`): reserve, call, record usage, settle or reconcile; at most one dispatch, and
  an overshoot of at most one call, under any interleaving.
- **Grants** (`GrantLedger`, `GrantLedgerRuns`, `GrantEffects`, `Delegation`, `DelegationEffects`, `StreamLines`,
  `StreamMeaning`): call, token and money
  accounting, the grant lifecycle, the linearized authorization receipt, the gateway's call
  protocol around the ledger, and the stream reader.
- **Channels** (`ChannelDigest`, `ChannelGate`, `DigestCost`, `DigestMeaning`, `ChannelMetrics`, `TaskBoard`,
  `TaskBoardFold`, `TaskBoardGuard`, `Handoff`, `HandoffEffects`): the digest
  gate, window costs, the parallel-use sweep, the event-sourced board and its write guard, and
  handoff talks that resume after a restart.
- **Knowledge** (`ChangeAudit`, `Brain`, `BrainRuns`, `BrainEffects`, `BrainAuthority`, `BrainAdmission`): the claim store and its hash-chained log.
- **Triggers, projections, conversations** (`Triggers`, `TriggerSpacing`, `TriggerEffects`, `Outbox`,
  `OutboxEffects`, `Conversations`).

`Basics` holds optional values, results and small sequence helpers, `Counting` cardinalities. `dafny verify dfyconfig.toml`
checks everything.

## How it is modelled

A class holds the fields the program updates in place. Each of its methods is one atomic
section of the program (one repository mutation, one ledger section, one lock) and is proved
equal to a function of the old state; the modules ending in `Runs`, and the second halves of
the others, prove properties of those functions over every sequence of steps. The modules ending
in `Effects`, and `TaskBoardFold`, `ChannelGate`, `DebateEvidence`, `StreamMeaning` and
`BrainAuthority`, say what each step does to the stored values without those functions: when it is
taken, what it leaves, and how one attempt, decision, event or claim lives through any interleaving. Callers that
make several atomic steps are state machines with one program point per gap between sections,
so a crash can fall anywhere. Time is an integer, ids are opaque, hashes are parameters, money
is exact, and provider, transport and sink outcomes are arbitrary.

## Where a promise needed a condition

- Pinned roles match a decided debate when it is closed. `bindDebateRoles` does not look at the
  status, so a later binding can break the match. `DebateServiceRuns.PinnedRolesMatchIff` says over
  whole runs exactly when it does not, and `DebateServiceRuns.PinningAfterDecisionMismatches` gives
  a family of reachable runs where it does.
- An affordable competition whose participants all have a candidate and a score is `completed` only
  if the participants are distinct, which the durable service does not check (the in-process runner
  of src/collaboration.ts does): `CompetitionRuns.FinishingMeans` has the exact condition,
  `CompetitionRuns.RepeatedParticipantEndsPartial` a run in which a repeated one ends as partial.
- Active decisions of a trigger policy stay a cooldown apart as long as no decision is reconciled as
  failed while a call may still write that it is triggered, unless a settled decision of its policy
  started no earlier. The evaluating call writes `triggered` without looking at the state it
  replaces, so otherwise a failed decision becomes active again.
  `TriggerSpacing.SpacingSurvivesIff` shows that this condition is exact: every other reconciliation
  is harmless, and after one that breaks it some continuation breaks the spacing.
- A result is handed back only under an authorized receipt when the outcome is final. An answer that
  is still `accepted` or `unknown` may carry a result too, and that one is handed back unsettled
  (`Delegation.HandedBackUnderReceiptIff`, `Delegation.PendingResultIsHandedBack`).
- The board's promises about claims, hand-ups and transfers hold for what passes the write guard. A
  task update the owner posts as text is read as an action without it.
  `TaskBoard.EveryRunIsGuarded` says exactly when a run keeps them all the same,
  `TaskBoard.TextsPassTheGuard` and `TaskBoard.TwoTextsConflict` what happens otherwise. Offers,
  proposals and acceptances keep their promises with any texts.
- A handoff is bounded per pair of Bots and side room, because a resumed talk counts what was said
  there. The whole offer is bounded exactly as long as nothing was said about it elsewhere
  (`Handoff.OfferIsBoundedIff`); a holder who gives the card up and an archived side room both start
  over (`Handoff.AnotherHolderStartsOver`, `Handoff.ArchivedRoomStartsOver`).
- A talk closes its offer if and only if the receiver is AEEIS or an active member of the channel
  when the outcome is written: the closing decline names the receiver, and the board refuses an
  agent that has left (`Handoff.TalkClosesIffReceiverIsPresent`,
  `Handoff.DepartedReceiverKeepsTheOffer`).
- A competition caller reads the candidates before it reserves the evaluator, so what the
  evaluator is shown is a prefix of the frozen candidates; every shown alias still decodes.
- Whether a stream line is too long is judged on the unfinished line after each chunk.
  `StreamLines.CutsAgreeIff` says for every text exactly when the boundaries matter.
- The number of runs of adjacent digest windows is not additive; `DigestCost.AdjacentWindowsAdd`
  says by how much it exceeds the joined count.
- A projection whose process dies between the sink's answer and its record is sent again; the
  promise is about recorded outcomes.

## Model

| member | source | states |
|---|---|---|
| Debate.DebateGaps | src/collaboration.ts:150-165 | the loop over the room computes the gap ledger: accepted messages only, gaps raised, answered and resolved in order |
| Debate.CheckGapRef | src/collaboration.ts:197-205 | the gap part of the Moderator policy, branch by branch, against the ledger of the room before the message |
| Debate.ModerateDebateMessage | src/collaboration.ts:182-208 | the verdict with trust levels, missing references and violations in the order the policy lists them |
| DebateMeaning.ShapeMeans | src/collaboration.ts:80-91 | a message has the right shape exactly when gap messages raise a gap, observations answer one, and any other message resolves one or leaves the gaps alone |
| DebateMeaning.ReferencesMean | src/collaboration.ts:131-136 | a reference has the trust of the Context Pack exactly when it names a claim, a claim's evidence or an artifact of it, that of an assertion exactly when only a message has that id, and none otherwise |
| DebateMeaning.HighestIsTheStrongest | src/collaboration.ts:189 | the level of a message is the highest of those it cites, and an assertion's when nothing resolves |
| DebateMeaning.SpokenByCounts | src/collaboration.ts:255 | an agent's messages are counted by their places in the room |
| DebateMeaning.RepeatsMeans | src/collaboration.ts:252 | participants repeat exactly when their set is smaller than their list |
| DebateMeaning.AnswersNeverReopen | src/collaboration.ts:153-162 | in any ledger an answer moves only an open gap, and only its gap changes |
| DebateMeaning.RoomBeforeMeans | src/collaboration.ts:169-174 | the room before a message holds the messages up to its first occurrence and exactly the verdicts about them; before a message that is not there it is the room |
| DebateRuns.AcceptedMeans | src/collaboration.ts:182-208 | a message is accepted exactly when every reference resolves, evidence-bearing messages cite the Context Pack, an observation cites nothing else, and its gap move is allowed; its trust level is the Context Pack's exactly when it cites it |
| DebateRuns.EveryRunIsRecorded | src/collaboration.ts:248-260 | every run of appends, reviews and closings keeps unique ids and one verdict per message at the same index, equal to the policy's answer on the room before it; rooms only grow |
| DebateRuns.RoomBeforeIsPrefix | src/collaboration.ts:169-174 | the room before the i-th message is exactly the first i messages and their verdicts |
| DebateRuns.RecordedVerdictIsRederived | src/collaboration.ts:169-208 | moderating an old message again, in the final room, gives its recorded verdict apart from the time |
| DebateRuns.SupportedIffRecordedAccepted | src/collaboration.ts:235-239 | a decision is supported exactly when it was accepted when said and no review contests it |
| DebateRuns.SupportIsStable | src/collaboration.ts:235-239 | later appends and closings never change whether a decision is supported; only a new adverse review can |
| DebateRuns.LedgerStep | src/collaboration.ts:150-165 | the ledger after n+1 messages is one step on the ledger after n, taken only for accepted messages, which point at unresolved gaps |
| DebateRuns.AppendStepsLedger | src/collaboration.ts:150-165 | the ledger of room plus message is one step on the ledger of the room |
| DebateRuns.LedgerIsSound | src/collaboration.ts:150-208 | in every recorded room the ledger holds exactly the gaps raised by accepted messages; each lists all its accepted answers, has at most one resolver, who raised it, and a closed gap was answered before |
| DebateRuns.ResolvedGapsAreFrozen | src/collaboration.ts:150-208 | over whole runs a resolved gap never changes again |
| DebateRuns.SupportedHasEvidence | src/collaboration.ts:211-214 | a reference supports a message if and only if the message cites it and the Context Pack has it, and a supported decision has one |
| DebateRuns.AdjudicatorTakesLatestSupported | src/collaboration.ts:220-233 | the Adjudicator decides exactly when some decision is supported, takes the latest, and publishes as evidence exactly what it cites from the Context Pack |
| DebateEvidence.SupportIsWhatItCites | src/collaboration.ts:211-214 | what supports a message is exactly what it cites from the Context Pack, each reference once and in the order of first citation |
| DebateRuns.AppendAdmitsExactly | src/collaboration.ts:248-257 | a message is appended if and only if the room with it is within every limit and binding: total, per speaker, rounds, unique ids, existing reply target, same room and context |
| DebateRuns.EveryRunIsWithinLimits | src/collaboration.ts:248-260 | every run keeps all those limits and bindings |
| Orchestrator.TakeTurn | src/collaboration-pool.ts:224-231 | one participant's turn adds exactly one message of that round and speaker, or ends the run because the call waits, failed or gave a message the room refuses |
| Orchestrator.RunRound | src/collaboration-pool.ts:215-233 | in one round every participant that may still speak speaks once; a silent round means everyone has spoken in it or may not |
| Orchestrator.Run | src/collaboration-pool.ts:201-239 | the run ends after at most two rounds per added message and two more, stays within the message bound and the room limits, nobody speaks twice in a round, and nothing is added after a decision; at the round bound everyone had their turn in every round up to it, otherwise nobody may speak any more, a decision is there, or a participant that was due met the message bound, a pending call, a failed one or a refusal by the room |
| Orchestrator.BoundsAreTheRooms | src/collaboration-pool.ts:221-222 | the bounds the loop checks are those at which the room refuses a message for its number |
| Orchestrator.SilentRoundHadSpeakers | src/collaboration-pool.ts:234-237 | a silent round in which somebody may still speak already had messages, so two of them never follow each other |
| Budget.CollaborationUsage | src/collaboration-budget.ts:36-45 | the loop totals calls, tokens and money and counts unreported calls |
| Budget.AssertCollaborationBudget | src/collaboration-budget.ts:49-58 | no error exactly when the calls fit, otherwise the first reason that applies: reports missing, then calls, tokens and money exhausted |
| BudgetMeaning.FitsMeans | src/collaboration-budget.ts:47-58 | over the reports themselves: attempts are admitted while every limit leaves room for one more call, token or amount, results applied while none is exceeded; a limit in tokens or money asks every attempt for its report |
| BudgetMeaning.TokensAreUnits | src/collaboration-budget.ts:36-45 | the token total has one unit for each reported token |
| BudgetMeaning.MoneyIsWhatWasReported | src/collaboration-budget.ts:36-45 | the money of two groups of attempts is theirs together and that of one is what it reported |
| Budget.AdmissionBoundsOvershoot | src/collaboration-budget.ts:47-58 | after one admitted call the budget is overshot by at most that call |
| DebateService.DebateAggregate.Append | src/collaboration-service.ts:911-930 | the stored record after a message, or the error that leaves it as it was |
| DebateService.DebateAggregate.BindRoles | src/collaboration-service.ts:932-940 | roles are pinned when independent; the status of the debate is not consulted |
| DebateService.DebateAggregate.Reserve | src/collaboration-service.ts:964-975 | one durable attempt per slot, none while another waits, admitted under the budget |
| DebateService.DebateAggregate.RecordUsage | src/collaboration-service.ts:977-983 | usage is taken once and only from a started attempt |
| DebateService.DebateAggregate.RecordModel | src/collaboration-service.ts:989-997 | the model is taken once and only from a started attempt |
| DebateService.DebateAggregate.Settle | src/collaboration-service.ts:999-1009 | a result is stored only for a started attempt: reconciliation wins over a late response |
| DebateService.DebateAggregate.Reconcile | src/collaboration-service.ts:1019-1037 | a waiting attempt of an active debate is resolved without a call |
| DebateService.DebateAggregate.RecordReview | src/collaboration-service.ts:1039-1050 | a review of the pinned independent moderator is stored once per message |
| DebateService.DebateAggregate.CheckDecision | src/collaboration-service.ts:1061-1067 | the re-validation of a decided result, in order |
| DebateService.DebateAggregate.Close | src/collaboration-service.ts:1052-1074 | the closed record, or the error that leaves the debate open |
| DebateEvidence.DecidedClosingExactly | src/collaboration-service.ts:1052-1074 | a decided result closes an open debate exactly when the calls fit the budget and are settled, it names a decision that passed moderation and that no review opposes, its evidence is some of what that cites from the Context Pack, and the pinned roles agree |
| DebateEvidence.OtherClosingsExactly | src/collaboration-service.ts:1060-1070 | a decided result that names no message is refused; a held one closes exactly when it names no message and no evidence |
| DebateEvidence.DefaultClosingExactly | src/collaboration-service.ts:1056-1068 | with nothing given the default answer closes an open debate, unless it is a decision the calls do not fit the budget for or the pinned Moderator has not accepted |
| DebateEvidence.FallbackMeans | src/collaboration-service.ts:1057-1059 | the default answer is held while an adjudicator is pinned, an attempt is not completed or nothing is supported, and else the latest supported decision |
| DebateEffects.EveryAttemptGoesItsWay | src/collaboration-service.ts:977-1037 | in every service call each attempt does what it would do on its own: one reply, one usage report, one model, one reconciliation, each stored as reported |
| DebateEffects.ReservingExactly | src/collaboration-service.ts:964-975 | a slot is won exactly when the debate is open, the slot unused, no attempt waiting and the budget has room |
| DebateEffects.SayingExactly | src/collaboration-service.ts:911-930 | a message joins the room exactly when the debate is open and within budget, a managed debate names the completed attempt it comes from, and the room admits it; a channel repeat is taken silently |
| DebateEffects.ReviewingExactly | src/collaboration-service.ts:1039-1050 | a review joins the room once per message and reviewer, and only from the pinned independent Moderator |
| DebateEffects.BindingExactly | src/collaboration-service.ts:932-940 | roles are pinned exactly when they are distinct, outside the participants, and none or the same were pinned before |
| DebateServiceRuns.DispatchedOncePerSlot | src/collaboration-service.ts:942-975 | over every run a slot's call is dispatched at most once: won slots are distinct and are the recorded attempts' slots |
| DebateServiceRuns.SettledAttemptsAreFrozen | src/collaboration-service.ts:977-1037 | an attempt that left started and unknown never changes again |
| DebateServiceRuns.EveryRunOvershootsByOneCall | src/collaboration-budget.ts:47-58 | in every reachable record attempts respect the call limit, and all but the latest are reported and strictly below the token and money limits |
| DebateServiceRuns.EveryDecidedRoomIsJustified | src/collaboration-service.ts:1052-1074 | a debate closed as decided has a supported decision, nonempty evidence from that decision's Context Pack references, completed attempts and a respected budget |
| DebateServiceRuns.DecidedRoomIsFrozen | src/collaboration-service.ts:911-1074 | after a decided closing no service call changes the room or the attempts |
| DebateServiceRuns.RolesMatchWhenClosing | src/collaboration-service.ts:1066-1067 | at a decided closing the adjudicator and the moderator's accepting review match the pinned roles |
| DebateServiceRuns.BindingKeepsMatchIff | src/collaboration-service.ts:932-940 | binding roles keeps that match if and only if the roles asked for match the decision already taken |
| DebateServiceRuns.PinnedRolesMatchIff | src/collaboration-service.ts:932-940 | in every reachable record a decided debate matches its pinned roles if and only if every successful binding after the closing asked for roles that match the decision |
| DebateServiceRuns.PinningAfterDecisionMismatches | src/collaboration-service.ts:932-940 | a family of reachable runs in which pinning an adjudicator after a decided closing breaks the match |
| DebateServiceRuns.DefaultAdjudicationPasses | src/collaboration-service.ts:1056-1064 | without roles and budget the default adjudicator's result always passes the re-validation |
| Competition.CompetitionAggregate.SubmitCandidate | src/collaboration-service.ts:600-611 | a bound, unmanaged candidate of a participant is added once while collecting |
| Competition.CompetitionAggregate.PushCandidate | src/collaboration-service.ts:700-702 | one candidate per agent, and the total cost is the sum over candidates |
| Competition.CompetitionAggregate.BeginEvaluation | src/collaboration-service.ts:613-620 | an independent evaluator may begin once there is a candidate |
| Competition.CompetitionAggregate.SubmitScore | src/collaboration-service.ts:622-639 | a score of this evaluator, decoded from its alias, once per candidate; the last one concludes, and counts as complete with a full field within the cost limit |
| Competition.CompetitionAggregate.Select | src/collaboration-service.ts:874-874 | the loop picks what the stable descending sort puts first |
| Competition.CompetitionAggregate.Apply | src/collaboration-service.ts:635-638 | final scores, status and selection together |
| Competition.CompetitionAggregate.Reserve | src/collaboration-service.ts:682-690 | a participant's attempt is reserved once, with no other one waiting, under the budget |
| Competition.CompetitionAggregate.Settle | src/collaboration-service.ts:694-705 | a bound result is taken only by a started attempt and adds its candidate unless over budget |
| CompetitionEffects.SettlementTakesTheResult | src/collaboration-service.ts:694-705 | the reply of a started attempt completes it with its result; within the budget the candidates are the old ones and this one unless its agent has one, and the cost grows by its price; over the budget the record fails; any other reply changes nothing |
| CompetitionEffects.ReconciliationTakesTheResult | src/collaboration-service.ts:807-831 | a waiting attempt takes the reported usage and fails, or takes its bound result in the same way and the record reopens; the refusals of everything else |
| CompetitionEffects.EveryAcceptedResultIsACandidate | src/collaboration-service.ts:694-705 | in every reachable record each completed or reconciled attempt carries its participant's result and that participant has a candidate, unless the calls exceed the budget and nothing can be called any more |
| CompetitionEffects.EveryAttemptGoesItsWay | src/collaboration-service.ts:694-718 | in every step of every interleaving each attempt does what it would do on its own: one reply, one usage report, one reconciliation |
| CompetitionEffects.AttemptsStartExactly | src/collaboration-service.ts:683-689 | an attempt starts exactly when its caller finds the record open, none waiting, none of its participant and room in the budget |
| CompetitionEffects.EvaluatorGoesItsWay | src/collaboration-service.ts:751-768 | in every step the evaluator's attempt does what it would do on its own |
| CompetitionEffects.EvaluatorStartsExactly | src/collaboration-service.ts:742-749 | the evaluator starts exactly when its caller finds the record running, no attempt waiting, no evaluator and room in the budget |
| CompetitionEffects.SubmissionTakenExactly | src/collaboration-service.ts:600-611 | a candidate from outside is taken exactly when no budget asks for a call, the record collects, and it is bound and its participant's first |
| Competition.CompetitionAggregate.CallFailed | src/collaboration-service.ts:706-712 | a failed or unknown outcome is taken only by a started attempt |
| Competition.CompetitionAggregate.RecordUsage | src/collaboration-service.ts:778-785 | usage is taken once and only from a started attempt, the evaluator's included |
| Competition.CompetitionAggregate.Reconcile | src/collaboration-service.ts:813-830 | a waiting attempt is resolved without a call, and the record reopens |
| Competition.CompetitionAggregate.ReserveEvaluator | src/collaboration-service.ts:741-748 | one evaluator attempt, with no participant waiting, under the budget |
| Competition.CompetitionAggregate.SettleEvaluator | src/collaboration-service.ts:753-756 | scores are taken only by the started evaluator attempt |
| Competition.CompetitionAggregate.EvaluatorFailed | src/collaboration-service.ts:757-764 | an evaluator failure ends the competition, an unknown outcome keeps it waiting |
| Competition.CompetitionAggregate.ReconcileEvaluator | src/collaboration-service.ts:834-852 | a waiting evaluator attempt is resolved without a call |
| Competition.CompetitionAggregate.FinishEvaluation | src/collaboration-service.ts:856-882 | stored scores are decoded and applied once; a bad or over-budget result fails the record |
| CompetitionVerdicts.ScoreTakenExactly | src/collaboration-service.ts:622-640 | a score is taken exactly from the evaluator of an affordable evaluation, for a candidate it names by alias or agent that has none; it is stored under the agent and the last one concludes by the verdict |
| CompetitionVerdicts.FinishesExactly | src/collaboration-service.ts:856-882 | the stored output is applied exactly when the calls fit the budget and each score names its own candidate, leaving the decoded scores and the verdict; otherwise the record fails without a selection |
| CompetitionVerdicts.ConcludesByVerdict | src/collaboration-service.ts:635-638 | finished exactly when the field is full and the cost within its limit; the first accepted score of maximal value is selected exactly when the cost is |
| CompetitionVerdicts.DecodesExactly | src/collaboration-service.ts:864-874 | scores decode exactly when each names a candidate and no two name the same, each keeping its place and value |
| CompetitionVerdicts.DecodingMeans | src/collaboration-service.ts:863-871 | an alias stands for the candidate in its place in a blind competition, every other name for itself |
| CompetitionVerdicts.FailureEndsUnlessUnknown | src/collaboration-service.ts:757-770 | a failed evaluator ends the competition, an unknown outcome leaves it evaluating |
| CompetitionCourse.UndisturbedRunFinishesIff | src/collaboration-service.ts:648-776 | one run nobody comes between, all of whose calls are answered: with room for a call per participant and one for the evaluator everybody is called once, in order, the evaluator sees every reply and the competition is finished exactly when the scores name every candidate once and the cost is within its limit; with less room exactly the calls the budget allows are made and the competition fails |
| CompetitionResume.ResumesAtTheFirstUnsettled | src/collaboration-service.ts:659-670 | a run resumed where nothing waits passes every participant that has a candidate or whose first attempt failed or was reconciled, and goes on with the first other one when the budget admits a call, failing otherwise |
| CompetitionResume.ResumesWithTheEvaluator | src/collaboration-service.ts:719-731 | past the last participant a running record goes to the evaluator with all its candidates if it has any and the budget admits the call, and fails otherwise |
| CompetitionResume.BeginsExactly | src/collaboration-service.ts:649-653 | a run begins exactly while the record collects or runs and the evaluator takes no part; a stored evaluation it applies |
| CompetitionResume.StopsBesideOthers | src/collaboration-service.ts:659-722 | a run that meets a waiting attempt or a closed record is done and changes nothing |
| CompetitionRuns.CalledAtMostOnce | src/collaboration-service.ts:648-776 | over every interleaving of concurrent callers, crashes, late replies, reconciliations and direct calls each participant and the evaluator are called at most once, only participants are called, only the latest attempt may wait, and no attempt waits once the evaluator is reserved |
| CompetitionRuns.OvershootIsOneCall | src/collaboration-service.ts:683-748 | every reachable record overshoots its budget by at most one call, the evaluator's included |
| CompetitionRuns.LateRepliesChangeNothing | src/collaboration-service.ts:694-852 | in every continuation of a run an attempt or evaluator attempt that left started keeps its value, whatever reply, report or failure comes; only an unknown one changes, by reconciliation |
| CompetitionRuns.CandidatesAreFrozen | src/collaboration-service.ts:741-748 | from the evaluator's reservation on, the candidate list never changes |
| CompetitionRuns.BlindAliasesDecode | src/collaboration-service.ts:724-727 | however the run goes on, the alias on every envelope a blind evaluator was shown decodes to the agent that wrote it |
| CompetitionRuns.AliasIsInjective | src/collaboration-service.ts:724-724 | different candidate positions have different aliases |
| CompetitionRuns.FinishingMeans | src/collaboration-service.ts:856-882 | finishing any reachable record completes it if and only if its scores can be applied, it is affordable, its participants are distinct and each has a candidate and a score; otherwise it is partial, or failed when the scores cannot be applied; a selection exists exactly when affordable and some score is accepted, and is the first best one |
| CompetitionRuns.BestIsFirstMaximum | src/collaboration-service.ts:874-874 | the selected score is the first accepted one of maximal value, and exists exactly when one is accepted |
| CompetitionRuns.VerdictsAreProper | src/collaboration-service.ts:856-882 | in every reachable record a completed competition is affordable and has a candidate and a score of every participant, all distinct; candidates come from participants, one each; a selected agent has an accepted, maximal, affordable score |
| CompetitionRuns.RepeatedParticipantEndsPartial | src/collaboration-service.ts:622-638 | a brief that lists a participant twice ends as partial although everyone has a candidate and a score |
| CompetitionRuns.DecodedScoresAreGood | src/collaboration-service.ts:863-872 | applied scores name candidates, each once, and are the evaluator's scores with decoded agents |
| GrantLedger.FileGrantLedger.ExpireIfDue | src/agent-ledger.ts:202-205 | an active grant past its end becomes expired, once |
| GrantLedger.FileGrantLedger.EnsureGrant | src/agent-ledger.ts:159-176 | registration, or the same record for the same digest and binding, expired when due |
| GrantLedger.FileGrantLedger.GetGrant | src/agent-ledger.ts:178-186 | the record, expired when due |
| GrantLedger.FileGrantLedger.RevokeGrant | src/agent-ledger.ts:188-200 | an active or expired grant becomes revoked; a revoked one stays as it is |
| GrantLedger.FileGrantLedger.Reserve | src/agent-ledger.ts:207-221 | one call entry under a usable grant, an unchanged budget and a free call; expiry is stored even when the call is refused |
| GrantLedger.FileGrantLedger.MarkUnknown | src/agent-ledger.ts:223-229 | a waiting entry becomes unknown; settled and rejected ones stay |
| GrantLedger.FileGrantLedger.EnsureUnknown | src/agent-ledger.ts:231-245 | an unknown entry is added for a call the ledger does not know, under the same rules |
| GrantLedger.FileGrantLedger.Settle | src/agent-ledger.ts:247-286 | settling, rejecting for tokens or money, or returning the earlier receipt |
| GrantEffects.RegisteredExactly | src/agent-ledger.ts:159-176 | a registration is taken exactly when it names its revocation and carries its digest, and its grant is the recorded one in every binding or a new one that is not over |
| GrantEffects.RevokedExactly | src/agent-ledger.ts:188-200 | a known grant is revoked once with its change recorded; an unknown one is refused |
| GrantEffects.ReservedExactly | src/agent-ledger.ts:207-221 | a call is reserved exactly when its grant is in force or unregistered, the budget unchanged, the key new and a call left; a refusal only expires a grant that is over |
| GrantEffects.UnknownEnsuredExactly | src/agent-ledger.ts:231-245 | a call the ledger does not know is added as unknown under the same conditions; a known one stays whatever its grant became |
| GrantEffects.MarkedExactly | src/agent-ledger.ts:223-229 | a waiting entry becomes unknown, a settled or rejected one stays, an untracked one is refused |
| GrantEffects.WaitingSettledExactly | src/agent-ledger.ts:261-286 | a waiting call over the token budget is rejected with only tokens charged, else over the money budget with only money charged, else both are charged and it is settled with a receipt that says what its grant is now |
| GrantEffects.OtherSettledExactly | src/agent-ledger.ts:247-260 | an untracked or rejected call is refused and a settled one answers with its receipt |
| GrantLedgerRuns.EveryRunConserves | src/agent-ledger.ts:207-286 | over every run used calls are the number of entries and within budget, used tokens are the sum over settled and token-rejected entries, money likewise, settled sums are within budget, and a rejected entry leaves its account over that budget |
| GrantLedgerRuns.OverBudgetIsFinal | src/agent-ledger.ts:260-276 | once a counter is over its budget no later settlement of that grant succeeds |
| GrantLedgerRuns.ReceiptsAreFrozen | src/agent-ledger.ts:252-258 | a settled entry keeps its usage and receipt forever, and settling again returns that receipt |
| GrantLedgerRuns.AuthorizedExactlyWhenActive | src/agent-ledger.ts:279-284 | a settlement is authorized exactly when the grant is registered, active and unexpired at that step |
| GrantLedgerRuns.EveryReceiptHasItsMoment | src/agent-ledger.ts:247-286 | every receipt in a reachable ledger was issued by one settlement of the run, and authorizes exactly when the grant was registered, active and unexpired at that moment |
| GrantLedgerRuns.NothingAuthorizedAfterEnd | src/agent-ledger.ts:279-284 | after revocation, or when every later step is past the end, no run authorizes anything more under the grant |
| GrantLedgerRuns.StatusNeverReturns | src/agent-ledger.ts:178-205 | a grant never becomes active again, a revoked one stays revoked, its digest and end never change |
| GrantLedgerRuns.OthersUntouched | src/agent-ledger.ts:159-286 | an operation touches only its own grant |
| GrantLedgerRuns.SettlingClosedChangesNothing | src/agent-ledger.ts:252-259 | settling an entry that is not waiting changes nothing |
| Delegation.SubmittedAtMostOnce | src/agent-gateway.ts:379-463 | over every interleaving of delegations, reconciliations, callbacks, revocations, crashes and restarts each call of a grant reaches the transport at most once, and a final outcome is handed back only under an authorized receipt that is still in the ledger |
| Delegation.HandedBackUnderReceiptIff | src/agent-gateway.ts:501-524 | whatever a caller hands back is authorized at that step if and only if it is final or another caller had the call authorized before |
| DelegationEffects.DelegatedExactly | src/agent-gateway.ts:379-428 | one delegation nobody comes between, answered with an outcome: it is submitted exactly when its grant can be used and the call is new to it and has room, and handed back exactly when the usage is affordable and the grant lasts to the end; then the usage is charged and the settled entry is authorized |
| DelegationEffects.ReconciledExactly | src/agent-gateway.ts:432-463 | one reconciliation of a call nobody settled: it submits nothing and hands the result back exactly when the grant fits its record, the ledger has or can take the call, the usage is affordable and the grant lasts to the end |
| DelegationEffects.LostAnswerIsMarked | src/agent-gateway.ts:420-423 | a call whose transport fails has its entry marked unknown, and nothing is handed back |
| Delegation.PendingResultIsHandedBack | src/agent-gateway.ts:501-504 | an answer that is accepted or unknown is handed back with the result it carries although nothing was settled, for every call under way nobody has settled |
| Delegation.SubmissionsStayWithinBudget | src/agent-gateway.ts:390-404 | across restarts the calls of a grant that reach the transport never exceed its call budget |
| Delegation.AdmissionNeedsAnActiveGrant | src/agent-gateway.ts:486-499 | a call is handed on only after its reservation saw the grant registered, bound to the request, active and unexpired |
| Delegation.RunIsLedgerRun | src/agent-gateway.ts:379-528 | whatever the gateway does to the ledger is a run of ledger operations |
| StreamLines.Drain | src/agent-gateway.ts:634-638 | complete lines of the buffer are fed in order and the rest is kept |
| StreamLines.ReadStream | src/agent-gateway.ts:597-647 | within the limits the result is a function of the joined text, independent of the chunk boundaries; over a limit the stream is refused |
| StreamLines.ProgressIsOrdered | src/agent-gateway.ts:615-619 | an accepted stream delivers strictly increasing, bounded progress |
| StreamLines.LinesOfJoin | src/agent-gateway.ts:633-638 | complete lines never change and only the unfinished tail takes part in what comes next |
| StreamLines.ShortLinesPassAnyCut | src/agent-gateway.ts:639-639 | a text whose lines are within the line limit passes however it is cut |
| StreamLines.CutsAgreeIff | src/agent-gateway.ts:639-639 | for every text within the size limit the outcome is the same for every way to cut it if and only if no stretch without a newline is over the line limit, or the unfinished last line is, or the text is refused for what it says |
| StreamMeaning.AcceptedExactly | src/agent-gateway.ts:603-647 | a text is accepted exactly when no line is malformed, the progress frames are at most a thousand and numbered upwards and some line is a result; then every progress frame was delivered in order and the last result is the answer |
| StreamMeaning.TextIsItsLines | src/agent-gateway.ts:633-636 | a text is its lines, each ended by its newline, and a rest without one |
| StreamMeaning.LimitsMean | src/agent-gateway.ts:630-639 | the limits are on the bytes read so far and on the unfinished line, after every chunk |
| ChannelDigest.ChannelRateAvailable | src/channel-digest.ts:196-204 | the count of deliveries in the last ten minutes is below six |
| ChannelDigest.ChannelDigestDelivery.Write | src/channel-digest.ts:146-155 | the event the gate appends, with its delivery mode |
| ChannelDigest.ChannelDigestDelivery.Flush | src/channel-digest.ts:161-192 | a due digest is appended, otherwise nothing |
| ChannelGate.WriteIsGatedExactly | src/channel-digest.ts:146-155 | a write that is not human, decision or retraction is delivered at once exactly when it is a message and fewer than six events of the log occupy the ten minutes up to now; its delivery has the time of the write, and a used key appends nothing |
| ChannelGate.EveryEventWasGatedExactly | src/channel-digest.ts:146-155 | every client event of a run was taken so from one write, on the log before it, and is unchanged since |
| ChannelGate.FlushSendsExactly | src/channel-digest.ts:161-192 | a flush sends exactly when the rate allows it and the event waiting longest, and the last digest, are a setting's minutes old; the digest names in order all that wait with its audience |
| ChannelGate.CountIsCardinality | src/channel-digest.ts:196-204 | the occupied places are counted one by one |
| ChannelDigest.NoWindowExceedsTheRate | src/channel-digest.ts:146-204 | with a clock that never runs backwards no ten-minute window of any run holds more than six immediate deliveries, digests included |
| ChannelDigest.EveryRunDelivers | src/channel-digest.ts:146-155 | people, decisions and retractions are never held back, progress always is, only messages and digests are immediate |
| ChannelDigest.EveryRunAcknowledgesOnce | src/channel-digest.ts:161-190 | every queued event is acknowledged by at most one digest and after it was queued, a digest covers one classification and audience, waits its recorded minutes after its oldest event and after every earlier digest |
| ChannelDigest.FlushShrinksPending | src/channel-digest.ts:167-190 | a due flush takes exactly the oldest pending event and all that share its audience out of the pending ones; any other flush changes nothing |
| ChannelDigest.BatchIsSound | src/channel-digest.ts:168-178 | the batch is led by the oldest pending event and holds every pending event of its audience, in order |
| DigestCost.ChannelDigestCost | src/channel-digest.ts:33-66 | the loop computes the window totals, money before rounding included |
| DigestMeaning.DigestMeans | src/channel-digest.ts:33-66 | the totals as cardinalities: runs that executed at some instant of the window, acceptances dated within it, one unit for each instant, token, credit and unreported call of a run; money is given exactly when a run with a price has a call with tokens |
| DigestMeaning.RunTotalsMean | src/channel-digest.ts:43-49 | tokens are those of the calls started in the window, unreported its completed calls without usage, credits those of its completed receipts |
| DigestMeaning.InsideCountsInstants | src/channel-digest.ts:40-42 | the run time counts the instants of the window at which the run was executing |
| DigestMeaning.MoneyIsTheShare | src/channel-digest.ts:47-48 | a priced run pays in proportion to its tokens: its whole price when the window holds every call with tokens, nothing when it holds none |
| DigestMeaning.MoneyIsShared | src/channel-digest.ts:47-48 | the money of two groups of runs is theirs together and that of one run is its own |
| DigestCost.AdjacentWindowsAdd | src/channel-digest.ts:33-66 | run time, tokens, credits, money before rounding, unreported calls and acceptances of adjacent windows add up, also for runs still executing; run counts exceed the joined count by exactly the runs active in both |
| DigestCost.InsideAdds | src/channel-metrics.ts:56-62 | execution time inside adjacent windows adds up although the end of an executing run is the window's |
| ChannelMetrics.OverlapOfDistinct | src/channel-metrics.ts:169-178 | the coordinate-compressed sweep equals the pointwise count of busy instants over any window that contains the spans |
| ChannelMetrics.ParallelTime | src/channel-metrics.ts:114-122 | clipping and sweeping gives exactly the number of instants of the window covered by at least the minimum of distinct agents, hence at most the window |
| ChannelMetrics.MeasureCountsInstants | src/channel-metrics.ts:168-178 | the pointwise measure is the cardinality of the set of busy instants |
| ChannelMetrics.MeasureSplits | src/channel-metrics.ts:168-178 | the measure is additive over adjacent windows |
| ChannelMetrics.NeighboursAreConstant | src/channel-metrics.ts:172-175 | between two neighbouring endpoints the covering agents are those whose span contains the whole interval |
| ChannelMetrics.ClipKeepsTheWindow | src/channel-metrics.ts:118-120 | clipping changes nobody's presence inside the window |
| ChangeAudit.VerifyChain | src/change-audit.ts:40-52 | the loop accepts exactly the valid chains with the expected head |
| ChangeAudit.ValidChainMeans | src/change-audit.ts:40-52 | the chain is valid exactly when every entry carries its own hash and its predecessor's and no two have the same id |
| ChangeAudit.AppendKeepsChain | src/change-audit.ts:67-73 | an appended entry keeps the chain valid |
| ChangeAudit.EqualHeadsMeanEqualChains | src/change-audit.ts:39-52 | two valid chains with equal heads are equal or exhibit a hash collision |
| ChangeAudit.AppendReplays | src/change-audit.ts:67-73 | replaying an extended log applies the new entry, and continuity is kept |
| Brain.GovernedBrain.RecordChange | src/brain.ts:304-309 | exactly one entry is appended, chained to the head, hashed, about the claim the snapshots hold, a creation exactly without an earlier snapshot and a deletion exactly without a later one; a valid chain stays valid |
| Brain.GovernedBrain.AddClaim | src/brain.ts:100-113 | the stored claim and its create entry, or a refusal that changes nothing |
| Brain.GovernedBrain.RetractClaim | src/brain.ts:189-198 | the retracted claim and its update entry, or a refusal |
| Brain.GovernedBrain.ReplaceClaims | src/brain.ts:51-85 | the named claims retracted, the new one stored, retractions recorded before the creation, or a refusal that changes nothing |
| Brain.GovernedBrain.ImportBundle | src/brain.ts:220-255 | the new claims of a bundle renumbered and recorded, known ones skipped, or the whole bundle refused |
| Brain.GovernedBrain.ById | src/brain.ts:230-231 | the index by id finds exactly the held claims |
| Brain.GovernedBrain.DeleteScope | src/brain.ts:256-263 | every claim of the scope recorded as deleted and removed with the scope's grants |
| Brain.GovernedBrain.RollbackChange | src/brain.ts:286-303 | the subject restored to the entry's earlier snapshot, with an entry that records both |
| BrainAdmission.AddedExactly | src/brain.ts:96-113 | a claim is added exactly for a caller that may write to its scope at its level |
| BrainAdmission.RetractedExactly | src/brain.ts:189-198 | a retraction is taken exactly when the scope has the claim and the caller may retract at its level; only one that may retract everything is told that a claim is missing |
| BrainAdmission.ReplacedExactly | src/brain.ts:51-84 | a replacement is taken exactly when the caller may write the new claim and retract each named one, all of them active in the scope |
| BrainAdmission.ImportedExactly | src/brain.ts:220-255 | a bundle is imported exactly by its owner with the right hash, when each claim lies in its scope, agrees with what is held or came earlier, and is writable when new |
| BrainAdmission.DeletedExactly | src/brain.ts:256-262 | a scope is deleted for its owner only |
| BrainAdmission.RolledBackExactly | src/brain.ts:286-304 | a rollback is taken exactly for a known entry with a snapshot, by the operator or the snapshot's owner |
| BrainRuns.LogAndStoreAgree | src/brain.ts:51-303 | after any sequence of operations from empty the chain verifies, every entry's earlier snapshot is what the log had, and the last snapshot per subject gives exactly the live claims |
| BrainRuns.RollbackRestoresOneSubject | src/brain.ts:286-303 | a rollback restores its subject to the state before the entry and touches no other claim |
| BrainRuns.ImportIsIdempotent | src/brain.ts:216-255 | importing an accepted bundle again adds nothing and records nothing |
| BrainRuns.ReplaceRetractsExactly | src/brain.ts:51-85 | a replacement deactivates exactly the named active claims of the scope with nothing else of them changed, keeps every other claim, and stores one new active claim |
| BrainRuns.ReplacedWereActive | src/brain.ts:59-64 | every named claim was active in the scope and could be retracted by the caller |
| BrainRuns.SortMeans | src/brain.ts:300-300 | the restored history is a version-ordered rearrangement of the same claims |
| BrainEffects.AdditionStoresTheInput | src/brain.ts:100-112 | a stored claim is the last of its scope, active, with the text given and the next version; one entry records it and nothing else changes |
| BrainEffects.RetractionDeactivatesOne | src/brain.ts:189-198 | a retraction deactivates the first claim of that id in the scope, keeps the rest of it and every other claim, and records the active claim before and the inactive one after |
| BrainEffects.ReplacementDeactivatesTheNamed | src/brain.ts:58-72 | each claim of the scope that is named and active is deactivated in place with nothing else of it changed; every other stays |
| BrainEffects.ReplacementStoresTheInput | src/brain.ts:73-75 | the new claim is the last of its own scope, active and numbered next; the other scopes and the grants stay |
| BrainEffects.ReplacementIsRecorded | src/brain.ts:76-83 | the last entry about a named claim goes from the active claim to the inactive one |
| BrainEffects.ImportAppendsTheUnknown | src/brain.ts:236-252 | an import appends to the scope, renumbered, the first bundle claim of every id that was not held, and changes nothing else |
| BrainEffects.ImportIsRecorded | src/brain.ts:251-251 | each appended claim has its create entry, in order, and there are no other entries |
| BrainEffects.ImportHoldsTheBundle | src/brain.ts:237-249 | after an accepted import every claim of the bundle is held, apart from version and update time, and was in the declared scope |
| BrainEffects.DeletionTakesTheScope | src/brain.ts:256-264 | deleting a scope takes its claims, each with an entry, and exactly its owner's grants for it |
| BrainEffects.RollbackIsRecorded | src/brain.ts:286-302 | a rollback is one entry ending where the undone one began; the restored scope comes out in version order and a scope without the subject stays |
| BrainAuthority.ClaimsOnlyLoseActivity | src/brain.ts:66-72 | over every run a held claim keeps its content, level, version and place and once inactive stays so, unless its scope is deleted or an entry about it is rolled back |
| BrainAuthority.PermittedMeans | src/brain.ts:327-333 | in their own tenant, the owner, or the subject of a grant for the scope, action and level that is not revoked and not over |
| BrainAuthority.EveryEntryWasAuthorized | src/brain.ts:304-309 | every entry a run adds was written by one of its steps, whose principal could do what the entry records with the grants of that moment |
| Triggers.FileCollaborationTriggerStore.LatestActive | src/collaboration-triggers.ts:187-188 | the loop finds the active decision of the policy and scope that started last |
| Triggers.FileCollaborationTriggerStore.Claim | src/collaboration-triggers.ts:176-194 | an existing decision, a refusal by policy or cooldown, or one new decision |
| Triggers.FileCollaborationTriggerStore.ReconcileDecision | src/collaboration-triggers.ts:335-354 | the reconciled decision, or the error that leaves it as it was |
| Triggers.CreatedAtMostOnce | src/collaboration-triggers.ts:394-437 | over every interleaving of evaluations, crashes, replays and reconciliations there is one decision per policy and event, at most one creation for it, and none past the depth limit |
| TriggerEffects.JudgedByTheLatest | src/collaboration-triggers.ts:187-188 | a claim is judged by the active decision of its policy and scope that started last, the earliest stored of them, and by none exactly when there is none |
| Triggers.AdmissionRespectsCooldown | src/collaboration-triggers.ts:106-111 | an admitted decision, and its event, come at least the cooldown in force after every active decision of its policy |
| TriggerEffects.AdmittedExactly | src/collaboration-triggers.ts:176-194 | a guarded claim of a new policy and event is admitted exactly when the policy still stands and it has no cooldown or the event and the clock lie that long after every active decision of it |
| TriggerEffects.MatchesExactly | src/collaboration-triggers.ts:441-450 | a policy matches exactly the events of its types and sources, at least as risky as it asks, within its confidence and diversity, and that allow all of its participants |
| TriggerEffects.EveryDecisionGoesItsWay | src/collaboration-triggers.ts:335-437 | in every step of every interleaving each decision does what it would do on its own under outcomes and reconciliations |
| TriggerEffects.EvaluationGoesOn | src/collaboration-triggers.ts:402-435 | an admitted evaluation creates its resource once unless its source is too deep, records it, and then dispatches it when the policy says so |
| TriggerEffects.EveryDecisionWasAsked | src/collaboration-triggers.ts:394-412 | over every interleaving each decision was delivered for: an event its policy matched, of its owner, one level below the source |
| Triggers.PreviousIsLatest | src/collaboration-triggers.ts:187-188 | no active decision of the policy started after the one the cooldown is judged by |
| TriggerSpacing.ActiveDecisionsStayApart | src/collaboration-triggers.ts:394-437 | every careful run keeps each decision apart from every earlier active one of its policy by the cooldown it was admitted under; careful means that no decision is reconciled as failed while a call may still write that it is triggered, unless a settled decision of its policy started no earlier |
| TriggerSpacing.SpacingSurvivesIff | src/collaboration-triggers.ts:335-419 | after a careful run a step leaves every careful continuation spaced if and only if it is careful itself; a careless one has a continuation that ends with two active decisions closer than the cooldown, whichever cooldown is in force |
| TriggerSpacing.LateWriteResurrects | src/collaboration-triggers.ts:419-419 | a concrete careless run for every policy with a cooldown and every two events closer than it: the late write makes a failed decision active again |
| TaskBoard.DecisionFrom | src/channel-board.ts:282-289 | the guard's loop folds the actions of one card |
| TaskBoard.ProjectDecisions | src/channel-task-action.ts:280-291 | the board's loop folds all cards at once |
| TaskBoardFold.HolderIsTheLastGiven | src/channel-task-action.ts:208-243 | somebody holds a card exactly when an assignment, a transfer or a claim of it free or theirs gave it to them and no later event ended their hold; it is free exactly when each of those was followed by a refusal or release |
| TaskBoardFold.FieldsAreTheLastWord | src/channel-task-action.ts:208-275 | cancelled, its reason, released, handed up, accepted, the accepted run, revision, blocked note, proposer, its reason, adopted and offer are each what the last event about them says, and the initial value when none does |
| TaskBoardFold.LastWordIsUnique | src/channel-task-action.ts:208-275 | the last word of a log about a field is one value |
| TaskBoardFold.LinesAreItsEvents | src/channel-task-action.ts:274-274 | the lines of a card are the texts of its events in order, leaving out those that lack the agent they need |
| TaskBoardFold.ConflictsAreTheContests | src/channel-task-action.ts:210-215 | the conflicts of a card are the claims that met another holder, in order |
| TaskBoard.ProjectionIsTheGuardsFold | src/channel-task-action.ts:277-291 | for every card the board's projection is the guard's own fold |
| TaskBoard.TaskKeyIsInjective | src/channel-task-action.ts:277-277 | keys of different cards differ |
| TaskBoard.ChannelBoard.Write | src/channel-board.ts:192-251 | every refusal in the order of the checks: missing agent or reason, a room that takes no writes, a key used for another action, membership, the card, its run, the load, the guard, and what changed under the lock; a repeated write appends nothing, a refused one neither, any other is appended |
| TaskBoardGuard.VerdictMeans | src/channel-board.ts:292-333 | the guard passes an action exactly when the card is not handed up and is what the action needs: free, blocked, cancelled, proposed, offered to this receiver and so on |
| TaskBoardGuard.RefusalsAreTruthful | src/channel-board.ts:292-333 | each refusal says something that is so of the card, down to the holder or receiver it names |
| TaskBoardGuard.NotTwiceInARow | src/channel-board.ts:292-333 | claiming, accepting a run, unblocking, restoring, cancelling, proposing, adopting, offering, declining and handing up are refused right after themselves |
| TaskBoardGuard.AnswersPass | src/channel-board.ts:292-333 | what undoes or answers an action passes right after it: unblock after block, restore after cancel, adopt after propose on a standing card, decline or the receiver's transfer after an offer, a claim after a return |
| TaskBoardGuard.WrittenExactly | src/channel-board.ts:192-251 | a write under a new key is stored, last in the log, exactly when it is complete, the room takes writes, its surroundings allow it and the guard passes it |
| TaskBoardGuard.RepeatedExactly | src/channel-board.ts:198-203 | a write under a used key stores nothing and is not refused exactly when the first event of the key was the same write in the same context |
| TaskBoard.EveryRunIsGuarded | src/channel-board.ts:192-251 | every write of a run passed the guard if and only if the guard would have allowed every owner-written text action when it was posted |
| TaskBoard.EveryRunIsSound | src/channel-board.ts:192-251 | in every run each write that is not a text passed the guard, and texts act only in the ways a text can |
| TaskBoard.TextsPassTheGuard | src/channel-task-action.ts:161-200 | a text is folded without the guard: a claim of a held card is a conflict, a transfer goes past an open offer, and a handed-up card is written to |
| TaskBoard.TwoTextsConflict | src/channel-task-action.ts:163-200 | two texts from an empty room give a claim conflict, and one text follows a hand-up |
| TaskBoard.NoClaimConflicts | src/channel-board.ts:295-298 | no decision of a guarded log has a claim conflict |
| TaskBoard.NoConflictsIff | src/channel-task-action.ts:210-215 | in any log a card is free of conflicts exactly when every claim met a free card or one its claimer held |
| TaskBoard.ClaimsAlternate | src/channel-board.ts:295-298 | between two claims of a card someone refused or released it |
| TaskBoard.OffersAlternate | src/channel-board.ts:319-323 | between two offers of a card an action closed the first, texts or not |
| TaskBoard.OpenOfferBinds | src/channel-board.ts:324-329 | in a guarded log only its recipient can receive a transfer while an offer is open, and only then can it be declined |
| TaskBoard.OpenOfferHasItsMark | src/channel-board.ts:319-323 | an open offer is the last offer event, and nothing closed it since, texts or not |
| TaskBoard.NothingAfterHandUp | src/channel-board.ts:293-293 | in a guarded log no write follows a hand-up of that card |
| TaskBoard.ProposedAndAdoptedOnce | src/channel-board.ts:311-318 | a card is proposed at most once, adopted at most once, and only after its proposal, texts or not |
| TaskBoard.AcceptancesNameNewRuns | src/channel-board.ts:238-244 | two successive acceptances of a card never name the same run, texts or not |
| Handoff.HandoffsAreBounded | src/bot-team.ts:238-294 | across crashes and resumes two Bots say at most the allowed number of things about an offer in their side thread, the receiver first and then in turns, and a handoff transfers only to the one it was offered to, whose acceptance is the last thing said about the offer anywhere |
| Handoff.OneThreadBoundsTheOffer | src/bot-team.ts:250-258 | when every resume finds the same giver and side room, the whole offer takes at most the allowed turns |
| Handoff.OfferIsBoundedIff | src/bot-team.ts:254-258 | a talk under way keeps the whole offer within the allowed turns, however it goes on, if and only if nothing was said about the offer in another thread |
| Handoff.AnotherHolderStartsOver | src/bot-team.ts:252-256 | a run in which the holder releases the card after a crash and another one claims it: the turns start over, up to twice the allowed ones |
| Handoff.ArchivedRoomStartsOver | src/bot-team.ts:444-455 | an archived side room makes the turns start over, and then nothing bounds the whole offer |
| Handoff.UndisturbedTalkClosesIff | src/bot-team.ts:238-316 | a talk nobody disturbs that came to its end closed its offer by exactly one transfer or decline, after which the card is the receiver's or stays with its holder, if and only if the card was not handed up and the board took an outcome; otherwise it left the offer open |
| Handoff.TalkClosesIffReceiverIsPresent | src/bot-team.ts:284-315 | with the room and the card standing still it closes if and only if the receiver is AEEIS or an active member when the outcome is written |
| Handoff.DepartedReceiverKeepsTheOffer | src/bot-team.ts:297-308 | a receiver who accepted and left: neither the transfer nor the decline meant to replace it is taken, and nothing is written |
| Handoff.OpenOfferIsTheMark | src/bot-team.ts:247-249 | the offer a resumed talk is about is the open one |
| HandoffEffects.TurnMeans | src/bot-team.ts:282-292 | a turn ends the talk in two cases: the receiver takes the card or turns it down, or the giver takes the offer back; whatever else is chosen continues it |
| HandoffEffects.ResumeMeans | src/bot-team.ts:238-258 | a talk starts exactly when none runs and an open offer is there, about that offer, with its receiver, its giver, their room and what was said there |
| HandoffEffects.RefusalEndsAsDecline | src/bot-team.ts:286-291 | the receiver's decline and the giver's withdrawal end as a decline that closes the offer and leaves the card with its holder |
| HandoffEffects.AcceptanceTransfers | src/bot-team.ts:297-300 | the receiver's acceptance transfers the card to it when it has time |
| HandoffEffects.AcceptanceWithoutTimeDeclines | src/bot-team.ts:301-307 | an acceptance the board does not take becomes a decline |
| HandoffEffects.EscalationBlocks | src/bot-team.ts:314-318 | when nobody decides the offer is declined and the card blocked for a person |
| HandoffEffects.DeclinedAndBlocked | src/bot-team.ts:314-318 | which leaves no offer open and the card blocked with its holder |
| Outbox.FileProjectionOutbox.Enqueue | src/collaboration-projection.ts:80-93 | one event per key, channel and owner |
| Outbox.FileProjectionOutbox.BeginDelivery | src/collaboration-projection.ts:96-109 | an attempt is counted only for a pending or failed event with none in flight |
| Outbox.FileProjectionOutbox.EndDelivery | src/collaboration-projection.ts:110-125 | the outcome of the sink is stored |
| Outbox.FileProjectionOutbox.Reconcile | src/collaboration-projection.ts:136-147 | only an unknown event is resolved |
| Outbox.SettledEventsAreNotResent | src/collaboration-projection.ts:96-147 | over every run with crashes a delivered event never reaches the sink again, and an unknown one neither changes nor is sent until it is reconciled |
| Outbox.EnqueueIsIdempotent | src/collaboration-projection.ts:84-86 | once an event was enqueued, enqueueing its key again adds nothing in any later state of any run |
| OutboxEffects.EveryItemGoesItsWay | src/collaboration-projection.ts:103-147 | in every step each event does what it would do on its own: an accepted delivery is delivered, an ambiguous one unknown, a refused one failed, and an unknown one moves only by a reconciliation with a reason |
| OutboxEffects.EnqueuedExactly | src/collaboration-projection.ts:80-95 | an event joins, pending and never tried, exactly when its payload is small enough and its key is new |
| OutboxEffects.CalledExactly | src/collaboration-projection.ts:96-110 | the sink is called exactly when an event that may be sent and is not in flight begins |
| OutboxEffects.AttemptsAreCalls | src/collaboration-projection.ts:103-110 | over every run with crashes the attempts of an event are exactly the calls of the sink for it |
| OutboxEffects.OneEventPerKey | src/collaboration-projection.ts:84-93 | over every run no two events share key, channel, owner and tenant |
| Conversations.VisibleConversationMessages | src/conversations.ts:94-104 | the loop computes the visible messages |
| Conversations.VisibleIsIdempotent | src/conversations.ts:93-104 | folding the visible messages again changes nothing |
| Conversations.VisibleShowsTheLatest | src/conversations.ts:94-104 | every original message is visible with the text of its latest revision |
| Conversations.VisibleAreTheOriginals | src/conversations.ts:94-104 | what is visible is the messages that revise no other, in their order |
| Conversations.VisibleShowsExactly | src/conversations.ts:94-104 | every original message is visible untouched, or with the text and origin of the last message that points at it, which a retraction replaces by a notice |

## Left out

- PostgreSQL variants, migrations, advisory locks, row-level security: the file and in-memory logic is modelled as atomic steps.
- File locks, temporary files, fsync and index files: a crash loses what was not yet stored.
- The global budget ledger and the recovered-reservation branches that depend on it: competitions and debates are modelled without it.
- Schema validation beyond the shape rules of gaps, score decoding and required agents or reasons: string lengths, score ranges and identifier patterns are assumed checked.
- Floating-point rounding: money is a real number; token overflow past the largest safe integer is modelled in the budget check.
- The in-process `runCompetition` of src/collaboration.ts, evaluation views, listing and paging: single-pass filters around the same selection rule.
- Timestamps, reasons, failure texts, audit events of reads and input hashes that no decision depends on.
- The order in which gaps are listed: the ledger is a map by gap id.
- HTTP, signatures, OAuth, card resolution, response validation and the gateway's in-memory outcome cache: the cache only answers some calls without touching ledger or transport.
- Decoding bytes to text and parsing a frame: chunks are text and the parser is a parameter.
- Entries of ledger versions without a receipt: their fallback receipt is modelled, the run theorems start from ledgers where settled entries have one.
- Board columns and how loads, card versions and memberships are computed: what a write reads of them is a parameter of the write.
- Reading an action out of a text: a text step carries the action that is read.
- Edits of claims outside the modelled operations, restored audit events, semantic and lexical search, and exports: they change neither claims nor the change log.
- Issuing and revoking Brain grants: grants change arbitrarily between operations.
- Random identifiers never repeat: claim ids are fresh, change entries, room events and digests are numbered by position, and the digest of policy and event stands for the pair.
- Clients never use the idempotency-key prefixes that digests and handoffs reserve for themselves: the HTTP schemas accept any key, so this is an assumption about clients, not a check of the program.
- Prompt text, display lines, cards, notifications and metrics presentation.
- Task order and quantiles: one sort each.
- DebateService.DebateAggregate.Reserve: the read before the reservation is not modelled, because the reservation repeats its checks.
- Orchestrator.Run: appends by others during the run and moderator reviews are not modelled.
- Handoff.UndisturbedTalkClosesIff: says nothing about a talk whose card others change meanwhile; an acceptance lost in a crash is talked about again.
- DigestCost.ChannelDigestCost: the median cycle time is left out, and money is exact where the program rounds it to four decimals.
- TaskBoard.ChannelBoard.Write: the room lookup, names and the rereading of the board around a write are left out; the context a repeated write names is compared outside the model.
