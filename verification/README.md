# Verified model of the durable core

Five components of the repository keep promises across crashes, retries and competing callers. This project
models them and proves those promises.

- **Trusted interactions** (`Interaction*.dfy`, `TrustedEvidence.dfy`, `PilotConfirmation.dfy`). `InteractionModels` holds the records,
  `InteractionStore` the two transactions, `InteractionDecisions` what each operation decides from what it read,
  `InteractionRuns` the machine: any number of calls advance one database read, one transaction or one port call
  at a time, and a crash may remove a call between any two. `InteractionAggregates` proves that every commit an
  operation can build keeps one interaction sound; `InteractionProtocol` and `InteractionSafety` lift that to every
  step and run; `InteractionTheorems`, `InteractionConsent`, `TrustedEvidence` and `InteractionRetries` hold the
  results, `InteractionAnswers` what each operation answers and stores when nobody disturbs it, `PilotConfirmation` what the pilot's checks are worth when its commit wins, and
  `InteractionCounterexamples` a run that shows what is not promised. `InteractionTables` holds the repository as a
  class over its tables, with the proof that a transaction on the tables is the transaction on interactions.
- **Inbox resolution** (`Inbox*.dfy`). The two tables and their three transactions as a class, the saga as a
  machine of competing calls, target stores and crashes, its invariant, what a lone retry achieves while the
  clock goes on, and runs that show what is not promised of reminders; the service's `_resolve` is a method proved to be the machine's lone run.
- **Daily Review** (`DailyReview*.dfy`). The page walker over arbitrary, also unstable, sources; the day under
  review and the inquiry of the five sources; and selection, sorting, paging and sectioning of the facts.
- **Evidence issuer** (`IssuerJournal.dfy`, `IssuerKeyFiles.dfy`). Length-prefixed identities, the issuance journal,
  key rotation and projection to the verifier, with crashes between any two file writes.
- **Chunkers** (`Chunking.dfy`). The two window loops, and the recursive splitter.

`Basics` and `Texts` hold what the components share.

Conventions. Instants are integers. A digest is the payload it is computed from, so equal digests mean equal
payloads; a signature is the pair of its key and its content. Ids that are drawn are new, and so is the evidence id
the commit authority returns. Clock readings, drawn ids and the answers of the read-only ports are inputs of the
step that commits with them. Target stores never delete, and a reminder is found by its idempotency key.

Five promises hold only under a condition, which is proved to be the exact one:

- A Preview that asks for neither confirmation nor approval is executed however late
  (`InteractionTheorems.GateHonoursExpiry`, with a run in `InteractionCounterexamples.LateExecution`).
- A fact id that already belongs to another interaction takes that interaction's fact away
  (`InteractionTables.OthersUntouchedIffOwnIds`, with an input in `EvidenceChangesHands`), so the evidence id a
  commit authority returns has to be new.
- A reminder is adopted by its intent, not by a mark of the item (`InboxRecovery.ReminderAdoptedByIntent`, with a
  run in `InboxCounterexamples.OthersReminderIsAdopted`); and a reminder the saga made but did not record stands in
  the way of its own item's retry when that asks for another intent (`InboxRecovery.OwnTargetIsTakenBack`, with a
  run in `InboxCounterexamples.OwnReminderInTheWay`).
- A review is rejected by its own model exactly when its day is empty (`DailyReviews.ReviewIsValid`), as a day that
  the calendar of its time zone skips is (`DailyReviewService.YesterdayWasSkipped`).
- A window at most as large as the overlap never gets to the end of a longer text (`Chunking.WindowsStuckIff`); the
  recursive splitter ends exactly when the overlap is below the size or every piece its separators leave fits a
  window (`Chunking.SplitterStuckIff`, with an input in `ThreeCharactersHoldItUp`).

The pilot's check that no newer challenge exists is true only when it is made
(`PilotConfirmation.NewestIsMomentary`); all its checks on stored data still hold at the commit. And evidence issued
after a crash in the middle of a rotation and a plain restart does not verify until the key is projected
(`IssuerJournal.UnprojectedKeyIssues`, `VerifiesIffProjected`).

## Model

| member | source | states |
|---|---|---|
| InteractionTheorems.ExecutedAtMostOnce | core/interaction/service.py:653-785 | In every reachable world no two calls of the execution port are for the same interaction, over all callers, retries, recoveries and crashes. |
| InteractionTheorems.OnlyExecuteReachesThePort | core/interaction/service.py:1004-1051 | The only step that reaches the port is an execute request past a won gate; verify and recover never execute. |
| InteractionTheorems.ExecutedWithConsent | core/interaction/service.py:670-719 | Every port call carried the parameters of the current Preview; a required Confirmation or Approval exists for exactly that Preview and revision, was unexpired when the gate read the clock, and expires no later than the Preview. |
| InteractionTheorems.GateHonoursExpiry | core/interaction/service.py:681-692 | The gate refuses every start after the Preview's expiry if and only if the Preview requires a confirmation or an approval. |
| InteractionCounterexamples.LateExecution | core/interaction/service.py:681-720 | For every plan that requires neither and every time: a run from the empty store in which the Preview, made at 0 and expired after its ttl, is executed at that time; the port call is in the log. |
| InteractionTheorems.SuccessIsProven | core/interaction/service.py:842-906 | Every reachable SUCCEEDED interaction has a stored result with a digest for its own execution and stored commit evidence for its interaction, execution, Preview, scope and policy, COMMITTED with object and revision when the Preview requires it and NOT_REQUIRED otherwise. |
| InteractionTheorems.FailedMeansRejected | core/interaction/service.py:742-775 | In every reachable world an interaction is FAILED if and only if its stored Execution is REJECTED or FAILED; until it succeeds, record and stored Execution tell the same status. |
| InteractionTheorems.CancelExcludesExecution | core/interaction/service.py:584-613 | No interaction that is CANCELLED or EXPIRED ever had the port called, and no caller stands before calling it. |
| InteractionTheorems.RunAdvances | core/interaction/service.py:626-651 | Over every run terminal interactions never change, no lifecycle rank falls, no fact vanishes or changes its content, and no answered key changes its digest or interaction. |
| InteractionTheorems.AuditTrailIsAPath | core/interaction/service.py:144-173 | In insertion order the audit rows form one connected path from REQUESTED to the stored state, and the revision is the number of committed transactions of the interaction. |
| InteractionTheorems.PreviewsAreNumbered | core/interaction/service.py:294-329 | Preview revisions are exactly 1 to n, without repetition, the current Preview has n, and only it can be ACTIVE. |
| InteractionTheorems.ReferencesResolve | core/interaction/service.py:744-775 | Every fact id on a record resolves to a stored fact of its type, and RECOVERY_REQUIRED holds exactly when a PENDING Recovery is referenced. |
| InteractionTheorems.OffersPassTheirGuards | core/interaction/service.py:1145-1171 | Every mutating operation the view offers passes that operation's guard at the viewed revision. |
| InteractionTheorems.OffersMatchTheFacts | core/interaction/service.py:1154-1160 | An offered confirm finds an ACTIVE current Preview, an offered approve a confirmed one that requires approval, an offered recover a stored Recovery and Execution. |
| InteractionTheorems.OffersAreWhatIsAwaited | core/interaction/service.py:1145-1171 | Each operation is offered if and only if the lifecycle waits for it, told on state and facts: confirm for an ACTIVE Preview awaiting confirmation, approve for a confirmed one that requires approval, recover for a pending Recovery, and so on. |
| InteractionTheorems.FirstAnswerIsStored | core/interaction/service.py:365-367 | The fact id a winning caller is given is the one its idempotency row names for every repetition. |
| InteractionTheorems.RepetitionIsAnswered | core/interaction/service.py:385-389 | A repeated preview, confirm or approve finds the stored snapshot and the fact it names: the assertion holds. |
| InteractionTheorems.RepetitionIsRecalled | core/interaction/service.py:581-583 | After any run the other operations answer a repetition from the stored row; cancel and expire with the snapshot stored first. |
| InteractionTheorems.OtherPayloadIsRefused | core/interaction/repository.py:340-349 | After any run another payload under a used key is refused at the lookup, and at the commit of a caller that looked earlier. |
| InteractionTheorems.SameAnswerForever | core/interaction/service.py:175-194 | After any run the same request is answered with the fact id the first caller got. |
| InteractionTheorems.OneCommitPerKey | core/interaction/repository.py:322-358 | No key commits twice, except an execution's key, which commits its gate and its observation at consecutive revisions. |
| InteractionTheorems.KeysTellRequests | core/interaction/service.py:175-194 | Two requests share an idempotency key if and only if workspace, operation and key agree; a reconciliation is kept under the recovery's key with its own ending. |
| InteractionTheorems.DigestsTellPayloads | core/interaction/service.py:262-458 | Under one key two digests agree if and only if the payloads do, told field by field for each operation. |
| InteractionTheorems.AssertionsNeverFail | core/interaction/service.py:456-462 | In no reachable world did a caller trip the internal assertion that a replayed fact exists. |
| InteractionSafety.StepKeeps | core/interaction/service.py:1188-1202 | Every enabled step of any caller keeps the whole invariant of store, calls, port log and history. |
| InteractionSafety.RunKeeps | core/interaction/service.py:1188-1202 | Every run keeps the invariant. |
| InteractionSafety.ReachableOk | core/interaction/service.py:196-249 | Every world reachable from the empty store satisfies the invariant. |
| InteractionSafety.GateConsents | core/interaction/service.py:670-719 | The port call the gate prepares carries the current Preview's parameters and rests on its own, unexpired consents. |
| InteractionSafety.AttemptIsFree | core/interaction/service.py:700-713 | An interaction without an execution has no port call behind it and no caller in front of one. |
| InteractionSafety.WinnerKeeps | core/interaction/repository.py:227-239 | A commit that wins the compare-and-swap keeps the store, the other calls and the history sound. |
| InteractionAggregates.StageKeeps | core/interaction/service.py:251-985 | Whatever commit any operation builds from what it read keeps the interaction's numbering, consents, execution, recovery and proof invariants; what each operation answers is stated by the lemmas of `InteractionAnswers`. |
| InteractionAggregates.ProvingBuilds | core/interaction/service.py:811-939 | Either commit of verification keeps execution, recovery and proof in order: SUCCEEDED with result and matching evidence and no pending Recovery, or RECOVERY_REQUIRED with a pending one. |
| InteractionAggregates.PreviewingBuilds | core/interaction/service.py:294-366 | A new Preview takes the next revision number, and the one before is no longer ACTIVE. |
| InteractionAggregates.PreviewingBinds | core/interaction/service.py:316-329 | After a new Preview the only consents on record are for that Preview. |
| InteractionAggregates.ObservingBuilds | core/interaction/service.py:738-783 | Whatever the port answers, the commit keeps state, execution, recovery and proof in agreement, FAILED exactly for a rejected or failed execution, and continues the audit path. |
| InteractionAggregates.ReconcilingTracks | core/interaction/service.py:1053-1117 | Reconciling an attempt without outcome leaves RECOVERY_REQUIRED with a pending Recovery, and the execution on record. |
| InteractionConsent.PreviewConfirmedOnce | core/interaction/service.py:394-439 | Over every run no two committed confirmations, by any callers and keys, are of the same Preview. |
| InteractionConsent.ConfirmingTurns | core/interaction/service.py:396-425 | A confirming commit finds its Preview ACTIVE and leaves it no longer ACTIVE. |
| InteractionConsent.ApprovalRestsOnAuthority | core/interaction/service.py:463-572 | A committed Approval is of the current, confirmed Preview that asks for one, and rests on unexpired authority evidence for exactly its interaction, Preview, scope, approver, role and policy, which it does not outlive. |
| InteractionRetries.VerificationConcludes | core/interaction/service.py:787-941 | An undisturbed verification commits, without a port call: to SUCCEEDED exactly when the verifier answered VERIFIED with a digest and, where the Preview requires a commit, the authority's evidence names this interaction, execution, Preview, scope and policy and is COMMITTED with object, revision and digest; else to RECOVERY_REQUIRED. |
| InteractionRetries.RecoveryResumes | core/interaction/service.py:1023-1051 | In the situation that reconciling leaves, which lasts while the recovery's key is unused: a retry with that key and its stale revision goes on at verification and commits, if recovery is still required. |
| InteractionRetries.RecoveryOvertaken | core/interaction/service.py:1034-1051 | In the same situation, if recovery is no longer required, the interaction has succeeded, and the retry is refused and changes nothing. |
| InteractionRetries.GapIsReconciled | core/interaction/service.py:1035-1042 | An undisturbed recovery of an open attempt reconciles it, leaves the reconciliation row under its own digest and interaction for a retry to find, keeps its key unused, and stands before verification at the new revision. |
| InteractionRetries.LostRecoveryIsFinished | core/interaction/service.py:1004-1051 | After such a reconciliation and any run whatever, the loss of the caller included, whoever sends the same request again with its original revision ends, undisturbed, in one of three ways: answered or refused from its used key, verified if recovery is still required, refused if the interaction has succeeded; never with a port call. |
| InteractionRetries.CreateHalfSettles | core/interaction/repository.py:360-390 | After the create half of the adapter's preview the key names one stored interaction at its first revision, and repeating it changes nothing. |
| InteractionRetries.AdapterRetryCompletes | applications/trusted_interaction_adapter/service.py:196-216 | After the create half the preview half gets a Preview exactly when its key was used by the same request, or is unused and the interaction is still at revision 1; else a key conflict or a revision conflict. |
| InteractionRetries.AdapterCallCompletes | applications/trusted_interaction_adapter/service.py:160-216 | One whole undisturbed adapter call from any world of the invariant: nothing happens for a plan without time, or when the create key stands for another request, which is refused; else it ends in a Preview exactly when this preview was made before, or its key is free and the interaction is new or unmoved since it was opened. |
| InteractionRetries.AdapterNamesOneInteraction | applications/trusted_interaction_adapter/service.py:180-200 | Over every run the create key names the same interaction. |
| InteractionRetries.CreatedOnceAndPreviewedOnce | applications/trusted_interaction_adapter/service.py:196-216 | A create key and a preview key each commit at most once, so any number of adapter calls open one interaction and store at most one Preview. |
| InteractionAnswers.OpenAnswers | core/interaction/service.py:196-249 | Under a new key an interaction is opened at revision 1, REQUESTED, with no facts and one audit row, and nothing else changes. |
| InteractionAnswers.PreviewAnswers | core/interaction/service.py:251-367 | Undisturbed, a preview is refused in the order actor, revision, state, ttl, or answered with the next Preview, whose every field, times and four audit rows are told; the one before is SUPERSEDED. |
| InteractionAnswers.ConfirmAnswers | core/interaction/service.py:369-439 | Undisturbed, a confirm is refused in the source's order, or answered with a Confirmation that lasts exactly as long as asked but not longer than the Preview, and exactly the named evidence and challenge are used up. |
| InteractionAnswers.ApproveAnswers | core/interaction/service.py:441-572 | Undisturbed, an approve is refused in the source's order, or answered with an Approval that lasts exactly as long as asked, the Preview and the authority's evidence allow. |
| InteractionAnswers.CancelAnswers | core/interaction/service.py:574-613 | Undisturbed, a cancel at the stored revision answers CANCELLED if and only if the interaction is neither terminal nor attempted, and takes an ACTIVE Preview out of use. |
| InteractionAnswers.ExpireAnswers | core/interaction/service.py:615-651 | Undisturbed, an expire of an interaction with a Preview answers EXPIRED, with the Preview expired, if and only if the clock reading is at or after the Preview's expiry; else preview_not_expired, and nothing changes. |
| InteractionAnswers.ExecuteAnswers | core/interaction/service.py:653-785 | Undisturbed, an execution is refused exactly for a stale revision, another state or an expired consent; else the port is called once, and the interaction is FAILED for REJECTED or FAILED, RECOVERY_REQUIRED for UNCERTAIN or a port that raised, and VERIFYING for every other answer, with status and reference on record. |
| InteractionAnswers.VerifyAnswers | core/interaction/service.py:787-941 | Undisturbed, a verify is refused exactly for a stale revision or another state; else the record, result, evidence and Recovery it leaves are told on the verifier's and the authority's answers. |
| InteractionAnswers.RecoverAnswers | core/interaction/service.py:1004-1117 | Undisturbed, a recover at the stored revision reconciles an open attempt to an uncertain one with a pending Recovery and then verifies; any other interaction it verifies or refuses as verify does. |
| InteractionAnswers.StaleRecoveryIsRefused | core/interaction/service.py:1023-1034 | A recover at a passed revision without its own reconciliation is refused, with a key conflict if the reconciliation's key stands for another payload. |
| InteractionAnswers.NothingIsFound | core/interaction/service.py:1179-1186 | A blank key and an interaction unknown in the workspace are refused, in this order. |
| TrustedEvidence.EvidenceSpentOnce | core/interaction/repository.py:189-226 | In every reachable world each evidence row and each challenge was spent at most once, both together, by a committed confirmation of the interaction and Preview they name, whose Confirmation is stored. |
| TrustedEvidence.CommitKeepsLedger | core/interaction/repository.py:190-226 | Spending counts exactly the rows' own consumption state across a commit. |
| TrustedEvidence.SpendingConfirms | applications/pilot_001_ingress_bridge/service.py:212-228 | A commit that spends evidence stores a Confirmation for the very Preview it is spent on. |
| TrustedEvidence.SpentByOne | core/interaction/repository.py:195-197 | Two commits that name one evidence row would be two spendings, which the ledger excludes. |
| TrustedEvidence.FailedAttemptSpendsNothing | core/interaction/repository.py:225-226 | A losing or failing attempt leaves evidence, challenge and interaction unchanged. |
| TrustedEvidence.ComesInUnused | core/interaction/repository.py:257-308 | Evidence and challenges come in unused and open under new ids, and change nothing under known ones. |
| PilotConfirmation.AcceptEvidence | applications/pilot_001_ingress_bridge/service.py:69-101 | Evidence is stored exactly when it is well formed, signed by a trusted key, of the configured bindings, and not known with another text; otherwise nothing changes. |
| PilotConfirmation.ChallengeFitsPreview | applications/pilot_001_ingress_bridge/service.py:125-138 | A challenge begins at the clock reading, or a microsecond after its Preview if that is later, and ends 300,000,000 microseconds after it began or with its Preview, whichever is sooner. |
| PilotConfirmation.TimelyMeansUnexpired | applications/pilot_001_ingress_bridge/service.py:188-210 | A challenge answered in time is answered before its Preview expires. |
| PilotConfirmation.OwnersAnswerPassesInTime | applications/pilot_001_ingress_bridge/service.py:143-210 | The owner's genuine, unused answer to the newest challenge passes all checks if and only if it came and was accepted after the Preview and five minutes of message and challenge and the Preview's time have not passed. |
| PilotConfirmation.OwnersAnswerConfirms | applications/pilot_001_ingress_bridge/service.py:211-228 | Such an answer, undisturbed, confirms the Preview. |
| PilotConfirmation.ChecksHoldAtCommit | applications/pilot_001_ingress_bridge/service.py:143-228 | Over any run between the reads and the commit: if the commit wins, every check made on stored data holds of what is stored then. |
| PilotConfirmation.ConfirmedByTheOwnersMessage | applications/pilot_001_ingress_bridge/service.py:188-228 | What a winning confirmation spends is a message from the configured owner, received and accepted after the Preview was made, whose text is the answer to the challenge it spends, both used up for exactly this Preview. |
| PilotConfirmation.NewestIsMomentary | core/interaction/repository.py:310-320 | A newer challenge put up before the commit leaves the commit as possible as before. |
| PilotConfirmation.RunPersists | core/interaction/repository.py:190-226 | Over every run evidence and challenges are never lost, evidence changes only with its revision, a challenge only by being answered. |
| InteractionTables.InteractionRepository.IdempotentResult | core/interaction/repository.py:129-143 | Absent, answered with the stored snapshot, or refused for another payload, exactly. |
| InteractionTables.InteractionRepository.Create | core/interaction/repository.py:145-175 | A new key inserts record, audit row and key together; a used one changes nothing and answers its first result or a conflict. |
| InteractionTables.InteractionRepository.Transition | core/interaction/repository.py:177-255 | Succeeds exactly when evidence, challenge, revision, workspace and key all match; then writes everything, else nothing. |
| InteractionTables.InteractionRepository.StoreEvidence | core/interaction/repository.py:257-282 | The first payload under an identity stays; only the same payload may repeat. |
| InteractionTables.InteractionRepository.StoreChallenge | core/interaction/repository.py:292-308 | A new challenge is added as active. |
| InteractionTables.AdmissibleAlike | core/interaction/repository.py:177-255 | A transition is accepted on the tables if and only if its commit is accepted on the interactions. |
| InteractionTables.TransitionRefines | core/interaction/repository.py:240-255 | With fact ids of its own a transition on the tables is the commit on interactions, and touches no other interaction. |
| InteractionTables.OthersUntouchedIffOwnIds | core/interaction/repository.py:240-250 | A transition leaves every other interaction's facts alone if and only if none of the fact ids it writes is theirs. |
| InteractionTables.EvidenceChangesHands | core/interaction/repository.py:240-250 | Two interactions and one evidence id: proving the second takes the fact away from the first, whose record still refers to it. |
| InteractionTables.CreateRefines | core/interaction/repository.py:145-175 | Creating on the tables opens an interaction without facts and with one audit row. |
| InteractionTables.ReferentialKept | core/interaction/repository.py:61-68 | A transition keeps every fact and audit row attached to a stored interaction. |
| InboxTheorems.OneTargetPerItem | core/inbox/service.py:290-470 | At most one external target is ever made for an item over all processes, kinds and crash points; it has the claim's kind and key. |
| InboxTheorems.SettledIffCompleted | core/inbox/repository.py:456-585 | An item is non-pending if and only if its claim is COMPLETED, and then has the claim's kind and target. |
| InboxTheorems.RowsPassTheirChecks | core/inbox/models.py:85-190 | In every reachable world every stored item and claim is, told field by field, well kept, and passes its model's validator. |
| InboxTheorems.ChecksAcceptWellKeptRows | core/inbox/models.py:85-190 | The validators accept exactly the well-kept rows. |
| InboxTheorems.SettledTargetIsTheItems | core/inbox/service.py:484-518 | The target of a resolved item exists under its id and, reminders aside, its metadata names this item and workspace; a waiting-for's also the item's source, a work log's the inbox. |
| InboxTheorems.ForeignTargetIsNeverAdopted | core/inbox/service.py:671-713 | If a record that holds the claim's id names another item, workspace or source than the kind's check asks for, then over every later run the claim stays CLAIMED, the item pending, and nothing is made. |
| InboxTheorems.RowsOnlyMoveForward | core/inbox/repository.py:381-596 | Over every run a claim keeps kind and key, its state only moves forward, and a settled item never changes. |
| InboxTheorems.EveryEndingIsExplained | core/inbox/service.py:360-455 | A call ends settled, with another's or a completed claim, refused by the target store, or without such an item; conflicts inside the saga and failing validators never reach a caller. |
| InboxTheorems.OvertakenChangesNothing | core/inbox/service.py:371-455 | Once another call has settled the item, no step of a call changes anything; where it stands decides whether it ends told of the claim or with success. |
| InboxTheorems.RecordedOnce | core/inbox/repository.py:404-428 | A target that was recorded meanwhile is the one the call was about to record, and the claim stays as it is. |
| InboxSafety.StepKeeps | core/inbox/service.py:290-470 | Every step of any call, of other callers of the target stores and of the clock keeps the invariant and moves no row backwards. |
| InboxSafety.RunKeeps | core/inbox/service.py:290-470 | Every run keeps the invariant and moves no row backwards. |
| InboxSafety.Inserted | core/inbox/service.py:494-508 | A target is made only where its item's claim points, and only if none was made for the item before. |
| InboxInvariant.ClaimKeeps | core/inbox/repository.py:281-361 | The claim transaction answers every caller of an existing item with the one stored claim and never fails a validator. |
| InboxInvariant.RecordKeeps | core/inbox/repository.py:381-454 | Recording a target keeps all rows sound, changes at most that item's claim, and never fails a validator. |
| InboxInvariant.CompleteKeeps | core/inbox/repository.py:456-596 | Completion settles item and claim together or changes nothing, and never fails a validator. |
| InboxRecovery.LoneRetryCompletes | core/inbox/service.py:302-470 | From any reachable state one undisturbed call with a working target store answers with the item settled by its kind if and only if no other kind claimed it, it is not completed with a kind other than work log or waiting-for, and no record without the item's own mark holds the target's place. |
| InboxRecovery.LoneRetryAnswers | core/inbox/service.py:290-470 | From any reachable state, for every request, reply of the target store and clock, the six steps of an undisturbed call leave exactly the rows, targets and answer of one closed description: refused, told of another or completed claim, a completed work log or waiting-for given back, or item and claim settled with the target made or taken. |
| InboxRecovery.OwnTargetIsTakenBack | core/inbox/service.py:509-557 | When the saga has made the item's target already, its own item's retry completes, with one exception, and exactly that: a reminder not yet recorded that was made for another intent. |
| InboxRecovery.ReminderAdoptedByIntent | core/inbox/service.py:542-557 | A reminder already under the key, of an unclaimed or merely CLAIMED item, becomes the item's target if and only if it was made for the same intent. |
| InboxCounterexamples.OthersReminderIsAdopted | core/inbox/service.py:542-557 | A run in which the saga makes no target and the item is resolved to a reminder made elsewhere. |
| InboxCounterexamples.OwnReminderInTheWay | core/inbox/service.py:542-557 | A run that is lost after making a reminder: a retry with the same intent settles the item, one with another intent does not. |
| InboxTables.InboxRepository.Save | core/inbox/repository.py:194-208 | An item is inserted exactly when its id is new. |
| InboxTables.InboxRepository.Get | core/inbox/repository.py:210-237 | The item, or whether it is missing or another workspace's. |
| InboxTables.InboxRepository.GetClaim | core/inbox/repository.py:363-379 | The claim, or whether it is missing or another workspace's. |
| InboxTables.InboxRepository.Claim | core/inbox/repository.py:281-361 | Rows and answer are those of the claim transaction that the saga proofs use. |
| InboxTables.InboxRepository.RecordTarget | core/inbox/repository.py:381-454 | Rows and answer are those of the recording transaction, including the check after the commit. |
| InboxTables.InboxRepository.Complete | core/inbox/repository.py:456-596 | Rows and answer are those of the completing transaction. |
| InboxResolution.InboxService.CreateTarget | core/inbox/service.py:484-518 | Target store and outcome are those of the saga's request step, for every reply of the store. |
| InboxResolution.InboxService.Resolve | core/inbox/service.py:290-470 | Undisturbed, with its three clock readings, the call leaves exactly the state and outcome of the saga machine driven alone. |
| DailyReviewPages.WalkPages | core/daily_review/service.py:689-731 | The walk ends for every source with an offset limit or a finite set of ids, with the outcome of the turn-by-turn walk; after at most two requests more than the limit, and, if ids are known, one more than there are signatures. |
| DailyReviewPages.StableListIsReturned | core/daily_review/service.py:664-731 | From a stable list with distinct ids the walk returns exactly that list, also where a full page is taken to mean more. |
| DailyReviewPages.WorkLogCapacity | core/daily_review/service.py:281-301 | The work-log walk returns a stable list if and only if it has at most 10,200 records, and otherwise fails. |
| DailyReviewPages.ReturnedIsAllThatWasShown | core/daily_review/service.py:703-722 | Whatever the source did, a returned result is all it showed, each page asked for where the last ended, within limit and size, promising more and not empty except the last, and no two non-empty pages alike. |
| DailyReviewPages.ReturnsIffWellShown | core/daily_review/service.py:700-731 | The walk returns if and only if the source shows such pages and then ends, and returns exactly what was shown. |
| DailyReviewPages.EndlessSource | core/daily_review/service.py:700-731 | Without a limit, a source that keeps inventing ids keeps the walk going. |
| DailyReviewPages.TurnUses | core/daily_review/service.py:710-731 | Every turn that goes on moves the offset and uses up one of the possible signatures. |
| DailyReviewModels.BeforeIsStrict | core/daily_review/service.py:829-847 | Key order is irreflexive, asymmetric and total. |
| DailyReviewModels.BeforeIsTransitive | core/daily_review/service.py:829-847 | Key order is transitive. |
| DailyReviewModels.SortKeyIdentifies | core/daily_review/service.py:837-847 | Facts with equal sort keys have the same identity. |
| DailyReviewModels.SortKeyOrders | core/daily_review/service.py:837-847 | The sort key puts one fact before another if and only if it stands before it by section, severity, presence and time of its instant, source, and id. |
| DailyReviewModels.SelectionKeyOrders | core/daily_review/service.py:829-835 | The selection key prefers one fact to another if and only if section, severity and reason do, in this order. |
| DailyReviewModels.HintsAreDecisions | core/daily_review/action_hints.py:193-216 | The hints of a fact are the decisions for its source, lowered status and reason, one by one and with its own fields. |
| DailyReviews.SelectedAreMinimal | core/daily_review/service.py:779-785 | Exactly one candidate per identity is selected, and none of its identity has a smaller selection key. |
| DailyReviews.FirstLeastStays | core/daily_review/service.py:780-785 | Among candidates with the least selection key the first to arrive is kept. |
| DailyReviews.OrderedIsOrdering | core/daily_review/service.py:787-788 | The ordered list holds every selected fact once, by strictly rising sort key. |
| DailyReviews.OrderedByItsFacts | core/daily_review/service.py:779-788 | The ordered list, told on the facts' own fields: one fact of each identity, none that another should have been kept for, each standing before those after it. |
| DailyReviews.RisingIsUnique | core/daily_review/service.py:787-788 | Two rising lists with the same facts are equal. |
| DailyReviews.OrderIndependentIffMinimalUnique | core/daily_review/service.py:779-788 | The ordered list is the same for every arrival order if and only if, for each identity, the candidates with the least selection key are one fact. |
| DailyReviews.ReviewIsValid | core/daily_review/models.py:111-202 | A review built from any facts passes its models' checks of sections, page, totals, instants, sources and period if and only if the period is not empty and every source has a status. |
| DailyReviews.PagesTile | core/daily_review/service.py:790-826 | Following has_more from any page boundary completes what lies before it to exactly the ordered list: no gap, no overlap. |
| DailyReviews.HintOrderIsSortOrder | core/daily_review/action_hints.py:218-234 | Reading the sections in action-hint order gives the page back in sort order. |
| DailyReviews.HintsFollowThePage | core/daily_review/action_hints.py:193-234 | The hints of a page are the hints of its facts in sort order. |
| DailyReviews.Finalize | core/daily_review/service.py:767-826 | The loops compute the review of the ordered list for the asked page; it is returned, and valid, exactly when the period is not empty and every source has a status. |
| DailyReviewService.Get | core/daily_review/service.py:141-272 | One failing source fails the review, and the first to fail in the order of inquiry is named; otherwise the review is of everything the enabled, configured sources gave, tells of all five whether they are off, missing or available, and is valid, unless the local day is empty. |
| DailyReviewService.YesterdayWasSkipped | core/daily_review/service.py:153-164 | A calendar that skips a day, and an instant after it: the review of today is valid, that of yesterday fails its checks whatever the facts. |
| IssuerJournal.FramedIsInjective | applications/pilot_001_ingress_bridge/crypto.py:48-50 | Length-prefixed framings of equally many fields are equal only for equal fields. |
| IssuerJournal.IdentityNamesOneMessage | applications/pilot_001_ingress_bridge/crypto.py:67-84 | Two evidence ids agree if and only if bindings and message id do. |
| IssuerJournal.IssuanceIsStable | applications/pilot_001_ingress_bridge/crypto.py:413-422 | After any restarts, rotations and crashes the same message gets the first envelope unchanged, from whichever key is asked, and another text is refused; neither changes the journal. |
| IssuerJournal.GrantedEnvelopeIsTheMessages | applications/pilot_001_ingress_bridge/crypto.py:381-454 | An issue is denied exactly for a blank id or an identity that stands for another text; else the envelope, journaled or new, names the message, expires 300,000,000 microseconds after it was first received, and is signed by the key it names; a new one is received now, by the key asked. |
| IssuerJournal.VerifiesIffProjected | applications/pilot_001_ingress_bridge/crypto.py:175-183 | A journaled envelope verifies if and only if its key was projected, and then over every later run. |
| IssuerJournal.JournalAlwaysVerifies | applications/pilot_001_ingress_bridge/crypto.py:280-363 | In every run whose plain starts find the active key projected, every journaled envelope verifies. |
| IssuerJournal.CrashBetweenActivationAndProjection | applications/pilot_001_ingress_bridge/crypto.py:357-363 | A run in which a crash leaves the new key active and not projected. |
| IssuerJournal.UnprojectedKeyIssues | applications/pilot_001_ingress_bridge/crypto.py:189-211 | From there a plain start issues evidence that does not verify. |
| IssuerJournal.StartsProject | applications/pilot_001_ingress_bridge/crypto.py:213-278 | A bootstrap, first or repeated, that is neither interrupted nor refused ends with the active key published, trusted and in use, and keeps the journal. |
| IssuerJournal.StepKeeps | applications/pilot_001_ingress_bridge/crypto.py:280-363 | Every file write, start, issue, refused projection and crash keeps rows signed and trusted keys published; keys, trust and journal only grow. |
| IssuerKeyFiles.IssuerKeys.Issue | applications/pilot_001_ingress_bridge/crypto.py:381-454 | Answer and journal are those of the protocol, and no journal row changes. |
| IssuerKeyFiles.IssuerKeys.ProjectVerifierMaterial | applications/pilot_001_ingress_bridge/crypto.py:280-339 | Refused exactly on foreign files or a conflicting content key, bindings or public key, then again on every retry and with trust unchanged; otherwise exactly this key is published, trusted and made active, and files that could be loaded, or none, can be loaded. |
| IssuerKeyFiles.IssuerKeys.RotateSigningKey | applications/pilot_001_ingress_bridge/crypto.py:341-363 | Undisturbed, it is the protocol's rotation in four writes, or, when the projection is refused, its first two, with the new key active and not trusted; the journal stays. |
| Chunking.FixedLength | core/knowledge/chunking.py:48-63 | The chunks are the windows of the text, numbered from 0, with their lengths. |
| Chunking.TokenWindow | core/knowledge/chunking.py:234-249 | The same windows: the two chunkers agree on every text, size and overlap. |
| Chunking.WindowIsBounded | core/knowledge/chunking.py:53-62 | Every window is non-empty and within the size, all but the last have the size, and each later one reaches past what it repeats. |
| Chunking.WindowsOverlap | core/knowledge/chunking.py:62 | Each window begins with the last overlap characters of the one before. |
| Chunking.WindowsRebuildTheText | core/knowledge/chunking.py:48-63 | Dropping the first overlap characters of each later window gives the text back. |
| Chunking.WindowsStuckIff | core/knowledge/chunking.py:52-62 | The loop reaches the end of the text if and only if the text fits one window or the overlap is smaller than the window. |
| Chunking.SplitThenJoin | core/knowledge/chunking.py:196 | Joining the parts with the separator gives the text. |
| Chunking.PartsAreClear | core/knowledge/chunking.py:196 | No part still holds a separator. |
| Chunking.CutFromTheLeft | core/knowledge/chunking.py:196 | The text is cut at the first occurrence of the separator, and the rest of it likewise. |
| Chunking.Recursive | core/knowledge/chunking.py:188-220 | For all parameters with which it ends, the chunks are those of the recursive split, numbered from 0 without gap across all levels. |
| Chunking.SplitterStuckIff | core/knowledge/chunking.py:188-220 | Every window loop the splitter enters reaches the end of its text if and only if the overlap is below the size, or every piece the separators leave, cut independently of any batching, fits one window. |
| Chunking.SplitEndsWithItsLoops | core/knowledge/chunking.py:192-220 | The condition `Chunking.Recursive` requires holds if and only if every text handed to a window loop is one the loop finishes. |
| Chunking.ThreeCharactersHoldItUp | core/knowledge/chunking.py:192-194 | The text abc, a blank and an empty separator, size 1 and overlap 1: the last loop never ends. |
| Chunking.GatherSplitsBatches | core/knowledge/chunking.py:201-218 | The chunks of a level are the chunks of its batches, in order. |
| Chunking.BatchesAreGreedy | core/knowledge/chunking.py:201-211 | A batch ends only because the part that begins the next one would not have fitted. |
| Chunking.BatchesAreBounded | core/knowledge/chunking.py:201-213 | A batch is within the size unless it is a single part. |
| Chunking.SplitIsBounded | core/knowledge/chunking.py:188-220 | No chunk of the recursive splitter is empty or larger than the size. |
| Chunking.SplitGoesThrough | core/knowledge/chunking.py:188-220 | Whenever the splitter ends, for every overlap: the text is pieces with non-empty separators between any two of them, and the chunks are, piece by piece, full but for the last, each beginning with the last overlap characters of the one before; without these they are the piece. |
| Chunking.SplitRemovesOnlySeparators | core/knowledge/chunking.py:196-220 | Without overlap the chunks concatenate to the text with nothing but occurrences of separators taken out. |

## Left out

- InteractionTables.InteractionRepository.StoreChallenge: requires a new challenge id, where the insert of a used one would raise.
- InteractionTables.InteractionRepository.Create: requires a new interaction id, where the insert of a used one would raise.
- InteractionTheorems.AuditTrailIsAPath: is about insertion order; the listing query orders by revision, time and audit id, and the four rows of one preview share a revision.
- Chunking.FixedLength: requires a text and parameters with which its loop ends, exactly those of `Chunking.WindowsStuckIff`; so does `Chunking.TokenWindow`.
- Chunking.Recursive: requires parameters with which it ends, exactly those of `Chunking.SplitterStuckIff`.
- IssuerJournal.IdentityNamesOneMessage: takes the keyed hash as collision-free and UTF-8 as the code points of the text.
- IssuerJournal.StepKeeps: one operation on the key files at a time; two concurrent projections read and replace one file.
- DailyReviewService.Get: takes each source's facts as its collector returns them; the collectors are single-record filters. The time zone is a function from days to instants, and the query's limits are checked before.
- The lifecycle operations are steps on values and not methods, because what is proved is about their interleavings; update in place is modelled in the repository classes.
- Workspace and principal resolution, blank-field validation of create, and the policy checks of the adapter.
- PilotConfirmation.ChecksHoldAtCommit: the pilot's reads are one reading, and its clock checks are not repeated at the commit; channel, event type and verification status are fixed by the envelope model and the one value ever stored.
- Failure records, resolution phase, summaries, trace ids, publication of events, and time fields that no guard reads.
- The adapter's modify, confirm, cancel, status, view and recover, which pass through to the operations modelled here.
- Deletion and later edits of targets in the task, work-log, waiting-for and reminder stores; a reminder's task and schedule are one record.
- `update`, `resolve` and `dismiss` of the Inbox repository, which the service does not call and which bypass the claim.
- The in-memory locks, which the protocols do not rely on.
- Event loops, SQL, JSON, file permissions, cryptography and sockets.
- Sentence, paragraph and Markdown chunking, and negative sizes or overlaps.
- Keyword and hybrid retrieval, memory, agenda, coordination and the assistant's routing.
