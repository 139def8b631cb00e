/** The records of the trusted-interaction lifecycle: the aggregate snapshot, the facts it refers to,
    the audit rows, and the payloads whose digests identify a request. */
module InteractionModels {
  import opened Basics

  datatype Result<+T> = Ok(value: T) | Err(error: Error)

  /** The failure codes the lifecycle operations raise. */
  datatype Error =
    | IdempotencyKeyMissing | IdempotencyConflict | NotFound | ActorMismatch | RevisionConflict | ConfirmationConflict
    | InvalidState | PreviewExpiryInvalid | PreviewStale | ConfirmationActorMismatch | PreviewExpired
    | ConfirmationExpiryInvalid | ApprovalConflict | ApprovalInvalid | ApprovalAuthorityMissing
    | ApprovalAuthorityInvalid | CancelOutcomeUncertain | PreviewNotExpired | PreviewMissing
    | ConfirmationExpired | ApprovalExpired | ExecutionMissing

  datatype Lifecycle =
    | Requested | Previewed | AwaitingConfirmation | Authorized | Executing | Verifying
    | Succeeded | Failed | Cancelled | Expired | RecoveryRequired

  datatype ExecutionStatus =
    | NotStarted | Accepted | Attempted | Acknowledged | Completed | Rejected | ExecutionFailed | Uncertain

  datatype VerificationStatus =
    | VerificationNotRequired | VerificationPending | Verified | VerificationFailed | VerificationUncertain

  datatype RecoveryStatus = RecoveryNotRequired | RecoveryPending | InProgress | Recovered | RecoveryFailed

  datatype PreviewStatus = Active | Superseded | PreviewLapsed | Confirmed

  /** What a caller asks for when it opens an interaction; none of it changes afterwards. */
  datatype Origin = Origin(
    scope: Scope, actor: string, operation: string, risk: string, policy: string,
    requestId: string, traceId: string, summary: string, correlation: map<string, string>)

  datatype Interaction = Interaction(
    id: Id, origin: Origin, state: Lifecycle,
    execution: ExecutionStatus, verification: VerificationStatus, recovery: RecoveryStatus,
    revision: nat,
    previewId: Option<Id>, confirmationId: Option<Id>, approvalId: Option<Id>, executionId: Option<Id>,
    verifiedResultId: Option<Id>, commitEvidenceId: Option<Id>, recoveryId: Option<Id>,
    objectId: Option<string>)

  /** The content a caller puts up for consent. */
  datatype Plan = Plan(
    parameters: string, summary: string, ttl: int,
    targetObject: Option<string>, targetRevision: Option<int>, effects: seq<string>,
    requiresConfirmation: bool, requiresApproval: bool, commitRequired: bool)

  datatype Preview = Preview(
    id: Id, actor: string, operation: string, policy: string, risk: string,
    revision: nat, plan: Plan, status: PreviewStatus, created: Time, expires: Time)

  datatype Confirmation = Confirmation(
    id: Id, previewId: Id, previewRevision: nat, actor: string, policy: string, created: Time, expires: Time)

  datatype Approval = Approval(
    id: Id, previewId: Id, previewRevision: nat, approver: string, role: string,
    authorityId: Id, policy: string, created: Time, expires: Time)

  datatype Execution = Execution(
    id: Id, actor: string, key: string, status: ExecutionStatus, externalReference: Option<string>)

  datatype VerifiedResult = VerifiedResult(
    id: Id, interactionId: Id, executionId: Id, scope: Scope, digest: string, commitEvidenceId: Option<Id>)

  datatype CommitOutcome = Committed | CommitNotRequired | OtherOutcome(text: string)

  datatype CommitEvidence = CommitEvidence(
    id: Id, interactionId: Id, executionId: Id, previewId: Id, scope: Scope, policy: string,
    commitRequired: bool, outcome: CommitOutcome,
    objectId: Option<string>, revision: Option<int>, digest: string)

  datatype Recovery = Recovery(id: Id, actor: string, status: RecoveryStatus)

  /** A row of the fact table; the constructor is its `fact_type`. */
  datatype Fact =
    | PreviewFact(preview: Preview)
    | ConfirmationFact(confirmation: Confirmation)
    | ApprovalFact(approval: Approval)
    | ExecutionFact(execution: Execution)
    | VerifiedResultFact(result: VerifiedResult)
    | CommitEvidenceFact(evidence: CommitEvidence)
    | RecoveryFact(recovery: Recovery)

  function FactId(f: Fact): Id {
    match f
    case PreviewFact(p) => p.id
    case ConfirmationFact(c) => c.id
    case ApprovalFact(a) => a.id
    case ExecutionFact(e) => e.id
    case VerifiedResultFact(r) => r.id
    case CommitEvidenceFact(e) => e.id
    case RecoveryFact(r) => r.id
  }

  datatype Audit = Audit(from: Option<Lifecycle>, to: Lifecycle, revision: nat, key: string)

  datatype Operation =
    | Create | PreviewOp | Confirm | Approve | Cancel | Expire | Execute | Verify | Recover | ReconcileExecution

  /** The request payloads; two digests agree exactly when the payloads do. */
  datatype Digest =
    | CreateDigest(origin: Origin)
    | PreviewDigest(interactionId: Id, expected: nat, plan: Plan)
    | ConfirmDigest(interactionId: Id, previewId: Id, previewRevision: nat, expected: nat,
                    actor: string, scope: Scope, ttl: int)
    | ApproveDigest(interactionId: Id, previewId: Id, previewRevision: nat, expected: nat,
                    approver: string, role: string, presented: string, ttl: int)
    | PlainDigest(interactionId: Id, expected: nat)

  datatype IdempotencyKey = IdempotencyKey(scope: Scope, operation: Operation, key: string)

  datatype IdempotencyRow = IdempotencyRow(digest: Digest, interactionId: Id, result: Interaction)

  /** An accepted ingress evidence row: its wire text and when it was accepted; `consumed` names the interaction,
      Preview and Preview revision. */
  datatype EvidenceRow = EvidenceRow(
    payload: string, accepted: Time, revision: nat, consumed: Option<(Id, Id, nat)>)

  /** A challenge put up for one Preview of one interaction revision; `text` is what has to be answered. */
  datatype ChallengeRow = ChallengeRow(
    interactionId: Id, previewId: Id, previewRevision: nat, interactionRevision: nat,
    text: string, created: Time, expires: Time, active: bool)

  /** What a trusted confirmation spends; the Preview it names is the one being confirmed. */
  datatype Consumption = Consumption(
    evidenceId: Id, evidenceRevision: nat, challengeId: Id, previewId: Id, previewRevision: nat)

  /** No committed transition ever lowers this rank. */
  function Rank(s: Lifecycle): nat {
    match s
    case Requested => 0
    case Previewed => 1
    case AwaitingConfirmation => 1
    case Authorized => 2
    case Executing => 3
    case Verifying => 4
    case RecoveryRequired => 5
    case Succeeded => 6
    case Failed => 6
    case Cancelled => 6
    case Expired => 6
  }

  predicate Terminal(s: Lifecycle) {
    s.Succeeded? || s.Failed? || s.Cancelled? || s.Expired?
  }

  /** The states an interaction is only in after its execution was attempted. */
  predicate AfterAttempt(s: Lifecycle) {
    s.Executing? || s.Verifying? || s.RecoveryRequired? || s.Succeeded? || s.Failed?
  }
}
