/** What each lifecycle operation decides: the guards on the record it read, and the commit it
    builds from the facts it read, its clock readings, and the answers of its ports. */
module InteractionDecisions {
  import opened Basics
  import opened Texts
  import opened InteractionModels
  import opened InteractionStore

  datatype Action =
    | PreviewAction(plan: Plan)
    | ConfirmAction(previewId: Id, previewRevision: nat, ttl: int, spend: Option<(Id, nat, Id)>)
    | ApproveAction(previewId: Id, previewRevision: nat, role: string, presented: string, ttl: int)
    | CancelAction
    | ExpireAction
    | ExecuteAction
    | VerifyAction
    | RecoverAction

  datatype Request = Request(
    scope: Scope, actor: string, interactionId: Id, expected: nat, key: string, action: Action)

  function OperationOf(q: Request): Operation {
    match q.action
    case PreviewAction(_) => PreviewOp
    case ConfirmAction(_, _, _, _) => Confirm
    case ApproveAction(_, _, _, _, _) => Approve
    case CancelAction => Cancel
    case ExpireAction => Expire
    case ExecuteAction => Execute
    case VerifyAction => Verify
    case RecoverAction => Recover
  }

  function DigestOf(q: Request): Digest {
    match q.action
    case PreviewAction(plan) => PreviewDigest(q.interactionId, q.expected, plan)
    case ConfirmAction(p, r, ttl, _) => ConfirmDigest(q.interactionId, p, r, q.expected, q.actor, q.scope, ttl)
    case ApproveAction(p, r, role, presented, ttl) =>
      ApproveDigest(q.interactionId, p, r, q.expected, q.actor, role, presented, ttl)
    case _ => PlainDigest(q.interactionId, q.expected)
  }

  function KeyOf(q: Request): IdempotencyKey {
    IdempotencyKey(q.scope, OperationOf(q), q.key)
  }

  function GapKey(key: string): string {
    key + ":execution-gap"
  }

  function GapRowKey(q: Request): IdempotencyKey {
    IdempotencyKey(q.scope, ReconcileExecution, GapKey(q.key))
  }

  /** The places where an operation builds a commit. Execution has two, recovery has two. */
  datatype Stage =
    | Previewing | Confirming | Approving | Cancelling | Expiring | Gate | Observing | Reconciling | Proving

  datatype ExecutionObservation = ExecutionObservation(status: ExecutionStatus, externalReference: Option<string>)

  datatype VerificationObservation = VerificationObservation(status: VerificationStatus, digest: string)

  datatype AuthorityEvidence = AuthorityEvidence(
    id: Id, interactionId: Id, previewId: Id, previewRevision: nat, scope: Scope,
    approver: string, role: string, policy: string, digest: string, expires: Time)

  /** Everything an operation takes from outside the store: new ids, clock readings, port answers.
      An absent answer is a port that raised. */
  datatype Env = Env(
    id0: Id, id1: Id, id2: Id,
    now: Time, confirmationCheck: Time, approvalCheck: Time,
    authority: Option<AuthorityEvidence>,
    execution: Option<ExecutionObservation>,
    verification: Option<VerificationObservation>,
    commit: Option<CommitEvidence>)

  type Seen = map<Id, Option<Fact>>

  function PreviewIn(seen: Seen, id: Option<Id>): Option<Preview> {
    if id.Some? && id.value in seen && seen[id.value].Some? && seen[id.value].value.PreviewFact?
    then Some(seen[id.value].value.preview) else None
  }

  function ConfirmationIn(seen: Seen, id: Option<Id>): Option<Confirmation> {
    if id.Some? && id.value in seen && seen[id.value].Some? && seen[id.value].value.ConfirmationFact?
    then Some(seen[id.value].value.confirmation) else None
  }

  function ApprovalIn(seen: Seen, id: Option<Id>): Option<Approval> {
    if id.Some? && id.value in seen && seen[id.value].Some? && seen[id.value].value.ApprovalFact?
    then Some(seen[id.value].value.approval) else None
  }

  function ExecutionIn(seen: Seen, id: Option<Id>): Option<Execution> {
    if id.Some? && id.value in seen && seen[id.value].Some? && seen[id.value].value.ExecutionFact?
    then Some(seen[id.value].value.execution) else None
  }

  function RecoveryIn(seen: Seen, id: Option<Id>): Option<Recovery> {
    if id.Some? && id.value in seen && seen[id.value].Some? && seen[id.value].value.RecoveryFact?
    then Some(seen[id.value].value.recovery) else None
  }

  function Ids(id: Option<Id>): set<Id> {
    if id.Some? then {id.value} else {}
  }

  /** The facts a stage has to have read before it decides. */
  function Needs(stage: Stage, q: Request, cur: Interaction): set<Id> {
    match stage
    case Previewing => Ids(cur.previewId)
    case Confirming => if q.action.ConfirmAction? then {q.action.previewId} else {}
    case Approving => (if q.action.ApproveAction? then {q.action.previewId} else {}) + Ids(cur.confirmationId)
    case Cancelling => Ids(cur.previewId)
    case Expiring => Ids(cur.previewId)
    case Gate => Ids(cur.previewId) + Ids(cur.confirmationId) + Ids(cur.approvalId)
    case Observing => {}
    case Reconciling => Ids(cur.executionId)
    case Proving => Ids(cur.executionId) + Ids(cur.previewId) + Ids(cur.recoveryId)
  }

  predicate Cancellable(cur: Interaction) {
    && !Terminal(cur.state)
    && !cur.state.Executing? && !cur.state.Verifying? && !cur.state.RecoveryRequired?
    && !cur.execution.Attempted? && !cur.execution.Acknowledged?
    && !cur.execution.Completed? && !cur.execution.Uncertain?
  }

  /** The checks made on the record alone, in source order; `None` lets the operation go on. */
  function Guard(stage: Stage, q: Request, expected: nat, cur: Interaction): Option<Error> {
    match stage
    case Previewing =>
      if cur.origin.actor != q.actor then Some(ActorMismatch)
      else if cur.revision != expected then Some(RevisionConflict)
      else if !(cur.state.Requested? || cur.state.Previewed? || cur.state.AwaitingConfirmation?) then Some(InvalidState)
      else None
    case Confirming =>
      if cur.revision != expected then Some(ConfirmationConflict)
      else if !cur.state.AwaitingConfirmation? then Some(InvalidState)
      else None
    case Approving =>
      if cur.revision != expected then Some(ApprovalConflict)
      else if !cur.state.AwaitingConfirmation? || cur.confirmationId.None? then Some(InvalidState)
      else None
    case Cancelling =>
      if cur.revision != expected then Some(RevisionConflict)
      else if Terminal(cur.state) then Some(InvalidState)
      else if !Cancellable(cur) then Some(CancelOutcomeUncertain)
      else None
    case Expiring =>
      if cur.revision != expected then Some(RevisionConflict)
      else if !(cur.state.Previewed? || cur.state.AwaitingConfirmation?) then Some(InvalidState)
      else None
    case Gate =>
      if cur.revision != expected then Some(RevisionConflict)
      else if !cur.state.Authorized? then Some(InvalidState)
      else None
    case Proving =>
      if cur.revision != expected then Some(RevisionConflict)
      else if !(cur.state.Verifying? || cur.state.RecoveryRequired?) then Some(InvalidState)
      else None
    case Observing => None
    case Reconciling => None
  }

  function StageOf(q: Request): Stage {
    match q.action
    case PreviewAction(_) => Previewing
    case ConfirmAction(_, _, _, _) => Confirming
    case ApproveAction(_, _, _, _, _) => Approving
    case CancelAction => Cancelling
    case ExpireAction => Expiring
    case ExecuteAction => Gate
    case VerifyAction => Proving
    case RecoverAction => Proving
  }

  function Min(a: Time, b: Time): Time {
    if a <= b then a else b
  }

  function Commit1(q: Request, cur: Interaction, next: Interaction, facts: map<Id, Fact>): Commit {
    Commit(next, cur.revision, facts, [Audit(Some(cur.state), next.state, next.revision, q.key)],
           OperationOf(q), q.key, DigestOf(q), None)
  }

  function NewPreview(q: Request, cur: Interaction, prior: Option<Preview>, env: Env): Preview
    requires q.action.PreviewAction?
  {
    var plan := q.action.plan;
    Preview(env.id0, q.actor, cur.origin.operation, cur.origin.policy, cur.origin.risk,
            if prior.None? then 1 else prior.value.revision + 1,
            plan, Active, env.now, env.now + plan.ttl)
  }

  function DecidePreview(q: Request, cur: Interaction, seen: Seen, env: Env): Result<Commit>
    requires q.action.PreviewAction?
  {
    var plan := q.action.plan;
    if plan.ttl <= 0 then Err(PreviewExpiryInvalid)
    else
      var prior := PreviewIn(seen, cur.previewId);
      var p := NewPreview(q, cur, prior, env);
      var facts := map[p.id := PreviewFact(p)];
      var superseded: map<Id, Fact> :=
        if prior.None? then map[] else map[prior.value.id := PreviewFact(prior.value.(status := Superseded))];
      var final := if plan.requiresConfirmation || plan.requiresApproval then AwaitingConfirmation else Authorized;
      var next := cur.(state := final, revision := cur.revision + 1, previewId := Some(p.id),
                       confirmationId := None, approvalId := None, objectId := plan.targetObject);
      var audits := [Audit(Some(cur.state), cur.state, next.revision, q.key),
                     Audit(Some(cur.state), cur.state, next.revision, q.key),
                     Audit(Some(cur.state), Previewed, next.revision, q.key),
                     Audit(Some(Previewed), final, next.revision, q.key)];
      Ok(Commit(next, cur.revision, superseded + facts, audits, PreviewOp, q.key, DigestOf(q), None))
  }

  function DecideConfirm(q: Request, cur: Interaction, seen: Seen, env: Env): Result<Commit>
    requires q.action.ConfirmAction?
  {
    var a := q.action;
    var found := PreviewIn(seen, Some(a.previewId));
    if found.None? || !found.value.status.Active? || found.value.revision != a.previewRevision
       || cur.previewId != Some(found.value.id) then Err(PreviewStale)
    else
      var p := found.value;
      if p.actor != q.actor || p.policy != cur.origin.policy then Err(ConfirmationActorMismatch)
      else if env.now >= p.expires then Err(PreviewExpired)
      else if a.ttl <= 0 then Err(ConfirmationExpiryInvalid)
      else
        var c := Confirmation(env.id0, a.previewId, a.previewRevision, q.actor, cur.origin.policy,
                              env.now, Min(p.expires, env.now + a.ttl));
        var next := cur.(state := if p.plan.requiresApproval then AwaitingConfirmation else Authorized,
                         revision := cur.revision + 1, confirmationId := Some(c.id));
        var facts := map[p.id := PreviewFact(p.(status := Confirmed)), c.id := ConfirmationFact(c)];
        Ok(Commit1(q, cur, next, facts).(consumption :=
          match a.spend
          case None => None
          case Some((e, r, h)) => Some(Consumption(e, r, h, a.previewId, a.previewRevision))))
  }

  predicate AuthorityMatches(q: Request, cur: Interaction, e: AuthorityEvidence, now: Time)
    requires q.action.ApproveAction?
  {
    && e.interactionId == q.interactionId
    && e.previewId == q.action.previewId
    && e.previewRevision == q.action.previewRevision
    && e.scope == cur.origin.scope
    && e.approver == q.actor
    && e.role == q.action.role
    && e.policy == cur.origin.policy
    && e.digest != ""
    && now < e.expires
  }

  function DecideApprove(q: Request, cur: Interaction, seen: Seen, env: Env): Result<Commit>
    requires q.action.ApproveAction?
  {
    var a := q.action;
    var preview := PreviewIn(seen, Some(a.previewId));
    var confirmation := ConfirmationIn(seen, cur.confirmationId);
    if preview.None? || confirmation.None? || !preview.value.plan.requiresApproval
       || cur.previewId != Some(preview.value.id) || preview.value.revision != a.previewRevision
       || env.now >= preview.value.expires || env.now >= confirmation.value.expires then Err(ApprovalConflict)
    else if Blank(a.role) || a.ttl <= 0 then Err(ApprovalInvalid)
    else if a.presented == "" then Err(ApprovalAuthorityMissing)
    else if env.authority.None? || !AuthorityMatches(q, cur, env.authority.value, env.now)
    then Err(ApprovalAuthorityInvalid)
    else
      var e := env.authority.value;
      var approval := Approval(env.id0, a.previewId, a.previewRevision, q.actor, e.role, e.id, cur.origin.policy,
                               env.now, Min(Min(preview.value.expires, e.expires), env.now + a.ttl));
      var next := cur.(state := Authorized, approvalId := Some(approval.id), revision := cur.revision + 1);
      Ok(Commit1(q, cur, next, map[approval.id := ApprovalFact(approval)]))
  }

  function DecideCancel(q: Request, cur: Interaction, seen: Seen): Result<Commit> {
    var p := PreviewIn(seen, cur.previewId);
    var facts: map<Id, Fact> :=
      if p.Some? && p.value.status.Active?
      then map[p.value.id := PreviewFact(p.value.(status := Superseded))] else map[];
    Ok(Commit1(q, cur, cur.(state := Cancelled, revision := cur.revision + 1), facts))
  }

  function DecideExpire(q: Request, cur: Interaction, seen: Seen, env: Env): Result<Commit> {
    var p := PreviewIn(seen, cur.previewId);
    if p.None? || env.now < p.value.expires then Err(PreviewNotExpired)
    else Ok(Commit1(q, cur, cur.(state := Expired, revision := cur.revision + 1),
                    map[p.value.id := PreviewFact(p.value.(status := PreviewLapsed))]))
  }

  /** The gate in front of the execution port. */
  function DecideGate(q: Request, cur: Interaction, seen: Seen, env: Env): Result<Commit> {
    var preview := PreviewIn(seen, cur.previewId);
    var confirmation := ConfirmationIn(seen, cur.confirmationId);
    var approval := ApprovalIn(seen, cur.approvalId);
    if preview.None? then Err(PreviewMissing)
    else if preview.value.plan.requiresConfirmation
            && (confirmation.None? || env.confirmationCheck >= confirmation.value.expires) then Err(ConfirmationExpired)
    else if preview.value.plan.requiresApproval
            && (approval.None? || env.approvalCheck >= approval.value.expires) then Err(ApprovalExpired)
    else
      var execution := Execution(env.id0, q.actor, q.key, Attempted, None);
      var next := cur.(state := Executing, execution := Attempted, verification := VerificationPending,
                       revision := cur.revision + 1, executionId := Some(execution.id));
      Ok(Commit1(q, cur, next, map[execution.id := ExecutionFact(execution)]))
  }

  /** The second commit of an execution, after the port answered or raised. */
  function DecideObservation(q: Request, executing: Interaction, seen: Seen, env: Env): Result<Commit> {
    var found := ExecutionIn(seen, executing.executionId);
    if found.None? then Err(ExecutionMissing) else Ok(ObservationCommit(q, executing, found.value, env))
  }

  function ObservedStatus(env: Env): ExecutionStatus {
    if env.execution.Some? then env.execution.value.status else Uncertain
  }

  function ObservedExecution(x: Execution, env: Env): Execution {
    x.(status := ObservedStatus(env),
       externalReference := if env.execution.Some? then env.execution.value.externalReference else None)
  }

  function ObservationCommit(q: Request, executing: Interaction, x: Execution, env: Env): Commit {
    var status := ObservedStatus(env);
    var execution := ObservedExecution(x, env);
    var facts: map<Id, Fact> := map[execution.id := ExecutionFact(execution)];
    if status.Rejected? || status.ExecutionFailed? then
      Commit1(q, executing, executing.(
        state := Failed, execution := status, verification := VerificationNotRequired,
        recovery := RecoveryNotRequired, revision := executing.revision + 1), facts)
    else if status.Uncertain? then
      var recovery := Recovery(env.id0, q.actor, RecoveryPending);
      Commit1(q, executing, executing.(
        state := RecoveryRequired, execution := status, verification := VerificationUncertain,
        recovery := RecoveryPending, recoveryId := Some(recovery.id), revision := executing.revision + 1),
        facts[recovery.id := RecoveryFact(recovery)])
    else
      Commit1(q, executing, executing.(
        state := Verifying, execution := status, verification := VerificationPending,
        recovery := RecoveryNotRequired, revision := executing.revision + 1), facts)
  }

  /** An execution intent without a stored outcome becomes an uncertain one. */
  function DecideReconcile(q: Request, cur: Interaction, seen: Seen, env: Env): Result<Commit> {
    var found := ExecutionIn(seen, cur.executionId);
    if found.None? || !found.value.status.Attempted? then Err(ExecutionMissing)
    else
      var execution := found.value.(status := Uncertain);
      var recovery := Recovery(if cur.recoveryId.Some? then cur.recoveryId.value else env.id0, q.actor, RecoveryPending);
      var next := cur.(state := RecoveryRequired, execution := Uncertain, verification := VerificationUncertain,
                       recovery := RecoveryPending, recoveryId := Some(recovery.id), revision := cur.revision + 1);
      Ok(Commit(next, cur.revision,
                map[execution.id := ExecutionFact(execution), recovery.id := RecoveryFact(recovery)],
                [Audit(Some(cur.state), next.state, next.revision, GapKey(q.key))],
                ReconcileExecution, GapKey(q.key), DigestOf(q), None))
  }

  predicate CommitMatches(cur: Interaction, p: Preview, x: Execution, e: CommitEvidence) {
    && e.interactionId == cur.id
    && e.executionId == x.id
    && e.previewId == p.id
    && e.scope == cur.origin.scope
    && e.policy == cur.origin.policy
    && e.commitRequired
    && e.outcome == Committed
    && e.objectId.Some? && e.objectId.value != ""
    && e.revision.Some?
    && e.digest != ""
  }

  /** `_canonical_commit`: local evidence when no commit is required, else the authority's if it matches. */
  function CanonicalCommit(cur: Interaction, p: Preview, x: Execution, env: Env): Option<CommitEvidence> {
    if !p.plan.commitRequired then
      Some(CommitEvidence(env.id1, cur.id, x.id, p.id, cur.origin.scope, cur.origin.policy, false,
                          CommitNotRequired, p.plan.targetObject, p.plan.targetRevision, "not-required"))
    else if env.commit.Some? && CommitMatches(cur, p, x, env.commit.value) then env.commit
    else None
  }

  /** The verifier answered VERIFIED with a digest. */
  predicate Proven(env: Env) {
    env.verification.Some? && env.verification.value.status.Verified? && env.verification.value.digest != ""
  }

  function DecideProof(q: Request, cur: Interaction, seen: Seen, env: Env): Result<Commit> {
    var execution := ExecutionIn(seen, cur.executionId);
    var preview := PreviewIn(seen, cur.previewId);
    if execution.None? then Err(ExecutionMissing)
    else if preview.None? then Err(PreviewMissing)
    else
      var evidence := if Proven(env) then CanonicalCommit(cur, preview.value, execution.value, env) else None;
      if evidence.Some? then Ok(ProofCommit(q, cur, execution.value, evidence.value, RecoveryIn(seen, cur.recoveryId), env))
      else Ok(RetryCommit(q, cur, execution.value, env))
  }

  function ResultFor(cur: Interaction, x: Execution, evidenceId: Option<Id>, env: Env): VerifiedResult
    requires Proven(env)
  {
    VerifiedResult(env.id0, cur.id, x.id, cur.origin.scope, env.verification.value.digest, evidenceId)
  }

  /** Verified and committed: the interaction succeeds, and a recovery that was open is closed. */
  function ProofCommit(q: Request, cur: Interaction, x: Execution, e: CommitEvidence,
                       open: Option<Recovery>, env: Env): Commit
    requires Proven(env)
  {
    var result := ResultFor(cur, x, Some(e.id), env);
    var facts: map<Id, Fact> := map[result.id := VerifiedResultFact(result), e.id := CommitEvidenceFact(e)];
    var next := cur.(
      state := Succeeded, execution := Completed, verification := Verified,
      recovery := if cur.recovery.RecoveryNotRequired? then RecoveryNotRequired else Recovered,
      verifiedResultId := Some(result.id), commitEvidenceId := Some(e.id), objectId := e.objectId,
      revision := cur.revision + 1);
    Commit1(q, cur, next,
            if open.Some? then facts[open.value.id := RecoveryFact(open.value.(status := Recovered))] else facts)
  }

  /** Not proven, or not committed: recovery is required and stays pending under one recovery id. */
  function RetryCommit(q: Request, cur: Interaction, x: Execution, env: Env): Commit {
    var recovery := Recovery(if cur.recoveryId.Some? then cur.recoveryId.value else env.id2, q.actor, RecoveryPending);
    var facts: map<Id, Fact> := map[recovery.id := RecoveryFact(recovery)];
    var next := cur.(
      state := RecoveryRequired,
      verification := if env.verification.Some? then env.verification.value.status else VerificationUncertain,
      recovery := RecoveryPending, recoveryId := Some(recovery.id),
      verifiedResultId := if Proven(env) then Some(env.id0) else None,
      revision := cur.revision + 1);
    Commit1(q, cur, next,
            if Proven(env) then facts[env.id0 := VerifiedResultFact(ResultFor(cur, x, None, env))] else facts)
  }

  /** A stage is only ever entered by the action it belongs to. */
  predicate Belongs(stage: Stage, q: Request) {
    match stage
    case Previewing => q.action.PreviewAction?
    case Confirming => q.action.ConfirmAction?
    case Approving => q.action.ApproveAction?
    case Cancelling => q.action.CancelAction?
    case Expiring => q.action.ExpireAction?
    case Gate => q.action.ExecuteAction?
    case Observing => q.action.ExecuteAction?
    case Reconciling => q.action.RecoverAction?
    case Proving => q.action.VerifyAction? || q.action.RecoverAction?
  }

  function Decide(stage: Stage, q: Request, cur: Interaction, seen: Seen, env: Env): Result<Commit> {
    if !Belongs(stage, q) then Err(InvalidState)
    else
      match stage
      case Previewing => DecidePreview(q, cur, seen, env)
      case Confirming => DecideConfirm(q, cur, seen, env)
      case Approving => DecideApprove(q, cur, seen, env)
      case Cancelling => DecideCancel(q, cur, seen)
      case Expiring => DecideExpire(q, cur, seen, env)
      case Gate => DecideGate(q, cur, seen, env)
      case Observing => DecideObservation(q, cur, seen, env)
      case Reconciling => DecideReconcile(q, cur, seen, env)
      case Proving => DecideProof(q, cur, seen, env)
  }
}
