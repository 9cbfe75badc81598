/**
 Worker deployment records, the transitions they may make, and the
 compare-and-swap update of the in-memory store, which is one atomic step.
 */
module Deployments {
  import opened Common

  datatype State = Ready | Running | Succeeded | Failed | UnknownState(name: string)

  datatype Kind = Deploy | Rollback | UnknownKind(name: string)

  const ACTIVE := "active"

  const MAX_ERROR_CODE := 128

  datatype Deployment = Deployment(
    id: string,
    workerId: string,
    versionId: string,
    previousVersionId: string,
    kind: Kind,
    state: State,
    allowed: bool,
    providerVersionId: string,
    providerDeploymentId: string,
    providerState: string,
    errorCode: string,
    startedAt: Option<int>,
    finishedAt: Option<int>,
    createdAt: int,
    createdBy: string)

  datatype Result = Ok | NotFound | Conflict | StorageError

  predicate ValidFinished(d: Deployment) {
    d.startedAt.Some? && d.finishedAt.Some? && d.createdAt <= d.startedAt.value <= d.finishedAt.value
  }

  /** The fields an update may not touch are equal. */
  predicate SameIdentity(a: Deployment, b: Deployment) {
    && a.id == b.id && a.workerId == b.workerId && a.versionId == b.versionId
    && a.previousVersionId == b.previousVersionId && a.kind == b.kind
    && a.createdAt == b.createdAt && a.createdBy == b.createdBy
  }

  predicate ValidTransition(current: Deployment, updated: Deployment) {
    && SameIdentity(updated, current)
    && updated.allowed
    && (match (current.state, updated.state)
        case (Ready, Running) =>
          && updated.startedAt.Some? && updated.finishedAt.None? && updated.errorCode == ""
          && updated.providerDeploymentId == "" && updated.providerState == ""
          && updated.createdAt <= updated.startedAt.value
        case (Running, Succeeded) =>
          && ValidFinished(updated) && updated.errorCode == "" && updated.providerVersionId != ""
          && updated.providerDeploymentId != "" && updated.providerState == ACTIVE
        case (Running, Failed) =>
          ValidFinished(updated) && updated.errorCode != "" && |updated.errorCode| <= MAX_ERROR_CODE
        case _ => false)
  }

  type Rows = map<string, Deployment>

  function Update(rows: Rows, updated: Deployment, expected: State): (Rows, Result) {
    if updated.id !in rows || rows[updated.id].workerId != updated.workerId then (rows, NotFound)
    else if rows[updated.id].state != expected || !ValidTransition(rows[updated.id], updated) then (rows, Conflict)
    else (rows[updated.id := updated], Ok)
  }

  /** How far a deployment has come. Legal transitions only ever go forward. */
  function Rank(s: State): nat {
    match s
    case Ready => 0
    case Running => 1
    case _ => 2
  }

  lemma TransitionsAdvance(current: Deployment, updated: Deployment)
    requires ValidTransition(current, updated)
    ensures Rank(current.state) < Rank(updated.state)
  {
  }
}
