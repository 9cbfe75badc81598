/**
 What must have happened in a run before a deployment is where it is: who wins
 one passed every guard, who succeeds was accepted by the provider at every
 call, and who fails met the failure it reports.
 */
module ExecutionHistory {
  import opened Common
  import opened Deployments
  import opened DeploymentExecutor

  /** Something that happened in one step of the execute call `p` for deployment `id`. */
  datatype Mark =
    | WasReady(p: Pid, id: string)
    | WasDesired(p: Pid, id: string)
    | HadVersion(p: Pid, id: string)
    | HadToken(p: Pid, id: string)
    | WasValidated(p: Pid, id: string)
    | WasUploaded(p: Pid, id: string, version: string)
    | WasRecorded(p: Pid, id: string, version: string)
    | WasKnown(p: Pid, id: string, version: string)
    | WasReleased(p: Pid, id: string, deployment: string)
    | HadFailed(p: Pid, id: string, code: string)

  /** The record is ready and not yet given to an execution. */
  predicate ReadyRecord(s: System, workerId: string, id: string) {
    && id in s.store.deployments && s.store.deployments[id].workerId == workerId
    && s.store.deployments[id].state.Ready? && !s.store.deployments[id].allowed
  }

  predicate Desires(s: System, d: Deployment) {
    d.workerId in s.store.workers && s.store.workers[d.workerId].desiredVersionId == d.versionId
  }

  predicate HasVersion(s: System, d: Deployment) {
    && d.versionId in s.store.versions && s.store.versions[d.versionId].workerId == d.workerId
    && (d.kind.Rollback? ==> s.store.versions[d.versionId].providerVersionId != "")
  }

  predicate Recorded(s: System, c: Call)
    requires c.Uploaded?
  {
    SaveProvider(s.storage, s.store, c.running, c.providerVersion, c.number, c.at).1.Ok?
  }

  /** The step reports this failure: an error, an answer that is not what was asked for, or a version not recorded. */
  predicate Fails(s: System, op: Op, code: string) {
    match op
    case Validate(_, err) => err.Some? && code == ErrorCode(err.value)
    case Upload(_, UploadRejected(e)) => code == ErrorCode(e)
    case Upload(_, UploadAccepted(id, matches, _, _)) => (id == "" || !matches) && code == ErrorCode(PROVIDER_ERROR)
    case Release(_, ReleaseRejected(e)) => code == ErrorCode(e)
    case Release(_, ReleaseAccepted(id, matches, state)) =>
      (id == "" || !matches || state != ACTIVE) && code == ErrorCode(PROVIDER_ERROR)
    case Record(p) => p in s.calls && s.calls[p].Uploaded? && !Recorded(s, s.calls[p]) && code == PERSISTENCE_FAILURE
    case _ => false
  }

  /** The step, taken in the state, is what the mark says. */
  predicate Shows(s: System, op: Op, m: Mark) {
    && Enabled(s, op) && Actor(op) == Some(m.p)
    && match m
       case WasReady(p, id) => op.Load? && op.deploymentId == id && ReadyRecord(s, op.workerId, id)
       case WasDesired(p, id) => op.CheckWorker? && s.calls[p].d.id == id && Desires(s, s.calls[p].d)
       case HadVersion(p, id) => op.CheckVersion? && s.calls[p].d.id == id && HasVersion(s, s.calls[p].d)
       case HadToken(p, id) => op.CheckToken? && s.calls[p].d.id == id && s.calls[p].d.workerId in s.store.tokens
       case WasValidated(p, id) => op == Validate(p, None) && s.calls[p].running.id == id
       case WasUploaded(p, id, version) =>
         && op.Upload? && op.uploadReply.UploadAccepted? && op.uploadReply.id == version != "" && op.uploadReply.matches
         && s.calls[p].running.id == id
       case WasRecorded(p, id, version) =>
         && op.Record? && s.calls[p].running.id == id && s.calls[p].providerVersion == version
         && Recorded(s, s.calls[p])
       case WasKnown(p, id, version) =>
         && op.CheckVersion? && s.calls[p].d.id == id && HasVersion(s, s.calls[p].d)
         && s.store.versions[s.calls[p].d.versionId].providerVersionId == version != ""
       case WasReleased(p, id, deployment) =>
         op == Release(p, ReleaseAccepted(deployment, true, ACTIVE)) && deployment != "" && s.calls[p].running.id == id
       case HadFailed(p, id, code) =>
         (op.Validate? || op.Upload? || op.Record? || op.Release?) && s.calls[p].running.id == id && Fails(s, op, code)
  }

  /** Some step that was taken in the run from `s` is what the mark says. */
  predicate Happened(s: System, ops: seq<Op>, m: Mark)
    decreases |ops|
  {
    ops != [] && (Shows(s, ops[0], m) || Happened(Apply(s, ops[0]), ops[1..], m))
  }

  // ---- Where a call stands once the mark has been made ----

  /** The call has won the deployment. */
  predicate Holds(c: Call, id: string) {
    (Executing(c) && c.running.id == id) || (c.Done? && c.id == id)
  }

  predicate WorksOn(c: Call, id: string) {
    (Preparing(c) && c.d.id == id) || Holds(c, id)
  }

  predicate MeansToSucceed(c: Call, id: string) {
    Holds(c, id) && (c.Closing? || c.Done?) && c.goal.Succeed?
  }

  /** A new version is on its way to be released, or was. */
  predicate ReleasesNew(c: Call, id: string, version: string) {
    && Holds(c, id)
    && match c
       case Releasing(running, v, _) => running.kind.Deploy? && v == version
       case Closing(running, goal, _) => running.kind.Deploy? && goal.Succeed? && goal.providerVersion == version
       case Done(_, kind, goal, _) => kind.Deploy? && goal.Succeed? && goal.providerVersion == version
       case _ => false
  }

  /** A version known to the provider is on its way to be restored, or was. */
  predicate Restores(c: Call, id: string, version: string) {
    match c
    case VersionChecked(d, v, _) => d.id == id && d.kind.Rollback? && v.providerVersionId == version
    case TokenChecked(d, v, _) => d.id == id && d.kind.Rollback? && v.providerVersionId == version
    case Claimed(running, _) => running.id == id && running.kind.Rollback? && running.providerVersionId == version
    case Uploaded(running, v, _, _, _) => running.id == id && running.kind.Rollback? && v == version
    case Releasing(running, v, _) => running.id == id && running.kind.Rollback? && v == version
    case Closing(running, goal, _) =>
      running.id == id && running.kind.Rollback? && goal.Succeed? && goal.providerVersion == version
    case Done(done, kind, goal, _) => done == id && kind.Rollback? && goal.Succeed? && goal.providerVersion == version
    case _ => false
  }

  predicate Carries(c: Call, m: Mark) {
    match m
    case WasReady(_, id) => WorksOn(c, id)
    case WasDesired(_, id) => WorksOn(c, id) && !c.Loaded?
    case HadVersion(_, id) => WorksOn(c, id) && !c.Loaded? && !c.WorkerChecked?
    case HadToken(_, id) => (c.TokenChecked? && c.d.id == id) || Holds(c, id)
    case WasValidated(_, id) =>
      (Holds(c, id) && (c.Validated? || c.Uploaded? || c.Releasing?)) || MeansToSucceed(c, id)
    case WasUploaded(_, id, version) =>
      (c.Uploaded? && c.running.id == id && c.providerVersion == version) || ReleasesNew(c, id, version)
    case WasRecorded(_, id, version) => ReleasesNew(c, id, version)
    case WasKnown(_, id, version) => Restores(c, id, version)
    case WasReleased(_, id, deployment) => MeansToSucceed(c, id) && c.goal.providerDeployment == deployment
    case HadFailed(_, id, code) => Holds(c, id) && (c.Closing? || c.Done?) && c.goal.Fail? && c.goal.code == code
  }

  // ---- Whoever stands there made the mark ----

  lemma TheLoad(s: System, op: Op, m: Mark)
    requires op.Load? && Enabled(s, op) && Actor(op) == Some(m.p) && Carries(Apply(s, op).calls[m.p], m)
    requires op.deploymentId in s.store.deployments ==> s.store.deployments[op.deploymentId].id == op.deploymentId
    ensures Shows(s, op, m)
  {
  }

  lemma TheVersionCheck(s: System, op: Op, m: Mark)
    requires op.CheckVersion? && Enabled(s, op) && Actor(op) == Some(m.p) && Carries(Apply(s, op).calls[m.p], m)
    ensures Carries(s.calls[m.p], m) || Shows(s, op, m)
  {
  }

  lemma TheOtherGuards(s: System, op: Op, m: Mark)
    requires op.CheckWorker? || op.CheckToken? || op.OpenFails?
    requires Enabled(s, op) && Actor(op) == Some(m.p) && Carries(Apply(s, op).calls[m.p], m)
    ensures Carries(s.calls[m.p], m) || Shows(s, op, m)
  {
  }

  lemma TheSwap(s: System, op: Op, m: Mark)
    requires op.Start? && Enabled(s, op) && Actor(op) == Some(m.p) && Carries(Apply(s, op).calls[m.p], m)
    ensures Carries(s.calls[m.p], m)
  {
  }

  lemma TheValidation(s: System, op: Op, m: Mark)
    requires op.Validate? && Enabled(s, op) && Actor(op) == Some(m.p) && Carries(Apply(s, op).calls[m.p], m)
    ensures Carries(s.calls[m.p], m) || Shows(s, op, m)
  {
  }

  lemma TheUpload(s: System, op: Op, m: Mark)
    requires op.Upload? && Enabled(s, op) && Actor(op) == Some(m.p) && Carries(Apply(s, op).calls[m.p], m)
    ensures Carries(s.calls[m.p], m) || Shows(s, op, m)
  {
  }

  lemma TheRecord(s: System, op: Op, m: Mark)
    requires op.Record? && Enabled(s, op) && Actor(op) == Some(m.p) && Carries(Apply(s, op).calls[m.p], m)
    ensures Carries(s.calls[m.p], m) || Shows(s, op, m)
  {
  }

  lemma TheRelease(s: System, op: Op, m: Mark)
    requires op.Release? && Enabled(s, op) && Actor(op) == Some(m.p) && Carries(Apply(s, op).calls[m.p], m)
    ensures Carries(s.calls[m.p], m) || Shows(s, op, m)
  {
  }

  lemma TheClose(s: System, op: Op, m: Mark)
    requires op.Close? && Enabled(s, op) && Actor(op) == Some(m.p) && Carries(Apply(s, op).calls[m.p], m)
    ensures Carries(s.calls[m.p], m)
  {
  }

  lemma OwnStepMarks(s: System, op: Op, m: Mark)
    requires Inv(s) && Enabled(s, op) && Actor(op) == Some(m.p) && Carries(Apply(s, op).calls[m.p], m)
    ensures (m.p in s.calls && Carries(s.calls[m.p], m)) || Shows(s, op, m)
  {
    match op
    case Load(_, _, id) =>
      assert id in s.store.deployments ==> RowOk(s, id, s.store.deployments[id]);
      TheLoad(s, op, m);
    case Start(_, _) => TheSwap(s, op, m);
    case Validate(_, _) => TheValidation(s, op, m);
    case Upload(_, _) => TheUpload(s, op, m);
    case Record(_) => TheRecord(s, op, m);
    case Release(_, _) => TheRelease(s, op, m);
    case Close(_, _) => TheClose(s, op, m);
    case CheckVersion(_) => TheVersionCheck(s, op, m);
    case _ => TheOtherGuards(s, op, m);
  }

  lemma OthersStand(s: System, op: Op, p: Pid)
    requires !Enabled(s, op) || Actor(op) != Some(p)
    ensures p in s.calls <==> p in Apply(s, op).calls
    ensures p in s.calls ==> Apply(s, op).calls[p] == s.calls[p]
  {
  }

  lemma StepMarks(s: System, op: Op, m: Mark)
    requires Inv(s) && m.p in Apply(s, op).calls && Carries(Apply(s, op).calls[m.p], m)
    ensures (m.p in s.calls && Carries(s.calls[m.p], m)) || Shows(s, op, m)
  {
    if Enabled(s, op) && Actor(op) == Some(m.p) {
      OwnStepMarks(s, op, m);
    } else {
      OthersStand(s, op, m.p);
    }
  }

  lemma {:induction false} CarriedHappened(s: System, ops: seq<Op>, m: Mark)
    requires Inv(s) && m.p in Run(s, ops).calls && Carries(Run(s, ops).calls[m.p], m)
    ensures (m.p in s.calls && Carries(s.calls[m.p], m)) || Happened(s, ops, m)
    decreases |ops|
  {
    if ops != [] {
      InvKept(s, ops[0]);
      CarriedHappened(Apply(s, ops[0]), ops[1..], m);
      if !Happened(Apply(s, ops[0]), ops[1..], m) {
        StepMarks(s, ops[0], m);
      }
    }
  }

  /** In a run from the start, what a call carries has happened. */
  lemma FromTheStart(storage: Storage, clock: int, ops: seq<Op>, s: System, m: Mark)
    requires s == Run(Init(storage, clock), ops) && m.p in s.calls && Carries(s.calls[m.p], m)
    ensures Happened(Init(storage, clock), ops, m)
  {
    CarriedHappened(Init(storage, clock), ops, m);
  }

  // ---- What happened before ----

  lemma WinnersCarry(s: System, id: string)
    requires Inv(s) && id in s.winners
    ensures s.winners[id] in s.calls
    ensures var p, c := s.winners[id], s.calls[s.winners[id]];
      Carries(c, WasReady(p, id)) && Carries(c, WasDesired(p, id)) && Carries(c, HadVersion(p, id))
      && Carries(c, HadToken(p, id))
  {
    assert WinnerOk(s, id, s.winners[id]);
  }

  /**
   In every run, whoever wins a deployment loaded it while it was ready, checked
   its worker while that desired this version, checked its version while that
   belonged to the worker and was known to the provider if it is to be rolled
   back to, and checked the token while it was there.
   */
  lemma WinnersPassedTheGuards(storage: Storage, clock: int, ops: seq<Op>, s: System, id: string)
    requires s == Run(Init(storage, clock), ops) && id in s.winners
    ensures var i, p := Init(storage, clock), s.winners[id];
      && Happened(i, ops, WasReady(p, id)) && Happened(i, ops, WasDesired(p, id))
      && Happened(i, ops, HadVersion(p, id)) && Happened(i, ops, HadToken(p, id))
  {
    InvAlways(Init(storage, clock), ops);
    var p := s.winners[id];
    WinnersCarry(s, id);
    FromTheStart(storage, clock, ops, s, WasReady(p, id));
    FromTheStart(storage, clock, ops, s, WasDesired(p, id));
    FromTheStart(storage, clock, ops, s, HadVersion(p, id));
    FromTheStart(storage, clock, ops, s, HadToken(p, id));
  }

  /** The winner of a finished deployment has ended, and wrote what the record says. */
  lemma FinishedByItsWinner(s: System, id: string)
    requires Inv(s) && id in s.store.deployments
    requires s.store.deployments[id].state.Succeeded? || s.store.deployments[id].state.Failed?
    ensures id in s.winners && s.winners[id] in s.calls
    ensures var c := s.calls[s.winners[id]];
      c.Done? && c.id == id && c.kind == s.store.deployments[id].kind && Wrote(s.store.deployments[id], c.goal)
  {
    assert RowOk(s, id, s.store.deployments[id]);
    assert WinnerOk(s, id, s.winners[id]);
    assert CallOk(s, s.winners[id], s.calls[s.winners[id]]);
  }

  lemma SuccessCarries(s: System, id: string)
    requires Inv(s) && id in s.store.deployments && s.store.deployments[id].state.Succeeded?
    ensures id in s.winners && s.winners[id] in s.calls
    ensures var p, c, d := s.winners[id], s.calls[s.winners[id]], s.store.deployments[id];
      && Carries(c, WasValidated(p, id)) && Carries(c, WasReleased(p, id, d.providerDeploymentId))
      && (d.kind.Deploy? ==> Carries(c, WasUploaded(p, id, d.providerVersionId))
                             && Carries(c, WasRecorded(p, id, d.providerVersionId)))
      && (d.kind.Rollback? ==> Carries(c, WasKnown(p, id, d.providerVersionId)))
  {
    FinishedByItsWinner(s, id);
  }

  lemma FailureCarries(s: System, id: string)
    requires Inv(s) && id in s.store.deployments && s.store.deployments[id].state.Failed?
    ensures id in s.winners && s.winners[id] in s.calls
    ensures Carries(s.calls[s.winners[id]], HadFailed(s.winners[id], id, s.store.deployments[id].errorCode))
  {
    FinishedByItsWinner(s, id);
  }

  /**
   In every run, a deployment that succeeded was validated by its winner and
   released by the provider under the identifier it records.
   */
  lemma SuccessWasReleased(storage: Storage, clock: int, ops: seq<Op>, s: System, id: string)
    requires s == Run(Init(storage, clock), ops) && id in s.store.deployments
    requires s.store.deployments[id].state.Succeeded?
    ensures id in s.winners && Happened(Init(storage, clock), ops, WasValidated(s.winners[id], id))
    ensures Happened(Init(storage, clock), ops,
                     WasReleased(s.winners[id], id, s.store.deployments[id].providerDeploymentId))
  {
    InvAlways(Init(storage, clock), ops);
    SuccessCarries(s, id);
    FromTheStart(storage, clock, ops, s, WasValidated(s.winners[id], id));
    FromTheStart(storage, clock, ops, s, WasReleased(s.winners[id], id, s.store.deployments[id].providerDeploymentId));
  }

  /** If it released a new version, that was uploaded and recorded under the identifier the deployment names. */
  lemma SuccessWasUploaded(storage: Storage, clock: int, ops: seq<Op>, s: System, id: string)
    requires s == Run(Init(storage, clock), ops) && id in s.store.deployments
    requires s.store.deployments[id].state.Succeeded?
    requires s.store.deployments[id].kind.Deploy?
    ensures id in s.winners
    ensures var i, p, d := Init(storage, clock), s.winners[id], s.store.deployments[id];
      && Happened(i, ops, WasUploaded(p, id, d.providerVersionId))
      && Happened(i, ops, WasRecorded(p, id, d.providerVersionId))
  {
    InvAlways(Init(storage, clock), ops);
    SuccessCarries(s, id);
    FromTheStart(storage, clock, ops, s, WasUploaded(s.winners[id], id, s.store.deployments[id].providerVersionId));
    FromTheStart(storage, clock, ops, s, WasRecorded(s.winners[id], id, s.store.deployments[id].providerVersionId));
  }

  /** If it rolled back, the version it checked was known to the provider under the identifier the deployment names. */
  lemma RollbackWasKnown(storage: Storage, clock: int, ops: seq<Op>, s: System, id: string)
    requires s == Run(Init(storage, clock), ops) && id in s.store.deployments
    requires s.store.deployments[id].state.Succeeded? && s.store.deployments[id].kind.Rollback?
    ensures id in s.winners
    ensures Happened(Init(storage, clock), ops, WasKnown(s.winners[id], id, s.store.deployments[id].providerVersionId))
  {
    InvAlways(Init(storage, clock), ops);
    SuccessCarries(s, id);
    FromTheStart(storage, clock, ops, s, WasKnown(s.winners[id], id, s.store.deployments[id].providerVersionId));
  }

  /** In every run, a deployment that failed records the code of a failure its winner met. */
  lemma FailureWasMet(storage: Storage, clock: int, ops: seq<Op>, s: System, id: string)
    requires s == Run(Init(storage, clock), ops) && id in s.store.deployments && s.store.deployments[id].state.Failed?
    ensures id in s.winners
    ensures Happened(Init(storage, clock), ops, HadFailed(s.winners[id], id, s.store.deployments[id].errorCode))
  {
    InvAlways(Init(storage, clock), ops);
    FailureCarries(s, id);
    FromTheStart(storage, clock, ops, s, HadFailed(s.winners[id], id, s.store.deployments[id].errorCode));
  }

  // ---- The guards decide ----

  /** Everything the guards of an execute call ask for. */
  predicate MayExecute(s: System, workerId: string, id: string) {
    && ReadyRecord(s, workerId, id)
    && var d := s.store.deployments[id]; Desires(s, d) && HasVersion(s, d) && d.workerId in s.store.tokens
  }

  lemma FourSteps(s: System, a: Op, b: Op, c: Op, d: Op)
    ensures Run(s, [a, b, c, d]) == Apply(Apply(Apply(Apply(s, a), b), c), d)
  {
    assert [a, b, c, d] == [a] + [b, c, d] && [b, c, d] == [b] + [c, d] && [c, d] == [c] + [d] && [d] == [d] + [];
    RunFirst(s, a, [b, c, d]);
    RunFirst(Apply(s, a), b, [c, d]);
    RunFirst(Apply(Apply(s, a), b), c, [d]);
    RunFirst(Apply(Apply(Apply(s, a), b), c), d, []);
  }

  lemma FirstTwoGuards(s: System, p: Pid, workerId: string, id: string)
    requires p !in s.calls
    ensures Apply(Apply(s, Load(p, workerId, id)), CheckWorker(p)) ==
            To(s, p, if ReadyRecord(s, workerId, id) && Desires(s, s.store.deployments[id])
                     then WorkerChecked(s.store.deployments[id], s.clock) else TurnedAway)
  {
  }

  lemma LastTwoGuards(s: System, p: Pid, d: Deployment)
    ensures Apply(Apply(To(s, p, WorkerChecked(d, s.clock)), CheckVersion(p)), CheckToken(p)) ==
            To(s, p, if HasVersion(s, d) && d.workerId in s.store.tokens
                     then TokenChecked(d, s.store.versions[d.versionId], s.clock) else TurnedAway)
  {
  }

  /** From every state, an uninterrupted call passes the guards exactly when everything they ask for holds. */
  lemma GuardsDecide(s: System, p: Pid, workerId: string, id: string)
    requires p !in s.calls
    ensures Run(s, [Load(p, workerId, id), CheckWorker(p), CheckVersion(p), CheckToken(p)]) ==
            To(s, p, if MayExecute(s, workerId, id)
                     then var d := s.store.deployments[id]; TokenChecked(d, s.store.versions[d.versionId], s.clock)
                     else TurnedAway)
  {
    FourSteps(s, Load(p, workerId, id), CheckWorker(p), CheckVersion(p), CheckToken(p));
    FirstTwoGuards(s, p, workerId, id);
    if ReadyRecord(s, workerId, id) && Desires(s, s.store.deployments[id]) {
      LastTwoGuards(s, p, s.store.deployments[id]);
    } else {
      assert Apply(Apply(To(s, p, TurnedAway), CheckVersion(p)), CheckToken(p)) == To(s, p, TurnedAway);
    }
  }
}
