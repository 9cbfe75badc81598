/**
 Executions nobody interrupts: with a provider that accepts they succeed, and
 with an answer that does not fit into a record they leave their deployment
 marked running.
 */
module UndisturbedExecutions {
  import opened Common
  import opened Deployments
  import opened DeploymentExecutor
  import opened ExecutionOutcomes
  import DeploymentStore

  type Version = DeploymentStore.Version
  type Store = DeploymentStore.Store

  predicate NoErrors(ops: seq<Op>) {
    forall op :: op in ops ==> ErrorOf(op).None?
  }

  // ---- Winning the deployment ----

  predicate OthersStay(s: System, t: System, p: Pid) {
    forall q :: q in s.calls && q != p ==> q in t.calls && t.calls[q] == s.calls[q]
  }

  /** The deployment is as planned and still the desired one, and everything it needs is there. */
  predicate Executable(storage: Storage, store: Store, d: Deployment) {
    && d.id in store.deployments && store.deployments[d.id] == d && d.workerId != "" && d.versionId != ""
    && d.state.Ready? && !d.allowed && !d.kind.UnknownKind?
    && d.finishedAt.None? && d.errorCode == "" && d.providerDeploymentId == "" && d.providerState == ""
    && d.workerId in store.workers && store.workers[d.workerId].desiredVersionId == d.versionId
    && d.versionId in store.versions && store.versions[d.versionId].workerId == d.workerId
    && (d.kind.Rollback? ==> store.versions[d.versionId].providerVersionId != "")
    && IdentifierFits(storage, if d.kind.Rollback? then store.versions[d.versionId].providerVersionId
                               else d.providerVersionId)
    && d.workerId in store.tokens
  }

  lemma GuardsPass(s: System, p: Pid, d: Deployment) returns (ops: seq<Op>)
    requires p !in s.calls && Executable(s.storage, s.store, d)
    ensures Run(s, ops) == To(s, p, TokenChecked(d, s.store.versions[d.versionId], s.clock)) && NoErrors(ops)
  {
    var v := s.store.versions[d.versionId];
    ops := [Load(p, d.workerId, d.id)];
    RunOneMore(s, [], Load(p, d.workerId, d.id));
    assert [] + [Load(p, d.workerId, d.id)] == ops;
    RunOneMore(s, ops, CheckWorker(p));
    ops := ops + [CheckWorker(p)];
    assert Run(s, ops) == To(s, p, WorkerChecked(d, s.clock));
    RunOneMore(s, ops, CheckVersion(p));
    ops := ops + [CheckVersion(p)];
    assert Run(s, ops) == To(s, p, VersionChecked(d, v, s.clock));
    RunOneMore(s, ops, CheckToken(p));
    ops := ops + [CheckToken(p)];
  }

  lemma SwapIsWon(s: System, p: Pid, d: Deployment, v: Version)
    requires p in s.calls && s.calls[p] == TokenChecked(d, v, s.clock)
    requires Executable(s.storage, s.store, d) && v == s.store.versions[d.versionId] && d.createdAt <= s.clock
    ensures var running, t := RunningRecord(d, v, s.clock), Apply(s, Start(p, s.clock));
      && t.calls == s.calls[p := Claimed(running, s.clock)] && t.clock == s.clock && t.storage == s.storage
      && t.store == s.store.(deployments := s.store.deployments[d.id := running])
  {
  }

  /** An uninterrupted call passes the guards and wins the swap. */
  lemma ClaimIsWon(s: System, p: Pid, d: Deployment) returns (ops: seq<Op>, t: System)
    requires p !in s.calls && Executable(s.storage, s.store, d) && d.createdAt <= s.clock
    ensures t == Run(s, ops) && t.clock == s.clock && t.storage == s.storage && NoErrors(ops)
    ensures var running := RunningRecord(d, s.store.versions[d.versionId], s.clock);
      && t.calls == s.calls[p := Claimed(running, s.clock)]
      && t.store == s.store.(deployments := s.store.deployments[d.id := running])
  {
    var guards := GuardsPass(s, p, d);
    SwapIsWon(Run(s, guards), p, d, s.store.versions[d.versionId]);
    RunOneMore(s, guards, Start(p, s.clock));
    ops := guards + [Start(p, s.clock)];
    t := Run(s, ops);
  }

  // ---- Success ----

  lemma UploadIsAccepted(s: System, p: Pid, running: Deployment, uploaded: string, number: nat, at: int)
    requires p in s.calls && s.calls[p] == Validated(running, s.clock) && uploaded != "" && running.kind.Deploy?
    ensures var t := Apply(s, Upload(p, UploadAccepted(uploaded, true, number, Some(at))));
      && p in t.calls && t.calls[p] == Uploaded(running, uploaded, number, Some(at), s.clock)
      && t.clock == s.clock && t.store == s.store && t.storage == s.storage
  {
  }

  lemma VersionIsRecorded(s: System, p: Pid, running: Deployment, uploaded: string, number: nat, at: int)
    requires p in s.calls && s.calls[p] == Uploaded(running, uploaded, number, Some(at), s.clock) && uploaded != ""
    requires IdentifierFits(s.storage, uploaded) && running.workerId != "" && running.versionId != ""
    requires running.versionId in s.store.versions && s.store.versions[running.versionId].workerId == running.workerId
    ensures var t := Apply(s, Record(p));
      && p in t.calls && t.calls[p] == Releasing(running, uploaded, s.clock)
      && t.clock == s.clock && t.store.deployments == s.store.deployments && t.storage == s.storage
  {
  }

  lemma TokenIsValidated(s: System, p: Pid, running: Deployment)
    requires p in s.calls && s.calls[p] == Claimed(running, s.clock)
    ensures var t := Apply(s, Validate(p, None));
      && p in t.calls && t.clock == s.clock && t.store == s.store && t.storage == s.storage
      && t.calls[p] == if running.kind.Deploy? then Validated(running, s.clock)
                       else Releasing(running, running.providerVersionId, s.clock)
  {
  }

  /** A new version is validated, uploaded and recorded. */
  lemma UploadIsRecorded(s: System, p: Pid, running: Deployment, uploaded: string, number: nat, at: int)
    returns (ops: seq<Op>, t: System)
    requires p in s.calls && s.calls[p] == Claimed(running, s.clock) && uploaded != "" && running.kind.Deploy?
    requires IdentifierFits(s.storage, uploaded) && running.workerId != "" && running.versionId != ""
    requires running.versionId in s.store.versions && s.store.versions[running.versionId].workerId == running.workerId
    ensures t == Run(s, ops) && t.clock == s.clock && t.storage == s.storage
    ensures t.store.deployments == s.store.deployments
    ensures NoErrors(ops) && t.calls.Keys == s.calls.Keys && OthersStay(s, t, p)
    ensures p in t.calls && t.calls[p] == Releasing(running, uploaded, s.clock)
  {
    var validate, upload := Validate(p, None), Upload(p, UploadAccepted(uploaded, true, number, Some(at)));
    TokenIsValidated(s, p, running);
    RunFirst(s, validate, [upload] + [Record(p)]);
    var a := Apply(s, validate);
    UploadIsAccepted(a, p, running, uploaded, number, at);
    RunFirst(a, upload, [Record(p)]);
    var b := Apply(a, upload);
    VersionIsRecorded(b, p, running, uploaded, number, at);
    RunFirst(b, Record(p), []);
    assert [Record(p)] + [] == [Record(p)];
    ops := [validate] + ([upload] + [Record(p)]);
    t := Apply(b, Record(p));
  }

  /** A known version is only validated. */
  lemma RollbackIsValidated(s: System, p: Pid, running: Deployment) returns (ops: seq<Op>, t: System)
    requires p in s.calls && s.calls[p] == Claimed(running, s.clock) && running.kind.Rollback?
    ensures t == Run(s, ops) && t.clock == s.clock && t.storage == s.storage
    ensures t.store.deployments == s.store.deployments
    ensures NoErrors(ops) && t.calls.Keys == s.calls.Keys && OthersStay(s, t, p)
    ensures p in t.calls && t.calls[p] == Releasing(running, running.providerVersionId, s.clock)
  {
    TokenIsValidated(s, p, running);
    RunOneMore(s, [], Validate(p, None));
    ops := [] + [Validate(p, None)];
    t := Apply(s, Validate(p, None));
  }

  lemma ReleaseIsAccepted(s: System, p: Pid, running: Deployment, version: string, released: string)
    requires p in s.calls && s.calls[p] == Releasing(running, version, s.clock) && released != ""
    ensures var t := Apply(s, Release(p, ReleaseAccepted(released, true, ACTIVE)));
      && p in t.calls && t.calls[p] == Closing(running, Succeed(version, released), s.clock)
      && t.clock == s.clock && t.store == s.store && t.storage == s.storage
  {
  }

  /** The calls on the provider that release a version, and the version released. */
  lemma ProviderReleases(s: System, p: Pid, running: Deployment, uploaded: string, number: nat, at: int,
                         released: string)
    returns (ops: seq<Op>, version: string)
    requires p in s.calls && s.calls[p] == Claimed(running, s.clock) && uploaded != "" && released != ""
    requires IdentifierFits(s.storage, uploaded) && running.workerId != "" && running.versionId != ""
    requires running.versionId in s.store.versions && s.store.versions[running.versionId].workerId == running.workerId
    requires running.kind.Deploy? || (running.kind.Rollback? && running.providerVersionId != "")
    ensures version == (if running.kind.Deploy? then uploaded else running.providerVersionId)
    ensures var t := Run(s, ops);
      && p in t.calls && t.calls[p] == Closing(running, Succeed(version, released), s.clock)
      && t.clock == s.clock && t.store.deployments == s.store.deployments && t.storage == s.storage
      && t.calls.Keys == s.calls.Keys && OthersStay(s, t, p)
    ensures NoErrors(ops) && Release(p, ReleaseAccepted(released, true, ACTIVE)) in ops
  {
    version := if running.kind.Deploy? then uploaded else running.providerVersionId;
    var first, t;
    if running.kind.Deploy? {
      first, t := UploadIsRecorded(s, p, running, uploaded, number, at);
    } else {
      first, t := RollbackIsValidated(s, p, running);
    }
    var release := Release(p, ReleaseAccepted(released, true, ACTIVE));
    ReleaseIsAccepted(t, p, running, version, released);
    RunOneMore(s, first, release);
    ops := first + [release];
  }

  lemma CloseSaves(s: System, p: Pid, d: Deployment, v: Version, goal: Goal)
    requires d.id in s.store.deployments && s.store.deployments[d.id] == RunningRecord(d, v, s.clock)
    requires p in s.calls && s.calls[p] == Closing(RunningRecord(d, v, s.clock), goal, s.clock)
    requires d.createdAt <= s.clock && d.errorCode == ""
    requires goal.Succeed? && GoalSound(goal) && GoalFits(s.storage, goal)
    ensures var t := Apply(s, Close(p, s.clock));
      t.calls[p] == Done(d.id, d.kind, goal, true)
      && t.store.deployments == s.store.deployments[d.id := FinalRecord(RunningRecord(d, v, s.clock), goal, s.clock)]
  {
  }

  /** An uninterrupted call and a provider that accepts come to the final write. */
  lemma ComesToClose(s: System, p: Pid, d: Deployment, uploaded: string, number: nat, at: int, released: string)
    returns (ops: seq<Op>, t: System, version: string)
    requires p !in s.calls && Executable(s.storage, s.store, d) && d.createdAt <= s.clock
    requires uploaded != "" && released != ""
    requires IdentifierFits(s.storage, uploaded)
    ensures t == Run(s, ops) && t.clock == s.clock && t.storage == s.storage
    ensures version == if d.kind.Deploy? then uploaded else s.store.versions[d.versionId].providerVersionId
    ensures t.calls.Keys == s.calls.Keys + {p} && OthersStay(s, t, p)
    ensures var running := RunningRecord(d, s.store.versions[d.versionId], s.clock);
      && t.calls[p] == Closing(running, Succeed(version, released), s.clock)
      && t.store.deployments == s.store.deployments[d.id := running]
    ensures NoErrors(ops) && Release(p, ReleaseAccepted(released, true, ACTIVE)) in ops
  {
    var claim, claimed := ClaimIsWon(s, p, d);
    var calls;
    calls, version := ProviderReleases(claimed, p, RunningRecord(d, s.store.versions[d.versionId], s.clock), uploaded,
                                       number, at, released);
    RunConcat(s, claim, calls);
    ops, t := claim + calls, Run(claimed, calls);
  }

  /**
   From every state with an executable deployment, a caller that nobody
   interrupts and a provider that accepts bring it to succeeded, with the
   released version recorded: the uploaded one, or for a rollback the known one.
   */
  lemma ExecutableSucceeds(s: System, p: Pid, d: Deployment, uploaded: string, number: nat, at: int, released: string)
    returns (ops: seq<Op>)
    requires p !in s.calls && Executable(s.storage, s.store, d) && d.createdAt <= s.clock
    requires uploaded != "" && released != ""
    requires IdentifierFits(s.storage, uploaded) && IdentifierFits(s.storage, released)
    ensures var t := Run(s, ops);
            var version := if d.kind.Deploy? then uploaded else s.store.versions[d.versionId].providerVersionId;
      && p in t.calls && t.calls[p] == Done(d.id, d.kind, Succeed(version, released), true)
      && d.id in t.store.deployments && t.store.deployments[d.id].state.Succeeded?
      && t.store.deployments[d.id].providerVersionId == version
      && t.store.deployments[d.id].providerDeploymentId == released
  {
    var front, t, version := ComesToClose(s, p, d, uploaded, number, at, released);
    CloseSaves(t, p, d, s.store.versions[d.versionId], Succeed(version, released));
    RunOneMore(s, front, Close(p, s.clock));
    ops := front + [Close(p, s.clock)];
  }

  // ---- Answers that do not fit ----

  lemma CloseIsRefused(s: System, p: Pid, d: Deployment, v: Version, goal: Goal)
    requires d.id in s.store.deployments && s.store.deployments[d.id] == RunningRecord(d, v, s.clock)
    requires p in s.calls && s.calls[p] == Closing(RunningRecord(d, v, s.clock), goal, s.clock)
    requires !GoalFits(s.storage, goal)
    ensures var t := Apply(s, Close(p, s.clock));
      && t.calls == s.calls[p := Done(d.id, d.kind, goal, false)]
      && t.store.deployments == s.store.deployments
  {
  }

  lemma ErrorIsNotSaved(s: System, p: Pid, d: Deployment, v: Version, e: ProviderError)
    requires d.id in s.store.deployments && s.store.deployments[d.id] == RunningRecord(d, v, s.clock)
    requires p in s.calls && s.calls[p] == Claimed(RunningRecord(d, v, s.clock), s.clock) && !ErrorFits(s.storage, e)
    ensures var t := Run(s, [Validate(p, Some(e))] + [Close(p, s.clock)]);
      && p in t.calls && AtEnd(t.calls[p]) && t.calls.Keys == s.calls.Keys && OthersStay(s, t, p)
      && t.store.deployments == s.store.deployments
  {
    var validate, close := Validate(p, Some(e)), Close(p, s.clock);
    RunOneMore(s, [], validate);
    assert [] + [validate] == [validate];
    FitsExactly(s.storage, e);
    CloseIsRefused(Apply(s, validate), p, d, v, Fail(RunningRecord(d, v, s.clock).providerVersionId, ErrorCode(e)));
    RunOneMore(s, [validate], close);
  }

  /** The deployment is left running by a run in which all other calls stay where they were. */
  ghost predicate LeftRunning(s: System, ops: seq<Op>, p: Pid, id: string) {
    var t := Run(s, ops);
    && t.calls.Keys == s.calls.Keys + {p} && AtEnd(t.calls[p]) && OthersStay(s, t, p)
    && id in t.store.deployments && t.store.deployments[id].state.Running?
  }

  /** The provider is asked to answer `e` once, and no other error occurs. */
  predicate AnswersOnly(ops: seq<Op>, p: Pid, e: ProviderError) {
    Validate(p, Some(e)) in ops && forall op :: op in ops && ErrorOf(op).Some? ==> op == Validate(p, Some(e))
  }

  /**
   Every error that does not fit can leave a deployment running: from every
   state with an executable deployment, a caller that nobody interrupts and a
   provider that answers with that error and no other end with the deployment
   marked running.
   */
  lemma UnfitErrorSticks(s: System, p: Pid, d: Deployment, e: ProviderError) returns (ops: seq<Op>)
    requires p !in s.calls && Executable(s.storage, s.store, d) && d.createdAt <= s.clock && !ErrorFits(s.storage, e)
    ensures LeftRunning(s, ops, p, d.id) && AnswersOnly(ops, p, e)
  {
    var claim, claimed := ClaimIsWon(s, p, d);
    var validate, close := Validate(p, Some(e)), Close(p, s.clock);
    ErrorIsNotSaved(claimed, p, d, s.store.versions[d.versionId], e);
    RunConcat(s, claim, [validate] + [close]);
    ops := claim + ([validate] + [close]);
  }

  /**
   Over PostgreSQL so can every identifier that does not fit: a provider that
   accepts everything and answers the release with that identifier.
   */
  lemma UnfitIdentifierSticks(s: System, p: Pid, d: Deployment, uploaded: string, number: nat, at: int,
                              released: string)
    returns (ops: seq<Op>)
    requires p !in s.calls && Executable(s.storage, s.store, d) && d.createdAt <= s.clock && uploaded != ""
    requires IdentifierFits(s.storage, uploaded) && !IdentifierFits(s.storage, released)
    ensures LeftRunning(s, ops, p, d.id) && NoErrors(ops) && Release(p, ReleaseAccepted(released, true, ACTIVE)) in ops
  {
    var front, t, version := ComesToClose(s, p, d, uploaded, number, at, released);
    CloseIsRefused(t, p, d, s.store.versions[d.versionId], Succeed(version, released));
    RunOneMore(s, front, Close(p, s.clock));
    ops := front + [Close(p, s.clock)];
  }

  /** A run that plans one deployment. */
  lemma PlannedRun(storage: Storage, clock: int) returns (ops: seq<Op>, d: Deployment)
    ensures var s := Run(Init(storage, clock), ops);
      && s.calls == map[] && s.clock == clock && s.storage == storage
      && Executable(storage, s.store, d) && d.createdAt <= clock
    ensures NoErrors(ops)
  {
    var worker := DeploymentStore.Worker("w", "script", "", 1);
    var version := DeploymentStore.Version("v", "w", "", 0, None);
    d := Deployment("d", "w", "v", "", Deploy, Ready, false, "", "", "", "", None, None, clock, "admin");
    var i := Init(storage, clock);
    var create, token := Admin(DeploymentStore.CreateWorkerOp(worker)), Admin(DeploymentStore.PutTokenOp("w"));
    var upload := Admin(DeploymentStore.CreateVersionOp(version));
    var plan := Admin(DeploymentStore.PlanOp(d, DeploymentStore.Worker("w", "script", "v", 2)));
    ops := [create];
    RunOneMore(i, [], create);
    assert [] + [create] == ops;
    RunOneMore(i, ops, token);
    ops := ops + [token];
    assert Run(i, ops).store == DeploymentStore.EMPTY.store.(workers := map["w" := worker], tokens := {"w"});
    RunOneMore(i, ops, upload);
    ops := ops + [upload];
    assert Run(i, ops).store == DeploymentStore.EMPTY.store.(
        workers := map["w" := worker], tokens := {"w"}, versions := map["v" := version]);
    RunOneMore(i, ops, plan);
    ops := ops + [plan];
  }

  /**
   For every error that does not fit, some run from the start in which the
   provider answers that error and no other ends with a deployment still marked
   running.
   */
  lemma UnfitErrorIsReachable(storage: Storage, clock: int, e: ProviderError) returns (ops: seq<Op>, id: string)
    requires !ErrorFits(storage, e)
    ensures var s := Run(Init(storage, clock), ops);
      && (forall p :: p in s.calls ==> AtEnd(s.calls[p]))
      && id in s.store.deployments && s.store.deployments[id].state.Running?
    ensures AnswersOnly(ops, 0, e)
  {
    var plan, d := PlannedRun(storage, clock);
    var more := UnfitErrorSticks(Run(Init(storage, clock), plan), 0, d, e);
    RunConcat(Init(storage, clock), plan, more);
    ops, id := plan + more, d.id;
  }
}
