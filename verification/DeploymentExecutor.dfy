/**
 Concurrent execution of planned deployments over the in-memory store or over
 PostgreSQL. Any number of execute calls run at once; each read,
 compare-and-swap or provider call is one step, and the provider may answer
 anything. Over PostgreSQL an update of a deployment record is the atomic step
 its read-check-write form refines. Clock readings are taken between the steps
 of the call that uses them.
 */
module DeploymentExecutor {
  import opened Common
  import opened Deployments
  import opened DeploymentStore
  import PostgresDeployments

  type Pid = nat

  /** An error from the provider client: one of its own, with a kind, or anything else. */
  datatype ProviderError = Foreign | OfKind(kind: string)

  function ErrorCode(e: ProviderError): string {
    match e
    case Foreign => "cloudflare_provider_failed"
    case OfKind(kind) => "cloudflare_" + kind
  }

  /** The error kinds the provider client declares. */
  const KINDS: seq<string> := [
    "validation", "authentication", "permission", "account_scope", "not_found", "conflict", "rate_limited",
    "provider", "response_too_large", "timeout", "transport", "redirect", "cancelled"]

  const PROVIDER_ERROR := OfKind("provider")

  const PERSISTENCE_FAILURE := "persistence_failure"

  datatype UploadReply =
    | UploadRejected(e: ProviderError)
    | UploadAccepted(id: string, matches: bool, number: int, at: Option<int>)

  datatype ReleaseReply =
    | ReleaseRejected(e: ProviderError)
    | ReleaseAccepted(id: string, scriptMatches: bool, state: string)

  /** How an execution means to end. */
  datatype Goal =
    | Succeed(providerVersion: string, providerDeployment: string)
    | Fail(providerVersion: string, code: string)

  /** Where an execute call stands. `since` is the clock at its last step. */
  datatype Call =
    | Loaded(d: Deployment, since: int)
    | WorkerChecked(d: Deployment, since: int)
    | VersionChecked(d: Deployment, v: Version, since: int)
    | TokenChecked(d: Deployment, v: Version, since: int)
    | Claimed(running: Deployment, since: int)
    | Validated(running: Deployment, since: int)
    | Uploaded(running: Deployment, providerVersion: string, number: int, at: Option<int>, since: int)
    | Releasing(running: Deployment, providerVersion: string, since: int)
    | Closing(running: Deployment, goal: Goal, since: int)
    | TurnedAway
    | Done(id: string, kind: Kind, goal: Goal, saved: bool)

  datatype Storage = InMemory | Postgres

  /** The longest provider identifier a column admits. */
  const MAX_IDENTIFIER := 128

  datatype System = System(
    storage: Storage,
    clock: int,
    store: Store,
    calls: map<Pid, Call>,
    winners: map<string, Pid>,
    contacts: set<(Pid, string)>)

  datatype Op =
    | Tick(to: int)
    | Admin(op: DeploymentStore.Op)
    | Load(p: Pid, workerId: string, deploymentId: string)
    | CheckWorker(p: Pid)
    | CheckVersion(p: Pid)
    | CheckToken(p: Pid)
    | OpenFails(p: Pid)
    | Start(p: Pid, r: int)
    | Validate(p: Pid, err: Option<ProviderError>)
    | Upload(p: Pid, uploadReply: UploadReply)
    | Record(p: Pid)
    | Release(p: Pid, releaseReply: ReleaseReply)
    | Close(p: Pid, r: int)

  /**
   Only execute calls update deployment records; a plan carries a creation time
   the clock has shown. PostgreSQL refuses an identifier its column does not
   admit, whoever records it.
   */
  predicate AdminEnabled(s: System, op: DeploymentStore.Op) {
    && !op.UpdateOp? && (op.PlanOp? ==> op.d.createdAt <= s.clock)
    && (s.storage.Postgres? && op.SetProviderOp? ==> |op.providerId| <= MAX_IDENTIFIER)
  }

  predicate Enabled(s: System, op: Op) {
    match op
    case Tick(to) => s.clock <= to
    case Admin(o) => AdminEnabled(s, o)
    case Load(p, _, _) => p !in s.calls
    case CheckWorker(p) => p in s.calls && s.calls[p].Loaded?
    case CheckVersion(p) => p in s.calls && s.calls[p].WorkerChecked?
    case CheckToken(p) => p in s.calls && s.calls[p].VersionChecked?
    case OpenFails(p) => p in s.calls && s.calls[p].TokenChecked?
    case Start(p, r) => p in s.calls && s.calls[p].TokenChecked? && s.calls[p].since <= r <= s.clock
    case Validate(p, _) => p in s.calls && s.calls[p].Claimed?
    case Upload(p, _) => p in s.calls && s.calls[p].Validated? && s.calls[p].running.kind.Deploy?
    case Record(p) => p in s.calls && s.calls[p].Uploaded?
    case Release(p, _) => p in s.calls && s.calls[p].Releasing?
    case Close(p, r) => p in s.calls && s.calls[p].Closing? && s.calls[p].since <= r <= s.clock
  }

  /** The compare-and-swap on a deployment record. */
  function Save(storage: Storage, s: Store, d: Deployment, expected: State): (Store, Result) {
    var (rows, result) := if storage.Postgres? then PostgresDeployments.Answer(s.deployments, d, expected)
                          else Update(s.deployments, d, expected);
    (s.(deployments := rows), result)
  }

  function SaveProvider(storage: Storage, s: Store, d: Deployment, providerId: string, number: int, at: Option<int>)
    : (Store, Result)
  {
    var (after, result) := SetProvider(s, d.workerId, d.versionId, providerId, number, at);
    if storage.Postgres? && result.Ok? && |providerId| > MAX_IDENTIFIER then (s, StorageError) else (after, result)
  }

  /** What a plan or a new version leaves in the storage: the inserts of PostgreSQL set no provider column. */
  function Inserted(storage: Storage, op: DeploymentStore.Op): DeploymentStore.Op {
    if storage.InMemory? then op
    else match op
      case PlanOp(d, updated) => PlanOp(PostgresDeployments.FromRow(PostgresDeployments.NewRow(d)), updated)
      case CreateVersionOp(v) => CreateVersionOp(v.(providerVersionId := "", providerNumber := 0, uploadedAt := None))
      case _ => op
  }

  function To(s: System, p: Pid, c: Call): System {
    s.(calls := s.calls[p := c])
  }

  /** A provider call by `p` for deployment `id`, after which the call stands at `c`. */
  function Contact(s: System, p: Pid, id: string, c: Call): System {
    s.(calls := s.calls[p := c], contacts := s.contacts + {(p, id)})
  }

  function LoadStep(s: System, p: Pid, workerId: string, id: string): System {
    if id !in s.store.deployments || s.store.deployments[id].workerId != workerId then To(s, p, TurnedAway)
    else
      var d := s.store.deployments[id];
      To(s, p, if !d.state.Ready? || d.allowed then TurnedAway else Loaded(d, s.clock))
  }

  function CheckWorkerStep(s: System, p: Pid, d: Deployment): System {
    if d.workerId !in s.store.workers || s.store.workers[d.workerId].desiredVersionId != d.versionId then
      To(s, p, TurnedAway)
    else To(s, p, WorkerChecked(d, s.clock))
  }

  function CheckVersionStep(s: System, p: Pid, d: Deployment): System {
    if d.versionId !in s.store.versions || s.store.versions[d.versionId].workerId != d.workerId then
      To(s, p, TurnedAway)
    else
      var v := s.store.versions[d.versionId];
      To(s, p, if d.kind.Rollback? && v.providerVersionId == "" then TurnedAway else VersionChecked(d, v, s.clock))
  }

  function RunningRecord(d: Deployment, v: Version, r: int): Deployment {
    var running := d.(state := Running, allowed := true, startedAt := Some(r));
    if d.kind.Rollback? then running.(providerVersionId := v.providerVersionId) else running
  }

  function StartStep(s: System, p: Pid, d: Deployment, v: Version, r: int): System {
    var running := RunningRecord(d, v, r);
    var (store, result) := Save(s.storage, s.store, running, Ready);
    if result.Ok? then
      s.(store := store, calls := s.calls[p := Claimed(running, s.clock)], winners := s.winners[d.id := p])
    else To(s, p, TurnedAway)
  }

  function Validation(c: Call, err: Option<ProviderError>, clock: int): Call
    requires c.Claimed?
  {
    if err.Some? then Closing(c.running, Fail(c.running.providerVersionId, ErrorCode(err.value)), clock)
    else if c.running.kind.Deploy? then Validated(c.running, clock)
    else Releasing(c.running, c.running.providerVersionId, clock)
  }

  function AfterUpload(c: Call, reply: UploadReply, clock: int): Call
    requires c.Validated?
  {
    var fail := (e: ProviderError) => Closing(c.running, Fail(c.running.providerVersionId, ErrorCode(e)), clock);
    if reply.UploadRejected? then fail(reply.e)
    else if reply.id == "" || !reply.matches then fail(PROVIDER_ERROR)
    else Uploaded(c.running, reply.id, reply.number, reply.at, clock)
  }

  function RecordStep(s: System, p: Pid, c: Call): System
    requires c.Uploaded?
  {
    var (store, result) := SaveProvider(s.storage, s.store, c.running, c.providerVersion, c.number, c.at);
    To(s.(store := store), p,
       if result.Ok? then Releasing(c.running, c.providerVersion, s.clock)
       else Closing(c.running, Fail(c.providerVersion, PERSISTENCE_FAILURE), s.clock))
  }

  function AfterRelease(c: Call, reply: ReleaseReply, clock: int): Call
    requires c.Releasing?
  {
    var fail := (e: ProviderError) => Closing(c.running, Fail(c.providerVersion, ErrorCode(e)), clock);
    if reply.ReleaseRejected? then fail(reply.e)
    else if reply.id == "" || !reply.scriptMatches || reply.state != ACTIVE then fail(PROVIDER_ERROR)
    else Closing(c.running, Succeed(c.providerVersion, reply.id), clock)
  }

  function FinalRecord(running: Deployment, goal: Goal, r: int): Deployment {
    match goal
    case Succeed(version, deployment) =>
      running.(state := Succeeded, providerVersionId := version, providerDeploymentId := deployment,
               providerState := ACTIVE, errorCode := "", finishedAt := Some(r))
    case Fail(version, code) =>
      running.(state := Failed, providerVersionId := version, errorCode := code, finishedAt := Some(r))
  }

  function CloseStep(s: System, p: Pid, c: Call, r: int): System
    requires c.Closing?
  {
    var (store, result) := Save(s.storage, s.store, FinalRecord(c.running, c.goal, r), Running);
    To(s.(store := store), p, Done(c.running.id, c.running.kind, c.goal, result.Ok?))
  }

  function Apply(s: System, op: Op): System {
    if !Enabled(s, op) then s
    else match op
      case Tick(to) => s.(clock := to)
      case Admin(o) => s.(store := DeploymentStore.Apply(History(s.store, map[], map[]), Inserted(s.storage, o)).store)
      case Load(p, workerId, id) => LoadStep(s, p, workerId, id)
      case CheckWorker(p) => CheckWorkerStep(s, p, s.calls[p].d)
      case CheckVersion(p) => CheckVersionStep(s, p, s.calls[p].d)
      case CheckToken(p) =>
        var c := s.calls[p];
        To(s, p, if c.d.workerId in s.store.tokens then TokenChecked(c.d, c.v, s.clock) else TurnedAway)
      case OpenFails(p) => To(s, p, TurnedAway)
      case Start(p, r) => StartStep(s, p, s.calls[p].d, s.calls[p].v, r)
      case Validate(p, err) => Contact(s, p, s.calls[p].running.id, Validation(s.calls[p], err, s.clock))
      case Upload(p, reply) => Contact(s, p, s.calls[p].running.id, AfterUpload(s.calls[p], reply, s.clock))
      case Record(p) => RecordStep(s, p, s.calls[p])
      case Release(p, reply) => Contact(s, p, s.calls[p].running.id, AfterRelease(s.calls[p], reply, s.clock))
      case Close(p, r) => CloseStep(s, p, s.calls[p], r)
  }

  function Run(s: System, ops: seq<Op>): System
    decreases |ops|
  {
    if ops == [] then s else Run(Apply(s, ops[0]), ops[1..])
  }

  lemma {:induction false} RunConcat(s: System, a: seq<Op>, b: seq<Op>)
    ensures Run(s, a + b) == Run(Run(s, a), b)
    decreases |a|
  {
    if a == [] {
      assert a + b == b;
    } else {
      assert (a + b)[0] == a[0] && (a + b)[1..] == a[1..] + b;
      RunConcat(Apply(s, a[0]), a[1..], b);
    }
  }

  lemma {:induction false} RunOneMore(s: System, ops: seq<Op>, op: Op)
    ensures Run(s, ops + [op]) == Apply(Run(s, ops), op)
    decreases |ops|
  {
    if ops == [] {
      assert ops + [op] == [op] && [op][1..] == [];
      assert Run(s, [op]) == Run(Apply(s, op), []);
    } else {
      assert (ops + [op])[0] == ops[0] && (ops + [op])[1..] == ops[1..] + [op];
      RunOneMore(Apply(s, ops[0]), ops[1..], op);
    }
  }

  lemma RunFirst(s: System, op: Op, rest: seq<Op>)
    ensures Run(s, [op] + rest) == Run(Apply(s, op), rest)
  {
    assert ([op] + rest)[1..] == rest;
  }

  function Init(storage: Storage, clock: int): System {
    System(storage, clock, EMPTY.store, map[], map[], {})
  }

  // ---- What every step keeps ----

  predicate Preparing(c: Call) {
    c.Loaded? || c.WorkerChecked? || c.VersionChecked? || c.TokenChecked?
  }

  predicate Executing(c: Call) {
    c.Claimed? || c.Validated? || c.Uploaded? || c.Releasing? || c.Closing?
  }

  /** A goal that can be written, except that nothing bounds what the provider answered. */
  predicate GoalSound(goal: Goal) {
    match goal
    case Succeed(version, deployment) => version != "" && deployment != ""
    case Fail(_, code) => code != ""
  }

  /** The identifier fits into a column. */
  predicate IdentifierFits(storage: Storage, id: string) {
    storage.Postgres? ==> |id| <= MAX_IDENTIFIER
  }

  predicate CodeFits(storage: Storage, code: string) {
    |code| <= MAX_ERROR_CODE && (storage.Postgres? ==> forall c :: c in code ==> PostgresDeployments.CodeChar(c))
  }

  /** What the goal writes fits into a record. */
  predicate GoalFits(storage: Storage, goal: Goal) {
    match goal
    case Succeed(version, deployment) => IdentifierFits(storage, version) && IdentifierFits(storage, deployment)
    case Fail(version, code) => IdentifierFits(storage, version) && CodeFits(storage, code)
  }

  /** The provider version an execution will release is known by the time it is needed. */
  predicate VersionKnown(c: Call) {
    match c
    case Claimed(d, _) => d.kind.Rollback? ==> d.providerVersionId != ""
    case Validated(d, _) => d.kind.Deploy?
    case Uploaded(_, v, _, _, _) => v != ""
    case Releasing(_, v, _) => v != ""
    case Closing(_, goal, _) => GoalSound(goal)
    case _ => true
  }

  predicate PreparingOk(rows: Rows, clock: int, d: Deployment, since: int) {
    && d.id in rows && SameIdentity(rows[d.id], d)
    && d.state.Ready? && !d.kind.UnknownKind? && d.createdAt <= since <= clock
  }

  predicate ExecutingOk(storage: Storage, rows: Rows, winners: map<string, Pid>, clock: int, p: Pid, d: Deployment,
                        since: int) {
    && d.id in rows && SameIdentity(rows[d.id], d) && rows[d.id].state.Running?
    && d.id in winners && winners[d.id] == p
    && d.allowed && !d.kind.UnknownKind? && d.errorCode == "" && d.providerDeploymentId == "" && d.providerState == ""
    && IdentifierFits(storage, d.providerVersionId)
    && d.startedAt.Some? && d.createdAt <= d.startedAt.value <= since <= clock
  }

  /** The record says what the goal says. */
  predicate Wrote(d: Deployment, goal: Goal) {
    match goal
    case Succeed(version, deployment) =>
      d.state.Succeeded? && d.providerVersionId == version && d.providerDeploymentId == deployment && d.errorCode == ""
    case Fail(version, code) => d.state.Failed? && d.providerVersionId == version && d.errorCode == code
  }

  /** What a finished execution left behind. */
  predicate DoneOk(storage: Storage, rows: Rows, winners: map<string, Pid>, p: Pid, c: Call)
    requires c.Done?
  {
    && c.id in rows && rows[c.id].kind == c.kind && c.id in winners && winners[c.id] == p && GoalSound(c.goal)
    && c.saved == GoalFits(storage, c.goal)
    && (c.saved ==> Wrote(rows[c.id], c.goal) && ValidFinished(rows[c.id]))
    && (!c.saved ==> rows[c.id].state.Running?)
  }

  predicate CallOk(s: System, p: Pid, c: Call) {
    && VersionKnown(c)
    && (Preparing(c) ==> PreparingOk(s.store.deployments, s.clock, c.d, c.since))
    && (c.VersionChecked? || c.TokenChecked? ==> (c.d.kind.Rollback? ==> c.v.providerVersionId != ""))
    && (Executing(c) ==> ExecutingOk(s.storage, s.store.deployments, s.winners, s.clock, p, c.running, c.since))
    && (c.Done? ==> DoneOk(s.storage, s.store.deployments, s.winners, p, c))
  }

  predicate RowOk(s: System, id: string, d: Deployment) {
    && d.id == id && !d.kind.UnknownKind? && d.createdAt <= s.clock
    && (d.state.Ready? <==> id !in s.winners)
    && (d.state.Ready? || d.state.Running? || d.state.Succeeded? || d.state.Failed?)
  }

  /** The winner of a deployment is a call that is executing it or has finished it. */
  predicate WinnerOk(s: System, id: string, p: Pid) {
    && id in s.store.deployments && p in s.calls
    && (Executing(s.calls[p]) || s.calls[p].Done?)
    && id == (if s.calls[p].Done? then s.calls[p].id else s.calls[p].running.id)
  }

  ghost predicate Inv(s: System) {
    && (forall id :: id in s.store.deployments ==> RowOk(s, id, s.store.deployments[id]))
    && (forall p :: p in s.calls ==> CallOk(s, p, s.calls[p]))
    && (forall id :: id in s.winners ==> WinnerOk(s, id, s.winners[id]))
    && (forall c :: c in s.contacts ==> c.1 in s.winners && s.winners[c.1] == c.0)
  }

  /** What a call that has not finished may turn into without touching the records. */
  predicate MayBecome(s: System, p: Pid, c: Call) {
    && CallOk(s, p, c)
    && (p in s.calls ==> !s.calls[p].Done?)
    && (p in s.calls && Executing(s.calls[p]) ==> Executing(c) && c.running.id == s.calls[p].running.id)
  }

  lemma MoveKeepsInv(s: System, p: Pid, c: Call)
    requires Inv(s) && MayBecome(s, p, c)
    ensures Inv(To(s, p, c))
  {
    var t := To(s, p, c);
    forall q | q in t.calls ensures CallOk(t, q, t.calls[q]) {
      assert CallOk(s, q, if q == p then c else s.calls[q]);
    }
    forall id | id in t.winners ensures WinnerOk(t, id, t.winners[id]) {
      assert WinnerOk(s, id, s.winners[id]);
    }
    forall id | id in t.store.deployments ensures RowOk(t, id, t.store.deployments[id]) {
      assert RowOk(s, id, s.store.deployments[id]);
    }
  }

  lemma SameRowsKeepInv(s: System, t: System)
    requires Inv(s) && t == s.(store := t.store, clock := t.clock) && s.clock <= t.clock
    requires t.store.deployments == s.store.deployments
    ensures Inv(t)
  {
    forall q | q in t.calls ensures CallOk(t, q, t.calls[q]) {
      assert CallOk(s, q, s.calls[q]);
    }
    forall id | id in t.winners ensures WinnerOk(t, id, t.winners[id]) {
      assert WinnerOk(s, id, s.winners[id]);
    }
    forall id | id in t.store.deployments ensures RowOk(t, id, t.store.deployments[id]) {
      assert RowOk(s, id, s.store.deployments[id]);
    }
  }

  lemma LoadKeepsInv(s: System, p: Pid, workerId: string, id: string)
    requires Inv(s) && p !in s.calls
    ensures Inv(LoadStep(s, p, workerId, id))
  {
    assert id in s.store.deployments ==> RowOk(s, id, s.store.deployments[id]);
    MoveKeepsInv(s, p, LoadStep(s, p, workerId, id).calls[p]);
  }

  lemma CheckWorkerKeepsInv(s: System, p: Pid)
    requires Inv(s) && p in s.calls && s.calls[p].Loaded?
    ensures Inv(CheckWorkerStep(s, p, s.calls[p].d))
  {
    assert CallOk(s, p, s.calls[p]);
    MoveKeepsInv(s, p, CheckWorkerStep(s, p, s.calls[p].d).calls[p]);
  }

  lemma CheckVersionKeepsInv(s: System, p: Pid)
    requires Inv(s) && p in s.calls && s.calls[p].WorkerChecked?
    ensures Inv(CheckVersionStep(s, p, s.calls[p].d))
  {
    assert CallOk(s, p, s.calls[p]);
    MoveKeepsInv(s, p, CheckVersionStep(s, p, s.calls[p].d).calls[p]);
  }

  lemma CheckTokenKeepsInv(s: System, p: Pid)
    requires Inv(s) && p in s.calls && s.calls[p].VersionChecked?
    ensures Inv(Apply(s, CheckToken(p)))
  {
    assert CallOk(s, p, s.calls[p]);
    MoveKeepsInv(s, p, Apply(s, CheckToken(p)).calls[p]);
  }

  lemma ContactKeepsInv(s: System, p: Pid, c: Call)
    requires Inv(s) && p in s.calls && Executing(s.calls[p]) && MayBecome(s, p, c)
    ensures Inv(Contact(s, p, s.calls[p].running.id, c))
  {
    assert CallOk(s, p, s.calls[p]);
    MoveKeepsInv(s, p, c);
    var t, u := To(s, p, c), Contact(s, p, s.calls[p].running.id, c);
    forall q | q in u.calls ensures CallOk(u, q, u.calls[q]) {
      assert CallOk(t, q, t.calls[q]);
    }
    forall id | id in u.winners ensures WinnerOk(u, id, u.winners[id]) {
      assert WinnerOk(t, id, t.winners[id]);
    }
    forall id | id in u.store.deployments ensures RowOk(u, id, u.store.deployments[id]) {
      assert RowOk(t, id, t.store.deployments[id]);
    }
  }

  /** Whatever the provider answers, the call that asked stands at a sound point afterwards. */
  lemma ProviderAnswer(s: System, p: Pid, c: Call, next: Call)
    requires CallOk(s, p, c) && Executing(c) && Executing(next)
    requires next.running == c.running && next.since == s.clock && VersionKnown(next)
    ensures CallOk(s, p, next)
  {
  }

  lemma AnswerKeepsInv(s: System, p: Pid, next: Call)
    requires Inv(s) && p in s.calls && Executing(s.calls[p]) && Executing(next)
    requires next.running == s.calls[p].running && next.since == s.clock && VersionKnown(next)
    ensures Inv(Contact(s, p, s.calls[p].running.id, next))
  {
    assert CallOk(s, p, s.calls[p]);
    ProviderAnswer(s, p, s.calls[p], next);
    ContactKeepsInv(s, p, next);
  }

  lemma ValidateKeepsInv(s: System, p: Pid, err: Option<ProviderError>)
    requires Inv(s) && p in s.calls && s.calls[p].Claimed?
    ensures Inv(Contact(s, p, s.calls[p].running.id, Validation(s.calls[p], err, s.clock)))
  {
    assert CallOk(s, p, s.calls[p]);
    AnswerKeepsInv(s, p, Validation(s.calls[p], err, s.clock));
  }

  lemma UploadKeepsInv(s: System, p: Pid, reply: UploadReply)
    requires Inv(s) && p in s.calls && s.calls[p].Validated?
    ensures Inv(Contact(s, p, s.calls[p].running.id, AfterUpload(s.calls[p], reply, s.clock)))
  {
    AnswerKeepsInv(s, p, AfterUpload(s.calls[p], reply, s.clock));
  }

  lemma ReleaseKeepsInv(s: System, p: Pid, reply: ReleaseReply)
    requires Inv(s) && p in s.calls && s.calls[p].Releasing?
    ensures Inv(Contact(s, p, s.calls[p].running.id, AfterRelease(s.calls[p], reply, s.clock)))
  {
    assert CallOk(s, p, s.calls[p]);
    AnswerKeepsInv(s, p, AfterRelease(s.calls[p], reply, s.clock));
  }

  lemma RecordLeaves(s: System, p: Pid, c: Call)
    requires c.Uploaded?
    ensures var t := RecordStep(s, p, c);
      && t == To(s, p, t.calls[p]).(store := t.store) && t.store.deployments == s.store.deployments
      && Executing(t.calls[p]) && t.calls[p].running == c.running && t.calls[p].since == s.clock
      && (c.providerVersion != "" ==> VersionKnown(t.calls[p]))
  {
  }

  lemma RecordKeepsInv(s: System, p: Pid)
    requires Inv(s) && p in s.calls && s.calls[p].Uploaded?
    ensures Inv(RecordStep(s, p, s.calls[p]))
  {
    var t := RecordStep(s, p, s.calls[p]);
    assert CallOk(s, p, s.calls[p]);
    RecordLeaves(s, p, s.calls[p]);
    ProviderAnswer(s, p, s.calls[p], t.calls[p]);
    MoveKeepsInv(s, p, t.calls[p]);
    SameRowsKeepInv(To(s, p, t.calls[p]), t);
  }

  /** Writing one record disturbs no other call: whoever executes or finished a deployment is its only winner. */
  lemma WriteKeepsCall(s: System, t: System, p: Pid, q: Pid, d: Deployment)
    requires q in s.calls && CallOk(s, q, s.calls[q]) && q != p
    requires d.id in s.store.deployments && SameIdentity(d, s.store.deployments[d.id])
    requires t.store.deployments == s.store.deployments[d.id := d] && t.clock == s.clock && t.storage == s.storage
    requires t.winners == s.winners[d.id := p] && (d.id in s.winners ==> s.winners[d.id] == p)
    ensures CallOk(t, q, s.calls[q])
  {
  }

  lemma WriteKeepsRow(s: System, t: System, p: Pid, d: Deployment, id: string)
    requires id in t.store.deployments && t.store.deployments == s.store.deployments[d.id := d]
    requires id in s.store.deployments && RowOk(s, id, s.store.deployments[id])
    requires d.id in s.store.deployments && SameIdentity(d, s.store.deployments[d.id])
    requires d.state.Running? || d.state.Succeeded? || d.state.Failed?
    requires t.clock == s.clock && t.winners == s.winners[d.id := p]
    ensures RowOk(t, id, t.store.deployments[id])
  {
  }

  lemma WriteKeepsWinner(s: System, t: System, p: Pid, d: Deployment, id: string)
    requires id in s.winners && id != d.id && WinnerOk(s, id, s.winners[id]) && s.winners[id] != p && p in t.calls
    requires t.calls == s.calls[p := t.calls[p]] && t.winners == s.winners[d.id := p]
    requires t.store.deployments == s.store.deployments[d.id := d]
    ensures WinnerOk(t, id, t.winners[id])
  {
  }

  lemma WriteKeepsInv(s: System, t: System, p: Pid, d: Deployment)
    requires Inv(s) && p in s.calls && p in t.calls
    requires d.id in s.store.deployments && SameIdentity(d, s.store.deployments[d.id])
    requires d.state.Running? || d.state.Succeeded? || d.state.Failed?
    requires d.id in s.winners ==> s.winners[d.id] == p
    requires t == s.(store := t.store, calls := s.calls[p := t.calls[p]], winners := s.winners[d.id := p])
    requires t.store.deployments == s.store.deployments[d.id := d]
    requires CallOk(t, p, t.calls[p]) && WinnerOk(t, d.id, p)
    requires forall id :: id in s.winners && id != d.id ==> s.winners[id] != p
    ensures Inv(t)
  {
    forall q | q in t.calls ensures CallOk(t, q, t.calls[q]) {
      if q != p {
        WriteKeepsCall(s, t, p, q, d);
      }
    }
    forall id | id in t.winners ensures WinnerOk(t, id, t.winners[id]) {
      if id != d.id {
        WriteKeepsWinner(s, t, p, d, id);
      }
    }
    forall id | id in t.store.deployments ensures RowOk(t, id, t.store.deployments[id]) {
      WriteKeepsRow(s, t, p, d, id);
    }
  }

  /** A won swap leaves the caller executing the record it wrote; the record was ready, so nobody had won it before. */
  lemma WonSwap(s: System, p: Pid, c: Call, r: int)
    requires c.TokenChecked? && CallOk(s, p, c) && c.since <= r <= s.clock
    requires c.d.id in s.store.deployments && RowOk(s, c.d.id, s.store.deployments[c.d.id])
    requires Save(s.storage, s.store, RunningRecord(c.d, c.v, r), Ready).1.Ok?
    ensures c.d.id !in s.winners
    ensures var t := StartStep(s, p, c.d, c.v, r);
      CallOk(t, p, t.calls[p]) && t.store.deployments == s.store.deployments[c.d.id := RunningRecord(c.d, c.v, r)]
  {
  }

  /** A call wins at most the deployment it is working on. */
  lemma OtherWinners(s: System, p: Pid, own: string)
    requires Inv(s) && p in s.calls && (Executing(s.calls[p]) ==> own == s.calls[p].running.id) && !s.calls[p].Done?
    ensures forall id :: id in s.winners && id != own ==> s.winners[id] != p
  {
    forall id | id in s.winners && id != own ensures s.winners[id] != p {
      assert WinnerOk(s, id, s.winners[id]);
    }
  }

  lemma StartKeepsInv(s: System, p: Pid, r: int)
    requires Inv(s) && Enabled(s, Start(p, r))
    ensures Inv(StartStep(s, p, s.calls[p].d, s.calls[p].v, r))
  {
    var c := s.calls[p];
    assert CallOk(s, p, c);
    if Save(s.storage, s.store, RunningRecord(c.d, c.v, r), Ready).1.Ok? {
      assert RowOk(s, c.d.id, s.store.deployments[c.d.id]);
      WonSwap(s, p, c, r);
      OtherWinners(s, p, c.d.id);
      WriteKeepsInv(s, StartStep(s, p, c.d, c.v, r), p, RunningRecord(c.d, c.v, r));
    } else {
      MoveKeepsInv(s, p, TurnedAway);
    }
  }

  /** The final compare-and-swap is refused exactly when what it writes does not fit. */
  lemma FinalWrite(s: System, p: Pid, c: Call, r: int)
    requires c.Closing? && CallOk(s, p, c) && c.since <= r <= s.clock
    ensures var d, fits := FinalRecord(c.running, c.goal, r), GoalFits(s.storage, c.goal);
      && Save(s.storage, s.store, d, Running).1.Ok? == fits
      && SameIdentity(d, s.store.deployments[c.running.id])
      && DoneOk(s.storage, s.store.deployments[d.id := if fits then d else s.store.deployments[d.id]], s.winners, p,
                Done(d.id, d.kind, c.goal, fits))
  {
  }

  /** The record a closing call leaves: its own, or the one that was there if the swap is refused. */
  function LeftRecord(s: System, c: Call, r: int): Deployment
    requires c.Closing? && c.running.id in s.store.deployments
  {
    if GoalFits(s.storage, c.goal) then FinalRecord(c.running, c.goal, r) else s.store.deployments[c.running.id]
  }

  lemma ClosedCall(s: System, p: Pid, c: Call, r: int)
    requires c.Closing? && CallOk(s, p, c) && c.since <= r <= s.clock
    ensures var t := CloseStep(s, p, c, r);
      && t == s.(store := t.store, calls := s.calls[p := t.calls[p]])
      && t.store.deployments == s.store.deployments[c.running.id := LeftRecord(s, c, r)]
      && CallOk(t, p, t.calls[p])
  {
    FinalWrite(s, p, c, r);
    assert s.store.deployments[c.running.id := s.store.deployments[c.running.id]] == s.store.deployments;
  }

  lemma CloseKeepsInv(s: System, p: Pid, r: int)
    requires Inv(s) && Enabled(s, Close(p, r))
    ensures Inv(CloseStep(s, p, s.calls[p], r))
  {
    var c := s.calls[p];
    assert CallOk(s, p, c);
    FinalWrite(s, p, c, r);
    ClosedCall(s, p, c, r);
    OtherWinners(s, p, c.running.id);
    assert s.winners[c.running.id := p] == s.winners;
    assert RowOk(s, c.running.id, s.store.deployments[c.running.id]);
    WriteKeepsInv(s, CloseStep(s, p, c, r), p, LeftRecord(s, c, r));
  }

  lemma PlanKeepsInv(s: System, t: System, d: Deployment)
    requires Inv(s) && t == s.(store := t.store) && d.id !in s.store.deployments
    requires t.store.deployments == s.store.deployments[d.id := d]
    requires d.state.Ready? && !d.kind.UnknownKind? && d.createdAt <= s.clock
    ensures Inv(t)
  {
    forall q | q in t.calls ensures CallOk(t, q, t.calls[q]) {
      assert CallOk(s, q, s.calls[q]);
    }
    forall id | id in t.winners ensures WinnerOk(t, id, t.winners[id]) {
      assert WinnerOk(s, id, s.winners[id]);
    }
    forall id | id in t.store.deployments ensures RowOk(t, id, t.store.deployments[id]) {
      if id == d.id {
        assert id in s.winners ==> WinnerOk(s, id, s.winners[id]);
      } else {
        assert RowOk(s, id, s.store.deployments[id]);
      }
    }
  }

  lemma AdminKeepsInv(s: System, o: DeploymentStore.Op)
    requires Inv(s) && AdminEnabled(s, o)
    ensures Inv(Apply(s, Admin(o)))
  {
    var t, i := Apply(s, Admin(o)), Inserted(s.storage, o);
    if i.PlanOp? && Plan(s.store, i.d, i.updated).1.Ok? {
      AcceptedPlan(s.store, i.d, i.updated);
      PlanKeepsInv(s, t, i.d);
    } else {
      assert t.store.deployments == s.store.deployments;
      SameRowsKeepInv(s, t);
    }
  }

  predicate BeforeTheSwap(op: Op) {
    op.Load? || op.CheckWorker? || op.CheckVersion? || op.CheckToken? || op.OpenFails?
  }

  lemma GuardKeepsInv(s: System, op: Op)
    requires Inv(s) && Enabled(s, op) && BeforeTheSwap(op)
    ensures Inv(Apply(s, op))
  {
    match op
    case Load(p, workerId, id) => LoadKeepsInv(s, p, workerId, id);
    case CheckWorker(p) => CheckWorkerKeepsInv(s, p);
    case CheckVersion(p) => CheckVersionKeepsInv(s, p);
    case CheckToken(p) => CheckTokenKeepsInv(s, p);
    case OpenFails(p) => MoveKeepsInv(s, p, TurnedAway);
  }

  lemma InvKept(s: System, op: Op)
    requires Inv(s)
    ensures Inv(Apply(s, op))
  {
    if Enabled(s, op) {
      match op
      case Tick(to) => SameRowsKeepInv(s, Apply(s, op));
      case Admin(o) => AdminKeepsInv(s, o);
      case Start(p, r) => StartKeepsInv(s, p, r);
      case Validate(p, err) => ValidateKeepsInv(s, p, err);
      case Upload(p, reply) => UploadKeepsInv(s, p, reply);
      case Release(p, reply) => ReleaseKeepsInv(s, p, reply);
      case Record(p) => RecordKeepsInv(s, p);
      case Close(p, r) => CloseKeepsInv(s, p, r);
      case _ => GuardKeepsInv(s, op);
    }
  }

  lemma {:induction false} InvAlways(s: System, ops: seq<Op>)
    requires Inv(s)
    ensures Inv(Run(s, ops))
    decreases |ops|
  {
    if ops != [] {
      InvKept(s, ops[0]);
      InvAlways(Apply(s, ops[0]), ops[1..]);
    }
  }

  /**
   The provider is contacted for a deployment by one caller only: the one whose
   swap from ready to running was taken.
   */
  lemma OnlyTheWinnerContactsTheProvider(storage: Storage, clock: int, ops: seq<Op>, p: Pid, q: Pid, id: string)
    requires var s := Run(Init(storage, clock), ops); (p, id) in s.contacts && (q, id) in s.contacts
    ensures p == q
    ensures var s := Run(Init(storage, clock), ops); id in s.winners && s.winners[id] == p
  {
    InvAlways(Init(storage, clock), ops);
  }

  /** Who takes a step of an execute call; None for the clock and for planning. */
  function Actor(op: Op): Option<Pid> {
    if op.Tick? || op.Admin? then None else Some(op.p)
  }

  // ---- The winner does contact the provider ----

  /** Beyond its claim, an execution has contacted the provider. */
  predicate Contacted(s: System, p: Pid, c: Call) {
    && (c.Validated? || c.Uploaded? || c.Releasing? || c.Closing? ==> (p, c.running.id) in s.contacts)
    && (c.Done? ==> (p, c.id) in s.contacts)
  }

  /** How many steps of its own a call can still take at most. */
  function StepsLeft(c: Call): nat {
    match c
    case Loaded(_, _) => 9
    case WorkerChecked(_, _) => 8
    case VersionChecked(_, _, _) => 7
    case TokenChecked(_, _, _) => 6
    case Claimed(_, _) => 5
    case Validated(_, _) => 4
    case Uploaded(_, _, _, _, _) => 3
    case Releasing(_, _, _) => 2
    case Closing(_, _, _) => 1
    case TurnedAway => 0
    case Done(_, _, _, _) => 0
  }

  /** A call moves by its own steps only, and each of them brings it closer to its end. */
  lemma OwnStepsCount(s: System, op: Op, p: Pid)
    requires p in s.calls && Enabled(s, op)
    ensures p in Apply(s, op).calls
    ensures if Actor(op) == Some(p) then StepsLeft(Apply(s, op).calls[p]) < StepsLeft(s.calls[p])
            else Apply(s, op).calls[p] == s.calls[p]
  {
  }

  lemma ContactedKept(s: System, op: Op, p: Pid)
    requires p in s.calls ==> Contacted(s, p, s.calls[p])
    ensures p in Apply(s, op).calls ==> Contacted(Apply(s, op), p, Apply(s, op).calls[p])
  {
    if Enabled(s, op) && p in s.calls {
      OwnStepsCount(s, op, p);
    }
  }

  lemma {:induction false} ContactedAlways(s: System, ops: seq<Op>, p: Pid)
    requires p in s.calls ==> Contacted(s, p, s.calls[p])
    ensures p in Run(s, ops).calls ==> Contacted(Run(s, ops), p, Run(s, ops).calls[p])
    decreases |ops|
  {
    if ops != [] {
      ContactedKept(s, ops[0], p);
      ContactedAlways(Apply(s, ops[0]), ops[1..], p);
    }
  }

  /** A deployment that is no longer waiting for its first contact has been taken to the provider by its winner. */
  lemma TheWinnerContactsTheProvider(storage: Storage, clock: int, ops: seq<Op>, id: string)
    requires var s := Run(Init(storage, clock), ops);
             id in s.winners && s.winners[id] in s.calls && !s.calls[s.winners[id]].Claimed?
    ensures var s := Run(Init(storage, clock), ops); (s.winners[id], id) in s.contacts
  {
    InvAlways(Init(storage, clock), ops);
    var s := Run(Init(storage, clock), ops);
    assert WinnerOk(s, id, s.winners[id]);
    ContactedAlways(Init(storage, clock), ops, s.winners[id]);
  }

  // ---- Every call can run to its end ----

  /** A call has run to its end. */
  predicate AtEnd(c: Call) {
    c.TurnedAway? || c.Done?
  }

  /** A call that has not run to its end has a step of its own to take. */
  lemma UnfinishedCanStep(s: System, p: Pid) returns (op: Op)
    requires Inv(s) && p in s.calls && !AtEnd(s.calls[p])
    ensures Enabled(s, op) && Actor(op) == Some(p)
  {
    assert CallOk(s, p, s.calls[p]);
    match s.calls[p]
    case Loaded(_, _) => op := CheckWorker(p);
    case WorkerChecked(_, _) => op := CheckVersion(p);
    case VersionChecked(_, _, _) => op := CheckToken(p);
    case TokenChecked(_, _, _) => op := OpenFails(p);
    case Claimed(_, _) => op := Validate(p, None);
    case Validated(_, _) => op := Upload(p, UploadRejected(Foreign));
    case Uploaded(_, _, _, _, _) => op := Record(p);
    case Releasing(_, _, _) => op := Release(p, ReleaseRejected(Foreign));
    case Closing(_, _, _) => op := Close(p, s.clock);
  }

  lemma OneCallMoves(s: System, op: Op, p: Pid)
    requires p in s.calls && Enabled(s, op) && Actor(op) == Some(p)
    ensures Apply(s, op).calls.Keys == s.calls.Keys && Apply(s, op).calls == s.calls[p := Apply(s, op).calls[p]]
  {
  }

  /** One step of its own takes an unfinished call closer to its end and moves no other call. */
  lemma UnfinishedAdvances(s: System, p: Pid) returns (op: Op, t: System)
    requires Inv(s) && p in s.calls && !AtEnd(s.calls[p])
    ensures Inv(t) && p in t.calls && t.calls == s.calls[p := t.calls[p]]
            && StepsLeft(t.calls[p]) < StepsLeft(s.calls[p])
    ensures forall rest :: Run(s, [op] + rest) == Run(t, rest)
  {
    op := UnfinishedCanStep(s, p);
    t := Apply(s, op);
    InvKept(s, op);
    OwnStepsCount(s, op, p);
    OneCallMoves(s, op, p);
    forall rest ensures Run(s, [op] + rest) == Run(t, rest) {
      RunFirst(s, op, rest);
    }
  }

  lemma {:induction false} CallCanFinish(s: System, p: Pid) returns (ops: seq<Op>)
    requires Inv(s) && p in s.calls
    ensures var t := Run(s, ops);
      Inv(t) && p in t.calls && t.calls == s.calls[p := t.calls[p]] && AtEnd(t.calls[p])
    decreases StepsLeft(s.calls[p])
  {
    if AtEnd(s.calls[p]) {
      ops := [];
      assert s.calls[p := s.calls[p]] == s.calls;
    } else {
      var op, t := UnfinishedAdvances(s, p);
      var rest := CallCanFinish(t, p);
      ops := [op] + rest;
    }
  }

  lemma {:induction false} CallsCanFinish(s: System, unfinished: set<Pid>) returns (ops: seq<Op>)
    requires Inv(s) && unfinished <= s.calls.Keys && forall p :: p in s.calls && p !in unfinished ==> AtEnd(s.calls[p])
    ensures forall p :: p in Run(s, ops).calls ==> AtEnd(Run(s, ops).calls[p])
    decreases unfinished
  {
    if unfinished == {} {
      ops := [];
    } else {
      var p :| p in unfinished;
      var first := CallCanFinish(s, p);
      var rest := CallsCanFinish(Run(s, first), unfinished - {p});
      RunConcat(s, first, rest);
      ops := first + rest;
    }
  }

  /** Every run can be continued until every call has run to its end. */
  lemma RunsCanFinish(storage: Storage, clock: int, ops: seq<Op>) returns (more: seq<Op>)
    ensures var s := Run(Init(storage, clock), ops + more); forall p :: p in s.calls ==> AtEnd(s.calls[p])
  {
    InvAlways(Init(storage, clock), ops);
    var s := Run(Init(storage, clock), ops);
    more := CallsCanFinish(s, s.calls.Keys);
    RunConcat(Init(storage, clock), ops, more);
  }
}
