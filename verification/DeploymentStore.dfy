/**
 The in-memory store of workers, tokens, module versions and deployments.
 Planning a deployment is a compare-and-swap on the worker's desired version;
 executing one only updates its record. Beside the store the model keeps, per
 worker, how it was created and its deployments in the order they were planned.
 */
module DeploymentStore {
  import opened Common
  import opened Deployments

  datatype Worker = Worker(id: string, scriptName: string, desiredVersionId: string, version: int)

  datatype Version =
    Version(id: string, workerId: string, providerVersionId: string, providerNumber: int, uploadedAt: Option<int>)

  datatype Store = Store(
    workers: map<string, Worker>,
    tokens: set<string>,
    versions: map<string, Version>,
    deployments: Rows)

  function CreateWorker(s: Store, w: Worker): (Store, Result) {
    if w.id in s.workers then (s, Conflict) else (s.(workers := s.workers[w.id := w]), Ok)
  }

  function PutToken(s: Store, workerId: string): (Store, Result) {
    if workerId !in s.workers then (s, NotFound) else (s.(tokens := s.tokens + {workerId}), Ok)
  }

  function DeleteToken(s: Store, workerId: string): (Store, Result) {
    if workerId !in s.tokens then (s, NotFound) else (s.(tokens := s.tokens - {workerId}), Ok)
  }

  function CreateVersion(s: Store, v: Version): (Store, Result) {
    if v.workerId !in s.workers then (s, NotFound)
    else if v.id in s.versions then (s, Conflict)
    else (s.(versions := s.versions[v.id := v]), Ok)
  }

  /** `uploadedAt` is None for the zero time, which is refused. */
  function SetProvider(s: Store, workerId: string, versionId: string, providerId: string, number: int,
                       uploadedAt: Option<int>): (Store, Result) {
    if workerId == "" || versionId == "" || providerId == "" || number < 0 || uploadedAt.None? then (s, Conflict)
    else if versionId !in s.versions || s.versions[versionId].workerId != workerId then (s, NotFound)
    else
      var v := s.versions[versionId].(
        providerVersionId := providerId, providerNumber := number, uploadedAt := uploadedAt);
      (s.(versions := s.versions[versionId := v]), Ok)
  }

  function Plan(s: Store, d: Deployment, updated: Worker): (Store, Result) {
    if d.kind.UnknownKind? || !d.state.Ready? || d.allowed then (s, Conflict)
    else if d.workerId !in s.workers then (s, NotFound)
    else
      var w := s.workers[d.workerId];
      if d.versionId !in s.versions || s.versions[d.versionId].workerId != w.id then (s, NotFound)
      else if w.id !in s.tokens then (s, NotFound)
      else if d.id in s.deployments then (s, Conflict)
      else if d.previousVersionId != w.desiredVersionId then (s, Conflict)
      else if d.kind.Rollback? && (w.desiredVersionId == "" || w.desiredVersionId == d.versionId) then (s, Conflict)
      else if updated.id != w.id || updated.version != w.version + 1 || updated.desiredVersionId != d.versionId then
        (s, Conflict)
      else (s.(deployments := s.deployments[d.id := d], workers := s.workers[w.id := updated]), Ok)
  }

  function UpdateDeployment(s: Store, d: Deployment, expected: State): (Store, Result) {
    var (rows, result) := Update(s.deployments, d, expected);
    (s.(deployments := rows), result)
  }

  // ---- Runs, with the planning history beside the store ----

  datatype History = History(store: Store, origin: map<string, Worker>, plans: map<string, seq<string>>)

  datatype Op =
    | CreateWorkerOp(w: Worker)
    | PutTokenOp(workerId: string)
    | DeleteTokenOp(workerId: string)
    | CreateVersionOp(v: Version)
    | SetProviderOp(workerId: string, versionId: string, providerId: string, number: int, at: Option<int>)
    | PlanOp(d: Deployment, updated: Worker)
    | UpdateOp(d: Deployment, expected: State)

  const EMPTY := History(Store(map[], {}, map[], map[]), map[], map[])

  function Apply(h: History, op: Op): History {
    match op
    case CreateWorkerOp(w) =>
      var (s, r) := CreateWorker(h.store, w);
      if r.Ok? then History(s, h.origin[w.id := w], h.plans[w.id := []]) else h.(store := s)
    case PutTokenOp(id) => h.(store := PutToken(h.store, id).0)
    case DeleteTokenOp(id) => h.(store := DeleteToken(h.store, id).0)
    case CreateVersionOp(v) => h.(store := CreateVersion(h.store, v).0)
    case SetProviderOp(w, v, p, n, t) => h.(store := SetProvider(h.store, w, v, p, n, t).0)
    case PlanOp(d, updated) =>
      var (s, r) := Plan(h.store, d, updated);
      if r.Ok? && d.workerId in h.plans then
        h.(store := s, plans := h.plans[d.workerId := h.plans[d.workerId] + [d.id]])
      else h.(store := s)
    case UpdateOp(d, expected) => h.(store := UpdateDeployment(h.store, d, expected).0)
  }

  function Run(h: History, ops: seq<Op>): History
    decreases |ops|
  {
    if ops == [] then h else Run(Apply(h, ops[0]), ops[1..])
  }

  /** The i-th plan of a worker replaces what its predecessor put in place, or what the worker was created with. */
  predicate Linked(rows: Rows, origin: string, plan: seq<string>, i: nat) {
    && i < |plan| && plan[i] in rows
    && (if i == 0 then rows[plan[i]].previousVersionId == origin
        else plan[i - 1] in rows && rows[plan[i]].previousVersionId == rows[plan[i - 1]].versionId)
    && (rows[plan[i]].kind.Rollback? ==>
          rows[plan[i]].previousVersionId != "" && rows[plan[i]].previousVersionId != rows[plan[i]].versionId)
  }

  /** The version in place after all plans. */
  function Final(rows: Rows, origin: string, plan: seq<string>): string {
    if plan == [] || plan[|plan| - 1] !in rows then origin else rows[plan[|plan| - 1]].versionId
  }

  /** The deployments of one worker form a chain that ends in its desired version. */
  ghost predicate Chain(rows: Rows, id: string, created: Worker, current: Worker, plan: seq<string>) {
    && current.id == id
    && (forall i :: 0 <= i < |plan| ==> plan[i] in rows && rows[plan[i]].workerId == id)
    && (forall i, j :: 0 <= i < j < |plan| ==> plan[i] != plan[j])
    && (forall i: nat :: i < |plan| ==> Linked(rows, created.desiredVersionId, plan, i))
    && current.desiredVersionId == Final(rows, created.desiredVersionId, plan)
    && current.version == created.version + |plan|
  }

  ghost predicate WorkersChained(h: History) {
    && h.origin.Keys == h.store.workers.Keys == h.plans.Keys
    && (forall w :: w in h.store.workers ==> Chain(h.store.deployments, w, h.origin[w], h.store.workers[w], h.plans[w]))
  }

  /** No deployment lies outside the chain of its worker. */
  predicate RowsPlanned(rows: Rows, plans: map<string, seq<string>>) {
    forall d :: d in rows ==> rows[d].id == d && rows[d].workerId in plans && d in plans[rows[d].workerId]
  }

  ghost predicate Chained(h: History) {
    WorkersChained(h) && RowsPlanned(h.store.deployments, h.plans)
  }

  /** A record update keeps what the chain is made of. */
  lemma ChainSurvivesUpdate(rows: Rows, d: Deployment, id: string, created: Worker, current: Worker, plan: seq<string>)
    requires Chain(rows, id, created, current, plan) && d.id in rows && SameIdentity(d, rows[d.id])
    ensures Chain(rows[d.id := d], id, created, current, plan)
  {
    var rows' := rows[d.id := d];
    forall i: nat | i < |plan| ensures Linked(rows', created.desiredVersionId, plan, i) {
      assert Linked(rows, created.desiredVersionId, plan, i);
    }
  }

  lemma UpdateKeepsWorkers(h: History, d: Deployment)
    requires WorkersChained(h) && d.id in h.store.deployments && SameIdentity(d, h.store.deployments[d.id])
    ensures WorkersChained(h.(store := h.store.(deployments := h.store.deployments[d.id := d])))
  {
    forall w | w in h.store.workers
      ensures Chain(h.store.deployments[d.id := d], w, h.origin[w], h.store.workers[w], h.plans[w])
    {
      ChainSurvivesUpdate(h.store.deployments, d, w, h.origin[w], h.store.workers[w], h.plans[w]);
    }
  }

  lemma UpdateKeepsRows(rows: Rows, plans: map<string, seq<string>>, d: Deployment)
    requires RowsPlanned(rows, plans) && d.id in rows && SameIdentity(d, rows[d.id])
    ensures RowsPlanned(rows[d.id := d], plans)
  {
  }

  lemma UpdateKeepsChained(h: History, d: Deployment, expected: State)
    requires Chained(h)
    ensures Chained(h.(store := UpdateDeployment(h.store, d, expected).0))
  {
    var s' := UpdateDeployment(h.store, d, expected).0;
    if Update(h.store.deployments, d, expected).1.Ok? {
      assert s' == h.store.(deployments := h.store.deployments[d.id := d]);
      UpdateKeepsWorkers(h, d);
      UpdateKeepsRows(h.store.deployments, h.plans, d);
    } else {
      assert s' == h.store;
    }
  }

  /** A new record under a new identifier leaves every other chain alone. */
  lemma ChainSurvivesInsert(rows: Rows, d: Deployment, id: string, created: Worker, current: Worker, plan: seq<string>)
    requires Chain(rows, id, created, current, plan) && d.id !in rows
    ensures Chain(rows[d.id := d], id, created, current, plan)
  {
    var rows' := rows[d.id := d];
    forall i: nat | i < |plan| ensures Linked(rows', created.desiredVersionId, plan, i) {
      assert Linked(rows, created.desiredVersionId, plan, i);
    }
  }

  lemma ChainGrows(rows: Rows, d: Deployment, id: string, created: Worker, current: Worker, updated: Worker,
                   plan: seq<string>)
    requires Chain(rows, id, created, current, plan) && d.id !in rows && d.workerId == id
    requires d.previousVersionId == current.desiredVersionId
    requires d.kind.Rollback? ==> current.desiredVersionId != "" && current.desiredVersionId != d.versionId
    requires updated.id == id && updated.version == current.version + 1 && updated.desiredVersionId == d.versionId
    ensures Chain(rows[d.id := d], id, created, updated, plan + [d.id])
  {
    var rows', plan' := rows[d.id := d], plan + [d.id];
    forall i: nat | i < |plan'| ensures Linked(rows', created.desiredVersionId, plan', i) {
      if i < |plan| {
        assert Linked(rows, created.desiredVersionId, plan, i);
      }
    }
  }

  /** What a plan that was accepted found, and what it wrote. */
  lemma AcceptedPlan(s: Store, d: Deployment, updated: Worker)
    requires Plan(s, d, updated).1.Ok?
    ensures d.workerId in s.workers && d.id !in s.deployments
    ensures var w := s.workers[d.workerId];
      && d.previousVersionId == w.desiredVersionId
      && (d.kind.Rollback? ==> w.desiredVersionId != "" && w.desiredVersionId != d.versionId)
      && updated.id == w.id && updated.version == w.version + 1 && updated.desiredVersionId == d.versionId
      && Plan(s, d, updated).0 == s.(deployments := s.deployments[d.id := d], workers := s.workers[w.id := updated])
  {
  }

  function Planned(h: History, d: Deployment, updated: Worker): History
    requires d.workerId in h.plans
  {
    h.(store := Plan(h.store, d, updated).0, plans := h.plans[d.workerId := h.plans[d.workerId] + [d.id]])
  }

  lemma PlanKeepsWorkers(h: History, d: Deployment, updated: Worker)
    requires WorkersChained(h) && Plan(h.store, d, updated).1.Ok?
    ensures d.workerId in h.plans && WorkersChained(Planned(h, d, updated))
  {
    AcceptedPlan(h.store, d, updated);
    var h' := Planned(h, d, updated);
    assert Chain(h.store.deployments, d.workerId, h.origin[d.workerId], h.store.workers[d.workerId],
                 h.plans[d.workerId]);
    assert h'.store.workers.Keys == h.store.workers.Keys;
    forall w | w in h'.store.workers
      ensures Chain(h'.store.deployments, w, h'.origin[w], h'.store.workers[w], h'.plans[w])
    {
      if w == d.workerId {
        ChainGrows(h.store.deployments, d, w, h.origin[w], h.store.workers[w], updated, h.plans[w]);
      } else {
        ChainSurvivesInsert(h.store.deployments, d, w, h.origin[w], h.store.workers[w], h.plans[w]);
      }
    }
  }

  lemma PlanKeepsChained(h: History, d: Deployment, updated: Worker)
    requires Chained(h) && Plan(h.store, d, updated).1.Ok?
    ensures d.workerId in h.plans && Chained(Planned(h, d, updated))
  {
    PlanKeepsWorkers(h, d, updated);
    AcceptedPlan(h.store, d, updated);
  }

  lemma CreateKeepsWorkers(h: History, w: Worker)
    requires WorkersChained(h) && w.id !in h.store.workers
    ensures WorkersChained(History(CreateWorker(h.store, w).0, h.origin[w.id := w], h.plans[w.id := []]))
  {
  }

  lemma CreateKeepsRows(rows: Rows, plans: map<string, seq<string>>, id: string)
    requires RowsPlanned(rows, plans) && id !in plans
    ensures RowsPlanned(rows, plans[id := []])
  {
  }

  lemma ChainedKept(h: History, op: Op)
    requires Chained(h)
    ensures Chained(Apply(h, op))
  {
    match op
    case CreateWorkerOp(w) =>
      if w.id !in h.store.workers {
        CreateKeepsWorkers(h, w);
        CreateKeepsRows(h.store.deployments, h.plans, w.id);
      }
    case PlanOp(d, updated) =>
      if Plan(h.store, d, updated).1.Ok? {
        PlanKeepsChained(h, d, updated);
      }
    case UpdateOp(d, expected) => UpdateKeepsChained(h, d, expected);
    case _ =>
  }

  lemma {:induction false} ChainedAlways(h: History, ops: seq<Op>)
    requires Chained(h)
    ensures Chained(Run(h, ops))
    decreases |ops|
  {
    if ops != [] {
      ChainedKept(h, ops[0]);
      ChainedAlways(Apply(h, ops[0]), ops[1..]);
    }
  }

  /**
   In every run from an empty store, the deployments of every worker form one
   chain in plan order: each replaces exactly what its predecessor put in
   place, the worker's desired version is the last one's, its version counts
   the plans, no rollback targets what it replaces, and no deployment lies
   outside a chain. Execution updates never break it.
   */
  lemma DeploymentsFormChains(ops: seq<Op>)
    ensures Chained(Run(EMPTY, ops))
  {
    ChainedAlways(EMPTY, ops);
  }

  lemma FreshChain(rows: Rows, id: string, created: Worker, current: Worker, plan: seq<string>, i: nat)
    requires Chain(rows, id, created, current, plan) && created.version == 1 && created.desiredVersionId == ""
    ensures current.version == 1 + |plan|
    ensures current.desiredVersionId == (if plan == [] then "" else rows[plan[|plan| - 1]].versionId)
    ensures i < |plan| ==> rows[plan[i]].previousVersionId == (if i == 0 then "" else rows[plan[i - 1]].versionId)
  {
    assert i < |plan| ==> Linked(rows, "", plan, i);
  }

  /**
   In every run, for a worker created at version 1 with nothing desired: its
   version is one plus the number of its plans, its desired version is the last
   plan's or nothing, the first plan replaces nothing, and each later one what
   its predecessor put in place.
   */
  lemma FreshWorkerChain(ops: seq<Op>, h: History, w: string, i: nat)
    requires h == Run(EMPTY, ops) && w in h.origin && h.origin[w].version == 1 && h.origin[w].desiredVersionId == ""
    ensures w in h.plans && w in h.store.workers
    ensures forall k :: 0 <= k < |h.plans[w]| ==> h.plans[w][k] in h.store.deployments
    ensures h.store.workers[w].version == 1 + |h.plans[w]|
    ensures var rows, plan := h.store.deployments, h.plans[w];
      && h.store.workers[w].desiredVersionId == (if plan == [] then "" else rows[plan[|plan| - 1]].versionId)
      && (i < |plan| ==> rows[plan[i]].previousVersionId == (if i == 0 then "" else rows[plan[i - 1]].versionId))
  {
    ChainedAlways(EMPTY, ops);
    FreshChain(h.store.deployments, w, h.origin[w], h.store.workers[w], h.plans[w], i);
  }

  /** The store object: maps replaced entry by entry under a lock. Every method is one step of the store. */
  class Memory {
    var workers: map<string, Worker>
    var workerTokens: set<string>
    var workerVersions: map<string, Version>
    var workerDeployments: map<string, Deployment>

    function View(): Store
      reads this
    {
      Store(workers, workerTokens, workerVersions, workerDeployments)
    }

    constructor ()
      ensures View() == EMPTY.store
    {
      workers, workerTokens, workerVersions, workerDeployments := map[], {}, map[], map[];
    }

    method InsertWorker(worker: Worker) returns (result: Result)
      modifies this
      ensures (View(), result) == CreateWorker(old(View()), worker)
    {
      if worker.id in workers {
        return Conflict;
      }
      workers := workers[worker.id := worker];
      return Ok;
    }

    method PutWorkerToken(workerId: string) returns (result: Result)
      modifies this
      ensures (View(), result) == PutToken(old(View()), workerId)
    {
      if workerId !in workers {
        return NotFound;
      }
      workerTokens := workerTokens + {workerId};
      return Ok;
    }

    method DeleteWorkerToken(workerId: string) returns (result: Result)
      modifies this
      ensures (View(), result) == DeleteToken(old(View()), workerId)
    {
      if workerId !in workerTokens {
        return NotFound;
      }
      workerTokens := workerTokens - {workerId};
      return Ok;
    }

    method CreateWorkerVersion(version: Version) returns (result: Result)
      modifies this
      ensures (View(), result) == CreateVersion(old(View()), version)
    {
      if version.workerId !in workers {
        return NotFound;
      }
      if version.id in workerVersions {
        return Conflict;
      }
      workerVersions := workerVersions[version.id := version];
      return Ok;
    }

    method UpdateWorkerVersionProvider(workerId: string, versionId: string, providerId: string, number: int,
                                       at: Option<int>)
      returns (result: Result)
      modifies this
      ensures (View(), result) == SetProvider(old(View()), workerId, versionId, providerId, number, at)
    {
      if workerId == "" || versionId == "" || providerId == "" || number < 0 || at.None? {
        return Conflict;
      }
      if versionId !in workerVersions || workerVersions[versionId].workerId != workerId {
        return NotFound;
      }
      var version := workerVersions[versionId];
      version := version.(providerVersionId := providerId, providerNumber := number, uploadedAt := at);
      workerVersions := workerVersions[versionId := version];
      return Ok;
    }

    method PlanWorkerDeployment(deployment: Deployment, updated: Worker) returns (result: Result)
      modifies this
      ensures (View(), result) == Plan(old(View()), deployment, updated)
    {
      if deployment.kind.UnknownKind? || !deployment.state.Ready? || deployment.allowed {
        return Conflict;
      }
      if deployment.workerId !in workers {
        return NotFound;
      }
      var worker := workers[deployment.workerId];
      if deployment.versionId !in workerVersions || workerVersions[deployment.versionId].workerId != worker.id {
        return NotFound;
      }
      if worker.id !in workerTokens {
        return NotFound;
      }
      if deployment.id in workerDeployments {
        return Conflict;
      }
      if deployment.previousVersionId != worker.desiredVersionId {
        return Conflict;
      }
      if deployment.kind.Rollback?
         && (worker.desiredVersionId == "" || worker.desiredVersionId == deployment.versionId)
      {
        return Conflict;
      }
      if updated.id != worker.id || updated.version != worker.version + 1
         || updated.desiredVersionId != deployment.versionId
      {
        return Conflict;
      }
      workerDeployments := workerDeployments[deployment.id := deployment];
      workers := workers[worker.id := updated];
      return Ok;
    }

    method UpdateWorkerDeployment(updated: Deployment, expected: State) returns (result: Result)
      modifies this
      ensures (View(), result) == UpdateDeployment(old(View()), updated, expected)
    {
      if updated.id !in workerDeployments || workerDeployments[updated.id].workerId != updated.workerId {
        return NotFound;
      }
      var current := workerDeployments[updated.id];
      if current.state != expected || !ValidTransition(current, updated) {
        return Conflict;
      }
      workerDeployments := workerDeployments[updated.id := updated];
      return Ok;
    }
  }
}
