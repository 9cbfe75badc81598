/**
 What the store of workers, tokens, versions and deployments answers, exactly,
 over every run: when a plan is accepted, and whom tokens, versions and
 deployments belong to.
 */
module WorkerStoreAnswers {
  import opened Common
  import opened Deployments
  import opened DeploymentStore

  // ---- Who owns what ----

  predicate VersionOwned(s: Store, v: string) {
    v in s.versions && s.versions[v].id == v && s.versions[v].workerId in s.workers
  }

  /** The version of a deployment is one of its worker's. */
  predicate DeploymentOwned(s: Store, d: string) {
    && d in s.deployments && s.deployments[d].versionId in s.versions
    && s.versions[s.deployments[d].versionId].workerId == s.deployments[d].workerId
  }

  ghost predicate Owned(s: Store) {
    && s.tokens <= s.workers.Keys
    && (forall w :: w in s.workers ==> s.workers[w].id == w)
    && (forall v :: v in s.versions ==> VersionOwned(s, v))
    && (forall d :: d in s.deployments ==> DeploymentOwned(s, d))
  }

  lemma PlanKeepsOwned(s: Store, d: Deployment, updated: Worker)
    requires Owned(s)
    ensures Owned(Plan(s, d, updated).0)
  {
    var t := Plan(s, d, updated).0;
    forall v | v in t.versions ensures VersionOwned(t, v) {
      assert VersionOwned(s, v);
    }
    forall x | x in t.deployments ensures DeploymentOwned(t, x) {
      assert x in s.deployments ==> DeploymentOwned(s, x);
    }
  }

  lemma UpdateKeepsOwned(s: Store, d: Deployment, expected: State)
    requires Owned(s)
    ensures Owned(UpdateDeployment(s, d, expected).0)
  {
    var t := UpdateDeployment(s, d, expected).0;
    forall v | v in t.versions ensures VersionOwned(t, v) {
      assert VersionOwned(s, v);
    }
    forall x | x in t.deployments ensures DeploymentOwned(t, x) {
      assert DeploymentOwned(s, x);
    }
  }

  lemma VersionKeepsOwned(s: Store, v: Version)
    requires Owned(s)
    ensures Owned(CreateVersion(s, v).0)
  {
    var t := CreateVersion(s, v).0;
    forall x | x in t.versions ensures VersionOwned(t, x) {
      assert x in s.versions ==> VersionOwned(s, x);
    }
    forall x | x in t.deployments ensures DeploymentOwned(t, x) {
      assert DeploymentOwned(s, x);
    }
  }

  lemma ProviderKeepsOwned(s: Store, w: string, v: string, providerId: string, number: int, at: Option<int>)
    requires Owned(s)
    ensures Owned(SetProvider(s, w, v, providerId, number, at).0)
  {
    var t := SetProvider(s, w, v, providerId, number, at).0;
    forall x | x in t.versions ensures VersionOwned(t, x) {
      assert VersionOwned(s, x);
    }
    forall x | x in t.deployments ensures DeploymentOwned(t, x) {
      assert DeploymentOwned(s, x);
    }
  }

  lemma WorkerKeepsOwned(s: Store, w: Worker)
    requires Owned(s)
    ensures Owned(CreateWorker(s, w).0)
  {
    var t := CreateWorker(s, w).0;
    forall x | x in t.versions ensures VersionOwned(t, x) {
      assert VersionOwned(s, x);
    }
    forall x | x in t.deployments ensures DeploymentOwned(t, x) {
      assert DeploymentOwned(s, x);
    }
  }

  lemma TokenKeepsOwned(s: Store, t: Store)
    requires Owned(s) && t == s.(tokens := t.tokens) && t.tokens <= s.workers.Keys
    ensures Owned(t)
  {
    forall x | x in t.versions ensures VersionOwned(t, x) {
      assert VersionOwned(s, x);
    }
    forall x | x in t.deployments ensures DeploymentOwned(t, x) {
      assert DeploymentOwned(s, x);
    }
  }

  lemma OwnedKept(h: History, op: Op)
    requires Owned(h.store)
    ensures Owned(Apply(h, op).store)
  {
    match op
    case CreateWorkerOp(w) => WorkerKeepsOwned(h.store, w);
    case PutTokenOp(id) => TokenKeepsOwned(h.store, PutToken(h.store, id).0);
    case DeleteTokenOp(id) => TokenKeepsOwned(h.store, DeleteToken(h.store, id).0);
    case CreateVersionOp(v) => VersionKeepsOwned(h.store, v);
    case SetProviderOp(w, v, p, n, t) => ProviderKeepsOwned(h.store, w, v, p, n, t);
    case PlanOp(d, updated) => PlanKeepsOwned(h.store, d, updated);
    case UpdateOp(d, expected) => UpdateKeepsOwned(h.store, d, expected);
  }

  lemma {:induction false} OwnedAlways(h: History, ops: seq<Op>)
    requires Owned(h.store)
    ensures Owned(Run(h, ops).store)
    decreases |ops|
  {
    if ops != [] {
      OwnedKept(h, ops[0]);
      OwnedAlways(Apply(h, ops[0]), ops[1..]);
    }
  }

  /** In every run: only workers have tokens and versions, and every deployment is of a version of its own worker. */
  lemma EverythingIsOwned(ops: seq<Op>)
    ensures Owned(Run(EMPTY, ops).store)
  {
    OwnedAlways(EMPTY, ops);
  }

  // ---- Plans ----

  /** A plan for something that can be executed: a known kind, ready, and not yet given to an execution. */
  predicate ProperPlan(d: Deployment) {
    !d.kind.UnknownKind? && d.state.Ready? && !d.allowed
  }

  /** The worker exists, the version is the worker's, and the worker has a token. */
  predicate CanPlan(s: Store, d: Deployment) {
    && d.workerId in s.workers && d.workerId in s.tokens
    && d.versionId in s.versions && s.versions[d.versionId].workerId == d.workerId
  }

  /** The plan replaces what the worker desires now, and the worker moves one version on to what the plan deploys. */
  predicate Follows(s: Store, d: Deployment, updated: Worker)
    requires d.workerId in s.workers
  {
    var w := s.workers[d.workerId];
    && d.previousVersionId == w.desiredVersionId && (d.kind.Rollback? ==> d.previousVersionId !in ["", d.versionId])
    && updated.id == d.workerId && updated.version == w.version + 1 && updated.desiredVersionId == d.versionId
  }

  /**
   In every run, a plan is accepted exactly when it is proper, its worker,
   version and token are there and belong together, its identifier is new and
   it follows on what the worker desires; it is not found exactly when it is
   proper and one of the three is missing or foreign. An accepted plan adds the
   deployment and moves the worker on; any other changes nothing.
   */
  lemma PlanAnswers(ops: seq<Op>, s: Store, d: Deployment, updated: Worker)
    requires s == Run(EMPTY, ops).store
    ensures var (t, r) := Plan(s, d, updated);
      && (r.Ok? <==> ProperPlan(d) && CanPlan(s, d) && d.id !in s.deployments && Follows(s, d, updated))
      && (r.NotFound? <==> ProperPlan(d) && !CanPlan(s, d))
      && (!r.Ok? ==> t == s && (r.NotFound? || r.Conflict?))
      && (r.Ok? ==> t == s.(deployments := s.deployments[d.id := d], workers := s.workers[d.workerId := updated]))
  {
    EverythingIsOwned(ops);
  }

  /** The provider's version is recorded exactly for a version of the worker, with all it takes and nothing else. */
  lemma ProviderAnswers(s: Store, w: string, v: string, providerId: string, number: int, at: Option<int>)
    ensures var (t, r) := SetProvider(s, w, v, providerId, number, at);
            var complete := w != "" && v != "" && providerId != "" && number >= 0 && at.Some?;
      && (r.Ok? <==> complete && v in s.versions && s.versions[v].workerId == w)
      && (r.NotFound? <==> complete && (v !in s.versions || s.versions[v].workerId != w))
      && (!r.Ok? ==> t == s && (r.NotFound? || r.Conflict?))
      && (r.Ok? ==> t == s.(versions := s.versions[v := Version(s.versions[v].id, w, providerId, number, at)]))
  {
  }

  /** Tokens and versions are taken for known workers only, a version under a new identifier only. */
  lemma TokenAndVersionAnswers(s: Store, w: string, v: Version)
    ensures PutToken(s, w) == (if w in s.workers then (s.(tokens := s.tokens + {w}), Ok) else (s, NotFound))
    ensures DeleteToken(s, w) == (if w in s.tokens then (s.(tokens := s.tokens - {w}), Ok) else (s, NotFound))
    ensures var (t, r) := CreateVersion(s, v);
      && (r.Ok? <==> v.workerId in s.workers && v.id !in s.versions) && (r.NotFound? <==> v.workerId !in s.workers)
      && t == (if r.Ok? then s.(versions := s.versions[v.id := v]) else s)
  {
  }
}
