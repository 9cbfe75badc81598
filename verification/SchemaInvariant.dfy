/**
 What a database can hold: in every run of execute calls over PostgreSQL, every
 record and every version in the store is one the schema admits, however long
 the identifiers and error kinds are that the provider answers with.
 */
module SchemaInvariant {
  import opened Common
  import opened Deployments
  import opened DeploymentStore
  import PostgresDeployments
  import E = DeploymentExecutor

  predicate RecordAdmitted(s: Store, id: string) {
    id in s.deployments && PostgresDeployments.Storable(s.deployments[id])
  }

  predicate VersionAdmitted(s: Store, id: string) {
    id in s.versions && |s.versions[id].providerVersionId| <= E.MAX_IDENTIFIER
  }

  ghost predicate Admitted(s: Store) {
    && (forall id :: id in s.deployments ==> RecordAdmitted(s, id))
    && (forall id :: id in s.versions ==> VersionAdmitted(s, id))
  }

  lemma AdmittedByEntry(s: Store, t: Store)
    requires Admitted(s)
    requires forall id :: id in t.deployments ==>
               PostgresDeployments.Storable(t.deployments[id])
               || (id in s.deployments && t.deployments[id] == s.deployments[id])
    requires forall id :: id in t.versions ==>
               |t.versions[id].providerVersionId| <= E.MAX_IDENTIFIER
               || (id in s.versions && t.versions[id] == s.versions[id])
    ensures Admitted(t)
  {
    forall id | id in t.deployments ensures RecordAdmitted(t, id) {
      assert id in s.deployments ==> RecordAdmitted(s, id);
    }
    forall id | id in t.versions ensures VersionAdmitted(t, id) {
      assert id in s.versions ==> VersionAdmitted(s, id);
    }
  }

  lemma AdminKeepsAdmitted(s: E.System, op: Op)
    requires s.storage.Postgres? && Admitted(s.store) && E.AdminEnabled(s, op)
    ensures Admitted(E.Apply(s, E.Admin(op)).store)
  {
    AdmittedByEntry(s.store, E.Apply(s, E.Admin(op)).store);
  }

  lemma SaveKeepsAdmitted(s: Store, d: Deployment, expected: State)
    requires Admitted(s)
    ensures Admitted(E.Save(E.Postgres, s, d, expected).0)
  {
    AdmittedByEntry(s, E.Save(E.Postgres, s, d, expected).0);
  }

  lemma SaveProviderKeepsAdmitted(s: Store, d: Deployment, providerId: string, number: int, at: Option<int>)
    requires Admitted(s)
    ensures Admitted(E.SaveProvider(E.Postgres, s, d, providerId, number, at).0)
  {
    AdmittedByEntry(s, E.SaveProvider(E.Postgres, s, d, providerId, number, at).0);
  }

  lemma AdmittedKept(s: E.System, op: E.Op)
    requires s.storage.Postgres? && Admitted(s.store)
    ensures E.Apply(s, op).storage == s.storage && Admitted(E.Apply(s, op).store)
  {
    if E.Enabled(s, op) {
      match op
      case Admin(o) => AdminKeepsAdmitted(s, o);
      case Start(p, r) => SaveKeepsAdmitted(s.store, E.RunningRecord(s.calls[p].d, s.calls[p].v, r), Ready);
      case Record(p) =>
        var c := s.calls[p];
        SaveProviderKeepsAdmitted(s.store, c.running, c.providerVersion, c.number, c.at);
      case Close(p, r) => SaveKeepsAdmitted(s.store, E.FinalRecord(s.calls[p].running, s.calls[p].goal, r), Running);
      case _ =>
    }
  }

  lemma {:induction false} AdmittedAlways(s: E.System, ops: seq<E.Op>)
    requires s.storage.Postgres? && Admitted(s.store)
    ensures Admitted(E.Run(s, ops).store)
    decreases |ops|
  {
    if ops != [] {
      AdmittedKept(s, ops[0]);
      AdmittedAlways(E.Apply(s, ops[0]), ops[1..]);
    }
  }

  /** In every run over PostgreSQL, every record and version in the store is one the schema admits. */
  lemma PostgresHoldsWhatItAdmits(clock: int, ops: seq<E.Op>)
    ensures Admitted(E.Run(E.Init(E.Postgres, clock), ops).store)
  {
    AdmittedAlways(E.Init(E.Postgres, clock), ops);
  }
}
