/**
 What the runbook ledger answers, exactly: over every run each answer to a
 claim has its own cause, and each step leaves everything else in place.
 */
module LedgerAnswers {
  import opened Common
  import opened RunbookLedger

  /** A request is running the job in the scope. */
  predicate IsRunning(s: System, job: Job, scope: Scope) {
    exists p :: p in s.requests && s.requests[p] == Running(job, scope)
  }

  lemma BusyMeansRunning(s: System, job: Job, scope: Scope)
    requires Inv(s)
    ensures IsRunning(s, job, scope) <==>
            job in s.ledger.entries && s.ledger.entries[job].InProgress? && s.ledger.entries[job].scope == scope
  {
    if p :| p in s.requests && s.requests[p] == Running(job, scope) {
      assert OwnsEntry(s, p, job, scope);
    }
    if job in s.ledger.entries && s.ledger.entries[job].InProgress? && s.ledger.entries[job].scope == scope {
      assert EntryOk(s, job, s.ledger.entries[job]);
      assert s.requests[s.last[job].runner] == Running(job, scope);
    }
  }

  /**
   In every run: a claim is told of a conflict exactly when the job is filed
   and was started in another scope, that it is busy exactly while a request
   runs it in this scope, and replayed the last response exactly when it is
   filed and completed in this scope. Otherwise the job is not filed, and the
   claim is new, or the ledger is full, exactly at its limit with every entry
   in progress.
   */
  lemma ClaimAnswers(maxEntries: int, slots: nat, ops: seq<Op>, s: System, op: Op)
    requires s == Run(Init(maxEntries, slots), ops) && op.ClaimOp? && Enabled(s, op)
    ensures var o, filed := Claim(s.ledger, op.job, op.scope, op.now, op.victim).1, op.job in s.ledger.entries;
      && (filed ==> op.job in s.last)
      && (o.Conflicting? <==> filed && s.last[op.job].scope != op.scope)
      && (o.Busy? <==> IsRunning(s, op.job, op.scope))
      && (o.Replay? <==> filed && s.last[op.job].scope == op.scope && s.last[op.job].response.Some?)
      && (o.Replay? ==> o.response == s.last[op.job].response.value)
      && (o.New? || o.Full? <==> !filed)
      && (o.Full? <==> !filed && |s.ledger.entries| >= s.ledger.max
                       && forall j :: j in s.ledger.entries ==> s.ledger.entries[j].InProgress?)
  {
    InvAlways(Init(maxEntries, slots), ops);
    BusyMeansRunning(s, op.job, op.scope);
    if op.job in s.ledger.entries {
      assert EntryOk(s, op.job, s.ledger.entries[op.job]);
    }
  }

  /**
   Only a new claim changes the ledger. It files its job as in progress; at the
   limit it evicts one entry, completed and started no later than any other
   completed one; every other entry stays as it was.
   */
  lemma ClaimLeaves(l: Ledger, job: Job, scope: Scope, now: int, victim: Option<Job>)
    requires VictimChosen(l, job, victim) && "" !in l.entries
    ensures var (u, o) := Claim(l, job, scope, now, victim);
      && u.max == l.max && (!o.New? ==> u == l)
      && (o.New? ==> job in u.entries && u.entries[job] == InProgress(scope, now))
      && (forall j :: j in u.entries && j != job ==> j in l.entries && u.entries[j] == l.entries[j])
      && (forall j :: j in l.entries && j !in u.entries ==> |l.entries| >= l.max && l.entries[j].Completed?)
      && (forall i, j :: i in l.entries && i !in u.entries && j in l.entries && j !in u.entries ==> i == j)
      && (forall j, k :: j in l.entries && j !in u.entries && k in l.entries && l.entries[k].Completed? ==>
            l.entries[j].startedAt <= l.entries[k].startedAt)
  {
  }

  /** Completing changes exactly the entry in progress of the same job and scope, and keeps when it started. */
  lemma CompleteLeaves(l: Ledger, job: Job, scope: Scope, response: Response)
    ensures var u, mine := Complete(l, job, scope, response),
                           job in l.entries && l.entries[job].InProgress? && l.entries[job].scope == scope;
      && u.max == l.max && (!mine ==> u == l)
      && (mine ==> u.entries == l.entries[job := Completed(scope, l.entries[job].startedAt, response)])
  {
  }

  /** A request gets a place exactly while fewer than all places are taken. */
  lemma AcquireAnswers(s: System, p: Pid)
    requires p !in s.requests
    ensures p in Apply(s, AcquireOp(p)).requests <==> |s.requests| < s.slots
    ensures Apply(s, AcquireOp(p)).ledger == s.ledger
  {
  }

  /** The limit asked for is kept, and a non-positive one becomes ten thousand. */
  lemma LimitIsKept(maxEntries: int)
    ensures Fresh(maxEntries).max == (if maxEntries > 0 then maxEntries else 10_000)
    ensures Fresh(maxEntries).entries == map[]
  {
  }
}
