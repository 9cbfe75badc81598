/**
 The idempotency ledger of the runbook endpoint and the concurrency semaphore
 around it. A claim may have to evict; which of several equally old entries
 goes depends on the iteration order of a hash map, so the victim is a
 parameter constrained by `MayEvict`. The ledger marks that it has seen no
 candidate by the empty identifier; the handler never claims under it.
 */
module RunbookLedger {
  import opened Common

  type Job = string
  type Scope = string
  type Response = string
  type Pid = nat

  const DEFAULT_MAX: nat := 10_000

  datatype Entry =
    | InProgress(scope: Scope, startedAt: int)
    | Completed(scope: Scope, startedAt: int, response: Response)

  datatype Ledger = Ledger(entries: map<Job, Entry>, max: nat)

  datatype Outcome = New | Replay(response: Response) | Conflicting | Busy | Full

  function Fresh(maxEntries: int): Ledger {
    Ledger(map[], if maxEntries <= 0 then DEFAULT_MAX else maxEntries)
  }

  /** The completed entry that started first; none exactly when nothing is completed. */
  predicate IsVictim(entries: map<Job, Entry>, victim: Option<Job>) {
    match victim
    case None => forall j :: j in entries ==> entries[j].InProgress?
    case Some(v) =>
      && v in entries && entries[v].Completed?
      && forall j :: j in entries && entries[j].Completed? ==> entries[v].startedAt <= entries[j].startedAt
  }

  /** What the scan may come up with. An entry under the empty identifier would hide what was seen before it. */
  predicate MayEvict(entries: map<Job, Entry>, victim: Option<Job>) {
    && (victim.Some? ==> victim.value in entries && entries[victim.value].Completed?)
    && ("" !in entries ==> IsVictim(entries, victim))
  }

  /** A victim has to be named only when a new job meets a ledger at its limit. */
  predicate VictimChosen(l: Ledger, job: Job, victim: Option<Job>) {
    job !in l.entries && |l.entries| >= l.max ==> MayEvict(l.entries, victim)
  }

  function Claim(l: Ledger, job: Job, scope: Scope, now: int, victim: Option<Job>): (Ledger, Outcome) {
    if job in l.entries then
      var e := l.entries[job];
      (l, if e.scope != scope then Conflicting else if e.InProgress? then Busy else Replay(e.response))
    else if |l.entries| < l.max then
      (l.(entries := l.entries[job := InProgress(scope, now)]), New)
    else if victim.None? then
      (l, Full)
    else
      (l.(entries := (l.entries - {victim.value})[job := InProgress(scope, now)]), New)
  }

  function Complete(l: Ledger, job: Job, scope: Scope, response: Response): Ledger {
    if job !in l.entries || l.entries[job].scope != scope || !l.entries[job].InProgress? then l
    else l.(entries := l.entries[job := Completed(scope, l.entries[job].startedAt, response)])
  }

  /** The ledger object: entries of a map inserted, evicted and completed under a lock. */
  class LedgerObject {
    var entries: map<Job, Entry>
    const max: nat

    function View(): Ledger
      reads this
    {
      Ledger(entries, max)
    }

    constructor (maxEntries: int)
      ensures View() == Fresh(maxEntries)
    {
      entries, max := map[], if maxEntries <= 0 then DEFAULT_MAX else maxEntries;
    }

    /** The scan for the oldest completed entry; the empty identifier marks that none was seen. */
    method OldestCompleted() returns (oldestJob: Job)
      ensures MayEvict(entries, if oldestJob == "" then None else Some(oldestJob))
    {
      oldestJob := "";
      var oldest := 0;
      var todo := entries.Keys;
      while todo != {}
        invariant todo <= entries.Keys
        invariant oldestJob != "" ==>
          oldestJob in entries && entries[oldestJob].Completed? && entries[oldestJob].startedAt == oldest
        invariant "" !in entries && oldestJob == "" ==>
          forall j :: j in entries && j !in todo ==> entries[j].InProgress?
        invariant "" !in entries && oldestJob != "" ==>
          forall j :: j in entries && j !in todo && entries[j].Completed? ==> oldest <= entries[j].startedAt
        decreases todo
      {
        var candidate :| candidate in todo;
        if entries[candidate].Completed? && (oldestJob == "" || entries[candidate].startedAt < oldest) {
          oldestJob, oldest := candidate, entries[candidate].startedAt;
        }
        todo := todo - {candidate};
      }
    }

    method TryClaim(job: Job, scope: Scope, now: int) returns (outcome: Outcome, ghost victim: Option<Job>)
      modifies this
      ensures VictimChosen(old(View()), job, victim)
      ensures (View(), outcome) == Claim(old(View()), job, scope, now, victim)
    {
      victim := None;
      if job in entries {
        var entry := entries[job];
        if entry.scope != scope {
          return Conflicting, victim;
        }
        if entry.InProgress? {
          return Busy, victim;
        }
        return Replay(entry.response), victim;
      }
      if |entries| >= max {
        var oldestJob := OldestCompleted();
        victim := if oldestJob == "" then None else Some(oldestJob);
        if oldestJob == "" {
          return Full, victim;
        }
        entries := entries - {oldestJob};
      }
      entries := entries[job := InProgress(scope, now)];
      return New, victim;
    }

    method Finish(job: Job, scope: Scope, response: Response)
      modifies this
      ensures View() == Complete(old(View()), job, scope, response)
    {
      if job !in entries || entries[job].scope != scope || !entries[job].InProgress? {
        return;
      }
      entries := entries[job := Completed(scope, entries[job].startedAt, response)];
    }
  }

  // ---- The handler: acquire, claim, run, complete, release ----

  /** Where a request stands while it holds a place of the semaphore. */
  datatype Stage = Acquired | Running(job: Job, scope: Scope) | Leaving

  /** What was last started under a job: by which request, in which scope, and the response it completed with. */
  datatype Started = Started(runner: Pid, scope: Scope, response: Option<Response>)

  datatype System = System(ledger: Ledger, slots: nat, requests: map<Pid, Stage>, last: map<Job, Started>)

  datatype Op =
    | AcquireOp(p: Pid)
    | ClaimOp(p: Pid, job: Job, scope: Scope, now: int, victim: Option<Job>)
    | CompleteOp(p: Pid, response: Response)
    | ReleaseOp(p: Pid)

  /** A request releases its place before it claimed, or after a refused claim or a completed run; never in between. */
  predicate Enabled(s: System, op: Op) {
    match op
    case AcquireOp(p) => p !in s.requests
    case ClaimOp(p, job, _, _, victim) =>
      p in s.requests && s.requests[p].Acquired? && job != "" && VictimChosen(s.ledger, job, victim)
    case CompleteOp(p, _) => p in s.requests && s.requests[p].Running?
    case ReleaseOp(p) => p in s.requests && !s.requests[p].Running?
  }

  function Apply(s: System, op: Op): System {
    if !Enabled(s, op) then s
    else match op
      case AcquireOp(p) => if |s.requests| >= s.slots then s else s.(requests := s.requests[p := Acquired])
      case ClaimOp(p, job, scope, now, victim) =>
        var (l, o) := Claim(s.ledger, job, scope, now, victim);
        if o.New? then
          s.(ledger := l, requests := s.requests[p := Running(job, scope)],
             last := s.last[job := Started(p, scope, None)])
        else s.(ledger := l, requests := s.requests[p := Leaving])
      case CompleteOp(p, response) =>
        var r := s.requests[p];
        s.(ledger := Complete(s.ledger, r.job, r.scope, response), requests := s.requests[p := Leaving],
           last := s.last[r.job := Started(p, r.scope, Some(response))])
      case ReleaseOp(p) => s.(requests := s.requests - {p})
  }

  function Run(s: System, ops: seq<Op>): System
    decreases |ops|
  {
    if ops == [] then s else Run(Apply(s, ops[0]), ops[1..])
  }

  lemma {:induction false} RunConcat(s: System, a: seq<Op>, b: seq<Op>)
    ensures Run(s, a + b) == Run(Run(s, a), b)
    decreases |a|
  {
    if a == [] {
      assert a + b == b;
    } else {
      assert (a + b)[0] == a[0] && (a + b)[1..] == a[1..] + b;
      RunConcat(Apply(s, a[0]), a[1..], b);
    }
  }

  function Init(maxEntries: int, slots: nat): System {
    System(Fresh(maxEntries), slots, map[], map[])
  }

  /** The entry of a job agrees with what was last started under it, and runs only while that request does. */
  predicate EntryOk(s: System, job: Job, e: Entry) {
    && job in s.last && s.last[job].scope == e.scope
    && s.last[job].response == (if e.Completed? then Some(e.response) else None)
    && (e.InProgress? ==> s.last[job].runner in s.requests && s.requests[s.last[job].runner] == Running(job, e.scope))
  }

  /** A running request owns the in-progress entry of its job. */
  predicate OwnsEntry(s: System, p: Pid, job: Job, scope: Scope) {
    && job in s.ledger.entries && s.ledger.entries[job].InProgress? && s.ledger.entries[job].scope == scope
    && job in s.last && s.last[job].runner == p
  }

  ghost predicate Inv(s: System) {
    && s.ledger.max >= 1 && |s.ledger.entries| <= s.ledger.max && |s.requests| <= s.slots && "" !in s.ledger.entries
    && (forall p :: p in s.requests && s.requests[p].Running? ==>
          OwnsEntry(s, p, s.requests[p].job, s.requests[p].scope))
    && (forall j :: j in s.ledger.entries ==> EntryOk(s, j, s.ledger.entries[j]))
  }

  lemma ClaimedSize(l: Ledger, job: Job, scope: Scope, now: int, victim: Option<Job>)
    requires |l.entries| <= l.max && VictimChosen(l, job, victim)
    ensures |Claim(l, job, scope, now, victim).0.entries| <= l.max
  {
    if job !in l.entries {
      InsertedSize(l.entries, job, InProgress(scope, now));
      if |l.entries| >= l.max && victim.Some? {
        RemovedSize(l.entries, victim.value);
        InsertedSize(l.entries - {victim.value}, job, InProgress(scope, now));
      }
    }
  }

  lemma ClaimKeepsInv(s: System, op: Op)
    requires Inv(s) && op.ClaimOp? && Enabled(s, op)
    ensures Inv(Apply(s, op))
  {
    var t := Apply(s, op);
    ClaimedSize(s.ledger, op.job, op.scope, op.now, op.victim);
    InsertedSize(s.requests, op.p, t.requests[op.p]);
    forall j | j in t.ledger.entries ensures EntryOk(t, j, t.ledger.entries[j]) {
      if j in s.ledger.entries {
        assert EntryOk(s, j, s.ledger.entries[j]);
      }
    }
    forall p | p in t.requests && t.requests[p].Running?
      ensures OwnsEntry(t, p, t.requests[p].job, t.requests[p].scope)
    {
      if p != op.p {
        assert OwnsEntry(s, p, s.requests[p].job, s.requests[p].scope);
      }
    }
  }

  lemma CompleteKeepsInv(s: System, p: Pid, response: Response)
    requires Inv(s) && Enabled(s, CompleteOp(p, response))
    ensures Inv(Apply(s, CompleteOp(p, response)))
  {
    var t := Apply(s, CompleteOp(p, response));
    var r := s.requests[p];
    assert OwnsEntry(s, p, r.job, r.scope);
    InsertedSize(s.requests, p, Leaving);
    InsertedSize(s.ledger.entries, r.job, t.ledger.entries[r.job]);
    forall j | j in t.ledger.entries ensures EntryOk(t, j, t.ledger.entries[j]) {
      assert EntryOk(s, j, s.ledger.entries[j]);
    }
    forall q | q in t.requests && t.requests[q].Running?
      ensures OwnsEntry(t, q, t.requests[q].job, t.requests[q].scope)
    {
      assert OwnsEntry(s, q, s.requests[q].job, s.requests[q].scope);
    }
  }

  lemma SemaphoreKeepsInv(s: System, op: Op)
    requires Inv(s) && (op.AcquireOp? || op.ReleaseOp?) && Enabled(s, op)
    ensures Inv(Apply(s, op))
  {
    var t := Apply(s, op);
    if op.ReleaseOp? {
      RemovedSize(s.requests, op.p);
    } else {
      InsertedSize(s.requests, op.p, Acquired);
    }
    forall j | j in t.ledger.entries ensures EntryOk(t, j, t.ledger.entries[j]) {
      assert EntryOk(s, j, s.ledger.entries[j]);
    }
    forall q | q in t.requests && t.requests[q].Running?
      ensures OwnsEntry(t, q, t.requests[q].job, t.requests[q].scope)
    {
      assert OwnsEntry(s, q, s.requests[q].job, s.requests[q].scope);
    }
  }

  lemma InvKept(s: System, op: Op)
    requires Inv(s)
    ensures Inv(Apply(s, op)) && Apply(s, op).slots == s.slots && Apply(s, op).ledger.max == s.ledger.max
  {
    if Enabled(s, op) {
      match op
      case ClaimOp(_, _, _, _, _) => ClaimKeepsInv(s, op);
      case CompleteOp(p, response) => CompleteKeepsInv(s, p, response);
      case _ => SemaphoreKeepsInv(s, op);
    }
  }

  lemma {:induction false} InvAlways(s: System, ops: seq<Op>)
    requires Inv(s)
    ensures Inv(Run(s, ops)) && Run(s, ops).slots == s.slots && Run(s, ops).ledger.max == s.ledger.max
    decreases |ops|
  {
    if ops != [] {
      InvKept(s, ops[0]);
      InvAlways(Apply(s, ops[0]), ops[1..]);
    }
  }

  /** Jobs in progress are at most the requests that run one: each job has a request of its own. */
  lemma {:induction false} InProgressBound(s: System, jobs: set<Job>, pids: set<Pid>)
    requires forall j :: j in jobs ==> j in s.last && s.last[j].runner in pids && s.last[j].runner in s.requests
                                       && s.requests[s.last[j].runner].Running? && s.requests[s.last[j].runner].job == j
    ensures |jobs| <= |pids|
  {
    if jobs != {} {
      var j :| j in jobs;
      InProgressBound(s, jobs - {j}, pids - {s.last[j].runner});
    }
  }

  /** A full ledger of running jobs would need more requests than the semaphore has places. */
  lemma FullNeedsMorePlaces(s: System, op: Op)
    requires Inv(s) && op.ClaimOp? && Enabled(s, op)
    requires Claim(s.ledger, op.job, op.scope, op.now, op.victim).1.Full?
    ensures s.ledger.max < s.slots
  {
    forall j | j in s.ledger.entries ensures EntryOk(s, j, s.ledger.entries[j]) {
    }
    InProgressBound(s, s.ledger.entries.Keys, s.requests.Keys - {op.p});
    assert |s.ledger.entries.Keys| == |s.ledger.entries| && |s.requests.Keys| == |s.requests|;
  }

  lemma ClaimSparesRunning(s: System, op: Op, p: Pid)
    requires Inv(s) && op.ClaimOp? && Enabled(s, op) && p in s.requests && s.requests[p].Running?
    ensures var (l, o), job := Claim(s.ledger, op.job, op.scope, op.now, op.victim), s.requests[p].job;
      job in s.ledger.entries && job in l.entries && l.entries[job] == s.ledger.entries[job]
  {
    assert OwnsEntry(s, p, s.requests[p].job, s.requests[p].scope);
  }

  /**
   If the ledger has room for as many jobs as the semaphore admits requests,
   then in every run no claim is ever answered that the ledger is full, no
   entry in progress is ever evicted or lost, completing always takes effect
   for the request that runs the job, the ledger never exceeds its limit, and
   a replay returns exactly the response the job last completed with.
   */
  lemma LedgerHonoursClaims(maxEntries: int, slots: nat, ops: seq<Op>, op: Op)
    requires var s := Run(Init(maxEntries, slots), ops); Enabled(s, op)
    ensures var s := Run(Init(maxEntries, slots), ops);
            var limit := Fresh(maxEntries).max;
      && |s.ledger.entries| <= limit
      && (op.ClaimOp? ==>
            var (l, o) := Claim(s.ledger, op.job, op.scope, op.now, op.victim);
            && (o.Full? ==> limit < slots)
            && (forall p :: p in s.requests && s.requests[p].Running? ==>
                  var job := s.requests[p].job;
                  job in s.ledger.entries && job in l.entries && l.entries[job] == s.ledger.entries[job])
            && (o.Replay? ==>
                  op.job in s.last && s.last[op.job].scope == op.scope && s.last[op.job].response == Some(o.response)))
      && (op.CompleteOp? ==>
            var r := s.requests[op.p];
            var l := Complete(s.ledger, r.job, r.scope, op.response);
            r.job in l.entries && l.entries[r.job].Completed? && l.entries[r.job].response == op.response)
  {
    InvAlways(Init(maxEntries, slots), ops);
    var s := Run(Init(maxEntries, slots), ops);
    if op.ClaimOp? {
      if Claim(s.ledger, op.job, op.scope, op.now, op.victim).1.Full? {
        FullNeedsMorePlaces(s, op);
      }
      forall p | p in s.requests && s.requests[p].Running?
        ensures var (l, o), job := Claim(s.ledger, op.job, op.scope, op.now, op.victim), s.requests[p].job;
          job in s.ledger.entries && job in l.entries && l.entries[job] == s.ledger.entries[job]
      {
        ClaimSparesRunning(s, op, p);
      }
      assert op.job in s.ledger.entries ==> EntryOk(s, op.job, s.ledger.entries[op.job]);
    } else if op.CompleteOp? {
      assert OwnsEntry(s, op.p, s.requests[op.p].job, s.requests[op.p].scope);
    }
  }

  // ---- The condition is exact ----

  function JobNamed(i: nat): Job {
    seq(i + 1, _ => 'j')
  }

  /** After `n` requests have each claimed a job of its own. */
  ghost predicate Crowded(s: System, n: nat, limit: nat, slots: nat) {
    && s.ledger.max == limit && s.slots == slots
    && |s.ledger.entries| == n && |s.requests| == n
    && (forall j :: j in s.ledger.entries ==> s.ledger.entries[j].InProgress? && |j| <= n)
    && (forall p :: p in s.requests ==> p < n)
  }

  lemma {:induction false} CrowdingRun(maxEntries: int, slots: nat, n: nat) returns (ops: seq<Op>)
    requires n <= Fresh(maxEntries).max && n <= slots
    ensures Crowded(Run(Init(maxEntries, slots), ops), n, Fresh(maxEntries).max, slots)
  {
    var i := Init(maxEntries, slots);
    if n == 0 {
      ops := [];
    } else {
      var prefix := CrowdingRun(maxEntries, slots, n - 1);
      var s := Run(i, prefix);
      var job := JobNamed(n - 1);
      var two := [AcquireOp(n - 1), ClaimOp(n - 1, job, "", 0, None)];
      ops := prefix + two;
      RunConcat(i, prefix, two);
      assert |job| == n && job !in s.ledger.entries;
      InsertedSize(s.requests, n - 1, Acquired);
      var t := Apply(s, two[0]);
      InsertedSize(t.requests, n - 1, Running(job, ""));
      InsertedSize(s.ledger.entries, job, InProgress("", 0));
      assert two[1..] == [two[1]] && Run(t, [two[1]]) == Run(Apply(t, two[1]), []);
    }
  }

  /** With fewer places in the ledger than in the semaphore, some run is told the ledger is full. */
  lemma FullIsReachable(maxEntries: int, slots: nat) returns (ops: seq<Op>, op: Op)
    requires Fresh(maxEntries).max < slots
    ensures var s := Run(Init(maxEntries, slots), ops);
      && op.ClaimOp? && Enabled(s, op) && Claim(s.ledger, op.job, op.scope, op.now, op.victim).1.Full?
  {
    var i, n := Init(maxEntries, slots), Fresh(maxEntries).max;
    var prefix := CrowdingRun(maxEntries, slots, n);
    var s := Run(i, prefix);
    ops := prefix + [AcquireOp(n)];
    op := ClaimOp(n, JobNamed(n), "", 0, None);
    RunConcat(i, prefix, [AcquireOp(n)]);
    assert Run(s, [AcquireOp(n)]) == Run(Apply(s, AcquireOp(n)), []);
    assert |JobNamed(n)| == n + 1 && JobNamed(n) !in s.ledger.entries;
  }
}
