/**
 The provider client's idempotency cache. The first caller of a key executes
 the operation outside the lock; callers that find its entry wait for it.
 Every lock region, and every wake-up of a waiter, is one step. An entry is an
 object that outlives its place in the map: waiters keep a reference to it,
 so entries live in a heap and the map holds references. Which of several
 equally old completed entries is evicted depends on the iteration order of a
 hash map and is a parameter of the step.
 */
module SingleFlight {
  import opened Common
  import opened Text

  type Pid = nat
  type Ref = nat

  /** Operation, scope and caller's key, joined by NUL bytes. */
  type Key = string

  function CacheKey(operation: string, scope: string, key: string): Key {
    operation + ['\0'] + (scope + ['\0'] + key)
  }

  /**
   Requests with different operations, scopes or keys never share an entry, as
   long as the first two hold no NUL byte.
   */
  lemma CacheKeysDiffer(operation: string, scope: string, key: string, operation': string, scope': string, key': string)
    requires Free(operation, '\0') && Free(scope, '\0') && Free(operation', '\0') && Free(scope', '\0')
    requires CacheKey(operation, scope, key) == CacheKey(operation', scope', key')
    ensures operation == operation' && scope == scope' && key == key'
  {
    FirstSeparator(operation, scope + ['\0'] + key, operation', scope' + ['\0'] + key', '\0');
    FirstSeparator(scope, key, scope', key', '\0');
  }

  const OPERATIONS: seq<string> := ["upload_version", "deploy_version", "rollback"]

  predicate ValidScriptName(s: string) {
    1 <= |s| <= 63 && s[0] != '_' && s[0] != '-'
    && forall c :: c in s ==> 'a' <= c <= 'z' || '0' <= c <= '9' || c == '_' || c == '-'
  }

  lemma OperationHoldsNoNul(operation: string)
    requires operation in OPERATIONS
    ensures Free(operation, '\0')
  {
    var i :| 0 <= i < |OPERATIONS| && operation == OPERATIONS[i];
  }

  /**
   The requests the client makes hold no NUL byte there: its operations are
   fixed and their scope is a script name.
   */
  lemma RequestsDoNotCollide(operation: string, scope: string, key: string, operation': string, scope': string,
                             key': string)
    requires operation in OPERATIONS && operation' in OPERATIONS && ValidScriptName(scope) && ValidScriptName(scope')
    requires CacheKey(operation, scope, key) == CacheKey(operation', scope', key')
    ensures operation == operation' && scope == scope' && key == key'
  {
    OperationHoldsNoNul(operation);
    OperationHoldsNoNul(operation');
    CacheKeysDiffer(operation, scope, key, operation', scope', key');
  }

  datatype Outcome = Value(value: string) | Failure(error: string)

  datatype Entry = Entry(fingerprint: string, done: Option<Outcome>, createdAt: int)

  /** What the lock protects: the map, and the entries ever put into it. */
  datatype Cache = Cache(limit: nat, idem: map<Key, Ref>, heap: seq<Entry>)

  /** How a caller leaves its first lock region. */
  datatype Begun = Follow(ref: Ref) | Mismatched | Refused | LeadAs(ref: Ref)

  predicate Refers(c: Cache, k: Key) {
    k in c.idem && c.idem[k] < |c.heap|
  }

  predicate Sound(c: Cache) {
    forall k :: k in c.idem ==> Refers(c, k)
  }

  predicate IsCompleted(c: Cache, k: Key) {
    Refers(c, k) && c.heap[c.idem[k]].done.Some?
  }

  /** The completed entry created first; none exactly when nothing in the map is completed. */
  predicate IsVictim(c: Cache, victim: Option<Key>) {
    match victim
    case None => forall k :: k in c.idem ==> !IsCompleted(c, k)
    case Some(v) =>
      && IsCompleted(c, v)
      && forall k :: k in c.idem && IsCompleted(c, k) ==> c.heap[c.idem[v]].createdAt <= c.heap[c.idem[k]].createdAt
  }

  /** A victim has to be named only when a new key meets a full map. */
  predicate VictimChosen(c: Cache, key: Key, victim: Option<Key>) {
    key !in c.idem && |c.idem| >= c.limit ==> IsVictim(c, victim)
  }

  function Lead(c: Cache, key: Key, fingerprint: string, now: int): Cache {
    Cache(c.limit, c.idem[key := |c.heap|], c.heap + [Entry(fingerprint, None, now)])
  }

  function Begin(c: Cache, key: Key, fingerprint: string, now: int, victim: Option<Key>): (Cache, Begun) {
    if key in c.idem then
      (c, if Refers(c, key) && c.heap[c.idem[key]].fingerprint == fingerprint then Follow(c.idem[key]) else Mismatched)
    else if |c.idem| < c.limit then
      (Lead(c, key, fingerprint, now), LeadAs(|c.heap|))
    else if victim.None? then
      (c, Refused)
    else
      (Lead(c.(idem := c.idem - {victim.value}), key, fingerprint, now), LeadAs(|c.heap|))
  }

  function Settle(c: Cache, key: Key, ref: Ref, outcome: Outcome): Cache {
    if ref >= |c.heap| then c
    else
      Cache(c.limit, if outcome.Failure? then c.idem - {key} else c.idem,
            c.heap[ref := c.heap[ref].(done := Some(outcome))])
  }

  /** The client's cache object. */
  class Client {
    const maxIdemEntries: nat
    var idem: map<Key, Ref>
    var heap: seq<Entry>

    function View(): Cache
      reads this
    {
      Cache(maxIdemEntries, idem, heap)
    }

    constructor (maxIdemEntries: nat)
      ensures View() == Cache(maxIdemEntries, map[], []) && Sound(View())
    {
      this.maxIdemEntries, idem, heap := maxIdemEntries, map[], [];
    }

    /** The scan of `evictOldestCompletedLocked`. */
    method OldestCompleted() returns (oldest: Option<Key>)
      requires Sound(View())
      ensures IsVictim(View(), oldest)
    {
      oldest := None;
      var todo := idem.Keys;
      while todo != {}
        invariant todo <= idem.Keys
        invariant oldest.None? ==> forall k :: k in idem && k !in todo ==> !IsCompleted(View(), k)
        invariant oldest.Some? ==>
          && IsCompleted(View(), oldest.value)
          && forall k :: k in idem && k !in todo && IsCompleted(View(), k) ==>
              heap[idem[oldest.value]].createdAt <= heap[idem[k]].createdAt
        decreases todo
      {
        var key :| key in todo;
        assert Refers(View(), key);
        if heap[idem[key]].done.Some? {
          if oldest.None? || heap[idem[key]].createdAt < heap[idem[oldest.value]].createdAt {
            oldest := Some(key);
          }
        }
        todo := todo - {key};
      }
    }

    /** The lock region before the operation runs. */
    method Enter(operation: string, scope: string, callerKey: string, fingerprint: string, now: int)
      returns (begun: Begun, ghost victim: Option<Key>)
      requires Sound(View())
      modifies this
      ensures VictimChosen(old(View()), CacheKey(operation, scope, callerKey), victim)
      ensures (View(), begun) == Begin(old(View()), CacheKey(operation, scope, callerKey), fingerprint, now, victim)
      ensures Sound(View())
    {
      var key := CacheKey(operation, scope, callerKey);
      victim := None;
      if key in idem {
        assert Refers(View(), key);
        if heap[idem[key]].fingerprint != fingerprint {
          return Mismatched, victim;
        }
        return Follow(idem[key]), victim;
      }
      if |idem| >= maxIdemEntries {
        var oldest := OldestCompleted();
        victim := oldest;
        if oldest.None? {
          return Refused, victim;
        }
        idem := idem - {oldest.value};
      }
      ghost var before := View();
      begun := LeadAs(|heap|);
      idem := idem[key := |heap|];
      heap := heap + [Entry(fingerprint, None, now)];
      forall k | k in idem ensures Refers(View(), k) {
        assert k != key ==> k in before.idem && Refers(before, k);
      }
    }

    /** The lock region after the operation ran. */
    method Publish(key: Key, ref: Ref, outcome: Outcome)
      requires Sound(View()) && ref < |heap|
      modifies this
      ensures View() == Settle(old(View()), key, ref, outcome) && Sound(View())
    {
      ghost var before := View();
      heap := heap[ref := heap[ref].(done := Some(outcome))];
      if outcome.Failure? {
        idem := idem - {key};
      }
      forall k | k in idem ensures Refers(View(), k) {
        assert Refers(before, k);
      }
    }
  }

  // ---- Interleaved callers ----

  datatype Answer = Led(outcome: Outcome) | Followed(ref: Ref, outcome: Outcome) | Differs | AtCapacity | GaveUp

  datatype Call =
    | Executing(key: Key, fingerprint: string, ref: Ref)
    | Waiting(key: Key, fingerprint: string, ref: Ref)
    | Returned(key: Key, fingerprint: string, answer: Answer)

  /** `leader` records which caller allocated each entry. */
  datatype System = System(cache: Cache, leader: seq<Pid>, calls: map<Pid, Call>)

  datatype Op =
    | Enter(p: Pid, key: Key, fingerprint: string, now: int, victim: Option<Key>)
    | Finish(p: Pid, outcome: Outcome)
    | Wake(p: Pid)
    | GiveUp(p: Pid)

  predicate IsDone(c: Cache, ref: Ref) {
    ref < |c.heap| && c.heap[ref].done.Some?
  }

  predicate Enabled(s: System, op: Op) {
    match op
    case Enter(p, key, _, _, victim) => p !in s.calls && VictimChosen(s.cache, key, victim)
    case Finish(p, _) => p in s.calls && s.calls[p].Executing?
    case Wake(p) => p in s.calls && s.calls[p].Waiting? && IsDone(s.cache, s.calls[p].ref)
    case GiveUp(p) => p in s.calls && s.calls[p].Waiting?
  }

  function To(s: System, p: Pid, c: Call): System {
    s.(calls := s.calls[p := c])
  }

  function EnterStep(s: System, p: Pid, key: Key, fingerprint: string, now: int, victim: Option<Key>): System {
    var (c, begun) := Begin(s.cache, key, fingerprint, now, victim);
    match begun
    case Follow(ref) => To(s, p, Waiting(key, fingerprint, ref))
    case Mismatched => To(s, p, Returned(key, fingerprint, Differs))
    case Refused => To(s, p, Returned(key, fingerprint, AtCapacity))
    case LeadAs(ref) => System(c, s.leader + [p], s.calls[p := Executing(key, fingerprint, ref)])
  }

  function FinishStep(s: System, p: Pid, key: Key, fingerprint: string, ref: Ref, outcome: Outcome): System {
    System(Settle(s.cache, key, ref, outcome), s.leader, s.calls[p := Returned(key, fingerprint, Led(outcome))])
  }

  function WakeStep(s: System, p: Pid, c: Call): System
    requires c.Waiting? && IsDone(s.cache, c.ref)
  {
    To(s, p, Returned(c.key, c.fingerprint, Followed(c.ref, s.cache.heap[c.ref].done.value)))
  }

  function Apply(s: System, op: Op): System {
    if !Enabled(s, op) then s
    else match op
      case Enter(p, key, fingerprint, now, victim) => EnterStep(s, p, key, fingerprint, now, victim)
      case Finish(p, outcome) => FinishStep(s, p, s.calls[p].key, s.calls[p].fingerprint, s.calls[p].ref, outcome)
      case Wake(p) => WakeStep(s, p, s.calls[p])
      case GiveUp(p) => To(s, p, Returned(s.calls[p].key, s.calls[p].fingerprint, GaveUp))
  }

  function Run(s: System, ops: seq<Op>): System
    decreases |ops|
  {
    if ops == [] then s else Run(Apply(s, ops[0]), ops[1..])
  }

  function Init(limit: nat): System {
    System(Cache(limit, map[], []), [], map[])
  }

  // ---- What every step keeps ----

  /**
   The allocator of `ref` was called with `key` and its fingerprint, and
   executes for it or has returned what it holds.
   */
  predicate LedFor(s: System, key: Key, ref: Ref) {
    && ref < |s.cache.heap| == |s.leader| && s.leader[ref] in s.calls
    && s.calls[s.leader[ref]].fingerprint == s.cache.heap[ref].fingerprint
    && (match s.calls[s.leader[ref]]
        case Executing(k, _, r) => k == key && r == ref && s.cache.heap[ref].done.None?
        case Returned(k, _, answer) => k == key && answer.Led? && s.cache.heap[ref].done == Some(answer.outcome)
        case Waiting(_, _, _) => false)
  }

  /** An entry in the map is in flight or holds a value, and its allocator was called with this key. */
  predicate EntryOk(s: System, k: Key) {
    && Refers(s.cache, k) && LedFor(s, k, s.cache.idem[k])
    && (IsCompleted(s.cache, k) ==> s.cache.heap[s.cache.idem[k]].done.value.Value?)
  }

  predicate CallOk(s: System, p: Pid, c: Call) {
    match c
    case Executing(key, fingerprint, ref) =>
      && ref < |s.cache.heap| == |s.leader| && s.cache.heap[ref].done.None? && s.leader[ref] == p
      && s.cache.heap[ref].fingerprint == fingerprint && key in s.cache.idem && s.cache.idem[key] == ref
    case Waiting(key, fingerprint, ref) => LedFor(s, key, ref) && s.cache.heap[ref].fingerprint == fingerprint
    case Returned(key, fingerprint, answer) =>
      answer.Followed? ==>
        && LedFor(s, key, answer.ref) && s.cache.heap[answer.ref].done == Some(answer.outcome)
        && s.cache.heap[answer.ref].fingerprint == fingerprint
  }

  /** Every entry ever allocated has its allocator. */
  predicate RefOk(s: System, r: Ref) {
    r < |s.leader| && s.leader[r] in s.calls && LedFor(s, s.calls[s.leader[r]].key, r)
  }

  ghost predicate Inv(s: System) {
    && |s.cache.idem| <= s.cache.limit && |s.leader| == |s.cache.heap|
    && (forall k :: k in s.cache.idem ==> EntryOk(s, k))
    && (forall p :: p in s.calls ==> CallOk(s, p, s.calls[p]))
    && (forall r: Ref :: r < |s.leader| ==> RefOk(s, r))
  }

  /** A caller that allocated nothing moves on without disturbing anybody. */
  lemma MoveKeepsInv(s: System, p: Pid, c: Call)
    requires Inv(s) && (p in s.calls ==> s.calls[p].Waiting?) && !c.Executing? && CallOk(s, p, c)
    ensures Inv(To(s, p, c))
  {
    var t := To(s, p, c);
    forall r: Ref | r < |t.leader| ensures RefOk(t, r) && s.leader[r] != p {
      assert RefOk(s, r);
    }
    forall k | k in t.cache.idem ensures EntryOk(t, k) {
      assert EntryOk(s, k);
    }
    forall q | q in t.calls ensures CallOk(t, q, t.calls[q]) {
      assert CallOk(s, q, if q == p then c else s.calls[q]);
    }
  }

  /** Evicting a completed entry takes it out of the map and touches nothing else. */
  lemma EvictKeepsInv(s: System, v: Key)
    requires Inv(s) && IsCompleted(s.cache, v)
    ensures Inv(s.(cache := s.cache.(idem := s.cache.idem - {v})))
    ensures |s.cache.idem - {v}| == |s.cache.idem| - 1
  {
    var t := s.(cache := s.cache.(idem := s.cache.idem - {v}));
    RemovedSize(s.cache.idem, v);
    forall r: Ref | r < |t.leader| ensures RefOk(t, r) {
      assert RefOk(s, r);
    }
    forall k | k in t.cache.idem ensures EntryOk(t, k) {
      assert EntryOk(s, k);
    }
    forall q | q in t.calls ensures CallOk(t, q, t.calls[q]) {
      assert CallOk(s, q, s.calls[q]);
    }
  }

  /** The cache after `p` became the leader of a new entry for `key`. */
  function Leading(s: System, p: Pid, key: Key, fingerprint: string, now: int): System {
    System(Lead(s.cache, key, fingerprint, now), s.leader + [p],
           s.calls[p := Executing(key, fingerprint, |s.cache.heap|)])
  }

  lemma LeadStaysLed(s: System, p: Pid, key: Key, fingerprint: string, now: int, k: Key, r: Ref)
    requires LedFor(s, k, r) && p !in s.calls
    ensures LedFor(Leading(s, p, key, fingerprint, now), k, r)
  {
  }

  lemma LeadKeepsCall(s: System, p: Pid, key: Key, fingerprint: string, now: int, q: Pid)
    requires q in s.calls && CallOk(s, q, s.calls[q]) && p !in s.calls && key !in s.cache.idem
    ensures CallOk(Leading(s, p, key, fingerprint, now), q, s.calls[q])
  {
    match s.calls[q]
    case Waiting(k, _, r) => LeadStaysLed(s, p, key, fingerprint, now, k, r);
    case Returned(k, _, answer) =>
      if answer.Followed? {
        LeadStaysLed(s, p, key, fingerprint, now, k, answer.ref);
      }
    case Executing(_, _, _) =>
  }

  lemma LeadKeepsInv(s: System, p: Pid, key: Key, fingerprint: string, now: int)
    requires Inv(s) && p !in s.calls && key !in s.cache.idem && |s.cache.idem| < s.cache.limit
    ensures Inv(Leading(s, p, key, fingerprint, now))
  {
    var t := Leading(s, p, key, fingerprint, now);
    InsertedSize(s.cache.idem, key, |s.cache.heap|);
    forall r: Ref | r < |t.leader| ensures RefOk(t, r) {
      if r < |s.leader| {
        assert RefOk(s, r);
        LeadStaysLed(s, p, key, fingerprint, now, s.calls[s.leader[r]].key, r);
      }
    }
    forall k | k in t.cache.idem ensures EntryOk(t, k) {
      if k != key {
        assert EntryOk(s, k);
        LeadStaysLed(s, p, key, fingerprint, now, k, s.cache.idem[k]);
      }
    }
    forall q | q in t.calls ensures CallOk(t, q, t.calls[q]) {
      if q != p {
        LeadKeepsCall(s, p, key, fingerprint, now, q);
      }
    }
  }

  /** The entry found is followed, or it is for another request. */
  lemma FoundKeepsInv(s: System, p: Pid, key: Key, fingerprint: string, now: int, victim: Option<Key>)
    requires Inv(s) && p !in s.calls && key in s.cache.idem
    ensures Inv(EnterStep(s, p, key, fingerprint, now, victim))
  {
    var ref := s.cache.idem[key];
    assert EntryOk(s, key);
    if s.cache.heap[ref].fingerprint == fingerprint {
      MoveKeepsInv(s, p, Waiting(key, fingerprint, ref));
    } else {
      MoveKeepsInv(s, p, Returned(key, fingerprint, Differs));
    }
  }

  lemma EvictAndLeadKeepsInv(s: System, p: Pid, key: Key, fingerprint: string, now: int, v: Key)
    requires Inv(s) && p !in s.calls && key !in s.cache.idem && |s.cache.idem| >= s.cache.limit
             && IsCompleted(s.cache, v)
    ensures Inv(EnterStep(s, p, key, fingerprint, now, Some(v)))
  {
    var t := s.(cache := s.cache.(idem := s.cache.idem - {v}));
    assert EnterStep(s, p, key, fingerprint, now, Some(v)) == Leading(t, p, key, fingerprint, now);
    EvictKeepsInv(s, v);
    LeadKeepsInv(t, p, key, fingerprint, now);
  }

  lemma EnterKeepsInv(s: System, p: Pid, key: Key, fingerprint: string, now: int, victim: Option<Key>)
    requires Inv(s) && p !in s.calls && VictimChosen(s.cache, key, victim)
    ensures Inv(EnterStep(s, p, key, fingerprint, now, victim))
  {
    if key in s.cache.idem {
      FoundKeepsInv(s, p, key, fingerprint, now, victim);
    } else if |s.cache.idem| < s.cache.limit {
      LeadKeepsInv(s, p, key, fingerprint, now);
    } else if victim.None? {
      MoveKeepsInv(s, p, Returned(key, fingerprint, AtCapacity));
    } else {
      EvictAndLeadKeepsInv(s, p, key, fingerprint, now, victim.value);
    }
  }

  /** Publishing an outcome leaves every entry with its allocator. */
  lemma PublishedStaysLed(s: System, p: Pid, c: Call, outcome: Outcome, k: Key, r: Ref)
    requires LedFor(s, k, r) && p in s.calls && s.calls[p] == c && c.Executing? && CallOk(s, p, c)
    ensures LedFor(FinishStep(s, p, c.key, c.fingerprint, c.ref, outcome), k, r)
  {
  }

  lemma PublishedKeepsCall(s: System, p: Pid, c: Call, outcome: Outcome, q: Pid)
    requires q in s.calls && q != p && CallOk(s, q, s.calls[q])
    requires p in s.calls && s.calls[p] == c && c.Executing? && CallOk(s, p, c)
    ensures CallOk(FinishStep(s, p, c.key, c.fingerprint, c.ref, outcome), q, s.calls[q])
  {
    match s.calls[q]
    case Waiting(k, _, r) => PublishedStaysLed(s, p, c, outcome, k, r);
    case Returned(k, _, answer) =>
      if answer.Followed? {
        PublishedStaysLed(s, p, c, outcome, k, answer.ref);
      }
    case Executing(_, _, _) =>
  }

  lemma PublishedKeepsEntry(s: System, p: Pid, c: Call, outcome: Outcome, k: Key)
    requires k in s.cache.idem && EntryOk(s, k) && (outcome.Failure? ==> k != c.key)
    requires p in s.calls && s.calls[p] == c && c.Executing? && CallOk(s, p, c)
    ensures EntryOk(FinishStep(s, p, c.key, c.fingerprint, c.ref, outcome), k)
  {
    PublishedStaysLed(s, p, c, outcome, k, s.cache.idem[k]);
  }

  lemma FinishKeepsInv(s: System, p: Pid, c: Call, outcome: Outcome)
    requires Inv(s) && p in s.calls && s.calls[p] == c && c.Executing?
    ensures Inv(FinishStep(s, p, c.key, c.fingerprint, c.ref, outcome))
  {
    var t := FinishStep(s, p, c.key, c.fingerprint, c.ref, outcome);
    assert CallOk(s, p, c);
    RemovedSize(s.cache.idem, c.key);
    forall r: Ref | r < |t.leader| ensures RefOk(t, r) {
      assert RefOk(s, r);
      PublishedStaysLed(s, p, c, outcome, s.calls[s.leader[r]].key, r);
    }
    forall k | k in t.cache.idem ensures EntryOk(t, k) {
      PublishedKeepsEntry(s, p, c, outcome, k);
    }
    forall q | q in t.calls ensures CallOk(t, q, t.calls[q]) {
      if q != p {
        PublishedKeepsCall(s, p, c, outcome, q);
      }
    }
  }

  lemma InvKept(s: System, op: Op)
    requires Inv(s)
    ensures Inv(Apply(s, op)) && Apply(s, op).cache.limit == s.cache.limit
  {
    if Enabled(s, op) {
      match op
      case Enter(p, key, fingerprint, now, victim) => EnterKeepsInv(s, p, key, fingerprint, now, victim);
      case Finish(p, outcome) => FinishKeepsInv(s, p, s.calls[p], outcome);
      case Wake(p) =>
        assert CallOk(s, p, s.calls[p]);
        MoveKeepsInv(s, p, Apply(s, op).calls[p]);
      case GiveUp(p) => MoveKeepsInv(s, p, Apply(s, op).calls[p]);
    }
  }

  lemma {:induction false} InvAlways(s: System, ops: seq<Op>)
    requires Inv(s)
    ensures Inv(Run(s, ops)) && Run(s, ops).cache.limit == s.cache.limit
    decreases |ops|
  {
    if ops != [] {
      InvKept(s, ops[0]);
      InvAlways(Apply(s, ops[0]), ops[1..]);
    }
  }

  /** In every run at most one execution is in flight per key. */
  lemma OneExecutionPerKey(limit: nat, ops: seq<Op>, p: Pid, q: Pid)
    requires var s := Run(Init(limit), ops);
      p in s.calls && q in s.calls && s.calls[p].Executing? && s.calls[q].Executing? && s.calls[p].key == s.calls[q].key
    ensures p == q
  {
    InvAlways(Init(limit), ops);
    var s := Run(Init(limit), ops);
    assert CallOk(s, p, s.calls[p]) && CallOk(s, q, s.calls[q]);
  }

  /** A caller that followed an entry got what the caller who led that entry returned, and both asked for the same. */
  predicate FollowedItsLeader(s: System, c: Call)
    requires c.Returned? && c.answer.Followed?
  {
    && c.answer.ref < |s.leader| && s.leader[c.answer.ref] in s.calls
    && s.calls[s.leader[c.answer.ref]] == Returned(c.key, c.fingerprint, Led(c.answer.outcome))
  }

  /**
   In every run: an execution in flight keeps its entry in the map, so the
   delete after an error removes exactly the caller's own entry; a follower is
   given what the leader of the very entry it followed returned, who was called
   with the same key and fingerprint; only successes stay cached; and the map
   never exceeds its limit.
   */
  lemma CacheIsSound(limit: nat, ops: seq<Op>)
    ensures var s := Run(Init(limit), ops);
      && |s.cache.idem| <= limit
      && (forall p :: p in s.calls && s.calls[p].Executing? ==>
            s.calls[p].key in s.cache.idem && s.cache.idem[s.calls[p].key] == s.calls[p].ref)
      && (forall p :: p in s.calls && s.calls[p].Returned? && s.calls[p].answer.Followed? ==>
            FollowedItsLeader(s, s.calls[p]))
      && (forall k :: k in s.cache.idem ==>
            Refers(s.cache, k) && (IsCompleted(s.cache, k) ==> s.cache.heap[s.cache.idem[k]].done.value.Value?))
  {
    InvAlways(Init(limit), ops);
    var s := Run(Init(limit), ops);
    forall p | p in s.calls && s.calls[p].Executing?
      ensures s.calls[p].key in s.cache.idem && s.cache.idem[s.calls[p].key] == s.calls[p].ref
    {
      assert CallOk(s, p, s.calls[p]);
    }
    forall p | p in s.calls && s.calls[p].Returned? && s.calls[p].answer.Followed?
      ensures FollowedItsLeader(s, s.calls[p])
    {
      assert CallOk(s, p, s.calls[p]);
    }
    forall k | k in s.cache.idem
      ensures Refers(s.cache, k) && (IsCompleted(s.cache, k) ==> s.cache.heap[s.cache.idem[k]].done.value.Value?)
    {
      assert EntryOk(s, k);
    }
  }
}
