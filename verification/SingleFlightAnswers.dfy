/**
 What the idempotency cache answers, exactly: over every run, who follows, who
 leads and who is refused, what finishing leaves behind, and that a cached
 success is given to the same request without executing it again.
 */
module SingleFlightAnswers {
  import opened Common
  import opened SingleFlight

  /** The caller that leads the entry of a key in the map. */
  function LeaderOf(s: System, key: Key): Pid
    requires key in s.cache.idem && s.cache.idem[key] < |s.leader|
  {
    s.leader[s.cache.idem[key]]
  }

  /** Some caller is executing for the key. */
  predicate InFlight(s: System, key: Key) {
    exists p :: p in s.calls && s.calls[p].Executing? && s.calls[p].key == key
  }

  lemma InFlightExactly(s: System, key: Key)
    requires Inv(s) && key in s.cache.idem
    ensures InFlight(s, key) <==> !IsCompleted(s.cache, key)
  {
    assert EntryOk(s, key);
    var l := s.leader[s.cache.idem[key]];
    if p :| p in s.calls && s.calls[p].Executing? && s.calls[p].key == key {
      assert CallOk(s, p, s.calls[p]);
    }
    if !IsCompleted(s.cache, key) {
      assert s.calls[l].Executing? && s.calls[l].key == key;
    }
  }

  /**
   In every run, a caller whose key is in the map waits for that entry exactly
   if its fingerprint is the leader's, is told otherwise that the requests
   differ, and changes nothing in the cache.
   */
  lemma KnownKeyAnswers(limit: nat, ops: seq<Op>, s: System, op: Op)
    requires s == Run(Init(limit), ops) && op.Enter? && Enabled(s, op) && op.key in s.cache.idem
    ensures var ref := s.cache.idem[op.key];
      && ref < |s.leader| && LeaderOf(s, op.key) in s.calls && s.calls[LeaderOf(s, op.key)].key == op.key
      && op.p in Apply(s, op).calls
      && Apply(s, op).calls[op.p] ==
         (if op.fingerprint == s.calls[LeaderOf(s, op.key)].fingerprint then Waiting(op.key, op.fingerprint, ref)
          else Returned(op.key, op.fingerprint, Differs))
      && Apply(s, op).cache == s.cache
  {
    InvAlways(Init(limit), ops);
    assert EntryOk(s, op.key);
  }

  /**
   In every run, a caller whose key is not in the map leads a new entry, unless
   the map is at its limit and an execution is in flight for every key in it;
   exactly then it is refused for want of capacity.
   */
  lemma NewKeyAnswers(limit: nat, ops: seq<Op>, s: System, op: Op)
    requires s == Run(Init(limit), ops) && op.Enter? && Enabled(s, op) && op.key !in s.cache.idem
    ensures var full := |s.cache.idem| >= limit && forall k :: k in s.cache.idem ==> InFlight(s, k);
      && op.p in Apply(s, op).calls
      && Apply(s, op).calls[op.p] ==
         (if full then Returned(op.key, op.fingerprint, AtCapacity)
          else Executing(op.key, op.fingerprint, |s.cache.heap|))
  {
    InvAlways(Init(limit), ops);
    forall k | k in s.cache.idem ensures InFlight(s, k) <==> !IsCompleted(s.cache, k) {
      InFlightExactly(s, k);
    }
  }

  /** A new entry is in flight under its key; only at the limit one other key goes, completed and created first. */
  lemma EnterLeaves(c: Cache, key: Key, fingerprint: string, now: int, victim: Option<Key>)
    requires VictimChosen(c, key, victim) && Sound(c)
    ensures var (u, b) := Begin(c, key, fingerprint, now, victim);
      && u.limit == c.limit && (!b.LeadAs? ==> u == c)
      && (b.LeadAs? ==> b.ref == |c.heap| && u.heap == c.heap + [Entry(fingerprint, None, now)]
                        && key in u.idem && u.idem[key] == b.ref)
      && (forall k :: k in u.idem && k != key ==> k in c.idem && u.idem[k] == c.idem[k])
      && (forall k :: k in c.idem && k !in u.idem ==> |c.idem| >= c.limit && IsCompleted(c, k))
      && (forall j, k :: j in c.idem && j !in u.idem && k in c.idem && k !in u.idem ==> j == k)
      && (forall j, k :: j in c.idem && j !in u.idem && k in c.idem && IsCompleted(c, k) ==>
            c.heap[c.idem[j]].createdAt <= c.heap[c.idem[k]].createdAt)
  {
  }

  /** Finishing publishes the outcome in the caller's own entry; the key stays in the map exactly after a success. */
  lemma FinishLeaves(limit: nat, ops: seq<Op>, s: System, p: Pid, outcome: Outcome)
    requires s == Run(Init(limit), ops) && Enabled(s, Finish(p, outcome))
    ensures var c, t := s.calls[p], Apply(s, Finish(p, outcome));
      && c.ref < |s.cache.heap| && t.calls[p] == Returned(c.key, c.fingerprint, Led(outcome))
      && t.cache.idem == (if outcome.Value? then s.cache.idem else s.cache.idem - {c.key})
      && t.cache.heap == s.cache.heap[c.ref := s.cache.heap[c.ref].(done := Some(outcome))]
  {
    InvAlways(Init(limit), ops);
    assert CallOk(s, p, s.calls[p]);
  }

  /**
   In every run, while a success is cached, the same request is given it at
   once: the caller follows the entry, gets the value its leader returned, and
   nothing is executed or changed.
   */
  lemma CachedIsGiven(limit: nat, ops: seq<Op>, s: System, p: Pid, key: Key, fingerprint: string, now: int,
                      victim: Option<Key>)
    requires s == Run(Init(limit), ops) && p !in s.calls && IsCompleted(s.cache, key)
    requires s.cache.heap[s.cache.idem[key]].fingerprint == fingerprint
    ensures var t := Run(s, [Enter(p, key, fingerprint, now, victim), Wake(p)]);
            var ref := s.cache.idem[key];
      && ref < |s.leader| && LeaderOf(s, key) in s.calls
      && s.calls[LeaderOf(s, key)].Returned? && s.calls[LeaderOf(s, key)].answer.Led?
      && s.calls[LeaderOf(s, key)].answer.outcome.Value?
      && t == To(s, p, Returned(key, fingerprint, Followed(ref, s.calls[LeaderOf(s, key)].answer.outcome)))
  {
    InvAlways(Init(limit), ops);
    assert EntryOk(s, key);
    var enter, wake := Enter(p, key, fingerprint, now, victim), Wake(p);
    var ref := s.cache.idem[key];
    var a := To(s, p, Waiting(key, fingerprint, ref));
    assert Apply(s, enter) == a;
    assert [enter, wake][1..] == [wake] && [wake][1..] == [];
    assert Run(s, [enter, wake]) == Run(a, [wake]);
    assert Run(a, [wake]) == Run(Apply(a, wake), []);
    assert a.calls[p := Apply(a, wake).calls[p]] == s.calls[p := Apply(a, wake).calls[p]];
  }
}
