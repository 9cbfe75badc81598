/**
 The in-process lease table. A lease is a random token filed under its
 resource; tokens are fresh, and the clock is read inside the lock, so the
 reading of every step is the shared clock. Beside the table the model keeps
 every lease ever granted: its resource, its latest granted expiry, and
 whether its holder has released it.
 */
module Leases {
  import opened Common

  type Resource = string
  type Token = nat

  const MAX_TTL: int := 24 * 60 * 60 * SECOND

  datatype Lease = Lease(token: Token, owner: string, expires: int)

  type Table = map<Resource, Lease>

  datatype Reply = Granted(token: Token, expires: int) | Released | InvalidInput | Held | Lost

  predicate ValidTTL(ttl: int) {
    SECOND <= ttl <= MAX_TTL
  }

  /** `referencesValid` is the outcome of the text checks on resource and owner. */
  function Acquire(t: Table, r: Resource, owner: string, referencesValid: bool, ttl: int, token: Token,
                   now: int): (Table, Reply) {
    if !referencesValid || !ValidTTL(ttl) then (t, InvalidInput)
    else if r in t && t[r].expires > now then (t, Held)
    else (t[r := Lease(token, owner, now + ttl)], Granted(token, now + ttl))
  }

  function Renew(t: Table, r: Resource, token: Token, ttl: int, now: int): (Table, Reply) {
    if !ValidTTL(ttl) then (t, InvalidInput)
    else if r !in t || t[r].token != token || t[r].expires <= now then (t, Lost)
    else (t[r := t[r].(expires := now + ttl)], Granted(token, now + ttl))
  }

  function Release(t: Table, r: Resource, token: Token): (Table, Reply) {
    if r !in t || t[r].token != token then (t, Lost) else (t - {r}, Released)
  }

  class MemoryCoordinator {
    var leases: map<Resource, Lease>

    constructor ()
      ensures leases == map[]
    {
      leases := map[];
    }

    method AcquireLease(resource: Resource, owner: string, referencesValid: bool, ttl: int, token: Token, now: int)
      returns (reply: Reply)
      modifies this
      ensures (leases, reply) == Acquire(old(leases), resource, owner, referencesValid, ttl, token, now)
    {
      if !referencesValid || ttl < SECOND || ttl > MAX_TTL {
        return InvalidInput;
      }
      if resource in leases && leases[resource].expires > now {
        return Held;
      }
      var expires := now + ttl;
      leases := leases[resource := Lease(token, owner, expires)];
      return Granted(token, expires);
    }

    method RenewLease(resource: Resource, token: Token, ttl: int, now: int) returns (reply: Reply)
      modifies this
      ensures (leases, reply) == Renew(old(leases), resource, token, ttl, now)
    {
      if ttl < SECOND || ttl > MAX_TTL {
        return InvalidInput;
      }
      if resource !in leases || leases[resource].token != token || leases[resource].expires <= now {
        return Lost;
      }
      var current := leases[resource].(expires := now + ttl);
      leases := leases[resource := current];
      return Granted(token, current.expires);
    }

    method ReleaseLease(resource: Resource, token: Token) returns (reply: Reply)
      modifies this
      ensures (leases, reply) == Release(old(leases), resource, token)
    {
      if resource !in leases || leases[resource].token != token {
        return Lost;
      }
      leases := leases - {resource};
      return Released;
    }
  }

  // ---- Runs ----

  datatype Grant = Grant(resource: Resource, expires: int, released: bool)

  datatype System = System(clock: int, table: Table, grants: map<Token, Grant>)

  datatype Op =
    | Tick(to: int)
    | AcquireOp(resource: Resource, owner: string, referencesValid: bool, ttl: int, token: Token)
    | RenewOp(resource: Resource, token: Token, ttl: int)
    | ReleaseOp(resource: Resource, token: Token)

  /** A random token is fresh. Renewing and releasing may be tried with any token at any resource. */
  predicate Enabled(s: System, op: Op) {
    match op
    case Tick(to) => s.clock <= to
    case AcquireOp(_, _, _, _, token) => token !in s.grants
    case _ => true
  }

  function ReplyTo(s: System, op: Op): (Table, Reply)
    requires !op.Tick?
  {
    match op
    case AcquireOp(r, owner, ok, ttl, token) => Acquire(s.table, r, owner, ok, ttl, token, s.clock)
    case RenewOp(r, token, ttl) => Renew(s.table, r, token, ttl, s.clock)
    case ReleaseOp(r, token) => Release(s.table, r, token)
  }

  function Apply(s: System, op: Op): System {
    if !Enabled(s, op) then s
    else if op.Tick? then s.(clock := op.to)
    else
      var (t, reply) := ReplyTo(s, op);
      match reply
      case Granted(token, expires) => System(s.clock, t, s.grants[token := Grant(op.resource, expires, false)])
      case Released =>
        System(s.clock, t,
               if op.token in s.grants then s.grants[op.token := s.grants[op.token].(released := true)] else s.grants)
      case _ => s.(table := t)
  }

  function Run(s: System, ops: seq<Op>): System
    decreases |ops|
  {
    if ops == [] then s else Run(Apply(s, ops[0]), ops[1..])
  }

  /** A lease is in force: granted for the resource, not released, not expired. */
  predicate InForce(s: System, token: Token, r: Resource) {
    token in s.grants && s.grants[token].resource == r && !s.grants[token].released && s.grants[token].expires > s.clock
  }

  /** The token is the one the table holds for its resource. */
  predicate Current(s: System, token: Token) {
    token in s.grants && s.grants[token].resource in s.table && s.table[s.grants[token].resource].token == token
  }

  ghost predicate Inv(s: System) {
    && (forall r :: r in s.table ==>
          var l := s.table[r];
          l.token in s.grants && s.grants[l.token] == Grant(r, l.expires, false))
    && (forall k :: k in s.grants && InForce(s, k, s.grants[k].resource) ==> Current(s, k))
  }

  lemma InvKept(s: System, op: Op)
    requires Inv(s)
    ensures Inv(Apply(s, op))
  {
  }

  lemma {:induction false} InvAlways(s: System, ops: seq<Op>)
    requires Inv(s)
    ensures Inv(Run(s, ops))
    decreases |ops|
  {
    if ops != [] {
      InvKept(s, ops[0]);
      InvAlways(Apply(s, ops[0]), ops[1..]);
    }
  }

  /** At every instant of every run at most one lease per resource is in force. */
  lemma AtMostOneLease(clock: int, ops: seq<Op>, a: Token, b: Token, r: Resource)
    requires var s := Run(System(clock, map[], map[]), ops); InForce(s, a, r) && InForce(s, b, r)
    ensures a == b
  {
    InvAlways(System(clock, map[], map[]), ops);
  }

  /**
   An acquire is turned away exactly when some lease of the resource is in
   force, and a renewal exactly when its own is not.
   */
  lemma RepliesAreExact(clock: int, ops: seq<Op>, op: Op)
    requires !op.Tick? && Enabled(Run(System(clock, map[], map[]), ops), op)
    ensures var s := Run(System(clock, map[], map[]), ops);
            var reply := ReplyTo(s, op).1;
      && (op.AcquireOp? && op.referencesValid && ValidTTL(op.ttl) ==>
            (reply.Held? <==> exists k :: InForce(s, k, op.resource)))
      && (op.RenewOp? && ValidTTL(op.ttl) ==> (reply.Lost? <==> !InForce(s, op.token, op.resource)))
  {
    InvAlways(System(clock, map[], map[]), ops);
    var s := Run(System(clock, map[], map[]), ops);
    if op.AcquireOp? && op.resource in s.table && s.table[op.resource].expires > s.clock {
      assert InForce(s, s.table[op.resource].token, op.resource);
    }
  }

  /** A token that lost its place to a successor, or gave it back, never gets it back. */
  lemma {:induction false} SupersededForever(s: System, ops: seq<Op>, token: Token)
    requires Inv(s) && token in s.grants && !Current(s, token)
    ensures token in Run(s, ops).grants && !Current(Run(s, ops), token)
    ensures Run(s, ops).grants[token] == s.grants[token]
    decreases |ops|
  {
    if ops != [] {
      InvKept(s, ops[0]);
      SupersededForever(Apply(s, ops[0]), ops[1..], token);
    }
  }

  /**
   A superseded holder is powerless: from the moment its token is no longer
   the current one, and however the run goes on, renewing or releasing with
   it at any resource is refused and changes nothing.
   */
  lemma SupersededHolderIsPowerless(clock: int, before: seq<Op>, after: seq<Op>, token: Token, r: Resource, ttl: int)
    requires var s := Run(System(clock, map[], map[]), before); token in s.grants && !Current(s, token)
    ensures var s := Run(Run(System(clock, map[], map[]), before), after);
      && Release(s.table, r, token) == (s.table, Lost)
      && (ValidTTL(ttl) ==> Renew(s.table, r, token, ttl, s.clock) == (s.table, Lost))
  {
    var s := Run(System(clock, map[], map[]), before);
    InvAlways(System(clock, map[], map[]), before);
    SupersededForever(s, after, token);
    InvAlways(s, after);
  }

  // ---- How long a lease lasts ----

  /** Neither renewed nor released: no such call carries the token. */
  predicate LeftAlone(ops: seq<Op>, token: Token) {
    forall i :: 0 <= i < |ops| && (ops[i].RenewOp? || ops[i].ReleaseOp?) ==> ops[i].token != token
  }

  /** The record of the grant is unchanged, and the table names its owner as long as it holds it. */
  predicate Stands(s: System, token: Token, r: Resource, owner: string, expires: int) {
    && token in s.grants && s.grants[token] == Grant(r, expires, false)
    && (r in s.table && s.table[r].token == token ==> s.table[r].owner == owner)
  }

  lemma {:induction false} StandsOn(s: System, ops: seq<Op>, token: Token, r: Resource, owner: string, expires: int)
    requires Inv(s) && Stands(s, token, r, owner, expires) && LeftAlone(ops, token)
    ensures Stands(Run(s, ops), token, r, owner, expires)
    decreases |ops|
  {
    if ops != [] {
      InvKept(s, ops[0]);
      StandsOn(Apply(s, ops[0]), ops[1..], token, r, owner, expires);
    }
  }

  /**
   A grant lasts exactly the time asked for: from the acquire or renewal that
   granted it, and however the run goes on without renewing or releasing it,
   the lease is in force until its time has passed since the grant and no
   longer, and all that while the table holds it for its owner.
   */
  lemma GrantLasts(clock: int, before: seq<Op>, s: System, op: Op, after: seq<Op>, token: Token, expires: int)
    requires s == Run(System(clock, map[], map[]), before) && Enabled(s, op) && (op.AcquireOp? || op.RenewOp?)
    requires ReplyTo(s, op).1 == Granted(token, expires) && LeftAlone(after, token)
    ensures var owner := if op.AcquireOp? then op.owner else s.table[op.resource].owner;
            var t := Run(Apply(s, op), after);
      && token == op.token && expires == s.clock + op.ttl
      && (InForce(t, token, op.resource) <==> t.clock < s.clock + op.ttl)
      && (t.clock < s.clock + op.ttl ==> op.resource in t.table && t.table[op.resource] == Lease(token, owner, expires))
  {
    var owner := if op.AcquireOp? then op.owner else s.table[op.resource].owner;
    InvAlways(System(clock, map[], map[]), before);
    InvKept(s, op);
    StandsOn(Apply(s, op), after, token, op.resource, owner, expires);
    InvAlways(Apply(s, op), after);
  }

  /**
   In every run a release succeeds exactly with the current token of the
   resource, so always while its lease is in force; it frees that resource and
   no other, and the next acquire of it is granted.
   */
  lemma ReleaseFrees(clock: int, ops: seq<Op>, s: System, token: Token, r: Resource, next: Op)
    requires s == Run(System(clock, map[], map[]), ops)
    requires next.AcquireOp? && next.resource == r && next.referencesValid && ValidTTL(next.ttl)
    ensures var t := Apply(s, ReleaseOp(r, token));
            var released := ReplyTo(s, ReleaseOp(r, token)).1.Released?;
      && (released <==> Current(s, token) && s.grants[token].resource == r)
      && (InForce(s, token, r) ==> released)
      && (released ==> t.table == s.table - {r} && !InForce(t, token, r) && ReplyTo(t, next).1.Granted?)
      && (!released ==> t == s)
  {
    InvAlways(System(clock, map[], map[]), ops);
  }
}
