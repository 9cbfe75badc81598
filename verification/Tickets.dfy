/**
 The hash-indexed table of one-time tickets that the WebSSH gateway and the
 Connector both keep. Every function is one lock region. A ticket hash is an
 ideal digest, and `now` is the clock reading the region was entered with.
 */
module Tickets {
  import opened Common

  type Hash = nat

  /** A stored ticket: what a hello has to present, what it unlocks, and until when. */
  datatype Entry<+C, +P> = Entry(claim: C, payload: P, expiresAt: int)

  datatype Table<+C, +P> = Table(
    max: nat,
    ttl: int,
    closed: bool,
    tickets: map<Hash, Entry<C, P>>,
    consumed: map<Hash, int>)

  datatype Reply<+C, +P> = Granted(entry: Entry<C, P>) | InvalidTicket | Replayed | Expired | Mismatch

  function Empty<C, P>(max: nat, ttl: int): Table<C, P> {
    Table(max, ttl, false, map[], map[])
  }

  function LiveTickets<C, P>(m: map<Hash, Entry<C, P>>, now: int): map<Hash, Entry<C, P>> {
    map h | h in m && m[h].expiresAt > now :: m[h]
  }

  function LiveConsumed(m: map<Hash, int>, now: int): map<Hash, int> {
    map h | h in m && m[h] > now :: m[h]
  }

  function Prune<C, P>(t: Table<C, P>, now: int): Table<C, P> {
    t.(tickets := LiveTickets(t.tickets, now), consumed := LiveConsumed(t.consumed, now))
  }

  function Store<C, P>(t: Table<C, P>, h: Hash, e: Entry<C, P>, now: int): (Table<C, P>, bool) {
    var p := Prune(t, now);
    if p.closed || |p.tickets| >= p.max || |p.consumed| >= 4 * p.max || h in p.tickets then
      (p, false)
    else
      (p.(tickets := p.tickets[h := e]), true)
  }

  /** `h` is None when the presented ticket does not decode; `claim` is None when its binding is malformed. */
  function Consume<C(==), P>(t: Table<C, P>, h: Option<Hash>, claim: Option<C>, now: int): (Table<C, P>, Reply<C, P>) {
    if h.None? then
      (t, InvalidTicket)
    else
      var p := Prune(t, now);
      if h.value !in p.tickets then
        (p, if h.value in p.consumed then Replayed else InvalidTicket)
      else
        var e := p.tickets[h.value];
        var q := p.(tickets := p.tickets - {h.value}, consumed := p.consumed[h.value := now + p.ttl]);
        if e.expiresAt <= now then (q, Expired)
        else if claim != Some(e.claim) then (q, Mismatch)
        else (q, Granted(e))
  }

  function Close<C, P>(t: Table<C, P>): Table<C, P> {
    if t.closed then t else t.(closed := true, tickets := map[])
  }

  // ---- Runs of one table ----

  datatype Op<C, P> =
    | StoreOp(h: Hash, e: Entry<C, P>, now: int)
    | ConsumeOp(presented: Option<Hash>, claim: Option<C>, now: int)
    | PruneOp(now: int)
    | CloseOp

  function Apply<C(==), P>(t: Table<C, P>, op: Op<C, P>): Table<C, P> {
    match op
    case StoreOp(h, e, now) => Store(t, h, e, now).0
    case ConsumeOp(h, c, now) => Consume(t, h, c, now).0
    case PruneOp(now) => Prune(t, now)
    case CloseOp => Close(t)
  }

  function Run<C(==), P>(t: Table<C, P>, ops: seq<Op<C, P>>): Table<C, P>
    decreases |ops|
  {
    if ops == [] then t else Run(Apply(t, ops[0]), ops[1..])
  }

  lemma {:induction false} RunConcat<C, P>(t: Table<C, P>, a: seq<Op<C, P>>, b: seq<Op<C, P>>)
    ensures Run(t, a + b) == Run(Run(t, a), b)
    decreases |a|
  {
    if a == [] {
      assert a + b == b;
    } else {
      assert (a + b)[0] == a[0] && (a + b)[1..] == a[1..] + b;
      RunConcat(Apply(t, a[0]), a[1..], b);
    }
  }

  /** `op` puts a ticket under `h` into `t`. */
  predicate Stores<C(==), P>(t: Table<C, P>, op: Op<C, P>, h: Hash) {
    op.StoreOp? && op.h == h && Store(t, h, op.e, op.now).1
  }

  /** `op` takes the ticket under `h` out of `t` by presenting it, granted or not. */
  predicate Burns<C(==), P>(t: Table<C, P>, op: Op<C, P>, h: Hash) {
    op.ConsumeOp? && op.presented == Some(h) && !Consume(t, Some(h), op.claim, op.now).1.InvalidTicket?
    && !Consume(t, Some(h), op.claim, op.now).1.Replayed?
  }

  function StoreCount<C(==), P>(t: Table<C, P>, ops: seq<Op<C, P>>, h: Hash): nat
    decreases |ops|
  {
    if ops == [] then 0
    else (if Stores(t, ops[0], h) then 1 else 0) + StoreCount(Apply(t, ops[0]), ops[1..], h)
  }

  function BurnCount<C(==), P>(t: Table<C, P>, ops: seq<Op<C, P>>, h: Hash): nat
    decreases |ops|
  {
    if ops == [] then 0
    else (if Burns(t, ops[0], h) then 1 else 0) + BurnCount(Apply(t, ops[0]), ops[1..], h)
  }

  // ---- Single use ----

  /**
   Over every run, a hash is taken out (granted, or burnt by a hello with the
   wrong binding) at most as often as it was put in, and closing or expiry can
   only make it less.
   */
  lemma {:induction false} BurnsNeverExceedStores<C, P>(t: Table<C, P>, ops: seq<Op<C, P>>, h: Hash)
    ensures BurnCount(t, ops, h) + (if h in Run(t, ops).tickets then 1 else 0)
         <= StoreCount(t, ops, h) + (if h in t.tickets then 1 else 0)
    decreases |ops|
  {
    if ops != [] {
      BurnsNeverExceedStores(Apply(t, ops[0]), ops[1..], h);
    }
  }

  /** The expired answer cannot be given: the same reading has just pruned the table. */
  lemma ExpiredIsUnreachable<C, P>(t: Table<C, P>, h: Option<Hash>, claim: Option<C>, now: int)
    ensures !Consume(t, h, claim, now).1.Expired?
  {
    if h.Some? && h.value in Prune(t, now).tickets {
      assert t.tickets[h.value].expiresAt > now;
    }
  }

  // ---- Repeats ----

  ghost predicate Spent<C, P>(t: Table<C, P>, h: Hash, mark: int) {
    h in t.consumed && t.consumed[h] == mark && h !in t.tickets
  }

  /** Every step but closing, and presenting what does not decode, prunes at its reading. */
  predicate Prunes<C, P>(op: Op<C, P>) {
    !op.CloseOp? && (op.ConsumeOp? ==> op.presented.Some?)
  }

  lemma SpentStep<C, P>(t: Table<C, P>, op: Op<C, P>, h: Hash, mark: int)
    requires Spent(t, h, mark) && !Stores(t, op, h) && (Prunes(op) ==> op.now < mark)
    ensures Spent(Apply(t, op), h, mark)
  {
  }

  ghost predicate Gone<C, P>(t: Table<C, P>, h: Hash) {
    h !in t.tickets && h !in t.consumed
  }

  lemma {:induction false} GoneStaysGone<C, P>(t: Table<C, P>, ops: seq<Op<C, P>>, h: Hash)
    requires Gone(t, h) && StoreCount(t, ops, h) == 0
    ensures Gone(Run(t, ops), h)
    decreases |ops|
  {
    if ops != [] {
      GoneStaysGone(Apply(t, ops[0]), ops[1..], h);
    }
  }

  /** A reading at or past the mark, by a step that prunes, forgets the spent hash. */
  lemma LateReadingForgets<C, P>(t: Table<C, P>, op: Op<C, P>, h: Hash, mark: int)
    requires Spent(t, h, mark) && !Stores(t, op, h) && Prunes(op) && op.now >= mark
    ensures Gone(Apply(t, op), h)
  {
  }

  predicate PrunesBelow<C, P>(ops: seq<Op<C, P>>, mark: int) {
    forall i :: 0 <= i < |ops| && Prunes(ops[i]) ==> ops[i].now < mark
  }

  /** A spent hash stays spent while no step prunes at or past its mark and nobody stores it again. */
  lemma {:induction false} SpentStaysSpent<C, P>(t: Table<C, P>, ops: seq<Op<C, P>>, h: Hash, mark: int)
    requires Spent(t, h, mark) && StoreCount(t, ops, h) == 0 && PrunesBelow(ops, mark)
    ensures Spent(Run(t, ops), h, mark)
    decreases |ops|
  {
    if ops != [] {
      SpentStep(t, ops[0], h, mark);
      SpentStaysSpent(Apply(t, ops[0]), ops[1..], h, mark);
    }
  }

  /**
   What a repeat is told, exactly: while nobody stores the same hash again, a
   spent ticket is answered as a replay if and only if no step since, nor the
   repeat itself, pruned at a reading at or past its mark; otherwise it is
   answered like a ticket that never was.
   */
  lemma {:induction false} RepeatAnswer<C, P>(t: Table<C, P>, between: seq<Op<C, P>>, h: Hash, mark: int,
                                              claim: Option<C>, again: int)
    requires Spent(t, h, mark) && StoreCount(t, between, h) == 0
    ensures Consume(Run(t, between), Some(h), claim, again).1 ==
            if PrunesBelow(between, mark) && again < mark then Replayed else InvalidTicket
    decreases |between|
  {
    if between != [] {
      var op, rest := between[0], between[1..];
      assert PrunesBelow(between, mark) <==> (Prunes(op) ==> op.now < mark) && PrunesBelow(rest, mark) by {
        assert between == [op] + rest;
      }
      if Prunes(op) && op.now >= mark {
        LateReadingForgets(t, op, h, mark);
        GoneStaysGone(Apply(t, op), rest, h);
      } else {
        SpentStep(t, op, h, mark);
        RepeatAnswer(Apply(t, op), rest, h, mark, claim, again);
      }
    }
  }

  /** No step works with a reading more than `lag` older than that of a step before it. */
  ghost predicate Lagging<C, P>(ops: seq<Op<C, P>>, lag: nat) {
    forall i, j :: 0 <= i < j < |ops| && !ops[i].CloseOp? && !ops[j].CloseOp? ==> ops[i].now - lag <= ops[j].now
  }

  /** A stored ticket never outlives the reading it is stored at by more than the lifetime. */
  predicate Lifetimes<C, P>(ops: seq<Op<C, P>>, ttl: int) {
    forall i :: 0 <= i < |ops| && ops[i].StoreOp? ==> ops[i].e.expiresAt <= ops[i].now + ttl
  }

  ghost predicate Within<C, P>(t: Table<C, P>, limit: int) {
    forall h :: h in t.tickets ==> t.tickets[h].expiresAt <= limit
  }

  lemma {:induction false} RunKeepsWithin<C, P>(t: Table<C, P>, ops: seq<Op<C, P>>, limit: int)
    requires Within(t, limit) && forall i :: 0 <= i < |ops| && ops[i].StoreOp? ==> ops[i].e.expiresAt <= limit
    ensures Within(Run(t, ops), limit) && Run(t, ops).ttl == t.ttl
    decreases |ops|
  {
    if ops != [] {
      RunKeepsWithin(Apply(t, ops[0]), ops[1..], limit);
    }
  }

  /**
   Readings before `first` are at most the lag ahead of it, and those before
   `repeat` at most the lag ahead of that.
   */
  lemma LaggingParts<C, P>(before: seq<Op<C, P>>, first: Op<C, P>, between: seq<Op<C, P>>, repeat: Op<C, P>, lag: nat)
    requires !first.CloseOp? && !repeat.CloseOp? && Lagging(before + [first] + between + [repeat], lag)
    ensures forall i :: 0 <= i < |before| && !before[i].CloseOp? ==> before[i].now <= first.now + lag
    ensures forall i :: 0 <= i < |between| && !between[i].CloseOp? ==> between[i].now <= repeat.now + lag
  {
    var all := before + [first] + between + [repeat];
    var n := |before|;
    assert all[n] == first && all[|all| - 1] == repeat;
    forall i | 0 <= i < |before| ensures all[i] == before[i] {
    }
    forall i | 0 <= i < |between| && !between[i].CloseOp? ensures between[i].now <= repeat.now + lag {
      assert all[n + 1 + i] == between[i];
    }
  }

  /**
   Replays are recognised. In every run from an empty table, once a hash has
   been presented and taken out, presenting it again is answered `Replayed`,
   whatever happened in between, unless the very same hash was issued again,
   at every reading that lies more than twice the lag before the ticket's
   original expiry: with readings in lock order, at every reading before it.
   */
  lemma RepeatIsReplayed<C, P>(max: nat, ttl: int, before: seq<Op<C, P>>, first: Op<C, P>, between: seq<Op<C, P>>,
                               h: Hash, claim: Option<C>, again: int, lag: nat)
    requires first.ConsumeOp? && first.presented == Some(h)
    requires Lagging(before + [first] + between + [ConsumeOp(Some(h), claim, again)], lag) && Lifetimes(before, ttl)
    requires var t := Run(Empty<C, P>(max, ttl), before);
             && Burns(t, first, h)
             && StoreCount(Apply(t, first), between, h) == 0
             && h in t.tickets && again + 2 * lag < t.tickets[h].expiresAt
    ensures var u := Run(Empty<C, P>(max, ttl), before + ([first] + between));
            Consume(u, Some(h), claim, again).1 == Replayed
  {
    var none: Table<C, P> := Empty(max, ttl);
    var t := Run(none, before);
    LaggingParts(before, first, between, ConsumeOp(Some(h), claim, again), lag);
    RunKeepsWithin(none, before, first.now + lag + ttl);
    var u := Apply(t, first);
    assert Spent(u, h, first.now + ttl);
    RepeatAnswer(u, between, h, first.now + ttl, claim, again);
    RunConcat(none, before, [first] + between);
    assert ([first] + between)[1..] == between;
  }

  // ---- Size ----

  ghost predicate Bounded<C, P>(t: Table<C, P>) {
    t.max >= 1 && |t.tickets| <= t.max && |t.tickets| + |t.consumed| <= 5 * t.max - 1
  }

  lemma PruneShrinks<C, P>(t: Table<C, P>, now: int)
    ensures |Prune(t, now).tickets| <= |t.tickets| && |Prune(t, now).consumed| <= |t.consumed|
  {
    SubmapSize(Prune(t, now).tickets, t.tickets);
    SubmapSize(Prune(t, now).consumed, t.consumed);
  }

  lemma StoreKeepsBounded<C, P>(t: Table<C, P>, h: Hash, e: Entry<C, P>, now: int)
    requires Bounded(t)
    ensures Bounded(Store(t, h, e, now).0)
  {
    PruneShrinks(t, now);
    InsertedSize(Prune(t, now).tickets, h, e);
  }

  lemma ConsumeKeepsBounded<C, P>(t: Table<C, P>, h: Option<Hash>, claim: Option<C>, now: int)
    requires Bounded(t)
    ensures Bounded(Consume(t, h, claim, now).0)
  {
    PruneShrinks(t, now);
    if h.Some? && h.value in Prune(t, now).tickets {
      RemovedSize(Prune(t, now).tickets, h.value);
      InsertedSize(Prune(t, now).consumed, h.value, now + t.ttl);
    }
  }

  lemma ApplyKeepsBounded<C, P>(t: Table<C, P>, op: Op<C, P>)
    requires Bounded(t)
    ensures Bounded(Apply(t, op)) && Apply(t, op).max == t.max
  {
    match op
    case StoreOp(h, e, now) => StoreKeepsBounded(t, h, e, now);
    case ConsumeOp(h, c, now) => ConsumeKeepsBounded(t, h, c, now);
    case PruneOp(now) => PruneShrinks(t, now);
    case CloseOp =>
  }

  /** In every run, outstanding and remembered tickets together stay below five times the limit. */
  lemma {:induction false} RunKeepsBounded<C, P>(t: Table<C, P>, ops: seq<Op<C, P>>)
    requires Bounded(t)
    ensures Bounded(Run(t, ops))
    decreases |ops|
  {
    if ops != [] {
      ApplyKeepsBounded(t, ops[0]);
      RunKeepsBounded(Apply(t, ops[0]), ops[1..]);
    }
  }

  /** A table at reading 0 holding `a` outstanding tickets and `b` spent ones, all still live. */
  ghost predicate Filled(t: Table<int, int>, max: nat, a: nat, b: nat) {
    && t.max == max && t.ttl == 1 && !t.closed
    && |t.tickets| == a && |t.consumed| == b
    && (forall h :: h in t.tickets ==> h < a + b && t.tickets[h].expiresAt == 1)
    && (forall h :: h in t.consumed ==> h < a + b && t.consumed[h] == 1)
  }

  lemma FilledIsLive(t: Table<int, int>, max: nat, a: nat, b: nat)
    requires Filled(t, max, a, b)
    ensures Prune(t, 0) == t
  {
    assert LiveTickets(t.tickets, 0) == t.tickets;
    assert LiveConsumed(t.consumed, 0) == t.consumed;
  }

  lemma RunOneMore(t: Table<int, int>, ops: seq<Op<int, int>>, op: Op<int, int>)
    ensures Run(t, ops + [op]) == Apply(Run(t, ops), op)
  {
    RunConcat(t, ops, [op]);
    assert [op][1..] == [];
  }

  lemma FillStore(t: Table<int, int>, max: nat, a: nat, b: nat)
    requires Filled(t, max, a, b) && a < max && b < 4 * max
    ensures Filled(Store(t, a + b, Entry(0, 0, 1), 0).0, max, a + 1, b)
    ensures Store(t, a + b, Entry(0, 0, 1), 0).0 == t.(tickets := t.tickets[a + b := Entry(0, 0, 1)])
  {
    FilledIsLive(t, max, a, b);
    InsertedSize(t.tickets, a + b, Entry(0, 0, 1));
  }

  lemma FillSpend(t: Table<int, int>, max: nat, b: nat)
    requires Filled(t, max, 1, b) && b in t.tickets && b !in t.consumed && t.tickets[b].claim == 0
    ensures Filled(Consume(t, Some(b), Some(0), 0).0, max, 0, b + 1)
  {
    FilledIsLive(t, max, 1, b);
    RemovedSize(t.tickets, b);
    InsertedSize(t.consumed, b, 1);
  }

  lemma FillOneSpent(max: nat, b: nat, prefix: seq<Op<int, int>>, s: Table<int, int>)
    returns (ops: seq<Op<int, int>>, t: Table<int, int>)
    requires 1 <= max && 1 <= b <= 4 * max - 1 && s == Run(Empty<int, int>(max, 1), prefix) && Filled(s, max, 0, b - 1)
    ensures t == Run(Empty<int, int>(max, 1), ops) && Filled(t, max, 0, b)
  {
    var none: Table<int, int> := Empty(max, 1);
    var store, spend := StoreOp(b - 1, Entry(0, 0, 1), 0), ConsumeOp(Some(b - 1), Some(0), 0);
    RunOneMore(none, prefix, store);
    FillStore(s, max, 0, b - 1);
    RunOneMore(none, prefix + [store], spend);
    FillSpend(Apply(s, store), max, b - 1);
    ops, t := prefix + [store] + [spend], Apply(Apply(s, store), spend);
  }

  /** Fills a table by storing and spending `b` tickets and then storing `a` more. */
  lemma {:induction false} FillRun(max: nat, a: nat, b: nat) returns (ops: seq<Op<int, int>>, t: Table<int, int>)
    requires 1 <= max && a <= max && b <= 4 * max - 1
    ensures t == Run(Empty<int, int>(max, 1), ops) && Filled(t, max, a, b)
    decreases b, a
  {
    var none: Table<int, int> := Empty(max, 1);
    if a == 0 && b == 0 {
      ops, t := [], none;
    } else if a > 0 {
      var prefix, s := FillRun(max, a - 1, b);
      var store := StoreOp(a - 1 + b, Entry(0, 0, 1), 0);
      RunOneMore(none, prefix, store);
      FillStore(s, max, a - 1, b);
      ops, t := prefix + [store], Apply(s, store);
    } else {
      var prefix, s := FillRun(max, 0, b - 1);
      ops, t := FillOneSpent(max, b, prefix, s);
    }
  }

  /** The size bound is attained: for every limit some run reaches exactly five times the limit less one. */
  lemma BoundIsTight(max: nat) returns (ops: seq<Op<int, int>>)
    requires 1 <= max
    ensures var t := Run(Empty<int, int>(max, 1), ops); |t.tickets| + |t.consumed| == 5 * max - 1
  {
    var t;
    ops, t := FillRun(max, max, 4 * max - 1);
  }
}
