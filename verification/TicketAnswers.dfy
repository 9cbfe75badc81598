/**
 What a ticket table answers, exactly: when a ticket is granted, refused or
 taken in, what each answer leaves behind, and, over every run, that a grant
 presents the claim the ticket was last stored with.
 */
module TicketAnswers {
  import opened Common
  import opened Tickets

  /** The ticket under `h` is outstanding at the reading. */
  predicate Live<C, P>(t: Table<C, P>, h: Hash, now: int) {
    h in t.tickets && now < t.tickets[h].expiresAt
  }

  /** The ticket under `h` was spent and is remembered at the reading. */
  predicate Marked<C, P>(t: Table<C, P>, h: Hash, now: int) {
    h in t.consumed && now < t.consumed[h]
  }

  /** Each answer to a presented ticket has its own cause; a grant hands out the stored entry. */
  lemma ConsumeAnswers<C, P>(t: Table<C, P>, h: Hash, claim: Option<C>, now: int)
    ensures var reply := Consume(t, Some(h), claim, now).1;
      && (reply.Granted? <==> Live(t, h, now) && claim == Some(t.tickets[h].claim))
      && (reply.Granted? ==> reply.entry == t.tickets[h])
      && (reply.Mismatch? <==> Live(t, h, now) && claim != Some(t.tickets[h].claim))
      && (reply.Replayed? <==> !Live(t, h, now) && Marked(t, h, now))
      && (reply.InvalidTicket? <==> !Live(t, h, now) && !Marked(t, h, now))
  {
    ExpiredIsUnreachable(t, Some(h), claim, now);
  }

  /** Granted or not, a presented ticket is gone and marked for a lifetime; everything else that is live stays. */
  lemma ConsumeLeaves<C, P>(t: Table<C, P>, h: Hash, claim: Option<C>, now: int, k: Hash)
    ensures var u := Consume(t, Some(h), claim, now).0;
      && (k in u.tickets <==> k != h && Live(t, k, now)) && (k in u.tickets ==> u.tickets[k] == t.tickets[k])
      && (k in u.consumed <==> (k == h && Live(t, h, now)) || Marked(t, k, now))
      && (k in u.consumed ==> u.consumed[k] == if k == h && Live(t, h, now) then now + t.ttl else t.consumed[k])
      && u.closed == t.closed && u.max == t.max && u.ttl == t.ttl
  {
  }

  /** What does not decode is invalid and changes nothing. */
  lemma UndecodedIsInvalid<C, P>(t: Table<C, P>, claim: Option<C>, now: int)
    ensures Consume(t, None, claim, now) == (t, InvalidTicket)
  {
  }

  ghost function LiveHashes<C, P>(t: Table<C, P>, now: int): set<Hash> {
    set h | h in t.tickets && Live(t, h, now)
  }

  ghost function MarkedHashes<C, P>(t: Table<C, P>, now: int): set<Hash> {
    set h | h in t.consumed && Marked(t, h, now)
  }

  lemma PrunedSizes<C, P>(t: Table<C, P>, now: int)
    ensures |Prune(t, now).tickets| == |LiveHashes(t, now)| && |Prune(t, now).consumed| == |MarkedHashes(t, now)|
  {
    assert Prune(t, now).tickets.Keys == LiveHashes(t, now) && Prune(t, now).consumed.Keys == MarkedHashes(t, now);
    assert |Prune(t, now).tickets.Keys| == |Prune(t, now).tickets|;
    assert |Prune(t, now).consumed.Keys| == |Prune(t, now).consumed|;
  }

  /**
   A ticket is taken in exactly by an open table with room among its live
   tickets and four times that among its live marks, under a hash that is not
   outstanding; expired entries never stand in the way, and live ones stay.
   */
  lemma StoreAnswers<C, P>(t: Table<C, P>, h: Hash, e: Entry<C, P>, now: int)
    ensures var (u, ok) := Store(t, h, e, now);
      && (ok <==> !t.closed && |LiveHashes(t, now)| < t.max && |MarkedHashes(t, now)| < 4 * t.max && !Live(t, h, now))
      && (forall k :: k in u.tickets <==> (ok && k == h) || Live(t, k, now))
      && (forall k :: k in u.tickets ==> u.tickets[k] == if ok && k == h then e else t.tickets[k])
      && (forall k :: k in u.consumed <==> Marked(t, k, now))
      && (forall k :: k in u.consumed ==> u.consumed[k] == t.consumed[k])
  {
    PrunedSizes(t, now);
  }

  // ---- Runs ----

  /** The entry the hash was last stored with in the run, or `before` if it was not stored. */
  function LastStored<C(==), P>(t: Table<C, P>, ops: seq<Op<C, P>>, h: Hash, before: Option<Entry<C, P>>)
    : Option<Entry<C, P>>
    decreases |ops|
  {
    if ops == [] then before
    else LastStored(Apply(t, ops[0]), ops[1..], h, if Stores(t, ops[0], h) then Some(ops[0].e) else before)
  }

  lemma {:induction false} OutstandingIsLastStored<C, P>(t: Table<C, P>, ops: seq<Op<C, P>>, h: Hash,
                                                         before: Option<Entry<C, P>>)
    requires h in t.tickets ==> before == Some(t.tickets[h])
    ensures h in Run(t, ops).tickets ==> LastStored(t, ops, h, before) == Some(Run(t, ops).tickets[h])
    decreases |ops|
  {
    if ops != [] {
      OutstandingIsLastStored(Apply(t, ops[0]), ops[1..], h, if Stores(t, ops[0], h) then Some(ops[0].e) else before);
    }
  }

  /**
   In every run from an empty table, whoever is granted a ticket presented the
   claim it was last stored with, before it expired, and gets what was stored.
   */
  lemma GrantsMatchTheLastStore<C, P>(max: nat, ttl: int, ops: seq<Op<C, P>>, h: Hash, claim: Option<C>, now: int)
    requires Consume(Run(Empty<C, P>(max, ttl), ops), Some(h), claim, now).1.Granted?
    ensures var e := Consume(Run(Empty<C, P>(max, ttl), ops), Some(h), claim, now).1.entry;
      && LastStored(Empty<C, P>(max, ttl), ops, h, None) == Some(e)
      && claim == Some(e.claim) && now < e.expiresAt
  {
    OutstandingIsLastStored(Empty<C, P>(max, ttl), ops, h, None);
    ConsumeAnswers(Run(Empty<C, P>(max, ttl), ops), h, claim, now);
  }

  ghost predicate EmptyIfClosed<C, P>(t: Table<C, P>) {
    t.closed ==> t.tickets == map[]
  }

  lemma {:induction false} ClosedAlwaysEmpty<C, P>(t: Table<C, P>, ops: seq<Op<C, P>>)
    requires EmptyIfClosed(t)
    ensures EmptyIfClosed(Run(t, ops)) && (Run(t, ops).closed <==> t.closed || CloseOp in ops)
    decreases |ops|
  {
    if ops != [] {
      assert CloseOp in ops <==> ops[0] == CloseOp || CloseOp in ops[1..];
      ClosedAlwaysEmpty(Apply(t, ops[0]), ops[1..]);
    }
  }

  /** In every run the table is closed exactly after a close, and then holds no ticket, takes none and grants none. */
  lemma ClosedForGood<C, P>(max: nat, ttl: int, ops: seq<Op<C, P>>, h: Hash, e: Entry<C, P>, claim: Option<C>, now: int)
    ensures var t := Run(Empty<C, P>(max, ttl), ops);
      && (t.closed <==> CloseOp in ops)
      && (t.closed ==> t.tickets == map[] && !Store(t, h, e, now).1 && !Consume(t, Some(h), claim, now).1.Granted?)
  {
    ClosedAlwaysEmpty(Empty<C, P>(max, ttl), ops);
    ConsumeAnswers(Run(Empty<C, P>(max, ttl), ops), h, claim, now);
  }
}
