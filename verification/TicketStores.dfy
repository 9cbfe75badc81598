/**
 The two owners of a ticket table in the form the services keep them: objects
 whose lock-protected methods update maps in place. Each method is proved to
 perform exactly one step of the table in module Tickets.
 */
module TicketStores {
  import opened Common
  import opened Tickets

  /** The gateway's table together with its count of reserved places. */
  datatype Gateway<+C, +P> = Gateway(table: Table<C, P>, issuing: nat)

  function Reserve<C, P>(g: Gateway<C, P>, now: int): (Gateway<C, P>, bool) {
    var t := Prune(g.table, now);
    if t.closed || |t.tickets| + g.issuing >= t.max then (Gateway(t, g.issuing), false)
    else (Gateway(t, g.issuing + 1), true)
  }

  function Release<C, P>(g: Gateway<C, P>): Gateway<C, P> {
    if g.issuing > 0 then g.(issuing := g.issuing - 1) else g
  }

  method PruneTickets<C, P>(m: map<Hash, Entry<C, P>>, now: int) returns (live: map<Hash, Entry<C, P>>)
    ensures live == LiveTickets(m, now)
  {
    live := m;
    var todo := m.Keys;
    while todo != {}
      invariant todo <= m.Keys
      invariant forall h :: h in live <==> h in m && (h in todo || m[h].expiresAt > now)
      invariant forall h :: h in live ==> live[h] == m[h]
      decreases todo
    {
      var h :| h in todo;
      if m[h].expiresAt <= now {
        live := live - {h};
      }
      todo := todo - {h};
    }
  }

  method PruneConsumed(m: map<Hash, int>, now: int) returns (live: map<Hash, int>)
    ensures live == LiveConsumed(m, now)
  {
    live := m;
    var todo := m.Keys;
    while todo != {}
      invariant todo <= m.Keys
      invariant forall h :: h in live <==> h in m && (h in todo || m[h] > now)
      invariant forall h :: h in live ==> live[h] == m[h]
      decreases todo
    {
      var h :| h in todo;
      if m[h] <= now {
        live := live - {h};
      }
      todo := todo - {h};
    }
  }

  class Broker<C(==), P> {
    const max: nat
    const ttl: int
    var closed: bool
    var issuing: nat
    var tickets: map<Hash, Entry<C, P>>
    var consumed: map<Hash, int>

    function View(): Gateway<C, P>
      reads this
    {
      Gateway(Table(max, ttl, closed, tickets, consumed), issuing)
    }

    constructor (max: nat, ttl: int)
      ensures View() == Gateway(Empty(max, ttl), 0)
    {
      this.max, this.ttl := max, ttl;
      closed, issuing, tickets, consumed := false, 0, map[], map[];
    }

    method PruneLocked(now: int)
      modifies this
      ensures View() == old(View()).(table := Prune(old(View()).table, now))
    {
      tickets := PruneTickets(tickets, now);
      consumed := PruneConsumed(consumed, now);
    }

    method ReserveTicket(now: int) returns (ok: bool)
      modifies this
      ensures (View(), ok) == Reserve(old(View()), now)
    {
      PruneLocked(now);
      if closed || |tickets| + issuing >= max {
        return false;
      }
      issuing := issuing + 1;
      return true;
    }

    method ReleaseTicketReservation()
      modifies this
      ensures View() == Release(old(View()))
    {
      if issuing > 0 {
        issuing := issuing - 1;
      }
    }

    method StoreTicket(hash: Hash, ticket: Entry<C, P>, now: int) returns (ok: bool)
      modifies this
      ensures (View().table, ok) == Store(old(View()).table, hash, ticket, now)
      ensures View().issuing == old(View()).issuing
    {
      PruneLocked(now);
      if closed || |tickets| >= max || |consumed| >= 4 * max {
        return false;
      }
      if hash in tickets {
        return false;
      }
      tickets := tickets[hash := ticket];
      return true;
    }

    method ConsumeTicket(hash: Option<Hash>, claim: Option<C>, now: int) returns (reply: Reply<C, P>)
      modifies this
      ensures (View().table, reply) == Consume(old(View()).table, hash, claim, now)
      ensures View().issuing == old(View()).issuing
    {
      if hash.None? {
        return InvalidTicket;
      }
      PruneLocked(now);
      if hash.value !in tickets {
        if hash.value in consumed {
          return Replayed;
        }
        return InvalidTicket;
      }
      var entry := tickets[hash.value];
      tickets := tickets - {hash.value};
      consumed := consumed[hash.value := now + ttl];
      if entry.expiresAt <= now {
        return Expired;
      }
      if claim != Some(entry.claim) {
        return Mismatch;
      }
      return Granted(entry);
    }

    method Shutdown()
      modifies this
      ensures View() == old(View()).(table := Close(old(View()).table))
    {
      if closed {
        return;
      }
      closed := true;
      while tickets != map[]
        invariant closed && issuing == old(issuing) && consumed == old(consumed)
        decreases tickets.Keys
      {
        var hash :| hash in tickets;
        tickets := tickets - {hash};
      }
    }
  }

  /** The Connector's lifetime for a new ticket starts at the reading it prunes with. */
  function Create<C, P>(t: Table<C, P>, h: Hash, claim: C, payload: P, now: int): (Table<C, P>, bool) {
    Store(t, h, Entry(claim, payload, now + t.ttl), now)
  }

  class WebSSHManager<C(==), P> {
    const maxTickets: nat
    const ticketTTL: int
    var closed: bool
    var tickets: map<Hash, Entry<C, P>>
    var consumed: map<Hash, int>

    function View(): Table<C, P>
      reads this
    {
      Table(maxTickets, ticketTTL, closed, tickets, consumed)
    }

    constructor (maxTickets: nat, ticketTTL: int)
      ensures View() == Empty(maxTickets, ticketTTL)
    {
      this.maxTickets, this.ticketTTL := maxTickets, ticketTTL;
      closed, tickets, consumed := false, map[], map[];
    }

    method PruneLocked(now: int)
      modifies this
      ensures View() == Prune(old(View()), now)
    {
      tickets := PruneTickets(tickets, now);
      consumed := PruneConsumed(consumed, now);
    }

    /** Returns the expiry the response announces, or None when capacity is reached or the hash collides. */
    method CreateTicket(hash: Hash, claim: C, payload: P, now: int) returns (expiresAt: Option<int>)
      modifies this
      ensures (View(), expiresAt.Some?) == Create(old(View()), hash, claim, payload, now)
      ensures expiresAt.Some? ==> hash in tickets && tickets[hash] == Entry(claim, payload, expiresAt.value)
    {
      var entry := Entry(claim, payload, now + ticketTTL);
      PruneLocked(now);
      if closed || |tickets| >= maxTickets || |consumed| >= 4 * maxTickets {
        return None;
      }
      if hash in tickets {
        return None;
      }
      tickets := tickets[hash := entry];
      return Some(entry.expiresAt);
    }

    method ConsumeTicket(hash: Option<Hash>, claim: C, now: int) returns (reply: Reply<C, P>)
      modifies this
      ensures (View(), reply) == Consume(old(View()), hash, Some(claim), now)
    {
      if hash.None? {
        return InvalidTicket;
      }
      PruneLocked(now);
      if hash.value !in tickets {
        if hash.value in consumed {
          return Replayed;
        }
        return InvalidTicket;
      }
      var entry := tickets[hash.value];
      tickets := tickets - {hash.value};
      consumed := consumed[hash.value := now + ticketTTL];
      if entry.expiresAt <= now {
        return Expired;
      }
      if claim != entry.claim {
        return Mismatch;
      }
      return Granted(entry);
    }

    method Shutdown()
      modifies this
      ensures View() == Close(old(View()))
    {
      if closed {
        return;
      }
      closed := true;
      while tickets != map[]
        invariant closed && consumed == old(consumed)
        decreases tickets.Keys
      {
        var hash :| hash in tickets;
        tickets := tickets - {hash};
      }
    }
  }
}
