/**
 The gateway and the Connector composed. Any number of issue calls, browser
 connections, prune ticks and shutdowns interleave; each step is one lock
 region. A step works with a clock reading that may be older than the shared
 clock, because the services read the clock before they take the lock.
 Random ticket values are fresh, and an upstream value is known only to the
 gateway-side holder it was handed to.
 */
module TwoTier {
  import opened Common
  import opened Tickets
  import opened TicketStores

  type Pid = nat
  type BrowserClaim = nat
  type ConnectorClaim = nat

  /** The upstream ticket and what the Connector will want to see with it. */
  datatype Upstream = Upstream(ticket: Hash, claim: ConnectorClaim)

  type BrowserEntry = Entry<BrowserClaim, Upstream>
  type ConnectorEntry = Entry<ConnectorClaim, nat>

  /** Where an issue call stands while it holds a reservation. */
  datatype Phase = Reserved | Answered(up: Upstream, upExpiry: int) | Stored | Abandoned

  /** Who holds an upstream value. */
  datatype Holder = Issuer(p: Pid) | Ticket(h: Hash) | Session(sid: nat) | Outside

  /** What the Connector stored for an upstream value when it was created, and who holds the value now. */
  datatype Issued = Issued(entry: ConnectorEntry, holder: Holder)

  datatype System = System(
    clock: int,
    gateway: Gateway<BrowserClaim, Upstream>,
    connector: Table<ConnectorClaim, nat>,
    issuers: map<Pid, Phase>,
    sessions: map<nat, BrowserEntry>,
    issued: map<Hash, Issued>)

  datatype Op =
    | Tick(to: int)
    | GatewayPrune(r: int)
    | ConnectorPrune(r: int)
    | GatewayClose
    | ConnectorClose
    | IssueReserve(p: Pid, r: int)
    | IssueUpstream(p: Pid, u: Hash, claim: ConnectorClaim, payload: nat, r: int)
    | IssueAbandon(p: Pid)
    | IssueStore(p: Pid, h: Hash, claim: BrowserClaim, r0: int, r1: int, r2: int)
    | IssueRelease(p: Pid)
    | BrowserHello(sid: nat, presented: Option<Hash>, shown: Option<BrowserClaim>, r: int)
    | SessionHello(sid: nat, r: int)
    | OutsideCreate(u: Hash, claim: ConnectorClaim, payload: nat, r: int)
    | OutsideHello(presented: Option<Hash>, claim: ConnectorClaim, r: int)

  const MINUTE: int := 60 * SECOND

  function Init(gatewayMax: nat, gatewayTTL: int, connectorMax: nat, connectorTTL: int, clock: int): System {
    System(clock, Gateway(Empty(gatewayMax, gatewayTTL), 0), Empty(connectorMax, connectorTTL), map[], map[], map[])
  }

  /** A step can only be taken with a reading the clock has already shown, by a caller at that point of its code. */
  predicate Enabled(s: System, op: Op) {
    match op
    case Tick(to) => s.clock <= to
    case GatewayPrune(r) => r <= s.clock
    case ConnectorPrune(r) => r <= s.clock
    case GatewayClose => true
    case ConnectorClose => true
    case IssueReserve(p, r) => r <= s.clock && p !in s.issuers
    case IssueUpstream(p, u, _, _, r) => r <= s.clock && p in s.issuers && s.issuers[p].Reserved? && u !in s.issued
    case IssueAbandon(p) => p in s.issuers && (s.issuers[p].Reserved? || s.issuers[p].Answered?)
    case IssueStore(p, h, _, r0, r1, r2) => r0 <= r1 <= r2 <= s.clock && p in s.issuers && s.issuers[p].Answered?
    case IssueRelease(p) => p in s.issuers && (s.issuers[p].Stored? || s.issuers[p].Abandoned?)
    case BrowserHello(sid, _, _, r) => r <= s.clock && sid !in s.sessions
    case SessionHello(sid, r) => r <= s.clock && sid in s.sessions
    case OutsideCreate(u, _, _, r) => r <= s.clock && u !in s.issued
    case OutsideHello(h, _, r) =>
      r <= s.clock && (h.Some? && h.value in s.issued ==> s.issued[h.value].holder.Outside?)
  }

  function Hold(s: System, u: Hash, holder: Holder): map<Hash, Issued>
    requires u in s.issued
  {
    s.issued[u := s.issued[u].(holder := holder)]
  }

  /** The response of the Connector is accepted only if it expires within the next minute. */
  predicate ResponseValid(upExpiry: int, r0: int) {
    r0 < upExpiry <= r0 + MINUTE
  }

  function BrowserExpiry(s: System, upExpiry: int, r1: int): int {
    var own := r1 + s.gateway.table.ttl;
    if upExpiry < own then upExpiry else own
  }

  /** The last lock region of an issue call: validate, cap the lifetime, store, and hand the upstream value over. */
  function StoreStep(s: System, p: Pid, h: Hash, claim: BrowserClaim, r0: int, r1: int, r2: int): System
    requires p in s.issuers && s.issuers[p].Answered?
  {
    var a := s.issuers[p];
    var expiry := BrowserExpiry(s, a.upExpiry, r1);
    if !ResponseValid(a.upExpiry, r0) || expiry <= r1 then
      s.(issuers := s.issuers[p := Abandoned])
    else
      var (t, ok) := Store(s.gateway.table, h, Entry(claim, a.up, expiry), r2);
      var g := s.gateway.(table := t);
      if !ok then s.(gateway := g, issuers := s.issuers[p := Abandoned])
      else s.(gateway := g, issuers := s.issuers[p := Stored],
              issued := if a.up.ticket in s.issued then Hold(s, a.up.ticket, Ticket(h)) else s.issued)
  }

  function CreateStep(s: System, u: Hash, claim: ConnectorClaim, payload: nat, r: int, holder: Holder): (System, bool) {
    var (t, ok) := Create(s.connector, u, claim, payload, r);
    if ok then
      (s.(connector := t, issued := s.issued[u := Issued(Entry(claim, payload, r + s.connector.ttl), holder)]), true)
    else (s.(connector := t), false)
  }

  function BrowserHelloStep(s: System, sid: nat, presented: Option<Hash>, claim: Option<BrowserClaim>, r: int): System {
    var (t, reply) := Consume(s.gateway.table, presented, claim, r);
    var g := s.gateway.(table := t);
    if reply.Granted? then
      s.(gateway := g, sessions := s.sessions[sid := reply.entry],
         issued := if reply.entry.payload.ticket in s.issued then Hold(s, reply.entry.payload.ticket, Session(sid))
                   else s.issued)
    else s.(gateway := g)
  }

  function SessionReply(s: System, sid: nat, r: int): (Table<ConnectorClaim, nat>, Reply<ConnectorClaim, nat>)
    requires sid in s.sessions
  {
    var up := s.sessions[sid].payload;
    Consume(s.connector, Some(up.ticket), Some(up.claim), r)
  }

  function ReserveStep(s: System, p: Pid, r: int): System {
    var (g, ok) := Reserve(s.gateway, r);
    if ok then s.(gateway := g, issuers := s.issuers[p := Reserved]) else s.(gateway := g)
  }

  function UpstreamStep(s: System, p: Pid, u: Hash, claim: ConnectorClaim, payload: nat, r: int): System {
    var (t, ok) := CreateStep(s, u, claim, payload, r, Issuer(p));
    t.(issuers := s.issuers[p := if ok then Answered(Upstream(u, claim), r + s.connector.ttl) else Abandoned])
  }

  function SessionHelloStep(s: System, sid: nat, r: int): System
    requires sid in s.sessions
  {
    var u := s.sessions[sid].payload.ticket;
    s.(connector := SessionReply(s, sid, r).0, sessions := s.sessions - {sid},
       issued := if u in s.issued then Hold(s, u, Outside) else s.issued)
  }

  function Apply(s: System, op: Op): System {
    if !Enabled(s, op) then s
    else match op
      case Tick(to) => s.(clock := to)
      case GatewayPrune(r) => s.(gateway := s.gateway.(table := Prune(s.gateway.table, r)))
      case ConnectorPrune(r) => s.(connector := Prune(s.connector, r))
      case GatewayClose => s.(gateway := s.gateway.(table := Close(s.gateway.table)))
      case ConnectorClose => s.(connector := Close(s.connector))
      case IssueReserve(p, r) => ReserveStep(s, p, r)
      case IssueUpstream(p, u, claim, payload, r) => UpstreamStep(s, p, u, claim, payload, r)
      case IssueAbandon(p) => s.(issuers := s.issuers[p := Abandoned])
      case IssueStore(p, h, claim, r0, r1, r2) => StoreStep(s, p, h, claim, r0, r1, r2)
      case IssueRelease(p) => s.(gateway := Release(s.gateway), issuers := s.issuers - {p})
      case BrowserHello(sid, presented, claim, r) => BrowserHelloStep(s, sid, presented, claim, r)
      case SessionHello(sid, r) => SessionHelloStep(s, sid, r)
      case OutsideCreate(u, claim, payload, r) => CreateStep(s, u, claim, payload, r, Outside).0
      case OutsideHello(h, claim, r) => s.(connector := Consume(s.connector, h, Some(claim), r).0)
  }

  function Run(s: System, ops: seq<Op>): System
    decreases |ops|
  {
    if ops == [] then s else Run(Apply(s, ops[0]), ops[1..])
  }

  // ---- Reservations ----

  /** Issue calls that hold a reservation and may still store. */
  ghost function Pending(issuers: map<Pid, Phase>): set<Pid> {
    set p | p in issuers && (issuers[p].Reserved? || issuers[p].Answered?)
  }

  ghost predicate Capacity(s: System) {
    && |s.gateway.table.tickets| + |Pending(s.issuers)| <= s.gateway.table.max
    && s.gateway.issuing == |s.issuers|
  }

  lemma PendingSize(issuers: map<Pid, Phase>)
    ensures |Pending(issuers)| <= |issuers|
  {
    SubsetSize(Pending(issuers), issuers.Keys);
    assert |issuers.Keys| == |issuers|;
  }

  lemma PendingUpdate(issuers: map<Pid, Phase>, p: Pid, phase: Phase)
    ensures var now := phase.Reserved? || phase.Answered?;
            |Pending(issuers[p := phase])| == |Pending(issuers)|
              + (if now then 1 else 0) - (if p in Pending(issuers) then 1 else 0)
  {
    var before, after := Pending(issuers), Pending(issuers[p := phase]);
    assert after - {p} == before - {p};
    assert p in before ==> before == (before - {p}) + {p};
    assert p in after ==> after == (after - {p}) + {p};
    assert p !in before ==> before == before - {p};
    assert p !in after ==> after == after - {p};
  }

  lemma CapacityKeptByReserve(s: System, p: Pid, r: int)
    requires Capacity(s) && p !in s.issuers
    ensures Capacity(ReserveStep(s, p, r)) && ReserveStep(s, p, r).gateway.table.max == s.gateway.table.max
  {
    PruneShrinks(s.gateway.table, r);
    PendingSize(s.issuers);
    PendingUpdate(s.issuers, p, Reserved);
    InsertedSize(s.issuers, p, Reserved);
  }

  /** Moving a caller on without storing changes no count but its own. */
  lemma CapacityKeptByPhase(s: System, t: System, p: Pid, phase: Phase)
    requires Capacity(s) && p in Pending(s.issuers) && t.issuers == s.issuers[p := phase] && t.gateway == s.gateway
    ensures Capacity(t)
  {
    PendingUpdate(s.issuers, p, phase);
    InsertedSize(s.issuers, p, phase);
  }

  lemma CapacityKeptByUpstream(s: System, p: Pid, u: Hash, claim: ConnectorClaim, payload: nat, r: int)
    requires Capacity(s) && p in Pending(s.issuers)
    ensures Capacity(UpstreamStep(s, p, u, claim, payload, r))
    ensures UpstreamStep(s, p, u, claim, payload, r).gateway == s.gateway
  {
    var t := UpstreamStep(s, p, u, claim, payload, r);
    CapacityKeptByPhase(s, t, p, t.issuers[p]);
  }

  lemma CapacityKeptByRelease(s: System, p: Pid)
    requires Capacity(s) && p in s.issuers && p !in Pending(s.issuers)
    ensures Capacity(s.(gateway := Release(s.gateway), issuers := s.issuers - {p}))
  {
    RemovedSize(s.issuers, p);
    assert Pending(s.issuers - {p}) == Pending(s.issuers);
  }

  lemma ConsumeShrinks<C, P>(t: Table<C, P>, h: Option<Hash>, claim: Option<C>, r: int)
    ensures |Consume(t, h, claim, r).0.tickets| <= |t.tickets| && Consume(t, h, claim, r).0.max == t.max
  {
    PruneShrinks(t, r);
    if h.Some? && h.value in Prune(t, r).tickets {
      RemovedSize(Prune(t, r).tickets, h.value);
    }
  }

  /** Steps that concern only the clock, the Connector or an open session. */
  predicate AwayFromGateway(op: Op) {
    op.Tick? || op.ConnectorPrune? || op.ConnectorClose? || op.SessionHello? || op.OutsideCreate? || op.OutsideHello?
  }

  lemma GatewayUntouched(s: System, op: Op)
    requires AwayFromGateway(op)
    ensures Apply(s, op).gateway == s.gateway && Apply(s, op).issuers == s.issuers
  {
  }

  /** Steps of an issue call. */
  predicate OfIssue(op: Op) {
    op.IssueReserve? || op.IssueUpstream? || op.IssueAbandon? || op.IssueStore? || op.IssueRelease?
  }

  lemma CapacityKeptByStore(s: System, p: Pid, h: Hash, claim: BrowserClaim, r0: int, r1: int, r2: int)
    requires Capacity(s) && p in s.issuers && s.issuers[p].Answered?
    ensures Capacity(StoreStep(s, p, h, claim, r0, r1, r2))
  {
    PruneShrinks(s.gateway.table, r2);
    var phase := StoreStep(s, p, h, claim, r0, r1, r2).issuers[p];
    PendingUpdate(s.issuers, p, phase);
    InsertedSize(s.issuers, p, phase);
    var expiry := BrowserExpiry(s, s.issuers[p].upExpiry, r1);
    InsertedSize(Prune(s.gateway.table, r2).tickets, h, Entry(claim, s.issuers[p].up, expiry));
  }

  lemma CapacityKeptByIssue(s: System, op: Op)
    requires Capacity(s) && OfIssue(op) && Enabled(s, op)
    ensures Capacity(Apply(s, op)) && Apply(s, op).gateway.table.max == s.gateway.table.max
  {
    match op
    case IssueReserve(p, r) => CapacityKeptByReserve(s, p, r);
    case IssueUpstream(p, u, claim, payload, r) => CapacityKeptByUpstream(s, p, u, claim, payload, r);
    case IssueAbandon(p) => CapacityKeptByPhase(s, Apply(s, op), p, Abandoned);
    case IssueStore(p, h, claim, r0, r1, r2) => CapacityKeptByStore(s, p, h, claim, r0, r1, r2);
    case IssueRelease(p) => CapacityKeptByRelease(s, p);
  }

  /** The table of the gateway only gets smaller by pruning, closing and hellos. */
  lemma TableShrinks(s: System, op: Op)
    requires op.GatewayPrune? || op.GatewayClose? || op.BrowserHello?
    ensures var t := Apply(s, op);
      && |t.gateway.table.tickets| <= |s.gateway.table.tickets| && t.gateway.table.max == s.gateway.table.max
      && t.gateway.issuing == s.gateway.issuing && t.issuers == s.issuers
  {
    match op
    case GatewayPrune(r) => PruneShrinks(s.gateway.table, r);
    case GatewayClose =>
    case BrowserHello(sid, presented, claim, r) => ConsumeShrinks(s.gateway.table, presented, claim, r);
  }

  lemma CapacityKept(s: System, op: Op)
    requires Capacity(s)
    ensures Capacity(Apply(s, op)) && Apply(s, op).gateway.table.max == s.gateway.table.max
  {
    if AwayFromGateway(op) {
      GatewayUntouched(s, op);
    } else if !OfIssue(op) {
      TableShrinks(s, op);
    } else if Enabled(s, op) {
      CapacityKeptByIssue(s, op);
    }
  }

  lemma {:induction false} CapacityAlways(s: System, ops: seq<Op>)
    requires Capacity(s)
    ensures Capacity(Run(s, ops)) && Run(s, ops).gateway.table.max == s.gateway.table.max
    decreases |ops|
  {
    if ops != [] {
      CapacityKept(s, ops[0]);
      CapacityAlways(Apply(s, ops[0]), ops[1..]);
    }
  }

  /**
   Reservations are honoured, in every run: stored tickets and issue calls
   that may still store never exceed the limit together; a call holding a
   reservation is never refused for a full ticket table; and the counter is
   positive whenever a reservation is released.
   */
  lemma ReservationsAreHonoured(gatewayMax: nat, gatewayTTL: int, connectorMax: nat, connectorTTL: int, clock: int,
                                ops: seq<Op>)
    ensures var s := Run(Init(gatewayMax, gatewayTTL, connectorMax, connectorTTL, clock), ops);
      && |s.gateway.table.tickets| + |Pending(s.issuers)| <= gatewayMax
      && s.gateway.issuing == |s.issuers|
      && (forall p, h, e, r :: p in Pending(s.issuers) && !Store(s.gateway.table, h, e, r).1 ==>
            var t := Prune(s.gateway.table, r);
            |t.tickets| < gatewayMax && (t.closed || |t.consumed| >= 4 * gatewayMax || h in t.tickets))
      && (forall p :: p in s.issuers ==> s.gateway.issuing > 0)
  {
    var i := Init(gatewayMax, gatewayTTL, connectorMax, connectorTTL, clock);
    assert Pending(map[]) == {};
    CapacityAlways(i, ops);
    var s := Run(i, ops);
    forall p, h, e, r | p in Pending(s.issuers) && !Store(s.gateway.table, h, e, r).1
      ensures |Prune(s.gateway.table, r).tickets| < gatewayMax
    {
      PruneShrinks(s.gateway.table, r);
      assert Pending(s.issuers) != {};
    }
  }

  // ---- Agreement of the tiers ----

  /** The gateway-side record `up`, good until `expiry`, is the one the Connector created and `holder` holds it. */
  predicate Backed(s: System, up: Upstream, expiry: int, holder: Holder) {
    && up.ticket in s.issued
    && s.issued[up.ticket].holder == holder
    && s.issued[up.ticket].entry.claim == up.claim
    && expiry <= s.issued[up.ticket].entry.expiresAt
  }

  ghost predicate Held(s: System) {
    && (forall p :: p in s.issuers && s.issuers[p].Answered? ==>
          Backed(s, s.issuers[p].up, s.issuers[p].upExpiry, Issuer(p)))
    && (forall h :: h in s.gateway.table.tickets ==>
          Backed(s, s.gateway.table.tickets[h].payload, s.gateway.table.tickets[h].expiresAt, Ticket(h)))
    && (forall sid :: sid in s.sessions ==> Backed(s, s.sessions[sid].payload, s.sessions[sid].expiresAt, Session(sid)))
  }

  /** Every upstream value still held on the gateway side and not expired is untouched in the Connector. */
  ghost predicate Kept(s: System) {
    && s.connector.tickets.Keys <= s.issued.Keys
    && s.connector.consumed.Keys <= s.issued.Keys
    && (!s.connector.closed ==>
          forall u :: u in s.issued && !s.issued[u].holder.Outside? && s.issued[u].entry.expiresAt > s.clock ==>
            u in s.connector.tickets && s.connector.tickets[u] == s.issued[u].entry && u !in s.connector.consumed)
  }

  /** Losing gateway-side records, or learning of values nobody holds yet, disturbs no holder. */
  lemma HeldShrunk(s: System, t: System)
    requires Held(s)
    requires forall u :: u in s.issued ==> u in t.issued && t.issued[u] == s.issued[u]
    requires forall p :: p in t.issuers && t.issuers[p].Answered? ==> p in s.issuers && s.issuers[p] == t.issuers[p]
    requires forall h :: h in t.gateway.table.tickets ==>
               h in s.gateway.table.tickets && s.gateway.table.tickets[h] == t.gateway.table.tickets[h]
    requires t.sessions == s.sessions
    ensures Held(t)
  {
  }

  /** Moving one value to a new holder disturbs no other holder. */
  lemma HeldMoved(s: System, t: System, u: Hash, to: Holder)
    requires Held(s) && u in s.issued && t.issued == Hold(s, u, to)
    requires forall p :: p in t.issuers && t.issuers[p].Answered? ==>
               p in s.issuers && s.issuers[p] == t.issuers[p] && Issuer(p) != s.issued[u].holder
    requires forall h :: h in t.gateway.table.tickets ==>
               var e := t.gateway.table.tickets[h];
               (h in s.gateway.table.tickets && s.gateway.table.tickets[h] == e && Ticket(h) != s.issued[u].holder)
               || Backed(t, e.payload, e.expiresAt, Ticket(h))
    requires forall sid :: sid in t.sessions ==>
               var e := t.sessions[sid];
               (sid in s.sessions && s.sessions[sid] == e && Session(sid) != s.issued[u].holder)
               || Backed(t, e.payload, e.expiresAt, Session(sid))
    ensures Held(t)
  {
  }

  lemma HeldKeptByUpstream(s: System, p: Pid, u: Hash, claim: ConnectorClaim, payload: nat, r: int)
    requires Held(s) && u !in s.issued
    ensures Held(UpstreamStep(s, p, u, claim, payload, r))
  {
    var t := UpstreamStep(s, p, u, claim, payload, r);
    forall q | q in t.issuers && t.issuers[q].Answered?
      ensures Backed(t, t.issuers[q].up, t.issuers[q].upExpiry, Issuer(q))
    {
      if q != p {
        assert Backed(s, s.issuers[q].up, s.issuers[q].upExpiry, Issuer(q));
      }
    }
  }

  /**
   What the last region of an issue call leaves: nothing new, or its ticket
   with a lifetime the upstream one covers.
   */
  lemma StoreLeaves(s: System, p: Pid, h: Hash, claim: BrowserClaim, r0: int, r1: int, r2: int)
    requires p in s.issuers && s.issuers[p].Answered? && s.issuers[p].up.ticket in s.issued
    ensures var t, a, was := StoreStep(s, p, h, claim, r0, r1, r2), s.issuers[p], s.gateway.table.tickets;
      && t.issuers == s.issuers[p := if t.issuers[p].Stored? then Stored else Abandoned] && t.sessions == s.sessions
      && (forall k :: k in t.gateway.table.tickets && (k != h || !t.issuers[p].Stored?) ==>
            k in was && t.gateway.table.tickets[k] == was[k])
      && (t.issuers[p].Stored? ==>
            && h in t.gateway.table.tickets && t.gateway.table.tickets[h].payload == a.up
            && t.gateway.table.tickets[h].expiresAt <= a.upExpiry && t.issued == Hold(s, a.up.ticket, Ticket(h)))
      && (!t.issuers[p].Stored? ==> t.issued == s.issued)
  {
  }

  lemma HeldAfterStore(s: System, t: System, p: Pid, h: Hash)
    requires Held(s) && p in s.issuers && s.issuers[p].Answered? && t.sessions == s.sessions && p in t.issuers
    requires Backed(s, s.issuers[p].up, s.issuers[p].upExpiry, Issuer(p))
    requires t.issuers == s.issuers[p := if t.issuers[p].Stored? then Stored else Abandoned]
    requires forall k :: k in t.gateway.table.tickets && (k != h || !t.issuers[p].Stored?) ==>
               k in s.gateway.table.tickets && t.gateway.table.tickets[k] == s.gateway.table.tickets[k]
    requires t.issuers[p].Stored? ==>
               && h in t.gateway.table.tickets && t.gateway.table.tickets[h].payload == s.issuers[p].up
               && t.gateway.table.tickets[h].expiresAt <= s.issuers[p].upExpiry
               && t.issued == Hold(s, s.issuers[p].up.ticket, Ticket(h))
    requires !t.issuers[p].Stored? ==> t.issued == s.issued
    ensures Held(t)
  {
    if t.issuers[p].Stored? {
      HeldMoved(s, t, s.issuers[p].up.ticket, Ticket(h));
    } else {
      HeldShrunk(s, t);
    }
  }

  lemma HeldKeptByStore(s: System, p: Pid, h: Hash, claim: BrowserClaim, r0: int, r1: int, r2: int)
    requires Held(s) && p in s.issuers && s.issuers[p].Answered?
    ensures Held(StoreStep(s, p, h, claim, r0, r1, r2))
  {
    var a := s.issuers[p];
    assert Backed(s, a.up, a.upExpiry, Issuer(p));
    StoreLeaves(s, p, h, claim, r0, r1, r2);
    HeldAfterStore(s, StoreStep(s, p, h, claim, r0, r1, r2), p, h);
  }

  lemma HeldKeptByBrowser(s: System, sid: nat, presented: Option<Hash>, claim: Option<BrowserClaim>, r: int)
    requires Held(s) && sid !in s.sessions
    ensures Held(BrowserHelloStep(s, sid, presented, claim, r))
  {
    var t := BrowserHelloStep(s, sid, presented, claim, r);
    var (_, reply) := Consume(s.gateway.table, presented, claim, r);
    if reply.Granted? {
      assert Backed(s, reply.entry.payload, reply.entry.expiresAt, Ticket(presented.value));
      HeldMoved(s, t, reply.entry.payload.ticket, Session(sid));
    } else {
      HeldShrunk(s, t);
    }
  }

  lemma HeldKeptBySession(s: System, sid: nat, r: int)
    requires Held(s) && sid in s.sessions
    ensures Held(SessionHelloStep(s, sid, r))
  {
    assert Backed(s, s.sessions[sid].payload, s.sessions[sid].expiresAt, Session(sid));
    HeldMoved(s, SessionHelloStep(s, sid, r), s.sessions[sid].payload.ticket, Outside);
  }

  /** Steps that hand no upstream value on. */
  predicate HandsNothingOn(op: Op) {
    !op.IssueUpstream? && !op.IssueStore? && !op.BrowserHello? && !op.SessionHello?
  }

  lemma HeldKeptByCreate(s: System, u: Hash, claim: ConnectorClaim, payload: nat, r: int)
    requires Held(s) && u !in s.issued
    ensures Held(CreateStep(s, u, claim, payload, r, Outside).0)
  {
    HeldShrunk(s, CreateStep(s, u, claim, payload, r, Outside).0);
  }

  lemma HeldKeptByReserve(s: System, p: Pid, r: int)
    requires Held(s)
    ensures Held(ReserveStep(s, p, r))
  {
    HeldShrunk(s, ReserveStep(s, p, r));
  }

  lemma HeldKeptQuietly(s: System, op: Op)
    requires Held(s) && HandsNothingOn(op) && Enabled(s, op)
    ensures Held(Apply(s, op))
  {
    match op
    case OutsideCreate(u, claim, payload, r) => HeldKeptByCreate(s, u, claim, payload, r);
    case IssueReserve(p, r) => HeldKeptByReserve(s, p, r);
    case _ => HeldShrunk(s, Apply(s, op));
  }

  lemma HeldKept(s: System, op: Op)
    requires Held(s)
    ensures Held(Apply(s, op))
  {
    if HandsNothingOn(op) && Enabled(s, op) {
      HeldKeptQuietly(s, op);
    } else if Enabled(s, op) {
      match op
      case IssueUpstream(p, u, claim, payload, r) => HeldKeptByUpstream(s, p, u, claim, payload, r);
      case IssueStore(p, h, claim, r0, r1, r2) => HeldKeptByStore(s, p, h, claim, r0, r1, r2);
      case BrowserHello(sid, presented, claim, r) => HeldKeptByBrowser(s, sid, presented, claim, r);
      case SessionHello(sid, r) => HeldKeptBySession(s, sid, r);
    }
  }

  /** What one Connector region may do to the values the gateway side still holds: nothing, before they expire. */
  ghost predicate Spares(t: Table<ConnectorClaim, nat>, t': Table<ConnectorClaim, nat>, u: Hash, clock: int) {
    t.closed == t'.closed && (u in t'.consumed ==> u in t.consumed)
    && (u in t.tickets && t.tickets[u].expiresAt > clock ==> u in t'.tickets && t'.tickets[u] == t.tickets[u])
  }

  lemma PruneSpares(t: Table<ConnectorClaim, nat>, u: Hash, r: int, clock: int)
    requires r <= clock
    ensures Spares(t, Prune(t, r), u, clock)
  {
  }

  lemma CreateSpares(t: Table<ConnectorClaim, nat>, u: Hash, v: Hash, claim: ConnectorClaim, payload: nat, r: int,
                     clock: int)
    requires r <= clock && u != v
    ensures Spares(t, Create(t, v, claim, payload, r).0, u, clock)
  {
  }

  lemma ConsumeSpares(t: Table<ConnectorClaim, nat>, u: Hash, h: Option<Hash>, claim: ConnectorClaim, r: int,
                      clock: int)
    requires r <= clock && h != Some(u)
    ensures Spares(t, Consume(t, h, Some(claim), r).0, u, clock)
  {
  }

  /** One Connector region that spares the held values keeps the agreement. */
  lemma KeptSpared(s: System, t: System)
    requires Kept(s) && t.clock == s.clock
    requires t.connector.tickets.Keys <= t.issued.Keys && t.connector.consumed.Keys <= t.issued.Keys
    requires forall u :: u in t.issued && !t.issued[u].holder.Outside? ==>
               u in s.issued && s.issued[u].entry == t.issued[u].entry && !s.issued[u].holder.Outside?
               && Spares(s.connector, t.connector, u, s.clock)
    requires t.connector.closed == s.connector.closed
    ensures Kept(t)
  {
  }

  lemma KeptByCreate(s: System, u: Hash, claim: ConnectorClaim, payload: nat, r: int, holder: Holder)
    requires Kept(s) && r <= s.clock && u !in s.issued
    ensures Kept(CreateStep(s, u, claim, payload, r, holder).0)
  {
    var t := CreateStep(s, u, claim, payload, r, holder).0;
    forall v | v in s.issued ensures Spares(s.connector, t.connector, v, s.clock) {
      CreateSpares(s.connector, v, u, claim, payload, r, s.clock);
    }
    assert u !in s.connector.consumed;
  }

  lemma KeptByHello(s: System, t: System, h: Option<Hash>, claim: ConnectorClaim, r: int)
    requires Kept(s) && r <= s.clock && t.clock == s.clock
    requires t.connector == Consume(s.connector, h, Some(claim), r).0
    requires t.issued.Keys == s.issued.Keys
    requires forall u :: u in t.issued && !t.issued[u].holder.Outside? ==> h != Some(u) && t.issued[u] == s.issued[u]
    ensures Kept(t)
  {
    forall u | u in t.issued && !t.issued[u].holder.Outside? ensures Spares(s.connector, t.connector, u, s.clock) {
      ConsumeSpares(s.connector, u, h, claim, r, s.clock);
    }
    KeptSpared(s, t);
  }

  /** Steps of the gateway move a value from one gateway-side holder to the next and never touch the Connector. */
  lemma KeptByGateway(s: System, t: System)
    requires Kept(s) && t.connector == s.connector && s.clock <= t.clock && t.issued.Keys == s.issued.Keys
    requires forall u :: u in t.issued && !t.issued[u].holder.Outside? ==>
               s.issued[u].entry == t.issued[u].entry && !s.issued[u].holder.Outside?
    ensures Kept(t)
  {
  }

  lemma KeptByStore(s: System, p: Pid, h: Hash, claim: BrowserClaim, r0: int, r1: int, r2: int)
    requires Held(s) && Kept(s) && p in s.issuers && s.issuers[p].Answered?
    ensures Kept(StoreStep(s, p, h, claim, r0, r1, r2))
  {
    var t := StoreStep(s, p, h, claim, r0, r1, r2);
    var u := s.issuers[p].up.ticket;
    assert Backed(s, s.issuers[p].up, s.issuers[p].upExpiry, Issuer(p));
    assert t.issued == s.issued || t.issued == Hold(s, u, Ticket(h));
    KeptByGateway(s, t);
  }

  lemma KeptByBrowser(s: System, sid: nat, presented: Option<Hash>, claim: Option<BrowserClaim>, r: int)
    requires Held(s) && Kept(s)
    ensures Kept(BrowserHelloStep(s, sid, presented, claim, r))
  {
    var reply := Consume(s.gateway.table, presented, claim, r).1;
    if reply.Granted? {
      assert Backed(s, reply.entry.payload, reply.entry.expiresAt, Ticket(presented.value));
    }
    KeptByGateway(s, BrowserHelloStep(s, sid, presented, claim, r));
  }

  lemma KeptBySession(s: System, sid: nat, r: int)
    requires Held(s) && Kept(s) && sid in s.sessions && r <= s.clock
    ensures Kept(SessionHelloStep(s, sid, r))
  {
    var up := s.sessions[sid].payload;
    assert Backed(s, up, s.sessions[sid].expiresAt, Session(sid));
    KeptByHello(s, SessionHelloStep(s, sid, r), Some(up.ticket), up.claim, r);
  }

  lemma KeptKept(s: System, op: Op)
    requires Held(s) && Kept(s)
    ensures Kept(Apply(s, op))
  {
    var t := Apply(s, op);
    if Enabled(s, op) {
      match op
      case IssueUpstream(p, u, claim, payload, r) => KeptByCreate(s, u, claim, payload, r, Issuer(p));
      case OutsideCreate(u, claim, payload, r) => KeptByCreate(s, u, claim, payload, r, Outside);
      case IssueStore(p, h, claim, r0, r1, r2) => KeptByStore(s, p, h, claim, r0, r1, r2);
      case BrowserHello(sid, presented, claim, r) => KeptByBrowser(s, sid, presented, claim, r);
      case SessionHello(sid, r) => KeptBySession(s, sid, r);
      case OutsideHello(h, claim, r) => KeptByHello(s, t, h, claim, r);
      case ConnectorPrune(r) =>
        forall u ensures Spares(s.connector, t.connector, u, s.clock) { PruneSpares(s.connector, u, r, s.clock); }
        KeptSpared(s, t);
      case ConnectorClose =>
      case _ => KeptByGateway(s, t);
    }
  }

  lemma {:induction false} AgreementAlways(s: System, ops: seq<Op>)
    requires Held(s) && Kept(s)
    ensures Held(Run(s, ops)) && Kept(Run(s, ops))
    decreases |ops|
  {
    if ops != [] {
      HeldKept(s, ops[0]);
      KeptKept(s, ops[0]);
      AgreementAlways(Apply(s, ops[0]), ops[1..]);
    }
  }

  /**
   In every reachable state with the Connector open, each unexpired browser
   ticket has its own upstream ticket, still present and unconsumed in the
   Connector, carrying the claim the gateway will present and expiring no
   earlier than the browser ticket.
   */
  lemma TiersAgree(gatewayMax: nat, gatewayTTL: int, connectorMax: nat, connectorTTL: int, clock: int, ops: seq<Op>)
    ensures var s := Run(Init(gatewayMax, gatewayTTL, connectorMax, connectorTTL, clock), ops);
            var tickets := s.gateway.table.tickets;
      && (!s.connector.closed ==> forall h :: h in tickets && tickets[h].expiresAt > s.clock ==>
            var up := tickets[h].payload;
            && up.ticket in s.connector.tickets && up.ticket !in s.connector.consumed
            && s.connector.tickets[up.ticket].claim == up.claim
            && tickets[h].expiresAt <= s.connector.tickets[up.ticket].expiresAt)
      && (forall h, k :: h in tickets && k in tickets && tickets[h].payload.ticket == tickets[k].payload.ticket ==>
            h == k)
  {
    AgreementAlways(Init(gatewayMax, gatewayTTL, connectorMax, connectorTTL, clock), ops);
  }

  /**
   A browser that redeemed its ticket gets through: in every reachable state
   with the Connector open, a session that holds an unexpired ticket and says
   hello upstream is granted the very entry created for it.
   */
  lemma RedeemedSessionIsAdmitted(gatewayMax: nat, gatewayTTL: int, connectorMax: nat, connectorTTL: int, clock: int,
                                  ops: seq<Op>, sid: nat, r: int)
    requires var s := Run(Init(gatewayMax, gatewayTTL, connectorMax, connectorTTL, clock), ops);
      sid in s.sessions && s.sessions[sid].expiresAt > s.clock && r <= s.clock && !s.connector.closed
    ensures var s := Run(Init(gatewayMax, gatewayTTL, connectorMax, connectorTTL, clock), ops);
      && SessionReply(s, sid, r).1.Granted?
      && s.sessions[sid].payload.ticket in s.issued
      && SessionReply(s, sid, r).1.entry == s.issued[s.sessions[sid].payload.ticket].entry
  {
    AgreementAlways(Init(gatewayMax, gatewayTTL, connectorMax, connectorTTL, clock), ops);
  }

  // ---- An issue call with room gets through ----

  /** At reading `r` both tiers are open and have room, and the names are new. */
  ghost predicate HasRoom(s: System, p: Pid, u: Hash, h: Hash, sid: nat, r: int) {
    var g, c := Prune(s.gateway.table, r), Prune(s.connector, r);
    && r == s.clock && p !in s.issuers && u !in s.issued && sid !in s.sessions && h !in g.tickets
    && !g.closed && |g.tickets| + s.gateway.issuing < g.max && |g.consumed| < 4 * g.max && g.ttl > 0
    && !c.closed && |c.tickets| < c.max && |c.consumed| < 4 * c.max && 0 < c.ttl <= MINUTE
  }

  lemma PruneTwice<C, P>(t: Table<C, P>, r: int)
    ensures Prune(Prune(t, r), r) == Prune(t, r)
  {
    assert LiveTickets(LiveTickets(t.tickets, r), r) == LiveTickets(t.tickets, r);
    assert LiveConsumed(LiveConsumed(t.consumed, r), r) == LiveConsumed(t.consumed, r);
  }

  lemma ReservedAndAnswered(s: System, p: Pid, u: Hash, h: Hash, sid: nat, claim: ConnectorClaim, payload: nat, r: int)
    returns (t: System)
    requires HasRoom(s, p, u, h, sid, r) && u !in s.connector.tickets
    ensures t == Apply(Apply(s, IssueReserve(p, r)), IssueUpstream(p, u, claim, payload, r))
    ensures p in t.issuers && t.issuers[p] == Answered(Upstream(u, claim), r + s.connector.ttl)
    ensures t.gateway.table == Prune(s.gateway.table, r) && t.clock == s.clock && t.sessions == s.sessions
    ensures !t.connector.closed && t.connector.ttl == s.connector.ttl
    ensures u in t.connector.tickets && t.connector.tickets[u] == Entry(claim, payload, r + s.connector.ttl)
    ensures u in t.issued
  {
    var a := Apply(s, IssueReserve(p, r));
    t := Apply(a, IssueUpstream(p, u, claim, payload, r));
  }

  lemma StoredAndRedeemed(s: System, p: Pid, u: Hash, h: Hash, sid: nat, claim: ConnectorClaim, shown: BrowserClaim,
                          r: int)
    returns (t: System)
    requires p in s.issuers && s.issuers[p] == Answered(Upstream(u, claim), r + s.connector.ttl)
    requires r == s.clock && sid !in s.sessions && 0 < s.connector.ttl <= MINUTE
    requires var g := s.gateway.table;
             && Prune(g, r) == g && !g.closed && h !in g.tickets
             && |g.tickets| < g.max && |g.consumed| < 4 * g.max && g.ttl > 0
    ensures t == Apply(Apply(s, IssueStore(p, h, shown, r, r, r)), BrowserHello(sid, Some(h), Some(shown), r))
    ensures sid in t.sessions && t.sessions[sid].payload == Upstream(u, claim) && t.connector == s.connector
            && t.clock == s.clock
  {
    var a := Apply(s, IssueStore(p, h, shown, r, r, r));
    assert a.issuers[p].Stored?;
    t := Apply(a, BrowserHello(sid, Some(h), Some(shown), r));
  }

  lemma FourSteps(s: System, a: Op, b: Op, c: Op, d: Op)
    ensures Run(s, [a, b, c, d]) == Apply(Apply(Apply(Apply(s, a), b), c), d)
  {
    assert [a, b, c, d][1..] == [b, c, d] && [b, c, d][1..] == [c, d] && [c, d][1..] == [d] && [d][1..] == [];
    assert Run(s, [a, b, c, d]) == Run(Apply(s, a), [b, c, d]);
    assert Run(Apply(s, a), [b, c, d]) == Run(Apply(Apply(s, a), b), [c, d]);
    assert Run(Apply(Apply(s, a), b), [c, d]) == Run(Apply(Apply(Apply(s, a), b), c), [d]);
  }

  lemma RoomSufficesFrom(s: System, p: Pid, u: Hash, h: Hash, sid: nat, claim: ConnectorClaim, payload: nat,
                         shown: BrowserClaim, r: int)
    requires Kept(s) && HasRoom(s, p, u, h, sid, r)
    ensures var t := Run(s, [IssueReserve(p, r), IssueUpstream(p, u, claim, payload, r),
                             IssueStore(p, h, shown, r, r, r), BrowserHello(sid, Some(h), Some(shown), r)]);
      sid in t.sessions && SessionReply(t, sid, r).1 == Granted(Entry(claim, payload, r + s.connector.ttl))
  {
    var a := ReservedAndAnswered(s, p, u, h, sid, claim, payload, r);
    PruneTwice(s.gateway.table, r);
    var t := StoredAndRedeemed(a, p, u, h, sid, claim, shown, r);
    FourSteps(s, IssueReserve(p, r), IssueUpstream(p, u, claim, payload, r), IssueStore(p, h, shown, r, r, r),
              BrowserHello(sid, Some(h), Some(shown), r));
  }

  /**
   From every reachable state in which both tiers are open and have room, an
   issue call reserves, is answered, stores; its browser redeems the ticket;
   and the session's hello is granted the entry the Connector created.
   */
  lemma RoomSuffices(gatewayMax: nat, gatewayTTL: int, connectorMax: nat, connectorTTL: int, clock: int, ops: seq<Op>,
                     p: Pid, u: Hash, h: Hash, sid: nat, claim: ConnectorClaim, payload: nat, shown: BrowserClaim,
                     r: int)
    requires HasRoom(Run(Init(gatewayMax, gatewayTTL, connectorMax, connectorTTL, clock), ops), p, u, h, sid, r)
    ensures var s := Run(Init(gatewayMax, gatewayTTL, connectorMax, connectorTTL, clock), ops);
            var t := Run(s, [IssueReserve(p, r), IssueUpstream(p, u, claim, payload, r),
                             IssueStore(p, h, shown, r, r, r), BrowserHello(sid, Some(h), Some(shown), r)]);
      sid in t.sessions && SessionReply(t, sid, r).1 == Granted(Entry(claim, payload, r + s.connector.ttl))
  {
    AgreementAlways(Init(gatewayMax, gatewayTTL, connectorMax, connectorTTL, clock), ops);
    var s := Run(Init(gatewayMax, gatewayTTL, connectorMax, connectorTTL, clock), ops);
    RoomSufficesFrom(s, p, u, h, sid, claim, payload, shown, r);
  }
}
