/**
 Where browser tickets and sessions come from, exactly: when an issue call
 stores its ticket and with which lifetime, when a hello opens a session, and,
 over every run, that nothing else brings about either.
 */
module TwoTierSessions {
  import opened Common
  import opened TicketAnswers
  import opened TwoTier
  import Tickets

  type Hash = Tickets.Hash

  // ---- One step ----

  function Earlier(a: int, b: int): int {
    if a < b then a else b
  }

  /** The table of the gateway would take in a ticket under `h` at the reading. */
  ghost predicate Takes(s: System, h: Hash, r: int) {
    var t := s.gateway.table;
    !t.closed && |LiveHashes(t, r)| < t.max && |MarkedHashes(t, r)| < 4 * t.max && !Live(t, h, r)
  }

  /**
   An issue call stores its ticket exactly when the answer of the Connector
   expires within the minute after it was checked, the ticket would still be
   good when its lifetime is fixed, and the table takes it; the ticket then
   carries the claim of the call and expires with the earlier of its own
   lifetime and the answer.
   */
  lemma IssueStores(s: System, p: Pid, h: Hash, claim: BrowserClaim, r0: int, r1: int, r2: int)
    requires p in s.issuers && s.issuers[p].Answered?
    ensures var a, t := s.issuers[p], StoreStep(s, p, h, claim, r0, r1, r2);
            var expiry := Earlier(a.upExpiry, r1 + s.gateway.table.ttl);
      && (t.issuers[p].Stored? <==> r0 < a.upExpiry <= r0 + MINUTE && r1 < expiry && Takes(s, h, r2))
      && (t.issuers[p].Stored? ==>
            h in t.gateway.table.tickets && t.gateway.table.tickets[h] == Tickets.Entry(claim, a.up, expiry))
      && (!t.issuers[p].Stored? ==> t.issuers[p].Abandoned?)
      && (forall k :: k in t.gateway.table.tickets && (k != h || !t.issuers[p].Stored?) ==>
            k in s.gateway.table.tickets && t.gateway.table.tickets[k] == s.gateway.table.tickets[k])
  {
    var expiry := BrowserExpiry(s, s.issuers[p].upExpiry, r1);
    StoreAnswers(s.gateway.table, h, Tickets.Entry(claim, s.issuers[p].up, expiry), r2);
  }

  /** The hello presents an outstanding ticket and shows its claim. */
  predicate Redeems(s: System, presented: Option<Hash>, shown: Option<BrowserClaim>, r: int) {
    && presented.Some? && Live(s.gateway.table, presented.value, r)
    && shown == Some(s.gateway.table.tickets[presented.value].claim)
  }

  /** A hello opens a session, for the entry it redeems, exactly when it shows the claim of an outstanding ticket. */
  lemma HelloOpens(s: System, sid: nat, presented: Option<Hash>, shown: Option<BrowserClaim>, r: int)
    requires sid !in s.sessions
    ensures var t := BrowserHelloStep(s, sid, presented, shown, r);
      && (sid in t.sessions <==> Redeems(s, presented, shown, r))
      && (sid in t.sessions ==> t.sessions[sid] == s.gateway.table.tickets[presented.value])
      && (forall k :: k in s.sessions ==> k in t.sessions && t.sessions[k] == s.sessions[k])
      && (forall k :: k in t.sessions && k != sid ==> k in s.sessions)
  {
    if presented.Some? {
      ConsumeAnswers(s.gateway.table, presented.value, shown, r);
    }
  }

  // ---- Runs ----

  predicate Opens(s: System, op: Op, sid: nat, e: BrowserEntry) {
    && op.BrowserHello? && Enabled(s, op) && op.sid == sid && Redeems(s, op.presented, op.shown, op.r)
    && s.gateway.table.tickets[op.presented.value] == e
  }

  /** A step that was taken in the run opened session `sid` for entry `e`. */
  predicate Opened(s: System, ops: seq<Op>, sid: nat, e: BrowserEntry)
    decreases |ops|
  {
    ops != [] && (Opens(s, ops[0], sid, e) || Opened(Apply(s, ops[0]), ops[1..], sid, e))
  }

  lemma SessionStep(s: System, op: Op, sid: nat)
    requires sid in Apply(s, op).sessions
    ensures (sid in s.sessions && s.sessions[sid] == Apply(s, op).sessions[sid])
            || Opens(s, op, sid, Apply(s, op).sessions[sid])
  {
    if op.BrowserHello? && Enabled(s, op) {
      HelloOpens(s, op.sid, op.presented, op.shown, op.r);
    }
  }

  lemma {:induction false} SessionsFrom(s: System, ops: seq<Op>, sid: nat)
    requires sid in Run(s, ops).sessions
    ensures var e := Run(s, ops).sessions[sid];
      (sid in s.sessions && s.sessions[sid] == e) || Opened(s, ops, sid, e)
    decreases |ops|
  {
    if ops != [] {
      SessionsFrom(Apply(s, ops[0]), ops[1..], sid);
      if !Opened(s, ops, sid, Run(s, ops).sessions[sid]) {
        SessionStep(s, ops[0], sid);
      }
    }
  }

  /** In every run, every open session was opened by a hello that showed the claim of the ticket it redeemed. */
  lemma SessionsWereOpened(gatewayMax: nat, gatewayTTL: int, connectorMax: nat, connectorTTL: int, clock: int,
                           ops: seq<Op>, sid: nat)
    requires sid in Run(Init(gatewayMax, gatewayTTL, connectorMax, connectorTTL, clock), ops).sessions
    ensures var i := Init(gatewayMax, gatewayTTL, connectorMax, connectorTTL, clock);
      Opened(i, ops, sid, Run(i, ops).sessions[sid])
  {
    SessionsFrom(Init(gatewayMax, gatewayTTL, connectorMax, connectorTTL, clock), ops, sid);
  }

  /** The last region of an issue call whose answer was good for at most another minute, capped to its own lifetime. */
  predicate Files(s: System, op: Op, h: Hash, e: BrowserEntry) {
    && op.IssueStore? && Enabled(s, op) && op.h == h && e.claim == op.claim && e.payload == s.issuers[op.p].up
    && op.r0 < s.issuers[op.p].upExpiry <= op.r0 + MINUTE
    && op.r1 < e.expiresAt == Earlier(s.issuers[op.p].upExpiry, op.r1 + s.gateway.table.ttl)
  }

  /** A step that was taken in the run issued entry `e` under `h`. */
  predicate Filed(s: System, ops: seq<Op>, h: Hash, e: BrowserEntry)
    decreases |ops|
  {
    ops != [] && (Files(s, ops[0], h, e) || Filed(Apply(s, ops[0]), ops[1..], h, e))
  }

  lemma TicketStep(s: System, op: Op, h: Hash)
    requires h in Apply(s, op).gateway.table.tickets
    ensures var e := Apply(s, op).gateway.table.tickets[h];
      (h in s.gateway.table.tickets && s.gateway.table.tickets[h] == e) || Files(s, op, h, e)
  {
    if op.IssueStore? && Enabled(s, op) {
      IssueStores(s, op.p, op.h, op.claim, op.r0, op.r1, op.r2);
    }
  }

  lemma {:induction false} TicketsFrom(s: System, ops: seq<Op>, h: Hash)
    requires h in Run(s, ops).gateway.table.tickets
    ensures var e := Run(s, ops).gateway.table.tickets[h];
      (h in s.gateway.table.tickets && s.gateway.table.tickets[h] == e) || Filed(s, ops, h, e)
    decreases |ops|
  {
    if ops != [] {
      TicketsFrom(Apply(s, ops[0]), ops[1..], h);
      if !Filed(s, ops, h, Run(s, ops).gateway.table.tickets[h]) {
        TicketStep(s, ops[0], h);
      }
    }
  }

  /** In every run, every browser ticket carries the claim, upstream value and lifetime of the call that issued it. */
  lemma TicketsWereIssued(gatewayMax: nat, gatewayTTL: int, connectorMax: nat, connectorTTL: int, clock: int,
                          ops: seq<Op>, h: Hash)
    requires h in Run(Init(gatewayMax, gatewayTTL, connectorMax, connectorTTL, clock), ops).gateway.table.tickets
    ensures var i := Init(gatewayMax, gatewayTTL, connectorMax, connectorTTL, clock);
      Filed(i, ops, h, Run(i, ops).gateway.table.tickets[h])
  {
    TicketsFrom(Init(gatewayMax, gatewayTTL, connectorMax, connectorTTL, clock), ops, h);
  }
}
