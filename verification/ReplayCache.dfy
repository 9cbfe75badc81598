/**
 The request verifier: a time window around the signed timestamp and a cache
 of nonces that outlasts it. The MAC is ideal, so a request carries whether
 its signature is valid. The verifier reads the clock before it takes the
 lock, so calls may reach the cache in another order than their readings;
 `lag` bounds by how much. Times are nanoseconds, timestamps whole seconds.
 */
module ReplayCache {
  import opened Common

  type Nonce = string

  /** A field is None when its header is missing, repeated or does not decode. */
  datatype Request =
    Request(protocolOk: bool, keyOk: bool, timestamp: Option<int>, nonce: Option<Nonce>, signature: Option<bool>)

  datatype Verdict =
    | Accepted | InvalidProtocol | InvalidKeyId | InvalidTimestamp | Stale | InvalidNonce | InvalidSignature
    | Replayed | CacheFull

  datatype Cache = Cache(maxSkew: int, maxNonces: nat, nonces: map<Nonce, int>)

  function Live(nonces: map<Nonce, int>, now: int): map<Nonce, int> {
    map n | n in nonces && nonces[n] > now :: nonces[n]
  }

  predicate InWindow(c: Cache, timestamp: int, now: int) {
    now - c.maxSkew <= timestamp * SECOND <= now + c.maxSkew
  }

  /** The verdict of the checks made before the lock is taken; None when they all pass. */
  function Precheck(c: Cache, r: Request, now: int): Option<Verdict> {
    if !r.protocolOk then Some(InvalidProtocol)
    else if !r.keyOk then Some(InvalidKeyId)
    else if r.timestamp.None? then Some(InvalidTimestamp)
    else if !InWindow(c, r.timestamp.value, now) then Some(Stale)
    else if r.nonce.None? then Some(InvalidNonce)
    else if r.signature != Some(true) then Some(InvalidSignature)
    else None
  }

  function Verify(c: Cache, r: Request, now: int): (Cache, Verdict) {
    var early := Precheck(c, r, now);
    if early.Some? then (c, early.value)
    else
      var p := c.(nonces := Live(c.nonces, now));
      var nonce := if r.nonce.Some? then r.nonce.value else "";
      if nonce in p.nonces then (p, Replayed)
      else if |p.nonces| >= p.maxNonces then (p, CacheFull)
      else (p.(nonces := p.nonces[nonce := now + 2 * c.maxSkew]), Accepted)
  }

  /** Only an accepted request is remembered; any other call can only forget expired nonces. */
  lemma OnlyAcceptedIsRemembered(c: Cache, r: Request, now: int)
    ensures var (c', v) := Verify(c, r, now);
      && (!v.Accepted? ==> c'.nonces.Keys <= c.nonces.Keys)
      && (v.Accepted? ==> r.nonce.Some? && c'.nonces == Live(c.nonces, now)[r.nonce.value := now + 2 * c.maxSkew]
                          && r.nonce.value !in Live(c.nonces, now))
      && (forall n :: n in c'.nonces && n in c.nonces && !(v.Accepted? && r.nonce == Some(n)) ==>
            c'.nonces[n] == c.nonces[n])
  {
  }

  /** All headers are in order and the signature is valid. */
  predicate WellSigned(r: Request) {
    r.protocolOk && r.keyOk && r.timestamp.Some? && r.nonce.Some? && r.signature == Some(true)
  }

  ghost function LiveNonces(c: Cache, now: int): set<Nonce> {
    set n | n in c.nonces && now < c.nonces[n]
  }

  lemma LiveSize(c: Cache, now: int)
    ensures |Live(c.nonces, now)| == |LiveNonces(c, now)|
  {
    assert Live(c.nonces, now).Keys == LiveNonces(c, now);
    assert |Live(c.nonces, now).Keys| == |Live(c.nonces, now)|;
  }

  /**
   A request is accepted exactly when it is well signed, its timestamp is at
   most the skew away, its nonce is not live and fewer nonces than the limit
   are; of the well signed requests in the window, those with a live nonce are
   replays and the others meet a full cache.
   */
  lemma VerdictIsExact(c: Cache, r: Request, now: int)
    ensures var v := Verify(c, r, now).1;
            var timely := WellSigned(r) && now - c.maxSkew <= r.timestamp.value * SECOND <= now + c.maxSkew;
      && (v.Accepted? <==> timely && r.nonce.value !in LiveNonces(c, now) && |LiveNonces(c, now)| < c.maxNonces)
      && (v.Replayed? <==> timely && r.nonce.value in LiveNonces(c, now))
      && (v.CacheFull? <==> timely && r.nonce.value !in LiveNonces(c, now) && |LiveNonces(c, now)| >= c.maxNonces)
  {
    LiveSize(c, now);
  }

  /** Each refusal names the first check that fails, and none of them touches the cache. */
  lemma RefusalIsExact(c: Cache, r: Request, now: int)
    ensures var (c', v) := Verify(c, r, now);
            var stale := r.timestamp.Some? && !(now - c.maxSkew <= r.timestamp.value * SECOND <= now + c.maxSkew);
      && (v.InvalidProtocol? <==> !r.protocolOk)
      && (v.InvalidKeyId? <==> r.protocolOk && !r.keyOk)
      && (v.InvalidTimestamp? <==> r.protocolOk && r.keyOk && r.timestamp.None?)
      && (v.Stale? <==> r.protocolOk && r.keyOk && stale)
      && (v.InvalidNonce? <==> r.protocolOk && r.keyOk && r.timestamp.Some? && !stale && r.nonce.None?)
      && (v.InvalidSignature? <==>
            r.protocolOk && r.keyOk && r.timestamp.Some? && !stale && r.nonce.Some? && r.signature != Some(true))
      && (!WellSigned(r) || stale ==> c' == c)
  {
  }

  // ---- Runs ----

  datatype Call = Call(request: Request, now: int)

  function Run(c: Cache, calls: seq<Call>): Cache
    decreases |calls|
  {
    if calls == [] then c else Run(Verify(c, calls[0].request, calls[0].now).0, calls[1..])
  }

  /** The verdicts of a run, call by call. */
  function Verdicts(c: Cache, calls: seq<Call>): (vs: seq<Verdict>)
    ensures |vs| == |calls|
    decreases |calls|
  {
    if calls == [] then []
    else
      var (c', v) := Verify(c, calls[0].request, calls[0].now);
      [v] + Verdicts(c', calls[1..])
  }

  lemma {:induction false} SizeAlways(c: Cache, calls: seq<Call>)
    requires |c.nonces| <= c.maxNonces
    ensures |Run(c, calls).nonces| <= c.maxNonces
    decreases |calls|
  {
    if calls != [] {
      var (c', v) := Verify(c, calls[0].request, calls[0].now);
      var live := Live(c.nonces, calls[0].now);
      SubmapSize(live, c.nonces);
      if v.Accepted? {
        InsertedSize(live, calls[0].request.nonce.value, calls[0].now + 2 * c.maxSkew);
      }
      SizeAlways(c', calls[1..]);
    }
  }

  /** In every run the cache holds at most the configured number of nonces. */
  lemma CacheStaysWithinLimit(maxSkew: int, maxNonces: nat, calls: seq<Call>)
    ensures |Run(Cache(maxSkew, maxNonces, map[]), calls).nonces| <= maxNonces
  {
    SizeAlways(Cache(maxSkew, maxNonces, map[]), calls);
  }

  /** No call works with a reading more than `lag` older than that of a call before it. */
  ghost predicate Lagging(calls: seq<Call>, lag: int) {
    forall i, j :: 0 <= i < j < |calls| ==> calls[i].now - lag <= calls[j].now
  }

  lemma LaggingTail(calls: seq<Call>, lag: int)
    requires Lagging(calls, lag) && calls != []
    ensures Lagging(calls[1..], lag)
    ensures forall j :: 0 < j < |calls| ==> calls[0].now - lag <= calls[j].now
  {
    forall i, j | 0 <= i < j < |calls[1..]| ensures calls[1..][i].now - lag <= calls[1..][j].now {
      assert calls[1..][i] == calls[i + 1] && calls[1..][j] == calls[j + 1];
    }
  }

  /**
   While a nonce is remembered until `until`, it is accepted again only by a
   call that reads at least `until` less the lag.
   */
  lemma {:induction false} RememberedBlocks(c: Cache, calls: seq<Call>, lag: nat, nonce: Nonce, until: int, j: nat)
    requires nonce in c.nonces && c.nonces[nonce] == until && Lagging(calls, lag) && j < |calls|
    requires Verdicts(c, calls)[j].Accepted? && calls[j].request.nonce == Some(nonce)
    ensures until - lag <= calls[j].now
    decreases |calls|
  {
    var (c', v) := Verify(c, calls[0].request, calls[0].now);
    LaggingTail(calls, lag);
    if until <= calls[0].now {
      assert j > 0 ==> calls[0].now - lag <= calls[j].now;
    } else {
      assert nonce in c'.nonces && c'.nonces[nonce] == until;
      assert j > 0;
      RememberedBlocks(c', calls[1..], lag, nonce, until, j - 1);
    }
  }

  /** In every run, two acceptances of one nonce are at least twice the skew apart, less the lag. */
  lemma {:induction false} AcceptancesAreApart(c: Cache, calls: seq<Call>, lag: nat, i: nat, j: nat)
    requires Lagging(calls, lag) && i < j < |calls|
    requires Verdicts(c, calls)[i].Accepted? && Verdicts(c, calls)[j].Accepted?
    requires calls[i].request.nonce == calls[j].request.nonce
    ensures calls[i].now + 2 * c.maxSkew - lag <= calls[j].now
    decreases |calls|
  {
    var (c', v) := Verify(c, calls[0].request, calls[0].now);
    LaggingTail(calls, lag);
    if i == 0 {
      RememberedBlocks(c', calls[1..], lag, calls[0].request.nonce.value, calls[0].now + 2 * c.maxSkew, j - 1);
    } else {
      AcceptancesAreApart(c', calls[1..], lag, i - 1, j - 1);
    }
  }

  /** In every run, whatever is accepted is well signed and in the window. */
  lemma {:induction false} AcceptedIsInWindow(c: Cache, calls: seq<Call>, i: nat)
    requires i < |calls| && Verdicts(c, calls)[i].Accepted?
    ensures WellSigned(calls[i].request)
    ensures InWindow(c, calls[i].request.timestamp.value, calls[i].now)
    decreases |calls|
  {
    if i > 0 {
      AcceptedIsInWindow(Verify(c, calls[0].request, calls[0].now).0, calls[1..], i - 1);
    }
  }

  /**
   Replays. A request accepted once is accepted again in some run only if its
   timestamp was within the lag of the upper edge of the window when it was
   first accepted. With readings in lock order that edge is a single instant,
   and the second acceptance happens exactly twice the skew later.
   */
  lemma ReplayOnlyAtTheEdge(c: Cache, calls: seq<Call>, lag: nat, i: nat, j: nat)
    requires Lagging(calls, lag) && i < j < |calls|
    requires Verdicts(c, calls)[i].Accepted? && Verdicts(c, calls)[j].Accepted? && calls[i].request == calls[j].request
    ensures calls[i].request.timestamp.Some?
    ensures calls[i].now + c.maxSkew - lag <= calls[i].request.timestamp.value * SECOND <= calls[i].now + c.maxSkew
    ensures lag == 0 ==> calls[i].request.timestamp.value * SECOND == calls[i].now + c.maxSkew
                         && calls[j].now == calls[i].now + 2 * c.maxSkew
  {
    AcceptancesAreApart(c, calls, lag, i, j);
    AcceptedIsInWindow(c, calls, i);
    AcceptedIsInWindow(c, calls, j);
  }

  function SignedRequest(timestamp: int, nonce: Nonce): Request {
    Request(true, true, Some(timestamp), Some(nonce), Some(true))
  }

  lemma SignedIsAccepted(c: Cache, timestamp: int, nonce: Nonce, now: int)
    requires InWindow(c, timestamp, now) && nonce !in Live(c.nonces, now) && |Live(c.nonces, now)| < c.maxNonces
    ensures Verify(c, SignedRequest(timestamp, nonce), now)
         == (c.(nonces := Live(c.nonces, now)[nonce := now + 2 * c.maxSkew]), Accepted)
  {
  }

  lemma AcceptedFirst(c: Cache, first: Call, rest: seq<Call>)
    requires Verify(c, first.request, first.now).1.Accepted?
    ensures Verdicts(c, [first] + rest) == [Accepted] + Verdicts(Verify(c, first.request, first.now).0, rest)
  {
    assert ([first] + rest)[1..] == rest;
  }

  /** The edge is real: for every window, a request stamped exactly at its upper edge is accepted twice. */
  lemma EdgeReplayIsAccepted(maxSkew: int, maxNonces: nat, timestamp: int, nonce: Nonce)
    requires maxSkew > 0 && maxNonces >= 1
    ensures var c, r := Cache(maxSkew, maxNonces, map[]), SignedRequest(timestamp, nonce);
            var t := timestamp * SECOND - maxSkew;
      Verdicts(c, [Call(r, t), Call(r, t + 2 * maxSkew)]) == [Accepted, Accepted]
  {
    var c, r, t := Cache(maxSkew, maxNonces, map[]), SignedRequest(timestamp, nonce), timestamp * SECOND - maxSkew;
    var calls := [Call(r, t), Call(r, t + 2 * maxSkew)];
    assert Live(c.nonces, t) == map[];
    var c1 := Verify(c, r, t).0;
    assert c1.nonces == map[nonce := t + 2 * maxSkew];
    assert Live(c1.nonces, t + 2 * maxSkew) == map[];
    assert calls[1..] == [calls[1]];
    assert Verdicts(c1, [calls[1]]) == [Accepted];
  }

  function Remember(c: Cache, live: map<Nonce, int>, nonce: Nonce, now: int): Cache {
    c.(nonces := live[nonce := now + 2 * c.maxSkew])
  }

  /** At the instant a nonce expires, only what was live before it can be left. */
  lemma OnlyOldOnesRemain(live: map<Nonce, int>, nonce: Nonce, until: int)
    requires nonce !in live
    ensures Live(live[nonce := until], until).Keys <= live.Keys && |Live(live[nonce := until], until)| <= |live|
  {
    SubmapSize(Live(live[nonce := until], until), live);
  }

  /** At the instant the first nonce expires, another request is accepted and the first nonce is forgotten. */
  lemma PrunedThenRemembered(c: Cache, live: map<Nonce, int>, nonce: Nonce, until: int, other: int, otherNonce: Nonce)
    returns (c': Cache, rest: map<Nonce, int>)
    requires c.nonces == live[nonce := until] && nonce !in live && otherNonce !in live && otherNonce != nonce
    requires |live| < c.maxNonces && InWindow(c, other, until)
    ensures Verify(c, SignedRequest(other, otherNonce), until) == (c', Accepted)
    ensures c' == Remember(c, rest, otherNonce, until) && rest.Keys <= live.Keys && |rest| <= |live|
  {
    rest := Live(c.nonces, until);
    OnlyOldOnesRemain(live, nonce, until);
    c' := Remember(c, rest, otherNonce, until);
    SignedIsAccepted(c, other, otherNonce, until);
  }

  lemma LateIsAccepted(c: Cache, rest: map<Nonce, int>, otherNonce: Nonce, until: int, timestamp: int, nonce: Nonce,
                       now: int)
    requires c.nonces == rest[otherNonce := until] && |rest| + 2 <= c.maxNonces
    requires nonce !in rest && nonce != otherNonce && InWindow(c, timestamp, now)
    ensures Verify(c, SignedRequest(timestamp, nonce), now).1 == Accepted
  {
    InsertedSize(rest, otherNonce, until);
    SubmapSize(Live(c.nonces, now), c.nonces);
    SignedIsAccepted(c, timestamp, nonce, now);
  }

  lemma LaggedSteps(c: Cache, timestamp: int, nonce: Nonce, t: int, other: int, otherNonce: Nonce)
    returns (c1: Cache, c2: Cache)
    requires c.maxSkew > 0 && |Live(c.nonces, t)| + 2 <= c.maxNonces
    requires nonce !in Live(c.nonces, t) && otherNonce !in Live(c.nonces, t) && otherNonce != nonce
    requires InWindow(c, timestamp, t) && InWindow(c, other, t + 2 * c.maxSkew)
    ensures Verify(c, SignedRequest(timestamp, nonce), t) == (c1, Accepted)
    ensures Verify(c1, SignedRequest(other, otherNonce), t + 2 * c.maxSkew) == (c2, Accepted)
    ensures Verify(c2, SignedRequest(timestamp, nonce), timestamp * SECOND + c.maxSkew).1 == Accepted
  {
    var live := Live(c.nonces, t);
    c1 := Remember(c, live, nonce, t);
    SignedIsAccepted(c, timestamp, nonce, t);
    var rest;
    c2, rest := PrunedThenRemembered(c1, live, nonce, t + 2 * c.maxSkew, other, otherNonce);
    LateIsAccepted(c2, rest, otherNonce, t + 4 * c.maxSkew, timestamp, nonce, timestamp * SECOND + c.maxSkew);
  }

  lemma ThreeAccepted(c: Cache, c1: Cache, c2: Cache, x: Call, y: Call, z: Call)
    requires Verify(c, x.request, x.now) == (c1, Accepted) && Verify(c1, y.request, y.now) == (c2, Accepted)
    requires Verify(c2, z.request, z.now).1 == Accepted
    ensures Verdicts(c, [x, y, z]) == [Accepted, Accepted, Accepted]
  {
    assert [x, y, z] == [x] + [y, z] && [y, z] == [y] + [z] && [z] == [z] + [];
    assert Verdicts(c2, [z]) == [Accepted] by { AcceptedFirst(c2, z, []); }
    assert Verdicts(c1, [y, z]) == [Accepted, Accepted] by { AcceptedFirst(c1, y, [z]); }
    AcceptedFirst(c, x, [y, z]);
  }

  /**
   So is the wider edge under lag: with room for two more nonces, a request
   within the lag of the upper edge is accepted again, by a call still holding
   an older reading, right after a call with another request and a later
   reading has pruned the cache.
   */
  lemma LaggedReplayIsAccepted(c: Cache, timestamp: int, nonce: Nonce, t: int, lag: nat, other: int, otherNonce: Nonce)
    returns (x: Call, y: Call, z: Call)
    requires c.maxSkew > 0 && |Live(c.nonces, t)| + 2 <= c.maxNonces
    requires nonce !in Live(c.nonces, t) && otherNonce !in Live(c.nonces, t) && otherNonce != nonce
    requires t + c.maxSkew - lag <= timestamp * SECOND && InWindow(c, timestamp, t)
    requires InWindow(c, other, t + 2 * c.maxSkew)
    ensures x == Call(SignedRequest(timestamp, nonce), t) && z.request == x.request
    ensures Lagging([x, y, z], lag) && Verdicts(c, [x, y, z]) == [Accepted, Accepted, Accepted]
  {
    x := Call(SignedRequest(timestamp, nonce), t);
    y := Call(SignedRequest(other, otherNonce), t + 2 * c.maxSkew);
    z := Call(SignedRequest(timestamp, nonce), timestamp * SECOND + c.maxSkew);
    var c1, c2 := LaggedSteps(c, timestamp, nonce, t, other, otherNonce);
    ThreeAccepted(c, c1, c2, x, y, z);
  }

  // ---- The verifier object ----

  class Verifier {
    const maxSkew: int
    const maxNonces: nat
    var nonces: map<Nonce, int>

    function View(): Cache
      reads this
    {
      Cache(maxSkew, maxNonces, nonces)
    }

    constructor (maxSkew: int, maxNonces: nat)
      ensures View() == Cache(maxSkew, maxNonces, map[])
    {
      this.maxSkew, this.maxNonces, nonces := maxSkew, maxNonces, map[];
    }

    method Check(r: Request, now: int) returns (verdict: Verdict)
      modifies this
      ensures (View(), verdict) == Verify(old(View()), r, now)
    {
      if !r.protocolOk {
        return InvalidProtocol;
      }
      if !r.keyOk {
        return InvalidKeyId;
      }
      if r.timestamp.None? {
        return InvalidTimestamp;
      }
      var requestTime := r.timestamp.value * SECOND;
      if requestTime < now - maxSkew || requestTime > now + maxSkew {
        return Stale;
      }
      if r.nonce.None? {
        return InvalidNonce;
      }
      if r.signature != Some(true) {
        return InvalidSignature;
      }
      var todo := nonces.Keys;
      while todo != {}
        invariant todo <= old(nonces).Keys
        invariant forall n :: n in nonces <==> n in old(nonces) && (n in todo || old(nonces)[n] > now)
        invariant forall n :: n in nonces ==> nonces[n] == old(nonces)[n]
        decreases todo
      {
        var cached :| cached in todo;
        if nonces[cached] <= now {
          nonces := nonces - {cached};
        }
        todo := todo - {cached};
      }
      assert nonces == Live(old(nonces), now);
      if r.nonce.value in nonces {
        return Replayed;
      }
      if |nonces| >= maxNonces {
        return CacheFull;
      }
      nonces := nonces[r.nonce.value := now + 2 * maxSkew];
      return Accepted;
    }
  }
}
