/**
 The token-bucket byte limiter of the gateway and the Connector. Tokens and
 times are real numbers. The bucket keeps two numbers; the specification
 below speaks only of the calls that were admitted and of time windows.
 */
module TokenBucket {

  datatype Bucket = Bucket(rate: real, burst: real, tokens: real, last: real)

  function New(rate: real, burst: real, now: real): Bucket {
    Bucket(rate, burst, burst, now)
  }

  function Refill(b: Bucket, now: real): Bucket {
    var full := b.tokens + (now - b.last) * b.rate;
    b.(tokens := if full > b.burst then b.burst else full, last := now)
  }

  function Allow(b: Bucket, amount: int, now: real): (Bucket, bool) {
    if amount < 0 then (b, false)
    else
      var r := Refill(b, now);
      if amount as real > r.tokens then (r, false)
      else (r.(tokens := r.tokens - amount as real), true)
  }

  // ---- The specification: windows over admitted calls ----

  datatype Admission = Admission(at: real, amount: real)

  /** Bytes admitted at or after `from`. */
  function AdmittedSince(log: seq<Admission>, from: real): real {
    if log == [] then 0.0
    else AdmittedSince(log[..|log| - 1], from) +
         (if from <= log[|log| - 1].at then log[|log| - 1].amount else 0.0)
  }

  /** Bytes admitted at or after `from` and no later than `to`. */
  function AdmittedWithin(log: seq<Admission>, from: real, to: real): real {
    if log == [] then 0.0
    else AdmittedWithin(log[..|log| - 1], from, to) +
         (if from <= log[|log| - 1].at <= to then log[|log| - 1].amount else 0.0)
  }

  /** What the window that starts at `from` and ends at `now` still leaves. */
  function Room(rate: real, burst: real, log: seq<Admission>, from: real, now: real): real {
    burst + rate * (now - from) - AdmittedSince(log, from)
  }

  /** No window that ends now would exceed burst plus rate times its length if `amount` were admitted. */
  ghost predicate Fits(rate: real, burst: real, log: seq<Admission>, now: real, amount: real) {
    forall from: real :: from <= now ==> amount <= Room(rate, burst, log, from, now)
  }

  /** `tokens` is the least room over all windows that end at `now`, and some window attains it. */
  ghost predicate IsLeastRoom(rate: real, burst: real, log: seq<Admission>, now: real, tokens: real) {
    && (forall from: real :: from <= now ==> tokens <= Room(rate, burst, log, from, now))
    && (exists from: real :: from <= now && tokens == Room(rate, burst, log, from, now))
  }

  ghost predicate Exact(b: Bucket, log: seq<Admission>) {
    && b.rate >= 0.0 && b.burst >= 0.0 && b.tokens <= b.burst
    && (forall i :: 0 <= i < |log| ==> log[i].at <= b.last && log[i].amount >= 0.0)
    && IsLeastRoom(b.rate, b.burst, log, b.last, b.tokens)
  }

  lemma MonotoneProduct(rate: real, x: real, y: real)
    requires rate >= 0.0 && x <= y
    ensures rate * x <= rate * y
  {
    assert rate * (y - x) >= 0.0;
    assert rate * (y - x) == rate * y - rate * x;
  }

  lemma NonNegativeProduct(rate: real, x: real)
    requires rate >= 0.0 && x >= 0.0
    ensures rate * x >= 0.0
  {
  }

  lemma {:induction false} NothingAfterLast(log: seq<Admission>, last: real, from: real)
    requires last < from && forall i :: 0 <= i < |log| ==> log[i].at <= last
    ensures AdmittedSince(log, from) == 0.0
  {
    if log != [] {
      NothingAfterLast(log[..|log| - 1], last, from);
    }
  }

  lemma RoomGrows(rate: real, burst: real, log: seq<Admission>, from: real, last: real, now: real)
    ensures Room(rate, burst, log, from, now) == Room(rate, burst, log, from, last) + (now - last) * rate
  {
    assert rate * (now - from) == rate * (last - from) + rate * (now - last);
  }

  lemma RoomWidens(rate: real, burst: real, log: seq<Admission>, from: real, last: real, now: real)
    requires rate >= 0.0 && last <= now
    ensures Room(rate, burst, log, from, last) <= Room(rate, burst, log, from, now)
  {
    MonotoneProduct(rate, last - from, now - from);
  }

  lemma FreshWindow(rate: real, burst: real, log: seq<Admission>, last: real, from: real, now: real)
    requires rate >= 0.0 && last < from <= now && forall i :: 0 <= i < |log| ==> log[i].at <= last
    ensures Room(rate, burst, log, from, now) >= burst
  {
    NothingAfterLast(log, last, from);
    NonNegativeProduct(rate, now - from);
  }

  /** A refilled bucket holds no more than any window leaves. */
  lemma RefillFits(b: Bucket, log: seq<Admission>, from: real, now: real)
    requires b.rate >= 0.0 && b.last <= now && from <= now && forall i :: 0 <= i < |log| ==> log[i].at <= b.last
    requires from <= b.last ==> b.tokens <= Room(b.rate, b.burst, log, from, b.last)
    ensures Refill(b, now).tokens <= Room(b.rate, b.burst, log, from, now)
  {
    var gained := (now - b.last) * b.rate;
    assert Refill(b, now).tokens <= b.tokens + gained && Refill(b, now).tokens <= b.burst;
    if from <= b.last {
      RoomGrows(b.rate, b.burst, log, from, b.last, now);
      assert Room(b.rate, b.burst, log, from, now) == Room(b.rate, b.burst, log, from, b.last) + gained;
    } else {
      FreshWindow(b.rate, b.burst, log, b.last, from, now);
    }
  }

  /** The window that leaves least is the old one, or after a full refill the one that starts now. */
  lemma RefillAttains(b: Bucket, log: seq<Admission>, best: real, now: real) returns (next: real)
    requires b.rate >= 0.0 && best <= b.last <= now && b.tokens <= b.burst
    requires forall i :: 0 <= i < |log| ==> log[i].at <= b.last
    requires b.tokens == Room(b.rate, b.burst, log, best, b.last)
    ensures next <= now && Refill(b, now).tokens == Room(b.rate, b.burst, log, next, now)
  {
    RoomGrows(b.rate, b.burst, log, best, b.last, now);
    var gained := (now - b.last) * b.rate;
    if b.tokens + gained > b.burst {
      assert b.last < now;
      NothingAfterLast(log, b.last, now);
      next := now;
    } else {
      next := best;
    }
  }

  lemma RefillKeepsExact(b: Bucket, log: seq<Admission>, now: real)
    requires Exact(b, log) && b.last <= now
    ensures Exact(Refill(b, now), log)
  {
    forall from: real | from <= now ensures Refill(b, now).tokens <= Room(b.rate, b.burst, log, from, now) {
      RefillFits(b, log, from, now);
    }
    var best: real :| best <= b.last && b.tokens == Room(b.rate, b.burst, log, best, b.last);
    var next := RefillAttains(b, log, best, now);
  }

  lemma AdmitKeepsExact(b: Bucket, log: seq<Admission>, amount: real)
    requires Exact(b, log) && 0.0 <= amount <= b.tokens
    ensures Exact(b.(tokens := b.tokens - amount), log + [Admission(b.last, amount)])
  {
    var log' := log + [Admission(b.last, amount)];
    assert log'[..|log'| - 1] == log;
    forall from: real | from <= b.last
      ensures Room(b.rate, b.burst, log', from, b.last) == Room(b.rate, b.burst, log, from, b.last) - amount
    {
    }
    var best: real :| best <= b.last && b.tokens == Room(b.rate, b.burst, log, best, b.last);
    assert b.tokens - amount == Room(b.rate, b.burst, log', best, b.last);
  }

  /** The least room decides: an amount is at most the token count exactly when it fits every window. */
  lemma LeastRoomDecides(rate: real, burst: real, log: seq<Admission>, now: real, tokens: real, amount: real)
    requires IsLeastRoom(rate, burst, log, now, tokens)
    ensures amount <= tokens <==> Fits(rate, burst, log, now, amount)
  {
    var best: real :| best <= now && tokens == Room(rate, burst, log, best, now);
  }

  // ---- Runs ----

  datatype Call = Call(amount: int, at: real)

  ghost predicate Ordered(calls: seq<Call>, from: real) {
    calls == [] || (from <= calls[0].at && Ordered(calls[1..], calls[0].at))
  }

  /** The decisions of the implementation, call by call. */
  function Decisions(b: Bucket, calls: seq<Call>): seq<bool>
    decreases |calls|
  {
    if calls == [] then []
    else
      var (b', ok) := Allow(b, calls[0].amount, calls[0].at);
      [ok] + Decisions(b', calls[1..])
  }

  /** The reference: admit exactly what fits every window ending now, and log what was admitted. */
  ghost function Reference(rate: real, burst: real, log: seq<Admission>, calls: seq<Call>): seq<bool>
    decreases |calls|
  {
    if calls == [] then []
    else
      var ok := calls[0].amount >= 0 && Fits(rate, burst, log, calls[0].at, calls[0].amount as real);
      var log' := if ok then log + [Admission(calls[0].at, calls[0].amount as real)] else log;
      [ok] + Reference(rate, burst, log', calls[1..])
  }

  /** One call: the decision is the window rule, and the bucket stays exact for the extended log. */
  lemma AllowIsExact(b: Bucket, log: seq<Admission>, amount: int, now: real)
    requires Exact(b, log) && b.last <= now
    ensures var (b', ok) := Allow(b, amount, now);
      && ok == (amount >= 0 && Fits(b.rate, b.burst, log, now, amount as real))
      && Exact(b', if ok then log + [Admission(now, amount as real)] else log)
      && b'.rate == b.rate && b'.burst == b.burst && b'.last <= now
  {
    if amount >= 0 {
      var r := Refill(b, now);
      RefillKeepsExact(b, log, now);
      LeastRoomDecides(b.rate, b.burst, log, now, r.tokens, amount as real);
      if amount as real <= r.tokens {
        AdmitKeepsExact(r, log, amount as real);
      }
    }
  }

  lemma {:induction false} ExactFrom(b: Bucket, log: seq<Admission>, calls: seq<Call>, from: real)
    requires Exact(b, log) && b.last <= from && Ordered(calls, from)
    ensures Decisions(b, calls) == Reference(b.rate, b.burst, log, calls)
    decreases |calls|
  {
    if calls != [] {
      var c := calls[0];
      AllowIsExact(b, log, c.amount, c.at);
      var (b', ok) := Allow(b, c.amount, c.at);
      ExactFrom(b', if ok then log + [Admission(c.at, c.amount as real)] else log, calls[1..], c.at);
    }
  }

  lemma NewIsExact(rate: real, burst: real, start: real)
    requires rate >= 0.0 && burst >= 0.0
    ensures Exact(New(rate, burst, start), [])
  {
    forall from: real | from <= start ensures burst <= Room(rate, burst, [], from, start) {
      NonNegativeProduct(rate, start - from);
    }
    assert burst == Room(rate, burst, [], start, start);
  }

  /** For every run of calls at non-decreasing times the limiter takes exactly the decisions of the window rule. */
  lemma LimiterIsExact(rate: real, burst: real, start: real, calls: seq<Call>)
    requires rate >= 0.0 && burst >= 0.0 && Ordered(calls, start)
    ensures Decisions(New(rate, burst, start), calls) == Reference(rate, burst, [], calls)
  {
    NewIsExact(rate, burst, start);
    ExactFrom(New(rate, burst, start), [], calls, start);
  }

  /** What a run admits, in order. */
  function Admitted(b: Bucket, calls: seq<Call>): seq<Admission>
    decreases |calls|
  {
    if calls == [] then []
    else
      var (b', ok) := Allow(b, calls[0].amount, calls[0].at);
      (if ok then [Admission(calls[0].at, calls[0].amount as real)] else []) + Admitted(b', calls[1..])
  }

  /** Every window of the log, wherever it starts and ends, holds at most burst plus rate times its length. */
  ghost predicate WindowsBounded(rate: real, burst: real, log: seq<Admission>) {
    forall from: real, to: real :: from <= to ==> AdmittedWithin(log, from, to) <= burst + rate * (to - from)
  }

  lemma {:induction false} WithinIsSince(log: seq<Admission>, from: real, to: real)
    requires forall i :: 0 <= i < |log| ==> log[i].at <= to
    ensures AdmittedWithin(log, from, to) == AdmittedSince(log, from)
  {
    if log != [] {
      WithinIsSince(log[..|log| - 1], from, to);
    }
  }

  lemma WindowAcross(rate: real, burst: real, log: seq<Admission>, amount: real, from: real, last: real, to: real)
    requires rate >= 0.0 && last <= to && forall i :: 0 <= i < |log| ==> log[i].at <= last
    requires amount <= Room(rate, burst, log, from, last)
    ensures AdmittedWithin(log, from, to) + amount <= burst + rate * (to - from)
  {
    WithinIsSince(log, from, to);
    RoomWidens(rate, burst, log, from, last, to);
  }

  lemma WindowsStayBounded(b: Bucket, log: seq<Admission>, amount: real)
    requires Exact(b, log) && 0.0 <= amount <= b.tokens && WindowsBounded(b.rate, b.burst, log)
    ensures WindowsBounded(b.rate, b.burst, log + [Admission(b.last, amount)])
  {
    var log' := log + [Admission(b.last, amount)];
    assert log'[..|log'| - 1] == log;
    forall from: real, to: real | from <= to ensures AdmittedWithin(log', from, to) <= b.burst + b.rate * (to - from) {
      if from <= b.last <= to {
        assert b.tokens <= Room(b.rate, b.burst, log, from, b.last);
        WindowAcross(b.rate, b.burst, log, amount, from, b.last, to);
      }
    }
  }

  lemma AllowKeepsBounded(b: Bucket, log: seq<Admission>, amount: int, now: real)
    requires Exact(b, log) && b.last <= now && WindowsBounded(b.rate, b.burst, log) && Allow(b, amount, now).1
    ensures WindowsBounded(b.rate, b.burst, log + [Admission(now, amount as real)])
  {
    RefillKeepsExact(b, log, now);
    WindowsStayBounded(Refill(b, now), log, amount as real);
  }

  lemma {:induction false} BoundedFrom(b: Bucket, log: seq<Admission>, calls: seq<Call>, from: real)
    requires Exact(b, log) && b.last <= from && Ordered(calls, from) && WindowsBounded(b.rate, b.burst, log)
    ensures WindowsBounded(b.rate, b.burst, log + Admitted(b, calls))
    decreases |calls|
  {
    if calls == [] {
      assert log + Admitted(b, calls) == log;
    } else {
      var c := calls[0];
      var (b', ok) := Allow(b, c.amount, c.at);
      var one := if ok then [Admission(c.at, c.amount as real)] else [];
      AllowIsExact(b, log, c.amount, c.at);
      if ok {
        AllowKeepsBounded(b, log, c.amount, c.at);
      } else {
        assert log + one == log;
      }
      BoundedFrom(b', log + one, calls[1..], c.at);
      assert log + Admitted(b, calls) == log + one + Admitted(b', calls[1..]);
    }
  }

  /**
   Both services set the burst to twice the rate. In every run, the bytes
   admitted in any window of length T are then at most rate times (T + 2).
   */
  lemma SessionThroughput(rate: real, start: real, calls: seq<Call>, from: real, to: real)
    requires rate >= 0.0 && Ordered(calls, start) && from <= to
    ensures AdmittedWithin(Admitted(New(rate, 2.0 * rate, start), calls), from, to) <= rate * (to - from + 2.0)
  {
    var b := New(rate, 2.0 * rate, start);
    NewIsExact(rate, 2.0 * rate, start);
    forall f: real, t: real | f <= t ensures AdmittedWithin([], f, t) <= 2.0 * rate + rate * (t - f) {
      NonNegativeProduct(rate, t - f);
    }
    BoundedFrom(b, [], calls, start);
    assert [] + Admitted(b, calls) == Admitted(b, calls);
    assert AdmittedWithin(Admitted(b, calls), from, to) <= 2.0 * rate + rate * (to - from);
  }

  /** The limiter object: two numbers under a lock, with the log of what it admitted kept beside it. */
  class RateLimiter {
    const rate: real
    const burst: real
    var tokens: real
    var last: real
    ghost var log: seq<Admission>

    function View(): Bucket
      reads this
    {
      Bucket(rate, burst, tokens, last)
    }

    ghost predicate Valid()
      reads this
    {
      Exact(View(), log)
    }

    constructor (rate: int, burst: int, now: real)
      requires 0 <= rate && 0 <= burst
      ensures Valid() && View() == New(rate as real, burst as real, now) && log == []
    {
      this.rate, this.burst, tokens, last := rate as real, burst as real, burst as real, now;
      log := [];
      new;
      NewIsExact(rate as real, burst as real, now);
    }

    method Take(amount: int, now: real) returns (ok: bool)
      modifies this`tokens, this`last
      ensures (View(), ok) == Allow(old(View()), amount, now)
    {
      ghost var refilled := Refill(View(), now);
      if amount < 0 {
        return false;
      }
      tokens := tokens + (now - last) * rate;
      if tokens > burst {
        tokens := burst;
      }
      last := now;
      assert View() == refilled;
      if amount as real > tokens {
        return false;
      }
      tokens := tokens - amount as real;
      assert View() == refilled.(tokens := refilled.tokens - amount as real);
      return true;
    }

    /** Admits an amount exactly when no window that ends now would become too full. */
    method Permit(amount: int, now: real) returns (ok: bool)
      requires Valid() && last <= now
      modifies this
      ensures Valid() && (View(), ok) == Allow(old(View()), amount, now)
      ensures ok == (amount >= 0 && Fits(rate, burst, old(log), now, amount as real))
      ensures log == if ok then old(log) + [Admission(now, amount as real)] else old(log)
    {
      AllowIsExact(View(), log, amount, now);
      ok := Take(amount, now);
      if ok {
        log := log + [Admission(now, amount as real)];
      }
    }
  }
}
