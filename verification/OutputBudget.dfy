/**
 The byte budget that stdout and stderr of a command share. A write takes
 three steps: it debits the budget under the budget's lock, appends what it
 was allowed under the buffer's lock, and raises the exceeded signal if it was
 cut short. Writes on one stream follow each other; the two streams interleave
 at every step.
 */
module OutputBudget {
  type Byte = bv8

  function Min(a: nat, b: nat): nat {
    if a < b then a else b
  }

  class Budget {
    var remaining: nat
    var exceeded: bool

    constructor (max: nat)
      ensures remaining == max && !exceeded
    {
      remaining, exceeded := max, false;
    }

    /** The lock region of the budget. */
    method Debit(n: nat) returns (allowed: nat)
      modifies this`remaining
      ensures allowed == Min(n, old(remaining)) && remaining == old(remaining) - allowed
    {
      allowed := n;
      if allowed > remaining {
        allowed := remaining;
      }
      remaining := remaining - allowed;
    }

    /** Raises the signal; raising it again changes nothing. */
    method Raise()
      modifies this`exceeded
      ensures exceeded
    {
      exceeded := true;
    }
  }

  class BoundedBuffer {
    var buf: seq<Byte>
    const budget: Budget

    constructor (budget: Budget)
      ensures this.budget == budget && buf == []
    {
      this.budget, buf := budget, [];
    }

    /** The lock region of the buffer. */
    method Append(p: seq<Byte>)
      modifies this`buf
      ensures buf == old(buf) + p
    {
      if |p| > 0 {
        buf := buf + p;
      } else {
        assert buf + p == buf;
      }
    }

    /** The three regions in order, with no other write between them. */
    method Write(p: seq<Byte>) returns (n: nat, ok: bool)
      modifies this`buf, budget
      ensures n == Min(|p|, old(budget.remaining)) && ok == (n == |p|)
      ensures buf == old(buf) + p[..n] && budget.remaining == old(budget.remaining) - n
      ensures budget.exceeded == (old(budget.exceeded) || n < |p|)
    {
      var allowed := budget.Debit(|p|);
      Append(p[..allowed]);
      if allowed < |p| {
        budget.Raise();
        return allowed, false;
      }
      return |p|, true;
    }
  }

  // ---- Interleaved writes ----

  datatype Stream = Stdout | Stderr

  /** Where the writer of a stream stands. */
  datatype Progress = Idle | Debited(allowed: seq<Byte>, overflow: bool) | Appended(overflow: bool)

  /** `sent` is everything ever offered on the stream, `kept` what its buffer holds. */
  datatype Writer = Writer(sent: seq<Byte>, kept: seq<Byte>, progress: Progress)

  datatype System = System(max: nat, remaining: nat, exceeded: bool, out: Writer, err: Writer)

  datatype Op = Debit(stream: Stream, p: seq<Byte>) | Append(stream: Stream) | Signal(stream: Stream)

  function Get(s: System, stream: Stream): Writer {
    if stream.Stdout? then s.out else s.err
  }

  function Set(s: System, stream: Stream, w: Writer): System {
    if stream.Stdout? then s.(out := w) else s.(err := w)
  }

  predicate Enabled(s: System, op: Op) {
    match op
    case Debit(stream, _) => Get(s, stream).progress.Idle?
    case Append(stream) => Get(s, stream).progress.Debited?
    case Signal(stream) => Get(s, stream).progress.Appended?
  }

  function Apply(s: System, op: Op): System {
    if !Enabled(s, op) then s
    else
      var w := Get(s, op.stream);
      match op
      case Debit(stream, p) =>
        var allowed := Min(|p|, s.remaining);
        Set(s.(remaining := s.remaining - allowed), stream,
            w.(sent := w.sent + p, progress := Debited(p[..allowed], allowed < |p|)))
      case Append(stream) =>
        Set(s, stream, w.(kept := w.kept + w.progress.allowed, progress := Appended(w.progress.overflow)))
      case Signal(stream) =>
        Set(s.(exceeded := s.exceeded || w.progress.overflow), stream, w.(progress := Idle))
  }

  function Run(s: System, ops: seq<Op>): System
    decreases |ops|
  {
    if ops == [] then s else Run(Apply(s, ops[0]), ops[1..])
  }

  function Init(max: nat): System {
    System(max, max, false, Writer([], [], Idle), Writer([], [], Idle))
  }

  /** Debited but not yet appended. */
  function InFlight(w: Writer): seq<Byte> {
    if w.progress.Debited? then w.progress.allowed else []
  }

  /** The write in progress was cut short and has not signalled yet. */
  predicate CutShort(w: Writer) {
    (w.progress.Debited? || w.progress.Appended?) && w.progress.overflow
  }

  function Offered(s: System): nat {
    |s.out.sent| + |s.err.sent|
  }

  predicate WriterOk(s: System, w: Writer) {
    w.kept + InFlight(w) <= w.sent && (Offered(s) <= s.max ==> w.kept + InFlight(w) == w.sent && !CutShort(w))
  }

  predicate Inv(s: System) {
    && |s.out.kept| + |InFlight(s.out)| + |s.err.kept| + |InFlight(s.err)| + s.remaining == s.max
    && WriterOk(s, s.out) && WriterOk(s, s.err)
    && (s.exceeded || CutShort(s.out) || CutShort(s.err) <==> Offered(s) > s.max)
    && (Offered(s) > s.max ==> s.remaining == 0)
  }

  lemma DebitKeepsInv(s: System, stream: Stream, p: seq<Byte>)
    requires Inv(s) && Enabled(s, Debit(stream, p))
    ensures Inv(Apply(s, Debit(stream, p)))
  {
    var t := Apply(s, Debit(stream, p));
    var w, allowed := Get(s, stream), Min(|p|, s.remaining);
    assert w.kept + InFlight(w) == w.kept;
    assert allowed == |p| ==> p[..allowed] == p;
    assert w.kept == w.sent ==> w.kept + p[..allowed] <= w.sent + p;
    assert allowed == 0 ==> w.kept + p[..allowed] == w.kept && w.kept <= w.sent + p;
  }

  lemma AppendKeepsInv(s: System, stream: Stream)
    requires Inv(s) && Enabled(s, Append(stream))
    ensures Inv(Apply(s, Append(stream)))
  {
    var w := Get(s, stream);
    assert (w.kept + w.progress.allowed) + [] == w.kept + w.progress.allowed;
  }

  lemma InvKept(s: System, op: Op)
    requires Inv(s)
    ensures Inv(Apply(s, op)) && Apply(s, op).max == s.max
  {
    if Enabled(s, op) {
      match op
      case Debit(stream, p) => DebitKeepsInv(s, stream, p);
      case Append(stream) => AppendKeepsInv(s, stream);
      case Signal(stream) =>
    }
  }

  lemma {:induction false} InvAlways(s: System, ops: seq<Op>)
    requires Inv(s)
    ensures Inv(Run(s, ops)) && Run(s, ops).max == s.max
    decreases |ops|
  {
    if ops != [] {
      InvKept(s, ops[0]);
      InvAlways(Apply(s, ops[0]), ops[1..]);
    }
  }

  /**
   For every interleaving of writes: bytes kept, bytes debited but not yet
   appended and the remaining budget add up to the limit; what is kept of each
   stream is a prefix of what was sent on it; and the signal is raised, or a
   writer is about to raise it, exactly when more was offered than the limit.
   */
  lemma BudgetIsConserved(max: nat, ops: seq<Op>)
    ensures var s := Run(Init(max), ops);
      && |s.out.kept| + |s.err.kept| + |InFlight(s.out)| + |InFlight(s.err)| + s.remaining == max
      && s.out.kept <= s.out.sent && s.err.kept <= s.err.sent
      && (s.exceeded || CutShort(s.out) || CutShort(s.err) <==> Offered(s) > max)
  {
    InvAlways(Init(max), ops);
    var s := Run(Init(max), ops);
    assert s.out.kept <= s.out.kept + InFlight(s.out) && s.err.kept <= s.err.kept + InFlight(s.err);
  }

  /**
   When no write is in progress, everything was kept up to the limit, and the
   signal tells whether anything was lost.
   */
  lemma QuietBudget(max: nat, ops: seq<Op>)
    requires var s := Run(Init(max), ops); s.out.progress.Idle? && s.err.progress.Idle?
    ensures var s := Run(Init(max), ops);
      && |s.out.kept| + |s.err.kept| == Min(Offered(s), max)
      && (s.exceeded <==> Offered(s) > max)
      && (!s.exceeded ==> s.out.kept == s.out.sent && s.err.kept == s.err.sent)
  {
    InvAlways(Init(max), ops);
    var s := Run(Init(max), ops);
    assert s.out.kept + InFlight(s.out) == s.out.kept && s.err.kept + InFlight(s.err) == s.err.kept;
  }

  /** A write that nobody interrupts goes through the three steps and ends as `BoundedBuffer.Write` does. */
  lemma WriteIsThreeSteps(s: System, stream: Stream, p: seq<Byte>)
    requires Get(s, stream).progress.Idle?
    ensures var t, n := Run(s, [Debit(stream, p), Append(stream), Signal(stream)]), Min(|p|, s.remaining);
            var w := Get(s, stream);
            t == Set(s.(remaining := s.remaining - n, exceeded := s.exceeded || n < |p|), stream,
                     Writer(w.sent + p, w.kept + p[..n], Idle))
  {
    var debit, append, signal := Debit(stream, p), Append(stream), Signal(stream);
    assert [debit, append, signal][1..] == [append, signal] && [append, signal][1..] == [signal] && [signal][1..] == [];
    assert Run(s, [debit, append, signal]) == Run(Apply(s, debit), [append, signal]);
    assert Run(Apply(s, debit), [append, signal]) == Run(Apply(Apply(s, debit), append), [signal]);
    assert Run(Apply(Apply(s, debit), append), [signal]) == Run(Apply(Apply(Apply(s, debit), append), signal), []);
  }
}
