/**
 The PostgreSQL form of the deployment update: read the row, check the
 transition, then one UPDATE guarded by the expected state. Any number of
 callers interleave between their read and their write. Columns are nullable
 where the schema says so, and the schema's CHECK constraints can refuse a
 write. Every finished call is shown to be one atomic step of the in-memory
 store, taken while the call was running, in front of a storage that refuses
 exactly the records whose identifiers the schema does not admit. Times count
 microseconds, which is what the time columns keep.
 */
module PostgresDeployments {
  import opened Common
  import opened Deployments

  type Text = Option<string>

  datatype Row = Row(
    id: string,
    workerId: string,
    versionId: string,
    previous: Text,
    kind: Kind,
    state: State,
    allowed: bool,
    providerVersion: Text,
    providerDeployment: Text,
    providerState: Text,
    errorCode: Text,
    startedAt: Option<int>,
    finishedAt: Option<int>,
    createdAt: int,
    createdBy: string)

  function NullString(s: string): Text {
    if s == "" then None else Some(s)
  }

  function Coalesce(t: Text): string {
    if t.None? then "" else t.value
  }

  /** The record a SELECT hands back. */
  function FromRow(r: Row): Deployment {
    Deployment(r.id, r.workerId, r.versionId, Coalesce(r.previous), r.kind, r.state, r.allowed,
               Coalesce(r.providerVersion), Coalesce(r.providerDeployment), Coalesce(r.providerState),
               Coalesce(r.errorCode), r.startedAt, r.finishedAt, r.createdAt, r.createdBy)
  }

  /** The columns the UPDATE sets; it leaves the others as they are. */
  function SetColumns(r: Row, d: Deployment): Row {
    r.(state := d.state, allowed := d.allowed, providerVersion := NullString(d.providerVersionId),
       providerDeployment := NullString(d.providerDeploymentId), providerState := NullString(d.providerState),
       errorCode := NullString(d.errorCode), startedAt := d.startedAt, finishedAt := d.finishedAt)
  }

  /** The row the planner inserts. */
  function NewRow(d: Deployment): Row {
    Row(d.id, d.workerId, d.versionId, NullString(d.previousVersionId), d.kind, d.state, d.allowed,
        None, None, None, None, None, None, d.createdAt, d.createdBy)
  }

  // ---- The schema's CHECK constraints ----

  predicate LifecycleCheck(r: Row) {
    || (r.state.Ready? && !r.allowed && r.startedAt.None? && r.finishedAt.None? && r.errorCode.None?)
    || (r.state.Running? && r.allowed && r.startedAt.Some? && r.finishedAt.None? && r.errorCode.None?)
    || (r.state.Succeeded? && r.allowed && r.startedAt.Some? && r.finishedAt.Some?
        && r.providerVersion.Some? && r.providerDeployment.Some? && r.providerState == Some(ACTIVE)
        && r.errorCode.None?)
    || (r.state.Failed? && r.allowed && r.startedAt.Some? && r.finishedAt.Some? && r.errorCode.Some?)
  }

  predicate TimeCheck(r: Row) {
    && (r.startedAt.None? || r.createdAt <= r.startedAt.value)
    && (r.finishedAt.None? || (r.startedAt.Some? && r.startedAt.value <= r.finishedAt.value))
  }

  predicate CodeChar(c: char) {
    'a' <= c <= 'z' || '0' <= c <= '9' || c == '_'
  }

  predicate IdentifierCheck(r: Row) {
    && (r.providerVersion.None? || 1 <= |r.providerVersion.value| <= 128)
    && (r.providerDeployment.None? || 1 <= |r.providerDeployment.value| <= 128)
    && (r.providerState.None? || r.providerState.value == "pending" || r.providerState.value == ACTIVE)
    && (r.errorCode.None? || (1 <= |r.errorCode.value| <= 128 && forall c :: c in r.errorCode.value ==> CodeChar(c)))
  }

  predicate Checks(r: Row) {
    LifecycleCheck(r) && TimeCheck(r) && IdentifierCheck(r)
  }

  /** The identifiers, provider state and error code of a record are such as the schema admits. */
  predicate Storable(d: Deployment) {
    && |d.providerVersionId| <= 128 && |d.providerDeploymentId| <= 128
    && (d.providerState == "" || d.providerState == "pending" || d.providerState == ACTIVE)
    && |d.errorCode| <= 128 && forall c :: c in d.errorCode ==> CodeChar(c)
  }

  /** The schema refuses a transition the service has accepted exactly when the record is not storable. */
  lemma SchemaRefusesExactly(r: Row, d: Deployment)
    requires ValidTransition(FromRow(r), d)
    ensures Checks(SetColumns(r, d)) <==> Storable(d)
  {
    var row := SetColumns(r, d);
    assert LifecycleCheck(row) && TimeCheck(row);
  }

  lemma WrittenRowReadsBack(r: Row, d: Deployment)
    requires SameIdentity(d, FromRow(r))
    ensures FromRow(SetColumns(r, d)) == d
  {
  }

  // ---- Interleaved callers ----

  /** A call after its read: what it was asked to write, and what it read or answered. */
  datatype Call =
    | Checked(updated: Deployment, expected: State, seen: Deployment)
    | Finished(updated: Deployment, expected: State, result: Result)

  /** One finished operation, in the order the operations took effect. */
  datatype Event =
    | Updated(p: nat, updated: Deployment, expected: State, result: Result)
    | Planned(d: Deployment)

  datatype Db = Db(rows: map<string, Row>, calls: map<nat, Call>, log: seq<Event>)

  datatype Op =
    | Read(p: nat, updated: Deployment, expected: State)
    | Write(p: nat)
    | Insert(d: Deployment)

  /** Each caller reads once and then writes once; a plan inserts a ready row under a new, non-empty identifier. */
  predicate Enabled(s: Db, op: Op) {
    match op
    case Read(p, _, _) => p !in s.calls
    case Write(p) => p in s.calls && s.calls[p].Checked?
    case Insert(d) =>
      && d.id !in s.rows && d.id != "" && d.workerId != "" && Checks(NewRow(d)) && d.state.Ready?
      && d == FromRow(NewRow(d))
  }

  function Finish(s: Db, p: nat, updated: Deployment, expected: State, result: Result): Db {
    s.(calls := s.calls[p := Finished(updated, expected, result)],
       log := s.log + [Updated(p, updated, expected, result)])
  }

  function ReadStep(s: Db, p: nat, updated: Deployment, expected: State): Db {
    if updated.id !in s.rows || s.rows[updated.id].workerId != updated.workerId then
      Finish(s, p, updated, expected, NotFound)
    else
      var seen := FromRow(s.rows[updated.id]);
      if seen.state != expected || !ValidTransition(seen, updated) then Finish(s, p, updated, expected, Conflict)
      else s.(calls := s.calls[p := Checked(updated, expected, seen)])
  }

  function WriteStep(s: Db, p: nat): Db
    requires p in s.calls && s.calls[p].Checked?
  {
    var c := s.calls[p];
    var d := c.updated;
    if d.id == "" || d.workerId == "" then Finish(s, p, d, c.expected, Conflict)
    else if d.id !in s.rows || s.rows[d.id].workerId != d.workerId || s.rows[d.id].state != c.expected then
      Finish(s, p, d, c.expected, Conflict)
    else
      var row := SetColumns(s.rows[d.id], d);
      if !Checks(row) then Finish(s, p, d, c.expected, StorageError)
      else Finish(s.(rows := s.rows[d.id := row]), p, d, c.expected, Ok)
  }

  function Apply(s: Db, op: Op): Db {
    if !Enabled(s, op) then s
    else match op
      case Read(p, updated, expected) => ReadStep(s, p, updated, expected)
      case Write(p) => WriteStep(s, p)
      case Insert(d) => s.(rows := s.rows[d.id := NewRow(d)], log := s.log + [Planned(d)])
  }

  function Run(s: Db, ops: seq<Op>): Db
    decreases |ops|
  {
    if ops == [] then s else Run(Apply(s, ops[0]), ops[1..])
  }

  // ---- The atomic form ----

  function View(rows: map<string, Row>): Rows {
    map id | id in rows :: FromRow(rows[id])
  }

  /** The in-memory step in front of a storage that refuses exactly what is not storable. */
  function Answer(rows: Rows, updated: Deployment, expected: State): (Rows, Result) {
    var (after, result) := Update(rows, updated, expected);
    if result.Ok? && !Storable(updated) then (rows, StorageError) else (after, result)
  }

  /** The logged operations one after the other; None when some logged result is not the one the step gives. */
  function Replay(rows: Rows, log: seq<Event>): Option<Rows> {
    if log == [] then Some(rows)
    else
      var before := Replay(rows, log[..|log| - 1]);
      if before.None? then None
      else match log[|log| - 1]
        case Planned(d) => Some(before.value[d.id := d])
        case Updated(_, updated, expected, result) =>
          var (after, answer) := Answer(before.value, updated, expected);
          if answer == result then Some(after) else None
  }

  /**
   A row moves on or stays exactly as it was read: no transition keeps or
   returns to a state, so an unchanged state means an unchanged row.
   */
  ghost predicate StillAsSeen(rows: map<string, Row>, c: Call)
    requires c.Checked?
  {
    && c.seen.state == c.expected && ValidTransition(c.seen, c.updated)
    && c.seen.id in rows
    && (var current := FromRow(rows[c.seen.id]);
        && current.workerId == c.seen.workerId
        && Rank(c.seen.state) <= Rank(current.state)
        && (current.state == c.seen.state ==> current == c.seen))
  }

  ghost predicate Consistent(s: Db) {
    && (forall id :: id in s.rows ==> s.rows[id].id == id && id != "" && s.rows[id].workerId != "")
    && (forall p :: p in s.calls && s.calls[p].Checked? ==> StillAsSeen(s.rows, s.calls[p]))
  }

  lemma WriteKeepsSeen(s: Db, p: nat, c: Call)
    requires Consistent(s) && p in s.calls && s.calls[p].Checked? && c.Checked? && StillAsSeen(s.rows, c)
    ensures StillAsSeen(WriteStep(s, p).rows, c)
  {
    var mine := s.calls[p];
    var t := WriteStep(s, p);
    if t.rows != s.rows {
      var current := FromRow(s.rows[mine.updated.id]);
      assert current == mine.seen;
      TransitionsAdvance(current, mine.updated);
      WrittenRowReadsBack(s.rows[mine.updated.id], mine.updated);
    }
  }

  lemma JustReadIsSeen(rows: map<string, Row>, updated: Deployment, expected: State)
    requires updated.id in rows && rows[updated.id].id == updated.id
    requires FromRow(rows[updated.id]).state == expected && ValidTransition(FromRow(rows[updated.id]), updated)
    ensures StillAsSeen(rows, Checked(updated, expected, FromRow(rows[updated.id])))
  {
  }

  lemma CallKeepsConsistent(s: Db, t: Db, p: nat, c: Call)
    requires Consistent(s) && t.rows == s.rows && t.calls == s.calls[p := c] && (c.Checked? ==> StillAsSeen(s.rows, c))
    ensures Consistent(t)
  {
    forall q | q in t.calls && t.calls[q].Checked? ensures StillAsSeen(t.rows, t.calls[q]) {
      assert q != p ==> StillAsSeen(s.rows, s.calls[q]);
    }
  }

  /** What a read leaves of its call. */
  lemma ReadLeaves(s: Db, p: nat, updated: Deployment, expected: State)
    ensures var t := ReadStep(s, p, updated, expected);
      && p in t.calls && t.rows == s.rows && t.calls == s.calls[p := t.calls[p]]
      && (t.calls[p].Checked? ==>
            && updated.id in s.rows && FromRow(s.rows[updated.id]).state == expected
            && ValidTransition(FromRow(s.rows[updated.id]), updated)
            && t.calls[p] == Checked(updated, expected, FromRow(s.rows[updated.id])))
  {
  }

  lemma ReadKeepsConsistent(s: Db, p: nat, updated: Deployment, expected: State)
    requires Consistent(s)
    ensures Consistent(ReadStep(s, p, updated, expected))
  {
    var t := ReadStep(s, p, updated, expected);
    ReadLeaves(s, p, updated, expected);
    if t.calls[p].Checked? {
      JustReadIsSeen(s.rows, updated, expected);
    }
    CallKeepsConsistent(s, t, p, t.calls[p]);
  }

  lemma WriteKeepsConsistent(s: Db, p: nat)
    requires Consistent(s) && p in s.calls && s.calls[p].Checked?
    ensures Consistent(WriteStep(s, p))
  {
    var t := WriteStep(s, p);
    forall q | q in t.calls && t.calls[q].Checked? ensures StillAsSeen(t.rows, t.calls[q]) {
      WriteKeepsSeen(s, p, s.calls[q]);
    }
  }

  lemma InsertKeepsConsistent(s: Db, d: Deployment)
    requires Consistent(s) && Enabled(s, Insert(d))
    ensures Consistent(Apply(s, Insert(d)))
  {
    var t := Apply(s, Insert(d));
    forall q | q in t.calls && t.calls[q].Checked? ensures StillAsSeen(t.rows, t.calls[q]) {
      assert StillAsSeen(s.rows, s.calls[q]);
    }
  }

  lemma ConsistentKept(s: Db, op: Op)
    requires Consistent(s)
    ensures Consistent(Apply(s, op))
  {
    if Enabled(s, op) {
      match op
      case Read(p, updated, expected) => ReadKeepsConsistent(s, p, updated, expected);
      case Write(p) => WriteKeepsConsistent(s, p);
      case Insert(d) => InsertKeepsConsistent(s, d);
    }
  }

  lemma ViewUpdate(rows: map<string, Row>, id: string, row: Row)
    ensures View(rows[id := row]) == View(rows)[id := FromRow(row)]
  {
  }

  /** The write is the step on the rows as they are at that moment, with the same answer. */
  lemma WriteIsAtomic(s: Db, p: nat)
    requires Consistent(s) && p in s.calls && s.calls[p].Checked?
    ensures var t := WriteStep(s, p);
            var c := s.calls[p];
      && t.calls[p].Finished? && t.log == s.log + [Updated(p, c.updated, c.expected, t.calls[p].result)]
      && Answer(View(s.rows), c.updated, c.expected) == (View(t.rows), t.calls[p].result)
  {
    var c := s.calls[p];
    var t := WriteStep(s, p);
    var d := c.updated;
    assert StillAsSeen(s.rows, c);
    if s.rows[d.id].state == c.expected {
      assert FromRow(s.rows[d.id]) == c.seen;
      SchemaRefusesExactly(s.rows[d.id], d);
      WrittenRowReadsBack(s.rows[d.id], d);
      ViewUpdate(s.rows, d.id, SetColumns(s.rows[d.id], d));
    }
  }

  lemma ReplayOneMore(start: Rows, log: seq<Event>, rows: Rows, p: nat, updated: Deployment, expected: State,
                      result: Result)
    requires Replay(start, log) == Some(rows) && Answer(rows, updated, expected).1 == result
    ensures Replay(start, log + [Updated(p, updated, expected, result)]) == Some(Answer(rows, updated, expected).0)
  {
    var log' := log + [Updated(p, updated, expected, result)];
    assert log'[..|log'| - 1] == log;
  }

  /** A call refused on reading is refused with the same answer by the step at that moment. */
  lemma RefusedReadIsAtomic(s: Db, p: nat, updated: Deployment, expected: State)
    requires updated.id in s.rows ==> s.rows[updated.id].id == updated.id
    ensures var t := ReadStep(s, p, updated, expected);
            t.rows == s.rows && p in t.calls && (t.calls[p].Finished? ==>
              t.log == s.log + [Updated(p, updated, expected, t.calls[p].result)]
              && Answer(View(s.rows), updated, expected) == (View(s.rows), t.calls[p].result))
            && (!t.calls[p].Finished? ==> t.log == s.log)
  {
  }

  lemma ReadRefines(start: Rows, s: Db, p: nat, updated: Deployment, expected: State)
    requires Consistent(s) && Replay(start, s.log) == Some(View(s.rows))
    ensures var t := ReadStep(s, p, updated, expected); Replay(start, t.log) == Some(View(t.rows))
  {
    RefusedReadIsAtomic(s, p, updated, expected);
    var t := ReadStep(s, p, updated, expected);
    if t.calls[p].Finished? {
      ReplayOneMore(start, s.log, View(s.rows), p, updated, expected, t.calls[p].result);
    }
  }

  lemma WriteRefines(start: Rows, s: Db, p: nat)
    requires Consistent(s) && p in s.calls && s.calls[p].Checked? && Replay(start, s.log) == Some(View(s.rows))
    ensures var t := WriteStep(s, p); Replay(start, t.log) == Some(View(t.rows))
  {
    WriteIsAtomic(s, p);
    var c := s.calls[p];
    ReplayOneMore(start, s.log, View(s.rows), p, c.updated, c.expected, WriteStep(s, p).calls[p].result);
  }

  lemma StepRefines(start: Rows, s: Db, op: Op)
    requires Consistent(s) && Replay(start, s.log) == Some(View(s.rows))
    ensures Replay(start, Apply(s, op).log) == Some(View(Apply(s, op).rows))
  {
    if Enabled(s, op) {
      match op
      case Read(p, updated, expected) => ReadRefines(start, s, p, updated, expected);
      case Write(p) => WriteRefines(start, s, p);
      case Insert(d) =>
        var log' := s.log + [Planned(d)];
        assert log'[..|log'| - 1] == s.log;
        ViewUpdate(s.rows, d.id, NewRow(d));
    }
  }

  predicate Logged(log: seq<Event>, p: nat, c: Call)
    requires c.Finished?
  {
    Updated(p, c.updated, c.expected, c.result) in log
  }

  predicate EntryOk(s: Db, e: Event)
    requires e.Updated?
  {
    e.p in s.calls && s.calls[e.p] == Finished(e.updated, e.expected, e.result)
  }

  /** Every finished call has exactly one entry in the log, with its own arguments and the answer it got. */
  ghost predicate Answered(s: Db) {
    && (forall p :: p in s.calls && s.calls[p].Finished? ==> Logged(s.log, p, s.calls[p]))
    && (forall i :: 0 <= i < |s.log| && s.log[i].Updated? ==> EntryOk(s, s.log[i]))
    && (forall i, j :: 0 <= i < j < |s.log| && s.log[i].Updated? && s.log[j].Updated? ==> s.log[i].p != s.log[j].p)
  }

  lemma FinishKeepsAnswered(s: Db, p: nat, updated: Deployment, expected: State, result: Result)
    requires Answered(s) && (p in s.calls ==> !s.calls[p].Finished?)
    ensures Answered(Finish(s, p, updated, expected, result))
  {
    var t := Finish(s, p, updated, expected, result);
    forall i | 0 <= i < |t.log| && t.log[i].Updated?
      ensures EntryOk(t, t.log[i]) && (i < |s.log| ==> t.log[i].p != p)
    {
      assert i < |s.log| ==> t.log[i] == s.log[i] && EntryOk(s, s.log[i]);
    }
    forall q | q in t.calls && t.calls[q].Finished? ensures Logged(t.log, q, t.calls[q]) {
      if q == p {
        assert t.log[|s.log|] == Updated(p, updated, expected, result);
      } else {
        assert Logged(s.log, q, s.calls[q]);
      }
    }
  }

  lemma InsertKeepsAnswered(s: Db, d: Deployment)
    requires Answered(s)
    ensures Answered(s.(rows := s.rows[d.id := NewRow(d)], log := s.log + [Planned(d)]))
  {
    var t := s.(rows := s.rows[d.id := NewRow(d)], log := s.log + [Planned(d)]);
    forall i | 0 <= i < |t.log| && t.log[i].Updated? ensures EntryOk(t, t.log[i]) {
      assert t.log[i] == s.log[i] && EntryOk(s, s.log[i]);
    }
    forall q | q in t.calls && t.calls[q].Finished? ensures Logged(t.log, q, t.calls[q]) {
      assert Logged(s.log, q, s.calls[q]);
    }
  }

  lemma CheckKeepsAnswered(s: Db, p: nat, c: Call)
    requires Answered(s) && p !in s.calls && c.Checked?
    ensures Answered(s.(calls := s.calls[p := c]))
  {
    var t := s.(calls := s.calls[p := c]);
    forall i | 0 <= i < |t.log| && t.log[i].Updated? ensures EntryOk(t, t.log[i]) {
      assert EntryOk(s, s.log[i]);
    }
  }

  lemma RowsKeepAnswered(s: Db, rows: map<string, Row>)
    requires Answered(s)
    ensures Answered(s.(rows := rows))
  {
    var t := s.(rows := rows);
    forall i | 0 <= i < |t.log| && t.log[i].Updated? ensures EntryOk(t, t.log[i]) {
      assert EntryOk(s, s.log[i]);
    }
  }

  lemma AnsweredKept(s: Db, op: Op)
    requires Answered(s)
    ensures Answered(Apply(s, op))
  {
    if Enabled(s, op) {
      match op
      case Read(p, updated, expected) =>
        var t := Apply(s, op);
        if t.calls[p].Finished? {
          FinishKeepsAnswered(s, p, updated, expected, t.calls[p].result);
        } else {
          CheckKeepsAnswered(s, p, t.calls[p]);
        }
      case Write(p) =>
        var c := s.calls[p];
        var t := Apply(s, op);
        RowsKeepAnswered(s, t.rows);
        FinishKeepsAnswered(s.(rows := t.rows), p, c.updated, c.expected, t.calls[p].result);
      case Insert(d) => InsertKeepsAnswered(s, d);
    }
  }

  // ---- The log holds the callers' own operations ----

  /** Caller `p` asked for exactly this update. */
  predicate Asked(ops: seq<Op>, p: nat, c: Call) {
    Read(p, c.updated, c.expected) in ops
  }

  lemma CallsKeepArguments(s: Db, op: Op, p: nat)
    requires p in Apply(s, op).calls
    ensures var c := Apply(s, op).calls[p];
      op == Read(p, c.updated, c.expected)
      || (p in s.calls && s.calls[p].updated == c.updated && s.calls[p].expected == c.expected)
  {
  }

  lemma {:induction false} CallsWereAsked(s: Db, ops: seq<Op>, p: nat)
    requires p in Run(s, ops).calls
    ensures var c := Run(s, ops).calls[p];
      Asked(ops, p, c) || (p in s.calls && s.calls[p].updated == c.updated && s.calls[p].expected == c.expected)
    decreases |ops|
  {
    if ops != [] {
      var c := Run(s, ops).calls[p];
      CallsWereAsked(Apply(s, ops[0]), ops[1..], p);
      if Asked(ops[1..], p, c) {
        assert Read(p, c.updated, c.expected) in ops;
      } else {
        CallsKeepArguments(s, ops[0], p);
      }
    }
  }

  // ---- Refinement ----

  lemma {:induction false} RefinementAlways(start: Rows, s: Db, ops: seq<Op>)
    requires Consistent(s) && Answered(s) && Replay(start, s.log) == Some(View(s.rows))
    ensures var t := Run(s, ops);
            Consistent(t) && Answered(t) && Replay(start, t.log) == Some(View(t.rows))
    decreases |ops|
  {
    if ops != [] {
      ConsistentKept(s, ops[0]);
      AnsweredKept(s, ops[0]);
      StepRefines(start, s, ops[0]);
      RefinementAlways(start, Apply(s, ops[0]), ops[1..]);
    }
  }

  predicate WellFiled(rows: map<string, Row>) {
    forall id :: id in rows ==> rows[id].id == id && id != "" && rows[id].workerId != ""
  }

  /**
   Read-check-write refines the atomic update. For every table whose rows are
   filed under their own identifiers and every interleaving of callers, the
   operations in the order they took effect are a run of the in-memory store,
   in front of a storage that refuses exactly the records that are not
   storable, that ends in the same table; and the log holds one entry for
   every finished call, with the update its caller asked for and the answer it
   got.
   */
  lemma ReadCheckWriteRefinesAtomic(rows: map<string, Row>, ops: seq<Op>)
    requires WellFiled(rows)
    ensures var t := Run(Db(rows, map[], []), ops);
      && Replay(View(rows), t.log) == Some(View(t.rows))
      && Answered(t)
      && forall p :: p in t.calls ==> Asked(ops, p, t.calls[p])
  {
    var s := Db(rows, map[], []);
    RefinementAlways(View(rows), s, ops);
    forall p | p in Run(s, ops).calls ensures Asked(ops, p, Run(s, ops).calls[p]) {
      CallsWereAsked(s, ops, p);
    }
  }

  /** A legal update that nobody interrupts succeeds exactly when its record is storable. */
  lemma StorableDecides(s: Db, p: nat, updated: Deployment, expected: State)
    requires Consistent(s) && p !in s.calls && Update(View(s.rows), updated, expected).1.Ok?
    ensures var t := Run(s, [Read(p, updated, expected), Write(p)]);
      p in t.calls && t.calls[p] == Finished(updated, expected, if Storable(updated) then Ok else StorageError)
  {
    var read, write := Read(p, updated, expected), Write(p);
    var a := ReadStep(s, p, updated, expected);
    assert a.calls[p] == Checked(updated, expected, FromRow(s.rows[updated.id]));
    ConsistentKept(s, read);
    WriteIsAtomic(a, p);
    assert [read, write][1..] == [write] && [write][1..] == [];
    assert Run(s, [read, write]) == Run(a, [write]);
    assert Run(a, [write]) == Run(WriteStep(a, p), []);
  }

  /** Some legal update is refused: the service admits an error code in capital letters, the schema does not. */
  lemma SomeUpdateIsRefused() returns (s: Db, updated: Deployment)
    ensures Consistent(s) && Update(View(s.rows), updated, Running).1.Ok? && !Storable(updated)
    ensures updated.state.Failed? && updated.errorCode == "E"
  {
    var row := Row("d", "w", "v", None, Deploy, Running, true, None, None, None, None, Some(0), None, 0, "admin");
    s := Db(map["d" := row], map[], []);
    updated := FromRow(row).(state := Failed, errorCode := "E", finishedAt := Some(0));
    assert 'E' in updated.errorCode && !CodeChar('E');
    assert View(s.rows)["d"] == FromRow(row);
  }
}
