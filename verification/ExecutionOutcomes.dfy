/** How executions of deployments end, and exactly when one leaves its deployment marked running. */
module ExecutionOutcomes {
  import opened Common
  import opened Deployments
  import opened DeploymentExecutor
  import PostgresDeployments

  // ---- What the provider answers, and whether it fits ----

  predicate CodeText(s: string) {
    forall c :: c in s ==> PostgresDeployments.CodeChar(c)
  }

  /** The code of the error fits into a record: its kind is short enough and, for PostgreSQL, of code characters. */
  predicate ErrorFits(storage: Storage, e: ProviderError) {
    e.OfKind? ==> |e.kind| <= 117 && (storage.Postgres? ==> CodeText(e.kind))
  }

  lemma PrefixIsCode()
    ensures |"cloudflare_"| == 11 && CodeText("cloudflare_")
  {
  }

  lemma ForeignIsCode()
    ensures |"cloudflare_provider_failed"| <= 117 && CodeText("cloudflare_provider_failed")
  {
  }

  lemma FixedCodesFit(storage: Storage)
    ensures ErrorFits(storage, PROVIDER_ERROR) && CodeFits(storage, PERSISTENCE_FAILURE)
  {
    assert CodeText("provider") && CodeText(PERSISTENCE_FAILURE);
  }

  lemma FitsExactly(storage: Storage, e: ProviderError)
    ensures ErrorFits(storage, e) <==> CodeFits(storage, ErrorCode(e))
  {
    match e
    case Foreign => ForeignIsCode();
    case OfKind(kind) =>
      PrefixIsCode();
      assert ErrorCode(e) == "cloudflare_" + kind;
      assert CodeText("cloudflare_" + kind) <==> CodeText(kind) by {
        assert forall c :: c in "cloudflare_" + kind <==> c in "cloudflare_" || c in kind;
      }
  }

  /** The error a provider call was answered with, if it was answered with one. */
  function ErrorOf(op: Op): Option<ProviderError> {
    match op
    case Validate(_, err) => err
    case Upload(_, UploadRejected(e)) => Some(e)
    case Release(_, ReleaseRejected(e)) => Some(e)
    case _ => None
  }

  /** The identifier of an answer the executor takes for a success. */
  function IdentifierOf(op: Op): Option<string> {
    match op
    case Upload(_, UploadAccepted(id, matches, _, _)) => if id != "" && matches then Some(id) else None
    case Release(_, ReleaseAccepted(id, matches, state)) =>
      if id != "" && matches && state == ACTIVE then Some(id) else None
    case _ => None
  }

  predicate OpFits(storage: Storage, op: Op) {
    && (ErrorOf(op).Some? ==> ErrorFits(storage, ErrorOf(op).value))
    && (IdentifierOf(op).Some? ==> IdentifierFits(storage, IdentifierOf(op).value))
  }

  /** In the run `ops` from `s`, some step that was taken answered `p` with what does not fit. */
  predicate AnsweredUnfit(s: System, ops: seq<Op>, p: Pid)
    decreases |ops|
  {
    ops != []
    && ((Enabled(s, ops[0]) && Actor(ops[0]) == Some(p) && !OpFits(s.storage, ops[0]))
        || AnsweredUnfit(Apply(s, ops[0]), ops[1..], p))
  }

  /** What the call has been answered so far fits. */
  predicate CallFits(storage: Storage, c: Call) {
    match c
    case Uploaded(_, version, _, _, _) => IdentifierFits(storage, version)
    case Releasing(_, version, _) => IdentifierFits(storage, version)
    case Closing(_, goal, _) => GoalFits(storage, goal)
    case Done(_, _, goal, _) => GoalFits(storage, goal)
    case _ => true
  }

  predicate Fits(s: System, p: Pid) {
    p in s.calls ==> CallFits(s.storage, s.calls[p])
  }

  lemma ValidationFits(storage: Storage, c: Call, err: Option<ProviderError>, p: Pid, clock: int)
    requires c.Claimed? && IdentifierFits(storage, c.running.providerVersionId)
    ensures CallFits(storage, Validation(c, err, clock)) <==> OpFits(storage, Validate(p, err))
  {
    if err.Some? {
      FitsExactly(storage, err.value);
    }
  }

  lemma UploadFits(storage: Storage, c: Call, reply: UploadReply, p: Pid, clock: int)
    requires c.Validated? && IdentifierFits(storage, c.running.providerVersionId)
    ensures CallFits(storage, AfterUpload(c, reply, clock)) <==> OpFits(storage, Upload(p, reply))
  {
    FixedCodesFit(storage);
    FitsExactly(storage, if reply.UploadRejected? then reply.e else PROVIDER_ERROR);
  }

  lemma ReleaseFits(storage: Storage, c: Call, reply: ReleaseReply, p: Pid, clock: int)
    requires c.Releasing?
    ensures CallFits(storage, AfterRelease(c, reply, clock)) <==>
            CallFits(storage, c) && OpFits(storage, Release(p, reply))
  {
    FixedCodesFit(storage);
    FitsExactly(storage, if reply.ReleaseRejected? then reply.e else PROVIDER_ERROR);
  }

  /** The calls that have not been answered anything yet. */
  predicate Unanswered(c: Call) {
    Preparing(c) || c.Claimed? || c.TurnedAway?
  }

  /** The steps before the provider is contacted. */
  predicate BeforeContact(op: Op) {
    op.Load? || op.CheckWorker? || op.CheckVersion? || op.CheckToken? || op.OpenFails? || op.Start?
  }

  lemma UnansweredBefore(s: System, op: Op, p: Pid)
    requires BeforeContact(op) && op.p == p && Enabled(s, op)
    ensures p in s.calls ==> Unanswered(s.calls[p])
    ensures p in Apply(s, op).calls && Unanswered(Apply(s, op).calls[p])
  {
  }

  /** What a step after the first contact makes of its call. */
  function Next(s: System, op: Op): Call
    requires !BeforeContact(op) && Actor(op).Some? && Enabled(s, op)
  {
    match op
    case Validate(p, err) => Validation(s.calls[p], err, s.clock)
    case Upload(p, reply) => AfterUpload(s.calls[p], reply, s.clock)
    case Release(p, reply) => AfterRelease(s.calls[p], reply, s.clock)
    case Record(p) => RecordStep(s, p, s.calls[p]).calls[p]
    case Close(p, r) => CloseStep(s, p, s.calls[p], r).calls[p]
  }

  lemma NextIsNext(s: System, op: Op, p: Pid)
    requires !BeforeContact(op) && Actor(op) == Some(p) && Enabled(s, op)
    ensures p in s.calls && p in Apply(s, op).calls && Apply(s, op).calls[p] == Next(s, op)
  {
  }

  lemma RecordFits(s: System, p: Pid, c: Call)
    requires c.Uploaded?
    ensures CallFits(s.storage, RecordStep(s, p, c).calls[p]) <==> CallFits(s.storage, c)
  {
    FixedCodesFit(s.storage);
  }

  lemma CloseFits(s: System, p: Pid, c: Call, r: int)
    requires c.Closing?
    ensures CallFits(s.storage, CloseStep(s, p, c, r).calls[p]) <==> CallFits(s.storage, c)
  {
  }

  lemma NextFits(s: System, op: Op, p: Pid)
    requires !BeforeContact(op) && Actor(op) == Some(p) && Enabled(s, op) && CallOk(s, p, s.calls[p])
    ensures CallFits(s.storage, Next(s, op)) <==> CallFits(s.storage, s.calls[p]) && OpFits(s.storage, op)
  {
    match op
    case Validate(_, err) => ValidationFits(s.storage, s.calls[p], err, p, s.clock);
    case Upload(_, reply) => UploadFits(s.storage, s.calls[p], reply, p, s.clock);
    case Release(_, reply) => ReleaseFits(s.storage, s.calls[p], reply, p, s.clock);
    case Record(_) => RecordFits(s, p, s.calls[p]);
    case Close(_, r) => CloseFits(s, p, s.calls[p], r);
  }

  lemma StorageStays(s: System, op: Op)
    ensures Apply(s, op).storage == s.storage
  {
  }

  lemma OthersStand(s: System, op: Op, p: Pid)
    requires Enabled(s, op) && Actor(op) != Some(p)
    ensures p in s.calls <==> p in Apply(s, op).calls
    ensures p in s.calls ==> Apply(s, op).calls[p] == s.calls[p]
  {
  }

  /** A step keeps what a call was answered fitting exactly if it brings no answer that does not fit. */
  lemma StepFits(s: System, op: Op, p: Pid)
    requires Inv(s) && Enabled(s, op)
    ensures Fits(Apply(s, op), p) <==> Fits(s, p) && (Actor(op) == Some(p) ==> OpFits(s.storage, op))
  {
    StorageStays(s, op);
    if Actor(op) != Some(p) {
      OthersStand(s, op, p);
    } else if BeforeContact(op) {
      UnansweredBefore(s, op, p);
    } else {
      NextIsNext(s, op, p);
      NextFits(s, op, p);
    }
  }

  lemma {:induction false} RunFits(s: System, ops: seq<Op>, p: Pid)
    requires Inv(s)
    ensures Fits(Run(s, ops), p) <==> Fits(s, p) && !AnsweredUnfit(s, ops, p)
    decreases |ops|
  {
    if ops != [] {
      InvKept(s, ops[0]);
      if Enabled(s, ops[0]) {
        StepFits(s, ops[0], p);
      }
      RunFits(Apply(s, ops[0]), ops[1..], p);
    }
  }

  // ---- How executions end ----

  /** What is left of a deployment once every call has run to its end. */
  ghost predicate Settled(s: System, id: string) {
    && id in s.store.deployments
    && var d := s.store.deployments[id];
       && (d.state.Ready? <==> id !in s.winners)
       && (id in s.winners ==>
             && s.winners[id] in s.calls && s.calls[s.winners[id]].Done?
             && var goal := s.calls[s.winners[id]].goal;
                (d.state.Running? <==> !GoalFits(s.storage, goal))
                && (!d.state.Running? ==> ValidFinished(d) && d.state == if goal.Succeed? then Succeeded else Failed))
  }

  lemma AtEndSettled(s: System, id: string)
    requires Inv(s) && id in s.store.deployments && forall p :: p in s.calls ==> AtEnd(s.calls[p])
    ensures Settled(s, id)
  {
    assert RowOk(s, id, s.store.deployments[id]);
    if id in s.winners {
      assert WinnerOk(s, id, s.winners[id]);
      assert CallOk(s, s.winners[id], s.calls[s.winners[id]]);
    }
  }

  lemma SettledRunning(s: System, id: string)
    requires Settled(s, id)
    ensures s.store.deployments[id].state.Running? <==> id in s.winners && !Fits(s, s.winners[id])
  {
  }

  /**
   Once every call has run to its end, a deployment is still marked running if
   and only if it has been executed and the provider answered its executor with
   what does not fit into a record: an error of a kind longer than 117
   characters, and over PostgreSQL also a kind of other characters or an
   identifier longer than 128. Otherwise it is untouched, or it succeeded or
   failed as its executor intended, with its three times in order.
   */
  lemma ExecutionsAlwaysFinish(storage: Storage, clock: int, ops: seq<Op>, s: System, id: string)
    requires s == Run(Init(storage, clock), ops)
    requires id in s.store.deployments && forall p :: p in s.calls ==> AtEnd(s.calls[p])
    ensures Settled(s, id)
    ensures s.store.deployments[id].state.Running? <==>
            id in s.winners && AnsweredUnfit(Init(storage, clock), ops, s.winners[id])
  {
    InvAlways(Init(storage, clock), ops);
    AtEndSettled(s, id);
    SettledRunning(s, id);
    if id in s.winners {
      RunFits(Init(storage, clock), ops, s.winners[id]);
    }
  }

  lemma SettledIsFinished(s: System, id: string)
    requires Settled(s, id) && id in s.winners && !s.store.deployments[id].state.Running?
    ensures var d := s.store.deployments[id]; (d.state.Succeeded? || d.state.Failed?) && ValidFinished(d)
  {
  }

  predicate AllFit(storage: Storage, ops: seq<Op>) {
    forall i :: 0 <= i < |ops| ==> OpFits(storage, ops[i])
  }

  lemma {:induction false} FittingIsNotUnfit(s: System, ops: seq<Op>, p: Pid)
    requires AllFit(s.storage, ops)
    ensures !AnsweredUnfit(s, ops, p)
    decreases |ops|
  {
    if ops != [] {
      StorageStays(s, ops[0]);
      FittingIsNotUnfit(Apply(s, ops[0]), ops[1..], p);
    }
  }

  /** If everything the provider answers fits, every executed deployment ends succeeded or failed. */
  lemma FittingAnswersFinish(storage: Storage, clock: int, ops: seq<Op>, s: System, id: string)
    requires s == Run(Init(storage, clock), ops) && id in s.winners && id in s.store.deployments
    requires forall p :: p in s.calls ==> AtEnd(s.calls[p])
    requires AllFit(storage, ops)
    ensures var d := s.store.deployments[id]; (d.state.Succeeded? || d.state.Failed?) && ValidFinished(d)
  {
    ExecutionsAlwaysFinish(storage, clock, ops, s, id);
    FittingIsNotUnfit(Init(storage, clock), ops, s.winners[id]);
    SettledIsFinished(s, id);
  }

  /** Every error answered is of one of the kinds, or not the provider client's own. */
  ghost predicate KeepsTo(ops: seq<Op>, kinds: seq<string>) {
    forall i :: 0 <= i < |ops| && ErrorOf(ops[i]).Some? && ErrorOf(ops[i]).value.OfKind? ==>
      ErrorOf(ops[i]).value.kind in kinds
  }

  /** Every identifier answered fits into a column. */
  predicate IdentifiersFit(storage: Storage, ops: seq<Op>) {
    forall i :: 0 <= i < |ops| && IdentifierOf(ops[i]).Some? ==> IdentifierFits(storage, IdentifierOf(ops[i]).value)
  }

  predicate ShortCode(kind: string) {
    |kind| <= 117 && CodeText(kind)
  }

  lemma ShortKindsFit(storage: Storage, ops: seq<Op>, kinds: seq<string>)
    requires KeepsTo(ops, kinds) && IdentifiersFit(storage, ops) && forall kind :: kind in kinds ==> ShortCode(kind)
    ensures AllFit(storage, ops)
  {
    forall i | 0 <= i < |ops| ensures OpFits(storage, ops[i]) {
      if ErrorOf(ops[i]).Some? && ErrorOf(ops[i]).value.OfKind? {
        assert ShortCode(ErrorOf(ops[i]).value.kind);
      }
    }
  }

  lemma DeclaredKindFits(k: nat)
    requires k < |KINDS|
    ensures ShortCode(KINDS[k])
  {
  }

  /** Every declared kind is short enough and of code characters. */
  lemma DeclaredKindsFit()
    ensures forall kind :: kind in KINDS ==> ShortCode(kind)
  {
    forall kind | kind in KINDS ensures ShortCode(kind) {
      var k :| 0 <= k < |KINDS| && KINDS[k] == kind;
      DeclaredKindFits(k);
    }
  }

  lemma KeepingRunsFit(storage: Storage, ops: seq<Op>)
    requires KeepsTo(ops, KINDS) && IdentifiersFit(storage, ops)
    ensures AllFit(storage, ops)
  {
    DeclaredKindsFit();
    ShortKindsFit(storage, ops, KINDS);
  }

  /**
   With a provider client that keeps to the kinds it declares, and over
   PostgreSQL to identifiers a column admits, every executed deployment ends
   succeeded or failed.
   */
  lemma DeclaredKindsFinish(storage: Storage, clock: int, ops: seq<Op>, s: System, id: string)
    requires s == Run(Init(storage, clock), ops) && id in s.winners && id in s.store.deployments
    requires forall p :: p in s.calls ==> AtEnd(s.calls[p])
    requires KeepsTo(ops, KINDS) && IdentifiersFit(storage, ops)
    ensures var d := s.store.deployments[id]; (d.state.Succeeded? || d.state.Failed?) && ValidFinished(d)
  {
    KeepingRunsFit(storage, ops);
    FittingAnswersFinish(storage, clock, ops, s, id);
  }

}
