/**
 The scope digest that ties an approval to one binding. Strings are sequences
 of Unicode characters; `ByteLength` is their length in UTF-8. The hash is any
 function `hash` from canonical texts to digests of one line; where two
 bindings share a digest, either they are equal or the canonical texts named in
 the result are a collision of the hash.
 */
module RunbookScope {
  import opened Common
  import opened Text
  import opened RunbookCatalog

  const PROTOCOL_VERSION := "v1"

  datatype Target = Target(address: string, port: int, user: string)

  datatype Binding = Binding(
    action: string,
    version: int,
    hostId: string,
    jobId: string,
    target: Target,
    pinnedHostKey: string,
    credentialKey: string,
    parameters: Parameters)

  // ---- Validation ----

  function ByteLength(s: string): nat {
    if s == [] then 0
    else
      var c := s[0] as int;
      ByteLength(s[1..]) + (if c < 0x80 then 1 else if c < 0x800 then 2 else if c < 0x10000 then 3 else 4)
  }

  predicate IsSpace(c: char) {
    var n := c as int;
    9 <= n <= 13 || n in {0x20, 0x85, 0xA0, 0x1680, 0x2028, 0x2029, 0x202F, 0x205F, 0x3000} || 0x2000 <= n <= 0x200A
  }

  predicate IsControl(c: char) {
    c as int < 0x20 || 0x7F <= c as int < 0xA0
  }

  /** Equal to itself with surrounding space removed. */
  predicate Trimmed(s: string) {
    s == [] || (!IsSpace(s[0]) && !IsSpace(s[|s| - 1]))
  }

  predicate BoundedIdentifier(s: string, max: nat) {
    1 <= ByteLength(s) <= max && Trimmed(s) && forall i :: 0 <= i < |s| ==> IdentifierChar(s[i], i == 0)
  }

  const FINGERPRINT_PREFIX := "SHA256:"

  predicate FingerprintChar(c: char) {
    IsAlphanumeric(c) || c == '+' || c == '/' || c == '-' || c == '_'
  }

  predicate ValidFingerprint(s: string) {
    FINGERPRINT_PREFIX <= s && 20 <= ByteLength(s) <= 96 && forall i :: 7 <= i < |s| ==> FingerprintChar(s[i])
  }

  predicate ValidTarget(b: Binding) {
    && b.target.address != "" && Trimmed(b.target.address) && ByteLength(b.target.address) <= 253
    && 1 <= b.target.port <= 65535
    && b.target.user != "" && Trimmed(b.target.user) && ByteLength(b.target.user) <= 64
    && ValidFingerprint(b.pinnedHostKey) && ValidFingerprint(b.credentialKey)
    && forall c :: c in b.target.address + b.target.user ==> !IsControl(c)
  }

  // ---- The digest ----

  function ScopeParts(hostId: string, jobId: string, plan: Plan): seq<string> {
    [CATALOG_VERSION, plan.definition.id, Itoa(plan.definition.version), hostId, jobId,
     plan.parameters.service, plan.parameters.timezone, Itoa(plan.parameters.pid), Itoa(plan.parameters.ticks)]
  }

  function BindingParts(base: string, b: Binding): seq<string> {
    [base, b.target.address, Itoa(b.target.port), b.target.user, b.pinnedHostKey, b.credentialKey]
  }

  function ScopeText(b: Binding, plan: Plan): string {
    Join(ScopeParts(b.hostId, b.jobId, plan), '\n')
  }

  function BindingText(hash: string -> string, b: Binding, plan: Plan): string {
    Join(BindingParts(hash(ScopeText(b, plan)), b), '\n')
  }

  datatype Bound = Bound(plan: Plan, digest: string)

  function BuildBoundPlan(hash: string -> string, protocol: string, b: Binding): Option<Bound> {
    if protocol != PROTOCOL_VERSION || !BoundedIdentifier(b.hostId, 128) || !BoundedIdentifier(b.jobId, 128) then None
    else if !ValidTarget(b) then None
    else
      var plan := PlanFor(b.action, b.version, b.parameters);
      if plan.None? || plan.value.steps == [] then None
      else
        Some(Bound(plan.value, hash(BindingText(hash, b, plan.value))))
  }

  /** A digest is one line, as a hexadecimal number is. */
  ghost predicate OneLineDigests(hash: string -> string) {
    forall x :: Free(hash(x), '\n')
  }

  predicate Collision(hash: string -> string, x: string, y: string) {
    x != y && hash(x) == hash(y)
  }

  // ---- Every part is one line ----

  lemma ItoaIsOneLine(n: int)
    ensures Free(Itoa(n), '\n')
  {
    ItoaChars(n);
  }

  lemma IdentifierIsOneLine(s: string, max: nat)
    requires BoundedIdentifier(s, max)
    ensures Free(s, '\n')
  {
  }

  lemma FingerprintIsOneLine(s: string)
    requires ValidFingerprint(s)
    ensures Free(s, '\n')
  {
    forall i | 0 <= i < |s| ensures s[i] != '\n' {
      if i < 7 {
        assert s[i] == FINGERPRINT_PREFIX[i];
      }
    }
  }

  lemma TargetIsOneLine(b: Binding)
    requires ValidTarget(b)
    ensures Free(b.target.address, '\n') && Free(b.target.user, '\n')
  {
    assert IsControl('\n');
    assert '\n' !in b.target.address + b.target.user;
  }

  lemma ActionIsOneLine(action: string)
    requires action in ACTIONS
    ensures Free(action, '\n')
  {
    var i :| 0 <= i < |ACTIONS| && action == ACTIONS[i];
  }

  lemma ServiceIsOneLine(service: string)
    requires service in SERVICES
    ensures Free(service, '\n')
  {
    var i :| 0 <= i < |SERVICES| && service == SERVICES[i];
  }

  lemma TimezoneIsOneLine(timezone: string)
    requires timezone in TIMEZONES
    ensures Free(timezone, '\n')
  {
    var i :| 0 <= i < |TIMEZONES| && timezone == TIMEZONES[i];
  }

  /** Accepted parameters name a listed service or none, and a listed timezone or none. */
  lemma AcceptedParameters(action: string, p: Parameters)
    requires BuildSteps(action, p).Some?
    ensures (p.service == "" || p.service in SERVICES) && (p.timezone == "" || p.timezone in TIMEZONES)
  {
  }

  lemma CatalogIsOneLine(action: string, version: int, p: Parameters)
    requires PlanFor(action, version, p).Some?
    ensures Free(CATALOG_VERSION, '\n') && Free(action, '\n') && Free(p.service, '\n') && Free(p.timezone, '\n')
  {
    AcceptedParameters(action, p);
    ActionIsOneLine(action);
    if p.service != "" {
      ServiceIsOneLine(p.service);
    }
    if p.timezone != "" {
      TimezoneIsOneLine(p.timezone);
    }
  }

  lemma PlanIsForBinding(b: Binding)
    requires PlanFor(b.action, b.version, b.parameters).Some?
    ensures var plan := PlanFor(b.action, b.version, b.parameters).value;
      plan.definition.id == b.action && plan.definition.version == b.version && plan.parameters == b.parameters
  {
  }

  lemma ScopePartsAreLines(hash: string -> string, b: Binding)
    requires BuildBoundPlan(hash, PROTOCOL_VERSION, b).Some?
    ensures var plan := PlanFor(b.action, b.version, b.parameters).value;
            forall part :: part in ScopeParts(b.hostId, b.jobId, plan) ==> Free(part, '\n')
  {
    CatalogIsOneLine(b.action, b.version, b.parameters);
    PlanIsForBinding(b);
    IdentifierIsOneLine(b.hostId, 128);
    IdentifierIsOneLine(b.jobId, 128);
    ItoaIsOneLine(b.version);
    ItoaIsOneLine(b.parameters.pid);
    ItoaIsOneLine(b.parameters.ticks);
  }

  lemma BindingPartsAreLines(hash: string -> string, base: string, b: Binding)
    requires BuildBoundPlan(hash, PROTOCOL_VERSION, b).Some? && Free(base, '\n')
    ensures forall part :: part in BindingParts(base, b) ==> Free(part, '\n')
  {
    TargetIsOneLine(b);
    ItoaIsOneLine(b.target.port);
    FingerprintIsOneLine(b.pinnedHostKey);
    FingerprintIsOneLine(b.credentialKey);
  }

  // ---- The digest determines the binding ----

  lemma SameScope(hash: string -> string, a: Binding, b: Binding, pa: Plan, pb: Plan)
    requires BuildBoundPlan(hash, PROTOCOL_VERSION, a).Some? && BuildBoundPlan(hash, PROTOCOL_VERSION, b).Some?
    requires PlanFor(a.action, a.version, a.parameters) == Some(pa)
             && PlanFor(b.action, b.version, b.parameters) == Some(pb)
    requires ScopeText(a, pa) == ScopeText(b, pb)
    ensures a.action == b.action && a.version == b.version && a.hostId == b.hostId && a.jobId == b.jobId
    ensures a.parameters == b.parameters
  {
    var sa, sb := ScopeParts(a.hostId, a.jobId, pa), ScopeParts(b.hostId, b.jobId, pb);
    ScopePartsAreLines(hash, a);
    ScopePartsAreLines(hash, b);
    JoinInjective(sa, sb, '\n');
    PlanIsForBinding(a);
    PlanIsForBinding(b);
    assert sa[1] == sb[1] && sa[2] == sb[2] && sa[3] == sb[3] && sa[4] == sb[4];
    assert sa[5] == sb[5] && sa[6] == sb[6] && sa[7] == sb[7] && sa[8] == sb[8];
    ItoaInjective(a.version, b.version);
    ItoaInjective(a.parameters.pid, b.parameters.pid);
    ItoaInjective(a.parameters.ticks, b.parameters.ticks);
  }

  lemma SameTarget(hash: string -> string, a: Binding, b: Binding, pa: Plan, pb: Plan)
    requires OneLineDigests(hash)
    requires BuildBoundPlan(hash, PROTOCOL_VERSION, a).Some? && BuildBoundPlan(hash, PROTOCOL_VERSION, b).Some?
    requires BindingText(hash, a, pa) == BindingText(hash, b, pb)
    ensures hash(ScopeText(a, pa)) == hash(ScopeText(b, pb))
    ensures a.target == b.target && a.pinnedHostKey == b.pinnedHostKey && a.credentialKey == b.credentialKey
  {
    var ha, hb := hash(ScopeText(a, pa)), hash(ScopeText(b, pb));
    var ba, bb := BindingParts(ha, a), BindingParts(hb, b);
    BindingPartsAreLines(hash, ha, a);
    BindingPartsAreLines(hash, hb, b);
    JoinInjective(ba, bb, '\n');
    assert ba[0] == bb[0] && ba[1] == bb[1] && ba[2] == bb[2] && ba[3] == bb[3] && ba[4] == bb[4] && ba[5] == bb[5];
    ItoaInjective(a.target.port, b.target.port);
  }

  /** The hash collides on the texts that were hashed for the two bindings. */
  predicate Collides(hash: string -> string, a: Binding, b: Binding, pa: Plan, pb: Plan) {
    || Collision(hash, ScopeText(a, pa), ScopeText(b, pb))
    || Collision(hash, BindingText(hash, a, pa), BindingText(hash, b, pb))
  }

  /**
   Two accepted bindings with equal digests are equal in every field (action
   and version, host and job, target, both key fingerprints and all
   parameters), or the hash collides on the very texts hashed for them.
   */
  lemma DigestPinsBinding(hash: string -> string, a: Binding, b: Binding)
    requires OneLineDigests(hash)
    requires BuildBoundPlan(hash, PROTOCOL_VERSION, a).Some? && BuildBoundPlan(hash, PROTOCOL_VERSION, b).Some?
    requires BuildBoundPlan(hash, PROTOCOL_VERSION, a).value.digest
             == BuildBoundPlan(hash, PROTOCOL_VERSION, b).value.digest
    ensures a == b || Collides(hash, a, b, BuildBoundPlan(hash, PROTOCOL_VERSION, a).value.plan,
                               BuildBoundPlan(hash, PROTOCOL_VERSION, b).value.plan)
  {
    var pa, pb := PlanFor(a.action, a.version, a.parameters).value, PlanFor(b.action, b.version, b.parameters).value;
    if !Collides(hash, a, b, pa, pb) {
      SameTarget(hash, a, b, pa, pb);
      SameScope(hash, a, b, pa, pb);
    }
  }

  // ---- Approvals ----

  const MAX_APPROVAL_LIFETIME: int := 15 * 60 * SECOND
  const MAX_EMERGENCY_LIFETIME: int := 4 * 60 * 60 * SECOND

  datatype Approval = Approval(
    decision: string,
    action: string,
    version: int,
    hostId: string,
    jobId: string,
    scopeDigest: string,
    approvedAt: Option<int>,
    expiresAt: Option<int>)

  datatype Emergency = Emergency(incidentId: string, expiresAt: Option<int>)

  predicate ValidReason(s: string) {
    8 <= ByteLength(s) <= 500 && Trimmed(s) && forall c :: c in s ==> !IsControl(c)
  }

  /** An instant is None when it is the zero time. */
  predicate ValidApproval(b: Binding, a: Approval, reason: string, e: Emergency, d: Definition, digest: string,
                          now: int) {
    && a.decision == "approved" && a.action == b.action && a.version == b.version && a.hostId == b.hostId
    && a.jobId == b.jobId
    && a.scopeDigest == digest
    && a.approvedAt.Some? && a.expiresAt.Some?
    && now - MAX_APPROVAL_LIFETIME <= a.approvedAt.value <= now + 30 * SECOND
    && now < a.expiresAt.value <= a.approvedAt.value + MAX_APPROVAL_LIFETIME
    && ValidReason(reason)
    && (if d.emergency then
          BoundedIdentifier(e.incidentId, 128) && e.expiresAt.Some?
          && now < e.expiresAt.value <= now + MAX_EMERGENCY_LIFETIME
        else e.incidentId == "" && e.expiresAt.None?)
  }

  /** The checks of an execute request up to the approval. */
  predicate Admitted(hash: string -> string, b: Binding, a: Approval, reason: string, e: Emergency,
                     mutationsEnabled: bool, now: int) {
    var bound := BuildBoundPlan(hash, PROTOCOL_VERSION, b);
    && bound.Some?
    && (bound.value.plan.definition.mutating ==> mutationsEnabled)
    && ValidApproval(b, a, reason, e, bound.value.plan.definition, bound.value.digest, now)
  }

  /**
   One approval admits one binding: whatever reasons, grants and times two
   execute requests carry, if both are admitted under the same approval they
   bind the same operation on the same target, short of a collision of the
   hash, and less than fifteen minutes and thirty seconds lie between them.
   */
  lemma ApprovalAdmitsOneBinding(hash: string -> string, a: Approval, m: bool,
                                 b1: Binding, r1: string, e1: Emergency, t1: int,
                                 b2: Binding, r2: string, e2: Emergency, t2: int)
    requires OneLineDigests(hash)
    requires Admitted(hash, b1, a, r1, e1, m, t1) && Admitted(hash, b2, a, r2, e2, m, t2)
    ensures t2 - t1 < MAX_APPROVAL_LIFETIME + 30 * SECOND
    ensures b1 == b2 || Collides(hash, b1, b2, BuildBoundPlan(hash, PROTOCOL_VERSION, b1).value.plan,
                                 BuildBoundPlan(hash, PROTOCOL_VERSION, b2).value.plan)
  {
    DigestPinsBinding(hash, b1, b2);
  }

  // ---- When a request is admitted ----

  predicate Changes(plan: Plan) {
    Apply in Phases(plan.steps)
  }

  /** The approval was given, for this action on this host as this job, under this digest. */
  predicate Approves(a: Approval, b: Binding, digest: string) {
    && a.decision == "approved"
    && (a.action, a.version, a.hostId, a.jobId, a.scopeDigest) == (b.action, b.version, b.hostId, b.jobId, digest)
    && a.approvedAt.Some? && a.expiresAt.Some? && a.expiresAt.value - a.approvedAt.value <= MAX_APPROVAL_LIFETIME
  }

  /** The first instant at which approval and grant both count, were they not expired. */
  function Opens(a: Approval, e: Emergency): int
    requires a.approvedAt.Some?
  {
    var approved := a.approvedAt.value - 30 * SECOND;
    if e.expiresAt.None? || e.expiresAt.value - MAX_EMERGENCY_LIFETIME <= approved then approved
    else e.expiresAt.value - MAX_EMERGENCY_LIFETIME
  }

  /** The instant at which the first of approval and grant expires. */
  function Closes(a: Approval, e: Emergency): int
    requires a.expiresAt.Some?
  {
    if e.expiresAt.None? || a.expiresAt.value <= e.expiresAt.value then a.expiresAt.value else e.expiresAt.value
  }

  /**
   A request for an accepted binding is admitted exactly during one interval of
   time, and only if it carries an approval of this binding that was given and
   a reason. A plan that applies a change needs mutations to be enabled and an
   emergency grant besides; any other must come without a grant.
   */
  lemma AdmissionIsExact(hash: string -> string, b: Binding, a: Approval, reason: string, e: Emergency, m: bool,
                         now: int)
    requires BuildBoundPlan(hash, PROTOCOL_VERSION, b).Some?
    ensures var bound := BuildBoundPlan(hash, PROTOCOL_VERSION, b).value;
      Admitted(hash, b, a, reason, e, m, now) <==>
        && Approves(a, b, bound.digest) && ValidReason(reason)
        && (if Changes(bound.plan) then m && BoundedIdentifier(e.incidentId, 128) && e.expiresAt.Some?
            else e == Emergency("", None))
        && Opens(a, e) <= now < Closes(a, e)
  {
    PlanShape(b.action, b.version, b.parameters);
  }

  lemma {:induction false} AsciiLength(s: string)
    requires forall i :: 0 <= i < |s| ==> s[i] as int < 0x80
    ensures ByteLength(s) == |s|
  {
    if s != [] {
      AsciiLength(s[1..]);
    }
  }

  lemma SomeReason() returns (reason: string)
    ensures ValidReason(reason)
  {
    reason := seq(8, _ => 'a');
    AsciiLength(reason);
  }

  lemma SomeIncident() returns (incident: string)
    ensures BoundedIdentifier(incident, 128)
  {
    incident := ['a'];
    AsciiLength(incident);
  }

  /**
   Every accepted binding can be approved, at any time; only a plan that
   changes something needs mutations to be enabled, and without them nothing
   admits it.
   */
  lemma EveryBindingCanBeApproved(hash: string -> string, b: Binding, m: bool, now: int)
    returns (a: Approval, reason: string, e: Emergency)
    requires BuildBoundPlan(hash, PROTOCOL_VERSION, b).Some?
    ensures Admitted(hash, b, a, reason, e, m, now)
            <==> (Changes(BuildBoundPlan(hash, PROTOCOL_VERSION, b).value.plan) ==> m)
  {
    var bound := BuildBoundPlan(hash, PROTOCOL_VERSION, b).value;
    var end := Some(now + MAX_APPROVAL_LIFETIME);
    a := Approval("approved", b.action, b.version, b.hostId, b.jobId, bound.digest, Some(now), end);
    reason := SomeReason();
    var incident := SomeIncident();
    e := if Changes(bound.plan) then Emergency(incident, end) else Emergency("", None);
    AdmissionIsExact(hash, b, a, reason, e, m, now);
  }
}
