/**
 The deterministic ranking used when no model answers: findings by severity,
 then confidence, then rule, ties in their original order.
 */
module RankingFallback {
  import opened Text
  import opened Ranking
  import opened Sorting

  function SeverityWeight(severity: string): int {
    if severity == "critical" then 4
    else if severity == "high" then 3
    else if severity == "medium" then 2
    else if severity == "low" then 1
    else 0
  }

  function PriorityFor(severity: string): string {
    if severity == "critical" then "urgent"
    else if severity == "high" then "high"
    else if severity == "medium" then "normal"
    else "low"
  }

  /** `a` has to come before `b`: more severe, else more confident, else an earlier rule. */
  predicate Before(a: Finding, b: Finding) {
    var wa, wb := SeverityWeight(a.severity), SeverityWeight(b.severity);
    wa > wb || (wa == wb && (a.confidence > b.confidence || (a.confidence == b.confidence && Less(a.ruleId, b.ruleId))))
  }

  lemma BeforeIsAsymmetric(a: Finding, b: Finding)
    ensures Before(a, b) ==> !Before(b, a)
  {
    if Less(a.ruleId, b.ruleId) && Less(b.ruleId, a.ruleId) {
      LessTransitive(a.ruleId, b.ruleId, a.ruleId);
      LessIrreflexive(a.ruleId);
    }
  }

  lemma BeforeIsWeaklyTransitive(a: Finding, b: Finding, c: Finding)
    ensures !Before(b, a) && !Before(c, b) ==> !Before(c, a)
  {
    LessTotal(a.ruleId, b.ruleId);
    LessTotal(b.ruleId, c.ruleId);
    if Less(c.ruleId, a.ruleId) && Less(a.ruleId, b.ruleId) {
      LessTransitive(c.ruleId, a.ruleId, b.ruleId);
    }
  }

  lemma BeforeIsWeakOrder()
    ensures WeakOrder(Before)
  {
    forall a: Finding, b: Finding ensures Before(a, b) ==> !Before(b, a) {
      BeforeIsAsymmetric(a, b);
    }
    forall a: Finding, b: Finding, c: Finding ensures !Before(b, a) && !Before(c, b) ==> !Before(c, a) {
      BeforeIsWeaklyTransitive(a, b, c);
    }
  }

  /** The findings by severity, then confidence, then rule; ties keep their order. */
  function Rank(fs: seq<Finding>): seq<Finding> {
    Sort(fs, Before)
  }

  /**
   The ranked findings are the findings, in order, and of two the earlier stays
   earlier unless the later has to come first.
   */
  lemma RankedInOrder(fs: seq<Finding>)
    ensures Ordered(Rank(fs), Before) && multiset(Rank(fs)) == multiset(fs) && |Rank(fs)| == |fs|
    ensures forall i, j :: 0 <= i < j < |fs| && !Before(fs[j], fs[i]) ==> Precedes(Rank(fs), fs[i], fs[j])
  {
    BeforeIsWeakOrder();
    SortOrders(fs, Before);
    forall i, j | 0 <= i < j < |fs| && !Before(fs[j], fs[i]) ensures Precedes(Rank(fs), fs[i], fs[j]) {
      SortIsStable(fs, Before, i, j);
    }
  }

  /**
   Of any two ranked findings the earlier is at least as severe, in the order
   of `SEVERITIES`; at least as confident, if they are equally severe; and not
   of a later rule, if they are equally confident too.
   */
  lemma RankedByUrgency(fs: seq<Finding>, i: nat, j: nat, x: nat, y: nat)
    requires i < j < |Rank(fs)| && x < |SEVERITIES| && y < |SEVERITIES|
    requires Rank(fs)[i].severity == SEVERITIES[x] && Rank(fs)[j].severity == SEVERITIES[y]
    ensures x <= y
    ensures x == y ==>
      var a, b := Rank(fs)[i], Rank(fs)[j];
      a.confidence >= b.confidence && (a.confidence == b.confidence ==> !Less(b.ruleId, a.ruleId))
  {
    RankedInOrder(fs);
    assert !Before(Rank(fs)[j], Rank(fs)[i]);
    assert SeverityWeight(SEVERITIES[x]) == 4 - x && SeverityWeight(SEVERITIES[y]) == 4 - y;
  }

  // ---- The fallback analysis ----

  /** The fixed texts of the fallback; two of them show what they are given. */
  datatype Texts = Texts(
    empty: string,
    summary: nat -> string,
    rationale: (string, real) -> string,
    verification: string,
    advice: string)

  /** The texts pass the filters for all numbers, severities and confidences that valid findings can have. */
  ghost predicate AllAccepted(texts: Texts, accepts: Filter) {
    && accepts(texts.empty, MAX_SUMMARY) && accepts(texts.verification, MAX_TEXT) && accepts(texts.advice, MAX_TEXT)
    && (forall n: nat :: 1 <= n <= MAX_FINDINGS ==> accepts(texts.summary(n), MAX_SUMMARY))
    && (forall s: string, c: real :: s in SEVERITIES && 0.0 <= c <= 1.0 ==> accepts(texts.rationale(s, c), MAX_TEXT))
  }

  predicate IsFallbackItem(a: Analysis, s: seq<Finding>, texts: Texts, i: nat) {
    && i < |s| && i < |a.ranked| && i < |a.verification| && i < |a.recommendations|
    && a.ranked[i] == Ranked(s[i].id, i + 1, texts.rationale(s[i].severity, s[i].confidence))
    && a.verification[i] == Guidance(s[i].id, texts.verification)
    && a.recommendations[i] == Recommendation(s[i].id, PriorityFor(s[i].severity), texts.advice)
  }

  /** What the fallback produces for `fs`. */
  ghost predicate IsFallback(a: Analysis, fs: seq<Finding>, texts: Texts) {
    && a.schemaVersion == SCHEMA_VERSION && !a.executionAllowed
    && a.summary == (if fs == [] then texts.empty else texts.summary(|fs|))
    && |a.ranked| == |a.verification| == |a.recommendations| == |fs| == |Rank(fs)|
    && forall i :: 0 <= i < |fs| ==> IsFallbackItem(a, Rank(fs), texts, i)
  }

  method DeterministicAnalysis(fs: seq<Finding>, texts: Texts) returns (a: Analysis)
    ensures IsFallback(a, fs, texts)
  {
    var ordered := Rank(fs);
    RankedInOrder(fs);
    a := Analysis(SCHEMA_VERSION, texts.empty, [], [], [], false);
    if |ordered| == 0 {
      return;
    }
    a := a.(summary := texts.summary(|ordered|));
    for i := 0 to |ordered|
      invariant a.schemaVersion == SCHEMA_VERSION && !a.executionAllowed && a.summary == texts.summary(|fs|)
      invariant |a.ranked| == |a.verification| == |a.recommendations| == i
      invariant forall k :: 0 <= k < i ==> IsFallbackItem(a, ordered, texts, k)
    {
      var f := ordered[i];
      ghost var before := a;
      a := a.(ranked := a.ranked + [Ranked(f.id, i + 1, texts.rationale(f.severity, f.confidence))],
              verification := a.verification + [Guidance(f.id, texts.verification)],
              recommendations := a.recommendations + [Recommendation(f.id, PriorityFor(f.severity), texts.advice)]);
      forall k | 0 <= k < i + 1 ensures IsFallbackItem(a, ordered, texts, k) {
        assert k < i ==> IsFallbackItem(before, ordered, texts, k);
      }
    }
  }

  lemma SameIds(s: seq<Finding>, t: seq<Finding>)
    requires multiset(s) == multiset(t)
    ensures Ids(s) == Ids(t)
  {
    SameMembers(s, t);
    forall i | 0 <= i < |s| ensures s[i].id in Ids(t) {
      assert s[i] in t;
    }
    forall i | 0 <= i < |t| ensures t[i].id in Ids(s) {
      assert t[i] in s;
    }
  }

  /** Sorting loses no identifier and repeats none. */
  lemma RankKeepsIds(fs: seq<Finding>)
    requires DistinctIds(fs)
    ensures DistinctIds(Rank(fs)) && Ids(Rank(fs)) == Ids(fs)
  {
    RankedInOrder(fs);
    SameIds(Rank(fs), fs);
    DistinctIdsCount(fs);
    CountDistinctIds(Rank(fs));
  }

  lemma FallbackRanks(a: Analysis, fs: seq<Finding>, texts: Texts)
    requires DistinctIds(fs) && IsFallback(a, fs, texts)
    ensures IsRanking(a.ranked, Ids(fs)) && |Ids(fs)| == |fs|
  {
    var s := Rank(fs);
    RankKeepsIds(fs);
    DistinctIdsCount(fs);
    forall i | 0 <= i < |fs| ensures a.ranked[i].rank == i + 1 && a.ranked[i].findingId == s[i].id {
      assert IsFallbackItem(a, s, texts, i);
    }
    forall i | 0 <= i < |fs| ensures a.ranked[i].rank in Interval(|fs|) && a.ranked[i].findingId in Ids(s) {
      assert s[i].id in Ids(s);
    }
    RankingByPigeonhole(a.ranked, Ids(fs));
  }

  lemma FallbackCovers(a: Analysis, fs: seq<Finding>, texts: Texts)
    requires DistinctIds(fs) && IsFallback(a, fs, texts)
    ensures Ids(fs) <= GuidanceIds(a.verification) && Ids(fs) <= RecommendationIds(a.recommendations)
  {
    RankKeepsIds(fs);
    forall x | x in Ids(fs) ensures x in GuidanceIds(a.verification) && x in RecommendationIds(a.recommendations) {
      var i :| 0 <= i < |Rank(fs)| && Rank(fs)[i].id == x;
      assert IsFallbackItem(a, Rank(fs), texts, i);
      assert a.verification[i].findingId == x && a.recommendations[i].findingId == x;
    }
  }

  /** What is ranked are the findings, so each is valid. */
  lemma RankedAreValid(fs: seq<Finding>, i: nat)
    requires ValidFindings(fs) && i < |Rank(fs)|
    ensures ValidFinding(Rank(fs)[i]) && Rank(fs)[i].id in Ids(fs)
  {
    RankedInOrder(fs);
    SameMembers(Rank(fs), fs);
    RankKeepsIds(fs);
    assert Rank(fs)[i] in Rank(fs) && Rank(fs)[i].id in Ids(Rank(fs));
  }

  lemma PriorityIsValid(severity: string)
    ensures PriorityFor(severity) in PRIORITIES
  {
    assert PRIORITIES[0] == "urgent" && PRIORITIES[1] == "high" && PRIORITIES[2] == "normal" && PRIORITIES[3] == "low";
  }

  /** The recommendation at a place gives the priority of the finding's severity: the same place in both lists. */
  lemma PriorityFollowsSeverity(a: Analysis, fs: seq<Finding>, texts: Texts, i: nat, x: nat)
    requires IsFallback(a, fs, texts) && i < |fs| && x < |SEVERITIES| && Rank(fs)[i].severity == SEVERITIES[x]
    ensures a.recommendations[i].findingId == Rank(fs)[i].id && a.recommendations[i].priority == PRIORITIES[x]
  {
    assert IsFallbackItem(a, Rank(fs), texts, i);
    assert SEVERITIES == ["critical", "high", "medium", "low"];
  }

  lemma FallbackItemPasses(a: Analysis, fs: seq<Finding>, texts: Texts, accepts: Filter, i: nat)
    requires ValidFindings(fs) && IsFallback(a, fs, texts) && AllAccepted(texts, accepts) && i < |fs|
    ensures ItemOk(a.ranked[i], accepts, Ids(fs), |fs|)
    ensures GuidanceOk(a.verification[i], accepts, Ids(fs))
    ensures RecommendationOk(a.recommendations[i], accepts, Ids(fs))
  {
    RankedAreValid(fs, i);
    assert IsFallbackItem(a, Rank(fs), texts, i);
    PriorityIsValid(Rank(fs)[i].severity);
  }

  lemma FallbackIsWellFormed(a: Analysis, fs: seq<Finding>, texts: Texts, accepts: Filter)
    requires ValidFindings(fs) && IsFallback(a, fs, texts) && AllAccepted(texts, accepts)
    ensures WellFormed(a, Ids(fs), |fs|, accepts)
  {
    forall i | 0 <= i < |fs|
      ensures ItemOk(a.ranked[i], accepts, Ids(fs), |fs|)
      ensures GuidanceOk(a.verification[i], accepts, Ids(fs))
      ensures RecommendationOk(a.recommendations[i], accepts, Ids(fs))
    {
      FallbackItemPasses(a, fs, texts, accepts, i);
    }
  }

  /**
   The fallback always passes: for all valid findings, and texts that pass the
   filters for what valid findings can put into them, its analysis is sound,
   so the validator accepts it.
   */
  lemma FallbackIsSound(a: Analysis, fs: seq<Finding>, texts: Texts, accepts: Filter)
    requires ValidFindings(fs) && IsFallback(a, fs, texts) && AllAccepted(texts, accepts)
    ensures Sound(a, fs, accepts) && Passes(a, fs, accepts)
  {
    FallbackIsWellFormed(a, fs, texts, accepts);
    FallbackRanks(a, fs, texts);
    FallbackCovers(a, fs, texts);
    PassesIsSound(a, fs, accepts);
  }
}
