/**
 The validator of an AI ranking. Text filters are not modelled:
 `accepts` decides which output texts pass at which length limit. Confidences
 are real numbers.
 */
module Ranking {
  import opened Common
  import opened Text

  const SCHEMA_VERSION := "vpsmanager.ai-analysis.v1"

  const MAX_FINDINGS := 128

  datatype Finding =
    Finding(id: string, ruleId: string, severity: string, confidence: real, textsOk: bool, evidenceOk: bool)

  datatype Ranked = Ranked(findingId: string, rank: int, rationale: string)

  datatype Guidance = Guidance(findingId: string, text: string)

  datatype Recommendation = Recommendation(findingId: string, priority: string, advice: string)

  datatype Analysis = Analysis(
    schemaVersion: string,
    summary: string,
    ranked: seq<Ranked>,
    verification: seq<Guidance>,
    recommendations: seq<Recommendation>,
    executionAllowed: bool)

  // ---- Findings ----

  const SEVERITIES: seq<string> := ["critical", "high", "medium", "low"]
  const PRIORITIES: seq<string> := ["urgent", "high", "normal", "low"]

  predicate ValidFinding(f: Finding) {
    ValidIdentifier(f.id) && ValidIdentifier(f.ruleId) && f.textsOk && f.severity in SEVERITIES
    && 0.0 <= f.confidence <= 1.0 && f.evidenceOk
  }

  predicate DistinctIds(fs: seq<Finding>) {
    forall i, j :: 0 <= i < j < |fs| ==> fs[i].id != fs[j].id
  }

  predicate ValidFindings(fs: seq<Finding>) {
    |fs| <= MAX_FINDINGS && (forall i :: 0 <= i < |fs| ==> ValidFinding(fs[i])) && DistinctIds(fs)
  }

  function Ids(fs: seq<Finding>): set<string> {
    set i | 0 <= i < |fs| :: fs[i].id
  }

  lemma IdsGrow(fs: seq<Finding>, i: nat)
    requires i < |fs|
    ensures Ids(fs[..i + 1]) == Ids(fs[..i]) + {fs[i].id}
  {
    var a, b := fs[..i + 1], fs[..i];
    forall x | x in Ids(a) ensures x in Ids(b) + {fs[i].id} {
      var k :| 0 <= k < |a| && a[k].id == x;
      assert k < i ==> b[k] == a[k];
    }
    forall x | x in Ids(b) ensures x in Ids(a) {
      var k :| 0 <= k < |b| && b[k].id == x;
      assert a[k] == b[k];
    }
    assert a[i] == fs[i];
  }

  method CheckFindings(fs: seq<Finding>) returns (ok: bool)
    ensures ok == ValidFindings(fs)
  {
    if |fs| > MAX_FINDINGS {
      return false;
    }
    var seen: set<string> := {};
    for i := 0 to |fs|
      invariant seen == Ids(fs[..i])
      invariant forall k :: 0 <= k < i ==> ValidFinding(fs[k])
      invariant DistinctIds(fs[..i])
    {
      if !ValidIdentifier(fs[i].id) || !ValidIdentifier(fs[i].ruleId) || !fs[i].textsOk {
        return false;
      }
      if fs[i].id in seen {
        var k :| 0 <= k < i && fs[..i][k].id == fs[i].id;
        assert fs[k].id == fs[i].id;
        return false;
      }
      IdsGrow(fs, i);
      seen := seen + {fs[i].id};
      if fs[i].severity !in SEVERITIES || fs[i].confidence < 0.0 || fs[i].confidence > 1.0 || !fs[i].evidenceOk {
        return false;
      }
    }
    assert fs[..|fs|] == fs;
    return true;
  }

  lemma {:induction false} DistinctIdsCount(fs: seq<Finding>)
    requires DistinctIds(fs)
    ensures |Ids(fs)| == |fs|
  {
    if fs == [] {
      assert Ids(fs) == {};
    } else {
      var n := |fs| - 1;
      DistinctIdsCount(fs[..n]);
      IdsGrow(fs, n);
      assert fs[..n + 1] == fs;
      forall k | 0 <= k < n ensures fs[..n][k].id != fs[n].id {
      }
      assert fs[n].id !in Ids(fs[..n]);
    }
  }

  lemma {:induction false} IdsAtMost(fs: seq<Finding>)
    ensures |Ids(fs)| <= |fs|
  {
    if fs == [] {
      assert Ids(fs) == {};
    } else {
      var n := |fs| - 1;
      IdsAtMost(fs[..n]);
      IdsGrow(fs, n);
      assert fs[..n + 1] == fs;
    }
  }

  /** As many identifiers as findings means that none repeats. */
  lemma {:induction false} CountDistinctIds(fs: seq<Finding>)
    requires |Ids(fs)| == |fs|
    ensures DistinctIds(fs)
  {
    if fs != [] {
      var n := |fs| - 1;
      IdsGrow(fs, n);
      assert fs[..n + 1] == fs;
      IdsAtMost(fs[..n]);
      CountDistinctIds(fs[..n]);
      forall i | 0 <= i < n ensures fs[i].id != fs[n].id {
        assert fs[..n][i].id in Ids(fs[..n]);
      }
      forall i, j | 0 <= i < j < |fs| ensures fs[i].id != fs[j].id {
        assert j < n ==> fs[..n][i].id != fs[..n][j].id;
      }
    }
  }

  // ---- What the validator is for ----

  const MAX_SUMMARY := 2000
  const MAX_TEXT := 600

  /** Whether an output text passes the filters at a length limit. */
  type Filter = (string, nat) -> bool

  predicate ItemOk(item: Ranked, accepts: Filter, known: set<string>, n: nat) {
    item.findingId in known && 1 <= item.rank <= n && accepts(item.rationale, MAX_TEXT)
  }

  predicate GuidanceOk(g: Guidance, accepts: Filter, known: set<string>) {
    g.findingId in known && accepts(g.text, MAX_TEXT)
  }

  predicate RecommendationOk(r: Recommendation, accepts: Filter, known: set<string>) {
    r.findingId in known && r.priority in PRIORITIES && accepts(r.advice, MAX_TEXT)
  }

  predicate Ranks(ranked: seq<Ranked>, r: int) {
    exists i :: 0 <= i < |ranked| && ranked[i].rank == r
  }

  predicate NoRepeats(items: seq<Ranked>) {
    forall i, j :: 0 <= i < j < |items| ==> items[i].rank != items[j].rank && items[i].findingId != items[j].findingId
  }

  /** Every rank from 1 to n is given exactly once, and every finding is ranked exactly once. */
  ghost predicate IsRanking(ranked: seq<Ranked>, ids: set<string>) {
    && |ranked| == |ids|
    && (forall r: int :: 1 <= r <= |ids| ==> Ranks(ranked, r))
    && (forall x :: x in ids ==> exists i :: 0 <= i < |ranked| && ranked[i].findingId == x)
    && NoRepeats(ranked)
  }

  function Max(a: int, b: int): int {
    if a > b then a else b
  }

  /** The header, the sizes and every single item are in order. */
  predicate WellFormed(a: Analysis, ids: set<string>, n: nat, accepts: Filter) {
    && a.schemaVersion == SCHEMA_VERSION && !a.executionAllowed && accepts(a.summary, MAX_SUMMARY)
    && |a.ranked| == n && |a.verification| <= Max(1, n * 3) && |a.recommendations| <= Max(1, n * 2)
    && (forall i :: 0 <= i < |a.ranked| ==> ItemOk(a.ranked[i], accepts, ids, n))
    && (forall i :: 0 <= i < |a.verification| ==> GuidanceOk(a.verification[i], accepts, ids))
    && (forall i :: 0 <= i < |a.recommendations| ==> RecommendationOk(a.recommendations[i], accepts, ids))
  }

  function GuidanceIds(items: seq<Guidance>): set<string> {
    set i | 0 <= i < |items| :: items[i].findingId
  }

  function RecommendationIds(items: seq<Recommendation>): set<string> {
    set i | 0 <= i < |items| :: items[i].findingId
  }

  /** What an accepted analysis promises, in terms of the findings alone. */
  ghost predicate Sound(a: Analysis, fs: seq<Finding>, accepts: Filter) {
    && WellFormed(a, Ids(fs), |fs|, accepts)
    && IsRanking(a.ranked, Ids(fs))
    && Ids(fs) <= GuidanceIds(a.verification) && Ids(fs) <= RecommendationIds(a.recommendations)
  }

  // ---- Pigeonhole ----

  /** The numbers from 1 to n. */
  function Interval(n: nat): (s: set<int>)
    ensures |s| == n && forall r :: r in s <==> 1 <= r <= n
  {
    if n == 0 then {} else Interval(n - 1) + {n}
  }

  /** A subset as large as the whole is the whole. */
  lemma FullSubset<T>(a: set<T>, b: set<T>)
    requires a <= b && |a| == |b|
    ensures a == b
  {
    if a != b {
      var x :| x in b && x !in a;
      SubsetSize(a, b - {x});
    }
  }

  function RankSet(items: seq<Ranked>): set<int> {
    set i | 0 <= i < |items| :: items[i].rank
  }

  function IdSet(items: seq<Ranked>): set<string> {
    set i | 0 <= i < |items| :: items[i].findingId
  }

  lemma SetsGrow(items: seq<Ranked>, i: nat)
    requires i < |items|
    ensures RankSet(items[..i + 1]) == RankSet(items[..i]) + {items[i].rank}
    ensures IdSet(items[..i + 1]) == IdSet(items[..i]) + {items[i].findingId}
  {
    var a, b := items[..i + 1], items[..i];
    assert a == b + [items[i]];
    forall k | 0 <= k < |a|
      ensures a[k].rank in RankSet(b) + {items[i].rank} && a[k].findingId in IdSet(b) + {items[i].findingId}
    {
      assert k < i ==> a[k] == b[k];
    }
    forall k | 0 <= k < |b| ensures b[k].rank in RankSet(a) && b[k].findingId in IdSet(a) {
      assert a[k] == b[k];
    }
    assert a[i] == items[i];
  }

  lemma {:induction false} NoRepeatsCount(items: seq<Ranked>)
    requires NoRepeats(items)
    ensures |RankSet(items)| == |items| && |IdSet(items)| == |items|
  {
    if items == [] {
      assert RankSet(items) == {} && IdSet(items) == {};
    } else {
      var n := |items| - 1;
      NoRepeatsCount(items[..n]);
      SetsGrow(items, n);
      assert items[..n + 1] == items;
      forall k | 0 <= k < n
        ensures items[..n][k].rank != items[n].rank && items[..n][k].findingId != items[n].findingId
      {
      }
      assert items[n].rank !in RankSet(items[..n]) && items[n].findingId !in IdSet(items[..n]);
    }
  }

  /** As many distinct ranks and findings as there are, all within range, leave none out. */
  lemma RankingByPigeonhole(ranked: seq<Ranked>, ids: set<string>)
    requires |ranked| == |ids| && NoRepeats(ranked) && RankSet(ranked) <= Interval(|ids|) && IdSet(ranked) <= ids
    ensures IsRanking(ranked, ids)
  {
    NoRepeatsCount(ranked);
    FullSubset(RankSet(ranked), Interval(|ids|));
    FullSubset(IdSet(ranked), ids);
    forall r: int | 1 <= r <= |ids| ensures Ranks(ranked, r) {
      assert r in RankSet(ranked);
    }
  }

  // ---- The validator ----

  lemma NoRepeatsGrow(items: seq<Ranked>, i: nat)
    requires i < |items| && NoRepeats(items[..i])
    requires items[i].rank !in RankSet(items[..i]) && items[i].findingId !in IdSet(items[..i])
    ensures NoRepeats(items[..i + 1])
  {
    var a, b := items[..i + 1], items[..i];
    forall j, k | 0 <= j < k < |a| ensures a[j].rank != a[k].rank && a[j].findingId != a[k].findingId {
      assert a[j] == b[j] && b[j].rank in RankSet(b) && b[j].findingId in IdSet(b);
      assert k < i ==> a[k] == b[k];
    }
  }

  method CheckRanked(ranked: seq<Ranked>, known: set<string>, n: nat, accepts: Filter) returns (ok: bool)
    ensures ok == (NoRepeats(ranked) && forall i :: 0 <= i < |ranked| ==> ItemOk(ranked[i], accepts, known, n))
  {
    var ranks: set<int>, rankedIds: set<string> := {}, {};
    for i := 0 to |ranked|
      invariant ranks == RankSet(ranked[..i]) && rankedIds == IdSet(ranked[..i])
      invariant NoRepeats(ranked[..i])
      invariant forall k :: 0 <= k < i ==> ItemOk(ranked[k], accepts, known, n)
    {
      var item := ranked[i];
      if item.findingId !in known || item.rank < 1 || item.rank > n || !accepts(item.rationale, MAX_TEXT) {
        return false;
      }
      if item.rank in ranks {
        var k :| 0 <= k < i && ranked[..i][k].rank == item.rank;
        assert ranked[k].rank == item.rank;
        return false;
      }
      if item.findingId in rankedIds {
        var k :| 0 <= k < i && ranked[..i][k].findingId == item.findingId;
        assert ranked[k].findingId == item.findingId;
        return false;
      }
      SetsGrow(ranked, i);
      NoRepeatsGrow(ranked, i);
      ranks, rankedIds := ranks + {item.rank}, rankedIds + {item.findingId};
    }
    assert ranked[..|ranked|] == ranked;
    return true;
  }

  method CheckVerification(items: seq<Guidance>, known: set<string>, accepts: Filter)
    returns (ok: bool, covered: set<string>)
    ensures ok == forall i :: 0 <= i < |items| ==> GuidanceOk(items[i], accepts, known)
    ensures ok ==> covered == GuidanceIds(items)
  {
    covered := {};
    for i := 0 to |items|
      invariant forall k :: 0 <= k < i ==> GuidanceOk(items[k], accepts, known)
      invariant covered == set k | 0 <= k < i :: items[k].findingId
    {
      if items[i].findingId !in known || !accepts(items[i].text, MAX_TEXT) {
        return false, covered;
      }
      covered := covered + {items[i].findingId};
    }
    return true, covered;
  }

  method CheckRecommendations(items: seq<Recommendation>, known: set<string>, accepts: Filter)
    returns (ok: bool, covered: set<string>)
    ensures ok == forall i :: 0 <= i < |items| ==> RecommendationOk(items[i], accepts, known)
    ensures ok ==> covered == RecommendationIds(items)
  {
    covered := {};
    for i := 0 to |items|
      invariant forall k :: 0 <= k < i ==> RecommendationOk(items[k], accepts, known)
      invariant covered == set k | 0 <= k < i :: items[k].findingId
    {
      if items[i].findingId !in known || items[i].priority !in PRIORITIES || !accepts(items[i].advice, MAX_TEXT) {
        return false, covered;
      }
      covered := covered + {items[i].findingId};
    }
    return true, covered;
  }

  /** The checks of the validator, as it makes them: counts and sets. */
  ghost predicate Passes(a: Analysis, fs: seq<Finding>, accepts: Filter) {
    && WellFormed(a, Ids(fs), |fs|, accepts) && NoRepeats(a.ranked)
    && |GuidanceIds(a.verification)| == |fs| && |RecommendationIds(a.recommendations)| == |fs|
  }

  lemma CoveredAreKnown(a: Analysis, ids: set<string>, n: nat, accepts: Filter)
    requires WellFormed(a, ids, n, accepts)
    ensures GuidanceIds(a.verification) <= ids && RecommendationIds(a.recommendations) <= ids
  {
    forall i | 0 <= i < |a.verification| ensures a.verification[i].findingId in ids {
      assert GuidanceOk(a.verification[i], accepts, ids);
    }
    forall i | 0 <= i < |a.recommendations| ensures a.recommendations[i].findingId in ids {
      assert RecommendationOk(a.recommendations[i], accepts, ids);
    }
  }

  lemma PassedIsSound(a: Analysis, fs: seq<Finding>, accepts: Filter)
    requires DistinctIds(fs) && Passes(a, fs, accepts)
    ensures Sound(a, fs, accepts)
  {
    var ids := Ids(fs);
    DistinctIdsCount(fs);
    forall i | 0 <= i < |a.ranked| ensures a.ranked[i].rank in Interval(|ids|) && a.ranked[i].findingId in ids {
      assert ItemOk(a.ranked[i], accepts, ids, |fs|);
    }
    RankingByPigeonhole(a.ranked, ids);
    CoveredAreKnown(a, ids, |fs|, accepts);
    FullSubset(GuidanceIds(a.verification), ids);
    FullSubset(RecommendationIds(a.recommendations), ids);
  }

  lemma SoundPasses(a: Analysis, fs: seq<Finding>, accepts: Filter)
    requires DistinctIds(fs) && Sound(a, fs, accepts)
    ensures Passes(a, fs, accepts)
  {
    DistinctIdsCount(fs);
    CoveredAreKnown(a, Ids(fs), |fs|, accepts);
    assert GuidanceIds(a.verification) == Ids(fs) && RecommendationIds(a.recommendations) == Ids(fs);
  }

  /** Counting suffices: for findings with distinct identifiers the validator accepts exactly the sound analyses. */
  lemma PassesIsSound(a: Analysis, fs: seq<Finding>, accepts: Filter)
    requires DistinctIds(fs)
    ensures Passes(a, fs, accepts) <==> Sound(a, fs, accepts)
  {
    if Passes(a, fs, accepts) {
      PassedIsSound(a, fs, accepts);
    }
    if Sound(a, fs, accepts) {
      SoundPasses(a, fs, accepts);
    }
  }

  method CheckAnalysis(a: Analysis, fs: seq<Finding>, accepts: Filter) returns (ok: bool)
    ensures ok == Passes(a, fs, accepts)
    ensures ok && DistinctIds(fs) ==> Sound(a, fs, accepts)
  {
    if a.schemaVersion != SCHEMA_VERSION || a.executionAllowed {
      return false;
    }
    if !accepts(a.summary, MAX_SUMMARY) {
      return false;
    }
    if |a.ranked| != |fs| || |a.verification| > Max(1, |fs| * 3) || |a.recommendations| > Max(1, |fs| * 2) {
      return false;
    }
    var known := Ids(fs);
    var rankedOk := CheckRanked(a.ranked, known, |fs|, accepts);
    if !rankedOk {
      return false;
    }
    if |fs| > 0 && (|a.verification| == 0 || |a.recommendations| == 0) {
      assert |a.verification| == 0 ==> GuidanceIds(a.verification) == {};
      assert |a.recommendations| == 0 ==> RecommendationIds(a.recommendations) == {};
      return false;
    }
    var verificationOk, verified := CheckVerification(a.verification, known, accepts);
    if !verificationOk {
      return false;
    }
    var recommendationsOk, recommended := CheckRecommendations(a.recommendations, known, accepts);
    if !recommendationsOk {
      return false;
    }
    if |verified| != |fs| || |recommended| != |fs| {
      return false;
    }
    if DistinctIds(fs) {
      PassesIsSound(a, fs, accepts);
    }
    return true;
  }
}
