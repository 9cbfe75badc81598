/**
 The in-process repository: assets in a map under a length-prefixed composite
 key, audit events in a slice, and cursor paging over both. Strings are byte
 sequences. The checks on fields other than identifiers are one flag.
 */
module PagedStore {
  import opened Common
  import opened Text
  import opened Sorting

  const DEFAULT_LIST_LIMIT := 100
  const MAX_LIST_LIMIT := 500

  function NormalizeLimit(limit: int): (n: nat)
    ensures 1 <= n <= MAX_LIST_LIMIT && (1 <= limit <= MAX_LIST_LIMIT ==> n == limit)
    ensures (limit <= 0 ==> n == DEFAULT_LIST_LIMIT) && (limit > MAX_LIST_LIMIT ==> n == MAX_LIST_LIMIT)
  {
    if limit <= 0 then DEFAULT_LIST_LIMIT else if limit > MAX_LIST_LIMIT then MAX_LIST_LIMIT else limit
  }

  datatype Result = Ok | Invalid | NotFound | Conflict

  // ---- Composite keys ----

  function Composite(parts: seq<string>): string {
    if parts == [] then "" else Digits(|parts[0]|) + [':'] + (parts[0] + ['|'] + Composite(parts[1..]))
  }

  lemma CompositeStep(key: string, parts: seq<string>, i: nat, piece: string)
    requires i < |parts| && piece == Digits(|parts[i]|) + [':'] + parts[i] + ['|']
    ensures key + Composite(parts[i..]) == (key + piece) + Composite(parts[i + 1..])
  {
    var rest := Composite(parts[i + 1..]);
    assert parts[i..][1..] == parts[i + 1..];
    assert Composite(parts[i..]) == piece + rest;
    assert key + (piece + rest) == (key + piece) + rest;
  }

  method BuildComposite(parts: seq<string>) returns (key: string)
    ensures key == Composite(parts)
  {
    key := "";
    for i := 0 to |parts|
      invariant Composite(parts) == key + Composite(parts[i..])
    {
      var piece := Digits(|parts[i]|) + [':'] + parts[i] + ['|'];
      CompositeStep(key, parts, i, piece);
      key := key + piece;
    }
    assert parts[|parts|..] == [];
  }

  /** Different lists of parts have different keys, whatever the parts contain and however many there are. */
  lemma {:induction false} CompositeInjective(a: seq<string>, b: seq<string>)
    ensures Composite(a) == Composite(b) ==> a == b
  {
    if a != [] && b != [] && Composite(a) == Composite(b) {
      DigitsAreDigits(|a[0]|);
      DigitsAreDigits(|b[0]|);
      FirstSeparator(Digits(|a[0]|), a[0] + ['|'] + Composite(a[1..]),
                     Digits(|b[0]|), b[0] + ['|'] + Composite(b[1..]), ':');
      ParseDigits(|a[0]|);
      ParseDigits(|b[0]|);
      var x, y := a[0] + ['|'] + Composite(a[1..]), b[0] + ['|'] + Composite(b[1..]);
      assert a[0] == x[..|a[0]|] && b[0] == y[..|b[0]|];
      assert Composite(a[1..]) == x[|a[0]| + 1..] && Composite(b[1..]) == y[|b[0]| + 1..];
      CompositeInjective(a[1..], b[1..]);
      assert a == [a[0]] + a[1..] && b == [b[0]] + b[1..];
    }
  }

  // ---- Assets ----

  type Version = v: int | 0 <= v < 0x1_0000_0000_0000_0000

  const LAST_VERSION: Version := 0xFFFF_FFFF_FFFF_FFFF

  /** Addition on 64 bits wraps around. */
  function Successor(v: Version): Version {
    (v + 1) % 0x1_0000_0000_0000_0000
  }

  datatype Asset = Asset(installationId: string, id: string, version: Version, detailsOk: bool)

  predicate ValidAsset(a: Asset) {
    ValidIdentifier(a.installationId) && ValidIdentifier(a.id) && a.detailsOk
  }

  function KeyOf(a: Asset): string {
    Composite([a.installationId, a.id])
  }

  ghost predicate Filed(assets: map<string, Asset>) {
    forall k :: k in assets ==> k == KeyOf(assets[k]) && ValidAsset(assets[k])
  }

  function Lookup(assets: map<string, Asset>, installationId: string, id: string): Option<Asset> {
    var key := Composite([installationId, id]);
    if key in assets then Some(assets[key]) else None
  }

  lemma KeysDiffer(a: Asset, installationId: string, id: string)
    ensures KeyOf(a) == Composite([installationId, id]) <==> a.installationId == installationId && a.id == id
  {
    CompositeInjective([a.installationId, a.id], [installationId, id]);
    var x, y := [a.installationId, a.id], [installationId, id];
    assert x == y ==> x[0] == y[0] && x[1] == y[1];
  }

  predicate Stored(assets: map<string, Asset>, a: Asset) {
    Lookup(assets, a.installationId, a.id) == Some(a)
  }

  predicate Wanted(a: Asset, installationId: string, after: string) {
    a.installationId == installationId && Less(after, a.id)
  }

  predicate ById(a: Asset, b: Asset) {
    Less(a.id, b.id)
  }

  /** Exactly the wanted assets, each once, in ascending order of identifier. */
  ghost predicate Listing(assets: map<string, Asset>, installationId: string, after: string, all: seq<Asset>) {
    && Strict(all, ById)
    && (forall a :: a in all <==> Stored(assets, a) && Wanted(a, installationId, after))
  }

  lemma ByIdIsWeakOrder()
    ensures WeakOrder(ById)
  {
    forall a: Asset, b: Asset ensures ById(a, b) ==> !ById(b, a) {
      if ById(a, b) && ById(b, a) {
        LessTransitive(a.id, b.id, a.id);
        LessIrreflexive(a.id);
      }
    }
    forall a: Asset, b: Asset, c: Asset ensures !ById(b, a) && !ById(c, b) ==> !ById(c, a) {
      LessTotal(a.id, b.id);
      LessTotal(b.id, c.id);
      if ById(c, a) && ById(a, b) {
        LessTransitive(c.id, a.id, b.id);
      }
    }
  }

  lemma ListingUnique(assets: map<string, Asset>, installationId: string, after: string, x: seq<Asset>, y: seq<Asset>)
    requires Listing(assets, installationId, after, x) && Listing(assets, installationId, after, y)
    ensures x == y
  {
    ByIdIsWeakOrder();
    StrictUnique(x, y, ById);
  }

  /** Continuing after the identifier of the last asset seen leaves exactly the rest. */
  lemma ListingContinues(assets: map<string, Asset>, installationId: string, after: string, all: seq<Asset>, n: nat)
    requires Listing(assets, installationId, after, all) && 0 < n <= |all|
    ensures Listing(assets, installationId, all[n - 1].id, all[n..])
  {
    ByIdIsWeakOrder();
    RestIsBehind(all, ById, n);
    var last := all[n - 1];
    assert last in all;
    forall a ensures a in all[n..] <==> Stored(assets, a) && Wanted(a, installationId, last.id) {
      if Less(last.id, a.id) {
        LessTransitive(after, last.id, a.id);
      }
    }
  }

  function FirstPage<T>(all: seq<T>, limit: int): seq<T> {
    if |all| > NormalizeLimit(limit) then all[..NormalizeLimit(limit)] else all
  }

  /** The page after the first `k` assets carries on where they end, and is empty only at the end. */
  lemma NextPage(assets: map<string, Asset>, installationId: string, all: seq<Asset>, k: nat, rest: seq<Asset>,
                 limit: int)
    requires Listing(assets, installationId, "", all) && 0 < k <= |all|
    requires Listing(assets, installationId, all[k - 1].id, rest)
    ensures var page := FirstPage(rest, limit);
            && k + |page| <= |all| && all[..k] + page == all[..k + |page|]
            && (page == [] ==> k == |all|)
            && (page != [] ==> page[|page| - 1] == all[k + |page| - 1])
  {
    ListingContinues(assets, installationId, "", all, k);
    ListingUnique(assets, installationId, all[k - 1].id, rest, all[k..]);
  }

  // ---- Audits ----

  /** Timestamps count from the zero time, which a filter takes for no bound. */
  datatype Audit = Audit(installationId: string, id: string, timestamp: int, detailsOk: bool)

  datatype Cursor = Cursor(before: int, beforeId: string)

  const START := Cursor(0, "")

  predicate ValidAudit(e: Audit) {
    ValidIdentifier(e.installationId) && ValidIdentifier(e.id) && e.detailsOk
  }

  predicate SameAudit(a: Audit, b: Audit) {
    a.installationId == b.installationId && a.id == b.id
  }

  predicate Recorded(audits: seq<Audit>, e: Audit) {
    exists i :: 0 <= i < |audits| && SameAudit(audits[i], e)
  }

  ghost predicate WellKept(audits: seq<Audit>) {
    && (forall i :: 0 <= i < |audits| ==> ValidAudit(audits[i]))
    && (forall i, j :: 0 <= i < j < |audits| ==> !SameAudit(audits[i], audits[j]))
  }

  predicate Newer(a: Audit, b: Audit) {
    if a.timestamp == b.timestamp then Less(b.id, a.id) else a.timestamp > b.timestamp
  }

  predicate Passes(e: Audit, installationId: string, cursor: Cursor) {
    && e.installationId == installationId
    && (cursor.before != 0 ==>
          && e.timestamp <= cursor.before
          && (e.timestamp == cursor.before ==> Less(e.id, if cursor.beforeId == "" then "~" else cursor.beforeId)))
  }

  function Filtered(audits: seq<Audit>, installationId: string, cursor: Cursor): seq<Audit> {
    if audits == [] then [] else
    var e := audits[|audits| - 1];
    Filtered(audits[..|audits| - 1], installationId, cursor) + if Passes(e, installationId, cursor) then [e] else []
  }

  /** What a page without limit would hold. */
  function Remaining(audits: seq<Audit>, installationId: string, cursor: Cursor): seq<Audit> {
    Sort(Filtered(audits, installationId, cursor), Newer)
  }

  function AuditPage(audits: seq<Audit>, installationId: string, limit: int, cursor: Cursor): seq<Audit> {
    FirstPage(Remaining(audits, installationId, cursor), limit)
  }

  function NextCursor(page: seq<Audit>): Cursor
    requires page != []
  {
    Cursor(page[|page| - 1].timestamp, page[|page| - 1].id)
  }

  function Pages(audits: seq<Audit>, installationId: string, limit: int): Cursor -> seq<Audit> {
    cursor => AuditPage(audits, installationId, limit, cursor)
  }

  /** What a caller has received after at most `rounds` requests, and whether an empty page has told it to stop. */
  function Walk(pages: Cursor -> seq<Audit>, cursor: Cursor, rounds: nat): (seq<Audit>, bool)
    decreases rounds
  {
    if rounds == 0 then ([], false) else
    var page := pages(cursor);
    if page == [] then ([], true) else
    var (rest, done) := Walk(pages, NextCursor(page), rounds - 1);
    (page + rest, done)
  }

  lemma NewerIsWeakOrder()
    ensures WeakOrder(Newer)
  {
    forall a: Audit, b: Audit ensures Newer(a, b) ==> !Newer(b, a) {
      if Newer(a, b) && Newer(b, a) {
        LessTransitive(a.id, b.id, a.id);
        LessIrreflexive(a.id);
      }
    }
    forall a: Audit, b: Audit, c: Audit ensures !Newer(b, a) && !Newer(c, b) ==> !Newer(c, a) {
      LessTotal(a.id, b.id);
      LessTotal(b.id, c.id);
      if Newer(c, a) && a.timestamp == b.timestamp == c.timestamp && Less(b.id, a.id) {
        LessTransitive(b.id, a.id, c.id);
      }
    }
  }

  lemma {:induction false} FilteredMembers(audits: seq<Audit>, installationId: string, cursor: Cursor, e: Audit)
    ensures e in Filtered(audits, installationId, cursor) <==> e in audits && Passes(e, installationId, cursor)
  {
    if audits != [] {
      var front := audits[..|audits| - 1];
      assert audits == front + [audits[|audits| - 1]];
      FilteredMembers(front, installationId, cursor, e);
    }
  }

  lemma {:induction false} FilteredComparable(audits: seq<Audit>, installationId: string, cursor: Cursor)
    requires WellKept(audits)
    ensures Comparable(Filtered(audits, installationId, cursor), Newer)
  {
    if audits != [] {
      var front, last := audits[..|audits| - 1], audits[|audits| - 1];
      var found := Filtered(front, installationId, cursor);
      FilteredComparable(front, installationId, cursor);
      if Passes(last, installationId, cursor) {
        forall i | 0 <= i < |found| ensures Newer(found[i], last) || Newer(last, found[i]) {
          FilteredMembers(front, installationId, cursor, found[i]);
          var k :| 0 <= k < |front| && front[k] == found[i];
          assert !SameAudit(audits[k], last);
          LessTotal(found[i].id, last.id);
        }
      }
    }
  }

  /** Newest first and nothing twice: exactly the recorded events that pass the filter. */
  lemma RemainingIsExact(audits: seq<Audit>, installationId: string, cursor: Cursor)
    requires WellKept(audits)
    ensures Strict(Remaining(audits, installationId, cursor), Newer)
    ensures forall e :: e in Remaining(audits, installationId, cursor) <==>
              e in audits && Passes(e, installationId, cursor)
  {
    NewerIsWeakOrder();
    FilteredComparable(audits, installationId, cursor);
    SortStrictly(Filtered(audits, installationId, cursor), Newer);
    forall e
      ensures e in Remaining(audits, installationId, cursor) <==> e in audits && Passes(e, installationId, cursor)
    {
      FilteredMembers(audits, installationId, cursor, e);
    }
  }

  /**
   Where the cursor of the event at `n - 1` leads: on to the rest, or back to
   the start if the event has the zero time.
   */
  lemma CursorLeads(audits: seq<Audit>, installationId: string, n: nat)
    requires WellKept(audits) && 0 < n <= |Remaining(audits, installationId, START)|
    ensures var all := Remaining(audits, installationId, START);
            var last := all[n - 1];
            Remaining(audits, installationId, Cursor(last.timestamp, last.id))
            == if last.timestamp == 0 then all else all[n..]
  {
    var all := Remaining(audits, installationId, START);
    var last := all[n - 1];
    var cursor := Cursor(last.timestamp, last.id);
    RemainingIsExact(audits, installationId, START);
    RemainingIsExact(audits, installationId, cursor);
    NewerIsWeakOrder();
    assert last in all;
    if last.timestamp == 0 {
      StrictUnique(Remaining(audits, installationId, cursor), all, Newer);
    } else {
      RestIsBehind(all, Newer, n);
      assert last.id != "";
      StrictUnique(Remaining(audits, installationId, cursor), all[n..], Newer);
    }
  }

  function PageEnd(all: seq<Audit>, n: nat, p: nat): (e: nat)
    requires 0 < n && p <= |all|
    ensures p <= e <= |all| && (p < |all| ==> p < e)
  {
    if |all| - p > n then p + n else |all|
  }

  /** No page, counted from position `p` in pages of `n`, ends in an event with the zero time. */
  predicate PagesEndDated(all: seq<Audit>, n: nat, p: nat)
    requires 0 < n && p <= |all|
    decreases |all| - p
  {
    p < |all| ==> all[PageEnd(all, n, p) - 1].timestamp != 0 && PagesEndDated(all, n, PageEnd(all, n, p))
  }

  function Slice(all: seq<Audit>, n: nat, p: nat): seq<Audit>
    requires 0 < n && p <= |all|
  {
    all[p..PageEnd(all, n, p)]
  }

  predicate Leads(pages: Cursor -> seq<Audit>, all: seq<Audit>, n: nat, e: nat)
    requires 0 < n && 0 < e <= |all|
  {
    var last := all[e - 1];
    pages(Cursor(last.timestamp, last.id)) == Slice(all, n, if last.timestamp == 0 then 0 else e)
  }

  /** The pages are slices of `all`; the cursor of an event with the zero time leads back to the first one. */
  ghost predicate Serves(pages: Cursor -> seq<Audit>, all: seq<Audit>, n: nat)
    requires 0 < n
  {
    pages(START) == Slice(all, n, 0) && forall e :: 0 < e <= |all| ==> Leads(pages, all, n, e)
  }

  lemma FirstIsSlice(all: seq<Audit>, limit: int, p: nat)
    requires p <= |all|
    ensures FirstPage(all[p..], limit) == Slice(all, NormalizeLimit(limit), p)
  {
  }

  lemma PagesServe(audits: seq<Audit>, installationId: string, limit: int)
    requires WellKept(audits)
    ensures Serves(Pages(audits, installationId, limit), Remaining(audits, installationId, START),
                   NormalizeLimit(limit))
  {
    var all, n := Remaining(audits, installationId, START), NormalizeLimit(limit);
    var pages := Pages(audits, installationId, limit);
    forall e | 0 < e <= |all| ensures Leads(pages, all, n, e) {
      CursorLeads(audits, installationId, e);
      var last := all[e - 1];
      FirstIsSlice(all, limit, if last.timestamp == 0 then 0 else e);
      assert all[0..] == all;
    }
    FirstIsSlice(all, limit, 0);
    assert all[0..] == all;
  }

  lemma {:induction false} DatedWalk(pages: Cursor -> seq<Audit>, all: seq<Audit>, n: nat, cursor: Cursor, p: nat,
                                     rounds: nat)
    requires 0 < n && Serves(pages, all, n) && p <= |all| < p + rounds
    requires pages(cursor) == Slice(all, n, p) && PagesEndDated(all, n, p)
    ensures Walk(pages, cursor, rounds) == (all[p..], true)
    decreases rounds
  {
    if p == |all| {
      assert pages(cursor) == [] && all[p..] == [];
    } else {
      var e := PageEnd(all, n, p);
      assert Leads(pages, all, n, e);
      DatedWalk(pages, all, n, NextCursor(all[p..e]), e, rounds - 1);
      assert all[p..e] + all[e..] == all[p..];
    }
  }

  lemma {:induction false} LostWalk(pages: Cursor -> seq<Audit>, all: seq<Audit>, n: nat, cursor: Cursor, p: nat,
                                    rounds: nat)
    requires 0 < n && Serves(pages, all, n) && p <= |all|
    requires pages(cursor) == Slice(all, n, p) && !PagesEndDated(all, n, p) && !PagesEndDated(all, n, 0)
    ensures !Walk(pages, cursor, rounds).1
    decreases rounds
  {
    if rounds > 0 {
      var e := PageEnd(all, n, p);
      assert Leads(pages, all, n, e);
      LostWalk(pages, all, n, NextCursor(all[p..e]), if all[e - 1].timestamp == 0 then 0 else e, rounds - 1);
    }
  }

  /**
   Following the last event's cursor returns every event of the installation once, newest first, and stops, exactly
   when no page ends in an event with the zero time; otherwise no number of requests is enough.
   */
  lemma AuditPagingIsComplete(audits: seq<Audit>, installationId: string, limit: int, rounds: nat)
    requires WellKept(audits)
    ensures var all := Remaining(audits, installationId, START);
            var walk := Walk(Pages(audits, installationId, limit), START, rounds);
            if PagesEndDated(all, NormalizeLimit(limit), 0) then rounds > |all| ==> walk == (all, true) else !walk.1
  {
    var all, n := Remaining(audits, installationId, START), NormalizeLimit(limit);
    var pages := Pages(audits, installationId, limit);
    PagesServe(audits, installationId, limit);
    assert all[0..] == all;
    if !PagesEndDated(all, n, 0) {
      LostWalk(pages, all, n, START, 0, rounds);
    } else if rounds > |all| {
      DatedWalk(pages, all, n, START, 0, rounds);
    }
  }

  lemma {:induction false} DatedEnds(all: seq<Audit>, n: nat, p: nat)
    requires 0 < n && p <= |all|
    ensures (forall i :: p <= i < |all| ==> all[i].timestamp != 0) ==> PagesEndDated(all, n, p)
    ensures PagesEndDated(all, n, p) && p < |all| ==> all[|all| - 1].timestamp != 0
    decreases |all| - p
  {
    if p < |all| {
      DatedEnds(all, n, PageEnd(all, n, p));
    }
  }

  /** In a list sorted newest first that ends in a dated event, no event has the zero time if none precedes it. */
  lemma LastIsOldest(all: seq<Audit>, i: nat)
    requires Strict(all, Newer) && i < |all| && all[|all| - 1].timestamp > 0
    ensures all[i].timestamp > 0
  {
    assert i < |all| - 1 ==> Newer(all[i], all[|all| - 1]);
  }

  lemma DatedListIsComplete(audits: seq<Audit>, installationId: string, all: seq<Audit>, n: nat)
    requires 0 < n && Strict(all, Newer) && forall e :: e in audits ==> e.timestamp >= 0
    requires forall e :: e in all <==> e in audits && Passes(e, installationId, START)
    ensures PagesEndDated(all, n, 0) <==>
            forall e :: e in audits && e.installationId == installationId ==> e.timestamp != 0
  {
    DatedEnds(all, n, 0);
    forall i | 0 <= i < |all| ensures all[i] in audits && all[i].installationId == installationId {
      assert all[i] in all;
    }
    if PagesEndDated(all, n, 0) {
      forall e | e in audits && e.installationId == installationId ensures e.timestamp != 0 {
        assert e in all;
        var i :| 0 <= i < |all| && all[i] == e;
        LastIsOldest(all, i);
      }
    }
  }

  /**
   Without events before the zero time, paging is complete exactly when no
   event of the installation has the zero time.
   */
  lemma DatedAuditsAreComplete(audits: seq<Audit>, installationId: string, limit: int)
    requires WellKept(audits) && forall e :: e in audits ==> e.timestamp >= 0
    ensures PagesEndDated(Remaining(audits, installationId, START), NormalizeLimit(limit), 0) <==>
            forall e :: e in audits && e.installationId == installationId ==> e.timestamp != 0
  {
    RemainingIsExact(audits, installationId, START);
    DatedListIsComplete(audits, installationId, Remaining(audits, installationId, START), NormalizeLimit(limit));
  }

  lemma ZeroTimeIsLost(audits: seq<Audit>, installationId: string, limit: int, rounds: nat)
    requires WellKept(audits) && forall e :: e in audits ==> e.timestamp >= 0
    requires exists e :: e in audits && e.installationId == installationId && e.timestamp == 0
    ensures !Walk(Pages(audits, installationId, limit), START, rounds).1
  {
    DatedAuditsAreComplete(audits, installationId, limit);
    AuditPagingIsComplete(audits, installationId, limit, rounds);
  }

  /** A recorded event may carry the zero time, and a caller that pages through it is never told to stop. */
  lemma ZeroTimeNeverEnds(limit: int, rounds: nat)
    ensures var audits := [Audit("panel", "boot", 0, true)];
            WellKept(audits) && !Walk(Pages(audits, "panel", limit), START, rounds).1
  {
    var audits := [Audit("panel", "boot", 0, true)];
    assert audits[0] in audits;
    ZeroTimeIsLost(audits, "panel", limit, rounds);
  }

  // ---- The repository ----

  class MemoryRepository {
    var assets: map<string, Asset>
    var audits: seq<Audit>

    ghost predicate Valid()
      reads this
    {
      Filed(assets) && WellKept(audits)
    }

    constructor ()
      ensures Valid() && assets == map[] && audits == []
    {
      assets, audits := map[], [];
    }

    method CreateAsset(asset: Asset) returns (result: Result)
      requires Valid()
      modifies this`assets
      ensures Valid()
      ensures result == (if !ValidAsset(asset) then Invalid
                         else if Lookup(old(assets), asset.installationId, asset.id).Some? then Conflict else Ok)
      ensures forall i, d ::
        Lookup(assets, i, d) == (if result.Ok? && i == asset.installationId && d == asset.id then Some(asset)
                                 else Lookup(old(assets), i, d))
    {
      if !ValidAsset(asset) {
        return Invalid;
      }
      var key := BuildComposite([asset.installationId, asset.id]);
      if key in assets {
        return Conflict;
      }
      assets := assets[key := asset];
      result := Ok;
      forall i, d ensures KeyOf(asset) == Composite([i, d]) <==> asset.installationId == i && asset.id == d {
        KeysDiffer(asset, i, d);
      }
    }

    method UpdateAsset(asset: Asset, expectedVersion: Version) returns (result: Result)
      requires Valid()
      modifies this`assets
      ensures Valid()
      ensures var current := Lookup(old(assets), asset.installationId, asset.id);
        result == (if !ValidAsset(asset) then Invalid else if current.None? then NotFound
                   else if current.value.version != expectedVersion then Conflict
                   else if asset.version != (if expectedVersion == LAST_VERSION then 0 else expectedVersion + 1)
                   then Conflict else Ok)
      ensures forall i, d ::
        Lookup(assets, i, d) == (if result.Ok? && i == asset.installationId && d == asset.id then Some(asset)
                                 else Lookup(old(assets), i, d))
    {
      if !ValidAsset(asset) {
        return Invalid;
      }
      var key := BuildComposite([asset.installationId, asset.id]);
      if key !in assets {
        return NotFound;
      }
      var current := assets[key];
      if current.version != expectedVersion || asset.version != Successor(expectedVersion) {
        return Conflict;
      }
      assets := assets[key := asset];
      result := Ok;
      forall i, d ensures KeyOf(asset) == Composite([i, d]) <==> asset.installationId == i && asset.id == d {
        KeysDiffer(asset, i, d);
      }
    }

    method DeleteAsset(installationId: string, id: string, expectedVersion: Version) returns (result: Result)
      requires Valid()
      modifies this`assets
      ensures Valid()
      ensures var current := Lookup(old(assets), installationId, id);
        result == (if current.None? then NotFound
                   else if current.value.version != expectedVersion then Conflict else Ok)
      ensures forall i, d ::
        Lookup(assets, i, d) == (if result.Ok? && i == installationId && d == id then None
                                 else Lookup(old(assets), i, d))
    {
      var key := BuildComposite([installationId, id]);
      if key !in assets {
        return NotFound;
      }
      var current := assets[key];
      if current.version != expectedVersion {
        return Conflict;
      }
      KeysDiffer(current, installationId, id);
      forall i, d ensures key == Composite([i, d]) <==> i == installationId && d == id {
        KeysDiffer(current, i, d);
      }
      assets := assets - {key};
      result := Ok;
    }

    /** One page: the first wanted assets in order. `all` is what a page without limit would hold. */
    method ListAssets(installationId: string, limit: int, afterId: string)
      returns (items: Option<seq<Asset>>, ghost all: seq<Asset>)
      requires Valid()
      ensures items.None? <==> !ValidIdentifier(installationId)
      ensures items.Some? ==>
        && Listing(assets, installationId, afterId, all)
        && items.value == FirstPage(all, limit)
    {
      if !ValidIdentifier(installationId) {
        return None, [];
      }
      var found := [];
      var todo := assets.Keys;
      while todo != {}
        invariant todo <= assets.Keys
        invariant forall a :: a in found <==>
          Stored(assets, a) && KeyOf(a) !in todo && Wanted(a, installationId, afterId)
        invariant Comparable(found, ById)
        decreases todo
      {
        var key :| key in todo;
        var asset := assets[key];
        if asset.installationId == installationId && Less(afterId, asset.id) {
          forall i | 0 <= i < |found| ensures ById(found[i], asset) || ById(asset, found[i]) {
            assert found[i] in found;
            KeysDiffer(found[i], asset.installationId, asset.id);
            LessTotal(found[i].id, asset.id);
          }
          found := found + [asset];
        }
        todo := todo - {key};
      }
      var sorted := Sort(found, ById);
      ByIdIsWeakOrder();
      SortStrictly(found, ById);
      all := sorted;
      var n := NormalizeLimit(limit);
      items := Some(if |sorted| > n then sorted[..n] else sorted);
    }

    /** Follows the identifier of the last asset of each page until a page is empty. */
    method FollowAssets(installationId: string, limit: int) returns (walk: Option<seq<Asset>>)
      requires Valid()
      ensures walk.None? <==> !ValidIdentifier(installationId)
      ensures walk.Some? ==> Listing(assets, installationId, "", walk.value)
    {
      var first, all := ListAssets(installationId, limit, "");
      if first.None? {
        return None;
      }
      var seen, more := first.value, first.value != [];
      while more
        invariant Listing(assets, installationId, "", all)
        invariant |seen| <= |all| && seen == all[..|seen|]
        invariant if more then seen != [] else |seen| == |all|
        decreases more, |all| - |seen|
      {
        var page, rest := ListAssets(installationId, limit, seen[|seen| - 1].id);
        NextPage(assets, installationId, all, |seen|, rest, limit);
        seen, more := seen + page.value, page.value != [];
      }
      walk := Some(seen);
    }

    /** Refuses an incomplete event and a second event with the same identifier. */
    method AppendAudit(event: Audit) returns (result: Result)
      requires Valid()
      modifies this`audits
      ensures Valid()
      ensures result == (if !ValidAudit(event) then Invalid else if Recorded(old(audits), event) then Conflict else Ok)
      ensures audits == old(audits) + (if result.Ok? then [event] else [])
    {
      if !ValidAudit(event) {
        return Invalid;
      }
      for i := 0 to |audits|
        invariant !Recorded(audits[..i], event)
      {
        if SameAudit(audits[i], event) {
          return Conflict;
        }
      }
      assert audits[..|audits|] == audits;
      audits := audits + [event];
      result := Ok;
    }

    method ListAudit(installationId: string, limit: int, cursor: Cursor) returns (items: Option<seq<Audit>>)
      ensures items == (if ValidIdentifier(installationId)
                           && (cursor.beforeId == "" || ValidIdentifier(cursor.beforeId))
                        then Some(AuditPage(audits, installationId, limit, cursor)) else None)
    {
      if !ValidIdentifier(installationId) || (cursor.beforeId != "" && !ValidIdentifier(cursor.beforeId)) {
        return None;
      }
      var found := [];
      for i := 0 to |audits|
        invariant found == Filtered(audits[..i], installationId, cursor)
      {
        assert audits[..i + 1][..i] == audits[..i];
        if Passes(audits[i], installationId, cursor) {
          found := found + [audits[i]];
        }
      }
      assert audits[..|audits|] == audits;
      var sorted, n := Sort(found, Newer), NormalizeLimit(limit);
      items := Some(if |sorted| > n then sorted[..n] else sorted);
    }
  }
}
