/** Stable sorting by a weak order, and the uniqueness of strictly sorted sequences. */
module Sorting {

  ghost predicate WeakOrder<T(!new)>(before: (T, T) -> bool) {
    && (forall a, b :: before(a, b) ==> !before(b, a))
    && (forall a, b, c :: !before(b, a) && !before(c, b) ==> !before(c, a))
  }

  /** Puts `x` behind the last element it need not precede. */
  function Insert<T>(s: seq<T>, x: T, before: (T, T) -> bool): seq<T> {
    if s == [] || !before(x, s[|s| - 1]) then s + [x] else Insert(s[..|s| - 1], x, before) + [s[|s| - 1]]
  }

  function Sort<T>(s: seq<T>, before: (T, T) -> bool): seq<T> {
    if s == [] then [] else Insert(Sort(s[..|s| - 1], before), s[|s| - 1], before)
  }

  predicate Ordered<T>(s: seq<T>, before: (T, T) -> bool) {
    forall i, j :: 0 <= i < j < |s| ==> !before(s[j], s[i])
  }

  lemma {:induction false} InsertContents<T>(s: seq<T>, x: T, before: (T, T) -> bool)
    ensures multiset(Insert(s, x, before)) == multiset(s) + multiset{x} && |Insert(s, x, before)| == |s| + 1
  {
    if s != [] && before(x, s[|s| - 1]) {
      InsertContents(s[..|s| - 1], x, before);
      assert s == s[..|s| - 1] + [s[|s| - 1]];
    }
  }

  lemma SameMembers<T>(s: seq<T>, t: seq<T>)
    requires multiset(s) == multiset(t)
    ensures forall y :: y in s <==> y in t
  {
    forall y ensures y in s <==> y in t {
      assert y in s <==> y in multiset(s);
      assert y in t <==> y in multiset(t);
    }
  }

  lemma NotBeforeTransitive<T(!new)>(a: T, b: T, c: T, before: (T, T) -> bool)
    requires WeakOrder(before) && !before(b, a) && !before(c, b)
    ensures !before(c, a)
  {
  }

  lemma BehindAll<T(!new)>(front: seq<T>, last: T, x: T, before: (T, T) -> bool)
    requires WeakOrder(before) && Ordered(front + [last], before) && before(x, last)
    ensures forall y :: y in Insert(front, x, before) ==> !before(last, y)
  {
    var t, all := Insert(front, x, before), front + [x];
    InsertContents(front, x, before);
    assert multiset(t) == multiset(all);
    SameMembers(t, all);
    forall y | y in t ensures !before(last, y) {
      assert y in all;
      if y != x {
        assert y in front;
        var k :| 0 <= k < |front| && front[k] == y;
        assert (front + [last])[k] == y && (front + [last])[|front|] == last;
      }
    }
  }

  lemma {:induction false} InsertOrdered<T(!new)>(s: seq<T>, x: T, before: (T, T) -> bool)
    requires WeakOrder(before) && Ordered(s, before)
    ensures Ordered(Insert(s, x, before), before)
  {
    if s != [] && !before(x, s[|s| - 1]) {
      forall i | 0 <= i < |s| ensures !before(x, s[i]) {
        if i < |s| - 1 {
          NotBeforeTransitive(s[i], s[|s| - 1], x, before);
        }
      }
    } else if s != [] {
      var front, last := s[..|s| - 1], s[|s| - 1];
      var t := Insert(front, x, before);
      InsertOrdered(front, x, before);
      assert s == front + [last];
      BehindAll(front, last, x, before);
      forall i | 0 <= i < |t| ensures !before(last, t[i]) {
        assert t[i] in t;
      }
    }
  }

  /** Sorting puts the elements in order and keeps them all. */
  lemma {:induction false} SortOrders<T(!new)>(s: seq<T>, before: (T, T) -> bool)
    requires WeakOrder(before)
    ensures Ordered(Sort(s, before), before) && multiset(Sort(s, before)) == multiset(s) && |Sort(s, before)| == |s|
  {
    if s != [] {
      var front, last := s[..|s| - 1], s[|s| - 1];
      SortOrders(front, before);
      InsertOrdered(Sort(front, before), last, before);
      InsertContents(Sort(front, before), last, before);
      assert s == front + [last];
    }
  }

  // ---- Stability ----

  predicate Precedes<T(==)>(s: seq<T>, x: T, y: T) {
    exists p, q :: 0 <= p < q < |s| && s[p] == x && s[q] == y
  }

  lemma {:induction false} InsertKeepsPrecedes<T>(s: seq<T>, x: T, before: (T, T) -> bool, p: nat, q: nat)
    requires p < q < |s|
    ensures Precedes(Insert(s, x, before), s[p], s[q])
  {
    var t := Insert(s, x, before);
    var front, last := s[..|s| - 1], s[|s| - 1];
    if !before(x, last) {
      assert t[p] == s[p] && t[q] == s[q];
    } else if q < |s| - 1 {
      InsertKeepsPrecedes(front, x, before, p, q);
      var u := Insert(front, x, before);
      var i, j :| 0 <= i < j < |u| && u[i] == front[p] && u[j] == front[q];
      assert t[i] == s[p] && t[j] == s[q];
    } else {
      var u := Insert(front, x, before);
      InsertContents(front, x, before);
      assert multiset(u) == multiset(front + [x]);
      SameMembers(u, front + [x]);
      assert (front + [x])[p] == s[p];
      assert s[p] in front + [x];
      assert s[p] in u;
      var i :| 0 <= i < |u| && u[i] == s[p];
      assert t[i] == s[p] && t[|t| - 1] == s[q];
    }
  }

  lemma {:induction false} InsertAfter<T>(s: seq<T>, x: T, before: (T, T) -> bool, p: nat)
    requires p < |s| && !before(x, s[p])
    ensures Precedes(Insert(s, x, before), s[p], x)
  {
    var t := Insert(s, x, before);
    var front, last := s[..|s| - 1], s[|s| - 1];
    if !before(x, last) {
      assert t[p] == s[p] && t[|s|] == x;
    } else {
      InsertAfter(front, x, before, p);
      var u := Insert(front, x, before);
      var i, j :| 0 <= i < j < |u| && u[i] == front[p] && u[j] == x;
      assert t[i] == s[p] && t[j] == x;
    }
  }

  /** Of two elements, the earlier one stays earlier unless the later one has to come before it. */
  lemma {:induction false} SortIsStable<T(!new)>(s: seq<T>, before: (T, T) -> bool, i: nat, j: nat)
    requires WeakOrder(before) && i < j < |s| && !before(s[j], s[i])
    ensures Precedes(Sort(s, before), s[i], s[j])
  {
    var front, last := s[..|s| - 1], s[|s| - 1];
    var t := Sort(front, before);
    SortOrders(front, before);
    SameMembers(t, front);
    if j < |s| - 1 {
      SortIsStable(front, before, i, j);
      var p, q :| 0 <= p < q < |t| && t[p] == front[i] && t[q] == front[j];
      InsertKeepsPrecedes(t, last, before, p, q);
    } else {
      assert front[i] in t;
      var p :| 0 <= p < |t| && t[p] == front[i];
      InsertAfter(t, last, before, p);
    }
  }

  // ---- Strict order ----

  predicate Strict<T>(s: seq<T>, before: (T, T) -> bool) {
    forall i, j :: 0 <= i < j < |s| ==> before(s[i], s[j])
  }

  lemma TailMembers<T(!new)>(s: seq<T>, before: (T, T) -> bool, x: T)
    requires WeakOrder(before) && Strict(s, before) && s != []
    ensures x in s[1..] <==> x in s && x != s[0]
  {
    if x in s[1..] {
      var k :| 0 <= k < |s[1..]| && s[1..][k] == x;
      assert s[k + 1] == x && before(s[0], s[k + 1]);
    }
    if x in s && x != s[0] {
      var k :| 0 <= k < |s| && s[k] == x;
      assert s[1..][k - 1] == x;
    }
  }

  /** Two strictly sorted sequences with the same members are equal. */
  lemma {:induction false} StrictUnique<T(!new)>(s: seq<T>, t: seq<T>, before: (T, T) -> bool)
    requires WeakOrder(before) && Strict(s, before) && Strict(t, before)
    requires forall x :: x in s <==> x in t
    ensures s == t
  {
    assert t != [] ==> t[0] in t;
    if s != [] {
      assert s[0] in t;
      var j :| 0 <= j < |t| && t[j] == s[0];
      var i :| 0 <= i < |s| && s[i] == t[0];
      assert s[0] == t[0];
      var s', t' := s[1..], t[1..];
      forall x ensures x in s' <==> x in t' {
        TailMembers(s, before, x);
        TailMembers(t, before, x);
      }
      StrictUnique(s', t', before);
    }
  }

  lemma TwiceInSeq<T>(s: seq<T>, i: nat, j: nat)
    requires i < j < |s| && s[i] == s[j]
    ensures multiset(s)[s[i]] >= 2
  {
    assert s == s[..i] + [s[i]] + s[i + 1..j] + [s[j]] + s[j + 1..];
  }

  predicate Comparable<T>(s: seq<T>, before: (T, T) -> bool) {
    forall i, j :: 0 <= i < j < |s| ==> before(s[i], s[j]) || before(s[j], s[i])
  }

  lemma OnceInSeq<T(!new)>(s: seq<T>, p: nat, before: (T, T) -> bool)
    requires WeakOrder(before) && Comparable(s, before) && p < |s|
    ensures multiset(s)[s[p]] == 1
  {
    var x, y := s[..p], s[p + 1..];
    assert s == x + [s[p]] + y;
    assert s[p] !in x && s[p] !in y;
  }

  /** Elements no two of which are equivalent are sorted strictly. */
  lemma SortStrictly<T(!new)>(s: seq<T>, before: (T, T) -> bool)
    requires WeakOrder(before) && Comparable(s, before)
    ensures Strict(Sort(s, before), before) && forall x :: x in Sort(s, before) <==> x in s
  {
    var t := Sort(s, before);
    SortOrders(s, before);
    SameMembers(t, s);
    forall i, j | 0 <= i < j < |t| ensures before(t[i], t[j]) {
      assert t[i] in t && t[j] in t;
      var p :| 0 <= p < |s| && s[p] == t[i];
      var q :| 0 <= q < |s| && s[q] == t[j];
      if p == q {
        TwiceInSeq(t, i, j);
        OnceInSeq(s, p, before);
      }
    }
  }

  /** Behind a position of a strictly sorted sequence stand exactly the elements its element precedes. */
  lemma RestIsBehind<T(!new)>(s: seq<T>, before: (T, T) -> bool, n: nat)
    requires WeakOrder(before) && Strict(s, before) && 0 < n <= |s|
    ensures Strict(s[n..], before) && forall x :: x in s[n..] <==> x in s && before(s[n - 1], x)
  {
    var rest := s[n..];
    forall x ensures x in rest <==> x in s && before(s[n - 1], x) {
      if x in rest {
        var k :| 0 <= k < |rest| && rest[k] == x;
        assert s[n + k] == x;
      }
      if x in s && before(s[n - 1], x) {
        var k :| 0 <= k < |s| && s[k] == x;
        assert k >= n && rest[k - n] == x;
      }
    }
  }
}
