/**
 * Generic facts about Python lists used by the arena: duplicates, reversed(),
 * range(), and the stable sort behind list.sort(key=...) and sorted(..., key=...).
 */
module Sequences {

  predicate NoDup<T(==)>(s: seq<T>) {
    forall i, j :: 0 <= i < j < |s| ==> s[i] != s[j]
  }

  /** reversed(s) */
  function Reverse<T>(s: seq<T>): (r: seq<T>)
    ensures |r| == |s|
  {
    if s == [] then [] else Reverse(s[1..]) + [s[0]]
  }

  /** The k-th element of reversed(s) is the k-th from the end of s. */
  lemma {:induction false} ReverseAt<T>(s: seq<T>)
    ensures forall k :: 0 <= k < |s| ==> Reverse(s)[k] == s[|s| - 1 - k]
  {
    if s != [] {
      ReverseAt(s[1..]);
    }
  }

  lemma TakeSnoc<T>(s: seq<T>, k: nat)
    requires k < |s|
    ensures s[..k + 1] == s[..k] + [s[k]]
  {
  }

  lemma DropConcatFrom<T>(a: seq<T>, b: seq<T>, k: nat)
    requires k <= |b|
    ensures (a + b)[|a| + k..] == b[k..]
  {
  }

  /** range(n) */
  function Range(n: nat): (r: seq<nat>)
    ensures |r| == n
  {
    if n == 0 then [] else Range(n - 1) + [n - 1]
  }

  lemma {:induction false} RangeIndex(n: nat)
    ensures forall i :: 0 <= i < n ==> Range(n)[i] == i
  {
    if n > 0 {
      RangeIndex(n - 1);
    }
  }

  lemma AppendAssoc<T>(a: seq<T>, b: seq<T>, c: seq<T>)
    ensures (a + b) + c == a + (b + c)
  {
  }

  lemma AppendAssoc5<T>(a: seq<T>, b: seq<T>, c: seq<T>, d: seq<T>, e: seq<T>)
    ensures a + (b + c + d + e) == a + b + c + d + e
  {
  }

  lemma ConcatIndex<T>(a: seq<T>, b: seq<T>, c: seq<T>, x: T, d: seq<T>)
    ensures (a + b + c + [x] + d)[|a| + |b| + |c|] == x
  {
  }

  /** The first element of a non-empty sequence is in it. */
  lemma FirstIn<T>(s: seq<T>)
    ensures s == [] || s[0] in s
  {
  }

  /** Membership in a non-empty sequence, split at its last element. */
  lemma InInitOrLast<T>(s: seq<T>, x: T)
    requires s != []
    ensures x in s <==> x in s[..|s| - 1] || x == s[|s| - 1]
  {
    assert s == s[..|s| - 1] + [s[|s| - 1]];
  }

  /** s holds each of 0, ..., n-1 exactly once and nothing else. */
  predicate IsPermutationOfRange(s: seq<nat>, n: nat) {
    multiset(s) == multiset(Range(n))
  }

  lemma PermutationOfRangeFacts(s: seq<nat>, n: nat)
    requires IsPermutationOfRange(s, n)
    ensures |s| == n && NoDup(s)
    ensures forall p: nat :: p in s <==> p < n
    ensures forall k :: 0 <= k < |s| ==> s[k] < n
  {
    assert |s| == |multiset(s)| == |multiset(Range(n))| == n;
    RangeIndex(n);
    forall p: nat ensures p in s <==> p < n {
      assert p in s <==> p in multiset(s);
      assert p < n ==> Range(n)[p] == p;
    }
    forall i, j | 0 <= i < j < |s| ensures s[i] != s[j] {
      var p := s[i];
      RangeCount(n, p);
      assert s == s[..j] + [s[j]] + s[j + 1..];
      assert s[..j][i] == p;
      assert multiset(s[..j])[p] >= 1;
    }
    forall k | 0 <= k < |s| ensures s[k] < n {
      assert s[k] in s;
    }
  }

  /** An element of a sequence without duplicates occurs in it once. */
  lemma {:induction false} NoDupCount<T>(s: seq<T>, p: T)
    requires NoDup(s)
    ensures multiset(s)[p] == if p in s then 1 else 0
  {
    if s != [] {
      var init, x := s[..|s| - 1], s[|s| - 1];
      assert s == init + [x];
      assert NoDup(init) by {
        forall i, j | 0 <= i < j < |init| ensures init[i] != init[j] {
          assert init[i] == s[i] && init[j] == s[j];
        }
      }
      NoDupCount(init, p);
      MultisetSnoc(init, x, p);
      InInitOrLast(s, p);
    }
  }

  /** A sequence without duplicates that holds exactly 0, ..., n-1 is a permutation of range(n). */
  lemma PermutationFromCover(s: seq<nat>, n: nat)
    requires NoDup(s) && (forall k :: 0 <= k < |s| ==> s[k] < n)
    requires forall p :: 0 <= p < n ==> p in s
    ensures IsPermutationOfRange(s, n)
  {
    forall p: nat ensures multiset(s)[p] == multiset(Range(n))[p] {
      NoDupCount(s, p);
      RangeCount(n, p);
    }
    assert multiset(s) == multiset(Range(n));
  }

  lemma {:induction false} RangeCount(n: nat, p: nat)
    ensures multiset(Range(n))[p] == if p < n then 1 else 0
  {
    if n > 0 {
      RangeCount(n - 1, p);
      MultisetSnoc(Range(n - 1), n - 1, p);
    }
  }

  lemma MultisetSnoc<T>(s: seq<T>, x: T, p: T)
    ensures multiset(s + [x])[p] == multiset(s)[p] + (if x == p then 1 else 0)
  {
  }

  /** le is total and transitive: a key order that sorting can use. */
  ghost predicate TotalPreorder<T(!new)>(le: (T, T) -> bool) {
    && (forall x, y :: le(x, y) || le(y, x))
    && (forall x, y, z :: le(x, y) && le(y, z) ==> le(x, z))
  }

  predicate SortedBy<T>(s: seq<T>, le: (T, T) -> bool) {
    forall i, j :: 0 <= i < j < |s| ==> le(s[i], s[j])
  }

  /**
   * Puts x in front of the first element it is not after. Inserting the
   * elements from the back keeps equal keys in their original order, as
   * Python's stable sort does.
   */
  function Insert<T>(x: T, s: seq<T>, le: (T, T) -> bool): (r: seq<T>)
    ensures multiset(r) == multiset(s) + multiset{x}
  {
    if s == [] || le(x, s[0]) then [x] + s
    else
      assert s == [s[0]] + s[1..];
      [s[0]] + Insert(x, s[1..], le)
  }

  /** sorted(s, key=...) as a stable insertion sort. */
  function SortBy<T>(s: seq<T>, le: (T, T) -> bool): (r: seq<T>)
    ensures multiset(r) == multiset(s)
    ensures |r| == |s|
  {
    if s == [] then []
    else
      assert s == [s[0]] + s[1..];
      Insert(s[0], SortBy(s[1..], le), le)
  }

  lemma {:induction false} InsertSorted<T(!new)>(x: T, s: seq<T>, le: (T, T) -> bool)
    requires TotalPreorder(le) && SortedBy(s, le)
    ensures SortedBy(Insert(x, s, le), le)
  {
    if s != [] && !le(x, s[0]) {
      InsertSorted(x, s[1..], le);
      InsertAbove(x, s, le);
      ConsSorted(s[0], Insert(x, s[1..], le), le);
    }
  }

  /** When x goes past the head, the head is below everything after it. */
  lemma InsertAbove<T(!new)>(x: T, s: seq<T>, le: (T, T) -> bool)
    requires TotalPreorder(le) && SortedBy(s, le) && s != [] && !le(x, s[0])
    ensures forall y :: y in Insert(x, s[1..], le) ==> le(s[0], y)
  {
    var tail := Insert(x, s[1..], le);
    forall y | y in tail ensures le(s[0], y) {
      assert y in multiset(tail);
      if y != x {
        assert y in s[1..];
      }
    }
  }

  /** A head below every element of a sorted tail gives a sorted sequence. */
  lemma ConsSorted<T>(h: T, t: seq<T>, le: (T, T) -> bool)
    requires SortedBy(t, le) && forall y :: y in t ==> le(h, y)
    ensures SortedBy([h] + t, le)
  {
    var r := [h] + t;
    forall i, j | 0 <= i < j < |r| ensures le(r[i], r[j]) {
      if i == 0 {
        assert r[j] in t;
      } else {
        assert r[i] == t[i - 1] && r[j] == t[j - 1];
      }
    }
  }

  /** The result of SortBy is in non-decreasing key order. */
  lemma {:induction false} SortBySorted<T(!new)>(s: seq<T>, le: (T, T) -> bool)
    requires TotalPreorder(le)
    ensures SortedBy(SortBy(s, le), le)
  {
    if s != [] {
      SortBySorted(s[1..], le);
      InsertSorted(s[0], SortBy(s[1..], le), le);
    }
  }

  /** Elements whose keys tie (le holds backwards) appear in increasing order. */
  predicate TiesAscending(s: seq<nat>, le: (nat, nat) -> bool) {
    forall i, j :: 0 <= i < j < |s| && le(s[j], s[i]) ==> s[i] < s[j]
  }

  /** An element put in front of a sequence whose ties are ascending keeps them so, if it is below those it ties with. */
  lemma ConsTies(h: nat, t: seq<nat>, le: (nat, nat) -> bool)
    requires TiesAscending(t, le) && forall y :: y in t && le(y, h) ==> h < y
    ensures TiesAscending([h] + t, le)
  {
    var r := [h] + t;
    forall i, j | 0 <= i < j < |r| && le(r[j], r[i]) ensures r[i] < r[j] {
      assert r[j] == t[j - 1] && r[j] in t;
      if i > 0 {
        assert r[i] == t[i - 1];
      }
    }
  }

  lemma DropTies(t: seq<nat>, le: (nat, nat) -> bool)
    requires TiesAscending(t, le) && t != []
    ensures TiesAscending(t[1..], le)
    ensures forall y :: y in t[1..] && le(y, t[0]) ==> t[0] < y
  {
    forall i, j | 0 <= i < j < |t[1..]| && le(t[1..][j], t[1..][i]) ensures t[1..][i] < t[1..][j] {
      assert t[1..][i] == t[i + 1] && t[1..][j] == t[j + 1];
    }
    forall y | y in t[1..] && le(y, t[0]) ensures t[0] < y {
      var k :| 0 <= k < |t[1..]| && t[1..][k] == y;
      assert t[k + 1] == y;
    }
  }

  /** Inserting an element below all others keeps tied elements in increasing order. */
  lemma {:induction false} InsertTies(x: nat, t: seq<nat>, le: (nat, nat) -> bool)
    requires TiesAscending(t, le) && forall y :: y in t ==> x < y
    ensures TiesAscending(Insert(x, t, le), le)
  {
    if t == [] || le(x, t[0]) {
      ConsTies(x, t, le);
    } else {
      var tail := Insert(x, t[1..], le);
      DropTies(t, le);
      forall y | y in t[1..] ensures x < y {
        assert y in t;
      }
      InsertTies(x, t[1..], le);
      forall y | y in tail && le(y, t[0]) ensures t[0] < y {
        assert y in multiset(tail);
      }
      ConsTies(t[0], tail, le);
    }
  }

  /**
   * Python's sort is stable: sorting a strictly increasing sequence puts
   * elements with tied keys in their original, increasing, order.
   */
  lemma {:induction false} SortByStable(s: seq<nat>, le: (nat, nat) -> bool)
    requires forall i, j :: 0 <= i < j < |s| ==> s[i] < s[j]
    ensures TiesAscending(SortBy(s, le), le)
  {
    if s != [] {
      SortByStable(s[1..], le);
      var t := SortBy(s[1..], le);
      forall y | y in t ensures s[0] < y {
        assert y in multiset(t);
        var k :| 0 <= k < |s[1..]| && s[1..][k] == y;
        assert s[k + 1] == y;
      }
      InsertTies(s[0], t, le);
    }
  }
}
