/**
 * Sequence and map helpers shared by the entity records, the store and the
 * scheduler: the order-preserving filter that the query loops compute, the
 * first-match search that the update loops perform, java.util.List.remove(Object)
 * and the multiset of everything stored in a map of lists.
 */
module Collections {
  import opened Wrappers

  /** No element occurs twice. */
  predicate NoDup<T(==)>(s: seq<T>) {
    forall i, j :: 0 <= i < j < |s| ==> s[i] != s[j]
  }

  /** The elements of `s` that satisfy `p`, in their original order. */
  function Filter<T>(s: seq<T>, p: T -> bool): (r: seq<T>)
    ensures |r| <= |s|
    ensures forall x | x in r :: x in s && p(x)
    ensures multiset(r) <= multiset(s)
    decreases |s|
  {
    if s == [] then []
    else
      var init, last := s[..|s| - 1], s[|s| - 1];
      assert s == init + [last];
      if p(last) then Filter(init, p) + [last] else Filter(init, p)
  }

  /** The filter keeps every occurrence of an element it accepts and none of one it rejects. */
  lemma {:induction false} FilterCount<T>(s: seq<T>, p: T -> bool, x: T)
    ensures multiset(Filter(s, p))[x] == if p(x) then multiset(s)[x] else 0
    decreases |s|
  {
    if s != [] {
      var init, last := s[..|s| - 1], s[|s| - 1];
      assert s == init + [last];
      FilterCount(init, p, x);
    }
  }

  /** Filtering a sequence one element longer adds at most that element at the end. */
  lemma FilterSnoc<T>(s: seq<T>, x: T, p: T -> bool)
    ensures Filter(s + [x], p) == if p(x) then Filter(s, p) + [x] else Filter(s, p)
  {
    assert (s + [x])[..|s|] == s;
  }

  /** Scanning one more element of `list` extends the filtered prefix by at most that element. */
  lemma FilterPrefixStep<T>(list: seq<T>, i: nat, p: T -> bool)
    requires i < |list|
    ensures Filter(list[..i + 1], p) == if p(list[i]) then Filter(list[..i], p) + [list[i]] else Filter(list[..i], p)
  {
    assert list[..i + 1] == list[..i] + [list[i]];
    FilterSnoc(list[..i], list[i], p);
  }

  /** A filter that rejects nothing returns its input. */
  lemma {:induction false} FilterKeepsAll<T>(s: seq<T>, p: T -> bool)
    requires forall x :: p(x)
    ensures Filter(s, p) == s
    decreases |s|
  {
    if s != [] {
      FilterKeepsAll(s[..|s| - 1], p);
      assert s == s[..|s| - 1] + [s[|s| - 1]];
    }
  }

  /** The index of the first element satisfying `p`, if there is one. */
  function FindFirst<T>(s: seq<T>, p: T -> bool): (r: Option<nat>)
    ensures r.None? <==> forall i :: 0 <= i < |s| ==> !p(s[i])
    ensures r.Some? ==> r.value < |s| && p(s[r.value])
    ensures r.Some? ==> forall i :: 0 <= i < r.value ==> !p(s[i])
    decreases |s|
  {
    if s == [] then None
    else if p(s[0]) then Some(0)
    else match FindFirst(s[1..], p)
      case None => None
      case Some(i) => Some(i + 1)
  }

  /** `s` with its first element satisfying `p` replaced by `x`; `s` when none does. */
  function ReplaceFirst<T>(s: seq<T>, p: T -> bool, x: T): (r: seq<T>)
    ensures |r| == |s|
    ensures FindFirst(s, p).None? ==> r == s
    ensures FindFirst(s, p).Some? ==> r[FindFirst(s, p).value] == x
    ensures forall i :: 0 <= i < |s| && Some(i) != FindFirst(s, p) ==> r[i] == s[i]
  {
    match FindFirst(s, p)
    case None => s
    case Some(i) => s[i := x]
  }

  /** The position of the first occurrence of `x` in `s`. */
  function IndexOf<T(==)>(s: seq<T>, x: T): (i: nat)
    requires x in s
    ensures i < |s| && s[i] == x && x !in s[..i]
  {
    if s[0] == x then 0
    else
      assert x in s[1..];
      var j := IndexOf(s[1..], x);
      assert s[..j + 1] == [s[0]] + s[1..][..j];
      j + 1
  }

  /**
   * `s` without the first occurrence of `x`, and `s` itself when `x` does not
   * occur: what java.util.List.remove(Object) does to a list.
   */
  function RemoveFirst<T(==)>(s: seq<T>, x: T): (r: seq<T>)
    ensures x !in s ==> r == s
    ensures x in s ==> |r| == |s| - 1
    ensures x in s ==> r[..IndexOf(s, x)] == s[..IndexOf(s, x)] && r[IndexOf(s, x)..] == s[IndexOf(s, x) + 1..]
    ensures multiset(r) == multiset(s) - multiset{x}
  {
    if x in s then
      var i := IndexOf(s, x);
      assert s == s[..i] + [x] + s[i + 1..];
      s[..i] + s[i + 1..]
    else
      assert multiset(s)[x] == 0;
      s
  }

  /** Removing one element keeps every other element. */
  lemma RemoveFirstKeepsOthers<T>(s: seq<T>, x: T)
    ensures forall y | y in s && y != x :: y in RemoveFirst(s, x)
    ensures forall y | y in RemoveFirst(s, x) :: y in s
  {
    var r := RemoveFirst(s, x);
    forall y | y in s && y != x ensures y in r {
      assert multiset(r)[y] == multiset(s)[y];
    }
    forall y | y in r ensures y in s {
      assert multiset(r)[y] <= multiset(s)[y];
    }
  }

  /** Removing an element from a list without duplicates removes every occurrence and keeps the rest. */
  lemma RemoveFirstNoDup<T>(s: seq<T>, x: T)
    requires NoDup(s)
    ensures NoDup(RemoveFirst(s, x))
    ensures x !in RemoveFirst(s, x)
  {
    if x in s {
      var i := IndexOf(s, x);
      var r := RemoveFirst(s, x);
      assert forall k | 0 <= k < |r| :: r[k] == s[if k < i then k else k + 1] by {
        forall k | 0 <= k < |r| ensures r[k] == s[if k < i then k else k + 1] {
          if k < i {
            assert r[k] == r[..i][k];
          } else {
            assert r[k] == r[i..][k - i];
          }
        }
      }
      assert forall a, b | 0 <= a < b < |r| :: r[a] != r[b];
      assert forall k | 0 <= k < |r| :: r[k] != x;
    }
  }

  /**
   * Everything stored under `keys` in `m` that satisfies `p`, as a multiset: the
   * result of scanning a hash map's lists in an unspecified key order.
   */
  ghost function Gather<K, T>(m: map<K, seq<T>>, keys: set<K>, p: T -> bool): multiset<T>
    requires keys <= m.Keys
    decreases keys
  {
    if keys == {} then multiset{}
    else
      var k :| k in keys;
      multiset(Filter(m[k], p)) + Gather(m, keys - {k}, p)
  }

  /** A scan may visit the keys in any order: any key can be taken first. */
  lemma {:induction false} GatherPick<K, T>(m: map<K, seq<T>>, keys: set<K>, k: K, p: T -> bool)
    requires keys <= m.Keys && k in keys
    ensures Gather(m, keys, p) == multiset(Filter(m[k], p)) + Gather(m, keys - {k}, p)
    decreases keys
  {
    var j :| j in keys && Gather(m, keys, p) == multiset(Filter(m[j], p)) + Gather(m, keys - {j}, p);
    if j != k {
      GatherPick(m, keys - {j}, k, p);
      GatherPick(m, keys - {k}, j, p);
      assert keys - {j} - {k} == keys - {k} - {j};
    }
  }

  /** An element is gathered exactly when it satisfies `p` and is stored under one of the keys. */
  lemma {:induction false} GatherMember<K, T>(m: map<K, seq<T>>, keys: set<K>, p: T -> bool, x: T)
    requires keys <= m.Keys
    ensures x in Gather(m, keys, p) <==> p(x) && exists k :: k in keys && x in m[k]
    decreases keys
  {
    if keys != {} {
      var k :| k in keys;
      GatherPick(m, keys, k, p);
      GatherMember(m, keys - {k}, p, x);
      FilterCount(m[k], p, x);
    }
  }

  /** Two filters that accept the same elements gather the same elements. */
  lemma {:induction false} GatherSameFilter<K, T>(m: map<K, seq<T>>, keys: set<K>, p: T -> bool, q: T -> bool)
    requires keys <= m.Keys
    requires forall x :: p(x) == q(x)
    ensures Gather(m, keys, p) == Gather(m, keys, q)
    decreases keys
  {
    if keys != {} {
      var k :| k in keys;
      GatherPick(m, keys, k, p);
      GatherPick(m, keys, k, q);
      GatherSameFilter(m, keys - {k}, p, q);
      FilterSameFilter(m[k], p, q);
    }
  }

  /** Two filters that accept the same elements select the same subsequence. */
  lemma {:induction false} FilterSameFilter<T>(s: seq<T>, p: T -> bool, q: T -> bool)
    requires forall x :: p(x) == q(x)
    ensures Filter(s, p) == Filter(s, q)
    decreases |s|
  {
    if s != [] {
      FilterSameFilter(s[..|s| - 1], p, q);
    }
  }

  /** A filter and its complement split a sequence: their sizes add up to its length. */
  lemma {:induction false} FilterSplit<T>(s: seq<T>, p: T -> bool, q: T -> bool)
    requires forall x :: q(x) == !p(x)
    ensures |Filter(s, p)| + |Filter(s, q)| == |s|
    decreases |s|
  {
    if s != [] {
      FilterSplit(s[..|s| - 1], p, q);
    }
  }

  /** A filter and its complement split what is stored: the gathered sizes add up to the number of stored elements. */
  lemma {:induction false} GatherSplit<K, T>(m: map<K, seq<T>>, keys: set<K>, p: T -> bool, q: T -> bool)
    requires keys <= m.Keys
    requires forall x :: q(x) == !p(x)
    ensures |Gather(m, keys, p)| + |Gather(m, keys, q)| == |Gather(m, keys, Always)|
    decreases keys
  {
    if keys != {} {
      var k :| k in keys;
      GatherPick(m, keys, k, p);
      GatherPick(m, keys, k, q);
      GatherPick(m, keys, k, Always);
      GatherSplit(m, keys - {k}, p, q);
      FilterSplit(m[k], p, q);
      FilterKeepsAll(m[k], Always);
    }
  }

  /** Overwriting one position leaves only the old elements and the new one. */
  lemma UpdateMembers<T>(s: seq<T>, i: nat, x: T)
    requires i < |s|
    ensures forall y | y in s[i := x] :: y in s || y == x
  {
    forall y | y in s[i := x] ensures y in s || y == x {
      var k :| 0 <= k < |s| && s[i := x][k] == y;
      if k != i {
        assert s[k] == y;
      }
    }
  }

  /** The filter that keeps everything. */
  predicate Always<T>(x: T) {
    true
  }

  /** Appends to `acc` the elements of `list` that satisfy `p`, scanning the list in order. */
  method AppendMatching<T>(acc: seq<T>, list: seq<T>, p: T -> bool) returns (r: seq<T>)
    ensures r == acc + Filter(list, p)
  {
    var found := [];
    var i := 0;
    while i < |list|
      invariant 0 <= i <= |list|
      invariant found == Filter(list[..i], p)
    {
      FilterPrefixStep(list, i, p);
      if p(list[i]) {
        found := found + [list[i]];
      }
      i := i + 1;
    }
    assert list[..i] == list;
    r := acc + found;
  }

  /** Scans every list stored in `m`, visiting the keys in an unspecified order, and collects the elements that satisfy `p`. */
  method CollectAll<K(==), T>(m: map<K, seq<T>>, p: T -> bool) returns (r: seq<T>)
    ensures multiset(r) == Gather(m, m.Keys, p)
  {
    r := [];
    var remaining := m.Keys;
    while remaining != {}
      invariant remaining <= m.Keys
      invariant multiset(r) + Gather(m, remaining, p) == Gather(m, m.Keys, p)
      decreases remaining
    {
      var k :| k in remaining;
      GatherPick(m, remaining, k, p);
      r := AppendMatching(r, m[k], p);
      remaining := remaining - {k};
    }
  }

  /** Counts the elements of `list` that satisfy `p`, scanning the list in order. */
  method CountMatching<T>(list: seq<T>, p: T -> bool) returns (n: nat)
    ensures n == |Filter(list, p)|
  {
    n := 0;
    var i := 0;
    while i < |list|
      invariant 0 <= i <= |list|
      invariant n == |Filter(list[..i], p)|
    {
      FilterPrefixStep(list, i, p);
      if p(list[i]) {
        n := n + 1;
      }
      i := i + 1;
    }
    assert list[..i] == list;
  }
}
