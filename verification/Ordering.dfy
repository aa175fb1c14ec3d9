/**
 Byte-string order and sorting.

 Go compares strings lexicographically and sorts with `sort.Slice`, which is not
 stable: among elements that compare equal it may leave any order. `Sort` below
 therefore promises only a sorted permutation, and every result that must not
 depend on the choice is proved from that promise.
 */
module Ordering {
  datatype Option<+T> = None | Some(value: T) {
    function GetOr(default: T): T {
      match this
      case Some(v) => v
      case None => default
    }
  }

  /** Go's `<` on strings. */
  predicate StrLess(a: string, b: string) {
    b != [] && (a == [] || a[0] < b[0] || (a[0] == b[0] && StrLess(a[1..], b[1..])))
  }

  /** a comes before b exactly when it is a proper beginning of b, or smaller where they first differ. */
  lemma {:induction false} StrLessMeaning(a: string, b: string)
    ensures StrLess(a, b) <==>
      exists k :: 0 <= k <= |a| && k < |b| && a[..k] == b[..k] && (k == |a| || a[k] < b[k])
  {
    if a != [] && b != [] && a[0] == b[0] {
      StrLessMeaning(a[1..], b[1..]);
      if StrLess(a, b) {
        var k :| 0 <= k <= |a[1..]| && k < |b[1..]| && a[1..][..k] == b[1..][..k] && (k == |a[1..]| || a[1..][k] < b[1..][k]);
        assert a[..k + 1] == [a[0]] + a[1..][..k] && b[..k + 1] == [b[0]] + b[1..][..k];
      } else {
        forall k | 0 <= k <= |a| && k < |b| && a[..k] == b[..k] ensures k < |a| && !(a[k] < b[k]) {
          if k > 0 {
            assert a[1..][..k - 1] == a[..k][1..] && b[1..][..k - 1] == b[..k][1..];
          }
        }
      }
    } else if StrLess(a, b) {
      assert a[..0] == b[..0];
    } else {
      forall k | 0 < k <= |a| && k < |b| ensures a[..k] != b[..k] {
        assert a[..k][0] == a[0] && b[..k][0] == b[0];
      }
    }
  }

  lemma {:induction false} StrLessAsymmetric(a: string, b: string)
    requires StrLess(a, b)
    ensures !StrLess(b, a)
  {
    if a != [] && a[0] == b[0] {
      StrLessAsymmetric(a[1..], b[1..]);
    }
  }

  lemma StrLessIrreflexive(a: string)
    ensures !StrLess(a, a)
  {
    if StrLess(a, a) {
      StrLessAsymmetric(a, a);
    }
  }

  lemma {:induction false} StrLessTotal(a: string, b: string)
    ensures a == b || StrLess(a, b) || StrLess(b, a)
  {
    if a != [] && b != [] && a[0] == b[0] {
      StrLessTotal(a[1..], b[1..]);
      assert a == [a[0]] + a[1..] && b == [b[0]] + b[1..];
    }
  }

  lemma {:induction false} StrLessTransitive(a: string, b: string, c: string)
    requires StrLess(a, b) && StrLess(b, c)
    ensures StrLess(a, c)
  {
    if a != [] && a[0] == b[0] && b[0] == c[0] {
      StrLessTransitive(a[1..], b[1..], c[1..]);
    }
  }

  /** The negated order is transitive too, which is what sorting needs. */
  lemma StrLessNegTransitive(a: string, b: string, c: string)
    requires !StrLess(a, b) && !StrLess(b, c)
    ensures !StrLess(a, c)
  {
    if StrLess(a, c) {
      StrLessTotal(b, c);
      if b != c {
        StrLessTransitive(a, c, b);
      }
    }
  }

  // ---------------------------------------------------------------- pairing up

  /** p lists each of the first n positions once. */
  predicate Pairing(p: seq<nat>, n: nat) {
    && |p| == n
    && (forall i :: 0 <= i < n ==> p[i] < n)
    && forall i, j :: 0 <= i < j < n ==> p[i] != p[j]
  }

  /** a rearranged by p is b. */
  predicate PairsUp<T(==)>(a: seq<T>, b: seq<T>, p: seq<nat>) {
    |a| == |b| && Pairing(p, |a|) && forall i :: 0 <= i < |b| ==> a[p[i]] == b[i]
  }

  /** Where position j is taken out, the later ones move down. */
  function Without(p: seq<nat>, j: nat): (q: seq<nat>)
    requires forall i :: 0 <= i < |p| ==> p[i] != j
    ensures |q| == |p| && forall i :: 0 <= i < |p| ==> q[i] == if p[i] > j then p[i] - 1 else p[i]
  {
    if p == [] then [] else Without(p[..|p| - 1], j) + [if p[|p| - 1] > j then p[|p| - 1] - 1 else p[|p| - 1]]
  }

  /** And back. */
  function With(p: seq<nat>, j: nat): (q: seq<nat>)
    ensures |q| == |p| && forall i :: 0 <= i < |p| ==> q[i] == if p[i] >= j then p[i] + 1 else p[i]
  {
    if p == [] then [] else With(p[..|p| - 1], j) + [if p[|p| - 1] >= j then p[|p| - 1] + 1 else p[|p| - 1]]
  }

  lemma RemoveAt<T>(s: seq<T>, i: int)
    requires 0 <= i < |s|
    ensures multiset(s[..i] + s[i + 1..]) == multiset(s) - multiset{s[i]}
  {
    assert s == s[..i] + ([s[i]] + s[i + 1..]);
  }

  lemma LastRemoved<T>(a: seq<T>, b: seq<T>, j: nat)
    requires b != [] && j < |a| && a[j] == b[|b| - 1]
    ensures multiset(a) == multiset(b) <==> multiset(a[..j] + a[j + 1..]) == multiset(b[..|b| - 1])
  {
    RemoveAt(a, j);
    RemoveAt(b, |b| - 1);
    assert b[..|b| - 1] + b[|b| - 1 + 1..] == b[..|b| - 1];
    assert a[j] in multiset(a) && b[|b| - 1] in multiset(b);
    assert multiset(a) == multiset(a) - multiset{a[j]} + multiset{a[j]};
    assert multiset(b) == multiset(b) - multiset{a[j]} + multiset{a[j]};
  }

  lemma PermutationLength<T>(a: seq<T>, b: seq<T>)
    requires multiset(a) == multiset(b)
    ensures |a| == |b|
  {
    assert |multiset(a)| == |a| && |multiset(b)| == |b|;
  }

  /** Sequences with the same elements pair up. */
  lemma {:induction false} PermutationPairs<T>(a: seq<T>, b: seq<T>) returns (p: seq<nat>)
    requires multiset(a) == multiset(b)
    ensures PairsUp(a, b, p)
  {
    PermutationLength(a, b);
    p := [];
    if b != [] {
      var x := b[|b| - 1];
      assert x in multiset(a);
      var j :| 0 <= j < |a| && a[j] == x;
      LastRemoved(a, b, j);
      var rest := PermutationPairs(a[..j] + a[j + 1..], b[..|b| - 1]);
      p := With(rest, j) + [j];
    }
  }

  lemma InRange(p: seq<nat>, n: nat, i: nat)
    requires Pairing(p, n) && i < n
    ensures p[i] < n
  {
  }

  lemma OnePairLess<T>(a: seq<T>, b: seq<T>, p: seq<nat>)
    requires b != [] && PairsUp(a, b, p)
    ensures
      var n := |b| - 1;
      var j := p[n];
      (forall i :: 0 <= i < n ==> p[..n][i] != j) && PairsUp(a[..j] + a[j + 1..], b[..n], Without(p[..n], j))
  {
  }

  /** And sequences that pair up have the same elements. */
  lemma {:induction false} PairsPermute<T>(a: seq<T>, b: seq<T>, p: seq<nat>)
    requires PairsUp(a, b, p)
    ensures multiset(a) == multiset(b)
  {
    if b != [] {
      hide Pairing, Without;
      var n := |b| - 1;
      var j := p[n];
      OnePairLess(a, b, p);
      assert j < |a| by {
        InRange(p, |a|, n);
      }
      LastRemoved(a, b, j);
      PairsPermute(a[..j] + a[j + 1..], b[..n], Without(p[..n], j));
    } else {
      assert a == b;
    }
  }

  // ---------------------------------------------------------------- sorting

  /** A comparator sort.Slice may be given: asymmetric, with transitive negation. */
  ghost predicate WeakOrder<T(!new)>(less: (T, T) -> bool) {
    && (forall x, y :: less(x, y) ==> !less(y, x))
    && (forall x, y, z :: !less(x, y) && !less(y, z) ==> !less(x, z))
  }

  predicate SortedBy<T>(s: seq<T>, less: (T, T) -> bool) {
    forall i, j :: 0 <= i < j < |s| ==> !less(s[j], s[i])
  }

  /** No two different elements compare equal. */
  ghost predicate Tieless<T>(s: seq<T>, less: (T, T) -> bool) {
    forall i, j :: 0 <= i < |s| && 0 <= j < |s| && !less(s[i], s[j]) && !less(s[j], s[i]) ==> s[i] == s[j]
  }

  function Insert<T>(x: T, s: seq<T>, less: (T, T) -> bool): (r: seq<T>)
    ensures multiset(r) == multiset(s) + multiset{x}
  {
    if s == [] then [x]
    else if less(x, s[0]) then [x] + s
    else
      assert s == [s[0]] + s[1..];
      [s[0]] + Insert(x, s[1..], less)
  }

  function InsertionSort<T>(s: seq<T>, less: (T, T) -> bool): (r: seq<T>)
    ensures multiset(r) == multiset(s)
  {
    if s == [] then [] else
      assert s == [s[0]] + s[1..];
      Insert(s[0], InsertionSort(s[1..], less), less)
  }

  lemma {:induction false} InsertSorted<T(!new)>(x: T, s: seq<T>, less: (T, T) -> bool)
    requires WeakOrder(less) && SortedBy(s, less)
    ensures SortedBy(Insert(x, s, less), less)
  {
    if s != [] && !less(x, s[0]) {
      var rest := Insert(x, s[1..], less);
      InsertSorted(x, s[1..], less);
      forall j | 0 <= j < |rest| ensures !less(rest[j], s[0]) {
        assert rest[j] in multiset(rest);
        assert rest[j] == x || rest[j] in s[1..];
      }
    } else if s != [] {
      forall j | 0 <= j < |s| ensures !less(s[j], x) {
        assert !less(s[j], s[0]);
        assert !less(s[0], x);
      }
    }
  }

  lemma {:induction false} InsertionSortSorted<T(!new)>(s: seq<T>, less: (T, T) -> bool)
    requires WeakOrder(less)
    ensures SortedBy(InsertionSort(s, less), less)
  {
    if s != [] {
      InsertionSortSorted(s[1..], less);
      InsertSorted(s[0], InsertionSort(s[1..], less), less);
    }
  }

  /** sort.Slice: some sorted permutation; callers learn nothing about ties. */
  method Sort<T(!new)>(s: seq<T>, less: (T, T) -> bool) returns (r: seq<T>)
    requires WeakOrder(less)
    ensures multiset(r) == multiset(s)
    ensures SortedBy(r, less)
  {
    r := InsertionSort(s, less);
    InsertionSortSorted(s, less);
  }

  lemma SortedHeads<T>(a: seq<T>, b: seq<T>, less: (T, T) -> bool)
    requires a != [] && b != [] && multiset(a) == multiset(b)
    requires SortedBy(a, less) && SortedBy(b, less) && Tieless(a, less)
    ensures a[0] == b[0]
  {
    assert a[0] in multiset(b) && b[0] in multiset(a);
    var j :| 0 <= j < |b| && b[j] == a[0];
    var i :| 0 <= i < |a| && a[i] == b[0];
    if i != 0 && j != 0 {
      assert !less(a[i], a[0]) && !less(b[j], b[0]);
    }
  }

  lemma TailPermutation<T>(a: seq<T>, b: seq<T>)
    requires a != [] && b != [] && a[0] == b[0] && multiset(a) == multiset(b)
    ensures multiset(a[1..]) == multiset(b[1..])
  {
    assert a == [a[0]] + a[1..] && b == [b[0]] + b[1..];
    assert multiset(a[1..]) == multiset(a) - multiset{a[0]};
  }

  /** Without ties there is only one sorted permutation. */
  lemma {:induction false} SortedUnique<T>(a: seq<T>, b: seq<T>, less: (T, T) -> bool)
    requires multiset(a) == multiset(b)
    requires SortedBy(a, less) && SortedBy(b, less) && Tieless(a, less)
    ensures a == b
  {
    PermutationLength(a, b);
    if a != [] {
      SortedHeads(a, b, less);
      TailPermutation(a, b);
      assert Tieless(a[1..], less);
      SortedUnique(a[1..], b[1..], less);
      assert a == [a[0]] + a[1..] && b == [b[0]] + b[1..];
    }
  }

  lemma HeadRemoved<T>(a: seq<T>)
    requires a != []
    ensures multiset(a[1..]) == multiset(a) - multiset{a[0]}
  {
    assert a == [a[0]] + a[1..];
  }

  /** Taking one sequence's head out of both leaves them permutations of each other. */
  lemma MatchHead<T>(a: seq<T>, b: seq<T>) returns (j: int)
    requires a != [] && multiset(a) == multiset(b)
    ensures 0 <= j < |b| && b[j] == a[0]
    ensures multiset(a[1..]) == multiset(b[..j] + b[j + 1..])
  {
    assert a[0] in multiset(b);
    j :| 0 <= j < |b| && b[j] == a[0];
    RemoveAt(b, j);
    HeadRemoved(a);
  }

  /** A permutation of a tie-free sequence is tie-free. */
  lemma TielessPerm<T>(a: seq<T>, b: seq<T>, less: (T, T) -> bool)
    requires multiset(a) == multiset(b) && Tieless(a, less)
    ensures Tieless(b, less)
  {
    forall i, j | 0 <= i < |b| && 0 <= j < |b| && !less(b[i], b[j]) && !less(b[j], b[i])
      ensures b[i] == b[j]
    {
      assert b[i] in multiset(a) && b[j] in multiset(a);
    }
  }

  /** Trading two neighbours that tie leaves the sequence sorted. */
  lemma SwapTied<T>(t: seq<T>, k: int, less: (T, T) -> bool) returns (u: seq<T>)
    requires SortedBy(t, less) && 0 <= k && k + 1 < |t|
    requires !less(t[k], t[k + 1]) && t[k] != t[k + 1]
    ensures multiset(u) == multiset(t) && SortedBy(u, less) && u != t
  {
    var a, b := t[..k], t[k + 2..];
    u := a + ([t[k + 1], t[k]] + b);
    assert t == a + ([t[k], t[k + 1]] + b);
    assert multiset([t[k], t[k + 1]]) == multiset([t[k + 1], t[k]]);
    assert u[k] == t[k + 1];
  }

  /** Between two tied elements of a sorted sequence that differ, two neighbours tie and differ. */
  lemma {:induction false} TiedNeighbours<T(!new)>(t: seq<T>, less: (T, T) -> bool, i: int, j: int) returns (k: int)
    requires WeakOrder(less) && SortedBy(t, less) && 0 <= i < j < |t|
    requires !less(t[i], t[j]) && t[i] != t[j]
    ensures i <= k < j && !less(t[k], t[k + 1]) && t[k] != t[k + 1]
    decreases j - i
  {
    if t[i] != t[i + 1] {
      k := i;
      if i + 1 < j {
        assert !less(t[j], t[i + 1]);
      }
    } else {
      k := TiedNeighbours(t, less, i + 1, j);
    }
  }

  /** With a tie between different elements, sorting has a choice. */
  lemma TiesLeaveAChoice<T(!new)>(s: seq<T>, less: (T, T) -> bool) returns (t: seq<T>, u: seq<T>)
    requires WeakOrder(less) && !Tieless(s, less)
    ensures multiset(t) == multiset(s) && SortedBy(t, less)
    ensures multiset(u) == multiset(s) && SortedBy(u, less) && t != u
  {
    t := InsertionSort(s, less);
    InsertionSortSorted(s, less);
    if Tieless(t, less) {
      TielessPerm(t, s, less);
    }
    var i, j :| 0 <= i < |t| && 0 <= j < |t| && !less(t[i], t[j]) && !less(t[j], t[i]) && t[i] != t[j] && i < j;
    var k := TiedNeighbours(t, less, i, j);
    u := SwapTied(t, k, less);
  }

  /** t is something sorting s may come out as. */
  ghost predicate SortsTo<T>(s: seq<T>, less: (T, T) -> bool, t: seq<T>) {
    multiset(t) == multiset(s) && SortedBy(t, less)
  }

  /** A sequence sorts in only one way exactly when no two different elements tie. */
  lemma SortIsForced<T(!new)>(s: seq<T>, less: (T, T) -> bool)
    requires WeakOrder(less)
    ensures Tieless(s, less) <==> forall t, u :: SortsTo(s, less, t) && SortsTo(s, less, u) ==> t == u
  {
    if Tieless(s, less) {
      forall t, u | SortsTo(s, less, t) && SortsTo(s, less, u) ensures t == u {
        TielessPerm(s, t, less);
        SortedUnique(t, u, less);
      }
    } else {
      var t, u := TiesLeaveAChoice(s, less);
      assert SortsTo(s, less, t) && SortsTo(s, less, u);
    }
  }

  /** A sequence has no repeats exactly when its multiset has none, so permutations share the property. */
  lemma {:induction false} DistinctMultiset<T>(s: seq<T>)
    ensures (forall i, j :: 0 <= i < j < |s| ==> s[i] != s[j]) <==> forall x :: multiset(s)[x] <= 1
  {
    if s != [] {
      var t := s[1..];
      DistinctMultiset(t);
      assert s == [s[0]] + t;
      assert multiset(s) == multiset{s[0]} + multiset(t);
      if forall i, j :: 0 <= i < j < |s| ==> s[i] != s[j] {
        assert s[0] !in t;
        forall x ensures multiset(s)[x] <= 1 {
          assert x in multiset(t) <==> x in t;
        }
      }
      if forall x :: multiset(s)[x] <= 1 {
        assert multiset(s)[s[0]] == 1 + multiset(t)[s[0]];
        forall i, j | 0 <= i < j < |s| ensures s[i] != s[j] {
          if i == 0 {
            assert s[j] in t && s[j] in multiset(t);
          } else {
            assert t[i - 1] != t[j - 1] by {
              assert forall x :: multiset(t)[x] <= multiset(s)[x];
            }
          }
        }
      }
    }
  }

  lemma DistinctPermutation<T>(a: seq<T>, b: seq<T>)
    requires multiset(a) == multiset(b)
    requires forall i, j :: 0 <= i < j < |a| ==> a[i] != a[j]
    ensures forall i, j :: 0 <= i < j < |b| ==> b[i] != b[j]
  {
    DistinctMultiset(a);
    DistinctMultiset(b);
  }
}
