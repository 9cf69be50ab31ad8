/**
 * The JavaScript array primitives the data layer is built from (`find`, `findIndex`,
 * `filter`, `some`, `map`-by-id and the find-then-replace-or-push upsert of every `save*`),
 * as functions on sequences, with the laws the rest of the model relies on.
 */
module Collections {
  import opened Wrappers

  /** `a` is obtained from `b` by deleting elements, so `a` keeps the relative order of `b`. */
  predicate IsSubsequence<T(==)>(a: seq<T>, b: seq<T>)
    decreases |b|
  {
    if a == [] then true
    else if b == [] then false
    else if a[0] == b[0] then IsSubsequence(a[1..], b[1..])
    else IsSubsequence(a, b[1..])
  }

  /** `Array.prototype.findIndex`: the first index whose element satisfies `p`, or -1. */
  function FindIndex<T>(s: seq<T>, p: T -> bool): (r: int)
    ensures -1 <= r < |s|
    ensures 0 <= r ==> p(s[r]) && forall j :: 0 <= j < r ==> !p(s[j])
    ensures r == -1 ==> forall j :: 0 <= j < |s| ==> !p(s[j])
  {
    if s == [] then -1
    else if p(s[0]) then 0
    else
      var r := FindIndex(s[1..], p);
      if r < 0 then -1 else r + 1
  }

  /** `Array.prototype.find`: the first element satisfying `p`, or `undefined`. */
  function Find<T>(s: seq<T>, p: T -> bool): (r: Option<T>)
    ensures r.None? <==> forall j :: 0 <= j < |s| ==> !p(s[j])
    ensures r.Some? ==> exists i :: 0 <= i < |s| && s[i] == r.value && p(s[i]) &&
                                    forall j :: 0 <= j < i ==> !p(s[j])
  {
    var i := FindIndex(s, p);
    if i < 0 then None else Some(s[i])
  }

  /** `Array.prototype.some`. */
  function Any<T>(s: seq<T>, p: T -> bool): (b: bool)
    ensures b <==> exists i :: 0 <= i < |s| && p(s[i])
  {
    s != [] && (p(s[0]) || Any(s[1..], p))
  }

  /** `Array.prototype.filter`: the elements satisfying `p`, in their original order. */
  function Filter<T(==,!new)>(s: seq<T>, p: T -> bool): (r: seq<T>)
    ensures |r| <= |s|
    ensures forall x :: x in r <==> x in s && p(x)
    ensures forall x :: multiset(r)[x] == if p(x) then multiset(s)[x] else 0
    ensures IsSubsequence(r, s)
  {
    if s == [] then []
    else
      assert s == [s[0]] + s[1..];
      if p(s[0]) then [s[0]] + Filter(s[1..], p) else Filter(s[1..], p)
  }

  /** `findIndex(x => key(x) === k)`: the first index whose key is `k`, or -1. */
  function IndexOfKey<T>(s: seq<T>, key: T -> string, k: string): (r: int)
    ensures -1 <= r < |s|
    ensures 0 <= r ==> key(s[r]) == k && forall j :: 0 <= j < r ==> key(s[j]) != k
    ensures r == -1 ==> forall j :: 0 <= j < |s| ==> key(s[j]) != k
  {
    FindIndex(s, (x: T) => key(x) == k)
  }

  /** `find(x => key(x) === k)`: the first element whose key is `k`, or `undefined`. */
  function FindByKey<T>(s: seq<T>, key: T -> string, k: string): (r: Option<T>)
    ensures r.None? <==> forall j :: 0 <= j < |s| ==> key(s[j]) != k
    ensures r.Some? ==> r.value in s && key(r.value) == k
    ensures r.Some? ==> r.value == s[IndexOfKey(s, key, k)]
    ensures r.Some? ==>
      exists i :: 0 <= i < |s| && s[i] == r.value && forall j :: 0 <= j < i ==> key(s[j]) != k
  {
    var i := IndexOfKey(s, key, k);
    if i < 0 then None else Some(s[i])
  }

  /**
   * The `save*` pattern: look up the first element with the same key as `x`; overwrite it
   * with `x` if there is one, otherwise push `x` at the end.
   */
  function Upsert<T>(s: seq<T>, x: T, key: T -> string): (r: seq<T>)
    ensures |r| == if IndexOfKey(s, key, key(x)) < 0 then |s| + 1 else |s|
  {
    var i := IndexOfKey(s, key, key(x));
    if i >= 0 then s[i := x] else s + [x]
  }

  /** `map(y => key(y) === k ? x : y)`: every element whose key is `k` becomes `x`. */
  function ReplaceByKey<T>(s: seq<T>, key: T -> string, k: string, x: T): (r: seq<T>)
    ensures |r| == |s|
    ensures forall i :: 0 <= i < |s| ==> r[i] == if key(s[i]) == k then x else s[i]
  {
    if s == [] then []
    else [if key(s[0]) == k then x else s[0]] + ReplaceByKey(s[1..], key, k, x)
  }

  /** `slice(0, n)`. */
  function Take<T>(s: seq<T>, n: nat): (r: seq<T>)
    ensures |r| == if n < |s| then n else |s|
    ensures r <= s
  {
    if n < |s| then s[..n] else s
  }

  // ---------------------------------------------------------------------------------------
  // Laws

  /** The first index with a key is determined by the elements up to and including it. */
  lemma {:induction false} IndexOfKeyIs<T>(s: seq<T>, key: T -> string, k: string, m: int)
    requires 0 <= m < |s| && key(s[m]) == k
    requires forall j :: 0 <= j < m ==> key(s[j]) != k
    ensures IndexOfKey(s, key, k) == m
  {
  }

  /** After an upsert, looking the saved key up returns exactly the saved record. */
  lemma {:induction false} UpsertThenFind<T>(s: seq<T>, x: T, key: T -> string)
    ensures FindByKey(Upsert(s, x, key), key, key(x)) == Some(x)
  {
    var i := IndexOfKey(s, key, key(x));
    var r := Upsert(s, x, key);
    if i >= 0 {
      IndexOfKeyIs(r, key, key(x), i);
    } else {
      IndexOfKeyIs(r, key, key(x), |s|);
    }
  }

  /**
   * Upsert of a key already present: the length is unchanged, the first element with that key
   * becomes `x`, and every other position is untouched.
   */
  lemma {:induction false} UpsertExisting<T>(s: seq<T>, x: T, key: T -> string, i: int)
    requires 0 <= i < |s| && key(s[i]) == key(x)
    requires forall j :: 0 <= j < i ==> key(s[j]) != key(x)
    ensures Upsert(s, x, key) == s[i := x]
  {
    IndexOfKeyIs(s, key, key(x), i);
  }

  /** Upsert of a key not present appends `x` at the end. */
  lemma {:induction false} UpsertNew<T>(s: seq<T>, x: T, key: T -> string)
    requires forall j :: 0 <= j < |s| ==> key(s[j]) != key(x)
    ensures Upsert(s, x, key) == s + [x]
  {
  }

  /** After an upsert the record is present, and so is every record with another key. */
  lemma {:induction false} UpsertMembers<T>(s: seq<T>, x: T, key: T -> string)
    ensures x in Upsert(s, x, key)
    ensures forall y :: y in s && key(y) != key(x) ==> y in Upsert(s, x, key)
  {
    var i := IndexOfKey(s, key, key(x));
    var r := Upsert(s, x, key);
    forall y | y in s && key(y) != key(x) ensures y in r {
      var p :| 0 <= p < |s| && s[p] == y;
      assert r[p] == y;
    }
    if i >= 0 {
      assert r[i] == x;
    } else {
      assert r[|s|] == x;
    }
  }

  /** Upsert does not change what any other key looks up to. */
  lemma {:induction false} UpsertKeepsOtherKeys<T>(s: seq<T>, x: T, key: T -> string, k: string)
    requires k != key(x)
    ensures FindByKey(Upsert(s, x, key), key, k) == FindByKey(s, key, k)
  {
    var i := IndexOfKey(s, key, key(x));
    var r := Upsert(s, x, key);
    var m := IndexOfKey(s, key, k);
    if m >= 0 {
      assert r[m] == s[m];
      forall j | 0 <= j < m ensures key(r[j]) != k {
        assert j == i || r[j] == s[j];
      }
      IndexOfKeyIs(r, key, k, m);
    } else {
      forall j | 0 <= j < |r| ensures key(r[j]) != k {
        if j < |s| {
          assert j == i || r[j] == s[j];
        }
      }
    }
  }

  /** Filtering distributes over concatenation, so it never reorders what it keeps. */
  lemma {:induction false} FilterConcat<T(!new)>(a: seq<T>, b: seq<T>, p: T -> bool)
    ensures Filter(a + b, p) == Filter(a, p) + Filter(b, p)
  {
    if a == [] {
      assert a + b == b;
    } else {
      assert (a + b)[1..] == a[1..] + b;
      FilterConcat(a[1..], b, p);
    }
  }

  /** The positions of `s` whose element satisfies `p`. */
  ghost function Positions<T>(s: seq<T>, p: T -> bool): set<int>
  {
    set i | 0 <= i < |s| && p(s[i])
  }

  /** Adding an element at the end adds its position when it satisfies the condition. */
  lemma {:induction false} PositionsOfSnoc<T>(s: seq<T>, p: T -> bool)
    requires s != []
    ensures Positions(s, p) == Positions(s[..|s| - 1], p) + (if p(s[|s| - 1]) then {|s| - 1} else {})
    ensures |s| - 1 !in Positions(s[..|s| - 1], p)
  {
    var n := |s| - 1;
    forall i ensures i in Positions(s, p) <==> i in Positions(s[..n], p) || (p(s[n]) && i == n) {
      if 0 <= i < n { assert s[..n][i] == s[i]; }
    }
  }

  /** The length of a filter is the number of positions whose element satisfies the condition. */
  lemma {:induction false} FilterLengthCountsIndices<T(!new)>(s: seq<T>, p: T -> bool)
    ensures |Filter(s, p)| == |Positions(s, p)|
    decreases |s|
  {
    if s == [] {
      assert Positions(s, p) == {};
    } else {
      FilterLengthCountsIndices(s[..|s| - 1], p);
      FilterSnocLength(s, p);
      PositionsOfSnoc(s, p);
    }
  }

  /** Filtering one more element at the end keeps it exactly when it satisfies the condition. */
  lemma {:induction false} FilterSnocLength<T(!new)>(s: seq<T>, p: T -> bool)
    requires s != []
    ensures |Filter(s, p)| == |Filter(s[..|s| - 1], p)| + if p(s[|s| - 1]) then 1 else 0
  {
    var n := |s| - 1;
    assert s == s[..n] + [s[n]];
    FilterConcat(s[..n], [s[n]], p);
    assert [s[n]][1..] == [];
  }

  /** A filter that keeps every element is the identity. */
  lemma {:induction false} FilterKeepingAll<T(!new)>(s: seq<T>, p: T -> bool)
    requires forall x :: x in s ==> p(x)
    ensures Filter(s, p) == s
  {
    if s != [] {
      assert p(s[0]);
      assert forall x :: x in s[1..] ==> x in s;
      FilterKeepingAll(s[1..], p);
      assert s == [s[0]] + s[1..];
    }
  }

  /**
   * Three filters whose conditions hold of exactly one element each time split the sequence:
   * their lengths add up to its length.
   */
  lemma {:induction false} FilterThreeWay<T(!new)>(s: seq<T>, p: T -> bool, q: T -> bool, u: T -> bool)
    requires forall x :: x in s ==> (p(x) && !q(x) && !u(x)) || (!p(x) && q(x) && !u(x)) ||
                                    (!p(x) && !q(x) && u(x))
    ensures |Filter(s, p)| + |Filter(s, q)| + |Filter(s, u)| == |s|
  {
    if s != [] {
      assert forall x :: x in s[1..] ==> x in s;
      FilterThreeWay(s[1..], p, q, u);
    }
  }

  /** `reduce((sum, x) => sum + f(x), 0)`. */
  function SumOf<T>(s: seq<T>, f: T -> real): real
  {
    if s == [] then 0.0 else f(s[0]) + SumOf(s[1..], f)
  }

  /** With no negative terms the sum is not negative. */
  lemma {:induction false} SumOfNonNegative<T>(s: seq<T>, f: T -> real)
    requires forall x :: x in s ==> f(x) >= 0.0
    ensures SumOf(s, f) >= 0.0
  {
    if s != [] {
      assert forall x :: x in s[1..] ==> x in s;
      SumOfNonNegative(s[1..], f);
    }
  }

  function Not<T>(p: T -> bool): T -> bool
  {
    (x: T) => !p(x)
  }

  /** A filter and its complement split a sum: the two partial sums add up to the whole. */
  lemma {:induction false} SumOfFilterSplit<T(!new)>(s: seq<T>, f: T -> real, p: T -> bool)
    ensures SumOf(Filter(s, p), f) + SumOf(Filter(s, Not(p)), f) == SumOf(s, f)
  {
    if s != [] {
      SumOfFilterSplit(s[1..], f, p);
    }
  }
}
