/**
 * Sequence helpers behind the modelled list operations: duplicate removal,
 * `filter`, SQL's `ORDER BY ... LIMIT` and Python's `s[i:i + n]` grouping.
 */
module Seqs {

  predicate Distinct<T(==)>(s: seq<T>) {
    forall i, j :: 0 <= i < j < |s| ==> s[i] != s[j]
  }

  /** `list(set(s))`: each element once; this model keeps first occurrences in order. */
  function Dedup<T(==,!new)>(s: seq<T>): (r: seq<T>)
    ensures Distinct(r)
    ensures forall x :: x in r <==> x in s
    ensures |r| <= |s|
  {
    if s == [] then []
    else
      var init := Dedup(s[..|s| - 1]);
      assert forall x :: x in s <==> x in s[..|s| - 1] || x == s[|s| - 1];
      if s[|s| - 1] in init then init else init + [s[|s| - 1]]
  }

  /** A duplicate-free sequence is its own `Dedup`. */
  lemma {:induction false} DedupOfDistinct<T(!new)>(s: seq<T>)
    requires Distinct(s)
    ensures Dedup(s) == s
  {
    if s != [] {
      var init := s[..|s| - 1];
      assert Distinct(init);
      DedupOfDistinct(init);
      assert s[|s| - 1] !in init;
      assert init + [s[|s| - 1]] == s;
    }
  }

  /** Appending more elements never shortens `Dedup`. */
  lemma {:induction false} DedupAppendLonger<T(!new)>(a: seq<T>, b: seq<T>)
    ensures |Dedup(a)| <= |Dedup(a + b)|
  {
    if b == [] {
      assert a + b == a;
    } else {
      var b' := b[..|b| - 1];
      DedupAppendLonger(a, b');
      assert (a + b)[..|a + b| - 1] == a + b';
      assert |Dedup(a + b)| >= |Dedup(a + b')|;
    }
  }

  /** The elements of `s` that satisfy `p`, in order. */
  function Filter<T(!new)>(s: seq<T>, p: T -> bool): (r: seq<T>)
    ensures |r| <= |s|
    ensures forall i :: 0 <= i < |r| ==> p(r[i])
  {
    if s == [] then []
    else
      (if p(s[0]) then [s[0]] else []) + Filter(s[1..], p)
  }

  /** `filter` keeps exactly the elements that satisfy `p`, each no more often than in `s`. */
  lemma {:induction false} FilterContents<T(!new)>(s: seq<T>, p: T -> bool)
    ensures multiset(Filter(s, p)) <= multiset(s)
    ensures forall x :: x in Filter(s, p) <==> x in s && p(x)
    ensures forall x :: multiset(Filter(s, p))[x] == if p(x) then multiset(s)[x] else 0
  {
    if s != [] {
      assert s == [s[0]] + s[1..];
      FilterContents(s[1..], p);
    }
  }

  /** `f` applied to each element of `s`, in order. */
  function MapSeq<T, U>(s: seq<T>, f: T -> U): (r: seq<U>)
  {
    seq(|s|, i requires 0 <= i < |s| => f(s[i]))
  }

  /** The images of `s` are those of `s` without its element `k`, and that element's image. */
  lemma MapSeqSplit<T, U>(s: seq<T>, k: nat, f: T -> U)
    requires k < |s|
    ensures multiset(MapSeq(s, f)) == multiset(MapSeq(s[..k] + s[k + 1..], f)) + multiset{f(s[k])}
  {
    var a, b := MapSeq(s[..k], f), MapSeq(s[k + 1..], f);
    assert MapSeq(s, f) == a + [f(s[k])] + b;
    assert MapSeq(s[..k] + s[k + 1..], f) == a + b;
  }

  /** Taking the first element of `s` out of `t` at a position where `t` holds it keeps the two multisets equal. */
  lemma RemoveMatching<T>(s: seq<T>, t: seq<T>, k: nat)
    requires multiset(s) == multiset(t) && s != [] && k < |t| && t[k] == s[0]
    ensures multiset(s[1..]) == multiset(t[..k] + t[k + 1..])
  {
    var x, l, r := s[0], t[..k], t[k + 1..];
    assert s == [x] + s[1..];
    assert multiset(s) == multiset{x} + multiset(s[1..]);
    assert t == l + [x] + r;
    assert multiset(t) == multiset(l) + multiset{x} + multiset(r);
    assert multiset(l + r) == multiset(l) + multiset(r);
    forall y ensures multiset(s[1..])[y] == multiset(l + r)[y] {
      assert multiset(s)[y] == multiset(t)[y];
    }
  }

  /** A position where an element of the multiset of `t` sits in `t`. */
  lemma PositionOf<T>(t: seq<T>, x: T) returns (k: nat)
    requires x in multiset(t)
    ensures k < |t| && t[k] == x
  {
    k :| 0 <= k < |t| && t[k] == x;
  }

  /** Reordering a sequence reorders its images: each image occurs as often as before. */
  lemma {:induction false} MapSeqPermutation<T, U>(s: seq<T>, t: seq<T>, f: T -> U)
    requires multiset(s) == multiset(t)
    ensures multiset(MapSeq(s, f)) == multiset(MapSeq(t, f))
    decreases |s|
  {
    if s != [] {
      var x := s[0];
      var k := PositionOf(t, x);
      RemoveMatching(s, t, k);
      MapSeqPermutation(s[1..], t[..k] + t[k + 1..], f);
      MapSeqSplit(s, 0, f);
      assert s[..0] + s[1..] == s[1..];
      MapSeqSplit(t, k, f);
    }
  }

  /** Filtering one more element at the end appends it when it is kept. */
  lemma {:induction false} FilterSnoc<T(!new)>(s: seq<T>, x: T, p: T -> bool)
    ensures Filter(s + [x], p) == Filter(s, p) + (if p(x) then [x] else [])
  {
    if s == [] {
      assert [x][1..] == [];
    } else {
      assert (s + [x])[1..] == s[1..] + [x];
      FilterSnoc(s[1..], x, p);
    }
  }

  /** The indices of the elements of `xs` that satisfy `p`, in increasing order. */
  function Indices<T>(xs: seq<T>, p: T -> bool): seq<nat>
    decreases |xs|
  {
    if xs == [] then []
    else
      var n := |xs| - 1;
      Indices(xs[..n], p) + (if p(xs[n]) then [n] else [])
  }

  /** `Indices` lists exactly the satisfying positions, each once and in order. */
  lemma {:induction false} IndicesSpec<T>(xs: seq<T>, p: T -> bool)
    ensures forall k :: 0 <= k < |Indices(xs, p)| ==> Indices(xs, p)[k] < |xs| && p(xs[Indices(xs, p)[k]])
    ensures forall k, l :: 0 <= k < l < |Indices(xs, p)| ==> Indices(xs, p)[k] < Indices(xs, p)[l]
    ensures forall j :: 0 <= j < |xs| && p(xs[j]) ==> j in Indices(xs, p)
    decreases |xs|
  {
    if xs != [] {
      var n := |xs| - 1;
      var init := xs[..n];
      IndicesSpec(init, p);
      var prev := Indices(init, p);
      var ids := Indices(xs, p);
      assert ids[..|prev|] == prev;
      forall k | 0 <= k < |prev|
        ensures prev[k] < n && xs[prev[k]] == init[prev[k]]
      {
      }
      forall j | 0 <= j < |xs| && p(xs[j])
        ensures j in ids
      {
        if j < n {
          assert xs[j] == init[j];
          assert j in prev;
        } else {
          assert ids[|ids| - 1] == n;
        }
      }
    }
  }

  lemma AppendAssoc<T>(a: seq<T>, b: seq<T>, c: seq<T>)
    ensures (a + b) + c == a + (b + c)
  {
  }

  /** A prefix is a shorter prefix followed by the slice between them. */
  lemma PrefixSplit<T>(s: seq<T>, i: nat, k: nat)
    requires i <= k <= |s|
    ensures s[..k] == s[..i] + s[i..k]
  {
  }

  /** SQL `LIMIT n`: a negative limit means no limit. */
  function Take<T>(s: seq<T>, limit: int): (r: seq<T>)
    ensures limit < 0 ==> r == s
    ensures 0 <= limit ==> |r| == (if limit < |s| then limit else |s|)
    ensures r == s[..|r|]
  {
    if limit < 0 || |s| <= limit then s else s[..limit]
  }

  /** `key` does not decrease along `s`. */
  predicate SortedBy<T>(s: seq<T>, key: T -> int) {
    forall i, j :: 0 <= i < j < |s| ==> key(s[i]) <= key(s[j])
  }

  /** Puts `x` after every element whose key is not greater than its own. */
  function Insert<T>(x: T, s: seq<T>, key: T -> int): (r: seq<T>)
    requires SortedBy(s, key)
    ensures SortedBy(r, key)
    ensures multiset(r) == multiset(s) + multiset{x}
    ensures |r| == |s| + 1
    ensures key(r[0]) == key(x) || (s != [] && key(r[0]) == key(s[0]))
  {
    if s == [] then [x]
    else if key(x) < key(s[0]) then [x] + s
    else
      assert s == [s[0]] + s[1..];
      [s[0]] + Insert(x, s[1..], key)
  }

  /**
   * `ORDER BY key ASC` as a stable insertion sort: rows with equal keys keep
   * their table order.
   */
  function SortBy<T(!new)>(s: seq<T>, key: T -> int): (r: seq<T>)
    ensures SortedBy(r, key)
    ensures multiset(r) == multiset(s)
    ensures |r| == |s|
  {
    if s == [] then []
    else
      assert s == s[..|s| - 1] + [s[|s| - 1]];
      Insert(s[|s| - 1], SortBy(s[..|s| - 1], key), key)
  }

  /** Sorting keeps exactly the same elements. */
  lemma SortByMembers<T(!new)>(s: seq<T>, key: T -> int)
    ensures forall x :: x in SortBy(s, key) <==> x in s
  {
    var r := SortBy(s, key);
    forall x ensures x in r <==> x in s {
      assert x in r <==> x in multiset(r);
      assert x in s <==> x in multiset(s);
    }
  }

  /**
   * Cutting a sorted sequence at a limit leaves out only elements whose key
   * is at least every kept key.
   */
  lemma TakeSortedLeavesLarger<T>(s: seq<T>, key: T -> int, limit: int, x: T)
    requires SortedBy(s, key) && x in s && x !in Take(s, limit)
    ensures forall i :: 0 <= i < |Take(s, limit)| ==> key(Take(s, limit)[i]) <= key(x)
  {
    var t := Take(s, limit);
    var k :| 0 <= k < |s| && s[k] == x;
    forall i | 0 <= i < |t| ensures key(t[i]) <= key(x) {
      assert t[i] == s[i];
    }
  }

  /** `[s[i:i + n] for i in range(0, len(s), n)]`. */
  function Chunks<T>(s: seq<T>, n: nat): (groups: seq<seq<T>>)
    requires n > 0
    decreases |s|
  {
    if s == [] then []
    else
      var k := if |s| < n then |s| else n;
      [s[..k]] + Chunks(s[k..], n)
  }

  function Flatten<T>(groups: seq<seq<T>>): seq<T> {
    if groups == [] then [] else groups[0] + Flatten(groups[1..])
  }

  /** The groups are consecutive and cover `s` exactly. */
  lemma {:induction false} ChunksFlatten<T>(s: seq<T>, n: nat)
    requires n > 0
    ensures Flatten(Chunks(s, n)) == s
    decreases |s|
  {
    if s != [] {
      var k := if |s| < n then |s| else n;
      ChunksFlatten(s[k..], n);
      assert s == s[..k] + s[k..];
    }
  }

  /** Every group holds 1 to `n` elements and only the last may hold fewer than `n`. */
  lemma {:induction false} ChunksSizes<T>(s: seq<T>, n: nat)
    requires n > 0
    ensures forall g :: g in Chunks(s, n) ==> 1 <= |g| <= n
    ensures forall i :: 0 <= i < |Chunks(s, n)| - 1 ==> |Chunks(s, n)[i]| == n
    decreases |s|
  {
    if s != [] {
      var k := if |s| < n then |s| else n;
      ChunksSizes(s[k..], n);
      var rest := Chunks(s[k..], n);
      assert Chunks(s, n) == [s[..k]] + rest;
      if |s| < n {
        assert rest == [];
      } else {
        forall i | 0 <= i < |Chunks(s, n)| - 1
          ensures |Chunks(s, n)[i]| == n
        {
          if i > 0 { assert Chunks(s, n)[i] == rest[i - 1]; }
        }
      }
    }
  }

  /** There are ceil(|s| / n) groups: the fewest groups of `n` that hold `s`. */
  lemma {:induction false} ChunksCount<T>(s: seq<T>, n: nat)
    requires n > 0
    ensures |s| <= |Chunks(s, n)| * n < |s| + n
    decreases |s|
  {
    if s != [] {
      var k := if |s| < n then |s| else n;
      ChunksCount(s[k..], n);
      var c := |Chunks(s[k..], n)|;
      assert |Chunks(s, n)| == c + 1;
      if |s| < n {
        assert s[k..] == [];
        assert c == 0;
      } else {
        assert |s| - n <= c * n < |s|;
        assert (c + 1) * n == c * n + n;
      }
    }
  }

  /** Twenty-five ids in groups of ten make groups of 10, 10 and 5. */
  lemma ChunksOfTwentyFive<T>(s: seq<T>)
    requires |s| == 25
    ensures |Chunks(s, 10)| == 3
    ensures |Chunks(s, 10)[0]| == 10 && |Chunks(s, 10)[1]| == 10 && |Chunks(s, 10)[2]| == 5
  {
    assert Chunks(s, 10) == [s[..10]] + Chunks(s[10..], 10);
    assert s[10..][10..] == s[20..];
    assert Chunks(s[10..], 10) == [s[10..][..10]] + Chunks(s[20..], 10);
    assert s[20..][5..] == [] && s[20..][..5] == s[20..];
    assert Chunks(s[20..], 10) == [s[20..]];
  }

  /** Grouping past a whole group: the groups of `s` from offset `i` onward. */
  lemma ChunksStep<T>(s: seq<T>, n: nat, i: nat)
    requires n > 0 && i < |s|
    ensures var k := if |s| - i < n then |s| else i + n;
      Chunks(s[i..], n) == [s[i..k]] + Chunks(s[k..], n)
  {
    var k := if |s| - i < n then |s| else i + n;
    assert s[i..][..k - i] == s[i..k];
    assert s[i..][k - i..] == s[k..];
  }
}
