/**
 * Python's `random` module as an injected source of raw draws. A `Source`
 * gives the n-th raw value; every call below consumes the draws from `pos`
 * onward and reports the next unused position, so a sequence of calls is a
 * deterministic function of the source.
 */
module Rand {
  import opened Wrappers
  import opened Seqs

  type Source = nat -> nat

  datatype Drawn<T> = Drawn(value: T, next: nat)

  /** The `ValueError`/`IndexError` cases of the modelled calls. */
  datatype RandError = EmptyRange | EmptySequence | SampleLargerThanPopulation

  /** `random.randint(lo, hi)`: a value in [lo, hi]; an empty range raises. */
  function RandInt(src: Source, pos: nat, lo: int, hi: int): (r: Result<Drawn<int>, RandError>)
    ensures r.Ok? <==> lo <= hi
    ensures r.Ok? ==> lo <= r.value.value <= hi && r.value.next == pos + 1
  {
    if hi < lo then Err(EmptyRange)
    else Ok(Drawn(lo + src(pos) % (hi - lo + 1), pos + 1))
  }

  /** Every value of a non-empty range is drawn by some source. */
  lemma RandIntReaches(pos: nat, lo: int, hi: int, v: int)
    requires lo <= v <= hi
    ensures exists src: Source :: RandInt(src, pos, lo, hi) == Ok(Drawn(v, pos + 1))
  {
    var src: Source := (n: nat) => (v - lo) as nat;
    assert RandInt(src, pos, lo, hi) == Ok(Drawn(v, pos + 1));
  }

  /** `random.choice(xs)`: an element of `xs`; an empty sequence raises. */
  function Choice<T>(src: Source, pos: nat, xs: seq<T>): (r: Result<Drawn<T>, RandError>)
    ensures r.Ok? <==> xs != []
    ensures r.Ok? ==> r.value.value in xs && r.value.next == pos + 1
  {
    if xs == [] then Err(EmptySequence)
    else Ok(Drawn(xs[src(pos) % |xs|], pos + 1))
  }

  /** Every element of `xs` is chosen by some source. */
  lemma ChoiceReaches<T>(pos: nat, xs: seq<T>, i: nat)
    requires i < |xs|
    ensures exists src: Source :: Choice(src, pos, xs) == Ok(Drawn(xs[i], pos + 1))
  {
    var src: Source := (n: nat) => i;
    assert Choice(src, pos, xs) == Ok(Drawn(xs[i], pos + 1));
  }

  /**
   * `random.random() < p` for `p == percent / 100`: the draw's residue
   * modulo 100 stands for the hundredths of the float.
   */
  function Chance(src: Source, pos: nat, percent: nat): (r: Drawn<bool>)
    ensures r.next == pos + 1
    ensures percent == 0 ==> !r.value
    ensures 100 <= percent ==> r.value
  {
    Drawn(src(pos) % 100 < percent, pos + 1)
  }

  /** Both outcomes of a proper probability are possible. */
  lemma ChanceReaches(pos: nat, percent: nat, b: bool)
    requires 0 < percent < 100
    ensures exists src: Source :: Chance(src, pos, percent).value == b
  {
    var src: Source := (n: nat) => if b then 0 else 99;
    assert Chance(src, pos, percent).value == b;
  }

  /**
   * `random.sample(xs, k)`: `k` elements taken from distinct positions of `xs`;
   * a negative `k` or one larger than the population raises.
   */
  function Sample<T(==)>(src: Source, pos: nat, xs: seq<T>, k: int): (r: Result<Drawn<seq<T>>, RandError>)
    ensures r.Ok? <==> 0 <= k <= |xs|
    ensures r.Ok? ==> |r.value.value| == k && r.value.next == pos + k
    ensures r.Ok? ==> multiset(r.value.value) <= multiset(xs)
    ensures r.Ok? && Distinct(xs) ==> Distinct(r.value.value)
    decreases if k < 0 then 0 else k
  {
    if k < 0 || |xs| < k then Err(SampleLargerThanPopulation)
    else if k == 0 then Ok(Drawn([], pos))
    else
      var i := src(pos) % |xs|;
      var rest := xs[..i] + xs[i + 1..];
      RemoveAt(xs, i);
      var tail := Sample(src, pos + 1, rest, k - 1).value;
      PrependDistinct(xs[i], tail.value, rest);
      Ok(Drawn([xs[i]] + tail.value, tail.next))
  }

  /** Removing position `i` removes one copy of `xs[i]`, and no other copy if `xs` is distinct. */
  lemma RemoveAt<T>(xs: seq<T>, i: nat)
    requires i < |xs|
    ensures multiset(xs[..i] + xs[i + 1..]) + multiset{xs[i]} == multiset(xs)
    ensures Distinct(xs) ==> Distinct(xs[..i] + xs[i + 1..]) && xs[i] !in xs[..i] + xs[i + 1..]
  {
    assert xs == xs[..i] + [xs[i]] + xs[i + 1..];
    var rest := xs[..i] + xs[i + 1..];
    if Distinct(xs) {
      forall a, b | 0 <= a < b < |rest| ensures rest[a] != rest[b] {
        var a' := if a < i then a else a + 1;
        var b' := if b < i then b else b + 1;
        assert rest[a] == xs[a'] && rest[b] == xs[b'];
      }
      forall a | 0 <= a < |rest| ensures rest[a] != xs[i] {
        var a' := if a < i then a else a + 1;
        assert rest[a] == xs[a'];
      }
    }
  }

  lemma PrependDistinct<T>(x: T, tail: seq<T>, rest: seq<T>)
    requires multiset(tail) <= multiset(rest)
    ensures Distinct(tail) && x !in rest ==> Distinct([x] + tail)
  {
    if Distinct(tail) && x !in rest {
      forall a | 0 <= a < |tail| ensures tail[a] != x {
        assert tail[a] in multiset(tail);
      }
      forall a, b | 0 <= a < b < |[x] + tail| ensures ([x] + tail)[a] != ([x] + tail)[b] {
        if a > 0 { assert ([x] + tail)[a] == tail[a - 1]; }
        assert ([x] + tail)[b] == tail[b - 1];
      }
    }
  }

  /** `random.choices(xs, k=k)`: `k` independent choices; an empty population raises. */
  function Choices<T>(src: Source, pos: nat, xs: seq<T>, k: nat): (r: Result<Drawn<seq<T>>, RandError>)
    ensures r.Ok? <==> xs != [] || k == 0
    ensures r.Ok? ==> |r.value.value| == k && r.value.next == pos + k
    ensures r.Ok? ==> forall i :: 0 <= i < k ==> r.value.value[i] in xs
    decreases k
  {
    if k == 0 then Ok(Drawn([], pos))
    else if xs == [] then Err(EmptySequence)
    else
      var tail := Choices(src, pos + 1, xs, k - 1).value;
      Ok(Drawn([xs[src(pos) % |xs|]] + tail.value, tail.next))
  }

  /**
   * The process-wide generators: the state of `random` as a position in a
   * source, and the outputs of `uuid.uuid4()` in call order.
   */
  class Entropy {
    const src: Source
    const uuids: nat -> string
    var pos: nat
    var issued: nat

    constructor (src: Source, uuids: nat -> string)
      ensures this.src == src && this.uuids == uuids && pos == 0 && issued == 0
    {
      this.src := src;
      this.uuids := uuids;
      pos := 0;
      issued := 0;
    }

    /** `str(uuid.uuid4())`: the next identifier; no random draw is consumed. */
    method NextUuid() returns (u: string)
      modifies this
      ensures u == uuids(old(issued)) && issued == old(issued) + 1 && pos == old(pos)
    {
      u := uuids(issued);
      issued := issued + 1;
    }

    /** Records that the draws up to `next` have been consumed. */
    method Advance(next: nat)
      modifies this
      ensures pos == next && issued == old(issued)
    {
      pos := next;
    }
  }
}
