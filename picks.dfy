/**
 * Selection helpers shared by the two fingerprint testers: a choice that
 * favours values outside a list of common ones, and the loop that repeats a
 * draw and keeps each new combination once.
 */
module Picks {
  import opened Wrappers
  import opened Seqs
  import opened Rand

  /** `[x for x in xs if x not in common]`. */
  function Uncommon(xs: seq<string>, common: seq<string>): (r: seq<string>)
    ensures forall x :: x in r <==> x in xs && x !in common
  {
    FilterContents(xs, x => x !in common);
    Filter(xs, x => x !in common)
  }

  /** `[c for c in common if c in xs]`. */
  function CommonAmong(common: seq<string>, xs: seq<string>): (r: seq<string>)
    ensures forall c :: c in r <==> c in common && c in xs
  {
    FilterContents(common, c => c in xs);
    Filter(common, c => c in xs)
  }

  /**
   * The weighted selectors: with probability `percent`% (and a non-empty
   * common list) a choice among the common values that `xs` holds, which
   * raises when there is none; otherwise a choice among the values of `xs`
   * outside the common list, or among all of `xs` when every value is common.
   */
  function WeightedChoice(src: Source, pos: nat, xs: seq<string>, common: seq<string>, percent: nat)
    : (r: Result<Drawn<string>, RandError>)
    ensures r.Ok? ==> r.value.value in xs && r.value.next == pos + 2
    ensures Chance(src, pos, percent).value && common != [] ==>
      (r.Ok? <==> exists c :: c in common && c in xs) && (r.Ok? ==> r.value.value in common)
    ensures !(Chance(src, pos, percent).value && common != []) ==>
      (r.Ok? <==> xs != [])
      && (r.Ok? && (exists x :: x in xs && x !in common) ==> r.value.value !in common)
  {
    var coin := Chance(src, pos, percent);
    if coin.value && common != [] then Choice(src, coin.next, CommonAmong(common, xs))
    else Choice(src, coin.next, Fallback(xs, common))
  }

  /** The list the uncommon branch chooses from. */
  function Fallback(xs: seq<string>, common: seq<string>): (r: seq<string>)
    ensures forall x :: x in r ==> x in xs
    ensures (r != []) <==> (xs != [])
    ensures (exists x :: x in xs && x !in common) ==> forall x :: x in r ==> x !in common
    ensures Uncommon(xs, common) != [] ==> r == Uncommon(xs, common)
  {
    var uncommon := Uncommon(xs, common);
    if uncommon != [] then uncommon else xs
  }

  /** Below certainty, every value outside the common list can be the outcome. */
  lemma WeightedReachesUncommon(pos: nat, xs: seq<string>, common: seq<string>, percent: nat, x: string)
    requires percent < 100 && x in xs && x !in common
    ensures exists src: Source :: WeightedChoice(src, pos, xs, common, percent) == Ok(Drawn(x, pos + 2))
  {
    var uncommon := Fallback(xs, common);
    assert x in Uncommon(xs, common);
    var i :| 0 <= i < |uncommon| && uncommon[i] == x;
    var src: Source := (n: nat) => if n == pos then 99 else i;
    assert !Chance(src, pos, percent).value;
    assert src(pos + 1) % |uncommon| == i;
    assert Choice(src, pos + 1, uncommon) == Ok(Drawn(x, pos + 2));
    assert WeightedChoice(src, pos, xs, common, percent) == Choice(src, pos + 1, uncommon);
  }

  /** Above impossibility, every common value that `xs` holds can be the outcome. */
  lemma WeightedReachesCommon(pos: nat, xs: seq<string>, common: seq<string>, percent: nat, x: string)
    requires 0 < percent && x in xs && x in common
    ensures exists src: Source :: WeightedChoice(src, pos, xs, common, percent) == Ok(Drawn(x, pos + 2))
  {
    var among := CommonAmong(common, xs);
    var i :| 0 <= i < |among| && among[i] == x;
    var src: Source := (n: nat) => if n == pos then 0 else i;
    assert Chance(src, pos, percent).value;
    assert src(pos + 1) % |among| == i;
    assert Choice(src, pos + 1, among) == Ok(Drawn(x, pos + 2));
    assert WeightedChoice(src, pos, xs, common, percent) == Choice(src, pos + 1, among);
  }

  /**
   * `n` successive draws of `step`, each starting where the previous one
   * stopped; the first draw that raises ends the whole run with its error.
   */
  function Repeat<T>(step: nat -> Result<Drawn<T>, RandError>, pos: nat, n: nat): (r: Result<Drawn<seq<T>>, RandError>)
    ensures r.Ok? ==> |r.value.value| == n
    decreases n
  {
    if n == 0 then Ok(Drawn([], pos))
    else
      var prev :- Repeat(step, pos, n - 1);
      var x :- step(prev.next);
      Ok(Drawn(prev.value + [x.value], x.next))
  }

  /** Once a draw raises, every longer run raises with the same error. */
  lemma {:induction false} RepeatFailsFrom<T>(step: nat -> Result<Drawn<T>, RandError>, pos: nat, i: nat, n: nat)
    requires i < n && Repeat(step, pos, i).Ok? && step(Repeat(step, pos, i).value.next).Err?
    ensures Repeat(step, pos, n) == Err(step(Repeat(step, pos, i).value.next).error)
    decreases n
  {
    if n > i + 1 {
      RepeatFailsFrom(step, pos, i, n - 1);
    }
  }

  /** A property every successful draw has holds of every value of a successful run. */
  lemma {:induction false} RepeatAll<T>(step: nat -> Result<Drawn<T>, RandError>, pos: nat, n: nat, p: T -> bool)
    requires forall q :: step(q).Ok? ==> p(step(q).value.value)
    ensures Repeat(step, pos, n).Ok? ==> forall x :: x in Repeat(step, pos, n).value.value ==> p(x)
    decreases n
  {
    if n > 0 {
      RepeatAll(step, pos, n - 1, p);
    }
  }

  /**
   * The generator loop of both testers: `n` draws, each appended only when
   * it is not already in the list, so the result is the draws in order with
   * repeats dropped; a draw that raises ends the loop with its error.
   */
  method CollectDistinct<T(==,!new)>(step: nat -> Result<Drawn<T>, RandError>, pos: nat, n: nat)
    returns (r: Result<Drawn<seq<T>>, RandError>)
    ensures Repeat(step, pos, n).Err? ==> r == Err(Repeat(step, pos, n).error)
    ensures Repeat(step, pos, n).Ok? ==>
      r == Ok(Drawn(Dedup(Repeat(step, pos, n).value.value), Repeat(step, pos, n).value.next))
    ensures r.Ok? ==> |r.value.value| <= n && Distinct(r.value.value)
  {
    var combos: seq<T> := [];
    ghost var drawn: seq<T> := [];
    var at := pos;
    var i := 0;
    while i < n
      invariant 0 <= i <= n
      invariant Repeat(step, pos, i) == Ok(Drawn(drawn, at))
      invariant combos == Dedup(drawn)
    {
      var d := step(at);
      if d.Err? {
        RepeatFailsFrom(step, pos, i, n);
        return Err(d.error);
      }
      var combo := d.value.value;
      assert (drawn + [combo])[..|drawn|] == drawn;
      if combo !in combos {
        combos := combos + [combo];
      }
      drawn := drawn + [combo];
      at := d.value.next;
      i := i + 1;
    }
    return Ok(Drawn(combos, at));
  }
}
