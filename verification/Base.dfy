/** Small generic helpers: optional values and counting the elements of a sequence. */
module Base {

  datatype Option<+T> = None | Some(value: T)

  function Bit(b: bool): (n: nat)
  {
    if b then 1 else 0
  }

  /** How many elements of `xs` satisfy `f`. */
  function Count<T>(xs: seq<T>, f: T -> bool): (n: nat)
    ensures n <= |xs|
  {
    if xs == [] then 0 else Count(xs[..|xs| - 1], f) + Bit(f(xs[|xs| - 1]))
  }

  lemma CountAppend<T>(xs: seq<T>, x: T, f: T -> bool)
    ensures Count(xs + [x], f) == Count(xs, f) + Bit(f(x))
  {
    assert (xs + [x])[..|xs|] == xs;
  }

  lemma {:induction false} CountUpdate<T>(xs: seq<T>, i: nat, x: T, f: T -> bool)
    requires i < |xs|
    ensures Count(xs[i := x], f) + Bit(f(xs[i])) == Count(xs, f) + Bit(f(x))
  {
    var last := |xs| - 1;
    if i < last {
      CountUpdate(xs[..last], i, x, f);
      assert xs[i := x][..last] == xs[..last][i := x];
    } else {
      assert xs[i := x][..last] == xs[..last];
    }
  }

  lemma {:induction false} CountNone<T>(xs: seq<T>, f: T -> bool)
    ensures Count(xs, f) == 0 <==> forall i :: 0 <= i < |xs| ==> !f(xs[i])
  {
    if xs == [] {
    } else {
      CountNone(xs[..|xs| - 1], f);
      assert forall i :: 0 <= i < |xs| - 1 ==> xs[..|xs| - 1][i] == xs[i];
    }
  }

  /** Two different positions that satisfy `f` make the count at least two. */
  lemma CountTwo<T>(xs: seq<T>, i: nat, j: nat, f: T -> bool, out: T)
    requires i < |xs| && j < |xs| && i != j && f(xs[i]) && f(xs[j]) && !f(out)
    ensures Count(xs, f) >= 2
  {
    CountUpdate(xs, i, out, f);
    CountUpdate(xs[i := out], j, out, f);
  }

  lemma {:induction false} CountSplit<T>(xs: seq<T>, ys: seq<T>, f: T -> bool)
    ensures Count(xs + ys, f) == Count(xs, f) + Count(ys, f)
  {
    if ys == [] {
      assert xs + ys == xs;
    } else {
      var k := |ys| - 1;
      assert (xs + ys)[..|xs + ys| - 1] == xs + ys[..k];
      CountSplit(xs, ys[..k], f);
    }
  }

  ghost predicate Distinct<T(!new)>(xs: seq<T>)
  {
    forall i, j :: 0 <= i < j < |xs| ==> xs[i] != xs[j]
  }

  /** A sequence without repetitions, drawn from a finite set, is no longer than the set. */
  lemma {:induction false} DistinctFits<T(!new)>(xs: seq<T>, s: set<T>)
    requires Distinct(xs) && forall x :: x in xs ==> x in s
    ensures |xs| <= |s|
  {
    if xs == [] {
    } else {
      var k := |xs| - 1;
      DistinctFits(xs[..k], s - {xs[k]});
    }
  }

  /** A finite set drawn from a sequence is no larger than the sequence. */
  lemma {:induction false} SetFits<T(!new)>(s: set<T>, xs: seq<T>)
    requires forall x :: x in s ==> x in xs
    ensures |s| <= |xs|
  {
    if xs == [] {
      assert s == {};
    } else {
      var k := |xs| - 1;
      SetFits(s - {xs[k]}, xs[..k]);
      assert s <= (s - {xs[k]}) + {xs[k]};
    }
  }
}
