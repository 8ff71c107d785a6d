/** The first element of a list that satisfies a test, as a Python `for ... break` loop finds it. */
module Scan {
  import opened Wrappers

  /** The index of the first element from `from` on that satisfies `p`. */
  function FirstFrom<T>(p: T -> bool, xs: seq<T>, from: nat): (r: Option<nat>)
    requires from <= |xs|
    ensures r.Some? ==> from <= r.value < |xs|
    decreases |xs| - from
  {
    if from == |xs| then None
    else if p(xs[from]) then Some(from)
    else FirstFrom(p, xs, from + 1)
  }

  function First<T>(p: T -> bool, xs: seq<T>): (r: Option<nat>)
    ensures r.Some? ==> r.value < |xs|
  {
    FirstFrom(p, xs, 0)
  }

  lemma {:induction false} FirstFromSpec<T>(p: T -> bool, xs: seq<T>, from: nat)
    requires from <= |xs|
    ensures var r := FirstFrom(p, xs, from);
      && (r.Some? ==> p(xs[r.value]))
      && (r.Some? ==> forall k :: from <= k < r.value ==> !p(xs[k]))
      && (r.None? <==> forall k :: from <= k < |xs| ==> !p(xs[k]))
    decreases |xs| - from
  {
    if from < |xs| && !p(xs[from]) {
      FirstFromSpec(p, xs, from + 1);
    }
  }

  /** The first hit satisfies the test and nothing before it does; there is none exactly when nothing does. */
  lemma FirstSpec<T>(p: T -> bool, xs: seq<T>)
    ensures var r := First(p, xs);
      && (r.Some? ==> p(xs[r.value]))
      && (r.Some? ==> forall k :: 0 <= k < r.value ==> !p(xs[k]))
      && (r.None? <==> forall k :: 0 <= k < |xs| ==> !p(xs[k]))
  {
    FirstFromSpec(p, xs, 0);
  }

  /** Any index that satisfies the test with nothing before it is the first hit. */
  lemma FirstIsUnique<T>(p: T -> bool, xs: seq<T>, i: nat)
    requires i < |xs| && p(xs[i])
    requires forall k :: 0 <= k < i ==> !p(xs[k])
    ensures First(p, xs) == Some(i)
  {
    FirstSpec(p, xs);
  }

  /** Appending an element keeps an earlier hit, and otherwise the new element is the hit if it satisfies the test. */
  lemma FirstSnoc<T>(p: T -> bool, xs: seq<T>, x: T)
    ensures First(p, xs + [x]) ==
      if First(p, xs).Some? then First(p, xs)
      else if p(x) then Some(|xs|)
      else None
  {
    var ys := xs + [x];
    FirstSpec(p, xs);
    FirstSpec(p, ys);
    assert forall k :: 0 <= k < |xs| ==> ys[k] == xs[k];
    if First(p, xs).Some? {
      FirstIsUnique(p, ys, First(p, xs).value);
    } else if p(x) {
      FirstIsUnique(p, ys, |xs|);
    }
  }

  /** The same, read from a non-empty list: its last element is the hit only if nothing before it is. */
  lemma FirstOfInit<T>(p: T -> bool, xs: seq<T>)
    requires xs != []
    ensures var init := xs[..|xs| - 1];
      First(p, xs) ==
        if First(p, init).Some? then First(p, init)
        else if p(xs[|xs| - 1]) then Some(|xs| - 1)
        else None
  {
    var init := xs[..|xs| - 1];
    assert init + [xs[|xs| - 1]] == xs;
    FirstSnoc(p, init, xs[|xs| - 1]);
  }
}
