/** Sequence operations shared by the components: JavaScript's
    `Array.prototype.filter` and `slice(0, n)`, the `arrayMove` helper the
    board uses, and the "toggle a value in a list" idiom of the filter menus
    and the sidebar. */
module Seqs {

  /** `a` can be obtained from `b` by deleting elements (order is kept). */
  predicate Subseq<T(==,!new)>(a: seq<T>, b: seq<T>)
    decreases |b|
  {
    a == [] || (b != [] && ((a[0] == b[0] && Subseq(a[1..], b[1..])) || Subseq(a, b[1..])))
  }

  lemma {:induction false} SubseqTransitive<T(!new)>(a: seq<T>, b: seq<T>, c: seq<T>)
    requires Subseq(a, b) && Subseq(b, c)
    ensures Subseq(a, c)
    decreases |c|
  {
    if a != [] {
      if Subseq(b, c[1..]) {
        SubseqTransitive(a, b, c[1..]);
      } else if a[0] == b[0] && Subseq(a[1..], b[1..]) {
        SubseqTransitive(a[1..], b[1..], c[1..]);
      } else {
        SubseqTransitive(a, b[1..], c[1..]);
      }
    }
  }

  /** `xs.filter(p)`. */
  function Filter<T(==,!new)>(xs: seq<T>, p: T -> bool): (r: seq<T>)
    ensures |r| <= |xs|
    ensures forall x :: x in r <==> x in xs && p(x)
  {
    if xs == [] then []
    else if p(xs[0]) then [xs[0]] + Filter(xs[1..], p)
    else Filter(xs[1..], p)
  }

  /** Filtering a list with a first element handles that element first. */
  lemma FilterCons<T(!new)>(x: T, xs: seq<T>, p: T -> bool)
    ensures Filter([x] + xs, p) == (if p(x) then [x] else []) + Filter(xs, p)
  {
    assert ([x] + xs)[0] == x && ([x] + xs)[1..] == xs;
  }

  /** The count of kept elements from index `i` on, one element at a time. */
  lemma FilterLengthFrom<T(!new)>(xs: seq<T>, i: nat, p: T -> bool)
    requires i < |xs|
    ensures |Filter(xs[i..], p)| == (if p(xs[i]) then 1 else 0) + |Filter(xs[i + 1..], p)|
  {
    assert xs[i..][0] == xs[i] && xs[i..][1..] == xs[i + 1..];
  }

  /** The count of kept elements of a five-element list, element by element. */
  lemma FilterLengthFive<T(!new)>(xs: seq<T>, p: T -> bool)
    requires |xs| == 5
    ensures |Filter(xs, p)|
         == (if p(xs[0]) then 1 else 0) + (if p(xs[1]) then 1 else 0) + (if p(xs[2]) then 1 else 0)
          + (if p(xs[3]) then 1 else 0) + (if p(xs[4]) then 1 else 0)
  {
    FilterLengthFrom(xs, 4, p);
    assert xs[5..] == [];
    FilterLengthFrom(xs, 3, p);
    FilterLengthFrom(xs, 2, p);
    FilterLengthFrom(xs, 1, p);
    FilterLengthFrom(xs, 0, p);
    assert xs[0..] == xs;
  }

  lemma {:induction false} FilterIsSubseq<T(!new)>(xs: seq<T>, p: T -> bool)
    ensures Subseq(Filter(xs, p), xs)
  {
    if xs != [] {
      FilterIsSubseq(xs[1..], p);
      var r := Filter(xs, p);
      if p(xs[0]) {
        assert r[0] == xs[0] && r[1..] == Filter(xs[1..], p);
      } else {
        assert r == Filter(xs[1..], p);
      }
    }
  }

  /** Each value occurs in the filtered list exactly as often as in the input
      when it passes, and not at all otherwise. */
  lemma {:induction false} FilterCount<T(!new)>(xs: seq<T>, p: T -> bool, x: T)
    ensures multiset(Filter(xs, p))[x] == if p(x) then multiset(xs)[x] else 0
  {
    if xs != [] {
      FilterCount(xs[1..], p, x);
      assert xs == [xs[0]] + xs[1..];
      assert multiset(xs) == multiset([xs[0]]) + multiset(xs[1..]);
      if p(xs[0]) {
        assert multiset(Filter(xs, p)) == multiset([xs[0]]) + multiset(Filter(xs[1..], p));
      }
    }
  }

  lemma {:induction false} FilterKeepsAll<T(!new)>(xs: seq<T>, p: T -> bool)
    requires forall x :: x in xs ==> p(x)
    ensures Filter(xs, p) == xs
  {
    if xs != [] {
      assert forall x :: x in xs[1..] ==> x in xs;
      FilterKeepsAll(xs[1..], p);
    }
  }

  /** Nothing is dropped exactly when every element passes. */
  lemma {:induction false} FilterLengthAll<T(!new)>(xs: seq<T>, p: T -> bool)
    ensures |Filter(xs, p)| == |xs| <==> forall x :: x in xs ==> p(x)
  {
    if xs != [] {
      FilterLengthAll(xs[1..], p);
      assert forall x :: x in xs <==> x == xs[0] || x in xs[1..];
    }
  }

  /** Filtering is idempotent. */
  lemma FilterIdempotent<T(!new)>(xs: seq<T>, p: T -> bool)
    ensures Filter(Filter(xs, p), p) == Filter(xs, p)
  {
    FilterKeepsAll(Filter(xs, p), p);
  }

  lemma {:induction false} FilterConcat<T(!new)>(a: seq<T>, b: seq<T>, p: T -> bool)
    ensures Filter(a + b, p) == Filter(a, p) + Filter(b, p)
  {
    if a != [] {
      assert (a + b)[0] == a[0];
      assert (a + b)[1..] == a[1..] + b;
      FilterConcat(a[1..], b, p);
    } else {
      assert a + b == b;
    }
  }

  /** Two successive filters are one filter by the conjunction. */
  lemma {:induction false} FilterFilter<T(!new)>(xs: seq<T>, p: T -> bool, q: T -> bool, pq: T -> bool)
    requires forall x :: pq(x) == (p(x) && q(x))
    ensures Filter(Filter(xs, p), q) == Filter(xs, pq)
  {
    if xs != [] {
      FilterFilter(xs[1..], p, q, pq);
      if p(xs[0]) {
        var f := Filter(xs, p);
        assert f == [xs[0]] + Filter(xs[1..], p);
        assert f[0] == xs[0] && f[1..] == Filter(xs[1..], p);
      }
    }
  }

  /** Filtering by two predicates that agree everywhere gives the same list. */
  lemma {:induction false} FilterExt<T(!new)>(xs: seq<T>, p: T -> bool, q: T -> bool)
    requires forall x :: p(x) == q(x)
    ensures Filter(xs, p) == Filter(xs, q)
  {
    if xs != [] {
      FilterExt(xs[1..], p, q);
    }
  }

  /** `xs.slice(0, n)`. */
  function Prefix<T>(xs: seq<T>, n: nat): (r: seq<T>)
    ensures |r| == if n < |xs| then n else |xs|
    ensures r <= xs
  {
    if n < |xs| then xs[..n] else xs
  }

  /** `xs.map(f)`. */
  function Map<T, U>(xs: seq<T>, f: T -> U): (r: seq<U>)
    ensures |r| == |xs|
    ensures forall i :: 0 <= i < |xs| ==> r[i] == f(xs[i])
  {
    seq(|xs|, i requires 0 <= i < |xs| => f(xs[i]))
  }

  /** `xs.indexOf(v)` (equivalently `findIndex` on a key): the first index
      holding `v`, or -1. */
  function IndexOf<T(==)>(xs: seq<T>, v: T): (i: int)
    ensures -1 <= i < |xs|
    ensures i >= 0 ==> xs[i] == v && v !in xs[..i]
    ensures i < 0 <==> v !in xs
  {
    if xs == [] then -1
    else if xs[0] == v then 0
    else
      var j := IndexOf(xs[1..], v);
      if j < 0 then -1
      else
        assert xs[..j + 1] == [xs[0]] + xs[1..][..j];
        j + 1
  }

  lemma {:induction false} PrefixIsSubseq<T(!new)>(xs: seq<T>, n: nat)
    ensures Subseq(Prefix(xs, n), xs)
  {
    if n < |xs| {
      TakeIsSubseq(xs, n);
    } else {
      SubseqRefl(xs);
    }
  }

  lemma {:induction false} TakeIsSubseq<T(!new)>(xs: seq<T>, n: nat)
    requires n <= |xs|
    ensures Subseq(xs[..n], xs)
    decreases |xs|
  {
    if n > 0 {
      TakeIsSubseq(xs[1..], n - 1);
      assert xs[..n][1..] == xs[1..][..n - 1];
    }
  }

  lemma {:induction false} SubseqRefl<T(!new)>(xs: seq<T>)
    ensures Subseq(xs, xs)
  {
    if xs != [] {
      SubseqRefl(xs[1..]);
    }
  }

  // ---------------------------------------------------------------------
  // arrayMove

  /** `arrayMove(xs, from, to)`: remove the element at `from` and insert it
      at `to` of the remaining list. */
  function ArrayMove<T>(xs: seq<T>, from: nat, to: nat): (r: seq<T>)
    requires from < |xs| && to < |xs|
    ensures |r| == |xs|
    ensures multiset(r) == multiset(xs)
  {
    var rest := xs[..from] + xs[from + 1..];
    assert xs == xs[..from] + [xs[from]] + xs[from + 1..];
    assert multiset(xs) == multiset(rest) + multiset{xs[from]};
    assert rest == rest[..to] + rest[to..];
    assert multiset(rest[..to] + [xs[from]] + rest[to..])
        == multiset(rest[..to]) + multiset{xs[from]} + multiset(rest[to..]);
    rest[..to] + [xs[from]] + rest[to..]
  }

  /** Where each element of `xs` ends up: the moved one at `to`, the ones
      between `from` and `to` shifted by one towards `from`, the rest in place. */
  lemma ArrayMoveAt<T>(xs: seq<T>, from: nat, to: nat, i: nat)
    requires from < |xs| && to < |xs| && i < |xs|
    ensures ArrayMove(xs, from, to)[i] ==
      if i == to then xs[from]
      else if (i < from && i < to) || (i > from && i > to) then xs[i]
      else if from <= i < to then xs[i + 1]
      else xs[i - 1]
  {
    var rest := xs[..from] + xs[from + 1..];
    assert |rest| == |xs| - 1;
    assert forall j :: 0 <= j < from ==> rest[j] == xs[j];
    assert forall j :: from <= j < |rest| ==> rest[j] == xs[j + 1];
    var r := rest[..to] + [xs[from]] + rest[to..];
    assert forall j :: 0 <= j < to ==> r[j] == rest[j];
    assert forall j :: to < j < |xs| ==> r[j] == rest[j - 1];
  }

  lemma ArrayMoveShape<T>(xs: seq<T>, from: nat, to: nat)
    requires from < |xs| && to < |xs|
    ensures ArrayMove(xs, from, to)[to] == xs[from]
    ensures forall i :: 0 <= i < |xs| && i < from && i < to ==> ArrayMove(xs, from, to)[i] == xs[i]
    ensures forall i :: 0 <= i < |xs| && i > from && i > to ==> ArrayMove(xs, from, to)[i] == xs[i]
    ensures forall i :: from <= i < to ==> ArrayMove(xs, from, to)[i] == xs[i + 1]
    ensures forall i :: to < i <= from ==> ArrayMove(xs, from, to)[i] == xs[i - 1]
  {
    forall i | 0 <= i < |xs| {
      ArrayMoveAt(xs, from, to, i);
    }
  }

  /** Moving an element back to where it came from restores the list. */
  lemma ArrayMoveRoundTrip<T>(xs: seq<T>, from: nat, to: nat)
    requires from < |xs| && to < |xs|
    ensures ArrayMove(ArrayMove(xs, from, to), to, from) == xs
  {
    var r := ArrayMove(xs, from, to);
    var back := ArrayMove(r, to, from);
    forall i | 0 <= i < |xs| ensures back[i] == xs[i] {
      ArrayMoveAt(r, to, from, i);
      if i == from {
        ArrayMoveAt(xs, from, to, to);
      } else if from < i <= to {
        ArrayMoveAt(xs, from, to, i - 1);
      } else if to <= i < from {
        ArrayMoveAt(xs, from, to, i + 1);
      } else {
        ArrayMoveAt(xs, from, to, i);
      }
    }
  }

  /** Mapping commutes with moving an element. */
  lemma MapArrayMove<T, U>(xs: seq<T>, f: T -> U, from: nat, to: nat)
    requires from < |xs| && to < |xs|
    ensures Map(ArrayMove(xs, from, to), f) == ArrayMove(Map(xs, f), from, to)
  {
    forall i | 0 <= i < |xs| ensures Map(ArrayMove(xs, from, to), f)[i] == ArrayMove(Map(xs, f), from, to)[i] {
      ArrayMoveAt(xs, from, to, i);
      ArrayMoveAt(Map(xs, f), from, to, i);
    }
  }

  /** Dropping an element the filter rejects does not change the filtered list. */
  lemma FilterSkip<T(!new)>(a: seq<T>, x: T, b: seq<T>, p: T -> bool)
    requires !p(x)
    ensures Filter(a + [x] + b, p) == Filter(a + b, p)
  {
    FilterConcat(a + [x], b, p);
    FilterConcat(a, [x], p);
    FilterConcat(a, b, p);
  }

  /** Moving an element that the filter drops does not change the filtered list. */
  lemma FilterArrayMove<T(!new)>(xs: seq<T>, from: nat, to: nat, p: T -> bool)
    requires from < |xs| && to < |xs|
    requires !p(xs[from])
    ensures Filter(ArrayMove(xs, from, to), p) == Filter(xs, p)
  {
    var rest := xs[..from] + xs[from + 1..];
    ArrayMoveParts(xs, from, to);
    FilterInsertAt(rest, to, xs[from], p);
    FilterRemoveAt(xs, from, p);
  }

  lemma ArrayMoveParts<T>(xs: seq<T>, from: nat, to: nat)
    requires from < |xs| && to < |xs|
    ensures var rest := xs[..from] + xs[from + 1..];
      ArrayMove(xs, from, to) == rest[..to] + [xs[from]] + rest[to..]
  {
  }

  /** Inserting an element the filter drops does not change the filtered list. */
  lemma FilterInsertAt<T(!new)>(xs: seq<T>, i: nat, x: T, p: T -> bool)
    requires i <= |xs| && !p(x)
    ensures Filter(xs[..i] + [x] + xs[i..], p) == Filter(xs, p)
  {
    var a, b := xs[..i], xs[i..];
    assert a + b == xs;
    FilterSkip(a, x, b, p);
  }

  lemma FilterRemoveAt<T(!new)>(xs: seq<T>, i: nat, p: T -> bool)
    requires i < |xs|
    requires !p(xs[i])
    ensures Filter(xs, p) == Filter(xs[..i] + xs[i + 1..], p)
  {
    assert xs[..i] + [xs[i]] + xs[i + 1..] == xs;
    FilterSkip(xs[..i], xs[i], xs[i + 1..], p);
  }

  // ---------------------------------------------------------------------
  // Toggling a value in a list

  function NotEq<T(==,!new)>(v: T): T -> bool {
    x => x != v
  }

  /** `xs.filter(x => x !== v)`. */
  function Remove<T(==,!new)>(xs: seq<T>, v: T): (r: seq<T>)
    ensures v !in r
  {
    Filter(xs, NotEq(v))
  }

  /** The `includes ? filter-out : append` idiom. */
  function Toggle<T(==,!new)>(xs: seq<T>, v: T): seq<T> {
    if v in xs then Remove(xs, v) else xs + [v]
  }

  /** What a toggle promises: an absent value is appended; a present value
      loses every occurrence while every other value keeps its count and the
      list keeps its order. */
  ghost predicate IsToggle<T(!new)>(xs: seq<T>, v: T, r: seq<T>) {
    && (v !in xs ==> r == xs + [v])
    && (v in xs ==>
          v !in r && Subseq(r, xs)
          && forall x :: x != v ==> multiset(r)[x] == multiset(xs)[x])
  }

  /** What `Remove` promises: no occurrence of `v`, order kept, every other
      value keeps its count. */
  ghost predicate IsRemoval<T(!new)>(xs: seq<T>, v: T, r: seq<T>) {
    v !in r && Subseq(r, xs) && forall x :: x != v ==> multiset(r)[x] == multiset(xs)[x]
  }

  lemma RemoveSpec<T(!new)>(xs: seq<T>, v: T)
    ensures IsRemoval(xs, v, Remove(xs, v))
  {
    FilterIsSubseq(xs, NotEq(v));
    forall x | x != v ensures multiset(Remove(xs, v))[x] == multiset(xs)[x] {
      FilterCount(xs, NotEq(v), x);
    }
  }

  lemma ToggleSpec<T(!new)>(xs: seq<T>, v: T)
    ensures IsToggle(xs, v, Toggle(xs, v))
  {
    if v in xs {
      RemoveSpec(xs, v);
    }
  }

  /** Toggling an absent value twice gives back the original list. */
  lemma ToggleTwice<T(!new)>(xs: seq<T>, v: T)
    requires v !in xs
    ensures Toggle(Toggle(xs, v), v) == xs
  {
    assert v in xs + [v];
    FilterConcat(xs, [v], NotEq(v));
    FilterKeepsAll(xs, NotEq(v));
    assert Filter([v], NotEq(v)) == [];
  }
}
