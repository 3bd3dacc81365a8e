/** The two JavaScript array operations the pages aggregate with:
    `Array.prototype.filter` and `Array.prototype.reduce` (as a left fold
    over integers), together with the facts about them the statistics need. */
module ArrayOps {

  /** Array filtering: the elements of `xs` that satisfy `keep`, in order. */
  function Filter<T(!new)>(xs: seq<T>, keep: T -> bool): (r: seq<T>)
    ensures |r| <= |xs|
    ensures forall i :: 0 <= i < |r| ==> keep(r[i])
  {
    if xs == [] then []
    else (if keep(xs[0]) then [xs[0]] else []) + Filter(xs[1..], keep)
  }

  /** Array reduction with addition: adds `f` of each element to the
      accumulator, from the first element to the last. */
  function FoldLeft<T(!new)>(f: T -> int, acc: int, xs: seq<T>): (total: int)
    decreases xs
  {
    if xs == [] then acc else FoldLeft(f, acc + f(xs[0]), xs[1..])
  }

  /** The positions of `xs` whose element satisfies `keep`. */
  ghost function Positions<T(!new)>(xs: seq<T>, keep: T -> bool): set<nat>
  {
    set i: nat | i < |xs| && keep(xs[i])
  }

  /** Filtering keeps every occurrence of each element that satisfies
      `keep` and none of any other element. */
  lemma {:induction false} FilterMultiset<T(!new)>(xs: seq<T>, keep: T -> bool)
    ensures forall x :: multiset(Filter(xs, keep))[x] == if keep(x) then multiset(xs)[x] else 0
  {
    if xs != [] {
      assert xs == [xs[0]] + xs[1..];
      FilterMultiset(xs[1..], keep);
    }
  }

  /** The fold's result is its start value plus the fold from zero: the
      accumulator only offsets the total. */
  lemma {:induction false} FoldLeftOffset<T(!new)>(f: T -> int, acc: int, xs: seq<T>)
    ensures FoldLeft(f, acc, xs) == acc + FoldLeft(f, 0, xs)
    decreases xs
  {
    if xs != [] {
      FoldLeftOffset(f, acc + f(xs[0]), xs[1..]);
      FoldLeftOffset(f, f(xs[0]), xs[1..]);
    }
  }

  /** Appending one element to the sequence adds that element's `f` to the
      fold's result. */
  lemma {:induction false} FoldLeftAppendOne<T(!new)>(f: T -> int, acc: int, xs: seq<T>, x: T)
    ensures FoldLeft(f, acc, xs + [x]) == FoldLeft(f, acc, xs) + f(x)
    decreases xs
  {
    if xs == [] {
      assert xs + [x] == [x];
      assert [x][1..] == [];
    } else {
      assert (xs + [x])[0] == xs[0];
      assert (xs + [x])[1..] == xs[1..] + [x];
      FoldLeftAppendOne(f, acc + f(xs[0]), xs[1..], x);
    }
  }

  /** Filtering a concatenation filters each part. */
  lemma {:induction false} FilterAppend<T(!new)>(a: seq<T>, b: seq<T>, keep: T -> bool)
    ensures Filter(a + b, keep) == Filter(a, keep) + Filter(b, keep)
  {
    if a == [] {
      assert a + b == b;
    } else {
      assert (a + b)[0] == a[0];
      assert (a + b)[1..] == a[1..] + b;
      FilterAppend(a[1..], b, keep);
    }
  }

  /** The length of the filtered sequence is the number of positions of `xs`
      whose element satisfies `keep`. */
  lemma {:induction false} FilterLengthIsCount<T(!new)>(xs: seq<T>, keep: T -> bool)
    ensures |Filter(xs, keep)| == |Positions(xs, keep)|
  {
    if xs != [] {
      var n := |xs| - 1;
      var front := xs[..n];
      assert xs == front + [xs[n]];
      FilterAppend(front, [xs[n]], keep);
      FilterLengthIsCount(front, keep);
      assert [xs[n]][1..] == [];
      var last: set<nat> := if keep(xs[n]) then {n} else {};
      assert Positions(xs, keep) == Positions(front, keep) + last;
      assert n !in Positions(front, keep);
    }
  }

  /** Two filters that no element passes together select at most every element
      once; they select every element exactly once if and only if each element
      passes one of them. */
  lemma {:induction false} DisjointFilterCounts<T(!new)>(xs: seq<T>, p: T -> bool, q: T -> bool)
    requires forall i :: 0 <= i < |xs| ==> !(p(xs[i]) && q(xs[i]))
    ensures |Filter(xs, p)| + |Filter(xs, q)| <= |xs|
    ensures |Filter(xs, p)| + |Filter(xs, q)| == |xs| <==> forall i :: 0 <= i < |xs| ==> p(xs[i]) || q(xs[i])
  {
    if xs != [] {
      var rest := xs[1..];
      assert forall i :: 0 <= i < |rest| ==> rest[i] == xs[i + 1];
      DisjointFilterCounts(rest, p, q);
      if p(xs[0]) || q(xs[0]) {
        if forall i :: 0 <= i < |rest| ==> p(rest[i]) || q(rest[i]) {
          forall i | 0 <= i < |xs| ensures p(xs[i]) || q(xs[i]) {
            if i > 0 { assert xs[i] == rest[i - 1]; }
          }
        }
      }
    }
  }
}
