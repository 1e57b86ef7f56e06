/** Generic sequence helpers shared by the catalog model: the `Option` type that
    stands for JavaScript's `undefined`/`null`, and the array operations the
    handlers and pages use (`filter`, `splice(i, 1)`, swapping two slots,
    `slice(0, n)`, `new Set(...)`). */
module Common {

  datatype Option<+T> = None | Some(value: T)

  /** `xs.filter(f)`. */
  function Filter<T>(f: T -> bool, xs: seq<T>): (r: seq<T>)
    ensures |r| <= |xs|
    ensures forall x :: x in r ==> f(x) && x in xs
  {
    if xs == [] then [] else (if f(xs[0]) then [xs[0]] else []) + Filter(f, xs[1..])
  }

  /** `xs.map(f)`. */
  function Map<T, U>(f: T -> U, xs: seq<T>): (r: seq<U>)
    ensures |r| == |xs|
    ensures forall i :: 0 <= i < |xs| ==> r[i] == f(xs[i])
  {
    seq(|xs|, i requires 0 <= i < |xs| => f(xs[i]))
  }

  /** An element is kept by `Filter` exactly when it is in the input and passes. */
  lemma {:induction false} FilterMembership<T>(f: T -> bool, xs: seq<T>, x: T)
    ensures x in Filter(f, xs) <==> x in xs && f(x)
  {
    if xs != [] {
      FilterMembership(f, xs[1..], x);
      assert xs == [xs[0]] + xs[1..];
    }
  }

  lemma {:induction false} FilterAppend<T>(f: T -> bool, xs: seq<T>, ys: seq<T>)
    ensures Filter(f, xs + ys) == Filter(f, xs) + Filter(f, ys)
  {
    if xs == [] {
      assert xs + ys == ys;
    } else {
      var zs := xs + ys;
      assert zs[0] == xs[0];
      assert zs[1..] == xs[1..] + ys;
      calc {
        Filter(f, zs);
        (if f(xs[0]) then [xs[0]] else []) + Filter(f, xs[1..] + ys);
        { FilterAppend(f, xs[1..], ys); }
        (if f(xs[0]) then [xs[0]] else []) + (Filter(f, xs[1..]) + Filter(f, ys));
        Filter(f, xs) + Filter(f, ys);
      }
    }
  }

  /** Extending the input by one element extends the filtered output by at most that element. */
  lemma FilterSnoc<T>(f: T -> bool, xs: seq<T>, x: T)
    ensures Filter(f, xs + [x]) == Filter(f, xs) + (if f(x) then [x] else [])
  {
    FilterAppend(f, xs, [x]);
    assert Filter(f, [x]) == (if f(x) then [x] else []) + Filter(f, []);
  }

  /** A filter every element passes keeps the whole sequence. */
  lemma {:induction false} FilterKeepsAll<T>(f: T -> bool, xs: seq<T>)
    requires forall x :: x in xs ==> f(x)
    ensures Filter(f, xs) == xs
  {
    if xs != [] {
      FilterKeepsAll(f, xs[1..]);
      assert xs == [xs[0]] + xs[1..];
    }
  }

  /** `a` is `b` with some elements dropped, the rest kept in order. */
  ghost predicate IsSubsequence<T>(a: seq<T>, b: seq<T>)
    decreases |b|
  {
    a == [] || (b != [] && ((a[0] == b[0] && IsSubsequence(a[1..], b[1..])) || IsSubsequence(a, b[1..])))
  }

  /** Filtering keeps the order of what it keeps. */
  lemma {:induction false} FilterIsSubsequence<T>(f: T -> bool, xs: seq<T>)
    ensures IsSubsequence(Filter(f, xs), xs)
  {
    if xs != [] {
      FilterIsSubsequence(f, xs[1..]);
      if f(xs[0]) {
        assert Filter(f, xs) == [xs[0]] + Filter(f, xs[1..]);
        assert Filter(f, xs)[1..] == Filter(f, xs[1..]);
      } else {
        assert Filter(f, xs) == Filter(f, xs[1..]);
      }
    }
  }

  /** `xs.splice(i, 1)` on a copy: the element at `i` removed. */
  function RemoveAt<T>(xs: seq<T>, i: nat): (r: seq<T>)
    requires i < |xs|
    ensures |r| == |xs| - 1
    ensures forall j :: 0 <= j < i ==> r[j] == xs[j]
    ensures forall j :: i <= j < |r| ==> r[j] == xs[j + 1]
  {
    xs[..i] + xs[i + 1..]
  }

  /** Removing one element takes exactly one occurrence of it out of the multiset. */
  lemma RemoveAtMultiset<T>(xs: seq<T>, i: nat)
    requires i < |xs|
    ensures multiset(RemoveAt(xs, i)) == multiset(xs) - multiset{xs[i]}
  {
    assert xs == xs[..i] + [xs[i]] + xs[i + 1..];
  }

  /** `xs.filter((_, k) => k !== i)`: every element whose position is not `i`. */
  function ExceptIndex<T>(xs: seq<T>, i: int): (r: seq<T>)
    decreases |xs|
  {
    if xs == [] then []
    else (if i == 0 then [] else [xs[0]]) + ExceptIndex(xs[1..], i - 1)
  }

  /** The index filter is `splice(i, 1)` when `i` is a position, and a plain copy otherwise. */
  lemma {:induction false} ExceptIndexIsRemoveAt<T>(xs: seq<T>, i: int)
    ensures 0 <= i < |xs| ==> ExceptIndex(xs, i) == RemoveAt(xs, i)
    ensures !(0 <= i < |xs|) ==> ExceptIndex(xs, i) == xs
    decreases |xs|
  {
    if xs != [] {
      ExceptIndexIsRemoveAt(xs[1..], i - 1);
      if i == 0 {
        assert RemoveAt(xs, 0) == xs[1..];
      } else if 0 < i < |xs| {
        assert RemoveAt(xs, i) == [xs[0]] + RemoveAt(xs[1..], i - 1);
      } else {
        assert xs == [xs[0]] + xs[1..];
      }
    }
  }

  /** `[xs[i], xs[j]] = [xs[j], xs[i]]` on a copy. */
  function Swap<T>(xs: seq<T>, i: nat, j: nat): (r: seq<T>)
    requires i < |xs| && j < |xs|
    ensures |r| == |xs| && r[i] == xs[j] && r[j] == xs[i]
    ensures forall k :: 0 <= k < |xs| && k != i && k != j ==> r[k] == xs[k]
  {
    xs[i := xs[j]][j := xs[i]]
  }

  /** A swap only rearranges: same elements with the same multiplicities. */
  lemma SwapMultiset<T>(xs: seq<T>, i: nat, j: nat)
    requires i < |xs| && j < |xs|
    ensures multiset(Swap(xs, i, j)) == multiset(xs)
  {
    var t := xs[i := xs[j]];
    assert multiset(t) == multiset(xs) - multiset{xs[i]} + multiset{xs[j]};
    assert multiset(t[j := xs[i]]) == multiset(t) - multiset{t[j]} + multiset{xs[i]};
  }

  /** Swapping twice restores the original. */
  lemma SwapInvolution<T>(xs: seq<T>, i: nat, j: nat)
    requires i < |xs| && j < |xs|
    ensures Swap(Swap(xs, i, j), i, j) == xs
  {
  }

  /** `xs.slice(0, n)`. */
  function Take<T>(xs: seq<T>, n: nat): (r: seq<T>)
    ensures |r| == if n < |xs| then n else |xs|
    ensures forall k :: 0 <= k < |r| ==> r[k] == xs[k]
  {
    if n < |xs| then xs[..n] else xs
  }

  /** `xs.slice(start, end)` for non-negative bounds, clamped like JavaScript's. */
  function Slice<T>(xs: seq<T>, start: nat, end: nat): (r: seq<T>)
    ensures |r| <= |xs|
    ensures start <= end ==> |r| <= end - start
    ensures forall k :: 0 <= k < |r| ==> start + k < |xs| && r[k] == xs[start + k]
  {
    var e := if end < |xs| then end else |xs|;
    if start < e then xs[start..e] else []
  }

  /** `Array.from(new Set(xs))`: each value once, keeping the order of `xs`. */
  function Dedup<T(==)>(xs: seq<T>): (r: seq<T>)
  {
    DedupAfter(xs, [])
  }

  /** Helper for Dedup: `seen` holds the values already emitted. */
  function DedupAfter<T(==)>(xs: seq<T>, seen: seq<T>): (r: seq<T>)
    ensures forall x :: x in r ==> x in xs && x !in seen
    ensures forall x :: x in xs && x !in seen ==> x in r
    ensures forall i, j :: 0 <= i < j < |r| ==> r[i] != r[j]
  {
    if xs == [] then []
    else if xs[0] in seen then DedupAfter(xs[1..], seen)
    else
      var rest := DedupAfter(xs[1..], seen + [xs[0]]);
      assert xs[0] !in rest;
      [xs[0]] + rest
  }

  /** The values of `Dedup(xs)` are those of `xs`, each exactly once, in the order of `xs`. */
  lemma DedupSpec<T>(xs: seq<T>)
    ensures forall x :: x in Dedup(xs) <==> x in xs
    ensures forall i, j :: 0 <= i < j < |Dedup(xs)| ==> Dedup(xs)[i] != Dedup(xs)[j]
    ensures IsSubsequence(Dedup(xs), xs)
  {
    DedupAfterSubsequence(xs, []);
  }

  lemma {:induction false} DedupAfterSubsequence<T>(xs: seq<T>, seen: seq<T>)
    ensures IsSubsequence(DedupAfter(xs, seen), xs)
    decreases |xs|
  {
    if xs != [] {
      if xs[0] in seen {
        DedupAfterSubsequence(xs[1..], seen);
      } else {
        var rest := DedupAfter(xs[1..], seen + [xs[0]]);
        DedupAfterSubsequence(xs[1..], seen + [xs[0]]);
        assert ([xs[0]] + rest)[0] == xs[0] && ([xs[0]] + rest)[1..] == rest;
      }
    }
  }
}
