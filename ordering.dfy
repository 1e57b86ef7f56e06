/** The orders the pages sort products by: name ascending (`localeCompare`), and
    creation time ascending or descending with a missing `createdAt` counted as
    the epoch. `Array.prototype.sort` is stable, and so is the insertion sort that
    stands for it here (`SortStable`). */
module Ordering {
  import opened Common
  import opened Text
  import opened Catalog

  datatype SortBy = DateDesc | DateAsc | NameAsc

  /** `new Date(p.createdAt || 0).getTime()`. */
  function DateKey(p: Product): int {
    if p.createdAt.Some? then p.createdAt.value else 0
  }

  /** The comparator of `mode` is `<= 0` for `(a, b)`: `a` may stay before `b`. */
  predicate Before(mode: SortBy, a: Product, b: Product) {
    match mode
    case NameAsc => LexLe(OrEmpty(a.name), OrEmpty(b.name))
    case DateAsc => DateKey(a) <= DateKey(b)
    case DateDesc => DateKey(b) <= DateKey(a)
  }

  /** Every mode compares any two products one way or the other. */
  lemma BeforeTotal(mode: SortBy, a: Product, b: Product)
    ensures Before(mode, a, b) || Before(mode, b, a)
  {
    if mode.NameAsc? {
      LexLeTotal(OrEmpty(a.name), OrEmpty(b.name));
    }
  }

  lemma BeforeTransitive(mode: SortBy, a: Product, b: Product, c: Product)
    requires Before(mode, a, b) && Before(mode, b, c)
    ensures Before(mode, a, c)
  {
    if mode.NameAsc? {
      LexLeTransitive(OrEmpty(a.name), OrEmpty(b.name), OrEmpty(c.name));
    }
  }

  /** Neighbours are in order. */
  ghost predicate Sorted(mode: SortBy, xs: seq<Product>) {
    forall i :: 0 < i < |xs| ==> Before(mode, xs[i - 1], xs[i])
  }

  /** Put `x` before the first element it may precede; ties keep `x` first. */
  function Insert(mode: SortBy, x: Product, ys: seq<Product>): (r: seq<Product>)
    ensures |r| == |ys| + 1
    ensures multiset(r) == multiset(ys) + multiset{x}
    ensures r[0] == x || (ys != [] && r[0] == ys[0])
  {
    if ys == [] || Before(mode, x, ys[0]) then [x] + ys
    else
      assert ys == [ys[0]] + ys[1..];
      [ys[0]] + Insert(mode, x, ys[1..])
  }

  /** The page's `list.slice().sort(...)`: a sorted copy. */
  function Sort(mode: SortBy, xs: seq<Product>): (r: seq<Product>)
    ensures |r| == |xs|
    ensures multiset(r) == multiset(xs)
  {
    if xs == [] then []
    else
      assert xs == [xs[0]] + xs[1..];
      Insert(mode, xs[0], Sort(mode, xs[1..]))
  }

  lemma {:induction false} InsertSorted(mode: SortBy, x: Product, ys: seq<Product>)
    requires Sorted(mode, ys)
    ensures Sorted(mode, Insert(mode, x, ys))
    decreases |ys|
  {
    if ys != [] && !Before(mode, x, ys[0]) {
      BeforeTotal(mode, x, ys[0]);
      var tail := ys[1..];
      assert Sorted(mode, tail) by {
        forall i | 0 < i < |tail| ensures Before(mode, tail[i - 1], tail[i]) {
          assert tail[i - 1] == ys[i] && tail[i] == ys[i + 1];
        }
      }
      InsertSorted(mode, x, tail);
      var r := Insert(mode, x, ys);
      var rest := Insert(mode, x, tail);
      assert r == [ys[0]] + rest;
      forall i | 0 < i < |r| ensures Before(mode, r[i - 1], r[i]) {
        if i == 1 {
          assert r[1] == rest[0];
          if rest[0] != x {
            assert rest[0] == tail[0] == ys[1];
          }
        } else {
          assert r[i - 1] == rest[i - 2] && r[i] == rest[i - 1];
        }
      }
    }
  }

  /** Every sorted copy is ordered neighbour by neighbour. */
  lemma {:induction false} SortSorted(mode: SortBy, xs: seq<Product>)
    ensures Sorted(mode, Sort(mode, xs))
  {
    if xs != [] {
      SortSorted(mode, xs[1..]);
      InsertSorted(mode, xs[0], Sort(mode, xs[1..]));
    }
  }

  /** Ordered neighbours make every earlier element precede every later one. */
  lemma {:induction false} SortedPairwise(mode: SortBy, xs: seq<Product>, i: nat, j: nat)
    requires Sorted(mode, xs) && i < j < |xs|
    ensures Before(mode, xs[i], xs[j])
    decreases j - i
  {
    if i + 1 < j {
      SortedPairwise(mode, xs, i + 1, j);
      BeforeTransitive(mode, xs[i], xs[i + 1], xs[j]);
    }
  }

  /** The sorted copy is a permutation of the list, ordered pairwise by the mode. */
  lemma SortSpec(mode: SortBy, xs: seq<Product>)
    ensures multiset(Sort(mode, xs)) == multiset(xs)
    ensures forall i, j :: 0 <= i < j < |xs| ==> Before(mode, Sort(mode, xs)[i], Sort(mode, xs)[j])
  {
    SortSorted(mode, xs);
    forall i, j | 0 <= i < j < |xs| ensures Before(mode, Sort(mode, xs)[i], Sort(mode, xs)[j]) {
      SortedPairwise(mode, Sort(mode, xs), i, j);
    }
  }

  /** `a` and `b` tie under the mode: the comparator lets either precede the other. */
  predicate Tie(mode: SortBy, a: Product, b: Product) {
    Before(mode, a, b) && Before(mode, b, a)
  }

  /** The elements of `xs` that tie with `e`, in their order there. */
  function Ties(mode: SortBy, e: Product, xs: seq<Product>): seq<Product> {
    Filter((y: Product) => Tie(mode, y, e), xs)
  }

  /** `[y]` when `y` ties with `e`, else nothing. */
  function TieOf(mode: SortBy, y: Product, e: Product): seq<Product> {
    if Tie(mode, y, e) then [y] else []
  }

  lemma TiesCons(mode: SortBy, e: Product, y: Product, ys: seq<Product>)
    ensures Ties(mode, e, [y] + ys) == TieOf(mode, y, e) + Ties(mode, e, ys)
  {
    assert ([y] + ys)[0] == y && ([y] + ys)[1..] == ys;
  }

  /** `Insert` passes over only elements that `x` may not precede, and none of those
      ties with anything `x` ties with; so `x` lands first among its ties. */
  lemma {:induction false} InsertStable(mode: SortBy, x: Product, ys: seq<Product>, e: Product)
    ensures Ties(mode, e, Insert(mode, x, ys)) == TieOf(mode, x, e) + Ties(mode, e, ys)
    decreases |ys|
  {
    if ys == [] || Before(mode, x, ys[0]) {
      assert Insert(mode, x, ys) == [x] + ys;
      TiesCons(mode, e, x, ys);
    } else {
      var y, tail := ys[0], ys[1..];
      var rest := Insert(mode, x, tail);
      assert Insert(mode, x, ys) == [y] + rest;
      assert ys == [y] + tail;
      InsertStable(mode, x, tail, e);
      TiesCons(mode, e, y, rest);
      TiesCons(mode, e, y, tail);
      TieExcludes(mode, x, y, e);
      SwapEmpty(TieOf(mode, x, e), TieOf(mode, y, e), Ties(mode, e, tail));
    }
  }

  /** Two pieces of which one is empty may be swapped. */
  lemma SwapEmpty(a: seq<Product>, b: seq<Product>, c: seq<Product>)
    requires a == [] || b == []
    ensures b + (a + c) == a + (b + c)
  {
  }

  /** Two products that both tie with `e` tie with each other, so one that `x` may not
      precede does not tie with what `x` ties with. */
  lemma TieExcludes(mode: SortBy, x: Product, y: Product, e: Product)
    requires !Before(mode, x, y)
    ensures TieOf(mode, x, e) == [] || TieOf(mode, y, e) == []
  {
    if Tie(mode, x, e) && Tie(mode, y, e) {
      BeforeTransitive(mode, x, e, y);
    }
  }

  /** The sort is stable: the products that tie with any given one come out in the
      order they went in. */
  lemma {:induction false} SortStable(mode: SortBy, xs: seq<Product>, e: Product)
    ensures Ties(mode, e, Sort(mode, xs)) == Ties(mode, e, xs)
  {
    if xs != [] {
      SortStable(mode, xs[1..], e);
      InsertStable(mode, xs[0], Sort(mode, xs[1..]), e);
    }
  }

  /** Sorting by date descending puts the newest first: no later item is newer. */
  lemma SortDateDesc(xs: seq<Product>)
    ensures forall i, j :: 0 <= i < j < |xs| ==> DateKey(Sort(DateDesc, xs)[i]) >= DateKey(Sort(DateDesc, xs)[j])
  {
    SortSpec(DateDesc, xs);
  }
}
