/** The home page's "recent products": the five newest products (a missing
    `createdAt` counts as the epoch), each shown by id, name and card picture. */
module Home {
  import opened Common
  import opened Catalog
  import opened Ordering

  datatype Recent = Recent(id: string, name: Option<string>, image: string)

  /** An item names its product and always has a picture. */
  function Summary(p: Product): (r: Recent)
    ensures r.id == p.id && r.name == p.name && r.image == CardImage(p) && r.image != ""
  {
    Recent(p.id, p.name, CardImage(p))
  }

  const RecentCount: nat := 5

  /** `recentProducts`: sort a copy newest first, keep five, summarize. */
  function RecentProducts(all: seq<Product>): seq<Recent> {
    Map(Summary, Take(Sort(DateDesc, all), RecentCount))
  }

  /** The first five of a newest-first permutation of `all` are the newest: every
      other product of `all` is no newer than any of them. */
  lemma TopOfSorted(s: seq<Product>, all: seq<Product>)
    requires multiset(s) == multiset(all)
    requires forall i, j :: 0 <= i < j < |s| ==> DateKey(s[i]) >= DateKey(s[j])
    ensures var t := Take(s, RecentCount);
      forall p :: p in all ==>
        (exists k :: 0 <= k < |t| && t[k] == p)
        || (|t| == RecentCount && forall k :: 0 <= k < |t| ==> DateKey(t[k]) >= DateKey(p))
  {
    var t := Take(s, RecentCount);
    forall p | p in all
      ensures (exists k :: 0 <= k < |t| && t[k] == p)
        || (|t| == RecentCount && forall k :: 0 <= k < |t| ==> DateKey(t[k]) >= DateKey(p))
    {
      assert p in multiset(s);
      var j :| 0 <= j < |s| && s[j] == p;
      if j < |t| {
        assert t[j] == p;
      }
    }
  }

  /** At most five products are shown, each the summary of a product of the list,
      newest first. */
  lemma RecentSpec(all: seq<Product>)
    ensures |RecentProducts(all)| == (if |all| < RecentCount then |all| else RecentCount)
    ensures var t := Take(Sort(DateDesc, all), RecentCount);
      forall k :: 0 <= k < |t| ==> RecentProducts(all)[k] == Summary(t[k]) && t[k] in all
    ensures var t := Take(Sort(DateDesc, all), RecentCount);
      forall i, j :: 0 <= i < j < |t| ==> DateKey(t[i]) >= DateKey(t[j])
  {
    var s := Sort(DateDesc, all);
    var t := Take(s, RecentCount);
    SortDateDesc(all);
    forall k | 0 <= k < |t| ensures t[k] in all {
      assert t[k] == s[k];
      assert s[k] in multiset(s);
    }
  }

  /** Every product of the list is either shown or no newer than all five shown ones. */
  lemma RecentAreNewest(all: seq<Product>)
    ensures var t := Take(Sort(DateDesc, all), RecentCount);
      forall p :: p in all ==>
        (exists k :: 0 <= k < |t| && t[k] == p)
        || (|t| == RecentCount && forall k :: 0 <= k < |t| ==> DateKey(t[k]) >= DateKey(p))
  {
    SortDateDesc(all);
    TopOfSorted(Sort(DateDesc, all), all);
  }

  /** A non-empty list leads with one of its newest products. */
  lemma NewestFirst(all: seq<Product>)
    requires |all| > 0
    ensures var s := Sort(DateDesc, all);
      RecentProducts(all)[0] == Summary(s[0])
      && forall p :: p in all ==> DateKey(s[0]) >= DateKey(p)
  {
    var s := Sort(DateDesc, all);
    SortDateDesc(all);
    forall p | p in all ensures DateKey(s[0]) >= DateKey(p) {
      assert p in multiset(s);
      var j :| 0 <= j < |s| && s[j] == p;
    }
  }
}
