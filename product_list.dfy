/**
 * The catalogue query of `src/pages/ProductList.jsx`: the URL parameters
 * `category`, `color`, `minPrice`, `maxPrice` and `sort` narrow a copy of
 * the product list one filter at a time, and an explicit `sort` value then
 * reorders it with the engine's stable `Array.prototype.sort`.
 */
module ProductList {
  import opened Seqs
  import opened Text
  import opened Catalog

  /**
   * A price bound as the filter sees it: absent or empty (`Unset`), a
   * number, or a string `Number` turns into `NaN`, against which every
   * comparison is false.
   */
  datatype PriceBound = Unset | Bound(n: int) | NotANumber

  /** `minPrice`/`maxPrice`: the raw parameter, then `Number(...)`. */
  function ParsePrice(raw: string): PriceBound
  {
    if raw == "" then Unset
    else if AllDigits(raw) then Bound(DecimalValue(raw))
    else NotANumber
  }

  /** The parameters the effect reads; `""` stands for an absent or empty one. */
  datatype ListQuery = ListQuery(
    category: string,
    color: string,
    minPrice: PriceBound,
    maxPrice: PriceBound,
    sort: string)

  function ListQueryOf(params: Params): (q: ListQuery)
    ensures "category" in params ==> q.category == params["category"]
    ensures "color" in params ==> q.color == params["color"]
    ensures "sort" in params ==> q.sort == params["sort"]
    ensures "minPrice" in params ==> q.minPrice == ParsePrice(params["minPrice"])
    ensures "maxPrice" in params ==> q.maxPrice == ParsePrice(params["maxPrice"])
    ensures "category" !in params ==> forall p :: MeetsCategory(q, p)
    ensures "color" !in params ==> forall p :: MeetsColor(q, p)
    ensures "minPrice" !in params ==> forall p :: MeetsMin(q, p)
    ensures "maxPrice" !in params ==> forall p :: MeetsMax(q, p)
    ensures "sort" !in params ==> SortOrderOf(q.sort) == NoSort
  {
    ListQuery(
      ParamOr(params, "category", ""),
      ParamOr(params, "color", ""),
      ParsePrice(ParamOr(params, "minPrice", "")),
      ParsePrice(ParamOr(params, "maxPrice", "")),
      ParamOr(params, "sort", ""))
  }

  /** Which comparator `result.sort` is called with, if any. */
  datatype SortOrder = NoSort | Newest | PriceLow | PriceHigh | FeaturedFirst

  /** The `switch`: an unknown value takes the `default` (featured) branch. */
  function SortOrderOf(sort: string): (r: SortOrder)
    ensures r == NoSort <==> sort == ""
    ensures r == Newest <==> sort == "newest"
    ensures r == PriceLow <==> sort == "price-low"
    ensures r == PriceHigh <==> sort == "price-high"
    ensures r == FeaturedFirst <==> sort !in {"", "newest", "price-low", "price-high"}
  {
    if sort == "" then NoSort
    else if sort == "newest" then Newest
    else if sort == "price-low" then PriceLow
    else if sort == "price-high" then PriceHigh
    else FeaturedFirst
  }

  /**
   * Each comparator is `(a, b) => Key(a) - Key(b)`: `b.createdAt - a.createdAt`,
   * `a.price - b.price`, `b.price - a.price`, `b.isFeatured - a.isFeatured`.
   */
  function Key(order: SortOrder, p: Product): int
  {
    match order
    case NoSort => 0
    case Newest => -p.createdAt
    case PriceLow => p.price
    case PriceHigh => -p.price
    case FeaturedFirst => if p.isFeatured then 0 else 1
  }

  predicate Sorted(s: seq<Product>, order: SortOrder)
  {
    forall i, j :: 0 <= i < j < |s| ==> Key(order, s[i]) <= Key(order, s[j])
  }

  /** Put `x` before the first element whose key is not smaller. */
  function Insert(x: Product, t: seq<Product>, order: SortOrder): seq<Product>
  {
    if t == [] || Key(order, x) <= Key(order, t[0]) then [x] + t
    else [t[0]] + Insert(x, t[1..], order)
  }

  /** A stable sort by `Key(order, _)`: the result `Array.prototype.sort` must give. */
  function StableSort(s: seq<Product>, order: SortOrder): seq<Product>
  {
    if s == [] then [] else Insert(s[0], StableSort(s[1..], order), order)
  }

  predicate MeetsCategory(q: ListQuery, p: Product)
  {
    q.category == "" || p.category == q.category
  }

  predicate MeetsColor(q: ListQuery, p: Product)
  {
    q.color == "" || q.color in p.colors
  }

  predicate MeetsMin(q: ListQuery, p: Product)
  {
    match q.minPrice
    case Unset => true
    case Bound(n) => p.price >= n
    case NotANumber => false
  }

  predicate MeetsMax(q: ListQuery, p: Product)
  {
    match q.maxPrice
    case Unset => true
    case Bound(n) => p.price <= n
    case NotANumber => false
  }

  /** Every filter that is present holds of `p`. */
  predicate Meets(q: ListQuery, p: Product)
  {
    MeetsCategory(q, p) && MeetsColor(q, p) && MeetsMin(q, p) && MeetsMax(q, p)
  }

  /** The list after the four filters, before any sort. */
  function Filtered(products: seq<Product>, q: ListQuery): seq<Product>
  {
    Filter(p => Meets(q, p), products)
  }

  predicate IsFeatured(p: Product)
  {
    p.isFeatured
  }

  predicate NotFeatured(p: Product)
  {
    !p.isFeatured
  }

  // ---------------------------------------------------------------------
  // Facts about the sort

  lemma {:induction false} InsertMultiset(x: Product, t: seq<Product>, order: SortOrder)
    ensures multiset(Insert(x, t, order)) == multiset(t) + multiset{x}
    ensures |Insert(x, t, order)| == |t| + 1
  {
    if t != [] && Key(order, x) > Key(order, t[0]) {
      InsertMultiset(x, t[1..], order);
      assert t == [t[0]] + t[1..];
    }
  }

  lemma SortedCons(a: Product, u: seq<Product>, order: SortOrder)
    requires Sorted(u, order)
    requires forall y :: y in u ==> Key(order, a) <= Key(order, y)
    ensures Sorted([a] + u, order)
  {
    var r := [a] + u;
    forall i, j | 0 <= i < j < |r| ensures Key(order, r[i]) <= Key(order, r[j]) {
      assert r[j] == u[j - 1];
      assert r[j] in u;
      if i > 0 { assert r[i] == u[i - 1]; }
    }
  }

  lemma {:induction false} InsertSorted(x: Product, t: seq<Product>, order: SortOrder)
    requires Sorted(t, order)
    ensures Sorted(Insert(x, t, order), order)
  {
    if t == [] || Key(order, x) <= Key(order, t[0]) {
      forall y | y in t ensures Key(order, x) <= Key(order, y) {
        var j :| 0 <= j < |t| && t[j] == y;
      }
      SortedCons(x, t, order);
    } else {
      var rest := t[1..];
      assert Sorted(rest, order);
      InsertSorted(x, rest, order);
      InsertMultiset(x, rest, order);
      var u := Insert(x, rest, order);
      forall y | y in u ensures Key(order, t[0]) <= Key(order, y) {
        assert y in multiset(u);
        if y != x {
          assert y in multiset(rest);
          var j :| 0 <= j < |rest| && rest[j] == y;
          assert t[j + 1] == y;
        }
      }
      SortedCons(t[0], u, order);
    }
  }

  /** The sort puts every element in key order and neither adds nor drops one. */
  lemma {:induction false} SortFacts(s: seq<Product>, order: SortOrder)
    ensures multiset(StableSort(s, order)) == multiset(s)
    ensures |StableSort(s, order)| == |s|
    ensures Sorted(StableSort(s, order), order)
  {
    if s != [] {
      SortFacts(s[1..], order);
      InsertMultiset(s[0], StableSort(s[1..], order), order);
      InsertSorted(s[0], StableSort(s[1..], order), order);
      assert s == [s[0]] + s[1..];
    }
  }

  lemma {:induction false} InsertKeepsSameKeyOrder(x: Product, t: seq<Product>, order: SortOrder, v: int)
    ensures Filter(p => Key(order, p) == v, Insert(x, t, order))
         == (if Key(order, x) == v then [x] else []) + Filter(p => Key(order, p) == v, t)
  {
    var f := (p: Product) => Key(order, p) == v;
    if t == [] || Key(order, x) <= Key(order, t[0]) {
      assert Insert(x, t, order) == [x] + t;
      FilterCons(f, x, t);
    } else {
      var u := Insert(x, t[1..], order);
      assert Insert(x, t, order) == [t[0]] + u;
      InsertKeepsSameKeyOrder(x, t[1..], order, v);
      FilterCons(f, t[0], u);
      FilterCons(f, t[0], t[1..]);
      assert t == [t[0]] + t[1..];
      assert !(f(x) && f(t[0]));
    }
  }

  /**
   * Stability: the elements that share a key keep their original relative
   * order, for every key value.
   */
  lemma {:induction false} SortIsStable(s: seq<Product>, order: SortOrder, v: int)
    ensures Filter(p => Key(order, p) == v, StableSort(s, order)) == Filter(p => Key(order, p) == v, s)
  {
    if s != [] {
      SortIsStable(s[1..], order, v);
      InsertKeepsSameKeyOrder(s[0], StableSort(s[1..], order), order, v);
    }
  }

  lemma {:induction false} InsertPastSmaller(x: Product, a: seq<Product>, b: seq<Product>, order: SortOrder)
    requires forall y :: y in a ==> Key(order, y) < Key(order, x)
    requires b == [] || Key(order, x) <= Key(order, b[0])
    ensures Insert(x, a + b, order) == a + [x] + b
  {
    if a == [] {
      assert a + b == b;
    } else {
      assert (a + b)[0] == a[0] && (a + b)[1..] == a[1..] + b;
      assert forall y :: y in a[1..] ==> y in a;
      InsertPastSmaller(x, a[1..], b, order);
    }
  }

  /**
   * The featured comparator puts the featured products first and the others
   * after them, each group in its original order.
   */
  lemma NotFeaturedGoesAfter(x: Product, a: seq<Product>, b: seq<Product>)
    requires !x.isFeatured
    requires forall y :: y in a ==> y.isFeatured
    requires forall y :: y in b ==> !y.isFeatured
    ensures Insert(x, a + b, FeaturedFirst) == a + ([x] + b)
  {
    assert b != [] ==> b[0] in b;
    InsertPastSmaller(x, a, b, FeaturedFirst);
    assert a + [x] + b == a + ([x] + b);
  }

  /** A featured product goes in front of the partition. */
  lemma FeaturedStep(x: Product, a: seq<Product>, b: seq<Product>)
    requires x.isFeatured
    ensures Insert(x, a + b, FeaturedFirst) == [x] + a + b
  {
    assert Key(FeaturedFirst, x) == 0;
    assert [x] + (a + b) == [x] + a + b;
  }

  /** One element more: inserting `x` into the partition of `rest` gives the partition of `[x] + rest`. */
  lemma PartitionStep(x: Product, rest: seq<Product>, a: seq<Product>, b: seq<Product>)
    requires a == Filter(IsFeatured, rest) && b == Filter(NotFeatured, rest)
    ensures Insert(x, a + b, FeaturedFirst) == Filter(IsFeatured, [x] + rest) + Filter(NotFeatured, [x] + rest)
  {
    FilterCons(IsFeatured, x, rest);
    FilterCons(NotFeatured, x, rest);
    if x.isFeatured {
      assert Filter(IsFeatured, [x] + rest) == [x] + a;
      assert Filter(NotFeatured, [x] + rest) == b;
      FeaturedStep(x, a, b);
    } else {
      assert Filter(IsFeatured, [x] + rest) == a;
      assert Filter(NotFeatured, [x] + rest) == [x] + b;
      FilterMembers(IsFeatured, rest);
      FilterMembers(NotFeatured, rest);
      NotFeaturedGoesAfter(x, a, b);
    }
  }

  lemma {:induction false} FeaturedFirstPartitions(s: seq<Product>)
    ensures StableSort(s, FeaturedFirst) == Filter(IsFeatured, s) + Filter(NotFeatured, s)
  {
    if s != [] {
      FeaturedFirstPartitions(s[1..]);
      PartitionStep(s[0], s[1..], Filter(IsFeatured, s[1..]), Filter(NotFeatured, s[1..]));
      assert s == [s[0]] + s[1..];
    }
  }

  // ---------------------------------------------------------------------
  // The effect

  /**
   * The body of the effect: narrow `[...products]` by each present filter,
   * then sort it when `sort` is given.  The comparators order by the keys
   * above; an unknown `sort` value sorts featured products first.
   */
  method ApplyQuery(products: seq<Product>, q: ListQuery) returns (result: seq<Product>)
    ensures forall p :: p in result <==> p in products && Meets(q, p)
    ensures multiset(result) == multiset(Filtered(products, q))
    ensures SortOrderOf(q.sort) == NoSort ==> result == Filtered(products, q)
    ensures SortOrderOf(q.sort) == NoSort ==> IsSubsequence(result, products)
    ensures SortOrderOf(q.sort) != NoSort ==> result == StableSort(Filtered(products, q), SortOrderOf(q.sort))
    ensures SortOrderOf(q.sort) == PriceLow ==>
      forall i, j :: 0 <= i < j < |result| ==> result[i].price <= result[j].price
    ensures SortOrderOf(q.sort) == PriceHigh ==>
      forall i, j :: 0 <= i < j < |result| ==> result[i].price >= result[j].price
    ensures SortOrderOf(q.sort) == Newest ==>
      forall i, j :: 0 <= i < j < |result| ==> result[i].createdAt >= result[j].createdAt
    ensures SortOrderOf(q.sort) == FeaturedFirst ==>
      result == Filter(IsFeatured, Filtered(products, q)) + Filter(NotFeatured, Filtered(products, q))
  {
    result := ApplyFilters(products, q);
    FilteredFacts(products, q);
    var order := SortOrderOf(q.sort);
    if order != NoSort {
      SortedResult(result, order);
      result := StableSort(result, order);
    }
  }

  /** The four `if (...) result = result.filter(...)` steps of the effect. */
  method ApplyFilters(products: seq<Product>, q: ListQuery) returns (result: seq<Product>)
    ensures result == Filtered(products, q)
  {
    var upToCategory := (p: Product) => MeetsCategory(q, p);
    var upToColor := (p: Product) => MeetsCategory(q, p) && MeetsColor(q, p);
    var upToMin := (p: Product) => MeetsCategory(q, p) && MeetsColor(q, p) && MeetsMin(q, p);
    var all := (p: Product) => Meets(q, p);

    result := products;

    if q.category != "" {
      var byCategory := (p: Product) => p.category == q.category;
      FilterAgree(byCategory, upToCategory, products);
      result := Filter(byCategory, result);
    } else {
      FilterKeepsAll(upToCategory, products);
    }
    assert result == Filter(upToCategory, products);

    if q.color != "" {
      var byColor := (p: Product) => q.color in p.colors;
      FilterTwice(upToCategory, byColor, upToColor, products);
      result := Filter(byColor, result);
    } else {
      FilterAgree(upToCategory, upToColor, products);
    }
    assert result == Filter(upToColor, products);

    if !q.minPrice.Unset? {
      var byMin := (p: Product) => MeetsMin(q, p);
      FilterTwice(upToColor, byMin, upToMin, products);
      result := Filter(byMin, result);
    } else {
      FilterAgree(upToColor, upToMin, products);
    }
    assert result == Filter(upToMin, products);

    if !q.maxPrice.Unset? {
      var byMax := (p: Product) => MeetsMax(q, p);
      FilterTwice(upToMin, byMax, all, products);
      result := Filter(byMax, result);
    } else {
      FilterAgree(upToMin, all, products);
    }
  }

  /** Before the sort: exactly the products meeting every present filter, in catalogue order. */
  lemma FilteredFacts(products: seq<Product>, q: ListQuery)
    ensures forall p :: p in Filtered(products, q) <==> p in products && Meets(q, p)
    ensures IsSubsequence(Filtered(products, q), products)
  {
    FilterMembers(p => Meets(q, p), products);
    FilterIsSubsequence(p => Meets(q, p), products);
  }

  /**
   * A bound that `Number` turns into `NaN` fails every comparison, so the
   * filter then keeps nothing.
   */
  lemma NotANumberKeepsNothing(products: seq<Product>, q: ListQuery)
    requires q.minPrice.NotANumber? || q.maxPrice.NotANumber?
    ensures Filtered(products, q) == []
  {
    FilterKeepsNone(p => Meets(q, p), products);
  }

  /** What each comparator guarantees of the sorted list. */
  lemma SortedResult(s: seq<Product>, order: SortOrder)
    ensures |StableSort(s, order)| == |s|
    ensures forall p :: p in StableSort(s, order) <==> p in s
    ensures multiset(StableSort(s, order)) == multiset(s)
    ensures order == PriceLow ==>
      forall i, j :: 0 <= i < j < |s| ==> StableSort(s, order)[i].price <= StableSort(s, order)[j].price
    ensures order == PriceHigh ==>
      forall i, j :: 0 <= i < j < |s| ==> StableSort(s, order)[i].price >= StableSort(s, order)[j].price
    ensures order == Newest ==>
      forall i, j :: 0 <= i < j < |s| ==> StableSort(s, order)[i].createdAt >= StableSort(s, order)[j].createdAt
    ensures order == FeaturedFirst ==>
      StableSort(s, order) == Filter(IsFeatured, s) + Filter(NotFeatured, s)
  {
    SortFacts(s, order);
    var r := StableSort(s, order);
    forall p ensures p in r <==> p in s {
      assert p in r <==> p in multiset(r);
      assert p in s <==> p in multiset(s);
    }
    if order == FeaturedFirst {
      FeaturedFirstPartitions(s);
    }
  }
}
