/**
 * The product record the storefront works on, and the option lists that
 * `ProductList` offers to its filter panel and that the search panel scans
 * (`filterOptions`: the distinct categories, the distinct colours and the
 * price range of the catalogue).
 */
module Catalog {
  import opened Seqs

  /**
   * A catalogue entry.  Images, ratings, review counts and the original
   * price are display data and are not modelled.  `createdAt` is the
   * already-parsed creation time.
   */
  datatype Product = Product(
    id: string,
    name: string,
    category: string,
    price: int,
    colors: seq<string>,
    sizes: seq<string>,
    details: seq<string>,
    isNew: bool,
    isFeatured: bool,
    createdAt: int)

  /** `products.map(p => p.category)`. */
  function CategoryList(ps: seq<Product>): (r: seq<string>)
    ensures |r| == |ps|
    ensures forall i :: 0 <= i < |ps| ==> r[i] == ps[i].category
  {
    if ps == [] then [] else [ps[0].category] + CategoryList(ps[1..])
  }

  /** `products.flatMap(p => p.colors)`. */
  function ColorList(ps: seq<Product>): seq<string>
  {
    if ps == [] then [] else ps[0].colors + ColorList(ps[1..])
  }

  lemma {:induction false} ColorListMembers(ps: seq<Product>)
    ensures forall c :: c in ColorList(ps) <==> exists p :: p in ps && c in p.colors
  {
    if ps != [] {
      ColorListMembers(ps[1..]);
      assert ps == [ps[0]] + ps[1..];
      forall c | c in ColorList(ps) ensures exists p :: p in ps && c in p.colors {
        if c in ps[0].colors {
          assert ps[0] in ps;
        } else {
          assert c in ColorList(ps[1..]);
          var p :| p in ps[1..] && c in p.colors;
          assert p in ps;
        }
      }
    }
  }

  /** `filterOptions.categories`: every category once. */
  function Categories(ps: seq<Product>): (r: seq<string>)
    ensures NoDuplicates(r)
    ensures forall c :: c in r <==> exists p :: p in ps && p.category == c
  {
    var all := CategoryList(ps);
    DistinctFacts(all);
    assert forall c :: c in all <==> exists p :: p in ps && p.category == c by {
      forall c | c in all ensures exists p :: p in ps && p.category == c {
        var i :| 0 <= i < |all| && all[i] == c;
        assert ps[i] in ps;
      }
    }
    Distinct(all)
  }

  /** `filterOptions.colors`: every colour once. */
  function Colors(ps: seq<Product>): (r: seq<string>)
    ensures NoDuplicates(r)
    ensures forall c :: c in r <==> exists p :: p in ps && c in p.colors
  {
    var all := ColorList(ps);
    DistinctFacts(all);
    ColorListMembers(ps);
    Distinct(all)
  }

  datatype PriceRange = PriceRange(min: int, max: int)

  /**
   * `filterOptions.priceRange`: `Math.min` and `Math.max` over the prices.
   * Over an empty catalogue JavaScript yields `Infinity` and `-Infinity`;
   * that case is `None` here.
   */
  function PriceRangeOf(ps: seq<Product>): (r: Option<PriceRange>)
    ensures r.None? <==> ps == []
    ensures r.Some? ==> forall p :: p in ps ==> r.value.min <= p.price <= r.value.max
    ensures r.Some? ==> exists p :: p in ps && p.price == r.value.min
    ensures r.Some? ==> exists p :: p in ps && p.price == r.value.max
  {
    if ps == [] then None
    else
      var rest := PriceRangeOf(ps[1..]);
      assert ps == [ps[0]] + ps[1..];
      match rest
      case None => Some(PriceRange(ps[0].price, ps[0].price))
      case Some(pr) =>
        assert forall p :: p in ps[1..] ==> p in ps;
        Some(PriceRange(if ps[0].price < pr.min then ps[0].price else pr.min,
                        if ps[0].price > pr.max then ps[0].price else pr.max))
  }

  datatype Option<T> = None | Some(value: T)

  /** URL query parameters, one value per key. */
  type Params = map<string, string>

  /**
   * `searchParams.get(key) || fallback`: an absent key and an empty value
   * both give the fallback.
   */
  function ParamOr(params: Params, key: string, fallback: string): string
  {
    if key in params && params[key] != "" then params[key] else fallback
  }
}
