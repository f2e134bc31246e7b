/**
 * The new-arrivals strip of the home page,
 * `src/components/home/NewArrivals.jsx`: the products marked new, of which
 * the first four are shown, or a placeholder when there are none.
 */
module NewArrivals {
  import opened Seqs
  import opened Catalog

  const Shown: nat := 4

  predicate IsNew(p: Product)
  {
    p.isNew
  }

  /** `products.filter(product => product.isNew)`. */
  function NewProducts(ps: seq<Product>): (r: seq<Product>)
    ensures forall p :: p in r <==> p in ps && p.isNew
    ensures IsSubsequence(r, ps)
  {
    FilterMembers(IsNew, ps);
    FilterIsSubsequence(IsNew, ps);
    Filter(IsNew, ps)
  }

  /** `newProducts.slice(0, 4)`: the first four new products, or all of them. */
  function ShownProducts(ps: seq<Product>): (r: seq<Product>)
    ensures r <= NewProducts(ps)
    ensures |r| == if |NewProducts(ps)| < Shown then |NewProducts(ps)| else Shown
    ensures forall p :: p in r ==> p in ps && p.isNew
  {
    Take(NewProducts(ps), Shown)
  }

  /** The placeholder text replaces the grid exactly when nothing is new. */
  function ShowsPlaceholder(ps: seq<Product>): (b: bool)
    ensures b <==> forall p :: p in ps ==> !p.isNew
    ensures b <==> ShownProducts(ps) == []
  {
    var n := NewProducts(ps);
    assert n != [] ==> n[0] in n;
    |n| == 0
  }
}
