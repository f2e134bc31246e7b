/**
 * The collections page, `src/pages/Collections.jsx`: four fixed groupings
 * of the catalogue, each the first four products that pass its test.
 */
module Collections {
  import opened Seqs
  import opened Text
  import opened Catalog

  const CollectionSize: nat := 4

  /** Batik: "batik" in the lower-case name, or a top or a dress. */
  predicate IsBatik(p: Product)
  {
    Contains(Lower(p.name), "batik") || p.category == "Tops" || p.category == "Dresses"
  }

  /** Traditional wear: "kebaya" in the lower-case name, or a dress. */
  predicate IsKebaya(p: Product)
  {
    Contains(Lower(p.name), "kebaya") || p.category == "Dresses"
  }

  /** Office: "office" in the lower-case name, or outerwear, or bottoms. */
  predicate IsOffice(p: Product)
  {
    Contains(Lower(p.name), "office") || p.category == "Outerwear" || p.category == "Bottoms"
  }

  /** Accessories: exactly the category `Accessories`. */
  predicate IsAccessory(p: Product)
  {
    p.category == "Accessories"
  }

  /**
   * `products.filter(test).slice(0, 4)`: at most four products that pass
   * the test, in catalogue order, and all of them when fewer than four do.
   */
  function Capped(test: Product -> bool, ps: seq<Product>): (r: seq<Product>)
    ensures |r| <= CollectionSize
    ensures r <= Filter(test, ps)
    ensures IsSubsequence(r, ps)
    ensures forall p :: p in r ==> p in ps && test(p)
    ensures |r| < CollectionSize ==> forall p :: p in ps && test(p) ==> p in r
  {
    TakeFilterFacts(test, ps, CollectionSize);
    Take(Filter(test, ps), CollectionSize)
  }

  datatype Collection = Collection(id: string, name: string, description: string, products: seq<Product>)

  /** The `collections` array, in page order. */
  function CollectionsOf(ps: seq<Product>): (cs: seq<Collection>)
    ensures |cs| == 4
    ensures forall i :: 0 <= i < |cs| ==> |cs[i].products| <= CollectionSize && IsSubsequence(cs[i].products, ps)
    ensures cs[0].id == "batik" && forall p :: p in cs[0].products ==> IsBatik(p)
    ensures cs[1].id == "kebaya" && forall p :: p in cs[1].products ==> IsKebaya(p)
    ensures cs[2].id == "office" && forall p :: p in cs[2].products ==> IsOffice(p)
    ensures cs[3].id == "accessories" && forall p :: p in cs[3].products ==> p.category == "Accessories"
    ensures cs[0].products == Capped(IsBatik, ps) && cs[1].products == Capped(IsKebaya, ps)
    ensures cs[2].products == Capped(IsOffice, ps) && cs[3].products == Capped(IsAccessory, ps)
  {
    [ Collection("batik", "Batik Collection", "Modern and traditional batik designs", Capped(IsBatik, ps)),
      Collection("kebaya", "Traditional Wear", "Authentic Indonesian kebaya and sarongs", Capped(IsKebaya, ps)),
      Collection("office", "Office Collection", "Professional looks with Indonesian textiles", Capped(IsOffice, ps)),
      Collection("accessories", "Accessories", "Complement your outfit with traditional accents", Capped(IsAccessory, ps)) ]
  }

  /**
   * The groupings overlap: every dress passes both the batik and the
   * traditional-wear test, and no accessory is office wear unless its name
   * says so.
   */
  lemma GroupingsOverlap(p: Product)
    ensures p.category == "Dresses" ==> IsBatik(p) && IsKebaya(p)
    ensures IsAccessory(p) && IsOffice(p) ==> Contains(Lower(p.name), "office")
  {
  }
}
