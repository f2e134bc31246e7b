/**
 * The search hook of `src/hooks/useSearch.js`: the `search` URL parameter
 * selects the products whose name, category or one of whose detail lines
 * contains it, ignoring case.  Colours are not searched.
 */
module ProductSearch {
  import opened Seqs
  import opened Text
  import opened Catalog

  /** `params.get("search") || ""`. */
  function SearchTermOf(params: Params): (term: string)
    ensures "search" in params ==> term == params["search"]
    ensures "search" !in params ==> term == ""
  {
    ParamOr(params, "search", "")
  }

  /** Some detail line contains the term, ignoring case. */
  predicate SomeDetailContains(details: seq<string>, term: string)
  {
    exists i :: 0 <= i < |details| && Contains(Lower(details[i]), Lower(term))
  }

  /** The filter's predicate. */
  predicate MatchesTerm(p: Product, term: string): (b: bool)
    ensures term == "" ==> b
  {
    Contains(Lower(p.name), Lower(term))
    || Contains(Lower(p.category), Lower(term))
    || SomeDetailContains(p.details, term)
  }

  /**
   * `searchResults`: all products for an empty term, otherwise exactly the
   * matching products in catalogue order.
   */
  function SearchResults(products: seq<Product>, term: string): (r: seq<Product>)
    ensures term == "" ==> r == products
    ensures IsSubsequence(r, products)
    ensures term != "" ==> forall p :: p in r <==> p in products && MatchesTerm(p, term)
  {
    if term != "" then
      FilterMembers(p => MatchesTerm(p, term), products);
      FilterIsSubsequence(p => MatchesTerm(p, term), products);
      Filter(p => MatchesTerm(p, term), products)
    else
      SubsequenceOfSelf(products);
      products
  }

  /**
   * Colours play no part: two products that differ only in their colours
   * are both found or both missed.
   */
  lemma ColorsAreNotSearched(products: seq<Product>, term: string, p: Product, c: seq<string>)
    requires term != "" && p in products && p.(colors := c) in products
    ensures p in SearchResults(products, term) <==> p.(colors := c) in SearchResults(products, term)
  {
  }

  /** `handleSearch(term)` navigates to `/products?search=term` (URI encoding aside). */
  function SearchParams(term: string): (params: Params)
    ensures SearchTermOf(params) == term
  {
    map["search" := term]
  }
}
