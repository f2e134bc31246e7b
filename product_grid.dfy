/**
 * The batch reveal of `src/components/products/ProductGrid.jsx`: the first
 * twelve products are shown, and each time the sentinel below the grid is
 * visible eight more are appended, until the list is exhausted.  Whether
 * the sentinel is visible is an input.
 */
module ProductGrid {
  import opened Catalog

  const FirstBatch: nat := 12
  const BatchSize: nat := 8

  function Min(a: int, b: int): int
  {
    if a < b then a else b
  }

  function Max(a: int, b: int): int
  {
    if a < b then b else a
  }

  /**
   * The load index after one load step on a list of `len` products: it
   * grows by at most a batch, never past the end, and only while products
   * remain.
   */
  function NextIndex(loadIndex: nat, len: nat): (r: nat)
    ensures loadIndex < len ==> loadIndex < r <= len && r - loadIndex <= BatchSize
    ensures loadIndex < len && loadIndex + BatchSize <= len ==> r == loadIndex + BatchSize
    ensures loadIndex < len && len < loadIndex + BatchSize ==> r == len
    ensures loadIndex >= len ==> r == loadIndex
  {
    if loadIndex < len then Min(loadIndex + BatchSize, len) else loadIndex
  }

  /** The load index after `steps` load steps with the sentinel in view. */
  function IndexAfter(steps: nat, len: nat): nat
  {
    if steps == 0 then FirstBatch else NextIndex(IndexAfter(steps - 1, len), len)
  }

  /** After `k` steps, `12 + 8k` products are shown, or all of them. */
  lemma {:induction false} IndexAfterSteps(steps: nat, len: nat)
    ensures IndexAfter(steps, len) == if len <= FirstBatch then FirstBatch else Min(FirstBatch + BatchSize * steps, len)
  {
    if steps > 0 {
      IndexAfterSteps(steps - 1, len);
    }
  }

  /** Enough steps reveal the whole list. */
  lemma EverythingRevealed(steps: nat, len: nat)
    requires FirstBatch + BatchSize * steps >= len
    ensures Min(IndexAfter(steps, len), len) == len
    ensures IndexAfter(steps, len) >= len
  {
    IndexAfterSteps(steps, len);
  }

  /** What the grid shows and how far it has loaded. */
  datatype GridState = GridState(visible: seq<Product>, loadIndex: nat)

  /** The sentinel below the grid is rendered while products remain to be shown. */
  predicate SentinelShown(products: seq<Product>, s: GridState)
  {
    s.loadIndex < |products|
  }

  /** The reveal invariant: the shown products are a prefix of the list. */
  predicate Consistent(products: seq<Product>, s: GridState)
  {
    s.visible == products[..Min(s.loadIndex, |products|)] && FirstBatch <= s.loadIndex <= Max(FirstBatch, |products|)
  }

  /**
   * The commit in which a new list arrives, as written: the reset effect
   * queues the first twelve and index 12, but the load effect runs in the
   * same commit with the previous render's `loadIndex` and appends the
   * slice from that stale index.
   */
  function CommitAsWritten(staleIndex: nat, products: seq<Product>, isVisible: bool): (s: GridState)
    ensures |s.visible| <= |products| + BatchSize
    ensures !(isVisible && staleIndex < |products|) ==> Consistent(products, s)
  {
    var reset := products[..Min(FirstBatch, |products|)];
    if isVisible && staleIndex < |products| then
      var next := Min(staleIndex + BatchSize, |products|);
      GridState(reset + products[staleIndex..next], next)
    else
      GridState(reset, FirstBatch)
  }

  /**
   * With 25 products, a previous index of 20 and the sentinel in view,
   * the grid shows 17 products and removes the sentinel: products 13 to
   * 20 can no longer be reached.
   */
  lemma StaleIndexSkipsProducts(products: seq<Product>)
    requires |products| == 25
    ensures |CommitAsWritten(20, products, true).visible| == 17
    ensures CommitAsWritten(20, products, true).loadIndex == |products|
    ensures !Consistent(products, CommitAsWritten(20, products, true))
    ensures !SentinelShown(products, CommitAsWritten(20, products, true))
  {
  }

  /**
   * The commit as written keeps the reveal invariant exactly when no load
   * step fires in it, or when the stale index happens to be the reset value
   * 12, so that the appended slice is the right one.
   */
  lemma CommitAsWrittenConsistency(staleIndex: nat, products: seq<Product>, isVisible: bool)
    ensures Consistent(products, CommitAsWritten(staleIndex, products, isVisible))
        <==> !(isVisible && staleIndex < |products|) || staleIndex == FirstBatch
  {
    if isVisible && staleIndex < |products| {
      var s := CommitAsWritten(staleIndex, products, isVisible);
      var next := Min(staleIndex + BatchSize, |products|);
      var reset := products[..Min(FirstBatch, |products|)];
      assert s.visible == reset + products[staleIndex..next];
      if staleIndex == FirstBatch {
        assert reset + products[staleIndex..next] == products[..next];
      } else {
        assert |s.visible| == |reset| + next - staleIndex;
        assert |s.visible| != |products[..Min(s.loadIndex, |products|)]|;
      }
    }
  }

  /**
   * The intended commit: the list is reset to its first twelve, and a load
   * step, if the sentinel is in view, continues from there.
   */
  function CommitIntended(products: seq<Product>, isVisible: bool): (s: GridState)
    ensures Consistent(products, s)
    ensures s.loadIndex == if isVisible then NextIndex(FirstBatch, |products|) else FirstBatch
  {
    var next := if isVisible then NextIndex(FirstBatch, |products|) else FirstBatch;
    GridState(products[..Min(next, |products|)], next)
  }

  /** The grid component's state. */
  class Grid {
    var products: seq<Product>
    var visibleProducts: seq<Product>
    var loadIndex: nat

    ghost predicate Valid()
      reads this
    {
      Consistent(products, GridState(visibleProducts, loadIndex))
    }

    /** The sentinel element is rendered while products remain to be shown. */
    predicate ShowsSentinel(): (b: bool)
      reads this
      ensures Valid() ==> (b <==> |visibleProducts| < |products|)
    {
      SentinelShown(products, GridState(visibleProducts, loadIndex))
    }

    /**
     * Mounting: the reset effect shows the first twelve products.  The
     * sentinel is taken to be out of view in the first commit, so the load
     * effect does not fire then.
     */
    constructor (products: seq<Product>)
      ensures Valid()
      ensures this.products == products && loadIndex == FirstBatch
      ensures visibleProducts == products[..Min(FirstBatch, |products|)]
    {
      this.products := products;
      visibleProducts := products[..Min(FirstBatch, |products|)];
      loadIndex := FirstBatch;
    }

    /** The load effect: one more batch when the sentinel is visible. */
    method LoadMore(isVisible: bool)
      requires Valid()
      modifies this
      ensures Valid()
      ensures products == old(products)
      ensures loadIndex == if isVisible then NextIndex(old(loadIndex), |products|) else old(loadIndex)
      ensures old(visibleProducts) <= visibleProducts
      ensures |visibleProducts| - |old(visibleProducts)| <= BatchSize
    {
      if isVisible && loadIndex < |products| {
        var nextIndex := Min(loadIndex + BatchSize, |products|);
        assert products[..nextIndex] == products[..loadIndex] + products[loadIndex..nextIndex];
        visibleProducts := visibleProducts + products[loadIndex..nextIndex];
        loadIndex := nextIndex;
      }
    }

    /** A new list arrives: the commit in its intended form. */
    method ReceiveProducts(newProducts: seq<Product>, isVisible: bool)
      modifies this
      ensures Valid()
      ensures products == newProducts
      ensures GridState(visibleProducts, loadIndex) == CommitIntended(newProducts, isVisible)
    {
      products := newProducts;
      visibleProducts := newProducts[..Min(FirstBatch, |newProducts|)];
      loadIndex := FirstBatch;
      LoadMore(isVisible);
    }
  }
}
