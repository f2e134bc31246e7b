/**
 * The product page, `src/pages/ProductDetail.jsx`: which product is shown
 * for a route id, the size and quantity pickers, and the guarded
 * add-to-cart button.
 */
module ProductDetail {
  import opened Catalog
  import opened CartStore

  /** `ps[i]` is the first product whose id is `id`. */
  predicate FirstWithId(ps: seq<Product>, i: int, id: string)
  {
    0 <= i < |ps| && ps[i].id == id && forall j :: 0 <= j < i ==> ps[j].id != id
  }

  /** `products.find(p => p.id === id)`: the first product with that id. */
  function FindById(id: string, ps: seq<Product>): (r: Option<Product>)
    ensures r.None? <==> forall p :: p in ps ==> p.id != id
    ensures r.Some? ==> exists i :: FirstWithId(ps, i, id) && ps[i] == r.value
  {
    if ps == [] then None
    else if ps[0].id == id then Some(ps[0])
    else
      var r := FindById(id, ps[1..]);
      assert forall p :: p in ps ==> p == ps[0] || p in ps[1..];
      if r.Some? then
        var i :| FirstWithId(ps[1..], i, id) && ps[1..][i] == r.value;
        assert FirstWithId(ps, i + 1, id);
        r
      else r
  }

  /**
   * `getProductById(id) || products[0]`: the product with that id, else
   * the first product; only an empty catalogue shows "Product not found".
   */
  function ResolveProduct(id: string, ps: seq<Product>): (r: Option<Product>)
    ensures r.None? <==> ps == []
    ensures r.Some? ==> r.value in ps
    ensures (exists p :: p in ps && p.id == id) ==> r.Some? && r.value.id == id
    ensures (forall p :: p in ps ==> p.id != id) && ps != [] ==> r == Some(ps[0])
  {
    match FindById(id, ps)
    case Some(p) => Some(p)
    case None => if ps == [] then None else Some(ps[0])
  }

  /** What `handleAddToCart` does. */
  datatype AddOutcome = Alerted | AddedToCart

  /**
   * The page's picker state.  `product` is recomputed from the route id on
   * every render, while `selectedSize` and `quantity` are component state:
   * they survive a change of id, because `/products/:id` keeps the same
   * page element.  So the chosen size need not be one of the shown
   * product's sizes.
   */
  class DetailPage {
    var product: Product
    var selectedSize: string
    var quantity: int

    ghost predicate Valid()
      reads this
    {
      quantity >= 1
    }

    /** The chosen size is empty or one the shown product offers. */
    predicate SizeOffered()
      reads this
    {
      selectedSize == "" || selectedSize in product.sizes
    }

    /** No size chosen, quantity 1. */
    constructor (product: Product)
      ensures Valid()
      ensures this.product == product && selectedSize == "" && quantity == 1
    {
      this.product := product;
      selectedSize := "";
      quantity := 1;
    }

    /** A size button: only the product's own sizes are offered. */
    method SelectSize(size: string)
      requires Valid() && size in product.sizes
      modifies this
      ensures Valid() && SizeOffered()
      ensures selectedSize == size && quantity == old(quantity) && product == old(product)
    {
      selectedSize := size;
    }

    /**
     * A link to another product page (a related-product card): the page
     * re-renders with the product for the new id and keeps its size and
     * quantity.
     */
    method ShowProduct(next: Product)
      requires Valid()
      modifies this
      ensures Valid()
      ensures product == next && selectedSize == old(selectedSize) && quantity == old(quantity)
    {
      product := next;
    }

    /** `Math.max(1, quantity - 1)`. */
    method Decrement()
      requires Valid()
      modifies this
      ensures Valid()
      ensures quantity == if old(quantity) == 1 then 1 else old(quantity) - 1
      ensures selectedSize == old(selectedSize) && product == old(product)
    {
      quantity := if quantity - 1 < 1 then 1 else quantity - 1;
    }

    method Increment()
      requires Valid()
      modifies this
      ensures Valid()
      ensures quantity == old(quantity) + 1
      ensures selectedSize == old(selectedSize) && product == old(product)
    {
      quantity := quantity + 1;
    }

    /**
     * `handleAddToCart`: without a size it alerts and the cart is
     * untouched; otherwise the product is added with the chosen size and
     * quantity, and the cart count grows by that quantity.
     */
    method HandleAddToCart(cart: Cart) returns (outcome: AddOutcome)
      requires Valid() && cart.Valid()
      modifies cart
      ensures cart.Valid()
      ensures outcome == Alerted <==> selectedSize == ""
      ensures outcome == Alerted ==> cart.lines == old(cart.lines) && cart.isCartOpen == old(cart.isCartOpen)
      ensures outcome == AddedToCart ==>
        cart.lines == CartStore.Added(old(cart.lines), Line(product, selectedSize, quantity)) && cart.isCartOpen
      ensures outcome == AddedToCart ==> cart.CartCount() == old(cart.CartCount()) + quantity
      ensures outcome == AddedToCart && SizeOffered() ==> selectedSize in product.sizes
      ensures PositiveQuantities(old(cart.lines)) ==> PositiveQuantities(cart.lines)
    {
      if selectedSize == "" {
        return Alerted;
      }
      var line := Line(product, selectedSize, quantity);
      if PositiveQuantities(cart.lines) {
        PositiveQuantitiesKept(cart.lines, line, product.id, selectedSize, quantity);
      }
      cart.AddToCart(line);
      outcome := AddedToCart;
    }
  }

  /**
   * A size chosen on one product survives a link to a product that does
   * not offer it, and is added to the cart with the new product.
   */
  method StaleSizeIsAdded(a: Product, b: Product, cart: Cart) returns (outcome: AddOutcome)
    requires "M" in a.sizes && "M" !in b.sizes && cart.Valid()
    modifies cart
    ensures cart.Valid()
    ensures outcome == AddedToCart
    ensures cart.lines == CartStore.Added(old(cart.lines), Line(b, "M", 1))
  {
    var page := new DetailPage(a);
    page.SelectSize("M");
    page.ShowProduct(b);
    outcome := page.HandleAddToCart(cart);
  }
}
