/**
 * One row of the cart, `src/components/cart/CartItem.jsx`: a local
 * quantity stepper that clamps at 1 and forwards every change to the
 * `onUpdateQuantity` callback, and a remove button that calls `onRemove`.
 *
 * The two callbacks are whatever the parent passes.  The cart page passes
 * the store's `updateQuantity` and `removeFromCart`; the mini cart renders
 * the row with neither, so calling them throws a `TypeError` and the store
 * never sees the change.
 */
module CartItem {
  import opened Catalog
  import opened CartStore

  /** The price shown on the row: that line's share of `cartTotal`. */
  function LinePrice(item: Line): (r: int)
    ensures r == Total([item])
    ensures item.product.price >= 0 && item.quantity >= 1 ==> r >= item.product.price
  {
    item.product.price * item.quantity
  }

  /**
   * How the parent renders the row: with the store's updaters as
   * `onUpdateQuantity` and `onRemove` (the cart page), or without either
   * callback (the mini cart).
   */
  datatype Wiring = StoreCallbacks | NoCallbacks

  /** How a handler ends: normally, or with the `TypeError` of calling an undefined callback. */
  datatype HandlerResult = Done | ThrewTypeError

  /** The store's lines after the row asks for quantity `n`. */
  function StoreAfterQuantityChange(wiring: Wiring, lines: seq<Line>, item: Line, n: int): seq<Line>
  {
    if wiring == StoreCallbacks then Updated(lines, item.product.id, item.selectedSize, AtLeastOne(n)) else lines
  }

  /** The store's lines after the row's remove button. */
  function StoreAfterRemove(wiring: Wiring, lines: seq<Line>, item: Line): seq<Line>
  {
    if wiring == StoreCallbacks then Removed(lines, item.product.id, item.selectedSize) else lines
  }

  /**
   * As the mini cart renders it: the row's stepper goes from 1 to 3, but
   * the store still holds quantity 1 under the row's key, so the badge and
   * the subtotal disagree with the row.
   */
  lemma MiniCartChangeIsLost(item: Line)
    requires item.quantity == 1
    ensures QuantityOf(StoreAfterQuantityChange(NoCallbacks, [item], item, 3), item.product.id, item.selectedSize) == 1
    ensures HasKey(StoreAfterRemove(NoCallbacks, [item], item), item.product.id, item.selectedSize)
  {
    assert SameKey([item][0], item.product.id, item.selectedSize);
  }

  /**
   * Wired to the store, as the cart page does it: the store's quantity
   * under the row's key becomes the value the row shows, and remove takes
   * the key out of the cart.
   */
  lemma WiredChangeReachesStore(lines: seq<Line>, item: Line, n: int)
    requires UniqueKeys(lines) && HasKey(lines, item.product.id, item.selectedSize)
    ensures QuantityOf(StoreAfterQuantityChange(StoreCallbacks, lines, item, n), item.product.id, item.selectedSize)
         == AtLeastOne(n)
    ensures !HasKey(StoreAfterRemove(StoreCallbacks, lines, item), item.product.id, item.selectedSize)
  {
    UpdateQuantityOf(lines, item.product.id, item.selectedSize, AtLeastOne(n));
  }

  /** The row's local state; `item` is the cart line it was created for. */
  class CartItemView {
    const item: Line
    const wiring: Wiring
    var quantity: int

    constructor (item: Line, wiring: Wiring)
      ensures this.item == item && this.wiring == wiring && quantity == item.quantity
    {
      this.item := item;
      this.wiring := wiring;
      quantity := item.quantity;
    }

    /**
     * `handleQuantityChange`: the local quantity becomes `max(1, n)`, then
     * the same value is sent to `onUpdateQuantity` under the row's id and
     * size; without that callback the call throws and the store is
     * unchanged.
     */
    method HandleQuantityChange(newQuantity: int, cart: Cart) returns (result: HandlerResult)
      requires cart.Valid()
      modifies this, cart
      ensures cart.Valid()
      ensures quantity == AtLeastOne(newQuantity)
      ensures result == Done <==> wiring == StoreCallbacks
      ensures cart.lines == StoreAfterQuantityChange(wiring, old(cart.lines), item, newQuantity)
      ensures wiring == StoreCallbacks ==>
        forall i :: 0 <= i < |cart.lines| && SameKey(cart.lines[i], item.product.id, item.selectedSize) ==>
          cart.lines[i].quantity == quantity
      ensures cart.isCartOpen == old(cart.isCartOpen)
    {
      var updatedQuantity := AtLeastOne(newQuantity);
      quantity := updatedQuantity;
      if wiring == NoCallbacks {
        return ThrewTypeError;
      }
      UpdateSpec(cart.lines, item.product.id, item.selectedSize, updatedQuantity);
      cart.UpdateQuantity(item.product.id, item.selectedSize, updatedQuantity);
      result := Done;
    }

    /** The `-` button: never below 1. */
    method Decrement(cart: Cart) returns (result: HandlerResult)
      requires cart.Valid()
      modifies this, cart
      ensures cart.Valid()
      ensures quantity == if old(quantity) <= 1 then 1 else old(quantity) - 1
      ensures result == Done <==> wiring == StoreCallbacks
      ensures cart.lines == StoreAfterQuantityChange(wiring, old(cart.lines), item, quantity)
      ensures cart.isCartOpen == old(cart.isCartOpen)
    {
      result := HandleQuantityChange(quantity - 1, cart);
    }

    /** The `+` button: one more, for any quantity the row can hold. */
    method Increment(cart: Cart) returns (result: HandlerResult)
      requires cart.Valid()
      modifies this, cart
      ensures cart.Valid()
      ensures old(quantity) >= 0 ==> quantity == old(quantity) + 1
      ensures quantity >= 1
      ensures result == Done <==> wiring == StoreCallbacks
      ensures cart.lines == StoreAfterQuantityChange(wiring, old(cart.lines), item, quantity)
      ensures cart.isCartOpen == old(cart.isCartOpen)
    {
      result := HandleQuantityChange(quantity + 1, cart);
    }

    /** The remove button: `onRemove(item.id, item.selectedSize)`. */
    method Remove(cart: Cart) returns (result: HandlerResult)
      requires cart.Valid()
      modifies cart
      ensures cart.Valid()
      ensures result == Done <==> wiring == StoreCallbacks
      ensures cart.lines == StoreAfterRemove(wiring, old(cart.lines), item)
      ensures wiring == StoreCallbacks ==> !HasKey(cart.lines, item.product.id, item.selectedSize)
      ensures cart.isCartOpen == old(cart.isCartOpen)
    {
      if wiring == NoCallbacks {
        return ThrewTypeError;
      }
      cart.RemoveFromCart(item.product.id, item.selectedSize);
      result := Done;
    }
  }
}
