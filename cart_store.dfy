/**
 * The cart store of `src/hooks/useCart.jsx`: a list of cart lines keyed by
 * (product id, selected size), the operations that replace that list, the
 * two aggregates computed from it, and the store's `isCartOpen` flag,
 * which no component reads (the header keeps a flag of its own).
 *
 * Each operation is specified by a pure function on the list (the updater
 * the source hands to `setCart`); the `Cart` class holds the state the
 * provider keeps and ties each method to its function.
 */
module CartStore {
  import opened Seqs
  import opened Catalog

  /** A cart line: the product record with `selectedSize` and `quantity` added. */
  datatype Line = Line(product: Product, selectedSize: string, quantity: int)

  /** `Math.max(1, n)`, the clamp used for every quantity the user sets. */
  function AtLeastOne(n: int): (r: int)
    ensures r >= 1 && r >= n
    ensures r == 1 || r == n
  {
    if n < 1 then 1 else n
  }

  /** `item.id === productId && item.selectedSize === size`. */
  predicate SameKey(l: Line, id: string, size: string)
  {
    l.product.id == id && l.selectedSize == size
  }

  /** `currentCart.find(...)` succeeds. */
  predicate HasKey(lines: seq<Line>, id: string, size: string)
  {
    exists i :: 0 <= i < |lines| && SameKey(lines[i], id, size)
  }

  /** No two lines share (id, selectedSize): the store's invariant. */
  predicate UniqueKeys(lines: seq<Line>)
  {
    forall i, j :: 0 <= i < j < |lines| ==> !SameKey(lines[j], lines[i].product.id, lines[i].selectedSize)
  }

  predicate NonNegativeQuantities(lines: seq<Line>)
  {
    forall i :: 0 <= i < |lines| ==> lines[i].quantity >= 0
  }

  /** No line has a negative price or quantity. */
  predicate NonNegativeLines(lines: seq<Line>)
  {
    forall i :: 0 <= i < |lines| ==> lines[i].product.price >= 0 && lines[i].quantity >= 0
  }

  predicate PositiveQuantities(lines: seq<Line>)
  {
    forall i :: 0 <= i < |lines| ==> lines[i].quantity >= 1
  }

  /**
   * `currentCart.map(item => matches ? { ...item, quantity: g(item.quantity) } : item)`,
   * the map shared by the merge in `addToCart` and by `updateQuantity`.
   */
  function Requantified(lines: seq<Line>, id: string, size: string, g: int -> int): seq<Line>
  {
    if lines == [] then []
    else
      var l := lines[0];
      [if SameKey(l, id, size) then l.(quantity := g(l.quantity)) else l]
      + Requantified(lines[1..], id, size, g)
  }

  /** The updater of `addToCart`: merge into the line with the same key, or append. */
  function Added(lines: seq<Line>, item: Line): (r: seq<Line>)
    ensures HasKey(r, item.product.id, item.selectedSize)
    ensures |r| == if HasKey(lines, item.product.id, item.selectedSize) then |lines| else |lines| + 1
  {
    var id, size := item.product.id, item.selectedSize;
    var g := q => q + item.quantity;
    if HasKey(lines, id, size) then
      RequantifiedAt(lines, id, size, g);
      var i :| 0 <= i < |lines| && SameKey(lines[i], id, size);
      assert SameKey(Requantified(lines, id, size, g)[i], id, size);
      Requantified(lines, id, size, g)
    else
      assert SameKey((lines + [item])[|lines|], id, size);
      lines + [item]
  }

  /** The updater of `removeFromCart`. */
  function Removed(lines: seq<Line>, id: string, size: string): (r: seq<Line>)
    ensures !HasKey(r, id, size)
    ensures IsSubsequence(r, lines)
  {
    var keep := l => !SameKey(l, id, size);
    FilterMembers(keep, lines);
    FilterIsSubsequence(keep, lines);
    assert forall i :: 0 <= i < |Filter(keep, lines)| ==> Filter(keep, lines)[i] in Filter(keep, lines);
    Filter(keep, lines)
  }

  /** The updater of `updateQuantity`. */
  function Updated(lines: seq<Line>, id: string, size: string, n: int): (r: seq<Line>)
    ensures |r| == |lines|
    ensures forall i :: 0 <= i < |r| && SameKey(r[i], id, size) ==> r[i].quantity == AtLeastOne(n)
  {
    var g := q => AtLeastOne(n);
    RequantifiedAt(lines, id, size, g);
    Requantified(lines, id, size, g)
  }

  /** `cart.reduce((total, item) => total + item.price * item.quantity, 0)`. */
  function Total(lines: seq<Line>): (r: int)
    ensures NonNegativeLines(lines) ==> r >= 0
  {
    if lines == [] then 0 else lines[0].product.price * lines[0].quantity + Total(lines[1..])
  }

  /** `cart.reduce((count, item) => count + item.quantity, 0)`. */
  function Count(lines: seq<Line>): (r: int)
    ensures NonNegativeQuantities(lines) ==> r >= 0
  {
    if lines == [] then 0 else lines[0].quantity + Count(lines[1..])
  }

  /** The quantity held under one key, summed over the lines that carry it. */
  function QuantityOf(lines: seq<Line>, id: string, size: string): int
  {
    if lines == [] then 0
    else (if SameKey(lines[0], id, size) then lines[0].quantity else 0) + QuantityOf(lines[1..], id, size)
  }

  /** How many lines carry the key. */
  function MatchCount(lines: seq<Line>, id: string, size: string): nat
  {
    if lines == [] then 0
    else (if SameKey(lines[0], id, size) then 1 else 0) + MatchCount(lines[1..], id, size)
  }

  // ---------------------------------------------------------------------
  // Helper facts

  lemma {:induction false} RequantifiedAt(lines: seq<Line>, id: string, size: string, g: int -> int)
    ensures |Requantified(lines, id, size, g)| == |lines|
    ensures forall i :: 0 <= i < |lines| ==>
      Requantified(lines, id, size, g)[i]
        == if SameKey(lines[i], id, size) then lines[i].(quantity := g(lines[i].quantity)) else lines[i]
  {
    if lines != [] {
      RequantifiedAt(lines[1..], id, size, g);
    }
  }

  lemma {:induction false} NoKeyNoMatch(lines: seq<Line>, id: string, size: string)
    requires !HasKey(lines, id, size)
    ensures MatchCount(lines, id, size) == 0 && QuantityOf(lines, id, size) == 0
  {
    if lines != [] {
      assert !SameKey(lines[0], id, size);
      assert !HasKey(lines[1..], id, size) by {
        forall i | 0 <= i < |lines[1..]| ensures !SameKey(lines[1..][i], id, size) {
          assert lines[1..][i] == lines[i + 1];
        }
      }
      NoKeyNoMatch(lines[1..], id, size);
    }
  }

  /** With unique keys a present key is carried by exactly one line. */
  lemma {:induction false} UniqueKeyMatchesOnce(lines: seq<Line>, id: string, size: string)
    requires UniqueKeys(lines) && HasKey(lines, id, size)
    ensures MatchCount(lines, id, size) == 1
  {
    var rest := lines[1..];
    assert UniqueKeys(rest) by {
      forall i, j | 0 <= i < j < |rest|
        ensures !SameKey(rest[j], rest[i].product.id, rest[i].selectedSize)
      {
        assert rest[i] == lines[i + 1] && rest[j] == lines[j + 1];
      }
    }
    if SameKey(lines[0], id, size) {
      assert !HasKey(rest, id, size) by {
        forall j | 0 <= j < |rest| ensures !SameKey(rest[j], id, size) {
          assert rest[j] == lines[j + 1];
        }
      }
      NoKeyNoMatch(rest, id, size);
    } else {
      var i :| 0 <= i < |lines| && SameKey(lines[i], id, size);
      assert SameKey(rest[i - 1], id, size);
      UniqueKeyMatchesOnce(rest, id, size);
    }
  }

  lemma {:induction false} CountRequantified(lines: seq<Line>, id: string, size: string, d: int)
    ensures Count(Requantified(lines, id, size, q => q + d)) == Count(lines) + d * MatchCount(lines, id, size)
    ensures QuantityOf(Requantified(lines, id, size, q => q + d), id, size)
         == QuantityOf(lines, id, size) + d * MatchCount(lines, id, size)
  {
    if lines != [] {
      CountRequantified(lines[1..], id, size, d);
      var m := MatchCount(lines[1..], id, size);
      if SameKey(lines[0], id, size) {
        assert d * (1 + m) == d + d * m;
      }
    }
  }

  /** The arithmetic step of `TotalRequantified`. */
  lemma ShiftedProduct(p: int, q: int, d: int, price: int, m: int)
    requires p == price
    ensures p * (q + d) == p * q + price * d
    ensures price * d * (1 + m) == price * d + price * d * m
  {
  }

  lemma {:induction false} TotalRequantified(lines: seq<Line>, id: string, size: string, d: int, price: int)
    requires forall i :: 0 <= i < |lines| && SameKey(lines[i], id, size) ==> lines[i].product.price == price
    ensures Total(Requantified(lines, id, size, q => q + d)) == Total(lines) + price * d * MatchCount(lines, id, size)
  {
    if lines != [] {
      assert forall i :: 1 <= i < |lines| ==> lines[1..][i - 1] == lines[i];
      TotalRequantified(lines[1..], id, size, d, price);
      var m := MatchCount(lines[1..], id, size);
      var l := lines[0];
      var g := q => q + d;
      var rest := Requantified(lines[1..], id, size, g);
      assert Requantified(lines, id, size, g) == [if SameKey(l, id, size) then l.(quantity := g(l.quantity)) else l] + rest;
      assert ([if SameKey(l, id, size) then l.(quantity := g(l.quantity)) else l] + rest)[1..] == rest;
      if SameKey(l, id, size) {
        ShiftedProduct(l.product.price, l.quantity, d, price, m);
      }
    }
  }

  lemma {:induction false} OtherKeyUntouched(lines: seq<Line>, id: string, size: string, g: int -> int, id2: string, size2: string)
    requires id2 != id || size2 != size
    ensures QuantityOf(Requantified(lines, id, size, g), id2, size2) == QuantityOf(lines, id2, size2)
  {
    if lines != [] {
      OtherKeyUntouched(lines[1..], id, size, g, id2, size2);
    }
  }

  lemma {:induction false} SumsAppend(a: seq<Line>, b: seq<Line>, id: string, size: string)
    ensures Count(a + b) == Count(a) + Count(b)
    ensures Total(a + b) == Total(a) + Total(b)
    ensures QuantityOf(a + b, id, size) == QuantityOf(a, id, size) + QuantityOf(b, id, size)
    ensures MatchCount(a + b, id, size) == MatchCount(a, id, size) + MatchCount(b, id, size)
  {
    if a == [] {
      assert a + b == b;
    } else {
      SumsAppend(a[1..], b, id, size);
      assert (a + b)[1..] == a[1..] + b;
    }
  }

  lemma UniqueKeysCons(l: Line, t: seq<Line>)
    requires forall m :: m in t ==> !SameKey(m, l.product.id, l.selectedSize)
    requires UniqueKeys(t)
    ensures UniqueKeys([l] + t)
  {
    var s := [l] + t;
    forall i, j | 0 <= i < j < |s| ensures !SameKey(s[j], s[i].product.id, s[i].selectedSize) {
      assert s[j] == t[j - 1];
      if i > 0 { assert s[i] == t[i - 1]; } else { assert s[j] in t; }
    }
  }

  lemma {:induction false} FilterKeepsUniqueKeys(f: Line -> bool, lines: seq<Line>)
    requires UniqueKeys(lines)
    ensures UniqueKeys(Filter(f, lines))
  {
    if lines != [] {
      var rest := lines[1..];
      assert UniqueKeys(rest) by {
        forall i, j | 0 <= i < j < |rest|
          ensures !SameKey(rest[j], rest[i].product.id, rest[i].selectedSize)
        {
          assert rest[i] == lines[i + 1] && rest[j] == lines[j + 1];
        }
      }
      FilterKeepsUniqueKeys(f, rest);
      if f(lines[0]) {
        FilterMembers(f, rest);
        forall m | m in Filter(f, rest) ensures !SameKey(m, lines[0].product.id, lines[0].selectedSize) {
          var j :| 0 <= j < |rest| && rest[j] == m;
          assert lines[j + 1] == m;
        }
        UniqueKeysCons(lines[0], Filter(f, rest));
      }
    }
  }

  lemma {:induction false} CountRemoved(lines: seq<Line>, id: string, size: string)
    ensures Count(Removed(lines, id, size)) == Count(lines) - QuantityOf(lines, id, size)
  {
    if lines != [] {
      CountRemoved(lines[1..], id, size);
      var rest := Removed(lines[1..], id, size);
      if SameKey(lines[0], id, size) {
        assert Removed(lines, id, size) == rest;
      } else {
        assert Removed(lines, id, size) == [lines[0]] + rest;
        assert ([lines[0]] + rest)[1..] == rest;
      }
    }
  }

  // ---------------------------------------------------------------------
  // The properties of the store

  /**
   * `addToCart`: with a line of the same key present, the list keeps its
   * length and that line's quantity grows by the added quantity, every
   * other line unchanged; otherwise the item is appended.  Either way the
   * key is present afterwards.
   */
  lemma AddSpec(lines: seq<Line>, item: Line)
    ensures HasKey(lines, item.product.id, item.selectedSize) ==>
      |Added(lines, item)| == |lines| &&
      forall i :: 0 <= i < |lines| ==>
        Added(lines, item)[i] ==
          if SameKey(lines[i], item.product.id, item.selectedSize)
          then lines[i].(quantity := lines[i].quantity + item.quantity)
          else lines[i]
    ensures !HasKey(lines, item.product.id, item.selectedSize) ==>
      Added(lines, item) == lines + [item]
    ensures HasKey(Added(lines, item), item.product.id, item.selectedSize)
  {
    var id, size := item.product.id, item.selectedSize;
    if HasKey(lines, id, size) {
      RequantifiedAt(lines, id, size, q => q + item.quantity);
      var i :| 0 <= i < |lines| && SameKey(lines[i], id, size);
      assert SameKey(Added(lines, item)[i], id, size);
    } else {
      assert SameKey(Added(lines, item)[|lines|], id, size);
    }
  }

  /** `addToCart` keeps keys unique. */
  lemma AddKeepsKeysUnique(lines: seq<Line>, item: Line)
    requires UniqueKeys(lines)
    ensures UniqueKeys(Added(lines, item))
  {
    var id, size := item.product.id, item.selectedSize;
    if HasKey(lines, id, size) {
      RequantifiedAt(lines, id, size, q => q + item.quantity);
    }
  }

  /**
   * `addToCart` raises `cartCount` by the added quantity, and the quantity
   * under the item's key by the same amount, leaving one line with that key
   * and every other key's quantity unchanged.
   */
  lemma AddCount(lines: seq<Line>, item: Line)
    requires UniqueKeys(lines)
    ensures Count(Added(lines, item)) == Count(lines) + item.quantity
    ensures QuantityOf(Added(lines, item), item.product.id, item.selectedSize)
         == QuantityOf(lines, item.product.id, item.selectedSize) + item.quantity
    ensures MatchCount(Added(lines, item), item.product.id, item.selectedSize) == 1
    ensures forall id2, size2 :: id2 != item.product.id || size2 != item.selectedSize ==>
      QuantityOf(Added(lines, item), id2, size2) == QuantityOf(lines, id2, size2)
  {
    var id, size := item.product.id, item.selectedSize;
    AddKeepsKeysUnique(lines, item);
    AddSpec(lines, item);
    UniqueKeyMatchesOnce(Added(lines, item), id, size);
    if HasKey(lines, id, size) {
      UniqueKeyMatchesOnce(lines, id, size);
      CountRequantified(lines, id, size, item.quantity);
      forall id2, size2 | id2 != id || size2 != size
        ensures QuantityOf(Added(lines, item), id2, size2) == QuantityOf(lines, id2, size2)
      {
        OtherKeyUntouched(lines, id, size, q => q + item.quantity, id2, size2);
      }
    } else {
      SumsAppend(lines, [item], id, size);
      forall id2, size2 | id2 != id || size2 != size
        ensures QuantityOf(Added(lines, item), id2, size2) == QuantityOf(lines, id2, size2)
      {
        SumsAppend(lines, [item], id2, size2);
      }
    }
  }

  /**
   * `addToCart` raises `cartTotal` by price times quantity, where the
   * existing line under the key (if any) has the item's price.
   */
  lemma AddTotal(lines: seq<Line>, item: Line)
    requires UniqueKeys(lines)
    requires forall i :: 0 <= i < |lines| && SameKey(lines[i], item.product.id, item.selectedSize) ==>
      lines[i].product.price == item.product.price
    ensures Total(Added(lines, item)) == Total(lines) + item.product.price * item.quantity
  {
    var id, size := item.product.id, item.selectedSize;
    if HasKey(lines, id, size) {
      UniqueKeyMatchesOnce(lines, id, size);
      TotalRequantified(lines, id, size, item.quantity, item.product.price);
    } else {
      SumsAppend(lines, [item], id, size);
    }
  }

  /**
   * `removeFromCart` keeps exactly the lines without the key, in their
   * order; it lowers `cartCount` by the quantity under the key; with no
   * matching line the cart is unchanged; keys stay unique.
   */
  lemma RemoveSpec(lines: seq<Line>, id: string, size: string)
    ensures IsSubsequence(Removed(lines, id, size), lines)
    ensures forall l :: l in Removed(lines, id, size) <==> l in lines && !SameKey(l, id, size)
    ensures !HasKey(Removed(lines, id, size), id, size)
    ensures !HasKey(lines, id, size) ==> Removed(lines, id, size) == lines
    ensures Count(Removed(lines, id, size)) == Count(lines) - QuantityOf(lines, id, size)
    ensures UniqueKeys(lines) ==> UniqueKeys(Removed(lines, id, size))
  {
    var f := (l: Line) => !SameKey(l, id, size);
    FilterMembers(f, lines);
    FilterIsSubsequence(f, lines);
    var r := Removed(lines, id, size);
    assert forall i :: 0 <= i < |r| ==> r[i] in r;
    if !HasKey(lines, id, size) {
      forall l | l in lines ensures f(l) {
        var i :| 0 <= i < |lines| && lines[i] == l;
      }
      FilterKeepsAll(f, lines);
    }
    CountRemoved(lines, id, size);
    if UniqueKeys(lines) {
      FilterKeepsUniqueKeys(f, lines);
    }
  }

  /**
   * `updateQuantity` sets each matching line's quantity to `max(1, n)`,
   * keeps the length and every other line, is a no-op without a match,
   * and keeps keys unique and quantities positive.
   */
  lemma UpdateSpec(lines: seq<Line>, id: string, size: string, n: int)
    ensures |Updated(lines, id, size, n)| == |lines|
    ensures forall i :: 0 <= i < |lines| ==>
      Updated(lines, id, size, n)[i] ==
        if SameKey(lines[i], id, size) then lines[i].(quantity := AtLeastOne(n)) else lines[i]
    ensures !HasKey(lines, id, size) ==> Updated(lines, id, size, n) == lines
    ensures UniqueKeys(lines) ==> UniqueKeys(Updated(lines, id, size, n))
    ensures PositiveQuantities(lines) ==> PositiveQuantities(Updated(lines, id, size, n))
  {
    RequantifiedAt(lines, id, size, q => AtLeastOne(n));
  }

  /** After an update of a present key, the quantity under that key is `max(1, n)`. */
  lemma UpdateQuantityOf(lines: seq<Line>, id: string, size: string, n: int)
    requires UniqueKeys(lines) && HasKey(lines, id, size)
    ensures QuantityOf(Updated(lines, id, size, n), id, size) == AtLeastOne(n)
  {
    UniqueKeyMatchesOnce(lines, id, size);
    SetQuantityOnce(lines, id, size, AtLeastOne(n));
  }

  lemma {:induction false} SetQuantityOnce(lines: seq<Line>, id: string, size: string, v: int)
    requires MatchCount(lines, id, size) == 1
    ensures QuantityOf(Requantified(lines, id, size, q => v), id, size) == v
  {
    if !SameKey(lines[0], id, size) {
      SetQuantityOnce(lines[1..], id, size, v);
    } else {
      assert !HasKey(lines[1..], id, size) by {
        if HasKey(lines[1..], id, size) {
          var i :| 0 <= i < |lines[1..]| && SameKey(lines[1..][i], id, size);
          MatchCountPositive(lines[1..], id, size, i);
        }
      }
      NoKeyNoMatch(Requantified(lines[1..], id, size, q => v), id, size) by {
        RequantifiedAt(lines[1..], id, size, q => v);
      }
    }
  }

  lemma {:induction false} MatchCountPositive(lines: seq<Line>, id: string, size: string, i: nat)
    requires i < |lines| && SameKey(lines[i], id, size)
    ensures MatchCount(lines, id, size) >= 1
  {
    if i > 0 {
      MatchCountPositive(lines[1..], id, size, i - 1);
    }
  }

  /**
   * Positive quantities stay positive: adding a positive quantity, removing
   * and updating (which clamps to 1) all keep every line at 1 or more.
   */
  lemma PositiveQuantitiesKept(lines: seq<Line>, item: Line, id: string, size: string, n: int)
    requires PositiveQuantities(lines) && item.quantity >= 1
    ensures PositiveQuantities(Added(lines, item))
    ensures PositiveQuantities(Removed(lines, id, size))
    ensures PositiveQuantities(Updated(lines, id, size, n))
  {
    assert PositiveQuantities(Added(lines, item)) by {
      AddSpec(lines, item);
    }
    assert PositiveQuantities(Removed(lines, id, size)) by {
      var r := Removed(lines, id, size);
      FilterMembers(l => !SameKey(l, id, size), lines);
      forall i | 0 <= i < |r| ensures r[i].quantity >= 1 {
        assert r[i] in r;
        var j :| 0 <= j < |lines| && lines[j] == r[i];
      }
    }
    assert PositiveQuantities(Updated(lines, id, size, n)) by {
      UpdateSpec(lines, id, size, n);
    }
  }

  /** With positive quantities, `cartCount` is at least the number of lines and `cartTotal` is non-negative for non-negative prices. */
  lemma {:induction false} AggregateBounds(lines: seq<Line>)
    requires PositiveQuantities(lines)
    ensures Count(lines) >= |lines|
    ensures (forall i :: 0 <= i < |lines| ==> lines[i].product.price >= 0) ==> Total(lines) >= 0
  {
    if lines != [] {
      assert PositiveQuantities(lines[1..]) by {
        forall i | 0 <= i < |lines[1..]| ensures lines[1..][i].quantity >= 1 {
          assert lines[1..][i] == lines[i + 1];
        }
      }
      AggregateBounds(lines[1..]);
      if forall i :: 0 <= i < |lines| ==> lines[i].product.price >= 0 {
        assert forall i :: 0 <= i < |lines[1..]| ==> lines[1..][i] == lines[i + 1];
      }
    }
  }

  // ---------------------------------------------------------------------
  // The provider's state

  /**
   * The state `CartProvider` keeps: `cart` and `isCartOpen`.  `snapshot`
   * stands for the copy the provider writes to local storage after every
   * change of `cart`.
   */
  class Cart {
    var lines: seq<Line>
    var isCartOpen: bool
    ghost var snapshot: seq<Line>

    ghost predicate Valid()
      reads this
    {
      UniqueKeys(lines) && snapshot == lines
    }

    /** A fresh provider: empty cart, `isCartOpen` false (nothing loaded from storage). */
    constructor ()
      ensures Valid()
      ensures lines == [] && !isCartOpen
    {
      lines := [];
      isCartOpen := false;
      snapshot := [];
    }

    /** `cartTotal`, recomputed from the current lines. */
    function CartTotal(): (r: int)
      reads this
      ensures (forall i :: 0 <= i < |lines| ==> lines[i].product.price >= 0) && PositiveQuantities(lines) ==> r >= 0
    {
      Total(lines)
    }

    /** `cartCount`, recomputed from the current lines. */
    function CartCount(): (r: int)
      reads this
      ensures PositiveQuantities(lines) ==> r >= |lines|
    {
      if PositiveQuantities(lines) then AggregateBounds(lines); Count(lines) else Count(lines)
    }

    method AddToCart(item: Line)
      requires Valid()
      modifies this
      ensures Valid()
      ensures lines == Added(old(lines), item)
      ensures isCartOpen
      ensures CartCount() == old(CartCount()) + item.quantity
    {
      AddKeepsKeysUnique(lines, item);
      AddCount(lines, item);
      lines := Added(lines, item);
      snapshot := lines;
      isCartOpen := true;
    }

    method RemoveFromCart(id: string, size: string)
      requires Valid()
      modifies this
      ensures Valid()
      ensures lines == Removed(old(lines), id, size)
      ensures isCartOpen == old(isCartOpen)
    {
      RemoveSpec(lines, id, size);
      lines := Removed(lines, id, size);
      snapshot := lines;
    }

    method UpdateQuantity(id: string, size: string, n: int)
      requires Valid()
      modifies this
      ensures Valid()
      ensures lines == Updated(old(lines), id, size, n)
      ensures isCartOpen == old(isCartOpen)
    {
      UpdateSpec(lines, id, size, n);
      lines := Updated(lines, id, size, n);
      snapshot := lines;
    }

    /** `setIsCartOpen`, exported by the provider; no component calls it. */
    method SetIsCartOpen(open: bool)
      requires Valid()
      modifies this
      ensures Valid()
      ensures isCartOpen == open && lines == old(lines)
    {
      isCartOpen := open;
    }
  }
}
