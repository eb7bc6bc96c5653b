/** The browser's shopping cart: an object from product id to an entry
    holding that id and a quantity, kept in local storage, with a fixed
    catalogue that prices it. The `ShoppingCart` class stands for the stored
    cart; each operation reads it, changes it in place and writes it back. */
module Cart {
  import opened Wrappers

  datatype CartItem = CartItem(id: int, quantity: int)

  datatype CatalogueEntry = CatalogueEntry(id: int, name: string, price: int, image: string, category: string)

  /** The built-in product table. */
  const Catalogue: map<int, CatalogueEntry> := map[
    1 := CatalogueEntry(1, "IMPETO Leather Jacket", 128000, "assets/products/product_jacket_1770300090044.png", "Outerwear"),
    2 := CatalogueEntry(2, "IMPETO Signature Hoodie", 48000, "assets/products/product_hoodie_1770300104061.png", "Tops"),
    3 := CatalogueEntry(3, "IMPETO Essential Tee", 18000, "assets/products/product_tshirt_1770300121576.png", "Tops"),
    4 := CatalogueEntry(4, "IMPETO Cargo Pants", 58000, "assets/products/product_pants_1770300139239.png", "Bottoms")]

  /** Every entry sits under its own id and holds at least one piece. */
  predicate WellFormed(m: map<int, CartItem>) {
    forall k :: k in m ==> m[k].id == k && m[k].quantity >= 1
  }

  // ---------------------------------------------------------------------
  // Sums over the entries, in no particular order

  ghost function SumOver(m: map<int, CartItem>, f: CartItem -> int): int
    decreases |m|
  {
    if m == map[] then 0
    else
      assert exists k :: k in m by {
        if forall k :: k !in m { assert false; }
      }
      var k :| k in m;
      f(m[k]) + SumOver(m - {k}, f)
  }

  /** The sum does not depend on which entry is taken first. */
  lemma {:induction false} SumOverPick(m: map<int, CartItem>, f: CartItem -> int, k: int)
    requires k in m
    ensures SumOver(m, f) == f(m[k]) + SumOver(m - {k}, f)
    decreases |m|
  {
    var j :| j in m && SumOver(m, f) == f(m[j]) + SumOver(m - {j}, f);
    if j != k {
      assert (m - {j}) - {k} == (m - {k}) - {j};
      SumOverPick(m - {j}, f, k);
      SumOverPick(m - {k}, f, j);
    }
  }

  /** Replacing or adding the entry under `k` changes the sum by the difference. */
  lemma SumOverUpdate(m: map<int, CartItem>, f: CartItem -> int, k: int, v: CartItem)
    ensures SumOver(m[k := v], f) == SumOver(m - {k}, f) + f(v)
    ensures k in m ==> SumOver(m[k := v], f) == SumOver(m, f) - f(m[k]) + f(v)
  {
    SumOverPick(m[k := v], f, k);
    assert m[k := v] - {k} == m - {k};
    if k in m {
      SumOverPick(m, f, k);
    }
  }

  function Quantity(item: CartItem): int {
    item.quantity
  }

  /** An entry's share of the subtotal: price times quantity for a
      catalogued product, nothing for an unknown id. */
  function LineTotal(item: CartItem): (t: int)
    ensures item.id !in Catalogue ==> t == 0
    ensures item.id in Catalogue ==> t == Catalogue[item.id].price * item.quantity
  {
    if item.id in Catalogue then Catalogue[item.id].price * item.quantity else 0
  }

  /** The number shown on the cart badge. */
  ghost function Count(m: map<int, CartItem>): int {
    SumOver(m, Quantity)
  }

  ghost function Subtotal(m: map<int, CartItem>): int {
    SumOver(m, LineTotal)
  }

  // ---------------------------------------------------------------------
  // The operations on the stored cart

  /** `addToCart`: a present entry gains one piece, a missing one is created with one. */
  function Added(m: map<int, CartItem>, productId: int): (r: map<int, CartItem>)
    ensures r.Keys == m.Keys + {productId}
    ensures productId in m ==> r[productId] == m[productId].(quantity := m[productId].quantity + 1)
    ensures productId !in m ==> r[productId] == CartItem(productId, 1)
    ensures forall k :: k in m && k != productId ==> r[k] == m[k]
    ensures WellFormed(m) ==> WellFormed(r)
  {
    if productId in m then m[productId := m[productId].(quantity := m[productId].quantity + 1)]
    else m[productId := CartItem(productId, 1)]
  }

  /** `changeQuantity`: a missing entry is left alone; otherwise the
      quantity moves by `delta` and an entry that reaches zero or less is removed. */
  function Changed(m: map<int, CartItem>, productId: int, delta: int): (r: map<int, CartItem>)
    ensures productId !in m ==> r == m
    ensures productId in m && m[productId].quantity + delta <= 0 ==> r == m - {productId}
    ensures productId in m && m[productId].quantity + delta > 0 ==>
      r == m[productId := m[productId].(quantity := m[productId].quantity + delta)]
    ensures WellFormed(m) ==> WellFormed(r)
  {
    if productId !in m then m
    else
      var q := m[productId].quantity + delta;
      if q <= 0 then m - {productId} else m[productId := m[productId].(quantity := q)]
  }

  /** `removeFromCart`: exactly that key goes; a missing key changes nothing. */
  function Removed(m: map<int, CartItem>, productId: int): (r: map<int, CartItem>)
    ensures r.Keys == m.Keys - {productId}
    ensures forall k :: k in r ==> r[k] == m[k]
    ensures productId !in m ==> r == m
    ensures WellFormed(m) ==> WellFormed(r)
  {
    m - {productId}
  }

  // ---------------------------------------------------------------------
  // What the operations do to the count and the subtotal

  /** Adding raises the count by exactly one. */
  lemma AddRaisesCount(m: map<int, CartItem>, productId: int)
    ensures Count(Added(m, productId)) == Count(m) + 1
  {
    var r := Added(m, productId);
    if productId in m {
      SumOverUpdate(m, Quantity, productId, r[productId]);
    } else {
      SumOverUpdate(m, Quantity, productId, r[productId]);
      assert m - {productId} == m;
    }
  }

  /** Adding a catalogued product raises the subtotal by its price, an unknown id by nothing. */
  lemma AddRaisesSubtotal(m: map<int, CartItem>, productId: int)
    requires WellFormed(m)
    ensures productId in Catalogue ==> Subtotal(Added(m, productId)) == Subtotal(m) + Catalogue[productId].price
    ensures productId !in Catalogue ==> Subtotal(Added(m, productId)) == Subtotal(m)
  {
    var r := Added(m, productId);
    SumOverUpdate(m, LineTotal, productId, r[productId]);
    if productId !in m {
      assert m - {productId} == m;
    }
  }

  /** Changing a quantity moves the count by `delta`, or takes the whole
      entry away when it drops to zero or below. */
  lemma ChangeMovesCount(m: map<int, CartItem>, productId: int, delta: int)
    requires productId in m
    ensures m[productId].quantity + delta > 0 ==> Count(Changed(m, productId, delta)) == Count(m) + delta
    ensures m[productId].quantity + delta <= 0 ==> Count(Changed(m, productId, delta)) == Count(m) - m[productId].quantity
  {
    var q := m[productId].quantity + delta;
    if q > 0 {
      SumOverUpdate(m, Quantity, productId, m[productId].(quantity := q));
    } else {
      SumOverPick(m, Quantity, productId);
    }
  }

  /** Removing takes the entry's whole quantity off the count. */
  lemma RemoveLowersCount(m: map<int, CartItem>, productId: int)
    ensures productId in m ==> Count(Removed(m, productId)) == Count(m) - m[productId].quantity
    ensures productId !in m ==> Count(Removed(m, productId)) == Count(m)
  {
    if productId in m {
      SumOverPick(m, Quantity, productId);
    } else {
      assert m - {productId} == m;
    }
  }

  /** In a well-formed cart the count is at least the number of entries. */
  lemma {:induction false} CountAtLeastEntries(m: map<int, CartItem>)
    requires WellFormed(m)
    ensures Count(m) >= |m|
    decreases |m|
  {
    if m != map[] {
      assert exists k :: k in m by {
        if forall k :: k !in m { assert false; }
      }
      var k :| k in m;
      SumOverPick(m, Quantity, k);
      CountAtLeastEntries(m - {k});
    }
  }

  class ShoppingCart {
    /** The stored cart; an absent store reads as `{}`. */
    var items: map<int, CartItem>

    constructor()
      ensures items == map[]
    {
      items := map[];
    }

    method AddToCart(productId: int)
      modifies this
      ensures items == Added(old(items), productId)
      ensures Count(items) == Count(old(items)) + 1
      ensures WellFormed(old(items)) ==> WellFormed(items)
    {
      if productId in items {
        var item := items[productId];
        items := items[productId := item.(quantity := item.quantity + 1)];
      } else {
        items := items[productId := CartItem(productId, 1)];
      }
      AddRaisesCount(old(items), productId);
    }

    method ChangeQuantity(productId: int, delta: int)
      modifies this
      ensures items == Changed(old(items), productId, delta)
      ensures WellFormed(old(items)) ==> WellFormed(items)
    {
      if productId in items {
        var item := items[productId];
        items := items[productId := item.(quantity := item.quantity + delta)];
        if items[productId].quantity <= 0 {
          items := items - {productId};
        }
      }
    }

    method RemoveFromCart(productId: int)
      modifies this
      ensures items == Removed(old(items), productId)
      ensures WellFormed(old(items)) ==> WellFormed(items)
    {
      if productId in items {
        items := items - {productId};
      }
    }

    /** `updateCartCount`: the quantities added up entry by entry. */
    method CartCount() returns (total: int)
      ensures total == Count(items)
    {
      total := 0;
      var rest := items;
      while rest != map[]
        invariant total + SumOver(rest, Quantity) == Count(items)
        decreases |rest|
      {
        var k :| k in rest;
        SumOverPick(rest, Quantity, k);
        total := total + rest[k].quantity;
        rest := rest - {k};
      }
    }

    /** The subtotal of `renderCart`: an empty cart shows 0; otherwise each
        entry whose id is catalogued adds price times quantity. */
    method CartSubtotal() returns (subtotal: int)
      ensures subtotal == Subtotal(items)
    {
      if |items| == 0 {
        assert items == map[];
        return 0;
      }
      subtotal := 0;
      var rest := items;
      while rest != map[]
        invariant subtotal + SumOver(rest, LineTotal) == Subtotal(items)
        decreases |rest|
      {
        var k :| k in rest;
        SumOverPick(rest, LineTotal, k);
        var item := rest[k];
        if item.id in Catalogue {
          subtotal := subtotal + Catalogue[item.id].price * item.quantity;
        }
        rest := rest - {k};
      }
    }
  }
}
