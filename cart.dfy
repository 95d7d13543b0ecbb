/** The cart both client stores keep (public/app.js and src/app.js): an
    array of lines, each a copy of a catalogue product with a quantity. The
    operations here are the values the stores assign to their cart. */
module Cart {
  import opened Wrappers

  /** A catalogue product of the client. `rating` is in hundredths of a star. */
  datatype Item = Item(
    id: int,
    name: string,
    description: string,
    price: int,
    category: string,
    sellerId: int,
    rating: int,
    sales: int)

  /** `{...product, quantity}`. */
  datatype CartLine = CartLine(item: Item, quantity: int)

  /** `products.find(p => p.id === id)`: the first product with that id. */
  function FindItem(products: seq<Item>, id: int): (r: Option<Item>)
    ensures r.Some? ==> r.value in products && r.value.id == id
    ensures r.None? <==> forall i :: 0 <= i < |products| ==> products[i].id != id
  {
    if products == [] then None
    else if products[0].id == id then Some(products[0])
    else FindItem(products[1..], id)
  }

  /** The position of the first line with that product id. */
  function LineIndex(cart: seq<CartLine>, id: int): (r: Option<nat>)
    ensures r.Some? ==> r.value < |cart| && cart[r.value].item.id == id
    ensures r.Some? ==> forall j :: 0 <= j < r.value ==> cart[j].item.id != id
    ensures r.None? <==> forall j :: 0 <= j < |cart| ==> cart[j].item.id != id
  {
    if cart == [] then None
    else if cart[0].item.id == id then Some(0)
    else match LineIndex(cart[1..], id)
      case None => None
      case Some(k) => Some(k + 1)
  }

  /** `cart.some(line => line.item.id === id)`. */
  predicate HasLine(cart: seq<CartLine>, id: int) {
    exists j :: 0 <= j < |cart| && cart[j].item.id == id
  }

  /** `addToCart`: nothing for an unknown product, one more of a product
      already in the cart, otherwise a new line of one at the end. */
  function AddLine(cart: seq<CartLine>, products: seq<Item>, id: int): (r: seq<CartLine>)
    ensures FindItem(products, id).None? ==> r == cart
    ensures FindItem(products, id).Some? && !HasLine(cart, id) ==> r == cart + [CartLine(FindItem(products, id).value, 1)]
    ensures FindItem(products, id).Some? && HasLine(cart, id) ==>
      var i := LineIndex(cart, id).value;
      r == cart[i := cart[i].(quantity := cart[i].quantity + 1)]
  {
    match FindItem(products, id)
    case None => cart
    case Some(p) =>
      match LineIndex(cart, id)
      case Some(i) => cart[i := cart[i].(quantity := cart[i].quantity + 1)]
      case None => cart + [CartLine(p, 1)]
  }

  /** `cart.filter(item => item.id !== id)`. */
  function RemoveLines(cart: seq<CartLine>, id: int): (r: seq<CartLine>)
    ensures !HasLine(r, id) && |r| <= |cart|
    ensures forall l :: l in r <==> l in cart && l.item.id != id
  {
    if cart == [] then []
    else if cart[0].item.id == id then RemoveLines(cart[1..], id)
    else [cart[0]] + RemoveLines(cart[1..], id)
  }

  /** `updateQuantity`: the first line of that product takes the change,
      and when its quantity is no longer positive every line of the product
      goes. */
  function ChangeQuantity(cart: seq<CartLine>, id: int, delta: int): (r: seq<CartLine>)
    ensures !HasLine(cart, id) ==> r == cart
    ensures HasLine(cart, id) ==>
      var i := LineIndex(cart, id).value;
      var q := cart[i].quantity + delta;
      r == if q <= 0 then RemoveLines(cart, id) else cart[i := cart[i].(quantity := q)]
  {
    match LineIndex(cart, id)
    case None => cart
    case Some(i) =>
      var q := cart[i].quantity + delta;
      if q <= 0 then RemoveLines(cart, id) else cart[i := cart[i].(quantity := q)]
  }

  /** `getCartCount`: the sum of the quantities. */
  function Count(cart: seq<CartLine>): int {
    if cart == [] then 0 else cart[0].quantity + Count(cart[1..])
  }

  /** `getCartTotal`: the sum of price times quantity. */
  function Total(cart: seq<CartLine>): int {
    if cart == [] then 0 else cart[0].item.price * cart[0].quantity + Total(cart[1..])
  }

  /** The sum of the quantities on the lines of one product. */
  function QuantityOf(cart: seq<CartLine>, id: int): int {
    if cart == [] then 0 else (if cart[0].item.id == id then cart[0].quantity else 0) + QuantityOf(cart[1..], id)
  }

  /** The shape the stores' operations keep: one line per product, each
      with a positive quantity. */
  predicate WellFormed(cart: seq<CartLine>) {
    (forall i, j :: 0 <= i < j < |cart| ==> cart[i].item.id != cart[j].item.id)
    && (forall i :: 0 <= i < |cart| ==> cart[i].quantity >= 1)
  }

  /** Every price in the cart is non-negative. */
  predicate PricesNonNegative(cart: seq<CartLine>) {
    forall i :: 0 <= i < |cart| ==> cart[i].item.price >= 0
  }

  lemma {:induction false} CountAppend(a: seq<CartLine>, b: seq<CartLine>)
    ensures Count(a + b) == Count(a) + Count(b) && Total(a + b) == Total(a) + Total(b)
  {
    if a == [] {
      assert a + b == b;
    } else {
      assert (a + b)[1..] == a[1..] + b;
      CountAppend(a[1..], b);
    }
  }

  /** Replacing one line changes the count and the total by that line's share. */
  lemma {:induction false} CountReplace(cart: seq<CartLine>, i: nat, l: CartLine)
    requires i < |cart|
    ensures Count(cart[i := l]) == Count(cart) - cart[i].quantity + l.quantity
    ensures Total(cart[i := l]) == Total(cart) - cart[i].item.price * cart[i].quantity + l.item.price * l.quantity
  {
    if i > 0 {
      assert cart[i := l][1..] == cart[1..][i - 1 := l];
      CountReplace(cart[1..], i - 1, l);
    }
  }

  /** Removing a product's lines takes exactly its quantity off the count. */
  lemma {:induction false} CountRemove(cart: seq<CartLine>, id: int)
    ensures Count(RemoveLines(cart, id)) == Count(cart) - QuantityOf(cart, id)
  {
    if cart != [] {
      CountRemove(cart[1..], id);
    }
  }

  /** Removal goes piece by piece, so the other lines keep their order. */
  lemma {:induction false} RemoveLinesAppend(a: seq<CartLine>, b: seq<CartLine>, id: int)
    ensures RemoveLines(a + b, id) == RemoveLines(a, id) + RemoveLines(b, id)
  {
    if a == [] {
      assert a + b == b;
    } else {
      assert (a + b)[1..] == a[1..] + b;
      RemoveLinesAppend(a[1..], b, id);
    }
  }

  /** A cart without the product is left as it is. */
  lemma {:induction false} RemoveLinesAbsent(cart: seq<CartLine>, id: int)
    requires !HasLine(cart, id)
    ensures RemoveLines(cart, id) == cart
  {
    if cart != [] {
      assert cart[0].item.id != id;
      assert !HasLine(cart[1..], id) by {
        forall j | 0 <= j < |cart[1..]| ensures cart[1..][j].item.id != id {
          assert cart[1..][j] == cart[j + 1];
        }
      }
      RemoveLinesAbsent(cart[1..], id);
    }
  }

  /** A line in front of a well-formed cart that holds none of its
      product keeps it well formed. */
  lemma ConsWellFormed(h: CartLine, rest: seq<CartLine>)
    requires WellFormed(rest) && h.quantity >= 1
    requires forall l :: l in rest ==> l.item.id != h.item.id
    ensures WellFormed([h] + rest)
  {
    var r := [h] + rest;
    forall i, j | 0 <= i < j < |r| ensures r[i].item.id != r[j].item.id {
      assert r[j] == rest[j - 1];
      if i == 0 {
        assert rest[j - 1] in rest;
      } else {
        assert r[i] == rest[i - 1];
      }
    }
  }

  lemma TailWellFormed(cart: seq<CartLine>)
    requires WellFormed(cart) && cart != []
    ensures WellFormed(cart[1..])
    ensures forall l :: l in cart[1..] ==> l.item.id != cart[0].item.id
  {
    forall l | l in cart[1..] ensures l.item.id != cart[0].item.id {
      var k :| 0 <= k < |cart[1..]| && cart[1..][k] == l;
      assert cart[k + 1] == l;
    }
  }

  lemma {:induction false} RemoveLinesKeepsWellFormed(cart: seq<CartLine>, id: int)
    requires WellFormed(cart)
    ensures WellFormed(RemoveLines(cart, id))
  {
    if cart != [] {
      TailWellFormed(cart);
      RemoveLinesKeepsWellFormed(cart[1..], id);
      if cart[0].item.id != id {
        ConsWellFormed(cart[0], RemoveLines(cart[1..], id));
      }
    }
  }

  /** Every store operation keeps the cart well formed. */
  lemma AddLineKeepsWellFormed(cart: seq<CartLine>, products: seq<Item>, id: int)
    requires WellFormed(cart)
    ensures WellFormed(AddLine(cart, products, id))
  {
    var r := AddLine(cart, products, id);
    if FindItem(products, id).Some? {
      if HasLine(cart, id) {
        var i := LineIndex(cart, id).value;
        assert r == cart[i := cart[i].(quantity := cart[i].quantity + 1)];
        assert forall k :: 0 <= k < |r| ==> r[k].item == cart[k].item && r[k].quantity >= 1;
      } else {
        assert r == cart + [CartLine(FindItem(products, id).value, 1)];
        forall i, j | 0 <= i < j < |r| ensures r[i].item.id != r[j].item.id {
          if j == |cart| {
            assert r[i] == cart[i];
          }
        }
      }
    }
  }

  lemma ChangeQuantityKeepsWellFormed(cart: seq<CartLine>, id: int, delta: int)
    requires WellFormed(cart)
    ensures WellFormed(ChangeQuantity(cart, id, delta))
  {
    if HasLine(cart, id) {
      RemoveLinesKeepsWellFormed(cart, id);
    }
  }

  /** Adding a known product adds one to the count and its line's price to
      the total. */
  lemma AddLineCounts(cart: seq<CartLine>, products: seq<Item>, id: int)
    requires FindItem(products, id).Some?
    ensures Count(AddLine(cart, products, id)) == Count(cart) + 1
    ensures !HasLine(cart, id) ==> Total(AddLine(cart, products, id)) == Total(cart) + FindItem(products, id).value.price
    ensures HasLine(cart, id) ==>
      Total(AddLine(cart, products, id)) == Total(cart) + cart[LineIndex(cart, id).value].item.price
  {
    if HasLine(cart, id) {
      OneMoreCounts(cart, LineIndex(cart, id).value);
    } else {
      NewLineCounts(cart, CartLine(FindItem(products, id).value, 1));
    }
  }

  /** One more of line `i` adds one to the count and its price to the total. */
  lemma OneMoreCounts(cart: seq<CartLine>, i: nat)
    requires i < |cart|
    ensures Count(cart[i := cart[i].(quantity := cart[i].quantity + 1)]) == Count(cart) + 1
    ensures Total(cart[i := cart[i].(quantity := cart[i].quantity + 1)]) == Total(cart) + cart[i].item.price
  {
    var p, q := cart[i].item.price, cart[i].quantity;
    var l := cart[i].(quantity := q + 1);
    CountReplace(cart, i, l);
    assert l.item.price * l.quantity == p * q + p by {
      assert p * (q + 1) == p * q + p;
    }
  }

  /** A new line of one at the end adds one to the count and its price to
      the total. */
  lemma NewLineCounts(cart: seq<CartLine>, l: CartLine)
    requires l.quantity == 1
    ensures Count(cart + [l]) == Count(cart) + 1 && Total(cart + [l]) == Total(cart) + l.item.price
  {
    CountAppend(cart, [l]);
    assert Count([l]) == 1 && Total([l]) == l.item.price;
  }

  /** A change that leaves the quantity positive moves the count by exactly
      the change; one that does not takes the product out of the cart. */
  lemma ChangeQuantityCounts(cart: seq<CartLine>, id: int, delta: int)
    requires HasLine(cart, id)
    ensures cart[LineIndex(cart, id).value].quantity + delta > 0 ==>
      Count(ChangeQuantity(cart, id, delta)) == Count(cart) + delta
    ensures cart[LineIndex(cart, id).value].quantity + delta <= 0 ==>
      !HasLine(ChangeQuantity(cart, id, delta), id)
      && Count(ChangeQuantity(cart, id, delta)) == Count(cart) - QuantityOf(cart, id)
  {
    var i := LineIndex(cart, id).value;
    var q := cart[i].quantity + delta;
    if q > 0 {
      CountReplace(cart, i, cart[i].(quantity := q));
    } else {
      CountRemove(cart, id);
    }
  }

  /** In a well-formed cart the count is at least the number of lines, and
      with non-negative prices the total is never negative. */
  lemma {:induction false} WellFormedBounds(cart: seq<CartLine>)
    requires WellFormed(cart)
    ensures Count(cart) >= |cart|
    ensures PricesNonNegative(cart) ==> Total(cart) >= 0
  {
    if cart != [] {
      assert WellFormed(cart[1..]) by {
        forall i | 0 <= i < |cart[1..]| ensures cart[1..][i] == cart[i + 1] {}
      }
      WellFormedBounds(cart[1..]);
      if PricesNonNegative(cart) {
        assert PricesNonNegative(cart[1..]) by {
          forall i | 0 <= i < |cart[1..]| ensures cart[1..][i] == cart[i + 1] {}
        }
      }
    }
  }

  /** Removing a product undoes adding it to a cart that did not hold it. */
  lemma RemoveUndoesAdd(cart: seq<CartLine>, products: seq<Item>, id: int)
    requires !HasLine(cart, id)
    ensures RemoveLines(AddLine(cart, products, id), id) == cart
  {
    RemoveLinesAbsent(cart, id);
    if FindItem(products, id).Some? {
      var l := CartLine(FindItem(products, id).value, 1);
      RemoveLinesAppend(cart, [l], id);
      assert RemoveLines([l], id) == [];
      assert cart + [] == cart;
    }
  }
}
