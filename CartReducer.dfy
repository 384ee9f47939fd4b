/**
 * The cart transitions of the restaurant detail page: adding a menu item
 * merges it into an existing line by id or appends a new line, removing
 * filters a line out, and checkout maps every line to a payload entry.
 * Prices are integral (minor currency units).
 */
module CartReducer {
  import opened Wrappers
  import opened Decimal

  /** A dish of a restaurant's menu, as the restaurant lookup returns it. */
  datatype MenuItem = MenuItem(id: string, name: string, price: int)

  /** One line of the cart: the dish's id, name and price and how many were ordered. */
  datatype CartItem = CartItem(id: string, name: string, price: int, quantity: int)

  type Cart = seq<CartItem>

  /** One line of the checkout payload; the quantity travels as decimal text. */
  datatype CheckoutCartItem = CheckoutCartItem(menuItemId: string, name: string, quantity: string)

  predicate HasId(cart: Cart, id: string)
  {
    exists i :: 0 <= i < |cart| && cart[i].id == id
  }

  predicate UniqueIds(cart: Cart)
  {
    forall i, j :: 0 <= i < j < |cart| ==> cart[i].id != cart[j].id
  }

  predicate PositiveQuantities(cart: Cart)
  {
    forall i :: 0 <= i < |cart| ==> cart[i].quantity >= 1
  }

  /** The invariant the cart keeps while it is only changed by the transitions below. */
  predicate WellFormed(cart: Cart)
  {
    UniqueIds(cart) && PositiveQuantities(cart)
  }

  function NewLine(m: MenuItem): CartItem
  {
    CartItem(m.id, m.name, m.price, 1)
  }

  function Bump(line: CartItem, id: string): CartItem
  {
    if line.id == id then line.(quantity := line.quantity + 1) else line
  }

  /**
   * Adds one of `m` to the cart: every line with `m`'s id gets one more, and
   * if there is none a line with quantity 1 is appended.
   */
  function AddToCart(cart: Cart, m: MenuItem): (r: Cart)
    ensures |r| == if HasId(cart, m.id) then |cart| else |cart| + 1
    ensures HasId(r, m.id)
    ensures forall i :: 0 <= i < |cart| ==>
      r[i].id == cart[i].id && r[i].name == cart[i].name && r[i].price == cart[i].price
    ensures forall i :: 0 <= i < |cart| ==>
      r[i].quantity == if cart[i].id == m.id then cart[i].quantity + 1 else cart[i].quantity
    ensures !HasId(cart, m.id) ==> r[|cart|] == CartItem(m.id, m.name, m.price, 1)
  {
    if HasId(cart, m.id) then
      var r := seq(|cart|, i requires 0 <= i < |cart| => Bump(cart[i], m.id));
      var k :| 0 <= k < |cart| && cart[k].id == m.id;
      assert r[k].id == m.id;
      r
    else
      assert (cart + [NewLine(m)])[|cart|].id == m.id;
      cart + [NewLine(m)]
  }

  /** Keeps, in order, the lines whose id is not `id`. */
  function RemoveFromCart(cart: Cart, id: string): (r: Cart)
    ensures |r| <= |cart|
    ensures !HasId(r, id)
    ensures forall line :: line in r <==> line in cart && line.id != id
  {
    if cart == [] then []
    else (if cart[0].id == id then [] else [cart[0]]) + RemoveFromCart(cart[1..], id)
  }

  /** The cart as the checkout request lists it: one entry per line, in cart order. */
  function CheckoutItems(cart: Cart): (r: seq<CheckoutCartItem>)
    ensures |r| == |cart|
    ensures forall i :: 0 <= i < |cart| ==>
      r[i].menuItemId == cart[i].id && r[i].name == cart[i].name
      && ParseInt(r[i].quantity) == Some((cart[i].quantity, ""))
  {
    var r := seq(|cart|, i requires 0 <= i < |cart| =>
      CheckoutCartItem(cart[i].id, cart[i].name, IntToString(cart[i].quantity)));
    forall i | 0 <= i < |cart|
      ensures ParseInt(r[i].quantity) == Some((cart[i].quantity, ""))
    {
      IntToStringRoundTrip(cart[i].quantity, "");
      assert IntToString(cart[i].quantity) + "" == IntToString(cart[i].quantity);
    }
    r
  }

  /** Adding a dish that is not in the cart appends exactly its new line and keeps the rest. */
  lemma AddNewAppends(cart: Cart, m: MenuItem)
    requires !HasId(cart, m.id)
    ensures AddToCart(cart, m) == cart + [CartItem(m.id, m.name, m.price, 1)]
  {
    var r := AddToCart(cart, m);
    assert r[..|cart|] == cart;
  }

  /**
   * In a cart with unique ids, adding a dish that is already there raises only
   * that line's quantity by one; length, order and the other lines stay.
   */
  lemma AddExistingIncrements(cart: Cart, m: MenuItem, k: nat)
    requires UniqueIds(cart)
    requires k < |cart| && cart[k].id == m.id
    ensures AddToCart(cart, m) == cart[k := cart[k].(quantity := cart[k].quantity + 1)]
  {
    var r := AddToCart(cart, m);
    var expected := cart[k := cart[k].(quantity := cart[k].quantity + 1)];
    forall i | 0 <= i < |cart|
      ensures r[i] == expected[i]
    {
      if i != k {
        assert cart[i].id != m.id;
      }
    }
  }

  /** The same dish added twice to an empty cart makes one line of quantity 2. */
  lemma AddTwiceToEmpty(m: MenuItem)
    ensures AddToCart(AddToCart([], m), m) == [CartItem(m.id, m.name, m.price, 2)]
  {
    AddNewAppends([], m);
    AddExistingIncrements([NewLine(m)], m, 0);
  }

  lemma AddPreservesWellFormed(cart: Cart, m: MenuItem)
    requires WellFormed(cart)
    ensures WellFormed(AddToCart(cart, m))
  {
    var r := AddToCart(cart, m);
    if !HasId(cart, m.id) {
      forall i, j | 0 <= i < j < |r|
        ensures r[i].id != r[j].id
      {
        if j == |cart| {
          assert cart[i].id != m.id;
        }
      }
    }
  }

  /** Removing a line changes neither the remaining lines nor their order: removal distributes over concatenation. */
  lemma {:induction false} RemoveDistributes(a: Cart, b: Cart, id: string)
    ensures RemoveFromCart(a + b, id) == RemoveFromCart(a, id) + RemoveFromCart(b, id)
  {
    if a == [] {
      assert a + b == b;
    } else {
      assert (a + b)[0] == a[0];
      assert (a + b)[1..] == a[1..] + b;
      RemoveDistributes(a[1..], b, id);
    }
  }

  lemma {:induction false} RemoveAbsentIsIdentity(cart: Cart, id: string)
    requires !HasId(cart, id)
    ensures RemoveFromCart(cart, id) == cart
  {
    if cart != [] {
      assert !HasId(cart[1..], id) by {
        forall i | 0 <= i < |cart[1..]|
          ensures cart[1..][i].id != id
        {
          assert cart[1..][i] == cart[i + 1];
        }
      }
      RemoveAbsentIsIdentity(cart[1..], id);
      assert [cart[0]] + cart[1..] == cart;
    }
  }

  lemma {:induction false} RemovePreservesWellFormed(cart: Cart, id: string)
    requires WellFormed(cart)
    ensures WellFormed(RemoveFromCart(cart, id))
  {
    if cart != [] {
      var tail := cart[1..];
      assert WellFormed(tail) by {
        forall i, j | 0 <= i < j < |tail|
          ensures tail[i].id != tail[j].id
        {
          assert tail[i] == cart[i + 1] && tail[j] == cart[j + 1];
        }
      }
      RemovePreservesWellFormed(tail, id);
      var rest := RemoveFromCart(tail, id);
      var r := RemoveFromCart(cart, id);
      if cart[0].id != id {
        assert r == [cart[0]] + rest;
        forall j | 0 < j < |r|
          ensures r[0].id != r[j].id
        {
          assert r[j] == rest[j - 1];
          assert r[j] in tail;
          var k :| 0 <= k < |tail| && tail[k] == r[j];
          assert tail[k] == cart[k + 1];
        }
      }
    }
  }

  /** Adding a dish that was not in the cart and then removing it gives the cart back. */
  lemma RemoveUndoesNewAdd(cart: Cart, m: MenuItem)
    requires !HasId(cart, m.id)
    ensures RemoveFromCart(AddToCart(cart, m), m.id) == cart
  {
    AddNewAppends(cart, m);
    RemoveDistributes(cart, [NewLine(m)], m.id);
    RemoveAbsentIsIdentity(cart, m.id);
  }
}
