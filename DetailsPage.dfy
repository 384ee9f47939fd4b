/**
 * The restaurant detail page's order state: the cart held in component state,
 * its snapshot in the browser's session storage under `cartItems-<restaurantId>`,
 * and the checkout request built from it.
 */
module DetailsPage {
  import opened Wrappers
  import opened CartReducer
  import opened CartJson

  /** The restaurant record as far as checkout reads it. */
  datatype Restaurant = Restaurant(id: string, name: string, menuItems: seq<MenuItem>)

  /** What the delivery-details dialog hands to `onCheckout`. */
  datatype UserFormData = UserFormData(name: string, addressLine1: string, city: string, country: string, email: string)

  datatype DeliveryDetails = DeliveryDetails(name: string, addressLine1: string, city: string, country: string, email: string)

  datatype CheckoutRequest = CheckoutRequest(cartItems: seq<CheckoutCartItem>, restaurantId: string, deliveryDetails: DeliveryDetails)

  /** Session storage: string keys to string values. */
  type Storage = map<string, string>

  const StoragePrefix: string := "cartItems-"

  function StorageKey(restaurantId: string): (key: string)
    ensures |key| == |StoragePrefix| + |restaurantId|
    ensures key[..|StoragePrefix|] == StoragePrefix && key[|StoragePrefix|..] == restaurantId
  {
    StoragePrefix + restaurantId
  }

  /** Different restaurants never share a storage slot. */
  lemma StorageKeyInjective(a: string, b: string)
    ensures StorageKey(a) == StorageKey(b) <==> a == b
  {
    if StorageKey(a) == StorageKey(b) {
      assert a == StorageKey(a)[|StoragePrefix|..];
    }
  }

  /**
   * The cart the page starts with: absent and empty-string values are falsy and
   * give the empty cart; anything else goes through JSON.parse, which throws on
   * text it cannot read.
   */
  function LoadCart(storage: Storage, key: string): (r: Result<Cart, JsonError>)
    ensures key !in storage || storage[key] == "" ==> r == Success([])
    ensures key in storage && storage[key] != "" ==> r == DecodeCart(storage[key])
  {
    if key !in storage || storage[key] == "" then Success([]) else DecodeCart(storage[key])
  }

  /** What `sessionStorage.setItem(key, JSON.stringify(cart))` leaves behind. */
  function SaveCart(storage: Storage, key: string, cart: Cart): Storage
  {
    storage[key := EncodeCart(cart)]
  }

  /** A saved cart reloads as the same cart, and saving under one key leaves every other key's cart as it was. */
  lemma SaveThenLoad(storage: Storage, key: string, other: string, cart: Cart)
    ensures LoadCart(SaveCart(storage, key, cart), key) == Success(cart)
    ensures other != key ==> LoadCart(SaveCart(storage, key, cart), other) == LoadCart(storage, other)
  {
    CartRoundTrip(cart);
    assert EncodeCart(cart) != "";
  }

  /**
   * What the page itself can have left in a cart slot: nothing, the empty
   * string, or the snapshot of a cart with unique ids and positive quantities.
   */
  ghost predicate SnapshotValid(storage: Storage, key: string)
  {
    key !in storage || storage[key] == "" || exists c :: WellFormed(c) && storage[key] == EncodeCart(c)
  }

  /** Such a slot always loads, and loads as a well-formed cart. */
  lemma SnapshotLoads(storage: Storage, key: string)
    requires SnapshotValid(storage, key)
    ensures LoadCart(storage, key).Success?
    ensures WellFormed(LoadCart(storage, key).value)
  {
    if key in storage && storage[key] != "" {
      var c :| WellFormed(c) && storage[key] == EncodeCart(c);
      CartRoundTrip(c);
    }
  }

  /** Saving a well-formed cart leaves a valid snapshot in its slot. */
  lemma SaveKeepsSnapshotValid(storage: Storage, key: string, cart: Cart)
    requires WellFormed(cart)
    ensures SnapshotValid(SaveCart(storage, key, cart), key)
  {
    assert SaveCart(storage, key, cart)[key] == EncodeCart(cart);
  }

  /** The checkout button is disabled exactly when the cart is empty. */
  function CheckoutDisabled(cart: Cart): (disabled: bool)
    ensures disabled <==> cart == []
  {
    |cart| == 0
  }

  function DeliveryDetailsOf(user: UserFormData): (d: DeliveryDetails)
    ensures d.name == user.name && d.addressLine1 == user.addressLine1 && d.city == user.city
    ensures d.country == user.country && d.email == user.email
  {
    DeliveryDetails(user.name, user.addressLine1, user.city, user.country, user.email)
  }

  /** The page's cart state together with the session storage it writes to. */
  class CartStore {
    const restaurantId: string
    var cart: Cart
    var storage: Storage

    /** Mounting with storage whose snapshot for this restaurant reads as `cart`. */
    constructor (restaurantId: string, storage: Storage, cart: Cart)
      requires LoadCart(storage, StorageKey(restaurantId)) == Success(cart)
      ensures this.restaurantId == restaurantId && this.storage == storage && this.cart == cart
      ensures SnapshotValid(storage, StorageKey(restaurantId)) ==> Valid()
    {
      this.restaurantId := restaurantId;
      this.storage := storage;
      this.cart := cart;
      if SnapshotValid(storage, StorageKey(restaurantId)) {
        SnapshotLoads(storage, StorageKey(restaurantId));
      }
    }

    function Key(): string
      reads this
    {
      StorageKey(restaurantId)
    }

    /** The cart keeps unique ids and positive quantities, and so does the snapshot in its slot. */
    ghost predicate Valid()
      reads this
    {
      WellFormed(cart) && SnapshotValid(storage, Key())
    }

    method AddToCart(menuItem: MenuItem)
      modifies this
      ensures cart == CartReducer.AddToCart(old(cart), menuItem)
      ensures storage == SaveCart(old(storage), Key(), cart)
      ensures LoadCart(storage, Key()) == Success(cart)
      ensures old(Valid()) ==> Valid()
    {
      var updated := CartReducer.AddToCart(cart, menuItem);
      storage := SaveCart(storage, Key(), updated);
      cart := updated;
      SaveThenLoad(old(storage), Key(), Key(), updated);
      if old(Valid()) {
        AddPreservesWellFormed(old(cart), menuItem);
        SaveKeepsSnapshotValid(old(storage), Key(), updated);
      }
    }

    /** Removal changes only the in-memory cart; session storage is not written. */
    method RemoveFromCart(cartItem: CartItem)
      modifies this
      ensures cart == CartReducer.RemoveFromCart(old(cart), cartItem.id)
      ensures storage == old(storage)
      ensures old(Valid()) ==> Valid()
    {
      cart := CartReducer.RemoveFromCart(cart, cartItem.id);
      if old(Valid()) {
        RemovePreservesWellFormed(old(cart), cartItem.id);
      }
    }

    /**
     * The request `onCheckout` sends: nothing while no restaurant is loaded,
     * otherwise every cart line in order, the restaurant's id and the delivery details.
     */
    function CheckoutData(restaurant: Option<Restaurant>, user: UserFormData): (r: Option<CheckoutRequest>)
      reads this
      ensures r.Some? <==> restaurant.Some?
      ensures r.Some? ==> r.value.restaurantId == restaurant.value.id
      ensures r.Some? ==> r.value.cartItems == CheckoutItems(cart)
      ensures r.Some? ==> r.value.deliveryDetails == DeliveryDetailsOf(user)
    {
      match restaurant
      case None => None
      case Some(rest) => Some(CheckoutRequest(CheckoutItems(cart), rest.id, DeliveryDetailsOf(user)))
    }
  }

  /**
   * Mounts the page: the cart is rehydrated from storage, or the mount fails
   * as the page would when JSON.parse throws on the stored text.
   */
  method Mount(restaurantId: string, storage: Storage) returns (r: Result<CartStore, JsonError>)
    ensures r.Failure? <==> LoadCart(storage, StorageKey(restaurantId)).Failure?
    ensures r.Success? ==> fresh(r.value) && r.value.restaurantId == restaurantId
    ensures r.Success? ==> r.value.storage == storage
    ensures r.Success? ==> Success(r.value.cart) == LoadCart(storage, StorageKey(restaurantId))
    ensures SnapshotValid(storage, StorageKey(restaurantId)) ==> r.Success? && r.value.Valid()
    ensures StorageKey(restaurantId) !in storage ==> r.Success? && r.value.cart == [] && r.value.Valid()
  {
    if SnapshotValid(storage, StorageKey(restaurantId)) {
      SnapshotLoads(storage, StorageKey(restaurantId));
    }
    match LoadCart(storage, StorageKey(restaurantId))
    case Failure(e) =>
      r := Failure(e);
    case Success(cart) =>
      var store := new CartStore(restaurantId, storage, cart);
      r := Success(store);
  }

  /**
   * The walk-through of an order: add m1 twice and m2, remove m1, then reload
   * the page. The cart ends with the m2 line only, but the reloaded cart is
   * the one saved by the last add, because removal is not written to storage.
   */
  method OrderWalkThrough(restaurantId: string, storage: Storage, m1: MenuItem, m2: MenuItem)
    returns (finalCart: Cart, reloaded: Result<Cart, JsonError>)
    requires StorageKey(restaurantId) !in storage
    requires m1.id != m2.id
    ensures finalCart == [CartItem(m2.id, m2.name, m2.price, 1)]
    ensures reloaded == Success([CartItem(m1.id, m1.name, m1.price, 2), CartItem(m2.id, m2.name, m2.price, 1)])
  {
    var store := new CartStore(restaurantId, storage, []);
    store.AddToCart(m1);
    AddTwiceToEmpty(m1);
    store.AddToCart(m1);
    var line1 := CartItem(m1.id, m1.name, m1.price, 2);
    assert store.cart == [line1];
    AddNewAppends([line1], m2);
    store.AddToCart(m2);
    var line2 := CartItem(m2.id, m2.name, m2.price, 1);
    assert store.cart == [line1, line2];
    store.RemoveFromCart(line1);
    assert store.cart == [line2] by {
      RemoveDistributes([line1], [line2], m1.id);
    }
    finalCart := store.cart;
    reloaded := LoadCart(store.storage, StorageKey(restaurantId));
  }
}
