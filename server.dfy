/**
 * The web handlers of server.py with the HTTP wrapping removed: each takes
 * the request fields as parameters, mutates the shared `Store` in place and
 * answers success or the reason for refusing. `if not username` becomes an
 * empty `username`; the session's admin flag becomes `isAdmin`; the clock
 * reading and the generated order id are parameters.
 */
module Server {
  import opened Sums
  import opened Text
  import opened DataStorage

  // ---------------------------------------------------------------------------
  // Cart handlers.

  /** The single-medicine branch of `add_to_cart`, as written: no check that the quantity is positive. */
  method AddToCart(store: Store, username: string, medicine: string, quantity: int) returns (r: Outcome)
    modifies store
    ensures store.medicines == old(store.medicines) && store.orders == old(store.orders)
    ensures r == (if username == "" then Fail(NotAuthenticated)
                  else if medicine == "" || medicine !in old(store.medicines) then Fail(MedicineNotFound(medicine))
                  else if old(store.medicines)[medicine].stock < quantity then Fail(InsufficientStock(medicine))
                  else Ok)
    ensures store.cart == if r.Ok? then old(store.cart)[medicine := Get(old(store.cart), medicine) + quantity]
                          else old(store.cart)
    ensures old(store.Safe()) && quantity >= 0 ==> store.Safe()
  {
    if username == "" {
      return Fail(NotAuthenticated);
    }
    if medicine == "" || medicine !in store.medicines {
      return Fail(MedicineNotFound(medicine));
    }
    if store.medicines[medicine].stock < quantity {
      return Fail(InsufficientStock(medicine));
    }
    store.cart := store.cart[medicine := Get(store.cart, medicine) + quantity];
    r := Ok;
  }

  /**
   * `add_to_cart` with the positivity check the console variant and the
   * catalog's design make: quantities of zero or less are refused.
   */
  method AddToCartPositive(store: Store, username: string, medicine: string, quantity: int) returns (r: Outcome)
    modifies store
    ensures store.medicines == old(store.medicines) && store.orders == old(store.orders)
    ensures r == (if username == "" then Fail(NotAuthenticated)
                  else if medicine == "" || medicine !in old(store.medicines) then Fail(MedicineNotFound(medicine))
                  else if quantity <= 0 then Fail(InvalidQuantity)
                  else if old(store.medicines)[medicine].stock < quantity then Fail(InsufficientStock(medicine))
                  else Ok)
    ensures store.cart == if r.Ok? then old(store.cart)[medicine := Get(old(store.cart), medicine) + quantity]
                          else old(store.cart)
    ensures old(store.Safe()) ==> store.Safe()
  {
    if username != "" && medicine != "" && medicine in store.medicines && quantity <= 0 {
      return Fail(InvalidQuantity);
    }
    r := AddToCart(store, username, medicine, quantity);
  }

  /** The cart after the bulk branch of `add_to_cart`: each listed name adds one unit. */
  function BulkAdd(cart: Items, catalog: Catalog, meds: seq<string>): Items
    decreases |meds|
  {
    if meds == [] then cart
    else
      var before := BulkAdd(cart, catalog, meds[..|meds| - 1]);
      var med := meds[|meds| - 1];
      if med in catalog then before[med := Get(before, med) + 1] else before
  }

  /** The names the bulk branch reports as added: the listed ones, repeats included. */
  function Listed(meds: seq<string>, catalog: Catalog): seq<string>
    decreases |meds|
  {
    if meds == [] then []
    else
      var rest := Listed(meds[..|meds| - 1], catalog);
      var med := meds[|meds| - 1];
      if med in catalog then rest + [med] else rest
  }

  /** One more name in the list: the cart and the report grow by that name if it is listed. */
  lemma BulkAddStep(cart: Items, catalog: Catalog, meds: seq<string>, i: nat)
    requires i < |meds|
    ensures BulkAdd(cart, catalog, meds[..i + 1])
            == var before := BulkAdd(cart, catalog, meds[..i]);
               if meds[i] in catalog then before[meds[i] := Get(before, meds[i]) + 1] else before
    ensures Listed(meds[..i + 1], catalog) == Listed(meds[..i], catalog) + (if meds[i] in catalog then [meds[i]] else [])
  {
    assert meds[..i + 1][..i] == meds[..i];
  }

  /** Each listed name adds one unit per occurrence; unlisted names change nothing. */
  lemma {:induction false} BulkAddCounts(cart: Items, catalog: Catalog, meds: seq<string>)
    ensures forall med :: Get(BulkAdd(cart, catalog, meds), med)
                          == Get(cart, med) + (if med in catalog then multiset(meds)[med] else 0)
    ensures BulkAdd(cart, catalog, meds).Keys == cart.Keys + (set med | med in meds && med in catalog)
    decreases |meds|
  {
    if meds != [] {
      var init := meds[..|meds| - 1];
      var last := meds[|meds| - 1];
      assert meds == init + [last];
      BulkAddCounts(cart, catalog, init);
    }
  }

  /** Each listed name is reported once per occurrence; unlisted names are not reported. */
  lemma {:induction false} ListedCounts(meds: seq<string>, catalog: Catalog)
    ensures forall med :: multiset(Listed(meds, catalog))[med] == if med in catalog then multiset(meds)[med] else 0
    decreases |meds|
  {
    if meds != [] {
      var init := meds[..|meds| - 1];
      assert meds == init + [meds[|meds| - 1]];
      ListedCounts(init, catalog);
    }
  }

  /** The bulk branch of `add_to_cart`: no stock check, unlisted names ignored, always succeeds. */
  method AddToCartBulk(store: Store, username: string, meds: seq<string>) returns (r: Outcome, added: seq<string>)
    modifies store
    ensures store.medicines == old(store.medicines) && store.orders == old(store.orders)
    ensures username == "" ==> r == Fail(NotAuthenticated) && added == [] && store.cart == old(store.cart)
    ensures username != "" ==> r == Ok && added == Listed(meds, old(store.medicines))
                               && store.cart == BulkAdd(old(store.cart), old(store.medicines), meds)
    ensures old(store.Safe()) ==> store.Safe()
  {
    if username == "" {
      return Fail(NotAuthenticated), [];
    }
    var catalog := store.medicines;
    var cart := store.cart;
    added := [];
    var i := 0;
    while i < |meds|
      modifies {}
      invariant 0 <= i <= |meds|
      invariant cart == BulkAdd(old(store.cart), catalog, meds[..i])
      invariant added == Listed(meds[..i], catalog)
    {
      var med := meds[i];
      BulkAddStep(old(store.cart), catalog, meds, i);
      if med in catalog {
        cart := cart[med := Get(cart, med) + 1];
        added := added + [med];
      }
      i := i + 1;
    }
    assert meds[..|meds|] == meds;
    store.cart := cart;
    r := Ok;
    if old(store.Safe()) {
      BulkAddCounts(old(store.cart), catalog, meds);
      forall med | med in cart
        ensures cart[med] >= 0
      {
        assert Get(cart, med) == cart[med];
      }
    }
  }

  /** `update_cart`: a quantity of zero or less drops the line; a positive one replaces it. */
  method UpdateCart(store: Store, username: string, medicine: string, quantity: int) returns (r: Outcome)
    modifies store
    ensures store.medicines == old(store.medicines) && store.orders == old(store.orders)
    ensures r == (if username == "" then Fail(NotAuthenticated)
                  else if medicine == "" || medicine !in old(store.medicines) then Fail(MedicineNotFound(medicine))
                  else if quantity > 0 && old(store.medicines)[medicine].stock < quantity then Fail(InsufficientStock(medicine))
                  else Ok)
    ensures store.cart == if r.Fail? then old(store.cart)
                          else if quantity <= 0 then old(store.cart) - {medicine}
                          else old(store.cart)[medicine := quantity]
    ensures old(store.Safe()) ==> store.Safe()
  {
    if username == "" {
      return Fail(NotAuthenticated);
    }
    if medicine == "" || medicine !in store.medicines {
      return Fail(MedicineNotFound(medicine));
    }
    if quantity <= 0 {
      if medicine in store.cart {
        store.cart := store.cart - {medicine};
      }
    } else {
      if store.medicines[medicine].stock < quantity {
        return Fail(InsufficientStock(medicine));
      }
      store.cart := store.cart[medicine := quantity];
    }
    r := Ok;
  }

  /** `remove_from_cart`: deletes exactly that line, or fails when it is absent. */
  method RemoveFromCart(store: Store, username: string, medicine: string) returns (r: Outcome)
    modifies store
    ensures store.medicines == old(store.medicines) && store.orders == old(store.orders)
    ensures r == (if username == "" then Fail(NotAuthenticated)
                  else if medicine !in old(store.cart) then Fail(NotInCart(medicine))
                  else Ok)
    ensures store.cart == if r.Ok? then old(store.cart) - {medicine} else old(store.cart)
    ensures old(store.Safe()) ==> store.Safe()
  {
    if username == "" {
      return Fail(NotAuthenticated);
    }
    if medicine in store.cart {
      store.cart := store.cart - {medicine};
      return Ok;
    }
    r := Fail(NotInCart(medicine));
  }

  // ---------------------------------------------------------------------------
  // Order handlers.

  /** A refusal of the stock check that names a cart line which really fails it. */
  predicate ShortageWitness(items: Items, catalog: Catalog, e: Error) {
    match e
    case MedicineNotFound(med) => med in items && med !in catalog
    case InsufficientStock(med) => med in items && med in catalog && catalog[med].stock < items[med]
    case _ => false
  }

  /**
   * The availability loop of `place_order`. Indexing the catalog with an
   * unlisted name raises in the source; here it is the refusal `MedicineNotFound`.
   */
  method CheckStock(items: Items, catalog: Catalog) returns (r: Outcome)
    ensures r.Ok? <==> CoveredByStock(items, catalog)
    ensures r.Fail? ==> ShortageWitness(items, catalog, r.error)
  {
    var rest := items.Keys;
    while rest != {}
      invariant rest <= items.Keys
      invariant forall med :: med in items && med !in rest ==> med in catalog && catalog[med].stock >= items[med]
      decreases rest
    {
      var med :| med in rest;
      if med !in catalog {
        return Fail(MedicineNotFound(med));
      }
      if catalog[med].stock < items[med] {
        return Fail(InsufficientStock(med));
      }
      rest := rest - {med};
    }
    r := Ok;
  }

  /** The order `place_order` records for `username` from `cart` at `now`. */
  ghost function PlacedOrder(username: string, cart: Items, catalog: Catalog, prescription: string, now: int): Order {
    Order(username, cart, prescription, Processing, DeliveryTime(now), Some(DeliveryFee + CartValue(cart, catalog)))
  }

  /**
   * `place_order`. All checks come before any change, so a refusal changes
   * nothing. On success the cart becomes one new order, priced before the
   * stock moves so every line counts, and each line's stock is withdrawn.
   */
  method PlaceOrder(store: Store, username: string, prescription: string, orderId: string, now: int) returns (r: Outcome)
    requires orderId !in store.orders
    modifies store
    ensures username == "" ==> r == Fail(NotAuthenticated)
    ensures username != "" && old(store.cart) == map[] ==> r == Fail(EmptyCart)
    ensures username != "" && old(store.cart) != map[] && prescription == "" ==> r == Fail(MissingPrescription)
    ensures username != "" && old(store.cart) != map[] && prescription != "" ==>
              && (r.Ok? <==> CoveredByStock(old(store.cart), old(store.medicines)))
              && (r.Fail? ==> ShortageWitness(old(store.cart), old(store.medicines), r.error))
    ensures r.Fail? ==> unchanged(store)
    ensures r.Ok? ==>
              && store.orders == old(store.orders)[orderId := PlacedOrder(username, old(store.cart), old(store.medicines), prescription, now)]
              && store.medicines == Withdraw(old(store.medicines), old(store.cart))
              && store.cart == map[]
    ensures old(store.Safe()) ==> store.Safe()
  {
    if username == "" {
      return Fail(NotAuthenticated);
    }
    if store.cart == map[] {
      return Fail(EmptyCart);
    }
    if prescription == "" {
      return Fail(MissingPrescription);
    }
    r := CheckStock(store.cart, store.medicines);
    if r.Fail? {
      return;
    }
    var items := store.cart;
    ghost var before := store.medicines;
    var delivery := DeliveryTime(now);
    var total := CalculateTotalCost(items, store.medicines);
    CoveredItemsCostEveryLine(items, store.medicines);
    store.orders := store.orders[orderId := Order(username, items, prescription, Processing, delivery, Some(total))];
    TakeStock(store, items);
    store.cart := map[];
    if old(store.Safe()) {
      WithdrawCoveredKeepsStock(before, items);
      LedgerChange(old(store.orders), orderId, store.orders[orderId]);
    }
  }

  /** The stock update of `place_order`: each line's quantity is taken off its medicine's stock. */
  method TakeStock(store: Store, items: Items)
    requires items.Keys <= store.medicines.Keys
    modifies store
    ensures store.medicines == Withdraw(old(store.medicines), items)
    ensures store.cart == old(store.cart) && store.orders == old(store.orders)
  {
    var rest := items.Keys;
    RestrictBounds(items);
    while rest != {}
      invariant rest <= items.Keys
      invariant store.medicines == Withdraw(old(store.medicines), Restrict(items, items.Keys - rest))
      invariant store.cart == old(store.cart) && store.orders == old(store.orders)
      decreases rest
    {
      var med :| med in rest;
      WithdrawStep(old(store.medicines), items, items.Keys - rest, med);
      store.medicines := store.medicines[med := store.medicines[med].(stock := store.medicines[med].stock - items[med])];
      assert items.Keys - (rest - {med}) == (items.Keys - rest) + {med};
      rest := rest - {med};
    }
    assert items.Keys - rest == items.Keys;
    RestrictBounds(items);
  }

  /** The stock restoration of `cancel_order`: each line's quantity goes back to its medicine, if still listed. */
  method ReturnStock(store: Store, items: Items)
    modifies store
    ensures store.medicines == Restock(old(store.medicines), items)
    ensures store.cart == old(store.cart) && store.orders == old(store.orders)
  {
    var rest := items.Keys;
    RestrictBounds(items);
    while rest != {}
      invariant rest <= items.Keys
      invariant store.medicines == Restock(old(store.medicines), Restrict(items, items.Keys - rest))
      invariant store.cart == old(store.cart) && store.orders == old(store.orders)
      decreases rest
    {
      var med :| med in rest;
      if med in store.medicines {
        RestockStep(old(store.medicines), items, items.Keys - rest, med);
        store.medicines := store.medicines[med := store.medicines[med].(stock := store.medicines[med].stock + items[med])];
      } else {
        RestockSkip(old(store.medicines), items, items.Keys - rest, med);
      }
      assert items.Keys - (rest - {med}) == (items.Keys - rest) + {med};
      rest := rest - {med};
    }
    assert items.Keys - rest == items.Keys;
    RestrictBounds(items);
  }

  /** The orders `get_orders` lists for `username`. */
  function OrdersOf(orders: map<string, Order>, username: string): map<string, Order> {
    map id | id in orders && orders[id].owner == username :: orders[id]
  }

  /** Every order is listed for its owner and for nobody else. */
  lemma OrdersOfOwnerOnly(orders: map<string, Order>, id: string, username: string)
    requires id in orders
    ensures id in OrdersOf(orders, username) <==> username == orders[id].owner
    ensures id in OrdersOf(orders, username) ==> OrdersOf(orders, username)[id] == orders[id]
  {
  }

  /** `get_orders`: a read-only walk over the ledger collecting the user's orders. */
  method GetOrders(store: Store, username: string) returns (r: Outcome, mine: map<string, Order>)
    ensures username == "" ==> r == Fail(NotAuthenticated) && mine == map[]
    ensures username != "" ==> r == Ok && mine == OrdersOf(store.orders, username)
  {
    if username == "" {
      return Fail(NotAuthenticated), map[];
    }
    mine := map[];
    var rest := store.orders.Keys;
    while rest != {}
      invariant rest <= store.orders.Keys
      invariant mine == OrdersOf(Restrict(store.orders, store.orders.Keys - rest), username)
      decreases rest
    {
      var id :| id in rest;
      if store.orders[id].owner == username {
        mine := mine[id := store.orders[id]];
      }
      rest := rest - {id};
    }
    assert Restrict(store.orders, store.orders.Keys - rest) == store.orders;
    r := Ok;
  }

  /**
   * `cancel_order`: only the owner, only while processing, only before the
   * 30-minute cutoff; restores each ordered quantity to every medicine still
   * listed and deletes the order.
   */
  method CancelOrder(store: Store, username: string, orderId: string, now: int) returns (r: Outcome)
    modifies store
    ensures username == "" ==> r == Fail(NotAuthenticated)
    ensures username != "" && orderId !in old(store.orders) ==> r == Fail(OrderNotFound)
    ensures username != "" && orderId in old(store.orders) ==>
              var o := old(store.orders)[orderId];
              r == (if o.owner != username then Fail(Unauthorized)
                    else if o.status != Processing then Fail(CannotCancel)
                    else if now >= o.delivery - CancelWindow then Fail(TooLateToCancel)
                    else Ok)
    ensures r.Fail? ==> unchanged(store)
    ensures r.Ok? ==>
              && orderId in old(store.orders)
              && store.medicines == Restock(old(store.medicines), old(store.orders)[orderId].items)
              && store.orders == old(store.orders) - {orderId}
              && store.cart == old(store.cart)
    ensures old(store.Safe()) ==> store.Safe()
  {
    if username == "" {
      return Fail(NotAuthenticated);
    }
    if orderId !in store.orders {
      return Fail(OrderNotFound);
    }
    var order := store.orders[orderId];
    if order.owner != username {
      return Fail(Unauthorized);
    }
    if order.status != Processing {
      return Fail(CannotCancel);
    }
    if now >= order.delivery - CancelWindow {
      return Fail(TooLateToCancel);
    }

    ghost var before := store.medicines;
    ReturnStock(store, order.items);
    store.orders := store.orders - {orderId};
    r := Ok;
    if old(store.Safe()) {
      RestockKeepsStock(before, order.items);
      LedgerChange(old(store.orders), orderId, order);
    }
  }

  /**
   * Placing an order at `now` and cancelling it at any instant `later` before
   * the cutoff, with nothing in between, gives back the catalog and the
   * ledger exactly; the cart stays empty.
   */
  method PlaceThenCancel(store: Store, username: string, prescription: string, orderId: string, now: int, later: int)
    returns (placed: Outcome, cancelled: Outcome)
    requires orderId !in store.orders
    requires later < DeliveryTime(now) - CancelWindow
    modifies store
    ensures placed.Ok? ==> cancelled.Ok?
    ensures placed.Ok? ==> store.medicines == old(store.medicines) && store.orders == old(store.orders) && store.cart == map[]
    ensures placed.Fail? ==> unchanged(store)
  {
    placed := PlaceOrder(store, username, prescription, orderId, now);
    if placed.Fail? {
      return placed, placed;
    }
    ghost var items := old(store.cart);
    ghost var ledger := store.orders;
    cancelled := CancelOrder(store, username, orderId, later);
    RestockUndoesWithdraw(old(store.medicines), items);
    assert ledger - {orderId} == old(store.orders);
  }

  /**
   * Two adds of the full stock both succeed: only the increment is compared
   * with the stock, so the cart line ends at twice the stock.
   */
  method AddFullStockTwice(store: Store, username: string, medicine: string) returns (first: Outcome, second: Outcome)
    requires username != "" && medicine != "" && medicine in store.medicines
    modifies store
    ensures first == Ok && second == Ok
    ensures medicine in store.cart && store.cart[medicine] == Get(old(store.cart), medicine) + 2 * old(store.medicines)[medicine].stock
  {
    var stock := store.medicines[medicine].stock;
    first := AddToCart(store, username, medicine, stock);
    second := AddToCart(store, username, medicine, stock);
  }

  /** Adding one line to an empty cart and ordering it, as one user would through the web front end. */
  method AddThenPlace(store: Store, username: string, med: string, qty: int, orderId: string, now: int)
    requires username != "" && med != "" && med in store.medicines && store.medicines[med].stock >= qty
    requires store.cart == map[] && orderId !in store.orders
    modifies store
    ensures store.medicines == old(store.medicines)[med := old(store.medicines)[med].(stock := old(store.medicines)[med].stock - qty)]
    ensures store.cart == map[]
    ensures orderId in store.orders && store.orders - {orderId} == old(store.orders)
    ensures store.orders[orderId].owner == username && store.orders[orderId].items == map[med := qty]
    ensures Cancellable(store.orders[orderId], now)
  {
    var added := AddToCart(store, username, med, qty);
    assert added == Ok;
    OneLineStock(store.medicines, med, qty);
    var placed := PlaceOrder(store, username, "prescription", orderId, now);
    assert placed == Ok;
    CancellableWhenPlaced(now, username, map[med := qty], "prescription", store.orders[orderId].total);
    assert old(store.orders)[orderId := store.orders[orderId]] - {orderId} == old(store.orders);
  }

  /**
   * A run of the web handlers that starts in a safe state and ends with a
   * negative stock: a negative quantity is accepted into the cart, placing
   * it raises the stock, a second order takes all of it, and cancelling the
   * first order subtracts the quantity again.
   */
  method NegativeQuantityDrainsStock(store: Store, med: string, first: string, second: string, now: int)
    returns (stock: int)
    requires med != "" && first != second
    requires store.medicines == map[med := Medicine(10.0, 10)]
    requires store.cart == map[] && store.orders == map[]
    modifies store
    ensures old(store.Safe()) && !store.Safe()
    ensures med in store.medicines && stock == store.medicines[med].stock == -3
  {
    AddThenPlace(store, "alice", med, -3, first, now);
    assert store.medicines == map[med := Medicine(10.0, 13)];
    ghost var ledger := store.orders;
    assert second !in store.orders - {first};
    AddThenPlace(store, "bob", med, 13, second, now);
    assert store.medicines == map[med := Medicine(10.0, 0)];
    assert store.orders[first] == ledger[first];
    OneLineStock(store.medicines, med, -3);
    var cancelled := CancelOrder(store, "alice", first, now);
    assert cancelled == Ok;
    stock := store.medicines[med].stock;
  }

  // ---------------------------------------------------------------------------
  // Admin handlers.

  /** `admin_add_medicine`: the name is stripped; a blank name, negative price or stock, or a duplicate is refused. */
  method AdminAddMedicine(store: Store, isAdmin: bool, name: string, price: real, stock: int) returns (r: Outcome)
    modifies store
    ensures store.cart == old(store.cart) && store.orders == old(store.orders)
    ensures r == (if !isAdmin then Fail(Unauthorized)
                  else if Strip(name) == "" || price < 0.0 || stock < 0 then Fail(InvalidInput)
                  else if Strip(name) in old(store.medicines) then Fail(AlreadyExists)
                  else Ok)
    ensures store.medicines == if r.Ok? then old(store.medicines)[Strip(name) := Medicine(price, stock)]
                               else old(store.medicines)
    ensures old(store.Safe()) ==> store.Safe()
  {
    if !isAdmin {
      return Fail(Unauthorized);
    }
    var key := Strip(name);
    if key == "" || price < 0.0 || stock < 0 {
      return Fail(InvalidInput);
    }
    if key in store.medicines {
      return Fail(AlreadyExists);
    }
    store.medicines := store.medicines[key := Medicine(price, stock)];
    r := Ok;
  }

  /** `admin_remove_medicine`: deletes only the named entry. */
  method AdminRemoveMedicine(store: Store, isAdmin: bool, name: string) returns (r: Outcome)
    modifies store
    ensures store.cart == old(store.cart) && store.orders == old(store.orders)
    ensures r == (if !isAdmin then Fail(Unauthorized)
                  else if Strip(name) == "" || Strip(name) !in old(store.medicines) then Fail(MedicineNotFound(Strip(name)))
                  else Ok)
    ensures store.medicines == if r.Ok? then old(store.medicines) - {Strip(name)} else old(store.medicines)
    ensures old(store.Safe()) ==> store.Safe()
  {
    if !isAdmin {
      return Fail(Unauthorized);
    }
    var key := Strip(name);
    if key == "" || key !in store.medicines {
      return Fail(MedicineNotFound(key));
    }
    store.medicines := store.medicines - {key};
    r := Ok;
  }

  /** `admin_orders`: a read-only walk copying every order. */
  method AdminOrders(store: Store, isAdmin: bool) returns (r: Outcome, all: map<string, Order>)
    ensures !isAdmin ==> r == Fail(Unauthorized) && all == map[]
    ensures isAdmin ==> r == Ok && all == store.orders
  {
    if !isAdmin {
      return Fail(Unauthorized), map[];
    }
    all := map[];
    var rest := store.orders.Keys;
    while rest != {}
      invariant rest <= store.orders.Keys
      invariant all == Restrict(store.orders, store.orders.Keys - rest)
      decreases rest
    {
      var id :| id in rest;
      all := all[id := store.orders[id]];
      rest := rest - {id};
    }
    r := Ok;
  }

  /** `admin_update_order`: overwrites only that order's status, with any of the three, backwards included. */
  method AdminUpdateOrder(store: Store, isAdmin: bool, orderId: string, status: string) returns (r: Outcome)
    modifies store
    ensures store.cart == old(store.cart) && store.medicines == old(store.medicines)
    ensures r == (if !isAdmin then Fail(Unauthorized)
                  else if Strip(orderId) !in old(store.orders) then Fail(OrderNotFound)
                  else if ParseStatus(Strip(status)).None? then Fail(InvalidStatus)
                  else Ok)
    ensures store.orders == if r.Ok? then old(store.orders)[Strip(orderId) := old(store.orders)[Strip(orderId)].(status := ParseStatus(Strip(status)).value)]
                            else old(store.orders)
    ensures old(store.Safe()) ==> store.Safe()
  {
    if !isAdmin {
      return Fail(Unauthorized);
    }
    var id := Strip(orderId);
    var st := ParseStatus(Strip(status));
    if id !in store.orders {
      return Fail(OrderNotFound);
    }
    if st.None? {
      return Fail(InvalidStatus);
    }
    store.SetStatus(id, st.value);
    r := Ok;
  }
}
