/**
 * The console variant of the user operations in user_operation.py. Each
 * `input()` answer is a parameter, and each printed outcome is a returned
 * value. Unlike the web handlers, `place_order` neither checks stock nor
 * prices the cart first, and `cancel_order` neither checks the owner nor
 * gives the stock back.
 */
module UserOperation {
  import opened Sums
  import opened Text
  import opened DataStorage

  /** The minimum password length. */
  const MinPasswordLength := 6

  /** `validate_password`. */
  function ValidatePassword(password: string): bool {
    |password| >= MinPasswordLength
  }

  /**
   * Only the length matters, a valid password stays valid when extended, and
   * the boundary lies between five and six characters.
   */
  lemma PasswordRule(p: string, q: string)
    ensures |p| == |q| ==> ValidatePassword(p) == ValidatePassword(q)
    ensures ValidatePassword(p) ==> ValidatePassword(p + q)
    ensures |p| == 5 ==> !ValidatePassword(p)
    ensures |p| == 6 ==> ValidatePassword(p)
  {
  }

  // ---------------------------------------------------------------------------
  // Searching the catalog.

  /** A listed name matches when its lower-cased form contains the lower-cased query. */
  predicate NameMatches(name: string, query: string) {
    Contains(Lower(name), Lower(query))
  }

  /** The names `search_medicines` reports for `query`. */
  function Matches(catalog: Catalog, query: string): (found: set<string>)
    ensures found <= catalog.Keys
    ensures forall name :: name in found <==> name in catalog && NameMatches(name, query)
  {
    set name | name in catalog && NameMatches(name, query)
  }

  /** The empty query reports every listed medicine. */
  lemma EmptyQueryMatchesAll(catalog: Catalog)
    ensures Matches(catalog, "") == catalog.Keys
  {
    forall name | name in catalog
      ensures name in Matches(catalog, "")
    {
      ContainsTrivial(Lower(name));
    }
  }

  /** A listed name is found by itself, whatever the case it is typed in. */
  lemma NameFindsItself(catalog: Catalog, name: string)
    requires name in catalog
    ensures name in Matches(catalog, name)
    ensures name in Matches(catalog, Lower(name))
  {
    ContainsTrivial(Lower(name));
    LowerIdempotent(name);
  }

  /** The search ignores case: lower-casing the query changes nothing. */
  lemma SearchIgnoresQueryCase(catalog: Catalog, query: string)
    ensures Matches(catalog, Lower(query)) == Matches(catalog, query)
  {
    LowerIdempotent(query);
  }

  /** `search_medicines`: one pass over the catalog; `found` is false exactly when nothing matched. */
  method SearchMedicines(store: Store, query: string) returns (matches: set<string>, found: bool)
    ensures matches == Matches(store.medicines, query)
    ensures found <==> matches != {}
  {
    var q := Lower(query);
    matches := {};
    found := false;
    var rest := store.medicines.Keys;
    while rest != {}
      invariant rest <= store.medicines.Keys
      invariant matches == Matches(Restrict(store.medicines, store.medicines.Keys - rest), query)
      invariant found <==> matches != {}
      decreases rest
    {
      var med :| med in rest;
      if Contains(Lower(med), q) {
        matches := matches + {med};
        found := true;
      }
      rest := rest - {med};
    }
    assert Restrict(store.medicines, store.medicines.Keys - rest) == store.medicines;
  }

  // ---------------------------------------------------------------------------
  // The cart.

  /** Console `add_to_cart`: an unlisted name, a quantity of zero or less, or one above the stock is refused. */
  method AddToCart(store: Store, medicine: string, quantity: int) returns (r: Outcome)
    modifies store
    ensures store.medicines == old(store.medicines) && store.orders == old(store.orders)
    ensures r == (if medicine !in old(store.medicines) then Fail(MedicineNotFound(medicine))
                  else if quantity <= 0 then Fail(InvalidQuantity)
                  else if old(store.medicines)[medicine].stock < quantity then Fail(InsufficientStock(medicine))
                  else Ok)
    ensures store.cart == if r.Ok? then old(store.cart)[medicine := Get(old(store.cart), medicine) + quantity]
                          else old(store.cart)
    ensures old(store.Safe()) ==> store.Safe()
  {
    if medicine !in store.medicines {
      return Fail(MedicineNotFound(medicine));
    }
    if quantity <= 0 {
      return Fail(InvalidQuantity);
    }
    if store.medicines[medicine].stock < quantity {
      return Fail(InsufficientStock(medicine));
    }
    store.cart := store.cart[medicine := Get(store.cart, medicine) + quantity];
    r := Ok;
  }

  /**
   * `view_cart`: the subtotal of price times quantity, without the delivery
   * fee. A cart line whose medicine has been removed from the catalog stops
   * the walk, as the lookup of its price does in the source.
   */
  method ViewCart(store: Store) returns (r: Outcome, subtotal: real)
    ensures store.cart == map[] ==> r == Fail(EmptyCart)
    ensures store.cart != map[] ==> (r.Ok? <==> store.cart.Keys <= store.medicines.Keys)
    ensures r.Ok? ==> subtotal == CartValue(store.cart, store.medicines)
    ensures r.Fail? && store.cart != map[] ==>
              r.error.MedicineNotFound? && r.error.name in store.cart && r.error.name !in store.medicines
  {
    subtotal := 0.0;
    if store.cart == map[] {
      return Fail(EmptyCart), subtotal;
    }
    ghost var lines := ValueLines(store.cart, store.medicines);
    var rest := store.cart.Keys;
    RestrictBounds(lines);
    while rest != {}
      invariant rest <= store.cart.Keys
      invariant forall med :: med in store.cart && med !in rest ==> med in store.medicines
      invariant subtotal + SumOf(Restrict(lines, rest)) == SumOf(lines)
      decreases rest
    {
      var med :| med in rest;
      if med !in store.medicines {
        return Fail(MedicineNotFound(med)), subtotal;
      }
      subtotal := subtotal + store.medicines[med].price * store.cart[med] as real;
      SumOfRemove(Restrict(lines, rest), med);
      RestrictRemove(lines, rest, med);
      rest := rest - {med};
    }
    RestrictBounds(lines);
    r := Ok;
  }

  // ---------------------------------------------------------------------------
  // Orders.

  /** `after` is `before` with the quantities of some of the lines of `items` withdrawn. */
  ghost predicate PartlyWithdrawn(before: Catalog, after: Catalog, items: Items) {
    exists done :: done <= items.Keys && after == Withdraw(before, Restrict(items, done))
  }

  /**
   * The decrement loop of console `place_order`: no stock check, so a stock
   * may go below zero. A line whose medicine is no longer listed stops the
   * loop with the earlier lines already withdrawn.
   */
  method TakeStockUnchecked(store: Store, items: Items) returns (r: Outcome)
    modifies store
    ensures store.cart == old(store.cart) && store.orders == old(store.orders)
    ensures r.Ok? <==> items.Keys <= old(store.medicines).Keys
    ensures r.Ok? ==> store.medicines == Withdraw(old(store.medicines), items)
    ensures r.Fail? ==>
              && r.error.MedicineNotFound? && r.error.name in items && r.error.name !in old(store.medicines)
              && PartlyWithdrawn(old(store.medicines), store.medicines, items)
  {
    var rest := items.Keys;
    RestrictBounds(items);
    while rest != {}
      invariant rest <= items.Keys
      invariant store.medicines == Withdraw(old(store.medicines), Restrict(items, items.Keys - rest))
      invariant forall med :: med in items && med !in rest ==> med in old(store.medicines)
      invariant store.cart == old(store.cart) && store.orders == old(store.orders)
      decreases rest
    {
      var med :| med in rest;
      if med !in store.medicines {
        assert items.Keys - rest <= items.Keys;
        return Fail(MedicineNotFound(med));
      }
      WithdrawStep(old(store.medicines), items, items.Keys - rest, med);
      store.medicines := store.medicines[med := store.medicines[med].(stock := store.medicines[med].stock - items[med])];
      assert items.Keys - (rest - {med}) == (items.Keys - rest) + {med};
      rest := rest - {med};
    }
    assert items.Keys - rest == items.Keys;
    RestrictBounds(items);
    r := Ok;
  }

  /**
   * Console `place_order`. The order is recorded first, without a total;
   * then the stock is withdrawn unchecked; then the cart is priced against
   * the stock as it is after the withdrawal; then the cart is emptied.
   */
  method PlaceOrder(store: Store, username: string, prescription: string, orderId: string, now: int)
    returns (r: Outcome, total: Option<real>)
    requires orderId !in store.orders
    modifies store
    ensures old(store.cart) == map[] ==> r == Fail(EmptyCart) && total == None && unchanged(store)
    ensures old(store.cart) != map[] ==>
              && store.orders == old(store.orders)[orderId := Order(username, old(store.cart), prescription, Processing, DeliveryTime(now), None)]
              && (r.Ok? <==> old(store.cart).Keys <= old(store.medicines).Keys)
    ensures r.Ok? ==>
              && store.medicines == Withdraw(old(store.medicines), old(store.cart))
              && total == Some(TotalCost(old(store.cart), store.medicines))
              && store.cart == map[]
    ensures r.Fail? && old(store.cart) != map[] ==>
              && r.error.MedicineNotFound? && r.error.name in old(store.cart) && r.error.name !in old(store.medicines)
              && PartlyWithdrawn(old(store.medicines), store.medicines, old(store.cart))
              && store.cart == old(store.cart)
              && total == None
  {
    if store.cart == map[] {
      return Fail(EmptyCart), None;
    }
    var items := store.cart;
    store.orders := store.orders[orderId := Order(username, items, prescription, Processing, DeliveryTime(now), None)];
    r := TakeStockUnchecked(store, items);
    if r.Fail? {
      return r, None;
    }
    var cost := CalculateTotalCost(items, store.medicines);
    total := Some(cost);
    store.cart := map[];
  }

  /** Console `cancel_order`: any user may cancel; the order is deleted and its stock is not given back. */
  method CancelOrder(store: Store, orderId: string, now: int) returns (r: Outcome)
    modifies store
    ensures store.medicines == old(store.medicines) && store.cart == old(store.cart)
    ensures r == (if orderId !in old(store.orders) then Fail(OrderNotFound)
                  else if old(store.orders)[orderId].status != Processing then Fail(CannotCancel)
                  else if now >= old(store.orders)[orderId].delivery - CancelWindow then Fail(TooLateToCancel)
                  else Ok)
    ensures store.orders == if r.Ok? then old(store.orders) - {orderId} else old(store.orders)
    ensures old(store.Safe()) ==> store.Safe()
  {
    if orderId !in store.orders {
      return Fail(OrderNotFound);
    }
    var order := store.orders[orderId];
    if order.status != Processing {
      return Fail(CannotCancel);
    }
    if now >= order.delivery - CancelWindow {
      return Fail(TooLateToCancel);
    }
    if old(store.Safe()) {
      LedgerChange(store.orders, orderId, order);
    }
    store.orders := store.orders - {orderId};
    r := Ok;
  }

  // ---------------------------------------------------------------------------
  // What the console variant does to the stock.

  /** A withdrawal of a non-zero quantity of a listed medicine changes the catalog. */
  lemma WithdrawChangesStock(catalog: Catalog, items: Items, med: string)
    requires med in catalog && Get(items, med) != 0
    ensures Withdraw(catalog, items) != catalog
    ensures Withdraw(catalog, items)[med].stock == catalog[med].stock - Get(items, med)
  {
  }

  /**
   * Console place at `now`, then cancel at any instant `later` before the
   * cutoff: both succeed and the ledger is back as it was, but the stock
   * stays withdrawn.
   */
  method PlaceThenCancel(store: Store, username: string, prescription: string, orderId: string, now: int, later: int)
    returns (placed: Outcome, cancelled: Outcome)
    requires orderId !in store.orders
    requires later < DeliveryTime(now) - CancelWindow
    requires store.cart != map[] && store.cart.Keys <= store.medicines.Keys
    modifies store
    ensures placed == Ok && cancelled == Ok
    ensures store.orders == old(store.orders) && store.cart == map[]
    ensures store.medicines == Withdraw(old(store.medicines), old(store.cart))
  {
    var total;
    placed, total := PlaceOrder(store, username, prescription, orderId, now);
    ghost var ledger := store.orders;
    cancelled := CancelOrder(store, orderId, later);
    assert ledger - {orderId} == old(store.orders);
  }

  /**
   * Two console adds of the full stock both pass, since only the increment
   * is compared with the stock; placing the cart then takes the stock to
   * minus its old value.
   */
  method OverdrawByRepeatedAdd(store: Store, username: string, med: string, orderId: string, now: int)
    returns (stock: int)
    requires store.medicines == map[med := Medicine(10.0, 5)]
    requires store.cart == map[] && store.orders == map[]
    modifies store
    ensures old(store.Safe()) && !store.Safe()
    ensures med in store.medicines && stock == store.medicines[med].stock == -5
  {
    var first := AddToCart(store, med, 5);
    var second := AddToCart(store, med, 5);
    assert store.cart == map[med := 10];
    OneLineStock(store.medicines, med, 10);
    var placed, total := PlaceOrder(store, username, "prescription", orderId, now);
    assert placed == Ok;
    stock := store.medicines[med].stock;
  }

  /**
   * After the unchecked withdrawal a line still counts in the console total
   * only when the old stock covered twice its quantity.
   */
  lemma WithdrawnLineCost(catalog: Catalog, items: Items, med: string)
    requires med in items && med in catalog
    ensures LineCost(Withdraw(catalog, items), med, items[med])
            == if catalog[med].stock >= 2 * items[med] then catalog[med].price * items[med] as real else 0.0
  {
  }

  /** The cost of a one-line cart, fee included. */
  lemma OneLineCost(catalog: Catalog, med: string, qty: int)
    ensures TotalCost(map[med := qty], catalog) == DeliveryFee + LineCost(catalog, med, qty)
  {
    assert CostLines(map[med := qty], catalog) == map[med := LineCost(catalog, med, qty)];
    SumOfSingleton(med, LineCost(catalog, med, qty));
  }

  /**
   * 100 units out of 150 in stock at 10.0 each: the console reports only
   * the delivery fee, because after the withdrawal 50 units are left and the
   * line no longer qualifies. The same cart priced before the withdrawal,
   * as the web variant does, costs 1417.5.
   */
  method TotalDropsLine(store: Store, username: string, med: string, orderId: string, now: int)
    returns (total: Option<real>)
    requires store.medicines == map[med := Medicine(10.0, 150)]
    requires store.cart == map[med := 100] && orderId !in store.orders
    modifies store
    ensures total == Some(417.5)
    ensures TotalCost(old(store.cart), old(store.medicines)) == 1417.5
  {
    OneLineStock(store.medicines, med, 100);
    OneLineCost(store.medicines, med, 100);
    var r;
    r, total := PlaceOrder(store, username, "prescription", orderId, now);
    OneLineCost(store.medicines, med, 100);
  }
}
