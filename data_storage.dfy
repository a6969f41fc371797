/**
 * The shared state of the medicine-ordering engine and the two pure rules it
 * relies on: the delivery-time rule and the cost rule. The catalog, the one
 * global cart and the order ledger are the module-level dictionaries that
 * every handler mutates in place; here they are the fields of one `Store`.
 *
 * Time is integer seconds since a midnight (day * 86400 + second of day),
 * money is an exact real, quantities and stock are unbounded integers.
 */
module DataStorage {
  import opened Sums

  datatype Option<T> = None | Some(value: T)

  /** A catalog entry: its unit price and the units in stock. */
  datatype Medicine = Medicine(price: real, stock: int)

  /** Medicine name to catalog entry. */
  type Catalog = map<string, Medicine>

  /** Medicine name to quantity: the cart, and each order's snapshot of it. */
  type Items = map<string, int>

  datatype Status = Processing | Shipped | Delivered

  /** A placed order. Web orders record their total; console orders have none. */
  datatype Order = Order(
    owner: string,
    items: Items,
    prescription: string,
    status: Status,
    delivery: int,
    total: Option<real>)

  /** Why a handler refused a request. */
  datatype Error =
    | NotAuthenticated
    | Unauthorized
    | MedicineNotFound(name: string)
    | InsufficientStock(name: string)
    | InvalidQuantity
    | NotInCart(name: string)
    | EmptyCart
    | MissingPrescription
    | OrderNotFound
    | CannotCancel
    | TooLateToCancel
    | InvalidInput
    | AlreadyExists
    | InvalidStatus
    | AdditionCancelled

  datatype Outcome = Ok | Fail(error: Error)

  // ---------------------------------------------------------------------------
  // Order status as stored: one of three strings.

  function StatusName(s: Status): string {
    match s
    case Processing => "Processing"
    case Shipped => "Shipped"
    case Delivered => "Delivered"
  }

  /** The membership test `status in ["Processing", "Shipped", "Delivered"]`. */
  function ParseStatus(s: string): Option<Status> {
    if s == "Processing" then Some(Processing)
    else if s == "Shipped" then Some(Shipped)
    else if s == "Delivered" then Some(Delivered)
    else None
  }

  /** Exactly the three status names are accepted, each as the status it names. */
  lemma ParseStatusExact(s: string, st: Status)
    ensures ParseStatus(s).Some? <==> s == "Processing" || s == "Shipped" || s == "Delivered"
    ensures ParseStatus(s) == Some(st) <==> s == StatusName(st)
  {
  }

  // ---------------------------------------------------------------------------
  // The delivery rule.

  const SecondsPerHour := 3600
  const SecondsPerDay := 86400
  /** Orders are delivered at 18:00. */
  const DeliveryHour := 18
  /** Orders placed from 15:00 on are delivered the next day. */
  const CutoffHour := 15
  /** Cancellation closes 30 minutes before delivery. */
  const CancelWindow := 30 * 60
  /** The flat delivery fee added to every order total. */
  const DeliveryFee: real := 417.5

  function HourOf(t: int): int {
    (t % SecondsPerDay) / SecondsPerHour
  }

  function MidnightOf(t: int): int {
    t - t % SecondsPerDay
  }

  /**
   * `calculate_delivery_time` with the clock reading `now` passed in: 18:00
   * of the same day, moved one day on when the hour is 15 or later. The
   * nested "hour at least 18" test sits under "hour below 15" and is kept.
   */
  function DeliveryTime(now: int): (d: int)
    ensures d % SecondsPerDay == DeliveryHour * SecondsPerHour
    ensures d / SecondsPerDay == now / SecondsPerDay + (if HourOf(now) < CutoffHour then 0 else 1)
  {
    var sixPm := MidnightOf(now) + DeliveryHour * SecondsPerHour;
    if HourOf(now) < CutoffHour then
      (if HourOf(now) >= DeliveryHour then sixPm + SecondsPerDay else sixPm)
    else
      sixPm + SecondsPerDay
  }

  /** Delivery is more than three hours and at most 27 hours after the order. */
  lemma DeliveryLeadTime(now: int)
    ensures 3 * SecondsPerHour < DeliveryTime(now) - now <= 27 * SecondsPerHour
  {
    var sod := now % SecondsPerDay;
    assert now == MidnightOf(now) + sod;
    if HourOf(now) < CutoffHour {
      assert sod < CutoffHour * SecondsPerHour;
      assert DeliveryTime(now) == MidnightOf(now) + DeliveryHour * SecondsPerHour;
    } else {
      assert sod >= CutoffHour * SecondsPerHour;
      assert DeliveryTime(now) == MidnightOf(now) + DeliveryHour * SecondsPerHour + SecondsPerDay;
    }
  }

  /** Whether an order may still be cancelled at `now`: processing, and before the cutoff. */
  predicate Cancellable(o: Order, now: int) {
    o.status == Processing && now < o.delivery - CancelWindow
  }

  /** An order placed at `now` is still cancellable at that instant. */
  lemma CancellableWhenPlaced(now: int, owner: string, items: Items, prescription: string, total: Option<real>)
    ensures Cancellable(Order(owner, items, prescription, Processing, DeliveryTime(now), total), now)
  {
    DeliveryLeadTime(now);
  }

  // ---------------------------------------------------------------------------
  // The cost rule.

  /** `cart.get(med, 0)`. */
  function Get(items: Items, med: string): int {
    if med in items then items[med] else 0
  }

  /** One line of `calculate_total_cost`: priced only if listed and in stock. */
  function LineCost(catalog: Catalog, med: string, qty: int): real {
    if med in catalog && catalog[med].stock >= qty then catalog[med].price * qty as real else 0.0
  }

  function CostLines(items: Items, catalog: Catalog): (lines: map<string, real>)
    ensures lines.Keys == items.Keys
  {
    map med | med in items :: LineCost(catalog, med, items[med])
  }

  /** `calculate_total_cost(items, medicines)`: the qualifying lines plus the fee. */
  ghost function TotalCost(items: Items, catalog: Catalog): real {
    DeliveryFee + SumOf(CostLines(items, catalog))
  }

  /** One line of the cart view: unit price times quantity (nothing for an unlisted name). */
  function LineValue(catalog: Catalog, med: string, qty: int): real {
    if med in catalog then catalog[med].price * qty as real else 0.0
  }

  function ValueLines(items: Items, catalog: Catalog): (lines: map<string, real>)
    ensures lines.Keys == items.Keys
  {
    map med | med in items :: LineValue(catalog, med, items[med])
  }

  /** The cart subtotal: the sum of price times quantity, without the delivery fee. */
  ghost function CartValue(items: Items, catalog: Catalog): real {
    SumOf(ValueLines(items, catalog))
  }

  /** Every line names a listed medicine with at least that many units in stock. */
  predicate CoveredByStock(items: Items, catalog: Catalog) {
    forall med :: med in items ==> med in catalog && catalog[med].stock >= items[med]
  }

  /**
   * The loop of `calculate_total_cost`. It only reads `items` and `catalog`
   * (both are values here), and it never fails.
   */
  method CalculateTotalCost(items: Items, catalog: Catalog) returns (total: real)
    ensures total == TotalCost(items, catalog)
  {
    ghost var lines := CostLines(items, catalog);
    var sum := 0.0;
    var rest := items.Keys;
    RestrictBounds(lines);
    while rest != {}
      invariant rest <= items.Keys
      invariant sum + SumOf(Restrict(lines, rest)) == SumOf(lines)
      decreases rest
    {
      var med :| med in rest;
      var qty := items[med];
      if med in catalog && catalog[med].stock >= qty {
        sum := sum + catalog[med].price * qty as real;
      }
      SumOfRemove(Restrict(lines, rest), med);
      RestrictRemove(lines, rest, med);
      rest := rest - {med};
    }
    RestrictBounds(lines);
    total := sum + DeliveryFee;
  }

  /** An empty order costs exactly the delivery fee. */
  lemma EmptyItemsCostFee(catalog: Catalog)
    ensures TotalCost(map[], catalog) == DeliveryFee
  {
    assert CostLines(map[], catalog) == map[];
  }

  /** A line naming an unlisted medicine, or asking for more than the stock, adds nothing. */
  lemma UnqualifiedLineAddsNothing(items: Items, catalog: Catalog, med: string)
    requires med in items
    requires med !in catalog || catalog[med].stock < items[med]
    ensures TotalCost(items, catalog) == TotalCost(items - {med}, catalog)
  {
    SumOfRemove(CostLines(items, catalog), med);
    assert CostLines(items, catalog) - {med} == CostLines(items - {med}, catalog);
  }

  /** A line naming a listed medicine with enough stock adds price times quantity. */
  lemma QualifiedLineAddsPrice(items: Items, catalog: Catalog, med: string)
    requires med in items && med in catalog && catalog[med].stock >= items[med]
    ensures TotalCost(items, catalog) == catalog[med].price * items[med] as real + TotalCost(items - {med}, catalog)
  {
    SumOfRemove(CostLines(items, catalog), med);
    assert CostLines(items, catalog) - {med} == CostLines(items - {med}, catalog);
  }

  /** With non-negative prices and quantities the total is at least the fee. */
  lemma TotalCostAtLeastFee(items: Items, catalog: Catalog)
    requires forall med :: med in catalog ==> catalog[med].price >= 0.0
    requires forall med :: med in items ==> items[med] >= 0
    ensures TotalCost(items, catalog) >= DeliveryFee
  {
    var lines := CostLines(items, catalog);
    forall med | med in lines
      ensures lines[med] >= 0.0
    {
      if med in catalog && catalog[med].stock >= items[med] {
        assert lines[med] == catalog[med].price * items[med] as real;
      }
    }
    SumOfNonNegative(lines);
  }

  /** When every line is covered by stock, every line counts: the total is the subtotal plus the fee. */
  lemma CoveredItemsCostEveryLine(items: Items, catalog: Catalog)
    requires CoveredByStock(items, catalog)
    ensures TotalCost(items, catalog) == DeliveryFee + CartValue(items, catalog)
  {
    assert CostLines(items, catalog) == ValueLines(items, catalog);
  }

  // ---------------------------------------------------------------------------
  // Stock movements.

  /** Every listed medicine's stock decreased by its quantity in `items`. */
  function Withdraw(catalog: Catalog, items: Items): Catalog {
    map med | med in catalog :: catalog[med].(stock := catalog[med].stock - Get(items, med))
  }

  /** Every listed medicine's stock increased by its quantity in `items`; unlisted names are skipped. */
  function Restock(catalog: Catalog, items: Items): Catalog {
    map med | med in catalog :: catalog[med].(stock := catalog[med].stock + Get(items, med))
  }

  /** Restocking what was withdrawn restores the catalog exactly. */
  lemma RestockUndoesWithdraw(catalog: Catalog, items: Items)
    ensures Restock(Withdraw(catalog, items), items) == catalog
  {
    var back := Restock(Withdraw(catalog, items), items);
    forall med | med in catalog
      ensures back[med] == catalog[med]
    {
    }
  }

  /** Moving the stock of one line touches that medicine's entry only. */
  lemma OneLineStock(catalog: Catalog, med: string, qty: int)
    requires med in catalog
    ensures Withdraw(catalog, map[med := qty]) == catalog[med := catalog[med].(stock := catalog[med].stock - qty)]
    ensures Restock(catalog, map[med := qty]) == catalog[med := catalog[med].(stock := catalog[med].stock + qty)]
    ensures CoveredByStock(map[med := qty], catalog) <==> catalog[med].stock >= qty
  {
  }

  predicate StockNonNegative(catalog: Catalog) {
    forall med :: med in catalog ==> catalog[med].stock >= 0
  }

  predicate QuantitiesNonNegative(items: Items) {
    forall med :: med in items ==> items[med] >= 0
  }

  /** No order in the ledger holds a negative quantity. */
  predicate LedgerQuantitiesNonNegative(orders: map<string, Order>) {
    forall id :: id in orders ==> QuantitiesNonNegative(orders[id].items)
  }

  /** Recording an order with non-negative quantities, or dropping one, keeps the ledger non-negative. */
  lemma LedgerChange(orders: map<string, Order>, id: string, o: Order)
    requires LedgerQuantitiesNonNegative(orders)
    requires QuantitiesNonNegative(o.items)
    ensures LedgerQuantitiesNonNegative(orders[id := o])
    ensures LedgerQuantitiesNonNegative(orders - {id})
  {
  }

  /** Withdrawing quantities the stock covers keeps every stock non-negative. */
  lemma WithdrawCoveredKeepsStock(catalog: Catalog, items: Items)
    requires StockNonNegative(catalog)
    requires CoveredByStock(items, catalog)
    ensures StockNonNegative(Withdraw(catalog, items))
  {
  }

  /** Restocking non-negative quantities keeps every stock non-negative. */
  lemma RestockKeepsStock(catalog: Catalog, items: Items)
    requires StockNonNegative(catalog)
    requires QuantitiesNonNegative(items)
    ensures StockNonNegative(Restock(catalog, items))
  {
  }

  /** Withdrawing one more line of `items` changes that medicine's entry only. */
  lemma WithdrawStep(catalog: Catalog, items: Items, done: set<string>, med: string)
    requires med in items && med in catalog && med !in done
    ensures Withdraw(catalog, Restrict(items, done + {med}))
         == Withdraw(catalog, Restrict(items, done))[med := Withdraw(catalog, Restrict(items, done))[med].(stock := Withdraw(catalog, Restrict(items, done))[med].stock - items[med])]
  {
  }

  /** Restocking one more line of `items` changes that medicine's entry only. */
  lemma RestockStep(catalog: Catalog, items: Items, done: set<string>, med: string)
    requires med in items && med in catalog && med !in done
    ensures Restock(catalog, Restrict(items, done + {med}))
         == Restock(catalog, Restrict(items, done))[med := Restock(catalog, Restrict(items, done))[med].(stock := Restock(catalog, Restrict(items, done))[med].stock + items[med])]
  {
  }

  /** Restocking a line whose medicine is no longer listed changes nothing. */
  lemma RestockSkip(catalog: Catalog, items: Items, done: set<string>, med: string)
    requires med !in catalog
    ensures Restock(catalog, Restrict(items, done + {med})) == Restock(catalog, Restrict(items, done))
  {
  }

  // ---------------------------------------------------------------------------
  // The shared state.

  /**
   * The process-wide dictionaries: `medicines`, the single global `cart` and
   * `orders`. Users and persistence are not part of this model.
   */
  class Store {
    var medicines: Catalog
    var cart: Items
    var orders: map<string, Order>

    /** The snapshot `load_data` returns. */
    constructor (medicines: Catalog, cart: Items, orders: map<string, Order>)
      ensures this.medicines == medicines && this.cart == cart && this.orders == orders
    {
      this.medicines := medicines;
      this.cart := cart;
      this.orders := orders;
    }

    /** `orders[order_id]['status'] = status`: only that order's status changes, to any of the three. */
    method SetStatus(id: string, status: Status)
      requires id in orders
      modifies this
      ensures medicines == old(medicines) && cart == old(cart)
      ensures orders == old(orders)[id := old(orders)[id].(status := status)]
      ensures old(Safe()) ==> Safe()
    {
      var updated := orders[id].(status := status);
      if Safe() {
        LedgerChange(orders, id, updated);
      }
      orders := orders[id := updated];
    }

    /** No stock is negative, and no cart line or ordered line has a negative quantity. */
    predicate Safe()
      reads this
    {
      && StockNonNegative(medicines)
      && QuantitiesNonNegative(cart)
      && LedgerQuantitiesNonNegative(orders)
    }
  }
}
