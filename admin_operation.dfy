/**
 * The branches of the console `admin_menu` in admin_operation.py, one
 * operation each. Each `input()` answer is a parameter. Unlike the web admin
 * handlers, the console strips nothing, accepts an empty name and asks for
 * a confirmation before adding.
 */
module AdminOperation {
  import opened Sums
  import opened Text
  import opened DataStorage

  /** Choice 1, add a medicine: a duplicate name is refused before the price and stock are looked at. */
  method AddMedicine(store: Store, name: string, price: real, stock: int, confirm: string) returns (r: Outcome)
    modifies store
    ensures store.cart == old(store.cart) && store.orders == old(store.orders)
    ensures r == (if name in old(store.medicines) then Fail(AlreadyExists)
                  else if price < 0.0 || stock < 0 then Fail(InvalidInput)
                  else if Lower(confirm) != "yes" then Fail(AdditionCancelled)
                  else Ok)
    ensures store.medicines == if r.Ok? then old(store.medicines)[name := Medicine(price, stock)]
                               else old(store.medicines)
    ensures old(store.Safe()) ==> store.Safe()
  {
    if name in store.medicines {
      return Fail(AlreadyExists);
    }
    if price < 0.0 || stock < 0 {
      return Fail(InvalidInput);
    }
    if Lower(confirm) != "yes" {
      return Fail(AdditionCancelled);
    }
    store.medicines := store.medicines[name := Medicine(price, stock)];
    r := Ok;
  }

  /** The answers that confirm: exactly the three letters y, e, s, each in either case. */
  lemma ConfirmIgnoresCase(confirm: string)
    ensures Lower(confirm) == "yes" <==>
              && |confirm| == 3
              && (confirm[0] == 'y' || confirm[0] == 'Y')
              && (confirm[1] == 'e' || confirm[1] == 'E')
              && (confirm[2] == 's' || confirm[2] == 'S')
  {
    if |confirm| == 3 {
      var l := Lower(confirm);
      assert l == [l[0], l[1], l[2]];
    }
  }

  /** Choice 2, remove a medicine: exactly the named entry goes. */
  method RemoveMedicine(store: Store, name: string) returns (r: Outcome)
    modifies store
    ensures store.cart == old(store.cart) && store.orders == old(store.orders)
    ensures r == if name in old(store.medicines) then Ok else Fail(MedicineNotFound(name))
    ensures store.medicines == if r.Ok? then old(store.medicines) - {name} else old(store.medicines)
    ensures old(store.Safe()) ==> store.Safe()
  {
    if name !in store.medicines {
      return Fail(MedicineNotFound(name));
    }
    store.medicines := store.medicines - {name};
    r := Ok;
  }

  /** One line of the order listing. */
  datatype OrderRow = OrderRow(id: string, owner: string, items: Items, status: Status)

  /** The rows choice 3 shows: one per order. */
  function OrderRows(orders: map<string, Order>): (rows: set<OrderRow>)
    ensures forall row :: row in rows <==> row.id in orders && row == OrderRow(row.id, orders[row.id].owner, orders[row.id].items, orders[row.id].status)
  {
    set id | id in orders :: OrderRow(id, orders[id].owner, orders[id].items, orders[id].status)
  }

  /** Every order shows up in the listing exactly once. */
  lemma OrderRowsOnePerOrder(orders: map<string, Order>, id: string)
    requires id in orders
    ensures OrderRow(id, orders[id].owner, orders[id].items, orders[id].status) in OrderRows(orders)
    ensures forall row :: row in OrderRows(orders) && row.id == id ==> row == OrderRow(id, orders[id].owner, orders[id].items, orders[id].status)
  {
  }

  /** Choice 3, view orders: a read-only walk over the ledger. */
  method ViewOrders(store: Store) returns (rows: set<OrderRow>)
    ensures rows == OrderRows(store.orders)
  {
    rows := {};
    var rest := store.orders.Keys;
    while rest != {}
      invariant rest <= store.orders.Keys
      invariant rows == OrderRows(Restrict(store.orders, store.orders.Keys - rest))
      decreases rest
    {
      var id :| id in rest;
      var o := store.orders[id];
      rows := rows + {OrderRow(id, o.owner, o.items, o.status)};
      rest := rest - {id};
    }
    assert Restrict(store.orders, store.orders.Keys - rest) == store.orders;
  }

  /** Choice 4, update order status: only the exact three names are accepted; any order may move to any status. */
  method UpdateOrderStatus(store: Store, orderId: string, status: string) returns (r: Outcome)
    modifies store
    ensures store.cart == old(store.cart) && store.medicines == old(store.medicines)
    ensures r == (if orderId !in old(store.orders) then Fail(OrderNotFound)
                  else if ParseStatus(status).None? then Fail(InvalidStatus)
                  else Ok)
    ensures store.orders == if r.Ok? then old(store.orders)[orderId := old(store.orders)[orderId].(status := ParseStatus(status).value)]
                            else old(store.orders)
    ensures old(store.Safe()) ==> store.Safe()
  {
    if orderId !in store.orders {
      return Fail(OrderNotFound);
    }
    var st := ParseStatus(status);
    if st.None? {
      return Fail(InvalidStatus);
    }
    store.SetStatus(orderId, st.value);
    r := Ok;
  }

  /** Choice 5, view stock: `empty` when the catalog has no entries, else the whole catalog. */
  method ViewStock(store: Store) returns (empty: bool, rows: Catalog)
    ensures empty <==> store.medicines == map[]
    ensures empty ==> rows == map[]
    ensures !empty ==> rows == store.medicines
  {
    if store.medicines == map[] {
      return true, map[];
    }
    empty := false;
    rows := map[];
    var rest := store.medicines.Keys;
    while rest != {}
      invariant rest <= store.medicines.Keys
      invariant rows == Restrict(store.medicines, store.medicines.Keys - rest)
      decreases rest
    {
      var med :| med in rest;
      rows := rows[med := store.medicines[med]];
      rest := rest - {med};
    }
    assert Restrict(store.medicines, store.medicines.Keys - rest) == store.medicines;
  }
}
