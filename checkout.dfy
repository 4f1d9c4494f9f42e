/** The checkout transaction: two gates on the caller, request checks, then
    one atomic unit of work that reads the referenced products, validates
    every line against that read in request order, totals the cart, records
    an order whose items carry the prices read, and decrements stock per
    line; the receipt is handed to the mail service afterwards and its fate
    is never consulted.

    Two properties of the code as written are kept, not repaired: a line's
    quantity is never checked for sign, and each line is compared on its own
    with the stock read before any decrement, so several lines naming one
    product can together take more than its stock. */
module Checkout {
  import opened Common
  import opened Numerals
  import opened Catalog
  import Accounts

  const SignInRequired := "You must be signed in to make a purchase"
  const VerifyBeforePurchase := "You must verify your email before making a purchase"
  const EmptyCart := "No products in the cart"
  const NameAndEmailRequired := "Name and email required"
  const Completed := "completed"

  /** One `{ productId, quantity }` of the request. */
  datatype LineItem = LineItem(productId: ProductId, quantity: int)

  /** A stored order line: the unit price is the one read at purchase. */
  datatype OrderItem = OrderItem(productId: ProductId, quantity: int, price: nat)

  datatype Order = Order(
    id: OrderId,
    userId: UserId,
    customerName: string,
    customerEmail: string,
    totalAmount: int,
    status: string,
    createdAt: int,
    items: seq<OrderItem>)

  datatype ReceiptLine = ReceiptLine(name: string, quantity: int, price: nat)

  /** The payload handed to the mail service after commit. */
  datatype Receipt = Receipt(
    orderId: OrderId,
    customerName: string,
    customerEmail: string,
    items: seq<ReceiptLine>,
    totalAmount: int,
    orderDate: int)

  // ---------------------------------------------------------------------
  // Gates
  // ---------------------------------------------------------------------

  /** The stored user record, not the session token, decides: the user must
      exist and be verified or an admin. */
  predicate MayPurchase(users: map<UserId, Accounts.User>, id: UserId)
  {
    id in users && (users[id].emailVerified || users[id].isAdmin)
  }

  /** Every gate and request check before the transaction passes. */
  predicate Admitted(session: Option<UserId>, users: map<UserId, Accounts.User>, items: Option<seq<LineItem>>,
                     customerName: Option<string>, customerEmail: Option<string>)
  {
    && session.Some? && MayPurchase(users, session.value)
    && items.Some? && |items.value| > 0
    && Truthy(customerName) && Truthy(customerEmail)
  }

  // ---------------------------------------------------------------------
  // Line validation
  // ---------------------------------------------------------------------

  /** A line passes when its product was read and `stock < quantity` is
      false. The sign of the quantity is not looked at. */
  predicate LineOk(products: map<ProductId, Product>, line: LineItem)
  {
    line.productId in products && !(products[line.productId].stock < line.quantity)
  }

  predicate AllLinesOk(products: map<ProductId, Product>, items: seq<LineItem>)
  {
    forall i :: 0 <= i < |items| ==> LineOk(products, items[i])
  }

  predicate AllKnown(products: map<ProductId, Product>, items: seq<LineItem>)
  {
    forall i :: 0 <= i < |items| ==> items[i].productId in products
  }

  /** Line k is the first failing line in request order. */
  predicate IsFirstRejected(products: map<ProductId, Product>, items: seq<LineItem>, k: int)
  {
    0 <= k < |items| && !LineOk(products, items[k]) && forall i :: 0 <= i < k ==> LineOk(products, items[i])
  }

  function InsufficientStock(p: Product): string
  {
    "Insufficient stock for \"" + p.name + "\". Available: " + IntToString(p.stock)
  }

  /** The message thrown for a failing line. */
  function LineError(products: map<ProductId, Product>, line: LineItem): string
  {
    if line.productId !in products then ProductNotFound else InsufficientStock(products[line.productId])
  }

  /** The validation loop: the index of the first failing line, if any. */
  method FirstRejectedLine(products: map<ProductId, Product>, items: seq<LineItem>) returns (bad: Option<nat>)
    ensures bad.None? <==> AllLinesOk(products, items)
    ensures bad.Some? ==> IsFirstRejected(products, items, bad.value)
  {
    for i := 0 to |items|
      invariant forall j :: 0 <= j < i ==> LineOk(products, items[j])
    {
      if !LineOk(products, items[i]) {
        return Some(i);
      }
    }
    return None;
  }

  // ---------------------------------------------------------------------
  // Total and order lines
  // ---------------------------------------------------------------------

  /** `items.reduce((sum, item) => sum + price * quantity, 0)`, a left fold
      over the request's lines with the prices read. */
  function Total(products: map<ProductId, Product>, items: seq<LineItem>): int
    requires AllKnown(products, items)
    decreases |items|
  {
    if items == [] then 0
    else
      var last := items[|items| - 1];
      Total(products, items[..|items| - 1]) + products[last.productId].price * last.quantity
  }

  /** `items.map(...)` into order lines carrying the price read. */
  function OrderItems(products: map<ProductId, Product>, items: seq<LineItem>): (r: seq<OrderItem>)
    requires AllKnown(products, items)
    ensures |r| == |items|
  {
    seq(|items|, i requires 0 <= i < |items| =>
      OrderItem(items[i].productId, items[i].quantity, products[items[i].productId].price))
  }

  /** The sum of the extensions price × quantity of stored order lines. */
  function ExtensionSum(items: seq<OrderItem>): int
  {
    if items == [] then 0 else items[0].price * items[0].quantity + ExtensionSum(items[1..])
  }

  lemma {:induction false} ExtensionSumAppend(a: seq<OrderItem>, b: seq<OrderItem>)
    ensures ExtensionSum(a + b) == ExtensionSum(a) + ExtensionSum(b)
  {
    if a != [] {
      assert (a + b)[1..] == a[1..] + b;
      ExtensionSumAppend(a[1..], b);
    } else {
      assert a + b == b;
    }
  }

  /** The order's total, computed from the request, equals the sum of the
      extensions of the stored order lines. */
  lemma {:induction false} TotalIsExtensionSum(products: map<ProductId, Product>, items: seq<LineItem>)
    requires AllKnown(products, items)
    ensures Total(products, items) == ExtensionSum(OrderItems(products, items))
    decreases |items|
  {
    if items != [] {
      var init := items[..|items| - 1];
      var last := items[|items| - 1];
      TotalIsExtensionSum(products, init);
      var line := OrderItem(last.productId, last.quantity, products[last.productId].price);
      assert OrderItems(products, items) == OrderItems(products, init) + [line];
      ExtensionSumAppend(OrderItems(products, init), [line]);
      assert ExtensionSum([line]) == line.price * line.quantity;
    }
  }

  /** The order a successful checkout records. */
  function PlacedOrder(products: map<ProductId, Product>, userId: UserId, items: seq<LineItem>,
                       customerName: string, customerEmail: string, orderId: OrderId, now: int): (o: Order)
    requires AllKnown(products, items)
    ensures o.totalAmount == ExtensionSum(o.items)
    ensures o.status == Completed && o.userId == userId && o.id == orderId
    ensures |o.items| == |items|
    ensures forall i :: 0 <= i < |items| ==>
      && o.items[i].productId == items[i].productId
      && o.items[i].quantity == items[i].quantity
      && o.items[i].price == products[items[i].productId].price
  {
    TotalIsExtensionSum(products, items);
    Order(orderId, userId, customerName, customerEmail, Total(products, items), Completed, now,
          OrderItems(products, items))
  }

  function ReceiptFor(products: map<ProductId, Product>, order: Order): (r: Receipt)
    requires forall i :: 0 <= i < |order.items| ==> order.items[i].productId in products
    ensures |r.items| == |order.items|
  {
    Receipt(order.id, order.customerName, order.customerEmail,
            seq(|order.items|, i requires 0 <= i < |order.items| =>
              ReceiptLine(products[order.items[i].productId].name, order.items[i].quantity, order.items[i].price)),
            order.totalAmount, order.createdAt)
  }

  // ---------------------------------------------------------------------
  // Stock
  // ---------------------------------------------------------------------

  /** The total quantity of the lines that name `id`. */
  function QuantityOf(items: seq<LineItem>, id: ProductId): int
  {
    if items == [] then 0
    else (if items[0].productId == id then items[0].quantity else 0) + QuantityOf(items[1..], id)
  }

  lemma {:induction false} QuantityOfAppend(a: seq<LineItem>, b: seq<LineItem>, id: ProductId)
    ensures QuantityOf(a + b, id) == QuantityOf(a, id) + QuantityOf(b, id)
  {
    if a != [] {
      assert (a + b)[1..] == a[1..] + b;
      QuantityOfAppend(a[1..], b, id);
    } else {
      assert a + b == b;
    }
  }

  /** The table after one decrement per line: each product loses the total
      quantity of the lines naming it. */
  function Decremented(products: map<ProductId, Product>, items: seq<LineItem>): map<ProductId, Product>
  {
    map id | id in products :: products[id].(stock := products[id].stock - QuantityOf(items, id))
  }

  predicate StockNonNegative(products: map<ProductId, Product>)
  {
    forall id :: id in products ==> products[id].stock >= 0
  }

  predicate DistinctIds(items: seq<LineItem>)
  {
    forall i, j :: 0 <= i < j < |items| ==> items[i].productId != items[j].productId
  }

  lemma {:induction false} QuantityOfDistinct(items: seq<LineItem>, id: ProductId)
    requires DistinctIds(items)
    ensures forall k :: 0 <= k < |items| && items[k].productId == id ==> QuantityOf(items, id) == items[k].quantity
    ensures (forall k :: 0 <= k < |items| ==> items[k].productId != id) ==> QuantityOf(items, id) == 0
  {
    if items != [] {
      QuantityOfDistinct(items[1..], id);
      forall k | 0 <= k < |items| && items[k].productId == id
        ensures QuantityOf(items, id) == items[k].quantity
      {
        if k > 0 {
          assert items[1..][k - 1] == items[k];
          assert items[0].productId != id;
        } else {
          forall j | 0 <= j < |items[1..]| ensures items[1..][j].productId != id {
            assert items[1..][j] == items[j + 1];
          }
        }
      }
      if forall k :: 0 <= k < |items| ==> items[k].productId != id {
        forall j | 0 <= j < |items[1..]| ensures items[1..][j].productId != id {
          assert items[1..][j] == items[j + 1];
        }
      }
    }
  }

  /** With no product named on two lines, a checkout that passed validation
      leaves no stock negative (whatever the signs of the quantities). */
  lemma {:induction false} StockStaysNonNegative(products: map<ProductId, Product>, items: seq<LineItem>)
    requires StockNonNegative(products) && DistinctIds(items) && AllLinesOk(products, items)
    ensures StockNonNegative(Decremented(products, items))
  {
    forall id | id in products ensures Decremented(products, items)[id].stock >= 0 {
      QuantityOfDistinct(items, id);
      if k :| 0 <= k < |items| && items[k].productId == id {
        assert LineOk(products, items[k]);
      }
    }
  }

  /** Two lines of 3 for a product with stock 5 both pass validation, and
      the stock ends at -1. */
  lemma DuplicateLinesOverdraw(p: Product)
    requires p.stock == 5
    ensures var products := map[p.id := p];
            var items := [LineItem(p.id, 3), LineItem(p.id, 3)];
            AllLinesOk(products, items) && Decremented(products, items)[p.id].stock == -1
  {
    var items := [LineItem(p.id, 3), LineItem(p.id, 3)];
    assert QuantityOf(items, p.id) == 3 + QuantityOf(items[1..], p.id);
    assert QuantityOf(items[1..], p.id) == 3 + QuantityOf(items[2..], p.id);
  }

  /** A negative quantity passes validation, raises the stock and lowers the
      total. */
  lemma NegativeQuantityAccepted(p: Product, q: int)
    requires q < 0 && p.stock >= 0 && p.price > 0
    ensures var products := map[p.id := p];
            var items := [LineItem(p.id, q)];
            && AllLinesOk(products, items)
            && Decremented(products, items)[p.id].stock > p.stock
            && Total(products, items) < 0
  {
    var items := [LineItem(p.id, q)];
    assert QuantityOf(items, p.id) == q + QuantityOf(items[1..], p.id);
    assert items[..0] == [];
  }

  /** The total ignores everything about a product but its price. */
  lemma {:induction false} TotalReadsPriceOnly(products: map<ProductId, Product>, other: map<ProductId, Product>,
                                               items: seq<LineItem>)
    requires AllKnown(products, items) && AllKnown(other, items)
    requires forall i :: 0 <= i < |items| ==> other[items[i].productId].price == products[items[i].productId].price
    ensures Total(other, items) == Total(products, items)
    decreases |items|
  {
    if items != [] {
      TotalReadsPriceOnly(products, other, items[..|items| - 1]);
    }
  }

  /** An archived product is sold exactly as before: validation, its error
      messages, the total and the decrements never read the active flag. */
  lemma {:induction false} ArchivedStillSold(products: map<ProductId, Product>, items: seq<LineItem>, id: ProductId)
    requires id in products
    ensures var archived := products[id := products[id].(isActive := false)];
            && (AllLinesOk(archived, items) <==> AllLinesOk(products, items))
            && (forall i :: 0 <= i < |items| ==> LineError(archived, items[i]) == LineError(products, items[i]))
            && (AllKnown(products, items) ==> Total(archived, items) == Total(products, items))
            && (forall pid :: pid in products ==> Decremented(archived, items)[pid].stock == Decremented(products, items)[pid].stock)
  {
    var archived := products[id := products[id].(isActive := false)];
    if AllKnown(products, items) {
      TotalReadsPriceOnly(products, archived, items);
    }
  }

  lemma {:induction false} DecrementedStep(products: map<ProductId, Product>, items: seq<LineItem>, i: nat)
    requires i < |items| && items[i].productId in products
    ensures var before := Decremented(products, items[..i]);
            var id := items[i].productId;
            Decremented(products, items[..i + 1]) == before[id := before[id].(stock := before[id].stock - items[i].quantity)]
  {
    assert items[..i + 1] == items[..i] + [items[i]];
    forall id | id in products
      ensures QuantityOf(items[..i + 1], id) == QuantityOf(items[..i], id) + (if items[i].productId == id then items[i].quantity else 0)
    {
      QuantityOfAppend(items[..i], [items[i]], id);
      assert [items[i]][1..] == [];
    }
  }

  /** The per-line decrements (`Promise.all` of `stock: { decrement }`
      updates) inside the transaction. */
  method DecrementStock(table: ProductTable, items: seq<LineItem>)
    requires table.Valid() && AllKnown(table.products, items)
    modifies table
    ensures table.Valid()
    ensures table.products == Decremented(old(table.products), items)
  {
    ghost var read := table.products;
    for i := 0 to |items|
      invariant table.products == Decremented(read, items[..i])
    {
      DecrementedStep(read, items, i);
      var id := items[i].productId;
      table.products := table.products[id := table.products[id].(stock := table.products[id].stock - items[i].quantity)];
    }
    assert items[..|items|] == items;
  }

  // ---------------------------------------------------------------------
  // The store
  // ---------------------------------------------------------------------

  class Store {
    const catalog: ProductTable
    var orders: seq<Order>

    /** Every recorded order is completed, its total is the sum of its line
        extensions, and order ids are distinct. */
    ghost predicate Valid()
      reads this, catalog
    {
      && catalog.Valid()
      && (forall i :: 0 <= i < |orders| ==> orders[i].totalAmount == ExtensionSum(orders[i].items))
      && (forall i :: 0 <= i < |orders| ==> orders[i].status == Completed)
      && (forall i, j :: 0 <= i < j < |orders| ==> orders[i].id != orders[j].id)
    }

    constructor (catalog: ProductTable)
      requires catalog.Valid()
      ensures Valid() && this.catalog == catalog && orders == []
    {
      this.catalog := catalog;
      orders := [];
    }

    /** POST /api/checkout. `users` is the user table the gate reads,
        `orderId` the id the database assigns, `now` the creation time.
        `receipt` is what is handed to the mail service; whether it is
        delivered is never consulted, so it cannot change `reply`. */
    method Checkout(session: Option<UserId>, users: map<UserId, Accounts.User>, items: Option<seq<LineItem>>,
                    customerName: Option<string>, customerEmail: Option<string>, orderId: OrderId, now: int)
      returns (reply: Reply, receipt: Option<Receipt>)
      requires Valid()
      requires forall i :: 0 <= i < |orders| ==> orders[i].id != orderId
      modifies this, catalog
      ensures Valid()
      // the gates and request checks, in order
      ensures session.None? ==> reply == Err(401, SignInRequired)
      ensures session.Some? && !MayPurchase(users, session.value) ==> reply == Err(403, VerifyBeforePurchase)
      ensures session.Some? && MayPurchase(users, session.value) && (items.None? || items.value == []) ==>
        reply == Err(400, EmptyCart)
      ensures (session.Some? && MayPurchase(users, session.value) && items.Some? && items.value != [] &&
               !(Truthy(customerName) && Truthy(customerEmail))) ==> reply == Err(400, NameAndEmailRequired)
      // the transaction commits exactly when every line passes
      ensures reply.Ok? <==>
        Admitted(session, users, items, customerName, customerEmail) && AllLinesOk(old(catalog.products), items.value)
      ensures Admitted(session, users, items, customerName, customerEmail) && reply.Err? ==>
        exists k :: IsFirstRejected(old(catalog.products), items.value, k) &&
                    reply == Err(500, LineError(old(catalog.products), items.value[k]))
      // a failure writes nothing
      ensures reply.Err? ==> catalog.products == old(catalog.products) && orders == old(orders) && receipt.None?
      // a success records the order, decrements stock and hands over the receipt
      ensures reply.Ok? ==>
        && reply == Ok(200, Some(orderId))
        && orders == old(orders) + [PlacedOrder(old(catalog.products), session.value, items.value,
                                                customerName.value, customerEmail.value, orderId, now)]
        && catalog.products == Decremented(old(catalog.products), items.value)
        && receipt == Some(ReceiptFor(old(catalog.products), orders[|orders| - 1]))
      ensures reply.Ok? && DistinctIds(items.value) && StockNonNegative(old(catalog.products)) ==>
        StockNonNegative(catalog.products)
      ensures NoneReactivated(old(catalog.products), catalog.products)
    {
      receipt := None;
      if session.None? {
        return Err(401, SignInRequired), receipt;
      }
      if !MayPurchase(users, session.value) {
        return Err(403, VerifyBeforePurchase), receipt;
      }
      if items.None? || |items.value| == 0 {
        return Err(400, EmptyCart), receipt;
      }
      if !Truthy(customerName) || !Truthy(customerEmail) {
        return Err(400, NameAndEmailRequired), receipt;
      }
      var lines := items.value;

      // 1. read the products and validate every line
      var products := catalog.products;
      var bad := FirstRejectedLine(products, lines);
      if bad.Some? {
        return Err(500, LineError(products, lines[bad.value])), receipt;
      }

      // 2. and 3. total and order with price snapshots
      var order := PlacedOrder(products, session.value, lines, customerName.value, customerEmail.value, orderId, now);
      orders := orders + [order];

      // 4. decrement stock
      DecrementStock(catalog, lines);
      if DistinctIds(lines) && StockNonNegative(products) {
        StockStaysNonNegative(products, lines);
      }

      // 5. hand the receipt to the mail service; its outcome is not awaited
      receipt := Some(ReceiptFor(products, order));
      reply := Ok(200, Some(orderId));
    }
  }
  /** Two identical purchases of 3 units of a product with stock 5 priced
      1000 cents: the first records an order totalling 3000 and leaves 2 in
      stock; the second is refused naming the 2 left, and changes nothing. */
  method ConsecutiveCheckouts(store: Store, users: map<UserId, Accounts.User>, buyer: UserId, p: Product,
                              first: OrderId, second: OrderId, now: int)
    returns (r1: Reply, r2: Reply)
    requires store.Valid() && MayPurchase(users, buyer)
    requires p.id in store.catalog.products && store.catalog.products[p.id] == p
    requires p.stock == 5 && p.price == 1000
    requires first != second
    requires forall i :: 0 <= i < |store.orders| ==> store.orders[i].id != first && store.orders[i].id != second
    modifies store, store.catalog
    ensures r1 == Ok(200, Some(first))
    ensures r2 == Err(500, "Insufficient stock for \"" + p.name + "\". Available: 2")
    ensures |store.orders| == |old(store.orders)| + 1
    ensures store.orders[|store.orders| - 1].totalAmount == 3000
    ensures store.orders[|store.orders| - 1].items == [OrderItem(p.id, 3, 1000)]
    ensures p.id in store.catalog.products && store.catalog.products[p.id].stock == 2
  {
    var cart := Some([LineItem(p.id, 3)]);
    var name, email := Some("Ana"), Some("ana@gmail.com");
    assert Admitted(Some(buyer), users, cart, name, email);
    assert LineOk(store.catalog.products, LineItem(p.id, 3));
    assert [LineItem(p.id, 3)][..0] == [];
    assert Total(store.catalog.products, [LineItem(p.id, 3)]) == 3000;
    var receipt;
    r1, receipt := store.Checkout(Some(buyer), users, cart, name, email, first, now);
    assert QuantityOf([LineItem(p.id, 3)], p.id) == 3 + QuantityOf([], p.id);
    r2, receipt := store.Checkout(Some(buyer), users, cart, name, email, second, now);
    assert !LineOk(store.catalog.products, LineItem(p.id, 3));
    assert IntToString(2) == "2";
  }
}
