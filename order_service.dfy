/** The order service (Services/OrderService.cs): placing an order against the
    product table in two passes, and the plain queries and updates of the order
    table. The clock is a parameter: `utcNow` stands for DateTime.UtcNow. */
module OrderService {
  import opened Common
  import opened Products
  import opened Orders
  import opened Database

  /** Why CreateOrderAsync throws InvalidOperationException before changing anything. */
  datatype StockError =
    | ProductNotFound(productId: int)
    | InsufficientStock(productName: string, available: int, requested: int)
  {
    /** The exception's message: the product's id, or its name followed by the stock
        available and the quantity requested, each number readable back from the text. */
    function Message(): (r: string)
      ensures ProductNotFound? ==>
        && |r| >= 16 + 11 && r[..16] == "Product with ID " && r[|r| - 11..] == " not found."
        && r[16..|r| - 11] == IntToString(productId) && ParseInt(r[16..|r| - 11]) == productId
      ensures InsufficientStock? ==>
        var head := "Insufficient stock for product " + productName + ". Available: ";
        var n := |IntToString(available)|;
        && |head| + n + 13 < |r| && r[..|head|] == head
        && r[|head|..|head| + n] == IntToString(available) && ParseInt(r[|head|..|head| + n]) == available
        && r[|head| + n..|head| + n + 13] == ", Requested: "
        && r[|head| + n + 13..] == IntToString(requested) && ParseInt(r[|head| + n + 13..]) == requested
    {
      match this
      case ProductNotFound(id) =>
        var digits := IntToString(id);
        var r := "Product with ID " + digits + " not found.";
        assert r[..16] == "Product with ID " && r[16..|r| - 11] == digits && r[|r| - 11..] == " not found.";
        r
      case InsufficientStock(name, available, requested) =>
        var head := "Insufficient stock for product " + name + ". Available: ";
        var a := IntToString(available);
        var b := IntToString(requested);
        ConcatParts(head, a, ", Requested: ", b);
        head + a + ", Requested: " + b
    }
  }

  /** A line passes the validation pass: its product exists and has at least the
      requested quantity in stock, judged against the stock before the order. */
  predicate InStock(products: map<int, Product>, item: OrderItem)
  {
    item.productId in products && item.quantity <= products[item.productId].quantityInStock
  }

  /** The exception the validation pass throws for a line that does not pass. */
  function StockErrorOf(products: map<int, Product>, item: OrderItem): StockError
  {
    if item.productId !in products then ProductNotFound(item.productId)
    else InsufficientStock(products[item.productId].name, products[item.productId].quantityInStock, item.quantity)
  }

  /** Line i is the first line that fails the validation pass. */
  predicate IsFirstStockFailure(products: map<int, Product>, items: seq<OrderItem>, i: int)
  {
    && 0 <= i < |items|
    && !InStock(products, items[i])
    && forall j :: 0 <= j < i ==> InStock(products, items[j])
  }

  /** No two lines name the same product. */
  predicate DistinctProducts(items: seq<OrderItem>)
  {
    forall i, j :: 0 <= i < j < |items| ==> items[i].productId != items[j].productId
  }

  /** The total quantity that the lines request of product `pid`. */
  function QuantityOrdered(items: seq<OrderItem>, pid: int): int
  {
    if items == [] then 0
    else
      var last := items[|items| - 1];
      QuantityOrdered(items[..|items| - 1], pid) + (if last.productId == pid then last.quantity else 0)
  }

  /** The ordered quantity counts only the lines naming the product: it is 0 when no
      line names it, never negative when no quantity is, and positive when some line
      names it and every quantity is positive. */
  lemma {:induction false} QuantityOrderedBounds(items: seq<OrderItem>, pid: int)
    ensures (forall i :: 0 <= i < |items| ==> items[i].productId != pid) ==> QuantityOrdered(items, pid) == 0
    ensures (forall i :: 0 <= i < |items| ==> items[i].quantity >= 0) ==> QuantityOrdered(items, pid) >= 0
    ensures (forall i :: 0 <= i < |items| ==> items[i].quantity > 0)
            && (exists i :: 0 <= i < |items| && items[i].productId == pid)
            ==> QuantityOrdered(items, pid) > 0
  {
    if items != [] {
      var init := items[..|items| - 1];
      assert forall i :: 0 <= i < |init| ==> init[i] == items[i];
      QuantityOrderedBounds(init, pid);
    }
  }

  /** `after` is `before` with each product's stock reduced by the summed quantity
      of the lines naming it; every other field and every key is unchanged. */
  ghost predicate StockReduced(before: map<int, Product>, after: map<int, Product>, items: seq<OrderItem>)
  {
    && after.Keys == before.Keys
    && forall k :: k in after ==>
         after[k] == before[k].(quantityInStock := before[k].quantityInStock - QuantityOrdered(items, k))
  }

  lemma StockReducedStep(before: map<int, Product>, after: map<int, Product>, items: seq<OrderItem>, item: OrderItem)
    requires StockReduced(before, after, items) && item.productId in after
    ensures var p := after[item.productId];
      StockReduced(before, after[item.productId := p.(quantityInStock := p.quantityInStock - item.quantity)], items + [item])
  {
    assert (items + [item])[..|items|] == items;
  }

  /** `lines` are `items` with each unit price taken from the product it names. */
  ghost predicate PricedAs(products: map<int, Product>, items: seq<OrderItem>, lines: seq<OrderItem>)
  {
    && |lines| == |items|
    && forall j :: 0 <= j < |items| ==>
         items[j].productId in products && lines[j] == items[j].(unitPrice := products[items[j].productId].price)
  }

  lemma PricedAsStep(products: map<int, Product>, items: seq<OrderItem>, lines: seq<OrderItem>, item: OrderItem)
    requires PricedAs(products, items, lines) && item.productId in products
    ensures PricedAs(products, items + [item], lines + [item.(unitPrice := products[item.productId].price)])
    ensures var line := item.(unitPrice := products[item.productId].price);
      ItemsTotal(lines + [line]) == ItemsTotal(lines) + LineAmount(line)
  {
    var line := item.(unitPrice := products[item.productId].price);
    assert (lines + [line])[..|lines|] == lines;
  }

  /** The lines with each unit price taken from the product the line names. */
  function Priced(products: map<int, Product>, items: seq<OrderItem>): (lines: seq<OrderItem>)
    requires forall i :: 0 <= i < |items| ==> items[i].productId in products
    ensures PricedAs(products, items, lines)
  {
    seq(|items|, i requires 0 <= i < |items| => items[i].(unitPrice := products[items[i].productId].price))
  }

  /** Pricing is a function of the products and the lines. */
  lemma PricedAsUnique(products: map<int, Product>, items: seq<OrderItem>, lines: seq<OrderItem>)
    requires PricedAs(products, items, lines)
    ensures lines == Priced(products, items)
  {
  }

  /** The order CreateOrderAsync saves under key `id` when every line passes the
      validation pass against `products`. */
  ghost function PlacedOrder(products: map<int, Product>, order: Order, utcNow: int, id: int): (saved: Order)
    requires forall i :: 0 <= i < |order.orderItems| ==> order.orderItems[i].productId in products
    ensures saved.id == id
    ensures saved.guestName == order.guestName && saved.guestEmail == order.guestEmail
    ensures saved.orderDate == DateTime(utcNow, Utc)
    ensures |saved.orderItems| == |order.orderItems|
    ensures forall i :: 0 <= i < |saved.orderItems| ==>
      saved.orderItems[i] == order.orderItems[i].(
        unitPrice := products[order.orderItems[i].productId].price, orderId := id)
    ensures saved.totalAmount == ItemsTotal(saved.orderItems)
  {
    var lines := Priced(products, order.orderItems);
    var saved := WithOrderId(order.(orderDate := DateTime(utcNow, Utc), totalAmount := ItemsTotal(lines), orderItems := lines), id);
    ItemsTotalSameAmounts(lines, saved.orderItems);
    saved
  }

  /** The first pass of CreateOrderAsync: each line, in order, is looked up and
      compared with the product's stock on its own; the first line that fails stops
      the pass with its error. */
  method CheckStock(products: map<int, Product>, items: seq<OrderItem>) returns (error: Option<StockError>)
    ensures error.None? <==> forall i :: 0 <= i < |items| ==> InStock(products, items[i])
    ensures error.Some? ==> exists i :: IsFirstStockFailure(products, items, i) && error.value == StockErrorOf(products, items[i])
  {
    for i := 0 to |items|
      invariant forall j :: 0 <= j < i ==> InStock(products, items[j])
    {
      var item := items[i];
      if item.productId !in products {
        assert IsFirstStockFailure(products, items, i);
        return Some(ProductNotFound(item.productId));
      }
      var product := products[item.productId];
      if product.quantityInStock < item.quantity {
        assert IsFirstStockFailure(products, items, i);
        return Some(InsufficientStock(product.name, product.quantityInStock, item.quantity));
      }
    }
    return None;
  }

  /** CreateOrderAsync. If some line fails the validation pass, the first failing line's
      error is returned and neither table changes. Otherwise every line gets its
      product's current price as its unit price, the total is the sum of the line
      amounts, each product's stock drops by the summed quantity of the lines naming
      it, and the order is inserted once, under a fresh key, dated `utcNow` (UTC). */
  method CreateOrder(db: AppDb, order: Order, utcNow: int) returns (r: Result<Order, StockError>)
    requires db.Valid()
    requires order.id == 0
    modifies db
    ensures db.Valid()
    ensures r.Failure? <==> exists i :: 0 <= i < |order.orderItems| && !InStock(old(db.products), order.orderItems[i])
    ensures r.Failure? ==>
      exists i :: IsFirstStockFailure(old(db.products), order.orderItems, i)
        && r.error == StockErrorOf(old(db.products), order.orderItems[i])
    ensures r.Failure? ==>
      db.products == old(db.products) && db.orders == old(db.orders) && db.nextOrderId == old(db.nextOrderId)
    ensures r.Success? ==> forall i :: 0 <= i < |order.orderItems| ==> order.orderItems[i].productId in old(db.products)
    ensures r.Success? ==>
      && r.value == PlacedOrder(old(db.products), order, utcNow, old(db.nextOrderId))
      && r.value.id !in old(db.orders)
      && db.orders == old(db.orders)[r.value.id := r.value]
    ensures r.Success? ==> db.products.Keys == old(db.products).Keys && db.nextOrderId == old(db.nextOrderId) + 1
    ensures db.nextProductId == old(db.nextProductId)
    ensures r.Success? ==>
      forall k :: k in db.products ==>
        db.products[k] == old(db.products)[k].(
          quantityInStock := old(db.products)[k].quantityInStock - QuantityOrdered(order.orderItems, k))
  {
    var items := order.orderItems;
    // Validate stock levels first.
    var error := CheckStock(db.products, items);
    if error.Some? {
      return Failure(error.value);
    }

    ghost var before := db.products;
    var orderDate := DateTime(utcNow, Utc);
    var total := 0;
    var lines: seq<OrderItem> := [];
    assert StockReduced(before, db.products, items[..0]);
    // The second pass finds every product again: the first pass has just found them
    // all, and no line removes a product, so the source's null check always succeeds.
    for i := 0 to |items|
      invariant db.Valid()
      invariant db.orders == old(db.orders) && db.nextOrderId == old(db.nextOrderId)
      invariant db.nextProductId == old(db.nextProductId)
      invariant StockReduced(before, db.products, items[..i])
      invariant PricedAs(before, items[..i], lines)
      invariant total == ItemsTotal(lines)
    {
      var item := items[i];
      assert InStock(before, item);
      var product := db.products[item.productId];
      var line := item.(unitPrice := product.price);
      total := total + LineAmount(line);
      StockReducedStep(before, db.products, items[..i], item);
      db.products := db.products[item.productId := product.(quantityInStock := product.quantityInStock - item.quantity)];
      PricedAsStep(before, items[..i], lines, item);
      lines := lines + [line];
      assert items[..i + 1] == items[..i] + [item];
    }
    assert items[..|items|] == items;
    PricedAsUnique(before, items, lines);

    var saved := db.AddOrder(order.(orderDate := orderDate, totalAmount := total, orderItems := lines));
    return Success(saved);
  }

  /** With at most one line per product, a product's ordered quantity is the quantity
      of its line, or 0 when no line names it. */
  lemma {:induction false} QuantityOrderedDistinct(items: seq<OrderItem>, pid: int)
    requires DistinctProducts(items)
    ensures (forall i :: 0 <= i < |items| ==> items[i].productId != pid) ==> QuantityOrdered(items, pid) == 0
    ensures forall i :: 0 <= i < |items| && items[i].productId == pid ==> QuantityOrdered(items, pid) == items[i].quantity
  {
    if items != [] {
      var n := |items| - 1;
      var init := items[..n];
      assert forall i :: 0 <= i < n ==> init[i] == items[i];
      QuantityOrderedDistinct(init, pid);
    }
  }

  /** Validation compares each line with the stock before the order on its own. When
      the lines name distinct products that is enough: every product's stock after a
      successful order is still non-negative. */
  lemma StockStaysNonNegative(products: map<int, Product>, items: seq<OrderItem>)
    requires forall k :: k in products ==> products[k].quantityInStock >= 0
    requires forall i :: 0 <= i < |items| ==> InStock(products, items[i])
    requires DistinctProducts(items)
    ensures forall k :: k in products ==> products[k].quantityInStock - QuantityOrdered(items, k) >= 0
  {
    forall k | k in products
      ensures products[k].quantityInStock - QuantityOrdered(items, k) >= 0
    {
      QuantityOrderedDistinct(items, k);
    }
  }

  /** ... and only then: two lines of 6 for a product with 10 in stock each pass
      validation, and the stock ends at -2. */
  lemma DuplicateLinesOversell()
    ensures var products := map[1 := Product(1, "Widget", None, 1000, 10, 2, 1)];
      var items := [OrderItem(0, 1, 6, 0), OrderItem(0, 1, 6, 0)];
      && (forall i :: 0 <= i < |items| ==> InStock(products, items[i]))
      && !DistinctProducts(items)
      && products[1].quantityInStock - QuantityOrdered(items, 1) == -2
  {
    var items := [OrderItem(0, 1, 6, 0), OrderItem(0, 1, 6, 0)];
    assert items[..1][..0] == [];
    assert QuantityOrdered(items[..1], 1) == 6;
    assert QuantityOrdered(items, 1) == 12;
    assert items[0].productId == items[1].productId;
  }

  /** GetOrderByIdAsync: FirstOrDefault(o => o.Id == id) over the Orders table. */
  function GetOrderById(orders: map<int, Order>, id: int): (r: Option<Order>)
    requires OrdersKeyed(orders)
    ensures r.Some? <==> exists k :: k in orders && orders[k].id == id
    ensures r.Some? ==> r.value.id == id && r.value == orders[id]
  {
    if id in orders then Some(orders[id]) else None
  }

  /** Order k is at least as recent as every order in `ids`. */
  ghost predicate IsLatest(orders: map<int, Order>, ids: set<int>, k: int)
    requires ids <= orders.Keys
  {
    k in ids && forall j :: j in ids ==> orders[j].orderDate.ticks <= orders[k].orderDate.ticks
  }

  /** A non-empty set of stored keys has a most recent order. */
  lemma {:induction false} LatestExists(orders: map<int, Order>, ids: set<int>)
    requires ids <= orders.Keys && exists k :: k in ids
    ensures exists k :: IsLatest(orders, ids, k)
  {
    var x :| x in ids;
    var rest := ids - {x};
    if exists y :: y in rest {
      LatestExists(orders, rest);
      var y :| IsLatest(orders, rest, y);
      if orders[x].orderDate.ticks <= orders[y].orderDate.ticks {
        assert IsLatest(orders, ids, y);
      } else {
        assert IsLatest(orders, ids, x);
      }
    } else {
      forall j | j in ids ensures j == x {
        assert j !in rest;
      }
      assert IsLatest(orders, ids, x);
    }
  }

  /** The keys `ids`, each once, ordered by OrderDate descending (ties in any order). */
  ghost function NewestFirst(orders: map<int, Order>, ids: set<int>): (r: seq<int>)
    requires ids <= orders.Keys
    ensures forall i :: 0 <= i < |r| ==> r[i] in ids
    ensures forall k :: k in ids ==> k in r
    ensures forall i, j :: 0 <= i < j < |r| ==> r[i] != r[j]
    ensures forall i, j :: 0 <= i < j < |r| ==> orders[r[i]].orderDate.ticks >= orders[r[j]].orderDate.ticks
    decreases ids
  {
    if exists k :: k in ids then
      LatestExists(orders, ids);
      var k :| IsLatest(orders, ids, k);
      [k] + NewestFirst(orders, ids - {k})
    else []
  }

  /** The stored rows under `keys`, in the order of `keys`. */
  function Rows(orders: map<int, Order>, keys: seq<int>): (r: seq<Order>)
    requires OrdersKeyed(orders)
    requires forall i :: 0 <= i < |keys| ==> keys[i] in orders
    ensures |r| == |keys|
    ensures forall i :: 0 <= i < |r| ==> r[i] == orders[keys[i]] && r[i].id == keys[i]
  {
    seq(|keys|, i requires 0 <= i < |keys| => orders[keys[i]])
  }

  /** The stored orders whose keys are in `ids`, each exactly once, newest first. */
  ghost function OrdersNewestFirst(orders: map<int, Order>, ids: set<int>): (r: seq<Order>)
    requires OrdersKeyed(orders) && ids <= orders.Keys
    ensures forall i :: 0 <= i < |r| ==> r[i].id in ids && orders[r[i].id] == r[i]
    ensures forall k :: k in ids ==> exists i :: 0 <= i < |r| && r[i].id == k
    ensures forall i, j :: 0 <= i < j < |r| ==> r[i].id != r[j].id
    ensures forall i, j :: 0 <= i < j < |r| ==> r[i].orderDate.ticks >= r[j].orderDate.ticks
  {
    var keys := NewestFirst(orders, ids);
    var r := Rows(orders, keys);
    assert forall k :: k in ids ==> exists i :: 0 <= i < |r| && r[i].id == k by {
      forall k | k in ids ensures exists i :: 0 <= i < |r| && r[i].id == k {
        var i :| 0 <= i < |keys| && keys[i] == k;
        assert r[i].id == k;
      }
    }
    r
  }

  /** GetOrdersByEmailAsync: exactly the stored orders placed with this e-mail address,
      each once, newest first. */
  ghost function GetOrdersByEmail(orders: map<int, Order>, email: string): (r: seq<Order>)
    requires OrdersKeyed(orders)
    ensures forall i :: 0 <= i < |r| ==> r[i].id in orders && orders[r[i].id] == r[i] && r[i].guestEmail == email
    ensures forall k :: k in orders && orders[k].guestEmail == email ==> exists i :: 0 <= i < |r| && r[i].id == k
    ensures forall i, j :: 0 <= i < j < |r| ==> r[i].id != r[j].id
    ensures forall i, j :: 0 <= i < j < |r| ==> r[i].orderDate.ticks >= r[j].orderDate.ticks
  {
    var ids := set k | k in orders && orders[k].guestEmail == email;
    assert forall k :: k in orders && orders[k].guestEmail == email ==> k in ids;
    OrdersNewestFirst(orders, ids)
  }

  /** GetAllOrdersAsync: every stored order exactly once, newest first. */
  ghost function GetAllOrders(orders: map<int, Order>): (r: seq<Order>)
    requires OrdersKeyed(orders)
    ensures forall i :: 0 <= i < |r| ==> r[i].id in orders && orders[r[i].id] == r[i]
    ensures forall k :: k in orders ==> exists i :: 0 <= i < |r| && r[i].id == k
    ensures forall i, j :: 0 <= i < j < |r| ==> r[i].id != r[j].id
    ensures forall i, j :: 0 <= i < j < |r| ==> r[i].orderDate.ticks >= r[j].orderDate.ticks
  {
    OrdersNewestFirst(orders, orders.Keys)
  }

  /** UpdateOrderAsync: true when the row was saved; false when SaveChanges threw
      because no stored row has the order's (non-zero) key. */
  method UpdateOrder(db: AppDb, order: Order) returns (ok: bool)
    requires db.Valid()
    modifies db
    ensures db.Valid()
    ensures ok <==> order.id == 0 || order.id in old(db.orders)
    ensures ok && order.id != 0 ==> db.orders == old(db.orders)[order.id := WithOrderId(order, order.id)]
    ensures ok && order.id == 0 ==>
      db.orders == old(db.orders)[old(db.nextOrderId) := WithOrderId(order, old(db.nextOrderId))]
    ensures !ok ==> db.orders == old(db.orders)
    ensures db.nextOrderId == old(db.nextOrderId) + (if order.id == 0 then 1 else 0)
    ensures db.products == old(db.products) && db.nextProductId == old(db.nextProductId)
  {
    var saved := db.UpdateOrder(order);
    ok := saved.Some?;
  }

  /** DeleteOrderAsync: true exactly when an order with this id was stored; afterwards
      it is gone, every other order is untouched, and no stock is given back. */
  method DeleteOrder(db: AppDb, id: int) returns (deleted: bool)
    requires db.Valid()
    modifies db
    ensures db.Valid()
    ensures deleted <==> id in old(db.orders)
    ensures db.orders == old(db.orders) - {id}
    ensures GetOrderById(db.orders, id).None?
    ensures db.products == old(db.products)
    ensures db.nextOrderId == old(db.nextOrderId) && db.nextProductId == old(db.nextProductId)
  {
    var order := GetOrderById(db.orders, id);
    if order.Some? {
      db.RemoveOrder(id);
      return true;
    }
    return false;
  }

  /** The service scenario: one product with 10 in stock at 10.00. Ordering 15 is
      refused with the product's name, the 10 available and the 15 requested, and the
      stock stays 10; ordering 2 then gives a total of 20.00, an order dated in UTC,
      and leaves 8. */
  method PlaceOrderScenario() returns (refusal: string, leftAfterRefusal: int, total: int, kind: DateTimeKind, left: int)
    ensures refusal == InsufficientStock("Test Product", 10, 15).Message() && leftAfterRefusal == 10
    ensures total == 2000 && kind == Utc && left == 8
  {
    var db := new AppDb();
    var p := db.AddProduct(Product(0, "Test Product", Some("Test Description"), 1000, 10, 2, 1));
    var stocked := db.products;

    var big := OrderItem(0, p.id, 15, 0);
    var refused := CreateOrder(db, Order(0, "Test User", "test@example.com", DateTime(0, Unspecified), 0, [big]), 100);
    assert !InStock(stocked, big);
    assert refused.Failure? && refused.error == InsufficientStock("Test Product", 10, 15);
    refusal, leftAfterRefusal := refused.error.Message(), db.products[p.id].quantityInStock;

    var line := OrderItem(0, p.id, 2, 0);
    var placed := CreateOrder(db, Order(0, "Test User", "test@example.com", DateTime(0, Unspecified), 0, [line]), 200);
    assert InStock(stocked, line);
    assert placed.Success?;
    var lines := placed.value.orderItems;
    assert |lines| == 1 && lines[..0] == [];
    assert lines[0].unitPrice == 1000 && lines[0].quantity == 2;
    assert ItemsTotal(lines) == ItemsTotal(lines[..0]) + LineAmount(lines[0]) == 2000;
    assert [line][..0] == [];
    assert QuantityOrdered([line], p.id) == 2;
    total, kind, left := placed.value.totalAmount, placed.value.orderDate.kind, db.products[p.id].quantityInStock;
  }
}
