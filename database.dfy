/** The application's database context reduced to its two tables that the core
    reads and writes, Products and Orders (each order owning its lines), with the
    identity counters that hand out keys and the ORM's Add, Update and Remove as
    one atomic step each. */
module Database {
  import opened Common
  import opened Products
  import opened Orders

  /** Every product row is stored under its own Id. */
  predicate ProductsKeyed(products: map<int, Product>)
  {
    forall k :: k in products ==> products[k].id == k
  }

  /** Every order row is stored under its own Id. */
  predicate OrdersKeyed(orders: map<int, Order>)
  {
    forall k :: k in orders ==> orders[k].id == k
  }

  /** The order as saved under key `id`: relationship fix-up sets every line's OrderId. */
  function WithOrderId(o: Order, id: int): (r: Order)
    ensures r.id == id && r.guestName == o.guestName && r.guestEmail == o.guestEmail
    ensures r.orderDate == o.orderDate && r.totalAmount == o.totalAmount
    ensures |r.orderItems| == |o.orderItems|
    ensures forall i :: 0 <= i < |r.orderItems| ==> r.orderItems[i] == o.orderItems[i].(orderId := id)
  {
    o.(id := id, orderItems := seq(|o.orderItems|, i requires 0 <= i < |o.orderItems| => o.orderItems[i].(orderId := id)))
  }

  class AppDb {
    var products: map<int, Product>
    var orders: map<int, Order>
    /** The next value of each identity column; keys start at 1 and are never reused. */
    var nextProductId: int
    var nextOrderId: int

    ghost predicate Valid()
      reads this
    {
      && 0 < nextProductId && 0 < nextOrderId
      && ProductsKeyed(products) && OrdersKeyed(orders)
      && (forall k :: k in products ==> 0 < k < nextProductId)
      && (forall k :: k in orders ==> 0 < k < nextOrderId)
    }

    constructor ()
      ensures Valid() && products == map[] && orders == map[]
    {
      products, orders := map[], map[];
      nextProductId, nextOrderId := 1, 1;
    }

    /** Add(order) then SaveChanges() for an order whose key is unset (0): the
        identity column gives it the next key, which no stored order has. */
    method AddOrder(o: Order) returns (saved: Order)
      requires Valid()
      requires o.id == 0
      modifies this
      ensures Valid()
      ensures saved == WithOrderId(o, old(nextOrderId)) && saved.id !in old(orders)
      ensures orders == old(orders)[saved.id := saved]
      ensures nextOrderId == old(nextOrderId) + 1
      ensures products == old(products) && nextProductId == old(nextProductId)
    {
      saved := WithOrderId(o, nextOrderId);
      orders := orders[saved.id := saved];
      nextOrderId := nextOrderId + 1;
    }

    /** Add(product) then SaveChanges() for a product whose key is unset (0): the
        identity column gives it the next key, which no stored product has. */
    method AddProduct(p: Product) returns (saved: Product)
      requires Valid()
      requires p.id == 0
      modifies this
      ensures Valid()
      ensures saved == p.(id := old(nextProductId)) && saved.id !in old(products)
      ensures products == old(products)[saved.id := saved]
      ensures nextProductId == old(nextProductId) + 1
      ensures orders == old(orders) && nextOrderId == old(nextOrderId)
    {
      saved := p.(id := nextProductId);
      products := products[saved.id := saved];
      nextProductId := nextProductId + 1;
    }

    /** Update(order) then SaveChanges(). An order whose key is unset (0) is tracked
        as new and inserted under a fresh key; an order whose key is stored replaces
        that row; any other key updates no row, so SaveChanges throws a concurrency
        exception, reported here as None with nothing changed. */
    method UpdateOrder(o: Order) returns (saved: Option<Order>)
      requires Valid()
      modifies this
      ensures Valid()
      ensures saved.Some? <==> o.id == 0 || o.id in old(orders)
      ensures saved.Some? && o.id == 0 ==>
        saved.value == WithOrderId(o, old(nextOrderId)) && orders == old(orders)[saved.value.id := saved.value]
      ensures saved.Some? && o.id != 0 ==>
        saved.value == WithOrderId(o, o.id) && orders == old(orders)[o.id := saved.value]
      ensures saved.None? ==> orders == old(orders)
      ensures nextOrderId == old(nextOrderId) + (if o.id == 0 then 1 else 0)
      ensures products == old(products) && nextProductId == old(nextProductId)
    {
      if o.id == 0 {
        var row := AddOrder(o);
        saved := Some(row);
      } else if o.id in orders {
        var row := WithOrderId(o, o.id);
        orders := orders[o.id := row];
        saved := Some(row);
      } else {
        saved := None;
      }
    }

    /** Update(product) then SaveChanges(), with the same three cases as UpdateOrder. */
    method UpdateProduct(p: Product) returns (saved: Option<Product>)
      requires Valid()
      modifies this
      ensures Valid()
      ensures saved.Some? <==> p.id == 0 || p.id in old(products)
      ensures saved.Some? && p.id == 0 ==>
        saved.value == p.(id := old(nextProductId)) && products == old(products)[saved.value.id := saved.value]
      ensures saved.Some? && p.id != 0 ==> saved.value == p && products == old(products)[p.id := p]
      ensures saved.None? ==> products == old(products)
      ensures nextProductId == old(nextProductId) + (if p.id == 0 then 1 else 0)
      ensures orders == old(orders) && nextOrderId == old(nextOrderId)
    {
      if p.id == 0 {
        var row := AddProduct(p);
        saved := Some(row);
      } else if p.id in products {
        products := products[p.id := p];
        saved := Some(p);
      } else {
        saved := None;
      }
    }

    /** Remove(order) then SaveChanges(); the order's lines go with it. */
    method RemoveOrder(id: int)
      requires Valid()
      modifies this`orders
      ensures Valid()
      ensures orders == old(orders) - {id}
    {
      orders := orders - {id};
    }

    /** Remove(product) then SaveChanges(). */
    method RemoveProduct(id: int)
      requires Valid()
      modifies this`products
      ensures Valid()
      ensures products == old(products) - {id}
    {
      products := products - {id};
    }
  }
}
