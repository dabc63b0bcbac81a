/** The order controller (Controllers/OrderController.cs): the Create POST validation
    loop in front of the order service, the guarded edit and delete of order rows, and
    the guest tracking pages. ModelState is the list of error messages it holds;
    ModelState.IsValid holds when that list is empty. */
module OrderController {
  import opened Common
  import opened Products
  import opened Orders
  import opened Database
  import opened OrderService

  /** What an action hands back to the framework. */
  datatype ActionResult =
    | NotFound
    | RedirectToIndex
    | RedirectToTrack(orderId: int)
    | RedirectToTrackPage(flash: Flash)
    | OrderView(order: Order)
    | TrackListView(orders: seq<Order>)
    | FormWithErrors(errors: seq<string>)

  /** The TempData message shown after a redirect. */
  datatype Flash = SuccessMessage(text: string) | ErrorMessage(text: string)

  const NoItemsMessage := "At least one order item is required."
  const NoEmailMessage := "Please enter your email address."
  const NoOrdersMessage := "No orders found for this email address."

  /** Why the Create POST loop stops at a line. */
  datatype LineError =
    | QuantityNotPositive
    | UnknownProduct(productId: int)
    | OutOfStock(productName: string, available: int)
  {
    /** The ModelState message: an unknown product is reported in the words of the
        service's exception, and a shortage gives the product's name followed by the
        stock available, readable back from the text. */
    function Message(): (r: string)
      ensures QuantityNotPositive? ==> r == "Quantity must be greater than 0."
      ensures UnknownProduct? ==> r == ProductNotFound(productId).Message()
      ensures OutOfStock? ==>
        var head := "Insufficient stock for product " + productName + ". Available: ";
        && |head| < |r| && r[..|head|] == head
        && r[|head|..] == IntToString(available) && ParseInt(r[|head|..]) == available
    {
      match this
      case QuantityNotPositive => "Quantity must be greater than 0."
      case UnknownProduct(id) => "Product with ID " + IntToString(id) + " not found."
      case OutOfStock(name, available) =>
        var head := "Insufficient stock for product " + name + ". Available: ";
        var r := head + IntToString(available);
        assert r[..|head|] == head && r[|head|..] == IntToString(available);
        r
    }
  }

  /** A line the loop lets through: a positive quantity of a stored product with
      at least that much in stock. */
  predicate LineOk(products: map<int, Product>, item: OrderItem)
  {
    item.quantity > 0 && InStock(products, item)
  }

  /** The error the loop records for a line: the quantity is checked before the
      product is looked up, and the lookup before the stock. */
  function LineErrorOf(products: map<int, Product>, item: OrderItem): LineError
  {
    if item.quantity <= 0 then QuantityNotPositive
    else if item.productId !in products then UnknownProduct(item.productId)
    else OutOfStock(products[item.productId].name, products[item.productId].quantityInStock)
  }

  /** Line i is the first line that the loop does not let through. */
  predicate IsFirstLineFailure(products: map<int, Product>, items: seq<OrderItem>, i: int)
  {
    && 0 <= i < |items|
    && !LineOk(products, items[i])
    && forall j :: 0 <= j < i ==> LineOk(products, items[j])
  }

  /** The one error the loop records, if any: the error of the first failing line. */
  function FirstLineError(products: map<int, Product>, items: seq<OrderItem>): (r: Option<LineError>)
    ensures r.None? <==> forall i :: 0 <= i < |items| ==> LineOk(products, items[i])
    ensures r.Some? ==>
      exists i :: IsFirstLineFailure(products, items, i) && r.value == LineErrorOf(products, items[i])
  {
    if items == [] then None
    else if !LineOk(products, items[0]) then
      assert IsFirstLineFailure(products, items, 0);
      Some(LineErrorOf(products, items[0]))
    else
      var rest := FirstLineError(products, items[1..]);
      if rest.Some? then
        var i :| IsFirstLineFailure(products, items[1..], i) && rest.value == LineErrorOf(products, items[1..][i]);
        assert IsFirstLineFailure(products, items, i + 1);
        rest
      else
        assert forall i :: 1 <= i < |items| ==> items[i] == items[1..][i - 1];
        None
  }

  /** There is only one first failing line. */
  lemma FirstLineFailureUnique(products: map<int, Product>, items: seq<OrderItem>, i: int, j: int)
    requires IsFirstLineFailure(products, items, i) && IsFirstLineFailure(products, items, j)
    ensures i == j
  {
  }

  /** The foreach loop of the Create POST, with its three breaks. */
  method CheckLines(products: map<int, Product>, items: seq<OrderItem>) returns (error: Option<LineError>)
    ensures error == FirstLineError(products, items)
  {
    for i := 0 to |items|
      invariant forall j :: 0 <= j < i ==> LineOk(products, items[j])
    {
      var item := items[i];
      if item.quantity <= 0 {
        error := Some(QuantityNotPositive);
      } else if item.productId !in products {
        error := Some(UnknownProduct(item.productId));
      } else if products[item.productId].quantityInStock < item.quantity {
        var product := products[item.productId];
        error := Some(OutOfStock(product.name, product.quantityInStock));
      } else {
        continue;
      }
      assert IsFirstLineFailure(products, items, i);
      var r := FirstLineError(products, items);
      var k :| IsFirstLineFailure(products, items, k) && r.value == LineErrorOf(products, items[k]);
      FirstLineFailureUnique(products, items, i, k);
      return;
    }
    return None;
  }

  /** ModelState after the Create POST's own checks: the errors already present, then
      "At least one order item is required." for an order without lines, or else the
      first failing line's message. */
  function CreateErrors(products: map<int, Product>, order: Order, priorErrors: seq<string>): (errors: seq<string>)
    ensures |priorErrors| <= |errors| <= |priorErrors| + 1 && errors[..|priorErrors|] == priorErrors
    ensures order.orderItems == [] ==> errors == priorErrors + [NoItemsMessage]
    ensures order.orderItems != [] ==>
      (errors == priorErrors <==> forall i :: 0 <= i < |order.orderItems| ==> LineOk(products, order.orderItems[i]))
    ensures order.orderItems != [] && errors != priorErrors ==>
      exists i :: IsFirstLineFailure(products, order.orderItems, i)
        && errors == priorErrors + [LineErrorOf(products, order.orderItems[i]).Message()]
  {
    if order.orderItems == [] then priorErrors + [NoItemsMessage]
    else
      match FirstLineError(products, order.orderItems)
      case None => priorErrors
      case Some(e) => priorErrors + [e.Message()]
  }

  /** Every line the controller lets through also passes the service's validation pass,
      so once the controller has accepted an order the service cannot refuse it. */
  lemma ControllerChecksCoverService(products: map<int, Product>, items: seq<OrderItem>)
    requires forall i :: 0 <= i < |items| ==> LineOk(products, items[i])
    ensures forall i :: 0 <= i < |items| ==> InStock(products, items[i])
    ensures forall i :: 0 <= i < |items| ==> items[i].quantity > 0
  {
    forall i | 0 <= i < |items|
      ensures InStock(products, items[i]) && items[i].quantity > 0
    {
      assert LineOk(products, items[i]);
    }
  }

  /** Create POST. `priorErrors` are the model-binding and validation errors ModelState
      holds on entry. The service is called exactly when no error is recorded; the
      order is then saved as the service saves it and the browser is sent to its
      tracking page. Otherwise the form comes back with the errors and neither table
      changes. */
  method Create(db: AppDb, order: Order, priorErrors: seq<string>, utcNow: int) returns (result: ActionResult)
    requires db.Valid()
    requires order.id == 0
    modifies db
    ensures db.Valid()
    ensures var errors := CreateErrors(old(db.products), order, priorErrors);
      && (result.FormWithErrors? <==> errors != [])
      && (result.FormWithErrors? ==> result.errors == errors)
    ensures result.FormWithErrors? ==>
      db.products == old(db.products) && db.orders == old(db.orders) && db.nextOrderId == old(db.nextOrderId)
    ensures result.RedirectToTrack? ==>
      && (forall i :: 0 <= i < |order.orderItems| ==> order.orderItems[i].productId in old(db.products))
      && result.orderId == old(db.nextOrderId) && result.orderId !in old(db.orders)
      && db.orders == old(db.orders)[result.orderId := PlacedOrder(old(db.products), order, utcNow, result.orderId)]
      && db.products.Keys == old(db.products).Keys
      && (forall k :: k in db.products ==>
            db.products[k] == old(db.products)[k].(
              quantityInStock := old(db.products)[k].quantityInStock - QuantityOrdered(order.orderItems, k)))
    ensures db.nextOrderId == old(db.nextOrderId) + (if result.RedirectToTrack? then 1 else 0)
    ensures db.nextProductId == old(db.nextProductId)
    ensures result.FormWithErrors? || result.RedirectToTrack?
  {
    var errors := priorErrors;
    if |order.orderItems| == 0 {
      errors := errors + [NoItemsMessage];
    } else {
      var lineError := CheckLines(db.products, order.orderItems);
      if lineError.Some? {
        errors := errors + [lineError.value.Message()];
      }
    }

    if errors == [] {
      ControllerChecksCoverService(db.products, order.orderItems);
      var created := CreateOrder(db, order, utcNow);
      if created.Failure? {
        assert false;
      }
      return RedirectToTrack(created.value.id);
    }
    return FormWithErrors(errors);
  }

  /** Details, Edit GET and Delete GET: NotFound for a missing or unknown id,
      otherwise the stored order. */
  function FindOrder(orders: map<int, Order>, id: Option<int>): (result: ActionResult)
    requires OrdersKeyed(orders)
    ensures result.NotFound? <==> id.None? || id.value !in orders
    ensures result.OrderView? ==> result.order == orders[id.value] && result.order.id == id.value
    ensures result.NotFound? || result.OrderView?
  {
    if id.None? then NotFound
    else
      match GetOrderById(orders, id.value)
      case None => NotFound
      case Some(order) => OrderView(order)
  }

  /** Edit POST. A route id that differs from the posted order's id, or a stored row
      that vanished before the save, gives NotFound; an order that fails validation is
      shown again; otherwise the row is saved as the ORM's Update saves it. */
  method Edit(db: AppDb, id: int, order: Order, isEmail: string -> bool) returns (result: ActionResult)
    requires db.Valid()
    modifies db
    ensures db.Valid()
    ensures id != order.id ==> result == NotFound
    ensures id == order.id && !IsValidOrder(order, isEmail) ==> result == OrderView(order)
    ensures id == order.id && IsValidOrder(order, isEmail) ==>
      result == (if order.id == 0 || order.id in old(db.orders) then RedirectToIndex else NotFound)
    ensures result.RedirectToIndex? && order.id != 0 ==> db.orders == old(db.orders)[order.id := WithOrderId(order, order.id)]
    ensures result.RedirectToIndex? && order.id == 0 ==>
      db.orders == old(db.orders)[old(db.nextOrderId) := WithOrderId(order, old(db.nextOrderId))]
    ensures !result.RedirectToIndex? ==> db.orders == old(db.orders)
    ensures db.nextOrderId == old(db.nextOrderId) + (if result.RedirectToIndex? && order.id == 0 then 1 else 0)
    ensures db.products == old(db.products) && db.nextProductId == old(db.nextProductId)
    ensures result.NotFound? || result.OrderView? || result.RedirectToIndex?
  {
    if id != order.id {
      return NotFound;
    }
    if IsValidOrder(order, isEmail) {
      var saved := db.UpdateOrder(order);
      if saved.None? {
        // DbUpdateConcurrencyException: the row is no longer stored, so OrderExists is false.
        return NotFound;
      }
      return RedirectToIndex;
    }
    return OrderView(order);
  }

  /** Delete POST: the order is removed when it is stored; either way the browser goes
      back to the list. */
  method DeleteConfirmed(db: AppDb, id: int) returns (result: ActionResult)
    requires db.Valid()
    modifies db
    ensures db.Valid()
    ensures result == RedirectToIndex
    ensures db.orders == old(db.orders) - {id}
    ensures db.products == old(db.products)
    ensures db.nextOrderId == old(db.nextOrderId) && db.nextProductId == old(db.nextProductId)
  {
    var order := GetOrderById(db.orders, id);
    if order.Some? {
      db.RemoveOrder(id);
    }
    return RedirectToIndex;
  }

  /** Deleting twice leaves the table as deleting once does. */
  method DeleteConfirmedTwice(db: AppDb, id: int)
    requires db.Valid()
    modifies db
    ensures db.orders == old(db.orders) - {id}
    ensures db.products == old(db.products)
    ensures db.nextOrderId == old(db.nextOrderId) && db.nextProductId == old(db.nextProductId)
  {
    var _ := DeleteConfirmed(db, id);
    ghost var once := db.orders;
    var _ := DeleteConfirmed(db, id);
    assert db.orders == once;
  }

  /** TrackById: the stored order, or NotFound. */
  function TrackById(orders: map<int, Order>, id: int): (result: ActionResult)
    requires OrdersKeyed(orders)
    ensures result.NotFound? <==> id !in orders
    ensures result.OrderView? ==> result.order == orders[id] && result.order.id == id
    ensures result.NotFound? || result.OrderView?
  {
    match GetOrderById(orders, id)
    case None => NotFound
    case Some(order) => OrderView(order)
  }

  /** TrackByEmail POST: a null or empty address is refused before any lookup; an
      address with no stored order gives "No orders found"; otherwise the orders placed
      with that address, newest first. */
  ghost function TrackByEmail(orders: map<int, Order>, email: Option<string>): (result: ActionResult)
    requires OrdersKeyed(orders)
    ensures IsNullOrEmpty(email) ==> result == FormWithErrors([NoEmailMessage])
    ensures !IsNullOrEmpty(email) ==>
      (result == FormWithErrors([NoOrdersMessage]) <==> forall k :: k in orders ==> orders[k].guestEmail != email.value)
    ensures result.TrackListView? <==>
      !IsNullOrEmpty(email) && exists k :: k in orders && orders[k].guestEmail == email.value
    ensures result.TrackListView? ==> result.orders == GetOrdersByEmail(orders, email.value) && result.orders != []
    ensures result.FormWithErrors? || result.TrackListView?
  {
    if IsNullOrEmpty(email) then FormWithErrors([NoEmailMessage])
    else
      var found := GetOrdersByEmail(orders, email.value);
      if found == [] then FormWithErrors([NoOrdersMessage])
      else TrackListView(found)
  }

  /** DeleteOrder POST: the service deletes the order, and the flash message says
      whether there was one to delete. */
  method DeleteOrder(db: AppDb, id: int) returns (result: ActionResult)
    requires db.Valid()
    modifies db
    ensures db.Valid()
    ensures id in old(db.orders) ==> result == RedirectToTrackPage(SuccessMessage("Order deleted successfully."))
    ensures id !in old(db.orders) ==>
      result == RedirectToTrackPage(ErrorMessage("Order not found or could not be deleted."))
    ensures db.orders == old(db.orders) - {id}
    ensures db.products == old(db.products)
    ensures db.nextOrderId == old(db.nextOrderId) && db.nextProductId == old(db.nextProductId)
  {
    var deleted := OrderService.DeleteOrder(db, id);
    if deleted {
      return RedirectToTrackPage(SuccessMessage("Order deleted successfully."));
    }
    return RedirectToTrackPage(ErrorMessage("Order not found or could not be deleted."));
  }

  /** The controller cases exercised for Create: an order without lines records only
      "At least one order item is required."; a zero quantity is reported before an
      unknown product is looked up; a line asking for more than the stock reports the
      product and what is available. */
  lemma CreateErrorCases()
    ensures var products := map[1 := Product(1, "Test Product", None, 1000, 10, 2, 1)];
      && CreateErrors(products, DefaultOrder, []) == [NoItemsMessage]
      && CreateErrors(products, DefaultOrder.(orderItems := [OrderItem(0, 99, 0, 0)]), [])
         == ["Quantity must be greater than 0."]
      && CreateErrors(products, DefaultOrder.(orderItems := [OrderItem(0, 1, 15, 0)]), [])
         == [OutOfStock("Test Product", 10).Message()]
      && CreateErrors(products, DefaultOrder.(orderItems := [OrderItem(0, 1, 2, 0)]), []) == []
  {
    var products := map[1 := Product(1, "Test Product", None, 1000, 10, 2, 1)];
    assert [OrderItem(0, 1, 2, 0)][1..] == [];
    assert [OrderItem(0, 99, 0, 0)][0] == OrderItem(0, 99, 0, 0);
  }
}
