# Inventory and guest orders, modelled in Dafny

This project models the core of a small ASP.NET Core shop. It keeps a product
catalogue with stock levels and takes orders from guests, who identify themselves
by name and e-mail address. The model covers five parts:

- **Placing an order.** The order service checks every line against the current
  stock. It then prices each line at its product's current price, totals the
  order, lowers each product's stock and saves the order.
- **Order queries and updates.** Orders can be looked up by id, listed by e-mail
  address (newest first), updated and deleted.
- **The order controller.** It runs its own validation loop before the service
  is called. It also guards the edit and delete of order rows and serves the
  guest tracking pages.
- **The product controller.** It provides the catalogue filters (name, category,
  price range, low stock) and Search's price-range checks. It also guards the
  create, edit and delete of product rows.
- **Record validation.** This covers the validation attributes and the custom
  validators of `Product` and `Order`.

The database is the class `Database.AppDb`. It holds two tables,
`products: map<int, Product>` and `orders: map<int, Order>` (each order owns its
lines), and the two identity counters. Each add, update or remove of the ORM,
followed by SaveChanges, is one atomic step on these fields:

- An update of a row whose key is 0 inserts it under a fresh key.
- An update of a stored key replaces that row.
- An update of any other key fails as the ORM's concurrency exception does, and
  changes nothing.

Money (`decimal(18,2)`) is a whole number of cents. `DateTime` values are ticks
with a kind, and ordering compares ticks only. The clock is a parameter (`utcNow`),
and so is the framework's `[EmailAddress]` format check (`isEmail`).

Files:

- `common.dfy`: `Option`, `Result`, string tests, integer rendering.
- `products.dfy`: `Models/Product.cs`.
- `orders.dfy`: `Models/Order.cs` and the order line.
- `database.dfy`: the tables.
- `order_service.dfy`: `Services/OrderService.cs`.
- `order_controller.dfy`: `Controllers/OrderController.cs`.
- `product_controller.dfy`: `Controllers/ProductController.cs`.

## Model

Paths are under `WebApplication1/`.

| member | source | states |
|---|---|---|
| Products.ValidatePrice | WebApplication1/Models/Product.cs:42-49 | succeeds iff the price is > 0; otherwise the error is "Price must be greater than 0" |
| Products.ValidateQuantityInStock | WebApplication1/Models/Product.cs:51-58 | succeeds iff the stock is >= 0, so zero stock is valid; otherwise "Quantity in stock cannot be negative" |
| Products.ValidateLowStockThreshold | WebApplication1/Models/Product.cs:60-67 | succeeds iff the threshold is >= 0; otherwise "Low stock threshold cannot be negative" |
| Products.ValidateCategoryId | WebApplication1/Models/Product.cs:69-76 | succeeds iff the category id is > 0, so 0 is rejected; otherwise "Category ID must be greater than 0" |
| Products.RangesAgreeWithValidators | WebApplication1/Models/Product.cs:17-36 | for every price in cents, however large, [Range(0.01, double.MaxValue)] accepts exactly what ValidatePrice accepts; for every C# int, each int [Range] accepts exactly what its custom validator accepts |
| Products.ProductErrors | WebApplication1/Models/Product.cs:10-36 | TryValidateObject reports: Name iff it is blank or over 100 UTF-16 code units; Description iff present and over 1000 units; Price iff under 0.01; QuantityInStock and LowStockThreshold iff outside 0..int.MaxValue; CategoryId iff outside 1..int.MaxValue |
| Products.ValidProductCharacterization | WebApplication1/Models/Product.cs:10-36 | a product is valid iff: the name is present and at most 100 UTF-16 code units; the description is null or at most 1000 units; all four validators succeed |
| Products.DefaultProductErrors | WebApplication1/Models/Product.cs:8-40 | `new Product()` has an empty name and a null description, and fails validation on exactly Name, Price and CategoryId |
| Products.ProductValidationCases | WebApplication1/WebApplication1.Tests/Models/ProductTests.cs:10-176 | the in-range product is valid; each bad field is reported against its own member: empty name, 1001-char description, negative price, stock or threshold, zero category |
| Orders.OrderErrors | WebApplication1/Models/Order.cs:10-25 | TryValidateObject reports: GuestName iff blank or over 100 UTF-16 code units; GuestEmail iff blank, not e-mail shaped or over 100 units; TotalAmount iff under 0.01 |
| Orders.ValidOrderCharacterization | WebApplication1/Models/Order.cs:10-25 | an order is valid iff: the guest name is present and at most 100 UTF-16 code units; the e-mail is present, e-mail shaped and at most 100 units; the total is >= 0.01 |
| Orders.SurrogatePairsCountTwice | WebApplication1/Models/Order.cs:10-11 | a guest name of 51 characters outside the Basic Multilingual Plane is 102 code units long and is refused |
| Common.Utf16Length | WebApplication1/Models/Order.cs:11 | string.Length as [StringLength] counts it: between one and two units per character; one per character when all are in the Basic Multilingual Plane; two per character when none is |
| Common.NatToString | WebApplication1/Services/OrderService.cs:38 | the decimal rendering of a number: digits only, "0" for zero and no leading zero otherwise, and reading the digits back gives the number |
| Common.IntToString | WebApplication1/Services/OrderService.cs:38-42 | the rendering of an int in an interpolated message: a minus sign iff the number is negative, followed by the digits of its magnitude; parsing it gives the number back |
| Orders.ValidityIgnoresLines | WebApplication1/Models/Order.cs:27-28 | validation never looks at the lines, so an order with no lines can be valid |
| Orders.DefaultOrderErrors | WebApplication1/Models/Order.cs:10-28 | `new Order()` has an empty name, an empty e-mail and no lines, and fails on all three validated members |
| Orders.OrderValidationCases | WebApplication1/WebApplication1.Tests/Models/OrderTests.cs:10-168 | the well-formed order with no lines is valid; empty name, bad e-mail, negative total, 101-char name and 102-char e-mail are each reported against their own member |
| Orders.ItemsTotal | WebApplication1/Services/OrderService.cs:48-56 | the total of Quantity x UnitPrice is >= 0 when quantities and prices are >= 0, and > 0 for a non-empty order of positive lines |
| Orders.ItemsTotalAppend | WebApplication1/Services/OrderService.cs:50-56 | the total of two runs of lines is the sum of their totals |
| Orders.ItemsTotalSameAmounts | WebApplication1/Services/OrderService.cs:55-64 | the total depends only on each line's amount, so setting the lines' OrderId on save keeps it |
| Orders.ItemsTotalExample | WebApplication1/WebApplication1.Tests/Models/OrderTests.cs:102-122 | 2 x 10.00 + 1 x 20.00 = 40.00 |
| Database.WithOrderId | WebApplication1/Services/OrderService.cs:63-64 | the saved order keeps every field but its key, and every line gets the order's key |
| Database.AppDb.AddOrder | WebApplication1/Services/OrderService.cs:63-64 | an order with key 0 is inserted once under the next identity value, which no stored order has; that counter advances by one; products and their counter are unchanged |
| Database.AppDb.AddProduct | WebApplication1/Controllers/ProductController.cs:186-187 | a product with key 0 is inserted under the next identity value, which no stored product has; that counter advances by one; orders and their counter are unchanged |
| Database.AppDb.UpdateOrder | WebApplication1/Services/OrderService.cs:98-99 | saved iff the key is 0 (inserted fresh, counter advanced) or stored (replaced); otherwise nothing changes |
| Database.AppDb.UpdateProduct | WebApplication1/Controllers/ProductController.cs:273-274 | saved iff the key is 0 (inserted fresh, counter advanced) or stored (replaced); otherwise nothing changes |
| Database.AppDb.RemoveOrder | WebApplication1/Services/OrderService.cs:125-126 | the orders are the old orders without that key |
| Database.AppDb.RemoveProduct | WebApplication1/Controllers/ProductController.cs:374-375 | the products are the old products without that key |
| OrderService.StockError.Message | WebApplication1/Services/OrderService.cs:38-42 | "Product with ID <id> not found."; or "Insufficient stock for product <name>. Available: <n>, Requested: <m>"; each number is its Int32.ToString text and reads back to the value |
| OrderService.QuantityOrderedBounds | WebApplication1/Services/OrderService.cs:50-59 | the quantity taken from a product's stock is 0 when no line names it, never negative when no quantity is, and positive when a line names it and all quantities are positive |
| OrderService.CheckStock | WebApplication1/Services/OrderService.cs:32-44 | no error iff every line's product exists with at least the requested stock; otherwise the error is the first failing line's (not found, or insufficient stock with name, available and requested) |
| OrderService.PlacedOrder | WebApplication1/Services/OrderService.cs:46-64 | the saved order keeps name and e-mail, is dated utcNow (UTC) and has one line per line; each line carries its product's price and the new key; the total is the sum of line amounts |
| OrderService.CreateOrder | WebApplication1/Services/OrderService.cs:28-74 | for an order with key 0: fails iff some line is missing or short of stock; on failure nothing changes (tables and counters) and the first line's error is returned; on success the order is inserted once as PlacedOrder under the next order key, and each product's stock drops by the summed quantity of its lines |
| OrderService.PlaceOrderScenario | WebApplication1/WebApplication1.Tests/Services/OrderServiceTests.cs:33-106 | with 10 in stock at 10.00: ordering 15 is refused with "Available: 10, Requested: 15" and stock stays 10; ordering 2 gives 20.00, a UTC date, and leaves 8 |
| OrderService.QuantityOrderedDistinct | WebApplication1/Services/OrderService.cs:50-59 | with one line per product, a product's stock drops by its line's quantity, or not at all when no line names it |
| OrderService.StockStaysNonNegative | WebApplication1/Services/OrderService.cs:33-59 | when the lines name distinct products and pass validation, no stock goes below zero |
| OrderService.DuplicateLinesOversell | WebApplication1/Services/OrderService.cs:33-59 | two lines of 6 against a stock of 10 both pass validation, and the stock ends at -2 |
| OrderService.GetOrderById | WebApplication1/Services/OrderService.cs:76-82 | the result is present iff an order with that id is stored, and is then that order |
| OrderService.NewestFirst | WebApplication1/Services/OrderService.cs:84-92 | lists each given key exactly once, with dates non-increasing |
| OrderService.OrdersNewestFirst | WebApplication1/Services/OrderService.cs:84-92 | lists each selected stored order exactly once, with dates non-increasing |
| OrderService.GetOrdersByEmail | WebApplication1/Services/OrderService.cs:84-92 | lists exactly the stored orders with that GuestEmail, each once, newest first |
| OrderService.GetAllOrders | WebApplication1/Services/OrderService.cs:141-148 | lists every stored order exactly once, newest first |
| OrderService.UpdateOrder | WebApplication1/Services/OrderService.cs:94-113 | true iff the row was saved (key 0 or stored); on false nothing changes; the order counter advances only for key 0; products are never touched |
| OrderService.DeleteOrder | WebApplication1/Services/OrderService.cs:115-139 | true iff the order existed; afterwards it is gone, GetOrderById gives null, other orders, all stock and both counters are unchanged |
| OrderController.LineError.Message | WebApplication1/Controllers/OrderController.cs:64-77 | "Quantity must be greater than 0."; an unknown product in the service's words; or "Insufficient stock for product <name>. Available: <n>", the number being its Int32.ToString text and reading back to the value |
| OrderController.FirstLineError | WebApplication1/Controllers/OrderController.cs:60-80 | no error iff every line has a positive quantity of a stored product in stock; otherwise the first failing line's error (quantity before lookup before stock) |
| OrderController.CheckLines | WebApplication1/Controllers/OrderController.cs:60-80 | the loop with its breaks returns exactly FirstLineError: it stops at the first failing line |
| OrderController.CreateErrors | WebApplication1/Controllers/OrderController.cs:53-83 | adds at most one error to those present on entry: "At least one order item is required." for no lines, else the first failing line's message; adds none iff every line is acceptable |
| OrderController.ControllerChecksCoverService | WebApplication1/Controllers/OrderController.cs:62-85 | every line the controller accepts passes the service's stock check, so the service cannot then refuse the order |
| OrderController.Create | WebApplication1/Controllers/OrderController.cs:45-122 | for a bound order (key 0): the service is called iff no error is recorded; then the order is saved as PlacedOrder, stock drops, the order counter advances and the redirect carries the new id; otherwise the errors are shown and nothing changes, counters included |
| OrderController.FindOrder | WebApplication1/Controllers/OrderController.cs:126-166 | Details, Edit GET and Delete GET give NotFound iff the id is null or unknown, otherwise the stored order |
| OrderController.Edit | WebApplication1/Controllers/OrderController.cs:172-201 | NotFound without update if the route id differs; an invalid order is redisplayed unchanged; a valid one redirects to the list if its key is 0 or stored (saved) and gives NotFound otherwise (the row has gone); the order counter advances only when key 0 is inserted |
| OrderController.DeleteConfirmed | WebApplication1/Controllers/OrderController.cs:229-242 | removes the order if present and does nothing otherwise, leaving products and counters as they were; always redirects to the list |
| OrderController.DeleteConfirmedTwice | WebApplication1/Controllers/OrderController.cs:229-242 | deleting twice leaves the tables and counters as deleting once |
| OrderController.TrackById | WebApplication1/Controllers/OrderController.cs:258-267 | NotFound iff no order has that id, otherwise that order |
| OrderController.TrackByEmail | WebApplication1/Controllers/OrderController.cs:280-296 | a null or empty address gives "Please enter your email address."; no match gives "No orders found for this email address."; otherwise the non-empty by-email list |
| OrderController.DeleteOrder | WebApplication1/Controllers/OrderController.cs:302-323 | the order is gone afterwards, products and counters unchanged; the flash says success iff it existed, otherwise "Order not found or could not be deleted." |
| OrderController.CreateErrorCases | WebApplication1/Controllers/OrderController.cs:53-80 | no lines, a zero quantity for an unknown product, a line over stock, and a good line give the expected errors, the quantity being checked first |
| ProductController.Narrow | WebApplication1/Controllers/ProductController.cs:28-54 | one conditional Where keeps exactly the rows its condition accepts, or all rows when its argument is absent |
| ProductController.Index | WebApplication1/Controllers/ProductController.cs:22-64 | a product is listed iff it is in the table and meets every supplied condition: name contains, category equals, price >= min, price <= max, low stock |
| ProductController.IndexIsSelected | WebApplication1/Controllers/ProductController.cs:22-64 | the Where chain equals the single conjunctive filter, keeping table order and duplicates |
| ProductController.MatchesIsEveryStep | WebApplication1/Controllers/ProductController.cs:28-54 | passing the filter is passing each of the five steps |
| ProductController.NarrowCons | WebApplication1/Controllers/ProductController.cs:28-54 | a step keeps the first row iff its condition accepts it, and treats the rest independently |
| ProductController.StepsCons | WebApplication1/Controllers/ProductController.cs:28-54 | the chain keeps the first row iff the filter accepts it, and treats the rest independently |
| ProductController.NoFilterReturnsAll | WebApplication1/Controllers/ProductController.cs:29-54 | null or empty search string, no category, no bounds and lowStock null or false return the whole table |
| ProductController.LowStockIncludesThreshold | WebApplication1/Controllers/ProductController.cs:50-54 | stock equal to the threshold counts as low stock; one above it does not |
| ProductController.Search | WebApplication1/Controllers/ProductController.cs:68-136 | rejects a negative min, then a negative max, then max < min, in that order; accepts iff none applies, and then returns exactly Index's rows |
| ProductController.EqualBoundsAccepted | WebApplication1/Controllers/ProductController.cs:100-113 | equal non-negative bounds are accepted |
| ProductController.FindProduct | WebApplication1/Controllers/ProductController.cs:140-157 | Details, Edit GET and Delete GET give NotFound iff the id is null or unknown, otherwise the stored product |
| ProductController.Create | WebApplication1/Controllers/ProductController.cs:171-234 | for a bound product (key 0): a valid product is inserted under the next product key and that counter advances; an invalid one is redisplayed and nothing changes; orders and their counter are untouched |
| ProductController.Edit | WebApplication1/Controllers/ProductController.cs:258-335 | NotFound without update if the route id differs; an invalid product is redisplayed; a valid one redirects to the list if its key is 0 or stored (saved) and gives NotFound otherwise (the row has gone); the product counter advances only when key 0 is inserted |
| ProductController.DeleteConfirmed | WebApplication1/Controllers/ProductController.cs:361-397 | an unknown id gives NotFound and no change; a stored id removes exactly that product; orders and counters are unchanged |
| ProductController.CatalogueSearch | WebApplication1/WebApplication1.Tests/Controllers/ProductControllerTests.cs:161-238 | both products are listed with no arguments; "Test" finds only "Test Product", through Index and through Search |
| ProductController.CatalogueFilters | WebApplication1/Controllers/ProductController.cs:35-54 | on the same catalogue, the category, low-stock and price-range filters select the expected products |

## Left out

- I/O, logging, async/await, anti-forgery tokens and authorization attributes.
- The views, ViewBag and Categories loading. The JSON-versus-page choice on the
  `X-Requested-With` header is left out too: both branches carry the same outcome.
- Exception handlers (`catch` blocks) for errors other than the concurrency case
  are left out: connection failures, timeouts and the like. The service's refusal
  of an order is modelled as a `Failure` result.
- Foreign-key constraints are not enforced by the tables. An order line whose
  ProductId names no stored product is saved. In the application SaveChanges would
  throw: OrderService.UpdateOrder would then return false, and
  OrderController.Edit would let the exception escape. The model returns success
  in both. Deleting a product that order lines still refer to is also allowed.
- Database.AppDb.AddOrder and Database.AppDb.AddProduct require the row's key to be
  0 and always take the identity value. An ORM Add of a row with a non-zero key
  would insert under that key, or throw if it is taken. The callers never pass
  such a row: [Bind] leaves out Id on both Create actions, and CreateOrderAsync
  never sets it. So OrderService.CreateOrder, OrderController.Create and
  ProductController.Create require key 0 too.
- ProductController.Create, ProductController.Edit and OrderController.Edit take
  ModelState.IsValid to be the record's own validation (IsValidProduct,
  IsValidOrder). Model-binding errors are not modelled, and neither is MVC's
  validation of the elements of the posted OrderItems collection. Only
  OrderController.Create takes the ModelState errors as a parameter.
- OrderController.Create: the ModelState errors present on entry are a parameter,
  `priorErrors`. They come from the framework's model binding, and [Bind] leaves
  out TotalAmount, so the bound order's validation is not re-derived here.
  `DateTime.Now` and the reset of the total are left out because the service
  overwrites both. A null OrderItems collection is treated as an empty one; both
  give the same message.
- OrderService.CreateOrder: the second pass's null check on the product is
  dropped. The first pass has just found every product and nothing in between
  removes one.
- OrderService.CreateOrder: stock, quantities and totals are unbounded integers.
  The C# int wrap-around of QuantityInStock and decimal overflow are not modelled.
- OrderService.GetOrdersByEmail: orders with equal OrderDate may come in any
  relative order. The model fixes none, as the database fixes none.
- OrderService.GetAllOrders: same as GetOrdersByEmail for orders with equal dates.
- Database.AppDb.UpdateOrder: an update replaces the order's lines wholesale. The
  ORM's handling of lines that a submitted graph leaves out, and of line keys, is
  not modelled.
- ProductController.Create: the Category navigation that is loaded before saving
  is not modelled; the product keeps its CategoryId.
- Navigation properties are represented by foreign keys only: Product.Category,
  Product.OrderItems and OrderItem.Product. Include() eager loading is left out.
  So is any cascade when a product that order lines refer to is deleted.
- `Category` is not part of this model; a category is its id.
- `OrderItem`'s own source file is not part of this model. Its fields are the four
  the application reads and writes: OrderId, ProductId, Quantity and UnitPrice.
- `ProductController.Index` and `ProductController.Search` take the Products table
  as a sequence in the order the database returns it. Price bounds are whole cents.
- Products.ValidProductCharacterization: prices are whole cents, so a price between
  0 and 0.01 is not modelled. [Range(0.01, double.MaxValue)] on Price and
  ValidatePrice therefore agree on every modelled price.
- `[Required]` on strings treats only ASCII white space as blank; the other Unicode
  white-space characters are not modelled.
- `[EmailAddress]` is the parameter `isEmail`; its format rules belong to the
  framework.
- The list views and forms that only render pages are left out: OrderController
  Index, Create GET, Track GET and TrackByEmail GET, and ProductController Create
  GET.
