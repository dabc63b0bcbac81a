/** The product controller (Controllers/ProductController.cs): the catalogue filters
    of Index and Search, Search's checks on the price range, and the guarded create,
    edit and delete of product rows. `rows` is the Products table in the order the
    database returns it. Price bounds are whole cents. */
module ProductController {
  import opened Common
  import opened Products
  import opened Database

  /** What an action hands back to the framework. */
  datatype ActionResult = NotFound | RedirectToIndex | ProductView(product: Product)

  /** The optional query-string arguments of Index and Search. */
  datatype ProductFilter = ProductFilter(
    searchString: Option<string>,
    categoryId: Option<int>,
    minPrice: Option<int>,
    maxPrice: Option<int>,
    lowStock: Option<bool>)

  const NoFilter := ProductFilter(None, None, None, None, None)

  /** The low-stock test: at or below the threshold. */
  predicate IsLowStock(p: Product)
  {
    p.quantityInStock <= p.lowStockThreshold
  }

  /** A product passes the filter: it satisfies every condition the filter supplies. */
  predicate Matches(f: ProductFilter, p: Product)
  {
    && (IsNullOrEmpty(f.searchString) || Contains(p.name, f.searchString.value))
    && (f.categoryId.None? || p.categoryId == f.categoryId.value)
    && (f.minPrice.None? || p.price >= f.minPrice.value)
    && (f.maxPrice.None? || p.price <= f.maxPrice.value)
    && (f.lowStock != Some(true) || IsLowStock(p))
  }

  /** The rows that pass the filter, in table order. */
  function Selected(rows: seq<Product>, f: ProductFilter): seq<Product>
  {
    if rows == [] then []
    else (if Matches(f, rows[0]) then [rows[0]] else []) + Selected(rows[1..], f)
  }

  /** The five conditional Where steps of the query, in the order they are applied. */
  datatype Clause = NameContains | CategoryIs | PriceAtLeast | PriceAtMost | LowStockOnly

  /** The filter supplies the argument the step tests. */
  predicate Requested(f: ProductFilter, c: Clause)
  {
    match c
    case NameContains => !IsNullOrEmpty(f.searchString)
    case CategoryIs => f.categoryId.Some?
    case PriceAtLeast => f.minPrice.Some?
    case PriceAtMost => f.maxPrice.Some?
    case LowStockOnly => f.lowStock == Some(true)
  }

  /** The lambda of the step's Where. */
  predicate Satisfies(f: ProductFilter, c: Clause, p: Product)
  {
    match c
    case NameContains => f.searchString.Some? && Contains(p.name, f.searchString.value)
    case CategoryIs => f.categoryId.Some? && p.categoryId == f.categoryId.value
    case PriceAtLeast => f.minPrice.Some? && p.price >= f.minPrice.value
    case PriceAtMost => f.maxPrice.Some? && p.price <= f.maxPrice.value
    case LowStockOnly => IsLowStock(p)
  }

  /** The step keeps p: either it is skipped or its Where accepts p. */
  predicate Keeps(f: ProductFilter, c: Clause, p: Product)
  {
    !Requested(f, c) || Satisfies(f, c, p)
  }

  /** `if (argument supplied) query = query.Where(lambda);` */
  function Narrow(q: seq<Product>, f: ProductFilter, c: Clause): (r: seq<Product>)
    ensures |r| <= |q|
    ensures forall p :: p in r <==> p in q && Keeps(f, c, p)
  {
    if !Requested(f, c) then q
    else if q == [] then []
    else (if Satisfies(f, c, q[0]) then [q[0]] else []) + Narrow(q[1..], f, c)
  }

  /** Index: the query with every requested Where step applied. The result holds
      exactly the rows that pass the filter. */
  function Index(rows: seq<Product>, f: ProductFilter): (r: seq<Product>)
    ensures forall p :: p in r <==> p in rows && Matches(f, p)
  {
    var byName := Narrow(rows, f, NameContains);
    var byCategory := Narrow(byName, f, CategoryIs);
    var byMin := Narrow(byCategory, f, PriceAtLeast);
    var byMax := Narrow(byMin, f, PriceAtMost);
    Narrow(byMax, f, LowStockOnly)
  }

  /** A step applied to a row followed by more rows. */
  lemma NarrowCons(p: Product, q: seq<Product>, f: ProductFilter, c: Clause)
    ensures Narrow([p] + q, f, c) == (if Keeps(f, c, p) then [p] else []) + Narrow(q, f, c)
  {
    assert ([p] + q)[1..] == q;
  }

  /** A step applied to no rows. */
  lemma NarrowEmpty(f: ProductFilter, c: Clause)
    ensures Narrow([], f, c) == []
  {
  }

  /** Passing the filter is passing every step. */
  lemma MatchesIsEveryStep(f: ProductFilter, p: Product)
    ensures Matches(f, p) <==>
      Keeps(f, NameContains, p) && Keeps(f, CategoryIs, p) && Keeps(f, PriceAtLeast, p)
      && Keeps(f, PriceAtMost, p) && Keeps(f, LowStockOnly, p)
  {
  }

  /** The Where chain keeps the order and the multiplicity of the table: it returns
      exactly the rows that pass the filter, in table order. */
  lemma {:induction false} IndexIsSelected(rows: seq<Product>, f: ProductFilter)
    ensures Index(rows, f) == Selected(rows, f)
  {
    if rows == [] {
      NarrowEmpty(f, NameContains);
      NarrowEmpty(f, CategoryIs);
      NarrowEmpty(f, PriceAtLeast);
      NarrowEmpty(f, PriceAtMost);
      NarrowEmpty(f, LowStockOnly);
    } else {
      var p, t := rows[0], rows[1..];
      assert rows == [p] + t;
      IndexIsSelected(t, f);
      MatchesIsEveryStep(f, p);
      StepsCons(p, t, f);
    }
  }

  /** The chain on a row followed by more rows: the row comes first when every step
      keeps it. */
  lemma StepsCons(p: Product, t: seq<Product>, f: ProductFilter)
    ensures Index([p] + t, f) == (if Matches(f, p) then [p] else []) + Index(t, f)
  {
    MatchesIsEveryStep(f, p);
    var a1 := Narrow(t, f, NameContains);
    var a2 := Narrow(a1, f, CategoryIs);
    var a3 := Narrow(a2, f, PriceAtLeast);
    var a4 := Narrow(a3, f, PriceAtMost);
    NarrowCons(p, t, f, NameContains);
    if Keeps(f, NameContains, p) {
      NarrowCons(p, a1, f, CategoryIs);
      if Keeps(f, CategoryIs, p) {
        NarrowCons(p, a2, f, PriceAtLeast);
        if Keeps(f, PriceAtLeast, p) {
          NarrowCons(p, a3, f, PriceAtMost);
          if Keeps(f, PriceAtMost, p) {
            NarrowCons(p, a4, f, LowStockOnly);
          } else {
            assert [] + a4 == a4;
          }
        } else {
          assert [] + a3 == a3;
        }
      } else {
        assert [] + a2 == a2;
      }
    } else {
      assert [] + a1 == a1;
    }
  }

  /** With no arguments, or with lowStock false, Index returns the whole table. */
  lemma {:induction false} NoFilterReturnsAll(rows: seq<Product>, lowStock: Option<bool>)
    requires lowStock != Some(true)
    ensures Index(rows, NoFilter.(lowStock := lowStock)) == rows
    ensures Index(rows, NoFilter.(searchString := Some(""), lowStock := lowStock)) == rows
  {
    IndexIsSelected(rows, NoFilter.(lowStock := lowStock));
    IndexIsSelected(rows, NoFilter.(searchString := Some(""), lowStock := lowStock));
    AllPassSelected(rows, NoFilter.(lowStock := lowStock));
    AllPassSelected(rows, NoFilter.(searchString := Some(""), lowStock := lowStock));
  }

  /** When every row passes, every row is selected. */
  lemma {:induction false} AllPassSelected(rows: seq<Product>, f: ProductFilter)
    requires forall i :: 0 <= i < |rows| ==> Matches(f, rows[i])
    ensures Selected(rows, f) == rows
  {
    if rows != [] {
      assert Matches(f, rows[0]);
      AllPassSelected(rows[1..], f);
      assert [rows[0]] + rows[1..] == rows;
    }
  }

  /** A product whose stock equals its threshold counts as low on stock. */
  lemma LowStockIncludesThreshold(p: Product)
    requires p.quantityInStock == p.lowStockThreshold
    ensures Matches(NoFilter.(lowStock := Some(true)), p)
    ensures IsLowStock(p.(quantityInStock := p.lowStockThreshold + 1)) == false
  {
  }

  const MinPriceNegativeMessage := "Minimum price cannot be negative."
  const MaxPriceNegativeMessage := "Maximum price cannot be negative."
  const PriceRangeMessage := "Maximum price cannot be less than minimum price."

  /** Search's JSON answer: the error message, or the products. */
  datatype SearchResult = SearchFailed(message: string) | SearchFound(products: seq<Product>)

  /** The price arguments Search accepts: bounds are not negative and do not cross. */
  predicate PriceBoundsOk(f: ProductFilter)
  {
    && (f.minPrice.None? || f.minPrice.value >= 0)
    && (f.maxPrice.None? || f.maxPrice.value >= 0)
    && (f.minPrice.None? || f.maxPrice.None? || f.maxPrice.value >= f.minPrice.value)
  }

  /** Search: Index's chain, with the price checks made as the bounds are applied.
      A negative minimum is reported first, then a negative maximum, then a maximum
      below the minimum; arguments that pass give the same rows as Index. */
  function Search(rows: seq<Product>, f: ProductFilter): (r: SearchResult)
    ensures r.SearchFound? <==> PriceBoundsOk(f)
    ensures f.minPrice.Some? && f.minPrice.value < 0 ==> r == SearchFailed(MinPriceNegativeMessage)
    ensures (f.minPrice.None? || f.minPrice.value >= 0) && f.maxPrice.Some? && f.maxPrice.value < 0 ==>
      r == SearchFailed(MaxPriceNegativeMessage)
    ensures (&& f.minPrice.Some? && f.minPrice.value >= 0
             && f.maxPrice.Some? && f.maxPrice.value >= 0
             && f.maxPrice.value < f.minPrice.value) ==> r == SearchFailed(PriceRangeMessage)
    ensures r.SearchFound? ==> r.products == Index(rows, f)
  {
    var byName := Narrow(rows, f, NameContains);
    var byCategory := Narrow(byName, f, CategoryIs);
    if f.minPrice.Some? && f.minPrice.value < 0 then SearchFailed(MinPriceNegativeMessage)
    else
      var byMin := Narrow(byCategory, f, PriceAtLeast);
      if f.maxPrice.Some? && f.maxPrice.value < 0 then SearchFailed(MaxPriceNegativeMessage)
      else if f.maxPrice.Some? && f.minPrice.Some? && f.maxPrice.value < f.minPrice.value then
        SearchFailed(PriceRangeMessage)
      else
        var byMax := Narrow(byMin, f, PriceAtMost);
        SearchFound(Narrow(byMax, f, LowStockOnly))
  }

  /** Equal bounds are a valid range. */
  lemma EqualBoundsAccepted(rows: seq<Product>, f: ProductFilter)
    requires f.minPrice.Some? && f.maxPrice == f.minPrice && f.minPrice.value >= 0
    ensures Search(rows, f) == SearchFound(Index(rows, f))
  {
  }

  /** Details, Edit GET and Delete GET: NotFound for a missing or unknown id,
      otherwise the stored product. */
  function FindProduct(products: map<int, Product>, id: Option<int>): (result: ActionResult)
    requires ProductsKeyed(products)
    ensures result.NotFound? <==> id.None? || id.value !in products
    ensures result.ProductView? ==> result.product == products[id.value] && result.product.id == id.value
    ensures result.NotFound? || result.ProductView?
  {
    if id.None? || id.value !in products then NotFound else ProductView(products[id.value])
  }

  /** Create POST: a valid product is inserted under a fresh key; an invalid one is
      shown again and nothing changes. */
  method Create(db: AppDb, product: Product) returns (result: ActionResult)
    requires db.Valid()
    requires product.id == 0
    modifies db
    ensures db.Valid()
    ensures IsValidProduct(product) ==>
      && result == RedirectToIndex
      && old(db.nextProductId) !in old(db.products)
      && db.products == old(db.products)[old(db.nextProductId) := product.(id := old(db.nextProductId))]
    ensures !IsValidProduct(product) ==> result == ProductView(product) && db.products == old(db.products)
    ensures db.nextProductId == old(db.nextProductId) + (if IsValidProduct(product) then 1 else 0)
    ensures db.orders == old(db.orders) && db.nextOrderId == old(db.nextOrderId)
  {
    if IsValidProduct(product) {
      var _ := db.AddProduct(product);
      return RedirectToIndex;
    }
    return ProductView(product);
  }

  /** Edit POST. A route id that differs from the posted product's id, or a stored row
      that vanished before the save, gives NotFound; an invalid product is shown again;
      otherwise the row is saved as the ORM's Update saves it. */
  method Edit(db: AppDb, id: int, product: Product) returns (result: ActionResult)
    requires db.Valid()
    modifies db
    ensures db.Valid()
    ensures id != product.id ==> result == NotFound
    ensures id == product.id && !IsValidProduct(product) ==> result == ProductView(product)
    ensures id == product.id && IsValidProduct(product) ==>
      result == (if product.id == 0 || product.id in old(db.products) then RedirectToIndex else NotFound)
    ensures result.RedirectToIndex? && product.id != 0 ==> db.products == old(db.products)[product.id := product]
    ensures result.RedirectToIndex? && product.id == 0 ==>
      db.products == old(db.products)[old(db.nextProductId) := product.(id := old(db.nextProductId))]
    ensures !result.RedirectToIndex? ==> db.products == old(db.products)
    ensures db.nextProductId == old(db.nextProductId) + (if result.RedirectToIndex? && product.id == 0 then 1 else 0)
    ensures db.orders == old(db.orders) && db.nextOrderId == old(db.nextOrderId)
    ensures result.NotFound? || result.ProductView? || result.RedirectToIndex?
  {
    if id != product.id {
      return NotFound;
    }
    if IsValidProduct(product) {
      var saved := db.UpdateProduct(product);
      if saved.None? {
        // DbUpdateConcurrencyException: the row is no longer stored, so ProductExists is false.
        return NotFound;
      }
      return RedirectToIndex;
    }
    return ProductView(product);
  }

  /** Delete POST: an unknown id gives NotFound and changes nothing; a stored product
      is removed, and only that one. */
  method DeleteConfirmed(db: AppDb, id: int) returns (result: ActionResult)
    requires db.Valid()
    modifies db
    ensures db.Valid()
    ensures id !in old(db.products) ==> result == NotFound && db.products == old(db.products)
    ensures id in old(db.products) ==> result == RedirectToIndex && db.products == old(db.products) - {id}
    ensures db.orders == old(db.orders)
    ensures db.nextOrderId == old(db.nextOrderId) && db.nextProductId == old(db.nextProductId)
  {
    if id !in db.products {
      return NotFound;
    }
    db.RemoveProduct(id);
    return RedirectToIndex;
  }

  /** Selection from a two-row table, row by row. */
  lemma SelectedOfTwo(a: Product, b: Product, f: ProductFilter)
    ensures Index([a, b], f) == (if Matches(f, a) then [a] else []) + (if Matches(f, b) then [b] else [])
  {
    IndexIsSelected([a, b], f);
    assert [a, b][1..] == [b] && [b][1..] == [];
    assert Selected([b], f) == (if Matches(f, b) then [b] else []) + Selected([], f);
    assert Selected([a, b], f) == (if Matches(f, a) then [a] else []) + Selected([b], f);
  }

  /** A string does not contain a non-empty string whose first character it lacks. */
  lemma FirstCharAbsent(s: string, sub: string)
    requires |sub| > 0 && sub[0] !in s
    ensures !Contains(s, sub)
  {
    forall i | 0 <= i <= |s| ensures !OccursAt(s, sub, i) {
      if i <= |s| - |sub| {
        assert s[i..i + |sub|][0] == s[i];
        assert s[i] in s;
      }
    }
  }

  /** The two products of the catalogue tests, both in category 1 and above their
      low-stock threshold of 2. */
  const Catalogue := [
    Product(1, "Test Product", None, 1000, 5, 2, 1),
    Product(2, "Another Product", None, 2000, 3, 2, 1)]

  /** With no arguments both products are listed; searching for "Test", through Index
      or through Search, finds only "Test Product". */
  lemma CatalogueSearch()
    ensures Index(Catalogue, NoFilter) == Catalogue
    ensures Index(Catalogue, NoFilter.(searchString := Some("Test"))) == Catalogue[..1]
    ensures Search(Catalogue, NoFilter.(searchString := Some("Test"))) == SearchFound(Catalogue[..1])
  {
    NoFilterReturnsAll(Catalogue, None);
    assert OccursAt("Test Product", "Test", 0);
    FirstCharAbsent("Another Product", "Test");
    SelectedOfTwo(Catalogue[0], Catalogue[1], NoFilter.(searchString := Some("Test")));
  }

  /** On the same catalogue: category 1 keeps both, the low-stock flag keeps neither,
      and a price range of 15.00 to 25.00 keeps only the 20.00 product. */
  lemma CatalogueFilters()
    ensures Index(Catalogue, NoFilter.(categoryId := Some(1))) == Catalogue
    ensures Index(Catalogue, NoFilter.(lowStock := Some(true))) == []
    ensures Index(Catalogue, NoFilter.(minPrice := Some(1500), maxPrice := Some(2500))) == Catalogue[1..]
  {
    var a, b := Catalogue[0], Catalogue[1];
    SelectedOfTwo(a, b, NoFilter.(categoryId := Some(1)));
    SelectedOfTwo(a, b, NoFilter.(lowStock := Some(true)));
    SelectedOfTwo(a, b, NoFilter.(minPrice := Some(1500), maxPrice := Some(2500)));
  }
}
