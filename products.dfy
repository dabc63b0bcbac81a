/** The Product record (Models/Product.cs): its fields, the four static custom
    validators and the data-annotation constraints that model validation applies. */
module Products {
  import opened Common

  /** int.MaxValue, the upper bound of the [Range] attributes on int fields. */
  const IntMax := 0x7fff_ffff
  const IntMin := -0x8000_0000
  const NameMaxLength := 100
  const DescriptionMaxLength := 1000

  /** A C# int value. */
  predicate IsInt32(v: int)
  {
    IntMin <= v <= IntMax
  }

  /** A product row. Money is a whole number of cents, the scale of the
      decimal(18,2) column; the description is nullable. */
  datatype Product = Product(
    id: int,
    name: string,
    description: Option<string>,
    price: int,
    quantityInStock: int,
    lowStockThreshold: int,
    categoryId: int)

  /** new Product(): the property initialisers give an empty name and a null description. */
  const DefaultProduct := Product(0, "", None, 0, 0, 0, 0)

  /** ValidationResult.Success, or a ValidationResult carrying its message. */
  datatype ValidationResult = Ok | Error(message: string)

  function ValidatePrice(value: int): (r: ValidationResult)
    ensures r.Ok? <==> value > 0
    ensures r.Error? ==> r.message == "Price must be greater than 0"
  {
    if value <= 0 then Error("Price must be greater than 0") else Ok
  }

  function ValidateQuantityInStock(value: int): (r: ValidationResult)
    ensures r.Ok? <==> value >= 0
    ensures r.Error? ==> r.message == "Quantity in stock cannot be negative"
  {
    if value < 0 then Error("Quantity in stock cannot be negative") else Ok
  }

  function ValidateLowStockThreshold(value: int): (r: ValidationResult)
    ensures r.Ok? <==> value >= 0
    ensures r.Error? ==> r.message == "Low stock threshold cannot be negative"
  {
    if value < 0 then Error("Low stock threshold cannot be negative") else Ok
  }

  function ValidateCategoryId(value: int): (r: ValidationResult)
    ensures r.Ok? <==> value > 0
    ensures r.Error? ==> r.message == "Category ID must be greater than 0"
  {
    if value <= 0 then Error("Category ID must be greater than 0") else Ok
  }

  /** The properties that model validation can report. */
  datatype ProductMember = Name | Description | Price | QuantityInStock | LowStockThreshold | CategoryId

  /** [Range(0.01, double.MaxValue)] on Price, in cents (no decimal reaches double.MaxValue). */
  predicate PriceInRange(price: int)
  {
    price >= 1
  }

  /** [Range(lo, int.MaxValue)] on an int property. */
  predicate IntInRange(v: int, lo: int)
  {
    lo <= v <= IntMax
  }

  /** The member names that Validator.TryValidateObject(p, ctx, results, true) reports:
      a member is reported when any of its attributes fails. [StringLength] counts
      UTF-16 code units. On every numeric member the [Range] attribute and the custom
      validator together come down to a single interval. */
  function ProductErrors(p: Product): (r: set<ProductMember>)
    ensures Name in r <==> !Required(p.name) || Utf16Length(p.name) > NameMaxLength
    ensures Description in r <==> p.description.Some? && Utf16Length(p.description.value) > DescriptionMaxLength
    ensures Price in r <==> p.price < 1
    ensures QuantityInStock in r <==> !(0 <= p.quantityInStock <= IntMax)
    ensures LowStockThreshold in r <==> !(0 <= p.lowStockThreshold <= IntMax)
    ensures CategoryId in r <==> !(1 <= p.categoryId <= IntMax)
  {
    (if Required(p.name) && Utf16Length(p.name) <= NameMaxLength then {} else {Name})
    + (if p.description.None? || Utf16Length(p.description.value) <= DescriptionMaxLength
       then {} else {Description})
    + (if PriceInRange(p.price) && ValidatePrice(p.price).Ok? then {} else {Price})
    + (if IntInRange(p.quantityInStock, 0) && ValidateQuantityInStock(p.quantityInStock).Ok?
       then {} else {QuantityInStock})
    + (if IntInRange(p.lowStockThreshold, 0) && ValidateLowStockThreshold(p.lowStockThreshold).Ok?
       then {} else {LowStockThreshold})
    + (if IntInRange(p.categoryId, 1) && ValidateCategoryId(p.categoryId).Ok? then {} else {CategoryId})
  }

  /** ModelState.IsValid for a bound product. */
  predicate IsValidProduct(p: Product)
  {
    ProductErrors(p) == {}
  }

  /** At the cent scale of decimal(18,2) the [Range] attribute on Price and its custom
      validator accept the same prices, whatever their size; on the int properties the
      [Range] attributes and the custom validators accept the same C# int values. */
  lemma RangesAgreeWithValidators(v: int)
    ensures PriceInRange(v) <==> ValidatePrice(v).Ok?
    ensures IsInt32(v) ==> (IntInRange(v, 0) <==> ValidateQuantityInStock(v).Ok?)
    ensures IsInt32(v) ==> (IntInRange(v, 0) <==> ValidateLowStockThreshold(v).Ok?)
    ensures IsInt32(v) ==> (IntInRange(v, 1) <==> ValidateCategoryId(v).Ok?)
  {
  }

  /** A product is valid exactly when its name is present and at most 100 UTF-16 code
      units long, its description is absent or at most 1000 code units long, and every custom validator
      succeeds on a C# int value. */
  lemma ValidProductCharacterization(p: Product)
    requires IsInt32(p.quantityInStock) && IsInt32(p.lowStockThreshold) && IsInt32(p.categoryId)
    ensures IsValidProduct(p) <==>
      && Required(p.name) && Utf16Length(p.name) <= NameMaxLength
      && (p.description.None? || Utf16Length(p.description.value) <= DescriptionMaxLength)
      && ValidatePrice(p.price).Ok?
      && ValidateQuantityInStock(p.quantityInStock).Ok?
      && ValidateLowStockThreshold(p.lowStockThreshold).Ok?
      && ValidateCategoryId(p.categoryId).Ok?
  {
    if !IsValidProduct(p) {
      var m :| m in ProductErrors(p);
    }
  }

  /** new Product() has an empty name and a null description, and so fails validation
      on its name, and on its zero price and zero category id. */
  lemma DefaultProductErrors()
    ensures DefaultProduct.name == "" && DefaultProduct.description.None?
    ensures ProductErrors(DefaultProduct) == {Name, Price, CategoryId}
  {
  }

  /** The validation cases exercised for Product: a product with every field in range
      is valid, and an empty name, a 1001-character description, a negative price,
      a negative stock, a negative threshold and a zero category id are each reported
      against their own member. */
  lemma ProductValidationCases()
    ensures var ok := Product(0, "Test Product", Some("Test Description"), 1000, 5, 2, 1);
      && IsValidProduct(ok)
      && ProductErrors(ok.(name := "")) == {Name}
      && ProductErrors(ok.(description := Some(seq(1001, _ => 'a')))) == {Description}
      && ProductErrors(ok.(price := -1000)) == {Price}
      && ProductErrors(ok.(quantityInStock := -5)) == {QuantityInStock}
      && ProductErrors(ok.(lowStockThreshold := -2)) == {LowStockThreshold}
      && ProductErrors(ok.(categoryId := 0)) == {CategoryId}
  {
    assert "Test Product"[0] == 'T';
  }
}
