/** The Order record (Models/Order.cs) and its line items. OrderItem's own source
    file is not part of this model: its fields are those the application reads and
    writes (ProductId, Quantity, UnitPrice, OrderId). */
module Orders {
  import opened Common

  const GuestNameMaxLength := 100
  const GuestEmailMaxLength := 100

  datatype DateTimeKind = Unspecified | Utc | Local

  /** System.DateTime: comparisons look at the ticks only, never at the kind. */
  datatype DateTime = DateTime(ticks: int, kind: DateTimeKind)

  /** An order line; unitPrice is in cents. */
  datatype OrderItem = OrderItem(orderId: int, productId: int, quantity: int, unitPrice: int)

  /** An order row together with the lines it owns; totalAmount is in cents. */
  datatype Order = Order(
    id: int,
    guestName: string,
    guestEmail: string,
    orderDate: DateTime,
    totalAmount: int,
    orderItems: seq<OrderItem>)

  /** new Order(): empty name and e-mail, and an empty (non-null) list of lines. */
  const DefaultOrder := Order(0, "", "", DateTime(0, Unspecified), 0, [])

  /** The properties that model validation can report. OrderDate is [Required] on a
      value type, which always holds, so it never appears. */
  datatype OrderMember = GuestName | GuestEmail | TotalAmount

  /** The member names that Validator.TryValidateObject(o, ctx, results, true) reports.
      `isEmail` is the framework's [EmailAddress] format check. The lines are not
      looked at: TryValidateObject does not descend into the OrderItems collection.
      [StringLength] counts UTF-16 code units. */
  function OrderErrors(o: Order, isEmail: string -> bool): (r: set<OrderMember>)
    ensures GuestName in r <==> !Required(o.guestName) || Utf16Length(o.guestName) > GuestNameMaxLength
    ensures GuestEmail in r <==>
      !Required(o.guestEmail) || !isEmail(o.guestEmail) || Utf16Length(o.guestEmail) > GuestEmailMaxLength
    ensures TotalAmount in r <==> o.totalAmount < 1
  {
    (if Required(o.guestName) && Utf16Length(o.guestName) <= GuestNameMaxLength then {} else {GuestName})
    + (if Required(o.guestEmail) && isEmail(o.guestEmail) && Utf16Length(o.guestEmail) <= GuestEmailMaxLength
       then {} else {GuestEmail})
    + (if o.totalAmount >= 1 then {} else {TotalAmount})
  }

  predicate IsValidOrder(o: Order, isEmail: string -> bool)
  {
    OrderErrors(o, isEmail) == {}
  }

  /** An order is valid exactly when its guest name is present and at most 100
      UTF-16 code units long, its e-mail address is present, e-mail shaped and at most
      100 code units long, and its total is at least 0.01. */
  lemma ValidOrderCharacterization(o: Order, isEmail: string -> bool)
    ensures IsValidOrder(o, isEmail) <==>
      && Required(o.guestName) && Utf16Length(o.guestName) <= GuestNameMaxLength
      && Required(o.guestEmail) && isEmail(o.guestEmail) && Utf16Length(o.guestEmail) <= GuestEmailMaxLength
      && o.totalAmount >= 1
  {
    if !IsValidOrder(o, isEmail) {
      var m :| m in OrderErrors(o, isEmail);
    }
  }

  /** Validation does not look at the lines: an order with no lines can be valid, and
      replacing the lines never changes the verdict. */
  lemma ValidityIgnoresLines(o: Order, items: seq<OrderItem>, isEmail: string -> bool)
    ensures OrderErrors(o.(orderItems := items), isEmail) == OrderErrors(o, isEmail)
  {
  }

  /** Quantity x UnitPrice of one line, in cents. */
  function LineAmount(item: OrderItem): int
  {
    item.quantity * item.unitPrice
  }

  /** The sum of Quantity x UnitPrice over the lines, in cents. */
  function ItemsTotal(items: seq<OrderItem>): (total: int)
    ensures (forall i :: 0 <= i < |items| ==> items[i].quantity >= 0 && items[i].unitPrice >= 0) ==> total >= 0
    ensures (forall i :: 0 <= i < |items| ==> items[i].quantity > 0 && items[i].unitPrice > 0) && items != []
            ==> total > 0
  {
    if items == [] then 0 else ItemsTotal(items[..|items| - 1]) + LineAmount(items[|items| - 1])
  }

  /** The total of a concatenation is the sum of the totals. */
  lemma {:induction false} ItemsTotalAppend(s: seq<OrderItem>, t: seq<OrderItem>)
    ensures ItemsTotal(s + t) == ItemsTotal(s) + ItemsTotal(t)
    decreases |t|
  {
    if t != [] {
      var t' := t[..|t| - 1];
      assert (s + t)[..|s + t| - 1] == s + t';
      ItemsTotalAppend(s, t');
    } else {
      assert s + t == s;
    }
  }

  /** The total depends only on each line's quantity and unit price, not on the
      order it belongs to. */
  lemma {:induction false} ItemsTotalSameAmounts(s: seq<OrderItem>, t: seq<OrderItem>)
    requires |s| == |t|
    requires forall i :: 0 <= i < |s| ==> LineAmount(s[i]) == LineAmount(t[i])
    ensures ItemsTotal(s) == ItemsTotal(t)
    decreases |s|
  {
    if s != [] {
      ItemsTotalSameAmounts(s[..|s| - 1], t[..|t| - 1]);
    }
  }

  /** The worked example: 2 x 10.00 + 1 x 20.00 = 40.00. */
  lemma ItemsTotalExample()
    ensures ItemsTotal([OrderItem(0, 0, 2, 1000), OrderItem(0, 0, 1, 2000)]) == 4000
  {
    var items := [OrderItem(0, 0, 2, 1000), OrderItem(0, 0, 1, 2000)];
    assert items[..1][..0] == [];
  }

  /** new Order() has empty name and e-mail and no lines, and fails validation on both
      guest fields and on its zero total. */
  lemma DefaultOrderErrors(isEmail: string -> bool)
    ensures DefaultOrder.guestName == "" && DefaultOrder.guestEmail == "" && DefaultOrder.orderItems == []
    ensures OrderErrors(DefaultOrder, isEmail) == {GuestName, GuestEmail, TotalAmount}
  {
  }

  /** The validation cases exercised for Order: a well-formed order with no lines is
      valid; an empty name, an e-mail the format check refuses, a negative total, a
      101-character name and a 102-character e-mail address are each reported against
      their own member. */
  lemma OrderValidationCases(isEmail: string -> bool)
    requires isEmail("john@example.com") && !isEmail("invalid-email")
    ensures var ok := Order(0, "John Doe", "john@example.com", DateTime(0, Local), 10000, []);
      var longEmail := seq(90, _ => 'a') + "@example.com";
      && IsValidOrder(ok, isEmail)
      && OrderErrors(ok.(guestName := ""), isEmail) == {GuestName}
      && OrderErrors(ok.(guestEmail := "invalid-email"), isEmail) == {GuestEmail}
      && OrderErrors(ok.(totalAmount := -10000), isEmail) == {TotalAmount}
      && OrderErrors(ok.(guestName := seq(101, _ => 'a')), isEmail) == {GuestName}
      && |longEmail| == 102 && OrderErrors(ok.(guestEmail := longEmail), isEmail) == {GuestEmail}
  {
    assert "John Doe"[0] == 'J';
    assert "john@example.com"[0] == 'j';
    assert "invalid-email"[0] == 'i';
    assert seq(101, _ => 'a')[0] == 'a';
  }

  /** [StringLength(100)] counts UTF-16 code units: a guest name of 51 characters
      outside the Basic Multilingual Plane is 102 units long and is refused. */
  lemma SurrogatePairsCountTwice(isEmail: string -> bool)
    requires isEmail("john@example.com")
    ensures var name := seq(51, _ => '\U{1F600}');
      var ok := Order(0, "John Doe", "john@example.com", DateTime(0, Local), 10000, []);
      && |name| == 51 && Utf16Length(name) == 102
      && OrderErrors(ok.(guestName := name), isEmail) == {GuestName}
  {
    assert "John Doe"[0] == 'J';
    assert "john@example.com"[0] == 'j';
  }
}
