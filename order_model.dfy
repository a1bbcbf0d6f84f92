/**
 * The order document of the order service (backend-nodejs/src/models/Order.ts):
 * its schema bounds, the six-value status, the derived `orderNumber` and
 * `fullName`, the pre-save hook that recomputes every total, `addItem` and
 * `getSummary`. The document is an object whose fields the hook rewrites in
 * place, so it is a class; the values it is built from are datatypes.
 */
module OrderModel {
  import opened Wrappers
  import opened Text
  import opened Money
  import ShopTypes

  const DefaultCurrency: string := "ILS"

  datatype OrderItem = OrderItem(
    productId: int,
    productName: string,
    categoryId: int,
    categoryName: string,
    price: real,
    quantity: int,
    unit: string,
    totalPrice: real)

  datatype CustomerInfo = CustomerInfo(firstName: string, lastName: string, email: string, address: string)

  datatype OrderSummary = OrderSummary(totalItems: int, totalAmount: real, currency: string)

  /** The schema's status enumeration. */
  datatype Status = Pending | Confirmed | Processing | Shipped | Delivered | Cancelled

  /** What `getSummary` returns. Dates are instants in milliseconds. */
  datatype OrderSummaryResponse = OrderSummaryResponse(
    orderNumber: string,
    customerName: string,
    totalItems: int,
    totalAmount: real,
    status: Status,
    orderDate: int)

  /** The stored fields of one order; `id` is the document's `_id` as a string. */
  datatype OrderRecord = OrderRecord(
    id: string,
    customerInfo: CustomerInfo,
    items: seq<OrderItem>,
    orderSummary: OrderSummary,
    status: Status,
    orderDate: int,
    updatedAt: int)

  /** The status strings, in the schema's order. */
  const StatusNames: seq<string> := ["pending", "confirmed", "processing", "shipped", "delivered", "cancelled"]

  function StatusName(s: Status): (name: string)
    ensures name in StatusNames
  {
    match s
    case Pending => "pending"
    case Confirmed => "confirmed"
    case Processing => "processing"
    case Shipped => "shipped"
    case Delivered => "delivered"
    case Cancelled => "cancelled"
  }

  /** The enum check: a string names a status exactly when it is one of the six listed. */
  function ParseStatus(name: string): (r: Option<Status>)
    ensures r.Some? <==> name in StatusNames
    ensures r.Some? ==> StatusName(r.value) == name
  {
    if name == "pending" then Some(Pending)
    else if name == "confirmed" then Some(Confirmed)
    else if name == "processing" then Some(Processing)
    else if name == "shipped" then Some(Shipped)
    else if name == "delivered" then Some(Delivered)
    else if name == "cancelled" then Some(Cancelled)
    else None
  }

  /** Every status survives a trip through its name. */
  lemma StatusNameRoundTrip(s: Status)
    ensures ParseStatus(StatusName(s)) == Some(s)
  {
  }

  /** The `orderNumber` virtual: "ORD-" and the last eight characters of the id, upper-cased. */
  function OrderNumber(id: string): (r: string)
    ensures |r| == 4 + (if |id| < 8 then |id| else 8)
    ensures r[..4] == "ORD-" && r[4..] == ToUpper(id[|id| - (|r| - 4)..])
  {
    var tail := SliceLast(id, 8);
    assert tail == id[|id| - |tail|..];
    var r := "ORD-" + ToUpper(tail);
    assert r[4..] == ToUpper(tail);
    r
  }

  /** Two ids with the same last eight characters get the same order number. */
  lemma OrderNumberDependsOnLastEight(a: string, b: string)
    requires |a| >= 8 && |b| >= 8 && a[|a| - 8..] == b[|b| - 8..]
    ensures OrderNumber(a) == OrderNumber(b)
  {
    assert SliceLast(a, 8) == a[|a| - 8..];
  }

  /** The `customerInfo.fullName` virtual: never empty, since the space is always there. */
  function FullName(c: CustomerInfo): (r: string)
    ensures |r| == |c.firstName| + 1 + |c.lastName| && r != []
    ensures r[..|c.firstName|] == c.firstName && r[|c.firstName|] == ' ' && r[|c.firstName| + 1..] == c.lastName
  {
    c.firstName + " " + c.lastName
  }

  /** `getSummary`: the order number and full name, with totals, status and date copied unchanged. */
  function GetSummary(o: OrderRecord): (r: OrderSummaryResponse)
    ensures r.orderNumber == OrderNumber(o.id) && r.customerName == FullName(o.customerInfo)
    ensures r.totalItems == o.orderSummary.totalItems && r.totalAmount == o.orderSummary.totalAmount
    ensures r.status == o.status && r.orderDate == o.orderDate
  {
    var name := FullName(o.customerInfo);
    OrderSummaryResponse(OrderNumber(o.id),
                         if name != "" then name else o.customerInfo.firstName + " " + o.customerInfo.lastName,
                         o.orderSummary.totalItems, o.orderSummary.totalAmount, o.status, o.orderDate)
  }

  /**
   * Both sides of the `||` in `getSummary` build the same "first last" string, and
   * the left one is never empty, so the fallback is dead code.
   */
  lemma SummaryNameFallbackDead(o: OrderRecord)
    ensures FullName(o.customerInfo) != ""
    ensures GetSummary(o).customerName == FullName(o.customerInfo)
      == o.customerInfo.firstName + " " + o.customerInfo.lastName
  {
    var c := o.customerInfo;
    var name := FullName(c);
    assert name == c.firstName + " " + c.lastName by {
      assert name[..|c.firstName|] + [' '] + name[|c.firstName| + 1..] == name;
    }
  }

  // ---------------------------------------------------------------- totals

  /** Sum of the line quantities. */
  function TotalQuantity(items: seq<OrderItem>): int {
    if items == [] then 0 else TotalQuantity(items[..|items| - 1]) + items[|items| - 1].quantity
  }

  /** Sum of the line totals as stored, before any rounding. */
  function SumLineTotals(items: seq<OrderItem>): real {
    if items == [] then 0.0 else SumLineTotals(items[..|items| - 1]) + items[|items| - 1].totalPrice
  }

  /** One line with its total recomputed as price times quantity. */
  function WithLineTotal(item: OrderItem): OrderItem {
    item.(totalPrice := item.price * item.quantity as real)
  }

  /** Every line with its total recomputed. */
  function WithLineTotals(items: seq<OrderItem>): (r: seq<OrderItem>)
    ensures |r| == |items|
    ensures forall i | 0 <= i < |items| :: r[i] == WithLineTotal(items[i])
  {
    seq(|items|, i requires 0 <= i < |items| => WithLineTotal(items[i]))
  }

  /**
   * What the pre-save hook makes of an order stamped at instant `now`: each line's
   * total becomes its price times its quantity, and only the totals and `updatedAt` change.
   */
  function AfterPreSave(o: OrderRecord, now: int): (r: OrderRecord)
    ensures |r.items| == |o.items|
    ensures forall i | 0 <= i < |o.items| ::
      r.items[i].totalPrice == o.items[i].price * o.items[i].quantity as real
      && r.items[i].(totalPrice := o.items[i].totalPrice) == o.items[i]
    ensures r.id == o.id && r.customerInfo == o.customerInfo && r.status == o.status
    ensures r.orderDate == o.orderDate && r.updatedAt == now && r.orderSummary.currency == o.orderSummary.currency
  {
    var items := WithLineTotals(o.items);
    o.(items := items,
       updatedAt := now,
       orderSummary := o.orderSummary.(totalItems := TotalQuantity(items),
                                        totalAmount := Round2(SumLineTotals(items))))
  }

  /** The recomputed line totals do not depend on the totals the client supplied. */
  lemma {:induction false} LineTotalsIgnoreSupplied(a: seq<OrderItem>, b: seq<OrderItem>)
    requires |a| == |b|
    requires forall i | 0 <= i < |a| :: a[i].(totalPrice := 0.0) == b[i].(totalPrice := 0.0)
    ensures WithLineTotals(a) == WithLineTotals(b)
  {
    forall i | 0 <= i < |a| ensures WithLineTotal(a[i]) == WithLineTotal(b[i]) {
      assert a[i].price == a[i].(totalPrice := 0.0).price;
      assert a[i].quantity == a[i].(totalPrice := 0.0).quantity;
    }
  }

  /** The hook's summary: total items is the quantity sum, total amount the once-rounded sum of price times quantity. */
  lemma PreSaveTotals(o: OrderRecord, now: int)
    ensures AfterPreSave(o, now).orderSummary.totalItems == TotalQuantity(o.items)
    ensures AfterPreSave(o, now).orderSummary.totalAmount == Round2(SumLineTotals(WithLineTotals(o.items)))
    ensures AfterPreSave(o, now).orderSummary.currency == o.orderSummary.currency
  {
    TotalQuantityOfLineTotals(o.items);
  }

  lemma {:induction false} TotalQuantityOfLineTotals(items: seq<OrderItem>)
    ensures TotalQuantity(WithLineTotals(items)) == TotalQuantity(items)
  {
    if items != [] {
      var init := items[..|items| - 1];
      TotalQuantityOfLineTotals(init);
      assert WithLineTotals(items)[..|items| - 1] == WithLineTotals(init);
    }
  }

  /** With at least one unit per line, there are at least as many items as lines. */
  lemma {:induction false} TotalQuantityAtLeastLines(items: seq<OrderItem>)
    requires forall i | 0 <= i < |items| :: items[i].quantity >= 1
    ensures TotalQuantity(items) >= |items|
  {
    if items != [] {
      TotalQuantityAtLeastLines(items[..|items| - 1]);
    }
  }

  /** Non-negative prices and positive quantities give a non-negative unrounded sum. */
  lemma {:induction false} SumOfLineTotalsNonNegative(items: seq<OrderItem>)
    requires forall i | 0 <= i < |items| :: items[i].price >= 0.0 && items[i].quantity >= 1
    ensures SumLineTotals(WithLineTotals(items)) >= 0.0
  {
    if items != [] {
      var init := items[..|items| - 1];
      SumOfLineTotalsNonNegative(init);
      assert WithLineTotals(items)[..|items| - 1] == WithLineTotals(init);
      var last := items[|items| - 1];
      assert last.price * last.quantity as real >= 0.0;
    }
  }

  /** Under the schema bounds the hook's totals are non-negative and count at least one unit per line. */
  lemma PreSaveTotalsBounds(o: OrderRecord, now: int)
    requires forall i | 0 <= i < |o.items| :: o.items[i].price >= 0.0 && o.items[i].quantity >= 1
    ensures AfterPreSave(o, now).orderSummary.totalAmount >= 0.0
    ensures AfterPreSave(o, now).orderSummary.totalItems >= |o.items|
  {
    PreSaveTotals(o, now);
    SumOfLineTotalsNonNegative(o.items);
    Round2NonNegative(SumLineTotals(WithLineTotals(o.items)));
    TotalQuantityAtLeastLines(o.items);
  }

  /**
   * The hook rounds the sum once, which is not the same as adding rounded line
   * totals: two lines of half a cent each sum to one cent, whereas each would
   * round up to a cent on its own.
   */
  lemma RoundingOnceDiffersFromPerLine()
    ensures var items := [OrderItem(1, "a", 1, "c", 0.005, 1, ShopTypes.DefaultUnit, 0.0),
                          OrderItem(2, "b", 1, "c", 0.005, 1, ShopTypes.DefaultUnit, 0.0)];
            var lines := WithLineTotals(items);
            Round2(SumLineTotals(lines)) == 0.01
            && Round2(lines[0].totalPrice) + Round2(lines[1].totalPrice) == 0.02
  {
    var items := [OrderItem(1, "a", 1, "c", 0.005, 1, ShopTypes.DefaultUnit, 0.0),
                  OrderItem(2, "b", 1, "c", 0.005, 1, ShopTypes.DefaultUnit, 0.0)];
    var lines := WithLineTotals(items);
    assert lines[..1] == [lines[0]] && lines[..1][..0] == [];
    assert SumLineTotals(lines[..1]) == 0.005;
    assert SumLineTotals(lines) == 0.01;
    assert (0.01 * 100.0 + 0.5).Floor == 1;
    assert (0.005 * 100.0 + 0.5).Floor == 1;
  }

  // ---------------------------------------------------------------- schema

  /** A required string with `trim`, `minlength` and `maxlength`, checked on the stored (trimmed) value. */
  predicate BoundedText(s: string, minLength: nat, maxLength: nat) {
    s != "" && minLength <= |s| <= maxLength
  }

  /** The customer sub-document's validators; the email pattern is the library's and is a parameter. */
  predicate CustomerSatisfiesSchema(c: CustomerInfo, emailMatches: string -> bool) {
    && BoundedText(c.firstName, 2, 50)
    && BoundedText(c.lastName, 2, 50)
    && c.email != "" && emailMatches(c.email)
    && BoundedText(c.address, 10, 200)
  }

  /** The line-item sub-schema: required names, `price >= 0`, `quantity >= 1`, `totalPrice >= 0`. */
  predicate ItemSatisfiesSchema(item: OrderItem) {
    && item.productName != "" && item.categoryName != ""
    && item.price >= 0.0 && item.quantity >= 1 && item.totalPrice >= 0.0
  }

  /** Every validator of the order schema passes (the status enum holds by construction). */
  predicate SatisfiesSchema(o: OrderRecord, emailMatches: string -> bool) {
    && CustomerSatisfiesSchema(o.customerInfo, emailMatches)
    && |o.items| > 0
    && (forall i | 0 <= i < |o.items| :: ItemSatisfiesSchema(o.items[i]))
    && o.orderSummary.totalItems >= 1
    && o.orderSummary.totalAmount >= 0.0
  }

  /** An order without items never passes validation. */
  lemma EmptyOrderRejected(o: OrderRecord, emailMatches: string -> bool)
    requires o.items == []
    ensures !SatisfiesSchema(o, emailMatches)
  {
  }

  /** A valid order stays valid through the hook: the recomputed totals meet the same bounds. */
  lemma PreSaveKeepsSchema(o: OrderRecord, now: int, emailMatches: string -> bool)
    requires SatisfiesSchema(o, emailMatches)
    ensures SatisfiesSchema(AfterPreSave(o, now), emailMatches)
  {
    PreSaveTotalsBounds(o, now);
    var items := WithLineTotals(o.items);
    forall i | 0 <= i < |items| ensures ItemSatisfiesSchema(items[i]) {
      assert ItemSatisfiesSchema(o.items[i]);
      assert o.items[i].price * o.items[i].quantity as real >= 0.0;
    }
  }

  // ---------------------------------------------------------------- the document

  /** A validation failure of `save`; nothing is written. */
  datatype SaveError = ValidationError

  /** The setters on one line: `trim` on its strings; the numbers are kept. */
  function TrimmedItem(item: OrderItem): (r: OrderItem)
    ensures r.productId == item.productId && r.categoryId == item.categoryId
    ensures r.price == item.price && r.quantity == item.quantity && r.totalPrice == item.totalPrice
    ensures HasNoOuterWhitespace(r.productName) && HasNoOuterWhitespace(r.categoryName) && HasNoOuterWhitespace(r.unit)
  {
    item.(productName := Trim(item.productName), categoryName := Trim(item.categoryName), unit := Trim(item.unit))
  }

  /** The setters on the customer: `trim`, and `lowercase` on the email. */
  function TrimmedCustomer(c: CustomerInfo): CustomerInfo {
    CustomerInfo(Trim(c.firstName), Trim(c.lastName), Trim(ToLower(c.email)), Trim(c.address))
  }

  /** The setters on every line. */
  function TrimmedItems(items: seq<OrderItem>): (r: seq<OrderItem>)
    ensures |r| == |items|
    ensures forall i | 0 <= i < |items| :: r[i] == TrimmedItem(items[i])
  {
    seq(|items|, i requires 0 <= i < |items| => TrimmedItem(items[i]))
  }

  /**
   * A line passes the item validators after its setters exactly when both names
   * hold more than whitespace and the numbers meet their minimums.
   */
  lemma TrimmedItemSchema(item: OrderItem)
    ensures ItemSatisfiesSchema(TrimmedItem(item)) <==>
      && !IsJsBlank(item.productName) && !IsJsBlank(item.categoryName)
      && item.price >= 0.0 && item.quantity >= 1 && item.totalPrice >= 0.0
  {
    TrimEmptyIffBlank(item.productName);
    TrimEmptyIffBlank(item.categoryName);
  }

  /** The fields `new Order(value)` gives a document with id `id` at instant `now`. */
  function NewOrderRecord(id: string, customerInfo: CustomerInfo, items: seq<OrderItem>, orderSummary: OrderSummary, now: int): OrderRecord {
    OrderRecord(id, TrimmedCustomer(customerInfo), TrimmedItems(items), orderSummary, Pending, now, now)
  }

  class OrderDocument {
    const id: string
    var customerInfo: CustomerInfo
    var items: seq<OrderItem>
    var orderSummary: OrderSummary
    var status: Status
    var orderDate: int
    var updatedAt: int

    /** The document's fields as one value. */
    function Record(): OrderRecord
      reads this
    {
      OrderRecord(id, customerInfo, items, orderSummary, status, orderDate, updatedAt)
    }

    /**
     * `new Order(value)` at instant `now` with the given `_id`: the string setters
     * run, the status defaults to pending, and both dates default to now.
     */
    constructor (id: string, customerInfo: CustomerInfo, items: seq<OrderItem>, orderSummary: OrderSummary, now: int)
      ensures Record() == NewOrderRecord(id, customerInfo, items, orderSummary, now)
    {
      this.id := id;
      this.customerInfo := TrimmedCustomer(customerInfo);
      this.items := TrimmedItems(items);
      this.orderSummary := orderSummary;
      this.status := Pending;
      this.orderDate := now;
      this.updatedAt := now;
    }

    /** The pre-save hook: stamps `updatedAt`, rewrites every line total and both summary totals. */
    method PreSave(now: int)
      modifies this
      ensures Record() == AfterPreSave(old(Record()), now)
    {
      updatedAt := now;
      var totalAmount := 0.0;
      var totalItems := 0;
      var i := 0;
      while i < |items|
        modifies this`items
        invariant 0 <= i <= |items| == |old(items)|
        invariant forall j | 0 <= j < |items| :: items[j] == if j < i then WithLineTotal(old(items)[j]) else old(items)[j]
        invariant totalAmount == SumLineTotals(items[..i])
        invariant totalItems == TotalQuantity(items[..i])
      {
        var done := items[..i];
        var line := WithLineTotal(items[i]);
        items := items[i := line];
        assert items[..i + 1][..i] == items[..i] == done;
        totalAmount := totalAmount + line.totalPrice;
        totalItems := totalItems + line.quantity;
        i := i + 1;
      }
      assert items[..i] == items == WithLineTotals(old(items));
      orderSummary := orderSummary.(totalAmount := Round2(totalAmount), totalItems := totalItems);
    }

    /**
     * `save` up to the write: validation runs first, on the values as they are; only
     * a valid document reaches the pre-save hook.
     */
    method Save(now: int, emailMatches: string -> bool) returns (r: Result<OrderSummaryResponse, SaveError>)
      modifies this
      ensures SatisfiesSchema(old(Record()), emailMatches) ==>
        Record() == AfterPreSave(old(Record()), now) && r == Success(GetSummary(Record()))
      ensures !SatisfiesSchema(old(Record()), emailMatches) ==>
        Record() == old(Record()) && r == Failure(ValidationError)
    {
      if !SatisfiesSchema(Record(), emailMatches) {
        return Failure(ValidationError);
      }
      PreSave(now);
      r := Success(GetSummary(Record()));
    }

    /**
     * `addItem`: appends the line (the push runs its `trim` setters), then saves; the
     * line stays appended even when the save fails.
     */
    method AddItem(item: OrderItem, now: int, emailMatches: string -> bool) returns (r: Result<OrderSummaryResponse, SaveError>)
      modifies this
      ensures var pushed := old(Record()).(items := old(items) + [TrimmedItem(item)]);
        if SatisfiesSchema(pushed, emailMatches)
        then Record() == AfterPreSave(pushed, now) && r == Success(GetSummary(Record()))
        else Record() == pushed && r == Failure(ValidationError)
    {
      ghost var pushed := Record().(items := items + [TrimmedItem(item)]);
      items := items + [TrimmedItem(item)];
      assert Record() == pushed;
      r := Save(now, emailMatches);
    }
  }

  /** After `addItem` the summary counts the new line: its quantity and its price times quantity. */
  lemma {:induction false} AddItemTotals(o: OrderRecord, item: OrderItem, now: int)
    ensures var saved := AfterPreSave(o.(items := o.items + [item]), now);
      && saved.orderSummary.totalItems == TotalQuantity(o.items) + item.quantity
      && saved.orderSummary.totalAmount
         == Round2(SumLineTotals(WithLineTotals(o.items)) + item.price * item.quantity as real)
      && saved.items[|o.items|] == WithLineTotal(item)
  {
    var pushed := o.items + [item];
    PreSaveTotals(o.(items := pushed), now);
    assert pushed[..|pushed| - 1] == o.items;
    assert WithLineTotals(pushed)[..|pushed| - 1] == WithLineTotals(o.items);
    var lines := WithLineTotals(pushed);
    assert lines[|pushed| - 1] == WithLineTotal(item);
    assert SumLineTotals(lines) == SumLineTotals(WithLineTotals(o.items)) + item.price * item.quantity as real;
  }
}
