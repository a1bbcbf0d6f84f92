/**
 * The order routes (backend-nodejs/src/routes/orders.ts and its CommonJS twin
 * orders.js): the Joi rules a creation request must meet, the creation
 * pipeline up to the write, pagination arithmetic, the status-membership check,
 * soft delete, and the lower-cased customer lookup key. The database is a map
 * from order id to stored order; HTTP framing and the queries themselves are
 * not modelled.
 */
module OrderRoutes {
  import opened Wrappers
  import opened Text
  import opened Money
  import opened OrderModel
  import ShopTypes

  // ---------------------------------------------------------------- creation request

  /** A request line; `unit` may be absent and then defaults. */
  datatype RequestItem = RequestItem(
    productId: int,
    productName: string,
    categoryId: int,
    categoryName: string,
    price: real,
    quantity: int,
    unit: Option<string>,
    totalPrice: real)

  /** The request summary; `currency` may be absent and then defaults. */
  datatype RequestSummary = RequestSummary(totalItems: int, totalAmount: real, currency: Option<string>)

  datatype CreateOrderRequest = CreateOrderRequest(customerInfo: CustomerInfo, items: seq<RequestItem>, orderSummary: RequestSummary)

  /** Where a Joi error points. */
  datatype Path = CustomerField(name: string) | ItemsPath | ItemField(index: nat, name: string) | SummaryField(name: string)

  /** One Joi error detail: its path and its type, such as "string.min". */
  datatype Violation = Violation(path: Path, kind: string)

  /** The first failing rule of Joi's `string().min(lo).max(hi).required()`. */
  function TextRuleError(s: string, lo: nat, hi: nat): (r: Option<string>)
    ensures r.None? <==> s != "" && lo <= |s| <= hi
    ensures r == Some("string.empty") <==> s == ""
  {
    if s == "" then Some("string.empty")
    else if |s| < lo then Some("string.min")
    else if |s| > hi then Some("string.max")
    else None
  }

  /** The customer rules, all together; Joi's `.email()` is the parameter `isEmail`. */
  predicate CustomerMeetsRules(c: CustomerInfo, isEmail: string -> bool) {
    && c.firstName != "" && 2 <= |c.firstName| <= 50
    && c.lastName != "" && 2 <= |c.lastName| <= 50
    && c.email != "" && isEmail(c.email)
    && c.address != "" && 10 <= |c.address| <= 200
  }

  /** The line rules, all together. */
  predicate ItemMeetsRules(item: RequestItem) {
    && item.productId > 0 && item.productName != ""
    && item.categoryId > 0 && item.categoryName != ""
    && item.price > 0.0 && item.quantity >= 1
    && item.unit != Some("")
    && item.totalPrice > 0.0
  }

  /** The summary rules, all together. */
  predicate SummaryMeetsRules(s: RequestSummary) {
    s.totalItems >= 1 && s.totalAmount > 0.0 && s.currency != Some("")
  }

  /** Every rule of the creation schema holds. */
  predicate MeetsCreateRules(req: CreateOrderRequest, isEmail: string -> bool) {
    && CustomerMeetsRules(req.customerInfo, isEmail)
    && |req.items| >= 1
    && (forall i | 0 <= i < |req.items| :: ItemMeetsRules(req.items[i]))
    && SummaryMeetsRules(req.orderSummary)
  }

  /** The first failing customer rule, in key order. */
  function CustomerViolation(c: CustomerInfo, isEmail: string -> bool): (r: Option<Violation>)
    ensures r.None? <==> CustomerMeetsRules(c, isEmail)
  {
    var first := TextRuleError(c.firstName, 2, 50);
    var last := TextRuleError(c.lastName, 2, 50);
    var address := TextRuleError(c.address, 10, 200);
    if first.Some? then Some(Violation(CustomerField("firstName"), first.value))
    else if last.Some? then Some(Violation(CustomerField("lastName"), last.value))
    else if c.email == "" then Some(Violation(CustomerField("email"), "string.empty"))
    else if !isEmail(c.email) then Some(Violation(CustomerField("email"), "string.email"))
    else if address.Some? then Some(Violation(CustomerField("address"), address.value))
    else None
  }

  /** The first failing rule of line `index`, in key order. */
  function ItemViolation(item: RequestItem, index: nat): (r: Option<Violation>)
    ensures r.None? <==> ItemMeetsRules(item)
    ensures r.Some? ==> r.value.path.ItemField? && r.value.path.index == index
  {
    if item.productId <= 0 then Some(Violation(ItemField(index, "productId"), "number.positive"))
    else if item.productName == "" then Some(Violation(ItemField(index, "productName"), "string.empty"))
    else if item.categoryId <= 0 then Some(Violation(ItemField(index, "categoryId"), "number.positive"))
    else if item.categoryName == "" then Some(Violation(ItemField(index, "categoryName"), "string.empty"))
    else if item.price <= 0.0 then Some(Violation(ItemField(index, "price"), "number.positive"))
    else if item.quantity < 1 then Some(Violation(ItemField(index, "quantity"), "number.min"))
    else if item.unit == Some("") then Some(Violation(ItemField(index, "unit"), "string.empty"))
    else if item.totalPrice <= 0.0 then Some(Violation(ItemField(index, "totalPrice"), "number.positive"))
    else None
  }

  /** The first failing rule among the lines from `from` on: the earliest bad line wins. */
  function FirstItemViolation(items: seq<RequestItem>, from: nat): (r: Option<Violation>)
    requires from <= |items|
    ensures r.None? <==> forall i | from <= i < |items| :: ItemMeetsRules(items[i])
    ensures r.Some? ==> && r.value.path.ItemField?
                        && from <= r.value.path.index < |items|
                        && ItemViolation(items[r.value.path.index], r.value.path.index) == r
                        && forall i | from <= i < r.value.path.index :: ItemMeetsRules(items[i])
    decreases |items| - from
  {
    if from == |items| then None
    else
      var here := ItemViolation(items[from], from);
      if here.Some? then here else FirstItemViolation(items, from + 1)
  }

  /** The first failing summary rule. */
  function SummaryViolation(s: RequestSummary): (r: Option<Violation>)
    ensures r.None? <==> SummaryMeetsRules(s)
  {
    if s.totalItems < 1 then Some(Violation(SummaryField("totalItems"), "number.min"))
    else if s.totalAmount <= 0.0 then Some(Violation(SummaryField("totalAmount"), "number.positive"))
    else if s.currency == Some("") then Some(Violation(SummaryField("currency"), "string.empty"))
    else None
  }

  /** The validated value: Joi's defaults filled in. */
  datatype ValidatedOrder = ValidatedOrder(customerInfo: CustomerInfo, items: seq<OrderItem>, orderSummary: OrderSummary)

  function WithItemDefaults(item: RequestItem): OrderItem {
    OrderItem(item.productId, item.productName, item.categoryId, item.categoryName,
              item.price, item.quantity, item.unit.GetOr(ShopTypes.DefaultUnit), item.totalPrice)
  }

  function WithDefaults(req: CreateOrderRequest): (v: ValidatedOrder)
    ensures |v.items| == |req.items|
  {
    ValidatedOrder(
      req.customerInfo,
      seq(|req.items|, i requires 0 <= i < |req.items| => WithItemDefaults(req.items[i])),
      OrderSummary(req.orderSummary.totalItems, req.orderSummary.totalAmount,
                   req.orderSummary.currency.GetOr(DefaultCurrency)))
  }

  /**
   * `orderValidationSchema.validate(body)` with Joi's default of stopping at the first
   * error: customer fields, then the item list, then the summary.
   */
  function ValidateCreate(req: CreateOrderRequest, isEmail: string -> bool): (r: Result<ValidatedOrder, Violation>)
    ensures r.Success? <==> MeetsCreateRules(req, isEmail)
    ensures r.Success? ==> r.value == WithDefaults(req)
    ensures r.Failure? && r.error.path.ItemField? ==>
      && CustomerMeetsRules(req.customerInfo, isEmail)
      && r.error.path.index < |req.items|
      && !ItemMeetsRules(req.items[r.error.path.index])
  {
    var customer := CustomerViolation(req.customerInfo, isEmail);
    if customer.Some? then Failure(customer.value)
    else if |req.items| < 1 then Failure(Violation(ItemsPath, "array.min"))
    else
      var item := FirstItemViolation(req.items, 0);
      if item.Some? then Failure(item.value)
      else
        var summary := SummaryViolation(req.orderSummary);
        if summary.Some? then Failure(summary.value)
        else Success(WithDefaults(req))
  }

  /** A request without lines is refused, whatever else it holds, once the customer part passes. */
  lemma EmptyItemsRefused(req: CreateOrderRequest, isEmail: string -> bool)
    requires req.items == [] && CustomerMeetsRules(req.customerInfo, isEmail)
    ensures ValidateCreate(req, isEmail) == Failure(Violation(ItemsPath, "array.min"))
  {
  }

  /** The body of a 201 response. */
  datatype CreatedOrder = CreatedOrder(orderNumber: string, orderId: string, summary: OrderSummaryResponse)

  datatype CreateError = InvalidRequest(violation: Violation) | SchemaRejected

  /**
   * POST /api/orders up to the write: validate, build the document with the fresh
   * id the driver generated, save it (schema validation, then the pre-save hook),
   * and store it.
   */
  method CreateOrder(store: map<string, OrderRecord>, req: CreateOrderRequest, id: string, now: int,
                     isEmail: string -> bool, schemaEmail: string -> bool)
    returns (store': map<string, OrderRecord>, r: Result<CreatedOrder, CreateError>)
    requires id !in store
    ensures !MeetsCreateRules(req, isEmail) ==> store' == store && r.Failure? && r.error.InvalidRequest?
    ensures MeetsCreateRules(req, isEmail) ==>
      var v := WithDefaults(req);
      var built := NewOrderRecord(id, v.customerInfo, v.items, v.orderSummary, now);
      if SatisfiesSchema(built, schemaEmail) then
        && store' == store[id := AfterPreSave(built, now)]
        && r == Success(CreatedOrder(OrderNumber(id), id, GetSummary(store'[id])))
      else store' == store && r == Failure(SchemaRejected)
  {
    var checked := ValidateCreate(req, isEmail);
    if checked.Failure? {
      return store, Failure(InvalidRequest(checked.error));
    }
    var v := checked.value;
    var doc := new OrderDocument(id, v.customerInfo, v.items, v.orderSummary, now);
    var saved := doc.Save(now, schemaEmail);
    if saved.Failure? {
      return store, Failure(SchemaRejected);
    }
    store' := store[id := doc.Record()];
    r := Success(CreatedOrder(OrderNumber(id), id, saved.value));
  }

  /** A stored new order carries the recomputed totals of the request's lines, not the client's. */
  lemma CreatedOrderTotals(req: CreateOrderRequest, id: string, now: int)
    ensures var v := WithDefaults(req);
      var saved := AfterPreSave(NewOrderRecord(id, v.customerInfo, v.items, v.orderSummary, now), now);
      && saved.orderSummary.totalItems == TotalQuantity(v.items)
      && saved.orderSummary.totalAmount == Round2(SumLineTotals(WithLineTotals(v.items)))
      && saved.status == Pending
  {
    var v := WithDefaults(req);
    var built := NewOrderRecord(id, v.customerInfo, v.items, v.orderSummary, now);
    PreSaveTotals(built, now);
    TrimmingKeepsTotals(v.items);
  }

  /** The string setters do not touch prices or quantities, so they do not change the totals. */
  lemma TrimmingKeepsTotals(items: seq<OrderItem>)
    ensures TotalQuantity(TrimmedItems(items)) == TotalQuantity(items)
    ensures SumLineTotals(WithLineTotals(TrimmedItems(items))) == SumLineTotals(WithLineTotals(items))
  {
    SameAmountsSameTotals(TrimmedItems(items), items);
  }

  /** Totals depend on the lines' prices and quantities only. */
  lemma {:induction false} SameAmountsSameTotals(a: seq<OrderItem>, b: seq<OrderItem>)
    requires |a| == |b|
    requires forall i | 0 <= i < |a| :: a[i].price == b[i].price && a[i].quantity == b[i].quantity
    ensures TotalQuantity(a) == TotalQuantity(b)
    ensures SumLineTotals(WithLineTotals(a)) == SumLineTotals(WithLineTotals(b))
  {
    if a != [] {
      var n := |a| - 1;
      SameAmountsSameTotals(a[..n], b[..n]);
      assert WithLineTotals(a)[..n] == WithLineTotals(a[..n]);
      assert WithLineTotals(b)[..n] == WithLineTotals(b[..n]);
    }
  }

  // ---------------------------------------------------------------- pagination

  /** A `page` or `limit` query value: absent or empty, a string `parseInt` reads as `n`, or one it reads as NaN. */
  datatype PageQuery = Absent | Parsed(n: int) | NotANumber

  /** `parseInt(q || d)` in orders.ts: an absent value takes the default; None stands for NaN. */
  function TsPageParam(q: PageQuery, default: int): (r: Option<int>)
    ensures r.None? <==> q.NotANumber?
    ensures q.Absent? ==> r == Some(default)
  {
    match q
    case Absent => Some(default)
    case Parsed(n) => Some(n)
    case NotANumber => None
  }

  /** `parseInt(q) || d` in orders.js: an absent, NaN or zero value takes the default. */
  function JsPageParam(q: PageQuery, default: int): (r: int)
    ensures q.Parsed? && q.n != 0 ==> r == q.n
    ensures !(q.Parsed? && q.n != 0) ==> r == default
  {
    if q.Parsed? && q.n != 0 then q.n else default
  }

  /** The two routes read a page parameter alike except on "0" and on unparsable text. */
  lemma PageFallbacksAgree(q: PageQuery, default: int)
    ensures TsPageParam(q, default) == Some(JsPageParam(q, default)) <==>
      (q.Absent? || (q.Parsed? && (q.n != 0 || default == 0)))
  {
  }

  /** In orders.js a page or limit of 0 never reaches the arithmetic when the default is non-zero. */
  lemma JsPageParamNonZero(q: PageQuery, default: int)
    requires default != 0
    ensures JsPageParam(q, default) != 0
  {
  }

  /** The number of documents skipped before page `page`: none on the first page. */
  function Skip(page: int, limit: int): (r: int)
    ensures page == 1 ==> r == 0
    ensures page >= 1 && limit >= 0 ==> r >= 0
  {
    (page - 1) * limit
  }

  /** Consecutive pages tile the list: each starts where the one before ends. */
  lemma {:induction false} PagesAdjacent(page: int, limit: int)
    ensures Skip(page + 1, limit) == Skip(page, limit) + limit
  {
    assert page * limit == (page - 1) * limit + limit;
  }

  /** `Math.ceil(total / limit)` for a positive limit: the fewest pages of `limit` that hold `total`. */
  function CeilDiv(total: nat, limit: int): (r: nat)
    requires limit >= 1
    ensures r * limit >= total
    ensures r == 0 || (r - 1) * limit < total
  {
    (total + limit - 1) / limit
  }

  datatype Pagination = Pagination(currentPage: int, totalPages: nat, totalOrders: nat, hasNextPage: bool, hasPrevPage: bool)

  /** The `pagination` object of GET /api/orders. */
  function Paginate(page: int, limit: int, total: nat): (r: Pagination)
    requires page >= 1 && limit >= 1
    ensures r.currentPage == page && r.totalOrders == total
    ensures r.totalPages * limit >= total && (r.totalPages == 0 || (r.totalPages - 1) * limit < total)
    ensures r.totalPages == 0 <==> total == 0
    ensures r.hasNextPage <==> page < r.totalPages
    ensures r.hasPrevPage <==> page > 1
  {
    var totalPages := CeilDiv(total, limit);
    Pagination(page, totalPages, total, page < totalPages, page > 1)
  }

  /** There is a next page exactly when some order lies beyond this one. */
  lemma HasNextPageIffMoreOrders(page: int, limit: int, total: nat)
    requires page >= 1 && limit >= 1
    ensures Paginate(page, limit, total).hasNextPage <==> Skip(page, limit) + limit < total
  {
    var n := CeilDiv(total, limit);
    if page < n {
      assert page * limit <= (n - 1) * limit by {
        MultiplyMonotonic(page, n - 1, limit);
      }
    } else {
      assert n * limit <= page * limit by {
        MultiplyMonotonic(n, page, limit);
      }
    }
  }

  lemma MultiplyMonotonic(a: int, b: int, k: int)
    requires a <= b && k >= 0
    ensures a * k <= b * k
  {
  }

  /** There is a previous page exactly when this page skips some orders. */
  lemma HasPrevPageIffSkipped(page: int, limit: int, total: nat)
    requires page >= 1 && limit >= 1
    ensures Paginate(page, limit, total).hasPrevPage <==> Skip(page, limit) > 0
  {
    if page > 1 {
      MultiplyMonotonic(1, page - 1, limit);
    }
  }

  /**
   * A listed order: the fields `select` keeps (and `_id`, which it always keeps),
   * with the derived order number spread in; items, address and `updatedAt` are dropped.
   */
  datatype ListedOrder = ListedOrder(
    id: string,
    firstName: string,
    lastName: string,
    email: string,
    orderSummary: OrderSummary,
    status: Status,
    orderDate: int,
    orderNumber: string)

  /** One order as the list route sends it. */
  function Listed(o: OrderRecord): (r: ListedOrder)
    ensures r.id == o.id && r.orderNumber == OrderNumber(o.id)
    ensures r.firstName == o.customerInfo.firstName && r.lastName == o.customerInfo.lastName
    ensures r.email == o.customerInfo.email
    ensures r.orderSummary == o.orderSummary && r.status == o.status && r.orderDate == o.orderDate
  {
    ListedOrder(o.id, o.customerInfo.firstName, o.customerInfo.lastName, o.customerInfo.email,
                o.orderSummary, o.status, o.orderDate, OrderNumber(o.id))
  }

  /**
   * `.skip(skip).limit(limit).select(...)` over the orders already sorted newest
   * first, each with its order number.
   */
  function ListPage(sorted: seq<OrderRecord>, page: int, limit: int): (r: seq<ListedOrder>)
    requires page >= 1 && limit >= 1
    ensures Skip(page, limit) >= |sorted| ==> r == []
    ensures Skip(page, limit) < |sorted| ==>
      |r| == if |sorted| - Skip(page, limit) < limit then |sorted| - Skip(page, limit) else limit
    ensures forall k | 0 <= k < |r| ::
      && Skip(page, limit) + k < |sorted|
      && r[k] == Listed(sorted[Skip(page, limit) + k])
  {
    var skip := Skip(page, limit);
    var from := if skip < |sorted| then skip else |sorted|;
    var to := if skip + limit < |sorted| then skip + limit else |sorted|;
    assert 0 <= from <= to <= |sorted| && to - from <= limit;
    assert to - from > 0 ==> from == skip;
    seq(to - from, k requires 0 <= k < to - from => Listed(sorted[from + k]))
  }

  /** The next page holds an order exactly when the pagination says there is a next page. */
  lemma NextPageNonEmptyIffHasNext(sorted: seq<OrderRecord>, page: int, limit: int)
    requires page >= 1 && limit >= 1
    ensures ListPage(sorted, page + 1, limit) != [] <==> Paginate(page, limit, |sorted|).hasNextPage
  {
    HasNextPageIffMoreOrders(page, limit, |sorted|);
    PagesAdjacent(page, limit);
  }

  // ---------------------------------------------------------------- reads, status and soft delete

  datatype RouteError = InvalidStatus | NotFound

  /** GET /api/orders/:id: the stored order, or not found. */
  function GetOrder(store: map<string, OrderRecord>, id: string): (r: Result<OrderRecord, RouteError>)
    ensures r.Success? <==> id in store
    ensures r.Success? ==> r.value == store[id]
    ensures r.Failure? ==> r.error == NotFound
  {
    if id in store then Success(store[id]) else Failure(NotFound)
  }

  /**
   * PUT /api/orders/:id/status: the status must be one of the six names; it is then
   * applied whatever the order's current status, and `updatedAt` is stamped.
   */
  function UpdateStatus(store: map<string, OrderRecord>, id: string, status: string, now: int)
    : (r: Result<map<string, OrderRecord>, RouteError>)
    ensures r == Failure(InvalidStatus) <==> status !in StatusNames
    ensures r.Success? <==> status in StatusNames && id in store
    ensures r.Success? ==>
      && id in store && ParseStatus(status).Some?
      && r.value == store[id := store[id].(status := ParseStatus(status).value, updatedAt := now)]
  {
    var parsed := ParseStatus(status);
    if parsed.None? then Failure(InvalidStatus)
    else if id !in store then Failure(NotFound)
    else Success(store[id := store[id].(status := parsed.value, updatedAt := now)])
  }

  /** There is no transition table: every listed status is reachable from every status. */
  lemma AnyStatusFromAnyStatus(store: map<string, OrderRecord>, id: string, from: Status, to: Status, now: int)
    requires id in store && store[id].status == from
    ensures UpdateStatus(store, id, StatusName(to), now).Success?
    ensures UpdateStatus(store, id, StatusName(to), now).value[id].status == to
  {
  }

  /** DELETE /api/orders/:id: a soft delete that marks the order cancelled. */
  function CancelOrder(store: map<string, OrderRecord>, id: string, now: int): (r: Result<map<string, OrderRecord>, RouteError>)
    ensures r.Success? <==> id in store
    ensures r.Success? ==> r.value.Keys == store.Keys && r.value[id].status == Cancelled
    ensures r.Success? ==> forall k | k in store && k != id :: r.value[k] == store[k]
  {
    if id !in store then Failure(NotFound)
    else Success(store[id := store[id].(status := Cancelled, updatedAt := now)])
  }

  /** A status update is what the next read of that order sees; every other order reads as before. */
  lemma UpdateStatusThenGet(store: map<string, OrderRecord>, id: string, status: string, now: int, other: string)
    requires UpdateStatus(store, id, status, now).Success?
    ensures GetOrder(UpdateStatus(store, id, status, now).value, id).value.status == ParseStatus(status).value
    ensures GetOrder(UpdateStatus(store, id, status, now).value, id).value.updatedAt == now
    ensures other != id ==> GetOrder(UpdateStatus(store, id, status, now).value, other) == GetOrder(store, other)
  {
  }

  /** Cancelling is the status update to "cancelled": the same store results. */
  lemma CancelIsStatusUpdate(store: map<string, OrderRecord>, id: string, now: int)
    ensures CancelOrder(store, id, now) == (if id in store then UpdateStatus(store, id, "cancelled", now) else Failure(NotFound))
  {
  }

  // ---------------------------------------------------------------- customer lookup

  /** GET /api/orders/customer/:email looks orders up by the lower-cased email. */
  function CustomerLookupKey(email: string): (key: string)
    ensures |key| == |email|
    ensures forall i | 0 <= i < |key| :: !('A' <= key[i] <= 'Z')
  {
    ToLower(email)
  }

  /** Emails that differ only in ASCII letter case share one lookup key, the one the schema stored. */
  lemma LookupKeyIgnoresCase(a: string, b: string)
    requires ToLower(a) == ToLower(b)
    ensures CustomerLookupKey(a) == CustomerLookupKey(b)
    ensures CustomerLookupKey(CustomerLookupKey(a)) == CustomerLookupKey(b)
  {
    ToLowerIdempotent(a);
  }

  /**
   * GET /api/orders/customer/:email: the summaries of the orders stored under the
   * lower-cased email, by order id; `orderCount` is the number of them.
   */
  function CustomerOrders(store: map<string, OrderRecord>, email: string): (r: map<string, OrderSummaryResponse>)
    ensures forall id :: id in r <==> id in store && store[id].customerInfo.email == CustomerLookupKey(email)
    ensures forall id | id in r :: r[id] == GetSummary(store[id])
  {
    map id | id in store && store[id].customerInfo.email == CustomerLookupKey(email) :: GetSummary(store[id])
  }

  /**
   * An order saved with an email that has no surrounding spaces is found by a lookup
   * with that email in any letter case: the schema stores it lower-cased, and the route
   * lower-cases the key.
   */
  lemma SavedOrderFoundByAnyCase(store: map<string, OrderRecord>, id: string, c: CustomerInfo, items: seq<OrderItem>,
                                 summary: OrderSummary, now: int, query: string)
    requires HasNoOuterWhitespace(c.email) && ToLower(query) == ToLower(c.email)
    ensures var saved := AfterPreSave(NewOrderRecord(id, c, items, summary, now), now);
      id in CustomerOrders(store[id := saved], query)
  {
    LowerKeepsNoOuterWhitespace(c.email);
    TrimKeepsTrimmed(ToLower(c.email));
  }
}
