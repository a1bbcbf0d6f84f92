/**
 * The Redux cart (frontend/src/store/slices/cartSlice.ts). The reducers mutate a
 * draft state in place; `CartState` holds that state, and each reducer method is
 * specified by a function on the `Cart` value it leaves behind. The lemmas state
 * what the reducers promise: ids stay unique, every line is priced, and the
 * totals are re-derived from the lines.
 */
module CartSlice {
  import opened Wrappers
  import opened Money
  import opened Sequences
  import opened ShopTypes

  /** The cart slice's state as a value. */
  datatype Cart = Cart(items: seq<CartItem>, totalItems: int, totalAmount: real, isOpen: bool)

  /** The empty, closed cart the store starts with. */
  const InitialCart := Cart([], 0, 0.0, false)

  /** Sum of the line quantities, folded from the left. */
  function TotalQuantity(items: seq<CartItem>): int {
    if items == [] then 0 else TotalQuantity(items[..|items| - 1]) + items[|items| - 1].quantity
  }

  /** Sum of the line totals, folded from the left, before rounding. */
  function SumTotalPrices(items: seq<CartItem>): real {
    if items == [] then 0.0 else SumTotalPrices(items[..|items| - 1]) + items[|items| - 1].totalPrice
  }

  /** The position of the first line with id `id` at or after `from`, as `find` scans. */
  function IndexOfIdFrom(items: seq<CartItem>, id: int, from: nat): (r: Option<nat>)
    requires from <= |items|
    ensures r.Some? ==> from <= r.value < |items| && items[r.value].id == id
    ensures r.Some? ==> forall j | from <= j < r.value :: items[j].id != id
    ensures r.None? ==> forall j | from <= j < |items| :: items[j].id != id
    decreases |items| - from
  {
    if from == |items| then None
    else if items[from].id == id then Some(from)
    else IndexOfIdFrom(items, id, from + 1)
  }

  /** `items.find(item => item.id === id)`, as the position it finds. */
  function IndexOfId(items: seq<CartItem>, id: int): (r: Option<nat>)
    ensures r.Some? ==> r.value < |items| && items[r.value].id == id
    ensures r.None? <==> forall j | 0 <= j < |items| :: items[j].id != id
  {
    IndexOfIdFrom(items, id, 0)
  }

  /** No two lines share an id. */
  predicate UniqueIds(items: seq<CartItem>) {
    forall i, j | 0 <= i < j < |items| :: items[i].id != items[j].id
  }

  /** Every line's total is its price times its quantity. */
  predicate LinesPriced(items: seq<CartItem>) {
    forall x | x in items :: x.totalPrice == x.price * x.quantity as real
  }

  /** The totals are those of the lines. */
  predicate TotalsAgree(c: Cart) {
    c.totalItems == TotalQuantity(c.items) && c.totalAmount == Round2(SumTotalPrices(c.items))
  }

  /** The cart invariant every reducer keeps. */
  predicate Valid(c: Cart) {
    UniqueIds(c.items) && LinesPriced(c.items) && TotalsAgree(c)
  }

  /** `calculateTotals`: the lines and the open flag as they were, the totals re-derived. */
  function WithTotals(c: Cart): (r: Cart)
    ensures TotalsAgree(r)
    ensures r.items == c.items && r.isOpen == c.isOpen
  {
    c.(totalItems := TotalQuantity(c.items), totalAmount := Round2(SumTotalPrices(c.items)))
  }

  /** A line re-priced for a new quantity, keeping its own unit price. */
  function WithQuantity(item: CartItem, quantity: int): (r: CartItem)
    ensures r.totalPrice == r.price * r.quantity as real
    ensures r.quantity == quantity && r.(quantity := item.quantity, totalPrice := item.totalPrice) == item
  {
    item.(quantity := quantity, totalPrice := item.price * quantity as real)
  }

  /** The line a product not yet in the cart becomes. */
  function NewCartItem(product: Product, quantity: int): (r: CartItem)
    ensures r.id == product.id && r.productId == product.id && r.quantity == quantity
    ensures r.unit == if product.unit == None || product.unit == Some("") then DefaultUnit else product.unit.value
    ensures r.price == product.price && r.totalPrice == r.price * r.quantity as real
  {
    CartItem(product.id, product.id, product.name, product.categoryId, product.categoryName, product.price,
             if product.unit.Some? && product.unit.value != "" then product.unit.value else DefaultUnit,
             quantity, product.price * quantity as real)
  }

  /** `addToCart`: find-or-insert, with the quantity defaulting to 1, then the totals. */
  function Added(c: Cart, product: Product, quantity: Option<int>): Cart {
    var q := quantity.GetOr(1);
    var found := IndexOfId(c.items, product.id);
    var items :=
      if found.Some? then c.items[found.value := WithQuantity(c.items[found.value], c.items[found.value].quantity + q)]
      else c.items + [NewCartItem(product, q)];
    WithTotals(c.(items := items))
  }

  /** `removeFromCart`: the lines with another id, in order, then the totals. */
  function Removed(c: Cart, id: int): Cart {
    WithTotals(c.(items := Filter(c.items, (x: CartItem) => x.id != id)))
  }

  /** `updateQuantity`: re-price the line when it exists and the quantity is positive; otherwise nothing. */
  function QuantityUpdated(c: Cart, id: int, quantity: int): Cart {
    var found := IndexOfId(c.items, id);
    if found.Some? && quantity > 0 then
      WithTotals(c.(items := c.items[found.value := WithQuantity(c.items[found.value], quantity)]))
    else c
  }

  /** `clearCart`. */
  function Cleared(c: Cart): Cart {
    c.(items := [], totalItems := 0, totalAmount := 0.0)
  }

  /** `toggleCart`. */
  function Toggled(c: Cart): Cart {
    c.(isOpen := !c.isOpen)
  }

  /** `openCart`. */
  function Opened(c: Cart): Cart {
    c.(isOpen := true)
  }

  /** `closeCart`. */
  function Closed(c: Cart): Cart {
    c.(isOpen := false)
  }

  // ---------------------------------------------------------------- what the reducers promise

  /** The initial cart satisfies the invariant. */
  lemma InitialCartValid()
    ensures Valid(InitialCart)
  {
    Round2FixesWholeCents(0.0);
  }

  /** Adding a product already in the cart adds to that line only; the number of lines is unchanged. */
  lemma AddToExistingLine(c: Cart, product: Product, quantity: Option<int>, k: nat)
    requires UniqueIds(c.items) && k < |c.items| && c.items[k].id == product.id
    ensures var r := Added(c, product, quantity);
      && |r.items| == |c.items|
      && r.items[k].quantity == c.items[k].quantity + quantity.GetOr(1)
      && r.items[k].price == c.items[k].price
      && r.items[k].totalPrice == r.items[k].price * r.items[k].quantity as real
      && (forall j | 0 <= j < |c.items| && j != k :: r.items[j] == c.items[j])
  {
    var found := IndexOfId(c.items, product.id);
    assert found.Some?;
    assert found.value == k;
  }

  /** Adding a product not in the cart appends one line for it at the end. */
  lemma AddNewLine(c: Cart, product: Product, quantity: Option<int>)
    requires forall j | 0 <= j < |c.items| :: c.items[j].id != product.id
    ensures Added(c, product, quantity).items == c.items + [NewCartItem(product, quantity.GetOr(1))]
  {
  }

  /** Adding keeps the invariant, and in particular no id appears twice. */
  lemma AddKeepsValid(c: Cart, product: Product, quantity: Option<int>)
    requires Valid(c)
    ensures Valid(Added(c, product, quantity))
  {
    AddedLinesKeepInvariant(c.items, product, quantity.GetOr(1));
  }

  /** The find-or-insert step of `addToCart` keeps ids unique and lines priced. */
  lemma AddedLinesKeepInvariant(items: seq<CartItem>, product: Product, q: int)
    requires UniqueIds(items) && LinesPriced(items)
    ensures var found := IndexOfId(items, product.id);
      var r := if found.Some? then items[found.value := WithQuantity(items[found.value], items[found.value].quantity + q)]
               else items + [NewCartItem(product, q)];
      UniqueIds(r) && LinesPriced(r)
  {
    var found := IndexOfId(items, product.id);
    if found.Some? {
      var k := found.value;
      ReplaceLineKeepsInvariant(items, k, WithQuantity(items[k], items[k].quantity + q));
    } else {
      AppendLineKeepsInvariant(items, NewCartItem(product, q));
    }
  }

  lemma ReplaceLineKeepsInvariant(items: seq<CartItem>, k: nat, line: CartItem)
    requires k < |items| && UniqueIds(items) && LinesPriced(items)
    requires line.id == items[k].id && line.totalPrice == line.price * line.quantity as real
    ensures UniqueIds(items[k := line]) && LinesPriced(items[k := line])
  {
    var r := items[k := line];
    assert forall i | 0 <= i < |r| :: r[i].id == items[i].id;
    forall x | x in r ensures x.totalPrice == x.price * x.quantity as real {
      var i :| 0 <= i < |r| && r[i] == x;
      if i != k {
        assert x == items[i];
      }
    }
  }

  lemma AppendLineKeepsInvariant(items: seq<CartItem>, line: CartItem)
    requires UniqueIds(items) && LinesPriced(items)
    requires forall j | 0 <= j < |items| :: items[j].id != line.id
    requires line.totalPrice == line.price * line.quantity as real
    ensures UniqueIds(items + [line]) && LinesPriced(items + [line])
  {
    var r := items + [line];
    forall x | x in r ensures x.totalPrice == x.price * x.quantity as real {
      var i :| 0 <= i < |r| && r[i] == x;
      if i < |items| {
        assert x == items[i];
      }
    }
  }

  /** Removing drops exactly the lines with that id and keeps the others in their order. */
  lemma RemoveDropsExactlyThatId(c: Cart, id: int)
    ensures var r := Removed(c, id);
      && (forall x :: x in r.items <==> x in c.items && x.id != id)
      && IsSubsequence(r.items, c.items)
      && TotalsAgree(r)
  {
    FilterMembers(c.items, (x: CartItem) => x.id != id);
    FilterIsSubsequence(c.items, (x: CartItem) => x.id != id);
  }

  /** Removing keeps the invariant. */
  lemma RemoveKeepsValid(c: Cart, id: int)
    requires Valid(c)
    ensures Valid(Removed(c, id))
  {
    FilterKeepsUniqueIds(c.items, (x: CartItem) => x.id != id);
    FilterMembers(c.items, (x: CartItem) => x.id != id);
  }

  /** A filtered list of lines with unique ids has unique ids. */
  lemma {:induction false} FilterKeepsUniqueIds(items: seq<CartItem>, keep: CartItem -> bool)
    requires UniqueIds(items)
    ensures UniqueIds(Filter(items, keep))
  {
    if items != [] {
      var rest := items[1..];
      assert UniqueIds(rest) by {
        forall i, j | 0 <= i < j < |rest| ensures rest[i].id != rest[j].id {
          assert rest[i] == items[i + 1] && rest[j] == items[j + 1];
        }
      }
      FilterKeepsUniqueIds(rest, keep);
      if keep(items[0]) {
        var r := Filter(items, keep);
        assert r == [items[0]] + Filter(rest, keep);
        forall i, j | 0 <= i < j < |r| ensures r[i].id != r[j].id {
          if i == 0 {
            FilterMembers(rest, keep);
            assert r[j] in Filter(rest, keep);
            var m :| 0 <= m < |rest| && rest[m] == r[j];
            assert items[m + 1] == r[j];
          } else {
            assert r[i] == Filter(rest, keep)[i - 1] && r[j] == Filter(rest, keep)[j - 1];
          }
        }
      }
    }
  }

  /** An update for an unknown id, or with a quantity that is not positive, changes nothing, totals included. */
  lemma UpdateIgnored(c: Cart, id: int, quantity: int)
    requires quantity <= 0 || forall j | 0 <= j < |c.items| :: c.items[j].id != id
    ensures QuantityUpdated(c, id, quantity) == c
  {
  }

  /** A successful update sets that line's quantity and total and leaves the other lines alone. */
  lemma UpdateSetsLine(c: Cart, id: int, quantity: int, k: nat)
    requires UniqueIds(c.items) && k < |c.items| && c.items[k].id == id && quantity > 0
    ensures var r := QuantityUpdated(c, id, quantity);
      && |r.items| == |c.items|
      && r.items[k].quantity == quantity
      && r.items[k].totalPrice == c.items[k].price * quantity as real
      && (forall j | 0 <= j < |c.items| && j != k :: r.items[j] == c.items[j])
      && TotalsAgree(r)
  {
    assert IndexOfId(c.items, id) == Some(k);
  }

  /** Updating keeps the invariant. */
  lemma UpdateKeepsValid(c: Cart, id: int, quantity: int)
    requires Valid(c)
    ensures Valid(QuantityUpdated(c, id, quantity))
  {
    var found := IndexOfId(c.items, id);
    if found.Some? && quantity > 0 {
      var k := found.value;
      var r := QuantityUpdated(c, id, quantity);
      assert r.items == c.items[k := WithQuantity(c.items[k], quantity)];
      forall x | x in r.items ensures x.totalPrice == x.price * x.quantity as real {
        var i :| 0 <= i < |r.items| && r.items[i] == x;
        if i != k {
          assert x in c.items;
        }
      }
    }
  }

  /** Clearing empties the cart and zeroes the totals, keeps the open flag, and keeps the invariant. */
  lemma ClearKeepsValid(c: Cart)
    ensures var r := Cleared(c);
      r.items == [] && r.totalItems == 0 && r.totalAmount == 0.0 && r.isOpen == c.isOpen && Valid(r)
  {
    Round2FixesWholeCents(0.0);
  }

  /** Toggling twice restores the cart; opening and closing are idempotent; none of them touches lines or totals. */
  lemma DisplayFlagOperations(c: Cart)
    ensures Toggled(Toggled(c)) == c
    ensures Opened(Opened(c)) == Opened(c) && Closed(Closed(c)) == Closed(c)
    ensures Toggled(c).isOpen != c.isOpen && Opened(c).isOpen && !Closed(c).isOpen
    ensures Toggled(c).(isOpen := c.isOpen) == c && Opened(c).(isOpen := c.isOpen) == c && Closed(c).(isOpen := c.isOpen) == c
  {
  }

  /** `selectCartItemById`: the first line with that id, if any. */
  function CartItemById(c: Cart, id: int): (r: Option<CartItem>)
    ensures r.Some? <==> exists j | 0 <= j < |c.items| :: c.items[j].id == id
    ensures r.Some? ==> r.value in c.items && r.value.id == id
  {
    var found := IndexOfId(c.items, id);
    if found.Some? then Some(c.items[found.value]) else None
  }

  /** After `addToCart` the product's line is there to select. */
  lemma AddedProductSelectable(c: Cart, product: Product, quantity: Option<int>)
    ensures CartItemById(Added(c, product, quantity), product.id).Some?
  {
    var r := Added(c, product, quantity);
    var found := IndexOfId(c.items, product.id);
    if found.Some? {
      assert r.items[found.value].id == product.id;
    } else {
      assert r.items[|c.items|].id == product.id;
    }
  }

  /** After `removeFromCart` no line with that id is left to select. */
  lemma RemovedProductNotSelectable(c: Cart, id: int)
    ensures CartItemById(Removed(c, id), id).None?
  {
    var r := Removed(c, id);
    FilterMembers(c.items, (x: CartItem) => x.id != id);
    forall j | 0 <= j < |r.items| ensures r.items[j].id != id {
      assert r.items[j] in r.items;
    }
  }

  // ---------------------------------------------------------------- the slice

  /** The cart slice's draft state, updated in place by the reducers. */
  class CartState {
    var items: seq<CartItem>
    var totalItems: int
    var totalAmount: real
    var isOpen: bool

    /** The state as a value. */
    function State(): Cart
      reads this
    {
      Cart(items, totalItems, totalAmount, isOpen)
    }

    /** `initialState`. */
    constructor()
      ensures State() == InitialCart
    {
      items := [];
      totalItems := 0;
      totalAmount := 0.0;
      isOpen := false;
    }

    /** `calculateTotals`: two left folds over the lines, the amount rounded to the cent. */
    method CalculateTotals()
      modifies this
      ensures State() == WithTotals(old(State()))
    {
      var quantity := 0;
      var amount := 0.0;
      var i := 0;
      while i < |items|
        invariant 0 <= i <= |items|
        invariant quantity == TotalQuantity(items[..i])
        invariant amount == SumTotalPrices(items[..i])
      {
        assert items[..i + 1][..i] == items[..i];
        quantity := quantity + items[i].quantity;
        amount := amount + items[i].totalPrice;
        i := i + 1;
      }
      assert items[..i] == items;
      totalItems := quantity;
      totalAmount := Round2(amount);
    }

    /** `addToCart`. */
    method AddToCart(product: Product, quantity: Option<int>)
      modifies this
      ensures State() == Added(old(State()), product, quantity)
    {
      var q := quantity.GetOr(1);
      var found := IndexOfId(items, product.id);
      if found.Some? {
        var k := found.value;
        items := items[k := WithQuantity(items[k], items[k].quantity + q)];
      } else {
        items := items + [NewCartItem(product, q)];
      }
      CalculateTotals();
    }

    /** `removeFromCart`. */
    method RemoveFromCart(id: int)
      modifies this
      ensures State() == Removed(old(State()), id)
    {
      items := Filter(items, (x: CartItem) => x.id != id);
      CalculateTotals();
    }

    /** `updateQuantity`. */
    method UpdateQuantity(id: int, quantity: int)
      modifies this
      ensures State() == QuantityUpdated(old(State()), id, quantity)
    {
      var found := IndexOfId(items, id);
      if found.Some? && quantity > 0 {
        var k := found.value;
        items := items[k := WithQuantity(items[k], quantity)];
        CalculateTotals();
      }
    }

    /** `clearCart`. */
    method ClearCart()
      modifies this
      ensures State() == Cleared(old(State()))
    {
      items := [];
      totalItems := 0;
      totalAmount := 0.0;
    }

    /** `toggleCart`. */
    method ToggleCart()
      modifies this
      ensures State() == Toggled(old(State()))
    {
      isOpen := !isOpen;
    }

    /** `openCart`. */
    method OpenCart()
      modifies this
      ensures State() == Opened(old(State()))
    {
      isOpen := true;
    }

    /** `closeCart`. */
    method CloseCart()
      modifies this
      ensures State() == Closed(old(State()))
    {
      isOpen := false;
    }
  }
}
