/** The cart provider's order-quantity logic. Every operation is a total
    function from the previous cart list to the next one; the class in
    CartContext applies them to its state cell. */
module Cart {
  import opened Wrappers
  import opened Menu

  /** One committed order line: a snapshot of the dish's display fields taken
      when the line was created, and the ordered quantity. */
  datatype CartLine = CartLine(id: DishId, name: string, price: int, currency: string, image: string, quantity: int)

  /** The two filters the provider applies to its list: drop one dish id, or
      keep only lines whose quantity is still above zero. */
  datatype Criterion = DishOtherThan(removed: DishId) | QuantityAboveZero

  predicate Keeps(c: Criterion, line: CartLine) {
    match c
    case DishOtherThan(removed) => line.id != removed
    case QuantityAboveZero => line.quantity > 0
  }

  /** The line appended for a dish that is not yet in the cart. */
  function Snapshot(dish: Dish, qty: int): CartLine {
    CartLine(dish.id, dish.name, dish.price, dish.currency, dish.image, qty)
  }

  predicate HasLine(cart: seq<CartLine>, id: DishId) {
    exists i :: 0 <= i < |cart| && cart[i].id == id
  }

  /** At most one line per dish id. */
  predicate UniqueIds(cart: seq<CartLine>) {
    forall i, j :: 0 <= i < j < |cart| ==> cart[i].id != cart[j].id
  }

  /** No line is stored with a quantity of zero or less. */
  predicate AllPositive(cart: seq<CartLine>) {
    forall i :: 0 <= i < |cart| ==> cart[i].quantity > 0
  }

  /** The cart invariant: one line per dish, every quantity at least 1. */
  predicate Valid(cart: seq<CartLine>) {
    UniqueIds(cart) && AllPositive(cart)
  }

  function Ids(cart: seq<CartLine>): set<DishId> {
    set line | line in cart :: line.id
  }

  /** The `map` step shared by add, increment and decrement: every line of the
      given dish has `delta` added to its quantity, every other line is kept. */
  function AdjustQuantity(cart: seq<CartLine>, id: DishId, delta: int): (r: seq<CartLine>)
    ensures |r| == |cart|
    ensures forall i :: 0 <= i < |cart| ==>
      r[i] == if cart[i].id == id then cart[i].(quantity := cart[i].quantity + delta) else cart[i]
  {
    if cart == [] then []
    else
      var line := cart[0];
      [if line.id == id then line.(quantity := line.quantity + delta) else line]
        + AdjustQuantity(cart[1..], id, delta)
  }

  /** Two adjustments of the same dish add up: adjusting `mid`, itself the
      cart adjusted by `a`, by `b` is adjusting the cart by their sum. */
  lemma AdjustTwice(cart: seq<CartLine>, mid: seq<CartLine>, id: DishId, a: int, b: int, sum: int)
    requires mid == AdjustQuantity(cart, id, a)
    requires sum == a + b
    ensures AdjustQuantity(mid, id, b) == AdjustQuantity(cart, id, sum)
  {
    var twice := AdjustQuantity(mid, id, b);
    forall i | 0 <= i < |cart| ensures twice[i] == AdjustQuantity(cart, id, sum)[i] {
    }
  }

  /** Adjusting a dish that only the appended last line carries changes that
      line alone. */
  lemma AdjustAppended(cart: seq<CartLine>, last: CartLine, delta: int, raised: int)
    requires !HasLine(cart, last.id)
    requires raised == last.quantity + delta
    ensures AdjustQuantity(cart + [last], last.id, delta) == cart + [last.(quantity := raised)]
  {
    var r := AdjustQuantity(cart + [last], last.id, delta);
    forall i | 0 <= i < |cart| ensures r[i] == cart[i] {
      assert (cart + [last])[i] == cart[i];
    }
  }

  /** `a` is obtained from `b` by deleting some elements, keeping the order. */
  ghost predicate IsSubsequence(a: seq<CartLine>, b: seq<CartLine>)
    decreases |b|
  {
    a == [] || (b != [] && ((a[0] == b[0] && IsSubsequence(a[1..], b[1..])) || IsSubsequence(a, b[1..])))
  }

  /** In a cart with one line per dish, adjusting a dish present at index k
      changes that line alone. */
  lemma AdjustOneLine(cart: seq<CartLine>, id: DishId, delta: int, k: nat)
    requires UniqueIds(cart)
    requires k < |cart| && cart[k].id == id
    ensures AdjustQuantity(cart, id, delta) == cart[k := cart[k].(quantity := cart[k].quantity + delta)]
  {
    var r := AdjustQuantity(cart, id, delta);
    forall i | 0 <= i < |cart| && i != k ensures r[i] == cart[i] {
      assert cart[i].id != id;
    }
  }

  /** The `filter` step: the lines the criterion keeps, in their original order. */
  function Filter(cart: seq<CartLine>, c: Criterion): (r: seq<CartLine>)
    ensures |r| <= |cart|
    ensures forall line :: line in r <==> line in cart && Keeps(c, line)
    ensures IsSubsequence(r, cart)
  {
    if cart == [] then []
    else
      var rest := Filter(cart[1..], c);
      assert forall line :: line in cart <==> line == cart[0] || line in cart[1..];
      if Keeps(c, cart[0]) then
        assert ([cart[0]] + rest)[1..] == rest;
        [cart[0]] + rest
      else rest
  }

  lemma {:induction false} FilterAppend(a: seq<CartLine>, b: seq<CartLine>, c: Criterion)
    ensures Filter(a + b, c) == Filter(a, c) + Filter(b, c)
  {
    if a == [] {
      assert a + b == b;
    } else {
      assert (a + b)[0] == a[0];
      assert (a + b)[1..] == a[1..] + b;
      FilterAppend(a[1..], b, c);
    }
  }

  lemma {:induction false} FilterKeepsAll(cart: seq<CartLine>, c: Criterion)
    requires forall i :: 0 <= i < |cart| ==> Keeps(c, cart[i])
    ensures Filter(cart, c) == cart
  {
    if cart != [] {
      FilterKeepsAll(cart[1..], c);
    }
  }

  lemma {:induction false} FilterKeepsUniqueIds(cart: seq<CartLine>, c: Criterion)
    requires UniqueIds(cart)
    ensures UniqueIds(Filter(cart, c))
  {
    if cart != [] {
      var rest := Filter(cart[1..], c);
      FilterKeepsUniqueIds(cart[1..], c);
      if Keeps(c, cart[0]) {
        var r := [cart[0]] + rest;
        forall i, j | 0 <= i < j < |r| ensures r[i].id != r[j].id {
          if i == 0 {
            assert r[j] in cart[1..];
            var k :| 0 <= k < |cart[1..]| && cart[1..][k] == r[j];
            assert cart[k + 1] == r[j];
          } else {
            assert r[i] == rest[i - 1] && r[j] == rest[j - 1];
          }
        }
      }
    }
  }

  // ---------------------------------------------------------------------
  // addCartItem
  // ---------------------------------------------------------------------

  /** Merge a dish into the cart: an existing line of the same dish gains the
      quantity, otherwise a snapshot line is appended. The quantity is the
      attached staged amount, or 1 when none is attached. */
  function AddCartItem(cart: seq<CartLine>, dish: Dish, staged: Option<int>): seq<CartLine> {
    var qty := staged.GetOr(1);
    if HasLine(cart, dish.id) then AdjustQuantity(cart, dish.id, qty)
    else cart + [Snapshot(dish, qty)]
  }

  /** After adding, the dish has a line; the list keeps its length when the
      dish was present and grows by one otherwise; every earlier position keeps
      its dish id, and every line of another dish is unchanged. */
  lemma AddKeepsOtherLines(cart: seq<CartLine>, dish: Dish, staged: Option<int>)
    ensures var r := AddCartItem(cart, dish, staged);
      && HasLine(r, dish.id)
      && |r| == (if HasLine(cart, dish.id) then |cart| else |cart| + 1)
      && (forall i :: 0 <= i < |cart| ==> r[i].id == cart[i].id)
      && (forall i :: 0 <= i < |cart| && cart[i].id != dish.id ==> r[i] == cart[i])
  {
    var r := AddCartItem(cart, dish, staged);
    if !HasLine(cart, dish.id) {
      assert r[|cart|].id == dish.id;
    }
  }

  /** Adding a dish already in the cart raises that line by the quantity and
      leaves every other line, the length and the order as they were. */
  lemma AddMergesExisting(cart: seq<CartLine>, dish: Dish, staged: Option<int>, k: nat)
    requires UniqueIds(cart)
    requires k < |cart| && cart[k].id == dish.id
    ensures AddCartItem(cart, dish, staged) == cart[k := cart[k].(quantity := cart[k].quantity + staged.GetOr(1))]
  {
    assert HasLine(cart, dish.id);
    AdjustOneLine(cart, dish.id, staged.GetOr(1), k);
  }

  /** Adding a dish not yet in the cart appends exactly one line at the end,
      carrying the dish's name, price, currency and image; its quantity is the
      attached amount, or 1 when no amount is attached. */
  lemma AddAppendsNew(cart: seq<CartLine>, dish: Dish, staged: Option<int>)
    requires !HasLine(cart, dish.id)
    ensures var r := AddCartItem(cart, dish, staged);
      && r == cart + [CartLine(dish.id, dish.name, dish.price, dish.currency, dish.image, staged.GetOr(1))]
      && |r| == |cart| + 1
      && (staged.None? ==> r[|cart|].quantity == 1)
  {
  }

  /** With a quantity of at least 1, adding keeps one line per dish and every
      quantity at least 1. */
  lemma AddPreservesValid(cart: seq<CartLine>, dish: Dish, staged: Option<int>)
    requires Valid(cart)
    requires staged.GetOr(1) >= 1
    ensures Valid(AddCartItem(cart, dish, staged))
  {
    var r := AddCartItem(cart, dish, staged);
    if !HasLine(cart, dish.id) {
      AddAppendsNew(cart, dish, staged);
      forall i, j | 0 <= i < j < |r| ensures r[i].id != r[j].id {
        if j == |cart| {
          assert r[i] == cart[i];
        } else {
          assert r[i] == cart[i] && r[j] == cart[j];
        }
      }
    }
  }

  /** Adding an amount to a dish already in the cart is the `map` step. */
  lemma AddExistingAdjusts(cart: seq<CartLine>, dish: Dish, qty: int)
    requires HasLine(cart, dish.id)
    ensures AddCartItem(cart, dish, Some(qty)) == AdjustQuantity(cart, dish.id, qty)
    ensures HasLine(AddCartItem(cart, dish, Some(qty)), dish.id)
  {
  }

  /** Adding an amount to a dish not yet in the cart appends its snapshot. */
  lemma AddNewAppends(cart: seq<CartLine>, dish: Dish, qty: int)
    requires !HasLine(cart, dish.id)
    ensures AddCartItem(cart, dish, Some(qty)) == cart + [Snapshot(dish, qty)]
  {
  }

  /** The merge rule for a dish already in the cart: both adds adjust its line. */
  lemma AddTwiceExisting(cart: seq<CartLine>, first: Dish, second: Dish, q1: int, q2: int, total: int)
    requires first.id == second.id && HasLine(cart, first.id)
    requires total == q1 + q2
    ensures AddCartItem(AddCartItem(cart, first, Some(q1)), second, Some(q2)) == AddCartItem(cart, first, Some(total))
  {
    var once := AddCartItem(cart, first, Some(q1));
    AddExistingAdjusts(cart, first, q1);
    AddExistingAdjusts(once, second, q2);
    AdjustTwice(cart, once, first.id, q1, q2, total);
    AddExistingAdjusts(cart, first, total);
  }

  /** The merge rule for a new dish: the first add appends its snapshot, the
      second raises that last line. */
  lemma AddTwiceNew(cart: seq<CartLine>, first: Dish, second: Dish, q1: int, q2: int, total: int)
    requires first.id == second.id && !HasLine(cart, first.id)
    requires total == q1 + q2
    ensures AddCartItem(AddCartItem(cart, first, Some(q1)), second, Some(q2)) == AddCartItem(cart, first, Some(total))
  {
    var snap := Snapshot(first, q1);
    var once := AddCartItem(cart, first, Some(q1));
    AddNewAppends(cart, first, q1);
    assert HasLine(once, second.id) by {
      assert once[|cart|] == snap;
    }
    AddExistingAdjusts(once, second, q2);
    AdjustAppended(cart, snap, q2, total);
    AddNewAppends(cart, first, total);
  }

  /** Adding the same dish with q1 and then q2 is adding it once with their
      sum: the lines merge and are never duplicated. The line keeps the
      snapshot taken at the first add. */
  lemma AddTwiceMerges(cart: seq<CartLine>, first: Dish, second: Dish, q1: int, q2: int, total: int)
    requires first.id == second.id
    requires total == q1 + q2
    ensures AddCartItem(AddCartItem(cart, first, Some(q1)), second, Some(q2)) == AddCartItem(cart, first, Some(total))
  {
    if HasLine(cart, first.id) {
      AddTwiceExisting(cart, first, second, q1, q2, total);
    } else {
      AddTwiceNew(cart, first, second, q1, q2, total);
    }
  }

  // ---------------------------------------------------------------------
  // removeAllCartItems and removeCartItem
  // ---------------------------------------------------------------------

  /** Clear the cart, whatever it held. */
  function RemoveAllCartItems(cart: seq<CartLine>): (r: seq<CartLine>)
    ensures |r| == 0
  {
    []
  }

  lemma RemoveAllIdempotent(cart: seq<CartLine>)
    ensures RemoveAllCartItems(RemoveAllCartItems(cart)) == RemoveAllCartItems(cart)
    ensures Valid(RemoveAllCartItems(cart))
  {
  }

  /** Drop every line of one dish. */
  function RemoveCartItem(cart: seq<CartLine>, id: DishId): (r: seq<CartLine>)
    ensures forall line :: line in r <==> line in cart && line.id != id
    ensures !HasLine(r, id)
    ensures IsSubsequence(r, cart)
  {
    var r := Filter(cart, DishOtherThan(id));
    assert forall i :: 0 <= i < |r| ==> r[i] in r;
    r
  }

  /** Removing an id that is not in the cart leaves the cart as it was. */
  lemma RemoveAbsentIsNoOp(cart: seq<CartLine>, id: DishId)
    requires !HasLine(cart, id)
    ensures RemoveCartItem(cart, id) == cart
  {
    FilterKeepsAll(cart, DishOtherThan(id));
  }

  /** Filtering a one-line list keeps that line exactly when the criterion
      keeps it. */
  lemma FilterSingle(x: CartLine, c: Criterion)
    ensures Filter([x], c) == if Keeps(c, x) then [x] else []
  {
    assert [x][1..] == [];
  }

  /** Filtering a list whose lines around one position are all kept touches
      only that position. */
  lemma FilterAround(before: seq<CartLine>, x: CartLine, after: seq<CartLine>, c: Criterion)
    requires forall i :: 0 <= i < |before| ==> Keeps(c, before[i])
    requires forall i :: 0 <= i < |after| ==> Keeps(c, after[i])
    ensures Filter(before + [x] + after, c) == before + (if Keeps(c, x) then [x] else []) + after
  {
    FilterAppend(before + [x], after, c);
    FilterAppend(before, [x], c);
    FilterKeepsAll(before, c);
    FilterKeepsAll(after, c);
    FilterSingle(x, c);
  }

  /** In a cart with one line per dish, removing the dish at index k deletes
      exactly that line and keeps the others in their order. */
  lemma RemoveDeletesLine(cart: seq<CartLine>, id: DishId, k: nat)
    requires UniqueIds(cart)
    requires k < |cart| && cart[k].id == id
    ensures RemoveCartItem(cart, id) == cart[..k] + cart[k + 1..]
  {
    var c := DishOtherThan(id);
    var before, after := cart[..k], cart[k + 1..];
    assert cart == before + [cart[k]] + after;
    forall i | 0 <= i < |before| ensures Keeps(c, before[i]) {
      assert before[i] == cart[i];
    }
    forall i | 0 <= i < |after| ensures Keeps(c, after[i]) {
      assert after[i] == cart[k + 1 + i];
    }
    FilterAround(before, cart[k], after, c);
  }

  lemma RemovePreservesValid(cart: seq<CartLine>, id: DishId)
    requires Valid(cart)
    ensures Valid(RemoveCartItem(cart, id))
  {
    var r := RemoveCartItem(cart, id);
    FilterKeepsUniqueIds(cart, DishOtherThan(id));
    forall i | 0 <= i < |r| ensures r[i].quantity > 0 {
      assert r[i] in cart;
    }
  }

  // ---------------------------------------------------------------------
  // incrementCartItemQuantity and decrementCartItemQuantity
  // ---------------------------------------------------------------------

  /** Raise the quantity of one dish's line by one. */
  function IncrementCartItemQuantity(cart: seq<CartLine>, id: DishId): (r: seq<CartLine>)
  {
    AdjustQuantity(cart, id, 1)
  }

  /** In a cart with one line per dish, incrementing raises exactly the
      matching line by one and changes nothing else. */
  lemma IncrementRaisesLine(cart: seq<CartLine>, id: DishId, k: nat)
    requires UniqueIds(cart)
    requires k < |cart| && cart[k].id == id
    ensures IncrementCartItemQuantity(cart, id) == cart[k := cart[k].(quantity := cart[k].quantity + 1)]
  {
    AdjustOneLine(cart, id, 1, k);
  }

  /** Incrementing an id that is not in the cart leaves the cart as it was. */
  lemma IncrementAbsentIsNoOp(cart: seq<CartLine>, id: DishId)
    requires !HasLine(cart, id)
    ensures IncrementCartItemQuantity(cart, id) == cart
  {
    var r := IncrementCartItemQuantity(cart, id);
    forall i | 0 <= i < |cart| ensures r[i] == cart[i] {
      assert cart[i].id != id;
    }
  }

  lemma IncrementPreservesValid(cart: seq<CartLine>, id: DishId)
    requires Valid(cart)
    ensures Valid(IncrementCartItemQuantity(cart, id))
  {
  }

  /** Lower the quantity of one dish's line by one, then drop every line whose
      quantity is no longer above zero. */
  function DecrementCartItemQuantity(cart: seq<CartLine>, id: DishId): (r: seq<CartLine>)
    ensures AllPositive(r)
    ensures |r| <= |cart|
  {
    var r := Filter(AdjustQuantity(cart, id, -1), QuantityAboveZero);
    assert forall i :: 0 <= i < |r| ==> r[i] in r;
    r
  }

  /** Replacing the line at index k is splicing the new line between the
      lines before and after it. */
  lemma UpdateIsSplice(cart: seq<CartLine>, k: nat, x: CartLine)
    requires k < |cart|
    ensures cart[k := x] == cart[..k] + [x] + cart[k + 1..]
  {
  }

  /** Decrementing the line at index k of a valid cart filters only that line. */
  lemma DecrementAround(cart: seq<CartLine>, id: DishId, k: nat, lowered: CartLine)
    requires Valid(cart)
    requires k < |cart| && cart[k].id == id
    requires lowered == cart[k].(quantity := cart[k].quantity - 1)
    ensures DecrementCartItemQuantity(cart, id)
         == cart[..k] + (if lowered.quantity > 0 then [lowered] else []) + cart[k + 1..]
  {
    var before, after := cart[..k], cart[k + 1..];
    AdjustOneLine(cart, id, -1, k);
    UpdateIsSplice(cart, k, lowered);
    forall i | 0 <= i < |before| ensures Keeps(QuantityAboveZero, before[i]) {
      assert before[i] == cart[i];
    }
    forall i | 0 <= i < |after| ensures Keeps(QuantityAboveZero, after[i]) {
      assert after[i] == cart[k + 1 + i];
    }
    FilterAround(before, lowered, after, QuantityAboveZero);
  }

  /** In a valid cart, decrementing the line at index k lowers it by one when
      it held more than one, and otherwise deletes it; all other lines stay as
      they were, in their order. */
  lemma DecrementLowersOrDeletes(cart: seq<CartLine>, id: DishId, k: nat)
    requires Valid(cart)
    requires k < |cart| && cart[k].id == id
    ensures cart[k].quantity > 1 ==>
      DecrementCartItemQuantity(cart, id) == cart[k := cart[k].(quantity := cart[k].quantity - 1)]
    ensures cart[k].quantity <= 1 ==> DecrementCartItemQuantity(cart, id) == cart[..k] + cart[k + 1..]
  {
    var lowered := cart[k].(quantity := cart[k].quantity - 1);
    DecrementAround(cart, id, k, lowered);
    if cart[k].quantity > 1 {
      UpdateIsSplice(cart, k, lowered);
    } else {
      assert cart[..k] + [] + cart[k + 1..] == cart[..k] + cart[k + 1..];
    }
  }

  /** On a cart of positive lines without the id, decrementing changes nothing. */
  lemma DecrementAbsentIsNoOp(cart: seq<CartLine>, id: DishId)
    requires AllPositive(cart)
    requires !HasLine(cart, id)
    ensures DecrementCartItemQuantity(cart, id) == cart
  {
    var adjusted := AdjustQuantity(cart, id, -1);
    forall i | 0 <= i < |cart| ensures adjusted[i] == cart[i] {
      assert cart[i].id != id;
    }
    assert adjusted == cart;
    FilterKeepsAll(cart, QuantityAboveZero);
  }

  /** Decrementing keeps one line per dish, and every surviving quantity is at
      least 1 whatever the quantities were before. */
  lemma DecrementPreservesValid(cart: seq<CartLine>, id: DishId)
    requires UniqueIds(cart)
    ensures Valid(DecrementCartItemQuantity(cart, id))
  {
    FilterKeepsUniqueIds(AdjustQuantity(cart, id, -1), QuantityAboveZero);
  }

  // ---------------------------------------------------------------------
  // Derived values shown by the views
  // ---------------------------------------------------------------------

  /** The header badge: the number of lines, not the number of items. */
  function BadgeCount(cart: seq<CartLine>): nat {
    |cart|
  }

  function TotalQuantity(cart: seq<CartLine>): int {
    if cart == [] then 0 else cart[0].quantity + TotalQuantity(cart[1..])
  }

  lemma IdsOfCons(cart: seq<CartLine>)
    requires cart != []
    ensures Ids(cart) == {cart[0].id} + Ids(cart[1..])
  {
    assert forall line :: line in cart <==> line == cart[0] || line in cart[1..];
  }

  /** With one line per dish, the badge counts the distinct dishes ordered. */
  lemma {:induction false} BadgeCountsDistinctDishes(cart: seq<CartLine>)
    requires UniqueIds(cart)
    ensures BadgeCount(cart) == |Ids(cart)|
  {
    if cart != [] {
      var rest := cart[1..];
      assert UniqueIds(rest) by {
        forall i, j | 0 <= i < j < |rest| ensures rest[i].id != rest[j].id {
          assert rest[i] == cart[i + 1] && rest[j] == cart[j + 1];
        }
      }
      BadgeCountsDistinctDishes(rest);
      IdsOfCons(cart);
    }
  }

  /** With every quantity at least 1, the badge never exceeds the number of
      items ordered. */
  lemma {:induction false} BadgeAtMostTotalQuantity(cart: seq<CartLine>)
    requires AllPositive(cart)
    ensures BadgeCount(cart) <= TotalQuantity(cart)
  {
    if cart != [] {
      BadgeAtMostTotalQuantity(cart[1..]);
    }
  }

  /** The amount the cart view shows for a line, before formatting. */
  function LineTotal(line: CartLine): int {
    line.quantity * line.price
  }

  /** Incrementing a line raises its displayed total by exactly its price. */
  lemma IncrementRaisesLineTotal(cart: seq<CartLine>, id: DishId, k: nat)
    requires UniqueIds(cart)
    requires k < |cart| && cart[k].id == id
    ensures LineTotal(IncrementCartItemQuantity(cart, id)[k]) == LineTotal(cart[k]) + cart[k].price
  {
    var q, p := cart[k].quantity, cart[k].price;
    assert (q + 1) * p == q * p + p;
  }

}
