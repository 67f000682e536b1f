/** The menu view's state: the staged quantities, the active category, and the
    commit of a staged quantity into the shared cart. */
module HomeRoute {
  import opened Wrappers
  import opened Menu
  import Cart
  import opened Staging
  import opened CartContext

  /** Committing a dish: when its staged quantity is above zero, that quantity
      is added to the cart; otherwise the cart is left as it was. An untracked
      dish counts as not above zero. */
  function Commit(cart: seq<Cart.CartLine>, staged: StagedQuantities, dish: Dish): seq<Cart.CartLine> {
    if dish.id in staged && staged[dish.id] > 0 then Cart.AddCartItem(cart, dish, Some(staged[dish.id]))
    else cart
  }

  /** Whatever the staged values are, a commit keeps one line per dish and
      every quantity at least 1, and a staged value of 0 commits nothing. */
  lemma CommitPreservesValid(cart: seq<Cart.CartLine>, staged: StagedQuantities, dish: Dish)
    requires Cart.Valid(cart)
    ensures Cart.Valid(Commit(cart, staged, dish))
    ensures dish.id in staged && staged[dish.id] <= 0 ==> Commit(cart, staged, dish) == cart
  {
    if dish.id in staged && staged[dish.id] > 0 {
      Cart.AddPreservesValid(cart, dish, Some(staged[dish.id]));
    }
  }

  /** A dish whose staged quantity is above zero is added with that quantity. */
  lemma CommitAddsStaged(cart: seq<Cart.CartLine>, staged: StagedQuantities, dish: Dish)
    requires dish.id in staged && staged[dish.id] > 0
    ensures Commit(cart, staged, dish) == Cart.AddCartItem(cart, dish, Some(staged[dish.id]))
  {
  }

  /** The commit does not reset the staged value, so committing a staged `q`
      twice without adjusting it adds `twice`, that is `q + q`, in one step. */
  lemma CommitTwiceAddsTwice(cart: seq<Cart.CartLine>, staged: StagedQuantities, dish: Dish, q: int, twice: int)
    requires dish.id in staged && staged[dish.id] == q && q > 0
    requires twice == q + q
    ensures Commit(Commit(cart, staged, dish), staged, dish) == Cart.AddCartItem(cart, dish, Some(twice))
  {
    CommitAddsStaged(cart, staged, dish);
    CommitAddsStaged(Commit(cart, staged, dish), staged, dish);
    Cart.AddTwiceMerges(cart, dish, dish, q, q, twice);
  }

  class Home {
    var localQty: StagedQuantities
    var activeCategory: string
    const cart: CartProvider

    /** No staged value is negative. */
    ghost predicate Valid()
      reads this
    {
      NonNegative(localQty)
    }

    /** Before the menu arrives nothing is tracked and no category is active. */
    constructor (cart: CartProvider)
      ensures this.cart == cart
      ensures localQty == map[] && activeCategory == "" && Valid()
    {
      this.cart := cart;
      localQty := map[];
      activeCategory := "";
    }

    /** Apply a loaded menu. A menu without categories makes the first-category
        lookup fail; the load then ends in failure with nothing changed.
        Otherwise the first category becomes active and the staged quantities
        are replaced by 0 for every dish of the menu. */
    method LoadMenu(menu: seq<Category>) returns (ok: bool)
      modifies this
      ensures ok <==> |menu| > 0
      ensures ok ==> activeCategory == menu[0].name
      ensures ok ==> localQty.Keys == MenuDishIds(menu) && forall id :: id in localQty ==> localQty[id] == 0
      ensures !ok ==> localQty == old(localQty) && activeCategory == old(activeCategory)
      ensures old(Valid()) ==> Valid()
    {
      if |menu| == 0 {
        return false;
      }
      activeCategory := menu[0].name;
      localQty := InitialQuantities(menu);
      ok := true;
    }

    method IncLocal(id: DishId)
      requires id in localQty
      modifies this`localQty
      ensures localQty == Staging.IncLocal(old(localQty), id)
      ensures old(Valid()) ==> Valid()
    {
      localQty := Staging.IncLocal(localQty, id);
    }

    method DecLocal(id: DishId)
      requires id in localQty
      modifies this`localQty
      ensures localQty == Staging.DecLocal(old(localQty), id)
      ensures old(Valid()) ==> Valid()
    {
      localQty := Staging.DecLocal(localQty, id);
    }

    /** Commit the dish's staged quantity into the cart; the staged values and
        the active category are left as they were. */
    method OnAddToCart(dish: Dish)
      modifies cart
      ensures cart.cartList == Commit(old(cart.cartList), localQty, dish)
      ensures old(cart.Valid()) ==> cart.Valid()
    {
      if cart.Valid() {
        CommitPreservesValid(cart.cartList, localQty, dish);
      }
      if dish.id in localQty && localQty[dish.id] > 0 {
        cart.AddCartItem(dish, Some(localQty[dish.id]));
      }
    }

    /** Switching category touches neither the staged quantities nor the cart. */
    method SelectCategory(category: string)
      modifies this`activeCategory
      ensures activeCategory == category
      ensures localQty == old(localQty)
      ensures unchanged(cart)
    {
      activeCategory := category;
    }
  }
}
