/** The cart provider: one state cell holding the cart list, shared by the menu
    view and the cart view. Each operation replaces the list with the result
    of the matching transition in Cart. */
module CartContext {
  import opened Wrappers
  import opened Menu
  import Cart

  class CartProvider {
    var cartList: seq<Cart.CartLine>

    /** One line per dish, every quantity at least 1. */
    ghost predicate Valid()
      reads this
    {
      Cart.Valid(cartList)
    }

    /** The cart starts empty. */
    constructor ()
      ensures cartList == [] && Valid()
    {
      cartList := [];
    }

    method AddCartItem(dish: Dish, staged: Option<int>)
      modifies this
      ensures cartList == Cart.AddCartItem(old(cartList), dish, staged)
      ensures old(Valid()) && staged.GetOr(1) >= 1 ==> Valid()
    {
      if Valid() && staged.GetOr(1) >= 1 {
        Cart.AddPreservesValid(cartList, dish, staged);
      }
      cartList := Cart.AddCartItem(cartList, dish, staged);
    }

    method RemoveAllCartItems()
      modifies this
      ensures cartList == [] && Valid()
    {
      cartList := Cart.RemoveAllCartItems(cartList);
    }

    method RemoveCartItem(id: DishId)
      modifies this
      ensures cartList == Cart.RemoveCartItem(old(cartList), id)
      ensures old(Valid()) ==> Valid()
    {
      if Valid() {
        Cart.RemovePreservesValid(cartList, id);
      }
      cartList := Cart.RemoveCartItem(cartList, id);
    }

    method IncrementCartItemQuantity(id: DishId)
      modifies this
      ensures cartList == Cart.IncrementCartItemQuantity(old(cartList), id)
      ensures old(Valid()) ==> Valid()
    {
      if Valid() {
        Cart.IncrementPreservesValid(cartList, id);
      }
      cartList := Cart.IncrementCartItemQuantity(cartList, id);
    }

    method DecrementCartItemQuantity(id: DishId)
      modifies this
      ensures cartList == Cart.DecrementCartItemQuantity(old(cartList), id)
      ensures old(Cart.UniqueIds(cartList)) ==> Valid()
    {
      if Cart.UniqueIds(cartList) {
        Cart.DecrementPreservesValid(cartList, id);
      }
      cartList := Cart.DecrementCartItemQuantity(cartList, id);
    }
  }
}
