/** The catalog as delivered by the menu service: categories of dishes. Only
    the fields the cart and the staging tracker use are kept. */
module Menu {

  /** Dish ids are opaque keys: the logic only compares them for equality. */
  type DishId = int

  /** A catalog dish, reduced to the display fields a cart line snapshots. */
  datatype Dish = Dish(id: DishId, name: string, price: int, currency: string, image: string)

  /** One menu category (`menu_category`, `menu_category_id`, `category_dishes`). */
  datatype Category = Category(name: string, categoryId: string, dishes: seq<Dish>)

  /** The ids of the given dishes. */
  function DishIds(dishes: seq<Dish>): set<DishId> {
    set d | d in dishes :: d.id
  }

  /** The ids of every dish of every category. */
  function MenuDishIds(menu: seq<Category>): set<DishId> {
    set c, d | c in menu && d in c.dishes :: d.id
  }

  lemma DishIdsExtend(dishes: seq<Dish>, j: nat)
    requires j < |dishes|
    ensures DishIds(dishes[..j + 1]) == DishIds(dishes[..j]) + {dishes[j].id}
  {
    assert dishes[..j + 1] == dishes[..j] + [dishes[j]];
    assert dishes[j] in dishes[..j + 1];
  }

  lemma MenuDishIdsExtend(menu: seq<Category>, i: nat)
    requires i < |menu|
    ensures MenuDishIds(menu[..i + 1]) == MenuDishIds(menu[..i]) + DishIds(menu[i].dishes)
  {
    var prefix, next := menu[..i], menu[..i + 1];
    assert next == prefix + [menu[i]];
    forall id | id in MenuDishIds(next)
      ensures id in MenuDishIds(prefix) + DishIds(menu[i].dishes)
    {
      var c, d :| c in next && d in c.dishes && d.id == id;
      if c != menu[i] {
        assert c in prefix;
      }
    }
    forall id | id in DishIds(menu[i].dishes)
      ensures id in MenuDishIds(next)
    {
      var d :| d in menu[i].dishes && d.id == id;
      assert menu[i] in next;
    }
    forall id | id in MenuDishIds(prefix)
      ensures id in MenuDishIds(next)
    {
      var c, d :| c in prefix && d in c.dishes && d.id == id;
      assert c in next;
    }
  }
}
