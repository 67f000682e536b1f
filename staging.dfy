/** The staging-quantity tracker of the menu view: a per-dish count the user
    adjusts before committing it to the cart. */
module Staging {
  import opened Menu

  type StagedQuantities = map<DishId, int>

  /** No staged value is negative. */
  predicate NonNegative(staged: StagedQuantities) {
    forall id :: id in staged ==> staged[id] >= 0
  }

  /** Seed the tracker from a freshly loaded menu: every dish id of every
      category is tracked with 0, and nothing else is tracked. */
  method InitialQuantities(menu: seq<Category>) returns (initialQty: StagedQuantities)
    ensures initialQty.Keys == MenuDishIds(menu)
    ensures forall id :: id in initialQty ==> initialQty[id] == 0
  {
    initialQty := map[];
    var i := 0;
    while i < |menu|
      invariant 0 <= i <= |menu|
      invariant initialQty.Keys == MenuDishIds(menu[..i])
      invariant forall id :: id in initialQty ==> initialQty[id] == 0
    {
      var dishes := menu[i].dishes;
      var j := 0;
      while j < |dishes|
        invariant 0 <= j <= |dishes|
        invariant initialQty.Keys == MenuDishIds(menu[..i]) + DishIds(dishes[..j])
        invariant forall id :: id in initialQty ==> initialQty[id] == 0
      {
        initialQty := initialQty[dishes[j].id := 0];
        DishIdsExtend(dishes, j);
        j := j + 1;
      }
      assert dishes[..j] == dishes;
      MenuDishIdsExtend(menu, i);
      i := i + 1;
    }
    assert menu[..i] == menu;
  }

  /** Stage one more of a tracked dish. */
  function IncLocal(staged: StagedQuantities, id: DishId): (r: StagedQuantities)
    requires id in staged
    ensures r.Keys == staged.Keys
    ensures r[id] == staged[id] + 1
    ensures forall other :: other in staged && other != id ==> r[other] == staged[other]
  {
    staged[id := staged[id] + 1]
  }

  /** Stage one fewer of a tracked dish, never going below 0. */
  function DecLocal(staged: StagedQuantities, id: DishId): (r: StagedQuantities)
    requires id in staged
    ensures r.Keys == staged.Keys
    ensures r[id] >= 0
    ensures staged[id] >= 1 ==> r[id] == staged[id] - 1
    ensures staged[id] <= 0 ==> r[id] == 0
    ensures forall other :: other in staged && other != id ==> r[other] == staged[other]
  {
    staged[id := if staged[id] - 1 > 0 then staged[id] - 1 else 0]
  }

  /** Incrementing and decrementing keep every staged value non-negative. */
  lemma AdjustKeepsNonNegative(staged: StagedQuantities, id: DishId)
    requires id in staged
    requires NonNegative(staged)
    ensures NonNegative(IncLocal(staged, id))
    ensures NonNegative(DecLocal(staged, id))
  {
  }

  /** Decrementing undoes an increment. */
  lemma DecUndoesInc(staged: StagedQuantities, id: DishId)
    requires id in staged && staged[id] >= 0
    ensures DecLocal(IncLocal(staged, id), id) == staged
  {
  }

  /** Incrementing undoes a decrement of a positive value; at 0 the decrement
      is a no-op. */
  lemma IncUndoesDec(staged: StagedQuantities, id: DishId)
    requires id in staged
    ensures staged[id] > 0 ==> IncLocal(DecLocal(staged, id), id) == staged
    ensures staged[id] == 0 ==> DecLocal(staged, id) == staged
  {
  }
}
