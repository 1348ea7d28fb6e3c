/** The food catalog and the items a meal selects from it. */
module Foods {

  /** A catalog row: its 'Type', 'Valeur calorique' and 'id' columns. */
  datatype Food = Food(category: string, calories: real, id: int)

  /** A selected row, with the 'Repas' and 'Quantite' entries the selector adds. */
  datatype Item = Item(food: Food, meal: int, quantity: int)

  /** The calories an item contributes: calorie value times quantity. */
  function Energy(it: Item): real {
    it.food.calories * it.quantity as real
  }

  /** The calories of a selection. */
  function Total(items: seq<Item>): real {
    if items == [] then 0.0 else Energy(items[0]) + Total(items[1..])
  }

  lemma {:induction false} TotalAppend(items: seq<Item>, x: Item)
    ensures Total(items + [x]) == Total(items) + Energy(x)
  {
    if items != [] {
      assert (items + [x])[1..] == items[1..] + [x];
      TotalAppend(items[1..], x);
    }
  }

  /** `aliments_df[aliments_df['Type'] == c]`: the rows of one category, in catalog order. */
  function OfCategory(catalog: seq<Food>, c: string): (r: seq<Food>)
    ensures |r| <= |catalog|
    ensures forall f :: f in r <==> f in catalog && f.category == c
  {
    if catalog == [] then []
    else if catalog[0].category == c then [catalog[0]] + OfCategory(catalog[1..], c)
    else OfCategory(catalog[1..], c)
  }
}
