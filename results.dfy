/** Optional values, results, and the exceptions of the simulator that the model raises. */
module Results {

  datatype Option<T> = None | Some(value: T)

  /**
   * One constructor per exception the model raises. The `KeyError` of a sheet
   * without the meal's 'Meal_k_avg' column in the category draw, and the
   * `ValueError` of `np.random.choice` on weights that do not sum to 1, are
   * not among them.
   */
  datatype Error =
    | MissingArguments(tag: string)             // TypeError: User(**user_data) lacks classe_mangeur and type_food
    | NoFoodOfType(category: string)            // DataFrame.sample(n=1) on a category with no catalog row
    | MissingBand(meal: int)                    // KeyError on intervalles_calories[repas]
    | MissingScore(category: string, meal: int) // probabilite_aliment finds no row or no column
    | PopFromEmpty                              // list.pop(0) on an empty selection

  datatype Result<T> = Ok(value: T) | Err(error: Error)
}
