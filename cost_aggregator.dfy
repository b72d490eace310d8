/** Per-line-item costing and whole-recipe aggregation
    (services/costCalculator.ts:56-146). Both functions there take a set
    of ancestor recipe ids, default empty; every descent passes a fresh copy
    extended with the current recipe's id, here an immutable set. */
module CostAggregator {
  import opened Types
  import opened UnitConverter

  /** The lookup maps are keyed by the records' own ids. The recursion
      terminates only under this condition: the cycle check tests the
      referenced id but the visited set grows by the record's id. */
  predicate KeysMatchIds(recipes: map<string, Recipe>)
  {
    forall k :: k in recipes ==> recipes[k].id == k
  }

  /** Recipe ids still available for a descent. */
  function Unvisited(recipes: map<string, Recipe>, visited: set<string>): set<string>
  {
    recipes.Keys - visited
  }

  /** The cost breakdown of one recipe. */
  datatype Breakdown = Breakdown(ingredientsCost: real, totalCost: real, costPerServing: real)

  /** Cost of an ingredient line: the ingredient branch of a line item. */
  function IngredientLine(quantity: real, unit: Unit, ingredientId: string,
                          ingredients: map<string, Ingredient>): Logged<real>
  {
    if ingredientId !in ingredients then Logged(0.0, [])
    else
      var ingredient := ingredients[ingredientId];
      var unitCost := IngredientUnitCost(ingredient);
      if !UnitsCompatible(unit, unitCost.unit) then
        Logged(0.0, [IncompatibleUnits(ingredient.name, unit, unitCost.unit)])
      else
        var inBase := ConvertedQuantity(quantity, unit, unitCost.unit);
        Logged(inBase.value * unitCost.cost, inBase.log)
  }

  /** Cost of one line item, given the ids of the recipes on the current path. */
  function ItemCost(item: RecipeItem, ingredients: map<string, Ingredient>,
                    recipes: map<string, Recipe>, visited: set<string>): Logged<real>
    requires KeysMatchIds(recipes)
    decreases Unvisited(recipes, visited), 0, 0
  {
    match item
    case IngredientItem(_, quantity, unit, ingredientId) =>
      IngredientLine(quantity, unit, ingredientId, ingredients)
    case SubRecipeItem(_, quantity, unit, recipeId) =>
      if recipeId in visited then Logged(0.0, [CircularDependency(recipeId)])
      else if recipeId !in recipes then Logged(0.0, [])
      else
        var subRecipe := recipes[recipeId];
        assert Unvisited(recipes, visited + {subRecipe.id}) < Unvisited(recipes, visited);
        var sub := TotalCost(subRecipe, ingredients, recipes, visited);
        if subRecipe.servings == 0.0 then
          Logged(0.0, sub.log + [ZeroServings(subRecipe.name)])
        else
          var warning := if unit != Each then [NonCountSubRecipeUnit(subRecipe.name, unit)] else [];
          Logged(quantity * (sub.value.totalCost / subRecipe.servings), sub.log + warning)
  }

  /** The left fold from 0 of the item costs, every item costed under the
      same visited set. */
  function ItemsCost(items: seq<RecipeItem>, ingredients: map<string, Ingredient>,
                     recipes: map<string, Recipe>, visited: set<string>): Logged<real>
    requires KeysMatchIds(recipes)
    decreases Unvisited(recipes, visited), 1, |items| + 1
  {
    PrefixCost(items, |items|, ingredients, recipes, visited)
  }

  /** The accumulator of the fold after its first `n` steps. */
  function PrefixCost(items: seq<RecipeItem>, n: nat, ingredients: map<string, Ingredient>,
                      recipes: map<string, Recipe>, visited: set<string>): Logged<real>
    requires KeysMatchIds(recipes) && n <= |items|
    decreases Unvisited(recipes, visited), 1, n
  {
    if n == 0 then Logged(0.0, [])
    else
      var sum := PrefixCost(items, n - 1, ingredients, recipes, visited);
      var line := ItemCost(items[n - 1], ingredients, recipes, visited);
      Logged(sum.value + line.value, sum.log + line.log)
  }

  /** The cost breakdown of a recipe: items, then labour, then overhead, then
      the share of one serving. */
  function TotalCost(recipe: Recipe, ingredients: map<string, Ingredient>,
                     recipes: map<string, Recipe>, visited: set<string>): Logged<Breakdown>
    requires KeysMatchIds(recipes)
    decreases Unvisited(recipes, visited + {recipe.id}), 2, 0
  {
    var pathVisited := visited + {recipe.id};
    var ingredientsCost := ItemsCost(recipe.items, ingredients, recipes, pathVisited);
    var subTotal := ingredientsCost.value + recipe.laborCost;
    var totalCost := subTotal * (1.0 + recipe.overheadPercentage / 100.0);
    var costPerServing := if recipe.servings > 0.0 then totalCost / recipe.servings else 0.0;
    Logged(Breakdown(ingredientsCost.value, totalCost, costPerServing), ingredientsCost.log)
  }
}
