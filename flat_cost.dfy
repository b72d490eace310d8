/** The flat cost functions of the top-level application (App.tsx:119-130),
    over the record shape of the root types.ts: an ingredient has one
    price per unit and a recipe line only an ingredient id and a quantity.
    Fields the guards treat as possibly absent are optional here. */
module FlatCost {
  import opened Wrappers
  import Types

  datatype Ingredient = Ingredient(id: string, name: string, pricePerUnit: real, unit: Types.Unit)

  datatype RecipeItem = RecipeItem(ingredientId: string, quantity: Option<real>)

  datatype Recipe = Recipe(id: string, name: string, items: Option<seq<RecipeItem>>, portions: Option<real>)

  /** Price times quantity, a missing ingredient or quantity counting as 0. */
  function LineCost(item: RecipeItem, ingredients: map<string, Ingredient>): real
  {
    var price := if item.ingredientId in ingredients then ingredients[item.ingredientId].pricePerUnit else 0.0;
    var quantity := if item.quantity.Some? then item.quantity.value else 0.0;
    price * quantity
  }

  /** The left fold from 0 of the line costs, in item order. */
  function LinesCost(items: seq<RecipeItem>, ingredients: map<string, Ingredient>): real
  {
    if |items| == 0 then 0.0
    else LinesCost(items[..|items| - 1], ingredients) + LineCost(items[|items| - 1], ingredients)
  }

  /** The cost of a recipe: 0 without an item list, the fold otherwise. */
  function RecipeCost(recipe: Recipe, ingredients: map<string, Ingredient>): real
  {
    if recipe.items.None? then 0.0 else LinesCost(recipe.items.value, ingredients)
  }

  /** The cost of one portion: 0 when the portion count is missing, zero or
      negative, and otherwise the share that yields the recipe cost again. */
  function CostPerServing(recipe: Recipe, ingredients: map<string, Ingredient>): (r: real)
    ensures recipe.portions.None? || recipe.portions.value <= 0.0 ==> r == 0.0
    ensures recipe.portions.Some? && recipe.portions.value > 0.0 ==>
      r * recipe.portions.value == RecipeCost(recipe, ingredients)
  {
    if recipe.portions.None? || recipe.portions.value <= 0.0 then 0.0
    else RecipeCost(recipe, ingredients) / recipe.portions.value
  }

  /** A line whose ingredient resolves and whose quantity is present. */
  predicate Priced(item: RecipeItem, ingredients: map<string, Ingredient>)
  {
    item.ingredientId in ingredients && item.quantity.Some?
  }

  /** The lines that can contribute to the cost, in their order. */
  function PricedLines(items: seq<RecipeItem>, ingredients: map<string, Ingredient>): (r: seq<RecipeItem>)
    ensures forall item :: item in r ==> item in items && Priced(item, ingredients)
  {
    if |items| == 0 then []
    else if Priced(items[0], ingredients) then [items[0]] + PricedLines(items[1..], ingredients)
    else PricedLines(items[1..], ingredients)
  }

  /** An empty item list costs 0, and one line costs its price times quantity. */
  lemma RecipeCostBase(recipe: Recipe, ingredients: map<string, Ingredient>)
    ensures recipe.items.None? ==> RecipeCost(recipe, ingredients) == 0.0
    ensures recipe.items == Some([]) ==> RecipeCost(recipe, ingredients) == 0.0
    ensures recipe.items.Some? && |recipe.items.value| == 1 ==>
      var item := recipe.items.value[0];
      RecipeCost(recipe, ingredients) ==
        (if Priced(item, ingredients) then ingredients[item.ingredientId].pricePerUnit * item.quantity.value else 0.0)
  {
    if recipe.items.Some? && |recipe.items.value| == 1 {
      var items := recipe.items.value;
      assert items[..0] == [];
      assert LinesCost(items, ingredients) == LineCost(items[0], ingredients);
    }
  }

  /** The fold splits over concatenation of item lists. */
  lemma {:induction false} LinesCostAppend(a: seq<RecipeItem>, b: seq<RecipeItem>,
                                           ingredients: map<string, Ingredient>)
    ensures LinesCost(a + b, ingredients) == LinesCost(a, ingredients) + LinesCost(b, ingredients)
    decreases |b|
  {
    if |b| == 0 {
      assert a + b == a;
    } else {
      var n := |b| - 1;
      assert (a + b)[..|a + b| - 1] == a + b[..n];
      assert (a + b)[|a + b| - 1] == b[n];
      LinesCostAppend(a, b[..n], ingredients);
    }
  }

  /** Lines with a missing ingredient or a missing quantity contribute
      nothing: dropping them leaves the cost unchanged. */
  lemma {:induction false} UnpricedLinesContributeNothing(items: seq<RecipeItem>,
                                                          ingredients: map<string, Ingredient>)
    ensures LinesCost(PricedLines(items, ingredients), ingredients) == LinesCost(items, ingredients)
    decreases |items|
  {
    if |items| > 0 {
      var head, tail := items[0], items[1..];
      assert items == [head] + tail;
      LinesCostAppend([head], tail, ingredients);
      assert [head][..0] == [];
      UnpricedLinesContributeNothing(tail, ingredients);
      if Priced(head, ingredients) {
        LinesCostAppend([head], PricedLines(tail, ingredients), ingredients);
      }
    }
  }

  /** With non-negative prices and quantities the recipe cost and the cost
      per portion are non-negative. */
  lemma {:induction false} CostNonNegative(recipe: Recipe, ingredients: map<string, Ingredient>)
    requires forall k :: k in ingredients ==> ingredients[k].pricePerUnit >= 0.0
    requires recipe.items.Some? ==>
      forall i :: 0 <= i < |recipe.items.value| && recipe.items.value[i].quantity.Some?
                  ==> recipe.items.value[i].quantity.value >= 0.0
    ensures RecipeCost(recipe, ingredients) >= 0.0 && CostPerServing(recipe, ingredients) >= 0.0
  {
    if recipe.items.Some? {
      LinesNonNegative(recipe.items.value, ingredients);
    }
  }

  lemma {:induction false} LinesNonNegative(items: seq<RecipeItem>, ingredients: map<string, Ingredient>)
    requires forall k :: k in ingredients ==> ingredients[k].pricePerUnit >= 0.0
    requires forall i :: 0 <= i < |items| && items[i].quantity.Some? ==> items[i].quantity.value >= 0.0
    ensures LinesCost(items, ingredients) >= 0.0
    decreases |items|
  {
    if |items| > 0 {
      var n := |items| - 1;
      assert forall i :: 0 <= i < n ==> items[..n][i] == items[i];
      LinesNonNegative(items[..n], ingredients);
      var item := items[n];
      var price := if item.ingredientId in ingredients then ingredients[item.ingredientId].pricePerUnit else 0.0;
      var quantity := if item.quantity.Some? then item.quantity.value else 0.0;
      assert price >= 0.0 && quantity >= 0.0;
      assert price * quantity >= 0.0;
    }
  }
}
