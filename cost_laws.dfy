/** What the costing engine promises, proved about CostAggregator. */
module CostLaws {
  import opened Types
  import opened UnitConverter
  import opened CostAggregator

  /*
   * Line items
   */

  /** An ingredient line: a missing ingredient costs 0 silently; a unit of
      another class than the purchase unit costs 0 with a warning; otherwise
      the line costs the used amount in base units times the cost per base
      unit, which is the purchase price scaled by used over purchased amount,
      and the conversion never misses a factor. */
  lemma IngredientLineCost(item: RecipeItem, ingredients: map<string, Ingredient>,
                           recipes: map<string, Recipe>, visited: set<string>)
    requires KeysMatchIds(recipes) && item.IngredientItem?
    ensures item.ingredientId !in ingredients ==>
      ItemCost(item, ingredients, recipes, visited) == Logged(0.0, [])
    ensures item.ingredientId in ingredients ==>
      var ingredient := ingredients[item.ingredientId];
      var r := ItemCost(item, ingredients, recipes, visited);
      && (ClassOf(item.unit) != ClassOf(ingredient.purchaseUnit) ==>
            r == Logged(0.0, [IncompatibleUnits(ingredient.name, item.unit, IngredientUnitCost(ingredient).unit)]))
      && (ClassOf(item.unit) == ClassOf(ingredient.purchaseUnit) ==>
            && r.log == []
            && r.value == BaseQuantity(item.quantity, item.unit) * IngredientUnitCost(ingredient).cost
            && (ingredient.purchaseQuantity != 0.0 ==>
                  r.value == ingredient.purchasePrice * BaseQuantity(item.quantity, item.unit)
                             / BaseQuantity(ingredient.purchaseQuantity, ingredient.purchaseUnit)))
  {
    var r := ItemCost(item, ingredients, recipes, visited);
    assert r == IngredientLine(item.quantity, item.unit, item.ingredientId, ingredients);
    if item.ingredientId in ingredients {
      var ingredient := ingredients[item.ingredientId];
      var unitCost := IngredientUnitCost(ingredient);
      if ClassOf(item.unit) == ClassOf(ingredient.purchaseUnit) {
        assert UnitsCompatible(item.unit, unitCost.unit);
        var inBase := ConvertedQuantity(item.quantity, item.unit, unitCost.unit);
        assert inBase.value == BaseQuantity(item.quantity, item.unit) by {
          assert Scale(unitCost.unit) == 1.0;
        }
      } else {
        assert !UnitsCompatible(item.unit, unitCost.unit);
      }
    }
  }

  /** A sub-recipe line: an id already on the path is reported as a cycle and
      costs 0 before any lookup; a missing sub-recipe costs 0 silently; a
      sub-recipe of zero servings costs 0 with a warning after its own costing;
      otherwise the line costs its quantity times the sub-recipe's cost per
      serving, whatever its unit, and warns when the unit is not the count unit. */
  lemma SubRecipeLineCost(item: RecipeItem, ingredients: map<string, Ingredient>,
                          recipes: map<string, Recipe>, visited: set<string>)
    requires KeysMatchIds(recipes) && item.SubRecipeItem?
    ensures item.recipeId in visited ==>
      ItemCost(item, ingredients, recipes, visited) == Logged(0.0, [CircularDependency(item.recipeId)])
    ensures item.recipeId !in visited && item.recipeId !in recipes ==>
      ItemCost(item, ingredients, recipes, visited) == Logged(0.0, [])
    ensures item.recipeId !in visited && item.recipeId in recipes ==>
      var subRecipe := recipes[item.recipeId];
      var sub := TotalCost(subRecipe, ingredients, recipes, visited);
      var r := ItemCost(item, ingredients, recipes, visited);
      && (subRecipe.servings == 0.0 ==> r == Logged(0.0, sub.log + [ZeroServings(subRecipe.name)]))
      && (subRecipe.servings != 0.0 ==>
            && r.value * subRecipe.servings == item.quantity * sub.value.totalCost
            && r.log[..|sub.log|] == sub.log
            && |r.log| == |sub.log| + (if item.unit == Each then 0 else 1)
            && (item.unit != Each ==> r.log[|sub.log|] == NonCountSubRecipeUnit(subRecipe.name, item.unit)))
  {
  }

  /*
   * Aggregation
   */

  /** A recipe's breakdown: the items are costed with the recipe's own id
      added to the path, labour is added, the overhead percentage is applied
      and a positive number of servings shares the total (0 otherwise). */
  lemma TotalCostBreakdown(recipe: Recipe, ingredients: map<string, Ingredient>,
                           recipes: map<string, Recipe>, visited: set<string>)
    requires KeysMatchIds(recipes)
    ensures
      var r := TotalCost(recipe, ingredients, recipes, visited);
      var items := ItemsCost(recipe.items, ingredients, recipes, visited + {recipe.id});
      && r.value.ingredientsCost == items.value
      && r.log == items.log
      && r.value.totalCost * 100.0 == (items.value + recipe.laborCost) * (100.0 + recipe.overheadPercentage)
      && (recipe.servings > 0.0 ==> r.value.costPerServing * recipe.servings == r.value.totalCost)
      && (recipe.servings <= 0.0 ==> r.value.costPerServing == 0.0)
  {
  }

  /** The first `n` steps of the fold see only the first `n` lines. */
  lemma {:induction false} PrefixCostAgrees(a: seq<RecipeItem>, b: seq<RecipeItem>, n: nat,
                                            ingredients: map<string, Ingredient>,
                                            recipes: map<string, Recipe>, visited: set<string>)
    requires KeysMatchIds(recipes) && n <= |a| && n <= |b|
    requires forall i :: 0 <= i < n ==> a[i] == b[i]
    ensures PrefixCost(a, n, ingredients, recipes, visited) == PrefixCost(b, n, ingredients, recipes, visited)
    decreases n
  {
    if n > 0 {
      PrefixCostAgrees(a, b, n - 1, ingredients, recipes, visited);
      assert a[n - 1] == b[n - 1];
    }
  }

  /** One step of the fold, as the definition states it. */
  lemma PrefixCostStep(items: seq<RecipeItem>, n: nat, ingredients: map<string, Ingredient>,
                       recipes: map<string, Recipe>, visited: set<string>)
    requires KeysMatchIds(recipes) && 0 < n <= |items|
    ensures
      var sum := PrefixCost(items, n - 1, ingredients, recipes, visited);
      var line := ItemCost(items[n - 1], ingredients, recipes, visited);
      PrefixCost(items, n, ingredients, recipes, visited) == Logged(sum.value + line.value, sum.log + line.log)
  {
  }

  /** Folding a concatenation continues from the fold of its first part. */
  lemma {:induction false} PrefixCostAppend(a: seq<RecipeItem>, b: seq<RecipeItem>, k: nat,
                                            ingredients: map<string, Ingredient>,
                                            recipes: map<string, Recipe>, visited: set<string>)
    requires KeysMatchIds(recipes) && k <= |b|
    ensures
      var front := ItemsCost(a, ingredients, recipes, visited);
      var back := PrefixCost(b, k, ingredients, recipes, visited);
      PrefixCost(a + b, |a| + k, ingredients, recipes, visited) == Logged(front.value + back.value, front.log + back.log)
    decreases k
  {
    var ab := a + b;
    if k == 0 {
      PrefixCostAgrees(ab, a, |a|, ingredients, recipes, visited);
    } else {
      PrefixCostAppend(a, b, k - 1, ingredients, recipes, visited);
      assert ab[|a| + k - 1] == b[k - 1];
      PrefixCostStep(ab, |a| + k, ingredients, recipes, visited);
      PrefixCostStep(b, k, ingredients, recipes, visited);
      var front := ItemsCost(a, ingredients, recipes, visited);
      var middle := PrefixCost(b, k - 1, ingredients, recipes, visited);
      var line := ItemCost(b[k - 1], ingredients, recipes, visited);
      assert (front.log + middle.log) + line.log == front.log + (middle.log + line.log);
    }
  }

  /** The fold over items splits over concatenation: siblings are costed
      independently of each other, both in cost and in diagnostics. */
  lemma ItemsCostAppend(a: seq<RecipeItem>, b: seq<RecipeItem>,
                        ingredients: map<string, Ingredient>,
                        recipes: map<string, Recipe>, visited: set<string>)
    requires KeysMatchIds(recipes)
    ensures
      var front := ItemsCost(a, ingredients, recipes, visited);
      var back := ItemsCost(b, ingredients, recipes, visited);
      ItemsCost(a + b, ingredients, recipes, visited) == Logged(front.value + back.value, front.log + back.log)
  {
    PrefixCostAppend(a, b, |b|, ingredients, recipes, visited);
  }

  /** One step of the fold: appending a line adds its cost and diagnostics. */
  lemma ItemsCostSnoc(items: seq<RecipeItem>, item: RecipeItem, ingredients: map<string, Ingredient>,
                      recipes: map<string, Recipe>, visited: set<string>)
    requires KeysMatchIds(recipes)
    ensures
      var sum := ItemsCost(items, ingredients, recipes, visited);
      var line := ItemCost(item, ingredients, recipes, visited);
      ItemsCost(items + [item], ingredients, recipes, visited) == Logged(sum.value + line.value, sum.log + line.log)
  {
    PrefixCostAppend(items, [item], 1, ingredients, recipes, visited);
  }

  /** The fold over no items is 0, and over one item is that item's cost. */
  lemma ItemsCostBase(item: RecipeItem, ingredients: map<string, Ingredient>,
                      recipes: map<string, Recipe>, visited: set<string>)
    requires KeysMatchIds(recipes)
    ensures ItemsCost([], ingredients, recipes, visited) == Logged(0.0, [])
    ensures ItemsCost([item], ingredients, recipes, visited) == ItemCost(item, ingredients, recipes, visited)
  {
    var line := ItemCost(item, ingredients, recipes, visited);
    assert PrefixCost([item], 0, ingredients, recipes, visited) == Logged(0.0, []);
    assert [item][0] == item;
    assert [] + line.log == line.log;
  }

  /** The same sub-recipe referenced twice by sibling items is costed both
      times: the first descent does not mark it as visited for the second. */
  lemma RepeatedSiblingCostedTwice(item: RecipeItem, ingredients: map<string, Ingredient>,
                                   recipes: map<string, Recipe>, visited: set<string>)
    requires KeysMatchIds(recipes)
    ensures
      var once := ItemCost(item, ingredients, recipes, visited);
      ItemsCost([item, item], ingredients, recipes, visited) == Logged(2.0 * once.value, once.log + once.log)
  {
    ItemsCostBase(item, ingredients, recipes, visited);
    ItemsCostSnoc([item], item, ingredients, recipes, visited);
    assert [item] + [item] == [item, item];
  }

  lemma {:induction false} PrefixCostKeepsLineLog(items: seq<RecipeItem>, n: nat, i: nat,
                                                  ingredients: map<string, Ingredient>,
                                                  recipes: map<string, Recipe>, visited: set<string>)
    requires KeysMatchIds(recipes) && i < n <= |items|
    ensures forall d :: d in ItemCost(items[i], ingredients, recipes, visited).log ==>
      d in PrefixCost(items, n, ingredients, recipes, visited).log
    decreases n
  {
    if i < n - 1 {
      PrefixCostKeepsLineLog(items, n - 1, i, ingredients, recipes, visited);
    }
  }

  /** Every diagnostic of a line appears in the diagnostics of the fold. */
  lemma ItemsCostKeepsLineLog(items: seq<RecipeItem>, i: nat,
                              ingredients: map<string, Ingredient>,
                              recipes: map<string, Recipe>, visited: set<string>)
    requires KeysMatchIds(recipes) && i < |items|
    ensures forall d :: d in ItemCost(items[i], ingredients, recipes, visited).log ==>
      d in ItemsCost(items, ingredients, recipes, visited).log
  {
    PrefixCostKeepsLineLog(items, |items|, i, ingredients, recipes, visited);
  }

  /*
   * Cycles
   */

  /** A recipe that lists itself as a sub-recipe: that line costs 0 and the
      cycle is reported in the recipe's diagnostics, whatever the path. */
  lemma SelfReferenceReported(recipe: Recipe, i: nat, ingredients: map<string, Ingredient>,
                              recipes: map<string, Recipe>, visited: set<string>)
    requires KeysMatchIds(recipes)
    requires i < |recipe.items| && recipe.items[i].SubRecipeItem? && recipe.items[i].recipeId == recipe.id
    ensures ItemCost(recipe.items[i], ingredients, recipes, visited + {recipe.id})
      == Logged(0.0, [CircularDependency(recipe.id)])
    ensures CircularDependency(recipe.id) in TotalCost(recipe, ingredients, recipes, visited).log
  {
    ItemsCostKeepsLineLog(recipe.items, i, ingredients, recipes, visited + {recipe.id});
  }

  /** `chain` lists recipe ids and `lines` one line index per id: every id
      names a recipe of the map, its chosen line is a sub-recipe line, and
      each chosen line refers to the next id of the chain. */
  predicate ReferenceChain(recipes: map<string, Recipe>, chain: seq<string>, lines: seq<nat>)
  {
    && |chain| == |lines| > 0
    && (forall k :: 0 <= k < |chain| ==>
          && chain[k] in recipes
          && lines[k] < |recipes[chain[k]].items|
          && recipes[chain[k]].items[lines[k]].SubRecipeItem?)
    && (forall k :: 0 <= k < |chain| - 1 ==>
          recipes[chain[k]].items[lines[k]].recipeId == chain[k + 1])
  }

  /** The id the last chosen line of a chain refers to. */
  function BackReference(recipes: map<string, Recipe>, chain: seq<string>, lines: seq<nat>): string
    requires ReferenceChain(recipes, chain, lines)
  {
    recipes[chain[|chain| - 1]].items[lines[|chain| - 1]].recipeId
  }

  /** A chain of resolved sub-recipe references from the costed recipe whose
      last line refers back to an id on the path or on the chain is reported:
      a cycle appears in the recipe's diagnostics, whatever its length. */
  lemma {:induction false} ChainedCycleReported(chain: seq<string>, lines: seq<nat>,
                                                ingredients: map<string, Ingredient>,
                                                recipes: map<string, Recipe>, visited: set<string>)
    requires KeysMatchIds(recipes) && ReferenceChain(recipes, chain, lines)
    requires BackReference(recipes, chain, lines) in visited || BackReference(recipes, chain, lines) in chain
    ensures exists d :: d in TotalCost(recipes[chain[0]], ingredients, recipes, visited).log && d.CircularDependency?
    decreases |chain|
  {
    var recipe := recipes[chain[0]];
    var item := recipe.items[lines[0]];
    var path := visited + {recipe.id};
    TotalCostBreakdown(recipe, ingredients, recipes, visited);
    ItemsCostKeepsLineLog(recipe.items, lines[0], ingredients, recipes, path);
    SubRecipeLineCost(item, ingredients, recipes, path);
    if item.recipeId in path {
      assert CircularDependency(item.recipeId) in ItemCost(item, ingredients, recipes, path).log;
    } else {
      assert |chain| > 1;
      var rest, restLines := chain[1..], lines[1..];
      assert ReferenceChain(recipes, rest, restLines) by {
        forall k | 0 <= k < |rest| - 1
          ensures recipes[rest[k]].items[restLines[k]].recipeId == rest[k + 1]
        {
          assert rest[k] == chain[k + 1] && restLines[k] == lines[k + 1];
        }
      }
      assert BackReference(recipes, rest, restLines) == BackReference(recipes, chain, lines);
      assert chain == [chain[0]] + rest;
      ChainedCycleReported(rest, restLines, ingredients, recipes, path);
      var sub := TotalCost(recipes[chain[1]], ingredients, recipes, path);
      var d :| d in sub.log && d.CircularDependency?;
      var line := ItemCost(item, ingredients, recipes, path);
      assert d in line.log by {
        var j :| 0 <= j < |sub.log| && sub.log[j] == d;
        if recipes[chain[1]].servings == 0.0 {
          assert line.log == sub.log + [ZeroServings(recipes[chain[1]].name)];
        } else {
          assert line.log[..|sub.log|][j] == d;
        }
      }
    }
  }

  /** Costing a recipe from an empty path reports a cycle whenever a chain of
      sub-recipe references from it leads back to a recipe of the chain: the
      converse of `ReachablyAcyclicReportsNoCycle`. */
  lemma CycleReported(chain: seq<string>, lines: seq<nat>, ingredients: map<string, Ingredient>,
                      recipes: map<string, Recipe>)
    requires KeysMatchIds(recipes) && ReferenceChain(recipes, chain, lines)
    requires BackReference(recipes, chain, lines) in chain
    ensures !NoCycleReported(TotalCost(recipes[chain[0]], ingredients, recipes, {}).log)
  {
    ChainedCycleReported(chain, lines, ingredients, recipes, {});
  }

  /** No diagnostic of the log reports a cycle. */
  predicate NoCycleReported(log: seq<Diagnostic>)
  {
    forall d :: d in log ==> !d.CircularDependency?
  }

  /** `rank` orders the recipes of `closed`, a set of ids of the map that
      contains every recipe reached by a resolved sub-recipe line of one of
      its members, so that each such line points to a recipe of lower rank:
      the part of the catalogue reachable from `closed` is acyclic. Recipes
      outside `closed` may form cycles of their own. */
  predicate RankedOn(recipes: map<string, Recipe>, rank: map<string, nat>, closed: set<string>)
  {
    && closed <= recipes.Keys
    && closed <= rank.Keys
    && forall k, i ::
         (k in closed && 0 <= i < |recipes[k].items| && recipes[k].items[i].SubRecipeItem?
          && recipes[k].items[i].recipeId in recipes)
         ==> recipes[k].items[i].recipeId in closed && rank[recipes[k].items[i].recipeId] < rank[k]
  }

  /** The whole catalogue is ranked: it is acyclic. */
  predicate Ranked(recipes: map<string, Recipe>, rank: map<string, nat>)
  {
    RankedOn(recipes, rank, recipes.Keys)
  }

  lemma {:induction false} ItemNoCycle(item: RecipeItem, ingredients: map<string, Ingredient>,
                                       recipes: map<string, Recipe>, visited: set<string>,
                                       rank: map<string, nat>, closed: set<string>, bound: nat)
    requires KeysMatchIds(recipes) && RankedOn(recipes, rank, closed) && visited <= closed
    requires forall j :: j in visited ==> rank[j] >= bound
    requires item.SubRecipeItem? && item.recipeId in recipes ==>
      item.recipeId in closed && rank[item.recipeId] < bound
    ensures NoCycleReported(ItemCost(item, ingredients, recipes, visited).log)
    decreases Unvisited(recipes, visited), 0, 0
  {
    match item
    case IngredientItem(_, _, _, _) =>
    case SubRecipeItem(_, _, _, recipeId) =>
      if recipeId !in visited && recipeId in recipes {
        var subRecipe := recipes[recipeId];
        assert Unvisited(recipes, visited + {subRecipe.id}) < Unvisited(recipes, visited);
        TotalNoCycle(subRecipe, ingredients, recipes, visited, rank, closed);
      }
  }

  lemma {:induction false} PrefixNoCycle(items: seq<RecipeItem>, n: nat, ingredients: map<string, Ingredient>,
                                         recipes: map<string, Recipe>, visited: set<string>,
                                         rank: map<string, nat>, closed: set<string>, bound: nat)
    requires KeysMatchIds(recipes) && RankedOn(recipes, rank, closed) && visited <= closed && n <= |items|
    requires forall j :: j in visited ==> rank[j] >= bound
    requires forall i ::
               (0 <= i < |items| && items[i].SubRecipeItem? && items[i].recipeId in recipes)
               ==> items[i].recipeId in closed && rank[items[i].recipeId] < bound
    ensures NoCycleReported(PrefixCost(items, n, ingredients, recipes, visited).log)
    decreases Unvisited(recipes, visited), 1, n
  {
    if n > 0 {
      PrefixNoCycle(items, n - 1, ingredients, recipes, visited, rank, closed, bound);
      ItemNoCycle(items[n - 1], ingredients, recipes, visited, rank, closed, bound);
    }
  }

  lemma {:induction false} ItemsNoCycle(items: seq<RecipeItem>, ingredients: map<string, Ingredient>,
                                        recipes: map<string, Recipe>, visited: set<string>,
                                        rank: map<string, nat>, closed: set<string>, bound: nat)
    requires KeysMatchIds(recipes) && RankedOn(recipes, rank, closed) && visited <= closed
    requires forall j :: j in visited ==> rank[j] >= bound
    requires forall i ::
               (0 <= i < |items| && items[i].SubRecipeItem? && items[i].recipeId in recipes)
               ==> items[i].recipeId in closed && rank[items[i].recipeId] < bound
    ensures NoCycleReported(ItemsCost(items, ingredients, recipes, visited).log)
    decreases Unvisited(recipes, visited), 1, |items| + 1
  {
    PrefixNoCycle(items, |items|, ingredients, recipes, visited, rank, closed, bound);
  }

  /** Costing a recipe of `closed` along a path of recipes of `closed` ranked
      above it reports no cycle. */
  lemma {:induction false} TotalNoCycle(recipe: Recipe, ingredients: map<string, Ingredient>,
                                        recipes: map<string, Recipe>, visited: set<string>,
                                        rank: map<string, nat>, closed: set<string>)
    requires KeysMatchIds(recipes) && RankedOn(recipes, rank, closed) && visited <= closed
    requires recipe.id in closed && recipes[recipe.id] == recipe
    requires forall j :: j in visited ==> rank[j] > rank[recipe.id]
    ensures NoCycleReported(TotalCost(recipe, ingredients, recipes, visited).log)
    decreases Unvisited(recipes, visited + {recipe.id}), 2, 0
  {
    ItemsNoCycle(recipe.items, ingredients, recipes, visited + {recipe.id}, rank, closed, rank[recipe.id]);
  }

  /** Costing a recipe from an empty path reports no cycle whenever the part
      of the catalogue reachable from it is acyclic, whatever cycles the rest
      of the catalogue holds. Together with `CycleReported` (a reachable
      chain leading back into itself is reported) this characterises the
      cycle reports: exactly the reachable cycles are reported. */
  lemma ReachablyAcyclicReportsNoCycle(id: string, ingredients: map<string, Ingredient>,
                                       recipes: map<string, Recipe>, rank: map<string, nat>,
                                       closed: set<string>)
    requires KeysMatchIds(recipes) && RankedOn(recipes, rank, closed) && id in closed
    ensures NoCycleReported(TotalCost(recipes[id], ingredients, recipes, {}).log)
  {
    TotalNoCycle(recipes[id], ingredients, recipes, {}, rank, closed);
  }

  /** In an acyclic catalogue no cycle is ever reported: a recipe reached
      along two sibling branches (a diamond) is not mistaken for a cycle. */
  lemma AcyclicCatalogReportsNoCycle(id: string, ingredients: map<string, Ingredient>,
                                     recipes: map<string, Recipe>, rank: map<string, nat>)
    requires KeysMatchIds(recipes) && Ranked(recipes, rank) && id in recipes
    ensures NoCycleReported(TotalCost(recipes[id], ingredients, recipes, {}).log)
  {
    ReachablyAcyclicReportsNoCycle(id, ingredients, recipes, rank, recipes.Keys);
  }

  /*
   * Signs
   */

  /** The non-negativity constraints of the data model. */
  predicate ValidIngredient(ingredient: Ingredient)
  {
    ingredient.purchasePrice >= 0.0 && ingredient.purchaseQuantity >= 0.0
  }

  predicate ValidItems(items: seq<RecipeItem>)
  {
    forall i :: 0 <= i < |items| ==> items[i].quantity >= 0.0
  }

  predicate ValidRecipe(recipe: Recipe)
  {
    && recipe.servings >= 0.0 && recipe.laborCost >= 0.0 && recipe.overheadPercentage >= 0.0
    && ValidItems(recipe.items)
  }

  predicate ValidCatalog(ingredients: map<string, Ingredient>, recipes: map<string, Recipe>)
  {
    && (forall k :: k in ingredients ==> ValidIngredient(ingredients[k]))
    && (forall k :: k in recipes ==> ValidRecipe(recipes[k]))
  }

  lemma {:induction false} ItemCostNonNegative(item: RecipeItem, ingredients: map<string, Ingredient>,
                                               recipes: map<string, Recipe>, visited: set<string>)
    requires KeysMatchIds(recipes) && ValidCatalog(ingredients, recipes) && item.quantity >= 0.0
    ensures ItemCost(item, ingredients, recipes, visited).value >= 0.0
    decreases Unvisited(recipes, visited), 0, 0
  {
    match item
    case IngredientItem(_, quantity, unit, ingredientId) =>
      if ingredientId in ingredients {
        var ingredient := ingredients[ingredientId];
        var unitCost := IngredientUnitCost(ingredient);
        if UnitsCompatible(unit, unitCost.unit) {
          var inBase := ConvertedQuantity(quantity, unit, unitCost.unit);
          assert inBase.value >= 0.0 by {
            assert Scale(unitCost.unit) == 1.0;
          }
          assert unitCost.cost >= 0.0;
          assert inBase.value * unitCost.cost >= 0.0;
        }
      }
    case SubRecipeItem(_, quantity, _, recipeId) =>
      if recipeId !in visited && recipeId in recipes {
        var subRecipe := recipes[recipeId];
        assert Unvisited(recipes, visited + {subRecipe.id}) < Unvisited(recipes, visited);
        TotalCostNonNegative(subRecipe, ingredients, recipes, visited);
        if subRecipe.servings != 0.0 {
          var sub := TotalCost(subRecipe, ingredients, recipes, visited);
          assert sub.value.totalCost / subRecipe.servings >= 0.0;
          assert quantity * (sub.value.totalCost / subRecipe.servings) >= 0.0;
        }
      }
  }

  lemma {:induction false} PrefixCostNonNegative(items: seq<RecipeItem>, n: nat,
                                                 ingredients: map<string, Ingredient>,
                                                 recipes: map<string, Recipe>, visited: set<string>)
    requires KeysMatchIds(recipes) && ValidCatalog(ingredients, recipes) && ValidItems(items) && n <= |items|
    ensures PrefixCost(items, n, ingredients, recipes, visited).value >= 0.0
    decreases Unvisited(recipes, visited), 1, n
  {
    if n > 0 {
      PrefixCostNonNegative(items, n - 1, ingredients, recipes, visited);
      ItemCostNonNegative(items[n - 1], ingredients, recipes, visited);
    }
  }

  lemma {:induction false} ItemsCostNonNegative(items: seq<RecipeItem>, ingredients: map<string, Ingredient>,
                                                recipes: map<string, Recipe>, visited: set<string>)
    requires KeysMatchIds(recipes) && ValidCatalog(ingredients, recipes) && ValidItems(items)
    ensures ItemsCost(items, ingredients, recipes, visited).value >= 0.0
    decreases Unvisited(recipes, visited), 1, |items| + 1
  {
    PrefixCostNonNegative(items, |items|, ingredients, recipes, visited);
  }

  /** With non-negative prices, quantities, servings, labour and overhead,
      every figure of a breakdown is non-negative. */
  lemma {:induction false} TotalCostNonNegative(recipe: Recipe, ingredients: map<string, Ingredient>,
                                                recipes: map<string, Recipe>, visited: set<string>)
    requires KeysMatchIds(recipes) && ValidCatalog(ingredients, recipes) && ValidRecipe(recipe)
    ensures
      var r := TotalCost(recipe, ingredients, recipes, visited).value;
      r.ingredientsCost >= 0.0 && r.totalCost >= 0.0 && r.costPerServing >= 0.0
    decreases Unvisited(recipes, visited + {recipe.id}), 2, 0
  {
    var items := ItemsCost(recipe.items, ingredients, recipes, visited + {recipe.id});
    ItemsCostNonNegative(recipe.items, ingredients, recipes, visited + {recipe.id});
    var totalCost := (items.value + recipe.laborCost) * (1.0 + recipe.overheadPercentage / 100.0);
    assert totalCost >= 0.0;
    if recipe.servings > 0.0 {
      assert totalCost / recipe.servings >= 0.0;
    }
  }
}
