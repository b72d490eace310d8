/** Concrete catalogues: the seed data of src/data.ts, and small catalogues
    for a cycle, a diamond and a unit mismatch. */
module Fixtures {
  import opened Types
  import opened UnitConverter
  import opened CostAggregator
  import opened CostLaws

  const Flour := Ingredient("ing1", "Harina de Trigo", 2500.0, 1.0, Kilogram)
  const Sugar := Ingredient("ing2", "Azúcar", 3000.0, 1.0, Kilogram)
  const Egg := Ingredient("ing3", "Huevo", 2000.0, 12.0, Each)
  const Butter := Ingredient("ing4", "Mantequilla sin sal", 4000.0, 500.0, Gram)
  const Milk := Ingredient("ing5", "Leche Entera", 1200.0, 1.0, Liter)
  const Chocolate := Ingredient("ing6", "Chocolate 70%", 5500.0, 200.0, Gram)

  const SeedIngredients: map<string, Ingredient> :=
    map["ing1" := Flour, "ing2" := Sugar, "ing3" := Egg,
        "ing4" := Butter, "ing5" := Milk, "ing6" := Chocolate]

  const FlourLine := IngredientItem("item4", 250.0, Gram, "ing1")

  const PastryCream := Recipe("rec1", "Crema Pastelera Base", 4.0,
    [ IngredientItem("item1", 500.0, Milliliter, "ing5"),
      IngredientItem("item2", 4.0, Each, "ing3"),
      IngredientItem("item3", 100.0, Gram, "ing2") ],
    5000.0, 10.0)

  const ChocolateCake := Recipe("rec2", "Torta de Chocolate Intenso", 12.0,
    [ FlourLine,
      IngredientItem("item5", 300.0, Gram, "ing2"),
      IngredientItem("item6", 200.0, Gram, "ing6"),
      IngredientItem("item7", 150.0, Gram, "ing4"),
      SubRecipeItem("item8", 1.0, Each, "rec1") ],
    15000.0, 20.0)

  const SeedRecipes: map<string, Recipe> := map["rec1" := PastryCream, "rec2" := ChocolateCake]

  /** Flour bought at 2500 per kilogram costs 2.5 per gram, so 250 g cost 625. */
  lemma FlourLineCosts625()
    ensures IngredientUnitCost(Flour) == UnitCost(2.5, Gram)
    ensures ItemCost(FlourLine, SeedIngredients, SeedRecipes, {}) == Logged(625.0, [])
  {
  }

  /** A price of 1000 for one kilogram is 1 per gram. */
  lemma KilogramNormalisedToGram()
    ensures IngredientUnitCost(Ingredient("x", "x", 1000.0, 1.0, Kilogram)) == UnitCost(1.0, Gram)
  {
  }

  /** A price for zero purchased units gives cost 0, still in base units. */
  lemma ZeroPurchaseQuantity()
    ensures IngredientUnitCost(Ingredient("x", "x", 1000.0, 0.0, Liter)) == UnitCost(0.0, Milliliter)
  {
  }

  /** A single flour line, 12 servings, labour 15000, overhead 20%. */
  lemma SingleLineScenario()
    ensures
      var cake := Recipe("cake", "cake", 12.0, [FlourLine], 15000.0, 20.0);
      TotalCost(cake, SeedIngredients, SeedRecipes, {}) == Logged(Breakdown(625.0, 18750.0, 1562.5), [])
  {
    var cake := Recipe("cake", "cake", 12.0, [FlourLine], 15000.0, 20.0);
    var path := {} + {"cake"};
    FlourLineCosts625();
    ItemsCostBase(FlourLine, SeedIngredients, SeedRecipes, path);
    TotalCostBreakdown(cake, SeedIngredients, SeedRecipes, {});
  }

  /** The pastry cream of the seed data: 600 of milk, 2000/3 of eggs and 300
      of sugar, labour 5000, overhead 10%, four servings. */
  lemma PastryCreamBreakdown(visited: set<string>)
    requires "rec1" !in visited
    ensures TotalCost(PastryCream, SeedIngredients, SeedRecipes, visited)
      == Logged(Breakdown(4700.0 / 3.0, 21670.0 / 3.0, 21670.0 / 12.0), [])
  {
    var items := PastryCream.items;
    var path := visited + {"rec1"};
    PastryCreamLineCosts(path);
    var one := [items[0]];
    var two := one + [items[1]];
    ItemsCostBase(items[0], SeedIngredients, SeedRecipes, path);
    ItemsCostSnoc(one, items[1], SeedIngredients, SeedRecipes, path);
    ItemsCostSnoc(two, items[2], SeedIngredients, SeedRecipes, path);
    assert two + [items[2]] == items;
    TotalCostBreakdown(PastryCream, SeedIngredients, SeedRecipes, visited);
  }

  lemma PastryCreamLineCosts(path: set<string>)
    ensures ItemCost(PastryCream.items[0], SeedIngredients, SeedRecipes, path) == Logged(600.0, [])
    ensures ItemCost(PastryCream.items[1], SeedIngredients, SeedRecipes, path) == Logged(2000.0 / 3.0, [])
    ensures ItemCost(PastryCream.items[2], SeedIngredients, SeedRecipes, path) == Logged(300.0, [])
  {
  }

  lemma ChocolateCakeLineCosts(path: set<string>)
    ensures ItemCost(ChocolateCake.items[0], SeedIngredients, SeedRecipes, path) == Logged(625.0, [])
    ensures ItemCost(ChocolateCake.items[1], SeedIngredients, SeedRecipes, path) == Logged(900.0, [])
    ensures ItemCost(ChocolateCake.items[2], SeedIngredients, SeedRecipes, path) == Logged(5500.0, [])
    ensures ItemCost(ChocolateCake.items[3], SeedIngredients, SeedRecipes, path) == Logged(1200.0, [])
  {
  }

  /** The four ingredient lines of the chocolate cake: 625 of flour, 900 of
      sugar, 5500 of chocolate and 1200 of butter. */
  lemma ChocolateCakeIngredientLines(path: set<string>)
    ensures ItemsCost(ChocolateCake.items[..4], SeedIngredients, SeedRecipes, path) == Logged(8225.0, [])
  {
    var items := ChocolateCake.items;
    ChocolateCakeLineCosts(path);
    var one := [items[0]];
    var two := one + [items[1]];
    var three := two + [items[2]];
    var four := three + [items[3]];
    ItemsCostBase(items[0], SeedIngredients, SeedRecipes, path);
    ItemsCostSnoc(one, items[1], SeedIngredients, SeedRecipes, path);
    ItemsCostSnoc(two, items[2], SeedIngredients, SeedRecipes, path);
    ItemsCostSnoc(three, items[3], SeedIngredients, SeedRecipes, path);
    assert four == items[..4];
  }

  /** The chocolate cake of the seed data, with one serving of pastry cream:
      ingredients 60185/6, total 30037, and 30037/12 per serving. */
  lemma ChocolateCakeBreakdown()
    ensures TotalCost(ChocolateCake, SeedIngredients, SeedRecipes, {})
      == Logged(Breakdown(60185.0 / 6.0, 30037.0, 30037.0 / 12.0), [])
  {
    var items := ChocolateCake.items;
    var path := {} + {"rec2"};
    PastryCreamBreakdown(path);
    SubRecipeLineCost(items[4], SeedIngredients, SeedRecipes, path);
    assert ItemCost(items[4], SeedIngredients, SeedRecipes, path) == Logged(21670.0 / 12.0, []);
    ChocolateCakeIngredientLines(path);
    ItemsCostSnoc(items[..4], items[4], SeedIngredients, SeedRecipes, path);
    assert items[..4] + [items[4]] == items;
    TotalCostBreakdown(ChocolateCake, SeedIngredients, SeedRecipes, {});
  }

  /** A litre of an ingredient bought by the kilogram costs 0 and is reported. */
  lemma IncompatibleUnitsCostNothing()
    ensures ItemCost(IngredientItem("i", 1.0, Liter, "ing1"), SeedIngredients, SeedRecipes, {})
      == Logged(0.0, [IncompatibleUnits("Harina de Trigo", Liter, Gram)])
  {
  }

  /** Two recipes that list each other: costing A terminates, the inner
      reference back to A costs 0 and is reported as a cycle. */
  const CycleA := Recipe("A", "A", 1.0, [SubRecipeItem("a1", 1.0, Each, "B")], 0.0, 0.0)
  const CycleB := Recipe("B", "B", 2.0, [SubRecipeItem("b1", 1.0, Each, "A")], 100.0, 0.0)
  const CycleRecipes: map<string, Recipe> := map["A" := CycleA, "B" := CycleB]

  lemma MutualCycleDetected()
    ensures KeysMatchIds(CycleRecipes)
    ensures TotalCost(CycleA, SeedIngredients, CycleRecipes, {})
      == Logged(Breakdown(50.0, 50.0, 50.0), [CircularDependency("A")])
  {
    var pathA := {} + {"A"};
    var pathB := pathA + {"B"};
    ItemsCostBase(CycleB.items[0], SeedIngredients, CycleRecipes, pathB);
    SubRecipeLineCost(CycleB.items[0], SeedIngredients, CycleRecipes, pathB);
    TotalCostBreakdown(CycleB, SeedIngredients, CycleRecipes, pathA);
    assert TotalCost(CycleB, SeedIngredients, CycleRecipes, pathA)
      == Logged(Breakdown(0.0, 100.0, 50.0), [CircularDependency("A")]);
    ItemsCostBase(CycleA.items[0], SeedIngredients, CycleRecipes, pathA);
    SubRecipeLineCost(CycleA.items[0], SeedIngredients, CycleRecipes, pathA);
    TotalCostBreakdown(CycleA, SeedIngredients, CycleRecipes, {});
  }

  /** A recipe that uses the same sub-recipe in two sibling lines: both lines
      are costed and nothing is reported. */
  const Dough := Recipe("D", "D", 1.0, [FlourLine], 0.0, 0.0)
  const Pie := Recipe("C", "C", 1.0,
    [SubRecipeItem("c1", 1.0, Each, "D"), SubRecipeItem("c2", 1.0, Each, "D")], 0.0, 0.0)
  const DiamondRecipes: map<string, Recipe> := map["C" := Pie, "D" := Dough]

  lemma DoughBreakdown(pathC: set<string>)
    requires "D" !in pathC
    ensures TotalCost(Dough, SeedIngredients, DiamondRecipes, pathC) == Logged(Breakdown(625.0, 625.0, 625.0), [])
  {
    var pathD := pathC + {"D"};
    ItemsCostBase(FlourLine, SeedIngredients, DiamondRecipes, pathD);
    assert ItemCost(FlourLine, SeedIngredients, DiamondRecipes, pathD) == Logged(625.0, []);
    TotalCostBreakdown(Dough, SeedIngredients, DiamondRecipes, pathC);
  }

  lemma DiamondCostedTwice()
    ensures KeysMatchIds(DiamondRecipes)
    ensures TotalCost(Pie, SeedIngredients, DiamondRecipes, {})
      == Logged(Breakdown(1250.0, 1250.0, 1250.0), [])
  {
    var pathC := {} + {"C"};
    DoughBreakdown(pathC);
    var first, second := Pie.items[0], Pie.items[1];
    SubRecipeLineCost(first, SeedIngredients, DiamondRecipes, pathC);
    SubRecipeLineCost(second, SeedIngredients, DiamondRecipes, pathC);
    ItemsCostBase(first, SeedIngredients, DiamondRecipes, pathC);
    ItemsCostSnoc([first], second, SeedIngredients, DiamondRecipes, pathC);
    assert Pie.items == [first] + [second];
    TotalCostBreakdown(Pie, SeedIngredients, DiamondRecipes, {});
  }

  /** The cycle A <-> B next to the pie and its dough, which use neither. */
  const MixedRecipes: map<string, Recipe> := map["A" := CycleA, "B" := CycleB, "C" := Pie, "D" := Dough]

  /** The mixed catalogue has no rank: it is not acyclic as a whole. */
  lemma MixedCatalogueUnranked(rank: map<string, nat>)
    ensures !Ranked(MixedRecipes, rank)
  {
    assert MixedRecipes["A"].items[0].recipeId == "B" && MixedRecipes["B"].items[0].recipeId == "A";
  }

  /** Costing A in the mixed catalogue reports the cycle; costing the pie
      reports none, though the catalogue is cyclic elsewhere. */
  lemma UnreachableCycleNotReported()
    ensures KeysMatchIds(MixedRecipes)
    ensures !NoCycleReported(TotalCost(CycleA, SeedIngredients, MixedRecipes, {}).log)
    ensures NoCycleReported(TotalCost(Pie, SeedIngredients, MixedRecipes, {}).log)
  {
    assert MixedRecipes["A"] == CycleA && MixedRecipes["B"] == CycleB;
    CycleReported(["A", "B"], [0, 0], SeedIngredients, MixedRecipes);
    var rank := map["C" := 1, "D" := 0];
    assert RankedOn(MixedRecipes, rank, {"C", "D"});
    ReachablyAcyclicReportsNoCycle("C", SeedIngredients, MixedRecipes, rank, {"C", "D"});
  }
}
