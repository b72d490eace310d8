# Recipe costing engine, modelled in Dafny

This project models the recipe-costing engine of a pastry-costing
application. From the purchase records of ingredients it computes a cost per
base unit (gram, millilitre or piece), costs each line of a recipe (an amount
of an ingredient, or a number of servings of another recipe), and folds the
lines, the labour cost and the overhead percentage into a breakdown
`{ingredientsCost, totalCost, costPerServing}`. Sub-recipes are costed
recursively. A set of ancestor recipe ids, copied and extended on every
descent, detects cycles. Every failure costs 0. An incompatible unit, a
cycle and a zero-servings sub-recipe line also write a console diagnostic,
and so does a sub-recipe line in a unit other than the count unit (which is
still costed). A conversion between units without a factor writes one too;
a line cost never reaches it, because the unit test runs first. A missing reference, a zero purchase quantity and a
non-positive number of servings in the per-serving share write none. A
second, different flat cost model of the top-level application (price per
unit times quantity, divided by portions) is modelled on its own.

Files and modules:

- `wrappers.dfy` — `Wrappers`: `Option`, which stands for `undefined`.
- `types.dfy` — `Types`: the records of `src/types.ts`.
  - The enum becomes `Unit = Gram | Kilogram | Milliliter | Liter | Each`. `Each` is the count unit `'unit'`.
  - It adds the compatibility classes `Mass | Volume | Count`, and `Scale`, the number of base units one unit stands for. `Scale` is the reference meaning of the units.
- `unit_converter.dfy` — `UnitConverter`: `CONVERSIONS`, `calculateIngredientUnitCost`, `conversionFactors`, `getConvertedQuantity` and the unit-compatibility test.
  - The console output is modelled as a returned log of `Diagnostic` values (`Logged<T>`), in the order the code writes it.
- `cost_aggregator.dfy` — `CostAggregator`: `calculateRecipeItemCost` (`ItemCost`), the `reduce` (`ItemsCost`) and `calculateRecipeTotalCost` (`TotalCost`). These are mutually recursive. They terminate on the measure "recipe ids of the map not yet visited".
  - The ingredient branch of `calculateRecipeItemCost` is the helper `IngredientLine`.
  - The `reduce` is a left fold from 0. `PrefixCost(items, n)` is its accumulator after the first `n` lines, and `ItemsCost` is `PrefixCost` over all lines.
- `cost_laws.dfy` — `CostLaws`: the properties of the engine.
- `fixtures.dfy` — `Fixtures`: the seed catalogue of `src/data.ts` and small cycle, diamond and unit-mismatch catalogues, each costed exactly.
- `flat_cost.dfy` — `FlatCost`: `calculateRecipeCost` and `calculateCostPerServing` of `App.tsx`, over the record shape of the root `types.ts`.

Numbers are exact reals. The lookup maps and the visited set are immutable
Dafny values passed as parameters. The engine reads no clock, file or network.

Behaviour of the code a reader may not expect:

- Missing references. A missing ingredient or sub-recipe costs 0 and writes NO diagnostic (`services/costCalculator.ts:68`, `:99`).
- Order of the sub-recipe checks. The cycle check comes before the lookup (`:93` before `:98`). So an id on the path that is not in the map is still reported as a cycle.
- Zero servings. The sub-recipe is costed before its zero-servings guard (`:103` before `:105`). Its diagnostics therefore come before the `ZeroServings` warning.
- Negative servings. The line cost guards only `servings === 0`, so negative servings are divided by. The per-serving share guards `servings > 0`.
- Record shape. `services/costCalculator.ts` imports the root `types.ts`, whose shape (`pricePerUnit`, `portions`) lacks the fields the engine reads. The engine is modelled over `src/types.ts`, which has those fields.

## Model

| member | source | states |
|---|---|---|
| `UnitConverter.PurchaseConversion` | services/costCalculator.ts:5-8 | a normalising conversion exists exactly for kilogram and litre; it targets the unit of scale 1 of the same class, with factor 1000 |
| `UnitConverter.IngredientUnitCost` | services/costCalculator.ts:16-27 | the base unit is gram, millilitre or piece, of the purchase unit's class (g/ml/piece kept as is); zero purchase quantity gives cost 0; otherwise cost = price / purchased amount in base units |
| `UnitConverter.ConversionFactor` | services/costCalculator.ts:31-37 | the factor table itself; it has no ensures of its own, its contract is carried by `UnitConverter.FactorTableComplete` and `UnitConverter.ConvertedQuantity` |
| `UnitConverter.FactorTableComplete` | services/costCalculator.ts:31-37 | the factor table has an entry exactly for distinct units of one class, and each factor converts amounts consistently with the units' scales |
| `UnitConverter.ConvertedQuantity` | services/costCalculator.ts:43-54 | identity on equal units; within a class the amount in base units is preserved (g to kg times 0.001, kg to g times 1000, same for ml and l); across classes (and to or from piece) 0 with a missing-factor diagnostic |
| `UnitConverter.ConversionRoundTrip` | services/costCalculator.ts:43-54 | converting within a class and back gives the starting quantity with no diagnostic |
| `UnitConverter.UnitsCompatible` | services/costCalculator.ts:72-80 | against a base unit, the compatibility test holds exactly when the two units have the same class |
| `CostAggregator.IngredientLine` | services/costCalculator.ts:66-88 | the ingredient branch of a line; no ensures of its own, see `CostLaws.IngredientLineCost` |
| `CostAggregator.ItemCost` | services/costCalculator.ts:60-118 | the cost of one line; no ensures of its own, see `CostLaws.IngredientLineCost`, `CostLaws.SubRecipeLineCost`, `CostLaws.ItemCostNonNegative` |
| `CostAggregator.PrefixCost` | services/costCalculator.ts:136-139 | the reduce's accumulator after the first n lines; no ensures of its own, see `CostLaws.PrefixCostAgrees`, `CostLaws.PrefixCostStep`, `CostLaws.PrefixCostAppend` |
| `CostAggregator.ItemsCost` | services/costCalculator.ts:136-139 | the reduce over all lines; no ensures of its own, see `CostLaws.ItemsCostBase`, `CostLaws.ItemsCostAppend`, `CostLaws.ItemsCostKeepsLineLog` |
| `CostAggregator.TotalCost` | services/costCalculator.ts:124-146 | the breakdown of a recipe; no ensures of its own, see `CostLaws.TotalCostBreakdown`, `CostLaws.TotalCostNonNegative`, `CostLaws.CycleReported`, `CostLaws.ReachablyAcyclicReportsNoCycle` |
| `CostLaws.IngredientLineCost` | services/costCalculator.ts:66-88 | missing ingredient gives 0 silently; class mismatch gives 0 and an incompatible-units diagnostic; otherwise no diagnostic (the no-factor branch is unreachable) and cost = used amount in base units times unit cost = price times used over purchased amount |
| `CostLaws.SubRecipeLineCost` | services/costCalculator.ts:90-116 | an id on the path gives 0 and a cycle diagnostic before any lookup; a missing sub-recipe gives 0; zero servings gives 0 after the sub-recipe's diagnostics; otherwise cost times servings = quantity times the sub-recipe's total, whatever the unit, with one extra warning exactly when the unit is not the count unit |
| `CostLaws.TotalCostBreakdown` | services/costCalculator.ts:124-146 | items are folded with the path extended by the recipe's id; total = (items + labour) times (1 + overhead/100); share times servings = total for positive servings, else 0 |
| `CostLaws.ItemsCostBase` | services/costCalculator.ts:136-139 | the fold over no lines is 0 with no diagnostic, and over one line is that line's cost |
| `CostLaws.ItemsCostAppend` | services/costCalculator.ts:136-139 | the fold over a concatenation is the sum of the folds and the concatenation of their diagnostics: sibling lines do not affect each other |
| `CostLaws.RepeatedSiblingCostedTwice` | services/costCalculator.ts:131-139 | the same line twice among siblings costs twice its cost: the first descent does not mark anything visited for the second |
| `CostLaws.ItemsCostKeepsLineLog` | services/costCalculator.ts:136-139 | every diagnostic of a line is among the diagnostics of the recipe's fold |
| `CostLaws.SelfReferenceReported` | services/costCalculator.ts:91-96 | a recipe listing itself as a sub-recipe: that line costs 0 and the recipe's diagnostics contain the cycle report |
| `CostLaws.ChainedCycleReported` | services/costCalculator.ts:91-116 | along any chain of resolved sub-recipe lines whose last line refers to an id on the path or on the chain, a cycle report reaches the first recipe's diagnostics, through zero-servings and non-count lines alike |
| `CostLaws.CycleReported` | services/costCalculator.ts:91-146 | costing from an empty path reports a cycle whenever a chain of sub-recipe references from the recipe leads back into itself; the converse of `CostLaws.ReachablyAcyclicReportsNoCycle` |
| `CostLaws.ReachablyAcyclicReportsNoCycle` | services/costCalculator.ts:91-146 | costing a recipe from an empty path reports no cycle whenever the recipes reachable from it are ranked acyclic, though the rest of the catalogue may be cyclic; with `CostLaws.CycleReported`, exactly reachable cycles are reported |
| `CostLaws.AcyclicCatalogReportsNoCycle` | services/costCalculator.ts:131-134 | in a catalogue ranked acyclic as a whole, costing any recipe from an empty path reports no cycle, including shared sub-recipes reached by two branches |
| `CostLaws.TotalNoCycle` | services/costCalculator.ts:93-103 | for a set of recipes closed under resolved sub-recipe references and ranked acyclic, costing one of them along a path of members ranked above it reports no cycle, whatever cycles lie outside the set |
| `CostLaws.ItemCostNonNegative` | services/costCalculator.ts:60-118 | with non-negative prices, quantities, servings, labour and overhead, a line never costs less than 0 |
| `CostLaws.TotalCostNonNegative` | services/costCalculator.ts:124-146 | under the same conditions ingredients cost, total cost and cost per serving are all non-negative |
| `Fixtures.FlourLineCosts625` | src/data.ts:5-31 | flour at 2500 per kilogram costs 2.5 per gram; 250 g cost 625 with no diagnostic |
| `Fixtures.KilogramNormalisedToGram` | services/costCalculator.ts:17-22 | 1000 for one kilogram is 1 per gram |
| `Fixtures.ZeroPurchaseQuantity` | services/costCalculator.ts:19-21 | a zero quantity in litres costs 0 per millilitre |
| `Fixtures.SingleLineScenario` | services/costCalculator.ts:124-146 | one 625 flour line, labour 15000, overhead 20%, 12 servings: total 18750, 1562.5 per serving |
| `Fixtures.PastryCreamBreakdown` | src/data.ts:14-25 | the seed pastry cream costs 4700/3 in ingredients, 21670/3 in total, 21670/12 per serving |
| `Fixtures.ChocolateCakeIngredientLines` | src/data.ts:30-34 | the cake's four ingredient lines cost 8225 |
| `Fixtures.ChocolateCakeBreakdown` | src/data.ts:26-39 | the seed cake with one serving of pastry cream costs 60185/6 in ingredients, 30037 in total, 30037/12 per serving, with no diagnostic |
| `Fixtures.IncompatibleUnitsCostNothing` | services/costCalculator.ts:77-85 | a litre of flour bought by the kilogram costs 0 and reports the mismatch |
| `Fixtures.MutualCycleDetected` | services/costCalculator.ts:91-96 | two recipes listing each other: costing one terminates, the inner back-reference costs 0 and is reported once |
| `Fixtures.MixedCatalogueUnranked` | services/costCalculator.ts:91-96 | a catalogue holding the cycle A, B beside an unrelated pie and dough admits no rank |
| `Fixtures.UnreachableCycleNotReported` | services/costCalculator.ts:93-96 | in that catalogue costing A reports the cycle, and costing the pie reports none |
| `Fixtures.DiamondCostedTwice` | services/costCalculator.ts:131-134 | a recipe using one sub-recipe on two sibling lines costs it twice and reports nothing |
| `FlatCost.LineCost` | App.tsx:122-123 | one line, price times quantity with missing values as 0; no ensures of its own, see `FlatCost.RecipeCostBase`, `FlatCost.UnpricedLinesContributeNothing` |
| `FlatCost.LinesCost` | App.tsx:121-124 | the reduce from 0 over the lines; no ensures of its own, see `FlatCost.LinesCostAppend`, `FlatCost.LinesNonNegative` |
| `FlatCost.RecipeCost` | App.tsx:119-125 | the cost of a recipe, 0 without items; no ensures of its own, see `FlatCost.RecipeCostBase`, `FlatCost.CostNonNegative` |
| `FlatCost.CostPerServing` | App.tsx:127-130 | missing, zero or negative portions give 0; otherwise the share times the portions is the recipe cost |
| `FlatCost.RecipeCostBase` | App.tsx:119-125 | no item list or an empty one costs 0; a single line costs price times quantity when both resolve, else 0 |
| `FlatCost.LinesCostAppend` | App.tsx:121-124 | the left fold over a concatenation is the sum of the folds |
| `FlatCost.UnpricedLinesContributeNothing` | App.tsx:122-123 | dropping the lines with a missing ingredient or quantity leaves the cost unchanged |
| `FlatCost.CostNonNegative` | App.tsx:119-130 | with non-negative prices and quantities, cost and cost per portion are non-negative |

## Left out

- Floating point. Numbers are exact reals, so `0.001` is exact and no rounding or NaN exists. `toFixed` and display formatting are not modelled.
- Console diagnostics. They are returned as a log of tags, not printed. The messages keep only the fields they name: the unit pair, the ingredient name, the recipe id and the sub-recipe name. A cycle report keeps the referenced id, not the name looked up for display.
- CostAggregator.ItemCost, CostAggregator.ItemsCost, CostAggregator.TotalCost: these require `KeysMatchIds` (every map key equals its record's id).
  - The code does not check this. Without it, its recursion need not end: the cycle check tests the referenced id, but the visited set grows by the record's id.
  - The top-level application's maps are keyed by document id (hooks/useFirestoreData.ts:79-82, 101-104). There a stored `id` field overrides the document id, so keys and ids agree only because every save writes the record at the document named by its id (services/api.ts:18, :28), or stores that document's id in the record (src/App.tsx:96-98).
  - src/App.tsx loads its maps through `./hooks/useFirestoreData`, which is not part of this model.
- Fall-through case. The final `return 0` for an item of neither kind (services/costCalculator.ts:117) cannot occur: the line-item type has exactly two variants.
- Null recipe. In the flat model a `null` recipe (`recipe?.`) is not modelled; its type admits none. Missing `items`, `quantity` and `portions` are modelled as optional fields.
- Unused fields. The flat model leaves out `instructions`, `preparationTime`, `category` and the timestamps, which the cost functions do not read.
- Everything outside the two cost cores is not part of this model: persistence and real-time sync, authentication, voice commands and the React components.
