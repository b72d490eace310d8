/** The records the costing engine reads (src/types.ts). Identifiers are
    strings, quantities and prices are exact reals. */
module Types {

  /** The closed enumeration of units. `Each` is the count unit, spelled
      'unit' in src/types.ts. */
  datatype Unit = Gram | Kilogram | Milliliter | Liter | Each

  /** The three compatibility classes that partition the units. */
  datatype UnitClass = Mass | Volume | Count

  function ClassOf(u: Unit): UnitClass
  {
    match u
    case Gram => Mass
    case Kilogram => Mass
    case Milliliter => Volume
    case Liter => Volume
    case Each => Count
  }

  /** How many of the smallest unit of its class one `u` stands for. This is
      the meaning of the units, independent of any conversion table. */
  function Scale(u: Unit): (s: real)
    ensures s > 0.0
  {
    match u
    case Kilogram => 1000.0
    case Liter => 1000.0
    case _ => 1.0
  }

  /** An amount expressed in the smallest unit of its class. */
  function BaseQuantity(quantity: real, u: Unit): real
  {
    quantity * Scale(u)
  }

  /** The purchase record of a raw material. */
  datatype Ingredient = Ingredient(
    id: string,
    name: string,
    purchasePrice: real,
    purchaseQuantity: real,
    purchaseUnit: Unit)

  /** A recipe line: either an amount of an ingredient or a number of
      servings of another recipe, both over the common shape id/quantity/unit. */
  datatype RecipeItem =
    | IngredientItem(id: string, quantity: real, unit: Unit, ingredientId: string)
    | SubRecipeItem(id: string, quantity: real, unit: Unit, recipeId: string)

  datatype Recipe = Recipe(
    id: string,
    name: string,
    servings: real,
    items: seq<RecipeItem>,
    laborCost: real,
    overheadPercentage: real)

}
