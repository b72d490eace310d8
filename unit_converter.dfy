/** Unit normalisation and conversion (services/costCalculator.ts:4-54). */
module UnitConverter {
  import opened Wrappers
  import opened Types

  /** What the engine reports on its diagnostic channel, in the order the
      program writes them to the console. */
  datatype Diagnostic =
    | MissingConversionFactor(from: Unit, to: Unit)
    | IncompatibleUnits(ingredientName: string, itemUnit: Unit, baseUnit: Unit)
    | CircularDependency(recipeId: string)
    | ZeroServings(subRecipeName: string)
    | NonCountSubRecipeUnit(subRecipeName: string, itemUnit: Unit)

  /** A value together with the diagnostics emitted while computing it. */
  datatype Logged<T> = Logged(value: T, log: seq<Diagnostic>)

  /** One entry of the purchase-normalisation table. */
  datatype Conversion = Conversion(to: Unit, factor: real)

  /** The table of purchase units that are normalised to a smaller unit:
      kilogram to gram and litre to millilitre, each by 1000. */
  function PurchaseConversion(u: Unit): (c: Option<Conversion>)
    ensures c.Some? <==> Scale(u) != 1.0
    ensures c.Some? ==> ClassOf(c.value.to) == ClassOf(u) && Scale(c.value.to) == 1.0
    ensures c.Some? ==> c.value.factor == Scale(u)
  {
    match u
    case Kilogram => Some(Conversion(Gram, 1000.0))
    case Liter => Some(Conversion(Milliliter, 1000.0))
    case _ => None
  }

  /** The units every cost per base unit is expressed in. */
  predicate IsBaseUnit(u: Unit)
  {
    u == Gram || u == Milliliter || u == Each
  }

  /** Cost of one base unit of an ingredient, and that base unit. */
  datatype UnitCost = UnitCost(cost: real, unit: Unit)

  /** Normalises a purchase record to a cost per base unit. The base unit is
      the smallest unit of the purchase unit's class; a zero purchase quantity
      yields cost 0 instead of a division; otherwise cost times the purchased
      amount (in base units) gives back the purchase price. */
  function IngredientUnitCost(ingredient: Ingredient): (r: UnitCost)
    ensures IsBaseUnit(r.unit) && ClassOf(r.unit) == ClassOf(ingredient.purchaseUnit)
    ensures Scale(ingredient.purchaseUnit) == 1.0 ==> r.unit == ingredient.purchaseUnit
    ensures ingredient.purchaseQuantity == 0.0 ==> r.cost == 0.0
    ensures ingredient.purchaseQuantity != 0.0 ==>
      r.cost == ingredient.purchasePrice / BaseQuantity(ingredient.purchaseQuantity, ingredient.purchaseUnit)
  {
    match PurchaseConversion(ingredient.purchaseUnit)
    case Some(conversion) =>
      var baseQuantity := ingredient.purchaseQuantity * conversion.factor;
      if baseQuantity == 0.0 then UnitCost(0.0, conversion.to)
      else UnitCost(ingredient.purchasePrice / baseQuantity, conversion.to)
    case None =>
      if ingredient.purchaseQuantity == 0.0 then UnitCost(0.0, ingredient.purchaseUnit)
      else UnitCost(ingredient.purchasePrice / ingredient.purchaseQuantity, ingredient.purchaseUnit)
  }

  /** The table of factors between compatible, distinct units. */
  function ConversionFactor(from: Unit, to: Unit): Option<real>
  {
    match (from, to)
    case (Gram, Kilogram) => Some(0.001)
    case (Kilogram, Gram) => Some(1000.0)
    case (Milliliter, Liter) => Some(0.001)
    case (Liter, Milliliter) => Some(1000.0)
    case _ => None
  }

  /** Converts a quantity between units. The same unit is the identity; two
      units of one class give the same amount expressed in the other unit;
      units of different classes give 0 and report the missing factor. */
  function ConvertedQuantity(quantity: real, from: Unit, to: Unit): (r: Logged<real>)
    ensures from == to ==> r == Logged(quantity, [])
    ensures ClassOf(from) == ClassOf(to) ==>
      r.log == [] && BaseQuantity(r.value, to) == BaseQuantity(quantity, from)
    ensures ClassOf(from) != ClassOf(to) ==>
      r == Logged(0.0, [MissingConversionFactor(from, to)])
  {
    if from == to then Logged(quantity, [])
    else
      match ConversionFactor(from, to)
      case None => Logged(0.0, [MissingConversionFactor(from, to)])
      case Some(factor) => Logged(quantity * factor, [])
  }

  /** The unit-compatibility test of an ingredient line, written over the base
      unit as services/costCalculator.ts:72-80 writes it. On a base unit it is exactly "same class". */
  predicate UnitsCompatible(itemUnit: Unit, baseUnit: Unit): (ok: bool)
    ensures IsBaseUnit(baseUnit) ==> (ok <==> ClassOf(itemUnit) == ClassOf(baseUnit))
  {
    || ((itemUnit == Gram || itemUnit == Kilogram) && baseUnit == Gram)
    || ((itemUnit == Liter || itemUnit == Milliliter) && baseUnit == Milliliter)
    || (itemUnit == Each && baseUnit == Each)
  }

  /** Converting there and back between units of one class gives back the
      starting quantity. */
  lemma ConversionRoundTrip(quantity: real, from: Unit, to: Unit)
    requires ClassOf(from) == ClassOf(to)
    ensures ConvertedQuantity(ConvertedQuantity(quantity, from, to).value, to, from) == Logged(quantity, [])
  {
  }

  /** Every pair of distinct units of one class has a factor in the table, and
      no other pair has one. */
  lemma FactorTableComplete(from: Unit, to: Unit)
    ensures ConversionFactor(from, to).Some? <==> from != to && ClassOf(from) == ClassOf(to)
    ensures ConversionFactor(from, to).Some? ==>
      ConversionFactor(from, to).value * Scale(to) == Scale(from)
  {
  }
}
