/** The Budget Calculator page: tier rate tables, the cost breakdown computed
    from the form, and the page state that holds the form and the result. */
module BudgetCalculator {
  import opened Seqs

  /** The page's form. `duration` and `travelers` are the numbers `parseInt`
      produced from their inputs; the five tier fields hold the selected option
      value, '' while nothing is selected. */
  datatype BudgetForm = BudgetForm(
    destination: string,
    duration: int,
    travelers: int,
    accommodationType: string,
    mealPreference: string,
    transportMode: string,
    activityLevel: string,
    shoppingBudget: string)

  /** Money is in whole rupees; the 10% buffer (and so the total) can have a
      fractional part, which is kept exactly. */
  datatype BudgetCalculation = BudgetCalculation(
    accommodation: int,
    food: int,
    transport: int,
    activities: int,
    shopping: int,
    miscellaneous: real,
    total: real)

  // Rate tables. Accommodation is per night; food, transport and activities
  // are per person per day; shopping is per person for the whole trip.
  const AccommodationCosts: map<string, int> := map["budget" := 1500, "mid" := 4000, "luxury" := 8000]
  const FoodCosts: map<string, int> := map["budget" := 800, "mid" := 2000, "luxury" := 4000]
  const TransportCosts: map<string, int> := map["local" := 500, "private" := 2000, "luxury" := 3500]
  const ActivityCosts: map<string, int> := map["low" := 1000, "medium" := 2500, "high" := 5000]
  const ShoppingCosts: map<string, int> := map["none" := 0, "minimal" := 1000, "moderate" := 3000, "extensive" := 6000]

  /** `table[key] || 0`: an unselected or unknown tier has rate 0. */
  function Rate(table: map<string, int>, key: string): int {
    if key in table then table[key] else 0
  }

  /** The five priced components before the buffer. */
  function Subtotal(c: BudgetCalculation): int {
    c.accommodation + c.food + c.transport + c.activities + c.shopping
  }

  /** `calculateBudget`: the breakdown for the current form. */
  function Estimate(f: BudgetForm): (c: BudgetCalculation)
    ensures c.miscellaneous == Subtotal(c) as real / 10.0
    ensures c.total == c.accommodation as real + c.food as real + c.transport as real
                       + c.activities as real + c.shopping as real + c.miscellaneous
    ensures c.total == 11.0 * Subtotal(c) as real / 10.0
  {
    var accommodation := Rate(AccommodationCosts, f.accommodationType) * f.duration;
    var food := Rate(FoodCosts, f.mealPreference) * f.duration * f.travelers;
    var transport := Rate(TransportCosts, f.transportMode) * f.duration * f.travelers;
    var activities := Rate(ActivityCosts, f.activityLevel) * f.duration * f.travelers;
    var shopping := Rate(ShoppingCosts, f.shoppingBudget) * f.travelers;
    var miscellaneous := (accommodation + food + transport + activities + shopping) as real * 0.1;
    var total := accommodation as real + food as real + transport as real
                 + activities as real + shopping as real + miscellaneous;
    BudgetCalculation(accommodation, food, transport, activities, shopping, miscellaneous, total)
  }

  /** Accommodation is one room: rate times nights, whatever the party size. */
  lemma AccommodationIgnoresTravelers(f: BudgetForm, travelers: int)
    ensures Estimate(f).accommodation == Rate(AccommodationCosts, f.accommodationType) * f.duration
    ensures Estimate(f.(travelers := travelers)).accommodation == Estimate(f).accommodation
  {
  }

  /** Food, transport and activities scale with both days and people. */
  lemma PerPersonPerDayComponents(f: BudgetForm)
    ensures Estimate(f).food == Rate(FoodCosts, f.mealPreference) * f.duration * f.travelers
    ensures Estimate(f).transport == Rate(TransportCosts, f.transportMode) * f.duration * f.travelers
    ensures Estimate(f).activities == Rate(ActivityCosts, f.activityLevel) * f.duration * f.travelers
  {
  }

  /** Shopping is per person for the trip, whatever its length. */
  lemma ShoppingIgnoresDuration(f: BudgetForm, duration: int)
    ensures Estimate(f).shopping == Rate(ShoppingCosts, f.shoppingBudget) * f.travelers
    ensures Estimate(f.(duration := duration)).shopping == Estimate(f).shopping
  {
  }

  /** An unselected ('') or unknown tier contributes nothing and raises no error. */
  lemma UnknownTierCostsNothing(f: BudgetForm)
    ensures f.accommodationType !in AccommodationCosts ==> Estimate(f).accommodation == 0
    ensures f.mealPreference !in FoodCosts ==> Estimate(f).food == 0
    ensures f.transportMode !in TransportCosts ==> Estimate(f).transport == 0
    ensures f.activityLevel !in ActivityCosts ==> Estimate(f).activities == 0
    ensures f.shoppingBudget !in ShoppingCosts ==> Estimate(f).shopping == 0
    ensures "" !in AccommodationCosts && "" !in FoodCosts && "" !in TransportCosts
            && "" !in ActivityCosts && "" !in ShoppingCosts
  {
  }

  /** Three days, two people, mid/mid/private/medium/moderate. */
  lemma WorkedExample()
    ensures Estimate(BudgetForm("", 3, 2, "mid", "mid", "private", "medium", "moderate"))
            == BudgetCalculation(12000, 12000, 12000, 15000, 6000, 5700.0, 62700.0)
  {
  }

  // ---------------------------------------------------------------------
  // Page state

  datatype FormField =
    | DestinationField | Duration | Travelers | AccommodationType
    | MealPreference | TransportMode | ActivityLevel | ShoppingBudget

  /** The value an input's `onChange` hands over: the two number inputs pass
      `parseInt(..)`, every other input its string value. */
  datatype FieldValue = Text(text: string) | Number(number: int)

  predicate FitsField(field: FormField, v: FieldValue) {
    v.Number? <==> (field == Duration || field == Travelers)
  }

  /** The form the page starts with and returns to on reset. */
  const InitialForm: BudgetForm := BudgetForm("", 1, 1, "", "", "", "", "")

  /** `{ ...prev, [field]: value }`. */
  function WithField(f: BudgetForm, field: FormField, v: FieldValue): (r: BudgetForm)
    requires FitsField(field, v)
    ensures field == DestinationField ==> r == f.(destination := v.text)
    ensures field == Duration ==> r == f.(duration := v.number)
    ensures field == Travelers ==> r == f.(travelers := v.number)
    ensures field == AccommodationType ==> r == f.(accommodationType := v.text)
    ensures field == MealPreference ==> r == f.(mealPreference := v.text)
    ensures field == TransportMode ==> r == f.(transportMode := v.text)
    ensures field == ActivityLevel ==> r == f.(activityLevel := v.text)
    ensures field == ShoppingBudget ==> r == f.(shoppingBudget := v.text)
  {
    match field
    case DestinationField => f.(destination := v.text)
    case Duration => f.(duration := v.number)
    case Travelers => f.(travelers := v.number)
    case AccommodationType => f.(accommodationType := v.text)
    case MealPreference => f.(mealPreference := v.text)
    case TransportMode => f.(transportMode := v.text)
    case ActivityLevel => f.(activityLevel := v.text)
    case ShoppingBudget => f.(shoppingBudget := v.text)
  }

  class BudgetCalculatorPage {
    var formData: BudgetForm
    var calculation: Option<BudgetCalculation>
    var showResults: bool

    /** Results are only ever shown for a computed breakdown. */
    ghost predicate Valid()
      reads this
    {
      showResults ==> calculation.Some?
    }

    constructor ()
      ensures Valid()
      ensures formData == InitialForm && calculation == None && !showResults
    {
      formData := InitialForm;
      calculation := None;
      showResults := false;
    }

    /** Editing an input replaces one form field; a breakdown already shown
        stays as it was until the next calculation. */
    method HandleInputChange(field: FormField, value: FieldValue)
      requires Valid() && FitsField(field, value)
      modifies this
      ensures Valid()
      ensures formData == WithField(old(formData), field, value)
      ensures calculation == old(calculation) && showResults == old(showResults)
    {
      formData := WithField(formData, field, value);
    }

    method CalculateBudget()
      requires Valid()
      modifies this
      ensures Valid()
      ensures formData == old(formData)
      ensures calculation == Some(Estimate(formData)) && showResults
    {
      var c := Estimate(formData);
      calculation := Some(c);
      showResults := true;
    }

    method ResetCalculator()
      requires Valid()
      modifies this
      ensures Valid()
      ensures formData == InitialForm && calculation == None && !showResults
    {
      formData := InitialForm;
      calculation := None;
      showResults := false;
    }
  }
}
