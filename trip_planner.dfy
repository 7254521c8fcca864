/** The Trip Planner page: the sample itinerary generated from the submitted
    form, its costs, and the form / generating / results steps of the page. */
module TripPlanner {
  import opened Seqs
  import opened Text
  import opened TripPlannerForm

  datatype ActivityType = Attraction | Meal | Transport | Accommodation

  datatype Activity = Activity(
    id: string,
    name: string,
    kind: ActivityType,
    time: string,
    duration: string,
    cost: int,
    description: string,
    location: string)

  /** `GeneratedItinerary`: one day of the plan. `date` is the day number of
      the calendar day. */
  datatype DayPlan = DayPlan(
    day: int,
    date: int,
    activities: seq<Activity>,
    totalCost: int,
    travelTime: string)

  /** `budget === 'budget' ? b : budget === 'mid' ? m : l`: every other tier,
      including the empty one, is priced as luxury. */
  function TierPrice(tier: string, budget: int, mid: int, luxury: int): int {
    if tier == "budget" then budget else if tier == "mid" then mid else luxury
  }

  /** `day-${i}-<slot>`. */
  function ActivityId(i: nat, slot: string): string {
    "day-" + NatToString(i) + "-" + slot
  }

  /** The five slots every day starts with, for the day with index `i`. */
  function DayTemplate(data: TripPlanData, i: nat): seq<Activity> {
    [ Activity(ActivityId(i, "breakfast"), "Breakfast", Meal, "08:00 AM", "1 hour",
               TierPrice(data.budget, 200, 500, 800),
               "Start your day with a delicious local breakfast", "Local restaurant near hotel"),
      Activity(ActivityId(i, "attraction1"), "Main Attraction " + NatToString(i + 1), Attraction,
               "10:00 AM", "3 hours", TierPrice(data.budget, 300, 600, 1200),
               "Visit the most popular attractions based on your interests", data.destination),
      Activity(ActivityId(i, "lunch"), "Lunch", Meal, "01:00 PM", "1 hour",
               TierPrice(data.budget, 300, 700, 1200),
               "Enjoy authentic local cuisine", "Recommended local restaurant"),
      Activity(ActivityId(i, "attraction2"), "Secondary Attraction " + NatToString(i + 1), Attraction,
               "03:00 PM", "2 hours", TierPrice(data.budget, 200, 400, 800),
               "Explore additional sights and experiences", data.destination),
      Activity(ActivityId(i, "dinner"), "Dinner", Meal, "07:00 PM", "1.5 hours",
               TierPrice(data.budget, 400, 1000, 2000),
               "End your day with a memorable dining experience", "Local restaurant") ]
  }

  /** The free check-in slot put in front of the first day. */
  function CheckIn(i: nat): Activity {
    Activity(ActivityId(i, "checkin"), "Hotel Check-in", Accommodation, "02:00 PM", "30 minutes", 0,
             "Check into your accommodation", "Hotel/Resort")
  }

  /** `activities.reduce((sum, a) => sum + a.cost, 0)`. */
  function SumCosts(activities: seq<Activity>): int {
    if activities == [] then 0 else activities[0].cost + SumCosts(activities[1..])
  }

  /** The number of loop iterations: the inclusive span of days, none when
      the end precedes the start, and none when a date is missing (the day
      count is then NaN and `i < NaN` is false). */
  function DayCount(data: TripPlanData): nat {
    match (data.startDate, data.endDate)
    case (Day(s), Day(e)) => if e - s + 1 > 0 then e - s + 1 else 0
    case _ => 0
  }

  function StartDay(data: TripPlanData): int {
    match data.startDate
    case Day(s) => s
    case NoDate => 0
  }

  /** What day `k` (counted from 0) of the generated itinerary is. */
  function PlannedDay(data: TripPlanData, k: nat): DayPlan {
    var activities := if k == 0 then [CheckIn(0)] + DayTemplate(data, 0) else DayTemplate(data, k);
    DayPlan(k + 1, StartDay(data) + k, activities, SumCosts(activities), "2-3 hours")
  }

  ghost predicate IsItineraryFor(itinerary: seq<DayPlan>, data: TripPlanData) {
    && |itinerary| == DayCount(data)
    && forall k :: 0 <= k < |itinerary| ==> itinerary[k] == PlannedDay(data, k)
  }

  /** `generateSampleItinerary`. */
  method GenerateSampleItinerary(data: TripPlanData) returns (itinerary: seq<DayPlan>)
    ensures |itinerary| == DayCount(data)
    ensures forall k :: 0 <= k < |itinerary| ==> itinerary[k] == PlannedDay(data, k)
  {
    itinerary := [];
    if data.startDate.NoDate? || data.endDate.NoDate? {
      return;
    }
    var startDate := data.startDate.ordinal;
    var days := data.endDate.ordinal - startDate + 1;
    var i := 0;
    while i < days
      invariant 0 <= i && (i <= days || i == 0)
      invariant |itinerary| == i
      invariant forall k :: 0 <= k < i ==> itinerary[k] == PlannedDay(data, k)
    {
      var currentDate := startDate + i;
      var activities := DayTemplate(data, i);
      if i == 0 {
        activities := [CheckIn(i)] + activities;
      }
      var totalCost := SumCosts(activities);
      itinerary := itinerary + [DayPlan(i + 1, currentDate, activities, totalCost, "2-3 hours")];
      i := i + 1;
    }
  }

  // ---------------------------------------------------------------------
  // Properties of the generated days

  /** What one day costs at a tier: 1400 on 'budget', 3200 on 'mid', 6000 otherwise. */
  function DailyTierCost(tier: string): int {
    TierPrice(tier, 1400, 3200, 6000)
  }

  function SlotNames(k: nat): seq<string> {
    (if k == 0 then ["checkin"] else []) + ["breakfast", "attraction1", "lunch", "attraction2", "dinner"]
  }

  /** Day 1 has the check-in at index 0 followed by the five template slots;
      every other day has exactly the five template slots. Both attractions
      are at the destination, and only the check-in is an accommodation slot. */
  lemma DaySlots(data: TripPlanData, k: nat)
    ensures var a := PlannedDay(data, k).activities;
      && |a| == (if k == 0 then 6 else 5)
      && (k == 0 ==> a[0] == CheckIn(0) && a[0].cost == 0 && a[1..] == DayTemplate(data, 0))
      && (k > 0 ==> a == DayTemplate(data, k))
      && (forall j :: 0 <= j < |a| ==> a[j].id == ActivityId(k, SlotNames(k)[j]))
      && (forall j :: 0 <= j < |a| ==> (a[j].kind == Accommodation <==> k == 0 && j == 0))
  {
    var a := PlannedDay(data, k).activities;
    if k == 0 {
      assert a[1..] == DayTemplate(data, 0);
    }
  }

  /** The template's order: breakfast, main attraction, lunch, secondary
      attraction, dinner, the two attractions located at the destination. */
  lemma TemplateOrder(data: TripPlanData, i: nat)
    ensures var t := DayTemplate(data, i);
      && |t| == 5
      && t[0].name == "Breakfast" && t[1].name == "Main Attraction " + NatToString(i + 1)
      && t[2].name == "Lunch" && t[3].name == "Secondary Attraction " + NatToString(i + 1)
      && t[4].name == "Dinner"
      && t[0].kind == Meal && t[1].kind == Attraction && t[2].kind == Meal
      && t[3].kind == Attraction && t[4].kind == Meal
      && t[1].location == data.destination && t[3].location == data.destination
  {
  }

  lemma SumCostsOfFive(a: seq<Activity>)
    requires |a| == 5
    ensures SumCosts(a) == a[0].cost + a[1].cost + a[2].cost + a[3].cost + a[4].cost
  {
    var a1 := a[1..];
    var a2 := a1[1..];
    var a3 := a2[1..];
    var a4 := a3[1..];
    assert a4[1..] == [];
    assert SumCosts(a4) == a[4].cost;
    assert SumCosts(a3) == a[3].cost + SumCosts(a4);
    assert SumCosts(a2) == a[2].cost + SumCosts(a3);
    assert SumCosts(a1) == a[1].cost + SumCosts(a2);
  }

  /** Every day, including day 1 with its free check-in, costs the tier's daily total. */
  lemma DayTotal(data: TripPlanData, k: nat)
    ensures PlannedDay(data, k).totalCost == DailyTierCost(data.budget)
  {
    var t := DayTemplate(data, k);
    SumCostsOfFive(t);
    if k == 0 {
      var a := [CheckIn(0)] + t;
      assert a[1..] == t;
    }
  }

  /** Day `k` is numbered `k + 1` and falls `k` days after the start, so
      days come in ascending date order. */
  lemma DayDates(data: TripPlanData, j: nat, k: nat)
    requires data.startDate.Day?
    requires j < k
    ensures PlannedDay(data, k).day == k + 1
    ensures PlannedDay(data, k).date == data.startDate.ordinal + k
    ensures PlannedDay(data, j).date < PlannedDay(data, k).date
  {
  }

  /** Neither the number of travelers nor the interests change the plan. */
  lemma PlanIgnoresTravelersAndInterests(data: TripPlanData, k: nat, travelers: int, interests: seq<string>)
    ensures PlannedDay(data.(travelers := travelers, interests := interests), k) == PlannedDay(data, k)
  {
  }

  /** The id of a slot names its day index and its slot name. */
  lemma ActivityIdAt(data: TripPlanData, k: nat, j: nat)
    requires j < |PlannedDay(data, k).activities|
    ensures |SlotNames(k)| == |PlannedDay(data, k).activities|
    ensures PlannedDay(data, k).activities[j].id == ActivityId(k, SlotNames(k)[j])
  {
    DaySlots(data, k);
  }

  /** An id determines the day index and the slot name it was made from. */
  lemma {:induction false} ActivityIdInjective(k1: nat, s1: string, k2: nat, s2: string)
    requires ActivityId(k1, s1) == ActivityId(k2, s2)
    ensures k1 == k2 && s1 == s2
  {
    var n1, n2 := NatToString(k1), NatToString(k2);
    assert "day-" + n1 + "-" + s1 == "day-" + (n1 + ['-'] + s1);
    assert "day-" + n2 + "-" + s2 == "day-" + (n2 + ['-'] + s2);
    assert n1 + ['-'] + s1 == ("day-" + (n1 + ['-'] + s1))[4..];
    assert n2 + ['-'] + s2 == ("day-" + (n2 + ['-'] + s2))[4..];
    assert '-' !in n1;
    assert '-' !in n2;
    SplitAtSeparator(n1, s1, n2, s2, '-');
    NatToStringInjective(k1, k2);
  }

  lemma SlotNamesDistinct(k: nat, i: nat, j: nat)
    requires i < j < |SlotNames(k)|
    ensures SlotNames(k)[i] != SlotNames(k)[j]
  {
  }

  /** Activity ids are unique across the whole itinerary. */
  lemma {:induction false} ActivityIdsUnique(data: TripPlanData, k1: nat, j1: nat, k2: nat, j2: nat)
    requires j1 < |PlannedDay(data, k1).activities| && j2 < |PlannedDay(data, k2).activities|
    requires k1 != k2 || j1 != j2
    ensures PlannedDay(data, k1).activities[j1].id != PlannedDay(data, k2).activities[j2].id
  {
    ActivityIdAt(data, k1, j1);
    ActivityIdAt(data, k2, j2);
    var s1, s2 := SlotNames(k1)[j1], SlotNames(k2)[j2];
    if ActivityId(k1, s1) == ActivityId(k2, s2) {
      ActivityIdInjective(k1, s1, k2, s2);
      if j1 < j2 { SlotNamesDistinct(k1, j1, j2); } else { SlotNamesDistinct(k1, j2, j1); }
    }
  }

  /** `getTotalTripCost`: the sum of the day totals. */
  function SumDayTotals(days: seq<DayPlan>): int {
    if days == [] then 0 else days[0].totalCost + SumDayTotals(days[1..])
  }

  /** The trip total is the number of days times the tier's daily total. */
  lemma {:induction false} TripTotal(itinerary: seq<DayPlan>, data: TripPlanData)
    requires IsItineraryFor(itinerary, data)
    ensures SumDayTotals(itinerary) == |itinerary| * DailyTierCost(data.budget)
  {
    TripTotalFrom(itinerary, data, 0);
  }

  lemma {:induction false} TripTotalFrom(itinerary: seq<DayPlan>, data: TripPlanData, n: nat)
    requires n <= |itinerary|
    requires forall k :: 0 <= k < |itinerary| ==> itinerary[k] == PlannedDay(data, k)
    ensures SumDayTotals(itinerary[n..]) == (|itinerary| - n) * DailyTierCost(data.budget)
    decreases |itinerary| - n
  {
    if n < |itinerary| {
      TripTotalFrom(itinerary, data, n + 1);
      DayTotal(data, n);
      assert itinerary[n..][1..] == itinerary[n + 1..];
    }
  }

  // ---------------------------------------------------------------------
  // Page steps

  datatype Step = FormStep | Generating | Results

  class TripPlannerPage {
    var currentStep: Step
    var tripData: Option<TripPlanData>
    var generatedItinerary: seq<DayPlan>

    /** The form step has no data and no plan; while generating the submitted
        data is kept; the results step shows the plan for that data. */
    ghost predicate Valid()
      reads this
    {
      && (currentStep == FormStep ==> tripData == None && generatedItinerary == [])
      && (currentStep == Generating ==> tripData.Some? && generatedItinerary == [])
      && (currentStep == Results ==> tripData.Some? && IsItineraryFor(generatedItinerary, tripData.value))
    }

    constructor ()
      ensures Valid()
      ensures currentStep == FormStep && tripData == None && generatedItinerary == []
    {
      currentStep := FormStep;
      tripData := None;
      generatedItinerary := [];
    }

    /** `handleTripSubmit` up to its delay: the form is only shown, and so
        only submitted, in the form step. */
    method HandleTripSubmit(data: TripPlanData)
      requires Valid() && currentStep == FormStep
      modifies this
      ensures Valid()
      ensures currentStep == Generating && tripData == Some(data)
      ensures generatedItinerary == old(generatedItinerary)
    {
      tripData := Some(data);
      currentStep := Generating;
    }

    /** The rest of `handleTripSubmit`, once the delay has passed. Nothing can
        change the submitted data in between, so it is the stored one. */
    method FinishGeneration()
      requires Valid() && currentStep == Generating
      modifies this
      ensures Valid()
      ensures currentStep == Results && tripData == old(tripData)
      ensures IsItineraryFor(generatedItinerary, tripData.value)
    {
      var itinerary := GenerateSampleItinerary(tripData.value);
      generatedItinerary := itinerary;
      currentStep := Results;
    }

    /** "Plan Another Trip", shown on the results step. */
    method PlanAnotherTrip()
      requires Valid() && currentStep == Results
      modifies this
      ensures Valid()
      ensures currentStep == FormStep && tripData == None && generatedItinerary == []
    {
      currentStep := FormStep;
      tripData := None;
      generatedItinerary := [];
    }

    /** `getTotalTripCost`. */
    function TotalTripCost(): (r: int)
      reads this
      requires Valid()
      ensures currentStep == Results ==> r == |generatedItinerary| * DailyTierCost(tripData.value.budget)
      ensures currentStep != Results ==> r == 0
    {
      if currentStep == Results then TripTotal(generatedItinerary, tripData.value); SumDayTotals(generatedItinerary)
      else SumDayTotals(generatedItinerary)
    }
  }
}
