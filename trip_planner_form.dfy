/** The trip planner form: the data it collects, the defaults it starts
    from, and the interest check-boxes. */
module TripPlannerForm {
  import opened Seqs

  /** A date input's value: empty (or not a date), or a calendar day given
      as a day number counted from a fixed epoch. */
  datatype DateField = NoDate | Day(ordinal: int)

  /** `TripPlanData`. */
  datatype TripPlanData = TripPlanData(
    destination: string,
    startDate: DateField,
    endDate: DateField,
    travelers: int,
    budget: string,
    interests: seq<string>,
    accommodationType: string,
    transportMode: string)

  /** `Partial<TripPlanData>`: every field may be missing. */
  datatype InitialData = InitialData(
    destination: Option<string>,
    startDate: Option<DateField>,
    endDate: Option<DateField>,
    travelers: Option<int>,
    budget: Option<string>,
    interests: Option<seq<string>>,
    accommodationType: Option<string>,
    transportMode: Option<string>)

  /** `initialData?.travelers || 1`: a missing value and the falsy 0 both give 1. */
  function TravelersOr1(init: Option<InitialData>): int {
    if init.Some? && init.value.travelers.Some? && init.value.travelers.value != 0
    then init.value.travelers.value
    else 1
  }

  /** The form's starting state. For strings `x || ''` gives '' for both a
      missing value and '' itself; an empty list is truthy, so a given
      interest list is kept as it is. */
  function InitialFormData(init: Option<InitialData>): (r: TripPlanData)
    ensures r.travelers != 0
    ensures init.None? ==> r == TripPlanData("", NoDate, NoDate, 1, "", [], "", "")
    ensures init.Some? && init.value.travelers == Some(0) ==> r.travelers == 1
    ensures forall t :: init.Some? && init.value.travelers == Some(t) && t != 0 ==> r.travelers == t
    ensures init.Some? ==>
              && r.destination == init.value.destination.GetOr("")
              && r.startDate == init.value.startDate.GetOr(NoDate)
              && r.endDate == init.value.endDate.GetOr(NoDate)
              && r.budget == init.value.budget.GetOr("")
              && r.interests == init.value.interests.GetOr([])
              && r.accommodationType == init.value.accommodationType.GetOr("")
              && r.transportMode == init.value.transportMode.GetOr("")
  {
    match init
    case None => TripPlanData("", NoDate, NoDate, 1, "", [], "", "")
    case Some(d) =>
      TripPlanData(
        d.destination.GetOr(""), d.startDate.GetOr(NoDate), d.endDate.GetOr(NoDate),
        TravelersOr1(init), d.budget.GetOr(""), d.interests.GetOr([]),
        d.accommodationType.GetOr(""), d.transportMode.GetOr(""))
  }

  // ---------------------------------------------------------------------
  // Interests

  /** `interests.filter(i => i !== x)`. */
  function Without(s: seq<string>, x: string): (r: seq<string>)
    ensures x !in r
    ensures forall y :: y != x ==> multiset(r)[y] == multiset(s)[y]
  {
    if s == [] then []
    else
      assert s == [s[0]] + s[1..];
      if s[0] == x then Without(s[1..], x) else [s[0]] + Without(s[1..], x)
  }

  lemma {:induction false} WithoutAbsent(s: seq<string>, x: string)
    requires x !in s
    ensures Without(s, x) == s
  {
    if s != [] {
      assert x !in s[1..];
      WithoutAbsent(s[1..], x);
    }
  }

  lemma {:induction false} WithoutAppend(s: seq<string>, t: seq<string>, x: string)
    ensures Without(s + t, x) == Without(s, x) + Without(t, x)
  {
    if s != [] {
      assert (s + t)[1..] == s[1..] + t;
      WithoutAppend(s[1..], t, x);
    } else {
      assert s + t == t;
    }
  }

  lemma {:induction false} WithoutIdempotent(s: seq<string>, x: string)
    ensures Without(Without(s, x), x) == Without(s, x)
  {
    WithoutAbsent(Without(s, x), x);
  }

  /** Removal keeps the other interests in their order, and removing a
      present interest shortens the list. */
  lemma {:induction false} WithoutIsSubsequence(s: seq<string>, x: string)
    ensures IsSubsequence(Without(s, x), s)
    ensures |Without(s, x)| <= |s|
    ensures x in s ==> |Without(s, x)| < |s|
    decreases |s|
  {
    if s != [] {
      WithoutIsSubsequence(s[1..], x);
      var w := Without(s[1..], x);
      assert s == [s[0]] + s[1..];
      if s[0] == x {
        if w != [] {
          SkipHeadSubsequence(w, s);
        }
      } else {
        assert ([s[0]] + w)[1..] == w;
      }
    }
  }

  /** `handleInterestToggle`'s new list: a selected interest is removed
      (every occurrence of it), an unselected one is appended at the end. */
  function ToggleInterest(interests: seq<string>, interest: string): (r: seq<string>)
    ensures interest in r <==> interest !in interests
    ensures forall y :: y != interest ==> multiset(r)[y] == multiset(interests)[y]
    ensures Without(r, interest) == Without(interests, interest)
    ensures interest !in interests ==> r == interests + [interest] && multiset(r)[interest] == 1
    ensures interest in interests ==> IsSubsequence(r, interests) && |r| < |interests|
  {
    if interest in interests then
      WithoutIdempotent(interests, interest);
      WithoutIsSubsequence(interests, interest);
      Without(interests, interest)
    else
      WithoutAppend(interests, [interest], interest);
      assert Without([interest], interest) == [];
      interests + [interest]
  }

  /** Ticking an unticked interest and then unticking it gives back the list. */
  lemma {:induction false} ToggleTwiceRestores(interests: seq<string>, interest: string)
    requires interest !in interests
    ensures ToggleInterest(ToggleInterest(interests, interest), interest) == interests
  {
    var once := interests + [interest];
    assert interest in once;
    WithoutAppend(interests, [interest], interest);
    assert Without([interest], interest) == [];
    WithoutAbsent(interests, interest);
  }

  /** `setFormData(prev => ({ ...prev, interests: .. }))`: only the interest
      list changes. */
  function HandleInterestToggle(form: TripPlanData, interest: string): (r: TripPlanData)
    ensures r.interests == ToggleInterest(form.interests, interest)
    ensures r.(interests := form.interests) == form
  {
    form.(interests := ToggleInterest(form.interests, interest))
  }
}
