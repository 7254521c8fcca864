# TravelPro core, modelled in Dafny

TravelPro is a travel site. A React front end runs over a hard-coded
catalogue, and a Spring back end runs over JPA tables. This project models
the parts of both that hold logic, and proves what they promise.

Front end:

- The Budget Calculator page (`budget_calculator.dfy`): tier rate tables, the
  cost breakdown with its 10% buffer, and the page state (form, calculation,
  results flag).
- The Trip Planner form (`trip_planner_form.dfy`): its defaults and the
  interest toggle.
- The Trip Planner page (`trip_planner.dfy`): the sample itinerary loop, day
  and trip totals, and the form / generating / results steps.
- The catalogue helpers (`catalogue.dfy`) shared by the Destinations page
  (`destinations_page.dfy`: search, filters with budget bands, three sort
  orders) and the Home page (`home_page.dfy`: quick search, filters capped at
  six, the featured slice).

Back end:

- The entities and their tables (`entities.dfy`): tables are sequences, and
  a row's id is its position.
- The administrators' destination store (`admin_destination_service.dfy`):
  a class over a map keyed by id.
- Loading the eight Indian destinations (`data_population_service.dfy`):
  get-or-create of country, state and city, insert-if-absent by slug, and the
  category texts.
- Seeding countries from the REST Countries response
  (`data_seeding_service.dfy`): insert-if-absent by code, first-or-null
  extraction, and a loop that stops at the first exception.
- The 401 answer of the authentication entry point (`jwt_entry_point.dfy`).
- The destination and blog post queries (`destination_repository.dfy`,
  `blog_post_repository.dfy`), as functions over the tables.

`seqs.dfy` (Option, Result, order-preserving filter, prefixes,
subsequences, a stable insertion sort) and `text.dfy` (ASCII lower-casing,
substring and prefix tests, JavaScript whitespace, lexicographic order,
decimal rendering) are generic helpers.

How the model represents the source:

- Money is whole rupees. The budget buffer and total are exact reals, one
  tenth and eleven tenths of the subtotal.
- Front-end ratings are tenths of a star. The back end's `DECIMAL(3,2)`
  rating is hundredths.
- Dates are day ordinals.
- A query without `ORDER BY` returns rows in table order. `ORDER BY` is a
  stable sort. Under `DESC`, NULL sorts first, as in PostgreSQL.
- A JPQL path `d.city.state.country.name` is an inner join: a destination
  whose place does not resolve is not returned.
- A thrown exception becomes a returned error. A `@Transactional` method
  that fails leaves the tables as they were.
- Randomness, the clock and the network become parameters.

## Model

| member | source | states |
|---|---|---|
| BudgetCalculator.Estimate | frontend/src/pages/BudgetCalculatorPage.tsx:36-78 | miscellaneous is one tenth of the five priced components; the total is the six components summed, so it is 11/10 of the five |
| BudgetCalculator.AccommodationIgnoresTravelers | frontend/src/pages/BudgetCalculatorPage.tsx:71 | accommodation is the tier rate times the duration, and changing the number of travelers leaves it unchanged |
| BudgetCalculator.PerPersonPerDayComponents | frontend/src/pages/BudgetCalculatorPage.tsx:72-74 | food, transport and activities are each rate × duration × travelers |
| BudgetCalculator.ShoppingIgnoresDuration | frontend/src/pages/BudgetCalculatorPage.tsx:75 | shopping is rate × travelers, and changing the duration leaves it unchanged |
| BudgetCalculator.UnknownTierCostsNothing | frontend/src/pages/BudgetCalculatorPage.tsx:40-75 | a tier key missing from its table, including the unselected '', contributes 0 and raises no error |
| BudgetCalculator.WorkedExample | frontend/src/pages/BudgetCalculatorPage.tsx:40-78 | 3 days, 2 travelers, mid/mid/private/medium/moderate give 12000, 12000, 12000, 15000, 6000, miscellaneous 5700 and total 62700 |
| BudgetCalculator.WithField | frontend/src/pages/BudgetCalculatorPage.tsx:29-34 | editing one input replaces exactly that field of the form |
| BudgetCalculator.BudgetCalculatorPage.constructor | frontend/src/pages/BudgetCalculatorPage.tsx:15-27 | the page starts with duration 1, travelers 1, every tier '', no calculation and no results |
| BudgetCalculator.BudgetCalculatorPage.HandleInputChange | frontend/src/pages/BudgetCalculatorPage.tsx:29-34 | the form gets the one field replaced; the calculation and the results flag are kept |
| BudgetCalculator.BudgetCalculatorPage.CalculateBudget | frontend/src/pages/BudgetCalculatorPage.tsx:36-90 | the calculation becomes the estimate of the current form and results are shown; the form is unchanged |
| BudgetCalculator.BudgetCalculatorPage.ResetCalculator | frontend/src/pages/BudgetCalculatorPage.tsx:92-105 | the form returns to its initial values, the calculation is cleared and results are hidden |
| TripPlannerForm.InitialFormData | frontend/src/components/trip-planner/TripPlannerForm.tsx:21-30 | missing values default to '', [] and no date; travelers defaults to 1, and an initial 0 also becomes 1 |
| TripPlannerForm.Without | frontend/src/components/trip-planner/TripPlannerForm.tsx:51 | the removed interest is absent afterwards and every other interest keeps its count |
| TripPlannerForm.WithoutAbsent | frontend/src/components/trip-planner/TripPlannerForm.tsx:51 | removing an absent interest gives the list back unchanged |
| TripPlannerForm.WithoutAppend | frontend/src/components/trip-planner/TripPlannerForm.tsx:51 | removal distributes over concatenation, so the other interests keep their relative order |
| TripPlannerForm.WithoutIdempotent | frontend/src/components/trip-planner/TripPlannerForm.tsx:51 | removing twice is removing once |
| TripPlannerForm.WithoutIsSubsequence | frontend/src/components/trip-planner/TripPlannerForm.tsx:51 | removing an interest by `filter` leaves a subsequence of the list, strictly shorter when the interest was present |
| TripPlannerForm.ToggleInterest | frontend/src/components/trip-planner/TripPlannerForm.tsx:50-52 | the interest's membership flips and every other interest keeps its count; an absent interest is appended once at the end; a present one is removed, leaving a shorter subsequence |
| TripPlannerForm.ToggleTwiceRestores | frontend/src/components/trip-planner/TripPlannerForm.tsx:47-54 | toggling an absent interest on and then off gives back the original list |
| TripPlannerForm.HandleInterestToggle | frontend/src/components/trip-planner/TripPlannerForm.tsx:47-54 | only the interests change, and they change by the toggle |
| TripPlanner.GenerateSampleItinerary | frontend/src/pages/TripPlannerPage.tsx:44-133 | the loop yields one day per day of the inclusive span (none when the end precedes the start or a date is missing), and day k is the planned day k |
| TripPlanner.DaySlots | frontend/src/pages/TripPlannerPage.tsx:55-119 | day 1 has the free check-in at index 0 and then the five template slots; every other day has exactly the five; only the check-in is an accommodation slot |
| TripPlanner.TemplateOrder | frontend/src/pages/TripPlannerPage.tsx:55-106 | the template runs breakfast, main attraction, lunch, secondary attraction, dinner, and both attractions are at the destination |
| TripPlanner.DayTotal | frontend/src/pages/TripPlannerPage.tsx:62-121 | every day, day 1 included, costs 1400 on 'budget', 3200 on 'mid' and 6000 on any other tier |
| TripPlanner.DayDates | frontend/src/pages/TripPlannerPage.tsx:51-53 | day k is numbered k + 1, falls k days after the start, and dates ascend |
| TripPlanner.PlanIgnoresTravelersAndInterests | frontend/src/pages/TripPlannerPage.tsx:44-133 | the number of travelers and the interests do not change any planned day |
| TripPlanner.ActivityIdAt | frontend/src/pages/TripPlannerPage.tsx:57-110 | each slot's id is `day-<index>-<slot name>` |
| TripPlanner.ActivityIdInjective | frontend/src/pages/TripPlannerPage.tsx:57 | an id determines the day index and the slot name it was built from |
| TripPlanner.ActivityIdsUnique | frontend/src/pages/TripPlannerPage.tsx:55-119 | two different slots of the itinerary, on the same day or not, have different ids |
| TripPlanner.TripTotal | frontend/src/pages/TripPlannerPage.tsx:135-137 | the trip total is the number of days times the tier's daily total |
| TripPlanner.TripPlannerPage.constructor | frontend/src/pages/TripPlannerPage.tsx:27-29 | the page starts on the form step, with no trip data and an empty itinerary |
| TripPlanner.TripPlannerPage.HandleTripSubmit | frontend/src/pages/TripPlannerPage.tsx:31-35 | submitting moves the form step to generating and stores the submitted data |
| TripPlanner.TripPlannerPage.FinishGeneration | frontend/src/pages/TripPlannerPage.tsx:36-41 | after the delay the itinerary is the one generated for the stored data and the page shows results |
| TripPlanner.TripPlannerPage.PlanAnotherTrip | frontend/src/pages/TripPlannerPage.tsx:347-351 | "Plan Another Trip" returns to the form with no trip data and an empty itinerary |
| TripPlanner.TripPlannerPage.TotalTripCost | frontend/src/pages/TripPlannerPage.tsx:135-137 | on the results step the total is days × the daily tier total; before that it is 0 |
| Catalogue.NarrowByCountry | frontend/src/pages/DestinationsPage.tsx:40-45 | filtering by category and then by country is one filter by both |
| Catalogue.BandsPartition | frontend/src/pages/DestinationsPage.tsx:47-59 | every daily budget lies in exactly one of low (< 5000), medium (5000..15000) and high (> 15000) |
| Catalogue.UnknownBandKeepsAll | frontend/src/pages/DestinationsPage.tsx:46-59 | a band value other than low, medium and high keeps every destination |
| Catalogue.TajMahalIsLowBudget | frontend/src/data/destinations.ts:47-72 | the Taj Mahal's daily budget is 1500 + 800 + 500 = 2800, inside 'low' only |
| DestinationsPage.SearchResults | frontend/src/pages/DestinationsPage.tsx:14-32 | a blank query shows the whole catalogue; otherwise exactly the entries where the lower-cased query occurs in name, city, state, country, category or description, in catalogue order |
| DestinationsPage.SearchFindsByName | frontend/src/pages/DestinationsPage.tsx:23-24 | an entry whose name contains the query is found |
| DestinationsPage.FilteredCatalogue | frontend/src/pages/DestinationsPage.tsx:37-63 | exactly the catalogue entries meeting category, country and budget band, in order; with no filter set, the whole catalogue |
| DestinationsPage.NarrowByBudget | frontend/src/pages/DestinationsPage.tsx:46-59 | the budget filter applied after the two equality filters equals the single combined filter |
| DestinationsPage.UnknownBandIgnored | frontend/src/pages/DestinationsPage.tsx:46-59 | an unknown band value gives the same result as no band |
| DestinationsPage.SortOrderIsTotalPreorder | frontend/src/pages/DestinationsPage.tsx:65-80 | each of the comparators is total and transitive |
| DestinationsPage.SortDestinations | frontend/src/pages/DestinationsPage.tsx:65-82 | a permutation of the list: ascending by name, descending by rating, or ascending by room plus meals at budget tier; an unknown key keeps the order |
| DestinationsPage.NameSortStrict | frontend/src/pages/DestinationsPage.tsx:69-70 | after a name sort, a later entry's name is the same as an earlier one's or not smaller |
| DestinationsPage.SortKeepsTiesInOrder | frontend/src/pages/DestinationsPage.tsx:67-80 | the sort is stable: entries that compare as 0 with a given entry keep their input order |
| DestinationsPage.SortKeepsClassInOrder | frontend/src/pages/DestinationsPage.tsx:67-80 | any filter picking exactly the entries tied with one entry gives the same list before and after the sort |
| DestinationsPage.NameSortKeepsEqualNamesInOrder | frontend/src/pages/DestinationsPage.tsx:69-70 | after a name sort, the entries with one name are listed in their original order |
| DestinationsPage.RatingSortKeepsEqualRatingsInOrder | frontend/src/pages/DestinationsPage.tsx:71-72 | after a rating sort, the entries with one rating are listed in their original order |
| DestinationsPage.BudgetSortKeepsEqualBudgetsInOrder | frontend/src/pages/DestinationsPage.tsx:73-76 | after a budget sort, the entries with one budget are listed in their original order |
| DestinationsPage.DestinationsPage.constructor | frontend/src/pages/DestinationsPage.tsx:9-11 | the page shows the whole catalogue and sorts by name |
| DestinationsPage.DestinationsPage.HandleSearch | frontend/src/pages/DestinationsPage.tsx:14-35 | the shown list becomes the search results over the whole catalogue |
| DestinationsPage.DestinationsPage.HandleFilterChange | frontend/src/pages/DestinationsPage.tsx:37-63 | the shown list becomes the filtered catalogue, never a narrowing of the current list |
| DestinationsPage.DestinationsPage.HandleSort | frontend/src/pages/DestinationsPage.tsx:65-82 | the sort key is stored and the shown list is sorted by it |
| HomePage.InitialResults | frontend/src/pages/HomePage.tsx:9 | the first six catalogue entries, or all of them when there are fewer |
| HomePage.QuickSearch | frontend/src/pages/HomePage.tsx:11-24 | a blank query gives the first six entries; otherwise exactly the entries matching name, city, state or country, in catalogue order |
| HomePage.QuickSearchUncapped | frontend/src/pages/HomePage.tsx:17-23 | a query matching every entry returns all of them, however many there are |
| HomePage.QuickSearchIgnoresCategoryAndDescription | frontend/src/pages/HomePage.tsx:17-22 | an entry matching only through category or description is not found |
| HomePage.FilterResults | frontend/src/pages/HomePage.tsx:26-37 | the first six catalogue entries meeting category and country, in order |
| HomePage.FewMatchesAllShown | frontend/src/pages/HomePage.tsx:36 | when at most six entries match the filters, every match is shown |
| HomePage.FeaturedDestinations | frontend/src/pages/HomePage.tsx:39 | exactly the first three catalogue entries |
| HomePage.HomePage.constructor | frontend/src/pages/HomePage.tsx:9 | the page starts with the first six entries |
| HomePage.HomePage.HandleSearch | frontend/src/pages/HomePage.tsx:11-24 | the results become the quick search over the whole catalogue |
| HomePage.HomePage.HandleFilterChange | frontend/src/pages/HomePage.tsx:26-37 | the results become the capped filter results over the whole catalogue |
| AdminDestinationService.NewDestination | backend/src/main/java/com/travelpro/service/AdminDestinationService.java:34-51 | the new row copies the request's fields, city and featured flag (NULL included), with rating 0, no reviews and active |
| AdminDestinationService.ApplyUpdate | backend/src/main/java/com/travelpro/service/AdminDestinationService.java:64-78 | the slug, city, rating and review count are never changed by an update |
| AdminDestinationService.ApplyUpdateFields | backend/src/main/java/com/travelpro/service/AdminDestinationService.java:64-78 | for each of the fifteen request fields, a non-null value replaces the stored one and a null keeps it |
| AdminDestinationService.EmptyUpdateIsIdentity | backend/src/main/java/com/travelpro/service/AdminDestinationService.java:64-78 | an update with every field null changes nothing |
| AdminDestinationService.UpdateIdempotent | backend/src/main/java/com/travelpro/service/AdminDestinationService.java:64-78 | applying the same update twice is applying it once |
| AdminDestinationService.FullUpdateOverwrites | backend/src/main/java/com/travelpro/service/AdminDestinationService.java:64-78 | an update with every field set gives the same record whatever was stored before |
| AdminDestinationService.ToggledFeatured | backend/src/main/java/com/travelpro/service/AdminDestinationService.java:100 | a non-NULL featured flag is negated and nothing else changes |
| AdminDestinationService.ToggledActive | backend/src/main/java/com/travelpro/service/AdminDestinationService.java:114 | the active flag is negated and nothing else changes |
| AdminDestinationService.ToggleTwiceRestores | backend/src/main/java/com/travelpro/service/AdminDestinationService.java:96-121 | toggling twice restores the record, and the two toggles commute, whenever the featured flag is not NULL |
| AdminDestinationService.AdminDestinationService.CreateDestination | backend/src/main/java/com/travelpro/service/AdminDestinationService.java:30-57 | an unknown city fails with not-found and a slug in use fails, both storing nothing; otherwise the new row is stored under a fresh id; unique slugs are kept |
| AdminDestinationService.AdminDestinationService.UpdateDestination | backend/src/main/java/com/travelpro/service/AdminDestinationService.java:60-84 | an unknown id fails with not-found and changes nothing; otherwise only that entry is replaced by the updated record |
| AdminDestinationService.AdminDestinationService.DeleteDestination | backend/src/main/java/com/travelpro/service/AdminDestinationService.java:87-93 | an unknown id fails with not-found; otherwise exactly that id is removed |
| AdminDestinationService.AdminDestinationService.ToggleFeatured | backend/src/main/java/com/travelpro/service/AdminDestinationService.java:96-107 | an unknown id fails with not-found; a NULL flag fails and changes nothing; otherwise only that entry's featured flag flips |
| AdminDestinationService.AdminDestinationService.ToggleActive | backend/src/main/java/com/travelpro/service/AdminDestinationService.java:110-121 | an unknown id fails with not-found; otherwise only that entry's active flag flips |
| JwtEntryPoint.Commence | backend/src/main/java/com/travelpro/security/JwtAuthenticationEntryPoint.java:27-43 | status 401 in the response and the body; the body has exactly timestamp, status, error "Unauthorized", message and the servlet path; the message is chosen by no header / "Bearer " prefix / any other header |
| JwtEntryPoint.MessagesDistinct | backend/src/main/java/com/travelpro/security/JwtAuthenticationEntryPoint.java:29-36 | the three messages differ, so the message tells the three cases apart |
| JwtEntryPoint.NotBearerExamples | backend/src/main/java/com/travelpro/security/JwtAuthenticationEntryPoint.java:32-35 | "bearer x", "Bearer" and "Basic x" are not bearer headers and "Bearer abc" is: the test is case-sensitive and needs the space |
| DestinationRepository.SearchDestinations | backend/src/main/java/com/travelpro/repository/DestinationRepository.java:26-33 | exactly the active destinations where the lower-cased query occurs in name, description, category, or city, state or country name, in table order |
| DestinationRepository.EmptySearchFindsAllActive | backend/src/main/java/com/travelpro/repository/DestinationRepository.java:27-32 | the empty query finds every active destination whose place resolves |
| DestinationRepository.SearchSkipsInactive | backend/src/main/java/com/travelpro/repository/DestinationRepository.java:26 | an inactive destination is never found |
| DestinationRepository.FindWithFilters | backend/src/main/java/com/travelpro/repository/DestinationRepository.java:35-40 | exactly the active destinations meeting each non-null filter by equality, in table order |
| DestinationRepository.NoFiltersListsActive | backend/src/main/java/com/travelpro/repository/DestinationRepository.java:35-37 | with both filters null, every active destination whose place resolves is listed |
| DestinationRepository.RatingDescIsTotalPreorder | backend/src/main/java/com/travelpro/repository/DestinationRepository.java:42 | descending rating is a total preorder |
| DestinationRepository.SortedPrefixIsTop | backend/src/main/java/com/travelpro/repository/DestinationRepository.java:42 | in a list sorted by descending rating, anything after a prefix rates no higher than the prefix |
| DestinationRepository.FindTop6ByIsActiveOrderByRatingDesc | backend/src/main/java/com/travelpro/repository/DestinationRepository.java:42 | at most six destinations with the given flag, all of them when fewer qualify, by descending rating, none rating below one left out |
| DestinationRepository.TopOfSorted | backend/src/main/java/com/travelpro/repository/DestinationRepository.java:42 | the first six of the sorted candidates have the flag, and no candidate left out rates higher |
| DestinationRepository.FindByIsFeaturedTrueAndIsActiveTrue | backend/src/main/java/com/travelpro/repository/DestinationRepository.java:20 | exactly the destinations whose featured flag is true (not NULL) and that are active, in table order |
| DestinationRepository.InsertCategory | backend/src/main/java/com/travelpro/repository/DestinationRepository.java:44-45 | adding a category keeps the list strictly ascending and adds just that value |
| DestinationRepository.DistinctSorted | backend/src/main/java/com/travelpro/repository/DestinationRepository.java:44-45 | the distinct values of a list, strictly ascending |
| DestinationRepository.FindAllCategories | backend/src/main/java/com/travelpro/repository/DestinationRepository.java:44-45 | exactly the categories of active destinations, each once, ascending |
| BlogPostRepository.SearchBlogPosts | backend/src/main/java/com/travelpro/repository/BlogPostRepository.java:26-30 | exactly the published posts where the lower-cased query occurs in title, content or excerpt, in table order |
| BlogPostRepository.EmptySearchFindsAllPublished | backend/src/main/java/com/travelpro/repository/BlogPostRepository.java:26-30 | the empty query finds every published post |
| BlogPostRepository.FindWithFilters | backend/src/main/java/com/travelpro/repository/BlogPostRepository.java:32-34 | a null category gives every published post; otherwise only that category's published posts |
| BlogPostRepository.NewestFirstIsTotalPreorder | backend/src/main/java/com/travelpro/repository/BlogPostRepository.java:20 | `publishedAt DESC` with NULLs first is a total preorder |
| BlogPostRepository.Listing | backend/src/main/java/com/travelpro/repository/BlogPostRepository.java:20-24 | the kept posts, each as often as in the table, newest first |
| BlogPostRepository.ListingOrder | backend/src/main/java/com/travelpro/repository/BlogPostRepository.java:20 | in a listing, later dates come first and undated posts precede dated ones |
| BlogPostRepository.FindByIsPublishedTrueOrderByPublishedAtDesc | backend/src/main/java/com/travelpro/repository/BlogPostRepository.java:20 | exactly the published posts, newest first |
| BlogPostRepository.FindByCategoryIdAndIsPublishedTrueOrderByPublishedAtDesc | backend/src/main/java/com/travelpro/repository/BlogPostRepository.java:22 | exactly the published posts of the category, newest first |
| BlogPostRepository.FindByIsFeaturedTrueAndIsPublishedTrueOrderByPublishedAtDesc | backend/src/main/java/com/travelpro/repository/BlogPostRepository.java:24 | exactly the featured published posts, newest first |
| BlogPostRepository.DraftsAreNeverListed | backend/src/main/java/com/travelpro/repository/BlogPostRepository.java:20-34 | an unpublished post is in no listing, search or filter result |
| DataPopulationService.BestTimeGroups | backend/src/main/java/com/travelpro/service/DataPopulationService.java:143-152 | Mountain, Beach/Nature and Adventure get their seasons; every other category, Historical and Spiritual included, gets "October to March" |
| DataPopulationService.DurationGroups | backend/src/main/java/com/travelpro/service/DataPopulationService.java:154-161 | Historical/Spiritual 1-2 days, Beach/Nature 3-5, Mountain/Adventure 4-7; anything else 2-3 |
| DataPopulationService.ShortDescription | backend/src/main/java/com/travelpro/service/DataPopulationService.java:123 | a prefix of the description, never longer than 100, the whole description when it fits, exactly 100 otherwise |
| DataPopulationService.FeaturedThreshold | backend/src/main/java/com/travelpro/service/DataPopulationService.java:130 | a rating of exactly 4.5 is not featured and 4.6 is |
| DataPopulationService.NewDestination | backend/src/main/java/com/travelpro/service/DataPopulationService.java:117-132 | the new row has the entry's slug and the city, the truncated short description, the rating scaled to hundredths, a non-NULL featured flag that is true iff the rating exceeds 4.5, and is active |
| DataPopulationService.GetOrCreateCountryIn | backend/src/main/java/com/travelpro/service/DataPopulationService.java:83-94 | an existing code returns that row and changes nothing; otherwise a new India row is appended, unless its name is already used, which is the only failure |
| DataPopulationService.GetOrCreateState | backend/src/main/java/com/travelpro/service/DataPopulationService.java:98-104 | the returned id is the first state with that country and name; only the state table can grow, and only when none existed |
| DataPopulationService.GetOrCreateCity | backend/src/main/java/com/travelpro/service/DataPopulationService.java:107-113 | the returned id is the first city with that state and name; only the city table can grow, and only when none existed |
| DataPopulationService.CreateDestinationIn | backend/src/main/java/com/travelpro/service/DataPopulationService.java:96-137 | tables only grow and countries never change; an existing slug adds no destination; otherwise exactly the new row is appended |
| DataPopulationService.CreateAll | backend/src/main/java/com/travelpro/service/DataPopulationService.java:76-78 | the loop only extends the tables and never touches the countries |
| DataPopulationService.CreateDestinationStocks | backend/src/main/java/com/travelpro/service/DataPopulationService.java:96-137 | afterwards the entry's state, city and slug are all present |
| DataPopulationService.CreateDestinationStockedIsIdentity | backend/src/main/java/com/travelpro/service/DataPopulationService.java:96-137 | an entry whose state, city and slug are present changes nothing |
| DataPopulationService.CreateAllStocks | backend/src/main/java/com/travelpro/service/DataPopulationService.java:76-78 | every entry of the loop is present afterwards, whatever came after it |
| DataPopulationService.CreateAllStockedIsIdentity | backend/src/main/java/com/travelpro/service/DataPopulationService.java:76-78 | a loop over entries that are all present changes nothing |
| DataPopulationService.IndianSlugsListed | backend/src/main/java/com/travelpro/service/DataPopulationService.java:42-74 | the eight entries carry the eight listed slugs, in order |
| DataPopulationService.PopulateStocksAll | backend/src/main/java/com/travelpro/service/DataPopulationService.java:35-81 | a run keeps every row and leaves all eight listed slugs present |
| DataPopulationService.PopulateIdempotent | backend/src/main/java/com/travelpro/service/DataPopulationService.java:35-81 | a second run, with any review counts, adds nothing |
| DataPopulationService.GetOrCreateStateValid | backend/src/main/java/com/travelpro/entity/State.java:15-17 | get-or-create keeps one state per (country, name) and every reference resolving |
| DataPopulationService.GetOrCreateCityValid | backend/src/main/java/com/travelpro/entity/City.java:16-18 | get-or-create keeps one city per (state, name) and every reference resolving |
| DataPopulationService.CreateDestinationValid | backend/src/main/java/com/travelpro/service/DataPopulationService.java:96-137 | creating a destination keeps every unique key and every reference |
| DataPopulationService.CreateAllValid | backend/src/main/java/com/travelpro/service/DataPopulationService.java:76-78 | the loop keeps every unique key and every reference |
| DataPopulationService.GetOrCreateCountryValid | backend/src/main/java/com/travelpro/service/DataPopulationService.java:83-94 | a successful get-or-create keeps codes and names unique |
| DataPopulationService.PopulateValid | backend/src/main/java/com/travelpro/service/DataPopulationService.java:34-81 | a run keeps at most one country per code and name, one state per (country, name), one city per (state, name) and one destination per slug |
| DataPopulationService.DataPopulationService.GetOrCreateCountry | backend/src/main/java/com/travelpro/service/DataPopulationService.java:83-94 | the returned id and the new tables are those of the get-or-create; a failure changes nothing |
| DataPopulationService.DataPopulationService.CreateDestination | backend/src/main/java/com/travelpro/service/DataPopulationService.java:96-137 | the tables become those of the create-if-absent, keeping the unique keys |
| DataPopulationService.DataPopulationService.CreateDestinations | backend/src/main/java/com/travelpro/service/DataPopulationService.java:76-78 | the loop leaves the tables as the entry-by-entry creation does |
| DataPopulationService.DataPopulationService.PopulateIndianDestinations | backend/src/main/java/com/travelpro/service/DataPopulationService.java:34-81 | success leaves the tables of the run; a failure reports the clash and, the method being transactional, leaves the tables unchanged |
| DataSeedingService.FirstOrNull | backend/src/main/java/com/travelpro/service/DataSeedingService.java:52-57 | a value exactly when the list is present and non-empty, and then its first element |
| DataSeedingService.FindByCode | backend/src/main/java/com/travelpro/service/DataSeedingService.java:46 | a found row has the code; when none is found no row has it; a null code finds nothing |
| DataSeedingService.NewCountry | backend/src/main/java/com/travelpro/service/DataSeedingService.java:49-58 | built exactly when the name, its common part and cca3 are present; name is name.common, code is cca3, and the other three columns are first-or-null |
| DataSeedingService.SaveOrUpdateCountryIn | backend/src/main/java/com/travelpro/service/DataSeedingService.java:45-63 | an existing code changes nothing and never updates the row; otherwise the built row is appended, or the save fails on a missing field or a name in use |
| DataSeedingService.SeedAll | backend/src/main/java/com/travelpro/service/DataSeedingService.java:35-37 | the loop keeps every row already stored |
| DataSeedingService.Seed | backend/src/main/java/com/travelpro/service/DataSeedingService.java:34-39 | a null response leaves the table unchanged; no run removes a row |
| DataSeedingService.SaveKeepsUnique | backend/src/main/java/com/travelpro/entity/Country.java:27-31 | a successful save keeps codes and names unique |
| DataSeedingService.SeedAllKeepsUnique | backend/src/main/java/com/travelpro/service/DataSeedingService.java:35-37 | the loop keeps codes and names unique |
| DataSeedingService.SaveStoresCode | backend/src/main/java/com/travelpro/service/DataSeedingService.java:46-60 | after a successful save the entry's code is stored |
| DataSeedingService.SeedAllStoresCode | backend/src/main/java/com/travelpro/service/DataSeedingService.java:35-37 | after a run without an exception, every entry's code is stored |
| DataSeedingService.SeedAllStoredIsIdentity | backend/src/main/java/com/travelpro/service/DataSeedingService.java:35-48 | a run over entries whose codes are all stored changes nothing |
| DataSeedingService.SeedIdempotent | backend/src/main/java/com/travelpro/service/DataSeedingService.java:34-48 | re-running a run that ended without an exception is a no-op |
| DataSeedingService.ExistingNeverUpdated | backend/src/main/java/com/travelpro/service/DataSeedingService.java:46-62 | every stored row is still there, unchanged, after any run |
| DataSeedingService.FirstEntryWins | backend/src/main/java/com/travelpro/service/DataSeedingService.java:35-48 | for a new code, the stored row is the one built from the first entry with that code |
| DataSeedingService.SeedAllStopsAtFailure | backend/src/main/java/com/travelpro/service/DataSeedingService.java:28-42 | a failing run processed every entry before the first failing one, stopped there, and reports that entry's error |
| DataSeedingService.DataSeedingService.SaveOrUpdateCountry | backend/src/main/java/com/travelpro/service/DataSeedingService.java:45-63 | the table becomes that of the save, and a thrown exception is returned with the table unchanged |
| DataSeedingService.DataSeedingService.SeedCountriesData | backend/src/main/java/com/travelpro/service/DataSeedingService.java:24-43 | the loop leaves the table and the error of the run over the response |

## Left out

- Rendering, routing and the presentational components are not part of this model: JSX, App, Header, Footer, DestinationCard, SearchBar, SeasonGuidePage and DestinationDetailPage.
- The `setTimeout` delay of the trip submit is modelled as a split into two steps, HandleTripSubmit and FinishGeneration. The delays and loading flags of the other pages are presentation timing and are left out.
- In the form, handleSubmit only forwards the form data unchanged, and the other inputs are plain field writes. They are not modelled separately.
- BudgetCalculator.Estimate: JavaScript's floating-point `* 0.1` is stated exactly, as a tenth. The `NaN` that `parseInt` gives for an empty number input is not modelled: the form holds integers.
- BudgetCalculator.Estimate: a tier key that names an inherited object property such as "constructor" is treated as unknown and costs 0.
- TripPlanner.GenerateSampleItinerary: dates are day ordinals. `Math.ceil` over milliseconds, time zones and daylight saving are not modelled.
- DestinationsPage.SortDestinations: `localeCompare` collation is plain code-point lexicographic order. The array sort is modelled on values as a stable sort of a copy.
- Text: lower-casing covers ASCII only. JavaScript's and PostgreSQL's Unicode case mappings are not modelled.
- DestinationRepository.SearchDestinations: the query is a literal substring. SQL `LIKE` wildcards `%` and `_` typed by a user, and database collation, are not modelled. BlogPostRepository.SearchBlogPosts is read the same way.
- DestinationRepository.FindTop6ByIsActiveOrderByRatingDesc: ties in rating are broken by table order, a choice the database does not promise.
- Pagination (`Page`, `Pageable`), controllers, services that only delegate or cache, mappers and DTO conversion are not part of this model. Every query returns its full result.
- Validation annotations, and column lengths such as the three-character country code, are not modelled. AdminDestinationService.CreateRequest holds a request that has already passed validation. Its `isFeatured` is the field's initialiser `false` when absent and NULL when the JSON says null; the NULL is stored and makes a later toggle fail.
- AdminDestinationService.ApplyUpdate: an explicit JSON `null` and a missing field are the same `None`, as in the source.
- DataPopulationService.CreateDestinationIn: `existsBySlug`, called at backend/src/main/java/com/travelpro/service/DataPopulationService.java:116, is not declared in backend/src/main/java/com/travelpro/repository/DestinationRepository.java, which has only `findBySlug`. The model reads it, as SlugExists, as the query Spring would derive: some destination row has this slug.
- Generated UUID ids are naturals: positions in the population tables, and a counter in the admin store.
- DataPopulationService: `Math.random` review counts are parameters, each in 100..1099. The float rating is integer tenths, so rounding in the `DECIMAL(3,2)` column is not modelled.
- DataPopulationService.Populate takes its list as a parameter. The service always passes the eight-entry list.
- DataSeedingService: the RestTemplate fetch is left out. Its result is the `response` parameter, and a failed fetch is the `None` response.
- DataSeedingService: the `@Scheduled` trigger and logging are left out. A swallowed exception is a returned error.
- DataSeedingService: null elements inside the response array, and null strings inside its lists, are not modelled.
- JwtEntryPoint.Commence: the current time is an already-rendered parameter. Writing the JSON to the servlet output stream is I/O and is left out.
- Authentication itself is not part of this model: token parsing, password checks and the auth controllers.
