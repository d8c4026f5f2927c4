/** internal/agent/eino/nodes.go: from the places found to a validated plan, without a language model. */
module Planning {
  import opened Wrappers
  import opened Text
  import opened Brief
  import opened TravelPlan
  import Numbers
  import I = Itinerary
  import B = BudgetTool

  function InterestsText(interests: seq<string>): string {
    if |interests| == 0 then "city exploration"
    else if |interests| == 1 then interests[0]
    else interests[0] + " and " + interests[1]
  }

  /** itineraryReason. */
  function Reason(req: TravelRequest, interests: seq<string>, poi: Poi): string {
    "matches " + InterestsText(interests) + " preference in " + TrimSpace(req.destinationCity)
    + (if I.ContainsAny(poi.name, req.mustVisit) then "; marked as must-visit by the user" else "")
    + (if IsLowWalkingTolerance(req.walkingTolerance) then "; keeps walking intensity low" else "")
    + (if req.travelers > 0 then "; planned for " + Numbers.Print(req.travelers) + " travelers" else "")
  }

  /** generateDeterministicTravelPlan; `amount` is the printed budget. */
  function DeterministicPlan(req: TravelRequest, amount: string, days: seq<Day>, budget: Budget,
      warnings: seq<string>): Plan {
    Plan(
      TrimSpace(req.destinationCity) + (Numbers.Print(req.days) + "-day Eino travel plan"),
      "Eino workflow planned " + (Numbers.Print(req.days) + " days in " + TrimSpace(req.destinationCity) + " from "
      + req.departureCity + " with budget " + amount + "."),
      days, budget,
      warnings + ["EinoTravelPlanner uses deterministic mock tools; no real LLM or external API was called."])
  }

  /** A place whose visit passes validatePlanNode. */
  predicate PlaceOk(poi: Poi) {
    poi.name != "" && poi.category != "" && poi.estimatedCost >= 0.0 && poi.duration >= 0 && CostOk(poi.cost)
  }

  /** Every place visited on this day is one whose visit passes. */
  ghost predicate DayVisitsOk(places: seq<Poi>, number: nat, k: nat)
    requires places != [] && number > 0
  {
    forall slot | 0 <= slot < k :: PlaceOk(places[I.Turn(number, slot, k, |places|)])
  }

  ghost predicate VisitsOk(places: seq<Poi>, days: nat, k: nat)
    requires places != []
  {
    forall number | 1 <= number <= days :: DayVisitsOk(places, number, k)
  }

  lemma PartsAreNotBlank(before: string, s: string)
    requires NotBlank(s)
    ensures NotBlank(before + s)
  {
  }

  lemma TitleIsNotBlank(days: int, rest: string)
    ensures NotBlank(Numbers.Print(days) + rest)
    ensures NotBlank("Eino workflow planned " + rest)
  {
    var digits := Numbers.Print(days);
    assert digits[0] in digits + rest && !IsSpace(digits[0]);
    assert ("Eino workflow planned " + rest)[0] == 'E';
    assert 'E' in "Eino workflow planned " + rest;
  }

  lemma PlanIsNamed(req: TravelRequest, amount: string, days: seq<Day>, budget: Budget, warnings: seq<string>)
    ensures var plan := DeterministicPlan(req, amount, days, budget, warnings);
            NotBlank(plan.title) && NotBlank(plan.summary)
  {
    hide NotBlank;
    TitleIsNotBlank(req.days, "-day Eino travel plan");
    PartsAreNotBlank(TrimSpace(req.destinationCity), Numbers.Print(req.days) + "-day Eino travel plan");
    TitleIsNotBlank(req.days, Numbers.Print(req.days) + " days in " + TrimSpace(req.destinationCity) + " from "
                              + req.departureCity + " with budget " + amount + ".");
  }

  lemma DayPassesIff(day: Day, number: nat, k: nat, places: seq<Poi>, reason: Poi -> string)
    requires places != [] && number > 0 && k > 0 && I.IsDay(day, number, k, places, reason)
    requires forall poi :: reason(poi) != ""
    ensures DayOk(day, number) <==> DayVisitsOk(places, number, k)
  {
    hide I.Turn, CostOk;
    assert forall slot | 0 <= slot < k :: day.items[slot] in day.items;
    assert forall slot | 0 <= slot < k ::
        ItemOk(day.items[slot]) == PlaceOk(places[I.Turn(number, slot, k, |places|)]);
    hide ItemOk, PlaceOk;
  }

  lemma DaysPassIff(days: seq<Day>, k: nat, places: seq<Poi>, reason: Poi -> string)
    requires places != [] && k > 0 && I.AreDays(days, k, places, reason)
    requires forall poi :: reason(poi) != ""
    ensures (forall i | 0 <= i < |days| :: DayOk(days[i], i + 1)) <==> VisitsOk(places, |days|, k)
  {
    hide DayOk, DayVisitsOk, I.IsDay;
    forall i | 0 <= i < |days|
      ensures DayOk(days[i], i + 1) <==> DayVisitsOk(places, i + 1, k)
    {
      DayPassesIff(days[i], i + 1, k, places, reason);
    }
    if forall i | 0 <= i < |days| :: DayOk(days[i], i + 1) {
      forall number | 1 <= number <= |days|
        ensures DayVisitsOk(places, number, k)
      {
        assert DayOk(days[number - 1], number - 1 + 1);
      }
    }
  }

  /** Every item of the itinerary has the cost of a place. */
  lemma {:induction false} ItemCosts(days: seq<Day>, k: nat, places: seq<Poi>, reason: Poi -> string)
    requires places != [] && I.AreDays(days, k, places, reason)
    requires forall poi | poi in places :: PlaceOk(poi)
    ensures forall item | item in B.AllItems(days) :: CostOk(item.cost)
  {
    hide CostOk, I.Turn;
    if days != [] {
      var n := |days| - 1;
      ItemCosts(days[..n], k, places, reason);
      var day := days[n];
      assert I.IsDay(day, n + 1, k, places, reason);
      forall item | item in day.items
        ensures CostOk(item.cost)
      {
        var slot :| 0 <= slot < k && day.items[slot] == item;
        assert places[I.Turn(n + 1, slot, k, |places|)] in places;
      }
    }
  }

  /** Places and routes with valid costs give a budget that passes. */
  lemma {:induction false} GoodCostsPass(
      days: seq<Day>, k: nat, places: seq<Poi>, reason: Poi -> string, routes: seq<Cost>,
      travelers: int, intercity: bool)
    requires places != [] && I.AreDays(days, k, places, reason)
    requires forall poi | poi in places :: PlaceOk(poi)
    requires forall cost | cost in routes :: CostOk(cost)
    ensures var items := B.AllItems(days);
            var b := B.BudgetOf(B.Charges(items, places, travelers, B.Food),
                B.Charges(items, places, travelers, B.Ticket),
                                B.RouteCharges(routes, travelers), intercity);
            BudgetOk(b) && B.BreakdownOk(b) && b.total >= 0.0
  {
    hide I.AreDays, PlaceOk, CostOk, B.BudgetOf, B.Charges, B.RouteCharges, BudgetOk, B.BreakdownOk;
    var items := B.AllItems(days);
    ItemCosts(days, k, places, reason);
    B.ChargesNonNegative(items, places, travelers, B.Food);
    B.ChargesNonNegative(items, places, travelers, B.Ticket);
    B.RouteChargesNonNegative(routes, travelers);
    B.BudgetPasses(B.Charges(items, places, travelers, B.Food), B.Charges(items, places, travelers, B.Ticket),
                   B.RouteCharges(routes, travelers), intercity);
  }

  /** Good places all the way: every visit passes. */
  lemma GoodPlacesPass(places: seq<Poi>, days: nat, k: nat)
    requires places != [] && forall poi | poi in places :: PlaceOk(poi)
    ensures VisitsOk(places, days, k)
  {
  }

  predicate AllGood(pois: seq<Poi>, routes: seq<Cost>) {
    (forall poi | poi in pois :: PlaceOk(poi)) && (forall cost | cost in routes :: CostOk(cost))
  }

  lemma ReasonIsGiven(req: TravelRequest, interests: seq<string>, poi: Poi)
    ensures Reason(req, interests, poi) != ""
  {
  }

  function ReasonFor(req: TravelRequest, interests: seq<string>): Poi -> string {
    poi => Reason(req, interests, poi)
  }

  /** The budget of these days: BudgetShown says what it shows. */
  function BudgetFor(req: TravelRequest, places: seq<Poi>, routes: seq<Cost>, days: seq<Day>, travelers: int): Budget {
    var items := B.AllItems(days);
    B.BudgetOf(B.Charges(items, places, travelers, B.Food), B.Charges(items, places, travelers, B.Ticket),
               B.RouteCharges(routes, travelers), B.NeedsIntercityTransport(req))
  }

  /**
    The nodes from the itinerary to the finished plan. `ok` is false when a node returns an error. The
    plan passes validatePlanNode exactly when the places visited have names, categories and valid costs
    and the total is not negative; with good places and routes it always does, and so does its budget.
   */
  method MakePlan(req: TravelRequest, interests: seq<string>, amount: string, pois: array<Poi>, routes: seq<Cost>,
                  warnings: seq<string>)
    returns (plan: Plan, ok: bool)
    ensures ok <==> pois.Length > 0 && req.budget > 0.0 && req.days > 0
    ensures ok ==>
              var places := I.Preferred(pois[..], req);
              && places != [] && |plan.days| == req.days
              && (PlanOk(plan) <==>
                  plan.budget.total >= 0.0 && VisitsOk(places, req.days, I.ItemsPerDay(req.pace, req.walkingTolerance)))
    ensures ok ==>
              var places, travelers := I.Preferred(pois[..], req), if req.travelers <= 0 then 1 else req.travelers;
              && plan.budget == BudgetFor(req, places, routes, plan.days, travelers)
              && places != []
              && I.ShowInTurn(plan.days, places, I.ItemsPerDay(req.pace, req.walkingTolerance),
                 ReasonFor(req, interests))
              && plan.title == TrimSpace(req.destinationCity) + (Numbers.Print(req.days) + "-day Eino travel plan")
              && |plan.warnings| == |warnings| + 1 && plan.warnings[..|warnings|] == warnings
    ensures ok && AllGood(pois[..], routes) ==> PlanOk(plan) && BudgetOk(plan.budget) && B.BreakdownOk(plan.budget)
  {
    hide I.Preferred, I.AreDays, I.ShowInTurn, I.ItemsPerDay, PlaceOk, CostOk, Reason, NotBlank, VisitsOk,
         BudgetOk, PlanOk,
         B.BreakdownOk, B.BudgetOf, B.Charges, B.RouteCharges, B.NeedsIntercityTransport, IsIntensivePace,
         IsLowWalkingTolerance, I.NamedOn, I.NamedShare, I.Shown, Numbers.Print;
    var reason := ReasonFor(req, interests);
    var places, days, found := I.OptimizeItinerary(pois, req, reason);
    ghost var k := I.ItemsPerDay(req.pace, req.walkingTolerance);
    plan := DeterministicPlan(req, amount, [], B.BudgetOf([], [], [], false), []);
    if !found {
      return plan, false;
    }
    var budget := B.Run(req, req.days, places[..], routes, days);
    if budget.None? {
      return plan, false;
    }
    I.DaysShowPlaces(days, k, places[..], reason);
    FinishedPlan(req, interests, amount, places[..], days, routes, warnings, k, reason);
    KeptAreGood(pois[..], req);
    plan := DeterministicPlan(req, amount, days, budget.value, warnings);
    return plan, true;
  }

  lemma KeptAreGood(pois: seq<Poi>, req: TravelRequest)
    ensures (forall poi | poi in pois :: PlaceOk(poi)) ==> forall poi | poi in I.Preferred(pois, req) :: PlaceOk(poi)
  {
    hide PlaceOk, I.Preferred, I.Avoided;
    I.AvoidedOnlyIfAllAre(pois, req);
  }

  lemma {:induction false} FinishedPlan(req: TravelRequest, interests: seq<string>, amount: string, places: seq<Poi>,
      days: seq<Day>,
                     routes: seq<Cost>, warnings: seq<string>, k: nat, reason: Poi -> string)
    requires places != [] && k > 0 && days != [] && I.AreDays(days, k, places, reason)
    requires forall poi :: reason(poi) == Reason(req, interests, poi)
    ensures var travelers := if req.travelers <= 0 then 1 else req.travelers;
            var items := B.AllItems(days);
            var budget := B.BudgetOf(B.Charges(items, places, travelers, B.Food),
                B.Charges(items, places, travelers, B.Ticket),
                                     B.RouteCharges(routes, travelers), B.NeedsIntercityTransport(req));
            var plan := DeterministicPlan(req, amount, days, budget, warnings);
            && (PlanOk(plan) <==> budget.total >= 0.0 && VisitsOk(places, |days|, k))
            && (AllGood(places, routes) ==> PlanOk(plan) && BudgetOk(budget) && B.BreakdownOk(budget))
  {
    hide I.AreDays, PlaceOk, CostOk, B.BudgetOf, B.Charges, B.RouteCharges, BudgetOk, B.BreakdownOk,
         B.NeedsIntercityTransport,
      VisitsOk, PlanOk, Reason, DeterministicPlan;
    var travelers := if req.travelers <= 0 then 1 else req.travelers;
    var items := B.AllItems(days);
    var intercity := B.NeedsIntercityTransport(req);
    var food, ticket := B.Charges(items, places, travelers, B.Food), B.Charges(items, places, travelers, B.Ticket);
    var route := B.RouteCharges(routes, travelers);
    CurrencyAndTotal(food, ticket, route, intercity);
    forall poi
      ensures reason(poi) != ""
    {
      ReasonIsGiven(req, interests, poi);
    }
    PlanPassesIff(req, amount, places, days, B.BudgetOf(food, ticket, route, intercity), warnings, k, reason);
    if AllGood(places, routes) {
      GoodCostsPass(days, k, places, reason, routes, travelers, intercity);
      GoodPlacesPass(places, |days|, k);
    }
  }

  lemma CurrencyAndTotal(food: seq<real>, ticket: seq<real>, transport: seq<real>, intercity: bool)
    ensures var b := B.BudgetOf(food, ticket, transport, intercity); b.currency != "" && b.total == b.knownTotal
  {
  }

  lemma PlanPassesIff(req: TravelRequest, amount: string, places: seq<Poi>, days: seq<Day>, budget: Budget,
                      warnings: seq<string>, k: nat, reason: Poi -> string)
    requires places != [] && k > 0 && days != [] && I.AreDays(days, k, places, reason)
    requires forall poi :: reason(poi) != ""
    requires budget.currency != "" && budget.total == budget.knownTotal
    ensures PlanOk(DeterministicPlan(req, amount, days, budget, warnings)) <==>
            budget.total >= 0.0 && VisitsOk(places, |days|, k)
  {
    hide I.AreDays, VisitsOk, DayOk, NotBlank;
    PlanIsNamed(req, amount, days, budget, warnings);
    DaysPassIff(days, k, places, reason);
  }
}
