/** internal/agent/eino/tools.go, MockBudgetTool: sums of the costs that are known, in exact amounts. */
module BudgetTool {
  import opened Wrappers
  import opened Text
  import opened Brief
  import opened TravelPlan
  import L = LlmWarnings

  /** math.Round(v*100) / 100: to the nearest cent, halves away from zero. */
  function RoundMoney(v: real): real {
    if v >= 0.0 then (v * 100.0 + 0.5).Floor as real / 100.0
    else -((-v * 100.0 + 0.5).Floor as real / 100.0)
  }

  predicate WholeCents(v: real) {
    (v * 100.0).Floor as real == v * 100.0
  }

  lemma Cents(c: int)
    ensures c as real / 100.0 * 100.0 == c as real
    ensures WholeCents(c as real / 100.0)
    ensures (c as real + 0.5).Floor == c
  {
  }

  /** Rounding gives whole cents and leaves whole cents alone. */
  lemma {:induction false} RoundedIsWhole(v: real)
    ensures WholeCents(RoundMoney(v))
    ensures WholeCents(v) ==> RoundMoney(v) == v
    ensures v >= 0.0 ==> RoundMoney(v) >= 0.0
  {
    var up := if v >= 0.0 then (v * 100.0 + 0.5).Floor else (-v * 100.0 + 0.5).Floor;
    Cents(up);
    Cents(-up);
    assert RoundMoney(v) == (if v >= 0.0 then up else -up) as real / 100.0;
    if WholeCents(v) {
      var c := (v * 100.0).Floor;
      Cents(c);
      Cents(-c);
    }
  }

  function Distance(a: real, b: real): real {
    if a >= b then a - b else b - a
  }

  /** Rounding goes to the nearest cent: no further than half a cent, and from the middle away from zero. */
  lemma {:induction false} RoundedIsNearest(v: real)
    ensures Distance(RoundMoney(v), v) <= 0.005
    ensures Distance(RoundMoney(v), v) == 0.005 ==> Distance(RoundMoney(v), 0.0) > Distance(v, 0.0)
    ensures RoundMoney(-v) == -RoundMoney(v)
  {
    var up := if v >= 0.0 then (v * 100.0 + 0.5).Floor else (-v * 100.0 + 0.5).Floor;
    assert RoundMoney(v) == (if v >= 0.0 then up else -up) as real / 100.0;
    if v == 0.0 {
      assert (0.5).Floor == 0;
    }
  }

  lemma {:induction false} WholeSum(a: real, b: real)
    requires WholeCents(a) && WholeCents(b)
    ensures WholeCents(a + b)
  {
    var i, j := (a * 100.0).Floor, (b * 100.0).Floor;
    assert i as real == a * 100.0 && j as real == b * 100.0;
    hide WholeCents;
    assert a == i as real / 100.0 && b == j as real / 100.0;
    assert a + b == (i + j) as real / 100.0;
    Cents(i + j);
  }

  const FOOD_WORDS: seq<string> := ["food", "餐饮", "中餐", "火锅", "料理", "餐厅", "肯德基", "咖啡", "茶"]
  const TICKET_WORDS: seq<string> := [
    "sightseeing", "landmark", "culture", "nature", "景点", "风景", "自然", "文化", "公园", "湿地", "博物馆", "寺"]
  const INTERCITY_WORDS: seq<string> := ["高铁", "火车", "飞机", "往返", "大交通", "跨城"]

  predicate ContainsOneOf(text: string, words: seq<string>) {
    exists w | w in words :: L.Contains(text, w)
  }

  predicate IsFoodCategory(category: string) { ContainsOneOf(ToLower(category), FOOD_WORDS) }

  predicate IsTicketCategory(category: string) { ContainsOneOf(ToLower(category), TICKET_WORDS) }

  function JoinedWith(first: string, rest: seq<string>): string
    decreases |rest|
  {
    if rest == [] then first else JoinedWith(first + " " + rest[0], rest[1..])
  }

  predicate NeedsIntercityTransport(req: TravelRequest) {
    && req.departureCity != "" && req.destinationCity != "" && req.departureCity != req.destinationCity
    && ContainsOneOf(JoinedWith(req.transportMode, req.budgetIncludes), INTERCITY_WORDS)
  }

  predicate Counts(cost: Cost) {
    cost.status == Available && cost.amount.Some? && cost.included
  }

  function BudgetAmount(cost: Cost, travelers: int): real {
    if cost.amount.None? then 0.0
    else cost.amount.value * if cost.unit == "per_person" && travelers > 0 then travelers as real else 1.0
  }

  /** The cost known for a name: that of the last place of that name. */
  function KnownCost(pois: seq<Poi>, name: string): Cost {
    if pois == [] then NO_COST
    else if pois[|pois| - 1].name == name then pois[|pois| - 1].cost
    else KnownCost(pois[..|pois| - 1], name)
  }

  /** What an item costs: its own cost, or that of its place when it has none. */
  function CostOf(item: Item, pois: seq<Poi>): Cost {
    if item.cost.status == Unset then KnownCost(pois, item.name) else item.cost
  }

  datatype Kind = Food | Ticket | Neither

  function KindOf(item: Item): Kind {
    if IsFoodCategory(item.kind) then Food else if IsTicketCategory(item.kind) then Ticket else Neither
  }

  /** The charges of one kind, one for each item that costs something known. */
  function Charges(items: seq<Item>, pois: seq<Poi>, travelers: int, kind: Kind): seq<real> {
    if items == [] then []
    else
      var item := items[|items| - 1];
      Charges(items[..|items| - 1], pois, travelers, kind)
      + if KindOf(item) == kind && Counts(CostOf(item, pois)) then [BudgetAmount(CostOf(item, pois), travelers)] else []
  }

  function RouteCharges(routes: seq<Cost>, travelers: int): seq<real> {
    if routes == [] then []
    else
      var route := routes[|routes| - 1];
      RouteCharges(routes[..|routes| - 1], travelers) + if Counts(route) then [BudgetAmount(route, travelers)] else []
  }

  function Sum(amounts: seq<real>): real {
    if amounts == [] then 0.0 else Sum(amounts[..|amounts| - 1]) + amounts[|amounts| - 1]
  }

  function AllItems(days: seq<Day>): seq<Item> {
    if days == [] then [] else AllItems(days[..|days| - 1]) + days[|days| - 1].items
  }

  function Line(key: string, title: string, amount: real, known: bool): BudgetLine {
    if known then BudgetLine(key, title, Some(amount), Available, true)
    else BudgetLine(key, title, None, Unavailable, false)
  }

  /** The keys of the lines without an amount, in order. */
  function MissingKeys(lines: seq<BudgetLine>): seq<string> {
    if lines == [] then []
    else
      var last := lines[|lines| - 1];
      MissingKeys(lines[..|lines| - 1]) + if last.status == Unavailable then [last.key] else []
  }

  method MissingBudgetKeys(lines: seq<BudgetLine>) returns (missing: seq<string>)
    ensures missing == MissingKeys(lines)
  {
    missing := [];
    for i := 0 to |lines|
      invariant missing == MissingKeys(lines[..i])
    {
      assert lines[..i + 1][..i] == lines[..i];
      if lines[i].status == Unavailable {
        missing := missing + [lines[i].key];
      }
    }
    assert lines[..|lines|] == lines;
  }

  /** The budget of three lists of charges. */
  function BudgetOf(food: seq<real>, ticket: seq<real>, transport: seq<real>, intercity: bool): Budget {
    var f, t, r := RoundMoney(Sum(food)), RoundMoney(Sum(ticket)), RoundMoney(Sum(transport));
    var total := RoundMoney(f + t + r + 0.0);
    var lines := [
      Line("food", "餐饮", f, food != []),
      Line("transport", "市内交通", r, transport != []),
      Line("hotel", "住宿", 0.0, false),
      Line("ticket", "门票", t, ticket != [])];
    var missing := MissingKeys(lines) + if intercity then ["intercity_transport"] else [];
    Budget(r, f, 0.0, t, total, total, missing == [], "CNY",
           lines + (if intercity then [Line("intercity_transport", "往返大交通", 0.0, false)] else []), missing)
  }

  /** The method Run. None is an error: no budget asked for, or no days. */
  method Run(req: TravelRequest, dayCount: int, pois: seq<Poi>, routes: seq<Cost>, days: seq<Day>)
    returns (budget: Option<Budget>)
    ensures budget.None? <==> req.budget <= 0.0 || dayCount <= 0
    ensures budget.Some? ==>
              var travelers := if req.travelers <= 0 then 1 else req.travelers;
              var items := AllItems(days);
              budget.value == BudgetOf(Charges(items, pois, travelers, Food), Charges(items, pois, travelers, Ticket),
                                       RouteCharges(routes, travelers), NeedsIntercityTransport(req))
  {
    hide RoundMoney, NeedsIntercityTransport, Charges, RouteCharges, Sum;
    if req.budget <= 0.0 || dayCount <= 0 {
      return None;
    }
    var travelers := if req.travelers <= 0 then 1 else req.travelers;
    var costs := CostsByName(pois);
    var food, foodKnown, ticket, ticketKnown := AddItems(days, pois, costs, travelers);
    var transport, transportKnown := AddRoutes(routes, travelers);
    food := RoundMoney(food);
    ticket := RoundMoney(ticket);
    transport := RoundMoney(transport);
    var hotel := 0.0;
    var knownTotal := RoundMoney(food + ticket + transport + hotel);
    var lines := [
      Line("food", "餐饮", food, foodKnown),
      Line("transport", "市内交通", transport, transportKnown),
      Line("hotel", "住宿", hotel, false),
      Line("ticket", "门票", ticket, ticketKnown)];
    var missing := MissingBudgetKeys(lines);
    if NeedsIntercityTransport(req) {
      lines := lines + [Line("intercity_transport", "往返大交通", 0.0, false)];
      missing := missing + ["intercity_transport"];
    }
    return Some(Budget(transport, food, hotel, ticket, knownTotal, knownTotal, |missing| == 0, "CNY", lines, missing));
  }

  method CostsByName(pois: seq<Poi>) returns (costs: map<string, Cost>)
    ensures forall name :: KnownCost(pois, name) == if name in costs then costs[name] else NO_COST
  {
    costs := map[];
    for i := 0 to |pois|
      invariant forall name :: KnownCost(pois[..i], name) == if name in costs then costs[name] else NO_COST
    {
      assert pois[..i + 1][..i] == pois[..i];
      costs := costs[pois[i].name := pois[i].cost];
    }
    assert pois[..|pois|] == pois;
  }

  method AddItems(days: seq<Day>, pois: seq<Poi>, costs: map<string, Cost>, travelers: int)
    returns (food: real, foodKnown: bool, ticket: real, ticketKnown: bool)
    requires forall name :: KnownCost(pois, name) == if name in costs then costs[name] else NO_COST
    ensures var items := AllItems(days);
            && food == Sum(Charges(items, pois, travelers, Food))
               && foodKnown == (Charges(items, pois, travelers, Food) != [])
            && ticket == Sum(Charges(items, pois, travelers, Ticket))
               && ticketKnown == (Charges(items, pois, travelers, Ticket) != [])
  {
    hide CostOf, KindOf, Counts, BudgetAmount;
    food, ticket, foodKnown, ticketKnown := 0.0, 0.0, false, false;
    for d := 0 to |days|
      invariant Added(AllItems(days[..d]), pois, travelers, food, foodKnown, ticket, ticketKnown)
    {
      assert days[..d + 1][..d] == days[..d];
      hide Added;
      food, foodKnown, ticket, ticketKnown :=
        AddDay(days[d].items, AllItems(days[..d]), pois, costs, travelers, food, foodKnown, ticket, ticketKnown);
    }
    assert days[..|days|] == days;
  }

  /** The loop over the items of a day, when `done` have been added before. */
  method AddDay(items: seq<Item>, ghost done: seq<Item>, pois: seq<Poi>, costs: map<string, Cost>, travelers: int,
                foodBefore: real, foodKnownBefore: bool, ticketBefore: real, ticketKnownBefore: bool)
    returns (food: real, foodKnown: bool, ticket: real, ticketKnown: bool)
    requires forall name :: KnownCost(pois, name) == if name in costs then costs[name] else NO_COST
    requires Added(done, pois, travelers, foodBefore, foodKnownBefore, ticketBefore, ticketKnownBefore)
    ensures Added(done + items, pois, travelers, food, foodKnown, ticket, ticketKnown)
  {
    hide Added, IsFoodCategory, IsTicketCategory;
    food, foodKnown, ticket, ticketKnown := foodBefore, foodKnownBefore, ticketBefore, ticketKnownBefore;
    assert done + items[..0] == done;
    for i := 0 to |items|
      invariant Added(done + items[..i], pois, travelers, food, foodKnown, ticket, ticketKnown)
    {
      var item := items[i];
      assert done + items[..i + 1] == done + items[..i] + [item];
      OneMoreItem(done + items[..i], item, pois, travelers, food, foodKnown, ticket, ticketKnown);
      var cost := item.cost;
      if cost.status == Unset {
        cost := if item.name in costs then costs[item.name] else NO_COST;
      }
      assert cost == CostOf(item, pois);
      if !(cost.status == Available && cost.amount.Some? && cost.included) {
        continue;
      }
      var amount := BudgetAmount(cost, travelers);
      if IsFoodCategory(item.kind) {
        food := food + amount;
        foodKnown := true;
      } else if IsTicketCategory(item.kind) {
        ticket := ticket + amount;
        ticketKnown := true;
      }
    }
    assert items[..|items|] == items;
  }

  ghost predicate Added(items: seq<Item>, pois: seq<Poi>, travelers: int,
                        food: real, foodKnown: bool, ticket: real, ticketKnown: bool) {
    && food == Sum(Charges(items, pois, travelers, Food)) && foodKnown == (Charges(items, pois, travelers, Food) != [])
    && ticket == Sum(Charges(items, pois, travelers, Ticket))
       && ticketKnown == (Charges(items, pois, travelers, Ticket) != [])
  }

  lemma OneMoreItem(items: seq<Item>, item: Item, pois: seq<Poi>, travelers: int,
                    food: real, foodKnown: bool, ticket: real, ticketKnown: bool)
    requires Added(items, pois, travelers, food, foodKnown, ticket, ticketKnown)
    ensures var cost := CostOf(item, pois); var amount := BudgetAmount(cost, travelers); var kind := KindOf(item);
            var f := kind == Food && Counts(cost); var t := kind == Ticket && Counts(cost);
            Added(items + [item], pois, travelers, if f then food + amount else food, foodKnown || f,
                  if t then ticket + amount else ticket, ticketKnown || t)
  {
    hide CostOf, BudgetAmount, KindOf, Counts;
    assert (items + [item])[..|items|] == items;
    OneMore(Charges(items, pois, travelers, Food), BudgetAmount(CostOf(item, pois), travelers));
    OneMore(Charges(items, pois, travelers, Ticket), BudgetAmount(CostOf(item, pois), travelers));
    assert forall s: seq<real> :: s + [] == s;
  }

  lemma OneMore(amounts: seq<real>, amount: real)
    ensures Sum(amounts + [amount]) == Sum(amounts) + amount
  {
  }

  method AddRoutes(routes: seq<Cost>, travelers: int) returns (transport: real, known: bool)
    ensures transport == Sum(RouteCharges(routes, travelers)) && known == (RouteCharges(routes, travelers) != [])
  {
    transport, known := 0.0, false;
    for i := 0 to |routes|
      invariant transport == Sum(RouteCharges(routes[..i], travelers))
                && known == (RouteCharges(routes[..i], travelers) != [])
    {
      assert routes[..i + 1][..i] == routes[..i];
      var cost := routes[i];
      var before := RouteCharges(routes[..i], travelers);
      OneMore(before, BudgetAmount(cost, travelers));
      assert before + [] == before;
      if !Counts(cost) {
        continue;
      }
      transport := transport + BudgetAmount(cost, travelers);
      known := true;
    }
    assert routes[..|routes|] == routes;
  }

  // ---------------------------------------------------------------- what a budget says

  /** The sum of the lines that are counted. */
  function IncludedSum(lines: seq<BudgetLine>): real {
    if lines == [] then 0.0
    else
      IncludedSum(lines[..|lines| - 1])
      + if lines[|lines| - 1].included && lines[|lines| - 1].amount.Some? then lines[|lines| - 1].amount.value else 0.0
  }

  /** The check "budget_breakdown" of validateRouteFeasibility. */
  predicate BreakdownOk(b: Budget) {
    b.knownTotal >= 0.0 && RoundMoney(b.transport + b.food + b.hotel + b.ticket) == RoundMoney(b.knownTotal)
  }

  lemma {:induction false} LinesJoin(a: seq<BudgetLine>, b: seq<BudgetLine>)
    ensures IncludedSum(a + b) == IncludedSum(a) + IncludedSum(b)
    ensures MissingKeys(a + b) == MissingKeys(a) + MissingKeys(b)
  {
    if b == [] {
      assert a + b == a && MissingKeys(a) + [] == MissingKeys(a);
    } else {
      var n := |b| - 1;
      LinesJoin(a, b[..n]);
      assert (a + b)[..|a| + n] == a + b[..n];
    }
  }

  lemma OneLine(line: BudgetLine)
    ensures IncludedSum([line]) == if line.included && line.amount.Some? then line.amount.value else 0.0
    ensures MissingKeys([line]) == if line.status == Unavailable then [line.key] else []
  {
  }

  lemma SumsOfLines(a: BudgetLine, b: BudgetLine, c: BudgetLine, d: BudgetLine, more: seq<BudgetLine>)
    ensures IncludedSum([a, b, c, d] + more) ==
            IncludedSum([a]) + IncludedSum([b]) + IncludedSum([c]) + IncludedSum([d]) + IncludedSum(more)
    ensures MissingKeys([a, b, c, d] + more) == MissingKeys([a, b, c, d]) + MissingKeys(more)
    ensures MissingKeys([c]) <= MissingKeys([c, d])
            && MissingKeys([a, b, c, d]) == MissingKeys([a, b]) + MissingKeys([c, d])
  {
    hide IncludedSum, MissingKeys;
    LinesJoin([a], [b]);
    LinesJoin([c], [d]);
    LinesJoin([a, b], [c, d]);
    LinesJoin([a, b, c, d], more);
    assert [a] + [b] == [a, b] && [c] + [d] == [c, d] && [a, b] + [c, d] == [a, b, c, d];
  }

  /** The three rounded sums, and that rounding them again changes nothing. */
  lemma {:induction false} TotalIsExact(f: real, t: real, r: real)
    ensures var sum := RoundMoney(f) + RoundMoney(t) + RoundMoney(r); RoundMoney(sum + 0.0) == sum
    ensures WholeCents(f) && WholeCents(t) && WholeCents(r) ==>
              RoundMoney(f) + RoundMoney(t) + RoundMoney(r) == f + t + r
  {
    RoundedIsWhole(f);
    RoundedIsWhole(t);
    RoundedIsWhole(r);
    hide RoundMoney, WholeCents;
    WholeSum(RoundMoney(f), RoundMoney(t));
    WholeSum(RoundMoney(f) + RoundMoney(t), RoundMoney(r));
    RoundedIsWhole(RoundMoney(f) + RoundMoney(t) + RoundMoney(r) + 0.0);
    assert RoundMoney(f) + RoundMoney(t) + RoundMoney(r) + 0.0 == RoundMoney(f) + RoundMoney(t) + RoundMoney(r);
  }

  /**
    For all charges: the total is the known total is the sum of the lines that are counted; exactly the
    keys of the lines without an amount are missing; and the budget is never complete, since the hotel
    always is missing.
   */
  lemma BudgetAddsUp(food: seq<real>, ticket: seq<real>, transport: seq<real>, intercity: bool)
    ensures var b := BudgetOf(food, ticket, transport, intercity);
            && b.total == b.knownTotal == IncludedSum(b.items)
            && b.missing == MissingKeys(b.items)
            && "hotel" in b.missing && !b.complete
  {
    var b := BudgetOf(food, ticket, transport, intercity);
    TotalIsExact(Sum(food), Sum(ticket), Sum(transport));
    EmptySums(food, ticket, transport);
    var lines := b.items;
    hide RoundMoney, Sum, IncludedSum, MissingKeys;
    SumsOfLines(lines[0], lines[1], lines[2], lines[3], lines[4..]);
    assert lines == [lines[0], lines[1], lines[2], lines[3]] + lines[4..];
    OneLine(lines[0]);
    OneLine(lines[1]);
    OneLine(lines[2]);
    OneLine(lines[3]);
    if intercity {
      OneLine(lines[4]);
      assert lines[4..] == [lines[4]];
    } else {
      NoLines();
      assert lines[4..] == [];
    }
    assert MissingKeys([lines[2]])[0] == "hotel";
  }

  lemma NoLines()
    ensures IncludedSum([]) == 0.0 && MissingKeys([]) == []
  {
  }

  lemma EmptySums(food: seq<real>, ticket: seq<real>, transport: seq<real>)
    ensures food == [] ==> RoundMoney(Sum(food)) == 0.0
    ensures ticket == [] ==> RoundMoney(Sum(ticket)) == 0.0
    ensures transport == [] ==> RoundMoney(Sum(transport)) == 0.0
  {
  }

  /** The budget passes its own validator exactly when no sum that is shown is negative; likewise the breakdown. */
  lemma {:induction false} BudgetPassesIff(food: seq<real>, ticket: seq<real>, transport: seq<real>, intercity: bool)
    ensures var b := BudgetOf(food, ticket, transport, intercity);
            && (BudgetOk(b) <==> b.food >= 0.0 && b.ticket >= 0.0 && b.transport >= 0.0)
            && (BreakdownOk(b) <==> b.knownTotal >= 0.0)
  {
    var b := BudgetOf(food, ticket, transport, intercity);
    TotalIsExact(Sum(food), Sum(ticket), Sum(transport));
    EmptySums(food, ticket, transport);
    hide RoundMoney, Sum, MissingKeys, NotBlank;
    assert b.transport + b.food + b.hotel + b.ticket == b.knownTotal;
    LinesAreNamed();
  }

  lemma LinesAreNamed()
    ensures NotBlank("food") && NotBlank("transport") && NotBlank("hotel") && NotBlank("ticket")
            && NotBlank("intercity_transport")
    ensures NotBlank("餐饮") && NotBlank("市内交通") && NotBlank("住宿") && NotBlank("门票") && NotBlank("往返大交通")
  {
    hide NotBlank;
    Named("food");
    Named("transport");
    Named("hotel");
    Named("ticket");
    Named("intercity_transport");
    Named("餐饮");
    Named("市内交通");
    Named("住宿");
    Named("门票");
    Named("往返大交通");
  }

  lemma Named(s: string)
    requires s != "" && !IsSpace(s[0])
    ensures NotBlank(s)
  {
  }

  // ---------------------------------------------------------------- costs that are not negative

  predicate NonNegative(amounts: seq<real>) {
    forall a | a in amounts :: a >= 0.0
  }

  lemma {:induction false} SumNonNegative(amounts: seq<real>)
    requires NonNegative(amounts)
    ensures Sum(amounts) >= 0.0
    ensures (forall a | a in amounts :: WholeCents(a)) ==> WholeCents(Sum(amounts))
  {
    hide WholeCents;
    if amounts == [] {
      assert WholeCents(0.0) by { Cents(0); }
    } else {
      var n := |amounts| - 1;
      assert amounts == amounts[..n] + [amounts[n]];
      assert amounts[n] in amounts;
      assert forall a | a in amounts[..n] :: a in amounts;
      SumNonNegative(amounts[..n]);
      if forall a | a in amounts :: WholeCents(a) {
        WholeSum(Sum(amounts[..n]), amounts[n]);
      }
    }
  }

  /** Validated costs give charges that are not negative. */
  lemma {:induction false} ChargesNonNegative(items: seq<Item>, pois: seq<Poi>, travelers: int, kind: Kind)
    requires forall item | item in items :: CostOk(item.cost)
    ensures NonNegative(Charges(items, pois, travelers, kind))
  {
    hide KindOf;
    if items != [] {
      var n := |items| - 1;
      ChargesNonNegative(items[..n], pois, travelers, kind);
      var cost := items[n].cost;
      assert items[n] in items;
      if Counts(cost) {
      }
    }
  }

  lemma {:induction false} RouteChargesNonNegative(routes: seq<Cost>, travelers: int)
    requires forall cost | cost in routes :: CostOk(cost)
    ensures NonNegative(RouteCharges(routes, travelers))
  {
    if routes != [] {
      var n := |routes| - 1;
      RouteChargesNonNegative(routes[..n], travelers);
      assert routes[n] in routes;
      if Counts(routes[n]) {
      }
    }
  }

  /**
    With charges that are not negative the budget always passes both checks, and with charges in whole
    cents the total is the exact sum of all charges.
   */
  lemma {:induction false} BudgetPasses(food: seq<real>, ticket: seq<real>, transport: seq<real>, intercity: bool)
    requires NonNegative(food) && NonNegative(ticket) && NonNegative(transport)
    ensures var b := BudgetOf(food, ticket, transport, intercity);
            && BudgetOk(b) && BreakdownOk(b) && b.total >= 0.0
            && ((forall a | a in food || a in ticket || a in transport :: WholeCents(a)) ==>
                b.total == Sum(food) + Sum(ticket) + Sum(transport))
  {
    hide RoundMoney, WholeCents, BudgetOk, BreakdownOk, NonNegative, Sum, MissingKeys;
    SumNonNegative(food);
    SumNonNegative(ticket);
    SumNonNegative(transport);
    RoundedIsWhole(Sum(food));
    RoundedIsWhole(Sum(ticket));
    RoundedIsWhole(Sum(transport));
    TotalIsExact(Sum(food), Sum(ticket), Sum(transport));
    BudgetPassesIff(food, ticket, transport, intercity);
  }
}
