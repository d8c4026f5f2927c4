/**
  What a budget shows, said of the items, the places and the routes themselves (internal/agent/eino/tools.go,
  MockBudgetTool).
 */
module BudgetShown {
  import opened Wrappers
  import opened Text
  import opened TravelPlan
  import opened BudgetTool
  import I = Itinerary
  import L = LlmWarnings
  import Brief

  /** How many times an amount is due: for each traveller, if it is per person. */
  function Heads(cost: Cost, travelers: int): int {
    if cost.unit == "per_person" && travelers > 0 then travelers else 1
  }

  /** The price of something whose cost is known and to be counted. */
  function Price(cost: Cost, travelers: int): Option<real> {
    if cost.status == Available && cost.included && cost.amount.Some? then
      Some(cost.amount.value * Heads(cost, travelers) as real)
    else None
  }

  /** An item without a cost of its own has that of the last place of its name; without such a place, none. */
  ghost predicate HasCost(item: Item, pois: seq<Poi>, cost: Cost) {
    if item.cost.status != Unset then cost == item.cost
    else if exists poi | poi in pois :: poi.name == item.name then
      exists i | 0 <= i < |pois| ::
        && pois[i].name == item.name && pois[i].cost == cost
        && forall j | i < j < |pois| :: pois[j].name != item.name
    else cost == NO_COST
  }

  /** The words that make an item food, or something with a ticket. */
  const FOODS: set<string> := {"food", "餐饮", "中餐", "火锅", "料理", "餐厅", "肯德基", "咖啡", "茶"}
  const SIGHTS: set<string> := {
    "sightseeing", "landmark", "culture", "nature", "景点", "风景", "自然", "文化", "公园", "湿地", "博物馆", "寺"}

  ghost predicate HasWord(category: string, words: set<string>) {
    exists w | w in words :: I.Within(w, ToLower(category))
  }

  /** Food goes before tickets. */
  ghost predicate IsOf(item: Item, kind: Kind) {
    match kind
    case Food => HasWord(item.kind, FOODS)
    case Ticket => !HasWord(item.kind, FOODS) && HasWord(item.kind, SIGHTS)
    case Neither => !HasWord(item.kind, FOODS) && !HasWord(item.kind, SIGHTS)
  }

  /** What an item adds to the line of this kind: its price, or nothing. */
  ghost predicate IsPrice(price: Option<real>, item: Item, pois: seq<Poi>, travelers: int, kind: Kind) {
    exists cost :: HasCost(item, pois, cost) && price == if IsOf(item, kind) then Price(cost, travelers) else None
  }

  ghost predicate ArePrices(prices: seq<Option<real>>, items: seq<Item>, pois: seq<Poi>, travelers: int, kind: Kind) {
    |prices| == |items| && forall i | 0 <= i < |items| :: IsPrice(prices[i], items[i], pois, travelers, kind)
  }

  function Total(prices: seq<Option<real>>): real {
    if prices == [] then 0.0
    else (if prices[0].Some? then prices[0].value else 0.0) + Total(prices[1..])
  }

  predicate AnyPrice(prices: seq<Option<real>>) {
    exists i | 0 <= i < |prices| :: prices[i].Some?
  }

  // ---------------------------------------------------------------- the costs found

  lemma {:induction false} LastOfName(pois: seq<Poi>, name: string) returns (i: nat)
    requires exists poi | poi in pois :: poi.name == name
    ensures i < |pois| && pois[i].name == name && KnownCost(pois, name) == pois[i].cost
    ensures forall j | i < j < |pois| :: pois[j].name != name
  {
    var n := |pois| - 1;
    assert pois == pois[..n] + [pois[n]];
    if pois[n].name == name {
      i := n;
    } else {
      i := LastOfName(pois[..n], name);
    }
  }

  lemma {:induction false} NoneOfName(pois: seq<Poi>, name: string)
    requires forall poi | poi in pois :: poi.name != name
    ensures KnownCost(pois, name) == NO_COST
  {
    if pois != [] {
      NoneOfName(pois[..|pois| - 1], name);
    }
  }

  lemma KnownCostIs(pois: seq<Poi>, item: Item)
    requires item.cost.status == Unset
    ensures HasCost(item, pois, KnownCost(pois, item.name))
  {
    if exists poi | poi in pois :: poi.name == item.name {
      var i := LastOfName(pois, item.name);
    } else {
      NoneOfName(pois, item.name);
    }
  }

  lemma CostIs(item: Item, pois: seq<Poi>)
    ensures HasCost(item, pois, CostOf(item, pois))
  {
    if item.cost.status == Unset {
      KnownCostIs(pois, item);
    }
  }

  /** There is only one cost an item has. */
  lemma OnlyOneCost(item: Item, pois: seq<Poi>, a: Cost, b: Cost)
    requires HasCost(item, pois, a) && HasCost(item, pois, b)
    ensures a == b
  {
    if item.cost.status == Unset && exists poi | poi in pois :: poi.name == item.name {
      var i :| 0 <= i < |pois| && pois[i].name == item.name && pois[i].cost == a
               && forall j | i < j < |pois| :: pois[j].name != item.name;
      var k :| 0 <= k < |pois| && pois[k].name == item.name && pois[k].cost == b
               && forall j | k < j < |pois| :: pois[j].name != item.name;
      assert !(i < k) && !(k < i);
    }
  }

  lemma WordsAre(category: string, table: set<string>, words: seq<string>)
    requires forall w :: w in table <==> w in words
    ensures HasWord(category, table) <==> ContainsOneOf(ToLower(category), words)
  {
    hide ToLower, I.Within, L.Contains;
    forall w | w in words
      ensures I.Within(w, ToLower(category)) <==> L.Contains(ToLower(category), w)
    {
      I.ContainsIsWithin(ToLower(category), w);
    }
  }

  lemma KindIs(item: Item, kind: Kind)
    ensures IsOf(item, kind) <==> KindOf(item) == kind
  {
    WordsAre(item.kind, FOODS, FOOD_WORDS);
    WordsAre(item.kind, SIGHTS, TICKET_WORDS);
    hide HasWord, ContainsOneOf;
  }

  lemma PriceIs(cost: Cost, travelers: int)
    ensures Price(cost, travelers) == if Counts(cost) then Some(BudgetAmount(cost, travelers)) else None
  {
    if Counts(cost) {
      var heads := Heads(cost, travelers) as real;
      assert heads == if cost.unit == "per_person" && travelers > 0 then travelers as real else 1.0;
      assert BudgetAmount(cost, travelers) == cost.amount.value * heads;
      assert Price(cost, travelers).value == cost.amount.value * heads;
    }
  }

  // ---------------------------------------------------------------- what is charged

  lemma {:induction false} OnePriceMore(prices: seq<Option<real>>, price: Option<real>)
    ensures Total(prices + [price]) == Total(prices) + if price.Some? then price.value else 0.0
    ensures AnyPrice(prices + [price]) <==> AnyPrice(prices) || price.Some?
  {
    if prices == [] {
      assert prices + [price] == [price] && [price][1..] == [];
      assert AnyPrice([price]) <==> [price][0].Some?;
    } else {
      OnePriceMore(prices[1..], price);
      assert (prices + [price])[1..] == prices[1..] + [price];
      var all := prices + [price];
      assert all[|prices|] == price && forall i | 0 <= i < |prices| :: all[i] == prices[i];
    }
  }

  lemma OnlyPrice(price: Option<real>, item: Item, pois: seq<Poi>, travelers: int, kind: Kind)
    requires IsPrice(price, item, pois, travelers, kind)
    ensures var cost := CostOf(item, pois);
            price == if KindOf(item) == kind && Counts(cost) then Some(BudgetAmount(cost, travelers)) else None
  {
    hide HasCost, IsOf, Price, CostOf, KindOf, Counts, BudgetAmount;
    var cost :| HasCost(item, pois, cost) && price == if IsOf(item, kind) then Price(cost, travelers) else None;
    CostIs(item, pois);
    OnlyOneCost(item, pois, cost, CostOf(item, pois));
    KindIs(item, kind);
    PriceIs(cost, travelers);
  }

  /** The charges of a kind are the prices of its items, one after the other. */
  lemma {:induction false} ChargesArePrices(prices: seq<Option<real>>, items: seq<Item>, pois: seq<Poi>, travelers: int,
      kind: Kind)
    requires ArePrices(prices, items, pois, travelers, kind)
    ensures var charges := Charges(items, pois, travelers, kind);
            Sum(charges) == Total(prices) && (charges != [] <==> AnyPrice(prices))
  {
    hide IsPrice, CostOf, KindOf, Counts, BudgetAmount;
    if items != [] {
      var n := |items| - 1;
      var before, item := items[..n], items[n];
      ChargesArePrices(prices[..n], before, pois, travelers, kind);
      assert prices == prices[..n] + [prices[n]];
      OnePriceMore(prices[..n], prices[n]);
      OnlyPrice(prices[n], item, pois, travelers, kind);
      var charges := Charges(before, pois, travelers, kind);
      OneMore(charges, BudgetAmount(CostOf(item, pois), travelers));
      assert charges + [] == charges;
    }
  }

  ghost predicate AreRoutePrices(prices: seq<Option<real>>, routes: seq<Cost>, travelers: int) {
    |prices| == |routes| && forall i | 0 <= i < |routes| :: prices[i] == Price(routes[i], travelers)
  }

  lemma {:induction false} RouteChargesArePrices(prices: seq<Option<real>>, routes: seq<Cost>, travelers: int)
    requires AreRoutePrices(prices, routes, travelers)
    ensures var charges := RouteCharges(routes, travelers);
            Sum(charges) == Total(prices) && (charges != [] <==> AnyPrice(prices))
  {
    hide Price, Counts, BudgetAmount;
    if routes != [] {
      var n := |routes| - 1;
      RouteChargesArePrices(prices[..n], routes[..n], travelers);
      assert prices == prices[..n] + [prices[n]];
      OnePriceMore(prices[..n], prices[n]);
      PriceIs(routes[n], travelers);
      var charges := RouteCharges(routes[..n], travelers);
      OneMore(charges, BudgetAmount(routes[n], travelers));
      assert charges + [] == charges;
    }
  }

  // ---------------------------------------------------------------- what the budget shows

  /** A line of the budget: the amount nearest to the sum of its prices, or none when nothing has a price. */
  predicate LineShows(line: BudgetLine, key: string, prices: seq<Option<real>>, shown: real) {
    && line.key == key && Distance(shown, Total(prices)) <= 0.005
    && (if AnyPrice(prices) then line.amount == Some(shown) && line.status == Available && line.included
        else line.amount == None && line.status == Unavailable && !line.included)
  }

  /**
    For all days, places and routes: food, tickets and transport are shown to the nearest cent, each as the
    sum of the prices of what belongs to it, the hotel not at all, and the total is their sum. A line
    between cities is there exactly when it is needed, and never has an amount.
   */
  lemma BudgetShowsThePrices(items: seq<Item>, pois: seq<Poi>, routes: seq<Cost>, travelers: int, intercity: bool,
      food: seq<Option<real>>, ticket: seq<Option<real>>, transport: seq<Option<real>>)
    requires ArePrices(food, items, pois, travelers, Food) && ArePrices(ticket, items, pois, travelers, Ticket)
    requires AreRoutePrices(transport, routes, travelers)
    ensures var b := BudgetOf(Charges(items, pois, travelers, Food), Charges(items, pois, travelers, Ticket),
                              RouteCharges(routes, travelers), intercity);
            && |b.items| == (if intercity then 5 else 4)
            && LineShows(b.items[0], "food", food, b.food)
            && LineShows(b.items[1], "transport", transport, b.transport)
            && LineShows(b.items[3], "ticket", ticket, b.ticket)
            && b.items[2].key == "hotel" && b.items[2].amount == None && b.hotel == 0.0
            && (intercity ==> b.items[4].key == "intercity_transport" && b.items[4].amount == None)
            && b.total == b.food + b.ticket + b.transport && b.currency == "CNY"
  {
    hide Charges, RouteCharges, ArePrices, AreRoutePrices, BudgetOf, Total, AnyPrice, Sum, RoundMoney, LineShows;
    ChargesArePrices(food, items, pois, travelers, Food);
    ChargesArePrices(ticket, items, pois, travelers, Ticket);
    RouteChargesArePrices(transport, routes, travelers);
    var f, t, r := Charges(items, pois, travelers, Food), Charges(items, pois, travelers, Ticket),
                   RouteCharges(routes, travelers);
    ShapeOf(f, t, r, intercity);
    var b := BudgetOf(f, t, r, intercity);
    LineIs(b.items[0], "food", "餐饮", food, Sum(f), f != []);
    LineIs(b.items[1], "transport", "市内交通", transport, Sum(r), r != []);
    LineIs(b.items[3], "ticket", "门票", ticket, Sum(t), t != []);
  }

  lemma LineIs(line: BudgetLine, key: string, title: string, prices: seq<Option<real>>, sum: real, known: bool)
    requires line == Line(key, title, RoundMoney(sum), known) && sum == Total(prices) && known == AnyPrice(prices)
    ensures LineShows(line, key, prices, RoundMoney(sum))
  {
    RoundedIsNearest(sum);
    hide RoundMoney, Distance, Total, AnyPrice;
  }

  lemma ShapeOf(food: seq<real>, ticket: seq<real>, transport: seq<real>, intercity: bool)
    ensures var b := BudgetOf(food, ticket, transport, intercity);
            && b.food == RoundMoney(Sum(food)) && b.ticket == RoundMoney(Sum(ticket))
            && b.transport == RoundMoney(Sum(transport)) && b.hotel == 0.0 && b.currency == "CNY"
            && b.total == b.food + b.ticket + b.transport
            && |b.items| == (if intercity then 5 else 4)
            && b.items[0] == Line("food", "餐饮", b.food, food != [])
            && b.items[1] == Line("transport", "市内交通", b.transport, transport != [])
            && b.items[2].key == "hotel" && b.items[2].amount == None
            && b.items[3] == Line("ticket", "门票", b.ticket, ticket != [])
            && (intercity ==> b.items[4].key == "intercity_transport" && b.items[4].amount == None)
  {
    TotalIsExact(Sum(food), Sum(ticket), Sum(transport));
    hide RoundMoney, Sum, MissingKeys;
  }

  // ---------------------------------------------------------------- between cities

  lemma WithinEither(w: string, a: string, b: string)
    requires w != "" && ' ' !in w
    ensures I.Within(w, a + " " + b) <==> I.Within(w, a) || I.Within(w, b)
  {
    var text := a + " " + b;
    I.WithinLonger(w, "", a, " " + b);
    I.WithinLonger(w, a + " ", b, "");
    assert "" + a + (" " + b) == text && a + " " + b + "" == text;
    if I.Within(w, text) {
      var i, j :| 0 <= i <= j <= |text| && text[i..j] == w;
      hide I.Within;
      WithinOne(w, a, b, i, j);
    }
  }

  lemma PartHolds(text: string, i: nat, j: nat)
    requires i <= j <= |text|
    ensures forall k | i <= k < j :: text[k] in text[i..j]
  {
    assert forall k | i <= k < j :: text[i..j][k - i] == text[k];
  }

  lemma WithinOne(w: string, a: string, b: string, i: nat, j: nat)
    requires w != "" && ' ' !in w && i <= j <= |a + " " + b| && (a + " " + b)[i..j] == w
    ensures I.Within(w, a) || I.Within(w, b)
  {
    var text := a + " " + b;
    PartHolds(text, i, j);
    assert text[|a|] == ' ';
    if j <= |a| {
      assert a[i..j] == w;
    } else {
      assert b[i - |a| - 1..j - |a| - 1] == w;
    }
  }

  lemma {:induction false} WithinJoined(w: string, first: string, rest: seq<string>)
    requires w != "" && ' ' !in w
    ensures I.Within(w, JoinedWith(first, rest)) <==> I.Within(w, first) || exists part | part in rest ::
            I.Within(w, part)
    decreases |rest|
  {
    hide I.Within;
    if rest != [] {
      WithinEither(w, first, rest[0]);
      WithinJoined(w, first + " " + rest[0], rest[1..]);
      assert rest == [rest[0]] + rest[1..];
    }
  }

  /** The words for travel between cities. */
  const CROSSINGS: set<string> := {"高铁", "火车", "飞机", "往返", "大交通", "跨城"}

  lemma WordsHaveNoBlanks()
    ensures forall w | w in INTERCITY_WORDS :: w != "" && ' ' !in w
    ensures forall w :: w in CROSSINGS <==> w in INTERCITY_WORDS
  {
    assert INTERCITY_WORDS == ["高铁", "火车", "飞机", "往返", "大交通", "跨城"];
  }

  /**
    A line between cities is needed exactly when the two cities are given and differ, and one of the words
    for such travel is in the mode of transport or in something the budget is to include.
   */
  lemma IntercityIff(req: Brief.TravelRequest)
    ensures NeedsIntercityTransport(req) <==>
              && req.departureCity != "" && req.destinationCity != "" && req.departureCity != req.destinationCity
              && exists w | w in CROSSINGS ::
                   I.Within(w, req.transportMode) || exists part | part in req.budgetIncludes :: I.Within(w, part)
  {
    hide I.Within, L.Contains;
    WordsHaveNoBlanks();
    var text := JoinedWith(req.transportMode, req.budgetIncludes);
    forall w | w in INTERCITY_WORDS
      ensures L.Contains(text, w) <==>
                I.Within(w, req.transportMode) || exists part | part in req.budgetIncludes :: I.Within(w, part)
    {
      WithinJoined(w, req.transportMode, req.budgetIncludes);
      I.ContainsIsWithin(text, w);
    }
  }
}
