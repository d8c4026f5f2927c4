/** internal/domain/travel.go: places, days and budgets. Amounts are exact. */
module TravelPlan {
  import opened Wrappers
  import T = Text

  datatype CostStatus = Available | Unavailable | NotApplicable | Unset | Other(text: string)

  datatype Cost = Cost(amount: Option<real>, unit: string, status: CostStatus, included: bool)

  const NO_COST := Cost(None, "", Unset, false)

  datatype Poi = Poi(
    name: string, category: string, address: string, duration: int, estimatedCost: real, cost: Cost)

  datatype Item = Item(
    time: string, kind: string, name: string, address: string, reason: string,
    estimatedCost: real, cost: Cost, duration: int)

  datatype Day = Day(number: int, items: seq<Item>)

  datatype BudgetLine = BudgetLine(key: string, title: string, amount: Option<real>, status: CostStatus, included: bool)

  datatype Budget = Budget(
    transport: real, food: real, hotel: real, ticket: real, total: real, knownTotal: real,
    complete: bool, currency: string, items: seq<BudgetLine>, missing: seq<string>)

  datatype Plan = Plan(title: string, summary: string, days: seq<Day>, budget: Budget, warnings: seq<string>)

  // ---------------------------------------------------------------- internal/agent/eino/json_parser.go

  /** An amount that is there is to be counted; one that is not there is not. */
  predicate AmountFits(status: CostStatus, amount: Option<real>, included: bool) {
    match status
    case Available => amount.Some? && amount.value >= 0.0 && included
    case Unavailable => amount.None? && !included
    case NotApplicable => !included
    case _ => false
  }

  /** validateCostInfo returns no error. */
  predicate CostOk(cost: Cost) {
    AmountFits(cost.status, cost.amount, cost.included)
  }

  /** validateBudgetLine returns no error. */
  predicate LineOk(line: BudgetLine) {
    AmountFits(line.status, line.amount, line.included)
  }

  predicate NotBlank(s: string) {
    exists c | c in s :: !T.IsSpace(c)
  }

  /** validateBudgetDetails. */
  predicate BudgetOk(budget: Budget) {
    && budget.currency != ""
    && budget.total == budget.knownTotal
    && forall line | line in budget.items :: NotBlank(line.key) && NotBlank(line.title) && LineOk(line)
  }

  // ---------------------------------------------------------------- internal/agent/eino/nodes.go, validatePlanNode

  predicate ItemOk(item: Item) {
    && item.name != "" && item.kind != "" && item.reason != ""
    && item.estimatedCost >= 0.0 && item.duration >= 0
    && CostOk(item.cost)
  }

  predicate DayOk(day: Day, number: int) {
    day.number == number && day.items != [] && forall item | item in day.items :: ItemOk(item)
  }

  predicate PlanOk(plan: Plan) {
    && NotBlank(plan.title) && NotBlank(plan.summary) && plan.days != []
    && plan.budget.total >= 0.0 && plan.budget.knownTotal >= 0.0 && plan.budget.currency != ""
    && forall i | 0 <= i < |plan.days| :: DayOk(plan.days[i], i + 1)
  }
}
