/**
  The numbers behind the spend-vs-budget doughnut: whether a chart is drawn
  for the selected month and the two segments it shows.
 */
module Chart {
  import opened Wrappers
  import opened Ledger

  /** The two values of the doughnut's data set, in label order "Spent", "Remaining". */
  datatype Segments = Segments(spent: real, remaining: real)

  /**
    `Math.max(0, budget - spent)`: never negative, never below what is left of
    the budget, and either zero or exactly what is left.
   */
  function Remaining(budget: real, spent: real): (r: real)
    ensures r >= 0.0 && r >= budget - spent
    ensures r == 0.0 || r == budget - spent
  {
    if budget - spent > 0.0 then budget - spent else 0.0
  }

  /** The data set of a drawn chart: the spent value and the floored remainder. */
  function ChartData(budget: real, spent: real): (d: Segments)
    ensures d.spent == spent && d.remaining >= 0.0
    ensures spent <= budget ==> d.spent + d.remaining == budget
    ensures spent >= budget ==> d.remaining == 0.0
  {
    Segments(spent, Remaining(budget, spent))
  }

  /**
    `budgets[key] || ""` as handed to the chart: the month's budget when one
    is stored and truthy; a missing budget or a budget of 0 both become the
    falsy empty string.
   */
  function ChartBudget(b: Budgets, key: string): (o: Option<real>)
    ensures o.Some? <==> key in b && b[key] != 0.0
    ensures o.Some? ==> o.value == b[key]
  {
    if key in b && b[key] != 0.0 then Some(b[key]) else None
  }

  /**
    `!(!budget || isNaN(budget))`: the chart is drawn only for a truthy
    numeric budget, so neither falsy form — the empty string that stands for
    a missing budget, or 0 — draws one.
   */
  function Drawn(budget: Option<real>): (d: bool)
    ensures budget.None? ==> !d
    ensures budget == Some(0.0) ==> !d
    ensures budget.Some? && budget.value != 0.0 ==> d
  {
    budget.Some? && budget.value != 0.0
  }

  /** A month's chart is drawn exactly when it has a stored non-zero budget. */
  lemma DrawnForMonth(b: Budgets, key: string)
    ensures Drawn(ChartBudget(b, key)) <==> key in b && b[key] != 0.0
  {
  }
}
