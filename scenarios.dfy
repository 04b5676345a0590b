/**
  Walk-throughs of one month by a client of the session, each using only
  the contracts of the handlers.
 */
module Scenarios {
  import opened Wrappers
  import opened Text
  import opened Ledger
  import opened Chart
  import opened Tags
  import opened Session

  /** Highlighting "Card" in the paid group makes it the only captured tag. */
  method CardTag()
  {
    var panel := new TagPanel(["Cash", "Card"], ["GPay"], []);
    panel.Highlight(Paid, 0);
    panel.Highlight(Paid, 1);
    var groups := panel.sections;
    assert ActiveTag(groups[Paid]) == Some(Trim("Card"));
    assert !groups[App][0].active && ActiveTag(groups[App]) == None;
    assert ActiveTag(groups[Loan]) == None;
    CapturedOrder(groups);
    assert TagsFor(groups, 3) == [Trim("Card")];
  }

  /** An empty month gets one expense, and its total is that expense. */
  method CoffeeExpense(panel: TagPanel)
    requires Complete(panel.sections)
  {
    var ledger := new LedgerState.Load(None, None, None, 3);
    var key := MonthKey(3);
    assert !IsWhitespace('C') && !IsWhitespace('e');
    TrimOfTrimmed("Coffee");
    var ok := ledger.AddTransaction(3, "Coffee", Some(-4.5), "$", "t0", panel);
    assert ok;
    var list := ledger.transactions[key];
    assert |list| == 1 && list[0].amount == -4.5;
    var total := ledger.MonthTotal(3);
    assert list[..0] == [];
    assert total == -4.5;
  }

  /** A blank description is refused, but the currency input is stored anyway. */
  method BlankDescription(panel: TagPanel)
    requires Complete(panel.sections)
  {
    var ledger := new LedgerState.Load(None, None, None, 3);
    TrimSpec(" \t");
    var ok := ledger.AddTransaction(3, " \t", Some(1.0), "$", "t1", panel);
    assert !ok && ledger.transactions == map[] && ledger.currency == "$";
  }

  /** A declined removal keeps the entry; a confirmed one empties the month and its total. */
  method RemoveOnlyEntry(entry: Tx)
  {
    var key := MonthKey(3);
    var ledger := new LedgerState.Load(None, None, Some(map[key := [entry]]), 3);
    var removal := ledger.RemoveTransaction(3, 0, false);
    assert removal == Declined && ledger.transactions[key] == [entry];
    removal := ledger.RemoveTransaction(3, 0, true);
    assert removal == Removed && ledger.transactions[key] == [];
    var total := ledger.MonthTotal(3);
    assert total == 0.0;
  }

  /** The first budget is set silently; a different one prompts and a declined prompt keeps 100. */
  method BudgetPrompts()
  {
    var ledger := new LedgerState.Load(None, None, None, 3);
    var key := MonthKey(3);
    var result, prompted := ledger.SetBudget(3, Some(100.0), false);
    assert !prompted && result == BudgetSet && ledger.chartAlive;
    result, prompted := ledger.SetBudget(3, Some(150.0), false);
    assert prompted && result == Kept && ledger.budgets[key] == 100.0;
    result, prompted := ledger.SetBudget(3, Some(100.0), false);
    assert !prompted && result == BudgetSet;
    result, prompted := ledger.SetBudget(3, None, true);
    assert result == InvalidBudget && ledger.budgets[key] == 100.0;
  }

  /**
    A month stored with a budget of 100 and an income of 50 gets an expense of
    20: the chart shows 30 spent and 70 remaining.
   */
  method BudgetThenEntries(panel: TagPanel)
    requires Complete(panel.sections)
  {
    var key := MonthKey(3);
    var stored := map[key := [Tx("Pay", 50.0, "t0", [])]];
    var ledger := new LedgerState.Load(None, Some(map[key := 100.0]), Some(stored), 3);
    var expense := Tx("Rent", -20.0, "t1", TagsFor(panel.sections, 3));
    assert !IsWhitespace('R') && !IsWhitespace('t');
    TrimOfTrimmed("Rent");
    var ok := ledger.AddTransaction(3, "Rent", Some(-20.0), "$", "t1", panel);
    assert ok && ledger.transactions == Append(stored, key, expense);
    AppendTotal(stored, key, expense);
    assert Sum(MonthTxs(ledger.transactions, key)) == 30.0;
    assert ledger.chart == Some(Segments(30.0, 70.0));
  }

}
