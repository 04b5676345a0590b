/**
  The widget's session state: the module-level `transactions`, `budgets`,
  `currency` and `chart` of the page, and the handlers that read, mutate and
  persist them. `localStorage` is modelled by ghost copies of the three blobs
  as last written (None: never written); dialogs and parsed inputs are
  parameters.
 */
module Session {
  import opened Wrappers
  import opened Text
  import opened Ledger
  import opened Chart
  import opened Tags

  /** How a click on a listed entry ends. */
  datatype Removal =
    | Declined   // the confirmation was answered "Cancel"
    | Removed    // `splice(index, 1)` ran and the ledger was saved
    | NoList     // the month has no list: `undefined.splice` throws before anything is written

  /** How a press of "set budget" ends. */
  datatype BudgetResult =
    | InvalidBudget  // the input is not a number: alert, nothing changes
    | Kept           // an existing budget would be overwritten and the user declined
    | BudgetSet      // the budget was assigned and saved

  class LedgerState {
    var transactions: Transactions
    var budgets: Budgets
    var currency: string
    /** The data of the chart instance the `chart` variable refers to, if one was ever created. */
    var chart: Option<Segments>
    /** Whether that instance is still alive (not yet destroyed). */
    var chartAlive: bool
    /** How many chart instances exist and have not been destroyed. */
    ghost var liveCharts: nat

    ghost var savedCurrency: Option<string>
    ghost var savedBudgets: Option<Budgets>
    ghost var savedTransactions: Option<Transactions>

    /**
      Reloading the page would rebuild the same state: the stored tables parse
      back to the in-memory ones, and the stored currency loads back unless the
      currency is the (falsy) empty string.
     */
    ghost predicate Persisted()
      reads this
    {
      && LoadTable(savedTransactions) == transactions
      && LoadTable(savedBudgets) == budgets
      && (currency == [] || LoadCurrency(savedCurrency) == currency)
    }

    ghost predicate Valid()
      reads this
    {
      Persisted() && (chartAlive ==> chart.Some?) && liveCharts == (if chartAlive then 1 else 0)
    }

    /**
      The chart as `render()` leaves it for `month`: alive exactly when the
      month's budget is truthy, and then showing `[total, max(0, budget -
      total)]` for the month's current total; otherwise the `chart` variable
      still refers to `before`, the instance it held beforehand.
     */
    ghost predicate ShowsMonth(month: nat, before: Option<Segments>)
      requires month < 12
      reads this
    {
      var budget := ChartBudget(budgets, MonthKey(month));
      && chartAlive == Drawn(budget)
      && (Drawn(budget) ==> chart == Some(ChartData(budget.value, Sum(MonthTxs(transactions, MonthKey(month))))))
      && (!Drawn(budget) ==> chart == before)
    }

    /**
      Page load: each blob is read with its default (an empty table, the
      default currency for a missing or empty one), then the month of `today`
      is rendered.
     */
    constructor Load(storedCurrency: Option<string>, storedBudgets: Option<Budgets>,
                     storedTransactions: Option<Transactions>, today: nat)
      requires today < 12
      ensures Valid()
      ensures currency == LoadCurrency(storedCurrency)
      ensures budgets == LoadTable(storedBudgets) && transactions == LoadTable(storedTransactions)
      ensures savedCurrency == storedCurrency && savedBudgets == storedBudgets
      ensures savedTransactions == storedTransactions
      ensures ShowsMonth(today, None)
    {
      currency := LoadCurrency(storedCurrency);
      budgets := LoadTable(storedBudgets);
      transactions := LoadTable(storedTransactions);
      savedCurrency, savedBudgets, savedTransactions := storedCurrency, storedBudgets, storedTransactions;
      chart, chartAlive, liveCharts := None, false, 0;
      new;
      var shown := Render(today);
    }

    /**
      The total `render` shows for a month: `total += t.amount` over the
      month's list in order, which is the exact sum of its amounts and 0 for a
      month without entries.
     */
    method MonthTotal(month: nat) returns (total: real)
      requires month < 12
      ensures total == Sum(MonthTxs(transactions, MonthKey(month)))
      ensures MonthKey(month) !in transactions ==> total == 0.0
    {
      var txs := MonthTxs(transactions, MonthKey(month));
      total := 0.0;
      var i := 0;
      while i < |txs|
        invariant 0 <= i <= |txs|
        invariant total == Sum(txs[..i])
      {
        assert txs[..i + 1][..i] == txs[..i];
        total := total + txs[i].amount;
        i := i + 1;
      }
      assert txs[..i] == txs;
    }

    /**
      `drawChart(budget, spent)`: the previous chart, if any, is destroyed
      first; a new one is created only for a truthy budget, with the data
      `[spent, max(0, budget - spent)]`. The count of live instances stays in
      step with `chartAlive`, so at most one chart is ever alive; creating a
      chart before destroying the old one would leave two.
     */
    method DrawChart(budget: Option<real>, spent: real)
      requires chartAlive ==> chart.Some?
      requires liveCharts == (if chartAlive then 1 else 0)
      modifies this`chart, this`chartAlive, this`liveCharts
      ensures liveCharts == (if chartAlive then 1 else 0)
      ensures chartAlive == Drawn(budget)
      ensures Drawn(budget) ==> chart == Some(ChartData(budget.value, spent))
      ensures !Drawn(budget) ==> chart == old(chart)
    {
      if chart.Some? {
        if chartAlive {
          liveCharts := liveCharts - 1;
        }
        chartAlive := false;
      }
      if !Drawn(budget) {
        return;
      }
      assert !chartAlive;  // no instance is left alive when the next one is made
      chart := Some(ChartData(budget.value, spent));
      chartAlive := true;
      liveCharts := liveCharts + 1;
    }

    /**
      `render()` for the selected month: computes the month total and redraws
      the chart from the month's budget as `budgets[key] || ""`.
     */
    method Render(month: nat) returns (total: real)
      requires Valid() && month < 12
      modifies this`chart, this`chartAlive, this`liveCharts
      ensures Valid()
      ensures total == Sum(MonthTxs(transactions, MonthKey(month)))
      ensures ShowsMonth(month, old(chart))
    {
      total := MonthTotal(month);
      DrawChart(ChartBudget(budgets, MonthKey(month)), total);
    }

    /**
      `addTransaction()`: the currency input is stored first, whatever happens
      next. A blank description or a non-numeric amount then stops the add
      with nothing else changed. Otherwise the month's list (created if
      absent) gets one entry at its end, with the trimmed description, the
      amount, the timestamp and the tags captured from the panel; the ledger
      is saved and the month re-rendered.
     */
    method AddTransaction(month: nat, desc: string, amount: Option<real>, currencyInput: string,
                          timestamp: string, panel: TagPanel) returns (ok: bool)
      requires Valid() && month < 12 && Complete(panel.sections)
      modifies this
      ensures Valid()
      ensures currency == currencyInput && savedCurrency == Some(currencyInput)
      ensures ok <==> Trim(desc) != [] && amount.Some?
      ensures ok ==> transactions == Append(old(transactions), MonthKey(month),
                                            Tx(Trim(desc), amount.value, timestamp, TagsFor(panel.sections, 3)))
      ensures ok ==> savedTransactions == Some(transactions)
      ensures ok ==> ShowsMonth(month, old(chart))
      ensures !ok ==> transactions == old(transactions) && savedTransactions == old(savedTransactions)
      ensures !ok ==> chart == old(chart) && chartAlive == old(chartAlive)
      ensures budgets == old(budgets) && savedBudgets == old(savedBudgets)
    {
      var trimmed := Trim(desc);
      currency := currencyInput;
      savedCurrency := Some(currency);
      if trimmed == [] || amount.None? {
        return false;
      }
      // the code writes the currency a second time once the inputs are valid
      currency := currencyInput;
      savedCurrency := Some(currency);

      var tags := panel.SelectedTags();
      Record(month, Tx(trimmed, amount.value, timestamp, tags));
      ok := true;
    }

    /**
      The write step of an add: the month's list is created empty if absent,
      the entry is pushed at its end, the whole ledger is saved and the month
      re-rendered.
     */
    method Record(month: nat, entry: Tx)
      requires Valid() && month < 12
      modifies this`transactions, this`savedTransactions, this`chart, this`chartAlive, this`liveCharts
      ensures Valid()
      ensures transactions == Append(old(transactions), MonthKey(month), entry)
      ensures savedTransactions == Some(transactions)
      ensures ShowsMonth(month, old(chart))
    {
      var key := MonthKey(month);
      ghost var before := transactions;
      if key !in transactions {
        transactions := transactions[key := []];
      }
      assert transactions[key] == MonthTxs(before, key);
      transactions := transactions[key := transactions[key] + [entry]];
      assert transactions == before[key := MonthTxs(before, key) + [entry]];
      savedTransactions := Some(transactions);
      var shown := Render(month);
    }

    /**
      `removeTransaction(index)`: after a confirmed prompt the month's list is
      spliced at `index` and saved, then re-rendered. A declined prompt, or a
      month without a list (the splice throws), changes nothing.
     */
    method RemoveTransaction(month: nat, index: int, confirmed: bool) returns (outcome: Removal)
      requires Valid() && month < 12
      modifies this
      ensures Valid()
      ensures outcome == if !confirmed then Declined
                         else if MonthKey(month) !in old(transactions) then NoList
                         else Removed
      ensures outcome == Removed ==>
                var key := MonthKey(month);
                && transactions == old(transactions)[key := SpliceOne(old(transactions)[key], index)]
                && savedTransactions == Some(transactions)
                && ShowsMonth(month, old(chart))
      ensures outcome != Removed ==>
                && transactions == old(transactions) && savedTransactions == old(savedTransactions)
                && chart == old(chart) && chartAlive == old(chartAlive)
      ensures budgets == old(budgets) && savedBudgets == old(savedBudgets)
      ensures currency == old(currency) && savedCurrency == old(savedCurrency)
    {
      var key := MonthKey(month);
      if !confirmed {
        return Declined;
      }
      if key !in transactions {
        return NoList;
      }
      transactions := transactions[key := SpliceOne(transactions[key], index)];
      savedTransactions := Some(transactions);
      assert Valid();
      var shown := Render(month);
      outcome := Removed;
    }

    /**
      `setBudget()`: a non-numeric input changes nothing. The user is asked
      only when the month already has a truthy budget that differs from the
      new value; a declined prompt keeps the old budget. Otherwise the value
      is assigned, the budget table saved and the month re-rendered.
     */
    method SetBudget(month: nat, value: Option<real>, confirmed: bool) returns (result: BudgetResult, prompted: bool)
      requires Valid() && month < 12
      modifies this
      ensures Valid()
      ensures prompted <==> value.Some? && AsksToOverwrite(old(budgets), MonthKey(month), value.value)
      ensures result == if value.None? then InvalidBudget
                        else if prompted && !confirmed then Kept
                        else BudgetSet
      ensures result == BudgetSet ==>
                && budgets == old(budgets)[MonthKey(month) := value.value]
                && savedBudgets == Some(budgets)
                && ShowsMonth(month, old(chart))
      ensures result != BudgetSet ==>
                && budgets == old(budgets) && savedBudgets == old(savedBudgets)
                && chart == old(chart) && chartAlive == old(chartAlive)
      ensures transactions == old(transactions) && savedTransactions == old(savedTransactions)
      ensures currency == old(currency) && savedCurrency == old(savedCurrency)
    {
      var key := MonthKey(month);
      prompted := false;
      if value.None? {
        return InvalidBudget, prompted;
      }
      if key in budgets && budgets[key] != 0.0 && budgets[key] != value.value {
        prompted := true;
        if !confirmed {
          return Kept, prompted;
        }
      }
      budgets := budgets[key := value.value];
      savedBudgets := Some(budgets);
      var shown := Render(month);
      result := BudgetSet;
    }
  }
}
