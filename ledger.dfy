/**
  The month-keyed tables of the budget widget, as values: the transaction
  ledger, the budget table, the persisted-blob defaults and the rules the
  session applies to them (append, `splice(index, 1)`, the running total and
  the budget-overwrite test).
 */
module Ledger {
  import opened Wrappers

  /** One recorded entry: `{ desc, amount, timestamp, tags }`. A negative amount is an expense. */
  datatype Tx = Tx(desc: string, amount: real, timestamp: string, tags: seq<string>)

  type Transactions = map<string, seq<Tx>>
  type Budgets = map<string, real>

  /** The currency symbol used when nothing usable is stored (the rupee sign). */
  const DefaultCurrency: string := "\U{20B9}"

  /** `String(index)` for a month index of the dropdown: its decimal digits. */
  function MonthKey(month: nat): (k: string)
    requires month < 12
    ensures 1 <= |k| <= 2 && forall i :: 0 <= i < |k| ==> '0' <= k[i] <= '9'
    ensures |k| == 1 <==> month < 10
    ensures k[|k| - 1] as int - '0' as int == month % 10
    ensures month >= 10 ==> k[0] == '1'
  {
    if month < 10 then [('0' as int + month) as char]
    else ['1', ('0' as int + month - 10) as char]
  }

  /** Different months never share a key, so updating one month's entry leaves every other month alone. */
  lemma MonthKeyInjective(a: nat, b: nat)
    requires a < 12 && b < 12
    ensures MonthKey(a) == MonthKey(b) <==> a == b
  {
    if MonthKey(a) == MonthKey(b) {
      var k := MonthKey(a);
      assert |k| == 1 <==> b < 10;
      assert k[|k| - 1] as int - '0' as int == b % 10;
    }
  }

  /** `transactions[key] || []`: the month's list, or the empty list when the month has none. */
  function MonthTxs(t: Transactions, key: string): (s: seq<Tx>)
    ensures key !in t ==> s == []
    ensures key in t ==> s == t[key]
  {
    if key in t then t[key] else []
  }

  /** Every entry is an income (amount at least 0). */
  predicate AllIncome(s: seq<Tx>) {
    forall i :: 0 <= i < |s| ==> s[i].amount >= 0.0
  }

  /** Every entry is an expense (amount at most 0). */
  predicate AllExpense(s: seq<Tx>) {
    forall i :: 0 <= i < |s| ==> s[i].amount <= 0.0
  }

  /**
    Running total of the amounts, accumulated from the first entry to the
    last as `total += t.amount`: a month of incomes only never totals below
    zero, and a month of expenses only never above.
   */
  function Sum(s: seq<Tx>): (total: real)
    ensures AllIncome(s) ==> total >= 0.0
    ensures AllExpense(s) ==> total <= 0.0
  {
    if s == [] then 0.0 else Sum(s[..|s| - 1]) + s[|s| - 1].amount
  }

  /** The total of two consecutive runs of entries is the sum of their totals. */
  lemma {:induction false} SumConcat(a: seq<Tx>, b: seq<Tx>)
    ensures Sum(a + b) == Sum(a) + Sum(b)
  {
    if b != [] {
      assert (a + b)[..|a + b| - 1] == a + b[..|b| - 1];
      SumConcat(a, b[..|b| - 1]);
    } else {
      assert a + b == a;
    }
  }

  /**
    The month's list after an add: created empty if absent (`if
    (!transactions[key]) transactions[key] = []`), then `tx` pushed at its end.
   */
  function Append(t: Transactions, key: string, tx: Tx): (r: Transactions)
    ensures r.Keys == t.Keys + {key}
    ensures |r[key]| == |MonthTxs(t, key)| + 1
    ensures r[key][..|r[key]| - 1] == MonthTxs(t, key) && r[key][|r[key]| - 1] == tx
    ensures forall k :: k in t && k != key ==> r[k] == t[k]
  {
    t[key := MonthTxs(t, key) + [tx]]
  }

  /** Replacing one month's list leaves the list of every other month as it was. */
  lemma OtherMonthsUntouched(t: Transactions, month: nat, other: nat, s: seq<Tx>)
    requires month < 12 && other < 12 && month != other
    ensures MonthTxs(t[MonthKey(month) := s], MonthKey(other)) == MonthTxs(t, MonthKey(other))
  {
    MonthKeyInjective(month, other);
  }

  /** Adding an entry moves the month's total by exactly that entry's amount. */
  lemma AppendTotal(t: Transactions, key: string, tx: Tx)
    ensures Sum(MonthTxs(Append(t, key, tx), key)) == Sum(MonthTxs(t, key)) + tx.amount
  {
    SumConcat(MonthTxs(t, key), [tx]);
  }

  /**
    `s` with position `i` cut out: the entries before it stay where they are,
    the entries after it shift down by one, and nothing else is lost.
   */
  function Excise<T>(s: seq<T>, i: nat): (r: seq<T>)
    requires i < |s|
    ensures |r| == |s| - 1
    ensures forall j :: 0 <= j < i ==> r[j] == s[j]
    ensures forall j :: i <= j < |r| ==> r[j] == s[j + 1]
    ensures multiset(r) + multiset{s[i]} == multiset(s)
  {
    assert s == s[..i] + [s[i]] + s[i + 1..];
    s[..i] + s[i + 1..]
  }

  /** Pushing one entry adds its amount to the total. */
  lemma SumSnoc(a: seq<Tx>, x: Tx)
    ensures Sum(a + [x]) == Sum(a) + x.amount
  {
    assert (a + [x])[..|a|] == a;
  }

  /** The total of a run is the total before position `i`, plus the entry at `i`, plus the total after it. */
  lemma SumAround(s: seq<Tx>, i: nat)
    requires i < |s|
    ensures Sum(s) == Sum(s[..i]) + s[i].amount + Sum(s[i + 1..])
  {
    var front, tail := s[..i], s[i + 1..];
    assert s == front + [s[i]] + tail;
    SumConcat(front + [s[i]], tail);
    SumSnoc(front, s[i]);
  }

  /** Removing an entry moves the month's total by minus that entry's amount. */
  lemma ExciseTotal(s: seq<Tx>, i: nat)
    requires i < |s|
    ensures Sum(Excise(s, i)) == Sum(s) - s[i].amount
  {
    SumAround(s, i);
    SumConcat(s[..i], s[i + 1..]);
  }

  /**
    The start position of `splice(index, ...)` on a list of length `n`: a
    negative index counts from the end (clamped at 0), a large one is clamped
    at `n`.
   */
  function SpliceStart(n: nat, index: int): (k: nat)
    ensures k <= n
    ensures 0 <= index < n ==> k == index
    ensures index < 0 && 0 <= n + index ==> k == n + index
    ensures n + index < 0 ==> k == 0
    ensures index >= n ==> k == n
  {
    if index < 0 then (if n + index < 0 then 0 else n + index)
    else if index < n then index else n
  }

  /**
    `s.splice(index, 1)`: removes the entry at the splice start, if there is
    one there. Whatever the index, at most one entry goes and none comes in.
   */
  function SpliceOne<T>(s: seq<T>, index: int): (r: seq<T>)
    ensures |r| == |s| || |r| == |s| - 1
    ensures multiset(r) <= multiset(s)
  {
    var k := SpliceStart(|s|, index);
    if k < |s| then Excise(s, k) else s
  }

  /**
    What `splice(index, 1)` does with the indices the rendered list hands out
    (0 <= index < n): it excises exactly that entry. Any other index either
    removes nothing (index >= n) or one entry counted from the end.
   */
  lemma SpliceOneCases<T>(s: seq<T>, index: int)
    ensures 0 <= index < |s| ==> SpliceOne(s, index) == Excise(s, index)
    ensures index >= |s| ==> SpliceOne(s, index) == s
    ensures index < 0 && 0 <= |s| + index ==> SpliceOne(s, index) == Excise(s, |s| + index)
    ensures |SpliceOne(s, index)| == if index < |s| && s != [] then |s| - 1 else |s|
  {
  }

  /** The month total after a removal handed out by the list: the old total minus the removed amount. */
  lemma SpliceTotal(s: seq<Tx>, index: nat)
    requires index < |s|
    ensures Sum(SpliceOne(s, index)) == Sum(s) - s[index].amount
  {
    ExciseTotal(s, index);
  }

  /** `JSON.parse(localStorage.getItem(name) || "{}")`: the stored table, or the empty one. */
  function LoadTable<V>(stored: Option<map<string, V>>): (m: map<string, V>)
    ensures stored.None? ==> m == map[]
    ensures stored.Some? ==> m == stored.value
  {
    stored.GetOr(map[])
  }

  /**
    `localStorage.getItem("currency") || DefaultCurrency`: a stored empty
    string is falsy, so it loads as the default just like a missing entry.
   */
  function LoadCurrency(stored: Option<string>): (c: string)
    ensures c != []
    ensures stored.Some? && stored.value != [] ==> c == stored.value
    ensures stored.None? || stored.value == [] ==> c == DefaultCurrency
  {
    if stored.Some? && stored.value != [] then stored.value else DefaultCurrency
  }

  /** A saved currency comes back on reload exactly when it is not the empty string. */
  lemma CurrencyRoundTrip(c: string)
    ensures LoadCurrency(Some(c)) == c <==> c != []
  {
  }

  /**
    `budgets[key] && budgets[key] !== budget`: the user is asked before an
    overwrite only when a truthy (non-zero) budget is stored for the month and
    the new value differs from it. So the user is never asked about an
    assignment that changes nothing, and a stored non-zero budget is never
    changed without asking.
   */
  function AsksToOverwrite(b: Budgets, key: string, value: real): (asks: bool)
    ensures asks ==> b[key := value] != b
    ensures !asks && key in b && b[key] != 0.0 ==> b[key := value] == b
  {
    key in b && b[key] != 0.0 && b[key] != value
  }

  /**
    The three cases of the overwrite rule: no stored budget, a stored zero or
    an equal value never ask; a different non-zero stored value always does.
    After the assignment, setting the same value again never asks and changes
    nothing.
   */
  lemma OverwriteRule(b: Budgets, key: string, value: real)
    ensures key !in b ==> !AsksToOverwrite(b, key, value)
    ensures key in b && (b[key] == 0.0 || b[key] == value) ==> !AsksToOverwrite(b, key, value)
    ensures key in b && b[key] != 0.0 && b[key] != value ==> AsksToOverwrite(b, key, value)
    ensures !AsksToOverwrite(b[key := value], key, value) && b[key := value][key := value] == b[key := value]
  {
  }
}
