/**
 * The dashboard: goat counts by status, month-to-date income and expense, the inventory
 * value, the five latest transactions and the six-month income/expense series.
 */
module Dashboard {
  import opened Wrappers
  import opened Seqs
  import opened Calendar
  import opened TransactionModel
  import opened GoatModel
  import opened ModelRelations

  datatype Stats = Stats(
    totalGoats: nat,
    healthyGoats: nat,
    sickGoats: nat,
    soldGoats: nat,
    monthlyIncome: int,
    monthlyExpense: int,
    monthlyProfit: int,
    inventoryValue: int)

  /** Income dated on or after the first day of the current month, with no upper bound. */
  function MonthToDateIncome(ts: seq<Transaction>, today: Date): int {
    SumAmount(Where(ScopeIncome(ts), DateFrom(FirstDay(MonthOf(today)))))
  }

  function MonthToDateExpense(ts: seq<Transaction>, today: Date): int {
    SumAmount(Where(ScopeExpense(ts), DateFrom(FirstDay(MonthOf(today)))))
  }

  lemma NothingThisMonth(ts: seq<Transaction>, today: Date)
    ensures (forall t :: t in ts ==> !DateLe(FirstDay(MonthOf(today)), t.date)) ==>
      MonthToDateIncome(ts, today) == 0 && MonthToDateExpense(ts, today) == 0
  {
    var from := FirstDay(MonthOf(today));
    if forall t :: t in ts ==> !DateLe(from, t.date) {
      WhereNone(ScopeIncome(ts), DateFrom(from));
      WhereNone(ScopeExpense(ts), DateFrom(from));
    }
  }

  /** The `stats` block of the dashboard. */
  function StatsOf(goats: seq<Goat>, ts: seq<Transaction>, today: Date): (s: Stats)
    ensures s.totalGoats == |goats|
    ensures s.healthyGoats == |ScopeHealthy(goats)| == CountStatus(goats, Sehat)
    ensures s.sickGoats == CountStatus(goats, Sakit) == |Where(goats, StatusIs(Sakit))|
    ensures s.soldGoats == CountStatus(goats, Dijual) == |Where(goats, StatusIs(Dijual))|
    ensures s.monthlyIncome == MonthToDateIncome(ts, today)
    ensures s.monthlyExpense == MonthToDateExpense(ts, today)
    ensures s.healthyGoats + s.sickGoats + s.soldGoats <= s.totalGoats
    ensures (forall g :: g in goats ==> g.status in Statuses) ==>
      s.healthyGoats + s.sickGoats + s.soldGoats + CountStatus(goats, Mati) == s.totalGoats
    ensures s.monthlyProfit == s.monthlyIncome - s.monthlyExpense
    ensures s.inventoryValue == SumOfShares(goats)
    ensures (forall t :: t in ts ==> !DateLe(FirstDay(MonthOf(today)), t.date)) ==>
      s.monthlyIncome == 0 && s.monthlyExpense == 0 && s.monthlyProfit == 0
  {
    StatusCounts(goats);
    CountIsSelectionSize(goats, Sehat);
    CountIsSelectionSize(goats, Sakit);
    CountIsSelectionSize(goats, Dijual);
    InventoryIsSumOfShares(goats);
    NothingThisMonth(ts, today);
    var income := MonthToDateIncome(ts, today);
    var expense := MonthToDateExpense(ts, today);
    Stats(|goats|, CountStatus(goats, Sehat), CountStatus(goats, Sakit), CountStatus(goats, Dijual),
          income, expense, income - expense, InventoryValue(goats))
  }

  /** Ordered by transaction date, latest first. */
  predicate NewestFirst(s: seq<Transaction>) {
    forall i, j :: 0 <= i < j < |s| ==> DateLe(s[j].date, s[i].date)
  }

  lemma HeadIsNewest(s: seq<Transaction>)
    requires NewestFirst(s) && |s| > 0
    ensures forall x :: x in s ==> DateLe(x.date, s[0].date)
  {
    forall x | x in s
      ensures DateLe(x.date, s[0].date)
    {
      var i :| 0 <= i < |s| && s[i] == x;
      if i == 0 {
        DateLeTotal(x.date, x.date);
      }
    }
  }

  /** Putting a row in front keeps the order when it is no older than the current head. */
  lemma ConsNewest(x: Transaction, s: seq<Transaction>)
    requires NewestFirst(s)
    requires |s| > 0 ==> DateLe(s[0].date, x.date)
    ensures NewestFirst([x] + s)
  {
    var r := [x] + s;
    forall i, j | 0 <= i < j < |r|
      ensures DateLe(r[j].date, r[i].date)
    {
      if i == 0 {
        DateLeTransitive(s[j - 1].date, s[0].date, x.date);
      } else {
        assert r[i] == s[i - 1] && r[j] == s[j - 1];
      }
    }
  }

  function InsertByDate(t: Transaction, s: seq<Transaction>): (r: seq<Transaction>)
    requires NewestFirst(s)
    ensures NewestFirst(r)
    ensures |r| == |s| + 1
    ensures multiset(r) == multiset(s) + multiset{t}
    ensures forall x :: x in r <==> x in s || x == t
  {
    if |s| == 0 then [t]
    else if DateLe(s[0].date, t.date) then
      ConsNewest(t, s);
      [t] + s
    else
      var rest := InsertByDate(t, s[1..]);
      assert s == [s[0]] + s[1..];
      assert rest[0] in rest;
      HeadIsNewest(s);
      DateLeTotal(s[0].date, t.date);
      assert DateLe(rest[0].date, s[0].date);
      ConsNewest(s[0], rest);
      [s[0]] + rest
  }

  /** The transactions sorted latest first (`latest('transaction_date')`); ties keep a fixed order. */
  function SortNewestFirst(ts: seq<Transaction>): (r: seq<Transaction>)
    ensures NewestFirst(r)
    ensures |r| == |ts|
    ensures multiset(r) == multiset(ts)
  {
    if |ts| == 0 then []
    else
      assert ts == [ts[0]] + ts[1..];
      InsertByDate(ts[0], SortNewestFirst(ts[1..]))
  }

  /** A prefix of a latest-first sequence is latest-first, and nothing after it is newer. */
  lemma PrefixOfSorted(s: seq<Transaction>, k: nat)
    requires NewestFirst(s) && k <= |s|
    ensures NewestFirst(s[..k])
    ensures multiset(s[..k]) <= multiset(s)
    ensures multiset(s) - multiset(s[..k]) == multiset(s[k..])
    ensures forall t, i :: t in multiset(s[k..]) && 0 <= i < k ==> DateLe(t.date, s[i].date)
  {
    assert s == s[..k] + s[k..];
    forall t, i | t in multiset(s[k..]) && 0 <= i < k
      ensures DateLe(t.date, s[i].date)
    {
      assert t in s[k..];
      var j :| k <= j < |s| && s[j] == t;
    }
  }

  /** `latest('transaction_date')->limit(n)`: the n latest transactions, latest first. */
  function Latest(ts: seq<Transaction>, n: nat): (r: seq<Transaction>)
    ensures |r| == if n < |ts| then n else |ts|
    ensures NewestFirst(r)
    ensures multiset(r) <= multiset(ts)
    ensures forall t, i :: t in multiset(ts) - multiset(r) && 0 <= i < |r| ==> DateLe(t.date, r[i].date)
  {
    var s := SortNewestFirst(ts);
    var k := if n < |s| then n else |s|;
    PrefixOfSorted(s, k);
    s[..k]
  }

  /** A recent transaction with its goat eager-loaded (`with('goat')`). */
  datatype RecentRow = RecentRow(transaction: Transaction, goat: Option<Goat>)

  function RecentTransactions(ts: seq<Transaction>, goats: seq<Goat>): (r: seq<RecentRow>)
    ensures |r| <= 5 && |r| == if |ts| < 5 then |ts| else 5
    ensures forall i :: 0 <= i < |r| ==> r[i].transaction == Latest(ts, 5)[i]
    ensures forall i :: 0 <= i < |r| ==> r[i].goat == TransactionGoat(r[i].transaction, goats)
  {
    var latest := Latest(ts, 5);
    seq(|latest|, i requires 0 <= i < |latest| => RecentRow(latest[i], TransactionGoat(latest[i], goats)))
  }

  /** One point of the six-month chart. */
  datatype MonthEntry = MonthEntry(month: YearMonth, income: int, expense: int, profit: int)

  /** The amounts of the rows of type `kind` dated in [start, end], added row by row. */
  function WindowSum(ts: seq<Transaction>, kind: string, start: Date, end: Date): int {
    if |ts| == 0 then 0
    else
      var t := ts[|ts| - 1];
      WindowSum(ts[..|ts| - 1], kind, start, end)
        + (if t.kind == kind && DateLe(start, t.date) && DateLe(t.date, end) then t.amount else 0)
  }

  /** The row-by-row sum is the query `where('type', kind)->whereBetween(...)->sum('amount')`. */
  lemma {:induction false} WindowSumIsQuery(ts: seq<Transaction>, kind: string, start: Date, end: Date)
    ensures WindowSum(ts, kind, start, end) == SumAmount(Where(Where(ts, TypeIs(kind)), DateBetween(start, end)))
  {
    if |ts| > 0 {
      var init, t := ts[..|ts| - 1], ts[|ts| - 1];
      WindowSumIsQuery(init, kind, start, end);
      var k := Where(init, TypeIs(kind));
      var tail := if t.kind == kind then [t] else [];
      assert Where(ts, TypeIs(kind)) == k + tail;
      WhereAppend(k, tail, DateBetween(start, end));
      SumAmountAppend(Where(k, DateBetween(start, end)), Where(tail, DateBetween(start, end)));
      if t.kind == kind {
        SingletonSum(t, DateBetween(start, end));
      } else {
        assert Where(tail, DateBetween(start, end)) == [];
      }
    }
  }

  lemma SingletonSum(t: Transaction, p: Transaction -> bool)
    ensures SumAmount(Where([t], p)) == if p(t) then t.amount else 0
  {
    assert [t][..0] == [];
    if p(t) {
      assert Where([t], p) == [t];
    } else {
      assert Where([t], p) == [];
    }
  }

  /** One chart entry: the sums over the closed window first day .. last day of `ym`. */
  function EntryFor(ts: seq<Transaction>, ym: YearMonth): (e: MonthEntry)
    requires ValidMonth(ym)
    ensures e.month == ym && e.profit == e.income - e.expense
  {
    var income := WindowSum(ts, Pemasukan, FirstDay(ym), LastDay(ym));
    var expense := WindowSum(ts, Pengeluaran, FirstDay(ym), LastDay(ym));
    MonthEntry(ym, income, expense, income - expense)
  }

  function InMonth(ym: YearMonth): Transaction -> bool {
    (t: Transaction) => MonthOf(t.date) == ym
  }

  /** For a ledger of valid dates, an entry sums exactly the transactions of its calendar month. */
  lemma EntryIsMonthSum(ts: seq<Transaction>, ym: YearMonth)
    requires ValidMonth(ym)
    requires forall t :: t in ts ==> ValidDate(t.date)
    ensures EntryFor(ts, ym).income == SumAmount(Where(ScopeIncome(ts), InMonth(ym)))
    ensures EntryFor(ts, ym).expense == SumAmount(Where(ScopeExpense(ts), InMonth(ym)))
    ensures EntryFor(ts, ym).profit == EntryFor(ts, ym).income - EntryFor(ts, ym).expense
  {
    var window := DateBetween(FirstDay(ym), LastDay(ym));
    WindowSumIsQuery(ts, Pemasukan, FirstDay(ym), LastDay(ym));
    WindowSumIsQuery(ts, Pengeluaran, FirstDay(ym), LastDay(ym));
    forall t | t in ts
      ensures window(t) == InMonth(ym)(t)
    {
      MonthWindow(t.date, ym);
    }
    WhereCongruent(ScopeIncome(ts), window, InMonth(ym));
    WhereCongruent(ScopeExpense(ts), window, InMonth(ym));
  }

  /** The six months the chart covers: five months back up to the month of `today`, oldest first. */
  function SeriesMonths(today: Date): (ms: seq<YearMonth>)
    requires ValidDate(today)
    ensures |ms| == 6
    ensures ms[5] == MonthOf(today)
    ensures forall k :: 0 <= k < 6 ==> ValidMonth(ms[k]) && ms[k] == SubMonths(MonthOf(today), 5 - k)
    ensures forall k :: 0 <= k < 5 ==> MonthIndex(ms[k + 1]) == MonthIndex(ms[k]) + 1
  {
    var m := MonthOf(today);
    [SubMonths(m, 5), SubMonths(m, 4), SubMonths(m, 3), SubMonths(m, 2), SubMonths(m, 1), m]
  }

  function EntriesFor(ts: seq<Transaction>, months: seq<YearMonth>): (r: seq<MonthEntry>)
    requires forall k :: 0 <= k < |months| ==> ValidMonth(months[k])
    ensures |r| == |months|
    ensures forall k :: 0 <= k < |months| ==> r[k] == EntryFor(ts, months[k])
  {
    if |months| == 0 then []
    else
      var init := months[..|months| - 1];
      assert forall k :: 0 <= k < |init| ==> init[k] == months[k];
      EntriesFor(ts, init) + [EntryFor(ts, months[|months| - 1])]
  }

  /** The six entries the chart shows, oldest first. */
  function Series(ts: seq<Transaction>, today: Date): (s: seq<MonthEntry>)
    requires ValidDate(today)
    ensures |s| == 6
    ensures s[5].month == MonthOf(today)
    ensures forall k :: 0 <= k < 5 ==> MonthIndex(s[k + 1].month) == MonthIndex(s[k].month) + 1
    ensures forall k :: 0 <= k < 6 ==> s[k].month == SubMonths(MonthOf(today), 5 - k)
    ensures forall k :: 0 <= k < 6 ==> ValidMonth(s[k].month) && s[k] == EntryFor(ts, s[k].month)
  {
    EntriesFor(ts, SeriesMonths(today))
  }

  /** The `for ($i = 5; $i >= 0; $i--)` loop that appends one entry per month. */
  method MonthlySeries(ts: seq<Transaction>, today: Date) returns (data: seq<MonthEntry>)
    requires ValidDate(today)
    ensures data == Series(ts, today)
  {
    data := [];
    var i := 5;
    while i >= 0
      invariant -1 <= i <= 5
      invariant |data| == 5 - i
      invariant forall k :: 0 <= k < |data| ==> data[k] == EntryFor(ts, SubMonths(MonthOf(today), 5 - k))
    {
      var month := SubMonths(MonthOf(today), i);
      var monthStart, monthEnd := FirstDay(month), LastDay(month);
      var income := WindowSum(ts, Pemasukan, monthStart, monthEnd);
      var expense := WindowSum(ts, Pengeluaran, monthStart, monthEnd);
      data := data + [MonthEntry(month, income, expense, income - expense)];
      i := i - 1;
    }
    ghost var s := Series(ts, today);
    assert forall k :: 0 <= k < 6 ==> data[k] == s[k];
  }

  /**
   * The month-to-date figures have no upper bound and the chart's last entry does; they
   * agree whenever no transaction is dated after today, which the form rules enforce.
   */
  lemma MonthToDateMatchesSeries(ts: seq<Transaction>, today: Date)
    requires ValidDate(today)
    requires forall t :: t in ts ==> ValidDate(t.date) && DateLe(t.date, today)
    ensures MonthToDateIncome(ts, today) == Series(ts, today)[5].income
    ensures MonthToDateExpense(ts, today) == Series(ts, today)[5].expense
  {
    var ym := MonthOf(today);
    var from := DateFrom(FirstDay(ym));
    var window := DateBetween(FirstDay(ym), LastDay(ym));
    WindowSumIsQuery(ts, Pemasukan, FirstDay(ym), LastDay(ym));
    WindowSumIsQuery(ts, Pengeluaran, FirstDay(ym), LastDay(ym));
    forall t | t in ts
      ensures from(t) == window(t)
    {
      DateLeTransitive(t.date, today, LastDay(ym));
    }
    WhereCongruent(ScopeIncome(ts), from, window);
    WhereCongruent(ScopeExpense(ts), from, window);
  }

  /** The month of entry `5 - i` as the controller computes it: `now()->subMonths($i)`. */
  function SeriesMonthAsWritten(today: Date, i: nat): YearMonth
    requires ValidDate(today)
  {
    MonthOf(CarbonSubMonths(today, i))
  }

  /** On 31 March 2026 the controller's months are Oct, Dec, Dec, Jan, Mar, Mar: November and February are missing. */
  lemma OverflowRepeatsMonths()
    ensures SeriesMonthAsWritten(Date(2026, 3, 31), 1) == YearMonth(2026, 3) == SeriesMonthAsWritten(Date(2026, 3, 31), 0)
    ensures SeriesMonthAsWritten(Date(2026, 3, 31), 4) == YearMonth(2025, 12)
    ensures forall i :: 0 <= i <= 5 ==> SeriesMonthAsWritten(Date(2026, 3, 31), i) != YearMonth(2026, 2)
  {
    var today := Date(2026, 3, 31);
    assert SubMonths(MonthOf(today), 1) == YearMonth(2026, 2);
    assert NextMonth(YearMonth(2026, 2)) == YearMonth(2026, 3);
    assert SubMonths(MonthOf(today), 4) == YearMonth(2025, 11);
    assert NextMonth(YearMonth(2025, 11)) == YearMonth(2025, 12);
    assert SubMonths(MonthOf(today), 2) == YearMonth(2026, 1);
    assert SubMonths(MonthOf(today), 3) == YearMonth(2025, 12);
    assert SubMonths(MonthOf(today), 5) == YearMonth(2025, 10);
    assert SubMonths(MonthOf(today), 0) == YearMonth(2026, 3);
  }

  /** `DashboardController::index`. */
  method Index(goats: seq<Goat>, ts: seq<Transaction>, today: Date)
    returns (stats: Stats, recent: seq<RecentRow>, monthlyData: seq<MonthEntry>)
    requires ValidDate(today)
    ensures stats == StatsOf(goats, ts, today)
    ensures recent == RecentTransactions(ts, goats)
    ensures monthlyData == Series(ts, today)
  {
    stats := StatsOf(goats, ts, today);
    recent := RecentTransactions(ts, goats);
    monthlyData := MonthlySeries(ts, today);
  }
}
