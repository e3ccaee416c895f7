/**
 * The financial report page: a profit and loss statement grouped by category over an
 * inclusive date range, and a simple balance sheet as of now.
 */
module Report {
  import opened Wrappers
  import opened Seqs
  import opened Calendar
  import opened TransactionModel
  import opened GoatModel

  /** The fixed category -> label table of the report. */
  const CategoryLabels: map<string, string> := map[
    PenjualanKambing := "Penjualan Kambing",
    PenjualanSusu := "Penjualan Susu",
    PembelianKambing := "Pembelian Kambing",
    PembelianPakan := "Pembelian Pakan",
    BiayaKesehatan := "Biaya Kesehatan",
    BiayaOperasional := "Biaya Operasional",
    ModalAwal := "Modal Awal",
    Lainnya := "Lainnya"]

  /** `$categoryLabels[$category] ?? $category`. */
  function CategoryLabel(c: string): string {
    if c in CategoryLabels then CategoryLabels[c] else c
  }

  /** The table covers exactly the eight category keys; any other key is its own label. */
  lemma CategoryLabelLookup(c: string)
    ensures CategoryLabels.Keys == set k | k in CategoryKeys
    ensures c in CategoryKeys ==> CategoryLabel(c) == CategoryLabels[c] && CategoryLabel(c) != c
    ensures c !in CategoryKeys ==> CategoryLabel(c) == c
  {
  }

  /** One line of the statement: a category, its label and its summed amount. */
  datatype Line = Line(category: string, labelText: string, amount: int)

  /** The distinct categories of `ts`, in order of first appearance (`groupBy('category')`). */
  function Categories(ts: seq<Transaction>): (cs: seq<string>)
    ensures NoDuplicates(cs)
    ensures forall c :: c in cs <==> exists t :: t in ts && t.category == c
  {
    if |ts| == 0 then []
    else
      var init := ts[..|ts| - 1];
      var t := ts[|ts| - 1];
      var cs := Categories(init);
      assert forall u :: u in ts <==> u in init || u == t;
      if t.category in cs then cs else cs + [t.category]
  }

  /** `SUM(amount)` over the rows of one category. */
  function CategorySum(ts: seq<Transaction>, c: string): int {
    SumAmount(Where(ts, CategoryIs(c)))
  }

  lemma CategorySumStep(ts: seq<Transaction>, t: Transaction, c: string)
    ensures CategorySum(ts + [t], c) == CategorySum(ts, c) + (if t.category == c then t.amount else 0)
  {
    var w := Where(ts, CategoryIs(c));
    assert (ts + [t])[..|ts|] == ts;
    if t.category == c {
      assert (w + [t])[..|w|] == w;
    } else {
      assert w + [] == w;
    }
  }

  /** A category no row carries sums to 0. */
  lemma CategorySumAbsent(ts: seq<Transaction>, c: string)
    requires forall t :: t in ts ==> t.category != c
    ensures CategorySum(ts, c) == 0
  {
    WhereNone(ts, CategoryIs(c));
  }

  /** The statement lines for the categories `cs` (`pluck('total', 'category')` then the label map). */
  function LinesFor(cs: seq<string>, ts: seq<Transaction>): (ls: seq<Line>)
    ensures |ls| == |cs|
  {
    seq(|cs|, i requires 0 <= i < |cs| => Line(cs[i], CategoryLabel(cs[i]), CategorySum(ts, cs[i])))
  }

  /** The categories of the lines, in order. */
  function LineCategories(ls: seq<Line>): (cs: seq<string>)
    ensures |cs| == |ls| && forall i :: 0 <= i < |ls| ==> cs[i] == ls[i].category
  {
    seq(|ls|, i requires 0 <= i < |ls| => ls[i].category)
  }

  /** `Collection::sum()` over the line amounts. */
  function LinesTotal(ls: seq<Line>): int {
    if |ls| == 0 then 0 else LinesTotal(ls[..|ls| - 1]) + ls[|ls| - 1].amount
  }

  /** Adding a row adds its amount to the lines total exactly when its category has a line. */
  lemma {:induction false} LinesForStep(cs: seq<string>, ts: seq<Transaction>, t: Transaction)
    requires NoDuplicates(cs)
    ensures LinesTotal(LinesFor(cs, ts + [t])) == LinesTotal(LinesFor(cs, ts)) + (if t.category in cs then t.amount else 0)
  {
    if |cs| > 0 {
      var init := cs[..|cs| - 1];
      var c := cs[|cs| - 1];
      assert LinesFor(cs, ts + [t])[..|cs| - 1] == LinesFor(init, ts + [t]);
      assert LinesFor(cs, ts)[..|cs| - 1] == LinesFor(init, ts);
      LinesForStep(init, ts, t);
      CategorySumStep(ts, t, c);
      assert t.category in cs <==> t.category in init || t.category == c;
      assert c !in init;
    }
  }

  /** Rows grouped by category: no category twice, and every line total reconciles with the direct sum. */
  lemma {:induction false} GroupTotal(ts: seq<Transaction>)
    ensures LinesTotal(LinesFor(Categories(ts), ts)) == SumAmount(ts)
  {
    if |ts| > 0 {
      var p := ts[..|ts| - 1];
      var t := ts[|ts| - 1];
      assert ts == p + [t];
      var cp := Categories(p);
      GroupTotal(p);
      if t.category in cp {
        LinesForStep(cp, p, t);
      } else {
        var cs := cp + [t.category];
        assert LinesFor(cs, ts)[..|cp|] == LinesFor(cp, ts);
        LinesForStep(cp, p, t);
        CategorySumStep(p, t, t.category);
        forall u | u in p
          ensures u.category != t.category
        {
        }
        CategorySumAbsent(p, t.category);
      }
    }
  }

  /** The lines of `ts` grouped by category. */
  function GroupByCategory(ts: seq<Transaction>): (ls: seq<Line>)
    ensures LineCategories(ls) == Categories(ts)
    ensures NoDuplicates(LineCategories(ls))
    ensures forall c :: c in LineCategories(ls) <==> exists t :: t in ts && t.category == c
    ensures forall i :: 0 <= i < |ls| ==> ls[i].labelText == CategoryLabel(ls[i].category)
    ensures forall i :: 0 <= i < |ls| ==> ls[i].amount == CategorySum(ts, ls[i].category)
    ensures LinesTotal(ls) == SumAmount(ts)
  {
    var cs := Categories(ts);
    GroupTotal(ts);
    var ls := LinesFor(cs, ts);
    assert LineCategories(ls) == cs;
    ls
  }

  datatype ProfitLoss = ProfitLoss(income: seq<Line>, expense: seq<Line>, totalIncome: int, totalExpense: int, netProfit: int)

  /** Income rows dated in [start, end]: `where('type', 'pemasukan')->whereBetween(...)`. */
  function IncomeBetween(ts: seq<Transaction>, start: Date, end: Date): seq<Transaction> {
    Where(ScopeIncome(ts), DateBetween(start, end))
  }

  function ExpenseBetween(ts: seq<Transaction>, start: Date, end: Date): seq<Transaction> {
    Where(ScopeExpense(ts), DateBetween(start, end))
  }

  /** The profit and loss statement over [start, end]. */
  function ProfitAndLoss(ts: seq<Transaction>, start: Date, end: Date): (pl: ProfitLoss)
    ensures pl.totalIncome == LinesTotal(pl.income) == SumAmount(IncomeBetween(ts, start, end))
    ensures pl.totalExpense == LinesTotal(pl.expense) == SumAmount(ExpenseBetween(ts, start, end))
    ensures pl.netProfit == pl.totalIncome - pl.totalExpense
    ensures forall c :: c in LineCategories(pl.income) <==>
      exists t :: t in ts && t.kind == Pemasukan && DateLe(start, t.date) && DateLe(t.date, end) && t.category == c
    ensures forall c :: c in LineCategories(pl.expense) <==>
      exists t :: t in ts && t.kind == Pengeluaran && DateLe(start, t.date) && DateLe(t.date, end) && t.category == c
    ensures NoDuplicates(LineCategories(pl.income)) && NoDuplicates(LineCategories(pl.expense))
    ensures forall i :: 0 <= i < |pl.income| ==>
      pl.income[i].labelText == CategoryLabel(pl.income[i].category) &&
      pl.income[i].amount == CategorySum(IncomeBetween(ts, start, end), pl.income[i].category)
    ensures forall i :: 0 <= i < |pl.expense| ==>
      pl.expense[i].labelText == CategoryLabel(pl.expense[i].category) &&
      pl.expense[i].amount == CategorySum(ExpenseBetween(ts, start, end), pl.expense[i].category)
  {
    var income := GroupByCategory(IncomeBetween(ts, start, end));
    var expense := GroupByCategory(ExpenseBetween(ts, start, end));
    var totalIncome := LinesTotal(income);
    var totalExpense := LinesTotal(expense);
    ProfitLoss(income, expense, totalIncome, totalExpense, totalIncome - totalExpense)
  }

  /** With no row in range (in particular when start > end) both sides are empty and every total is 0. */
  lemma EmptyRange(ts: seq<Transaction>, start: Date, end: Date)
    requires !DateLe(start, end) || forall t :: t in ts ==> !(DateLe(start, t.date) && DateLe(t.date, end))
    ensures var pl := ProfitAndLoss(ts, start, end);
      pl.income == [] && pl.expense == [] && pl.totalIncome == 0 && pl.totalExpense == 0 && pl.netProfit == 0
  {
    forall t | t in ts
      ensures !(DateLe(start, t.date) && DateLe(t.date, end))
    {
      if DateLe(start, t.date) && DateLe(t.date, end) {
        DateLeTransitive(start, t.date, end);
      }
    }
    WhereNone(ScopeIncome(ts), DateBetween(start, end));
    WhereNone(ScopeExpense(ts), DateBetween(start, end));
  }

  datatype Assets = Assets(cash: int, inventory: int, total: int)
  datatype Equity = Equity(initialCapital: int, retainedEarnings: int, total: int)
  datatype BalanceSheet = BalanceSheet(assets: Assets, equity: Equity)

  /** All-time income minus all-time expense (0 without rows, as `?: 0` gives). */
  function Cash(ts: seq<Transaction>): (c: int)
    ensures c == SignedTotal(ts)
  {
    IncomeMinusExpense(ts);
    SumAmount(ScopeIncome(ts)) - SumAmount(ScopeExpense(ts))
  }

  /** Every `modal_awal` row of either type, all time. */
  function InitialCapital(ts: seq<Transaction>): int {
    SumAmount(Where(ts, CategoryIs(ModalAwal)))
  }

  /** The simple balance sheet; it does not depend on any date range. */
  function BalanceSheetOf(ts: seq<Transaction>, goats: seq<Goat>): (b: BalanceSheet)
    ensures b.assets.cash == SignedTotal(ts)
    ensures b.assets.inventory == SumOfShares(goats)
    ensures b.assets.total == b.assets.cash + b.assets.inventory
    ensures b.equity.initialCapital == InitialCapital(ts)
    ensures b.equity.initialCapital + b.equity.retainedEarnings == b.assets.cash
    ensures b.equity.total == b.assets.total
    ensures -1 < b.assets.total - b.equity.total < 1
  {
    var cash := Cash(ts);
    InventoryIsSumOfShares(goats);
    var inventory := InventoryValue(goats);
    var totalAssets := cash + inventory;
    var initialCapital := InitialCapital(ts);
    BalanceSheet(
      Assets(cash, inventory, totalAssets),
      Equity(initialCapital, cash - initialCapital, totalAssets))
  }

  /** The rendered report: the date range actually used, the statement and the sheet. */
  datatype ReportPage = ReportPage(startDate: Date, endDate: Date, profitLoss: ProfitLoss, balanceSheet: BalanceSheet)

  /**
   * `ReportController::index`: `start_date` defaults to the first day of the current year and
   * `end_date` to today; the dates arrive already parsed.
   */
  function Index(ts: seq<Transaction>, goats: seq<Goat>, today: Date, startParam: Option<Date>, endParam: Option<Date>): (r: ReportPage)
    ensures r.startDate == (if startParam.Some? then startParam.value else Date(today.year, 1, 1))
    ensures r.endDate == (if endParam.Some? then endParam.value else today)
    ensures r.profitLoss == ProfitAndLoss(ts, r.startDate, r.endDate)
    ensures r.balanceSheet == BalanceSheetOf(ts, goats)
  {
    var start := startParam.GetOr(StartOfYear(today));
    var end := endParam.GetOr(today);
    ReportPage(start, end, ProfitAndLoss(ts, start, end), BalanceSheetOf(ts, goats))
  }

  /** One initial-capital income of 50,000,000 and nothing else: cash and capital are both 50,000,000. */
  lemma InitialCapitalScenario(t: Transaction)
    requires t.kind == Pemasukan && t.category == ModalAwal && t.amount == 5_000_000_000
    ensures var b := BalanceSheetOf([t], []);
      && b.assets == Assets(5_000_000_000, 0, 5_000_000_000)
      && b.equity == Equity(5_000_000_000, 0, 5_000_000_000)
  {
    var b := BalanceSheetOf([t], []);
    assert [t][..0] == [];
    assert SignedTotal([t]) == 5_000_000_000;
    assert b.assets.cash == 5_000_000_000;
    assert b.assets.inventory == 0;
    assert Where([t], CategoryIs(ModalAwal)) == [t];
    assert SumAmount([t]) == 5_000_000_000;
    assert b.equity.initialCapital == 5_000_000_000;
  }

  /** A healthy goat bought for 2,000,000 with its purchase recorded as an expense: inventory 2,000,000, cash -2,000,000. */
  lemma GoatPurchaseScenario(g: Goat, t: Transaction)
    requires g.status == Sehat && g.purchasePrice == Some(200_000_000)
    requires t.kind == Pengeluaran && t.category == PembelianKambing && t.amount == 200_000_000 && t.goatId == Some(g.id)
    ensures var b := BalanceSheetOf([t], [g]);
      b.assets == Assets(-200_000_000, 200_000_000, 0) && b.equity == Equity(0, -200_000_000, 0)
  {
    var b := BalanceSheetOf([t], [g]);
    assert [t][..0] == [];
    assert [g][..0] == [];
    assert SignedTotal([t]) == -200_000_000;
    assert b.assets.cash == -200_000_000;
    assert SumOfShares([g]) == 200_000_000;
    assert b.assets.inventory == 200_000_000;
    assert InitialCapital([t]) == 0 by {
      assert !CategoryIs(ModalAwal)(t);
      assert Where([t], CategoryIs(ModalAwal)) == [];
    }
    assert b.equity.initialCapital == 0;
  }
}
