/**
 * The `transactions` table and the Transaction model: the row, the column enumerations
 * and precision of the migration, the `income`/`expense` query scopes, amount sums and
 * the "Rp" formatted amount.
 */
module TransactionModel {
  import opened Wrappers
  import opened Calendar
  import opened Seqs
  import NumberFormat

  /** A row of the `transactions` table; `amount` is in integer cents. */
  datatype Transaction = Transaction(
    id: nat,
    date: Date,             // transaction_date
    kind: string,           // the `type` column
    category: string,
    description: string,
    amount: int,
    reference: Option<string>,
    goatId: Option<nat>,    // nullable foreign key to goats.id
    notes: Option<string>)

  const Pemasukan: string := "pemasukan"
  const Pengeluaran: string := "pengeluaran"
  const TransactionTypes: set<string> := {Pemasukan, Pengeluaran}

  const PenjualanKambing: string := "penjualan_kambing"
  const PenjualanSusu: string := "penjualan_susu"
  const PembelianKambing: string := "pembelian_kambing"
  const PembelianPakan: string := "pembelian_pakan"
  const BiayaKesehatan: string := "biaya_kesehatan"
  const BiayaOperasional: string := "biaya_operasional"
  const ModalAwal: string := "modal_awal"
  const Lainnya: string := "lainnya"

  /** The category enumeration; it does not depend on the type. */
  const CategoryKeys: seq<string> :=
    [PenjualanKambing, PenjualanSusu, PembelianKambing, PembelianPakan,
     BiayaKesehatan, BiayaOperasional, ModalAwal, Lainnya]

  /** `decimal(15, 2)`: at most 13 integer digits, so fewer than 10^15 cents in magnitude. */
  const AmountLimit: int := 1_000_000_000_000_000

  /** What the `transactions` columns admit. */
  predicate WellFormed(t: Transaction) {
    && ValidDate(t.date)
    && t.kind in TransactionTypes
    && t.category in CategoryKeys
    && -AmountLimit < t.amount < AmountLimit
    && |t.description| <= 255
    && (t.reference.Some? ==> |t.reference.value| <= 255)
  }

  /** A value written to a `decimal(_, 2)` column, in cents: rounded half away from zero. */
  function ToCents(x: real): (c: int)
    ensures x >= 0.0 ==> c as real <= x * 100.0 + 0.5 < c as real + 1.0
    ensures x < 0.0 ==> c as real - 1.0 < x * 100.0 - 0.5 <= c as real
    ensures x >= 0.01 ==> c >= 1
    ensures x >= 0.0 ==> c >= 0
  {
    if x >= 0.0 then (x * 100.0 + 0.5).Floor else -((-x * 100.0 + 0.5).Floor)
  }

  function TypeIs(ty: string): Transaction -> bool {
    (t: Transaction) => t.kind == ty
  }

  function CategoryIs(c: string): Transaction -> bool {
    (t: Transaction) => t.category == c
  }

  /** `whereBetween('transaction_date', [start, end])`: both ends inclusive. */
  function DateBetween(start: Date, end: Date): Transaction -> bool {
    (t: Transaction) => DateLe(start, t.date) && DateLe(t.date, end)
  }

  /** `where('transaction_date', '>=', start)`: no upper bound. */
  function DateFrom(start: Date): Transaction -> bool {
    (t: Transaction) => DateLe(start, t.date)
  }

  function GoatIs(id: nat): Transaction -> bool {
    (t: Transaction) => t.goatId == Some(id)
  }

  /** `scopeIncome`: the income transactions, in order. */
  function ScopeIncome(ts: seq<Transaction>): (r: seq<Transaction>)
    ensures forall t :: t in r <==> t in ts && t.kind == Pemasukan
  {
    Where(ts, TypeIs(Pemasukan))
  }

  /** `scopeExpense`: the expense transactions, in order. */
  function ScopeExpense(ts: seq<Transaction>): (r: seq<Transaction>)
    ensures forall t :: t in r <==> t in ts && t.kind == Pengeluaran
  {
    Where(ts, TypeIs(Pengeluaran))
  }

  /** The two scopes never share a row, so together they hold at most the whole ledger. */
  lemma {:induction false} ScopesDisjoint(ts: seq<Transaction>)
    ensures |ScopeIncome(ts)| + |ScopeExpense(ts)| <= |ts|
    ensures (forall t :: t in ts ==> t.kind in TransactionTypes) ==> |ScopeIncome(ts)| + |ScopeExpense(ts)| == |ts|
  {
    if |ts| > 0 {
      var init := ts[..|ts| - 1];
      assert forall t :: t in init ==> t in ts;
      ScopesDisjoint(init);
    }
  }

  /** Sum of the amounts (SQL `SUM(amount)`, 0 over no rows; a reduce from 0). */
  function SumAmount(ts: seq<Transaction>): int {
    if |ts| == 0 then 0 else SumAmount(ts[..|ts| - 1]) + ts[|ts| - 1].amount
  }

  lemma {:induction false} SumAmountAppend(a: seq<Transaction>, b: seq<Transaction>)
    ensures SumAmount(a + b) == SumAmount(a) + SumAmount(b)
  {
    if |b| == 0 {
      assert a + b == a;
    } else {
      assert (a + b)[..|a + b| - 1] == a + b[..|b| - 1];
      SumAmountAppend(a, b[..|b| - 1]);
    }
  }

  /** A row's effect on the cash balance: + for income, - for expense, 0 for any other type. */
  function SignedAmount(t: Transaction): int {
    if t.kind == Pemasukan then t.amount else if t.kind == Pengeluaran then -t.amount else 0
  }

  function SignedTotal(ts: seq<Transaction>): int {
    if |ts| == 0 then 0 else SignedTotal(ts[..|ts| - 1]) + SignedAmount(ts[|ts| - 1])
  }

  /** Income sum minus expense sum is the running signed balance of the rows. */
  lemma {:induction false} IncomeMinusExpense(ts: seq<Transaction>)
    ensures SumAmount(ScopeIncome(ts)) - SumAmount(ScopeExpense(ts)) == SignedTotal(ts)
  {
    if |ts| > 0 {
      var init := ts[..|ts| - 1];
      var t := ts[|ts| - 1];
      IncomeMinusExpense(init);
      var inc, exp := Where(init, TypeIs(Pemasukan)), Where(init, TypeIs(Pengeluaran));
      assert Where(ts, TypeIs(Pemasukan)) == inc + (if t.kind == Pemasukan then [t] else []);
      assert Where(ts, TypeIs(Pengeluaran)) == exp + (if t.kind == Pengeluaran then [t] else []);
      if t.kind == Pemasukan {
        assert SumAmount(inc + [t]) == SumAmount(inc) + t.amount by {
          assert (inc + [t])[..|inc|] == inc;
        }
        assert exp + [] == exp;
      } else if t.kind == Pengeluaran {
        assert SumAmount(exp + [t]) == SumAmount(exp) + t.amount by {
          assert (exp + [t])[..|exp|] == exp;
        }
        assert inc + [] == inc;
      } else {
        assert inc + [] == inc;
        assert exp + [] == exp;
      }
    }
  }

  /** `getFormattedAmountAttribute`: "Rp " and the amount in whole units, grouped by '.'. */
  function FormattedAmount(t: Transaction): (s: string)
    ensures |s| >= 4 && s[..3] == "Rp "
    ensures NumberFormat.RoundToUnits(t.amount) >= 0 ==> NumberFormat.Grouped(s[3..])
    ensures NumberFormat.RoundToUnits(t.amount) >= 0 ==> NumberFormat.WithoutDots(s[3..]) == NumberFormat.Numeral(NumberFormat.RoundToUnits(t.amount))
    ensures NumberFormat.RoundToUnits(t.amount) < 0 ==> s[3] == '-' && NumberFormat.Grouped(s[4..])
    ensures NumberFormat.RoundToUnits(t.amount) < 0 ==>
      NumberFormat.WithoutDots(s[4..]) == NumberFormat.Numeral(-NumberFormat.RoundToUnits(t.amount))
  {
    var body := NumberFormat.FormatUnits(t.amount);
    assert ("Rp " + body)[3..] == body;
    "Rp " + body
  }
}
