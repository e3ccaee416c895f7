/**
 * The helpers of the transactions list page: the category label and emoji lookups,
 * the income/expense totals of the rows on the current page, and the amount's sign.
 */
module TransactionsPage {
  import opened Seqs
  import opened TransactionModel
  import Report

  /** The page's own category -> label table. */
  const Labels: map<string, string> := map[
    PenjualanKambing := "Penjualan Kambing",
    PenjualanSusu := "Penjualan Susu",
    PembelianKambing := "Pembelian Kambing",
    PembelianPakan := "Pembelian Pakan",
    BiayaKesehatan := "Biaya Kesehatan",
    BiayaOperasional := "Biaya Operasional",
    ModalAwal := "Modal Awal",
    Lainnya := "Lainnya"]

  /** `labels[category] || category`: a missing or empty label falls back to the key. */
  function GetCategoryLabel(c: string): string {
    if c in Labels && Labels[c] != "" then Labels[c] else c
  }

  /** The page and the report share one table, so they label every category alike. */
  lemma LabelsMatchReport(c: string)
    ensures Labels == Report.CategoryLabels
    ensures GetCategoryLabel(c) == Report.CategoryLabel(c)
    ensures c in CategoryKeys ==> GetCategoryLabel(c) == Labels[c]
    ensures c !in CategoryKeys ==> GetCategoryLabel(c) == c
  {
    Report.CategoryLabelLookup(c);
  }

  /** The memo emoji, also the fallback for unknown keys. */
  const Memo: string := "\U{1F4DD}"

  const Emojis: map<string, string> := map[
    PenjualanKambing := "\U{1F410}",
    PenjualanSusu := "\U{1F95B}",
    PembelianKambing := "\U{1F6D2}",
    PembelianPakan := "\U{1F33E}",
    BiayaKesehatan := "\U{1F48A}",
    BiayaOperasional := "\U{2699}\U{FE0F}",
    ModalAwal := "\U{1F4B0}",
    Lainnya := Memo]

  /** `emojis[category] || '📝'`. */
  function GetCategoryEmoji(c: string): string {
    if c in Emojis && Emojis[c] != "" then Emojis[c] else Memo
  }

  /** Every category key has its own table emoji; `lainnya` and unknown keys get the memo. */
  lemma EmojiLookup(c: string)
    ensures Emojis.Keys == set k | k in CategoryKeys
    ensures c in CategoryKeys ==> GetCategoryEmoji(c) == Emojis[c] && GetCategoryEmoji(c) != ""
    ensures c !in CategoryKeys ==> GetCategoryEmoji(c) == Memo
    ensures GetCategoryEmoji(Lainnya) == Memo
    ensures c in CategoryKeys && c != Lainnya ==> GetCategoryEmoji(c) != Memo
  {
  }

  datatype PageTotals = PageTotals(totalIncome: int, totalExpense: int, netAmount: int)

  /** The cards above the table: reductions over the rows of the current page only. */
  function Totals(page: seq<Transaction>): (p: PageTotals)
    ensures p.totalIncome == SumAmount(ScopeIncome(page))
    ensures p.totalExpense == SumAmount(ScopeExpense(page))
    ensures p.netAmount == p.totalIncome - p.totalExpense
    ensures p.netAmount == SignedTotal(page)
    ensures page == [] ==> p.totalIncome == 0 && p.totalExpense == 0 && p.netAmount == 0
  {
    IncomeMinusExpense(page);
    var income := SumAmount(Where(page, TypeIs(Pemasukan)));
    var expense := SumAmount(Where(page, TypeIs(Pengeluaran)));
    PageTotals(income, expense, income - expense)
  }

  /** A row whose type is neither value changes none of the totals. */
  lemma {:induction false} ForeignTypeIgnored(page: seq<Transaction>, t: Transaction)
    requires t.kind !in TransactionTypes
    ensures Totals(page + [t]) == Totals(page)
  {
    var all := page + [t];
    assert all[..|all| - 1] == page;
    assert Where(all, TypeIs(Pemasukan)) == Where(page, TypeIs(Pemasukan));
    assert Where(all, TypeIs(Pengeluaran)) == Where(page, TypeIs(Pengeluaran));
  }

  /** `type === 'pemasukan' ? '+' : '-'`. */
  function SignPrefix(t: Transaction): (s: string)
    ensures s == "+" || s == "-"
    ensures s == "+" <==> t.kind == Pemasukan
  {
    if t.kind == Pemasukan then "+" else "-"
  }

  /** For rows of a known type and positive amount, the sign shown is the sign of the row's effect on cash. */
  lemma SignMatchesEffect(t: Transaction)
    requires t.kind in TransactionTypes && t.amount > 0
    ensures SignPrefix(t) == "+" <==> SignedAmount(t) > 0
    ensures SignPrefix(t) == "-" <==> SignedAmount(t) < 0
  {
  }
}
