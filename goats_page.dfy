/**
 * The helpers of the goats list page: the status badge with its fallback, the status
 * cards, the '-' placeholders of the table cells and the gender label.
 */
module GoatsPage {
  import opened Wrappers
  import opened Calendar
  import opened GoatModel

  /** A status badge: its colour classes and its label (the badge emoji is not modelled). */
  datatype Badge = Badge(color: string, labelText: string)

  const StatusConfig: map<string, Badge> := map[
    Sehat := Badge("bg-green-100 text-green-800", "Sehat"),
    Sakit := Badge("bg-red-100 text-red-800", "Sakit"),
    Dijual := Badge("bg-purple-100 text-purple-800", "Dijual"),
    Mati := Badge("bg-gray-100 text-gray-800", "Mati")]

  /** `statusConfig[status] || statusConfig.sehat`. */
  function GetStatusBadge(status: string): Badge {
    if status in StatusConfig then StatusConfig[status] else StatusConfig[Sehat]
  }

  /** The four statuses have distinct labels; any other status is shown as healthy. */
  lemma StatusBadgeLookup(status: string)
    ensures StatusConfig.Keys == Statuses
    ensures GetStatusBadge(Sehat).labelText == "Sehat" && GetStatusBadge(Sakit).labelText == "Sakit"
    ensures GetStatusBadge(Dijual).labelText == "Dijual" && GetStatusBadge(Mati).labelText == "Mati"
    ensures status !in Statuses ==> GetStatusBadge(status) == GetStatusBadge(Sehat)
    ensures forall s, u :: s in Statuses && u in Statuses && s != u ==> GetStatusBadge(s).labelText != GetStatusBadge(u).labelText
  {
  }

  /** The four cards above the table. */
  datatype Cards = Cards(total: nat, healthy: nat, sick: nat, sold: nat)

  /** The `meta` object the page's props declare. */
  datatype PageMeta = PageMeta(total: nat)

  /**
   * The `goats` prop as a `LengthAwarePaginator` serialises it: the rows of the page and, at
   * the top level, the number of goats. A paginator has no `meta` key.
   */
  datatype GoatPage = GoatPage(data: seq<Goat>, total: nat, meta: Option<PageMeta>)

  const PerPage: nat := 10

  /**
   * The index of the first row of page `p` of `n` rows, numbered from 1, with a page below 1
   * read as page 1 and a page past the end empty.
   */
  function PageStart(n: nat, p: nat): (i: nat)
    ensures i <= n
    ensures p <= 1 ==> i == 0
    ensures i < n ==> i == (p - 1) * PerPage || p <= 1
  {
    var from := if p <= 1 then 0 else (p - 1) * PerPage;
    if from < n then from else n
  }

  /** `paginate(10)` over the goats in `orderBy('tag_number')` order. */
  function Paginate(goats: seq<Goat>, p: nat): (r: GoatPage)
    ensures r.total == |goats| && r.meta.None?
    ensures |r.data| <= PerPage
    ensures var i := PageStart(|goats|, p);
      i + |r.data| <= |goats| && r.data == goats[i..i + |r.data|]
    ensures PageStart(|goats|, p) + PerPage <= |goats| ==> |r.data| == PerPage
  {
    var lo := PageStart(|goats|, p);
    var hi := if lo + PerPage < |goats| then lo + PerPage else |goats|;
    GoatPage(goats[lo..hi], |goats|, None)
  }

  /**
   * The total card as written reads `goats.meta.total`: with no `meta` this is a property read of
   * `undefined`, which throws, so the page does not render. `None` is that failure.
   */
  function TotalCardAsWritten(page: GoatPage): Option<nat> {
    if page.meta.Some? then Some(page.meta.value.total) else None
  }

  /** On every page of every goats table the total card fails. */
  lemma TotalCardFails(goats: seq<Goat>, p: nat)
    ensures TotalCardAsWritten(Paginate(goats, p)).None?
  {
  }

  /**
   * The cards as intended: the total card shows the paginator's `total`; the other three
   * count the rows of the current page, as the page's `filter` does.
   */
  function PageCards(page: GoatPage): (c: Cards)
    ensures c.total == page.total
    ensures c.healthy == CountStatus(page.data, Sehat) && c.sick == CountStatus(page.data, Sakit)
    ensures c.sold == CountStatus(page.data, Dijual)
    ensures c.healthy + c.sick + c.sold <= |page.data|
  {
    StatusCounts(page.data);
    Cards(page.total, CountStatus(page.data, Sehat), CountStatus(page.data, Sakit), CountStatus(page.data, Dijual))
  }

  /**
   * On a page of the herd, the total card counts every goat while each status card counts at
   * most the goats of that status in the whole herd.
   */
  lemma {:induction false} CardsOfHerd(goats: seq<Goat>, p: nat)
    ensures var c := PageCards(Paginate(goats, p));
      && c.total == |goats|
      && c.healthy <= CountStatus(goats, Sehat)
      && c.sick <= CountStatus(goats, Sakit)
      && c.sold <= CountStatus(goats, Dijual)
  {
    var page := Paginate(goats, p).data;
    var i := PageStart(|goats|, p);
    RunCountBounded(goats, i, i + |page|, Sehat);
    RunCountBounded(goats, i, i + |page|, Sakit);
    RunCountBounded(goats, i, i + |page|, Dijual);
  }

  /** A run of rows has at most as many goats of a status as the whole table. */
  lemma RunCountBounded(goats: seq<Goat>, i: nat, j: nat, s: string)
    requires i <= j <= |goats|
    ensures CountStatus(goats[i..j], s) <= CountStatus(goats, s)
  {
    assert goats == goats[..i] + goats[i..j] + goats[j..];
    CountAppend(goats[..i] + goats[i..j], goats[j..], s);
    CountAppend(goats[..i], goats[i..j], s);
  }


  /** A table cell: the '-' placeholder or a value handed to a formatter. */
  datatype Cell<T> = Dash | Show(value: T)

  /**
   * A nullable number in a cell: null and 0 are falsy in JavaScript and show '-'. This is
   * the test of `formatCurrency`, of the age column ("n bulan") and of the weight line ("w kg").
   */
  function TruthyCell(v: Option<int>): (c: Cell<int>)
    ensures c.Dash? <==> v.None? || v.value == 0
    ensures c.Show? ==> c.value == v.value
  {
    if v.None? || v.value == 0 then Dash else Show(v.value)
  }

  /** `formatDate`: a null date shows '-'. */
  function DateCell(date: Option<Date>): (c: Cell<Date>)
    ensures c.Dash? <==> date.None?
    ensures c.Show? ==> c.value == date.value
  {
    if date.None? then Dash else Show(date.value)
  }

  /**
   * The age column as the code is written: `Goat` declares no `$appends` and the list action
   * appends nothing, so `age_in_months` is not among the attributes the page receives and the
   * cell tests `undefined` for every goat.
   */
  function AgeCellAsWritten(g: Goat): Cell<int> {
    // `g`'s serialised attributes carry no `age_in_months`, so the cell sees `undefined` (falsy).
    TruthyCell(None)
  }

  /** A goat born on 15 January 2024 is 26 months old on 31 March 2026, yet the page shows '-'. */
  lemma AgeNeverShown()
    ensures var g := Goat(1, "G-001", "Etawa", Betina, Some(Date(2024, 1, 15)), None, Sehat, None, None, None);
      && AgeInMonths(g, Date(2026, 3, 31)) == Some(26)
      && AgeCellAsWritten(g).Dash?
  {
  }

  /** The age column as intended, with `age_in_months` sent to the page: '-' for no age or age 0. */
  function AgeCell(g: Goat, now: Date): (c: Cell<int>)
    requires (g.birthDate.Some? ==> ValidDate(g.birthDate.value)) && ValidDate(now)
    ensures c.Show? <==> g.birthDate.Some? && AgeInMonths(g, now).value != 0
    ensures c.Show? ==> Some(c.value) == AgeInMonths(g, now)
  {
    TruthyCell(AgeInMonths(g, now))
  }

  /** A goat born at least two calendar months ago has its age shown, as a positive number of months. */
  lemma OlderGoatShowsAge(g: Goat, now: Date)
    requires (g.birthDate.Some? ==> ValidDate(g.birthDate.value)) && ValidDate(now)
    requires g.birthDate.Some? && DateLe(g.birthDate.value, now)
    requires MonthIndex(MonthOf(now)) - MonthIndex(MonthOf(g.birthDate.value)) >= 2
    ensures AgeCell(g, now).Show? && AgeCell(g, now).value >= 1
  {
  }

  /** A goat born this month, or with no birth date, shows '-' in the age column. */
  lemma NewbornShowsDash(g: Goat, now: Date)
    requires (g.birthDate.Some? ==> ValidDate(g.birthDate.value)) && ValidDate(now)
    requires g.birthDate.None? || (ValidDate(g.birthDate.value) && MonthOf(g.birthDate.value) == MonthOf(now) && DateLe(g.birthDate.value, now))
    ensures AgeCell(g, now).Dash?
  {
  }

  /** `gender === 'jantan' ? 'Jantan' : 'Betina'`. */
  function GenderLabel(gender: string): (s: string)
    ensures s == "Jantan" <==> gender == Jantan
    ensures s == "Jantan" || s == "Betina"
  {
    if gender == Jantan then "Jantan" else "Betina"
  }
}
