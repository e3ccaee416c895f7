/**
 * The `goats` table and the Goat model: the row, its enumerations and precision,
 * the `healthy` scope, status counts, the inventory value and `age_in_months`.
 */
module GoatModel {
  import opened Wrappers
  import opened Calendar
  import opened Seqs

  /** A row of the `goats` table; `weight` in hundredths of a kg, `purchasePrice` in cents. */
  datatype Goat = Goat(
    id: nat,
    tagNumber: string,
    breed: string,
    gender: string,
    birthDate: Option<Date>,
    weight: Option<int>,
    status: string,
    purchasePrice: Option<int>,
    purchaseDate: Option<Date>,
    notes: Option<string>)

  const Jantan: string := "jantan"
  const Betina: string := "betina"
  const Genders: set<string> := {Jantan, Betina}

  const Sehat: string := "sehat"
  const Sakit: string := "sakit"
  const Dijual: string := "dijual"
  const Mati: string := "mati"
  const Statuses: set<string> := {Sehat, Sakit, Dijual, Mati}

  /** `decimal(8, 2)` and `decimal(15, 2)`, in hundredths. */
  const WeightLimit: int := 100_000_000
  const PriceLimit: int := 1_000_000_000_000_000

  /** What the `goats` columns admit. */
  predicate WellFormed(g: Goat) {
    && |g.tagNumber| <= 255
    && |g.breed| <= 255
    && g.gender in Genders
    && g.status in Statuses
    && (g.birthDate.Some? ==> ValidDate(g.birthDate.value))
    && (g.purchaseDate.Some? ==> ValidDate(g.purchaseDate.value))
    && (g.weight.Some? ==> -WeightLimit < g.weight.value < WeightLimit)
    && (g.purchasePrice.Some? ==> -PriceLimit < g.purchasePrice.value < PriceLimit)
  }

  function StatusIs(s: string): Goat -> bool {
    (g: Goat) => g.status == s
  }

  /** `scopeHealthy`: the goats whose status is `sehat`, in order. */
  function ScopeHealthy(goats: seq<Goat>): (r: seq<Goat>)
    ensures forall g :: g in r <==> g in goats && g.status == Sehat
  {
    Where(goats, StatusIs(Sehat))
  }

  /** `Goat::where('status', s)->count()`. */
  function CountStatus(goats: seq<Goat>, s: string): nat {
    if |goats| == 0 then 0
    else CountStatus(goats[..|goats| - 1], s) + (if goats[|goats| - 1].status == s then 1 else 0)
  }

  /** The count is the size of the `where('status', s)` selection. */
  lemma {:induction false} CountIsSelectionSize(goats: seq<Goat>, s: string)
    ensures CountStatus(goats, s) == |Where(goats, StatusIs(s))|
  {
    if |goats| > 0 {
      CountIsSelectionSize(goats[..|goats| - 1], s);
    }
  }

  /** Counting over two runs of rows adds the counts of each. */
  lemma {:induction false} CountAppend(a: seq<Goat>, b: seq<Goat>, s: string)
    ensures CountStatus(a + b, s) == CountStatus(a, s) + CountStatus(b, s)
  {
    if |b| == 0 {
      assert a + b == a;
    } else {
      assert (a + b)[..|a + b| - 1] == a + b[..|b| - 1];
      CountAppend(a, b[..|b| - 1], s);
    }
  }

  /** Each goat has one status, so the per-status counts add up to at most the number of goats, and to exactly that number when every status is one of the four. */
  lemma {:induction false} StatusCounts(goats: seq<Goat>)
    ensures CountStatus(goats, Sehat) + CountStatus(goats, Sakit) + CountStatus(goats, Dijual) <= |goats|
    ensures CountStatus(goats, Sehat) + CountStatus(goats, Sakit) + CountStatus(goats, Dijual) + CountStatus(goats, Mati) <= |goats|
    ensures (forall g :: g in goats ==> g.status in Statuses) ==>
      CountStatus(goats, Sehat) + CountStatus(goats, Sakit) + CountStatus(goats, Dijual) + CountStatus(goats, Mati) == |goats|
  {
    if |goats| > 0 {
      var init, g := goats[..|goats| - 1], goats[|goats| - 1];
      assert goats == init + [g];
      assert forall h :: h in init ==> h in goats;
      StatusCounts(init);
      assert Sehat[1] != Sakit[1];
    }
  }

  /** Still on the farm: healthy or sick. */
  predicate IsLive(g: Goat) {
    g.status == Sehat || g.status == Sakit
  }

  /** SQL `SUM(purchase_price)`: a null price adds nothing, no rows give 0. */
  function PriceTotal(goats: seq<Goat>): int {
    if |goats| == 0 then 0 else PriceTotal(goats[..|goats| - 1]) + goats[|goats| - 1].purchasePrice.GetOr(0)
  }

  /**
   * `Goat::whereIn('status', ['sehat', 'sakit'])->sum('purchase_price')`, the query
   * both the dashboard and the balance sheet run for the inventory value.
   */
  function InventoryValue(goats: seq<Goat>): int {
    PriceTotal(Where(goats, IsLive))
  }

  /** A goat's part of the inventory: its purchase price while it is live, else 0. */
  function InventoryShare(g: Goat): int {
    if IsLive(g) then g.purchasePrice.GetOr(0) else 0
  }

  function SumOfShares(goats: seq<Goat>): int {
    if |goats| == 0 then 0 else SumOfShares(goats[..|goats| - 1]) + InventoryShare(goats[|goats| - 1])
  }

  /** The inventory is the sum of per-goat shares: sold and dead goats and missing prices add 0. */
  lemma {:induction false} InventoryIsSumOfShares(goats: seq<Goat>)
    ensures InventoryValue(goats) == SumOfShares(goats)
  {
    if |goats| > 0 {
      var init := goats[..|goats| - 1];
      var g := goats[|goats| - 1];
      InventoryIsSumOfShares(init);
      var live := Where(init, IsLive);
      if IsLive(g) {
        assert Where(goats, IsLive) == live + [g];
        assert (live + [g])[..|live|] == live;
      } else {
        assert Where(goats, IsLive) == live + [];
        assert live + [] == live;
      }
    }
  }

  /** With no negative price the inventory is never negative. */
  lemma {:induction false} InventoryNonNegative(goats: seq<Goat>)
    requires forall g :: g in goats && g.purchasePrice.Some? ==> g.purchasePrice.value >= 0
    ensures InventoryValue(goats) >= 0
  {
    InventoryIsSumOfShares(goats);
    SharesNonNegative(goats);
  }

  lemma {:induction false} SharesNonNegative(goats: seq<Goat>)
    requires forall g :: g in goats && g.purchasePrice.Some? ==> g.purchasePrice.value >= 0
    ensures SumOfShares(goats) >= 0
  {
    if |goats| > 0 {
      var init := goats[..|goats| - 1];
      assert forall g :: g in init ==> g in goats;
      assert goats[|goats| - 1] in goats;
      SharesNonNegative(init);
    }
  }

  /** `age_in_months`: null without a birth date, else the whole months from birth to `now`. */
  function AgeInMonths(g: Goat, now: Date): (r: Option<int>)
    requires (g.birthDate.Some? ==> ValidDate(g.birthDate.value)) && ValidDate(now)
    ensures r.None? <==> g.birthDate.None?
    ensures r.Some? && DateLe(g.birthDate.value, now) ==>
      var months := MonthIndex(MonthOf(now)) - MonthIndex(MonthOf(g.birthDate.value));
      0 <= r.value && months - 1 <= r.value <= months
    ensures r.Some? && DateLe(now, g.birthDate.value) ==> r.value <= 0
  {
    if g.birthDate.None? then None else Some(WholeMonthsBetween(g.birthDate.value, now))
  }
}
