/**
 * The stored goats and transactions, with the foreign key
 * `transactions.goat_id -> goats.id ON DELETE SET NULL`: deleting a goat clears the
 * references to it and leaves every transaction in place.
 */
module TransactionsTable {
  import opened Wrappers
  import opened Seqs
  import opened GoatModel
  import opened TransactionModel
  import opened ModelRelations

  /** The transaction with its goat reference cleared when it points at goat `id`. */
  function Unlink(t: Transaction, id: nat): Transaction {
    if t.goatId == Some(id) then t.(goatId := None) else t
  }

  /** The transactions table after `ON DELETE SET NULL` for goat `id`. */
  function ClearGoatReferences(ts: seq<Transaction>, id: nat): (r: seq<Transaction>)
    ensures |r| == |ts|
    ensures forall i :: 0 <= i < |ts| ==> r[i].goatId == (if ts[i].goatId == Some(id) then None else ts[i].goatId)
    ensures forall i :: 0 <= i < |ts| ==> r[i] == ts[i].(goatId := r[i].goatId)
  {
    seq(|ts|, i requires 0 <= i < |ts| => Unlink(ts[i], id))
  }

  lemma ClearPrefix(ts: seq<Transaction>, id: nat)
    requires |ts| > 0
    ensures ClearGoatReferences(ts, id)[..|ts| - 1] == ClearGoatReferences(ts[..|ts| - 1], id)
  {
  }

  /** After the delete no transaction refers to the goat any more. */
  lemma NoReferenceRemains(g: Goat, ts: seq<Transaction>)
    ensures GoatTransactions(g, ClearGoatReferences(ts, g.id)) == []
  {
    var r := ClearGoatReferences(ts, g.id);
    forall t | t in r
      ensures t.goatId != Some(g.id)
    {
      var i :| 0 <= i < |r| && r[i] == t;
    }
    WhereNone(r, GoatIs(g.id));
  }

  /**
   * Any query that does not look at goat_id sees the same amounts before and after the
   * delete: in particular every income, expense, category and date-range sum.
   */
  lemma {:induction false} ClearingKeepsSums(ts: seq<Transaction>, id: nat, p: Transaction -> bool)
    requires forall t :: p(Unlink(t, id)) == p(t)
    ensures SumAmount(Where(ClearGoatReferences(ts, id), p)) == SumAmount(Where(ts, p))
  {
    if |ts| > 0 {
      var init := ts[..|ts| - 1];
      var t := ts[|ts| - 1];
      var r := ClearGoatReferences(ts, id);
      ClearPrefix(ts, id);
      ClearingKeepsSums(init, id, p);
      var u := r[|r| - 1];
      assert u == Unlink(t, id);
      assert p(u) == p(t);
      assert u.amount == t.amount;
      var a, b := Where(ClearGoatReferences(init, id), p), Where(init, p);
      assert Where(r, p) == a + (if p(u) then [u] else []);
      assert Where(ts, p) == b + (if p(t) then [t] else []);
      if p(t) {
        assert (a + [u])[..|a|] == a;
        assert (b + [t])[..|b|] == b;
      } else {
        assert a + [] == a;
        assert b + [] == b;
      }
    }
  }

  /** The cash balance does not change when a goat is deleted. */
  lemma {:induction false} ClearingKeepsCash(ts: seq<Transaction>, id: nat)
    ensures SignedTotal(ClearGoatReferences(ts, id)) == SignedTotal(ts)
  {
    if |ts| > 0 {
      ClearPrefix(ts, id);
      ClearingKeepsCash(ts[..|ts| - 1], id);
    }
  }

  function IdIsNot(id: nat): Goat -> bool {
    (g: Goat) => g.id != id
  }

  /** The goats table after deleting goat `id`. */
  function RemoveGoat(goats: seq<Goat>, id: nat): (r: seq<Goat>)
    ensures forall g :: g in r <==> g in goats && g.id != id
  {
    Where(goats, IdIsNot(id))
  }

  lemma {:induction false} FilterKeepsUniqueIds(goats: seq<Goat>, p: Goat -> bool)
    requires UniqueIds(goats)
    ensures UniqueIds(Where(goats, p))
  {
    if |goats| > 0 {
      var init := goats[..|goats| - 1];
      var g := goats[|goats| - 1];
      assert UniqueIds(init) by {
        forall i, j | 0 <= i < |init| && 0 <= j < |init| && init[i].id == init[j].id
          ensures i == j
        {
          assert goats[i] == init[i] && goats[j] == init[j];
        }
      }
      FilterKeepsUniqueIds(init, p);
      var w := Where(init, p);
      if p(g) {
        forall h | h in w
          ensures h.id != g.id
        {
          var k :| 0 <= k < |init| && init[k] == h;
          assert goats[k] == h;
        }
        assert Where(goats, p) == w + [g];
      } else {
        assert Where(goats, p) == w + [];
        assert w + [] == w;
      }
    }
  }

  /** The ids of the stored goats. */
  function GoatIds(goats: seq<Goat>): set<nat> {
    set g | g in goats :: g.id
  }

  /** The foreign key holds: every goat_id names a stored goat. */
  predicate ReferencesResolve(goats: seq<Goat>, ts: seq<Transaction>) {
    forall t :: t in ts && t.goatId.Some? ==> t.goatId.value in GoatIds(goats)
  }

  /** The two tables, updated in place. */
  class Ledger {
    var goats: seq<Goat>
    var transactions: seq<Transaction>

    /** Primary key and foreign key constraints. */
    predicate Valid()
      reads this
    {
      UniqueIds(goats) && ReferencesResolve(goats, transactions)
    }

    constructor (goats0: seq<Goat>, transactions0: seq<Transaction>)
      requires UniqueIds(goats0) && ReferencesResolve(goats0, transactions0)
      ensures Valid()
      ensures goats == goats0 && transactions == transactions0
    {
      goats := goats0;
      transactions := transactions0;
    }

    /** Delete goat `id`: its row goes, and every transaction that referred to it keeps its place with goat_id set to null. */
    method DeleteGoat(id: nat)
      requires Valid()
      modifies this
      ensures Valid()
      ensures goats == RemoveGoat(old(goats), id)
      ensures transactions == ClearGoatReferences(old(transactions), id)
    {
      var i := 0;
      while i < |transactions|
        invariant 0 <= i <= |transactions| == |old(transactions)|
        invariant forall k :: 0 <= k < i ==> transactions[k] == Unlink(old(transactions)[k], id)
        invariant forall k :: i <= k < |transactions| ==> transactions[k] == old(transactions)[k]
        invariant goats == old(goats)
      {
        if transactions[i].goatId == Some(id) {
          transactions := transactions[i := transactions[i].(goatId := None)];
        }
        i := i + 1;
      }
      goats := RemoveGoat(goats, id);
      FilterKeepsUniqueIds(old(goats), IdIsNot(id));
      forall t | t in transactions && t.goatId.Some?
        ensures t.goatId.value in GoatIds(goats)
      {
        var k :| 0 <= k < |transactions| && transactions[k] == t;
        var was := old(transactions)[k];
        assert was in old(transactions);
        var g :| g in old(goats) && g.id == was.goatId.value;
        assert g in goats;
      }
    }
  }
}
