/** The two Eloquent relations between goats and transactions. */
module ModelRelations {
  import opened Wrappers
  import opened Seqs
  import opened GoatModel
  import opened TransactionModel

  /** Goat ids are the table's primary key. */
  predicate UniqueIds(goats: seq<Goat>) {
    forall i, j :: 0 <= i < |goats| && 0 <= j < |goats| && goats[i].id == goats[j].id ==> i == j
  }

  /** `Goat::transactions` (hasMany): the transactions whose goat_id is the goat's id. */
  function GoatTransactions(g: Goat, ts: seq<Transaction>): (r: seq<Transaction>)
    ensures forall t :: t in r <==> t in ts && t.goatId == Some(g.id)
  {
    Where(ts, GoatIs(g.id))
  }

  /** `Transaction::goat` (belongsTo): the goat whose id is the transaction's goat_id, if any. */
  function TransactionGoat(t: Transaction, goats: seq<Goat>): (r: Option<Goat>)
    ensures r.Some? ==> r.value in goats && t.goatId == Some(r.value.id)
    ensures r.None? ==> t.goatId.None? || forall g :: g in goats ==> g.id != t.goatId.value
  {
    if t.goatId.None? || |goats| == 0 then None
    else if goats[0].id == t.goatId.value then Some(goats[0])
    else
      var rest := TransactionGoat(t, goats[1..]);
      assert forall g :: g in goats[1..] ==> g in goats;
      assert forall g :: g in goats ==> g == goats[0] || g in goats[1..];
      rest
  }

  /** The two relations are inverse: a transaction belongs to a goat exactly when it is among that goat's transactions. */
  lemma RelationsAgree(g: Goat, goats: seq<Goat>, t: Transaction, ts: seq<Transaction>)
    requires UniqueIds(goats) && g in goats && t in ts
    ensures TransactionGoat(t, goats) == Some(g) <==> t in GoatTransactions(g, ts)
  {
    var r := TransactionGoat(t, goats);
    if r.Some? && t.goatId == Some(g.id) {
      var i :| 0 <= i < |goats| && goats[i] == r.value;
      var j :| 0 <= j < |goats| && goats[j] == g;
      assert i == j;
    }
  }
}
