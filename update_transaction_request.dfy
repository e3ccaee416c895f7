/**
 * `UpdateTransactionRequest`: who may update a transaction (anyone) and the rules the
 * submitted fields must pass before the row is written.
 */
module UpdateTransactionRules {
  import opened Wrappers
  import opened Calendar
  import opened FormInput
  import opened TransactionModel

  /** The submitted form, one field per rule key. */
  datatype TransactionRequest = TransactionRequest(
    transactionDate: Field<Date>,
    kind: Field<string>,          // the `type` key
    category: Field<string>,
    description: Field<string>,
    amount: Field<real>,
    reference: Field<string>,
    goatId: Field<nat>,
    notes: Field<string>)

  /**
   * `validated()`: the required keys' values, the amount converted to cents as the `decimal:2`
   * cast stores it, and the nullable keys left out when the request did not carry them.
   */
  datatype TransactionInput = TransactionInput(
    date: Date,
    kind: string,
    category: string,
    description: string,
    amount: int,
    reference: Entry<string>,
    goatId: Entry<nat>,
    notes: Entry<string>)

  /** The request keys that carry a rule. */
  datatype Key = TransactionDate | Type | Category | Description | Amount | Reference | GoatId | Notes

  /** `authorize`: every user may update. */
  function Authorize(): (ok: bool)
    ensures ok
  {
    true
  }

  const AllKeys: set<Key> := {TransactionDate, Type, Category, Description, Amount, Reference, GoatId, Notes}

  /** The `in:` list of the category rule: the eight keys of the column. */
  const CategoryOptions: set<string> := set c | c in CategoryKeys

  /** The rule of key `k`; `goatIds` are the ids present in the goats table. */
  predicate RuleHolds(r: TransactionRequest, today: Date, goatIds: set<nat>, k: Key) {
    match k
    case TransactionDate => RequiredDateNotAfter(r.transactionDate, today)
    case Type => RequiredIn(r.kind, TransactionTypes)
    case Category => RequiredIn(r.category, CategoryOptions)
    case Description => RequiredString(r.description, 255)
    case Amount => RequiredAtLeast(r.amount, 0.01)
    case Reference => NullableString(r.reference, 255)
    case GoatId => NullableExists(r.goatId, goatIds)
    case Notes => NullableText(r.notes)
  }

  /** The keys whose rule the request breaks. */
  function Errors(r: TransactionRequest, today: Date, goatIds: set<nat>): (e: set<Key>)
    ensures forall k :: k in e <==> !RuleHolds(r, today, goatIds, k)
  {
    set k | k in AllKeys && !RuleHolds(r, today, goatIds, k)
  }

  /** The request, authorized and validated: the data the controller writes, or what was wrong. */
  function Validate(r: TransactionRequest, today: Date, goatIds: set<nat>): (o: Outcome<Key, TransactionInput>)
    ensures !o.Forbidden?
    ensures o.Invalid? ==> o.errors != {} && o.errors == Errors(r, today, goatIds)
    ensures o.Accepted? <==> Errors(r, today, goatIds) == {}
    ensures o.Accepted? ==>
      && ValidDate(o.data.date) && DateLe(o.data.date, today)
      && o.data.kind in TransactionTypes
      && o.data.category in CategoryKeys
      && 1 <= |o.data.description| <= 255
      && o.data.amount >= 1
      && (o.data.reference.Written? && o.data.reference.value.Some? ==> |o.data.reference.value.value| <= 255)
      && (o.data.goatId.Written? && o.data.goatId.value.Some? ==> o.data.goatId.value.value in goatIds)
      && (o.data.reference.Omitted? <==> r.reference.Absent?)
      && (o.data.goatId.Omitted? <==> r.goatId.Absent?)
      && (o.data.notes.Omitted? <==> r.notes.Absent?)
    ensures o.Accepted? ==>
      && r.transactionDate == Given(o.data.date) && r.kind == Given(o.data.kind)
      && r.category == Given(o.data.category) && r.description == Given(o.data.description)
      && r.amount.Given? && o.data.amount == ToCents(r.amount.value)
      && o.data.reference == Validated(r.reference) && o.data.goatId == Validated(r.goatId)
      && o.data.notes == Validated(r.notes)
  {
    if !Authorize() then Forbidden
    else
      var e := Errors(r, today, goatIds);
      if e != {} then Invalid(e)
      else
        assert TransactionDate !in e && Type !in e && Category !in e && Description !in e && Amount !in e;
        assert Reference !in e && GoatId !in e && Notes !in e;
        Accepted(TransactionInput(
          r.transactionDate.value, r.kind.value, r.category.value, r.description.value,
          ToCents(r.amount.value), Validated(r.reference), Validated(r.goatId), Validated(r.notes)))
  }

  /** A nullable column after `update`: kept when its key was left out, else the new value or null. */
  function Patch<T>(stored: Option<T>, e: Entry<T>): Option<T> {
    if e.Omitted? then stored else e.value
  }

  /**
   * `$transaction->update($request->validated())`: the row keeps its id, takes the five
   * required fields, and keeps each nullable column whose key the request left out.
   */
  function ApplyUpdate(t: Transaction, d: TransactionInput): (u: Transaction)
    ensures u.id == t.id
    ensures u.date == d.date && u.kind == d.kind && u.category == d.category
    ensures u.description == d.description && u.amount == d.amount
    ensures d.reference.Omitted? ==> u.reference == t.reference
    ensures d.reference.Written? ==> u.reference == d.reference.value
    ensures d.goatId.Omitted? ==> u.goatId == t.goatId
    ensures d.goatId.Written? ==> u.goatId == d.goatId.value
    ensures d.notes.Omitted? ==> u.notes == t.notes
    ensures d.notes.Written? ==> u.notes == d.notes.value
  {
    Transaction(t.id, d.date, d.kind, d.category, d.description, d.amount,
                Patch(t.reference, d.reference), Patch(t.goatId, d.goatId), Patch(t.notes, d.notes))
  }

  /**
   * From request to row: a nullable key the request does not carry keeps the stored value,
   * one sent as null clears it, and one with a value sets it.
   */
  lemma UpdateKeepsAbsentKeys(t: Transaction, r: TransactionRequest, today: Date, goatIds: set<nat>)
    requires Validate(r, today, goatIds).Accepted?
    ensures var u := ApplyUpdate(t, Validate(r, today, goatIds).data);
      && (r.reference.Absent? ==> u.reference == t.reference)
      && (r.reference.Null? ==> u.reference == None)
      && (r.reference.Given? ==> u.reference == Some(r.reference.value))
      && (r.goatId.Absent? ==> u.goatId == t.goatId)
      && (r.goatId.Null? ==> u.goatId == None)
      && (r.goatId.Given? ==> u.goatId == Some(r.goatId.value))
      && (r.notes.Absent? ==> u.notes == t.notes)
      && (r.notes.Null? ==> u.notes == None)
      && (r.notes.Given? ==> u.notes == Some(r.notes.value))
  {
  }

  /** Submitting the same validated data twice leaves the row as the first update did. */
  lemma ApplyUpdateIdempotent(t: Transaction, d: TransactionInput)
    ensures ApplyUpdate(ApplyUpdate(t, d), d) == ApplyUpdate(t, d)
  {
  }

  /**
   * An accepted update of a stored row writes a row the columns admit, as long as the amount
   * fits `decimal(15, 2)`: the rules set no maximum, so that bound is left to the database.
   * The stored row is one the columns admit, since the columns it keeps come from it.
   */
  lemma AcceptedUpdateFits(t: Transaction, r: TransactionRequest, today: Date, goatIds: set<nat>)
    requires WellFormed(t)
    requires Validate(r, today, goatIds).Accepted?
    requires Validate(r, today, goatIds).data.amount < AmountLimit
    ensures WellFormed(ApplyUpdate(t, Validate(r, today, goatIds).data))
    ensures DateLe(ApplyUpdate(t, Validate(r, today, goatIds).data).date, today)
  {
  }

  /** The rules do not tie the category to the type: an income row may carry an expense category. */
  lemma CategoryIndependentOfType(today: Date)
    requires ValidDate(today)
    ensures Validate(TransactionRequest(Given(today), Given(Pemasukan), Given(PembelianPakan), Given("pakan"),
                                        Given(1.0), Absent, Absent, Absent), today, {}).Accepted?
  {
    var r := TransactionRequest(Given(today), Given(Pemasukan), Given(PembelianPakan), Given("pakan"),
                                Given(1.0), Absent, Absent, Absent);
    assert PembelianPakan in CategoryKeys;
    assert !TrimRemoves("pakan"[0]);
    assert Errors(r, today, {}) == {};
  }

  /** Nothing bounds the amount from above: 10^13 passes, and its row overflows the column. */
  lemma AmountUnbounded(today: Date)
    requires ValidDate(today)
    ensures var o := Validate(TransactionRequest(Given(today), Given(Pengeluaran), Given(Lainnya), Given("x"),
                                                 Given(10_000_000_000_000.0), Absent, Absent, Absent), today, {});
      o.Accepted? && o.data.amount >= AmountLimit
  {
    var r := TransactionRequest(Given(today), Given(Pengeluaran), Given(Lainnya), Given("x"),
                                Given(10_000_000_000_000.0), Absent, Absent, Absent);
    assert Lainnya in CategoryKeys;
    assert !TrimRemoves("x"[0]);
    assert Errors(r, today, {}) == {};
  }
}
