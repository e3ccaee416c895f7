/**
 * `StoreGoatRequest`: who may register a goat (anyone) and the rules a new goat's
 * fields must pass, tag uniqueness included.
 */
module StoreGoatRules {
  import opened Wrappers
  import opened Calendar
  import opened FormInput
  import opened GoatModel
  import TransactionModel

  /** The submitted form, one field per rule key; weight and price as submitted numbers. */
  datatype GoatRequest = GoatRequest(
    tagNumber: Field<string>,
    breed: Field<string>,
    gender: Field<string>,
    birthDate: Field<Date>,
    weight: Field<real>,
    status: Field<string>,
    purchasePrice: Field<real>,
    purchaseDate: Field<Date>,
    notes: Field<string>)

  /** The validated data, weight and price in hundredths as the `decimal:2` casts store them. */
  datatype GoatInput = GoatInput(
    tagNumber: string,
    breed: string,
    gender: string,
    birthDate: Option<Date>,
    weight: Option<int>,
    status: string,
    purchasePrice: Option<int>,
    purchaseDate: Option<Date>,
    notes: Option<string>)

  /** The request keys that carry a rule. */
  datatype Key = TagNumber | Breed | Gender | BirthDate | Weight | Status | PurchasePrice | PurchaseDate | Notes

  const AllKeys: set<Key> := {TagNumber, Breed, Gender, BirthDate, Weight, Status, PurchasePrice, PurchaseDate, Notes}

  /** `authorize`: every user may register a goat. */
  function Authorize(): (ok: bool)
    ensures ok
  {
    true
  }

  /** The rule of key `k`; `existingTags` are the tag numbers already in the goats table. */
  predicate RuleHolds(r: GoatRequest, today: Date, existingTags: set<string>, k: Key) {
    match k
    case TagNumber => RequiredString(r.tagNumber, 255) && r.tagNumber.value !in existingTags
    case Breed => RequiredString(r.breed, 255)
    case Gender => RequiredIn(r.gender, Genders)
    case BirthDate => NullableDateNotAfter(r.birthDate, today)
    case Weight => NullableAtLeast(r.weight, 0.0)
    case Status => RequiredIn(r.status, Statuses)
    case PurchasePrice => NullableAtLeast(r.purchasePrice, 0.0)
    case PurchaseDate => NullableDateNotAfter(r.purchaseDate, today)
    case Notes => NullableText(r.notes)
  }

  /** The keys whose rule the request breaks. */
  function Errors(r: GoatRequest, today: Date, existingTags: set<string>): (e: set<Key>)
    ensures forall k :: k in e <==> !RuleHolds(r, today, existingTags, k)
  {
    set k | k in AllKeys && !RuleHolds(r, today, existingTags, k)
  }

  /** The hundredths of a validated optional number. */
  function OptionalCents(f: Field<real>): (c: Option<int>)
    ensures c.Some? <==> f.Given?
    ensures f.Given? && f.value >= 0.0 ==> c.value >= 0
  {
    if f.Given? then Some(TransactionModel.ToCents(f.value)) else None
  }

  /** The request, authorized and validated: the data `Goat::create` receives, or what was wrong. */
  function Validate(r: GoatRequest, today: Date, existingTags: set<string>): (o: Outcome<Key, GoatInput>)
    ensures !o.Forbidden?
    ensures o.Invalid? ==> o.errors != {} && o.errors == Errors(r, today, existingTags)
    ensures o.Accepted? <==> Errors(r, today, existingTags) == {}
    ensures o.Accepted? ==>
      && 1 <= |o.data.tagNumber| <= 255 && o.data.tagNumber !in existingTags
      && 1 <= |o.data.breed| <= 255
      && o.data.gender in Genders
      && o.data.status in Statuses
      && (o.data.birthDate.Some? ==> ValidDate(o.data.birthDate.value) && DateLe(o.data.birthDate.value, today))
      && (o.data.purchaseDate.Some? ==> ValidDate(o.data.purchaseDate.value) && DateLe(o.data.purchaseDate.value, today))
      && (o.data.weight.Some? ==> o.data.weight.value >= 0)
      && (o.data.purchasePrice.Some? ==> o.data.purchasePrice.value >= 0)
    ensures o.Accepted? ==>
      && r.tagNumber == Given(o.data.tagNumber) && r.breed == Given(o.data.breed)
      && r.gender == Given(o.data.gender) && r.status == Given(o.data.status)
      && o.data.birthDate == Optional(r.birthDate) && o.data.purchaseDate == Optional(r.purchaseDate)
      && o.data.weight == OptionalCents(r.weight) && o.data.purchasePrice == OptionalCents(r.purchasePrice)
      && o.data.notes == Optional(r.notes)
  {
    if !Authorize() then Forbidden
    else
      var e := Errors(r, today, existingTags);
      if e != {} then Invalid(e)
      else
        assert TagNumber !in e && Breed !in e && Gender !in e && BirthDate !in e && Weight !in e;
        assert Status !in e && PurchasePrice !in e && PurchaseDate !in e;
        Accepted(GoatInput(
          r.tagNumber.value, r.breed.value, r.gender.value, Optional(r.birthDate),
          OptionalCents(r.weight), r.status.value, OptionalCents(r.purchasePrice),
          Optional(r.purchaseDate), Optional(r.notes)))
  }

  /**
   * `Goat::create($request->validated())` with the id the table assigns: every validated field
   * is stored, and a nullable key the request left out takes the column's null default.
   */
  function NewGoat(id: nat, d: GoatInput): (g: Goat)
    ensures g.id == id && g.tagNumber == d.tagNumber && g.status == d.status
    ensures g.breed == d.breed && g.gender == d.gender
    ensures g.birthDate == d.birthDate && g.purchaseDate == d.purchaseDate
    ensures g.weight == d.weight && g.purchasePrice == d.purchasePrice
    ensures g.notes == d.notes
  {
    Goat(id, d.tagNumber, d.breed, d.gender, d.birthDate, d.weight, d.status, d.purchasePrice,
         d.purchaseDate, d.notes)
  }

  function Tags(goats: seq<Goat>): set<string> {
    set g | g in goats :: g.tagNumber
  }

  predicate DistinctTags(goats: seq<Goat>) {
    forall i, j :: 0 <= i < j < |goats| ==> goats[i].tagNumber != goats[j].tagNumber
  }

  /**
   * An accepted goat is a row the columns admit, as long as weight and price fit their
   * `decimal` columns: the rules set no maximum, so those bounds are left to the database.
   */
  lemma AcceptedGoatFits(id: nat, r: GoatRequest, today: Date, existingTags: set<string>)
    requires Validate(r, today, existingTags).Accepted?
    requires var d := Validate(r, today, existingTags).data;
      (d.weight.Some? ==> d.weight.value < WeightLimit) && (d.purchasePrice.Some? ==> d.purchasePrice.value < PriceLimit)
    ensures WellFormed(NewGoat(id, Validate(r, today, existingTags).data))
  {
  }

  /** Checking `unique` against the table's tags keeps the tag numbers distinct after the insert. */
  lemma {:induction false} StoreKeepsTagsUnique(goats: seq<Goat>, id: nat, r: GoatRequest, today: Date)
    requires DistinctTags(goats)
    requires Validate(r, today, Tags(goats)).Accepted?
    ensures DistinctTags(goats + [NewGoat(id, Validate(r, today, Tags(goats)).data)])
  {
    var g := NewGoat(id, Validate(r, today, Tags(goats)).data);
    var all := goats + [g];
    forall i, j | 0 <= i < j < |all|
      ensures all[i].tagNumber != all[j].tagNumber
    {
      if j == |goats| {
        assert all[i] in goats;
      } else {
        assert all[i] == goats[i] && all[j] == goats[j];
      }
    }
  }
}
