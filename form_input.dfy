/**
 * Request input as the validator sees it, and the Laravel validation rules the two form
 * requests use, each as a predicate over one field.
 */
module FormInput {
  import opened Calendar
  import Wrappers

  /**
   * One input field: a key the request does not carry, a key sent as null, a key present but
   * not of the rule's type (a date that does not parse, a non-numeric amount, an array where a
   * string belongs), or a value.
   */
  datatype Field<T> = Absent | Null | Unparsable | Given(value: T) {
    /** No value: `required` fails and `nullable` passes, whether the key is absent or null. */
    predicate Unset() {
      Absent? || Null?
    }
  }

  /**
   * A nullable key of `validated()`: left out when the request did not carry it, otherwise
   * its value or null.
   */
  datatype Entry<T> = Omitted | Written(value: Wrappers.Option<T>)

  /**
   * A form request's result: refused by `authorize`, refused by `rules` with the keys
   * whose rule failed, or the validated data.
   */
  datatype Outcome<K, T> = Forbidden | Invalid(errors: set<K>) | Accepted(data: T)

  /** Characters PHP's `trim` removes. */
  predicate TrimRemoves(c: char) {
    c == ' ' || c == '\t' || c == '\n' || c == '\r' || c == '\0' || c == '\U{000B}'
  }

  /** A string that `required` rejects: empty once trimmed. */
  predicate Blank(s: string) {
    forall i :: 0 <= i < |s| ==> TrimRemoves(s[i])
  }

  /** `required|string|max:n` */
  predicate RequiredString(f: Field<string>, n: nat) {
    f.Given? && !Blank(f.value) && |f.value| <= n
  }

  /** `nullable|string|max:n` */
  predicate NullableString(f: Field<string>, n: nat) {
    f.Unset() || (f.Given? && |f.value| <= n)
  }

  /** `nullable|string` */
  predicate NullableText(f: Field<string>) {
    !f.Unparsable?
  }

  /** `required|in:…`: the options here are never blank, so `required` adds nothing once `in` holds. */
  predicate RequiredIn(f: Field<string>, options: set<string>) {
    f.Given? && f.value in options
  }

  /** `required|date|before_or_equal:today` */
  predicate RequiredDateNotAfter(f: Field<Date>, today: Date) {
    f.Given? && ValidDate(f.value) && DateLe(f.value, today)
  }

  /** `nullable|date|before_or_equal:today` */
  predicate NullableDateNotAfter(f: Field<Date>, today: Date) {
    f.Unset() || (f.Given? && ValidDate(f.value) && DateLe(f.value, today))
  }

  /** `required|numeric|min:m` */
  predicate RequiredAtLeast(f: Field<real>, m: real) {
    f.Given? && f.value >= m
  }

  /** `nullable|numeric|min:m` */
  predicate NullableAtLeast(f: Field<real>, m: real) {
    f.Unset() || (f.Given? && f.value >= m)
  }

  /** `nullable|exists:table,id` against the ids present in the table. */
  predicate NullableExists(f: Field<nat>, ids: set<nat>) {
    f.Unset() || (f.Given? && f.value in ids)
  }

  /** The value of a nullable field that passed its rule, as a new row stores it: absent and null are both null. */
  function Optional<T>(f: Field<T>): Wrappers.Option<T> {
    if f.Given? then Wrappers.Some(f.value) else Wrappers.None
  }

  /** The `validated()` entry of a nullable field that passed its rule: an absent key is left out. */
  function Validated<T>(f: Field<T>): (e: Entry<T>)
    ensures e.Omitted? <==> !f.Given? && !f.Null?
    ensures e.Written? && f.Given? ==> e.value == Wrappers.Some(f.value)
    ensures e.Written? && f.Null? ==> e.value == Wrappers.None
  {
    if f.Given? then Written(Wrappers.Some(f.value))
    else if f.Null? then Written(Wrappers.None)
    else Omitted
  }
}
