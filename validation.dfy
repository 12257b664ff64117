/**
  Request-body validation as the schema layer performs it on one field:
  the field must be present, then its declared minimum length is checked,
  and only a value that passes both reaches a field validator.  A schema
  with two fields collects the errors of both, in declaration order.
 */
module Validation {

  import opened Wrappers
  import opened Text

  datatype ErrorKind =
    | Missing                  // a required field with no default is absent
    | TooShort(minLength: nat) // the min_length constraint failed
    | Custom(message: string)  // a field validator raised ValueError(message)

  datatype FieldError = FieldError(field: string, kind: ErrorKind)

  /** What a schema declares about one string field. */
  datatype FieldRule = FieldRule(name: string, minLength: nat, nonBlank: bool)

  datatype Checked = Accepted(value: string) | Failed(error: FieldError)

  datatype Parsed<T> = Valid(value: T) | Invalid(errors: seq<FieldError>)

  /** The message of the not_empty validator. */
  function BlankMessage(field: string): string {
    field + " must not be empty"
  }

  /** The validated value is the one given (never the stripped one). */
  function CheckField(rule: FieldRule, v: Option<string>): Checked {
    match v
    case None => Failed(FieldError(rule.name, Missing))
    case Some(s) =>
      if |s| < rule.minLength then Failed(FieldError(rule.name, TooShort(rule.minLength)))
      else if rule.nonBlank && Strip(s) == [] then Failed(FieldError(rule.name, Custom(BlankMessage(rule.name))))
      else Accepted(s)
  }

  /** The values a rule admits, stated without strip. */
  predicate Admits(rule: FieldRule, s: string) {
    |s| >= rule.minLength && (rule.nonBlank ==> !IsBlank(s))
  }

  function ErrorsOf(c: Checked): seq<FieldError> {
    if c.Failed? then [c.error] else []
  }

  function CheckPair(r1: FieldRule, v1: Option<string>, r2: FieldRule, v2: Option<string>): Parsed<(string, string)> {
    var c1, c2 := CheckField(r1, v1), CheckField(r2, v2);
    if c1.Accepted? && c2.Accepted? then Valid((c1.value, c2.value))
    else Invalid(ErrorsOf(c1) + ErrorsOf(c2))
  }

  /**
    A present value is accepted exactly when the rule admits it, and is
    then passed on unchanged; a rejected value gets the first error in the
    order absent, too short, blank.
   */
  lemma CheckFieldSpec(rule: FieldRule, v: Option<string>)
    ensures CheckField(rule, v).Accepted? <==> v.Some? && Admits(rule, v.value)
    ensures CheckField(rule, v).Accepted? ==> CheckField(rule, v).value == v.value
    ensures CheckField(rule, v).Failed? ==> CheckField(rule, v).error.field == rule.name
    ensures v.None? ==> CheckField(rule, v) == Failed(FieldError(rule.name, Missing))
    ensures v.Some? && |v.value| < rule.minLength ==> CheckField(rule, v) == Failed(FieldError(rule.name, TooShort(rule.minLength)))
    ensures v.Some? && |v.value| >= rule.minLength && rule.nonBlank && IsBlank(v.value)
        ==> CheckField(rule, v) == Failed(FieldError(rule.name, Custom(BlankMessage(rule.name))))
  {
    if v.Some? {
      StripEmptyIffBlank(v.value);
    }
  }

  /**
    A two-field body is valid exactly when both fields are present and
    admitted; the parsed value holds them as given; otherwise every failing
    field contributes exactly one error, the first field's ahead of the second's.
   */
  lemma CheckPairSpec(r1: FieldRule, v1: Option<string>, r2: FieldRule, v2: Option<string>)
    ensures CheckPair(r1, v1, r2, v2).Valid?
        <==> v1.Some? && v2.Some? && Admits(r1, v1.value) && Admits(r2, v2.value)
    ensures CheckPair(r1, v1, r2, v2).Valid? ==> CheckPair(r1, v1, r2, v2).value == (v1.value, v2.value)
    ensures CheckPair(r1, v1, r2, v2).Invalid? ==>
      CheckPair(r1, v1, r2, v2).errors == ErrorsOf(CheckField(r1, v1)) + ErrorsOf(CheckField(r2, v2))
      && 1 <= |CheckPair(r1, v1, r2, v2).errors| <= 2
  {
    CheckFieldSpec(r1, v1);
    CheckFieldSpec(r2, v2);
  }
}
