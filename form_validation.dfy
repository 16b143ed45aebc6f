// The form hook of src/hooks/useFormValidation.ts: per-field rules checked in
// a fixed order, a whole-form check that collects the failing fields, and the
// values/errors/touched/isValid state that the handlers update.

module FormValidation {
  import opened Common
  import opened OrderedMaps

  /**
   * `ValidationRules`. A length limit is tested for truthiness, so `Some(0)`
   * acts like an absent limit; a pattern and a custom check are objects and
   * always truthy when present.
   */
  datatype Rules = Rules(
    required: bool,
    minLength: Option<int>,
    maxLength: Option<int>,
    pattern: Option<string -> bool>,
    custom: Option<string -> Option<string>>)

  /** A number that JavaScript's `&&` lets through. */
  predicate Truthy(n: Option<int>)
  {
    n.Some? && n.value != 0
  }

  /** `name.charAt(0).toUpperCase() + name.slice(1)`. */
  function Capitalized(name: string): (r: string)
    ensures |r| == |name|
  {
    if name == [] then [] else [ToUpperChar(name[0])] + name[1..]
  }

  function RequiredMessage(name: string): string { Capitalized(name) + " is required" }

  function MinLengthMessage(name: string, n: int): string
  {
    Capitalized(name) + " must be at least " + IntToString(n) + " characters"
  }

  function MaxLengthMessage(name: string, n: int): string
  {
    Capitalized(name) + " must be less than " + IntToString(n) + " characters"
  }

  function FormatMessage(name: string): string { Capitalized(name) + " format is invalid" }

  /** `validateField`: the first failing rule's message, else the custom check's result. */
  function ValidateField(validations: map<string, Rules>, name: string, value: string): (r: Option<string>)
  {
    if name !in validations then None
    else
      var rules := validations[name];
      if rules.required && value == "" then Some(RequiredMessage(name))
      else if Truthy(rules.minLength) && |value| < rules.minLength.value then Some(MinLengthMessage(name, rules.minLength.value))
      else if Truthy(rules.maxLength) && |value| > rules.maxLength.value then Some(MaxLengthMessage(name, rules.maxLength.value))
      else if rules.pattern.Some? && !rules.pattern.value(value) then Some(FormatMessage(name))
      else if rules.custom.Some? then rules.custom.value(value)
      else None
  }

  /** A field without rules never fails. */
  lemma NoRulesNoError(validations: map<string, Rules>, name: string, value: string)
    requires name !in validations
    ensures ValidateField(validations, name, value) == None
  {
  }

  /** The built-in messages begin with the capitalised field name. */
  lemma BuiltInMessagesNameTheField(validations: map<string, Rules>, name: string, value: string)
    requires name in validations && validations[name].custom.None?
    ensures var r := ValidateField(validations, name, value);
      r.Some? ==> StartsWith(r.value, Capitalized(name))
  {
    var r := ValidateField(validations, name, value);
    if r.Some? {
      var rules := validations[name];
      var c := Capitalized(name);
      if rules.required && value == "" {
        PrefixStarts(c, " is required");
      } else if Truthy(rules.minLength) && |value| < rules.minLength.value {
        PrefixStarts(c, " must be at least " + IntToString(rules.minLength.value) + " characters");
      } else if Truthy(rules.maxLength) && |value| > rules.maxLength.value {
        PrefixStarts(c, " must be less than " + IntToString(rules.maxLength.value) + " characters");
      } else {
        PrefixStarts(c, " format is invalid");
      }
    }
  }

  lemma PrefixStarts(c: string, rest: string)
    ensures StartsWith(c + rest, c)
  {
    assert (c + rest)[..|c|] == c;
  }

  /** A zero length limit is skipped as if it were absent. */
  lemma ZeroLimitsIgnored(validations: map<string, Rules>, name: string, value: string)
    requires name in validations
    ensures var rules := validations[name];
      ValidateField(validations[name := rules.(minLength := Some(0), maxLength := Some(0))], name, value) ==
      ValidateField(validations[name := rules.(minLength := None, maxLength := None)], name, value)
  {
  }

  /** A minimum length still rejects the empty string when the field is not required. */
  lemma MinLengthRejectsEmpty(validations: map<string, Rules>, name: string)
    requires name in validations
    requires !validations[name].required && Truthy(validations[name].minLength) && validations[name].minLength.value > 0
    ensures ValidateField(validations, name, "") == Some(MinLengthMessage(name, validations[name].minLength.value))
  {
  }

  /** The checks run in order: a required empty value is reported as such whatever else the rules say. */
  lemma RequiredComesFirst(validations: map<string, Rules>, name: string)
    requires name in validations && validations[name].required
    ensures ValidateField(validations, name, "") == Some(RequiredMessage(name))
  {
  }

  /** `if (error)`: a null or empty message does not fail the form. */
  predicate IsError(e: Option<string>)
  {
    e.Some? && e.value != ""
  }

  predicate FieldFails(validations: map<string, Rules>, field: (string, string))
  {
    IsError(ValidateField(validations, field.0, field.1))
  }

  /** The `newErrors` object `validateForm` builds: one entry per failing field. */
  function FormErrors(validations: map<string, Rules>, values: OMap<string, string>): map<string, Option<string>>
  {
    if values == [] then map[]
    else
      var last := values[|values| - 1];
      var errs := FormErrors(validations, values[..|values| - 1]);
      if FieldFails(validations, last) then errs[last.0 := ValidateField(validations, last.0, last.1)] else errs
  }

  predicate FormValid(validations: map<string, Rules>, values: OMap<string, string>)
  {
    forall i :: 0 <= i < |values| ==> !FieldFails(validations, values[i])
  }

  /** The errors name exactly the failing fields. */
  lemma {:induction false} FormErrorsKeys(validations: map<string, Rules>, values: OMap<string, string>, k: string)
    ensures k in FormErrors(validations, values) <==>
      exists i :: 0 <= i < |values| && values[i].0 == k && FieldFails(validations, values[i])
  {
    if values != [] {
      var init := values[..|values| - 1];
      FormErrorsKeys(validations, init, k);
      if exists i :: 0 <= i < |values| && values[i].0 == k && FieldFails(validations, values[i]) {
        var i :| 0 <= i < |values| && values[i].0 == k && FieldFails(validations, values[i]);
        if i < |init| {
          assert init[i] == values[i];
        }
      }
      if exists i :: 0 <= i < |init| && init[i].0 == k && FieldFails(validations, init[i]) {
        var i :| 0 <= i < |init| && init[i].0 == k && FieldFails(validations, init[i]);
        assert values[i] == init[i];
      }
    }
  }

  /** Each error is the message of a field with that name. */
  lemma {:induction false} FormErrorsValues(validations: map<string, Rules>, values: OMap<string, string>, k: string)
    requires k in FormErrors(validations, values)
    ensures exists i ::
      0 <= i < |values| && values[i].0 == k &&
      FormErrors(validations, values)[k] == ValidateField(validations, k, values[i].1)
  {
    var init := values[..|values| - 1];
    var last := values[|values| - 1];
    if FieldFails(validations, last) && k == last.0 {
      assert values[|values| - 1].0 == k;
    } else {
      FormErrorsValues(validations, init, k);
      var i :|
        0 <= i < |init| && init[i].0 == k &&
        FormErrors(validations, init)[k] == ValidateField(validations, k, init[i].1);
      assert values[i] == init[i];
    }
  }

  /** The form is valid exactly when there are no errors. */
  lemma FormValidIff(validations: map<string, Rules>, values: OMap<string, string>)
    ensures FormValid(validations, values) <==> FormErrors(validations, values) == map[]
  {
    if !FormValid(validations, values) {
      var i :| 0 <= i < |values| && FieldFails(validations, values[i]);
      FormErrorsKeys(validations, values, values[i].0);
      assert values[i].0 in FormErrors(validations, values);
    }
    if FormErrors(validations, values) != map[] {
      var k :| k in FormErrors(validations, values);
      FormErrorsKeys(validations, values, k);
    }
  }

  /**
   * The errors name exactly the failing fields, each with its own message,
   * and the form is valid exactly when there are none.
   */
  lemma FormErrorsExact(validations: map<string, Rules>, values: OMap<string, string>, k: string)
    ensures k in FormErrors(validations, values) <==>
      exists i :: 0 <= i < |values| && values[i].0 == k && FieldFails(validations, values[i])
    ensures k in FormErrors(validations, values) ==>
      exists i :: 0 <= i < |values| && values[i].0 == k && FormErrors(validations, values)[k] == ValidateField(validations, k, values[i].1)
    ensures FormValid(validations, values) <==> FormErrors(validations, values) == map[]
  {
    FormErrorsKeys(validations, values, k);
    if k in FormErrors(validations, values) {
      FormErrorsValues(validations, values, k);
    }
    FormValidIff(validations, values);
  }

  /** The hook's state. `initialValues` and `validations` are the arguments it was called with. */
  class Form {
    const initialValues: OMap<string, string>
    const validations: map<string, Rules>
    var values: OMap<string, string>
    var errors: map<string, Option<string>>
    var touched: map<string, bool>
    var isValid: bool

    constructor (initialValues: OMap<string, string>, validations: map<string, Rules>)
      ensures this.initialValues == initialValues && this.validations == validations
      ensures values == initialValues && errors == map[] && touched == map[] && !isValid
    {
      this.initialValues := initialValues;
      this.validations := validations;
      values := initialValues;
      errors := map[];
      touched := map[];
      isValid := false;
    }

    /** `validateForm`: check every field in key order, then replace the errors and the flag. */
    method ValidateForm() returns (ok: bool)
      modifies this
      ensures ok == FormValid(validations, values) && isValid == ok
      ensures errors == FormErrors(validations, values)
      ensures values == old(values) && touched == old(touched)
    {
      var newErrors: map<string, Option<string>> := map[];
      var formIsValid := true;
      var i := 0;
      while i < |values|
        invariant 0 <= i <= |values|
        invariant newErrors == FormErrors(validations, values[..i])
        invariant formIsValid == FormValid(validations, values[..i])
      {
        assert values[..i + 1][..i] == values[..i];
        var name := values[i].0;
        var error := ValidateField(validations, name, values[i].1);
        if IsError(error) {
          formIsValid := false;
          newErrors := newErrors[name := error];
        }
        i := i + 1;
      }
      assert values[..i] == values;
      errors := newErrors;
      isValid := formIsValid;
      ok := formIsValid;
    }

    /** `handleChange`: store the value, mark the field touched, re-check that field only. */
    method HandleChange(name: string, value: string)
      modifies this
      ensures values == Put(old(values), name, value)
      ensures touched == old(touched)[name := true]
      ensures errors == old(errors)[name := ValidateField(validations, name, value)]
      ensures isValid == old(isValid)
    {
      values := Put(values, name, value);
      touched := touched[name := true];
      errors := errors[name := ValidateField(validations, name, value)];
    }

    /** `handleBlur`: mark the field touched and re-check its current value. */
    method HandleBlur(name: string)
      requires HasKey(values, name)
      modifies this
      ensures values == old(values) && isValid == old(isValid)
      ensures touched == old(touched)[name := true]
      ensures errors == old(errors)[name := ValidateField(validations, name, Get(values, name).value)]
    {
      var value := Get(values, name).value;
      touched := touched[name := true];
      errors := errors[name := ValidateField(validations, name, value)];
    }

    /** `resetForm`. */
    method ResetForm()
      modifies this
      ensures values == initialValues && errors == map[] && touched == map[] && !isValid
    {
      values := initialValues;
      errors := map[];
      touched := map[];
      isValid := false;
    }
  }
}
