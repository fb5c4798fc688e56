/**
 * The first sign-up page (`sign_up_page.tsx`): four text fields and a terms
 * checkbox, validated on submit, with a simulated registration delay that
 * ends on the sign-in page.
 */
module SignUpPrototype {
  import opened Wrappers
  import opened Text
  import opened FormRules

  datatype Field = Name | Email | Password | ConfirmPassword

  /** The `formData` object, one string per input. */
  datatype FormData = FormData(name: string, email: string, password: string, confirmPassword: string)
  {
    function Get(f: Field): string {
      match f
      case Name => name
      case Email => email
      case Password => password
      case ConfirmPassword => confirmPassword
    }

    /** `{ ...prev, [name]: value }`: the named field changes, the others stay. */
    function With(f: Field, value: string): (d: FormData)
      ensures d.Get(f) == value
      ensures forall g :: g != f ==> d.Get(g) == Get(g)
    {
      match f
      case Name => this.(name := value)
      case Email => this.(email := value)
      case Password => this.(password := value)
      case ConfirmPassword => this.(confirmPassword := value)
    }
  }

  /** A key of the error map: a field's input `name` ("name", "email",
      "password", "confirmPassword"), or "terms". */
  datatype ErrorKey = FieldKey(field: Field) | TermsKey

  /** `errors[key]`, or `None` when the key is absent. */
  function Lookup(m: map<ErrorKey, string>, key: ErrorKey): (v: Option<string>)
    ensures v.Some? <==> key in m
    ensures v.Some? ==> v.value == m[key]
  {
    if key in m then Some(m[key]) else None
  }

  /** Sets `key` when a check reports an error, and leaves the map alone otherwise. */
  function Put(m: map<ErrorKey, string>, key: ErrorKey, e: Option<string>): map<ErrorKey, string> {
    if e.Some? then m[key := e.value] else m
  }

  const PasswordRequired := "Password is required"
  const PasswordTooShort := "Password must be at least 8 characters"
  const PasswordsDiffer := "Passwords do not match"
  const TermsRequired := "You must accept the terms and conditions"

  /** The password rule: "required" when empty, "too short" below 8 characters. */
  function PasswordError(password: string): (e: Option<string>)
    ensures e == Some(PasswordRequired) <==> password == ""
    ensures e == Some(PasswordTooShort) <==> 0 < |password| < 8
    ensures e.None? <==> |password| >= 8
  {
    if password == "" then Some(PasswordRequired)
    else if |password| < 8 then Some(PasswordTooShort)
    else None
  }

  /** The confirmation rule: an error exactly when the two passwords differ,
      whatever the other rules say. */
  function MismatchError(password: string, confirmPassword: string): (e: Option<string>)
    ensures e.Some? <==> password != confirmPassword
    ensures e.Some? ==> e.value == PasswordsDiffer
  {
    if password != confirmPassword then Some(PasswordsDiffer) else None
  }

  /** The terms rule. */
  function TermsError(acceptTerms: bool): (e: Option<string>)
    ensures e.Some? <==> !acceptTerms
    ensures e.Some? ==> e.value == TermsRequired
  {
    if acceptTerms then None else Some(TermsRequired)
  }

  /** What each of `validateForm`'s five checks reports. */
  datatype RuleResults = RuleResults(name: Option<string>, email: Option<string>, password: Option<string>,
                                     confirmPassword: Option<string>, terms: Option<string>)
  {
    /** The result stored under `key`. */
    function For(key: ErrorKey): Option<string> {
      match key
      case FieldKey(Name) => name
      case FieldKey(Email) => email
      case FieldKey(Password) => password
      case FieldKey(ConfirmPassword) => confirmPassword
      case TermsKey => terms
    }
  }

  /** Every key a check can set. */
  const RuleKeys: set<ErrorKey> := {FieldKey(Name), FieldKey(Email), FieldKey(Password), FieldKey(ConfirmPassword), TermsKey}

  /** The five checks on the given fields and checkbox. */
  function Check(formData: FormData, acceptTerms: bool): RuleResults {
    RuleResults(NameError(formData.name), EmailError(formData.email), PasswordError(formData.password),
                MismatchError(formData.password, formData.confirmPassword), TermsError(acceptTerms))
  }

  /** The error map holding, under each key, the message its check reports. */
  function ErrorsOf(v: RuleResults): map<ErrorKey, string> {
    map key | key in RuleKeys && v.For(key).Some? :: v.For(key).value
  }

  /** The error map `validateForm` builds for the given fields and checkbox. */
  function FormErrors(formData: FormData, acceptTerms: bool): map<ErrorKey, string> {
    ErrorsOf(Check(formData, acceptTerms))
  }

  /** The order in which `validateForm` runs its checks. */
  const Order: seq<ErrorKey> := [FieldKey(Name), FieldKey(Email), FieldKey(Password), FieldKey(ConfirmPassword), TermsKey]

  function Rank(key: ErrorKey): (i: nat)
    ensures i < |Order| && Order[i] == key
  {
    match key
    case FieldKey(Name) => 0
    case FieldKey(Email) => 1
    case FieldKey(Password) => 2
    case FieldKey(ConfirmPassword) => 3
    case TermsKey => 4
  }

  /** The map after the first `n` checks have run. */
  ghost function Partial(v: RuleResults, n: nat): map<ErrorKey, string>
    requires n <= |Order|
  {
    if n == 0 then map[] else Put(Partial(v, n - 1), Order[n - 1], v.For(Order[n - 1]))
  }

  /** After the first `n` checks, exactly the keys of the failing ones among
      them are set, each to its own check's message. */
  lemma {:induction false} PartialHolds(v: RuleResults, n: nat, key: ErrorKey)
    requires n <= |Order|
    ensures key in Partial(v, n) <==> Rank(key) < n && v.For(key).Some?
    ensures key in Partial(v, n) ==> Partial(v, n)[key] == v.For(key).value
  {
    if n > 0 {
      PartialHolds(v, n - 1, key);
      if Order[n - 1] == key {
        assert Rank(key) == n - 1;
        assert Order[Rank(key)] == key;
      }
      if Rank(key) == n - 1 {
        assert Order[Rank(key)] == key;
      }
    }
  }

  /** Once all five checks have run, the map is `ErrorsOf(v)`. */
  lemma PartialAll(v: RuleResults)
    ensures Partial(v, |Order|) == ErrorsOf(v)
  {
    forall key ensures key in Partial(v, |Order|) <==> key in ErrorsOf(v) {
      PartialHolds(v, |Order|, key);
      assert key == Order[Rank(key)];
    }
    forall key | key in ErrorsOf(v) ensures Partial(v, |Order|)[key] == ErrorsOf(v)[key] {
      PartialHolds(v, |Order|, key);
    }
  }

  /** `validateForm`'s filling of `newErrors`, starting empty and setting one
      key after each failing check, in the source's order. */
  method Fill(v: RuleResults) returns (newErrors: map<ErrorKey, string>)
    ensures newErrors == ErrorsOf(v)
  {
    newErrors := map[];
    newErrors := Put(newErrors, FieldKey(Name), v.name);
    assert newErrors == Partial(v, 1);
    newErrors := Put(newErrors, FieldKey(Email), v.email);
    assert newErrors == Partial(v, 2);
    newErrors := Put(newErrors, FieldKey(Password), v.password);
    assert newErrors == Partial(v, 3);
    newErrors := Put(newErrors, FieldKey(ConfirmPassword), v.confirmPassword);
    assert newErrors == Partial(v, 4);
    newErrors := Put(newErrors, TermsKey, v.terms);
    assert newErrors == Partial(v, 5);
    PartialAll(v);
  }

  /** `validateForm`'s checks followed by the filling of `newErrors`. */
  method BuildErrors(formData: FormData, acceptTerms: bool) returns (newErrors: map<ErrorKey, string>)
    ensures newErrors == FormErrors(formData, acceptTerms)
  {
    newErrors := Fill(Check(formData, acceptTerms));
  }

  /** Each key of the error map holds exactly its own check's error. */
  lemma FormErrorsByKey(formData: FormData, acceptTerms: bool)
    ensures var errors := FormErrors(formData, acceptTerms);
      Lookup(errors, FieldKey(Name)) == NameError(formData.name) &&
      Lookup(errors, FieldKey(Email)) == EmailError(formData.email) &&
      Lookup(errors, FieldKey(Password)) == PasswordError(formData.password) &&
      Lookup(errors, FieldKey(ConfirmPassword)) == MismatchError(formData.password, formData.confirmPassword) &&
      Lookup(errors, TermsKey) == TermsError(acceptTerms)
  {
  }

  /** The form is valid exactly when no check reports an error. */
  lemma FormErrorsEmptyIffNoRuleFails(formData: FormData, acceptTerms: bool)
    ensures FormErrors(formData, acceptTerms) == map[] <==>
      NameError(formData.name).None? && EmailError(formData.email).None? &&
      PasswordError(formData.password).None? &&
      MismatchError(formData.password, formData.confirmPassword).None? && TermsError(acceptTerms).None?
  {
    var errors := FormErrors(formData, acceptTerms);
    FormErrorsByKey(formData, acceptTerms);
    if NameError(formData.name).None? && EmailError(formData.email).None? &&
       PasswordError(formData.password).None? &&
       MismatchError(formData.password, formData.confirmPassword).None? && TermsError(acceptTerms).None? {
      assert errors.Keys == {};
    }
  }

  /** Every message the map holds is non-empty, so its keys are exactly the
      truthy entries `handleChange` looks at. */
  lemma FormErrorsHaveMessages(formData: FormData, acceptTerms: bool)
    ensures forall k :: k in FormErrors(formData, acceptTerms) ==> FormErrors(formData, acceptTerms)[k] != ""
  {
    var errors := FormErrors(formData, acceptTerms);
    forall k | k in errors
      ensures errors[k] != ""
    {
      match k
      case FieldKey(Name) => assert errors[k] == NameRequired;
      case FieldKey(Email) => assert errors[k] == EmailRequired || errors[k] == EmailInvalid;
      case FieldKey(Password) => assert errors[k] == PasswordRequired || errors[k] == PasswordTooShort;
      case FieldKey(ConfirmPassword) => assert errors[k] == PasswordsDiffer;
      case TermsKey => assert errors[k] == TermsRequired;
    }
  }

  class SignUpForm {
    var isLoading: bool
    var formData: FormData
    var errors: map<ErrorKey, string>
    var acceptTerms: bool
    /** The 1.5 s registration timeout is set. */
    var redirectPending: bool
    /** The paths passed to `router.push`, in order. */
    var navigations: seq<string>

    ghost predicate Valid()
      reads this
    {
      redirectPending ==> isLoading
    }

    constructor ()
      ensures Valid() && !isLoading && !acceptTerms && !redirectPending
      ensures formData == FormData("", "", "", "")
      ensures errors == map[] && navigations == []
    {
      isLoading, acceptTerms, redirectPending := false, false, false;
      formData := FormData("", "", "", "");
      errors, navigations := map[], [];
    }

    /** `handleChange`: the field takes the typed value and its error, if it
        holds a message, is dropped; every other field and error stays. Every
        message `validateForm` sets is non-empty (`FormErrorsHaveMessages`). */
    method HandleChange(f: Field, value: string)
      requires Valid()
      modifies this
      ensures Valid()
      ensures formData == old(formData).With(f, value)
      ensures errors == if FieldKey(f) in old(errors) && old(errors)[FieldKey(f)] != ""
                        then old(errors) - {FieldKey(f)} else old(errors)
      ensures isLoading == old(isLoading) && acceptTerms == old(acceptTerms)
      ensures redirectPending == old(redirectPending) && navigations == old(navigations)
    {
      formData := formData.With(f, value);
      if FieldKey(f) in errors && errors[FieldKey(f)] != "" {
        var newErrors := errors;
        newErrors := newErrors - {FieldKey(f)};
        errors := newErrors;
      }
    }

    /** The terms checkbox. */
    method SetAcceptTerms(checked: bool)
      requires Valid()
      modifies this
      ensures Valid() && acceptTerms == checked
      ensures formData == old(formData) && errors == old(errors) && isLoading == old(isLoading)
      ensures redirectPending == old(redirectPending) && navigations == old(navigations)
    {
      acceptTerms := checked;
    }

    /** `validateForm`: the error map is replaced by one holding, key by key,
        each rule's error and nothing else, and the form is valid when that map
        is empty. */
    method ValidateForm() returns (ok: bool)
      requires Valid()
      modifies this
      ensures Valid()
      ensures errors == FormErrors(formData, acceptTerms)
      ensures ok <==> errors == map[]
      ensures formData == old(formData) && acceptTerms == old(acceptTerms) && isLoading == old(isLoading)
      ensures redirectPending == old(redirectPending) && navigations == old(navigations)
    {
      var newErrors := BuildErrors(formData, acceptTerms);
      errors := newErrors;
      ok := newErrors == map[];
    }

    /** `handleSubmit`, which the disabled button blocks while loading: an
        invalid form only shows its errors; a valid one starts loading and sets
        the registration timeout. */
    method HandleSubmit() returns (ok: bool)
      requires Valid() && !isLoading
      modifies this
      ensures Valid() && errors == FormErrors(formData, acceptTerms) && (ok <==> errors == map[])
      ensures !ok ==> !isLoading && !redirectPending
      ensures ok ==> isLoading && redirectPending
      ensures formData == old(formData) && acceptTerms == old(acceptTerms) && navigations == old(navigations)
    {
      ok := ValidateForm();
      if !ok {
        return;
      }
      isLoading := true;
      redirectPending := true;
    }

    /** The registration timeout: loading ends and the sign-in page opens. */
    method RedirectTimeout()
      requires Valid() && redirectPending
      modifies this
      ensures Valid() && !isLoading && !redirectPending
      ensures navigations == old(navigations) + ["/sign-in"]
      ensures formData == old(formData) && errors == old(errors) && acceptTerms == old(acceptTerms)
    {
      isLoading := false;
      redirectPending := false;
      navigations := navigations + ["/sign-in"];
    }
  }
}
