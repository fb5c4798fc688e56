/**
 * The sign-up page (`sign-up/page.tsx`): a name and an email field, validated
 * on submit with the same rules as the first sign-up page, then posted to
 * `/api/sign-up`. The answer either opens the home page or becomes a single
 * `api` error.
 */
module SignUpPage {
  import opened Wrappers
  import opened Text
  import opened Http
  import opened FormRules

  datatype Field = Name | Email

  /** The `formData` object. The password input has no `value` and no
      `onChange`, so it is not part of the state. */
  datatype FormData = FormData(name: string, email: string)
  {
    function Get(f: Field): string {
      match f
      case Name => name
      case Email => email
    }

    /** `{ ...prev, [name]: value }`: the named field changes, the other stays. */
    function With(f: Field, value: string): (d: FormData)
      ensures d.Get(f) == value
      ensures forall g :: g != f ==> d.Get(g) == Get(g)
    {
      match f
      case Name => this.(name := value)
      case Email => this.(email := value)
    }
  }

  /** A key of the error map: an input's `name` ("name", "email"), or "api". */
  datatype ErrorKey = FieldKey(field: Field) | ApiKey

  const ApiFallback := "Failed to sign up"
  const UnexpectedError := "An unexpected error occurred"

  /** The check whose error `validateForm` stores under `key`; no check sets "api". */
  function RuleFor(formData: FormData, key: ErrorKey): Option<string> {
    match key
    case FieldKey(Name) => NameError(formData.name)
    case FieldKey(Email) => EmailError(formData.email)
    case ApiKey => None
  }

  /** The error map `validateForm` builds for the given fields. */
  function FormErrors(formData: FormData): map<ErrorKey, string> {
    map key | key in {FieldKey(Name), FieldKey(Email)} && RuleFor(formData, key).Some? :: RuleFor(formData, key).value
  }

  /** `validateForm`'s filling of `newErrors`: start empty, then set "name" and
      "email" when their checks fail. */
  method BuildErrors(formData: FormData) returns (newErrors: map<ErrorKey, string>)
    ensures newErrors == FormErrors(formData)
  {
    newErrors := map[];
    var nameError := NameError(formData.name);
    if nameError.Some? {
      newErrors := newErrors[FieldKey(Name) := nameError.value];
    }
    var emailError := EmailError(formData.email);
    if emailError.Some? {
      newErrors := newErrors[FieldKey(Email) := emailError.value];
    }
    forall key ensures key in newErrors <==> key in FormErrors(formData) {
      match key
      case FieldKey(Name) =>
      case FieldKey(Email) =>
      case ApiKey =>
    }
  }

  /** Each field's key holds exactly its own check's error, and "api" is never set. */
  lemma FormErrorsByKey(formData: FormData)
    ensures FieldKey(Name) in FormErrors(formData) <==> IsBlank(formData.name)
    ensures FieldKey(Name) in FormErrors(formData) ==> FormErrors(formData)[FieldKey(Name)] == NameRequired
    ensures FieldKey(Email) in FormErrors(formData) <==> EmailError(formData.email).Some?
    ensures FieldKey(Email) in FormErrors(formData) ==> Some(FormErrors(formData)[FieldKey(Email)]) == EmailError(formData.email)
    ensures ApiKey !in FormErrors(formData)
  {
  }

  /** The form is valid exactly when the name is not blank and the email matches. */
  lemma FormValidIff(formData: FormData)
    ensures FormErrors(formData) == map[] <==> !IsBlank(formData.name) && EmailPatternSpec(formData.email)
  {
    EmailAcceptedIffMatches(formData.email);
    EmailPatternMatchesIff(formData.email);
    if !IsBlank(formData.name) && EmailPatternMatches(formData.email) {
      assert FormErrors(formData).Keys == {};
    } else if IsBlank(formData.name) {
      assert FieldKey(Name) in FormErrors(formData);
    } else {
      assert FieldKey(Email) in FormErrors(formData);
    }
  }

  /** The body of the POST: `{ name, email }`. */
  datatype Request = Request(name: string, email: string)

  /** How the `fetch` ended: an answer with its `ok` flag and, when not ok, the
      `error` field of `response.json()` (which can throw); or a throw. */
  datatype Reply =
    | Answered(ok: bool, errorField: Result<Option<string>, Thrown>)
    | Threw(e: Thrown)

  /** The error map the answer leaves behind, or `None` when it is left alone. */
  function ReplyErrors(reply: Reply): (r: Option<map<ErrorKey, string>>)
    ensures r.Some? <==> !(reply.Answered? && reply.ok)
    ensures r.Some? ==> r.value.Keys == {ApiKey} && r.value[ApiKey] != ""
  {
    match reply
    case Answered(true, _) => None
    case Answered(false, Success(err)) => Some(map[ApiKey := OrElse(err, ApiFallback)])
    case Answered(false, Failure(e)) => Some(map[ApiKey := OrElse(e.Message(), UnexpectedError)])
    case Threw(e) => Some(map[ApiKey := OrElse(e.Message(), UnexpectedError)])
  }

  class SignUpForm {
    var isLoading: bool
    var formData: FormData
    var errors: map<ErrorKey, string>
    /** The request whose answer is still awaited. */
    var pending: Option<Request>
    /** Every request sent to `/api/sign-up`, in order. */
    var requests: seq<Request>
    /** The paths passed to `router.push`, in order. */
    var navigations: seq<string>

    /** Loading is on exactly while a request is in flight, and that request is
        the last one sent. */
    ghost predicate Valid()
      reads this
    {
      (isLoading <==> pending.Some?) &&
      (pending.Some? ==> |requests| > 0 && requests[|requests| - 1] == pending.value)
    }

    constructor ()
      ensures Valid() && !isLoading && formData == FormData("", "")
      ensures errors == map[] && requests == [] && navigations == []
    {
      isLoading, formData, errors := false, FormData("", ""), map[];
      pending, requests, navigations := None, [], [];
    }

    /** `handleChange`: the field takes the typed value and its error, if it
        holds a message, is dropped; every other field and error stays. */
    method HandleChange(f: Field, value: string)
      requires Valid()
      modifies this
      ensures Valid()
      ensures formData == old(formData).With(f, value)
      ensures errors == if FieldKey(f) in old(errors) && old(errors)[FieldKey(f)] != ""
                        then old(errors) - {FieldKey(f)} else old(errors)
      ensures isLoading == old(isLoading) && pending == old(pending)
      ensures requests == old(requests) && navigations == old(navigations)
    {
      formData := formData.With(f, value);
      if FieldKey(f) in errors && errors[FieldKey(f)] != "" {
        var newErrors := errors;
        newErrors := newErrors - {FieldKey(f)};
        errors := newErrors;
      }
    }

    /** `validateForm`: the error map is replaced by the checks' errors, and the
        form is valid when there are none. */
    method ValidateForm() returns (ok: bool)
      requires Valid()
      modifies this
      ensures Valid()
      ensures errors == FormErrors(formData)
      ensures ok <==> errors == map[]
      ensures formData == old(formData) && isLoading == old(isLoading) && pending == old(pending)
      ensures requests == old(requests) && navigations == old(navigations)
    {
      var newErrors := BuildErrors(formData);
      errors := newErrors;
      ok := newErrors == map[];
    }

    /** `handleSubmit` up to the `fetch`, which the disabled button blocks while
        loading: an invalid form shows its errors and sends nothing; a valid one
        starts loading and sends the two fields. */
    method HandleSubmit() returns (ok: bool)
      requires Valid() && !isLoading
      modifies this
      ensures Valid() && errors == FormErrors(formData) && (ok <==> errors == map[])
      ensures !ok ==> !isLoading && requests == old(requests)
      ensures ok ==> isLoading && requests == old(requests) + [Request(formData.name, formData.email)]
      ensures formData == old(formData) && navigations == old(navigations)
    {
      ok := ValidateForm();
      if !ok {
        return;
      }
      var request := Request(formData.name, formData.email);
      isLoading := true;
      pending := Some(request);
      requests := requests + [request];
    }

    /** The rest of `handleSubmit`, once the answer is in: a non-OK answer or a
        throw replaces every error by one "api" message, an OK answer opens the
        home page, and loading ends on every path. */
    method ResponseArrives(reply: Reply)
      requires Valid() && isLoading
      modifies this
      ensures Valid() && !isLoading && pending.None?
      ensures errors == (if ReplyErrors(reply).Some? then ReplyErrors(reply).value else old(errors))
      ensures navigations == old(navigations) + (if ReplyErrors(reply).None? then ["/"] else [])
      ensures formData == old(formData) && requests == old(requests)
    {
      match reply {
        case Answered(ok, errorField) =>
          if !ok {
            match errorField {
              case Success(err) => errors := map[ApiKey := OrElse(err, ApiFallback)];
              case Failure(e) => errors := map[ApiKey := OrElse(e.Message(), UnexpectedError)];
            }
          } else {
            navigations := navigations + ["/"];
          }
        case Threw(e) =>
          errors := map[ApiKey := OrElse(e.Message(), UnexpectedError)];
      }
      isLoading := false;
      pending := None;
    }
  }
}
