/**
 * The login form: email and password posted as JSON to /api/auth/login.
 * A 200 reply stores the token under `authToken` in the browser's local
 * storage and hands the reply's user to the page's callback, when the page
 * gave one.
 */
module Login {
  import opened FormCore
  import opened Validators

  const Url := "/api/auth/login"

  /** The local storage key the token is kept under. */
  const TokenKey := "authToken"

  /** The reply status of a refused login. */
  const Unauthorized := 401

  /** The keys of `formData`: `email` and `password`. */
  datatype Field = Email | Password

  type Data = FormData<Field>
  type Errors = ErrorMap<Field>

  /** The keys of `formData`, in declared order. */
  const Fields: seq<Field> := [Email, Password]

  const EmailRequired := "L'email est requis."
  const EmailFormat := "Format email invalide."
  const PasswordRequired := "Le mot de passe est requis."
  const BadCredentials := "Email ou mot de passe incorrect."

  /** The `user` object of a successful reply; the form passes it on without looking inside. */
  datatype User = User(id: nat)

  /** The browser's `localStorage`: string keys to string values. */
  class Storage {
    var items: map<string, string>

    constructor ()
      ensures items == map[]
    {
      items := map[];
    }

    /** `setItem`: store `value` under `key`, replacing what was there. */
    method SetItem(key: string, value: string)
      modifies this
      ensures items == old(items)[key := value]
    {
      items := items[key := value];
    }
  }

  /** `formData` has both keys, each holding a string. */
  ghost predicate WellFormed(data: Data)
  {
    forall f :: f in Fields ==> f in data && data[f].Text?
  }

  /** The initial state of `formData`. */
  function Defaults(): (d: Data)
    ensures WellFormed(d)
    ensures forall f :: f in Fields ==> d[f] == Text("")
  {
    map[Email := Text(""), Password := Text("")]
  }

  /** The rule `validate` applies to field `f`; the password is only required to be non-empty, with no trim. */
  function FieldError(data: Data, f: Field): (r: Option<string>)
    ensures r.Some? ==> r.value != ""
  {
    match f
    case Email => EmailRule(TextOf(data, f), EmailRequired, EmailFormat)
    case Password => RequiredValue(TextOf(data, f), PasswordRequired)
  }

  /** The rules of `validate`, as one function of the field. */
  function Rules(data: Data): Field -> Option<string>
  {
    f => FieldError(data, f)
  }

  lemma FieldDeclared(f: Field)
    ensures f in Fields
  {
  }

  /** Every field is one of the declared keys. */
  lemma EveryFieldDeclared()
    ensures forall f: Field :: f in Fields
  {
    forall f: Field
      ensures f in Fields
    {
      FieldDeclared(f);
    }
  }

  /**
   * The error map `validate` builds: an entry exactly for each field whose
   * rule fails, holding that rule's message, no `general` entry and no
   * empty message.
   */
  function ValidationErrors(data: Data): (errs: Errors)
    ensures General !in errs && MessagesNonEmpty(errs)
    ensures forall f :: On(f) in errs <==> FieldError(data, f).Some?
    ensures forall f :: On(f) in errs ==> errs[On(f)] == FieldError(data, f).value
  {
    EveryFieldDeclared();
    ErrorsFromMessages(Fields, Rules(data));
    ErrorsFrom(Fields, Rules(data))
  }

  lemma EmailFieldRule(data: Data)
    ensures var errs := ValidationErrors(data);
      && (On(Email) in errs <==> IsBlank(TextOf(data, Email)) || !EmailOk(TextOf(data, Email)))
      && (On(Email) in errs ==>
            errs[On(Email)] == if IsBlank(TextOf(data, Email)) then EmailRequired else EmailFormat)
  {
  }

  lemma PasswordRule(data: Data)
    ensures var errs := ValidationErrors(data);
      && (On(Password) in errs <==> TextOf(data, Password) == "")
      && (On(Password) in errs ==> errs[On(Password)] == PasswordRequired)
  {
  }

  /**
   * What a validation pass checks: the email must match, and the password
   * must not be empty; a password of spaces passes.
   */
  lemma ValidationRules(data: Data)
    ensures var errs := ValidationErrors(data);
      && (On(Email) in errs <==> IsBlank(TextOf(data, Email)) || !EmailOk(TextOf(data, Email)))
      && (On(Email) in errs ==>
            errs[On(Email)] == if IsBlank(TextOf(data, Email)) then EmailRequired else EmailFormat)
      && (On(Password) in errs <==> TextOf(data, Password) == "")
      && (On(Password) in errs ==> errs[On(Password)] == PasswordRequired)
  {
    EmailFieldRule(data);
    PasswordRule(data);
  }

  class LoginForm {
    var formData: Data
    var formErrors: Errors
    var isSubmitting: bool
    var submissionStatus: SubmissionStatus

    /** The browser storage the token is written to. */
    const storage: Storage

    /** Whether the page passed an `onLoginSuccess` callback. */
    const hasCallback: bool

    /** Between two events: the data has its declared shape, every message is non-empty, no submission is in flight. */
    ghost predicate Valid()
      reads this
    {
      WellFormed(formData) && MessagesNonEmpty(formErrors) && !isSubmitting
    }

    constructor (storage: Storage, hasCallback: bool)
      ensures Valid()
      ensures formData == Defaults() && formErrors == map[]
      ensures !isSubmitting && submissionStatus == Unset
      ensures this.storage == storage && this.hasCallback == hasCallback
    {
      formData := Defaults();
      formErrors := map[];
      isSubmitting := false;
      submissionStatus := Unset;
      this.storage := storage;
      this.hasCallback := hasCallback;
    }

    /** `handleChange`: overwrite one field and clear only that field's error. */
    method HandleChange(name: Field, value: string)
      requires Valid()
      modifies this`formData, this`formErrors
      ensures Valid()
      ensures formData == old(formData)[name := Text(value)]
      ensures formErrors == old(formErrors) - {On(name)}
    {
      formData := formData[name := Text(value)];
      if On(name) in formErrors && formErrors[On(name)] != "" {
        formErrors := formErrors - {On(name)};
      }
    }

    /** `validate`: replace the error map by a fresh validation pass and report whether it is empty. */
    method Validate() returns (ok: bool)
      requires Valid()
      modifies this`formErrors
      ensures Valid()
      ensures formErrors == ValidationErrors(formData)
      ensures ok <==> formErrors == map[]
    {
      var errors := CollectErrors(Fields, Rules(formData));
      assert errors == ValidationErrors(formData);
      formErrors := errors;
      ok := |errors| == 0;
    }

    /**
     * `handleSubmit`, with the reply of the network call given as `outcome`
     * and, for a reply, its `token` and `user`. Returns the request sent
     * (None when validation stopped the submission) and the user handed to
     * the callback (None when it was not called). The form keeps what was
     * typed in every case.
     */
    method HandleSubmit(outcome: Outcome, token: string, user: User)
      returns (sent: Option<Request<Field>>, notified: Option<User>)
      requires Valid()
      modifies this, storage
      ensures Valid()
      ensures formData == old(formData)
      ensures ValidationErrors(old(formData)) != map[] ==>
        && sent == None && notified == None && submissionStatus == Unset
        && formErrors == ValidationErrors(old(formData))
        && storage.items == old(storage.items)
      ensures ValidationErrors(old(formData)) == map[] ==>
        && sent == Some(Request(Url, Json(old(formData))))
        && (outcome == Status(200) ==>
              && submissionStatus == Success && formErrors == map[]
              && storage.items == old(storage.items)[TokenKey := token]
              && notified == (if hasCallback then Some(user) else None))
        && (outcome != Status(200) ==> notified == None && storage.items == old(storage.items))
        && (outcome.Status? && outcome.status != 200 ==> submissionStatus == Unset && formErrors == map[])
        && (outcome == Thrown(Some(Unauthorized)) ==>
              submissionStatus == Error && formErrors == map[General := BadCredentials])
        && (outcome.Thrown? && outcome != Thrown(Some(Unauthorized)) ==>
              submissionStatus == Error && formErrors == map[])
    {
      submissionStatus := Unset;
      notified := None;
      var ok := Validate();
      if !ok {
        sent := None;
        return;
      }
      isSubmitting := true;
      sent := Some(Request(Url, Json(formData)));
      match outcome {
        case Status(code) =>
          if code == 200 {
            submissionStatus := Success;
            storage.SetItem(TokenKey, token);
            if hasCallback {
              notified := Some(user);
            }
          }
        case Thrown(response) =>
          submissionStatus := Error;
          if response == Some(Unauthorized) {
            formErrors := formErrors[General := BadCredentials];
          }
      }
      isSubmitting := false;
    }
  }
}
