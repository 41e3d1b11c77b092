/**
 * The account registration form: name, email, phone, a password typed
 * twice and the privacy consent, posted as JSON to /api/auth/register
 * without the confirmation.
 */
module Register {
  import opened FormCore
  import opened Validators

  const Url := "/api/auth/register"

  /** The reply status of a registration whose email is already taken. */
  const Conflict := 409

  /** The keys of `formData`: `fullName`, `email`, `phone`, `password`, `confirmPassword`, `privacyAccepted`. */
  datatype Field = FullName | Email | Phone | Password | ConfirmPassword | PrivacyAccepted

  type Data = FormData<Field>
  type Errors = ErrorMap<Field>

  /** The string fields, in declared order. */
  const TextFields: seq<Field> := [FullName, Email, Phone, Password, ConfirmPassword]

  /** The keys of `formData`, in declared order. */
  const Fields: seq<Field> := [FullName, Email, Phone, Password, ConfirmPassword, PrivacyAccepted]

  const FullNameRequired := "Le nom complet est requis."
  const EmailRequired := "L'email est requis."
  const EmailFormat := "Format email invalide."
  const PhoneRequired := "Le téléphone est requis."
  const PasswordTooShort := "Le mot de passe doit contenir au moins 6 caractères."
  const PasswordMismatch := "Les mots de passe ne correspondent pas."
  const ConsentRequired := "Vous devez accepter la politique de confidentialité."
  const EmailTaken := "Cet email est déjà associé à un compte."

  /** `formData` has every declared key, a string in each text field and a boolean under `privacyAccepted`. */
  ghost predicate WellFormed(data: Data)
  {
    && (forall f :: f in Fields ==> f in data)
    && (forall f :: f in TextFields ==> data[f].Text?)
    && data[PrivacyAccepted].Flag?
  }

  /** The initial state of `formData`, restored after a successful registration. */
  function Defaults(): (d: Data)
    ensures WellFormed(d)
    ensures forall f :: f in TextFields ==> d[f] == Text("")
    ensures d[PrivacyAccepted] == Flag(false)
  {
    map[FullName := Text(""), Email := Text(""), Phone := Text(""),
        Password := Text(""), ConfirmPassword := Text(""), PrivacyAccepted := Flag(false)]
  }

  /** The rule `validate` applies to field `f`. */
  function FieldError(data: Data, f: Field): (r: Option<string>)
    ensures r.Some? ==> r.value != ""
  {
    match f
    case FullName => RequiredText(TextOf(data, f), FullNameRequired)
    case Email => EmailRule(TextOf(data, f), EmailRequired, EmailFormat)
    case Phone => RequiredText(TextOf(data, f), PhoneRequired)
    case Password => PasswordLengthRule(TextOf(data, f), PasswordTooShort)
    case ConfirmPassword => ConfirmationRule(TextOf(data, Password), TextOf(data, f), PasswordMismatch)
    case PrivacyAccepted => ConsentRule(FlagOf(data, f), ConsentRequired)
  }

  /** The rules of `validate`, as one function of the field. */
  function Rules(data: Data): Field -> Option<string>
  {
    f => FieldError(data, f)
  }

  lemma FieldDeclared(f: Field)
    ensures f in Fields
  {
  }

  /** Every field is one of the declared keys. */
  lemma EveryFieldDeclared()
    ensures forall f: Field :: f in Fields
  {
    forall f: Field
      ensures f in Fields
    {
      FieldDeclared(f);
    }
  }

  /**
   * The error map `validate` builds: an entry exactly for each field whose
   * rule fails, holding that rule's message, no `general` entry and no
   * empty message.
   */
  function ValidationErrors(data: Data): (errs: Errors)
    ensures General !in errs && MessagesNonEmpty(errs)
    ensures forall f :: On(f) in errs <==> FieldError(data, f).Some?
    ensures forall f :: On(f) in errs ==> errs[On(f)] == FieldError(data, f).value
  {
    EveryFieldDeclared();
    ErrorsFromMessages(Fields, Rules(data));
    ErrorsFrom(Fields, Rules(data))
  }

  // One lemma per field: what its rule checks.

  lemma FullNameRule(data: Data)
    ensures On(FullName) in ValidationErrors(data) <==> IsBlank(TextOf(data, FullName))
  {
  }

  lemma EmailFieldRule(data: Data)
    ensures var errs := ValidationErrors(data);
      && (On(Email) in errs <==> IsBlank(TextOf(data, Email)) || !EmailOk(TextOf(data, Email)))
      && (On(Email) in errs ==>
            errs[On(Email)] == if IsBlank(TextOf(data, Email)) then EmailRequired else EmailFormat)
  {
  }

  lemma PhoneRule(data: Data)
    ensures On(Phone) in ValidationErrors(data) <==> IsBlank(TextOf(data, Phone))
  {
  }

  lemma PasswordRule(data: Data)
    ensures On(Password) in ValidationErrors(data) <==> Utf16Length(TextOf(data, Password)) < MinPasswordLength
  {
  }

  lemma ConfirmRule(data: Data)
    ensures On(ConfirmPassword) in ValidationErrors(data) <==> TextOf(data, Password) != TextOf(data, ConfirmPassword)
  {
  }

  lemma ConsentFieldRule(data: Data)
    ensures var errs := ValidationErrors(data);
      && (On(PrivacyAccepted) in errs <==> !FlagOf(data, PrivacyAccepted))
      && (On(PrivacyAccepted) in errs ==> errs[On(PrivacyAccepted)] == ConsentRequired)
  {
  }

  /**
   * What a validation pass checks: name and phone must not be blank after
   * trimming, the email must match, the password must be at least six
   * UTF-16 code units long and equal its confirmation exactly, and the
   * consent box must be ticked.
   */
  lemma ValidationRules(data: Data)
    ensures var errs := ValidationErrors(data);
      && (On(FullName) in errs <==> IsBlank(TextOf(data, FullName)))
      && (On(Email) in errs <==> IsBlank(TextOf(data, Email)) || !EmailOk(TextOf(data, Email)))
      && (On(Email) in errs ==>
            errs[On(Email)] == if IsBlank(TextOf(data, Email)) then EmailRequired else EmailFormat)
      && (On(Phone) in errs <==> IsBlank(TextOf(data, Phone)))
      && (On(Password) in errs <==> Utf16Length(TextOf(data, Password)) < MinPasswordLength)
      && (On(ConfirmPassword) in errs <==> TextOf(data, Password) != TextOf(data, ConfirmPassword))
      && (On(PrivacyAccepted) in errs <==> !FlagOf(data, PrivacyAccepted))
      && (On(PrivacyAccepted) in errs ==> errs[On(PrivacyAccepted)] == ConsentRequired)
  {
    FullNameRule(data);
    EmailFieldRule(data);
    PhoneRule(data);
    PasswordRule(data);
    ConfirmRule(data);
    ConsentFieldRule(data);
  }

  /** The object posted: `formData` without `confirmPassword`, every other entry as it is. */
  function DataToSend(data: Data): (sent: Data)
    ensures ConfirmPassword !in sent
    ensures forall f :: f != ConfirmPassword ==> (f in sent <==> f in data)
    ensures forall f :: f in sent ==> sent[f] == data[f]
  {
    data - {ConfirmPassword}
  }

  /**
   * A registration that passes validation sends a password of at least six
   * UTF-16 code units that the user typed identically twice, with the box
   * ticked; the confirmation itself is not sent.
   */
  lemma SentPasswordConfirmed(data: Data)
    requires WellFormed(data)
    requires ValidationErrors(data) == map[]
    ensures var sent := DataToSend(data);
      && ConfirmPassword !in sent
      && sent[Password] == data[ConfirmPassword]
      && Utf16Length(sent[Password].text) >= MinPasswordLength
      && sent[PrivacyAccepted] == Flag(true)
  {
    PasswordRule(data);
    ConfirmRule(data);
    ConsentFieldRule(data);
  }

  class RegisterForm {
    var formData: Data
    var formErrors: Errors
    var isSubmitting: bool
    var submissionStatus: SubmissionStatus

    /** Between two events: the data has its declared shape, every message is non-empty, no submission is in flight. */
    ghost predicate Valid()
      reads this
    {
      WellFormed(formData) && MessagesNonEmpty(formErrors) && !isSubmitting
    }

    constructor ()
      ensures Valid()
      ensures formData == Defaults() && formErrors == map[]
      ensures !isSubmitting && submissionStatus == Unset
    {
      formData := Defaults();
      formErrors := map[];
      isSubmitting := false;
      submissionStatus := Unset;
    }

    /** `handleChange`: overwrite one text field and clear only that field's error. */
    method HandleChange(name: Field, value: string)
      requires Valid() && name != PrivacyAccepted
      modifies this`formData, this`formErrors
      ensures Valid()
      ensures formData == old(formData)[name := Text(value)]
      ensures formErrors == old(formErrors) - {On(name)}
    {
      formData := formData[name := Text(value)];
      if On(name) in formErrors && formErrors[On(name)] != "" {
        formErrors := formErrors - {On(name)};
      }
    }

    /** `handleCheckboxChange`: record the box's state and clear the consent error. */
    method HandleCheckboxChange(checked: bool)
      requires Valid()
      modifies this`formData, this`formErrors
      ensures Valid()
      ensures formData == old(formData)[PrivacyAccepted := Flag(checked)]
      ensures formErrors == old(formErrors) - {On(PrivacyAccepted)}
    {
      formData := formData[PrivacyAccepted := Flag(checked)];
      if On(PrivacyAccepted) in formErrors && formErrors[On(PrivacyAccepted)] != "" {
        formErrors := formErrors - {On(PrivacyAccepted)};
      }
    }

    /** `validate`: replace the error map by a fresh validation pass and report whether it is empty. */
    method Validate() returns (ok: bool)
      requires Valid()
      modifies this`formErrors
      ensures Valid()
      ensures formErrors == ValidationErrors(formData)
      ensures ok <==> formErrors == map[]
    {
      var errors := CollectErrors(Fields, Rules(formData));
      assert errors == ValidationErrors(formData);
      formErrors := errors;
      ok := |errors| == 0;
    }

    /**
     * `handleSubmit`, with the reply of the network call given as `outcome`.
     * Returns the request sent, None when validation stopped the submission.
     * A 409 error puts the "already registered" message under `email`; any
     * other error only marks the submission failed.
     */
    method HandleSubmit(outcome: Outcome) returns (sent: Option<Request<Field>>)
      requires Valid()
      modifies this
      ensures Valid()
      ensures ValidationErrors(old(formData)) != map[] ==>
        && sent == None && submissionStatus == Unset
        && formData == old(formData) && formErrors == ValidationErrors(old(formData))
      ensures ValidationErrors(old(formData)) == map[] ==>
        && sent == Some(Request(Url, Json(DataToSend(old(formData)))))
        && (outcome == Status(201) ==>
              submissionStatus == Success && formData == Defaults() && formErrors == map[])
        && (outcome.Status? && outcome.status != 201 ==>
              submissionStatus == Unset && formData == old(formData) && formErrors == map[])
        && (outcome == Thrown(Some(Conflict)) ==>
              submissionStatus == Error && formData == old(formData) && formErrors == map[On(Email) := EmailTaken])
        && (outcome.Thrown? && outcome != Thrown(Some(Conflict)) ==>
              submissionStatus == Error && formData == old(formData) && formErrors == map[])
    {
      submissionStatus := Unset;
      var ok := Validate();
      if !ok {
        sent := None;
        return;
      }
      isSubmitting := true;
      sent := Some(Request(Url, Json(DataToSend(formData))));
      match outcome {
        case Status(code) =>
          if code == 201 {
            submissionStatus := Success;
            formData := Defaults();
          }
        case Thrown(response) =>
          submissionStatus := Error;
          if response == Some(Conflict) {
            formErrors := formErrors[On(Email) := EmailTaken];
          }
      }
      isSubmitting := false;
    }
  }
}
