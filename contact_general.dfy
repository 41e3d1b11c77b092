/**
 * The general contact form: name, email, phone, an optional subject, the
 * message and the privacy consent, posted as JSON to /api/contact.
 */
module ContactGeneral {
  import opened FormCore
  import opened Validators

  const Url := "/api/contact"

  /** The keys of `formData`: `fullName`, `email`, `phone`, `subject`, `message`, `privacyAccepted`. */
  datatype Field = FullName | Email | Phone | Subject | Message | PrivacyAccepted

  type Data = FormData<Field>
  type Errors = ErrorMap<Field>

  /** The string fields, in declared order. */
  const TextFields: seq<Field> := [FullName, Email, Phone, Subject, Message]

  /** The keys of `formData`, in declared order. */
  const Fields: seq<Field> := [FullName, Email, Phone, Subject, Message, PrivacyAccepted]

  const FullNameRequired := "Le nom complet est requis."
  const EmailRequired := "L'adresse email est requise."
  const EmailFormat := "Format email invalide."
  const PhoneRequired := "Le numéro de téléphone est requis."
  const MessageRequired := "Le message est requis."
  const ConsentRequired := "Vous devez accepter la politique de confidentialité."

  /** `formData` has every declared key, a string in each text field and a boolean under `privacyAccepted`. */
  ghost predicate WellFormed(data: Data)
  {
    && (forall f :: f in Fields ==> f in data)
    && (forall f :: f in TextFields ==> data[f].Text?)
    && data[PrivacyAccepted].Flag?
  }

  /** The initial state of `formData`, restored after a successful submission. */
  function Defaults(): (d: Data)
    ensures WellFormed(d)
    ensures forall f :: f in TextFields ==> d[f] == Text("")
    ensures d[PrivacyAccepted] == Flag(false)
  {
    map[FullName := Text(""), Email := Text(""), Phone := Text(""),
        Subject := Text(""), Message := Text(""), PrivacyAccepted := Flag(false)]
  }

  /** The rule `validate` applies to field `f`; `subject` has none. */
  function FieldError(data: Data, f: Field): (r: Option<string>)
    ensures r.Some? ==> r.value != ""
  {
    match f
    case FullName => RequiredText(TextOf(data, f), FullNameRequired)
    case Email => EmailRule(TextOf(data, f), EmailRequired, EmailFormat)
    case Phone => RequiredText(TextOf(data, f), PhoneRequired)
    case Subject => None
    case Message => RequiredText(TextOf(data, f), MessageRequired)
    case PrivacyAccepted => ConsentRule(FlagOf(data, f), ConsentRequired)
  }

  /** The rules of `validate`, as one function of the field. */
  function Rules(data: Data): Field -> Option<string>
  {
    f => FieldError(data, f)
  }

  lemma FieldDeclared(f: Field)
    ensures f in Fields
  {
  }

  /** Every field is one of the declared keys. */
  lemma EveryFieldDeclared()
    ensures forall f: Field :: f in Fields
  {
    forall f: Field
      ensures f in Fields
    {
      FieldDeclared(f);
    }
  }

  /**
   * The error map `validate` builds: an entry exactly for each field whose
   * rule fails, holding that rule's message, no `general` entry and no
   * empty message.
   */
  function ValidationErrors(data: Data): (errs: Errors)
    ensures General !in errs && MessagesNonEmpty(errs)
    ensures forall f :: On(f) in errs <==> FieldError(data, f).Some?
    ensures forall f :: On(f) in errs ==> errs[On(f)] == FieldError(data, f).value
  {
    EveryFieldDeclared();
    ErrorsFromMessages(Fields, Rules(data));
    ErrorsFrom(Fields, Rules(data))
  }

  // One lemma per field: what its rule checks.

  lemma FullNameRule(data: Data)
    ensures On(FullName) in ValidationErrors(data) <==> IsBlank(TextOf(data, FullName))
  {
  }

  lemma EmailFieldRule(data: Data)
    ensures var errs := ValidationErrors(data);
      && (On(Email) in errs <==> IsBlank(TextOf(data, Email)) || !EmailOk(TextOf(data, Email)))
      && (On(Email) in errs ==>
            errs[On(Email)] == if IsBlank(TextOf(data, Email)) then EmailRequired else EmailFormat)
  {
  }

  lemma PhoneRule(data: Data)
    ensures On(Phone) in ValidationErrors(data) <==> IsBlank(TextOf(data, Phone))
  {
  }

  lemma SubjectRule(data: Data)
    ensures On(Subject) !in ValidationErrors(data)
  {
  }

  lemma MessageRule(data: Data)
    ensures On(Message) in ValidationErrors(data) <==> IsBlank(TextOf(data, Message))
  {
  }

  lemma ConsentFieldRule(data: Data)
    ensures var errs := ValidationErrors(data);
      && (On(PrivacyAccepted) in errs <==> !FlagOf(data, PrivacyAccepted))
      && (On(PrivacyAccepted) in errs ==> errs[On(PrivacyAccepted)] == ConsentRequired)
  {
  }

  /**
   * What a validation pass checks: name, phone and message must not be
   * blank after trimming, the email must match, the consent box must be
   * ticked, and the subject is never checked.
   */
  lemma ValidationRules(data: Data)
    ensures var errs := ValidationErrors(data);
      && (On(FullName) in errs <==> IsBlank(TextOf(data, FullName)))
      && (On(Email) in errs <==> IsBlank(TextOf(data, Email)) || !EmailOk(TextOf(data, Email)))
      && (On(Email) in errs ==>
            errs[On(Email)] == if IsBlank(TextOf(data, Email)) then EmailRequired else EmailFormat)
      && (On(Phone) in errs <==> IsBlank(TextOf(data, Phone)))
      && On(Subject) !in errs
      && (On(Message) in errs <==> IsBlank(TextOf(data, Message)))
      && (On(PrivacyAccepted) in errs <==> !FlagOf(data, PrivacyAccepted))
      && (On(PrivacyAccepted) in errs ==> errs[On(PrivacyAccepted)] == ConsentRequired)
  {
    FullNameRule(data);
    EmailFieldRule(data);
    PhoneRule(data);
    SubjectRule(data);
    MessageRule(data);
    ConsentFieldRule(data);
  }

  /** Whatever the subject holds, it never decides whether the form is sent. */
  lemma SubjectIgnored(data: Data, subject: string)
    ensures ValidationErrors(data[Subject := Text(subject)]) == ValidationErrors(data)
  {
    var other := data[Subject := Text(subject)];
    forall i | 0 <= i < |Fields|
      ensures Rules(other)(Fields[i]) == Rules(data)(Fields[i])
    {
      var f := Fields[i];
      if f != Subject {
        assert TextOf(other, f) == TextOf(data, f) && FlagOf(other, f) == FlagOf(data, f);
      }
    }
    ErrorsFromAgree(Fields, Rules(other), Rules(data));
  }

  class ContactGeneralForm {
    var formData: Data
    var formErrors: Errors
    var isSubmitting: bool
    var submissionStatus: SubmissionStatus

    /** Between two events: the data has its declared shape, every message is non-empty, no submission is in flight. */
    ghost predicate Valid()
      reads this
    {
      WellFormed(formData) && MessagesNonEmpty(formErrors) && !isSubmitting
    }

    constructor ()
      ensures Valid()
      ensures formData == Defaults() && formErrors == map[]
      ensures !isSubmitting && submissionStatus == Unset
    {
      formData := Defaults();
      formErrors := map[];
      isSubmitting := false;
      submissionStatus := Unset;
    }

    /** `handleChange`: overwrite one text field and clear only that field's error. */
    method HandleChange(name: Field, value: string)
      requires Valid() && name != PrivacyAccepted
      modifies this`formData, this`formErrors
      ensures Valid()
      ensures formData == old(formData)[name := Text(value)]
      ensures formErrors == old(formErrors) - {On(name)}
    {
      formData := formData[name := Text(value)];
      if On(name) in formErrors && formErrors[On(name)] != "" {
        formErrors := formErrors - {On(name)};
      }
    }

    /** `handleCheckboxChange`: record the box's state and clear the consent error. */
    method HandleCheckboxChange(checked: bool)
      requires Valid()
      modifies this`formData, this`formErrors
      ensures Valid()
      ensures formData == old(formData)[PrivacyAccepted := Flag(checked)]
      ensures formErrors == old(formErrors) - {On(PrivacyAccepted)}
    {
      formData := formData[PrivacyAccepted := Flag(checked)];
      if On(PrivacyAccepted) in formErrors && formErrors[On(PrivacyAccepted)] != "" {
        formErrors := formErrors - {On(PrivacyAccepted)};
      }
    }

    /** `validate`: replace the error map by a fresh validation pass and report whether it is empty. */
    method Validate() returns (ok: bool)
      requires Valid()
      modifies this`formErrors
      ensures Valid()
      ensures formErrors == ValidationErrors(formData)
      ensures ok <==> formErrors == map[]
    {
      var errors := CollectErrors(Fields, Rules(formData));
      assert errors == ValidationErrors(formData);
      formErrors := errors;
      ok := |errors| == 0;
    }

    /**
     * `handleSubmit`, with the reply of the network call given as `outcome`.
     * Returns the request sent, None when validation stopped the submission.
     * A 200 or 201 reply resets the form; any other reply, and any thrown
     * error, marks the submission failed and records no message.
     */
    method HandleSubmit(outcome: Outcome) returns (sent: Option<Request<Field>>)
      requires Valid()
      modifies this
      ensures Valid()
      ensures ValidationErrors(old(formData)) != map[] ==>
        && sent == None && submissionStatus == Unset
        && formData == old(formData) && formErrors == ValidationErrors(old(formData))
      ensures ValidationErrors(old(formData)) == map[] ==>
        && sent == Some(Request(Url, Json(old(formData))))
        && formErrors == map[]
        && (outcome == Status(200) || outcome == Status(201) ==>
              submissionStatus == Success && formData == Defaults())
        && (!(outcome == Status(200) || outcome == Status(201)) ==>
              submissionStatus == Error && formData == old(formData))
    {
      submissionStatus := Unset;
      var ok := Validate();
      if !ok {
        sent := None;
        return;
      }
      isSubmitting := true;
      sent := Some(Request(Url, Json(formData)));
      match outcome {
        case Status(code) =>
          if code == 200 || code == 201 {
            submissionStatus := Success;
            formData := Defaults();
          } else {
            submissionStatus := Error;
          }
        case Thrown(_) =>
          submissionStatus := Error;
      }
      isSubmitting := false;
    }
  }
}
