/**
 * The appointment request form: contact details, a reason, the wished-for
 * date and time, and free notes, posted as JSON to /api/requests/appointment.
 */
module Appointment {
  import opened FormCore
  import opened Validators

  const Url := "/api/requests/appointment"

  /** The keys of `formData`, all of them strings. */
  datatype Field = FullName | Email | Phone | AppointmentReason | DesiredDate | DesiredTime | Notes

  type Data = FormData<Field>
  type Errors = ErrorMap<Field>

  /** The keys of `formData`, in declared order. */
  const Fields: seq<Field> := [FullName, Email, Phone, AppointmentReason, DesiredDate, DesiredTime, Notes]

  const FullNameRequired := "Le nom complet est requis."
  const EmailRequired := "L'email est requis."
  const EmailFormat := "Format email invalide."
  const PhoneRequired := "Le numéro de téléphone est requis."
  const ReasonRequired := "Le motif est requis."
  const DateRequired := "Une date souhaitée est requise."
  const TimeRequired := "Une heure souhaitée est requise."
  const SendFailed := "Une erreur est survenue lors de l'envoi. Veuillez vérifier vos informations."

  /** `formData` has every declared key, each holding a string. */
  ghost predicate WellFormed(data: Data)
  {
    forall f :: f in Fields ==> f in data && data[f].Text?
  }

  /** The initial state of `formData`, restored after a successful submission. */
  function Defaults(): (d: Data)
    ensures WellFormed(d)
    ensures forall f :: f in Fields ==> d[f] == Text("")
  {
    map[FullName := Text(""), Email := Text(""), Phone := Text(""), AppointmentReason := Text(""),
        DesiredDate := Text(""), DesiredTime := Text(""), Notes := Text("")]
  }

  /** The rule `validate` applies to field `f`; `notes` has none. */
  function FieldError(data: Data, f: Field): (r: Option<string>)
    ensures r.Some? ==> r.value != ""
  {
    match f
    case FullName => RequiredText(TextOf(data, f), FullNameRequired)
    case Email => EmailRule(TextOf(data, f), EmailRequired, EmailFormat)
    case Phone => RequiredText(TextOf(data, f), PhoneRequired)
    case AppointmentReason => RequiredValue(TextOf(data, f), ReasonRequired)
    case DesiredDate => RequiredValue(TextOf(data, f), DateRequired)
    case DesiredTime => RequiredValue(TextOf(data, f), TimeRequired)
    case Notes => None
  }

  /** The rules of `validate`, as one function of the field. */
  function Rules(data: Data): Field -> Option<string>
  {
    f => FieldError(data, f)
  }

  lemma FieldDeclared(f: Field)
    ensures f in Fields
  {
  }

  /** Every field is one of the declared keys. */
  lemma EveryFieldDeclared()
    ensures forall f: Field :: f in Fields
  {
    forall f: Field
      ensures f in Fields
    {
      FieldDeclared(f);
    }
  }

  /**
   * The error map `validate` builds: an entry exactly for each field whose
   * rule fails, holding that rule's message, no `general` entry and no
   * empty message.
   */
  function ValidationErrors(data: Data): (errs: Errors)
    ensures General !in errs && MessagesNonEmpty(errs)
    ensures forall f :: On(f) in errs <==> FieldError(data, f).Some?
    ensures forall f :: On(f) in errs ==> errs[On(f)] == FieldError(data, f).value
  {
    EveryFieldDeclared();
    ErrorsFromMessages(Fields, Rules(data));
    ErrorsFrom(Fields, Rules(data))
  }

  // One lemma per field: what its rule checks.

  lemma FullNameRule(data: Data)
    ensures On(FullName) in ValidationErrors(data) <==> IsBlank(TextOf(data, FullName))
  {
  }

  lemma EmailFieldRule(data: Data)
    ensures var errs := ValidationErrors(data);
      && (On(Email) in errs <==> IsBlank(TextOf(data, Email)) || !EmailOk(TextOf(data, Email)))
      && (On(Email) in errs ==>
            errs[On(Email)] == if IsBlank(TextOf(data, Email)) then EmailRequired else EmailFormat)
  {
  }

  lemma PhoneRule(data: Data)
    ensures On(Phone) in ValidationErrors(data) <==> IsBlank(TextOf(data, Phone))
  {
  }

  lemma ReasonRule(data: Data)
    ensures On(AppointmentReason) in ValidationErrors(data) <==> TextOf(data, AppointmentReason) == ""
  {
  }

  lemma DateRule(data: Data)
    ensures On(DesiredDate) in ValidationErrors(data) <==> TextOf(data, DesiredDate) == ""
  {
  }

  lemma TimeRule(data: Data)
    ensures On(DesiredTime) in ValidationErrors(data) <==> TextOf(data, DesiredTime) == ""
  {
  }

  lemma NotesRule(data: Data)
    ensures On(Notes) !in ValidationErrors(data)
  {
  }

  /**
   * What a validation pass checks: name and phone must not be blank after
   * trimming, the email must match, reason, date and time must be filled in
   * (no trim), and the notes are never checked.
   */
  lemma ValidationRules(data: Data)
    ensures var errs := ValidationErrors(data);
      && (On(FullName) in errs <==> IsBlank(TextOf(data, FullName)))
      && (On(Email) in errs <==> IsBlank(TextOf(data, Email)) || !EmailOk(TextOf(data, Email)))
      && (On(Email) in errs ==>
            errs[On(Email)] == if IsBlank(TextOf(data, Email)) then EmailRequired else EmailFormat)
      && (On(Phone) in errs <==> IsBlank(TextOf(data, Phone)))
      && (On(AppointmentReason) in errs <==> TextOf(data, AppointmentReason) == "")
      && (On(DesiredDate) in errs <==> TextOf(data, DesiredDate) == "")
      && (On(DesiredTime) in errs <==> TextOf(data, DesiredTime) == "")
      && On(Notes) !in errs
  {
    FullNameRule(data);
    EmailFieldRule(data);
    PhoneRule(data);
    ReasonRule(data);
    DateRule(data);
    TimeRule(data);
    NotesRule(data);
  }

  /** Whatever the notes hold, they never decide whether the form is sent. */
  lemma NotesIgnored(data: Data, notes: string)
    ensures ValidationErrors(data[Notes := Text(notes)]) == ValidationErrors(data)
  {
    var other := data[Notes := Text(notes)];
    forall i | 0 <= i < |Fields|
      ensures Rules(other)(Fields[i]) == Rules(data)(Fields[i])
    {
      var f := Fields[i];
      if f != Notes {
        assert TextOf(other, f) == TextOf(data, f);
      }
    }
    ErrorsFromAgree(Fields, Rules(other), Rules(data));
  }

  class AppointmentForm {
    var formData: Data
    var formErrors: Errors
    var isSubmitting: bool
    var submissionStatus: SubmissionStatus

    /** Between two events: the data has its declared shape, every message is non-empty, no submission is in flight. */
    ghost predicate Valid()
      reads this
    {
      WellFormed(formData) && MessagesNonEmpty(formErrors) && !isSubmitting
    }

    constructor ()
      ensures Valid()
      ensures formData == Defaults() && formErrors == map[]
      ensures !isSubmitting && submissionStatus == Unset
    {
      formData := Defaults();
      formErrors := map[];
      isSubmitting := false;
      submissionStatus := Unset;
    }

    /** `handleChange`: overwrite one field and clear only that field's error. */
    method HandleChange(name: Field, value: string)
      requires Valid()
      modifies this`formData, this`formErrors
      ensures Valid()
      ensures formData == old(formData)[name := Text(value)]
      ensures formErrors == old(formErrors) - {On(name)}
    {
      formData := formData[name := Text(value)];
      if On(name) in formErrors && formErrors[On(name)] != "" {
        formErrors := formErrors - {On(name)};
      }
    }

    /** `validate`: replace the error map by a fresh validation pass and report whether it is empty. */
    method Validate() returns (ok: bool)
      requires Valid()
      modifies this`formErrors
      ensures Valid()
      ensures formErrors == ValidationErrors(formData)
      ensures ok <==> formErrors == map[]
    {
      var errors := CollectErrors(Fields, Rules(formData));
      assert errors == ValidationErrors(formData);
      formErrors := errors;
      ok := |errors| == 0;
    }

    /**
     * `handleSubmit`, with the reply of the network call given as `outcome`.
     * Returns the request sent, None when validation stopped the submission.
     */
    method HandleSubmit(outcome: Outcome) returns (sent: Option<Request<Field>>)
      requires Valid()
      modifies this
      ensures Valid()
      ensures ValidationErrors(old(formData)) != map[] ==>
        && sent == None && submissionStatus == Unset
        && formData == old(formData) && formErrors == ValidationErrors(old(formData))
      ensures ValidationErrors(old(formData)) == map[] ==>
        && sent == Some(Request(Url, Json(old(formData))))
        && (outcome == Status(201) ==>
              submissionStatus == Success && formData == Defaults() && formErrors == map[])
        && (outcome.Status? && outcome.status != 201 ==>
              submissionStatus == Unset && formData == old(formData) && formErrors == map[])
        && (outcome.Thrown? ==>
              submissionStatus == Error && formData == old(formData) && formErrors == map[General := SendFailed])
    {
      submissionStatus := Unset;
      var ok := Validate();
      if !ok {
        sent := None;
        return;
      }
      isSubmitting := true;
      sent := Some(Request(Url, Json(formData)));
      match outcome {
        case Status(code) =>
          if code == 201 {
            submissionStatus := Success;
            formData := Defaults();
          }
        case Thrown(_) =>
          submissionStatus := Error;
          formErrors := formErrors[General := SendFailed];
      }
      isSubmitting := false;
    }
  }
}
