/**
 * The rental request form: contact details, profession, and the wanted
 * property's type, budget, location, duration, move-in date and
 * description, posted as JSON to /api/requests/rental-demand.
 */
module RentalDemand {
  import opened FormCore
  import opened Validators

  const Url := "/api/requests/rental-demand"

  /** The keys of `formData`, all of them strings. */
  datatype Field =
    | FullName | Email | Phone | Profession | PropertyType | MaxBudget
    | DesiredLocation | RentalDuration | MoveInDate | PropertyDescription

  type Data = FormData<Field>
  type Errors = ErrorMap<Field>

  /** The keys of `formData`, in declared order. */
  const Fields: seq<Field> :=
    [FullName, Email, Phone, Profession, PropertyType, MaxBudget,
     DesiredLocation, RentalDuration, MoveInDate, PropertyDescription]

  const FullNameRequired := "Le nom complet est requis."
  const EmailRequired := "L'email est requis."
  const EmailFormat := "Format email invalide."
  const PhoneRequired := "Le numéro de téléphone est requis."
  const ProfessionRequired := "La profession / secteur d'activité est requis."
  const TypeRequired := "Le type de bien est requis."
  const BudgetInvalid := "Un budget maximum valide est requis."
  const LocationRequired := "La localisation est requise."
  const DurationRequired := "La durée de location est requise."
  const MoveInRequired := "Une date d'emménagement est requise."
  const DescriptionRequired := "La description est requise."
  const SendFailed := "Une erreur est survenue lors de l'envoi. Veuillez réessayer."

  /** `formData` has every declared key, each holding a string. */
  ghost predicate WellFormed(data: Data)
  {
    forall f :: f in Fields ==> f in data && data[f].Text?
  }

  /** The initial state of `formData`, restored after a successful submission. */
  function Defaults(): (d: Data)
    ensures WellFormed(d)
    ensures forall f :: f in Fields ==> d[f] == Text("")
  {
    map[FullName := Text(""), Email := Text(""), Phone := Text(""), Profession := Text(""),
        PropertyType := Text(""), MaxBudget := Text(""), DesiredLocation := Text(""),
        RentalDuration := Text(""), MoveInDate := Text(""), PropertyDescription := Text("")]
  }

  /** The rule `validate` applies to field `f`. */
  function FieldError(data: Data, f: Field): (r: Option<string>)
    ensures r.Some? ==> r.value != ""
  {
    match f
    case FullName => RequiredText(TextOf(data, f), FullNameRequired)
    case Email => EmailRule(TextOf(data, f), EmailRequired, EmailFormat)
    case Phone => RequiredText(TextOf(data, f), PhoneRequired)
    case Profession => RequiredText(TextOf(data, f), ProfessionRequired)
    case PropertyType => RequiredValue(TextOf(data, f), TypeRequired)
    case MaxBudget => PositiveIntRule(TextOf(data, f), BudgetInvalid)
    case DesiredLocation => RequiredText(TextOf(data, f), LocationRequired)
    case RentalDuration => RequiredValue(TextOf(data, f), DurationRequired)
    case MoveInDate => RequiredValue(TextOf(data, f), MoveInRequired)
    case PropertyDescription => RequiredText(TextOf(data, f), DescriptionRequired)
  }

  /** The rules of `validate`, as one function of the field. */
  function Rules(data: Data): Field -> Option<string>
  {
    f => FieldError(data, f)
  }

  lemma FieldDeclared(f: Field)
    ensures f in Fields
  {
  }

  /** Every field is one of the declared keys. */
  lemma EveryFieldDeclared()
    ensures forall f: Field :: f in Fields
  {
    forall f: Field
      ensures f in Fields
    {
      FieldDeclared(f);
    }
  }

  /**
   * The error map `validate` builds: an entry exactly for each field whose
   * rule fails, holding that rule's message, no `general` entry and no
   * empty message.
   */
  function ValidationErrors(data: Data): (errs: Errors)
    ensures General !in errs && MessagesNonEmpty(errs)
    ensures forall f :: On(f) in errs <==> FieldError(data, f).Some?
    ensures forall f :: On(f) in errs ==> errs[On(f)] == FieldError(data, f).value
  {
    EveryFieldDeclared();
    ErrorsFromMessages(Fields, Rules(data));
    ErrorsFrom(Fields, Rules(data))
  }

  // One lemma per field: what its rule checks.

  lemma FullNameRule(data: Data)
    ensures On(FullName) in ValidationErrors(data) <==> IsBlank(TextOf(data, FullName))
  {
  }

  lemma EmailFieldRule(data: Data)
    ensures var errs := ValidationErrors(data);
      && (On(Email) in errs <==> IsBlank(TextOf(data, Email)) || !EmailOk(TextOf(data, Email)))
      && (On(Email) in errs ==>
            errs[On(Email)] == if IsBlank(TextOf(data, Email)) then EmailRequired else EmailFormat)
  {
  }

  lemma PhoneRule(data: Data)
    ensures On(Phone) in ValidationErrors(data) <==> IsBlank(TextOf(data, Phone))
  {
  }

  lemma ProfessionRule(data: Data)
    ensures On(Profession) in ValidationErrors(data) <==> IsBlank(TextOf(data, Profession))
  {
  }

  lemma TypeRule(data: Data)
    ensures On(PropertyType) in ValidationErrors(data) <==> TextOf(data, PropertyType) == ""
  {
  }

  lemma BudgetRule(data: Data)
    ensures On(MaxBudget) in ValidationErrors(data) <==> !PositiveInt(TextOf(data, MaxBudget))
  {
  }

  lemma LocationRule(data: Data)
    ensures On(DesiredLocation) in ValidationErrors(data) <==> IsBlank(TextOf(data, DesiredLocation))
  {
  }

  lemma DurationRule(data: Data)
    ensures On(RentalDuration) in ValidationErrors(data) <==> TextOf(data, RentalDuration) == ""
  {
  }

  lemma MoveInRule(data: Data)
    ensures On(MoveInDate) in ValidationErrors(data) <==> TextOf(data, MoveInDate) == ""
  {
  }

  lemma DescriptionRule(data: Data)
    ensures On(PropertyDescription) in ValidationErrors(data) <==> IsBlank(TextOf(data, PropertyDescription))
  {
  }

  /**
   * What a validation pass checks: the free-text fields must not be blank
   * after trimming, the selects and the date must be filled in (no trim),
   * the budget must read as a positive integer, and the email must match.
   */
  lemma ValidationRules(data: Data)
    ensures var errs := ValidationErrors(data);
      && (On(FullName) in errs <==> IsBlank(TextOf(data, FullName)))
      && (On(Email) in errs <==> IsBlank(TextOf(data, Email)) || !EmailOk(TextOf(data, Email)))
      && (On(Email) in errs ==>
            errs[On(Email)] == if IsBlank(TextOf(data, Email)) then EmailRequired else EmailFormat)
      && (On(Phone) in errs <==> IsBlank(TextOf(data, Phone)))
      && (On(Profession) in errs <==> IsBlank(TextOf(data, Profession)))
      && (On(PropertyType) in errs <==> TextOf(data, PropertyType) == "")
      && (On(MaxBudget) in errs <==> !PositiveInt(TextOf(data, MaxBudget)))
      && (On(DesiredLocation) in errs <==> IsBlank(TextOf(data, DesiredLocation)))
      && (On(RentalDuration) in errs <==> TextOf(data, RentalDuration) == "")
      && (On(MoveInDate) in errs <==> TextOf(data, MoveInDate) == "")
      && (On(PropertyDescription) in errs <==> IsBlank(TextOf(data, PropertyDescription)))
  {
    FullNameRule(data);
    EmailFieldRule(data);
    PhoneRule(data);
    ProfessionRule(data);
    TypeRule(data);
    BudgetRule(data);
    LocationRule(data);
    DurationRule(data);
    MoveInRule(data);
    DescriptionRule(data);
  }

  class RentalDemandForm {
    var formData: Data
    var formErrors: Errors
    var isSubmitting: bool
    var submissionStatus: SubmissionStatus

    /** Between two events: the data has its declared shape, every message is non-empty, no submission is in flight. */
    ghost predicate Valid()
      reads this
    {
      WellFormed(formData) && MessagesNonEmpty(formErrors) && !isSubmitting
    }

    constructor ()
      ensures Valid()
      ensures formData == Defaults() && formErrors == map[]
      ensures !isSubmitting && submissionStatus == Unset
    {
      formData := Defaults();
      formErrors := map[];
      isSubmitting := false;
      submissionStatus := Unset;
    }

    /** `handleChange`: overwrite one field and clear only that field's error. */
    method HandleChange(name: Field, value: string)
      requires Valid()
      modifies this`formData, this`formErrors
      ensures Valid()
      ensures formData == old(formData)[name := Text(value)]
      ensures formErrors == old(formErrors) - {On(name)}
    {
      formData := formData[name := Text(value)];
      if On(name) in formErrors && formErrors[On(name)] != "" {
        formErrors := formErrors - {On(name)};
      }
    }

    /** `validate`: replace the error map by a fresh validation pass and report whether it is empty. */
    method Validate() returns (ok: bool)
      requires Valid()
      modifies this`formErrors
      ensures Valid()
      ensures formErrors == ValidationErrors(formData)
      ensures ok <==> formErrors == map[]
    {
      var errors := CollectErrors(Fields, Rules(formData));
      assert errors == ValidationErrors(formData);
      formErrors := errors;
      ok := |errors| == 0;
    }

    /**
     * `handleSubmit`, with the reply of the network call given as `outcome`.
     * Returns the request sent, None when validation stopped the submission.
     */
    method HandleSubmit(outcome: Outcome) returns (sent: Option<Request<Field>>)
      requires Valid()
      modifies this
      ensures Valid()
      ensures ValidationErrors(old(formData)) != map[] ==>
        && sent == None && submissionStatus == Unset
        && formData == old(formData) && formErrors == ValidationErrors(old(formData))
      ensures ValidationErrors(old(formData)) == map[] ==>
        && sent == Some(Request(Url, Json(old(formData))))
        && (outcome == Status(201) ==>
              submissionStatus == Success && formData == Defaults() && formErrors == map[])
        && (outcome.Status? && outcome.status != 201 ==>
              submissionStatus == Unset && formData == old(formData) && formErrors == map[])
        && (outcome.Thrown? ==>
              submissionStatus == Error && formData == old(formData) && formErrors == map[General := SendFailed])
    {
      submissionStatus := Unset;
      var ok := Validate();
      if !ok {
        sent := None;
        return;
      }
      isSubmitting := true;
      sent := Some(Request(Url, Json(formData)));
      match outcome {
        case Status(code) =>
          if code == 201 {
            submissionStatus := Success;
            formData := Defaults();
          }
        case Thrown(_) =>
          submissionStatus := Error;
          formErrors := formErrors[General := SendFailed];
      }
      isSubmitting := false;
    }
  }
}
