/**
 * The property-estimation request form: contact details, the property's
 * characteristics and at least one photo, sent as a multipart body to
 * /api/requests/property-estimation.
 */
module PropertyEstimation {
  import opened FormCore
  import opened Validators

  const Url := "/api/requests/property-estimation"

  /** The keys of `formData`: `fullName`, `email`, ..., `photos`. */
  datatype Field =
    FullName | Email | Phone | PropertyAddress | PropertyType | Area | Rooms | PropertyState | Description | Photos

  type Data = FormData<Field>
  type Errors = ErrorMap<Field>

  /** Every field but the photo list, in declared order. */
  const TextFields: seq<Field> :=
    [FullName, Email, Phone, PropertyAddress, PropertyType, Area, Rooms, PropertyState, Description]

  /** The keys of `formData`, in declared order: the text fields, then `photos`. */
  const Fields: seq<Field> :=
    [FullName, Email, Phone, PropertyAddress, PropertyType, Area, Rooms, PropertyState, Description, Photos]

  const FullNameRequired := "Le nom complet est requis."
  const EmailRequired := "L'email est requis."
  const EmailFormat := "Format email invalide."
  const PhoneRequired := "Le numéro de téléphone est requis."
  const AddressRequired := "L'adresse du bien est requise."
  const TypeRequired := "Le type de bien est requis."
  const AreaInvalid := "Une superficie valide (m²) est requise."
  const RoomsInvalid := "Un nombre de pièces valide est requis."
  const StateRequired := "L'état du bien est requis."
  const DescriptionRequired := "Une description est requise."
  const PhotosRequired := "Veuillez téléverser au moins une photo du bien."
  const SendFailed := "Une erreur est survenue lors de l'envoi. Veuillez réessayer."

  /** `formData` has every declared key, a string in each text field and a list under `photos`. */
  ghost predicate WellFormed(data: Data)
  {
    && (forall f :: f in Fields ==> f in data)
    && (forall f :: f in TextFields ==> data[f].Text?)
    && data[Photos].Files?
  }

  /** The initial state of `formData`, restored after a successful submission. */
  function Defaults(): (d: Data)
    ensures WellFormed(d)
    ensures forall f :: f in TextFields ==> d[f] == Text("")
    ensures d[Photos] == Files([])
  {
    map[FullName := Text(""), Email := Text(""), Phone := Text(""),
        PropertyAddress := Text(""), PropertyType := Text(""), Area := Text(""),
        Rooms := Text(""), PropertyState := Text(""), Description := Text(""),
        Photos := Files([])]
  }

  /** The rule `validate` applies to field `f`. */
  function FieldError(data: Data, f: Field): (r: Option<string>)
    ensures r.Some? ==> r.value != ""
  {
    match f
    case FullName => RequiredText(TextOf(data, f), FullNameRequired)
    case Email => EmailRule(TextOf(data, f), EmailRequired, EmailFormat)
    case Phone => RequiredText(TextOf(data, f), PhoneRequired)
    case PropertyAddress => RequiredText(TextOf(data, f), AddressRequired)
    case PropertyType => RequiredValue(TextOf(data, f), TypeRequired)
    case Area => PositiveIntRule(TextOf(data, f), AreaInvalid)
    case Rooms => PositiveIntRule(TextOf(data, f), RoomsInvalid)
    case PropertyState => RequiredValue(TextOf(data, f), StateRequired)
    case Description => RequiredText(TextOf(data, f), DescriptionRequired)
    case Photos => if |FilesOf(data, f)| == 0 then Some(PhotosRequired) else None
  }

  /** The rules of `validate`, as one function of the field. */
  function Rules(data: Data): Field -> Option<string>
  {
    f => FieldError(data, f)
  }

  lemma FieldDeclared(f: Field)
    ensures f in Fields
  {
  }

  /** Every field is one of the declared keys. */
  lemma EveryFieldDeclared()
    ensures forall f: Field :: f in Fields
  {
    forall f: Field
      ensures f in Fields
    {
      FieldDeclared(f);
    }
  }

  /**
   * The error map `validate` builds: an entry exactly for each field whose
   * rule fails, holding that rule's message, no `general` entry and no
   * empty message.
   */
  function ValidationErrors(data: Data): (errs: Errors)
    ensures General !in errs && MessagesNonEmpty(errs)
    ensures forall f :: On(f) in errs <==> FieldError(data, f).Some?
    ensures forall f :: On(f) in errs ==> errs[On(f)] == FieldError(data, f).value
  {
    EveryFieldDeclared();
    ErrorsFromMessages(Fields, Rules(data));
    ErrorsFrom(Fields, Rules(data))
  }

  // One lemma per field: what its rule checks.

  lemma FullNameRule(data: Data)
    ensures On(FullName) in ValidationErrors(data) <==> IsBlank(TextOf(data, FullName))
  {
  }

  lemma EmailFieldRule(data: Data)
    ensures var errs := ValidationErrors(data);
      && (On(Email) in errs <==> IsBlank(TextOf(data, Email)) || !EmailOk(TextOf(data, Email)))
      && (On(Email) in errs ==>
            errs[On(Email)] == if IsBlank(TextOf(data, Email)) then EmailRequired else EmailFormat)
  {
  }

  lemma PhoneRule(data: Data)
    ensures On(Phone) in ValidationErrors(data) <==> IsBlank(TextOf(data, Phone))
  {
  }

  lemma AddressRule(data: Data)
    ensures On(PropertyAddress) in ValidationErrors(data) <==> IsBlank(TextOf(data, PropertyAddress))
  {
  }

  lemma TypeRule(data: Data)
    ensures On(PropertyType) in ValidationErrors(data) <==> TextOf(data, PropertyType) == ""
  {
  }

  lemma AreaRule(data: Data)
    ensures On(Area) in ValidationErrors(data) <==> !PositiveInt(TextOf(data, Area))
  {
  }

  lemma RoomsRule(data: Data)
    ensures On(Rooms) in ValidationErrors(data) <==> !PositiveInt(TextOf(data, Rooms))
  {
  }

  lemma StateRule(data: Data)
    ensures On(PropertyState) in ValidationErrors(data) <==> TextOf(data, PropertyState) == ""
  {
  }

  lemma DescriptionRule(data: Data)
    ensures On(Description) in ValidationErrors(data) <==> IsBlank(TextOf(data, Description))
  {
  }

  lemma PhotosRule(data: Data)
    ensures var errs := ValidationErrors(data);
      && (On(Photos) in errs <==> |FilesOf(data, Photos)| == 0)
      && (On(Photos) in errs ==> errs[On(Photos)] == PhotosRequired)
  {
  }

  /**
   * What a validation pass checks, field by field: the text inputs must not
   * be blank after trimming, the selects must be chosen, area and rooms must
   * read as positive integers, the email must match, and at least one photo
   * must be selected. A blank email gets the "required" message, a
   * non-matching one the "format" message.
   */
  lemma ValidationRules(data: Data)
    ensures var errs := ValidationErrors(data);
      && (On(FullName) in errs <==> IsBlank(TextOf(data, FullName)))
      && (On(Email) in errs <==> IsBlank(TextOf(data, Email)) || !EmailOk(TextOf(data, Email)))
      && (On(Email) in errs ==>
            errs[On(Email)] == if IsBlank(TextOf(data, Email)) then EmailRequired else EmailFormat)
      && (On(Phone) in errs <==> IsBlank(TextOf(data, Phone)))
      && (On(PropertyAddress) in errs <==> IsBlank(TextOf(data, PropertyAddress)))
      && (On(PropertyType) in errs <==> TextOf(data, PropertyType) == "")
      && (On(Area) in errs <==> !PositiveInt(TextOf(data, Area)))
      && (On(Rooms) in errs <==> !PositiveInt(TextOf(data, Rooms)))
      && (On(PropertyState) in errs <==> TextOf(data, PropertyState) == "")
      && (On(Description) in errs <==> IsBlank(TextOf(data, Description)))
      && (On(Photos) in errs <==> |FilesOf(data, Photos)| == 0)
      && (On(Photos) in errs ==> errs[On(Photos)] == PhotosRequired)
  {
    FullNameRule(data);
    EmailFieldRule(data);
    PhoneRule(data);
    AddressRule(data);
    TypeRule(data);
    AreaRule(data);
    RoomsRule(data);
    StateRule(data);
    DescriptionRule(data);
    PhotosRule(data);
  }

  /** The multipart body: every text field in declared order, then one `photos` part per file in list order. */
  function MultipartParts(data: Data): seq<Part<Field>>
  {
    TextParts(data, TextFields) + FileParts(Photos, FilesOf(data, Photos))
  }

  /** The key loop of `handleSubmit`, skipping `photos` and `description`, yields the text fields before `description`. */
  lemma KeyLoopOrder()
    ensures Without(Fields, {Photos, Description}) == TextFields[..8]
    ensures TextFields[..8] + [Description] == TextFields
  {
    var skip := {Photos, Description};
    assert Fields[..|Fields| - 1] == TextFields;
    assert TextFields[..|TextFields| - 1] == TextFields[..8];
    WithoutNothingSkipped(TextFields[..8], skip);
  }

  class PropertyEstimationForm {
    var formData: Data
    var formErrors: Errors
    var isSubmitting: bool
    var submissionStatus: SubmissionStatus

    /** Between two events: the data has its declared shape, every message is non-empty, no submission is in flight. */
    ghost predicate Valid()
      reads this
    {
      WellFormed(formData) && MessagesNonEmpty(formErrors) && !isSubmitting
    }

    constructor ()
      ensures Valid()
      ensures formData == Defaults() && formErrors == map[]
      ensures !isSubmitting && submissionStatus == Unset
    {
      formData := Defaults();
      formErrors := map[];
      isSubmitting := false;
      submissionStatus := Unset;
    }

    /** `handleChange`: overwrite one text field and clear only that field's error. */
    method HandleChange(name: Field, value: string)
      requires Valid() && name != Photos
      modifies this`formData, this`formErrors
      ensures Valid()
      ensures formData == old(formData)[name := Text(value)]
      ensures formErrors == old(formErrors) - {On(name)}
    {
      formData := formData[name := Text(value)];
      if On(name) in formErrors && formErrors[On(name)] != "" {
        formErrors := formErrors - {On(name)};
      }
    }

    /** `handleFileChange`: take the whole selection, whatever its size, and clear the `photos` error. */
    method HandleFileChange(selected: seq<FileRef>)
      requires Valid()
      modifies this`formData, this`formErrors
      ensures Valid()
      ensures formData == old(formData)[Photos := Files(selected)]
      ensures formErrors == old(formErrors) - {On(Photos)}
    {
      formData := formData[Photos := Files(selected)];
      if On(Photos) in formErrors && formErrors[On(Photos)] != "" {
        formErrors := formErrors - {On(Photos)};
      }
    }

    /** `validate`: replace the error map by a fresh validation pass and report whether it is empty. */
    method Validate() returns (ok: bool)
      requires Valid()
      modifies this`formErrors
      ensures Valid()
      ensures formErrors == ValidationErrors(formData)
      ensures ok <==> formErrors == map[]
    {
      var errors := CollectErrors(Fields, Rules(formData));
      assert errors == ValidationErrors(formData);
      formErrors := errors;
      ok := |errors| == 0;
    }

    /** The `FormData` loops of `handleSubmit`: text fields but `description`, then `description`, then the photos. */
    method BuildSubmissionData() returns (parts: seq<Part<Field>>)
      ensures parts == MultipartParts(formData)
    {
      parts := AppendTextParts(formData, Fields, {Photos, Description});
      KeyLoopOrder();
      TextPartsSnoc(formData, TextFields[..8], Description);
      parts := parts + [TextPart(formData, Description)];
      parts := AppendFileParts(parts, Photos, FilesOf(formData, Photos));
    }

    /**
     * `handleSubmit`, with the reply of the network call given as `outcome`.
     * Returns the request sent, None when validation stopped the submission.
     */
    method HandleSubmit(outcome: Outcome) returns (sent: Option<Request<Field>>)
      requires Valid()
      modifies this
      ensures Valid()
      ensures ValidationErrors(old(formData)) != map[] ==>
        && sent == None && submissionStatus == Unset
        && formData == old(formData) && formErrors == ValidationErrors(old(formData))
      ensures ValidationErrors(old(formData)) == map[] ==>
        && sent == Some(Request(Url, Multipart(MultipartParts(old(formData)))))
        && (outcome == Status(201) ==>
              submissionStatus == Success && formData == Defaults() && formErrors == map[])
        && (outcome.Status? && outcome.status != 201 ==>
              submissionStatus == Unset && formData == old(formData) && formErrors == map[])
        && (outcome.Thrown? ==>
              submissionStatus == Error && formData == old(formData) && formErrors == map[General := SendFailed])
    {
      submissionStatus := Unset;
      var ok := Validate();
      if !ok {
        sent := None;
        return;
      }
      isSubmitting := true;
      var parts := BuildSubmissionData();
      sent := Some(Request(Url, Multipart(parts)));
      match outcome {
        case Status(code) =>
          if code == 201 {
            submissionStatus := Success;
            formData := Defaults();
          }
        case Thrown(_) =>
          submissionStatus := Error;
          formErrors := formErrors[General := SendFailed];
      }
      isSubmitting := false;
    }
  }
}
