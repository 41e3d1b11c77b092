/**
 * The property submission form of a partner: the property's address, type,
 * area and estimated price, free notes, and between one and ten photos,
 * sent as a multipart body to /api/partner/submit-property.
 */
module PropertySubmition {
  import opened FormCore
  import opened Validators

  const Url := "/api/partner/submit-property"

  /** The most photos one selection may hold. */
  const MaxPhotos: nat := 10

  /** The keys of `formData`: `propertyAddress`, `propertyType`, `area`, `estimatedPrice`, `notes`, `photos`. */
  datatype Field = PropertyAddress | PropertyType | Area | EstimatedPrice | Notes | Photos

  type Data = FormData<Field>
  type Errors = ErrorMap<Field>

  /** Every field but the photo list, in declared order. */
  const TextFields: seq<Field> := [PropertyAddress, PropertyType, Area, EstimatedPrice, Notes]

  /** The keys of `formData`, in declared order: the text fields, then `photos`. */
  const Fields: seq<Field> := [PropertyAddress, PropertyType, Area, EstimatedPrice, Notes, Photos]

  const AddressRequired := "L'adresse du bien est requise."
  const TypeRequired := "Le type de bien est requis."
  const AreaInvalid := "Une superficie valide (m²) est requise."
  const PriceInvalid := "Un prix estimé valide est requis."
  const PhotosRequired := "Veuillez téléverser au moins une photo du bien."
  const SendFailed := "Une erreur est survenue lors de l'envoi. Assurez-vous d'être connecté."

  /** The message for a selection over the cap, with the cap written into it in decimal. */
  const TooManyPhotos := "Vous ne pouvez sélectionner qu'un maximum de " + DecimalString(MaxPhotos) + " photos."

  /** The number written into the message is "10", and reads back as the cap. */
  lemma TooManyPhotosNamesCap()
    ensures DecimalString(MaxPhotos) == "10"
    ensures JsParseInt(DecimalString(MaxPhotos)) == Some(MaxPhotos)
  {
    assert DecimalString(1) == "1";
    DecimalStringRoundTrip(MaxPhotos);
  }

  /** `formData` has every declared key, a string in each text field and a list under `photos`. */
  ghost predicate WellFormed(data: Data)
  {
    && (forall f :: f in Fields ==> f in data)
    && (forall f :: f in TextFields ==> data[f].Text?)
    && data[Photos].Files?
  }

  /** The initial state of `formData`, restored after a successful submission. */
  function Defaults(): (d: Data)
    ensures WellFormed(d)
    ensures forall f :: f in TextFields ==> d[f] == Text("")
    ensures d[Photos] == Files([])
  {
    map[PropertyAddress := Text(""), PropertyType := Text(""), Area := Text(""),
        EstimatedPrice := Text(""), Notes := Text(""), Photos := Files([])]
  }

  /** The rule `validate` applies to field `f`; `notes` has none. */
  function FieldError(data: Data, f: Field): (r: Option<string>)
    ensures r.Some? ==> r.value != ""
  {
    match f
    case PropertyAddress => RequiredText(TextOf(data, f), AddressRequired)
    case PropertyType => RequiredValue(TextOf(data, f), TypeRequired)
    case Area => PositiveIntRule(TextOf(data, f), AreaInvalid)
    case EstimatedPrice => PositiveIntRule(TextOf(data, f), PriceInvalid)
    case Notes => None
    case Photos => if |FilesOf(data, f)| == 0 then Some(PhotosRequired) else None
  }

  /** The rules of `validate`, as one function of the field. */
  function Rules(data: Data): Field -> Option<string>
  {
    f => FieldError(data, f)
  }

  lemma FieldDeclared(f: Field)
    ensures f in Fields
  {
  }

  /** Every field is one of the declared keys. */
  lemma EveryFieldDeclared()
    ensures forall f: Field :: f in Fields
  {
    forall f: Field
      ensures f in Fields
    {
      FieldDeclared(f);
    }
  }

  /**
   * The error map `validate` builds: an entry exactly for each field whose
   * rule fails, holding that rule's message, no `general` entry and no
   * empty message.
   */
  function ValidationErrors(data: Data): (errs: Errors)
    ensures General !in errs && MessagesNonEmpty(errs)
    ensures forall f :: On(f) in errs <==> FieldError(data, f).Some?
    ensures forall f :: On(f) in errs ==> errs[On(f)] == FieldError(data, f).value
  {
    EveryFieldDeclared();
    ErrorsFromMessages(Fields, Rules(data));
    ErrorsFrom(Fields, Rules(data))
  }

  // One lemma per field: what its rule checks.

  lemma AddressRule(data: Data)
    ensures On(PropertyAddress) in ValidationErrors(data) <==> IsBlank(TextOf(data, PropertyAddress))
  {
  }

  lemma TypeRule(data: Data)
    ensures On(PropertyType) in ValidationErrors(data) <==> TextOf(data, PropertyType) == ""
  {
  }

  lemma AreaRule(data: Data)
    ensures On(Area) in ValidationErrors(data) <==> !PositiveInt(TextOf(data, Area))
  {
  }

  lemma PriceRule(data: Data)
    ensures On(EstimatedPrice) in ValidationErrors(data) <==> !PositiveInt(TextOf(data, EstimatedPrice))
  {
  }

  lemma NotesRule(data: Data)
    ensures On(Notes) !in ValidationErrors(data)
  {
  }

  lemma PhotosRule(data: Data)
    ensures var errs := ValidationErrors(data);
      && (On(Photos) in errs <==> |FilesOf(data, Photos)| == 0)
      && (On(Photos) in errs ==> errs[On(Photos)] == PhotosRequired)
  {
  }

  /**
   * What a validation pass checks: the address must not be blank after
   * trimming, a type must be chosen, area and price must read as positive
   * integers, at least one photo must be selected, and the notes are
   * never checked.
   */
  lemma ValidationRules(data: Data)
    ensures var errs := ValidationErrors(data);
      && (On(PropertyAddress) in errs <==> IsBlank(TextOf(data, PropertyAddress)))
      && (On(PropertyType) in errs <==> TextOf(data, PropertyType) == "")
      && (On(Area) in errs <==> !PositiveInt(TextOf(data, Area)))
      && (On(EstimatedPrice) in errs <==> !PositiveInt(TextOf(data, EstimatedPrice)))
      && On(Notes) !in errs
      && (On(Photos) in errs <==> |FilesOf(data, Photos)| == 0)
      && (On(Photos) in errs ==> errs[On(Photos)] == PhotosRequired)
  {
    AddressRule(data);
    TypeRule(data);
    AreaRule(data);
    PriceRule(data);
    NotesRule(data);
    PhotosRule(data);
  }

  /** Whatever the notes hold, they never decide whether the form is sent. */
  lemma NotesIgnored(data: Data, notes: string)
    ensures ValidationErrors(data[Notes := Text(notes)]) == ValidationErrors(data)
  {
    var other := data[Notes := Text(notes)];
    forall i | 0 <= i < |Fields|
      ensures Rules(other)(Fields[i]) == Rules(data)(Fields[i])
    {
      var f := Fields[i];
      if f != Notes {
        assert TextOf(other, f) == TextOf(data, f) && FilesOf(other, f) == FilesOf(data, f);
      }
    }
    ErrorsFromAgree(Fields, Rules(other), Rules(data));
  }

  /** The multipart body: every text field in declared order, then one `photos` part per file in list order. */
  function MultipartParts(data: Data): seq<Part<Field>>
  {
    TextParts(data, TextFields) + FileParts(Photos, FilesOf(data, Photos))
  }

  /** The key loop of `handleSubmit`, skipping `photos`, yields the text fields. */
  lemma KeyLoopOrder()
    ensures Without(Fields, {Photos}) == TextFields
  {
    assert Fields[..|Fields| - 1] == TextFields;
    WithoutNothingSkipped(TextFields, {Photos});
  }

  class PropertySubmitionForm {
    var formData: Data
    var formErrors: Errors
    var isSubmitting: bool
    var submissionStatus: SubmissionStatus

    /**
     * Between two events: the data has its declared shape and never holds
     * more photos than the cap, every message is non-empty, and no
     * submission is in flight.
     */
    ghost predicate Valid()
      reads this
    {
      && WellFormed(formData)
      && |FilesOf(formData, Photos)| <= MaxPhotos
      && MessagesNonEmpty(formErrors)
      && !isSubmitting
    }

    constructor ()
      ensures Valid()
      ensures formData == Defaults() && formErrors == map[]
      ensures !isSubmitting && submissionStatus == Unset
    {
      formData := Defaults();
      formErrors := map[];
      isSubmitting := false;
      submissionStatus := Unset;
    }

    /** `handleChange`: overwrite one text field and clear only that field's error. */
    method HandleChange(name: Field, value: string)
      requires Valid() && name != Photos
      modifies this`formData, this`formErrors
      ensures Valid()
      ensures formData == old(formData)[name := Text(value)]
      ensures formErrors == old(formErrors) - {On(name)}
    {
      formData := formData[name := Text(value)];
      if On(name) in formErrors && formErrors[On(name)] != "" {
        formErrors := formErrors - {On(name)};
      }
    }

    /**
     * `handleFileChange`: a selection over the cap is refused whole — the
     * photo list is emptied and the cap message recorded; any other
     * selection replaces the list and clears the `photos` error.
     */
    method HandleFileChange(selected: seq<FileRef>)
      requires Valid()
      modifies this`formData, this`formErrors
      ensures Valid()
      ensures |selected| > MaxPhotos ==>
        && formData == old(formData)[Photos := Files([])]
        && formErrors == old(formErrors)[On(Photos) := TooManyPhotos]
      ensures |selected| <= MaxPhotos ==>
        && formData == old(formData)[Photos := Files(selected)]
        && formErrors == old(formErrors) - {On(Photos)}
    {
      if |selected| > MaxPhotos {
        formErrors := formErrors[On(Photos) := TooManyPhotos];
        formData := formData[Photos := Files([])];
        return;
      }
      formData := formData[Photos := Files(selected)];
      if On(Photos) in formErrors && formErrors[On(Photos)] != "" {
        formErrors := formErrors - {On(Photos)};
      }
    }

    /** `validate`: replace the error map by a fresh validation pass and report whether it is empty. */
    method Validate() returns (ok: bool)
      requires Valid()
      modifies this`formErrors
      ensures Valid()
      ensures formErrors == ValidationErrors(formData)
      ensures ok <==> formErrors == map[]
    {
      var errors := CollectErrors(Fields, Rules(formData));
      assert errors == ValidationErrors(formData);
      formErrors := errors;
      ok := |errors| == 0;
    }

    /** The `FormData` loops of `handleSubmit`: every field but `photos`, then the photos. */
    method BuildSubmissionData() returns (parts: seq<Part<Field>>)
      ensures parts == MultipartParts(formData)
    {
      parts := AppendTextParts(formData, Fields, {Photos});
      KeyLoopOrder();
      parts := AppendFileParts(parts, Photos, FilesOf(formData, Photos));
    }

    /**
     * `handleSubmit`, with the reply of the network call given as `outcome`.
     * Returns the request sent, None when validation stopped the submission.
     */
    method HandleSubmit(outcome: Outcome) returns (sent: Option<Request<Field>>)
      requires Valid()
      modifies this
      ensures Valid()
      ensures ValidationErrors(old(formData)) != map[] ==>
        && sent == None && submissionStatus == Unset
        && formData == old(formData) && formErrors == ValidationErrors(old(formData))
      ensures ValidationErrors(old(formData)) == map[] ==>
        && sent == Some(Request(Url, Multipart(MultipartParts(old(formData)))))
        && (outcome == Status(201) ==>
              submissionStatus == Success && formData == Defaults() && formErrors == map[])
        && (outcome.Status? && outcome.status != 201 ==>
              submissionStatus == Unset && formData == old(formData) && formErrors == map[])
        && (outcome.Thrown? ==>
              submissionStatus == Error && formData == old(formData) && formErrors == map[General := SendFailed])
    {
      submissionStatus := Unset;
      var ok := Validate();
      if !ok {
        sent := None;
        return;
      }
      isSubmitting := true;
      var parts := BuildSubmissionData();
      sent := Some(Request(Url, Multipart(parts)));
      match outcome {
        case Status(code) =>
          if code == 201 {
            submissionStatus := Success;
            formData := Defaults();
          }
        case Thrown(_) =>
          submissionStatus := Error;
          formErrors := formErrors[General := SendFailed];
      }
      isSubmitting := false;
    }
  }
}
