/**
 * The partnership form: contact details, the kind of partnership, a
 * description, and up to five optional documents, sent as a multipart
 * body to /api/requests/partnership.
 */
module Partnership {
  import opened FormCore
  import opened Validators

  const Url := "/api/requests/partnership"

  /** The most documents one selection may hold. */
  const MaxDocuments: nat := 5

  /** The keys of `formData`: `fullName`, `email`, `phone`, `partnershipType`, `description`, `documents`. */
  datatype Field = FullName | Email | Phone | PartnershipType | Description | Documents

  type Data = FormData<Field>
  type Errors = ErrorMap<Field>

  /** Every field but the document list, in declared order. */
  const TextFields: seq<Field> := [FullName, Email, Phone, PartnershipType, Description]

  /** The keys of `formData`, in declared order: the text fields, then `documents`. */
  const Fields: seq<Field> := [FullName, Email, Phone, PartnershipType, Description, Documents]

  const FullNameRequired := "Le nom complet est requis."
  const EmailRequired := "L'email est requis."
  const EmailFormat := "Format email invalide."
  const PhoneRequired := "Le numéro de téléphone est requis."
  const TypeRequired := "Le type de partenariat est requis."
  const DescriptionRequired := "La description est requise pour évaluer l'apport."
  const SendFailed := "Une erreur est survenue lors de l'envoi. Veuillez réessayer."

  /** The message for a selection over the cap, with the cap written into it in decimal. */
  const TooManyDocuments := "Vous ne pouvez sélectionner qu'un maximum de " + DecimalString(MaxDocuments) + " documents/fichiers."

  /** The number written into the message is "5", and reads back as the cap. */
  lemma TooManyDocumentsNamesCap()
    ensures DecimalString(MaxDocuments) == "5"
    ensures JsParseInt(DecimalString(MaxDocuments)) == Some(MaxDocuments)
  {
    DecimalStringRoundTrip(MaxDocuments);
  }

  /** `formData` has every declared key, a string in each text field and a list under `documents`. */
  ghost predicate WellFormed(data: Data)
  {
    && (forall f :: f in Fields ==> f in data)
    && (forall f :: f in TextFields ==> data[f].Text?)
    && data[Documents].Files?
  }

  /** The initial state of `formData`, restored after a successful submission. */
  function Defaults(): (d: Data)
    ensures WellFormed(d)
    ensures forall f :: f in TextFields ==> d[f] == Text("")
    ensures d[Documents] == Files([])
  {
    map[FullName := Text(""), Email := Text(""), Phone := Text(""),
        PartnershipType := Text(""), Description := Text(""), Documents := Files([])]
  }

  /** The rule `validate` applies to field `f`; the documents are optional and have none. */
  function FieldError(data: Data, f: Field): (r: Option<string>)
    ensures r.Some? ==> r.value != ""
  {
    match f
    case FullName => RequiredText(TextOf(data, f), FullNameRequired)
    case Email => EmailRule(TextOf(data, f), EmailRequired, EmailFormat)
    case Phone => RequiredText(TextOf(data, f), PhoneRequired)
    case PartnershipType => RequiredValue(TextOf(data, f), TypeRequired)
    case Description => RequiredText(TextOf(data, f), DescriptionRequired)
    case Documents => None
  }

  /** The rules of `validate`, as one function of the field. */
  function Rules(data: Data): Field -> Option<string>
  {
    f => FieldError(data, f)
  }

  lemma FieldDeclared(f: Field)
    ensures f in Fields
  {
  }

  /** Every field is one of the declared keys. */
  lemma EveryFieldDeclared()
    ensures forall f: Field :: f in Fields
  {
    forall f: Field
      ensures f in Fields
    {
      FieldDeclared(f);
    }
  }

  /**
   * The error map `validate` builds: an entry exactly for each field whose
   * rule fails, holding that rule's message, no `general` entry and no
   * empty message.
   */
  function ValidationErrors(data: Data): (errs: Errors)
    ensures General !in errs && MessagesNonEmpty(errs)
    ensures forall f :: On(f) in errs <==> FieldError(data, f).Some?
    ensures forall f :: On(f) in errs ==> errs[On(f)] == FieldError(data, f).value
  {
    EveryFieldDeclared();
    ErrorsFromMessages(Fields, Rules(data));
    ErrorsFrom(Fields, Rules(data))
  }

  // One lemma per field: what its rule checks.

  lemma FullNameRule(data: Data)
    ensures On(FullName) in ValidationErrors(data) <==> IsBlank(TextOf(data, FullName))
  {
  }

  lemma EmailFieldRule(data: Data)
    ensures var errs := ValidationErrors(data);
      && (On(Email) in errs <==> IsBlank(TextOf(data, Email)) || !EmailOk(TextOf(data, Email)))
      && (On(Email) in errs ==>
            errs[On(Email)] == if IsBlank(TextOf(data, Email)) then EmailRequired else EmailFormat)
  {
  }

  lemma PhoneRule(data: Data)
    ensures On(Phone) in ValidationErrors(data) <==> IsBlank(TextOf(data, Phone))
  {
  }

  lemma TypeRule(data: Data)
    ensures On(PartnershipType) in ValidationErrors(data) <==> TextOf(data, PartnershipType) == ""
  {
  }

  lemma DescriptionRule(data: Data)
    ensures On(Description) in ValidationErrors(data) <==> IsBlank(TextOf(data, Description))
  {
  }

  lemma DocumentsRule(data: Data)
    ensures On(Documents) !in ValidationErrors(data)
  {
  }

  /**
   * What a validation pass checks: name, phone and description must not
   * be blank after trimming, a partnership type must be chosen, the email
   * must match, and the documents are never checked.
   */
  lemma ValidationRules(data: Data)
    ensures var errs := ValidationErrors(data);
      && (On(FullName) in errs <==> IsBlank(TextOf(data, FullName)))
      && (On(Email) in errs <==> IsBlank(TextOf(data, Email)) || !EmailOk(TextOf(data, Email)))
      && (On(Email) in errs ==>
            errs[On(Email)] == if IsBlank(TextOf(data, Email)) then EmailRequired else EmailFormat)
      && (On(Phone) in errs <==> IsBlank(TextOf(data, Phone)))
      && (On(PartnershipType) in errs <==> TextOf(data, PartnershipType) == "")
      && (On(Description) in errs <==> IsBlank(TextOf(data, Description)))
      && On(Documents) !in errs
  {
    FullNameRule(data);
    EmailFieldRule(data);
    PhoneRule(data);
    TypeRule(data);
    DescriptionRule(data);
    DocumentsRule(data);
  }

  /** Whatever documents are selected, or none, they never decide whether the form is sent. */
  lemma DocumentsIgnored(data: Data, files: seq<FileRef>)
    ensures ValidationErrors(data[Documents := Files(files)]) == ValidationErrors(data)
  {
    var other := data[Documents := Files(files)];
    forall i | 0 <= i < |Fields|
      ensures Rules(other)(Fields[i]) == Rules(data)(Fields[i])
    {
      var f := Fields[i];
      if f != Documents {
        assert TextOf(other, f) == TextOf(data, f);
      }
    }
    ErrorsFromAgree(Fields, Rules(other), Rules(data));
  }

  /** The multipart body: every text field in declared order, then one `documents` part per file in list order. */
  function MultipartParts(data: Data): seq<Part<Field>>
  {
    TextParts(data, TextFields) + FileParts(Documents, FilesOf(data, Documents))
  }

  /** The key loop of `handleSubmit`, skipping `documents`, yields the text fields. */
  lemma KeyLoopOrder()
    ensures Without(Fields, {Documents}) == TextFields
  {
    assert Fields[..|Fields| - 1] == TextFields;
    WithoutNothingSkipped(TextFields, {Documents});
  }

  class PartnershipForm {
    var formData: Data
    var formErrors: Errors
    var isSubmitting: bool
    var submissionStatus: SubmissionStatus

    /**
     * Between two events: the data has its declared shape and never holds
     * more documents than the cap, every message is non-empty, and no
     * submission is in flight.
     */
    ghost predicate Valid()
      reads this
    {
      && WellFormed(formData)
      && |FilesOf(formData, Documents)| <= MaxDocuments
      && MessagesNonEmpty(formErrors)
      && !isSubmitting
    }

    constructor ()
      ensures Valid()
      ensures formData == Defaults() && formErrors == map[]
      ensures !isSubmitting && submissionStatus == Unset
    {
      formData := Defaults();
      formErrors := map[];
      isSubmitting := false;
      submissionStatus := Unset;
    }

    /** `handleChange`: overwrite one text field and clear only that field's error. */
    method HandleChange(name: Field, value: string)
      requires Valid() && name != Documents
      modifies this`formData, this`formErrors
      ensures Valid()
      ensures formData == old(formData)[name := Text(value)]
      ensures formErrors == old(formErrors) - {On(name)}
    {
      formData := formData[name := Text(value)];
      if On(name) in formErrors && formErrors[On(name)] != "" {
        formErrors := formErrors - {On(name)};
      }
    }

    /**
     * `handleFileChange`: a selection over the cap is refused whole — the
     * document list is emptied and the cap message recorded; any other
     * selection replaces the list and clears the `documents` error.
     */
    method HandleFileChange(selected: seq<FileRef>)
      requires Valid()
      modifies this`formData, this`formErrors
      ensures Valid()
      ensures |selected| > MaxDocuments ==>
        && formData == old(formData)[Documents := Files([])]
        && formErrors == old(formErrors)[On(Documents) := TooManyDocuments]
      ensures |selected| <= MaxDocuments ==>
        && formData == old(formData)[Documents := Files(selected)]
        && formErrors == old(formErrors) - {On(Documents)}
    {
      if |selected| > MaxDocuments {
        formErrors := formErrors[On(Documents) := TooManyDocuments];
        formData := formData[Documents := Files([])];
        return;
      }
      formData := formData[Documents := Files(selected)];
      if On(Documents) in formErrors && formErrors[On(Documents)] != "" {
        formErrors := formErrors - {On(Documents)};
      }
    }

    /** `validate`: replace the error map by a fresh validation pass and report whether it is empty. */
    method Validate() returns (ok: bool)
      requires Valid()
      modifies this`formErrors
      ensures Valid()
      ensures formErrors == ValidationErrors(formData)
      ensures ok <==> formErrors == map[]
    {
      var errors := CollectErrors(Fields, Rules(formData));
      assert errors == ValidationErrors(formData);
      formErrors := errors;
      ok := |errors| == 0;
    }

    /** The `FormData` loops of `handleSubmit`: every field but `documents`, then the documents. */
    method BuildSubmissionData() returns (parts: seq<Part<Field>>)
      ensures parts == MultipartParts(formData)
    {
      parts := AppendTextParts(formData, Fields, {Documents});
      KeyLoopOrder();
      parts := AppendFileParts(parts, Documents, FilesOf(formData, Documents));
    }

    /**
     * `handleSubmit`, with the reply of the network call given as `outcome`.
     * Returns the request sent, None when validation stopped the submission.
     */
    method HandleSubmit(outcome: Outcome) returns (sent: Option<Request<Field>>)
      requires Valid()
      modifies this
      ensures Valid()
      ensures ValidationErrors(old(formData)) != map[] ==>
        && sent == None && submissionStatus == Unset
        && formData == old(formData) && formErrors == ValidationErrors(old(formData))
      ensures ValidationErrors(old(formData)) == map[] ==>
        && sent == Some(Request(Url, Multipart(MultipartParts(old(formData)))))
        && (outcome == Status(201) ==>
              submissionStatus == Success && formData == Defaults() && formErrors == map[])
        && (outcome.Status? && outcome.status != 201 ==>
              submissionStatus == Unset && formData == old(formData) && formErrors == map[])
        && (outcome.Thrown? ==>
              submissionStatus == Error && formData == old(formData) && formErrors == map[General := SendFailed])
    {
      submissionStatus := Unset;
      var ok := Validate();
      if !ok {
        sent := None;
        return;
      }
      isSubmitting := true;
      var parts := BuildSubmissionData();
      sent := Some(Request(Url, Multipart(parts)));
      match outcome {
        case Status(code) =>
          if code == 201 {
            submissionStatus := Success;
            formData := Defaults();
          }
        case Thrown(_) =>
          submissionStatus := Error;
          formErrors := formErrors[General := SendFailed];
      }
      isSubmitting := false;
    }
  }
}
