# Page-level forms of the WCP site, modelled in Dafny

The site has eight page-level forms. Each is a React component that keeps
four pieces of state:

- `formData`, the field values;
- `formErrors`, field or `general` to message;
- `isSubmitting`;
- `submissionStatus`, which is `null`, `'success'` or `'error'`.

The forms are property estimation, general contact, property submission,
rental request, partnership, appointment, registration and login. Each
reacts to four or five events:

- editing a field;
- ticking the consent box;
- choosing files;
- validating;
- submitting.

This project models each form as a Dafny class with those four fields. Each
handler is a method that states the whole new state. The model proves what
the handlers promise:

- which single field and error an edit touches;
- when a file selection is refused whole;
- exactly when each validation rule records a message, and which one;
- the order of the parts of a multipart body;
- how each reply of the server moves the status, the data and the errors;
- that between events the data keeps its declared shape, no message is
  empty and no submission is in flight.

Layout:

- `form_core.dfy` (module `FormCore`) holds what every form shares:
  - values, error keys, statuses, outcomes, requests;
  - the error-map fold `ErrorsFrom` and its loop `CollectErrors`;
  - the multipart loops `AppendTextParts` and `AppendFileParts`.
- `validators.dfy` (module `Validators`) holds the JavaScript behaviour the
  rules rely on:
  - `String.prototype.trim` over the full ECMAScript white-space set;
  - the unanchored regular expression `\S+@\S+\.\S+`;
  - `parseInt` with no radix, including the `0x` prefix;
  - `length` in UTF-16 code units;
  - the decimal rendering of `${n}`.
- One file per form (`property_estimation.dfy` … `login.dfy`, one module
  each). A form's keys are a datatype `Field`, and `Fields` lists them in
  declared order, which is the order `for (const key in formData)` visits
  them. `FieldError` is the rule `validate` applies to one field, and
  `ValidationErrors` is the map a whole pass builds.

Modelling choices:

- The network call is a parameter `outcome`:
  - `Status(code)` when `axios.post` resolved;
  - `Thrown(Some(code))` when it threw with a response;
  - `Thrown(None)` when it threw without one.
- `handleSubmit` runs as one step from the submit event to the `finally`
  block. It returns the request it sent, or None when validation stopped it.
- Setting an error to `undefined` removes the key. Every read of
  `formErrors` treats an absent key and `undefined` alike.
- `localStorage` is a small `Storage` class that the login form writes.
- Whether the page passed `onLoginSuccess` is the flag `hasCallback`. The
  user handed to the callback is returned as `notified`.

Behaviour worth noting:

- The estimated price passes any value `parseInt` reads as greater than 0.
  The threshold of 1000 exists only as an HTML `min` attribute.
- A reply that resolves with a status other than the expected one changes
  nothing in seven forms: the status stays `null` and no message is
  recorded. Only the contact form marks it as an error.
- A thrown error leaves no `general` message in the contact and
  registration forms. The registration form records a message only under
  `email`, and only for a 409. The login form records `general` only for a
  401.
- `parseInt` without a radix reads `0x…` as hexadecimal, so "0x1A" is 26.
- The estimation form has no cap on its photo list, although its label
  mentions five.

## Model

| member | source | states |
|---|---|---|
| FormCore.ErrorsFrom | wcp-site/src/components/organisms/PropertyEstimation.jsx:44-66 | the map a validation pass builds has an entry exactly for each listed field whose rule fails, holding that rule's message, and no `general` entry |
| FormCore.CollectErrors | wcp-site/src/components/organisms/PropertyEstimation.jsx:45-64 | the step-by-step pass from an empty map, one field after the other, yields exactly `ErrorsFrom` |
| FormCore.ErrorsFromMessages | wcp-site/src/components/organisms/PropertyEstimation.jsx:44-66 | when no rule's message is empty, the built map holds no empty message, so "has an entry" and "is truthy" agree |
| FormCore.ErrorsFromAgree | wcp-site/src/components/organisms/ContactGeneral.jsx:43-55 | two rule sets that agree on every field build the same map, so a field without a rule never changes the result |
| FormCore.WithoutMembers | wcp-site/src/components/organisms/PropertyEstimation.jsx:80-84 | the key loop with a skip test visits exactly the keys that are not skipped |
| FormCore.WithoutNothingSkipped | wcp-site/src/components/organisms/PropertySubmition.jsx:90-94 | when no key is skipped, the loop visits every key in order |
| FormCore.KeyLoopStep | wcp-site/src/components/organisms/PropertyEstimation.jsx:80-84 | one more iteration of the key loop appends the current key's part exactly when it is not skipped |
| FormCore.AppendTextParts | wcp-site/src/components/organisms/PropertyEstimation.jsx:80-84 | the `for ... in` loop yields one text part per non-skipped key, in key order |
| FormCore.AppendFileParts | wcp-site/src/components/organisms/PropertyEstimation.jsx:87-89 | the `forEach` loop appends one file part per file under the field's name, in list order, after what was there |
| Validators.TrimStartSpec | wcp-site/src/components/organisms/PropertyEstimation.jsx:47 | trimming the front removes a run of white space and stops at the first non-space character |
| Validators.TrimEndSpec | wcp-site/src/components/organisms/PropertyEstimation.jsx:47 | trimming the back removes a run of white space and stops at the last non-space character |
| Validators.BlankIffAllSpace | wcp-site/src/components/organisms/PropertyEstimation.jsx:47 | `!value.trim()` holds exactly when every character of the value is white space (the empty string included) |
| Validators.EmailOkIff | wcp-site/src/components/organisms/PropertyEstimation.jsx:49 | the unanchored pattern matches exactly when some `@` has a non-space character before it, then non-space characters up to a `.`, then a non-space character |
| Validators.EmailSamples | wcp-site/src/components/organisms/PropertyEstimation.jsx:49 | "a@b.co" matches; "abc", "a@b" and "a.b@" do not |
| Validators.BlankEmailNeverMatches | wcp-site/src/components/organisms/PropertyEstimation.jsx:48-49 | a blank address never matches, so it always gets the "required" message and never the "format" one |
| Validators.DigitPrefixSpec | wcp-site/src/components/organisms/PropertyEstimation.jsx:53 | `parseInt` reads the longest run of digits of the radix: a prefix, all digits, ended by a non-digit or the end |
| Validators.DigitsValuePositive | wcp-site/src/components/organisms/PropertyEstimation.jsx:53 | a digit string denotes a positive number exactly when one of its digits is not zero |
| Validators.ScanInt | wcp-site/src/components/organisms/PropertyEstimation.jsx:53 | with no radix argument: leading white space skipped, negative exactly when a `-` follows it, radix 16 exactly when a `0x`/`0X` prefix follows the optional sign and 10 otherwise, and the digits read are the longest run valid in that radix |
| Validators.PositiveIntIff | wcp-site/src/components/organisms/PropertyEstimation.jsx:53-55 | `!v \|\| isNaN(parseInt(v)) \|\| parseInt(v) <= 0` is false exactly when, after leading white space, there is no minus sign and the digit run read holds a non-zero digit |
| Validators.NonPositiveSamples | wcp-site/src/components/organisms/PropertyEstimation.jsx:53-58 | "0", "-5" and "abc" fail the numeric rule |
| Validators.PositiveSamples | wcp-site/src/components/organisms/PropertySubmition.jsx:65-67 | "1", "999" and "7m" pass the numeric rule, so a price of 999 is accepted |
| Validators.HexSample | wcp-site/src/components/organisms/PropertyEstimation.jsx:53 | `parseInt("0x1A")` is 26 |
| Validators.DecimalStringDigits | wcp-site/src/components/organisms/PropertySubmition.jsx:40 | `${n}` writes only decimal digits, with no leading zero unless n is 0 |
| Validators.DecimalStringRoundTrip | wcp-site/src/components/organisms/PropertySubmition.jsx:40 | `parseInt` reads back the number `${n}` wrote |
| Validators.Utf16Length | wcp-site/src/components/organisms/Register.jsx:43 | `length` counts between one and two code units per character |
| Validators.RequiredTextAllSpace | wcp-site/src/components/organisms/PropertyEstimation.jsx:47 | the required-text rule gives a message exactly when every character of the value is white space, the empty value included |
| Validators.EmailRuleShape | wcp-site/src/components/organisms/PropertyEstimation.jsx:48-49 | the email rule gives no message exactly when the shape of an address (non-space, `@`, non-space run, `.`, non-space) occurs somewhere in the value; an all-white-space value always gets the "required" message |
| Validators.PositiveIntRuleDigits | wcp-site/src/components/organisms/PropertyEstimation.jsx:53-55 | the numeric rule gives no message exactly when `parseInt` reads no minus sign and a digit that is not zero |
| Validators.PasswordLengthRule | wcp-site/src/components/organisms/Register.jsx:43 | the message is given exactly when the untrimmed password has fewer than 6 UTF-16 code units; 6 characters always pass |
| PropertyEstimation.Defaults | wcp-site/src/components/organisms/PropertyEstimation.jsx:14-25 | nine empty strings and an empty photo list, of the declared shape |
| PropertyEstimation.FieldError | wcp-site/src/components/organisms/PropertyEstimation.jsx:47-62 | no rule's message is empty |
| PropertyEstimation.ValidationErrors | wcp-site/src/components/organisms/PropertyEstimation.jsx:44-66 | an entry exactly for each field whose rule fails, with that rule's message; no `general`, so a stale one disappears |
| PropertyEstimation.FullNameRule | wcp-site/src/components/organisms/PropertyEstimation.jsx:47 | `fullName` has an error exactly when blank after trim |
| PropertyEstimation.EmailFieldRule | wcp-site/src/components/organisms/PropertyEstimation.jsx:48-49 | `email` has an error exactly when blank or not matching, with the "required" message when blank and the "format" message otherwise |
| PropertyEstimation.PhoneRule | wcp-site/src/components/organisms/PropertyEstimation.jsx:50 | `phone` has an error exactly when blank after trim |
| PropertyEstimation.AddressRule | wcp-site/src/components/organisms/PropertyEstimation.jsx:51 | `propertyAddress` has an error exactly when blank after trim |
| PropertyEstimation.TypeRule | wcp-site/src/components/organisms/PropertyEstimation.jsx:52 | `propertyType` has an error exactly when empty |
| PropertyEstimation.AreaRule | wcp-site/src/components/organisms/PropertyEstimation.jsx:53-55 | `area` has an error exactly when it does not read as a positive integer |
| PropertyEstimation.RoomsRule | wcp-site/src/components/organisms/PropertyEstimation.jsx:56-58 | `rooms` has an error exactly when it does not read as a positive integer |
| PropertyEstimation.StateRule | wcp-site/src/components/organisms/PropertyEstimation.jsx:59 | `propertyState` has an error exactly when empty |
| PropertyEstimation.DescriptionRule | wcp-site/src/components/organisms/PropertyEstimation.jsx:60 | `description` has an error exactly when blank after trim |
| PropertyEstimation.PhotosRule | wcp-site/src/components/organisms/PropertyEstimation.jsx:62 | an empty photo list always gets the photos message, and a non-empty one never does |
| PropertyEstimation.ValidationRules | wcp-site/src/components/organisms/PropertyEstimation.jsx:47-62 | all of the above for one validation pass |
| PropertyEstimation.KeyLoopOrder | wcp-site/src/components/organisms/PropertyEstimation.jsx:80-85 | skipping `photos` and `description` and then appending `description` yields the text fields in declared order |
| PropertyEstimation.PropertyEstimationForm.constructor | wcp-site/src/components/organisms/PropertyEstimation.jsx:14-28 | starts from the defaults, no errors, not submitting, status `null` |
| PropertyEstimation.PropertyEstimationForm.HandleChange | wcp-site/src/components/organisms/PropertyEstimation.jsx:30-34 | sets exactly the named field and removes only that field's error; `general` and every other entry are kept |
| PropertyEstimation.PropertyEstimationForm.HandleFileChange | wcp-site/src/components/organisms/PropertyEstimation.jsx:36-42 | takes the whole selection, whatever its size, and removes only the photos error |
| PropertyEstimation.PropertyEstimationForm.Validate | wcp-site/src/components/organisms/PropertyEstimation.jsx:44-66 | replaces the whole error map by `ValidationErrors` and returns true exactly when it is empty |
| PropertyEstimation.PropertyEstimationForm.BuildSubmissionData | wcp-site/src/components/organisms/PropertyEstimation.jsx:78-89 | the parts are every text field in declared order, then one `photos` part per file in list order |
| PropertyEstimation.PropertyEstimationForm.HandleSubmit | wcp-site/src/components/organisms/PropertyEstimation.jsx:68-106 | failed validation: nothing sent, status `null`, data kept. Otherwise the multipart request is sent; 201 gives success, the defaults and no errors; another status changes nothing; a thrown error gives status error, the data kept, and only the `general` message. Not submitting afterwards in every case |
| ContactGeneral.Defaults | wcp-site/src/components/organisms/ContactGeneral.jsx:14-21 | five empty strings and `privacyAccepted` false |
| ContactGeneral.FieldError | wcp-site/src/components/organisms/ContactGeneral.jsx:45-51 | no rule's message is empty |
| ContactGeneral.ValidationErrors | wcp-site/src/components/organisms/ContactGeneral.jsx:43-55 | an entry exactly for each field whose rule fails, with that rule's message, and no `general` |
| ContactGeneral.FullNameRule | wcp-site/src/components/organisms/ContactGeneral.jsx:45 | `fullName` has an error exactly when blank after trim |
| ContactGeneral.EmailFieldRule | wcp-site/src/components/organisms/ContactGeneral.jsx:46-47 | the "required" message when blank, the "format" message when not matching, nothing otherwise |
| ContactGeneral.PhoneRule | wcp-site/src/components/organisms/ContactGeneral.jsx:48 | `phone` has an error exactly when blank after trim |
| ContactGeneral.MessageRule | wcp-site/src/components/organisms/ContactGeneral.jsx:49 | `message` has an error exactly when blank after trim |
| ContactGeneral.SubjectRule | wcp-site/src/components/organisms/ContactGeneral.jsx:50 | `subject` never has an error |
| ContactGeneral.ConsentFieldRule | wcp-site/src/components/organisms/ContactGeneral.jsx:51 | `privacyAccepted` has the consent message exactly when false |
| ContactGeneral.ValidationRules | wcp-site/src/components/organisms/ContactGeneral.jsx:45-51 | all of the above for one validation pass |
| ContactGeneral.SubjectIgnored | wcp-site/src/components/organisms/ContactGeneral.jsx:50 | whatever the subject holds, the validation result is the same |
| ContactGeneral.ContactGeneralForm.constructor | wcp-site/src/components/organisms/ContactGeneral.jsx:14-24 | starts from the defaults, no errors, not submitting, status `null` |
| ContactGeneral.ContactGeneralForm.HandleChange | wcp-site/src/components/organisms/ContactGeneral.jsx:26-33 | sets exactly the named field and removes only its error |
| ContactGeneral.ContactGeneralForm.HandleCheckboxChange | wcp-site/src/components/organisms/ContactGeneral.jsx:35-41 | sets the consent boolean and removes only the consent error |
| ContactGeneral.ContactGeneralForm.Validate | wcp-site/src/components/organisms/ContactGeneral.jsx:43-55 | replaces the whole error map by `ValidationErrors` and returns true exactly when it is empty |
| ContactGeneral.ContactGeneralForm.HandleSubmit | wcp-site/src/components/organisms/ContactGeneral.jsx:57-99 | failed validation: nothing sent, status `null`. Otherwise the whole `formData` is sent as JSON; 200 or 201 gives success and the defaults, including an unticked box; any other status and any thrown error give status error with the data kept and no message recorded |
| PropertySubmition.TooManyPhotosNamesCap | wcp-site/src/components/organisms/PropertySubmition.jsx:40 | the number written into the cap message is "10", and it reads back as the cap |
| PropertySubmition.Defaults | wcp-site/src/components/organisms/PropertySubmition.jsx:15-23 | five empty strings and an empty photo list |
| PropertySubmition.FieldError | wcp-site/src/components/organisms/PropertySubmition.jsx:58-70 | no rule's message is empty |
| PropertySubmition.ValidationErrors | wcp-site/src/components/organisms/PropertySubmition.jsx:54-74 | an entry exactly for each field whose rule fails, with that rule's message, and no `general` |
| PropertySubmition.AddressRule | wcp-site/src/components/organisms/PropertySubmition.jsx:58 | `propertyAddress` has an error exactly when blank after trim |
| PropertySubmition.TypeRule | wcp-site/src/components/organisms/PropertySubmition.jsx:59 | `propertyType` has an error exactly when empty |
| PropertySubmition.AreaRule | wcp-site/src/components/organisms/PropertySubmition.jsx:62-64 | `area` has an error exactly when it does not read as a positive integer |
| PropertySubmition.PriceRule | wcp-site/src/components/organisms/PropertySubmition.jsx:65-67 | `estimatedPrice` has an error exactly when it does not read as a positive integer; there is no 1000 threshold |
| PropertySubmition.NotesRule | wcp-site/src/components/organisms/PropertySubmition.jsx:54-74 | `notes` never has an error |
| PropertySubmition.PhotosRule | wcp-site/src/components/organisms/PropertySubmition.jsx:70 | an empty photo list always gets the photos message, and a non-empty one never does |
| PropertySubmition.ValidationRules | wcp-site/src/components/organisms/PropertySubmition.jsx:58-70 | all of the above for one validation pass |
| PropertySubmition.NotesIgnored | wcp-site/src/components/organisms/PropertySubmition.jsx:54-74 | whatever the notes hold, the validation result is the same |
| PropertySubmition.KeyLoopOrder | wcp-site/src/components/organisms/PropertySubmition.jsx:90-94 | skipping `photos` yields every text field, `notes` included, in declared order |
| PropertySubmition.PropertySubmitionForm.constructor | wcp-site/src/components/organisms/PropertySubmition.jsx:15-26 | starts from the defaults, no errors, not submitting, status `null` |
| PropertySubmition.PropertySubmitionForm.HandleChange | wcp-site/src/components/organisms/PropertySubmition.jsx:28-32 | sets exactly the named field and removes only its error |
| PropertySubmition.PropertySubmitionForm.HandleFileChange | wcp-site/src/components/organisms/PropertySubmition.jsx:34-52 | more than 10 files: the list is emptied and the photos error set to the cap message, with nothing partly accepted. At most 10: the list becomes exactly the selection and the photos error is removed. The list never holds more than 10 files |
| PropertySubmition.PropertySubmitionForm.Validate | wcp-site/src/components/organisms/PropertySubmition.jsx:54-74 | replaces the whole error map by `ValidationErrors` and returns true exactly when it is empty |
| PropertySubmition.PropertySubmitionForm.BuildSubmissionData | wcp-site/src/components/organisms/PropertySubmition.jsx:87-99 | the parts are every non-photo field in declared order, then one `photos` part per file in list order |
| PropertySubmition.PropertySubmitionForm.HandleSubmit | wcp-site/src/components/organisms/PropertySubmition.jsx:76-118 | failed validation: nothing sent. Otherwise the multipart request is sent; 201 gives success, the six defaults and no errors; another status changes nothing; a thrown error gives status error, the data kept, and only the `general` message |
| RentalDemand.Defaults | wcp-site/src/components/organisms/RentalDemand.jsx:15-26 | ten empty strings |
| RentalDemand.FieldError | wcp-site/src/components/organisms/RentalDemand.jsx:40-53 | no rule's message is empty |
| RentalDemand.ValidationErrors | wcp-site/src/components/organisms/RentalDemand.jsx:37-57 | an entry exactly for each field whose rule fails, with that rule's message, and no `general` |
| RentalDemand.FullNameRule | wcp-site/src/components/organisms/RentalDemand.jsx:40 | `fullName` has an error exactly when blank after trim |
| RentalDemand.EmailFieldRule | wcp-site/src/components/organisms/RentalDemand.jsx:41-42 | the "required" message when blank, the "format" message when not matching, nothing otherwise |
| RentalDemand.PhoneRule | wcp-site/src/components/organisms/RentalDemand.jsx:43 | `phone` has an error exactly when blank after trim |
| RentalDemand.ProfessionRule | wcp-site/src/components/organisms/RentalDemand.jsx:44 | `profession` has an error exactly when blank after trim |
| RentalDemand.TypeRule | wcp-site/src/components/organisms/RentalDemand.jsx:46 | `propertyType` has an error exactly when empty, with no trim |
| RentalDemand.BudgetRule | wcp-site/src/components/organisms/RentalDemand.jsx:47-49 | `maxBudget` has an error exactly when it does not read as a positive integer |
| RentalDemand.LocationRule | wcp-site/src/components/organisms/RentalDemand.jsx:50 | `desiredLocation` has an error exactly when blank after trim |
| RentalDemand.DurationRule | wcp-site/src/components/organisms/RentalDemand.jsx:51 | `rentalDuration` has an error exactly when empty, with no trim |
| RentalDemand.MoveInRule | wcp-site/src/components/organisms/RentalDemand.jsx:52 | `moveInDate` has an error exactly when empty, with no trim |
| RentalDemand.DescriptionRule | wcp-site/src/components/organisms/RentalDemand.jsx:53 | `propertyDescription` has an error exactly when blank after trim |
| RentalDemand.ValidationRules | wcp-site/src/components/organisms/RentalDemand.jsx:40-53 | all of the above for one validation pass |
| RentalDemand.RentalDemandForm.constructor | wcp-site/src/components/organisms/RentalDemand.jsx:15-29 | starts from the defaults, no errors, not submitting, status `null` |
| RentalDemand.RentalDemandForm.HandleChange | wcp-site/src/components/organisms/RentalDemand.jsx:31-35 | sets exactly the named field and removes only its error |
| RentalDemand.RentalDemandForm.Validate | wcp-site/src/components/organisms/RentalDemand.jsx:37-57 | replaces the whole error map by `ValidationErrors` and returns true exactly when it is empty |
| RentalDemand.RentalDemandForm.HandleSubmit | wcp-site/src/components/organisms/RentalDemand.jsx:59-84 | failed validation: nothing sent. Otherwise `formData` is sent as is; 201 gives success, the ten defaults and no errors; another status changes nothing; a thrown error gives status error, the data kept, and only the `general` message |
| Partnership.TooManyDocumentsNamesCap | wcp-site/src/components/organisms/Partnership.jsx:44 | the number written into the cap message is "5", and it reads back as the cap |
| Partnership.Defaults | wcp-site/src/components/organisms/Partnership.jsx:20-27 | five empty strings and an empty document list |
| Partnership.FieldError | wcp-site/src/components/organisms/Partnership.jsx:61-72 | no rule's message is empty |
| Partnership.ValidationErrors | wcp-site/src/components/organisms/Partnership.jsx:58-76 | an entry exactly for each field whose rule fails, with that rule's message, and no `general` |
| Partnership.FullNameRule | wcp-site/src/components/organisms/Partnership.jsx:61 | `fullName` has an error exactly when blank after trim |
| Partnership.EmailFieldRule | wcp-site/src/components/organisms/Partnership.jsx:62-63 | the "required" message when blank, the "format" message when not matching, nothing otherwise |
| Partnership.PhoneRule | wcp-site/src/components/organisms/Partnership.jsx:64 | `phone` has an error exactly when blank after trim |
| Partnership.TypeRule | wcp-site/src/components/organisms/Partnership.jsx:66 | `partnershipType` has an error exactly when empty |
| Partnership.DescriptionRule | wcp-site/src/components/organisms/Partnership.jsx:67 | `description` has an error exactly when blank after trim |
| Partnership.DocumentsRule | wcp-site/src/components/organisms/Partnership.jsx:69-72 | `documents` never has an error, even when the list is empty |
| Partnership.ValidationRules | wcp-site/src/components/organisms/Partnership.jsx:61-72 | all of the above for one validation pass |
| Partnership.DocumentsIgnored | wcp-site/src/components/organisms/Partnership.jsx:69-72 | whatever documents are selected, or none, the validation result is the same |
| Partnership.KeyLoopOrder | wcp-site/src/components/organisms/Partnership.jsx:90-94 | skipping `documents` yields every text field in declared order |
| Partnership.PartnershipForm.constructor | wcp-site/src/components/organisms/Partnership.jsx:20-30 | starts from the defaults, no errors, not submitting, status `null` |
| Partnership.PartnershipForm.HandleChange | wcp-site/src/components/organisms/Partnership.jsx:32-36 | sets exactly the named field and removes only its error |
| Partnership.PartnershipForm.HandleFileChange | wcp-site/src/components/organisms/Partnership.jsx:38-56 | more than 5 files: the list is emptied and the documents error set to the cap message. At most 5: the list becomes exactly the selection and the documents error is removed. The list never holds more than 5 files |
| Partnership.PartnershipForm.Validate | wcp-site/src/components/organisms/Partnership.jsx:58-76 | replaces the whole error map by `ValidationErrors` and returns true exactly when it is empty |
| Partnership.PartnershipForm.BuildSubmissionData | wcp-site/src/components/organisms/Partnership.jsx:88-98 | the parts are every non-document field in declared order, then one `documents` part per file in list order |
| Partnership.PartnershipForm.HandleSubmit | wcp-site/src/components/organisms/Partnership.jsx:78-115 | failed validation: nothing sent. Otherwise the multipart request is sent; 201 gives success, the defaults and no errors; another status changes nothing; a thrown error gives status error, the data kept, and only the `general` message |
| Appointment.Defaults | wcp-site/src/components/organisms/Appointment.jsx:20-28 | seven empty strings |
| Appointment.FieldError | wcp-site/src/components/organisms/Appointment.jsx:42-49 | no rule's message is empty |
| Appointment.ValidationErrors | wcp-site/src/components/organisms/Appointment.jsx:39-53 | an entry exactly for each field whose rule fails, with that rule's message, and no `general` |
| Appointment.FullNameRule | wcp-site/src/components/organisms/Appointment.jsx:42 | `fullName` has an error exactly when blank after trim |
| Appointment.EmailFieldRule | wcp-site/src/components/organisms/Appointment.jsx:43-44 | the "required" message when blank, the "format" message when not matching, nothing otherwise |
| Appointment.PhoneRule | wcp-site/src/components/organisms/Appointment.jsx:45 | `phone` has an error exactly when blank after trim |
| Appointment.ReasonRule | wcp-site/src/components/organisms/Appointment.jsx:47 | `appointmentReason` has an error exactly when empty |
| Appointment.DateRule | wcp-site/src/components/organisms/Appointment.jsx:48 | `desiredDate` has an error exactly when empty |
| Appointment.TimeRule | wcp-site/src/components/organisms/Appointment.jsx:49 | `desiredTime` has an error exactly when empty |
| Appointment.NotesRule | wcp-site/src/components/organisms/Appointment.jsx:39-53 | `notes` never has an error |
| Appointment.ValidationRules | wcp-site/src/components/organisms/Appointment.jsx:42-49 | all of the above for one validation pass |
| Appointment.NotesIgnored | wcp-site/src/components/organisms/Appointment.jsx:39-53 | whatever the notes hold, the validation result is the same |
| Appointment.AppointmentForm.constructor | wcp-site/src/components/organisms/Appointment.jsx:20-31 | starts from the defaults, no errors, not submitting, status `null` |
| Appointment.AppointmentForm.HandleChange | wcp-site/src/components/organisms/Appointment.jsx:33-37 | sets exactly the named field and removes only its error |
| Appointment.AppointmentForm.Validate | wcp-site/src/components/organisms/Appointment.jsx:39-53 | replaces the whole error map by `ValidationErrors` and returns true exactly when it is empty |
| Appointment.AppointmentForm.HandleSubmit | wcp-site/src/components/organisms/Appointment.jsx:55-80 | failed validation: nothing sent. Otherwise `formData` is sent as is; 201 gives success, the seven defaults and no errors; another status leaves the status `null` and the data unchanged; a thrown error gives status error and only the `general` message. Not submitting afterwards in every case |
| Register.Defaults | wcp-site/src/components/organisms/Register.jsx:12-19 | five empty strings and `privacyAccepted` false |
| Register.FieldError | wcp-site/src/components/organisms/Register.jsx:38-46 | no rule's message is empty |
| Register.ValidationErrors | wcp-site/src/components/organisms/Register.jsx:35-50 | an entry exactly for each field whose rule fails, with that rule's message, and no `general` |
| Register.FullNameRule | wcp-site/src/components/organisms/Register.jsx:38 | `fullName` has an error exactly when blank after trim |
| Register.EmailFieldRule | wcp-site/src/components/organisms/Register.jsx:39-40 | the "required" message when blank, the "format" message when not matching, nothing otherwise |
| Register.PhoneRule | wcp-site/src/components/organisms/Register.jsx:41 | `phone` has an error exactly when blank after trim |
| Register.PasswordRule | wcp-site/src/components/organisms/Register.jsx:43 | `password` has an error exactly when it has fewer than 6 UTF-16 code units, untrimmed |
| Register.ConfirmRule | wcp-site/src/components/organisms/Register.jsx:44 | `confirmPassword` has an error exactly when it differs from `password` |
| Register.ConsentFieldRule | wcp-site/src/components/organisms/Register.jsx:46 | `privacyAccepted` has the consent message exactly when false |
| Register.ValidationRules | wcp-site/src/components/organisms/Register.jsx:38-46 | all of the above for one validation pass |
| Register.DataToSend | wcp-site/src/components/organisms/Register.jsx:62 | the posted object has no `confirmPassword`, and every other key with its value unchanged |
| Register.SentPasswordConfirmed | wcp-site/src/components/organisms/Register.jsx:43-62 | a registration that passes validation sends a password of at least 6 code units, equal to the confirmation, with the box ticked, and does not send the confirmation |
| Register.RegisterForm.constructor | wcp-site/src/components/organisms/Register.jsx:12-22 | starts from the defaults, no errors, not submitting, status `null` |
| Register.RegisterForm.HandleChange | wcp-site/src/components/organisms/Register.jsx:24-28 | sets exactly the named field and removes only its error |
| Register.RegisterForm.HandleCheckboxChange | wcp-site/src/components/organisms/Register.jsx:30-33 | sets the consent boolean and removes only the consent error |
| Register.RegisterForm.Validate | wcp-site/src/components/organisms/Register.jsx:35-50 | replaces the whole error map by `ValidationErrors` and returns true exactly when it is empty |
| Register.RegisterForm.HandleSubmit | wcp-site/src/components/organisms/Register.jsx:52-81 | failed validation: nothing sent. Otherwise `formData` without `confirmPassword` is sent; 201 gives success and the defaults, both passwords included; another status changes nothing; a thrown 409 gives status error, the data kept, and only the `email` message; any other thrown error gives status error and no message |
| Login.Storage.SetItem | wcp-site/src/components/organisms/Login.jsx:53 | stores the value under the key and keeps every other item |
| Login.Defaults | wcp-site/src/components/organisms/Login.jsx:12-15 | two empty strings |
| Login.FieldError | wcp-site/src/components/organisms/Login.jsx:28-30 | no rule's message is empty |
| Login.ValidationErrors | wcp-site/src/components/organisms/Login.jsx:26-34 | an entry exactly for each field whose rule fails, with that rule's message, and no `general` |
| Login.EmailFieldRule | wcp-site/src/components/organisms/Login.jsx:28-29 | the "required" message when blank, the "format" message when not matching, nothing otherwise |
| Login.PasswordRule | wcp-site/src/components/organisms/Login.jsx:30 | `password` has the "required" message exactly when empty; a password of spaces passes |
| Login.ValidationRules | wcp-site/src/components/organisms/Login.jsx:28-30 | all of the above for one validation pass |
| Login.LoginForm.constructor | wcp-site/src/components/organisms/Login.jsx:11-18 | starts from the defaults, no errors, not submitting, status `null`, with the given storage and callback flag |
| Login.LoginForm.HandleChange | wcp-site/src/components/organisms/Login.jsx:20-24 | sets exactly the named field and removes only its error |
| Login.LoginForm.Validate | wcp-site/src/components/organisms/Login.jsx:26-34 | replaces the whole error map by `ValidationErrors` and returns true exactly when it is empty |
| Login.LoginForm.HandleSubmit | wcp-site/src/components/organisms/Login.jsx:36-68 | the data is never reset. Failed validation: nothing sent and storage untouched. Otherwise `formData` is sent; 200 gives success, stores the token under `authToken` and hands the user to the callback exactly when one was given; any other outcome leaves storage alone and calls no callback. A thrown 401 sets only `general` to the credentials message; other thrown errors set status error only |

## Left out

- Rendering: the JSX, and all atoms and molecules (buttons, inputs,
  labels, `FormGroup`). They only assemble markup and class names.
- The HTTP layer: `axios`, the browser's `FormData` and `File` objects. The
  reply is the `outcome` parameter, a multipart body is a sequence of
  named text or file parts, and files are opaque references.
- `wcp-site/src/network/Axios.jsx` is not part of this model. None of the
  forms import it.
- Console logging, the DOM reset `e.target.value = null`, and the Google
  redirect of `handleGoogleLogin`.
- The content of a reply beyond its status: the login token and user are
  parameters of `Login.LoginForm.HandleSubmit`.
- React's batching and asynchrony. Each `setState` is an immediate
  assignment, and `handleSubmit` runs from the submit event to its
  `finally` block in one step. An edit made while a submission is in
  flight is therefore not modelled. `Valid()` requires no submission in
  flight between events, and the disabled submit button that keeps a
  second submission from starting is a property of the markup.
- HTML attributes such as `required` and `min`, which the browser enforces
  and `validate` does not.
- Login.LoginForm.HandleSubmit: `localStorage.setItem` and the
  `onLoginSuccess` callback are taken not to throw. In the code a throw from
  either one reaches the `catch` block and turns the status from success to
  error; the model's 200 branch always ends in success.
- Validators.IsSpace: white space is the ECMAScript set of code points
  listed in the function. Unicode normalisation plays no part.
- Validators.JsParseInt: a value beyond the range of a double is not
  rounded. For the rules only the sign and zero-ness of the result matter,
  and those are exact.
- HandleChange (every form): the handler is only wired to the form's text
  inputs, so the model requires a string field; the checkbox and the file
  input have their own handlers.
- The `validate` functions are a chain of `if` statements writing into
  `errors`. They are modelled as one rule per field (`FieldError`), applied
  by the loop `FormCore.CollectErrors` in declared field order. The two
  agree because each `if` writes only its own field's key.
