# Three-step registration wizard, in Dafny

This project models the core of a small React/Redux registration wizard. The
user fills in personal information, then an address, then a credit card. Each
step is a form with a Yup rule table. Submitting a form either advances the
wizard or shows one error message per failing field.

The model has three layers:

- **Store** (`form_slice.dfy`, `form_types.dfy`): the Redux slice. It holds the
  current step (1 to 3), one four-field record per step and one error map per
  step. It is a class, `FormSlice.Store`, whose methods are the six reducers.
  Each method states the whole new state as a function of the old one.
- **Rules** (`validation.dfy`, `card_patterns.dfy` and one file per form): each
  form's `validationSchema` is a `Validation.Schema` value. `Validation.Failures`
  gives the set of (path, message) pairs the library reports when it runs with
  `abortEarly: false`. `Validation.ErrorMapOf` is the `error.inner.reduce`
  fold. The three regular expressions of the payment form are predicates on
  characters.
- **Session** (`wizard.dfy`): the mounted form, as a class `Wizard.Session`.
  It holds the store and the mounted form's local error map. Its methods are
  the field edits, the three submit handlers and the Previous button.

Yup's `validate` is library code outside this model. Each submit handler
therefore takes the validation outcome as a parameter, and
`Validation.Conforms` constrains it: the outcome passes exactly when no rule
fails, and a `ValidationError` lists every failure and nothing else, in any
order. `Validation.Validate` is a reference evaluation that meets this contract
for every record. The email rule is Yup's `email()`: a pattern test that
skips the empty string, whose pattern is the parameter `isEmail`. An empty
email therefore fails only its required rule.

The model follows the code on these points:

- The forms keep their errors in local component state (`useState`) and never
  dispatch the slice's `setErrors`. The store's `errors` field is modelled, but
  only `Store.SetErrors` writes it, and every `Session` method leaves it
  unchanged.
- Field edits replace the whole record (`{ ...address, street: value }`) with
  one field changed. There is no per-field reducer.
- The country is only required to be non-empty. It is never checked against
  the loaded country list (`AddressForm.CountryOnlyRequired`).
- A successful payment submit signals completion every time it happens. The
  step stays at 3 and nothing prevents a second signal (`completions` counts
  them).

## Model

| member | source | states |
|---|---|---|
| FormTypes.PersonalInfo.Values | src/types/form.ts:1-6 | the field view of a personal-information record has exactly the keys firstName, lastName, email and phone |
| FormTypes.Address.Values | src/types/form.ts:8-13 | the field view of an address has exactly the keys street, city, country and postalCode |
| FormTypes.CreditCard.Values | src/types/form.ts:15-20 | the field view of a card has exactly the keys cardNumber, cardHolder, expiryDate and cvv |
| FormTypes.RecordsAreTheirFields | src/types/form.ts:1-20 | each record is determined by its four named fields: equal field views mean equal records |
| FormTypes.PersonalInfo.With | src/components/PersonalInfoForm.tsx:46-48 | `{ ...personalInfo, name: value }` changes the named field to the value and leaves the other three fields as they were |
| FormTypes.Address.With | src/components/AddressForm.tsx:56 | `{ ...address, name: value }` changes the named field and no other |
| FormTypes.CreditCard.With | src/components/CreditCardForm.tsx:58-62 | `{ ...creditCard, name: value }` changes the named field and no other |
| FormTypes.Step.Number | src/App.tsx:17 | the steps are numbered 1, 2 and 3 |
| FormTypes.StepAt | src/App.tsx:50-52 | a form is mounted exactly when the current step is 1, 2 or 3, and the form mounted for step k is step k's form |
| FormTypes.IsPartialOf | src/types/form.ts:27-31 | `Partial<R>` of a record as an error map: its keys are some of the record's field names, each with a string message |
| FormTypes.FormErrors.WellTyped | src/types/form.ts:27-31 | each step's error map is a partial record of that step's type; `Store.Valid` keeps it, and `MergeErrors` preserves it |
| FormSlice.InitialState | src/store/formSlice.ts:4-29 | the initial state is step 1, all twelve record fields "", and all three error maps empty |
| FormSlice.StepAfter | src/store/formSlice.ts:44-53 | the step after one nextStep or previousStep, clamped to [1, 3]: from a step in [1, 3] it stays in [1, 3] (exact increments in `MovesAreClamped`) |
| FormSlice.MovesAreClamped | src/store/formSlice.ts:44-53 | nextStep adds exactly one when below 3 and is a no-op at 3; previousStep subtracts exactly one when above 1 and is a no-op at 1 |
| FormSlice.StepsStayInRange | src/store/formSlice.ts:44-53 | from any step in [1, 3], every sequence of nextStep and previousStep stays in [1, 3] |
| FormSlice.StepsFromStartStayInRange | src/store/formSlice.ts:5 | from the initial step, every sequence of moves stays in [1, 3] |
| FormSlice.StepRisesAtMostOnePerMove | src/store/formSlice.ts:44-48 | each move raises the step by at most one |
| FormSlice.NextThenPrevious | src/store/formSlice.ts:44-53 | nextStep then previousStep returns to the start exactly when the start is step 1 or 2 |
| FormSlice.MergeErrors | src/store/formSlice.ts:54-56 | the shallow merge takes each step's error map from the payload when the payload names that step, and from the old state otherwise; it keeps every map a partial record of its step's type |
| FormSlice.MergeErrorsIdempotent | src/store/formSlice.ts:54-56 | applying the same setErrors payload twice is the same as applying it once |
| FormSlice.Store.constructor | src/store/formSlice.ts:4-29 | a new store holds the initial state |
| FormSlice.Store.SetPersonalInfo | src/store/formSlice.ts:35-37 | replaces the personal-information record with the payload; step, other records and errors unchanged |
| FormSlice.Store.SetAddress | src/store/formSlice.ts:38-40 | replaces the address with the payload; everything else unchanged |
| FormSlice.Store.SetCreditCard | src/store/formSlice.ts:41-43 | replaces the card with the payload; everything else unchanged |
| FormSlice.Store.NextStep | src/store/formSlice.ts:44-48 | the step becomes the clamped successor; records and errors unchanged; the step stays in [1, 3] |
| FormSlice.Store.PreviousStep | src/store/formSlice.ts:49-53 | the step becomes the clamped predecessor; records and errors unchanged; the step stays in [1, 3] |
| FormSlice.Store.SetErrors | src/store/formSlice.ts:54-56 | the error maps become the shallow merge of the old maps and the payload; step and records unchanged |
| CardPatterns.IsCardNumber | src/components/CreditCardForm.tsx:10 | `/^\d{16}$/`: exactly sixteen ASCII digits and nothing else (examples in `PatternExamples`) |
| CardPatterns.IsExpiry | src/components/CreditCardForm.tsx:14 | `/^(0[1-9]\|1[0-2])\/([0-9]{2})$/`, position by position (characterized in `ExpiryIsMonthAndYear`) |
| CardPatterns.IsCvv | src/components/CreditCardForm.tsx:17 | `/^\d{3,4}$/`: three or four ASCII digits and nothing else (examples in `PatternExamples`) |
| CardPatterns.ExpiryIsMonthAndYear | src/components/CreditCardForm.tsx:14 | the expiry pattern accepts a string exactly when it is MM/YY with MM a month 01 to 12 and YY any two digits |
| CardPatterns.TwoDigitsOfDigits | src/components/CreditCardForm.tsx:14 | two digit characters read as a number from 0 to 99 that renders back to the same two characters |
| CardPatterns.PatternExamples | src/components/CreditCardForm.tsx:10-17 | the spaced placeholder card number is rejected and the same digits without spaces accepted; month 13 and month 00 are rejected; CVVs of 3 and 4 digits pass, CVVs of 2 or 5 characters or with a letter fail; no pattern accepts "" |
| Validation.RuleFails | src/components/PersonalInfoForm.tsx:8-11 | required rejects exactly ""; a `matches` rule rejects every string its pattern does not match, "" included; `email()` rejects a non-empty string that is not email-shaped and never rejects "" |
| Validation.FailedMessages | src/components/PersonalInfoForm.tsx:22 | the messages of all rules of a field that reject its value, every rule being run (characterized in `FailedMessagesMeaning`) |
| Validation.Failures | src/components/PersonalInfoForm.tsx:22 | the (path, message) pairs of every failing rule of every field under `abortEarly: false` (characterized in `FailuresMeaning`) |
| Validation.Write | src/components/PersonalInfoForm.tsx:28-30 | the reducer body: a truthy path stores its message, overwriting any earlier one; an absent or empty path writes nothing |
| Validation.ErrorMapOf | src/components/PersonalInfoForm.tsx:27-32 | `error.inner.reduce(..., {})` as a left fold of `Write` from the empty map (last write wins: `ErrorMapLastWrite`, keys: `ErrorMapKeys`) |
| Validation.FailedMessagesMeaning | src/components/PersonalInfoForm.tsx:22 | a field fails with a message exactly when some rule carrying that message rejects its value, since every rule is run |
| Validation.FailuresMeaning | src/components/PersonalInfoForm.tsx:22 | the reported failures are exactly the pairs (path, message) of a field and a rule of that field that rejects the field's value: no failure hides another |
| Validation.ErrorMapLastWrite | src/components/PersonalInfoForm.tsx:27-32 | every key of the folded map is a non-empty path, and its message is that of the last issue on that path |
| Validation.ErrorMapHasPath | src/components/PersonalInfoForm.tsx:28-30 | every issue with a non-empty path puts that path into the folded map |
| Validation.ErrorMapKeys | src/components/PersonalInfoForm.tsx:27-32 | the folded map's keys are exactly the non-empty paths of the issues |
| Validation.FailuresAreOnFields | src/components/PersonalInfoForm.tsx:7-12 | every failure is on a path of the schema |
| Validation.FailureMapIsExact | src/components/PersonalInfoForm.tsx:25-33 | after a complete failure report, the folded map has exactly one key per failing field, and each entry is a failure of that field |
| Validation.MessagesAtField | src/components/PersonalInfoForm.tsx:7-12 | when the schema's paths are distinct, the messages reported on a field's path are exactly the messages of that field's failing rules |
| Validation.ErrorEntry | src/components/PersonalInfoForm.tsx:27-33 | a path has an entry in the folded map exactly when some message is reported on it, and the entry is one of those messages |
| Validation.EntryOfTwo | src/components/CreditCardForm.tsx:34-43 | on a path that can fail with two messages, each under its own condition, the entry exists exactly when one condition holds, and holds a message whose condition holds |
| Validation.EntryOfOne | src/components/AddressForm.tsx:37-43 | on a path with a single rule, the entry exists exactly when the rule fails, and holds that rule's message |
| Validation.ErrorKeysAreNames | src/components/AddressForm.tsx:37-43 | after a complete failure report, the folded map's keys are exactly the failing fields, all of them paths of the schema |
| Validation.RuleMessages | src/components/CreditCardForm.tsx:8-10 | a field with one or two rules fails with each rule's message exactly when that rule rejects the value |
| Validation.ReportsAppend | src/components/PersonalInfoForm.tsx:22 | two issue lists that each report a failure set report their union when one follows the other |
| Validation.PairsOfParts | src/components/PersonalInfoForm.tsx:7-12 | pairing a path with messages distributes over union, and pairs nothing with no messages |
| Validation.OneRuleField | src/components/AddressForm.tsx:9 | a one-rule field fails with one pair exactly when its rule rejects the value |
| Validation.TwoRuleField | src/components/PersonalInfoForm.tsx:10 | a two-rule field fails with the pair of each rule that rejects the value |
| Validation.FailuresOfFour | src/components/AddressForm.tsx:8-13 | a four-field schema fails with the union of its four fields' failures |
| Validation.FieldIssues | src/components/PersonalInfoForm.tsx:22 | the issues one field raises, rule by rule, report exactly that field's failures |
| Validation.SchemaIssues | src/components/PersonalInfoForm.tsx:22 | the issues a schema raises, field by field, report exactly the schema's failures |
| Validation.Validate | src/components/PersonalInfoForm.tsx:21-26 | the reference evaluation meets the library's contract on every record, resolves exactly when nothing fails, and never throws anything but a ValidationError |
| PersonalInfoForm.SchemaCoversRecord | src/components/PersonalInfoForm.tsx:7-12 | the rule table has one non-empty path per field of the record, all distinct, and no other |
| PersonalInfoForm.FieldFailures | src/components/PersonalInfoForm.tsx:8-11 | each field's failures: firstName, lastName and phone fail with their own message exactly when empty; email fails with "Email is required" when empty and with "Invalid email" when non-empty and not email-shaped |
| PersonalInfoForm.RecordFailures | src/components/PersonalInfoForm.tsx:7-12 | the full failure set of a record is the union of those per-field failures |
| PersonalInfoForm.FieldMessages | src/components/PersonalInfoForm.tsx:8-11 | the messages reported on each path: the required message of firstName, lastName and phone when empty; for email, "Email is required" when empty and "Invalid email" when non-empty and not email-shaped, never both |
| PersonalInfoForm.ErrorKeys | src/components/PersonalInfoForm.tsx:27-33 | after a failed submit the error map's keys are exactly the failing fields, all fields of the record |
| PersonalInfoForm.ErrorsAfterFailure | src/components/PersonalInfoForm.tsx:25-34 | after a failed submit the error map has an entry exactly for each failing field; firstName, lastName and phone show their required message; an empty email shows "Email is required" and a non-empty malformed one "Invalid email" |
| PersonalInfoForm.OnlyFirstNameFilled | src/components/PersonalInfoForm.tsx:25-34 | with only firstName filled, the error map's keys are exactly lastName, email and phone, and email shows "Email is required" |
| PersonalInfoForm.CompleteRecordPasses | src/components/PersonalInfoForm.tsx:7-12 | a complete record with an email-shaped address raises no failure |
| AddressForm.SchemaCoversRecord | src/components/AddressForm.tsx:8-13 | the rule table has one non-empty path per field of the address, all distinct, and no other |
| AddressForm.FieldFailures | src/components/AddressForm.tsx:9-12 | each address field fails with its own message exactly when empty |
| AddressForm.RecordFailures | src/components/AddressForm.tsx:8-13 | the full failure set of an address is the union of those per-field failures |
| AddressForm.CountryOnlyRequired | src/components/AddressForm.tsx:11 | two addresses that differ only in a non-empty country fail in the same way: the country list plays no part |
| AddressForm.FieldMessages | src/components/AddressForm.tsx:9-12 | each address field is reported with its own required message exactly when empty |
| AddressForm.ErrorKeys | src/components/AddressForm.tsx:37-43 | after a failed submit the error map's keys are exactly the failing fields, all fields of the address |
| AddressForm.ErrorsAfterFailure | src/components/AddressForm.tsx:35-44 | after a failed submit the error map has an entry, with that field's message, exactly for each empty field |
| CreditCardForm.SchemaCoversRecord | src/components/CreditCardForm.tsx:7-18 | the rule table has one non-empty path per field of the card, all distinct, and no other |
| CreditCardForm.FieldFailures | src/components/CreditCardForm.tsx:8-17 | each card field fails its required rule exactly when empty and its pattern exactly when the pattern does not match |
| CreditCardForm.RecordFailures | src/components/CreditCardForm.tsx:7-18 | the full failure set of a card is the union of those per-field failures |
| CreditCardForm.CardNumberMessages | src/components/CreditCardForm.tsx:8-10 | the card number fails with the required message when empty and with the 16-digit message when not sixteen digits |
| CreditCardForm.CardHolderMessages | src/components/CreditCardForm.tsx:11 | the card holder fails with its required message exactly when empty |
| CreditCardForm.ExpiryDateMessages | src/components/CreditCardForm.tsx:12-14 | the expiry date fails with the required message when empty and with the MM/YY message when the pattern does not match |
| CreditCardForm.CvvMessages | src/components/CreditCardForm.tsx:15-17 | the CVV fails with the required message when empty and with the 3-or-4-digit message when the pattern does not match |
| CreditCardForm.CardNumberEntry | src/components/CreditCardForm.tsx:34-43 | after a failed submit, cardNumber has an entry exactly when it is not sixteen digits, holding the required message only when empty |
| CreditCardForm.CardHolderEntry | src/components/CreditCardForm.tsx:34-43 | after a failed submit, cardHolder has an entry exactly when empty, holding its required message |
| CreditCardForm.ExpiryDateEntry | src/components/CreditCardForm.tsx:34-43 | after a failed submit, expiryDate has an entry exactly when it is not MM/YY with month 01 to 12, holding the required message only when empty |
| CreditCardForm.CvvEntry | src/components/CreditCardForm.tsx:34-43 | after a failed submit, cvv has an entry exactly when it is not 3 or 4 digits, holding the required message only when empty |
| CreditCardForm.ErrorKeys | src/components/CreditCardForm.tsx:34-43 | after a failed submit the error map's keys are exactly the failing fields, all fields of the card |
| CreditCardForm.MonthThirteenFails | src/components/CreditCardForm.tsx:7-18 | the card 1234567890123456 / A B / 13/29 / 123 cannot pass validation |
| CreditCardForm.OnlyExpiryWrong | src/components/CreditCardForm.tsx:34-43 | when only a non-empty expiry date is wrong, the error map is exactly expiryDate mapped to "Invalid expiry date (MM/YY)" |
| CreditCardForm.SoleEntry | src/components/CreditCardForm.tsx:34-43 | an error map over the card's fields with no cardNumber, cardHolder or cvv entry is the single expiryDate entry |
| CreditCardForm.MonthThirteenErrors | src/components/CreditCardForm.tsx:34-43 | for the card 1234567890123456 / A B / 13/29 / 123 the error map's only key is expiryDate, with the MM/YY message |
| Wizard.Session.constructor | src/store/formSlice.ts:4-29 | the app starts with a fresh store in `InitialState()` (step 1, blank records, empty store errors), the first form's local error map empty (its `useState({})`) and no completion signalled |
| Wizard.Session.EditPersonalInfo | src/components/PersonalInfoForm.tsx:46-48 | typing into one personal-information input replaces the record with one that differs in that field only; nothing else changes |
| Wizard.Session.EditAddress | src/components/AddressForm.tsx:56 | typing into one address input replaces the address with one that differs in that field only; nothing else changes |
| Wizard.Session.EditCreditCard | src/components/CreditCardForm.tsx:58-62 | typing into one card input replaces the card with one that differs in that field only; nothing else changes |
| Wizard.Session.SubmitPersonalInfo | src/components/PersonalInfoForm.tsx:19-36 | on success the local errors are cleared and the step becomes 2; on a ValidationError the local errors become the fold of the failures, keyed by exactly the failing fields, and the store is unchanged; any other error changes nothing |
| Wizard.Session.SubmitAddress | src/components/AddressForm.tsx:29-46 | on success the local errors are cleared and the step becomes 3; on a ValidationError the local errors become the fold, keyed by exactly the failing fields, and the store is unchanged; any other error changes nothing |
| Wizard.Session.SubmitCreditCard | src/components/CreditCardForm.tsx:25-46 | the store never changes; on success the local errors are cleared and completion is signalled once more; on a ValidationError the local errors become the fold, keyed by exactly the failing fields; any other error changes nothing |
| Wizard.Session.Previous | src/components/AddressForm.tsx:117-122 | dispatches previousStep and nothing else: the step drops by one, records and store errors are unchanged, and the newly mounted form's errors start empty |

## Left out

- `src/services/api.ts` (`getCountries`, `getCities`) and the country load in
  `AddressForm`'s `useEffect`: an HTTP call and an unused mock table. The
  country list has no bearing on validation.
- `src/App.tsx` beyond the rule that the form of step k is mounted exactly when
  the current step is k. The progress indicator and all JSX and CSS are
  presentation.
- Yup's internals. The pattern of its `email()` rule is the parameter
  `isEmail`; the rule's skipping of "" is modelled. Which message wins when a
  card field fails two rules is left open: the lemmas only say the shown
  message is one of that field's failing messages.
- Validation.Conforms: does not fix the order, or any repetition, of the issues
  in `error.inner`, because that order is Yup's choice. Every property is
  proved for every order.
- `async`/`await`: each submit is one atomic step. Interleaving a submit with
  an edit made while validation is pending is not modelled.
- `console.log` and `window.alert` on a successful payment: the model counts
  these signals in `Session.completions` and does not model the text.
- Wizard.Session.EditPersonalInfo, EditAddress, EditCreditCard, SubmitPersonalInfo, SubmitAddress, SubmitCreditCard, Previous: each requires the step whose form holds the input or button, because a form that is not mounted cannot receive events.
- FormSlice.Store.SetErrors: a payload key present with the value `undefined`
  is not modelled; the payload names a step or leaves it out.
- The React lifecycle beyond remounting. A re-rendered form keeps its errors,
  and a remounted form starts with none. Nothing else about rendering is
  modelled.
