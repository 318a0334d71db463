# Onboarding wizard — a verified Dafny model

This project models the client-onboarding wizard of the CompanyChat
registration site, plus the small pieces of the admin side that compute
with its records. The model covers:

- the Brazilian field validators and input masks (CPF and CNPJ tax IDs with
  their module-11 check digits, e-mail, phone, URL and currency amounts);
- the step schema, with its closed step list, progress and label tables and the
  initial form record;
- the validation, list editing and display logic of each wizard step:
  company, personalization, integration, digital presence, materials and
  review;
- the orchestrator: step wiring, the shallow `updateFormData` merge, and
  the draft save/restore through local storage with its 24-hour expiry;
  the submission with its success and retry paths;
- the submission pipeline: the database record, the best-effort webhook,
  the webhook-URL fallback and `finalizarCadastro`'s partial-failure
  rules;
- the registration-status table, the dashboard statistics and the
  sign-up page's guards.

One Dafny module per source file:

| module | file | models |
|---|---|---|
| `Text`, `Lists`, `Wrappers` | shared | JavaScript string and array helpers: `\s`, `trim`, `split`, `join`, `filter`; the check-box toggle; removal by index; `Option` |
| `Validation` | validation.dfy | src/utils/validation.ts |
| `Masks` | masks.dfy | src/utils/masks.ts |
| `QuizTypes` | quiz_types.dfy | src/types/quiz.ts, plus the record merge, snapshot and restore of Quiz.tsx |
| `FieldErrors` | field_errors.dfy | the `{ field: message }` error objects the steps keep |
| `CompanyStep`, `PersonalizationStep`, `IntegrationStep`, `DigitalStep`, `MaterialsStep`, `ReviewStep` | company.dfy … review.dfy | the step components |
| `Quiz` | quiz.dfy | src/components/quiz/Quiz.tsx |
| `CadastroService` | cadastro_service.dfy | src/services/cadastroService.ts |
| `StatusCadastro` | status_cadastro.dfy | src/constants/statusCadastro.ts |
| `Dashboard`, `Register` | dashboard.dfy, register.dfy | src/pages/Dashboard.tsx, src/pages/Register.tsx |

Each kind of code has its own form in the model:

- Pure code becomes functions and lemmas.
- The two checksum routines keep their loops, as methods proved equal to a
  specification predicate.
- Each component's mutable state becomes a class with `modifies` clauses:
  - React `useState` cells are its fields;
  - the orchestrator's local storage is a `map` field;
  - the database table and the webhook log are fields of
    `CadastroService.Backend`.
- The outside world is passed in as parameters:
  - the clock (`now`, `isoTime`);
  - the outcome of a network call or an insert (`sendSucceeds`, `InsertOutcome`, `FetchOutcome`, `SignUpOutcome`);
  - the settings lookup (`ConfigLookup`);
  - the files dropped or picked.

The form record is modelled the way the components use it at run time.
`FormData` declares neither `agreedValue` nor `existingSolutions`, and the
initial record lacks both. Yet `CompanyStep.tsx`, `IntegrationStep.tsx` and
`Quiz.tsx` read and write them. The record therefore carries them as
`Option` fields, `None` being an undefined key. Each file is modelled as
written, with no attempt to reconcile the drift between files. The effects
of the drift are proved:

- `IntegrationStep` throws on the initial record (`IntegrationStep.StuckOnInitialRecord`);
- the wiring leads from personalization to an `integration` step that is no `QuizStep` (`Quiz.WiredStepOutsideEnumeration`);
- `MaterialsStep` receives `onSubmit`/`isSubmitting` but calls the `onNext` it is not given, so nothing leads past materials and `handleSubmit` is not reachable through the wiring (`Quiz.WiringOrder`);
- `ReviewStep` is modelled on its own, since nothing renders it.

The company step's amount check is modelled as written too: `validateForm`
and `handleSubmit` compare the amount with the literal of
CompanyStep.tsx:155, which lets a masked zero through. The check that line
evidently intends is stated beside it (`CompanyStep.AgreedValueMissing`,
`CompanyStep.CompanyValidIntended`) and related to the written one; see
"## Findings".

## Model

| member | source | states |
|---|---|---|
| Validation.CpfCheckDigit | src/utils/validation.ts:12-13 | the CPF check digit `(sum × 10) mod 11`, with 10 read as 0, is always one decimal digit |
| Validation.CnpjCheckDigit | src/utils/validation.ts:41-42 | the CNPJ check digit (0 for a remainder below 2, else 11 minus the remainder) is always one decimal digit |
| Validation.ValidateCPF | src/utils/validation.ts:2-25 | the two accumulation loops with early returns decide exactly the CPF rule: 11 digits after stripping, not one repeated digit, both weighted module-11 check digits correct |
| Validation.ValidateCNPJ | src/utils/validation.ts:28-54 | the loops over both weight tables decide exactly the CNPJ rule: 14 non-uniform digits and both check digits correct |
| Validation.TaxIdIgnoresFormatting | src/utils/validation.ts:3-5 | two inputs with the same digit subsequence get the same CPF and the same CNPJ verdict |
| Validation.RepeatedDigitsRejected | src/utils/validation.ts:6 | a single repeated digit is refused by both validators |
| Validation.RepetitionGuardNeeded | src/utils/validation.ts:6-22 | `11111111111` has correct check digits, so only the repetition guard refuses it |
| Validation.CpfSumsExpanded | src/utils/validation.ts:8-19 | the two CPF sums are Σ c[i]·(10−i) over nine digits and Σ c[i]·(11−i) over ten |
| Validation.CnpjSum1Expanded | src/utils/validation.ts:34-40 | the first CNPJ sum uses the weights 5,4,3,2,9,8,7,6,5,4,3,2 |
| Validation.CnpjSum2Expanded | src/utils/validation.ts:35-48 | the second CNPJ sum uses the weights 6,5,4,3,2,9,8,7,6,5,4,3,2 |
| Validation.KnownValidCPF | src/utils/validation.ts:2-25 | a CPF with correct check digits (111.444.777-35) is accepted |
| Validation.WrongCpfDigitRejected | src/utils/validation.ts:20-22 | the same CPF with a wrong last digit is refused |
| Validation.KnownValidCNPJ | src/utils/validation.ts:28-54 | a CNPJ with correct check digits (11.222.333/0001-81) is accepted |
| Validation.WrongCnpjDigitRejected | src/utils/validation.ts:49-51 | the same CNPJ with a wrong last digit is refused |
| Validation.EmailRegexMeaning | src/utils/validation.ts:57-60 | the e-mail expression accepts exactly the strings with no whitespace, one `@`, a non-empty local part and a domain holding a `.` that is neither its first nor its last character |
| Validation.ValidateUrl | src/utils/validation.ts:69-78 | the empty string and every `@handle` are accepted; any other string is decided by the host/path expression alone |
| Validation.RemoveCurrencyNoise | src/utils/validation.ts:88 | after cleaning, no `R`, `$`, whitespace or `.` is left |
| Validation.ReplaceFirstSplit | src/utils/validation.ts:88 | only the leftmost `,` becomes `.` |
| Validation.LeadingDigits | src/utils/validation.ts:89 | `parseFloat` reads the longest prefix of digits |
| Validation.ParseDecimalNumeral | src/utils/validation.ts:89 | a cleaned numeral `ip.fp` parses to its decimal value |
| Validation.ParseCurrencyOfNumeral | src/utils/validation.ts:87-89 | an amount that cleans to `ip.fp` parses to that value |
| Validation.NoDigitsParsesToZero | src/utils/validation.ts:81-89 | a text without digits parses to 0, never NaN, and does not validate |
| Validation.DecimalValueWhole | src/utils/validation.ts:89 | a fraction of zeros adds nothing to the value |
| Validation.OnlyFirstCommaConverted | src/utils/validation.ts:88-89 | `1,2,3` cleans to `1.2,3` and parses to 1.2: later commas stop the number |
| Masks.Unmask | src/utils/masks.ts:55-57 | `unmask` leaves only digits |
| Masks.UnmaskMasks | src/utils/masks.ts:55-57 | `unmask` undoes each mask up to its truncation, and is idempotent |
| Masks.MaskCPFDigits | src/utils/masks.ts:2-8 | the digits of a masked CPF are the first 11 digits typed |
| Masks.MaskCNPJDigits | src/utils/masks.ts:11-18 | the digits of a masked CNPJ are the first 14 digits typed |
| Masks.MaskPhoneDigits | src/utils/masks.ts:30-40 | the digits of a masked phone are the first 11 digits typed |
| Masks.MaskCPFIdempotent | src/utils/masks.ts:2-8 | masking a masked CPF changes nothing |
| Masks.MaskCNPJIdempotent | src/utils/masks.ts:11-18 | masking a masked CNPJ changes nothing |
| Masks.MaskPhoneIdempotent | src/utils/masks.ts:30-40 | masking a masked phone changes nothing |
| Masks.MaskCpfCnpjIdempotent | src/utils/masks.ts:21-27 | masking a masked tax ID changes nothing, in both branches |
| Masks.MaskCpfCnpjBranches | src/utils/masks.ts:21-27 | the CPF mask applies up to 11 digits, the CNPJ mask beyond |
| Masks.MaskKeepsTaxIdVerdict | src/utils/masks.ts:2-18 | within the mask's length, masking never changes the CPF or CNPJ verdict |
| Masks.MaskPhoneKeepsVerdict | src/utils/masks.ts:30-40 | a masked phone validates exactly when at least ten digits were typed; up to eleven the mask keeps the verdict |
| Masks.CpfFirstDot | src/utils/masks.ts:5 | the first CPF replacement puts a `.` after the third digit once a fourth exists |
| Masks.CpfSecondDot | src/utils/masks.ts:6 | the second CPF replacement puts a `.` after the sixth digit once a seventh exists |
| Masks.CpfDash | src/utils/masks.ts:7 | the final CPF replacement changes nothing up to six digits and otherwise completes the reference layout, whose `-` comes before the last one or two digits from ten digits on |
| Masks.MaskCPFShape | src/utils/masks.ts:2-8 | the CPF mask lays out the first 11 digits band by band |
| Masks.MaskCPFFull | src/utils/masks.ts:2-8 | eleven digits fit the template `###.###.###-##` (`CpfTemplate`) character by character |
| Masks.CnpjSecondDot | src/utils/masks.ts:14-15 | after the first dot (after the second digit), the second replacement places a `.` after the fifth digit once a sixth exists |
| Masks.CnpjSlash | src/utils/masks.ts:16 | the third CNPJ replacement finds nothing up to five digits, and places the `/` after the eighth digit once a ninth exists |
| Masks.CnpjDash | src/utils/masks.ts:17 | the final CNPJ replacement completes the reference layout on every band, whose `-` comes before the last one or two digits from 13 digits on |
| Masks.MaskCNPJShape | src/utils/masks.ts:11-18 | the CNPJ mask lays out the first 14 digits band by band |
| Masks.MaskCNPJFull | src/utils/masks.ts:11-18 | fourteen digits fit the template `##.###.###/####-##` (`CnpjTemplate`) character by character |
| Masks.PhoneDash | src/utils/masks.ts:35-39 | the phone's final replacement completes the reference layout: the `-` after the sixth digit up to ten digits, after the seventh at eleven, once more digits follow |
| Masks.MaskPhoneShape | src/utils/masks.ts:30-40 | the phone mask lays out the first 11 digits band by band |
| Masks.MaskPhoneTen | src/utils/masks.ts:32-35 | ten digits fit the template `(##) ####-####` (`PhoneTenTemplate`) character by character |
| Masks.MaskPhoneEleven | src/utils/masks.ts:37-39 | eleven or more digits fit the template `(##) #####-####` (`PhoneElevenTemplate`) character by character |
| Masks.MaskCurrency | src/utils/masks.ts:43-52 | the currency mask is empty exactly when no digit was typed |
| Masks.CleanBrl | src/utils/masks.ts:47-51 | cleaning a rendered amount leaves the plain numeral `integer.cents` |
| Masks.ParseBrl | src/utils/masks.ts:47-51 | parsing a rendered amount gives back the cents divided by 100 |
| Masks.MaskCurrencyRoundTrip | src/utils/masks.ts:43-52 | parsing the masked amount gives the typed digits as cents, and it validates exactly when that is not zero |
| QuizTypes.ContractModelName | src/types/quiz.ts:12 | only the unset choice is stored as the empty string |
| QuizTypes.ParseContractModel | src/types/quiz.ts:12 | a string read back names a model only when it is that model's stored string |
| QuizTypes.ContractModelRoundTrip | src/types/quiz.ts:12 | storing and reading back a contract model gives the same model, so the three stored strings are distinct |
| QuizTypes.InitialFormDataBlank | src/types/quiz.ts:39-64 | the initial record is blank (empty strings and lists, no model, no reminder, no undeclared keys), and it is the only blank record |
| QuizTypes.StepIndex | src/types/quiz.ts:66-74 | the eight steps take the eight positions of the declared order |
| QuizTypes.ParseStep | src/types/quiz.ts:66-74 | reading a step name back succeeds only on a step's own name |
| QuizTypes.StepNameRoundTrip | src/types/quiz.ts:66-74 | step names are distinct and each reads back as its step |
| QuizTypes.IntegrationIsNotAStep | src/types/quiz.ts:66-74 | `integration` is not a `QuizStep` |
| QuizTypes.ProgressMonotone | src/types/quiz.ts:76-85 | progress never decreases along the step order, stays within 0..100, and is 100 at review and success |
| QuizTypes.LabelEmptyIff | src/types/quiz.ts:87-96 | the label is empty exactly at loading, welcome and success |
| QuizTypes.MergeByKey | src/components/quiz/Quiz.tsx:53-55 | after `{...prev, ...data}` a key the patch carries has the patch's value and every other key keeps its value |
| QuizTypes.MergeEmpty | src/components/quiz/Quiz.tsx:53-55 | merging an empty patch changes nothing |
| QuizTypes.MergeIdempotent | src/components/quiz/Quiz.tsx:53-55 | merging the same patch twice is merging it once |
| QuizTypes.MergeCompose | src/components/quiz/Quiz.tsx:53-55 | two updates in a row are one update with the combined patch |
| QuizTypes.Snapshot | src/components/quiz/Quiz.tsx:44-47 | the saved record never carries `uploadedFiles` |
| QuizTypes.Restore | src/components/quiz/Quiz.tsx:32 | a restored record has no attachments |
| QuizTypes.RestoreSnapshot | src/components/quiz/Quiz.tsx:32-47 | restoring a saved draft gives back the record it was taken from, minus the attachments |
| QuizTypes.RestoreEmpty | src/components/quiz/Quiz.tsx:32 | restoring a draft with no keys gives the initial record |
| FieldErrors.SetError | src/components/quiz/CompanyStep.tsx:66-68 | `setErrors(prev => ({...prev, [k]: m}))` sets or clears exactly one key and keeps every other entry |
| FieldErrors.Put | src/components/quiz/CompanyStep.tsx:138-156 | a conditional assignment into `newErrors` adds the key exactly when its condition holds and touches nothing else |
| CompanyStep.TaxIdSubmitMessage | src/components/quiz/CompanyStep.tsx:142-149 | on submit a tax ID must be 11 digits passing the CPF check or 14 passing the CNPJ check; every other length, the empty one included, is refused |
| CompanyStep.TaxIdBlurMessage | src/components/quiz/CompanyStep.tsx:88-107 | on blur an empty tax ID has no message, 11 and 14 digits get the checksum verdict, and every other length the length hint |
| CompanyStep.TaxIdBlurAndSubmit | src/components/quiz/CompanyStep.tsx:88-149 | blur and submit agree on every non-empty tax ID (with the same message at 11 and 14 digits) and part only on the empty one |
| CompanyStep.TaxIdCheck | src/components/quiz/CompanyStep.tsx:142-149 | the tax-ID branch of `validateForm`, running the checksum loops, gives the submit message |
| CompanyStep.MaskedZeroIsMaskOutput | src/components/quiz/CompanyStep.tsx:155 | the mask's rendering of zero cents is the zero-amount text `R$`, no-break space, `0,00` |
| CompanyStep.BrlTextNoBreakSpace | src/components/quiz/CompanyStep.tsx:155 | every masked amount has a no-break space after `R$` |
| CompanyStep.AsWrittenMissesEveryMaskedAmount | src/components/quiz/CompanyStep.tsx:155 | as written, the amount check refuses a masked amount only when no digit was typed |
| CompanyStep.MaskedZeroSlipsThrough | src/components/quiz/CompanyStep.tsx:155 | as written, the masked zero amount parses to 0 and still passes the check |
| CompanyStep.AgreedValueMissingMeaning | src/components/quiz/CompanyStep.tsx:155 | the intended check refuses a typed amount exactly when it has no digits or its value is zero, that is, when it does not validate as currency |
| CompanyStep.CompanyErrorsEmptyIffValid | src/components/quiz/CompanyStep.tsx:136-159 | the error object is empty exactly when all ten requirements hold, the amount judged by the literal of line 155 as written |
| CompanyStep.CompanyErrorsUnique | src/components/quiz/CompanyStep.tsx:136-156 | the record determines the error object |
| CompanyStep.IntendedCheckStricter | src/components/quiz/CompanyStep.tsx:155 | on a typed amount the intended requirements are those as written plus a non-zero amount; the two differ exactly on a typed zero |
| CompanyStep.CompanyErrorsIntended | src/components/quiz/CompanyStep.tsx:136-159 | under the intended check the step passes exactly when the written error object is empty and the typed amount is not zero |
| CompanyStep.BuildIdentityErrors | src/components/quiz/CompanyStep.tsx:138-151 | the first five assignments flag a responsible name under 3 characters, a company name under 2, a segment under 3, the tax ID by its submit message and an invalid e-mail, each with its message |
| CompanyStep.BuildAgreementErrors | src/components/quiz/CompanyStep.tsx:152-156 | the last five flag the phone, no service, no model, an amount that is absent, empty or the literal `R$ 0,00` with an ordinary space, and no payment method, with their messages |
| CompanyStep.BuildErrors | src/components/quiz/CompanyStep.tsx:136-156 | `validateForm` builds exactly the error object the record calls for, with no other key |
| CompanyStep.BlurMatchesSubmit | src/components/quiz/CompanyStep.tsx:60-156 | a blur touches only its field's entry; for the names, the segment and the phone it flags exactly what submit flags, and for the tax ID the same except on the empty field |
| CompanyStep.ServiceChangeEffect | src/components/quiz/CompanyStep.tsx:121-126 | after a service toggle the service is listed exactly when checked, other services are as before (in order when unchecking) and no other key moves |
| CompanyStep.PaymentChangeEffect | src/components/quiz/CompanyStep.tsx:128-133 | the same for payment methods |
| CompanyStep.CompanyForm.constructor | src/components/quiz/CompanyStep.tsx:34-35 | the step starts with no errors and nothing touched |
| CompanyStep.CompanyForm.HandleBlur | src/components/quiz/CompanyStep.tsx:60-118 | leaving a field marks it touched and updates that field's error only |
| CompanyStep.CompanyForm.ValidateForm | src/components/quiz/CompanyStep.tsx:135-160 | `validateForm` stores the record's error object and returns whether it is empty |
| CompanyStep.CompanyForm.HandleSubmit | src/components/quiz/CompanyStep.tsx:162-166 | `onNext` is called exactly when the record meets every requirement as written, so also on a masked zero amount |
| PersonalizationStep.LineCountOfLines | src/components/quiz/PersonalizationStep.tsx:51-53 | the count is the number of `\n`-separated lines with a non-blank trim, the empty-text guard included |
| PersonalizationStep.LineCountZeroIffBlank | src/components/quiz/PersonalizationStep.tsx:51-53 | no line is counted exactly when the text is blank, that is, when `trim()` is empty |
| PersonalizationStep.LineCountOneLine | src/components/quiz/PersonalizationStep.tsx:52 | one line counts once unless it is blank |
| PersonalizationStep.LineCountAppend | src/components/quiz/PersonalizationStep.tsx:52 | joining two texts with a newline adds their counts |
| PersonalizationStep.LineCountStatus | src/components/quiz/PersonalizationStep.tsx:55-60 | each colour belongs to exactly one band (0, 1–4, 5, more than 5), and the 1–4 band shows `n/5 perguntas` |
| PersonalizationStep.LineCountStatusBands | src/components/quiz/PersonalizationStep.tsx:55-60 | the status is fixed above five lines; between 1 and 4, different counts show different texts |
| PersonalizationStep.PersonalizationErrorsMeaning | src/components/quiz/PersonalizationStep.tsx:64-79 | the error object is empty exactly when a function is chosen, the questions are not blank and a tone is chosen; the record determines it |
| PersonalizationStep.BandDoesNotBlock | src/components/quiz/PersonalizationStep.tsx:81-85 | the line-count band never decides the step: any two non-blank texts give the same verdict, and more than five lines pass when the other fields do |
| PersonalizationStep.BuildErrors | src/components/quiz/PersonalizationStep.tsx:64-76 | `validateForm`'s assignments build exactly the record's error object |
| PersonalizationStep.FunctionChangeEffect | src/components/quiz/PersonalizationStep.tsx:43-48 | after a toggle the function is listed exactly when checked, other functions are as before, and no other key moves |
| PersonalizationStep.PersonalizationForm.constructor | src/components/quiz/PersonalizationStep.tsx:33 | the step starts with no errors |
| PersonalizationStep.PersonalizationForm.ValidateForm | src/components/quiz/PersonalizationStep.tsx:64-79 | `validateForm` stores the record's error object and returns whether it is empty |
| PersonalizationStep.PersonalizationForm.HandleSubmit | src/components/quiz/PersonalizationStep.tsx:81-85 | `onNext` is called exactly when the record meets the three requirements |
| IntegrationStep.SolutionChange | src/components/quiz/IntegrationStep.tsx:34-38 | a toggle throws exactly when the record has no solutions list |
| IntegrationStep.SolutionChangeEffect | src/components/quiz/IntegrationStep.tsx:35-37 | on an existing list a toggle lists the solution exactly when checked, lists every other solution as before (in order when unchecking) and moves no other key |
| IntegrationStep.SubmitCheck | src/components/quiz/IntegrationStep.tsx:42-48 | submit throws without a list, advances exactly on a non-empty one, and otherwise sets the message |
| IntegrationStep.RenderChecked | src/components/quiz/IntegrationStep.tsx:90 | rendering a check box throws without a list and shows whether the solution is listed otherwise |
| IntegrationStep.CheckedThenSubmitPasses | src/components/quiz/IntegrationStep.tsx:34-48 | checking one solution is enough for submit to advance |
| IntegrationStep.StuckOnInitialRecord | src/components/quiz/IntegrationStep.tsx:34-48 | on the initial record, rendering, every toggle and submit all throw |
| IntegrationStep.OtherUpdatesKeepItAbsent | src/components/quiz/IntegrationStep.tsx:36 | no update from another step creates the list, so submit keeps throwing |
| IntegrationStep.IntegrationForm.constructor | src/components/quiz/IntegrationStep.tsx:24 | the step starts with no error |
| IntegrationStep.IntegrationForm.HandleSolutionChange | src/components/quiz/IntegrationStep.tsx:34-40 | a toggle sends the toggled list and clears the error, or throws before doing either |
| IntegrationStep.IntegrationForm.HandleSubmit | src/components/quiz/IntegrationStep.tsx:42-48 | `onNext` is called exactly for a non-empty list; an empty one sets the message |
| DigitalStep.AddSuggestionMeaning | src/components/quiz/DigitalStep.tsx:35-39 | a suggestion keeps the old topics as a prefix followed by a newline and ends with the suggestion, whose lines follow the old ones |
| DigitalStep.AddSuggestionOneLine | src/components/quiz/DigitalStep.tsx:37 | a one-line suggestion adds exactly one line, or is the only line of empty topics |
| DigitalStep.SuggestionKeepsVerdict | src/components/quiz/DigitalStep.tsx:35-50 | a suggestion changes only the restricted topics and never the step's verdict |
| DigitalStep.DigitalErrorsMeaning | src/components/quiz/DigitalStep.tsx:41-50 | the error object is empty exactly when the contact phones are not blank; no other field matters |
| DigitalStep.BuildErrors | src/components/quiz/DigitalStep.tsx:41-47 | `validateForm`'s assignment builds exactly the record's error object |
| DigitalStep.DigitalForm.constructor | src/components/quiz/DigitalStep.tsx:25 | the step starts with no errors |
| DigitalStep.DigitalForm.ValidateForm | src/components/quiz/DigitalStep.tsx:41-50 | `validateForm` stores the error object and returns whether it is empty |
| DigitalStep.DigitalForm.HandleSubmit | src/components/quiz/DigitalStep.tsx:52-56 | `onNext` is called exactly when the contact phones are not blank |
| MaterialsStep.Quality | src/components/quiz/MaterialsStep.tsx:25-30 | the band is fixed by the character count, with cuts at 200, 500 and 1000 |
| MaterialsStep.QualityMonotone | src/components/quiz/MaterialsStep.tsx:25-30 | writing more never lowers the band |
| MaterialsStep.WordCountMeaning | src/components/quiz/MaterialsStep.tsx:23 | the word count is the number of maximal non-whitespace runs, and 0 exactly for blank text |
| MaterialsStep.SplitWsCount | src/components/quiz/MaterialsStep.tsx:23 | `split(/\s+/)` gives one piece more than the word starts after the first character |
| MaterialsStep.HandleFilesMeaning | src/components/quiz/MaterialsStep.tsx:65-85 | no update is sent exactly when no file passes; otherwise the list grows by exactly the allowed files of at most 10 MiB (each as often as offered, in order) and no other key moves |
| MaterialsStep.RemoveFileMeaning | src/components/quiz/MaterialsStep.tsx:87-90 | removing drops exactly the file at the index and keeps the rest in order; an index out of range changes nothing |
| MaterialsStep.FormatFileSize | src/components/quiz/MaterialsStep.tsx:92-96 | bytes below 1024, KB below 1024², MB above |
| MaterialsStep.FormatFileSizeMeaning | src/components/quiz/MaterialsStep.tsx:92-96 | the unit is the largest in which the number is at least 1, and the number times the unit is the byte count |
| MaterialsStep.AcceptedSizeShown | src/components/quiz/MaterialsStep.tsx:67-96 | every accepted file is shown as at most 10 MB |
| MaterialsStep.MaterialsView.constructor | src/components/quiz/MaterialsStep.tsx:19-20 | the step starts with no drag and no celebration, holding the file list it was mounted with |
| MaterialsStep.MaterialsView.Render | src/components/quiz/MaterialsStep.tsx:34-38 | the celebration fires on the first render with 1000 characters or more, and never again |
| MaterialsStep.MaterialsView.DragOver | src/components/quiz/MaterialsStep.tsx:40-43 | dragging over sets the flag |
| MaterialsStep.MaterialsView.DragLeave | src/components/quiz/MaterialsStep.tsx:45-48 | leaving clears the flag |
| MaterialsStep.MaterialsView.DropAsWritten | src/components/quiz/MaterialsStep.tsx:50-56 | as written, a drop appends to the list captured at mount |
| MaterialsStep.MaterialsView.Drop | src/components/quiz/MaterialsStep.tsx:50-56 | the intended drop appends to the current list, as the file input does |
| MaterialsStep.MaterialsView.SelectFiles | src/components/quiz/MaterialsStep.tsx:58-63 | picked files go through `handleFiles` on the current record |
| MaterialsStep.StaleDropLosesFiles | src/components/quiz/MaterialsStep.tsx:50-56 | as written, a second drop replaces the first dropped file; the intended drop keeps both |
| MaterialsStep.DropKeepsListed | src/components/quiz/MaterialsStep.tsx:50-84 | the intended drop keeps every listed file, in place |
| ReviewStep.OrNotInformed | src/components/quiz/ReviewStep.tsx:105 | `value \|\| 'Não informado'` is never empty and shows a non-empty value as is |
| ReviewStep.FormatArrayMeaning | src/components/quiz/ReviewStep.tsx:36 | an empty list shows the placeholder, one item itself, and each further item follows `, ` |
| ReviewStep.ContractModelText | src/components/quiz/ReviewStep.tsx:39-43 | the placeholder is shown exactly when no model is chosen |
| ReviewStep.ContractModelTextDistinct | src/components/quiz/ReviewStep.tsx:39-43 | the three choices show three different texts |
| ReviewStep.ToneText | src/components/quiz/ReviewStep.tsx:46-54 | the placeholder is shown exactly for a value that is not one of the four tone ids |
| ReviewStep.ToneTextDistinct | src/components/quiz/ReviewStep.tsx:46-54 | different tones show different labels |
| ReviewStep.ValueRowsMeaning | src/components/quiz/ReviewStep.tsx:139-156 | setup and monthly rows appear exactly for the monthly model, the single-value row exactly for the single one, each with its own field or the placeholder |
| ReviewStep.ReviewView.constructor | src/components/quiz/ReviewStep.tsx:28 | the confirmation starts unchecked |
| ReviewStep.ReviewView.SetConfirmation | src/components/quiz/ReviewStep.tsx:289 | the check box sets the confirmation flag |
| ReviewStep.ReviewView.HandleSubmit | src/components/quiz/ReviewStep.tsx:30-33 | `onSubmit` is called exactly when the box is checked |
| ReviewStep.ReviewView.Click | src/components/quiz/ReviewStep.tsx:319 | the button is disabled exactly when unchecked or submitting, so a click submits exactly when checked and idle |
| Quiz.RecentMeaning | src/components/quiz/Quiz.tsx:30-31 | the hour test is the millisecond test `now − timestamp < 86 400 000` |
| Quiz.Saved | src/components/quiz/Quiz.tsx:42-51 | outside loading and success the key holds the step, the record without attachments and the time; otherwise storage is untouched; other keys never move |
| Quiz.DraftRoundTrip | src/components/quiz/Quiz.tsx:25-51 | a draft saved less than a day before a mount is restored with its step and its record minus the attachments |
| Quiz.StaleDraftIgnored | src/components/quiz/Quiz.tsx:30-31 | a draft a day old or older is never restored |
| Quiz.WiringOrder | src/components/quiz/Quiz.tsx:124-131 | following `onNext` from loading for any number of calls visits welcome, company, personalization, integration, digital and materials in that order and stops at materials; no call leads to review, success or back to loading |
| Quiz.WiredStepOutsideEnumeration | src/components/quiz/Quiz.tsx:127-128 | personalization leads to `integration`, which is no `QuizStep` |
| Quiz.Describe | src/components/quiz/Quiz.tsx:92 | each uploaded file is described by its name, size and type, in order |
| Quiz.BuildPayload | src/components/quiz/Quiz.tsx:57-98 | building the payload throws exactly when the record has no amount |
| Quiz.PayloadAmount | src/components/quiz/Quiz.tsx:72 | a record that passed the company step as written with a typed amount sends the typed digits read as cents: never negative, and zero exactly when the digits spell zero, which the step lets through |
| Quiz.PayloadAmountIntended | src/components/quiz/Quiz.tsx:72 | under the intended amount check the amount sent is positive |
| Quiz.Wizard.constructor | src/components/quiz/Quiz.tsx:19-21 | the wizard starts on loading, with the initial record and not submitting |
| Quiz.Wizard.Mount | src/components/quiz/Quiz.tsx:25-39 | a recent draft of a saved step replaces record and step; anything else (no key, malformed text, stale draft) leaves the initial state |
| Quiz.Wizard.SaveEffect | src/components/quiz/Quiz.tsx:42-51 | the save effect writes exactly the draft the current state calls for |
| Quiz.Wizard.UpdateFormData | src/components/quiz/Quiz.tsx:53-55 | an update merges the patch into the record and changes nothing else |
| Quiz.Wizard.OnNext | src/components/quiz/Quiz.tsx:124-131 | the current step's callback moves to the wired next step, or does nothing where none is wired |
| Quiz.Wizard.HandleSubmit | src/components/quiz/Quiz.tsx:57-113 | on success the draft is removed and the step becomes success; on any failure a toast is shown and step and storage stay; `isSubmitting` ends false |
| Quiz.SuccessKeepsDraftRemoved | src/components/quiz/Quiz.tsx:42-51 | after a successful submission the save effect writes nothing, so the draft stays removed |
| Quiz.RestoredStepIsSaved | src/components/quiz/Quiz.tsx:31-43 | a restored step is always one the save effect writes again |
| CadastroService.GetWebhookUrlProd | src/services/cadastroService.ts:9-41 | the URL is the configured one when non-empty, and the fallback in every other case, so it is never empty |
| CadastroService.FileRefs | src/services/cadastroService.ts:100-104 | each uploaded file is stored as its name, size and type, in order |
| CadastroService.FileRefsMatchDescribe | src/services/cadastroService.ts:100-104 | the stored file references and the payload's file descriptors (Quiz.tsx:92) carry the same name, size and type, file by file |
| CadastroService.RecordMeaning | src/services/cadastroService.ts:76-107 | setup and monthly amounts are stored exactly for the monthly model, the one-off amount exactly for the single one, all null without a model; status `novo`, origin `formulario_cadastro`, files in order |
| CadastroService.PayloadMatchesRecord | src/services/cadastroService.ts:142-188 | the webhook payload and the stored record agree on identity, amounts, model, files and status |
| CadastroService.FinalizeResult | src/services/cadastroService.ts:224-267 | the result is the missing-fields error, the insert's error, or success whatever the webhook does |
| CadastroService.MarkSent | src/services/cadastroService.ts:207-215 | marking a row keeps its record and sets the flag and the time |
| CadastroService.Backend.SalvarCadastroNoSupabase | src/services/cadastroService.ts:72-130 | an insert stores the built record under its id and returns the id, or throws and leaves the table as it was |
| CadastroService.Backend.EnviarParaWebhookN8n | src/services/cadastroService.ts:132-222 | the payload is posted once to the resolved URL; the result is true exactly on an ok response; the row is marked only then, only for a non-empty id the table holds and only when the update applies, with its own clock reading |
| CadastroService.Backend.FinalizarCadastro | src/services/cadastroService.ts:224-267 | the missing-fields check and a failed insert throw before any write; after an insert the row is stored, posted once, and marked only when the webhook succeeded |
| StatusCadastro.Find | src/constants/statusCadastro.ts:76 | `find` returns an entry with the looked-up value, or none when no entry has it |
| StatusCadastro.FindFirst | src/constants/statusCadastro.ts:76 | `find` returns the first matching entry |
| StatusCadastro.GetStatusInfo | src/constants/statusCadastro.ts:75-77 | the lookup always returns an entry of the table |
| StatusCadastro.GetAllStatuses | src/constants/statusCadastro.ts:79-81 | the list has the six entries |
| StatusCadastro.TableValores | src/constants/statusCadastro.ts:12-81 | the six values are distinct and are exactly the known ones, listed in declaration order |
| StatusCadastro.GetStatusInfoMeaning | src/constants/statusCadastro.ts:75-77 | a known value finds its own entry and any other value gets `NOVO` |
| Dashboard.Values | src/pages/Dashboard.tsx:128 | one number per record |
| Dashboard.ValoresValidos | src/pages/Dashboard.tsx:126-128 | one amount per record whose amount is set and non-zero |
| Dashboard.ValoresValidosMeaning | src/pages/Dashboard.tsx:126-128 | every averaged amount is a non-zero amount of some record, and the averaged list is exactly the amounts of the valued records, in order, each valued record contributing its own |
| Dashboard.GroupsDisjoint | src/pages/Dashboard.tsx:120-124 | no record is in two status groups, so the three groups together count at most every record once |
| Dashboard.StatsCounts | src/pages/Dashboard.tsx:119-145 | the total is the number of records, and the new, in-progress and active counts sum to at most the total |
| Dashboard.MeanMeaning | src/pages/Dashboard.tsx:129-131 | the mean times the count is the sum, and 0 without values |
| Dashboard.TicketMeaning | src/pages/Dashboard.tsx:126-131 | the average ticket is the mean of the non-zero amounts, and 0 when there is none |
| Dashboard.TicketIgnoresMissing | src/pages/Dashboard.tsx:126-131 | a record with a null or zero amount does not change the average ticket |
| Dashboard.SumConcat | src/pages/Dashboard.tsx:130 | sums add over concatenation |
| Dashboard.RecurringAdditive | src/pages/Dashboard.tsx:133-135 | the recurring total adds up over a split of the records |
| Dashboard.RecurringSingle | src/pages/Dashboard.tsx:133-135 | one record adds its amount (0 for null) to the recurring total exactly when it is an active monthly contract |
| Dashboard.BadgeFallback | src/pages/Dashboard.tsx:305-310 | an unknown status shows its raw value in gray; a known one gets a class other than the gray one |
| Dashboard.ModelText | src/pages/Dashboard.tsx:369 | `Mensal` exactly for `monthly` |
| Dashboard.AmountShown | src/pages/Dashboard.tsx:299-301 | the amount cell shows `-` exactly for a null or zero amount |
| Register.ValidateEmail | src/pages/Register.tsx:11-19 | the page's e-mail check accepts exactly what the shared validator accepts, with `Email inválido` as its message |
| Register.EmailErrorMeaning | src/pages/Register.tsx:37-44 | the inline error shows exactly for a non-empty address the check refuses; an empty field shows none, though submitting it fails |
| Register.FirstFailure | src/pages/Register.tsx:46-64 | the checks run in order (e-mail, at least 6 password characters, matching confirmation); the first failure names the toast, and none fails exactly when all three pass |
| Register.RejectionText | src/pages/Register.tsx:73 | the failure toast is the error's message, or `Erro ao criar conta` when it is empty |
| Register.EnabledButtonMeaning | src/pages/Register.tsx:199 | an enabled button means a typed address is valid and a typed confirmation matches; the password length is not looked at |
| Register.RegisterPage.constructor | src/pages/Register.tsx:21-27 | the page starts idle, with no toast and no sign-up |
| Register.RegisterPage.HandleRegister | src/pages/Register.tsx:46-77 | a failed check shows its toast and changes nothing else; otherwise sign-up is asked once, the outcome is toasted, success goes to `/login` and loading ends either way |
| Register.SignUpOnlyWhenValid | src/pages/Register.tsx:66-69 | sign-up is reached exactly when all three checks pass |
| Text.OnlyDigits | src/utils/validation.ts:3 | `replace(/\D/g, '')` keeps only the digits |
| Text.TrimEmptyIffAllSpace | src/components/quiz/DigitalStep.tsx:44 | `trim()` is empty exactly when the text is all whitespace |
| Text.SplitJoin | src/components/quiz/PersonalizationStep.tsx:52 | `split` then `join` with the same separator gives back the text, and no piece holds the separator |
| Lists.FilterMeaning | src/components/quiz/CompanyStep.tsx:124 | a filter keeps exactly the passing entries, each as often as it occurs, in order |
| Lists.RemoveAllMeaning | src/components/quiz/CompanyStep.tsx:124 | unchecking removes every occurrence of the item and keeps the rest with their counts and order |
| Lists.ToggleMeaning | src/components/quiz/CompanyStep.tsx:121-126 | after a toggle the item is listed exactly when checked; checking appends at the end |
| Lists.ToggleDuplicates | src/components/quiz/CompanyStep.tsx:122-124 | checking a listed item lists it twice, and unchecking removes both |
| Lists.RemoveAtMeaning | src/components/quiz/MaterialsStep.tsx:88 | removal by index drops exactly that entry, or nothing when the index is out of range |

## Left out

- Rendering, animation, confetti, the loading and welcome screens' timers,
  the progress bar and toasts' appearance: UI only.
- The 1-second e-mail debounce of CompanyStep.tsx:46-58: it is time-driven,
  and the submit check of line 151 decides the step anyway.
- The `onChange` handlers that clear one error entry while typing
  (CompanyStep.tsx:195-198 and the like, DigitalStep.tsx:121-122): they use
  the same one-key update as `FieldErrors.SetError` and decide nothing.
- MaterialsStep's "Continuar" (MaterialsStep.tsx:229-233) calls `onNext`
  with no check, so the step has no required field. The wizard passes
  `onSubmit` instead, and the model captures that in `Quiz.WiringOrder`:
  materials leads nowhere.
- ReviewStep's `onBack` and `onEditStep` are callbacks that nothing wires;
  only the confirmation gate and the display logic are modelled.
- Login, route guards and the authentication hook, the rest of the
  dashboard (fetching, status change, delete), and the settings page.
- Supabase and `fetch` are abstract outcomes passed in as parameters.
  Authentication, the query and the `maybeSingle` shape are reduced to
  `ConfigLookup`. A configuration whose `webhook_url_prod` is not a string
  is not modelled.
- Asynchrony: each `async` call runs to completion in order, with no
  interleaving of user events.
- `JSON.parse` of a partially shaped blob (a draft missing `step`,
  `formData` or `timestamp`) is left out. The stored blob is empty text, an
  unparseable text or a well-formed draft.
- Validation.ValidateUrl: the host/path regular expression of
  validation.ts:76 is taken as a parameter. Only the empty and `@` rules
  are proved.
- Validation.ParseCurrencyOfNumeral: `parseFloat` is modelled as the
  longest prefix of the form `[+-] digits [. digits]` or `[+-] . digits`,
  over exact reals. Exponents, `Infinity` and floating-point rounding are
  left out.
- Masks.MaskCurrency: `toLocaleString('pt-BR', BRL)` is modelled as
  `R$`, a no-break space (U+00A0), the integer part grouped by `.`, then
  `,` and two digits, as the Intl pt-BR currency format writes it. Integer
  overflow of `parseInt` on very long inputs is not modelled.
- MaterialsStep.FormatFileSize: the `toFixed(1)` rounding of the KB and MB
  figures is not modelled; the figure is the exact quotient.
- Dashboard.SumConcat: the dashboard sums are exact sums of reals. The
  source folds JavaScript doubles from the left with `reduce`, whose IEEE
  rounding makes the sum depend on grouping; that rounding and the fold
  order are left out.
- Dashboard.MeanMeaning: the mean is an exact quotient of reals, so mean
  times count is the sum; the double division and its rounding are left
  out.
- Dashboard.TicketMeaning: the average ticket is the exact mean of the
  amounts over reals; double rounding of the sum and the division is left
  out.
- Dashboard.RecurringAdditive: the recurring total adds up over a split
  only over exact reals; for doubles (`[0.1]` and `[0.2, 0.3]`) the
  rounded totals differ, and that rounding is left out.
- Dashboard.AmountShown: the `toLocaleString('pt-BR')` formatting of the
  amount is not modelled, only whether it is shown. A `NaN` amount is not
  modelled either.
- Text.OnlyDigits: Dafny strings are sequences of code points, while
  JavaScript's `length` counts UTF-16 units. The two agree on all the
  digit and ASCII lengths the validators test. Text lengths such as the
  materials character count may differ for characters outside the Basic
  Multilingual Plane.
- Console logging and the `Date.now()`/`toISOString()` clocks: each
  reading is a parameter; the webhook's payload time and its mark time are
  two separate readings.
- ReviewStep.ToneText, Dashboard.StatusClass, Dashboard.StatusLabel and
  Dashboard.BadgeFallback: the object-literal lookups are modelled over
  the literal's own keys only; a key inherited from `Object.prototype`
  (such as `constructor`) would find a function instead of the fallback.

## Findings

| source | as written | input that shows it | evidently intended | confidence | as-written member | corrected member |
|---|---|---|---|---|---|---|
| src/components/quiz/CompanyStep.tsx:155 | the amount is refused when it equals `'R$ 0,00'` written with an ordinary space | typing `0`: the pt-BR currency mask writes `R$` + U+00A0 + `0,00`, which is not that literal, so a zero amount passes the step | refuse an amount with no digits or a zero value | not executed; depends on the Intl pt-BR currency format using a no-break space | CompanyStep.MaskedZeroSlipsThrough | CompanyStep.AgreedValueMissingMeaning |
| src/components/quiz/MaterialsStep.tsx:50-56 | `handleDrop` is memoised with `useCallback(..., [])`, so it calls the `handleFiles` of the first render, which appends to the file list of that render | drop `a.pdf`, then drop `b.pdf`: the list becomes `[b.pdf]` | append each drop to the current list, as the file input does | not executed | MaterialsStep.StaleDropLosesFiles | MaterialsStep.DropKeepsListed |
