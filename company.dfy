/** The company and commercial-agreement step
    (src/components/quiz/CompanyStep.tsx): the submit-time error object,
    the per-field check on blur, and the two check-box lists. */
module CompanyStep {
  import opened Wrappers
  import opened Text
  import opened Validation
  import opened Masks
  import opened Lists
  import opened QuizTypes
  import opened FieldErrors

  /** The keys of `FieldErrors`. */
  const CompanyKeys: set<Field> := {
    ResponsibleName, CompanyName, Segment, CpfCnpj, Email, Phone,
    Services, ContractModelField, AgreedValue, PaymentMethods}

  /** The submit-time messages. */
  const RequiredMessage: string := "Obrigatório"
  const BadCpfMessage: string := "CPF inválido"
  const BadCnpjMessage: string := "CNPJ inválido"
  const BadTaxIdMessage: string := "CPF ou CNPJ inválido"
  const BadEmailMessage: string := "Email inválido"
  const BadPhoneMessage: string := "Telefone inválido"
  const NoServiceMessage: string := "Selecione ao menos um serviço"
  const NoModelMessage: string := "Selecione um modelo"
  const NoAmountMessage: string := "Informe o valor"
  const NoPaymentMessage: string := "Selecione ao menos uma forma"

  /** The submit-time message for the tax ID's digits: an 11-digit ID
      must be a valid CPF, a 14-digit one a valid CNPJ, and any other
      length, the empty one included, is refused. */
  function TaxIdSubmitMessage(clean: string): (m: Option<string>)
    ensures m.None? <==> (|clean| == 11 && IsValidCPF(clean)) || (|clean| == 14 && IsValidCNPJ(clean))
    ensures clean == [] ==> m == Some(BadTaxIdMessage)
  {
    if |clean| == 11 && !IsValidCPF(clean) then Some(BadCpfMessage)
    else if |clean| == 14 && !IsValidCNPJ(clean) then Some(BadCnpjMessage)
    else if |clean| != 11 && |clean| != 14 then Some(BadTaxIdMessage)
    else None
  }

  /** The message on leaving the tax-ID field: nothing while it is empty,
      the checksum verdict at 11 and 14 digits, and the length hint for
      every other length. */
  function TaxIdBlurMessage(clean: string): (m: Option<string>)
    ensures clean == [] ==> m == None
    ensures clean != [] ==> (m.None? <==> (|clean| == 11 && IsValidCPF(clean)) || (|clean| == 14 && IsValidCNPJ(clean)))
    ensures |clean| !in {0, 11, 14} ==> m == Some("CPF deve ter 11 dígitos, CNPJ 14 dígitos")
  {
    if |clean| == 0 then None
    else if |clean| == 11 then (if !IsValidCPF(clean) then Some("CPF inválido") else None)
    else if |clean| == 14 then (if !IsValidCNPJ(clean) then Some("CNPJ inválido") else None)
    else Some("CPF deve ter 11 dígitos, CNPJ 14 dígitos")
  }

  /** Blur and submit agree on every non-empty tax ID, with the same
      message at 11 and 14 digits; they part only on the empty field,
      which blur lets pass and submit refuses. */
  lemma TaxIdBlurAndSubmit(clean: string)
    ensures clean != [] ==> (TaxIdBlurMessage(clean).None? <==> TaxIdSubmitMessage(clean).None?)
    ensures |clean| in {11, 14} ==> TaxIdBlurMessage(clean) == TaxIdSubmitMessage(clean)
    ensures clean == [] ==> TaxIdBlurMessage(clean).None? && TaxIdSubmitMessage(clean).Some?
  {
  }

  // ---------------------------------------------------------------------
  // The agreed amount
  // ---------------------------------------------------------------------

  /** Line 155 as written: the amount is missing when the key is absent,
      empty, or the literal `'R$ 0,00'` typed with an ordinary space. */
  predicate AgreedValueMissingAsWritten(v: Option<string>) {
    v.None? || v.value == "" || v.value == "R$ 0,00"
  }

  /** What the amount mask produces for zero: `R$`, a no-break space, `0,00`. */
  const MaskedZero: string := "R$\U{00A0}0,00"

  lemma MaskedZeroIsMaskOutput()
    ensures BrlText(0) == MaskedZero
  {
    assert Grouped(0) == "0";
    assert TwoDigits(0) == "00";
  }

  /** The check line 155 evidently intends: the amount is missing when the
      key is absent, empty, or the masked text of zero. */
  predicate AgreedValueMissing(v: Option<string>) {
    v.None? || v.value == "" || v.value == MaskedZero
  }

  lemma BrlTextNoBreakSpace(cents: nat)
    ensures |BrlText(cents)| > 2 && BrlText(cents)[2] == '\U{00A0}'
  {
    assert BrlText(cents)[..3] == CurrencyPrefix;
  }

  /** The field only ever holds mask output, and the literal of line 155
      has an ordinary space where the mask writes a no-break space: as
      written, the check refuses an amount only when no digit was typed,
      never a zero amount. */
  lemma AsWrittenMissesEveryMaskedAmount(x: string)
    ensures AgreedValueMissingAsWritten(Some(MaskCurrency(x))) <==> OnlyDigits(x) == []
  {
    if OnlyDigits(x) != [] {
      BrlTextNoBreakSpace(DigitsToNat(OnlyDigits(x)));
      assert "R$ 0,00"[2] == ' ';
    }
  }

  /** The concrete case: typing `0` shows `R$ 0,00`, which parses to zero,
      and the check as written lets it through. */
  lemma MaskedZeroSlipsThrough()
    ensures !AgreedValueMissingAsWritten(Some(MaskCurrency("0")))
    ensures ParseCurrency(MaskCurrency("0")) == 0.0
    ensures AgreedValueMissing(Some(MaskCurrency("0")))
  {
    assert OnlyDigits("0") == "0";
    assert DigitsToNat("0") == 0;
    AsWrittenMissesEveryMaskedAmount("0");
    MaskCurrencyRoundTrip("0");
    MaskedZeroIsMaskOutput();
  }

  /** The intended check refuses a typed amount exactly when it has no
      digits or its value is zero, which is exactly when the amount does
      not validate as currency. */
  lemma AgreedValueMissingMeaning(x: string)
    ensures AgreedValueMissing(Some(MaskCurrency(x))) <==> OnlyDigits(x) == [] || DigitsToNat(OnlyDigits(x)) == 0
    ensures AgreedValueMissing(Some(MaskCurrency(x))) <==> !ValidateCurrency(MaskCurrency(x))
  {
    MaskCurrencyRoundTrip(x);
    if OnlyDigits(x) != [] {
      MaskedZeroOnlyForZero(DigitsToNat(OnlyDigits(x)));
    }
  }

  /** Only the amount zero is rendered as the masked zero. */
  lemma MaskedZeroOnlyForZero(cents: nat)
    ensures BrlText(cents) == MaskedZero <==> cents == 0
  {
    MaskedZeroIsMaskOutput();
    if cents > 0 {
      ParseBrl(cents);
      ParseBrl(0);
      assert ParseCurrency(BrlText(cents)) != ParseCurrency(BrlText(0));
    }
  }

  // ---------------------------------------------------------------------
  // Submit
  // ---------------------------------------------------------------------

  /** The keys of the first five checks (name, company, segment, tax ID,
      e-mail) and of the last five (phone, services, model, amount,
      payment methods). */
  const IdentityKeys: set<Field> := {ResponsibleName, CompanyName, Segment, CpfCnpj, Email}
  const AgreementKeys: set<Field> := {Phone, Services, ContractModelField, AgreedValue, PaymentMethods}

  /** The entries of the first five checks. */
  predicate IdentityFlags(f: FormData, e: Errors) {
    && Flagged(e, ResponsibleName, |f.responsibleName| < 3, RequiredMessage)
    && Flagged(e, CompanyName, |f.companyName| < 2, RequiredMessage)
    && Flagged(e, Segment, |f.segment| < 3, RequiredMessage)
    && FlaggedWith(e, CpfCnpj, TaxIdSubmitMessage(OnlyDigits(f.cpfCnpj)))
    && Flagged(e, Email, !ValidateEmail(f.email), BadEmailMessage)
  }

  /** The entries of the last five checks. */
  predicate AgreementFlags(f: FormData, e: Errors) {
    && Flagged(e, Phone, !ValidatePhone(f.phone), BadPhoneMessage)
    && Flagged(e, Services, |f.services| == 0, NoServiceMessage)
    && Flagged(e, ContractModelField, f.contractModel == Unset, NoModelMessage)
    && Flagged(e, AgreedValue, AgreedValueMissingAsWritten(f.agreedValue), NoAmountMessage)
    && Flagged(e, PaymentMethods, |f.paymentMethods| == 0, NoPaymentMessage)
  }

  /** The error object `validateForm` builds for a record: only the ten
      keys, each present exactly when its check fails. */
  predicate CompanyErrorsFor(f: FormData, e: Errors) {
    e.Keys <= CompanyKeys && IdentityFlags(f, e) && AgreementFlags(f, e)
  }

  /** The step's requirements, read off as a single condition. */
  predicate CompanyValid(f: FormData) {
    var clean := OnlyDigits(f.cpfCnpj);
    && |f.responsibleName| >= 3 && |f.companyName| >= 2 && |f.segment| >= 3
    && ((|clean| == 11 && IsValidCPF(clean)) || (|clean| == 14 && IsValidCNPJ(clean)))
    && ValidateEmail(f.email) && ValidatePhone(f.phone)
    && |f.services| > 0 && f.contractModel != Unset
    && !AgreedValueMissingAsWritten(f.agreedValue)
    && |f.paymentMethods| > 0
  }

  /** The error object is empty exactly when the record meets every
      requirement. */
  lemma CompanyErrorsEmptyIffValid(f: FormData, e: Errors)
    requires CompanyErrorsFor(f, e)
    ensures e == map[] <==> CompanyValid(f)
  {
    EmptyOnTen(e, ResponsibleName, CompanyName, Segment, CpfCnpj, Email, Phone, Services, ContractModelField, AgreedValue, PaymentMethods);
  }

  /** The record determines the error object. */
  lemma CompanyErrorsUnique(f: FormData, e: Errors, e': Errors)
    requires CompanyErrorsFor(f, e) && CompanyErrorsFor(f, e')
    ensures e == e'
  {
    SameOnTen(e, e', ResponsibleName, CompanyName, Segment, CpfCnpj, Email, Phone, Services, ContractModelField, AgreedValue, PaymentMethods);
  }

  /** The requirements with the amount check line 155 evidently intends. */
  predicate CompanyValidIntended(f: FormData) {
    CompanyValid(f) && !AgreedValueMissing(f.agreedValue)
  }

  /** On a typed amount the intended requirements are those as written
      plus a non-zero amount: the two differ exactly on a zero amount with
      at least one digit typed. */
  lemma IntendedCheckStricter(f: FormData, typed: string)
    requires f.agreedValue == Some(MaskCurrency(typed))
    ensures CompanyValidIntended(f) <==> CompanyValid(f) && DigitsToNat(OnlyDigits(typed)) != 0
    ensures CompanyValid(f) && !CompanyValidIntended(f) ==> OnlyDigits(typed) != [] && DigitsToNat(OnlyDigits(typed)) == 0
  {
    AsWrittenMissesEveryMaskedAmount(typed);
    AgreedValueMissingMeaning(typed);
  }

  /** Under the intended check the step passes exactly when the error
      object `validateForm` builds is empty and the typed amount is not
      zero. */
  lemma CompanyErrorsIntended(f: FormData, e: Errors, typed: string)
    requires CompanyErrorsFor(f, e) && f.agreedValue == Some(MaskCurrency(typed))
    ensures CompanyValidIntended(f) <==> e == map[] && DigitsToNat(OnlyDigits(typed)) != 0
  {
    CompanyErrorsEmptyIffValid(f, e);
    IntendedCheckStricter(f, typed);
  }

  /** The tax-ID branch of `validateForm`: the checksum routine matching
      the length, or the length message. */
  method TaxIdCheck(clean: string) returns (taxId: Option<string>)
    ensures taxId == TaxIdSubmitMessage(clean)
  {
    taxId := None;
    if |clean| == 11 {
      var ok := ValidateCPF(clean);
      if !ok { taxId := Some(BadCpfMessage); }
    } else if |clean| == 14 {
      var ok := ValidateCNPJ(clean);
      if !ok { taxId := Some(BadCnpjMessage); }
    } else {
      taxId := Some(BadTaxIdMessage);
    }
  }

  /** The first five conditional assignments of `validateForm`, on the
      verdicts of the five checks. */
  method PutIdentity(nameBad: bool, companyBad: bool, segmentBad: bool, taxId: Option<string>, emailBad: bool)
    returns (newErrors: Errors)
    ensures Flagged(newErrors, ResponsibleName, nameBad, RequiredMessage)
    ensures Flagged(newErrors, CompanyName, companyBad, RequiredMessage)
    ensures Flagged(newErrors, Segment, segmentBad, RequiredMessage)
    ensures FlaggedWith(newErrors, CpfCnpj, taxId)
    ensures Flagged(newErrors, Email, emailBad, BadEmailMessage)
    ensures newErrors.Keys <= IdentityKeys
  {
    var e1 := Put(map[], ResponsibleName, nameBad, RequiredMessage);
    var e2 := Put(e1, CompanyName, companyBad, RequiredMessage);
    assert Flagged(e2, ResponsibleName, nameBad, RequiredMessage);
    var e3 := Put(e2, Segment, segmentBad, RequiredMessage);
    assert Flagged(e3, ResponsibleName, nameBad, RequiredMessage);
    assert Flagged(e3, CompanyName, companyBad, RequiredMessage);
    var e4 := Put(e3, CpfCnpj, taxId.Some?, if taxId.Some? then taxId.value else "");
    assert FlaggedWith(e4, CpfCnpj, taxId);
    assert Flagged(e4, ResponsibleName, nameBad, RequiredMessage);
    assert Flagged(e4, CompanyName, companyBad, RequiredMessage);
    assert Flagged(e4, Segment, segmentBad, RequiredMessage);
    newErrors := Put(e4, Email, emailBad, BadEmailMessage);
    assert FlaggedWith(newErrors, CpfCnpj, taxId);
  }

  /** The first five checks of `validateForm`. */
  method BuildIdentityErrors(f: FormData) returns (newErrors: Errors)
    ensures IdentityFlags(f, newErrors) && newErrors.Keys <= IdentityKeys
  {
    var taxId := TaxIdCheck(OnlyDigits(f.cpfCnpj));
    newErrors := PutIdentity(|f.responsibleName| < 3, |f.companyName| < 2, |f.segment| < 3, taxId, !ValidateEmail(f.email));
  }

  /** The last five conditional assignments of `validateForm`. */
  method BuildAgreementErrors(f: FormData) returns (newErrors: Errors)
    ensures AgreementFlags(f, newErrors) && newErrors.Keys <= AgreementKeys
  {
    var e1 := Put(map[], Phone, !ValidatePhone(f.phone), BadPhoneMessage);
    var e2 := Put(e1, Services, |f.services| == 0, NoServiceMessage);
    assert Flagged(e2, Phone, !ValidatePhone(f.phone), BadPhoneMessage);
    var e3 := Put(e2, ContractModelField, f.contractModel == Unset, NoModelMessage);
    assert Flagged(e3, Phone, !ValidatePhone(f.phone), BadPhoneMessage);
    assert Flagged(e3, Services, |f.services| == 0, NoServiceMessage);
    var e4 := Put(e3, AgreedValue, AgreedValueMissingAsWritten(f.agreedValue), NoAmountMessage);
    assert Flagged(e4, Phone, !ValidatePhone(f.phone), BadPhoneMessage);
    assert Flagged(e4, Services, |f.services| == 0, NoServiceMessage);
    assert Flagged(e4, ContractModelField, f.contractModel == Unset, NoModelMessage);
    newErrors := Put(e4, PaymentMethods, |f.paymentMethods| == 0, NoPaymentMessage);
  }

  /** `validateForm`'s ten conditional assignments into `newErrors`, the
      two groups of keys being disjoint. */
  method BuildErrors(f: FormData) returns (newErrors: Errors)
    ensures CompanyErrorsFor(f, newErrors)
  {
    var first := BuildIdentityErrors(f);
    var second := BuildAgreementErrors(f);
    newErrors := first + second;
    IdentityFlagsUnion(f, first, second);
    AgreementFlagsUnion(f, first, second);
  }

  /** The first five entries survive the union with the last five. */
  lemma IdentityFlagsUnion(f: FormData, a: Errors, b: Errors)
    requires IdentityFlags(f, a) && b.Keys <= AgreementKeys
    ensures IdentityFlags(f, a + b)
  {
  }

  /** The last five entries survive the union with the first five. */
  lemma AgreementFlagsUnion(f: FormData, a: Errors, b: Errors)
    requires AgreementFlags(f, b) && a.Keys <= IdentityKeys
    ensures AgreementFlags(f, a + b)
  {
  }

  // ---------------------------------------------------------------------
  // Blur
  // ---------------------------------------------------------------------

  /** The fields checked when they lose focus. */
  predicate BlurChecked(field: Field) {
    field in {ResponsibleName, CompanyName, Segment, CpfCnpj, Phone}
  }

  /** The message a checked field gets on losing focus, `None` clearing it. */
  function BlurVerdict(f: FormData, field: Field): Option<string> {
    if field == ResponsibleName then
      (if |f.responsibleName| < 3 then Some("Mínimo 3 caracteres") else None)
    else if field == CompanyName then
      (if |f.companyName| < 2 then Some("Mínimo 2 caracteres") else None)
    else if field == Segment then
      (if |f.segment| < 3 then Some("Mínimo 3 caracteres") else None)
    else if field == CpfCnpj then
      TaxIdBlurMessage(OnlyDigits(f.cpfCnpj))
    else if !ValidatePhone(f.phone) then Some("Telefone inválido")
    else None
  }

  /** The error object after leaving `field` (lines 60-119): the five
      checked fields set or clear their own entry; any other field leaves
      the object as it was. */
  function BlurErrors(e: Errors, f: FormData, field: Field): Errors {
    if BlurChecked(field) then SetError(e, field, BlurVerdict(f, field)) else e
  }

  /** Leaving a field touches that field's entry only, and for the names
      and the phone it flags exactly what submit flags; for the tax ID it
      flags what submit flags except the empty field. */
  lemma BlurMatchesSubmit(e: Errors, f: FormData, field: Field, sub: Errors)
    requires CompanyErrorsFor(f, sub)
    ensures forall k | k != field :: (k in BlurErrors(e, f, field) <==> k in e)
    ensures field in {ResponsibleName, CompanyName, Segment, Phone} ==>
      (field in BlurErrors(e, f, field) <==> field in sub)
    ensures field == CpfCnpj ==>
      (field in BlurErrors(e, f, field) <==> field in sub && OnlyDigits(f.cpfCnpj) != [])
  {
    BlurFrame(e, f, field);
    if BlurChecked(field) {
      BlurVerdictAsSubmit(f, field, sub);
      assert field in BlurErrors(e, f, field) <==> BlurVerdict(f, field).Some?;
    }
  }

  /** Leaving a field leaves every other entry as it was. */
  lemma BlurFrame(e: Errors, f: FormData, field: Field)
    ensures forall k | k != field :: (k in BlurErrors(e, f, field) <==> k in e)
  {
  }

  /** A checked field's blur verdict is a message exactly when submit flags
      that field, the empty tax ID aside. */
  lemma BlurVerdictAsSubmit(f: FormData, field: Field, sub: Errors)
    requires CompanyErrorsFor(f, sub) && BlurChecked(field)
    ensures field != CpfCnpj ==> (BlurVerdict(f, field).Some? <==> field in sub)
    ensures field == CpfCnpj ==> (BlurVerdict(f, field).Some? <==> field in sub && OnlyDigits(f.cpfCnpj) != [])
  {
    if field == CpfCnpj {
      TaxIdBlurAndSubmit(OnlyDigits(f.cpfCnpj));
    }
  }

  // ---------------------------------------------------------------------
  // Check boxes
  // ---------------------------------------------------------------------

  /** `handleServiceChange`. */
  function HandleServiceChange(f: FormData, service: string, checked: bool): FormPatch {
    EmptyPatch.(services := Some(Toggle(f.services, service, checked)))
  }

  /** `handlePaymentChange`. */
  function HandlePaymentChange(f: FormData, payment: string, checked: bool): FormPatch {
    EmptyPatch.(paymentMethods := Some(Toggle(f.paymentMethods, payment, checked)))
  }

  /** After a service toggle the service is listed exactly when checked,
      other services are as before, and no other key of the record moves. */
  lemma ServiceChangeEffect(f: FormData, service: string, checked: bool, k: Field)
    ensures var g := Merge(f, HandleServiceChange(f, service, checked));
      && (service in g.services <==> checked)
      && (forall b | b != service :: b in g.services <==> b in f.services)
      && (!checked ==> Subsequence(g.services, f.services))
      && (k != Services ==> Get(g, k) == Get(f, k))
  {
    ToggleMeaning(f.services, service, checked);
    MergeByKey(f, HandleServiceChange(f, service, checked), k);
  }

  /** The same for the payment-method list. */
  lemma PaymentChangeEffect(f: FormData, payment: string, checked: bool, k: Field)
    ensures var g := Merge(f, HandlePaymentChange(f, payment, checked));
      && (payment in g.paymentMethods <==> checked)
      && (forall b | b != payment :: b in g.paymentMethods <==> b in f.paymentMethods)
      && (!checked ==> Subsequence(g.paymentMethods, f.paymentMethods))
      && (k != PaymentMethods ==> Get(g, k) == Get(f, k))
  {
    ToggleMeaning(f.paymentMethods, payment, checked);
    MergeByKey(f, HandlePaymentChange(f, payment, checked), k);
  }

  // ---------------------------------------------------------------------
  // Component state
  // ---------------------------------------------------------------------

  /** The step's `errors` and `touched` state. */
  class CompanyForm {
    var errors: Errors
    var touched: set<Field>

    constructor()
      ensures errors == map[] && touched == {}
    {
      errors := map[];
      touched := {};
    }

    /** `handleBlur(field)`. */
    method HandleBlur(f: FormData, field: Field)
      modifies this
      ensures touched == old(touched) + {field}
      ensures errors == BlurErrors(old(errors), f, field)
    {
      touched := touched + {field};
      errors := BlurErrors(errors, f, field);
    }

    /** `validateForm()`: replaces the error object and reports whether it
      is empty. */
    method ValidateForm(f: FormData) returns (ok: bool)
      modifies this
      ensures CompanyErrorsFor(f, errors)
      ensures ok <==> errors == map[]
      ensures touched == old(touched)
    {
      var newErrors := BuildErrors(f);
      errors := newErrors;
      ok := |errors.Keys| == 0;
    }

    /** `handleSubmit()`: `onNext` is called, here reported as `advance`,
      exactly when the record meets every requirement. */
    method HandleSubmit(f: FormData) returns (advance: bool)
      modifies this
      ensures CompanyErrorsFor(f, errors)
      ensures advance <==> CompanyValid(f)
      ensures touched == old(touched)
    {
      advance := ValidateForm(f);
      CompanyErrorsEmptyIffValid(f, errors);
    }
  }
}
