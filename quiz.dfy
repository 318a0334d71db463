/** The wizard orchestrator (src/components/quiz/Quiz.tsx): the current
    step, the form record and the submitting flag, the draft kept in
    browser storage with its 24-hour restore rule, the step wiring, and
    the submission with its success and failure paths.  Storage is a map
    handed to the object, the clock is the `now` parameter, and the
    network call is the `sendSucceeds` parameter. */
module Quiz {
  import opened Wrappers
  import opened Validation
  import opened Text
  import opened Masks
  import opened QuizTypes
  import CompanyStep

  /** `STORAGE_KEY`. */
  const StorageKey: string := "companychat_onboarding"

  /** One day in milliseconds. */
  const DayMillis: int := 24 * 60 * 60 * 1000

  /** What `localStorage.getItem` can hand back: an empty string (falsy,
      so ignored), text `JSON.parse` rejects, or a draft as the save
      effect writes it. */
  datatype SavedBlob = EmptyText | Malformed | Draft(step: string, formData: FormPatch, timestamp: int)

  /** `hoursSince < 24`, computed as the source does. */
  predicate Recent(timestamp: int, now: int) {
    (now - timestamp) as real / 1000.0 / 60.0 / 60.0 < 24.0
  }

  /** The hour test is the millisecond test `now - timestamp < 86400000`. */
  lemma RecentMeaning(timestamp: int, now: int)
    ensures Recent(timestamp, now) <==> now - timestamp < DayMillis
  {
  }

  /** Whether the mount effect restores a stored blob. */
  predicate ShouldRestore(blob: SavedBlob, now: int) {
    blob.Draft? && Recent(blob.timestamp, now) && blob.step != "loading" && blob.step != "success"
  }

  /** The storage after the save effect: a draft of the step, the record
      without its attachments, and the time, written only outside the
      loading and success screens. */
  function Saved(storage: map<string, SavedBlob>, step: string, f: FormData, now: int): (r: map<string, SavedBlob>)
    ensures step == "loading" || step == "success" ==> r == storage
    ensures step != "loading" && step != "success" ==>
      StorageKey in r && r[StorageKey] == Draft(step, Snapshot(f), now) && r[StorageKey].formData.uploadedFiles.None?
    ensures forall k | k != StorageKey :: (k in r <==> k in storage) && (k in r ==> r[k] == storage[k])
  {
    if step != "loading" && step != "success" then storage[StorageKey := Draft(step, Snapshot(f), now)] else storage
  }

  /** A draft saved at `saved` is restored by a mount less than a day
      later, with the step it was saved on and the record it was taken
      from minus the attachments. */
  lemma DraftRoundTrip(storage: map<string, SavedBlob>, step: string, f: FormData, saved: int, now: int)
    requires step != "loading" && step != "success"
    requires now - saved < DayMillis
    ensures var blob := Saved(storage, step, f, saved)[StorageKey];
      && ShouldRestore(blob, now)
      && blob.step == step
      && Restore(blob.formData) == f.(uploadedFiles := [])
  {
    RestoreSnapshot(f);
  }

  /** A draft a day old or older is never restored. */
  lemma StaleDraftIgnored(blob: SavedBlob, now: int)
    requires blob.Draft? && now - blob.timestamp >= DayMillis
    ensures !ShouldRestore(blob, now)
  {
  }

  /** The step wiring: the step each step's `onNext` leads to.  The
      materials step calls an `onNext` it is not given, and nothing is
      wired to `review`, so neither has a successor. */
  function NextStep(step: string): Option<string> {
    if step == "loading" then Some("welcome")
    else if step == "welcome" then Some("company")
    else if step == "company" then Some("personalization")
    else if step == "personalization" then Some("integration")
    else if step == "integration" then Some("digital")
    else if step == "digital" then Some("materials")
    else None
  }

  /** The steps `onNext` passes through from `step` over at most `calls`
      calls, `step` first. */
  function Walk(step: string, calls: nat): (r: seq<string>)
    ensures r != [] && r[0] == step && |r| <= calls + 1
    decreases calls
  {
    if calls > 0 && NextStep(step).Some? then [step] + Walk(NextStep(step).value, calls - 1)
    else [step]
  }

  /** The steps as the switch wires them, from the first render on. */
  const WiredOrder: seq<string> := ["loading", "welcome", "company", "personalization", "integration", "digital", "materials"]

  /** Following `onNext` from the start visits the wired steps in order and,
      however many more calls follow, stops at materials; no callback leads
      to success, to review or back to loading. */
  lemma WiringOrder(step: string, calls: nat)
    ensures calls < |WiredOrder| ==> Walk("loading", calls) == WiredOrder[..calls + 1]
    ensures calls >= |WiredOrder| - 1 ==> Walk("loading", calls) == WiredOrder
    ensures NextStep(step).Some? ==> NextStep(step).value !in {"success", "review", "loading"}
  {
    WalkFrom(0, calls);
  }

  /** The walk from the `k`-th wired step follows the rest of the order. */
  lemma {:induction false} WalkFrom(k: nat, calls: nat)
    requires k < |WiredOrder|
    ensures Walk(WiredOrder[k], calls) == WiredOrder[k..if k + calls < |WiredOrder| then k + calls + 1 else |WiredOrder|]
    decreases calls
  {
    if k + 1 < |WiredOrder| {
      assert NextStep(WiredOrder[k]) == Some(WiredOrder[k + 1]);
      if calls > 0 {
        WalkFrom(k + 1, calls - 1);
      }
    } else {
      assert NextStep(WiredOrder[k]) == None;
    }
  }

  /** `integration` is wired but is no `QuizStep`. */
  lemma WiredStepOutsideEnumeration()
    ensures NextStep("personalization") == Some("integration") && ParseStep("integration") == None
  {
    IntegrationIsNotAStep();
  }

  /** The file descriptor the payload carries. */
  datatype FileInfo = FileInfo(name: string, size: nat, mimeType: string)

  /** `OnboardingData`, section by section. */
  datatype CompanyInfo = CompanyInfo(responsibleName: string, companyName: string, segment: string,
                                     cpfCnpj: string, email: string, phone: string)
  datatype AgreementInfo = AgreementInfo(services: seq<string>, contractModel: string, agreedValue: real,
                                         paymentMethods: seq<string>, recurringReminder: Option<bool>)
  datatype AssistantInfo = AssistantInfo(mainFunctions: seq<string>, top5Questions: string,
                                         communicationTone: string, existingSolutions: Option<seq<string>>)
  datatype DigitalInfo = DigitalInfo(contactPhones: string, paymentMethodsAccepted: string, address: string,
                                     instagram: string, website: string, restrictedTopics: string)
  datatype MaterialsInfo = MaterialsInfo(additionalInfo: string, uploadedFiles: seq<FileInfo>)
  datatype Metadata = Metadata(timestamp: string, source: string)
  datatype Payload = Payload(company: CompanyInfo, agreement: AgreementInfo, assistant: AssistantInfo,
                             digital: DigitalInfo, materials: MaterialsInfo, metadata: Metadata)

  /** `f => ({ name: f.name, size: f.size, type: f.type })`. */
  function Describe(files: seq<UploadedFile>): (r: seq<FileInfo>)
    ensures |r| == |files|
    ensures forall i | 0 <= i < |files| :: r[i] == FileInfo(files[i].name, files[i].size, files[i].mimeType)
  {
    if files == [] then [] else [FileInfo(files[0].name, files[0].size, files[0].mimeType)] + Describe(files[1..])
  }

  /** The payload `handleSubmit` builds; `parseCurrency` of an absent
      amount throws, which is `None` here. */
  function BuildPayload(f: FormData, isoTime: string): (r: Option<Payload>)
    ensures r.None? <==> f.agreedValue.None?
  {
    if f.agreedValue.None? then None
    else Some(Payload(
      CompanyInfo(f.responsibleName, f.companyName, f.segment, f.cpfCnpj, f.email, f.phone),
      AgreementInfo(f.services, ContractModelName(f.contractModel), ParseCurrency(f.agreedValue.value),
                    f.paymentMethods, f.recurringReminder),
      AssistantInfo(f.mainFunctions, f.top5Questions, f.communicationTone, f.existingSolutions),
      DigitalInfo(f.contactPhones, f.paymentMethodsAccepted, f.address, f.instagram, f.website, f.restrictedTopics),
      MaterialsInfo(f.additionalInfo, Describe(f.uploadedFiles)),
      Metadata(isoTime, "onboarding_quiz")))
  }

  /** A record that passed the company step as written, with a typed
      amount, yields a payload whose amount is the typed digits read as
      cents: never negative, and zero exactly when the digits spell zero,
      which the step lets through. */
  lemma PayloadAmount(f: FormData, typed: string, isoTime: string)
    requires CompanyStep.CompanyValid(f) && f.agreedValue == Some(MaskCurrency(typed))
    ensures OnlyDigits(typed) != []
    ensures BuildPayload(f, isoTime).Some?
    ensures BuildPayload(f, isoTime).value.agreement.agreedValue == ParseCurrency(MaskCurrency(typed))
    ensures BuildPayload(f, isoTime).value.agreement.agreedValue == DigitsToNat(OnlyDigits(typed)) as real / 100.0
    ensures BuildPayload(f, isoTime).value.agreement.agreedValue >= 0.0
    ensures BuildPayload(f, isoTime).value.agreement.agreedValue == 0.0 <==> DigitsToNat(OnlyDigits(typed)) == 0
  {
    CompanyStep.AsWrittenMissesEveryMaskedAmount(typed);
    MaskCurrencyRoundTrip(typed);
  }

  /** Under the intended amount check the amount sent is positive. */
  lemma PayloadAmountIntended(f: FormData, typed: string, isoTime: string)
    requires CompanyStep.CompanyValidIntended(f) && f.agreedValue == Some(MaskCurrency(typed))
    ensures BuildPayload(f, isoTime).Some?
    ensures BuildPayload(f, isoTime).value.agreement.agreedValue > 0.0
  {
    CompanyStep.IntendedCheckStricter(f, typed);
    PayloadAmount(f, typed, isoTime);
  }

  /** The toast a failed submission shows. */
  const SubmitErrorTitle: string := "Erro ao enviar"

  /** The wizard's state, the storage it writes, the toasts it has shown
      and the payloads it has handed to `sendOnboardingData`. */
  class Wizard {
    var step: string
    var formData: FormData
    var isSubmitting: bool
    var storage: map<string, SavedBlob>
    var toasts: seq<string>
    var sent: seq<Payload>

    /** The first render. */
    constructor(storage0: map<string, SavedBlob>)
      ensures step == "loading" && formData == InitialFormData && !isSubmitting
      ensures storage == storage0 && toasts == [] && sent == []
    {
      step := "loading";
      formData := InitialFormData;
      isSubmitting := false;
      storage := storage0;
      toasts := [];
      sent := [];
    }

    /** The mount effect: a recent stored draft of a resumable step
        replaces the record and the step; anything else leaves the
        initial state. */
    method Mount(now: int)
      modifies this
      ensures StorageKey in storage && ShouldRestore(storage[StorageKey], now) ==>
        formData == Restore(storage[StorageKey].formData) && step == storage[StorageKey].step
      ensures !(StorageKey in storage && ShouldRestore(storage[StorageKey], now)) ==>
        formData == old(formData) && step == old(step)
      ensures storage == old(storage) && isSubmitting == old(isSubmitting)
      ensures toasts == old(toasts) && sent == old(sent)
    {
      if StorageKey in storage {
        var saved := storage[StorageKey];
        if saved.Draft? {
          if Recent(saved.timestamp, now) && saved.step != "loading" && saved.step != "success" {
            formData := Restore(saved.formData);
            step := saved.step;
          }
        }
      }
    }

    /** The save effect, run after every change of step or record. */
    method SaveEffect(now: int)
      modifies this
      ensures storage == Saved(old(storage), step, formData, now)
      ensures step == old(step) && formData == old(formData) && isSubmitting == old(isSubmitting)
      ensures toasts == old(toasts) && sent == old(sent)
    {
      if step != "loading" && step != "success" {
        storage := storage[StorageKey := Draft(step, Snapshot(formData), now)];
      }
    }

    /** `updateFormData`: the shallow merge of a step's update. */
    method UpdateFormData(p: FormPatch)
      modifies this
      ensures formData == Merge(old(formData), p)
      ensures step == old(step) && storage == old(storage) && isSubmitting == old(isSubmitting)
      ensures toasts == old(toasts) && sent == old(sent)
    {
      formData := Merge(formData, p);
    }

    /** The current step's `onNext` (the loading screen's `onComplete`),
        a no-op where the wiring gives none. */
    method OnNext()
      modifies this
      ensures step == if NextStep(old(step)).Some? then NextStep(old(step)).value else old(step)
      ensures formData == old(formData) && storage == old(storage) && isSubmitting == old(isSubmitting)
      ensures toasts == old(toasts) && sent == old(sent)
    {
      var next := NextStep(step);
      if next.Some? {
        step := next.value;
      }
    }

    /** `handleSubmit`: the payload is built and sent; on success the
        draft is removed and the step becomes success, on any failure
        (an absent amount, or the call failing) a toast is shown and step
        and storage stay; the flag is down again either way. */
    method HandleSubmit(sendSucceeds: bool, isoTime: string)
      modifies this
      ensures !isSubmitting
      ensures formData == old(formData)
      ensures var payload := BuildPayload(old(formData), isoTime);
        && sent == old(sent) + (if payload.Some? then [payload.value] else [])
        && (payload.Some? && sendSucceeds ==>
              storage == old(storage) - {StorageKey} && step == "success" && toasts == old(toasts))
        && (!(payload.Some? && sendSucceeds) ==>
              storage == old(storage) && step == old(step) && toasts == old(toasts) + [SubmitErrorTitle])
    {
      isSubmitting := true;
      var payload := BuildPayload(formData, isoTime);
      if payload.None? {
        toasts := toasts + [SubmitErrorTitle];
      } else {
        sent := sent + [payload.value];
        if sendSucceeds {
          storage := storage - {StorageKey};
          step := "success";
        } else {
          toasts := toasts + [SubmitErrorTitle];
        }
      }
      isSubmitting := false;
    }
  }

  /** After a successful submission the save effect writes nothing, so
      the draft stays removed. */
  lemma SuccessKeepsDraftRemoved(storage: map<string, SavedBlob>, f: FormData, now: int)
    ensures StorageKey !in Saved(storage - {StorageKey}, "success", f, now)
  {
  }

  /** The mount effect never restores onto the loading or success screen,
      so a restored wizard is always on a screen that is saved again. */
  lemma RestoredStepIsSaved(blob: SavedBlob, now: int, storage: map<string, SavedBlob>, f: FormData, later: int)
    requires ShouldRestore(blob, now)
    ensures StorageKey in Saved(storage, blob.step, f, later)
  {
  }
}
