/** The form record the wizard fills in, the closed step enumeration and
    its progress and label tables (src/types/quiz.ts), together with the
    shallow merge `{...prev, ...data}` every step uses to update the
    record. */
module QuizTypes {
  import opened Wrappers

  /** `contractModel: 'monthly' | 'single' | ''`. */
  datatype ContractModel = Monthly | Single | Unset

  /** The JavaScript string each contract-model choice is stored as. */
  function ContractModelName(m: ContractModel): (s: string)
    ensures s == [] <==> m == Unset
  {
    match m
    case Monthly => "monthly"
    case Single => "single"
    case Unset => ""
  }

  /** Reading a stored string back: anything that is not one of the three
      names has no contract model. */
  function ParseContractModel(s: string): (r: Option<ContractModel>)
    ensures r.Some? ==> ContractModelName(r.value) == s
  {
    if s == "monthly" then Some(Monthly)
    else if s == "single" then Some(Single)
    else if s == "" then Some(Unset)
    else None
  }

  lemma ContractModelRoundTrip(m: ContractModel)
    ensures ParseContractModel(ContractModelName(m)) == Some(m)
  {
  }

  /** The part of a browser `File` the wizard reads: name, size in bytes
      and MIME type. */
  datatype UploadedFile = UploadedFile(name: string, size: nat, mimeType: string)

  /** The form record as the running program holds it: every declared
      field of `FormData`, plus the two keys the components write although
      the interface does not declare them (`agreedValue` from the company
      step, `existingSolutions` from the integration step).  `None` for
      those two is a key that is absent, which JavaScript reads as
      `undefined`. */
  datatype FormData = FormData(
    responsibleName: string,
    companyName: string,
    segment: string,
    cpfCnpj: string,
    email: string,
    phone: string,
    services: seq<string>,
    contractModel: ContractModel,
    setupValue: string,
    monthlyValue: string,
    singleValue: string,
    paymentMethods: seq<string>,
    recurringReminder: Option<bool>,
    mainFunctions: seq<string>,
    top5Questions: string,
    communicationTone: string,
    contactPhones: string,
    paymentMethodsAccepted: string,
    address: string,
    instagram: string,
    website: string,
    restrictedTopics: string,
    additionalInfo: string,
    uploadedFiles: seq<UploadedFile>,
    agreedValue: Option<string>,
    existingSolutions: Option<seq<string>>)

  /** `initialFormData`. */
  const InitialFormData: FormData := FormData(
    "", "", "", "", "", "",
    [], Unset, "", "", "", [], None,
    [], "", "",
    "", "", "", "", "", "",
    "", [],
    None, None)

  /** A record is blank when every string and list is empty, no contract
      model is chosen, the reminder is `null` and the undeclared keys are
      absent. */
  predicate IsBlank(f: FormData) {
    && f.responsibleName == [] && f.companyName == [] && f.segment == []
    && f.cpfCnpj == [] && f.email == [] && f.phone == []
    && f.services == [] && f.contractModel == Unset
    && f.setupValue == [] && f.monthlyValue == [] && f.singleValue == []
    && f.paymentMethods == [] && f.recurringReminder == None
    && f.mainFunctions == [] && f.top5Questions == [] && f.communicationTone == []
    && f.contactPhones == [] && f.paymentMethodsAccepted == [] && f.address == []
    && f.instagram == [] && f.website == [] && f.restrictedTopics == []
    && f.additionalInfo == [] && f.uploadedFiles == []
    && f.agreedValue == None && f.existingSolutions == None
  }

  /** The initial record is blank, and it is the only blank record. */
  lemma InitialFormDataBlank(f: FormData)
    ensures IsBlank(InitialFormData)
    ensures IsBlank(f) ==> f == InitialFormData
  {
  }

  // ---------------------------------------------------------------------
  // Partial records and the shallow merge
  // ---------------------------------------------------------------------

  /** `Partial<FormData>`: an object that carries some of the keys. */
  datatype FormPatch = FormPatch(
    responsibleName: Option<string>,
    companyName: Option<string>,
    segment: Option<string>,
    cpfCnpj: Option<string>,
    email: Option<string>,
    phone: Option<string>,
    services: Option<seq<string>>,
    contractModel: Option<ContractModel>,
    setupValue: Option<string>,
    monthlyValue: Option<string>,
    singleValue: Option<string>,
    paymentMethods: Option<seq<string>>,
    recurringReminder: Option<Option<bool>>,
    mainFunctions: Option<seq<string>>,
    top5Questions: Option<string>,
    communicationTone: Option<string>,
    contactPhones: Option<string>,
    paymentMethodsAccepted: Option<string>,
    address: Option<string>,
    instagram: Option<string>,
    website: Option<string>,
    restrictedTopics: Option<string>,
    additionalInfo: Option<string>,
    uploadedFiles: Option<seq<UploadedFile>>,
    agreedValue: Option<string>,
    existingSolutions: Option<seq<string>>)

  /** `{}`. */
  const EmptyPatch: FormPatch := FormPatch(
    None, None, None, None, None, None, None, None, None, None, None, None, None,
    None, None, None, None, None, None, None, None, None, None, None, None, None)

  function Pick<T>(p: Option<T>, v: T): T {
    if p.Some? then p.value else v
  }

  function PickOption<T>(p: Option<T>, v: Option<T>): Option<T> {
    if p.Some? then p else v
  }

  /** `{...f, ...p}`. */
  function Merge(f: FormData, p: FormPatch): FormData {
    FormData(
      Pick(p.responsibleName, f.responsibleName),
      Pick(p.companyName, f.companyName),
      Pick(p.segment, f.segment),
      Pick(p.cpfCnpj, f.cpfCnpj),
      Pick(p.email, f.email),
      Pick(p.phone, f.phone),
      Pick(p.services, f.services),
      Pick(p.contractModel, f.contractModel),
      Pick(p.setupValue, f.setupValue),
      Pick(p.monthlyValue, f.monthlyValue),
      Pick(p.singleValue, f.singleValue),
      Pick(p.paymentMethods, f.paymentMethods),
      Pick(p.recurringReminder, f.recurringReminder),
      Pick(p.mainFunctions, f.mainFunctions),
      Pick(p.top5Questions, f.top5Questions),
      Pick(p.communicationTone, f.communicationTone),
      Pick(p.contactPhones, f.contactPhones),
      Pick(p.paymentMethodsAccepted, f.paymentMethodsAccepted),
      Pick(p.address, f.address),
      Pick(p.instagram, f.instagram),
      Pick(p.website, f.website),
      Pick(p.restrictedTopics, f.restrictedTopics),
      Pick(p.additionalInfo, f.additionalInfo),
      Pick(p.uploadedFiles, f.uploadedFiles),
      PickOption(p.agreedValue, f.agreedValue),
      PickOption(p.existingSolutions, f.existingSolutions))
  }

  /** `{...p, ...q}`: a later patch wins key by key. */
  function Combine(p: FormPatch, q: FormPatch): FormPatch {
    FormPatch(
      PickOption(q.responsibleName, p.responsibleName),
      PickOption(q.companyName, p.companyName),
      PickOption(q.segment, p.segment),
      PickOption(q.cpfCnpj, p.cpfCnpj),
      PickOption(q.email, p.email),
      PickOption(q.phone, p.phone),
      PickOption(q.services, p.services),
      PickOption(q.contractModel, p.contractModel),
      PickOption(q.setupValue, p.setupValue),
      PickOption(q.monthlyValue, p.monthlyValue),
      PickOption(q.singleValue, p.singleValue),
      PickOption(q.paymentMethods, p.paymentMethods),
      PickOption(q.recurringReminder, p.recurringReminder),
      PickOption(q.mainFunctions, p.mainFunctions),
      PickOption(q.top5Questions, p.top5Questions),
      PickOption(q.communicationTone, p.communicationTone),
      PickOption(q.contactPhones, p.contactPhones),
      PickOption(q.paymentMethodsAccepted, p.paymentMethodsAccepted),
      PickOption(q.address, p.address),
      PickOption(q.instagram, p.instagram),
      PickOption(q.website, p.website),
      PickOption(q.restrictedTopics, p.restrictedTopics),
      PickOption(q.additionalInfo, p.additionalInfo),
      PickOption(q.uploadedFiles, p.uploadedFiles),
      PickOption(q.agreedValue, p.agreedValue),
      PickOption(q.existingSolutions, p.existingSolutions))
  }

  /** The keys of the record, for stating the merge key by key. */
  datatype Field =
    | ResponsibleName | CompanyName | Segment | CpfCnpj | Email | Phone
    | Services | ContractModelField | SetupValue | MonthlyValue | SingleValue
    | PaymentMethods | RecurringReminder | MainFunctions | Top5Questions
    | CommunicationTone | ContactPhones | PaymentMethodsAccepted | Address
    | Instagram | Website | RestrictedTopics | AdditionalInfo | UploadedFiles
    | AgreedValue | ExistingSolutions

  /** The value stored under a key; `Absent` is a key the object lacks. */
  datatype Value =
    | Str(s: string)
    | Strs(l: seq<string>)
    | Model(m: ContractModel)
    | Reminder(b: Option<bool>)
    | Files(files: seq<UploadedFile>)
    | Absent

  function OptStr(o: Option<string>): Value {
    if o.Some? then Str(o.value) else Absent
  }

  function OptStrs(o: Option<seq<string>>): Value {
    if o.Some? then Strs(o.value) else Absent
  }

  /** `f[k]`. */
  function Get(f: FormData, k: Field): Value {
    match k
    case ResponsibleName => Str(f.responsibleName)
    case CompanyName => Str(f.companyName)
    case Segment => Str(f.segment)
    case CpfCnpj => Str(f.cpfCnpj)
    case Email => Str(f.email)
    case Phone => Str(f.phone)
    case Services => Strs(f.services)
    case ContractModelField => Model(f.contractModel)
    case SetupValue => Str(f.setupValue)
    case MonthlyValue => Str(f.monthlyValue)
    case SingleValue => Str(f.singleValue)
    case PaymentMethods => Strs(f.paymentMethods)
    case RecurringReminder => Reminder(f.recurringReminder)
    case MainFunctions => Strs(f.mainFunctions)
    case Top5Questions => Str(f.top5Questions)
    case CommunicationTone => Str(f.communicationTone)
    case ContactPhones => Str(f.contactPhones)
    case PaymentMethodsAccepted => Str(f.paymentMethodsAccepted)
    case Address => Str(f.address)
    case Instagram => Str(f.instagram)
    case Website => Str(f.website)
    case RestrictedTopics => Str(f.restrictedTopics)
    case AdditionalInfo => Str(f.additionalInfo)
    case UploadedFiles => Files(f.uploadedFiles)
    case AgreedValue => OptStr(f.agreedValue)
    case ExistingSolutions => OptStrs(f.existingSolutions)
  }

  /** `p[k]`, `None` when the patch does not carry the key. */
  function PatchGet(p: FormPatch, k: Field): Option<Value> {
    match k
    case ResponsibleName => if p.responsibleName.Some? then Some(Str(p.responsibleName.value)) else None
    case CompanyName => if p.companyName.Some? then Some(Str(p.companyName.value)) else None
    case Segment => if p.segment.Some? then Some(Str(p.segment.value)) else None
    case CpfCnpj => if p.cpfCnpj.Some? then Some(Str(p.cpfCnpj.value)) else None
    case Email => if p.email.Some? then Some(Str(p.email.value)) else None
    case Phone => if p.phone.Some? then Some(Str(p.phone.value)) else None
    case Services => if p.services.Some? then Some(Strs(p.services.value)) else None
    case ContractModelField => if p.contractModel.Some? then Some(Model(p.contractModel.value)) else None
    case SetupValue => if p.setupValue.Some? then Some(Str(p.setupValue.value)) else None
    case MonthlyValue => if p.monthlyValue.Some? then Some(Str(p.monthlyValue.value)) else None
    case SingleValue => if p.singleValue.Some? then Some(Str(p.singleValue.value)) else None
    case PaymentMethods => if p.paymentMethods.Some? then Some(Strs(p.paymentMethods.value)) else None
    case RecurringReminder => if p.recurringReminder.Some? then Some(Reminder(p.recurringReminder.value)) else None
    case MainFunctions => if p.mainFunctions.Some? then Some(Strs(p.mainFunctions.value)) else None
    case Top5Questions => if p.top5Questions.Some? then Some(Str(p.top5Questions.value)) else None
    case CommunicationTone => if p.communicationTone.Some? then Some(Str(p.communicationTone.value)) else None
    case ContactPhones => if p.contactPhones.Some? then Some(Str(p.contactPhones.value)) else None
    case PaymentMethodsAccepted => if p.paymentMethodsAccepted.Some? then Some(Str(p.paymentMethodsAccepted.value)) else None
    case Address => if p.address.Some? then Some(Str(p.address.value)) else None
    case Instagram => if p.instagram.Some? then Some(Str(p.instagram.value)) else None
    case Website => if p.website.Some? then Some(Str(p.website.value)) else None
    case RestrictedTopics => if p.restrictedTopics.Some? then Some(Str(p.restrictedTopics.value)) else None
    case AdditionalInfo => if p.additionalInfo.Some? then Some(Str(p.additionalInfo.value)) else None
    case UploadedFiles => if p.uploadedFiles.Some? then Some(Files(p.uploadedFiles.value)) else None
    case AgreedValue => if p.agreedValue.Some? then Some(Str(p.agreedValue.value)) else None
    case ExistingSolutions => if p.existingSolutions.Some? then Some(Strs(p.existingSolutions.value)) else None
  }

  /** The shallow merge key by key: a key the patch carries takes the
      patch's value, every other key keeps the record's value. */
  lemma MergeByKey(f: FormData, p: FormPatch, k: Field)
    ensures Get(Merge(f, p), k) == if PatchGet(p, k).Some? then PatchGet(p, k).value else Get(f, k)
  {
    // one key at a time
    match k
    case ResponsibleName =>
    case CompanyName =>
    case Segment =>
    case CpfCnpj =>
    case Email =>
    case Phone =>
    case Services =>
    case ContractModelField =>
    case SetupValue =>
    case MonthlyValue =>
    case SingleValue =>
    case PaymentMethods =>
    case RecurringReminder =>
    case MainFunctions =>
    case Top5Questions =>
    case CommunicationTone =>
    case ContactPhones =>
    case PaymentMethodsAccepted =>
    case Address =>
    case Instagram =>
    case Website =>
    case RestrictedTopics =>
    case AdditionalInfo =>
    case UploadedFiles =>
    case AgreedValue =>
    case ExistingSolutions =>
  }

  /** Merging the empty patch changes nothing. */
  lemma MergeEmpty(f: FormData)
    ensures Merge(f, EmptyPatch) == f
  {
  }

  /** Applying the same patch twice is applying it once. */
  lemma MergeIdempotent(f: FormData, p: FormPatch)
    ensures Merge(Merge(f, p), p) == Merge(f, p)
  {
  }

  /** Two successive updates are one update with the combined patch. */
  lemma MergeCompose(f: FormData, p: FormPatch, q: FormPatch)
    ensures Merge(Merge(f, p), q) == Merge(f, Combine(p, q))
  {
  }

  // ---------------------------------------------------------------------
  // The saved draft
  // ---------------------------------------------------------------------

  /** What `JSON.stringify` keeps of the record once `uploadedFiles` is
      taken out: every declared key, and the undeclared ones only when
      present (an `undefined` property is not written). */
  function Snapshot(f: FormData): (p: FormPatch)
    ensures p.uploadedFiles == None
  {
    FormPatch(
      Some(f.responsibleName), Some(f.companyName), Some(f.segment),
      Some(f.cpfCnpj), Some(f.email), Some(f.phone),
      Some(f.services), Some(f.contractModel), Some(f.setupValue),
      Some(f.monthlyValue), Some(f.singleValue), Some(f.paymentMethods),
      Some(f.recurringReminder), Some(f.mainFunctions), Some(f.top5Questions),
      Some(f.communicationTone), Some(f.contactPhones), Some(f.paymentMethodsAccepted),
      Some(f.address), Some(f.instagram), Some(f.website), Some(f.restrictedTopics),
      Some(f.additionalInfo), None,
      f.agreedValue, f.existingSolutions)
  }

  /** `{...initialFormData, ...saved, uploadedFiles: []}`. */
  function Restore(saved: FormPatch): (f: FormData)
    ensures f.uploadedFiles == []
  {
    Merge(Merge(InitialFormData, saved), EmptyPatch.(uploadedFiles := Some([])))
  }

  /** A saved draft restores to the record it was taken from, except that
      the attachments are gone. */
  lemma RestoreSnapshot(f: FormData)
    ensures Restore(Snapshot(f)) == f.(uploadedFiles := [])
  {
  }

  /** Restoring a draft that carries no keys gives the initial record. */
  lemma RestoreEmpty()
    ensures Restore(EmptyPatch) == InitialFormData
  {
  }

  // ---------------------------------------------------------------------
  // Steps, progress and labels
  // ---------------------------------------------------------------------

  /** `QuizStep`, in the order the wizard presents them. */
  datatype QuizStep = Loading | Welcome | Company | Personalization | Digital | Materials | Review | Success

  /** The position of a step in the declared order. */
  function StepIndex(s: QuizStep): (i: nat)
    ensures i < 8
  {
    match s
    case Loading => 0
    case Welcome => 1
    case Company => 2
    case Personalization => 3
    case Digital => 4
    case Materials => 5
    case Review => 6
    case Success => 7
  }

  /** The string the step is stored and compared as. */
  function StepName(s: QuizStep): string {
    match s
    case Loading => "loading"
    case Welcome => "welcome"
    case Company => "company"
    case Personalization => "personalization"
    case Digital => "digital"
    case Materials => "materials"
    case Review => "review"
    case Success => "success"
  }

  /** Reading a step back from a string; any other string is not a step. */
  function ParseStep(name: string): (r: Option<QuizStep>)
    ensures r.Some? ==> StepName(r.value) == name
  {
    if name == "loading" then Some(Loading)
    else if name == "welcome" then Some(Welcome)
    else if name == "company" then Some(Company)
    else if name == "personalization" then Some(Personalization)
    else if name == "digital" then Some(Digital)
    else if name == "materials" then Some(Materials)
    else if name == "review" then Some(Review)
    else if name == "success" then Some(Success)
    else None
  }

  /** Different steps have different names, and every name reads back. */
  lemma StepNameRoundTrip(s: QuizStep, t: QuizStep)
    ensures ParseStep(StepName(s)) == Some(s)
    ensures StepName(s) == StepName(t) ==> s == t
  {
  }

  /** The wizard wires an `integration` step that the enumeration does not
      contain. */
  lemma IntegrationIsNotAStep()
    ensures ParseStep("integration") == None
  {
  }

  /** `STEP_PROGRESS`. */
  function StepProgress(s: QuizStep): nat {
    match s
    case Loading => 0
    case Welcome => 0
    case Company => 25
    case Personalization => 50
    case Digital => 75
    case Materials => 90
    case Review => 100
    case Success => 100
  }

  /** Progress never goes down along the step order, stays within 0..100,
      and is complete at review and at success. */
  lemma ProgressMonotone(s: QuizStep, t: QuizStep)
    ensures StepIndex(s) <= StepIndex(t) ==> StepProgress(s) <= StepProgress(t)
    ensures 0 <= StepProgress(s) <= 100
    ensures StepProgress(Review) == 100 && StepProgress(Success) == 100
  {
  }

  /** `STEP_LABELS`. */
  function StepLabel(s: QuizStep): string {
    match s
    case Loading => ""
    case Welcome => ""
    case Company => "Bloco 1 de 4 - Informações da Empresa e Acordo Comercial"
    case Personalization => "Bloco 2 de 4 - Personalização da IA"
    case Digital => "Bloco 3 de 4 - Presença Digital"
    case Materials => "Bloco 4 de 4 - Materiais e Informações"
    case Review => "Revisão Final"
    case Success => ""
  }

  /** The steps without a progress bar are exactly the ones without a label. */
  lemma LabelEmptyIff(s: QuizStep)
    ensures StepLabel(s) == [] <==> s in {Loading, Welcome, Success}
  {
  }
}
