/** The submission pipeline (src/services/cadastroService.ts): the record
    written to the `cadastros_clientes` table, the webhook payload, the
    webhook-URL lookup with its fallback, and `finalizarCadastro`'s order
    of steps with its fixed failure semantics.  The settings lookup, the
    insert, the HTTP call and the row update are outcome parameters; the
    table and the sent requests are fields of a `Backend` object. */
module CadastroService {
  import opened Wrappers
  import opened Validation
  import opened QuizTypes
  import Quiz

  /** `WEBHOOK_URL_FALLBACK`. */
  const WebhookUrlFallback: string := "https://webhook.companychatautomacoeseia.com/webhook/formcliente"

  /** What the settings lookup of `getWebhookUrlProd` ran into: no signed-in
      user, a query error, a thrown exception, or the stored settings with
      or without a `webhook_url_prod`. */
  datatype ConfigLookup = NotSignedIn | QueryError | LookupThrew | Found(webhookUrlProd: Option<string>)

  /** `getWebhookUrlProd`: the configured URL when it is a non-empty
      string, the fallback in every other case, so the result is never
      empty and `enviarParaWebhookN8n`'s `!webhookUrl` branch is dead. */
  function GetWebhookUrlProd(lookup: ConfigLookup): (url: string)
    ensures url != []
    ensures url == WebhookUrlFallback || (lookup.Found? && lookup.webhookUrlProd == Some(url))
    ensures (lookup.Found? && lookup.webhookUrlProd.Some? && lookup.webhookUrlProd.value != []) ==>
      url == lookup.webhookUrlProd.value
  {
    match lookup
    case NotSignedIn => WebhookUrlFallback
    case QueryError => WebhookUrlFallback
    case LookupThrew => WebhookUrlFallback
    case Found(prod) => if prod.Some? && prod.value != [] then prod.value else WebhookUrlFallback
  }

  /** The file descriptor stored and sent for each attachment. */
  datatype FileRef = FileRef(name: string, size: nat, mimeType: string)

  /** `formData.uploadedFiles.map(f => ({ name, size, type }))`. */
  function FileRefs(files: seq<UploadedFile>): (r: seq<FileRef>)
    ensures |r| == |files|
    ensures forall i | 0 <= i < |files| :: r[i] == FileRef(files[i].name, files[i].size, files[i].mimeType)
  {
    if files == [] then [] else [FileRef(files[0].name, files[0].size, files[0].mimeType)] + FileRefs(files[1..])
  }

  /** The stored file references and the payload's file descriptors are
      the same projection: file by file, the same name, size and type. */
  lemma FileRefsMatchDescribe(files: seq<UploadedFile>)
    ensures |FileRefs(files)| == |Quiz.Describe(files)|
    ensures forall i | 0 <= i < |files| ::
      var r := FileRefs(files)[i]; var d := Quiz.Describe(files)[i];
      r.name == d.name && r.size == d.size && r.mimeType == d.mimeType
  {
  }

  /** `CadastroInsert`. */
  datatype CadastroInsert = CadastroInsert(
    nomeResponsavel: string,
    nomeEmpresa: string,
    segmentoProdutoServico: string,
    cpfCnpj: string,
    emailPrincipal: string,
    foneWhatsapp: string,
    servicosContratados: seq<string>,
    modeloContratacao: string,
    valorSetup: Option<real>,
    valorMensalidade: Option<real>,
    valorUnico: Option<real>,
    formaPagamento: seq<string>,
    lembretePagamento: Option<bool>,
    funcaoPrincipal: seq<string>,
    perguntasComuns: string,
    tomComunicacao: string,
    telefoneContato: string,
    formasPagamentoAceitas: string,
    enderecoEmpresa: string,
    instagramEmpresa: string,
    siteEmpresa: string,
    topicosNaoAbordar: string,
    informacoesProdutosServicos: string,
    arquivosUpload: seq<FileRef>,
    status: string,
    origem: string)

  /** The record `salvarCadastroNoSupabase` inserts. */
  function BuildRecord(f: FormData): CadastroInsert {
    CadastroInsert(
      f.responsibleName, f.companyName, f.segment, f.cpfCnpj, f.email, f.phone,
      f.services, ContractModelName(f.contractModel),
      if f.contractModel == Monthly then Some(ParseCurrency(f.setupValue)) else None,
      if f.contractModel == Monthly then Some(ParseCurrency(f.monthlyValue)) else None,
      if f.contractModel == Single then Some(ParseCurrency(f.singleValue)) else None,
      f.paymentMethods, f.recurringReminder, f.mainFunctions, f.top5Questions,
      f.communicationTone, f.contactPhones, f.paymentMethodsAccepted, f.address,
      f.instagram, f.website, f.restrictedTopics, f.additionalInfo,
      FileRefs(f.uploadedFiles), "novo", "formulario_cadastro")
  }

  /** The monetary columns follow the contract model: setup and monthly
      fee exactly for the monthly model, the one-off value exactly for
      the single one, so all three are null when no model is chosen; the
      record is new, comes from the form, and lists every attachment in
      order. */
  lemma RecordMeaning(f: FormData)
    ensures var r := BuildRecord(f);
      && (r.valorSetup.Some? <==> f.contractModel == Monthly)
      && (r.valorMensalidade.Some? <==> f.contractModel == Monthly)
      && (r.valorUnico.Some? <==> f.contractModel == Single)
      && (f.contractModel == Unset ==> r.valorSetup.None? && r.valorMensalidade.None? && r.valorUnico.None?)
      && (r.valorSetup.Some? ==> r.valorSetup.value == ParseCurrency(f.setupValue))
      && (r.valorMensalidade.Some? ==> r.valorMensalidade.value == ParseCurrency(f.monthlyValue))
      && (r.valorUnico.Some? ==> r.valorUnico.value == ParseCurrency(f.singleValue))
      && r.status == "novo" && r.origem == "formulario_cadastro"
      && ParseContractModel(r.modeloContratacao) == Some(f.contractModel)
      && |r.arquivosUpload| == |f.uploadedFiles|
      && (forall i | 0 <= i < |f.uploadedFiles| :: r.arquivosUpload[i].name == f.uploadedFiles[i].name
            && r.arquivosUpload[i].size == f.uploadedFiles[i].size
            && r.arquivosUpload[i].mimeType == f.uploadedFiles[i].mimeType)
  {
    ContractModelRoundTrip(f.contractModel);
  }

  /** The webhook payload, section by section. */
  datatype CompanyPart = CompanyPart(responsibleName: string, companyName: string, segment: string,
                                     cpfCnpj: string, email: string, phone: string)
  datatype AgreementPart = AgreementPart(services: seq<string>, contractModel: string,
                                         setupValue: Option<real>, monthlyValue: Option<real>, singleValue: Option<real>,
                                         paymentMethods: seq<string>, recurringReminder: Option<bool>)
  datatype AssistantPart = AssistantPart(mainFunctions: seq<string>, top5Questions: string, communicationTone: string)
  datatype DigitalPart = DigitalPart(contactPhones: string, paymentMethodsAccepted: string, address: string,
                                     instagram: string, website: string, restrictedTopics: string)
  datatype MaterialsPart = MaterialsPart(additionalInfo: string, uploadedFiles: seq<FileRef>)
  datatype MetadataPart = MetadataPart(timestamp: string, source: string, status: string)
  datatype WebhookPayload = WebhookPayload(evento: string, id: Option<string>, company: CompanyPart,
                                           agreement: AgreementPart, assistant: AssistantPart, digital: DigitalPart,
                                           materials: MaterialsPart, metadata: MetadataPart)

  /** The payload `enviarParaWebhookN8n` posts. */
  function BuildWebhookPayload(f: FormData, cadastroId: Option<string>, isoTime: string): WebhookPayload {
    WebhookPayload(
      "cadastro_novo_finalizado", cadastroId,
      CompanyPart(f.responsibleName, f.companyName, f.segment, f.cpfCnpj, f.email, f.phone),
      AgreementPart(f.services, ContractModelName(f.contractModel),
        if f.contractModel == Monthly then Some(ParseCurrency(f.setupValue)) else None,
        if f.contractModel == Monthly then Some(ParseCurrency(f.monthlyValue)) else None,
        if f.contractModel == Single then Some(ParseCurrency(f.singleValue)) else None,
        f.paymentMethods, f.recurringReminder),
      AssistantPart(f.mainFunctions, f.top5Questions, f.communicationTone),
      DigitalPart(f.contactPhones, f.paymentMethodsAccepted, f.address, f.instagram, f.website, f.restrictedTopics),
      MaterialsPart(f.additionalInfo, FileRefs(f.uploadedFiles)),
      MetadataPart(isoTime, "onboarding_quiz", "novo"))
  }

  /** The payload and the stored record agree: same identity fields, the
      same contract-model rule for the three amounts, the same files and
      the same status. */
  lemma PayloadMatchesRecord(f: FormData, cadastroId: Option<string>, isoTime: string)
    ensures var p := BuildWebhookPayload(f, cadastroId, isoTime);
      var r := BuildRecord(f);
      && p.agreement.setupValue == r.valorSetup
      && p.agreement.monthlyValue == r.valorMensalidade
      && p.agreement.singleValue == r.valorUnico
      && p.agreement.contractModel == r.modeloContratacao
      && p.company.email == r.emailPrincipal && p.company.cpfCnpj == r.cpfCnpj
      && p.materials.uploadedFiles == r.arquivosUpload
      && p.metadata.status == r.status
      && p.id == cadastroId
  {
  }

  /** How the insert went: an error object, or the new row's id. */
  datatype InsertOutcome = InsertFailed(message: string) | Inserted(id: string)

  /** How the `fetch` went: a network failure, or a response. */
  datatype FetchOutcome = NetworkFailure | Responded(ok: bool)

  /** How a call ends: by throwing with a message, or by returning. */
  datatype CallResult<T> = Thrown(message: string) | Returned(value: T)

  const MissingFieldsMessage: string := "Campos obrigatórios não preenchidos"

  /** The basic check at the top of `finalizarCadastro`. */
  predicate RequiredMissing(f: FormData) {
    f.responsibleName == [] || f.companyName == [] || f.email == [] || f.phone == []
  }

  /** `finalizarCadastro`'s result: the missing-fields error, the insert's
      own error, or `{ success: true }` whatever the webhook does.  It has
      no webhook input: once the insert succeeds the call succeeds, since
      lines 255-266 swallow every webhook failure. */
  function FinalizeResult(f: FormData, insert: InsertOutcome): (r: CallResult<bool>)
    ensures r.Returned? ==> r.value
    ensures r.Returned? <==> !RequiredMissing(f) && insert.Inserted?
    ensures RequiredMissing(f) ==> r == Thrown(MissingFieldsMessage)
    ensures !RequiredMissing(f) && insert.InsertFailed? ==> r == Thrown(insert.message)
  {
    if RequiredMissing(f) then Thrown(MissingFieldsMessage)
    else if insert.InsertFailed? then Thrown(insert.message)
    else Returned(true)
  }

  /** A stored row: the record plus the webhook columns the update sets. */
  datatype Row = Row(record: CadastroInsert, webhookEnviado: bool, webhookData: Option<string>)

  /** A posted webhook request. */
  datatype Post = Post(url: string, payload: WebhookPayload)

  /** The row an update after a delivered webhook leaves. */
  function MarkSent(row: Row, isoTime: string): (r: Row)
    ensures r.record == row.record && r.webhookEnviado && r.webhookData == Some(isoTime)
  {
    row.(webhookEnviado := true, webhookData := Some(isoTime))
  }

  /** The table and the requests the service has sent. */
  class Backend {
    var table: map<string, Row>
    var posts: seq<Post>

    constructor(table0: map<string, Row>)
      ensures table == table0 && posts == []
    {
      table := table0;
      posts := [];
    }

    /** `salvarCadastroNoSupabase`: inserts the record and returns its id,
        or throws the insert's error and leaves the table as it was. */
    method SalvarCadastroNoSupabase(f: FormData, insert: InsertOutcome) returns (r: CallResult<string>)
      modifies this
      ensures insert.InsertFailed? ==> r == Thrown(insert.message) && table == old(table)
      ensures insert.Inserted? ==>
        r == Returned(insert.id) && table == old(table)[insert.id := Row(BuildRecord(f), false, None)]
      ensures posts == old(posts)
    {
      var cadastro := BuildRecord(f);
      if insert.InsertFailed? {
        r := Thrown(insert.message);
        return;
      }
      table := table[insert.id := Row(cadastro, false, None)];
      r := Returned(insert.id);
    }

    /** `enviarParaWebhookN8n`: posts the payload to the resolved URL; on
        an ok response it marks the row (when there is a non-empty id and
        the update reaches the row) and returns true; it catches every
        failure and returns false.  The clock is read twice, for the
        payload's `isoTime` and for the mark's `sentTime`. */
    method EnviarParaWebhookN8n(f: FormData, cadastroId: Option<string>, lookup: ConfigLookup,
                                fetch: FetchOutcome, updateApplies: bool, isoTime: string, sentTime: string)
      returns (ok: bool)
      modifies this
      ensures ok <==> fetch == Responded(true)
      ensures posts == old(posts) + [Post(GetWebhookUrlProd(lookup), BuildWebhookPayload(f, cadastroId, isoTime))]
      ensures var marks := ok && cadastroId.Some? && cadastroId.value != [] && updateApplies
                           && cadastroId.value in old(table);
        table == if marks then old(table)[cadastroId.value := MarkSent(old(table)[cadastroId.value], sentTime)]
                 else old(table)
    {
      var webhookUrl := GetWebhookUrlProd(lookup);
      if webhookUrl == [] {
        ok := false;
        return;
      }
      var payload := BuildWebhookPayload(f, cadastroId, isoTime);
      posts := posts + [Post(webhookUrl, payload)];
      if fetch != Responded(true) {
        ok := false;
        return;
      }
      if cadastroId.Some? && cadastroId.value != [] && updateApplies && cadastroId.value in table {
        table := table[cadastroId.value := MarkSent(table[cadastroId.value], sentTime)];
      }
      ok := true;
    }

    /** `finalizarCadastro`: the basic check, then the insert, whose
        failure is rethrown before any webhook is attempted, then the
        webhook, whose outcome never reaches the caller. */
    method FinalizarCadastro(f: FormData, insert: InsertOutcome, lookup: ConfigLookup,
                             fetch: FetchOutcome, updateApplies: bool, isoTime: string, sentTime: string)
      returns (r: CallResult<bool>)
      modifies this
      ensures r == FinalizeResult(f, insert)
      ensures r.Thrown? ==> table == old(table) && posts == old(posts)
      ensures r.Returned? ==>
        && insert.id in table && table[insert.id].record == BuildRecord(f)
        && (table[insert.id].webhookEnviado <==> fetch == Responded(true) && insert.id != [] && updateApplies)
        && posts == old(posts) + [Post(GetWebhookUrlProd(lookup), BuildWebhookPayload(f, Some(insert.id), isoTime))]
        && (forall id | id != insert.id :: (id in table <==> id in old(table)) && (id in table ==> table[id] == old(table)[id]))
    {
      if RequiredMissing(f) {
        r := Thrown(MissingFieldsMessage);
        return;
      }
      var saved := SalvarCadastroNoSupabase(f, insert);
      if saved.Thrown? {
        r := Thrown(saved.message);
        return;
      }
      var cadastroId := saved.value;
      var _ := EnviarParaWebhookN8n(f, Some(cadastroId), lookup, fetch, updateApplies, isoTime, sentTime);
      r := Returned(true);
    }
  }
}
