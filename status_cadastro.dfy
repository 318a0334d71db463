/** The sign-up status table (src/constants/statusCadastro.ts): six
    entries in declaration order and a lookup by value that falls back
    to the first. */
module StatusCadastro {
  import opened Wrappers

  /** `StatusInfo`; the `label` field is `rotulo` here, `label` being a
      keyword. */
  datatype StatusInfo = StatusInfo(
    valor: string, rotulo: string, cor: string, corBg: string,
    corBorda: string, corTexto: string, icone: string, descricao: string)

  const Novo: StatusInfo := StatusInfo("novo", "Novo", "#3B82F6", "bg-blue-500/10",
    "border-blue-500/30", "text-blue-400", "📋", "Lead acabou de preencher o formulário")
  const EmNegociacao: StatusInfo := StatusInfo("em_negociacao", "Em Negociação", "#F59E0B", "bg-yellow-500/10",
    "border-yellow-500/30", "text-yellow-400", "💬", "Em contato, negociando proposta")
  const AguardandoPagamento: StatusInfo := StatusInfo("aguardando_pagamento", "Aguardando Pagamento", "#FB923C",
    "bg-orange-500/10", "border-orange-500/30", "text-orange-400", "💰",
    "Proposta aceita, aguardando confirmação de pagamento")
  const Ativo: StatusInfo := StatusInfo("ativo", "Ativo", "#00FF94", "bg-[#00FF94]/10",
    "border-[#00FF94]/30", "text-[#00FF94]", "✅", "Cliente pagou, assistente implementado")
  const Pausado: StatusInfo := StatusInfo("pausado", "Pausado", "#A855F7", "bg-purple-500/10",
    "border-purple-500/30", "text-purple-400", "⏸️", "Pausado temporariamente pelo cliente")
  const Cancelado: StatusInfo := StatusInfo("cancelado", "Cancelado", "#EF4444", "bg-red-500/10",
    "border-red-500/30", "text-red-400", "❌", "Cliente desistiu ou não qualificado")

  /** `Object.values(STATUS_CADASTRO)`: the entries in declaration order. */
  const StatusTable: seq<StatusInfo> := [Novo, EmNegociacao, AguardandoPagamento, Ativo, Pausado, Cancelado]

  /** The six status values. */
  const KnownValores: set<string> := {"novo", "em_negociacao", "aguardando_pagamento", "ativo", "pausado", "cancelado"}

  /** `entries.find(s => s.valor === v)`. */
  function Find(entries: seq<StatusInfo>, v: string): (r: Option<StatusInfo>)
    ensures r.Some? ==> r.value in entries && r.value.valor == v
    ensures r.None? <==> forall i | 0 <= i < |entries| :: entries[i].valor != v
  {
    if entries == [] then None
    else if entries[0].valor == v then Some(entries[0])
    else Find(entries[1..], v)
  }

  /** `find` returns the first matching entry. */
  lemma {:induction false} FindFirst(entries: seq<StatusInfo>, v: string, i: int)
    requires 0 <= i < |entries| && entries[i].valor == v
    requires forall j | 0 <= j < i :: entries[j].valor != v
    ensures Find(entries, v) == Some(entries[i])
  {
    if i > 0 {
      FindFirst(entries[1..], v, i - 1);
    }
  }

  /** `getStatusInfo`. */
  function GetStatusInfo(statusValor: string): (r: StatusInfo)
    ensures r in StatusTable
  {
    match Find(StatusTable, statusValor)
    case Some(info) => info
    case None => Novo
  }

  /** `getAllStatuses`. */
  function GetAllStatuses(): (r: seq<StatusInfo>)
    ensures |r| == 6
  {
    StatusTable
  }

  /** No two entries share a value, so the lookup is unambiguous, and the
      values are exactly the six known ones, in declaration order. */
  lemma TableValores()
    ensures forall i, j | 0 <= i < j < |StatusTable| :: StatusTable[i].valor != StatusTable[j].valor
    ensures forall i | 0 <= i < |StatusTable| :: StatusTable[i].valor in KnownValores
    ensures forall v | v in KnownValores :: exists i | 0 <= i < |StatusTable| :: StatusTable[i].valor == v
    ensures GetAllStatuses() == [Novo, EmNegociacao, AguardandoPagamento, Ativo, Pausado, Cancelado]
  {
    assert StatusTable[0].valor == "novo";
    assert StatusTable[1].valor == "em_negociacao";
    assert StatusTable[2].valor == "aguardando_pagamento";
    assert StatusTable[3].valor == "ativo";
    assert StatusTable[4].valor == "pausado";
    assert StatusTable[5].valor == "cancelado";
  }

  /** A known value finds its own entry; any other value gets the `NOVO`
      entry; and either way the entry's value is a known one. */
  lemma GetStatusInfoMeaning(v: string)
    ensures v in KnownValores ==> GetStatusInfo(v).valor == v
    ensures v !in KnownValores ==> GetStatusInfo(v) == Novo
    ensures GetStatusInfo(v).valor in KnownValores
  {
    TableValores();
  }
}
