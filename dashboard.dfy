/** The admin dashboard's figures (src/pages/Dashboard.tsx): the counts,
    average ticket and recurring total of `calculateStats`, and the
    display fallbacks of the status badge, the amount and the contract
    model. */
module Dashboard {
  import opened Wrappers
  import opened Lists

  /** The part of a `cadastros_clientes` row the dashboard computes with;
      `None` is SQL `null`. */
  datatype Cadastro = Cadastro(id: string, status: string, modeloContratacao: Option<string>, valorAcordado: Option<real>)

  /** `Stats`. */
  datatype Stats = Stats(total: nat, novos: nat, emAndamento: nat, ativos: nat, ticketMedio: real, totalRecorrente: real)

  predicate IsNovo(c: Cadastro) { c.status == "novo" }

  /** `['em_analise', 'em_configuracao', 'lancamento'].includes(c.status)`. */
  predicate InProgress(c: Cadastro) { c.status in {"em_analise", "em_configuracao", "lancamento"} }

  predicate IsAtivo(c: Cadastro) { c.status == "ativo" }

  /** `c.valor_acordado` as a condition: present and not zero. */
  predicate HasValue(c: Cadastro) { c.valorAcordado.Some? && c.valorAcordado.value != 0.0 }

  predicate IsRecurring(c: Cadastro) { c.modeloContratacao == Some("monthly") && c.status == "ativo" }

  /** `Number(c.valor_acordado) || 0`. */
  function ValueOrZero(c: Cadastro): real {
    if c.valorAcordado.Some? then c.valorAcordado.value else 0.0
  }

  /** `.reduce((a, b) => a + b, 0)`. */
  function Sum(xs: seq<real>): real {
    if xs == [] then 0.0 else xs[0] + Sum(xs[1..])
  }

  /** `.map(c => Number(c.valor_acordado))` (and the `|| 0` of the
      recurring total, which only matters for `null`). */
  function Values(cs: seq<Cadastro>): (r: seq<real>)
    ensures |r| == |cs|
  {
    if cs == [] then [] else [ValueOrZero(cs[0])] + Values(cs[1..])
  }

  /** `valoresValidos`: the amounts that are present and non-zero, in order. */
  function ValoresValidos(data: seq<Cadastro>): (r: seq<real>)
    ensures |r| == |Filter(data, HasValue)|
  {
    Values(Filter(data, HasValue))
  }

  /** `valores.length > 0 ? sum / valores.length : 0`. */
  function Mean(valores: seq<real>): real {
    if |valores| > 0 then Sum(valores) / (|valores| as real) else 0.0
  }

  /** `calculateStats`. */
  function CalculateStats(data: seq<Cadastro>): Stats {
    var valoresValidos := ValoresValidos(data);
    Stats(
      |data|,
      |Filter(data, IsNovo)|,
      |Filter(data, InProgress)|,
      |Filter(data, IsAtivo)|,
      Mean(valoresValidos),
      Sum(Values(Filter(data, IsRecurring))))
  }

  /** The three status groups are disjoint, so together they count at
      most every record once. */
  lemma {:induction false} GroupsDisjoint(data: seq<Cadastro>)
    ensures forall c: Cadastro :: !(IsNovo(c) && InProgress(c)) && !(IsNovo(c) && IsAtivo(c)) && !(InProgress(c) && IsAtivo(c))
    ensures |Filter(data, IsNovo)| + |Filter(data, InProgress)| + |Filter(data, IsAtivo)| <= |data|
  {
    if data != [] {
      GroupsDisjoint(data[1..]);
    }
  }

  /** The total is the number of records, the three groups together count
      at most that many, and a record of an unknown status is in none of
      them. */
  lemma StatsCounts(data: seq<Cadastro>)
    ensures CalculateStats(data).total == |data|
    ensures CalculateStats(data).novos + CalculateStats(data).emAndamento + CalculateStats(data).ativos <= CalculateStats(data).total
  {
    GroupsDisjoint(data);
  }

  /** Sums add over concatenation. */
  lemma {:induction false} SumConcat(a: seq<real>, b: seq<real>)
    ensures Sum(a + b) == Sum(a) + Sum(b)
  {
    if a == [] {
      assert a + b == b;
    } else {
      assert (a + b)[1..] == a[1..] + b;
      SumConcat(a[1..], b);
    }
  }

  lemma {:induction false} ValuesConcat(a: seq<Cadastro>, b: seq<Cadastro>)
    ensures Values(a + b) == Values(a) + Values(b)
  {
    if a == [] {
      assert a + b == b;
    } else {
      assert (a + b)[1..] == a[1..] + b;
      ValuesConcat(a[1..], b);
    }
  }

  /** The average ticket is the mean of the non-zero amounts: times their
      number it gives their sum, and it is 0 when there is none. */
  lemma TicketMeaning(data: seq<Cadastro>)
    ensures |ValoresValidos(data)| == 0 ==> CalculateStats(data).ticketMedio == 0.0
    ensures |ValoresValidos(data)| > 0 ==>
      CalculateStats(data).ticketMedio * (|ValoresValidos(data)| as real) == Sum(ValoresValidos(data))
  {
    MeanMeaning(ValoresValidos(data));
  }

  /** Every amount the average takes in is a present, non-zero amount of
      some record. */
  lemma ValoresValidosMeaning(data: seq<Cadastro>)
    ensures forall x | x in ValoresValidos(data) :: x != 0.0
    ensures forall x | x in ValoresValidos(data) :: exists c | c in data :: c.valorAcordado == Some(x)
    ensures forall i | 0 <= i < |Filter(data, HasValue)| ::
      Some(ValoresValidos(data)[i]) == Filter(data, HasValue)[i].valorAcordado
    ensures forall c | c in data && HasValue(c) :: c.valorAcordado.value in ValoresValidos(data)
    ensures Subsequence(Filter(data, HasValue), data)
  {
    var kept := Filter(data, HasValue);
    FilterMeaning(data, HasValue);
    ValuesOfValued(kept);
    ValuesAt(kept);
    forall c | c in data && HasValue(c)
      ensures c.valorAcordado.value in ValoresValidos(data)
    {
      var i :| 0 <= i < |kept| && kept[i] == c;
      assert ValoresValidos(data)[i] == c.valorAcordado.value;
    }
  }

  /** Each amount of `Values` is the amount of the record at the same place. */
  lemma {:induction false} ValuesAt(cs: seq<Cadastro>)
    ensures forall i | 0 <= i < |cs| :: Values(cs)[i] == ValueOrZero(cs[i])
  {
    if cs != [] {
      ValuesAt(cs[1..]);
    }
  }

  lemma {:induction false} ValuesOfValued(cs: seq<Cadastro>)
    requires forall c | c in cs :: HasValue(c)
    ensures forall x | x in Values(cs) :: x != 0.0 && exists c | c in cs :: c.valorAcordado == Some(x)
  {
    if cs != [] {
      ValuesOfValued(cs[1..]);
      assert cs[0] in cs;
      forall x | x in Values(cs)
        ensures exists c | c in cs :: c.valorAcordado == Some(x)
      {
        if x != ValueOrZero(cs[0]) {
          assert x in Values(cs[1..]);
          var c :| c in cs[1..] && c.valorAcordado == Some(x);
          assert c in cs;
        }
      }
    }
  }

  /** The mean times the number of values is their sum; no values give 0. */
  lemma MeanMeaning(v: seq<real>)
    ensures |v| == 0 ==> Mean(v) == 0.0
    ensures |v| > 0 ==> Mean(v) * (|v| as real) == Sum(v)
  {
  }

  /** The recurring total adds up over a split of the records, and a
      record that is not an active monthly contract adds nothing. */
  lemma RecurringAdditive(a: seq<Cadastro>, b: seq<Cadastro>)
    ensures CalculateStats(a + b).totalRecorrente == CalculateStats(a).totalRecorrente + CalculateStats(b).totalRecorrente
  {
    FilterConcat(a, b, IsRecurring);
    ValuesConcat(Filter(a, IsRecurring), Filter(b, IsRecurring));
    SumConcat(Values(Filter(a, IsRecurring)), Values(Filter(b, IsRecurring)));
  }

  /** One record's share of the recurring total: its amount (0 for
      `null`) when it is an active monthly contract, nothing otherwise. */
  lemma RecurringSingle(c: Cadastro)
    ensures CalculateStats([c]).totalRecorrente == if IsRecurring(c) then ValueOrZero(c) else 0.0
  {
    assert [c][1..] == [];
    var kept := Filter([c], IsRecurring);
    assert kept == (if IsRecurring(c) then [c] else []) + Filter([], IsRecurring);
    if IsRecurring(c) {
      assert kept == [c];
      assert Values(kept) == [ValueOrZero(c)] + Values([]);
      assert Sum([ValueOrZero(c)]) == ValueOrZero(c) + Sum([]);
    } else {
      assert kept == [];
    }
  }

  /** A new record changes the average ticket only when its amount is
      present and non-zero. */
  lemma TicketIgnoresMissing(data: seq<Cadastro>, c: Cadastro)
    requires !HasValue(c)
    ensures CalculateStats(data + [c]).ticketMedio == CalculateStats(data).ticketMedio
  {
    FilterConcat(data, [c], HasValue);
    assert Filter([c], HasValue) == [];
    assert Filter(data, HasValue) + [] == Filter(data, HasValue);
  }

  /** `statusColors[status] || 'bg-gray-500/20 text-gray-400'`. */
  function StatusClass(status: string): string {
    if status == "novo" then "bg-blue-500/20 text-blue-400 border-blue-500/30"
    else if status == "em_analise" then "bg-yellow-500/20 text-yellow-400 border-yellow-500/30"
    else if status == "em_configuracao" then "bg-purple-500/20 text-purple-400 border-purple-500/30"
    else if status == "lancamento" then "bg-orange-500/20 text-orange-400 border-orange-500/30"
    else if status == "ativo" then "bg-green-500/20 text-green-400 border-green-500/30"
    else GrayClass
  }

  /** The badge classes of a status the tables do not know. */
  const GrayClass: string := "bg-gray-500/20 text-gray-400"

  /** `statusLabels[status] || status`. */
  function StatusLabel(status: string): string {
    if status == "novo" then "Novo"
    else if status == "em_analise" then "Em Análise"
    else if status == "em_configuracao" then "Em Configuração"
    else if status == "lancamento" then "Lançamento"
    else if status == "ativo" then "Ativo"
    else status
  }

  /** The statuses the badge tables know. */
  const BadgeStatuses: set<string> := {"novo", "em_analise", "em_configuracao", "lancamento", "ativo"}

  /** A status the tables do not know is shown as its raw value in gray;
      a known one gets its own colour. */
  lemma BadgeFallback(status: string)
    ensures status !in BadgeStatuses ==> StatusLabel(status) == status && StatusClass(status) == GrayClass
    ensures status in BadgeStatuses ==> StatusClass(status) != GrayClass
  {
    if status in BadgeStatuses {
      KnownBadgeLonger(status);
    }
  }

  lemma KnownBadgeLonger(status: string)
    requires status in BadgeStatuses
    ensures |StatusClass(status)| > |GrayClass|
  {
    // every known class also sets a border colour, so it is the longer one
    assert |GrayClass| == 28;
    if status == "novo" {
      assert |StatusClass(status)| == 47;
    } else if status == "em_analise" {
      assert |StatusClass(status)| == 53;
    } else if status == "em_configuracao" {
      assert |StatusClass(status)| == 53;
    } else if status == "lancamento" {
      assert |StatusClass(status)| == 53;
    } else {
      assert |StatusClass(status)| == 50;
    }
  }

  /** The modal's model text: `'Mensal'` only for `'monthly'`. */
  function ModelText(modelo: Option<string>): (r: string)
    ensures r == "Mensal" <==> modelo == Some("monthly")
  {
    if modelo == Some("monthly") then "Mensal" else "Único"
  }

  /** The amount cell: the amount, formatted for pt-BR after `R$ `, or
      `-` (`None`) when the amount is `null` or zero. */
  function AmountShown(valor: Option<real>): (r: Option<real>)
    ensures r.None? <==> valor.None? || valor.value == 0.0
    ensures r.Some? ==> r == valor
  {
    if valor.Some? && valor.value != 0.0 then valor else None
  }
}
