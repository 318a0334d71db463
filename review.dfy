/** The final review step (src/components/quiz/ReviewStep.tsx): the
    display texts of the summary and the confirmation gate in front of
    submission. */
module ReviewStep {
  import opened Text
  import opened QuizTypes

  const NotInformed: string := "Não informado"
  const NotSelected: string := "Não selecionado"

  /** `value || 'Não informado'`. */
  function OrNotInformed(value: string): (r: string)
    ensures r != []
    ensures value != [] ==> r == value
  {
    if value == [] then NotInformed else value
  }

  /** `formatArray`. */
  function FormatArray(items: seq<string>): string {
    if |items| > 0 then Join(items, ", ") else NotInformed
  }

  /** An empty list shows the placeholder, a single item shows itself, and
      each further item is appended after a comma and a space. */
  lemma FormatArrayMeaning(items: seq<string>, item: string)
    ensures FormatArray([]) == NotInformed
    ensures FormatArray([item]) == item
    ensures items != [] ==> FormatArray(items + [item]) == FormatArray(items) + ", " + item
  {
    if items != [] {
      JoinSnoc(items, item, ", ");
    }
  }

  /** `getContractModelText`. */
  function ContractModelText(m: ContractModel): (r: string)
    ensures r == NotSelected <==> m == Unset
  {
    match m
    case Monthly => "Projeto com Assinatura Mensal"
    case Single => "Projeto Único"
    case Unset => NotSelected
  }

  /** The three choices show three different texts. */
  lemma ContractModelTextDistinct(m: ContractModel, n: ContractModel)
    ensures ContractModelText(m) == ContractModelText(n) ==> m == n
  {
  }

  /** The tone ids the personalization step offers. */
  const ToneIds: set<string> := {"professional", "friendly", "technical", "consultive"}

  /** `getToneText`: the label of a known tone id, the placeholder for any
      other value (the `||` fallback is reached only there, every label
      being non-empty). */
  function ToneText(tone: string): (r: string)
    ensures r == NotSelected <==> tone !in ToneIds
  {
    if tone == "professional" then "Profissional e formal"
    else if tone == "friendly" then "Amigável e descontraído"
    else if tone == "technical" then "Técnico e objetivo"
    else if tone == "consultive" then "Consultivo e educativo"
    else NotSelected
  }

  /** Different known tones show different labels. */
  lemma ToneTextDistinct(a: string, b: string)
    requires a in ToneIds && b in ToneIds
    ensures ToneText(a) == ToneText(b) ==> a == b
  {
  }

  /** One labelled value of the commercial-agreement summary. */
  datatype ValueRow = ValueRow(caption: string, value: string)

  /** The value rows under the contract model: setup and monthly fee for
      the monthly model, the one-off value for the single model, none
      otherwise. */
  function ValueRows(f: FormData): seq<ValueRow> {
    if f.contractModel == Monthly then
      [ValueRow("Valor Setup", OrNotInformed(f.setupValue)), ValueRow("Valor Mensalidade", OrNotInformed(f.monthlyValue))]
    else if f.contractModel == Single then
      [ValueRow("Valor Único", OrNotInformed(f.singleValue))]
    else []
  }

  /** Which rows appear depends only on the model, each shows its own field
      (or the placeholder), and a field of the other model never shows. */
  lemma ValueRowsMeaning(f: FormData)
    ensures (exists i | 0 <= i < |ValueRows(f)| :: ValueRows(f)[i].caption == "Valor Setup") <==> f.contractModel == Monthly
    ensures (exists i | 0 <= i < |ValueRows(f)| :: ValueRows(f)[i].caption == "Valor Mensalidade") <==> f.contractModel == Monthly
    ensures (exists i | 0 <= i < |ValueRows(f)| :: ValueRows(f)[i].caption == "Valor Único") <==> f.contractModel == Single
    ensures forall i | 0 <= i < |ValueRows(f)| ::
      ValueRows(f)[i].value == OrNotInformed(
        if ValueRows(f)[i].caption == "Valor Setup" then f.setupValue
        else if ValueRows(f)[i].caption == "Valor Mensalidade" then f.monthlyValue
        else f.singleValue)
  {
    var rows := ValueRows(f);
    if f.contractModel == Monthly {
      assert rows[0].caption == "Valor Setup" && rows[1].caption == "Valor Mensalidade";
    } else if f.contractModel == Single {
      assert rows[0].caption == "Valor Único";
    }
  }

  /** `disabled={!confirmation || isSubmitting}`. */
  predicate SubmitDisabled(confirmation: bool, isSubmitting: bool) {
    !confirmation || isSubmitting
  }

  /** The step's `confirmation` flag. */
  class ReviewView {
    var confirmation: bool

    constructor()
      ensures !confirmation
    {
      confirmation := false;
    }

    /** The confirmation check box: `setConfirmation(checked === true)`. */
    method SetConfirmation(checked: bool)
      modifies this
      ensures confirmation == checked
    {
      confirmation := checked;
    }

    /** `handleSubmit`: `onSubmit` is called exactly when the flag is set. */
    method HandleSubmit() returns (submitted: bool)
      ensures submitted <==> confirmation
    {
      submitted := false;
      if !confirmation {
        return;
      }
      submitted := true;
    }

    /** A click on the submit button: nothing while it is disabled,
        `handleSubmit` otherwise; so `onSubmit` is called exactly when
        the box is checked and no submission is running. */
    method Click(isSubmitting: bool) returns (submitted: bool)
      ensures submitted <==> !SubmitDisabled(confirmation, isSubmitting)
      ensures submitted <==> confirmation && !isSubmitting
    {
      submitted := false;
      if !SubmitDisabled(confirmation, isSubmitting) {
        submitted := HandleSubmit();
      }
    }
  }
}
