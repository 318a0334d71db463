/** The existing-integrations step (src/components/quiz/IntegrationStep.tsx):
    the solution check boxes, the one-message error state and the submit
    guard.  The step reads `formData.existingSolutions`, a key the initial
    record does not carry; reading `.length`, `.filter`, `.includes` or
    spreading it while it is `undefined` throws a `TypeError`, which the
    model keeps as an outcome of its own. */
module IntegrationStep {
  import opened Wrappers
  import opened Lists
  import opened QuizTypes

  /** What running a handler does: it throws a `TypeError`, or it
      completes with a value. */
  datatype Attempt<T> = TypeError | Done(value: T)

  const NoSolutionMessage: string := "Selecione ao menos uma opção"

  /** The update `handleSolutionChange` sends: the toggled list, or a
      `TypeError` when the record has no list to spread or filter. */
  function SolutionChange(f: FormData, solution: string, checked: bool): (r: Attempt<FormPatch>)
    ensures r.TypeError? <==> f.existingSolutions.None?
  {
    if f.existingSolutions.None? then TypeError
    else Done(EmptyPatch.(existingSolutions := Some(Toggle(f.existingSolutions.value, solution, checked))))
  }

  /** When the list exists, a toggle lists the solution exactly when
      checked, keeps every other solution, keeps the order of the rest
      when unchecking, and moves no other key of the record. */
  lemma SolutionChangeEffect(f: FormData, solution: string, checked: bool, k: Field)
    requires f.existingSolutions.Some?
    ensures var g := Merge(f, SolutionChange(f, solution, checked).value);
      && g.existingSolutions.Some?
      && (solution in g.existingSolutions.value <==> checked)
      && (forall b | b != solution :: b in g.existingSolutions.value <==> b in f.existingSolutions.value)
      && (!checked ==> Subsequence(g.existingSolutions.value, f.existingSolutions.value))
      && (k != ExistingSolutions ==> Get(g, k) == Get(f, k))
  {
    var ys := Toggle(f.existingSolutions.value, solution, checked);
    var p := SolutionChange(f, solution, checked).value;
    assert p == EmptyPatch.(existingSolutions := Some(ys));
    assert Merge(f, p).existingSolutions == Some(ys);
    ToggleMeaning(f.existingSolutions.value, solution, checked);
    MergeByKey(f, p, k);
  }

  /** `handleSubmit`'s decision: `Done(None)` calls `onNext`,
      `Done(Some(m))` sets the error `m`. */
  function SubmitCheck(f: FormData): (r: Attempt<Option<string>>)
    ensures r.TypeError? <==> f.existingSolutions.None?
    ensures r == Done(None) <==> f.existingSolutions.Some? && |f.existingSolutions.value| > 0
    ensures r.Done? && r.value.Some? ==> r.value.value == NoSolutionMessage
  {
    if f.existingSolutions.None? then TypeError
    else if |f.existingSolutions.value| == 0 then Done(Some(NoSolutionMessage))
    else Done(None)
  }

  /** `formData.existingSolutions.includes(solution)`, which each check
      box evaluates while rendering. */
  function RenderChecked(f: FormData, solution: string): (r: Attempt<bool>)
    ensures r.TypeError? <==> f.existingSolutions.None?
    ensures r.Done? ==> (r.value <==> solution in f.existingSolutions.value)
  {
    if f.existingSolutions.None? then TypeError
    else Done(solution in f.existingSolutions.value)
  }

  /** Checking a solution is enough for submit to pass. */
  lemma CheckedThenSubmitPasses(f: FormData, solution: string)
    requires f.existingSolutions.Some?
    ensures SubmitCheck(Merge(f, SolutionChange(f, solution, true).value)) == Done(None)
  {
    ToggleMeaning(f.existingSolutions.value, solution, true);
  }

  /** The record the wizard starts from has no solutions list, so the
      step throws while rendering, on every toggle and on submit: as
      written, the wizard can never pass it. */
  lemma StuckOnInitialRecord(solution: string, checked: bool)
    ensures RenderChecked(InitialFormData, solution) == TypeError
    ensures SolutionChange(InitialFormData, solution, checked) == TypeError
    ensures SubmitCheck(InitialFormData) == TypeError
  {
  }

  /** No update another step sends can add the key: a patch that does not
      carry `existingSolutions` leaves the record without it. */
  lemma OtherUpdatesKeepItAbsent(f: FormData, p: FormPatch)
    requires f.existingSolutions.None? && p.existingSolutions.None?
    ensures Merge(f, p).existingSolutions.None?
    ensures SubmitCheck(Merge(f, p)) == TypeError
  {
  }

  /** The step's `error` state. */
  class IntegrationForm {
    var error: string

    constructor()
      ensures error == ""
    {
      error := "";
    }

    /** `handleSolutionChange`: sends the toggled list and clears the
        error, or throws before either when the list is absent. */
    method HandleSolutionChange(f: FormData, solution: string, checked: bool) returns (r: Attempt<FormPatch>)
      modifies this
      ensures r == SolutionChange(f, solution, checked)
      ensures error == if r.Done? then "" else old(error)
    {
      r := SolutionChange(f, solution, checked);
      if r.Done? {
        error := "";
      }
    }

    /** `handleSubmit`: `advance` is `onNext` being called; a refused
        submit sets the message, and an absent list throws before any
        state changes. */
    method HandleSubmit(f: FormData) returns (r: Attempt<bool>)
      modifies this
      ensures r.TypeError? <==> f.existingSolutions.None?
      ensures r == Done(true) <==> f.existingSolutions.Some? && |f.existingSolutions.value| > 0
      ensures error == if r == Done(false) then NoSolutionMessage else old(error)
    {
      var check := SubmitCheck(f);
      if check.TypeError? {
        r := TypeError;
      } else if check.value.Some? {
        error := check.value.value;
        r := Done(false);
      } else {
        r := Done(true);
      }
    }
  }
}
