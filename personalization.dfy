/** The assistant-personalization step
    (src/components/quiz/PersonalizationStep.tsx): the count of filled-in
    question lines and its status text, the submit-time error object and
    the main-function check boxes. */
module PersonalizationStep {
  import opened Wrappers
  import opened Text
  import opened Lists
  import opened QuizTypes
  import opened FieldErrors

  // ---------------------------------------------------------------------
  // The question lines
  // ---------------------------------------------------------------------

  /** A line that `line.trim()` leaves non-empty. */
  predicate FilledLine(line: string) {
    Trim(line) != []
  }

  /** `lineCount`: the `\n`-separated lines of the questions whose trim is
      not empty, and 0 for the empty field. */
  function LineCount(questions: string): nat {
    if questions == "" then 0
    else |Filter(Split(questions, '\n'), FilledLine)|
  }

  /** The guard for the empty field agrees with the general rule: the
      count is the number of filled lines for every text. */
  lemma LineCountOfLines(questions: string)
    ensures LineCount(questions) == |Filter(Split(questions, '\n'), FilledLine)|
  {
    if questions == "" {
      assert Split(questions, '\n') == [""];
      assert !FilledLine("");
    }
  }

  /** No line is counted exactly when the whole text is whitespace, which
      is exactly when the submit check `!top5Questions.trim()` refuses it. */
  lemma LineCountZeroIffBlank(questions: string)
    ensures LineCount(questions) == 0 <==> AllSpace(questions)
    ensures LineCount(questions) == 0 <==> Trim(questions) == []
  {
    LineCountOfLines(questions);
    BlankLinesFiltered(Split(questions, '\n'));
    SplitLinesAllSpace(questions);
    TrimEmptyIffAllSpace(questions);
  }

  /** No line is kept exactly when every line is whitespace. */
  lemma BlankLinesFiltered(lines: seq<string>)
    ensures |Filter(lines, FilledLine)| == 0 <==> forall i | 0 <= i < |lines| :: AllSpace(lines[i])
  {
    FilterEmptyIff(lines, FilledLine);
    forall i | 0 <= i < |lines| ensures !FilledLine(lines[i]) <==> AllSpace(lines[i]) {
      TrimEmptyIffAllSpace(lines[i]);
    }
  }

  /** A single line counts once unless it is blank. */
  lemma LineCountOneLine(line: string)
    requires '\n' !in line
    ensures LineCount(line) == if AllSpace(line) then 0 else 1
  {
    LineCountOfLines(line);
    SplitNoSep(line, '\n');
    TrimEmptyIffAllSpace(line);
    assert Filter([line], FilledLine) == (if FilledLine(line) then [line] else []) + Filter([], FilledLine);
  }

  /** Joining two texts with a newline adds their counts. */
  lemma LineCountAppend(first: string, rest: string)
    ensures LineCount(first + "\n" + rest) == LineCount(first) + LineCount(rest)
  {
    LineCountOfLines(first + "\n" + rest);
    LineCountOfLines(first);
    LineCountOfLines(rest);
    SplitAround(first, '\n', rest);
    FilterConcat(Split(first, '\n'), Split(rest, '\n'), FilledLine);
  }

  /** The text and colour `getLineCountStatus` gives a count. */
  datatype LineStatus = LineStatus(text: string, color: string)

  /** `getLineCountStatus`: four bands — none, one to four, exactly five,
      more than five — each with its own colour; only the second band
      shows the count itself. */
  function LineCountStatus(lineCount: nat): (r: LineStatus)
    ensures r.color == "text-cc-gray-text" <==> lineCount == 0
    ensures r.color == "text-cc-warning" <==> 1 <= lineCount < 5
    ensures r.color == "text-cc-green" <==> lineCount == 5
    ensures r.color == "text-destructive" <==> lineCount > 5
    ensures 1 <= lineCount < 5 ==> r.text == NatToString(lineCount) + "/5 perguntas"
  {
    if lineCount == 0 then LineStatus("0/5 perguntas", "text-cc-gray-text")
    else if lineCount < 5 then LineStatus(NatToString(lineCount) + "/5 perguntas", "text-cc-warning")
    else if lineCount == 5 then LineStatus("5/5 perguntas ✓", "text-cc-green")
    else LineStatus("Máximo 5 perguntas", "text-destructive")
  }

  /** Within one band the status text is fixed except in the second band,
      where different counts show different texts. */
  lemma LineCountStatusBands(m: nat, n: nat)
    ensures m > 5 && n > 5 ==> LineCountStatus(m) == LineCountStatus(n)
    ensures 1 <= m < 5 && 1 <= n < 5 && m != n ==> LineCountStatus(m).text != LineCountStatus(n).text
  {
    if 1 <= m < 5 && 1 <= n < 5 && m != n {
      assert LineCountStatus(m).text[0] == NatToString(m)[0];
      assert LineCountStatus(n).text[0] == NatToString(n)[0];
    }
  }

  // ---------------------------------------------------------------------
  // Submit
  // ---------------------------------------------------------------------

  /** The messages of the three checks. */
  const NoFunctionMessage := "Selecione ao menos uma função"
  const NoQuestionsMessage := "Preencha as perguntas mais comuns"
  const NoToneMessage := "Selecione um tom de comunicação"

  /** The keys of this step's error object. */
  const PersonalizationKeys: set<Field> := {MainFunctions, Top5Questions, CommunicationTone}

  /** The error object `validateForm` builds for a record. */
  predicate PersonalizationErrorsFor(f: FormData, e: Errors) {
    && e.Keys <= PersonalizationKeys
    && Flagged(e, MainFunctions, |f.mainFunctions| == 0, NoFunctionMessage)
    && Flagged(e, Top5Questions, Trim(f.top5Questions) == [], NoQuestionsMessage)
    && Flagged(e, CommunicationTone, f.communicationTone == [], NoToneMessage)
  }

  /** The step's requirements: a function chosen, some question that is
      not whitespace, and a tone chosen. */
  predicate PersonalizationValid(f: FormData) {
    |f.mainFunctions| > 0 && !AllSpace(f.top5Questions) && f.communicationTone != []
  }

  /** The error object is empty exactly when the record meets the
      requirements, and the record determines it. */
  lemma PersonalizationErrorsMeaning(f: FormData, e: Errors, e': Errors)
    requires PersonalizationErrorsFor(f, e) && PersonalizationErrorsFor(f, e')
    ensures e == map[] <==> PersonalizationValid(f)
    ensures e == e'
  {
    PersonalizationErrorsEmpty(f, e);
    PersonalizationErrorsUnique(f, e, e');
  }

  lemma PersonalizationErrorsEmpty(f: FormData, e: Errors)
    requires PersonalizationErrorsFor(f, e)
    ensures e == map[] <==> PersonalizationValid(f)
  {
    TrimEmptyIffAllSpace(f.top5Questions);
    EmptyOnThree(e, MainFunctions, Top5Questions, CommunicationTone);
  }

  lemma PersonalizationErrorsUnique(f: FormData, e: Errors, e': Errors)
    requires PersonalizationErrorsFor(f, e) && PersonalizationErrorsFor(f, e')
    ensures e == e'
  {
    var blank := Trim(f.top5Questions) == [];
    FlaggedAgree(e, e', MainFunctions, |f.mainFunctions| == 0, NoFunctionMessage);
    FlaggedAgree(e, e', Top5Questions, blank, NoQuestionsMessage);
    FlaggedAgree(e, e', CommunicationTone, f.communicationTone == [], NoToneMessage);
    SameOnThree(e, e', MainFunctions, Top5Questions, CommunicationTone);
  }

  /** The line-count band never blocks the step: whatever the count, the
      step's verdict is the same as for any other text with some filled
      line, and a text with more than five lines passes when the rest is
      filled in. */
  lemma BandDoesNotBlock(f: FormData, questions: string)
    requires LineCount(f.top5Questions) > 0 && LineCount(questions) > 0
    ensures PersonalizationValid(f) <==> PersonalizationValid(f.(top5Questions := questions))
    ensures LineCount(f.top5Questions) > 5 && |f.mainFunctions| > 0 && f.communicationTone != [] ==>
      PersonalizationValid(f)
  {
    LineCountZeroIffBlank(f.top5Questions);
    LineCountZeroIffBlank(questions);
  }

  /** `validateForm`'s conditional assignments into `newErrors`. */
  method BuildErrors(f: FormData) returns (newErrors: Errors)
    ensures PersonalizationErrorsFor(f, newErrors)
  {
    var blank := Trim(f.top5Questions) == [];
    var e1 := Put(map[], MainFunctions, |f.mainFunctions| == 0, NoFunctionMessage);
    var e2 := Put(e1, Top5Questions, blank, NoQuestionsMessage);
    assert Flagged(e2, MainFunctions, |f.mainFunctions| == 0, NoFunctionMessage);
    newErrors := Put(e2, CommunicationTone, f.communicationTone == [], NoToneMessage);
    assert Flagged(newErrors, MainFunctions, |f.mainFunctions| == 0, NoFunctionMessage);
    assert Flagged(newErrors, Top5Questions, blank, NoQuestionsMessage);
  }

  // ---------------------------------------------------------------------
  // Check boxes
  // ---------------------------------------------------------------------

  /** `handleFunctionChange`. */
  function HandleFunctionChange(f: FormData, func: string, checked: bool): FormPatch {
    EmptyPatch.(mainFunctions := Some(Toggle(f.mainFunctions, func, checked)))
  }

  /** After a toggle the function is listed exactly when checked, other
      functions are as before, and no other key of the record moves. */
  lemma FunctionChangeEffect(f: FormData, func: string, checked: bool, k: Field)
    ensures var g := Merge(f, HandleFunctionChange(f, func, checked));
      && (func in g.mainFunctions <==> checked)
      && (forall b | b != func :: b in g.mainFunctions <==> b in f.mainFunctions)
      && (!checked ==> Subsequence(g.mainFunctions, f.mainFunctions))
      && (k != MainFunctions ==> Get(g, k) == Get(f, k))
  {
    ToggleMeaning(f.mainFunctions, func, checked);
    MergeByKey(f, HandleFunctionChange(f, func, checked), k);
  }

  // ---------------------------------------------------------------------
  // Component state
  // ---------------------------------------------------------------------

  /** The step's `errors` state. */
  class PersonalizationForm {
    var errors: Errors

    constructor()
      ensures errors == map[]
    {
      errors := map[];
    }

    /** `validateForm()`: replaces the error object and reports whether it
        is empty. */
    method ValidateForm(f: FormData) returns (ok: bool)
      modifies this
      ensures PersonalizationErrorsFor(f, errors)
      ensures ok <==> errors == map[]
    {
      var newErrors := BuildErrors(f);
      errors := newErrors;
      ok := |errors.Keys| == 0;
    }

    /** `handleSubmit()`: `onNext` is called, here reported as `advance`,
        exactly when the record meets the requirements. */
    method HandleSubmit(f: FormData) returns (advance: bool)
      modifies this
      ensures PersonalizationErrorsFor(f, errors)
      ensures advance <==> PersonalizationValid(f)
    {
      advance := ValidateForm(f);
      PersonalizationErrorsMeaning(f, errors, errors);
    }
  }
}
