/** The digital-presence step (src/components/quiz/DigitalStep.tsx): the
    one required field and the suggestion buttons that append a line to
    the restricted topics. */
module DigitalStep {
  import opened Wrappers
  import opened Text
  import opened QuizTypes
  import opened FieldErrors

  const NoPhoneMessage: string := "Informe ao menos um telefone"

  /** `addSuggestion`'s new text: the suggestion alone when the topics are
      empty, otherwise appended on a line of its own. */
  function AddSuggestion(current: string, text: string): string {
    if current == "" then text else current + "\n" + text
  }

  /** The previous topics stay as a prefix followed by a newline, the
      result ends with the suggestion, and exactly the suggestion's own
      lines are added after the existing ones. */
  lemma AddSuggestionMeaning(current: string, text: string)
    ensures var r := AddSuggestion(current, text);
      && (current != "" ==> |r| == |current| + 1 + |text| && r[..|current|] == current && r[|current|] == '\n')
      && |r| >= |text| && r[|r| - |text|..] == text
      && Split(r, '\n') == (if current == "" then [] else Split(current, '\n')) + Split(text, '\n')
  {
    if current != "" {
      SplitAround(current, '\n', text);
    }
  }

  /** A suggestion without a newline adds exactly one line to non-empty
      topics, and is the only line of empty ones. */
  lemma AddSuggestionOneLine(current: string, text: string)
    requires '\n' !in text
    ensures |Split(AddSuggestion(current, text), '\n')| == (if current == "" then 0 else |Split(current, '\n')|) + 1
  {
    AddSuggestionMeaning(current, text);
    SplitNoSep(text, '\n');
  }

  /** The update a suggestion button sends. */
  function HandleAddSuggestion(f: FormData, text: string): FormPatch {
    EmptyPatch.(restrictedTopics := Some(AddSuggestion(f.restrictedTopics, text)))
  }

  /** A suggestion changes the restricted topics only, so it never changes
      whether the step may be left. */
  lemma SuggestionKeepsVerdict(f: FormData, text: string, k: Field)
    ensures k != RestrictedTopics ==> Get(Merge(f, HandleAddSuggestion(f, text)), k) == Get(f, k)
    ensures DigitalValid(Merge(f, HandleAddSuggestion(f, text))) <==> DigitalValid(f)
  {
    MergeByKey(f, HandleAddSuggestion(f, text), k);
  }

  /** The error object `validateForm` builds: only the contact phones,
      flagged when they are blank. */
  predicate DigitalErrorsFor(f: FormData, e: Errors) {
    e.Keys <= {ContactPhones} && Flagged(e, ContactPhones, Trim(f.contactPhones) == [], NoPhoneMessage)
  }

  /** The step's one requirement. */
  predicate DigitalValid(f: FormData) {
    !AllSpace(f.contactPhones)
  }

  /** The error object is empty exactly when the contact phones are not
      blank; no other field takes part, and the record determines it. */
  lemma DigitalErrorsMeaning(f: FormData, g: FormData, e: Errors, e': Errors)
    requires DigitalErrorsFor(f, e) && DigitalErrorsFor(f, e')
    ensures e == map[] <==> DigitalValid(f)
    ensures g.contactPhones == f.contactPhones ==> (DigitalValid(g) <==> DigitalValid(f))
    ensures e == e'
  {
    TrimEmptyIffAllSpace(f.contactPhones);
    SoleKey(e, e', ContactPhones, Trim(f.contactPhones) == [], NoPhoneMessage);
  }

  /** `validateForm`'s conditional assignment into `newErrors`. */
  method BuildErrors(f: FormData) returns (newErrors: Errors)
    ensures DigitalErrorsFor(f, newErrors)
  {
    newErrors := map[];
    newErrors := Put(newErrors, ContactPhones, Trim(f.contactPhones) == [], NoPhoneMessage);
  }

  /** The step's `errors` state. */
  class DigitalForm {
    var errors: Errors

    constructor()
      ensures errors == map[]
    {
      errors := map[];
    }

    /** `validateForm()`. */
    method ValidateForm(f: FormData) returns (ok: bool)
      modifies this
      ensures DigitalErrorsFor(f, errors)
      ensures ok <==> errors == map[]
    {
      var newErrors := BuildErrors(f);
      errors := newErrors;
      ok := |errors.Keys| == 0;
    }

    /** `handleSubmit()`: `onNext` is called exactly when the contact
        phones are not blank. */
    method HandleSubmit(f: FormData) returns (advance: bool)
      modifies this
      ensures DigitalErrorsFor(f, errors)
      ensures advance <==> DigitalValid(f)
    {
      advance := ValidateForm(f);
      DigitalErrorsMeaning(f, f, errors, errors);
    }
  }
}
