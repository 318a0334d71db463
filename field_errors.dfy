/** The field-to-message error objects the steps build and keep in state. */
module FieldErrors {
  import opened Wrappers
  import opened QuizTypes

  /** An error object: field to message.  A key set to `undefined` shows
      nothing, so it is modelled as a key that is absent. */
  type Errors = map<Field, string>

  /** The entry for `key` is present exactly when `bad`, and then holds `msg`. */
  predicate Flagged(e: Errors, key: Field, bad: bool, msg: string) {
    && (key in e <==> bad)
    && (key in e ==> e[key] == msg)
  }

  /** The entry for `key` is the verdict: absent for `None`, the message for `Some`. */
  predicate FlaggedWith(e: Errors, key: Field, verdict: Option<string>) {
    && (key in e <==> verdict.Some?)
    && (key in e ==> e[key] == verdict.value)
  }

  /** `e` and `e'` hold the same entry, or none, for `key`. */
  predicate Agree(e: Errors, e': Errors, key: Field) {
    (key in e <==> key in e') && (key in e ==> e[key] == e'[key])
  }

  /** Two error objects flagged alike agree on that key. */
  lemma FlaggedAgree(e: Errors, e': Errors, key: Field, bad: bool, msg: string)
    requires Flagged(e, key, bad, msg) && Flagged(e', key, bad, msg)
    ensures Agree(e, e', key)
  {
  }

  /** Two error objects over the same keys that agree on every key are equal. */
  lemma SameEntries(e: Errors, e': Errors, keys: set<Field>)
    requires e.Keys <= keys && e'.Keys <= keys
    requires forall k | k in keys :: Agree(e, e', k)
    ensures e == e'
  {
    assert e.Keys == e'.Keys;
  }

  /** Two error objects over three keys that agree on each are equal. */
  lemma SameOnThree(e: Errors, e': Errors, k1: Field, k2: Field, k3: Field)
    requires e.Keys <= {k1, k2, k3} && e'.Keys <= {k1, k2, k3}
    requires Agree(e, e', k1) && Agree(e, e', k2) && Agree(e, e', k3)
    ensures e == e'
  {
    SameEntries(e, e', {k1, k2, k3});
  }

  /** An error object over a single key is empty exactly when that key is
      unflagged, and the flag determines it. */
  lemma SoleKey(e: Errors, e': Errors, key: Field, bad: bool, msg: string)
    requires e.Keys <= {key} && e'.Keys <= {key}
    requires Flagged(e, key, bad, msg) && Flagged(e', key, bad, msg)
    ensures e == map[] <==> !bad
    ensures e == e'
  {
    assert e.Keys == e'.Keys;
  }

  /** An error object over three keys is empty exactly when none is present. */
  lemma EmptyOnThree(e: Errors, k1: Field, k2: Field, k3: Field)
    requires e.Keys <= {k1, k2, k3}
    ensures e == map[] <==> k1 !in e && k2 !in e && k3 !in e
  {
    if e != map[] {
      var k :| k in e;
    }
  }

  /** An error object over ten keys is empty exactly when none is present. */
  lemma EmptyOnTen(e: Errors, k1: Field, k2: Field, k3: Field, k4: Field, k5: Field, k6: Field, k7: Field, k8: Field, k9: Field, k10: Field)
    requires e.Keys <= {k1, k2, k3, k4, k5, k6, k7, k8, k9, k10}
    ensures e == map[] <==> k1 !in e && k2 !in e && k3 !in e && k4 !in e && k5 !in e && k6 !in e && k7 !in e && k8 !in e && k9 !in e && k10 !in e
  {
    if e != map[] {
      var k :| k in e;
    }
  }

  /** Two error objects over ten keys that agree on each are equal. */
  lemma SameOnTen(e: Errors, e': Errors, k1: Field, k2: Field, k3: Field, k4: Field, k5: Field, k6: Field, k7: Field, k8: Field, k9: Field, k10: Field)
    requires e.Keys <= {k1, k2, k3, k4, k5, k6, k7, k8, k9, k10} && e'.Keys <= {k1, k2, k3, k4, k5, k6, k7, k8, k9, k10}
    requires Agree(e, e', k1) && Agree(e, e', k2) && Agree(e, e', k3) && Agree(e, e', k4) && Agree(e, e', k5) && Agree(e, e', k6) && Agree(e, e', k7) && Agree(e, e', k8) && Agree(e, e', k9) && Agree(e, e', k10)
    ensures e == e'
  {
    SameEntries(e, e', {k1, k2, k3, k4, k5, k6, k7, k8, k9, k10});
  }

  /** `setErrors(prev => ({ ...prev, [key]: message }))`, where a message of
      `undefined` clears the entry. */
  function SetError(e: Errors, key: Field, verdict: Option<string>): (r: Errors)
    ensures FlaggedWith(r, key, verdict)
    ensures forall k | k != key :: (k in r <==> k in e) && (k in r ==> r[k] == e[k])
  {
    if verdict.Some? then e[key := verdict.value] else e - {key}
  }

  /** `if (bad) newErrors[key] = msg;` on an object that does not yet hold `key`. */
  method Put(e: Errors, key: Field, bad: bool, msg: string) returns (r: Errors)
    requires key !in e
    ensures Flagged(r, key, bad, msg)
    ensures r - {key} == e && r.Keys <= e.Keys + {key}
  {
    r := e;
    if bad {
      r := r[key := msg];
    }
  }
}
