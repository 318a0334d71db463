/** The list edits the steps perform: `Array.prototype.filter`, the
    check-box toggle `checked ? [...xs, a] : xs.filter(x => x !== a)`, and
    removal by index `xs.filter((_, i) => i !== index)`. */
module Lists {

  /** `xs.filter(p)`. */
  function Filter<T>(xs: seq<T>, p: T -> bool): (r: seq<T>)
    ensures |r| <= |xs|
  {
    if xs == [] then []
    else (if p(xs[0]) then [xs[0]] else []) + Filter(xs[1..], p)
  }

  /** `r` is `xs` with some entries left out, the rest in their order. */
  predicate Subsequence<T(==)>(r: seq<T>, xs: seq<T>)
    decreases |xs|
  {
    if r == [] then true
    else if xs == [] then false
    else if r[0] == xs[0] then Subsequence(r[1..], xs[1..])
    else Subsequence(r, xs[1..])
  }

  lemma {:induction false} SubsequenceCons<T>(a: T, r: seq<T>, xs: seq<T>)
    requires Subsequence(r, xs)
    ensures Subsequence([a] + r, [a] + xs)
  {
    assert ([a] + r)[1..] == r;
    assert ([a] + xs)[1..] == xs;
  }

  lemma {:induction false} SubsequenceSkip<T>(a: T, r: seq<T>, xs: seq<T>)
    requires Subsequence(r, xs)
    ensures Subsequence(r, [a] + xs)
    decreases |xs|, 1
  {
    assert ([a] + xs)[1..] == xs;
    if r != [] && r[0] == a {
      // the greedy match now pairs r[0] with the new head
      assert Subsequence(r[1..], xs) by { SubsequenceTail(r, xs); }
    }
  }

  /** Dropping the first entry of a subsequence keeps it a subsequence. */
  lemma {:induction false} SubsequenceTail<T>(r: seq<T>, xs: seq<T>)
    requires r != [] && Subsequence(r, xs)
    ensures Subsequence(r[1..], xs)
    decreases |xs|, 0
  {
    if r[0] == xs[0] {
      SubsequenceSkip(xs[0], r[1..], xs[1..]);
      assert [xs[0]] + xs[1..] == xs;
    } else {
      SubsequenceTail(r, xs[1..]);
      SubsequenceSkip(xs[0], r[1..], xs[1..]);
      assert [xs[0]] + xs[1..] == xs;
    }
  }

  /** What the filter keeps: exactly the entries satisfying `p`, each as
      often as it occurs, in their original order. */
  lemma FilterMeaning<T>(xs: seq<T>, p: T -> bool)
    ensures forall x :: x in Filter(xs, p) <==> x in xs && p(x)
    ensures forall x :: multiset(Filter(xs, p))[x] == if p(x) then multiset(xs)[x] else 0
    ensures Subsequence(Filter(xs, p), xs)
  {
    FilterMembers(xs, p);
    FilterCount(xs, p);
    FilterOrder(xs, p);
  }

  lemma {:induction false} FilterMembers<T>(xs: seq<T>, p: T -> bool)
    ensures forall x :: x in Filter(xs, p) <==> x in xs && p(x)
  {
    if xs != [] {
      FilterMembers(xs[1..], p);
      assert xs == [xs[0]] + xs[1..];
    }
  }

  lemma {:induction false} FilterCount<T>(xs: seq<T>, p: T -> bool)
    ensures forall x :: multiset(Filter(xs, p))[x] == if p(x) then multiset(xs)[x] else 0
  {
    if xs != [] {
      var h: seq<T> := if p(xs[0]) then [xs[0]] else [];
      var t := Filter(xs[1..], p);
      FilterCount(xs[1..], p);
      assert xs == [xs[0]] + xs[1..];
      assert multiset(xs) == multiset{xs[0]} + multiset(xs[1..]);
      assert multiset(h + t) == multiset(h) + multiset(t);
    }
  }

  lemma {:induction false} FilterOrder<T>(xs: seq<T>, p: T -> bool)
    ensures Subsequence(Filter(xs, p), xs)
  {
    if xs != [] {
      var t := Filter(xs[1..], p);
      FilterOrder(xs[1..], p);
      assert xs == [xs[0]] + xs[1..];
      if p(xs[0]) {
        assert Filter(xs, p) == [xs[0]] + t;
        SubsequenceCons(xs[0], t, xs[1..]);
      } else {
        assert Filter(xs, p) == t;
        SubsequenceSkip(xs[0], t, xs[1..]);
      }
    }
  }

  /** A filter keeps nothing exactly when no entry passes. */
  lemma FilterEmptyIff<T>(xs: seq<T>, p: T -> bool)
    ensures Filter(xs, p) == [] <==> forall i | 0 <= i < |xs| :: !p(xs[i])
  {
    FilterMembers(xs, p);
    if Filter(xs, p) != [] {
      assert Filter(xs, p)[0] in Filter(xs, p);
    } else {
      forall i | 0 <= i < |xs| ensures !p(xs[i]) {
        assert xs[i] in xs;
      }
    }
  }

  /** Filtering a concatenation filters each part. */
  lemma {:induction false} FilterConcat<T>(a: seq<T>, b: seq<T>, p: T -> bool)
    ensures Filter(a + b, p) == Filter(a, p) + Filter(b, p)
  {
    if a == [] {
      assert a + b == b;
    } else {
      var h: seq<T> := if p(a[0]) then [a[0]] else [];
      assert (a + b)[0] == a[0];
      assert (a + b)[1..] == a[1..] + b;
      assert Filter(a + b, p) == h + Filter(a[1..] + b, p);
      assert Filter(a, p) == h + Filter(a[1..], p);
      FilterConcat(a[1..], b, p);
      assert h + (Filter(a[1..], p) + Filter(b, p)) == (h + Filter(a[1..], p)) + Filter(b, p);
    }
  }

  /** A list none of whose entries is rejected passes the filter unchanged. */
  lemma {:induction false} FilterAll<T>(xs: seq<T>, p: T -> bool)
    requires forall i | 0 <= i < |xs| :: p(xs[i])
    ensures Filter(xs, p) == xs
  {
    if xs != [] {
      FilterAll(xs[1..], p);
      assert xs == [xs[0]] + xs[1..];
    }
  }

  /** `xs.filter(x => x !== a)`. */
  function RemoveAll<T(==)>(xs: seq<T>, a: T): seq<T> {
    Filter(xs, x => x != a)
  }

  /** Unchecking removes every occurrence of the item and nothing else:
      each other entry keeps its number of occurrences and its order. */
  lemma RemoveAllMeaning<T>(xs: seq<T>, a: T)
    ensures a !in RemoveAll(xs, a)
    ensures forall b | b != a :: b in RemoveAll(xs, a) <==> b in xs
    ensures forall b | b != a :: multiset(RemoveAll(xs, a))[b] == multiset(xs)[b]
    ensures Subsequence(RemoveAll(xs, a), xs)
  {
    FilterMeaning(xs, x => x != a);
  }

  /** The check-box handler: `checked ? [...xs, a] : xs.filter(x => x !== a)`. */
  function Toggle<T(==)>(xs: seq<T>, a: T, checked: bool): seq<T> {
    if checked then xs + [a] else RemoveAll(xs, a)
  }

  /** After a toggle the item is listed exactly when the box is checked;
      every other item is listed exactly when it was before; checking adds
      the item at the end and unchecking keeps the order of the rest. */
  lemma ToggleMeaning<T>(xs: seq<T>, a: T, checked: bool)
    ensures a in Toggle(xs, a, checked) <==> checked
    ensures forall b | b != a :: b in Toggle(xs, a, checked) <==> b in xs
    ensures checked ==> Toggle(xs, a, checked)[..|xs|] == xs
    ensures checked ==> Toggle(xs, a, checked)[|xs|..] == [a]
    ensures !checked ==> Subsequence(Toggle(xs, a, checked), xs)
  {
    RemoveAllMeaning(xs, a);
  }

  /** Checking appends without looking, so checking an item that is
      already listed lists it twice; unchecking afterwards removes both. */
  lemma ToggleDuplicates<T>(xs: seq<T>, a: T)
    ensures multiset(Toggle(xs, a, true))[a] == multiset(xs)[a] + 1
    ensures Toggle(Toggle(xs, a, true), a, false) == RemoveAll(xs, a)
  {
    FilterConcat(xs, [a], x => x != a);
    assert Filter([a], x => x != a) == [];
  }

  /** `xs.filter((_, i) => i !== index)`, walking the list with the index
      counted down. */
  function RemoveAt<T>(xs: seq<T>, index: int): (r: seq<T>)
    ensures |r| == if 0 <= index < |xs| then |xs| - 1 else |xs|
  {
    if xs == [] then []
    else if index == 0 then xs[1..]
    else [xs[0]] + RemoveAt(xs[1..], index - 1)
  }

  /** Removing by index drops exactly the entry at that index, keeping the
      rest in order, and changes nothing when the index is out of range. */
  lemma {:induction false} RemoveAtMeaning<T>(xs: seq<T>, index: int)
    ensures RemoveAt(xs, index) == if 0 <= index < |xs| then xs[..index] + xs[index + 1..] else xs
  {
    if xs != [] && index != 0 {
      RemoveAtMeaning(xs[1..], index - 1);
      if 0 <= index < |xs| {
        assert xs[..index] == [xs[0]] + xs[1..][..index - 1];
        assert xs[index + 1..] == xs[1..][index..];
      } else {
        assert xs == [xs[0]] + xs[1..];
      }
    }
  }
}
