/** Character classes and string helpers shared by the validators, the
    masks and the step components.  Every predicate here follows the
    JavaScript definition the source relies on: `\d`/`\D` in a regular
    expression, `\s` in a regular expression and `String.prototype.trim`. */
module Text {

  /** `\d` in a JavaScript regular expression: an ASCII decimal digit. */
  predicate IsDigit(c: char) {
    '0' <= c <= '9'
  }

  /** `\s` in a JavaScript regular expression, which is also the set of
      characters `String.prototype.trim` removes (WhiteSpace and
      LineTerminator of ECMA-262). */
  predicate IsSpace(c: char) {
    || c == '\t' || c == '\n' || c == '\U{000B}' || c == '\U{000C}' || c == '\r'
    || c == ' ' || c == '\U{00A0}' || c == '\U{1680}'
    || ('\U{2000}' <= c <= '\U{200A}')
    || c == '\U{2028}' || c == '\U{2029}' || c == '\U{202F}' || c == '\U{205F}'
    || c == '\U{3000}' || c == '\U{FEFF}'
  }

  predicate AllDigits(s: string) {
    forall i | 0 <= i < |s| :: IsDigit(s[i])
  }

  predicate NoDigits(s: string) {
    forall i | 0 <= i < |s| :: !IsDigit(s[i])
  }

  predicate AllSpace(s: string) {
    forall i | 0 <= i < |s| :: IsSpace(s[i])
  }

  /** `s.replace(/\D/g, '')`: the digits of `s`, in order. */
  function OnlyDigits(s: string): (r: string)
    ensures AllDigits(r)
    ensures |r| <= |s|
  {
    if s == [] then []
    else (if IsDigit(s[0]) then [s[0]] else []) + OnlyDigits(s[1..])
  }

  lemma {:induction false} OnlyDigitsConcat(a: string, b: string)
    ensures OnlyDigits(a + b) == OnlyDigits(a) + OnlyDigits(b)
  {
    if a == [] {
      assert a + b == b;
    } else {
      var h: string := if IsDigit(a[0]) then [a[0]] else [];
      assert (a + b)[0] == a[0];
      assert (a + b)[1..] == a[1..] + b;
      calc {
        OnlyDigits(a + b);
        h + OnlyDigits(a[1..] + b);
        { OnlyDigitsConcat(a[1..], b); }
        h + (OnlyDigits(a[1..]) + OnlyDigits(b));
        (h + OnlyDigits(a[1..])) + OnlyDigits(b);
      }
    }
  }

  /** A string of digits is its own digit sequence. */
  lemma {:induction false} OnlyDigitsOfDigits(s: string)
    requires AllDigits(s)
    ensures OnlyDigits(s) == s
  {
    if s != [] {
      OnlyDigitsOfDigits(s[1..]);
      assert s == [s[0]] + s[1..];
    }
  }

  /** A string without digits has no digit sequence. */
  lemma {:induction false} OnlyDigitsOfNoDigits(s: string)
    requires NoDigits(s)
    ensures OnlyDigits(s) == []
  {
    if s != [] {
      OnlyDigitsOfNoDigits(s[1..]);
    }
  }

  /** Removing the non-digits twice is the same as removing them once. */
  lemma OnlyDigitsIdempotent(s: string)
    ensures OnlyDigits(OnlyDigits(s)) == OnlyDigits(s)
  {
    OnlyDigitsOfDigits(OnlyDigits(s));
  }

  /** `s.slice(0, n)`. */
  function Take(s: string, n: nat): (r: string)
    ensures |r| == if |s| <= n then |s| else n
    ensures r == s[..|r|]
  {
    if |s| <= n then s else s[..n]
  }

  lemma TakeDigits(s: string, n: nat)
    requires AllDigits(s)
    ensures AllDigits(Take(s, n))
    ensures OnlyDigits(Take(s, n)) == Take(s, n)
  {
    OnlyDigitsOfDigits(Take(s, n));
  }

  /** `parseInt(c)` of a single digit character. */
  function DigitValue(c: char): (v: nat)
    requires IsDigit(c)
    ensures v <= 9
  {
    c as int - '0' as int
  }

  /** The character of a digit value, the inverse of DigitValue. */
  function DigitChar(v: nat): (c: char)
    requires v <= 9
    ensures IsDigit(c) && DigitValue(c) == v
  {
    ('0' as int + v) as char
  }

  /** `parseInt(s)` of a non-empty string of digits, read most significant first. */
  function DigitsToNat(s: string): nat
    requires AllDigits(s)
  {
    if s == [] then 0
    else DigitsToNat(s[..|s| - 1]) * 10 + DigitValue(s[|s| - 1])
  }

  /** The shortest decimal numeral of `n` (no leading zeros; "0" for zero). */
  function NatToString(n: nat): (r: string)
    ensures AllDigits(r) && |r| >= 1
    ensures |r| > 1 ==> r[0] != '0'
  {
    if n < 10 then [DigitChar(n)]
    else NatToString(n / 10) + [DigitChar(n % 10)]
  }

  lemma {:induction false} DigitsToNatOfNatToString(n: nat)
    ensures DigitsToNat(NatToString(n)) == n
  {
    var r := NatToString(n);
    if n >= 10 {
      assert r[..|r| - 1] == NatToString(n / 10);
      DigitsToNatOfNatToString(n / 10);
    }
  }

  /** `DigitsToNat` reads a concatenation as the first part shifted left. */
  lemma {:induction false} DigitsToNatConcat(a: string, b: string)
    requires AllDigits(a) && AllDigits(b)
    ensures AllDigits(a + b)
    ensures DigitsToNat(a + b) == DigitsToNat(a) * Pow10(|b|) + DigitsToNat(b)
  {
    assert AllDigits(a + b) by {
      forall i | 0 <= i < |a + b| ensures IsDigit((a + b)[i]) {
        if i < |a| { assert (a + b)[i] == a[i]; } else { assert (a + b)[i] == b[i - |a|]; }
      }
    }
    if b != [] {
      var ab := a + b;
      var b' := b[..|b| - 1];
      assert ab[..|ab| - 1] == a + b';
      assert ab[|ab| - 1] == b[|b| - 1];
      DigitsToNatConcat(a, b');
      var x, p, y, d := DigitsToNat(a), Pow10(|b'|), DigitsToNat(b'), DigitValue(b[|b| - 1]);
      var q := Pow10(|b|);
      assert q == 10 * p;
      assert DigitsToNat(b) == y * 10 + d;
      ShiftDecimal(x, p, y, d);
      calc {
        DigitsToNat(ab);
        DigitsToNat(a + b') * 10 + d;
        (x * p + y) * 10 + d;
        x * (10 * p) + (y * 10 + d);
        x * q + DigitsToNat(b);
      }
    } else {
      assert a + b == a;
    }
  }

  lemma ShiftDecimal(x: int, p: int, y: int, d: int)
    ensures (x * p + y) * 10 + d == x * (10 * p) + (y * 10 + d)
  {
    assert (x * p + y) * 10 == x * p * 10 + y * 10;
  }

  function Pow10(k: nat): (p: nat)
    ensures p >= 1
  {
    if k == 0 then 1 else 10 * Pow10(k - 1)
  }

  /** Leading zeros do not change the value of a numeral. */
  lemma {:induction false} DigitsToNatLeadingZeros(z: string, s: string)
    requires forall i | 0 <= i < |z| :: z[i] == '0'
    requires AllDigits(s)
    ensures AllDigits(z + s) && DigitsToNat(z + s) == DigitsToNat(s)
  {
    DigitsToNatConcat(z, s);
    ZerosValue(z);
  }

  lemma {:induction false} ZerosValue(z: string)
    requires forall i | 0 <= i < |z| :: z[i] == '0'
    ensures AllDigits(z) && DigitsToNat(z) == 0
  {
    if z != [] {
      ZerosValue(z[..|z| - 1]);
    }
  }

  /** `str.trimStart()`. */
  function TrimStart(s: string): (r: string)
    ensures |r| <= |s| && r == s[|s| - |r|..]
    ensures r == [] || !IsSpace(r[0])
    ensures AllSpace(s[..|s| - |r|])
  {
    if s != [] && IsSpace(s[0]) then
      var r := TrimStart(s[1..]);
      TrimStartStep(s, r);
      r
    else s
  }

  lemma TrimStartStep(s: string, r: string)
    requires s != [] && IsSpace(s[0])
    requires |r| <= |s| - 1 && r == s[1..][|s| - 1 - |r|..] && AllSpace(s[1..][..|s| - 1 - |r|])
    ensures r == s[|s| - |r|..] && AllSpace(s[..|s| - |r|])
  {
    assert s[1..][|s| - 1 - |r|..] == s[|s| - |r|..];
    assert s[..|s| - |r|] == [s[0]] + s[1..][..|s| - 1 - |r|];
  }

  /** `str.trimEnd()`. */
  function TrimEnd(s: string): (r: string)
    ensures |r| <= |s| && r == s[..|r|]
    ensures r == [] || !IsSpace(r[|r| - 1])
    ensures AllSpace(s[|r|..])
  {
    if s != [] && IsSpace(s[|s| - 1]) then
      var r := TrimEnd(s[..|s| - 1]);
      TrimEndStep(s, r);
      r
    else s
  }

  lemma TrimEndStep(s: string, r: string)
    requires s != [] && IsSpace(s[|s| - 1])
    requires |r| <= |s| - 1 && r == s[..|s| - 1][..|r|] && AllSpace(s[..|s| - 1][|r|..])
    ensures r == s[..|r|] && AllSpace(s[|r|..])
  {
    assert s[..|s| - 1][..|r|] == s[..|r|];
    assert s[|r|..] == s[..|s| - 1][|r|..] + [s[|s| - 1]];
  }

  /** `str.trim()`. */
  function Trim(s: string): string {
    TrimEnd(TrimStart(s))
  }

  /** `str.trim()` is empty exactly when every character is whitespace —
      which is how the source's `!x.trim()` checks read. */
  lemma {:induction false} TrimEmptyIffAllSpace(s: string)
    ensures Trim(s) == [] <==> AllSpace(s)
  {
    var t := TrimStart(s);
    var r := TrimEnd(t);
    assert s == s[..|s| - |t|] + t;
    if r == [] {
      assert t == t[..0] + t[0..];
    } else {
      assert t[0] == r[0];
      assert s[|s| - |t|] == t[0];
    }
  }

  /** `s.split(sep)` for a one-character separator: the pieces between
      separators, one more than there are separators ("" gives [""]). */
  function Split(s: string, sep: char): (r: seq<string>)
    ensures |r| >= 1
  {
    if s == [] then [[]]
    else if s[0] == sep then [[]] + Split(s[1..], sep)
    else var t := Split(s[1..], sep); [[s[0]] + t[0]] + t[1..]
  }

  /** `pieces.join(sep)`. */
  function Join(pieces: seq<string>, sep: string): string {
    if pieces == [] then []
    else if |pieces| == 1 then pieces[0]
    else pieces[0] + sep + Join(pieces[1..], sep)
  }

  /** Splitting and joining with the same separator is the identity, and
      no piece contains the separator. */
  lemma SplitJoin(s: string, sep: char)
    ensures Join(Split(s, sep), [sep]) == s
    ensures forall i | 0 <= i < |Split(s, sep)| :: sep !in Split(s, sep)[i]
  {
    JoinSplit(s, sep);
    SplitPieces(s, sep);
  }

  lemma {:induction false} JoinSplit(s: string, sep: char)
    ensures Join(Split(s, sep), [sep]) == s
  {
    if s != [] {
      var t := Split(s[1..], sep);
      JoinSplit(s[1..], sep);
      assert s == [s[0]] + s[1..];
      if s[0] == sep {
        var r := [[]] + t;
        assert Split(s, sep) == r && |r| >= 2 && r[0] == [] && r[1..] == t;
        assert Join(r, [sep]) == [] + [sep] + Join(t, [sep]);
      } else {
        JoinGrowFirst(s[0], t, [sep]);
      }
    }
  }

  /** Growing the first piece at its front grows the joined text at its front. */
  lemma JoinGrowFirst(c: char, t: seq<string>, sep: string)
    requires t != []
    ensures Join([[c] + t[0]] + t[1..], sep) == [c] + Join(t, sep)
  {
    var r := [[c] + t[0]] + t[1..];
    assert r[0] == [c] + t[0] && r[1..] == t[1..];
    if |t| > 1 {
      assert Join(r, sep) == ([c] + t[0]) + sep + Join(t[1..], sep);
    }
  }

  lemma {:induction false} SplitPieces(s: string, sep: char)
    ensures forall i | 0 <= i < |Split(s, sep)| :: sep !in Split(s, sep)[i]
  {
    if s != [] {
      var t := Split(s[1..], sep);
      SplitPieces(s[1..], sep);
      var r := Split(s, sep);
      if s[0] == sep {
        assert r == [[]] + t;
        forall i | 0 <= i < |r| ensures sep !in r[i] {
          if i > 0 { assert r[i] == t[i - 1]; }
        }
      } else {
        assert r == [[s[0]] + t[0]] + t[1..];
        forall i | 0 <= i < |r| ensures sep !in r[i] {
          if i > 0 { assert r[i] == t[i]; }
        }
      }
    }
  }

  /** A separator splits the string into the pieces of each side. */
  lemma {:induction false} SplitAround(a: string, sep: char, b: string)
    ensures Split(a + [sep] + b, sep) == Split(a, sep) + Split(b, sep)
  {
    if a == [] {
      assert a + [sep] + b == [sep] + b;
      assert ([sep] + b)[1..] == b;
    } else {
      var s := a + [sep] + b;
      assert s[0] == a[0] && s[1..] == a[1..] + [sep] + b;
      SplitAround(a[1..], sep, b);
      SplitStep(a[0], sep, Split(a[1..], sep), Split(b, sep));
    }
  }

  /** The pieces after the first character, when the rest splits into
      `t` followed by `u`. */
  lemma SplitStep(c: char, sep: char, t: seq<string>, u: seq<string>)
    requires |t| >= 1
    ensures var w := t + u;
      (if c == sep then [[]] + w else [[c] + w[0]] + w[1..]) ==
      (if c == sep then [[]] + t else [[c] + t[0]] + t[1..]) + u
  {
    var w := t + u;
    if c == sep {
      assert [[]] + w == ([[]] + t) + u;
    } else {
      assert w[0] == t[0] && w[1..] == t[1..] + u;
      assert [[c] + t[0]] + (t[1..] + u) == ([[c] + t[0]] + t[1..]) + u;
    }
  }

  /** A string is all whitespace exactly when every line of it is, since
      the separator `\n` is itself whitespace. */
  lemma {:induction false} SplitLinesAllSpace(s: string)
    ensures AllSpace(s) <==> forall i | 0 <= i < |Split(s, '\n')| :: AllSpace(Split(s, '\n')[i])
  {
    if s != [] {
      var u := s[1..];
      var t := Split(u, '\n');
      var r := Split(s, '\n');
      SplitLinesAllSpace(u);
      assert AllSpace(u) <==> forall i | 0 <= i < |Split(u, '\n')| :: AllSpace(Split(u, '\n')[i]);
      assert s == [s[0]] + u;
      AllSpaceCons(s[0], u);
      if s[0] == '\n' {
        assert r == [[]] + t;
        assert forall i | 0 < i < |r| :: r[i] == t[i - 1];
        assert AllSpace(r[0]);
        if forall i | 0 <= i < |t| :: AllSpace(t[i]) {
          forall i | 0 <= i < |r| ensures AllSpace(r[i]) {
            if i > 0 { assert r[i] == t[i - 1]; }
          }
        }
        if forall i | 0 <= i < |r| :: AllSpace(r[i]) {
          forall i | 0 <= i < |t| ensures AllSpace(t[i]) {
            assert t[i] == r[i + 1];
          }
        }
      } else {
        assert r == [[s[0]] + t[0]] + t[1..];
        AllSpaceCons(s[0], t[0]);
        assert forall i | 0 < i < |r| :: r[i] == t[i];
        assert (forall i | 0 <= i < |t| :: AllSpace(t[i]))
          <==> AllSpace(t[0]) && forall i | 0 < i < |t| :: AllSpace(t[i]);
        assert (forall i | 0 <= i < |r| :: AllSpace(r[i]))
          <==> AllSpace(r[0]) && forall i | 0 < i < |t| :: AllSpace(t[i]);
      }
    }
  }

  lemma AllSpaceCons(c: char, u: string)
    ensures AllSpace([c] + u) <==> IsSpace(c) && AllSpace(u)
  {
    var x := [c] + u;
    assert x[0] == c;
    assert forall i | 0 <= i < |u| :: u[i] == x[i + 1];
  }

  /** A string without the separator is a single piece. */
  lemma {:induction false} SplitNoSep(s: string, sep: char)
    requires sep !in s
    ensures Split(s, sep) == [s]
  {
    if s != [] {
      assert sep !in s[1..];
      SplitNoSep(s[1..], sep);
      assert s == [s[0]] + s[1..];
    }
  }

  /** `s.split(/\s+/)`: the pieces between maximal runs of whitespace. */
  function SplitWs(s: string): (r: seq<string>)
    ensures |r| >= 1
  {
    if s == [] then [[]]
    else if IsSpace(s[0]) then [[]] + SplitWs(TrimStart(s[1..]))
    else var t := SplitWs(s[1..]); [[s[0]] + t[0]] + t[1..]
  }

  /** Joining one more piece appends the separator and the piece. */
  lemma {:induction false} JoinSnoc(pieces: seq<string>, last: string, sep: string)
    requires pieces != []
    ensures Join(pieces + [last], sep) == Join(pieces, sep) + sep + last
  {
    var all := pieces + [last];
    assert all[0] == pieces[0];
    if |pieces| == 1 {
      assert all[1..] == [last];
    } else {
      assert all[1..] == pieces[1..] + [last];
      JoinSnoc(pieces[1..], last, sep);
    }
  }
}
