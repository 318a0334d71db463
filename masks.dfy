/** Input masks of the onboarding wizard (src/utils/masks.ts).  Each mask
    strips every non-digit, truncates, and then punctuates the digits with
    a short chain of non-global `String.prototype.replace` calls.  A
    non-global replace rewrites only the LEFTMOST match of its pattern, so
    the two pattern shapes the masks use are modelled by leftmost-match
    search functions: `(\d{k})(\d)` by FirstRun and `(\d{k})(\d{1,m})$` by
    FirstTail. */
module Masks {
  import opened Text
  import opened Wrappers
  import opened Validation

  // ---------------------------------------------------------------------
  // The two regular-expression steps
  // ---------------------------------------------------------------------

  /** The leftmost position `i >= from` at which `n` consecutive digits
      start: where a search for `\d{n}` succeeds. */
  function FirstRun(s: string, n: nat, from: nat): (r: Option<nat>)
    ensures r.Some? ==> from <= r.value && RunAt(s, r.value, n)
    ensures forall j | from <= j && (r.None? || j < r.value) :: !RunAt(s, j, n)
    decreases |s| - from
  {
    if from + n > |s| then None
    else if RunAt(s, from, n) then Some(from)
    else FirstRun(s, n, from + 1)
  }

  /** `n` digits start at position `j`. */
  predicate RunAt(s: string, j: nat, n: nat) {
    j + n <= |s| && AllDigits(s[j..j + n])
  }

  /** `s.replace(/(\d{k})(\d)/, pre + '$1' + mid + '$2')`: at the leftmost
      run of `k + 1` digits, `pre` goes before the first `k` of them and
      `mid` after them; without such a run `s` is unchanged. */
  function ReplaceRun(s: string, k: nat, pre: string, mid: string): string {
    match FirstRun(s, k + 1, 0)
    case None => s
    case Some(i) => s[..i] + pre + s[i..i + k] + mid + s[i + k..]
  }

  /** The leftmost position `i >= from` at which `(\d{k})(\d{1,m})$`
      matches: from `i` to the end every character is a digit, and after
      the first `k` of them there remain between 1 and `m`. */
  function FirstTail(s: string, k: nat, m: nat, from: nat): (r: Option<nat>)
    ensures r.Some? ==> from <= r.value && TailAt(s, r.value, k, m)
    ensures forall j | from <= j && (r.None? || j < r.value) :: !TailAt(s, j, k, m)
    decreases |s| - from
  {
    if from >= |s| then None
    else if TailAt(s, from, k, m) then Some(from)
    else FirstTail(s, k, m, from + 1)
  }

  /** `(\d{k})(\d{1,m})$` matches at position `j`. */
  predicate TailAt(s: string, j: nat, k: nat, m: nat) {
    j <= |s| && 1 <= |s| - j - k <= m && AllDigits(s[j..])
  }

  /** `s.replace(/(\d{k})(\d{1,m})$/, '$1' + sep + '$2')`. */
  function ReplaceTail(s: string, k: nat, m: nat, sep: string): string {
    match FirstTail(s, k, m, 0)
    case None => s
    case Some(i) => s[..i + k] + sep + s[i + k..]
  }

  // ---------------------------------------------------------------------
  // The masks
  // ---------------------------------------------------------------------

  /** `maskCPF`: at most 11 digits as `000.000.000-00`. */
  function MaskCPF(value: string): string {
    var clean := Take(OnlyDigits(value), 11);
    ReplaceTail(ReplaceRun(ReplaceRun(clean, 3, "", "."), 3, "", "."), 3, 2, "-")
  }

  /** `maskCNPJ`: at most 14 digits as `00.000.000/0000-00`. */
  function MaskCNPJ(value: string): string {
    var clean := Take(OnlyDigits(value), 14);
    ReplaceTail(ReplaceRun(ReplaceRun(ReplaceRun(clean, 2, "", "."), 3, "", "."), 3, "", "/"), 4, 2, "-")
  }

  /** `maskCpfCnpj`: the CPF mask up to 11 digits, the CNPJ mask beyond. */
  function MaskCpfCnpj(value: string): string {
    var clean := OnlyDigits(value);
    if |clean| <= 11 then MaskCPF(clean) else MaskCNPJ(clean)
  }

  /** `maskPhone`: at most 11 digits as `(00) 0000-0000` or `(00) 00000-0000`. */
  function MaskPhone(value: string): string {
    var clean := Take(OnlyDigits(value), 11);
    if |clean| <= 10 then ReplaceTail(ReplaceRun(clean, 2, "(", ") "), 4, 4, "-")
    else ReplaceTail(ReplaceRun(clean, 2, "(", ") "), 5, 4, "-")
  }

  /** `unmask`: only the digits. */
  function Unmask(value: string): (r: string)
    ensures AllDigits(r)
  {
    OnlyDigits(value)
  }

  // ---------------------------------------------------------------------
  // Reference shapes, by number of digits
  // ---------------------------------------------------------------------

  /** The CPF layout of up to 11 digits, written band by band. */
  function CpfShape(d: string): string
    requires |d| <= 11
  {
    if |d| <= 3 then d
    else if |d| <= 6 then d[..3] + "." + d[3..]
    else if |d| <= 9 then d[..3] + "." + d[3..6] + "." + d[6..]
    else d[..3] + "." + d[3..6] + "." + d[6..9] + "-" + d[9..]
  }

  /** The CNPJ layout of up to 14 digits, written band by band. */
  function CnpjShape(d: string): string
    requires |d| <= 14
  {
    if |d| <= 2 then d
    else if |d| <= 5 then d[..2] + "." + d[2..]
    else if |d| <= 8 then d[..2] + "." + d[2..5] + "." + d[5..]
    else if |d| <= 12 then d[..2] + "." + d[2..5] + "." + d[5..8] + "/" + d[8..]
    else d[..2] + "." + d[2..5] + "." + d[5..8] + "/" + d[8..12] + "-" + d[12..]
  }

  /** The phone layout of up to 11 digits, written band by band. */
  function PhoneShape(d: string): string
    requires |d| <= 11
  {
    if |d| <= 2 then d
    else if |d| <= 6 then "(" + d[..2] + ") " + d[2..]
    else if |d| <= 10 then "(" + d[..2] + ") " + d[2..6] + "-" + d[6..]
    else "(" + d[..2] + ") " + d[2..7] + "-" + d[7..]
  }

  /** `s` fits `template`, where `#` stands for any digit and every other
      template character stands for itself. */
  predicate FitsTemplate(s: string, template: string) {
    && |s| == |template|
    && forall i | 0 <= i < |s| :: if template[i] == '#' then IsDigit(s[i]) else s[i] == template[i]
  }

  // ---------------------------------------------------------------------
  // Search lemmas
  // ---------------------------------------------------------------------

  /** Inside a trailing run of digits the first window is a match. */
  lemma RunInTail(s: string, n: nat, p: nat)
    requires p <= |s| && AllDigits(s[p..])
    ensures FirstRun(s, n, p) == if p + n <= |s| then Some(p) else None
  {
    if p + n <= |s| {
      assert s[p..p + n] == s[p..][..n];
    }
  }

  /** No window that covers the non-digit at `q` is a match, so the search
      may resume right after `q`. */
  lemma {:induction false} RunSkipPast(s: string, n: nat, q: nat, from: nat)
    requires from <= q < |s| && q < from + n && !IsDigit(s[q])
    ensures FirstRun(s, n, from) == FirstRun(s, n, q + 1)
    decreases q - from
  {
    if from + n <= |s| {
      assert s[from..from + n][q - from] == s[q];
      if from < q {
        RunSkipPast(s, n, q, from + 1);
      }
    }
  }

  /** Every suffix starting at or before a non-digit fails the tail pattern. */
  lemma {:induction false} TailSkipPast(s: string, k: nat, m: nat, q: nat, from: nat)
    requires from <= q < |s| && !IsDigit(s[q])
    ensures FirstTail(s, k, m, from) == FirstTail(s, k, m, q + 1)
    decreases q - from
  {
    assert s[from..][q - from] == s[q];
    if from < q {
      TailSkipPast(s, k, m, q, from + 1);
    }
  }

  /** Inside a trailing run of digits, the tail pattern matches where the
      second group is as long as `m` allows. */
  lemma {:induction false} TailInRun(s: string, k: nat, m: nat, p: nat)
    requires m >= 1 && p <= |s| && AllDigits(s[p..])
    ensures FirstTail(s, k, m, p) ==
      if |s| - p - k < 1 then None
      else if |s| - p - k <= m then Some(p)
      else Some(|s| - k - m)
    decreases |s| - p
  {
    if p < |s| && !TailAt(s, p, k, m) {
      assert s[p + 1..] == s[p..][1..];
      TailInRun(s, k, m, p + 1);
    }
  }

  // ---------------------------------------------------------------------
  // Digit preservation and idempotence
  // ---------------------------------------------------------------------

  /** Inserting digit-free text keeps the digit sequence. */
  lemma InsertKeepsDigits(s: string, i: nat, k: nat, pre: string, mid: string)
    requires i + k <= |s| && NoDigits(pre) && NoDigits(mid)
    ensures OnlyDigits(s[..i] + pre + s[i..i + k] + mid + s[i + k..]) == OnlyDigits(s)
  {
    var a, b, c := s[..i], s[i..i + k], s[i + k..];
    assert s == a + b + c;
    InsertTwiceKeepsDigits(a, pre, b, mid, c);
  }

  lemma InsertTwiceKeepsDigits(a: string, pre: string, b: string, mid: string, c: string)
    requires NoDigits(pre) && NoDigits(mid)
    ensures OnlyDigits(a + pre + b + mid + c) == OnlyDigits(a + b + c)
  {
    InsertNoDigits(a + pre + b, mid, c);
    OnlyDigitsConcat(a + pre + b, c);
    InsertNoDigits(a, pre, b);
    OnlyDigitsConcat(a + b, c);
  }

  lemma InsertNoDigits(u: string, t: string, v: string)
    requires NoDigits(t)
    ensures OnlyDigits(u + t + v) == OnlyDigits(u + v)
  {
    OnlyDigitsConcat(u + t, v);
    OnlyDigitsConcat(u, t);
    OnlyDigitsOfNoDigits(t);
    OnlyDigitsConcat(u, v);
  }

  lemma ReplaceRunKeepsDigits(s: string, k: nat, pre: string, mid: string)
    requires NoDigits(pre) && NoDigits(mid)
    ensures OnlyDigits(ReplaceRun(s, k, pre, mid)) == OnlyDigits(s)
  {
    match FirstRun(s, k + 1, 0)
    case None =>
    case Some(i) => InsertKeepsDigits(s, i, k, pre, mid);
  }

  lemma ReplaceTailKeepsDigits(s: string, k: nat, m: nat, sep: string)
    requires NoDigits(sep)
    ensures OnlyDigits(ReplaceTail(s, k, m, sep)) == OnlyDigits(s)
  {
    match FirstTail(s, k, m, 0)
    case None =>
    case Some(i) =>
      assert s[..i + k] + sep + s[i + k..] == s[..i + k] + [] + s[i + k..i + k] + sep + s[i + k..];
      InsertKeepsDigits(s, i + k, 0, [], sep);
  }

  /** The digits of a masked CPF are the first 11 digits of the input. */
  lemma MaskCPFDigits(x: string)
    ensures OnlyDigits(MaskCPF(x)) == Take(OnlyDigits(x), 11)
  {
    var clean := Take(OnlyDigits(x), 11);
    TakeDigits(OnlyDigits(x), 11);
    var s1 := ReplaceRun(clean, 3, "", ".");
    var s2 := ReplaceRun(s1, 3, "", ".");
    ReplaceRunKeepsDigits(clean, 3, "", ".");
    ReplaceRunKeepsDigits(s1, 3, "", ".");
    ReplaceTailKeepsDigits(s2, 3, 2, "-");
  }

  /** The digits of a masked CNPJ are the first 14 digits of the input. */
  lemma MaskCNPJDigits(x: string)
    ensures OnlyDigits(MaskCNPJ(x)) == Take(OnlyDigits(x), 14)
  {
    var clean := Take(OnlyDigits(x), 14);
    TakeDigits(OnlyDigits(x), 14);
    var s1 := ReplaceRun(clean, 2, "", ".");
    var s2 := ReplaceRun(s1, 3, "", ".");
    var s3 := ReplaceRun(s2, 3, "", "/");
    ReplaceRunKeepsDigits(clean, 2, "", ".");
    ReplaceRunKeepsDigits(s1, 3, "", ".");
    ReplaceRunKeepsDigits(s2, 3, "", "/");
    ReplaceTailKeepsDigits(s3, 4, 2, "-");
  }

  /** The digits of a masked phone are the first 11 digits of the input. */
  lemma MaskPhoneDigits(x: string)
    ensures OnlyDigits(MaskPhone(x)) == Take(OnlyDigits(x), 11)
  {
    var clean := Take(OnlyDigits(x), 11);
    TakeDigits(OnlyDigits(x), 11);
    var s1 := ReplaceRun(clean, 2, "(", ") ");
    ReplaceRunKeepsDigits(clean, 2, "(", ") ");
    ReplaceTailKeepsDigits(s1, 4, 4, "-");
    ReplaceTailKeepsDigits(s1, 5, 4, "-");
  }

  /** `unmask` undoes each mask, up to its truncation. */
  lemma UnmaskMasks(x: string)
    ensures Unmask(MaskCPF(x)) == Take(Unmask(x), 11)
    ensures Unmask(MaskCNPJ(x)) == Take(Unmask(x), 14)
    ensures Unmask(MaskPhone(x)) == Take(Unmask(x), 11)
    ensures Unmask(Unmask(x)) == Unmask(x)
  {
    MaskCPFDigits(x);
    MaskCNPJDigits(x);
    MaskPhoneDigits(x);
    OnlyDigitsIdempotent(x);
  }

  lemma TakeIdempotent(s: string, n: nat)
    ensures Take(Take(s, n), n) == Take(s, n)
  {
  }

  lemma MaskCPFIdempotent(x: string)
    ensures MaskCPF(MaskCPF(x)) == MaskCPF(x)
  {
    MaskCPFDigits(x);
    TakeIdempotent(OnlyDigits(x), 11);
  }

  lemma MaskCNPJIdempotent(x: string)
    ensures MaskCNPJ(MaskCNPJ(x)) == MaskCNPJ(x)
  {
    MaskCNPJDigits(x);
    TakeIdempotent(OnlyDigits(x), 14);
  }

  lemma MaskPhoneIdempotent(x: string)
    ensures MaskPhone(MaskPhone(x)) == MaskPhone(x)
  {
    MaskPhoneDigits(x);
    TakeIdempotent(OnlyDigits(x), 11);
  }

  /** Re-masking a masked tax ID gives the same text, in both branches. */
  lemma MaskCpfCnpjIdempotent(x: string)
    ensures MaskCpfCnpj(MaskCpfCnpj(x)) == MaskCpfCnpj(x)
  {
    var clean := OnlyDigits(x);
    OnlyDigitsIdempotent(x);
    if |clean| <= 11 {
      var y := MaskCPF(clean);
      MaskCPFDigits(clean);
      assert OnlyDigits(y) == clean;
      MaskCPFIdempotent(clean);
      assert MaskCpfCnpj(y) == MaskCPF(OnlyDigits(y));
    } else {
      var y := MaskCNPJ(clean);
      MaskCNPJDigits(clean);
      assert OnlyDigits(y) == Take(clean, 14);
      assert |OnlyDigits(y)| > 11;
      MaskCNPJIdempotent(clean);
      MaskCNPJDigits(y);
      assert MaskCNPJ(OnlyDigits(y)) == MaskCNPJ(y) by {
        OnlyDigitsIdempotent(y);
      }
      assert MaskCpfCnpj(y) == MaskCNPJ(OnlyDigits(y));
    }
  }

  /** The branch maskCpfCnpj takes depends on the digit count alone. */
  lemma MaskCpfCnpjBranches(x: string)
    ensures |OnlyDigits(x)| <= 11 ==> MaskCpfCnpj(x) == MaskCPF(x)
    ensures |OnlyDigits(x)| > 11 ==> MaskCpfCnpj(x) == MaskCNPJ(x)
  {
    OnlyDigitsIdempotent(x);
  }

  /** Masking never changes the verdict of the tax-ID validators. */
  lemma MaskKeepsTaxIdVerdict(x: string)
    ensures |OnlyDigits(x)| <= 11 ==> IsValidCPF(MaskCPF(x)) == IsValidCPF(x)
    ensures |OnlyDigits(x)| <= 14 ==> IsValidCNPJ(MaskCNPJ(x)) == IsValidCNPJ(x)
  {
    MaskCPFDigits(x);
    MaskCNPJDigits(x);
    if |OnlyDigits(x)| <= 11 { TaxIdIgnoresFormatting(MaskCPF(x), x); }
    if |OnlyDigits(x)| <= 14 { TaxIdIgnoresFormatting(MaskCNPJ(x), x); }
  }

  /** A masked phone validates exactly when at least ten digits were
      typed: up to eleven digits the mask keeps the verdict, and beyond
      that its truncation turns a refused number into an accepted one. */
  lemma MaskPhoneKeepsVerdict(x: string)
    ensures ValidatePhone(MaskPhone(x)) <==> |OnlyDigits(x)| >= 10
    ensures |OnlyDigits(x)| <= 11 ==> (ValidatePhone(MaskPhone(x)) <==> ValidatePhone(x))
  {
    MaskPhoneDigits(x);
  }

  // ---------------------------------------------------------------------
  // Each mask produces its reference shape
  // ---------------------------------------------------------------------

  /** On a string of digits the first replacement acts at position 0. */
  lemma ReplaceRunOnDigits(d: string, k: nat, pre: string, mid: string)
    requires AllDigits(d)
    ensures ReplaceRun(d, k, pre, mid) == if |d| <= k then d else pre + d[..k] + mid + d[k..]
  {
    assert d[0..] == d;
    RunInTail(d, k + 1, 0);
    if |d| > k {
      assert d[..0] + pre + d[0..k] + mid + d[k..] == pre + d[..k] + mid + d[k..];
    }
  }

  /** The CPF mask after its first replacement. */
  lemma CpfFirstDot(d: string)
    requires AllDigits(d) && 4 <= |d| <= 11
    ensures ReplaceRun(d, 3, "", ".") == d[..3] + "." + d[3..]
  {
    ReplaceRunOnDigits(d, 3, "", ".");
  }

  /** The CPF mask after its second replacement. */
  lemma CpfSecondDot(d: string)
    requires AllDigits(d) && 4 <= |d| <= 11
    ensures ReplaceRun(d[..3] + "." + d[3..], 3, "", ".") ==
      if |d| <= 6 then d[..3] + "." + d[3..] else d[..3] + "." + d[3..6] + "." + d[6..]
  {
    var s1 := d[..3] + "." + d[3..];
    assert s1[3] == '.';
    RunSkipPast(s1, 4, 3, 0);
    assert s1[4..] == d[3..];
    RunInTail(s1, 4, 4);
    if |d| > 6 {
      assert s1[..4] == d[..3] + "." && s1[4..7] == d[3..6] && s1[7..] == d[6..];
      assert s1[..4] + "" == s1[..4];
    }
  }

  /** The CPF mask's final replacement on each band. */
  lemma CpfDash(d: string)
    requires AllDigits(d) && 4 <= |d| <= 11
    ensures |d| <= 6 ==> ReplaceTail(d[..3] + "." + d[3..], 3, 2, "-") == d[..3] + "." + d[3..]
    ensures 6 < |d| ==> ReplaceTail(d[..3] + "." + d[3..6] + "." + d[6..], 3, 2, "-") == CpfShape(d)
  {
    if |d| <= 6 {
      var s1 := d[..3] + "." + d[3..];
      assert s1[3] == '.';
      TailSkipPast(s1, 3, 2, 3, 0);
      assert s1[4..] == d[3..];
      TailInRun(s1, 3, 2, 4);
    } else {
      var s2 := d[..3] + "." + d[3..6] + "." + d[6..];
      assert s2[3] == '.' && s2[7] == '.';
      TailSkipPast(s2, 3, 2, 3, 0);
      TailSkipPast(s2, 3, 2, 7, 4);
      assert s2[8..] == d[6..];
      TailInRun(s2, 3, 2, 8);
      if |d| > 9 {
        assert s2[..11] + "-" + s2[11..] == d[..3] + "." + d[3..6] + "." + d[6..9] + "-" + d[9..];
      }
    }
  }

  /** maskCPF lays out the first 11 digits band by band. */
  lemma MaskCPFShape(x: string)
    ensures MaskCPF(x) == CpfShape(Take(OnlyDigits(x), 11))
  {
    var d := Take(OnlyDigits(x), 11);
    TakeDigits(OnlyDigits(x), 11);
    if |d| <= 3 {
      ReplaceRunOnDigits(d, 3, "", ".");
      assert d[0..] == d;
      TailInRun(d, 3, 2, 0);
    } else {
      CpfFirstDot(d);
      CpfSecondDot(d);
      CpfDash(d);
    }
  }

  /** The CNPJ mask after its second replacement. */
  lemma CnpjSecondDot(d: string)
    requires AllDigits(d) && 3 <= |d| <= 14
    ensures ReplaceRun(d[..2] + "." + d[2..], 3, "", ".") ==
      if |d| <= 5 then d[..2] + "." + d[2..] else d[..2] + "." + d[2..5] + "." + d[5..]
  {
    var s1 := d[..2] + "." + d[2..];
    assert s1[2] == '.';
    RunSkipPast(s1, 4, 2, 0);
    assert s1[3..] == d[2..];
    RunInTail(s1, 4, 3);
    if |d| > 5 {
      assert s1[..3] == d[..2] + "." && s1[3..6] == d[2..5] && s1[6..] == d[5..];
      assert s1[..3] + "" + s1[3..6] + "." + s1[6..] == d[..2] + "." + d[2..5] + "." + d[5..];
    }
  }

  /** The CNPJ mask's third replacement, which finds no run before 6 digits. */
  lemma CnpjSlash(d: string)
    requires AllDigits(d) && 3 <= |d| <= 14
    ensures |d| <= 5 ==> ReplaceRun(d[..2] + "." + d[2..], 3, "", "/") == d[..2] + "." + d[2..]
    ensures 5 < |d| ==> (ReplaceRun(d[..2] + "." + d[2..5] + "." + d[5..], 3, "", "/") ==
      if |d| <= 8 then d[..2] + "." + d[2..5] + "." + d[5..]
      else d[..2] + "." + d[2..5] + "." + d[5..8] + "/" + d[8..])
  {
    if |d| <= 5 {
      var s1 := d[..2] + "." + d[2..];
      assert s1[2] == '.';
      RunSkipPast(s1, 4, 2, 0);
      assert s1[3..] == d[2..];
      RunInTail(s1, 4, 3);
    } else {
      var s2 := d[..2] + "." + d[2..5] + "." + d[5..];
      assert s2[2] == '.' && s2[6] == '.';
      RunSkipPast(s2, 4, 2, 0);
      RunSkipPast(s2, 4, 6, 3);
      assert s2[7..] == d[5..];
      RunInTail(s2, 4, 7);
      if |d| > 8 {
        assert s2[..7] == d[..2] + "." + d[2..5] + "." && s2[7..10] == d[5..8] && s2[10..] == d[8..];
        assert s2[..7] + "" == s2[..7];
      }
    }
  }

  /** The CNPJ mask's final replacement on each band. */
  lemma CnpjDash(d: string)
    requires AllDigits(d) && 3 <= |d| <= 14
    ensures |d| <= 5 ==> ReplaceTail(d[..2] + "." + d[2..], 4, 2, "-") == CnpjShape(d)
    ensures 5 < |d| <= 8 ==> ReplaceTail(d[..2] + "." + d[2..5] + "." + d[5..], 4, 2, "-") == CnpjShape(d)
    ensures 8 < |d| ==> ReplaceTail(d[..2] + "." + d[2..5] + "." + d[5..8] + "/" + d[8..], 4, 2, "-") == CnpjShape(d)
  {
    if |d| <= 5 {
      CnpjDashOneDot(d);
    } else if |d| <= 8 {
      CnpjDashTwoDots(d);
    } else {
      CnpjDashSlash(d);
    }
  }

  lemma CnpjDashOneDot(d: string)
    requires AllDigits(d) && 3 <= |d| <= 5
    ensures ReplaceTail(d[..2] + "." + d[2..], 4, 2, "-") == d[..2] + "." + d[2..]
  {
    var s1 := d[..2] + "." + d[2..];
    assert s1[2] == '.';
    TailSkipPast(s1, 4, 2, 2, 0);
    assert s1[3..] == d[2..];
    TailInRun(s1, 4, 2, 3);
  }

  lemma CnpjDashTwoDots(d: string)
    requires AllDigits(d) && 5 < |d| <= 8
    ensures ReplaceTail(d[..2] + "." + d[2..5] + "." + d[5..], 4, 2, "-") == d[..2] + "." + d[2..5] + "." + d[5..]
  {
    var s2 := d[..2] + "." + d[2..5] + "." + d[5..];
    assert s2[2] == '.' && s2[6] == '.';
    TailSkipPast(s2, 4, 2, 2, 0);
    TailSkipPast(s2, 4, 2, 6, 3);
    assert s2[7..] == d[5..];
    TailInRun(s2, 4, 2, 7);
  }

  lemma CnpjDashSlash(d: string)
    requires AllDigits(d) && 8 < |d| <= 14
    ensures ReplaceTail(d[..2] + "." + d[2..5] + "." + d[5..8] + "/" + d[8..], 4, 2, "-") ==
      if |d| <= 12 then d[..2] + "." + d[2..5] + "." + d[5..8] + "/" + d[8..]
      else d[..2] + "." + d[2..5] + "." + d[5..8] + "/" + d[8..12] + "-" + d[12..]
  {
    var s3 := d[..2] + "." + d[2..5] + "." + d[5..8] + "/" + d[8..];
    assert s3[2] == '.' && s3[6] == '.' && s3[10] == '/';
    TailSkipPast(s3, 4, 2, 2, 0);
    TailSkipPast(s3, 4, 2, 6, 3);
    TailSkipPast(s3, 4, 2, 10, 7);
    assert s3[11..] == d[8..];
    TailInRun(s3, 4, 2, 11);
    if |d| > 12 {
      assert s3[..15] + "-" + s3[15..] == d[..2] + "." + d[2..5] + "." + d[5..8] + "/" + d[8..12] + "-" + d[12..];
    }
  }

  /** The last three CNPJ replacements once the first dot is in. */
  lemma CnpjAfterFirstDot(d: string)
    requires AllDigits(d) && 3 <= |d| <= 14
    ensures ReplaceTail(ReplaceRun(ReplaceRun(d[..2] + "." + d[2..], 3, "", "."), 3, "", "/"), 4, 2, "-") == CnpjShape(d)
  {
    CnpjSecondDot(d);
    CnpjSlash(d);
    CnpjDash(d);
    if |d| <= 5 {
      assert ReplaceRun(d[..2] + "." + d[2..], 3, "", ".") == d[..2] + "." + d[2..];
    } else {
      assert ReplaceRun(d[..2] + "." + d[2..], 3, "", ".") == d[..2] + "." + d[2..5] + "." + d[5..];
    }
  }

  /** The four CNPJ replacements on a digit string lay it out band by band. */
  lemma CnpjStages(d: string)
    requires AllDigits(d) && |d| <= 14
    ensures ReplaceTail(ReplaceRun(ReplaceRun(ReplaceRun(d, 2, "", "."), 3, "", "."), 3, "", "/"), 4, 2, "-") == CnpjShape(d)
  {
    ReplaceRunOnDigits(d, 2, "", ".");
    if |d| <= 2 {
      ReplaceRunOnDigits(d, 3, "", ".");
      ReplaceRunOnDigits(d, 3, "", "/");
      assert d[0..] == d;
      TailInRun(d, 4, 2, 0);
    } else {
      assert "" + d[..2] + "." + d[2..] == d[..2] + "." + d[2..];
      CnpjAfterFirstDot(d);
    }
  }

  /** maskCNPJ lays out the first 14 digits band by band. */
  lemma MaskCNPJShape(x: string)
    ensures MaskCNPJ(x) == CnpjShape(Take(OnlyDigits(x), 14))
  {
    TakeDigits(OnlyDigits(x), 14);
    CnpjStages(Take(OnlyDigits(x), 14));
  }

  /** The phone mask's final replacement on each band. */
  lemma PhoneDash(d: string)
    requires AllDigits(d) && 3 <= |d| <= 11
    ensures |d| <= 10 ==> ReplaceTail("(" + d[..2] + ") " + d[2..], 4, 4, "-") == PhoneShape(d)
    ensures |d| == 11 ==> ReplaceTail("(" + d[..2] + ") " + d[2..], 5, 4, "-") == PhoneShape(d)
  {
    var s1 := "(" + d[..2] + ") " + d[2..];
    PhoneAreaCode(d);
    if |d| <= 10 {
      PhoneDashTen(d, s1);
    } else {
      PhoneDashEleven(d, s1);
    }
  }

  /** The area code and its brackets are no run of digits. */
  lemma PhoneAreaCode(d: string)
    requires AllDigits(d) && 3 <= |d| <= 11
    ensures var s1 := "(" + d[..2] + ") " + d[2..];
      s1[0] == '(' && s1[3] == ')' && s1[4] == ' ' && s1[5..] == d[2..] && AllDigits(s1[5..])
  {
  }

  lemma PhoneDashTen(d: string, s1: string)
    requires AllDigits(d) && 3 <= |d| <= 10
    requires s1 == "(" + d[..2] + ") " + d[2..]
    requires s1[0] == '(' && s1[3] == ')' && s1[4] == ' ' && s1[5..] == d[2..]
    ensures ReplaceTail(s1, 4, 4, "-") == PhoneShape(d)
  {
    TailSkipPast(s1, 4, 4, 0, 0);
    TailSkipPast(s1, 4, 4, 3, 1);
    TailSkipPast(s1, 4, 4, 4, 4);
    TailInRun(s1, 4, 4, 5);
    if 6 < |d| {
      assert s1[..9] + "-" + s1[9..] == "(" + d[..2] + ") " + d[2..6] + "-" + d[6..];
    }
  }

  lemma PhoneDashEleven(d: string, s1: string)
    requires AllDigits(d) && |d| == 11
    requires s1 == "(" + d[..2] + ") " + d[2..]
    requires s1[0] == '(' && s1[3] == ')' && s1[4] == ' ' && s1[5..] == d[2..]
    ensures ReplaceTail(s1, 5, 4, "-") == PhoneShape(d)
  {
    TailSkipPast(s1, 5, 4, 0, 0);
    TailSkipPast(s1, 5, 4, 3, 1);
    TailSkipPast(s1, 5, 4, 4, 4);
    TailInRun(s1, 5, 4, 5);
    assert s1[..10] + "-" + s1[10..] == "(" + d[..2] + ") " + d[2..7] + "-" + d[7..];
  }

  /** maskPhone lays out the first 11 digits band by band. */
  lemma MaskPhoneShape(x: string)
    ensures MaskPhone(x) == PhoneShape(Take(OnlyDigits(x), 11))
  {
    var d := Take(OnlyDigits(x), 11);
    TakeDigits(OnlyDigits(x), 11);
    ReplaceRunOnDigits(d, 2, "(", ") ");
    if |d| <= 2 {
      assert d[0..] == d;
      TailInRun(d, 4, 4, 0);
    } else {
      assert "" + "(" + d[..2] + ") " + d[2..] == "(" + d[..2] + ") " + d[2..];
      PhoneDash(d);
    }
  }

  // ---------------------------------------------------------------------
  // Full-length layouts
  // ---------------------------------------------------------------------

  /** `n` digit placeholders. */
  function Hashes(n: nat): (t: string)
    ensures |t| == n && forall i | 0 <= i < n :: t[i] == '#'
  {
    seq(n, _ => '#')
  }

  /** The CPF layout `###.###.###-##`. */
  const CpfTemplate: string := Hashes(3) + "." + Hashes(3) + "." + Hashes(3) + "-" + Hashes(2)

  /** The CNPJ layout `##.###.###/####-##`. */
  const CnpjTemplate: string := Hashes(2) + "." + Hashes(3) + "." + Hashes(3) + "/" + Hashes(4) + "-" + Hashes(2)

  /** The ten-digit phone layout `(##) ####-####`. */
  const PhoneTenTemplate: string := "(" + Hashes(2) + ") " + Hashes(4) + "-" + Hashes(4)

  /** The eleven-digit phone layout `(##) #####-####`. */
  const PhoneElevenTemplate: string := "(" + Hashes(2) + ") " + Hashes(5) + "-" + Hashes(4)

  lemma HashesSpelled()
    ensures Hashes(2) == "##" && Hashes(3) == "###" && Hashes(4) == "####" && Hashes(5) == "#####"
  {
  }

  /** The layouts, character by character. */
  lemma CpfTemplateSpelled()
    ensures CpfTemplate == "###.###.###-##"
  {
    HashesSpelled();
  }

  lemma CnpjTemplateSpelled()
    ensures CnpjTemplate == "##.###.###/####-##"
  {
    HashesSpelled();
  }

  lemma PhoneTemplatesSpelled()
    ensures PhoneTenTemplate == "(##) ####-####"
    ensures PhoneElevenTemplate == "(##) #####-####"
  {
    HashesSpelled();
  }

  /** A piece of text free of `#` fits itself. */
  predicate Literal(sep: string) {
    forall i | 0 <= i < |sep| :: sep[i] != '#'
  }

  /** Digits fit as many placeholders. */
  lemma FitsDigits(g: string, n: nat)
    requires AllDigits(g) && |g| == n
    ensures FitsTemplate(g, Hashes(n))
  {
  }

  /** A separator fits itself. */
  lemma FitsLiteral(sep: string)
    requires Literal(sep)
    ensures FitsTemplate(sep, sep)
  {
  }

  /** Templates fit piecewise. */
  lemma FitsConcat(a: string, ta: string, b: string, tb: string)
    requires FitsTemplate(a, ta) && FitsTemplate(b, tb)
    ensures FitsTemplate(a + b, ta + tb)
  {
    forall i | 0 <= i < |a + b|
      ensures if (ta + tb)[i] == '#' then IsDigit((a + b)[i]) else (a + b)[i] == (ta + tb)[i]
    {
      if i < |a| {
        assert (a + b)[i] == a[i] && (ta + tb)[i] == ta[i];
      } else {
        assert (a + b)[i] == b[i - |a|] && (ta + tb)[i] == tb[i - |a|];
      }
    }
  }

  /** Appending a band of digits to a fitting prefix. */
  lemma FitsThenDigits(s: string, t: string, g: string, n: nat)
    requires FitsTemplate(s, t) && AllDigits(g) && |g| == n
    ensures FitsTemplate(s + g, t + Hashes(n))
  {
    FitsDigits(g, n);
    FitsConcat(s, t, g, Hashes(n));
  }

  /** Appending a separator to a fitting prefix. */
  lemma FitsThenLiteral(s: string, t: string, sep: string)
    requires FitsTemplate(s, t) && Literal(sep)
    ensures FitsTemplate(s + sep, t + sep)
  {
    FitsLiteral(sep);
    FitsConcat(s, t, sep, sep);
  }

  /** Eleven digits are masked as `###.###.###-##`. */
  lemma MaskCPFFull(x: string)
    requires |OnlyDigits(x)| >= 11
    ensures FitsTemplate(MaskCPF(x), CpfTemplate)
  {
    MaskCPFShape(x);
    var d := Take(OnlyDigits(x), 11);
    TakeDigits(OnlyDigits(x), 11);
    CpfShapeFits(d);
  }

  lemma CpfShapeFits(d: string)
    requires AllDigits(d) && |d| == 11
    ensures FitsTemplate(CpfShape(d), CpfTemplate)
  {
    var h3 := Hashes(3);
    FitsDigits(d[..3], 3);
    FitsThenLiteral(d[..3], h3, ".");
    FitsThenDigits(d[..3] + ".", h3 + ".", d[3..6], 3);
    FitsThenLiteral(d[..3] + "." + d[3..6], h3 + "." + h3, ".");
    FitsThenDigits(d[..3] + "." + d[3..6] + ".", h3 + "." + h3 + ".", d[6..9], 3);
    FitsThenLiteral(d[..3] + "." + d[3..6] + "." + d[6..9], h3 + "." + h3 + "." + h3, "-");
    FitsThenDigits(d[..3] + "." + d[3..6] + "." + d[6..9] + "-", h3 + "." + h3 + "." + h3 + "-", d[9..], 2);
  }

  /** Fourteen digits are masked as `##.###.###/####-##`. */
  lemma MaskCNPJFull(x: string)
    requires |OnlyDigits(x)| >= 14
    ensures FitsTemplate(MaskCNPJ(x), CnpjTemplate)
  {
    MaskCNPJShape(x);
    var d := Take(OnlyDigits(x), 14);
    TakeDigits(OnlyDigits(x), 14);
    CnpjShapeFits(d);
  }

  lemma CnpjShapeFits(d: string)
    requires AllDigits(d) && |d| == 14
    ensures FitsTemplate(CnpjShape(d), CnpjTemplate)
  {
    var h2, h3, h4 := Hashes(2), Hashes(3), Hashes(4);
    var s1 := d[..2] + "." + d[2..5] + "." + d[5..8];
    var t1 := h2 + "." + h3 + "." + h3;
    FitsDigits(d[..2], 2);
    FitsThenLiteral(d[..2], h2, ".");
    FitsThenDigits(d[..2] + ".", h2 + ".", d[2..5], 3);
    FitsThenLiteral(d[..2] + "." + d[2..5], h2 + "." + h3, ".");
    FitsThenDigits(d[..2] + "." + d[2..5] + ".", h2 + "." + h3 + ".", d[5..8], 3);
    FitsThenLiteral(s1, t1, "/");
    FitsThenDigits(s1 + "/", t1 + "/", d[8..12], 4);
    FitsThenLiteral(s1 + "/" + d[8..12], t1 + "/" + h4, "-");
    FitsThenDigits(s1 + "/" + d[8..12] + "-", t1 + "/" + h4 + "-", d[12..], 2);
  }

  /** A ten- or eleven-digit phone number, banded as the mask bands it, fits its layout. */
  lemma PhoneShapeFits(d: string, n: nat)
    requires AllDigits(d) && (n == 4 || n == 5) && |d| == 2 + n + 4
    ensures FitsTemplate("(" + d[..2] + ") " + d[2..2 + n] + "-" + d[2 + n..], "(" + Hashes(2) + ") " + Hashes(n) + "-" + Hashes(4))
  {
    FitsLiteral("(");
    FitsThenDigits("(", "(", d[..2], 2);
    FitsThenLiteral("(" + d[..2], "(" + Hashes(2), ") ");
    FitsThenDigits("(" + d[..2] + ") ", "(" + Hashes(2) + ") ", d[2..2 + n], n);
    FitsThenLiteral("(" + d[..2] + ") " + d[2..2 + n], "(" + Hashes(2) + ") " + Hashes(n), "-");
    FitsThenDigits("(" + d[..2] + ") " + d[2..2 + n] + "-", "(" + Hashes(2) + ") " + Hashes(n) + "-", d[2 + n..], 4);
  }

  /** Ten digits are masked as `(##) ####-####`. */
  lemma MaskPhoneTen(x: string)
    requires |OnlyDigits(x)| == 10
    ensures FitsTemplate(MaskPhone(x), PhoneTenTemplate)
  {
    MaskPhoneShape(x);
    var d := Take(OnlyDigits(x), 11);
    TakeDigits(OnlyDigits(x), 11);
    PhoneShapeFits(d, 4);
  }

  /** Eleven or more digits are masked as `(##) #####-####`. */
  lemma MaskPhoneEleven(x: string)
    requires |OnlyDigits(x)| >= 11
    ensures FitsTemplate(MaskPhone(x), PhoneElevenTemplate)
  {
    MaskPhoneShape(x);
    var d := Take(OnlyDigits(x), 11);
    TakeDigits(OnlyDigits(x), 11);
    PhoneShapeFits(d, 5);
  }

  // ---------------------------------------------------------------------
  // Currency
  // ---------------------------------------------------------------------

  /** `R$` and the no-break space (U+00A0) that the pt-BR currency format
      puts before the amount. */
  const CurrencyPrefix: string := "R$\U{00A0}"

  /** Two digits of a value below 100, zero padded. */
  function TwoDigits(n: nat): (r: string)
    requires n < 100
    ensures |r| == 2 && AllDigits(r) && DigitsToNat(r) == n
  {
    var r := [DigitChar(n / 10), DigitChar(n % 10)];
    assert r[..1] == [DigitChar(n / 10)];
    assert DigitsToNat(r[..1]) == n / 10 by { assert r[..1][..0] == []; }
    assert DigitsToNat(r) == (n / 10) * 10 + n % 10;
    r
  }

  /** Three digits of a value below 1000, zero padded. */
  function ThreeDigits(n: nat): (r: string)
    requires n < 1000
    ensures |r| == 3 && AllDigits(r) && DigitsToNat(r) == n
  {
    var r := [DigitChar(n / 100), DigitChar(n / 10 % 10), DigitChar(n % 10)];
    assert r[..2][..1] == [DigitChar(n / 100)];
    assert r[..2] == [DigitChar(n / 100), DigitChar(n / 10 % 10)];
    assert DigitsToNat(r[..2][..1]) == n / 100 by { assert r[..2][..1][..0] == []; }
    TensAndUnits(n);
    assert DigitsToNat(r[..2]) == n / 10;
    assert DigitsToNat(r) == (n / 10) * 10 + n % 10;
    r
  }

  /** Splitting off the last decimal digit, once and twice. */
  lemma TensAndUnits(n: nat)
    ensures (n / 100) * 10 + n / 10 % 10 == n / 10
    ensures (n / 10) * 10 + n % 10 == n
  {
    var m := n / 10;
    assert n == 10 * m + n % 10;
    assert n / 100 == m / 10;
    assert m == 10 * (m / 10) + m % 10;
  }

  /** The integer part in pt-BR grouping: `.` between groups of three digits. */
  function Grouped(n: nat): string
    decreases n
  {
    if n < 1000 then NatToString(n) else Grouped(n / 1000) + "." + ThreeDigits(n % 1000)
  }

  /** `(cents / 100).toLocaleString('pt-BR', {style: 'currency', currency: 'BRL'})`. */
  function BrlText(cents: nat): string {
    CurrencyPrefix + Grouped(cents / 100) + "," + TwoDigits(cents % 100)
  }

  /** `maskCurrency`: the empty string without digits, otherwise the digits
      read as an amount in cents and rendered in the pt-BR format. */
  function MaskCurrency(value: string): (r: string)
    ensures r == [] <==> OnlyDigits(value) == []
  {
    var clean := OnlyDigits(value);
    if clean == [] then [] else BrlText(DigitsToNat(clean))
  }

  lemma {:induction false} RemoveNoiseOfDigits(d: string)
    requires AllDigits(d)
    ensures RemoveCurrencyNoise(d) == d
  {
    if d != [] {
      RemoveNoiseOfDigits(d[1..]);
      assert d == [d[0]] + d[1..];
    }
  }

  /** Removing the grouping dots leaves the plain numeral of `n`. */
  lemma {:induction false} UngroupedValue(n: nat)
    ensures var u := RemoveCurrencyNoise(Grouped(n));
      AllDigits(u) && u != [] && DigitsToNat(u) == n
    decreases n
  {
    if n < 1000 {
      RemoveNoiseOfDigits(NatToString(n));
      DigitsToNatOfNatToString(n);
    } else {
      var g, t := Grouped(n / 1000), ThreeDigits(n % 1000);
      UngroupedValue(n / 1000);
      var u := RemoveCurrencyNoise(g);
      RemoveNoiseConcat(g + ".", t);
      RemoveNoiseConcat(g, ".");
      RemoveNoiseOfDigits(t);
      assert RemoveCurrencyNoise(".") == [];
      assert RemoveCurrencyNoise(Grouped(n)) == u + t;
      DigitsToNatConcat(u, t);
      assert Pow10(3) == 1000;
    }
  }

  /** What `parseCurrency` hands to `parseFloat` for a rendered amount. */
  lemma CleanBrl(cents: nat)
    ensures var u := RemoveCurrencyNoise(Grouped(cents / 100));
      CleanCurrency(BrlText(cents)) == u + "." + TwoDigits(cents % 100)
  {
    var g, t := Grouped(cents / 100), TwoDigits(cents % 100);
    var u := RemoveCurrencyNoise(g);
    UngroupedValue(cents / 100);
    RemoveNoiseConcat(CurrencyPrefix + g + ",", t);
    RemoveNoiseConcat(CurrencyPrefix + g, ",");
    RemoveNoiseConcat(CurrencyPrefix, g);
    assert RemoveCurrencyNoise(CurrencyPrefix) == [];
    assert RemoveCurrencyNoise(",") == ",";
    RemoveNoiseOfDigits(t);
    assert RemoveCurrencyNoise(BrlText(cents)) == u + [','] + t;
    ReplaceFirstSplit(u, ',', t, '.');
  }

  /** `parseCurrency` reads a rendered amount back as the value the mask
      was given, in reais. */
  lemma ParseBrl(cents: nat)
    ensures ParseCurrency(BrlText(cents)) == cents as real / 100.0
  {
    var u := RemoveCurrencyNoise(Grouped(cents / 100));
    var t := TwoDigits(cents % 100);
    UngroupedValue(cents / 100);
    CleanBrl(cents);
    ParseCurrencyOfNumeral(BrlText(cents), u, t);
    DecimalOfCents(u, t, cents / 100, cents % 100);
    CentsAsReais(cents);
  }

  /** A numeral with a two-digit fraction, read as reais and centavos. */
  lemma DecimalOfCents(u: string, t: string, q: nat, r: nat)
    requires AllDigits(u) && AllDigits(t) && |t| == 2
    requires DigitsToNat(u) == q && DigitsToNat(t) == r
    ensures DecimalValue(u, t) == q as real + r as real / 100.0
  {
    assert Pow10(2) == 100;
  }

  /** Reais and centavos read back as one amount. */
  lemma CentsAsReais(cents: nat)
    ensures (cents / 100) as real + (cents % 100) as real / 100.0 == cents as real / 100.0
  {
    var q, r := cents / 100, cents % 100;
    assert cents == 100 * q + r;
    assert cents as real == 100.0 * q as real + r as real;
  }

  /** Round trip of the amount field: parsing the masked text gives the
      typed digits as cents, and it validates exactly when that is not zero. */
  lemma MaskCurrencyRoundTrip(x: string)
    ensures OnlyDigits(x) != [] ==>
      ParseCurrency(MaskCurrency(x)) == DigitsToNat(OnlyDigits(x)) as real / 100.0
    ensures ValidateCurrency(MaskCurrency(x)) <==> OnlyDigits(x) != [] && DigitsToNat(OnlyDigits(x)) > 0
  {
    if OnlyDigits(x) != [] {
      ParseBrl(DigitsToNat(OnlyDigits(x)));
    } else {
      NoDigitsParsesToZero([]);
    }
  }
}
