/** Field validators of the onboarding wizard (src/utils/validation.ts):
    the Receita Federal check-digit rules for CPF (person) and CNPJ
    (organization) tax IDs, the structural email check, the phone digit
    count, the lenient URL/handle check and the currency parser. */
module Validation {
  import opened Text
  import opened Wrappers

  // ---------------------------------------------------------------------
  // CPF and CNPJ check digits
  // ---------------------------------------------------------------------

  /** `/^(\d)\1+$/.test(clean)`: two or more copies of one digit. */
  predicate RepeatedDigit(s: string) {
    |s| >= 2 && AllDigits(s) && forall i | 0 <= i < |s| :: s[i] == s[0]
  }

  /** Sum of `parseInt(d[i]) * w[i]` over the first `n` positions. */
  function WeightedSum(d: string, w: seq<int>, n: nat): int
    requires n <= |d| && n <= |w| && AllDigits(d)
  {
    if n == 0 then 0 else WeightedSum(d, w, n - 1) + DigitValue(d[n - 1]) * w[n - 1]
  }

  /** CPF weights of the first pass, `10 - i` for i in 0..8. */
  const CpfWeights1: seq<int> := [10, 9, 8, 7, 6, 5, 4, 3, 2]
  /** CPF weights of the second pass, `11 - i` for i in 0..9. */
  const CpfWeights2: seq<int> := [11, 10, 9, 8, 7, 6, 5, 4, 3, 2]
  /** CNPJ weights of the first pass. */
  const CnpjWeights1: seq<int> := [5, 4, 3, 2, 9, 8, 7, 6, 5, 4, 3, 2]
  /** CNPJ weights of the second pass. */
  const CnpjWeights2: seq<int> := [6, 5, 4, 3, 2, 9, 8, 7, 6, 5, 4, 3, 2]

  /** The CPF check digit of a weighted sum: `(sum * 10) % 11`, with 10 read as 0. */
  function CpfCheckDigit(sum: int): (digit: int)
    ensures 0 <= digit <= 9
  {
    var digit := (sum * 10) % 11;
    if digit == 10 then 0 else digit
  }

  /** The CNPJ check digit of a weighted sum: 0 when `sum % 11 < 2`, otherwise `11 - sum % 11`. */
  function CnpjCheckDigit(sum: int): (digit: int)
    ensures 0 <= digit <= 9
  {
    var r := sum % 11;
    if r < 2 then 0 else 11 - r
  }

  /** Both CPF check digits of an 11-digit string agree with its first 9 and 10 digits. */
  predicate CpfCheckDigitsMatch(clean: string)
    requires |clean| == 11 && AllDigits(clean)
  {
    && CpfCheckDigit(WeightedSum(clean, CpfWeights1, 9)) == DigitValue(clean[9])
    && CpfCheckDigit(WeightedSum(clean, CpfWeights2, 10)) == DigitValue(clean[10])
  }

  /** Both CNPJ check digits of a 14-digit string agree with its first 12 and 13 digits. */
  predicate CnpjCheckDigitsMatch(clean: string)
    requires |clean| == 14 && AllDigits(clean)
  {
    && CnpjCheckDigit(WeightedSum(clean, CnpjWeights1, 12)) == DigitValue(clean[12])
    && CnpjCheckDigit(WeightedSum(clean, CnpjWeights2, 13)) == DigitValue(clean[13])
  }

  /** What `validateCPF` accepts: 11 digits once formatting is removed, not
      all the same digit, and both check digits right. */
  predicate IsValidCPF(cpf: string) {
    var clean := OnlyDigits(cpf);
    |clean| == 11 && !RepeatedDigit(clean) && CpfCheckDigitsMatch(clean)
  }

  /** What `validateCNPJ` accepts: 14 digits once formatting is removed, not
      all the same digit, and both check digits right. */
  predicate IsValidCNPJ(cnpj: string) {
    var clean := OnlyDigits(cnpj);
    |clean| == 14 && !RepeatedDigit(clean) && CnpjCheckDigitsMatch(clean)
  }

  /** `validateCPF`: two accumulation loops with an early `return false`
      after each check digit. */
  method ValidateCPF(cpf: string) returns (ok: bool)
    ensures ok == IsValidCPF(cpf)
    ensures ok ==> |OnlyDigits(cpf)| == 11
  {
    var clean := OnlyDigits(cpf);
    if |clean| != 11 { return false; }
    if RepeatedDigit(clean) { return false; }

    var sum := 0;
    for i := 0 to 9
      invariant sum == WeightedSum(clean, CpfWeights1, i)
    {
      sum := sum + DigitValue(clean[i]) * (10 - i);
    }
    var digit := (sum * 10) % 11;
    if digit == 10 { digit := 0; }
    if digit != DigitValue(clean[9]) { return false; }

    sum := 0;
    for i := 0 to 10
      invariant sum == WeightedSum(clean, CpfWeights2, i)
    {
      sum := sum + DigitValue(clean[i]) * (11 - i);
    }
    digit := (sum * 10) % 11;
    if digit == 10 { digit := 0; }
    if digit != DigitValue(clean[10]) { return false; }

    return true;
  }

  /** `validateCNPJ`: the same shape with the two weight tables. */
  method ValidateCNPJ(cnpj: string) returns (ok: bool)
    ensures ok == IsValidCNPJ(cnpj)
    ensures ok ==> |OnlyDigits(cnpj)| == 14
  {
    var clean := OnlyDigits(cnpj);
    if |clean| != 14 { return false; }
    if RepeatedDigit(clean) { return false; }

    var weights1 := CnpjWeights1;
    var weights2 := CnpjWeights2;

    var sum := 0;
    for i := 0 to 12
      invariant sum == WeightedSum(clean, weights1, i)
    {
      sum := sum + DigitValue(clean[i]) * weights1[i];
    }
    var digit := sum % 11;
    digit := if digit < 2 then 0 else 11 - digit;
    if digit != DigitValue(clean[12]) { return false; }

    sum := 0;
    for i := 0 to 13
      invariant sum == WeightedSum(clean, weights2, i)
    {
      sum := sum + DigitValue(clean[i]) * weights2[i];
    }
    digit := sum % 11;
    digit := if digit < 2 then 0 else 11 - digit;
    if digit != DigitValue(clean[13]) { return false; }

    return true;
  }

  /** Only the digit subsequence matters: removing or adding punctuation
      never changes either verdict. */
  lemma TaxIdIgnoresFormatting(x: string, y: string)
    requires OnlyDigits(x) == OnlyDigits(y)
    ensures IsValidCPF(x) == IsValidCPF(y)
    ensures IsValidCNPJ(x) == IsValidCNPJ(y)
  {
  }

  /** A repeated digit is rejected whatever its check digits say. */
  lemma RepeatedDigitsRejected(s: string)
    requires RepeatedDigit(OnlyDigits(s))
    ensures !IsValidCPF(s) && !IsValidCNPJ(s)
  {
  }

  /** The repetition guard is not redundant: "11111111111" has correct
      check digits and is rejected only because its digits repeat. */
  lemma RepetitionGuardNeeded()
    ensures CpfCheckDigitsMatch("11111111111")
    ensures !IsValidCPF("11111111111")
  {
    var d := "11111111111";
    assert forall i | 0 <= i < |d| :: d[i] == '1';
    OnesGuard(d);
  }

  /** Eleven ones: both check digits are 1, as the digits are. */
  lemma OnesGuard(d: string)
    requires |d| == 11 && forall i | 0 <= i < |d| :: d[i] == '1'
    ensures AllDigits(d) && CpfCheckDigitsMatch(d) && !IsValidCPF(d)
  {
    OnesSums(d);
    assert CpfCheckDigit(54) == 1 && CpfCheckDigit(65) == 1;
    OnlyDigitsOfDigits(d);
    assert RepeatedDigit(d);
  }

  /** Eleven ones weigh 54 in the first CPF pass and 65 in the second. */
  lemma OnesSums(d: string)
    requires |d| == 11 && forall i | 0 <= i < |d| :: d[i] == '1'
    ensures AllDigits(d)
    ensures WeightedSum(d, CpfWeights1, 9) == 54 && WeightedSum(d, CpfWeights2, 10) == 65
  {
    CpfSumsExpanded(d);
  }

  /** The first CPF sum is `Σ_{i<9} c[i]·(10−i)` and the second is
      `Σ_{i<10} c[i]·(11−i)`, written out term by term. */
  lemma CpfSumsExpanded(d: string)
    requires |d| == 11 && AllDigits(d)
    ensures WeightedSum(d, CpfWeights1, 9) ==
      10 * DigitValue(d[0]) + 9 * DigitValue(d[1]) + 8 * DigitValue(d[2]) + 7 * DigitValue(d[3]) + 6 * DigitValue(d[4]) + 5 * DigitValue(d[5]) + 4 * DigitValue(d[6]) + 3 * DigitValue(d[7]) + 2 * DigitValue(d[8])
    ensures WeightedSum(d, CpfWeights2, 10) ==
      11 * DigitValue(d[0]) + 10 * DigitValue(d[1]) + 9 * DigitValue(d[2]) + 8 * DigitValue(d[3]) + 7 * DigitValue(d[4]) + 6 * DigitValue(d[5]) + 5 * DigitValue(d[6]) + 4 * DigitValue(d[7]) + 3 * DigitValue(d[8]) + 2 * DigitValue(d[9])
  {
    CpfSum1Part1(d);
    CpfSum1Part2(d);
    CpfSum2Part1(d);
    CpfSum2Part2(d);
  }

  lemma CpfSum1Part1(d: string)
    requires |d| == 11 && AllDigits(d)
    ensures WeightedSum(d, CpfWeights1, 5) == 10 * DigitValue(d[0]) + 9 * DigitValue(d[1]) + 8 * DigitValue(d[2]) + 7 * DigitValue(d[3]) + 6 * DigitValue(d[4])
  {
    var w := CpfWeights1;
    assert WeightedSum(d, w, 1) == DigitValue(d[0]) * 10;
    assert WeightedSum(d, w, 2) == WeightedSum(d, w, 1) + DigitValue(d[1]) * 9;
    assert WeightedSum(d, w, 3) == WeightedSum(d, w, 2) + DigitValue(d[2]) * 8;
    assert WeightedSum(d, w, 4) == WeightedSum(d, w, 3) + DigitValue(d[3]) * 7;
    assert WeightedSum(d, w, 5) == WeightedSum(d, w, 4) + DigitValue(d[4]) * 6;
  }

  lemma CpfSum1Part2(d: string)
    requires |d| == 11 && AllDigits(d)
    ensures WeightedSum(d, CpfWeights1, 9) == WeightedSum(d, CpfWeights1, 5) + 5 * DigitValue(d[5]) + 4 * DigitValue(d[6]) + 3 * DigitValue(d[7]) + 2 * DigitValue(d[8])
  {
    var w := CpfWeights1;
    assert WeightedSum(d, w, 6) == WeightedSum(d, w, 5) + DigitValue(d[5]) * 5;
    assert WeightedSum(d, w, 7) == WeightedSum(d, w, 6) + DigitValue(d[6]) * 4;
    assert WeightedSum(d, w, 8) == WeightedSum(d, w, 7) + DigitValue(d[7]) * 3;
    assert WeightedSum(d, w, 9) == WeightedSum(d, w, 8) + DigitValue(d[8]) * 2;
  }

  lemma CpfSum2Part1(d: string)
    requires |d| == 11 && AllDigits(d)
    ensures WeightedSum(d, CpfWeights2, 5) == 11 * DigitValue(d[0]) + 10 * DigitValue(d[1]) + 9 * DigitValue(d[2]) + 8 * DigitValue(d[3]) + 7 * DigitValue(d[4])
  {
    var w := CpfWeights2;
    assert WeightedSum(d, w, 1) == DigitValue(d[0]) * 11;
    assert WeightedSum(d, w, 2) == WeightedSum(d, w, 1) + DigitValue(d[1]) * 10;
    assert WeightedSum(d, w, 3) == WeightedSum(d, w, 2) + DigitValue(d[2]) * 9;
    assert WeightedSum(d, w, 4) == WeightedSum(d, w, 3) + DigitValue(d[3]) * 8;
    assert WeightedSum(d, w, 5) == WeightedSum(d, w, 4) + DigitValue(d[4]) * 7;
  }

  lemma CpfSum2Part2(d: string)
    requires |d| == 11 && AllDigits(d)
    ensures WeightedSum(d, CpfWeights2, 10) == WeightedSum(d, CpfWeights2, 5) + 6 * DigitValue(d[5]) + 5 * DigitValue(d[6]) + 4 * DigitValue(d[7]) + 3 * DigitValue(d[8]) + 2 * DigitValue(d[9])
  {
    var w := CpfWeights2;
    assert WeightedSum(d, w, 6) == WeightedSum(d, w, 5) + DigitValue(d[5]) * 6;
    assert WeightedSum(d, w, 7) == WeightedSum(d, w, 6) + DigitValue(d[6]) * 5;
    assert WeightedSum(d, w, 8) == WeightedSum(d, w, 7) + DigitValue(d[7]) * 4;
    assert WeightedSum(d, w, 9) == WeightedSum(d, w, 8) + DigitValue(d[8]) * 3;
    assert WeightedSum(d, w, 10) == WeightedSum(d, w, 9) + DigitValue(d[9]) * 2;
  }

  /** The remainder modulo 11 read off a known quotient. */
  lemma ModEleven(a: int, q: int, r: int)
    requires a == 11 * q + r && 0 <= r < 11
    ensures a % 11 == r
  {
  }

  /** The weighted sums of the CPF 111.444.777-35. */
  lemma CpfExampleSums(d: string)
    requires d == "11144477735" || d == "11144477736"
    ensures AllDigits(d)
    ensures WeightedSum(d, CpfWeights1, 9) == 162
    ensures WeightedSum(d, CpfWeights2, 10) == 204
  {
    assert AllDigits(d);
    CpfSumsExpanded(d);
  }

  /** A digit string of the right length, not all one digit, with both
      check digits right, is accepted; one with a check digit wrong is not. */
  lemma CpfVerdict(d: string, i: nat)
    requires |d| == 11 && AllDigits(d) && i < 11 && d[i] != d[0]
    ensures IsValidCPF(d) <==> CpfCheckDigitsMatch(d)
  {
    OnlyDigitsOfDigits(d);
  }

  lemma CnpjVerdict(d: string, i: nat)
    requires |d| == 14 && AllDigits(d) && i < 14 && d[i] != d[0]
    ensures IsValidCNPJ(d) <==> CnpjCheckDigitsMatch(d)
  {
    OnlyDigitsOfDigits(d);
  }

  lemma CpfExampleDigits(d: string)
    requires d == "11144477735"
    ensures AllDigits(d) && CpfCheckDigitsMatch(d) && d[3] != d[0]
  {
    CpfExampleSums(d);
    ModEleven(1620, 147, 3);
    ModEleven(2040, 185, 5);
    assert DigitValue(d[9]) == 3 && DigitValue(d[10]) == 5;
  }

  lemma WrongCpfExampleDigits(d: string)
    requires d == "11144477736"
    ensures AllDigits(d) && !CpfCheckDigitsMatch(d) && d[3] != d[0]
  {
    CpfExampleSums(d);
    ModEleven(2040, 185, 5);
    assert DigitValue(d[10]) == 6;
  }

  /** A well-formed CPF with correct check digits is accepted. */
  lemma KnownValidCPF()
    ensures IsValidCPF("11144477735")
  {
    var d := "11144477735";
    CpfExampleDigits(d);
    CpfVerdict(d, 3);
  }

  /** The same CPF with its last digit changed is refused. */
  lemma WrongCpfDigitRejected()
    ensures !IsValidCPF("11144477736")
  {
    var d := "11144477736";
    WrongCpfExampleDigits(d);
    CpfVerdict(d, 3);
  }

  /** The first CNPJ sum written out term by term with its weights. */
  lemma CnpjSum1Expanded(d: string)
    requires |d| == 14 && AllDigits(d)
    ensures WeightedSum(d, CnpjWeights1, 12) ==
      5 * DigitValue(d[0]) + 4 * DigitValue(d[1]) + 3 * DigitValue(d[2]) + 2 * DigitValue(d[3]) + 9 * DigitValue(d[4]) + 8 * DigitValue(d[5]) + 7 * DigitValue(d[6]) + 6 * DigitValue(d[7]) + 5 * DigitValue(d[8]) + 4 * DigitValue(d[9]) + 3 * DigitValue(d[10]) + 2 * DigitValue(d[11])
  {
    CnpjSum1Part1(d);
    CnpjSum1Part2(d);
    CnpjSum1Part3(d);
  }

  lemma CnpjSum1Part1(d: string)
    requires |d| == 14 && AllDigits(d)
    ensures WeightedSum(d, CnpjWeights1, 5) == 5 * DigitValue(d[0]) + 4 * DigitValue(d[1]) + 3 * DigitValue(d[2]) + 2 * DigitValue(d[3]) + 9 * DigitValue(d[4])
  {
    var w := CnpjWeights1;
    assert WeightedSum(d, w, 1) == DigitValue(d[0]) * 5;
    assert WeightedSum(d, w, 2) == WeightedSum(d, w, 1) + DigitValue(d[1]) * 4;
    assert WeightedSum(d, w, 3) == WeightedSum(d, w, 2) + DigitValue(d[2]) * 3;
    assert WeightedSum(d, w, 4) == WeightedSum(d, w, 3) + DigitValue(d[3]) * 2;
    assert WeightedSum(d, w, 5) == WeightedSum(d, w, 4) + DigitValue(d[4]) * 9;
  }

  lemma CnpjSum1Part2(d: string)
    requires |d| == 14 && AllDigits(d)
    ensures WeightedSum(d, CnpjWeights1, 10) == WeightedSum(d, CnpjWeights1, 5) + 8 * DigitValue(d[5]) + 7 * DigitValue(d[6]) + 6 * DigitValue(d[7]) + 5 * DigitValue(d[8]) + 4 * DigitValue(d[9])
  {
    var w := CnpjWeights1;
    assert WeightedSum(d, w, 6) == WeightedSum(d, w, 5) + DigitValue(d[5]) * 8;
    assert WeightedSum(d, w, 7) == WeightedSum(d, w, 6) + DigitValue(d[6]) * 7;
    assert WeightedSum(d, w, 8) == WeightedSum(d, w, 7) + DigitValue(d[7]) * 6;
    assert WeightedSum(d, w, 9) == WeightedSum(d, w, 8) + DigitValue(d[8]) * 5;
    assert WeightedSum(d, w, 10) == WeightedSum(d, w, 9) + DigitValue(d[9]) * 4;
  }

  lemma CnpjSum1Part3(d: string)
    requires |d| == 14 && AllDigits(d)
    ensures WeightedSum(d, CnpjWeights1, 12) == WeightedSum(d, CnpjWeights1, 10) + 3 * DigitValue(d[10]) + 2 * DigitValue(d[11])
  {
    var w := CnpjWeights1;
    assert WeightedSum(d, w, 11) == WeightedSum(d, w, 10) + DigitValue(d[10]) * 3;
    assert WeightedSum(d, w, 12) == WeightedSum(d, w, 11) + DigitValue(d[11]) * 2;
  }

  /** The second CNPJ sum written out term by term with its weights. */
  lemma CnpjSum2Expanded(d: string)
    requires |d| == 14 && AllDigits(d)
    ensures WeightedSum(d, CnpjWeights2, 13) ==
      6 * DigitValue(d[0]) + 5 * DigitValue(d[1]) + 4 * DigitValue(d[2]) + 3 * DigitValue(d[3]) + 2 * DigitValue(d[4]) + 9 * DigitValue(d[5]) + 8 * DigitValue(d[6]) + 7 * DigitValue(d[7]) + 6 * DigitValue(d[8]) + 5 * DigitValue(d[9]) + 4 * DigitValue(d[10]) + 3 * DigitValue(d[11]) + 2 * DigitValue(d[12])
  {
    CnpjSum2Part1(d);
    CnpjSum2Part2(d);
    CnpjSum2Part3(d);
  }

  lemma CnpjSum2Part1(d: string)
    requires |d| == 14 && AllDigits(d)
    ensures WeightedSum(d, CnpjWeights2, 5) == 6 * DigitValue(d[0]) + 5 * DigitValue(d[1]) + 4 * DigitValue(d[2]) + 3 * DigitValue(d[3]) + 2 * DigitValue(d[4])
  {
    var w := CnpjWeights2;
    assert WeightedSum(d, w, 1) == DigitValue(d[0]) * 6;
    assert WeightedSum(d, w, 2) == WeightedSum(d, w, 1) + DigitValue(d[1]) * 5;
    assert WeightedSum(d, w, 3) == WeightedSum(d, w, 2) + DigitValue(d[2]) * 4;
    assert WeightedSum(d, w, 4) == WeightedSum(d, w, 3) + DigitValue(d[3]) * 3;
    assert WeightedSum(d, w, 5) == WeightedSum(d, w, 4) + DigitValue(d[4]) * 2;
  }

  lemma CnpjSum2Part2(d: string)
    requires |d| == 14 && AllDigits(d)
    ensures WeightedSum(d, CnpjWeights2, 10) == WeightedSum(d, CnpjWeights2, 5) + 9 * DigitValue(d[5]) + 8 * DigitValue(d[6]) + 7 * DigitValue(d[7]) + 6 * DigitValue(d[8]) + 5 * DigitValue(d[9])
  {
    var w := CnpjWeights2;
    assert WeightedSum(d, w, 6) == WeightedSum(d, w, 5) + DigitValue(d[5]) * 9;
    assert WeightedSum(d, w, 7) == WeightedSum(d, w, 6) + DigitValue(d[6]) * 8;
    assert WeightedSum(d, w, 8) == WeightedSum(d, w, 7) + DigitValue(d[7]) * 7;
    assert WeightedSum(d, w, 9) == WeightedSum(d, w, 8) + DigitValue(d[8]) * 6;
    assert WeightedSum(d, w, 10) == WeightedSum(d, w, 9) + DigitValue(d[9]) * 5;
  }

  lemma CnpjSum2Part3(d: string)
    requires |d| == 14 && AllDigits(d)
    ensures WeightedSum(d, CnpjWeights2, 13) == WeightedSum(d, CnpjWeights2, 10) + 4 * DigitValue(d[10]) + 3 * DigitValue(d[11]) + 2 * DigitValue(d[12])
  {
    var w := CnpjWeights2;
    assert WeightedSum(d, w, 11) == WeightedSum(d, w, 10) + DigitValue(d[10]) * 4;
    assert WeightedSum(d, w, 12) == WeightedSum(d, w, 11) + DigitValue(d[11]) * 3;
    assert WeightedSum(d, w, 13) == WeightedSum(d, w, 12) + DigitValue(d[12]) * 2;
  }

  /** The weighted sums of the CNPJ 11.222.333/0001-81. */
  lemma CnpjExampleSums(d: string)
    requires d == "11222333000181" || d == "11222333000182"
    ensures AllDigits(d)
    ensures WeightedSum(d, CnpjWeights1, 12) == 102
    ensures WeightedSum(d, CnpjWeights2, 13) == 120
  {
    assert AllDigits(d);
    CnpjSum1Expanded(d);
    CnpjSum2Expanded(d);
  }

  lemma CnpjExampleDigits(d: string)
    requires d == "11222333000181"
    ensures AllDigits(d) && CnpjCheckDigitsMatch(d) && d[2] != d[0]
  {
    CnpjExampleSums(d);
    ModEleven(102, 9, 3);
    ModEleven(120, 10, 10);
    assert DigitValue(d[12]) == 8 && DigitValue(d[13]) == 1;
  }

  lemma WrongCnpjExampleDigits(d: string)
    requires d == "11222333000182"
    ensures AllDigits(d) && !CnpjCheckDigitsMatch(d) && d[2] != d[0]
  {
    CnpjExampleSums(d);
    ModEleven(120, 10, 10);
    assert DigitValue(d[13]) == 2;
  }

  /** A well-formed CNPJ with correct check digits is accepted. */
  lemma KnownValidCNPJ()
    ensures IsValidCNPJ("11222333000181")
  {
    var d := "11222333000181";
    CnpjExampleDigits(d);
    CnpjVerdict(d, 2);
  }

  /** The same CNPJ with its last digit changed is refused. */
  lemma WrongCnpjDigitRejected()
    ensures !IsValidCNPJ("11222333000182")
  {
    var d := "11222333000182";
    WrongCnpjExampleDigits(d);
    CnpjVerdict(d, 2);
  }

  // ---------------------------------------------------------------------
  // Email, phone, URL
  // ---------------------------------------------------------------------

  /** `[^\s@]`. */
  predicate EmailChar(c: char) {
    !IsSpace(c) && c != '@'
  }

  /** One way of matching `^[^\s@]+@[^\s@]+\.[^\s@]+$`: the `@` at `at`,
      the literal `.` at `dot`, every other character a `[^\s@]`, and
      each of the three runs non-empty. */
  predicate EmailSplit(s: string, at: int, dot: int) {
    && 0 < at && at + 1 < dot && dot + 1 < |s|
    && s[at] == '@' && s[dot] == '.'
    && forall k | 0 <= k < |s| && k != at :: EmailChar(s[k])
  }

  /** `validateEmail`: the regular expression matches the whole string. */
  predicate ValidateEmail(email: string) {
    exists at, dot | 0 <= at < dot < |email| :: EmailSplit(email, at, dot)
  }

  function Count(s: string, c: char): (n: nat)
    ensures n <= |s|
  {
    if s == [] then 0 else (if s[0] == c then 1 else 0) + Count(s[1..], c)
  }

  /** The structural reading of the email check: no whitespace, exactly
      one `@`, a non-empty local part, and a domain with a `.` that is
      neither its first nor its last character. */
  predicate EmailStructure(s: string) {
    && (forall k | 0 <= k < |s| :: !IsSpace(s[k]))
    && Count(s, '@') == 1
    && exists at | 0 < at < |s| ::
         && s[at] == '@'
         && InnerDot(s[at + 1..])
  }

  /** The domain has a `.` that is neither its first nor its last character. */
  predicate InnerDot(d: string) {
    exists m | 0 < m < |d| - 1 :: d[m] == '.'
  }

  lemma {:induction false} CountZero(s: string, c: char)
    requires forall k | 0 <= k < |s| :: s[k] != c
    ensures Count(s, c) == 0
  {
    if s != [] { CountZero(s[1..], c); }
  }

  /** A character that occurs exactly once occurs at one position only. */
  lemma {:induction false} CountOneUnique(s: string, c: char, i: int, j: int)
    requires Count(s, c) == 1
    requires 0 <= i < |s| && 0 <= j < |s| && s[i] == c && s[j] == c
    ensures i == j
  {
    if i != 0 && j != 0 {
      assert s[0] != c by {
        if s[0] == c { CountAtLeastOne(s[1..], c, i - 1); }
      }
      CountOneUnique(s[1..], c, i - 1, j - 1);
    } else if i == 0 && j != 0 {
      CountAtLeastOne(s[1..], c, j - 1);
    } else if j == 0 && i != 0 {
      CountAtLeastOne(s[1..], c, i - 1);
    }
  }

  lemma {:induction false} CountAtLeastOne(s: string, c: char, i: int)
    requires 0 <= i < |s| && s[i] == c
    ensures Count(s, c) >= 1
  {
    if i > 0 { CountAtLeastOne(s[1..], c, i - 1); }
  }

  lemma {:induction false} CountOnlyAt(s: string, c: char, at: int)
    requires 0 <= at < |s| && s[at] == c
    requires forall k | 0 <= k < |s| && k != at :: s[k] != c
    ensures Count(s, c) == 1
  {
    if at == 0 {
      CountZero(s[1..], c);
    } else {
      CountOnlyAt(s[1..], c, at - 1);
    }
  }

  /** The regular expression accepts exactly the strings of that structure. */
  lemma EmailRegexMeaning(s: string)
    ensures ValidateEmail(s) <==> EmailStructure(s)
  {
    if ValidateEmail(s) {
      var at, dot :| 0 <= at < dot < |s| && EmailSplit(s, at, dot);
      CountOnlyAt(s, '@', at);
      assert s[at + 1..][dot - at - 1] == '.';
    }
    if EmailStructure(s) {
      var at :| 0 < at < |s| && s[at] == '@' && InnerDot(s[at + 1..]);
      var m :| 0 < m < |s[at + 1..]| - 1 && s[at + 1..][m] == '.';
      forall k | 0 <= k < |s| && k != at ensures EmailChar(s[k]) {
        if s[k] == '@' { CountOneUnique(s, '@', k, at); }
      }
      assert EmailSplit(s, at, at + 1 + m);
    }
  }

  /** `validatePhone`: 10 or 11 digits once formatting is removed. */
  predicate ValidatePhone(phone: string) {
    var clean := OnlyDigits(phone);
    |clean| == 10 || |clean| == 11
  }

  /** `validateUrl`: the empty string and any `@handle` are accepted; every
      other string is decided by the host/path regular expression, which
      this model takes as the parameter `pattern`. */
  function ValidateUrl(url: string, pattern: string -> bool): (ok: bool)
    ensures url == [] ==> ok
    ensures |url| > 0 && url[0] == '@' ==> ok
    ensures url != [] && url[0] != '@' ==> ok == pattern(url)
  {
    if url == [] then true
    else if url[0] == '@' then true
    else pattern(url)
  }

  // ---------------------------------------------------------------------
  // Currency
  // ---------------------------------------------------------------------

  /** `[R$\s.]`: a character the currency cleaner deletes. */
  predicate CurrencyNoise(c: char) {
    c == 'R' || c == '$' || IsSpace(c) || c == '.'
  }

  /** `value.replace(/[R$\s.]/g, '')`. */
  function RemoveCurrencyNoise(s: string): (r: string)
    ensures |r| <= |s|
    ensures forall i | 0 <= i < |r| :: !CurrencyNoise(r[i])
  {
    if s == [] then []
    else (if CurrencyNoise(s[0]) then [] else [s[0]]) + RemoveCurrencyNoise(s[1..])
  }

  /** `s.replace(from, to)` with a one-character string pattern: only the
      first occurrence is replaced. */
  function ReplaceFirst(s: string, from: char, to: char): (r: string)
    ensures |r| == |s|
  {
    if s == [] then []
    else if s[0] == from then [to] + s[1..]
    else [s[0]] + ReplaceFirst(s[1..], from, to)
  }

  /** The string `parseCurrency` hands to `parseFloat`. */
  function CleanCurrency(value: string): string {
    ReplaceFirst(RemoveCurrencyNoise(value), ',', '.')
  }

  /** The longest prefix of digits. */
  function LeadingDigits(s: string): (r: string)
    ensures AllDigits(r) && |r| <= |s| && r == s[..|r|]
    ensures |r| < |s| ==> !IsDigit(s[|r|])
  {
    if s != [] && IsDigit(s[0]) then [s[0]] + LeadingDigits(s[1..]) else []
  }

  /** The value of a numeral with a decimal point: `ip.fp`. */
  function DecimalValue(ip: string, fp: string): (v: real)
    requires AllDigits(ip) && AllDigits(fp)
    ensures v >= 0.0
  {
    DigitsToNat(ip) as real + DigitsToNat(fp) as real / Pow10(|fp|) as real
  }

  /** `parseFloat` on a string without leading whitespace: the longest
      prefix of the form `[+-] digits [. digits]` or `[+-] . digits`,
      or None (NaN) when there is no digit. */
  function ParseFloatPrefix(s: string): (r: Option<real>)
  {
    var neg := s != [] && s[0] == '-';
    var body := if s != [] && (s[0] == '-' || s[0] == '+') then s[1..] else s;
    var ip := LeadingDigits(body);
    var rest := body[|ip|..];
    var fp := if rest != [] && rest[0] == '.' then LeadingDigits(rest[1..]) else [];
    if ip == [] && fp == [] then None
    else
      var v := DecimalValue(ip, fp);
      Some(if neg then -v else v)
  }

  /** `parseCurrency`: `parseFloat(clean) || 0`, so NaN becomes 0. */
  function ParseCurrency(value: string): real {
    match ParseFloatPrefix(CleanCurrency(value))
    case None => 0.0
    case Some(v) => v
  }

  /** `validateCurrency`. */
  predicate ValidateCurrency(value: string) {
    ParseCurrency(value) > 0.0
  }

  /** Parsing a cleaned numeral `ip.fp` gives exactly its decimal value. */
  lemma ParseDecimalNumeral(ip: string, fp: string)
    requires AllDigits(ip) && AllDigits(fp) && ip != []
    ensures ParseFloatPrefix(ip + "." + fp) == Some(DecimalValue(ip, fp))
  {
    NumeralParts(ip, fp);
  }

  /** How `parseFloat` splits `ip.fp`: no sign, the integer digits, the
      point, the fraction digits. */
  lemma NumeralParts(ip: string, fp: string)
    requires AllDigits(ip) && AllDigits(fp) && ip != []
    ensures var s := ip + "." + fp;
      && IsDigit(s[0]) && LeadingDigits(s) == ip
      && s[|ip|..] == "." + fp && LeadingDigits(s[|ip|..][1..]) == fp
  {
    var s := ip + "." + fp;
    assert s == ip + ("." + fp);
    assert s[0] == ip[0];
    LeadingDigitsOfNumeral(ip, "." + fp);
    assert s[|ip|..] == "." + fp;
    assert ("." + fp)[1..] == fp;
    LeadingDigitsAll(fp);
  }

  lemma {:induction false} LeadingDigitsAll(s: string)
    requires AllDigits(s)
    ensures LeadingDigits(s) == s
  {
    if s != [] { LeadingDigitsAll(s[1..]); assert s == [s[0]] + s[1..]; }
  }

  lemma {:induction false} LeadingDigitsOfNumeral(ip: string, rest: string)
    requires AllDigits(ip)
    requires rest == [] || !IsDigit(rest[0])
    ensures LeadingDigits(ip + rest) == ip
  {
    if ip == [] {
      assert ip + rest == rest;
    } else {
      assert (ip + rest)[1..] == ip[1..] + rest;
      LeadingDigitsOfNumeral(ip[1..], rest);
      assert ip == [ip[0]] + ip[1..];
    }
  }

  /** Without any digit the parser falls back to 0, never NaN. */
  lemma {:induction false} NoDigitsParsesToZero(value: string)
    requires NoDigits(value)
    ensures ParseCurrency(value) == 0.0
    ensures !ValidateCurrency(value)
  {
    var c := CleanCurrency(value);
    NoDigitsClean(value);
    var neg := c != [] && c[0] == '-';
    var body := if c != [] && (c[0] == '-' || c[0] == '+') then c[1..] else c;
    assert body == [] || !IsDigit(body[0]);
    var rest := body[|LeadingDigits(body)|..];
    assert LeadingDigits(body) == [];
    if rest != [] && rest[0] == '.' {
      assert rest[1..] == [] || !IsDigit(rest[1..][0]);
    }
  }

  lemma {:induction false} NoDigitsClean(value: string)
    requires NoDigits(value)
    ensures NoDigits(CleanCurrency(value))
  {
    NoDigitsRemove(value);
    NoDigitsReplace(RemoveCurrencyNoise(value), ',', '.');
  }

  lemma {:induction false} NoDigitsRemove(s: string)
    requires NoDigits(s)
    ensures NoDigits(RemoveCurrencyNoise(s))
  {
    if s != [] { NoDigitsRemove(s[1..]); }
  }

  lemma {:induction false} NoDigitsReplace(s: string, from: char, to: char)
    requires NoDigits(s) && !IsDigit(to)
    ensures NoDigits(ReplaceFirst(s, from, to))
  {
    if s != [] && s[0] != from { NoDigitsReplace(s[1..], from, to); }
  }

  /** `parseCurrency` of a value that cleans to the numeral `ip.fp`. */
  lemma ParseCurrencyOfNumeral(value: string, ip: string, fp: string)
    requires AllDigits(ip) && AllDigits(fp) && ip != []
    requires CleanCurrency(value) == ip + "." + fp
    ensures ParseCurrency(value) == DecimalValue(ip, fp)
  {
    ParseDecimalNumeral(ip, fp);
  }

  lemma {:induction false} RemoveNoiseConcat(a: string, b: string)
    ensures RemoveCurrencyNoise(a + b) == RemoveCurrencyNoise(a) + RemoveCurrencyNoise(b)
  {
    if a == [] {
      assert a + b == b;
    } else {
      assert (a + b)[1..] == a[1..] + b;
      RemoveNoiseConcat(a[1..], b);
    }
  }

  /** `replace` with a one-character pattern rewrites its leftmost occurrence. */
  lemma {:induction false} ReplaceFirstSplit(a: string, from: char, b: string, to: char)
    requires forall k | 0 <= k < |a| :: a[k] != from
    ensures ReplaceFirst(a + [from] + b, from, to) == a + [to] + b
  {
    if a == [] {
      assert a + [from] + b == [from] + b;
      assert ([from] + b)[1..] == b;
    } else {
      assert (a + [from] + b)[1..] == a[1..] + [from] + b;
      ReplaceFirstSplit(a[1..], from, b, to);
      assert a + [to] + b == [a[0]] + (a[1..] + [to] + b);
    }
  }

  /** A fraction of zeros adds nothing to the value. */
  lemma DecimalValueWhole(ip: string, fp: string)
    requires AllDigits(ip) && AllDigits(fp) && DigitsToNat(fp) == 0
    ensures DecimalValue(ip, fp) == DigitsToNat(ip) as real
  {
    var p := Pow10(|fp|) as real;
    assert 0.0 / p == 0.0;
  }

  /** Only the first comma becomes a decimal point: "1,2,3" reads as 1.2. */
  lemma OnlyFirstCommaConverted()
    ensures CleanCurrency("1,2,3") == "1.2,3"
    ensures ParseCurrency("1,2,3") == 1.2
  {
    CleanCommas();
    ParseCommas();
    OneTwoDecimal();
  }

  lemma CleanCommas()
    ensures CleanCurrency("1,2,3") == "1.2,3"
  {
    assert RemoveCurrencyNoise("1,2,3") == "1,2,3";
    assert ReplaceFirst("1,2,3", ',', '.') == "1.2,3";
  }

  lemma ParseCommas()
    ensures ParseFloatPrefix("1.2,3") == Some(DecimalValue("1", "2"))
  {
    var s := "1.2,3";
    assert LeadingDigits(s) == "1";
    assert s[1..] == ".2,3";
    assert LeadingDigits("2,3") == "2";
  }

  lemma OneTwoDecimal()
    ensures DecimalValue("1", "2") == 1.2
  {
    assert DigitsToNat("1") == 1 && DigitsToNat("2") == 2 && Pow10(1) == 10;
  }
}
