/** Brazilian taxpayer documents: the individual number (CPF, 11 digits) and
    the entity number (CNPJ, 14 digits), each ending in two modulo-11 check
    digits. Models `validate_cpf_cnpj` of agro/utils.py together with the
    check-digit rule it delegates to. */
module Documents {

  predicate IsDigit(c: char) {
    '0' <= c <= '9'
  }

  predicate AllDigits(s: string) {
    forall i :: 0 <= i < |s| ==> IsDigit(s[i])
  }

  /** Keeps the digits of `s` from position `i` on, in order, and drops
      every other character. */
  function DigitsFrom(s: string, i: nat): (r: string)
    requires i <= |s|
    decreases |s| - i
  {
    if i == |s| then []
    else if IsDigit(s[i]) then [s[i]] + DigitsFrom(s, i + 1)
    else DigitsFrom(s, i + 1)
  }

  /** What `DigitsFrom` keeps: digits only, never more than it was given. */
  lemma {:induction false} DigitsFromKeepsDigits(s: string, i: nat)
    requires i <= |s|
    ensures AllDigits(DigitsFrom(s, i)) && |DigitsFrom(s, i)| <= |s| - i
    decreases |s| - i
  {
    if i < |s| {
      DigitsFromKeepsDigits(s, i + 1);
    }
  }

  /** The digit characters of `s`, in order (the join/filter of agro/utils.py). */
  function DigitsOnly(s: string): (r: string)
    ensures AllDigits(r)
    ensures |r| <= |s|
  {
    DigitsFromKeepsDigits(s, 0);
    DigitsFrom(s, 0)
  }

  /** A string already made of digits comes back unchanged. */
  lemma {:induction false} DigitsFromOfDigits(s: string, i: nat)
    requires i <= |s| && AllDigits(s)
    ensures DigitsFrom(s, i) == s[i..]
    decreases |s| - i
  {
    if i < |s| {
      DigitsFromOfDigits(s, i + 1);
      assert s[i..] == [s[i]] + s[i + 1..];
    }
  }

  lemma DigitsOnlyOfDigits(s: string)
    requires AllDigits(s)
    ensures DigitsOnly(s) == s
  {
    DigitsFromOfDigits(s, 0);
  }

  /** Normalisation is idempotent. */
  lemma DigitsOnlyIdempotent(s: string)
    ensures DigitsOnly(DigitsOnly(s)) == DigitsOnly(s)
  {
    DigitsOnlyOfDigits(DigitsOnly(s));
  }

  /** Extracting digits distributes over concatenation. */
  lemma {:induction false} DigitsFromAppend(a: string, b: string, i: nat)
    requires i <= |a|
    ensures DigitsFrom(a + b, i) == DigitsFrom(a, i) + DigitsOnly(b)
    decreases |a| - i
  {
    if i < |a| {
      assert (a + b)[i] == a[i];
      DigitsFromAppend(a, b, i + 1);
    } else {
      DigitsFromShift(a, b, 0);
    }
  }

  /** Digits of `a + b` past the end of `a` are the digits of `b`. */
  lemma {:induction false} DigitsFromShift(a: string, b: string, j: nat)
    requires j <= |b|
    ensures DigitsFrom(a + b, |a| + j) == DigitsFrom(b, j)
    decreases |b| - j
  {
    if j < |b| {
      assert (a + b)[|a| + j] == b[j];
      DigitsFromShift(a, b, j + 1);
    }
  }

  lemma DigitsOnlyAppend(a: string, b: string)
    ensures DigitsOnly(a + b) == DigitsOnly(a) + DigitsOnly(b)
  {
    DigitsFromAppend(a, b, 0);
  }

  /** A string without digits contributes nothing. */
  lemma {:induction false} DigitsFromOfNoDigits(p: string, i: nat)
    requires i <= |p|
    requires forall k :: 0 <= k < |p| ==> !IsDigit(p[k])
    ensures DigitsFrom(p, i) == []
    decreases |p| - i
  {
    if i < |p| {
      DigitsFromOfNoDigits(p, i + 1);
    }
  }

  /** The numeric value of a digit character. */
  function DigitValue(c: char): (v: int)
    ensures IsDigit(c) ==> 0 <= v <= 9
  {
    c as int - '0' as int
  }

  lemma DigitValueInjective(c: char, d: char)
    requires DigitValue(c) == DigitValue(d)
    ensures c == d
  {
  }

  /** Sum of digit times weight over positions `i` .. |weights|-1 of `s`;
      the weight table covers a prefix of `s`. */
  function WeightedSum(s: string, weights: seq<int>, i: nat): (r: int)
    requires i <= |weights| <= |s|
    decreases |weights| - i
  {
    if i == |weights| then 0
    else DigitValue(s[i]) * weights[i] + WeightedSum(s, weights, i + 1)
  }

  /** The sum depends only on the positions the weight table covers. */
  lemma {:induction false} WeightedSumPrefix(s: string, t: string, weights: seq<int>, i: nat)
    requires i <= |weights| <= |s| && |weights| <= |t|
    requires forall k :: 0 <= k < |weights| ==> s[k] == t[k]
    ensures WeightedSum(s, weights, i) == WeightedSum(t, weights, i)
    decreases |weights| - i
  {
    if i < |weights| {
      WeightedSumPrefix(s, t, weights, i + 1);
    }
  }

  /** The check digit of a weighted sum: 0 when the remainder modulo 11 is
      below 2, otherwise 11 minus the remainder. Characterised without the
      table: it is a decimal digit that completes the sum to a multiple of
      11, except when that would need the non-digit 10, and then it is 0. */
  function CheckDigit(sum: int): (d: nat)
    ensures d <= 9
    ensures sum % 11 == 1 ==> d == 0
    ensures sum % 11 != 1 ==> (sum + d) % 11 == 0
  {
    var r := sum % 11;
    if r < 2 then 0 else 11 - r
  }

  /** A sum determines its check digit uniquely among the decimal digits. */
  lemma CheckDigitUnique(sum: int, d: nat)
    requires d <= 9
    requires sum % 11 == 1 ==> d == 0
    requires sum % 11 != 1 ==> (sum + d) % 11 == 0
    ensures d == CheckDigit(sum)
  {
    var c := CheckDigit(sum);
    if sum % 11 != 1 {
      assert (sum + d) % 11 == (sum + c) % 11;
      assert ((sum + d) - (sum + c)) % 11 == 0;
    }
  }

  const CpfFirstWeights: seq<int> := [10, 9, 8, 7, 6, 5, 4, 3, 2]
  const CpfSecondWeights: seq<int> := [11, 10, 9, 8, 7, 6, 5, 4, 3, 2]
  const CnpjFirstWeights: seq<int> := [5, 4, 3, 2, 9, 8, 7, 6, 5, 4, 3, 2]
  const CnpjSecondWeights: seq<int> := [6, 5, 4, 3, 2, 9, 8, 7, 6, 5, 4, 3, 2]

  /** Every digit equals the first one ("00000000000", "11111111111", ...). */
  predicate AllSame(s: string) {
    forall i :: 0 <= i < |s| ==> s[i] == s[0]
  }

  /** The two trailing digits of `s` are the check digits of the digits
      before them, computed with the given weight tables. */
  predicate CheckDigitsMatch(s: string, first: seq<int>, second: seq<int>)
    requires |s| >= 2 && |first| == |s| - 2 && |second| == |s| - 1
  {
    var n := |s|;
    && DigitValue(s[n - 2]) == CheckDigit(WeightedSum(s, first, 0))
    && DigitValue(s[n - 1]) == CheckDigit(WeightedSum(s, second, 0))
  }

  /** An individual taxpayer number: 11 digits, check digits right, and not
      a run of one repeated digit. */
  predicate ValidCpf(s: string)
    requires |s| == 11
  {
    CheckDigitsMatch(s, CpfFirstWeights, CpfSecondWeights) && !AllSame(s)
  }

  /** An entity taxpayer number: 14 digits, check digits right, and not a
      run of one repeated digit. */
  predicate ValidCnpj(s: string)
    requires |s| == 14
  {
    CheckDigitsMatch(s, CnpjFirstWeights, CnpjSecondWeights) && !AllSame(s)
  }

  /** The validator: strip non-digits, dispatch on 11 or 14 digits, anything
      else is invalid. Total on strings, never fails. */
  function ValidateCpfCnpj(value: string): (ok: bool)
    ensures ok ==> |DigitsOnly(value)| == 11 || |DigitsOnly(value)| == 14
  {
    var digits := DigitsOnly(value);
    if |digits| == 11 then ValidCpf(digits)
    else if |digits| == 14 then ValidCnpj(digits)
    else false
  }

  /** Only the digits of the input matter. */
  lemma OnlyDigitsMatter(value: string)
    ensures ValidateCpfCnpj(value) == ValidateCpfCnpj(DigitsOnly(value))
  {
    DigitsOnlyIdempotent(value);
  }

  /** Inserting punctuation (any run of non-digits) anywhere changes nothing. */
  lemma PunctuationIrrelevant(a: string, p: string, b: string)
    requires forall i :: 0 <= i < |p| ==> !IsDigit(p[i])
    ensures ValidateCpfCnpj(a + p + b) == ValidateCpfCnpj(a + b)
  {
    DigitsOnlyAppend(a + p, b);
    DigitsOnlyAppend(a, p);
    DigitsOnlyAppend(a, b);
    DigitsFromOfNoDigits(p, 0);
    assert DigitsOnly(a) + [] == DigitsOnly(a);
  }

  /** Any digit count other than 11 or 14 is rejected. */
  lemma WrongLengthInvalid(value: string)
    requires |DigitsOnly(value)| != 11 && |DigitsOnly(value)| != 14
    ensures !ValidateCpfCnpj(value)
  {
  }

  /** An input of 11 digits is accepted iff it is a valid CPF. */
  lemma ElevenDigitsIsCpf(value: string)
    requires |DigitsOnly(value)| == 11
    ensures ValidateCpfCnpj(value) <==> ValidCpf(DigitsOnly(value))
  {
  }

  /** An input of 14 digits is accepted iff it is a valid CNPJ. */
  lemma FourteenDigitsIsCnpj(value: string)
    requires |DigitsOnly(value)| == 14
    ensures ValidateCpfCnpj(value) <==> ValidCnpj(DigitsOnly(value))
  {
  }

  /** The check digits are a function of the body: two valid numbers of the
      same length that agree on everything but the check digits are equal.
      So altering either check digit of a valid number makes it invalid. */
  lemma {:induction false} CheckDigitsDetermined(s: string, t: string, first: seq<int>, second: seq<int>)
    requires |s| == |t| >= 2 && |first| == |s| - 2 && |second| == |s| - 1
    requires forall k :: 0 <= k < |s| - 2 ==> s[k] == t[k]
    requires CheckDigitsMatch(s, first, second) && CheckDigitsMatch(t, first, second)
    ensures s == t
  {
    var n := |s|;
    WeightedSumPrefix(s, t, first, 0);
    DigitValueInjective(s[n - 2], t[n - 2]);
    WeightedSumPrefix(s, t, second, 0);
    DigitValueInjective(s[n - 1], t[n - 1]);
  }

  lemma CpfCheckDigitsDetermined(s: string, t: string)
    requires |s| == |t| == 11
    requires (forall k :: 0 <= k < 9 ==> s[k] == t[k]) && ValidCpf(s) && ValidCpf(t)
    ensures s == t
  {
    CheckDigitsDetermined(s, t, CpfFirstWeights, CpfSecondWeights);
  }

  lemma CnpjCheckDigitsDetermined(s: string, t: string)
    requires |s| == |t| == 14
    requires (forall k :: 0 <= k < 12 ==> s[k] == t[k]) && ValidCnpj(s) && ValidCnpj(t)
    ensures s == t
  {
    CheckDigitsDetermined(s, t, CnpjFirstWeights, CnpjSecondWeights);
  }

  // Concrete inputs. Each fact is its own small lemma so that the
  // verifier evaluates one literal at a time.

  lemma Cpf95181040004Sums()
    ensures WeightedSum("95181040004", CpfFirstWeights, 0) == 221
    ensures WeightedSum("95181040004", CpfSecondWeights, 0) == 249
  {
  }

  lemma Cpf95181040004Bare()
    ensures DigitsOnly("95181040004") == "95181040004"
  {
    assert DigitsFrom("95181040004", 5) == "040004";
    assert DigitsFrom("95181040004", 0) == "95181040004";
  }

  lemma Cpf95181040004Formatted()
    ensures DigitsOnly("951.810.400-04") == "95181040004"
  {
    assert DigitsFrom("951.810.400-04", 7) == "40004";
    assert DigitsFrom("951.810.400-04", 0) == "95181040004";
  }

  /** A valid CPF, bare and with its usual punctuation: sums 221 and 249 give check digits 0 and 4. */
  lemma Cpf95181040004Example()
    ensures ValidateCpfCnpj("95181040004") && ValidateCpfCnpj("951.810.400-04")
  {
    Cpf95181040004Sums(); Cpf95181040004Bare(); Cpf95181040004Formatted();
    assert "95181040004"[1] != "95181040004"[0];
  }

  lemma Cpf12345678901Sums()
    ensures WeightedSum("12345678901", CpfFirstWeights, 0) == 210
    ensures WeightedSum("12345678901", CpfSecondWeights, 0) == 255
  {
  }

  lemma Cpf12345678901Bare()
    ensures DigitsOnly("12345678901") == "12345678901"
  {
    assert DigitsFrom("12345678901", 5) == "678901";
    assert DigitsFrom("12345678901", 0) == "12345678901";
  }

  /** Sums 210 and 255 give check digits 0 and 9, but the input ends in 01. */
  lemma Cpf12345678901Example()
    ensures !ValidateCpfCnpj("12345678901")
  {
    Cpf12345678901Sums(); Cpf12345678901Bare();
  }

  lemma Cpf95181040099Sums()
    ensures WeightedSum("95181040099", CpfFirstWeights, 0) == 221
    ensures WeightedSum("95181040099", CpfSecondWeights, 0) == 267
  {
  }

  lemma Cpf95181040099Formatted()
    ensures DigitsOnly("951.810.400-99") == "95181040099"
  {
    assert DigitsFrom("951.810.400-99", 7) == "40099";
    assert DigitsFrom("951.810.400-99", 0) == "95181040099";
  }

  /** The valid CPF above with its check digits altered to 99. */
  lemma Cpf95181040099Example()
    ensures !ValidateCpfCnpj("951.810.400-99")
  {
    Cpf95181040099Sums(); Cpf95181040099Formatted();
  }

  lemma Cnpj77759188000180Sums()
    ensures WeightedSum("77759188000180", CnpjFirstWeights, 0) == 289
    ensures WeightedSum("77759188000180", CnpjSecondWeights, 0) == 286
  {
  }

  lemma Cnpj77759188000180Bare()
    ensures DigitsOnly("77759188000180") == "77759188000180"
  {
    assert DigitsFrom("77759188000180", 7) == "8000180";
    assert DigitsFrom("77759188000180", 0) == "77759188000180";
  }

  lemma Cnpj77759188000180Formatted()
    ensures DigitsOnly("77.759.188/0001-80") == "77759188000180"
  {
    assert DigitsFrom("77.759.188/0001-80", 9) == "8000180";
    assert DigitsFrom("77.759.188/0001-80", 0) == "77759188000180";
  }

  /** A valid CNPJ, bare and with its usual punctuation: sums 289 and 286 give check digits 8 and 0. */
  lemma Cnpj77759188000180Example()
    ensures ValidateCpfCnpj("77759188000180") && ValidateCpfCnpj("77.759.188/0001-80")
  {
    Cnpj77759188000180Sums(); Cnpj77759188000180Bare(); Cnpj77759188000180Formatted();
    assert "77759188000180"[3] != "77759188000180"[0];
  }

  lemma Cnpj12345678901234Sums()
    ensures WeightedSum("12345678901234", CnpjFirstWeights, 0) == 272
    ensures WeightedSum("12345678901234", CnpjSecondWeights, 0) == 286
  {
  }

  lemma Cnpj12345678901234Bare()
    ensures DigitsOnly("12345678901234") == "12345678901234"
  {
    assert DigitsFrom("12345678901234", 7) == "8901234";
    assert DigitsFrom("12345678901234", 0) == "12345678901234";
  }

  /** Sums 272 and 286 give check digits 3 and 0, but the input ends in 34. */
  lemma Cnpj12345678901234Example()
    ensures !ValidateCpfCnpj("12345678901234")
  {
    Cnpj12345678901234Sums(); Cnpj12345678901234Bare();
  }

  lemma Cnpj77759188000199Sums()
    ensures WeightedSum("77759188000199", CnpjFirstWeights, 0) == 289
    ensures WeightedSum("77759188000199", CnpjSecondWeights, 0) == 288
  {
  }

  lemma Cnpj77759188000199Formatted()
    ensures DigitsOnly("77.759.188/0001-99") == "77759188000199"
  {
    assert DigitsFrom("77.759.188/0001-99", 9) == "8000199";
    assert DigitsFrom("77.759.188/0001-99", 0) == "77759188000199";
  }

  /** The valid CNPJ above with its check digits altered to 99. */
  lemma Cnpj77759188000199Example()
    ensures !ValidateCpfCnpj("77.759.188/0001-99")
  {
    Cnpj77759188000199Sums(); Cnpj77759188000199Formatted();
  }

  lemma AllZeroDigits()
    ensures DigitsOnly("000.000.000-00") == "00000000000"
    ensures DigitsOnly("00.000.000/0000-00") == "00000000000000"
  {
    assert DigitsFrom("000.000.000-00", 7) == "00000";
    assert DigitsFrom("000.000.000-00", 0) == "00000000000";
    assert DigitsFrom("00.000.000/0000-00", 9) == "0000000";
    assert DigitsFrom("00.000.000/0000-00", 0) == "00000000000000";
  }

  lemma AllZeroSums()
    ensures WeightedSum("00000000000", CpfFirstWeights, 0) == 0
    ensures WeightedSum("00000000000", CpfSecondWeights, 0) == 0
    ensures WeightedSum("00000000000000", CnpjFirstWeights, 0) == 0
    ensures WeightedSum("00000000000000", CnpjSecondWeights, 0) == 0
  {
  }

  /** The all-zero strings pass the modulo-11 arithmetic but are rejected
      as a run of one repeated digit. */
  lemma AllZeroCpfRejected()
    ensures CheckDigitsMatch("00000000000", CpfFirstWeights, CpfSecondWeights)
    ensures !ValidateCpfCnpj("00000000000") && !ValidateCpfCnpj("000.000.000-00")
  {
    AllZeroDigits();
    AllZeroSums();
    DigitsOnlyOfDigits("00000000000");
  }

  lemma AllZeroCnpjRejected()
    ensures CheckDigitsMatch("00000000000000", CnpjFirstWeights, CnpjSecondWeights)
    ensures !ValidateCpfCnpj("00000000000000") && !ValidateCpfCnpj("00.000.000/0000-00")
  {
    AllZeroDigits();
    AllZeroSums();
    DigitsOnlyOfDigits("00000000000000");
  }

  lemma ElevenCharsTenDigits()
    ensures |DigitsOnly("1234567890a")| == 10
  {
    assert DigitsFrom("1234567890a", 5) == "67890";
    assert DigitsFrom("1234567890a", 0) == "1234567890";
  }

  lemma FourteenCharsThirteenDigits()
    ensures |DigitsOnly("1234567890123a")| == 13
  {
    assert DigitsFrom("1234567890123a", 10) == "123";
    assert DigitsFrom("1234567890123a", 5) == "67890123";
    assert DigitsFrom("1234567890123a", 0) == "1234567890123";
  }

  lemma LettersAndSymbolsDropped()
    ensures |DigitsOnly("abc12345")| == 5 && |DigitsOnly("!@#$%&*")| == 0
  {
    assert DigitsFrom("abc12345", 0) == "12345";
    assert DigitsFrom("!@#$%&*", 0) == "";
  }

  /** Inputs whose digit count is neither 11 nor 14. */
  lemma MalformedExamples()
    ensures !ValidateCpfCnpj("") && !ValidateCpfCnpj("   ") && !ValidateCpfCnpj("abc")
    ensures !ValidateCpfCnpj("1234567890a") && !ValidateCpfCnpj("1234567890123a")
    ensures !ValidateCpfCnpj("abc12345") && !ValidateCpfCnpj("!@#$%&*")
  {
    ElevenCharsTenDigits();
    FourteenCharsThirteenDigits();
    LettersAndSymbolsDropped();
  }
}
