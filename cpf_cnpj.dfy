/** The Brazilian taxpayer identifier: an individual's CPF (11 digits) or an
    organisation's CNPJ (14 digits), each ending in two mod-11 check digits. */
module CpfCnpjs {
  import opened Wrappers
  import opened Text

  const EmptyMessage := "CPF/CNPJ cannot be empty"
  const InvalidCpfMessage := "Invalid CPF"
  const InvalidCnpjMessage := "Invalid CNPJ"
  const LengthMessage := "CPF/CNPJ must have 11 or 14 digits"

  /** `value.replace(/\D/g, '')`: the decimal digits of `s`, in order. */
  function DigitsOnly(s: string): (r: string)
    ensures AllDigits(r)
  {
    Keep(s, IsDigit)
  }

  /** The test `/^(\d)\1+$/`: two or more copies of one digit. */
  predicate IsRepeatedDigit(s: string) {
    |s| >= 2 && IsDigit(s[0]) && forall i :: 0 <= i < |s| ==> s[i] == s[0]
  }

  // ---------------------------------------------------------------------
  // CPF check digits, in closed form

  /** Sum of the first `k` digits of `s`, digit `i` weighted `n + 1 - i`:
      weights 10..2 for the first check digit (`n` = 9), 11..2 for the
      second (`n` = 10). */
  function CpfWeightedSum(s: string, n: nat, k: nat): int
    requires k <= |s| && AllDigits(s)
  {
    if k == 0 then 0 else CpfWeightedSum(s, n, k - 1) + DigitValue(s[k - 1]) * (n + 2 - k)
  }

  /** The CPF rule: 11 minus the remainder, with 10 and 11 mapped to 0. */
  function CpfCheckDigit(sum: int): (d: int)
    ensures 0 <= d <= 9
  {
    var digit := 11 - sum % 11;
    if digit >= 10 then 0 else digit
  }

  /** Check digit `n` (9 or 10) of `s`, computed from the `n` digits before it. */
  function CpfDigitAt(s: string, n: nat): int
    requires n <= |s| && AllDigits(s)
  {
    CpfCheckDigit(CpfWeightedSum(s, n, n))
  }

  /** A valid CPF: 11 digits, not all equal, whose 10th and 11th digits are
      the two check digits of the digits before them. */
  predicate IsValidCpf(s: string)
    requires AllDigits(s)
  {
    && |s| == 11
    && !IsRepeatedDigit(s)
    && CpfDigitAt(s, 9) == DigitValue(s[9])
    && CpfDigitAt(s, 10) == DigitValue(s[10])
  }

  // ---------------------------------------------------------------------
  // CNPJ check digits, in closed form

  /** The weight of digit `i` among the first `n`: counting from the right,
      the weights run 2, 3, ..., 9 and start again at 2. */
  function CnpjWeight(n: nat, i: nat): int
    requires i < n
  {
    2 + (n - 1 - i) % 8
  }

  function CnpjWeightedSum(s: string, n: nat, k: nat): int
    requires k <= n && k <= |s| && AllDigits(s)
  {
    if k == 0 then 0 else CnpjWeightedSum(s, n, k - 1) + DigitValue(s[k - 1]) * CnpjWeight(n, k - 1)
  }

  /** The CNPJ rule: 0 when the remainder is below 2, else 11 minus it. */
  function CnpjCheckDigit(sum: int): (d: int)
    ensures 0 <= d <= 9
  {
    if sum % 11 < 2 then 0 else 11 - sum % 11
  }

  function CnpjDigitAt(s: string, n: nat): int
    requires n <= |s| && AllDigits(s)
  {
    CnpjCheckDigit(CnpjWeightedSum(s, n, n))
  }

  /** A valid CNPJ: 14 digits, not all equal, whose 13th and 14th digits are
      the two check digits of the digits before them. */
  predicate IsValidCnpj(s: string)
    requires AllDigits(s)
  {
    && |s| == 14
    && !IsRepeatedDigit(s)
    && CnpjDigitAt(s, 12) == DigitValue(s[12])
    && CnpjDigitAt(s, 13) == DigitValue(s[13])
  }

  /** The weights over the first twelve digits are 5,4,3,2,9,8,7,6,5,4,3,2
      and those over the first thirteen are 6,5,4,3,2,9,8,7,6,5,4,3,2. */
  lemma CnpjWeightTables()
    ensures forall i :: 0 <= i < 12 ==> CnpjWeight(12, i) == [5, 4, 3, 2, 9, 8, 7, 6, 5, 4, 3, 2][i]
    ensures forall i :: 0 <= i < 13 ==> CnpjWeight(13, i) == [6, 5, 4, 3, 2, 9, 8, 7, 6, 5, 4, 3, 2][i]
  {
  }

  /** The two ways the source writes the mod-11 digit rule agree on every
      sum the checksums can produce. */
  lemma CheckDigitRulesAgree(sum: int)
    requires sum >= 0
    ensures CpfCheckDigit(sum) == CnpjCheckDigit(sum)
  {
  }

  // ---------------------------------------------------------------------
  // The validation loops, as the source writes them

  /** `validateCpf`: two weighted-sum loops, each followed by the digit rule. */
  method ValidateCpf(cpf: string) returns (ok: bool)
    requires AllDigits(cpf)
    ensures ok == IsValidCpf(cpf)
  {
    if |cpf| != 11 || IsRepeatedDigit(cpf) {
      return false;
    }
    var sum := 0;
    for i := 0 to 9
      invariant sum == CpfWeightedSum(cpf, 9, i)
    {
      sum := sum + DigitValue(cpf[i]) * (10 - i);
    }
    var digit := 11 - sum % 11;
    if digit >= 10 {
      digit := 0;
    }
    if digit != DigitValue(cpf[9]) {
      return false;
    }
    sum := 0;
    for i := 0 to 10
      invariant sum == CpfWeightedSum(cpf, 10, i)
    {
      sum := sum + DigitValue(cpf[i]) * (11 - i);
    }
    digit := 11 - sum % 11;
    if digit >= 10 {
      digit := 0;
    }
    return digit == DigitValue(cpf[10]);
  }

  /** Moving one digit to the right lowers the CNPJ weight by one, and a
      weight that would drop below 2 starts again at 9. */
  lemma CnpjWeightStep(n: nat, i: nat)
    requires i + 1 < n
    ensures CnpjWeight(n, i + 1) == if CnpjWeight(n, i) - 1 < 2 then 9 else CnpjWeight(n, i) - 1
  {
    var m := n - 2 - i;
    assert m + 1 == n - 1 - i;
    assert (m + 1) % 8 == if m % 8 == 7 then 0 else m % 8 + 1;
  }

  /** The weighted sums read only the digits they weigh. */
  lemma {:induction false} CnpjWeightedSumOfPrefix(s: string, m: nat, n: nat, k: nat)
    requires k <= n && k <= m <= |s| && AllDigits(s)
    ensures CnpjWeightedSum(s[..m], n, k) == CnpjWeightedSum(s, n, k)
  {
    if k > 0 {
      CnpjWeightedSumOfPrefix(s, m, n, k - 1);
    }
  }

  /** One of `validateCnpj`'s two loops: the weight `pos` counts down from
      `size - 7` and wraps from 1 back to 9. */
  method CnpjLoopSum(numbers: string, size: nat) returns (sum: int)
    requires |numbers| == size && (size == 12 || size == 13) && AllDigits(numbers)
    ensures sum == CnpjWeightedSum(numbers, size, size)
  {
    sum := 0;
    var pos := size - 7;
    var i := size;
    while i >= 1
      invariant 0 <= i <= size
      invariant sum == CnpjWeightedSum(numbers, size, size - i)
      invariant i >= 1 ==> pos == CnpjWeight(size, size - i)
    {
      sum := sum + DigitValue(numbers[size - i]) * pos;
      if i >= 2 {
        CnpjWeightStep(size, size - i);
      }
      pos := pos - 1;
      if pos < 2 {
        pos := 9;
      }
      i := i - 1;
    }
  }

  /** `validateCnpj`: a loop over the first 12 digits for the first check
      digit, then over the first 13 for the second. */
  method ValidateCnpj(cnpj: string) returns (ok: bool)
    requires AllDigits(cnpj)
    ensures ok == IsValidCnpj(cnpj)
  {
    if |cnpj| != 14 || IsRepeatedDigit(cnpj) {
      return false;
    }
    var size := |cnpj| - 2;
    var numbers := cnpj[..size];
    var digits := cnpj[size..];
    var sum := CnpjLoopSum(numbers, size);
    CnpjWeightedSumOfPrefix(cnpj, size, size, size);
    var result := if sum % 11 < 2 then 0 else 11 - sum % 11;
    if result != DigitValue(digits[0]) {
      return false;
    }
    size := size + 1;
    numbers := cnpj[..size];
    sum := CnpjLoopSum(numbers, size);
    CnpjWeightedSumOfPrefix(cnpj, size, size, size);
    result := if sum % 11 < 2 then 0 else 11 - sum % 11;
    return result == DigitValue(digits[1]);
  }

  // ---------------------------------------------------------------------
  // The value object

  /** A CPF or CNPJ held as its digits, with the kind fixed at construction. */
  datatype CpfCnpj = CpfCnpj(value: string, isCpf: bool) {

    /** What every instance satisfies, since only `Create` builds one. */
    ghost predicate Valid() {
      && AllDigits(value)
      && isCpf == (|value| == 11)
      && (if isCpf then IsValidCpf(value) else IsValidCnpj(value))
    }

    /** The digits only. */
    function Clean(): string {
      value
    }

    /** `###.###.###-##` for a CPF, `##.###.###/####-##` for a CNPJ. */
    function Formatted(): (r: string)
      requires Valid()
      ensures |r| == if isCpf then 14 else 18
    {
      if isCpf then CpfMask(value) else CnpjMask(value)
    }

    function IsCpf(): bool {
      isCpf
    }

    function IsCnpj(): (r: bool)
      ensures r != IsCpf()
    {
      !isCpf
    }

    /** Only the digits are compared; for built values the kind follows
        from them, so equal digits mean the same value object. */
    function Equals(other: CpfCnpj): (r: bool)
      ensures Valid() && other.Valid() ==> (r <==> this == other)
    {
      value == other.value
    }

    function ToString(): (r: string)
      requires Valid()
      ensures r == Formatted()
    {
      Formatted()
    }
  }

  /** `###.###.###-##`. */
  function CpfMask(v: string): (r: string)
    requires |v| == 11
    ensures |r| == 14
  {
    v[..3] + "." + v[3..6] + "." + v[6..9] + "-" + v[9..]
  }

  /** `##.###.###/####-##`. */
  function CnpjMask(v: string): (r: string)
    requires |v| == 14
    ensures |r| == 18
  {
    v[..2] + "." + v[2..5] + "." + v[5..8] + "/" + v[8..12] + "-" + v[12..]
  }

  /** The private constructor: strips the non-digits again and records
      whether eleven digits remain. */
  function Make(value: string): (c: CpfCnpj)
    ensures c.value == DigitsOnly(value)
    ensures AllDigits(c.value) && c.IsCpf() == (|c.value| == 11)
  {
    var clean := DigitsOnly(value);
    CpfCnpj(clean, |clean| == 11)
  }

  lemma DigitsOnlyOfDigits(s: string)
    requires AllDigits(s)
    ensures DigitsOnly(s) == s
  {
    KeepAll(s, IsDigit);
  }

  /** `CpfCnpj.create`. */
  function Create(value: string): (r: Result<CpfCnpj, string>)
    ensures IsBlank(value) ==> r == Failure(EmptyMessage)
    ensures !IsBlank(value) && |DigitsOnly(value)| == 11 ==>
              if IsValidCpf(DigitsOnly(value)) then r.Success? else r == Failure(InvalidCpfMessage)
    ensures !IsBlank(value) && |DigitsOnly(value)| == 14 ==>
              if IsValidCnpj(DigitsOnly(value)) then r.Success? else r == Failure(InvalidCnpjMessage)
    ensures !IsBlank(value) && |DigitsOnly(value)| != 11 && |DigitsOnly(value)| != 14 ==>
              r == Failure(LengthMessage)
    ensures r.Success? ==> r.value.Valid() && r.value.Clean() == DigitsOnly(value)
  {
    if IsBlank(value) then Failure(EmptyMessage)
    else
      var clean := DigitsOnly(value);
      if |clean| == 11 then
        if !IsValidCpf(clean) then Failure(InvalidCpfMessage)
        else DigitsOnlyOfDigits(clean); Success(Make(clean))
      else if |clean| == 14 then
        if !IsValidCnpj(clean) then Failure(InvalidCnpjMessage)
        else DigitsOnlyOfDigits(clean); Success(Make(clean))
      else Failure(LengthMessage)
  }

  // ---------------------------------------------------------------------
  // Properties

  /** Repeated digits are rejected whatever their checksums say. */
  lemma RepeatedDigitsRejected(s: string)
    requires AllDigits(s) && IsRepeatedDigit(s)
    ensures |s| == 11 ==> Create(s) == Failure(InvalidCpfMessage)
    ensures |s| == 14 ==> Create(s) == Failure(InvalidCnpjMessage)
  {
    CreateFromDigits(s);
  }

  /** A created value holds 11 or 14 digits, it is a CPF exactly when it
      holds 11, and its digits pass the check for its kind. */
  lemma CreatedShape(s: string)
    requires Create(s).Success?
    ensures var c := Create(s).value;
      AllDigits(c.Clean()) && (|c.Clean()| == 11 || |c.Clean()| == 14)
      && (c.IsCpf() <==> |c.Clean()| == 11) && c.IsCnpj() == !c.IsCpf()
      && (if c.IsCpf() then IsValidCpf(c.Clean()) else IsValidCnpj(c.Clean()))
  {
  }

  /** Punctuation does not matter: inputs with the same digits create the
      same value or fail alike (unless one of them is blank). */
  lemma CreateIgnoresPunctuation(a: string, b: string)
    requires DigitsOnly(a) == DigitsOnly(b) && !IsBlank(a) && !IsBlank(b)
    ensures Create(a) == Create(b)
  {
  }

  /** Two created values are `equals` exactly when their inputs have the
      same digits. */
  lemma EqualsIffSameDigits(a: string, b: string)
    requires Create(a).Success? && Create(b).Success?
    ensures Create(a).value.Equals(Create(b).value) <==> DigitsOnly(a) == DigitsOnly(b)
  {
  }

  /** A one-character separator between two pieces is stripped away. */
  lemma DigitsOnlyAround(x: string, sep: string, y: string)
    requires |sep| == 1 && !IsDigit(sep[0])
    ensures DigitsOnly(x + sep + y) == DigitsOnly(x) + DigitsOnly(y)
  {
    KeepConcat(x + sep, y, IsDigit);
    KeepConcat(x, sep, IsDigit);
    KeepNone(sep, IsDigit);
  }

  /** Stripping the separators from `formatted` gives back the digits. */
  lemma FormattedDigits(c: CpfCnpj)
    requires c.Valid()
    ensures DigitsOnly(c.Formatted()) == c.value
  {
    if c.isCpf {
      CpfMaskDigits(c.value);
    } else {
      CnpjMaskDigits(c.value);
    }
  }

  /** Appending a separator and a group of digits to a mask appends just
      the digits to what the mask strips down to. */
  lemma MaskStep(p: string, sep: string, w: string)
    requires |sep| == 1 && !IsDigit(sep[0]) && AllDigits(w)
    ensures DigitsOnly(p + sep + w) == DigitsOnly(p) + w
  {
    DigitsOnlyAround(p, sep, w);
    DigitsOnlyOfDigits(w);
  }

  lemma CpfMaskDigits(v: string)
    requires |v| == 11 && AllDigits(v)
    ensures DigitsOnly(CpfMask(v)) == v
  {
    DigitsOnlyOfDigits(v[..3]);
    MaskStep(v[..3], ".", v[3..6]);
    MaskStep(v[..3] + "." + v[3..6], ".", v[6..9]);
    MaskStep(v[..3] + "." + v[3..6] + "." + v[6..9], "-", v[9..]);
    assert v[..3] + v[3..6] + v[6..9] + v[9..] == v;
  }

  lemma CnpjMaskDigits(v: string)
    requires |v| == 14 && AllDigits(v)
    ensures DigitsOnly(CnpjMask(v)) == v
  {
    DigitsOnlyOfDigits(v[..2]);
    var p1 := v[..2] + "." + v[2..5];
    MaskStep(v[..2], ".", v[2..5]);
    var p2 := p1 + "." + v[5..8];
    MaskStep(p1, ".", v[5..8]);
    var p3 := p2 + "/" + v[8..12];
    MaskStep(p2, "/", v[8..12]);
    MaskStep(p3, "-", v[12..]);
    assert v[..2] + v[2..5] + v[5..8] + v[8..12] + v[12..] == v;
  }

  /** Creating from `formatted` (hence from `toString`) gives back the same
      value. */
  lemma FormattedRoundTrip(c: CpfCnpj)
    requires c.Valid()
    ensures Create(c.Formatted()) == Success(c)
    ensures Create(c.ToString()) == Success(c)
  {
    FormattedDigits(c);
    DigitsOnlyOfDigits(c.value);
    var f := c.Formatted();
    assert !IsBlank(f) by {
      BlankIffAllWhitespace(f);
      assert !IsWhitespace(f[0]);
    }
  }

  /** On a non-empty digit string the outcome depends only on its length
      and check digits. */
  lemma CreateFromDigits(s: string)
    requires AllDigits(s) && |s| > 0
    ensures Create(s) ==
      if |s| == 11 then (if IsValidCpf(s) then Success(CpfCnpj(s, true)) else Failure(InvalidCpfMessage))
      else if |s| == 14 then (if IsValidCnpj(s) then Success(CpfCnpj(s, false)) else Failure(InvalidCnpjMessage))
      else Failure(LengthMessage)
  {
    DigitsOnlyOfDigits(s);
    BlankIffAllWhitespace(s);
    assert !IsWhitespace(s[0]);
  }
}
