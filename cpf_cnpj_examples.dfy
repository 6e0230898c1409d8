/** The concrete cases of the tax-identifier test suite, proved of the model.
    Each literal checksum is established in a small lemma of its own and then
    fed to the general lemmas about `Create`. */
module CpfCnpjExamples {
  import opened Wrappers
  import opened Text
  import opened CpfCnpjs

  lemma CpfChecksumsOf52998224725()
    ensures IsValidCpf("52998224725")
  {
    assert "52998224725"[1] != "52998224725"[0];
  }

  lemma CpfChecksumsOf12345678901()
    ensures !IsValidCpf("12345678901")
  {
    assert "12345678901"[1] != "12345678901"[0];
  }

  lemma CnpjChecksumsOf11222333000181()
    ensures IsValidCnpj("11222333000181")
  {
    var s := "11222333000181";
    assert s[2] != s[0];
    CnpjSum12Of11222333000181(s);
    CnpjSum13Of11222333000181(s);
  }

  lemma CnpjSum12Of11222333000181(s: string)
    requires s == "11222333000181"
    ensures CnpjWeightedSum(s, 12, 12) == 102
  {
    assert CnpjWeightedSum(s, 12, 1) == 5;
    assert CnpjWeightedSum(s, 12, 2) == 9;
    assert CnpjWeightedSum(s, 12, 3) == 15;
    assert CnpjWeightedSum(s, 12, 4) == 19;
    assert CnpjWeightedSum(s, 12, 5) == 37;
    assert CnpjWeightedSum(s, 12, 6) == 61;
    assert CnpjWeightedSum(s, 12, 7) == 82;
    assert CnpjWeightedSum(s, 12, 8) == 100;
    assert CnpjWeightedSum(s, 12, 9) == 100;
    assert CnpjWeightedSum(s, 12, 10) == 100;
    assert CnpjWeightedSum(s, 12, 11) == 100;
    assert CnpjWeightedSum(s, 12, 12) == 102;
  }

  lemma CnpjSum13Of11222333000181(s: string)
    requires s == "11222333000181"
    ensures CnpjWeightedSum(s, 13, 13) == 120
  {
    assert CnpjWeightedSum(s, 13, 1) == 6;
    assert CnpjWeightedSum(s, 13, 2) == 11;
    assert CnpjWeightedSum(s, 13, 3) == 19;
    assert CnpjWeightedSum(s, 13, 4) == 25;
    assert CnpjWeightedSum(s, 13, 5) == 29;
    assert CnpjWeightedSum(s, 13, 6) == 56;
    assert CnpjWeightedSum(s, 13, 7) == 80;
    assert CnpjWeightedSum(s, 13, 8) == 101;
    assert CnpjWeightedSum(s, 13, 9) == 101;
    assert CnpjWeightedSum(s, 13, 10) == 101;
    assert CnpjWeightedSum(s, 13, 11) == 101;
    assert CnpjWeightedSum(s, 13, 12) == 104;
    assert CnpjWeightedSum(s, 13, 13) == 120;
  }

  lemma CnpjChecksumsOf12345678000190()
    ensures !IsValidCnpj("12345678000190")
  {
    CnpjSum13Of12345678000190("12345678000190");
  }

  lemma CnpjSum13Of12345678000190(s: string)
    requires s == "12345678000190"
    ensures CnpjWeightedSum(s, 13, 13) == 237
  {
    assert CnpjWeightedSum(s, 13, 1) == 6;
    assert CnpjWeightedSum(s, 13, 2) == 16;
    assert CnpjWeightedSum(s, 13, 3) == 28;
    assert CnpjWeightedSum(s, 13, 4) == 40;
    assert CnpjWeightedSum(s, 13, 5) == 50;
    assert CnpjWeightedSum(s, 13, 6) == 104;
    assert CnpjWeightedSum(s, 13, 7) == 160;
    assert CnpjWeightedSum(s, 13, 8) == 216;
    assert CnpjWeightedSum(s, 13, 9) == 216;
    assert CnpjWeightedSum(s, 13, 10) == 216;
    assert CnpjWeightedSum(s, 13, 11) == 216;
    assert CnpjWeightedSum(s, 13, 12) == 219;
    assert CnpjWeightedSum(s, 13, 13) == 237;
  }

  lemma FormattedCpf(c: CpfCnpj)
    requires c.Valid() && c.value == "52998224725"
    ensures c.Formatted() == "529.982.247-25"
  {
    MaskOf52998224725(c.value);
  }

  lemma MaskOf52998224725(v: string)
    requires v == "52998224725"
    ensures CpfMask(v) == "529.982.247-25"
  {
    assert v[..3] == "529" && v[3..6] == "982" && v[6..9] == "247" && v[9..] == "25";
  }

  /** A valid CPF is accepted, formatted as `529.982.247-25`, and creating
      from that formatted text gives the same value. */
  lemma ValidCpfExample()
    ensures Create("52998224725") == Success(CpfCnpj("52998224725", true))
    ensures Create("52998224725").value.Formatted() == "529.982.247-25"
    ensures Create("529.982.247-25") == Create("52998224725")
  {
    CpfChecksumsOf52998224725();
    CreateFromDigits("52998224725");
    var c := Create("52998224725").value;
    FormattedCpf(c);
    FormattedRoundTrip(c);
  }

  lemma FormattedCnpj(c: CpfCnpj)
    requires c.Valid() && c.value == "11222333000181"
    ensures c.Formatted() == "11.222.333/0001-81"
  {
    MaskOf11222333000181(c.value);
  }

  lemma MaskOf11222333000181(v: string)
    requires v == "11222333000181"
    ensures CnpjMask(v) == "11.222.333/0001-81"
  {
    assert v[..2] == "11" && v[2..5] == "222" && v[5..8] == "333";
    assert v[8..12] == "0001" && v[12..] == "81";
  }

  /** A valid CNPJ is accepted, formatted as `11.222.333/0001-81`, and
      creating from that formatted text gives the same value. */
  lemma ValidCnpjExample()
    ensures Create("11222333000181") == Success(CpfCnpj("11222333000181", false))
    ensures Create("11222333000181").value.Formatted() == "11.222.333/0001-81"
    ensures Create("11.222.333/0001-81") == Create("11222333000181")
  {
    CnpjChecksumsOf11222333000181();
    CreateFromDigits("11222333000181");
    var c := Create("11222333000181").value;
    FormattedCnpj(c);
    FormattedRoundTrip(c);
  }

  /** Eleven digits with wrong check digits are refused as a CPF. */
  lemma InvalidCpfExample()
    ensures Create("12345678901") == Failure(InvalidCpfMessage)
  {
    CpfChecksumsOf12345678901();
    CreateFromDigits("12345678901");
  }

  /** Fourteen digits with wrong check digits are refused as a CNPJ. */
  lemma InvalidCnpjExample()
    ensures Create("12345678000190") == Failure(InvalidCnpjMessage)
  {
    CnpjChecksumsOf12345678000190();
    CreateFromDigits("12345678000190");
  }

  /** Nine digits are refused for their length. */
  lemma WrongLengthExample()
    ensures Create("123456789") == Failure(LengthMessage)
  {
    CreateFromDigits("123456789");
  }

  /** Empty and whitespace-only input are refused as empty. */
  lemma BlankExamples()
    ensures Create("") == Failure(EmptyMessage)
    ensures Create("   ") == Failure(EmptyMessage)
  {
    BlankSamples();
  }

  lemma RepeatedOnes()
    ensures IsRepeatedDigit("11111111111")
  {
    assert forall i :: 0 <= i < 11 ==> "11111111111"[i] == '1';
  }

  /** `11111111111` satisfies both CPF check digits; only the repeated-digit
      test refuses it. */
  lemma RepeatedCpfPassesChecksum()
    ensures CpfDigitAt("11111111111", 9) == 1 && CpfDigitAt("11111111111", 10) == 1
    ensures Create("11111111111") == Failure(InvalidCpfMessage)
  {
    OnesChecksums("11111111111");
    RepeatedRejected("11111111111");
  }

  lemma OnesChecksums(s: string)
    requires s == "11111111111"
    ensures CpfDigitAt(s, 9) == 1 && CpfDigitAt(s, 10) == 1
  {
    OnesSum9(s);
    OnesSum10(s);
  }

  lemma OnesSum9(s: string)
    requires s == "11111111111"
    ensures CpfWeightedSum(s, 9, 9) == 54
  {
    assert CpfWeightedSum(s, 9, 1) == 10;
    assert CpfWeightedSum(s, 9, 2) == 19;
    assert CpfWeightedSum(s, 9, 3) == 27;
    assert CpfWeightedSum(s, 9, 4) == 34;
    assert CpfWeightedSum(s, 9, 5) == 40;
    assert CpfWeightedSum(s, 9, 6) == 45;
    assert CpfWeightedSum(s, 9, 7) == 49;
    assert CpfWeightedSum(s, 9, 8) == 52;
  }

  lemma OnesSum10(s: string)
    requires s == "11111111111"
    ensures CpfWeightedSum(s, 10, 10) == 65
  {
    assert CpfWeightedSum(s, 10, 1) == 11;
    assert CpfWeightedSum(s, 10, 2) == 21;
    assert CpfWeightedSum(s, 10, 3) == 30;
    assert CpfWeightedSum(s, 10, 4) == 38;
    assert CpfWeightedSum(s, 10, 5) == 45;
    assert CpfWeightedSum(s, 10, 6) == 51;
    assert CpfWeightedSum(s, 10, 7) == 56;
    assert CpfWeightedSum(s, 10, 8) == 60;
    assert CpfWeightedSum(s, 10, 9) == 63;
  }

  lemma RepeatedRejected(s: string)
    requires s == "11111111111"
    ensures Create(s) == Failure(InvalidCpfMessage)
  {
    RepeatedOnes();
    RepeatedDigitsRejected(s);
  }
}
