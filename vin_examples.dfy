/** The concrete cases of the VIN test suite, proved of the model. Each fact
    about a literal is established in a small lemma of its own and then fed
    to the general lemmas about `Create`. */
module VinExamples {
  import opened Wrappers
  import opened Text
  import opened Vins

  const ValidVin := "1HGBH41JXMN109186"

  lemma ValidVinIsShaped()
    ensures IsVinShaped(ValidVin)
  {
  }

  lemma ValidVinIsClean()
    ensures Clean(ValidVin) == ValidVin
  {
    ValidVinIsShaped();
    CleanOfVinShaped(ValidVin);
  }

  /** A valid VIN is accepted as it is. */
  lemma AcceptedExample()
    ensures Create(ValidVin) == Success(Vin(ValidVin))
    ensures Vin(ValidVin).ToString() == ValidVin
  {
    ValidVinIsShaped();
    ValidVinIsClean();
    VinReachesCreate(ValidVin);
  }

  lemma VinReachesCreate(s: string)
    requires s == ValidVin && IsVinShaped(s) && Clean(s) == s
    ensures Create(s) == Success(Vin(s))
  {
    CreateFromClean(s);
  }

  lemma FormattedValidVin(v: Vin)
    requires v.value == ValidVin
    ensures v.Formatted() == "1HG-BH41JX-MN109186"
  {
  }

  /** Lower case is upper-cased. */
  lemma LowerCaseExample()
    ensures Create("1hgbh41jxmn109186") == Success(Vin(ValidVin))
  {
    AcceptedExample();
    LowerCaseVin("1hgbh41jxmn109186", ValidVin);
  }

  lemma LowerCaseVin(a: string, b: string)
    requires a == "1hgbh41jxmn109186" && b == ValidVin
    ensures Create(a) == Create(b)
  {
    assert ToUpper(a) == b;
    ValidVinIsShaped();
    TrimNoWhitespace(b);
    ValidVinIsClean();
    NotBlank(a);
    NotBlank(b);
    CreateIgnoresCaseAndPadding(a, b);
  }

  /** Surrounding whitespace is trimmed. */
  lemma PaddedExample()
    ensures Create("  1HGBH41JXMN109186  ") == Success(Vin(ValidVin))
  {
    AcceptedExample();
    PaddedVin("  1HGBH41JXMN109186  ", ValidVin);
  }

  lemma PaddedVin(a: string, b: string)
    requires a == "  1HGBH41JXMN109186  " && b == ValidVin
    ensures Create(a) == Create(b)
  {
    assert a == "  " + b + "  ";
    PaddedVinIsClean("  ", b);
    NotBlank(b);
    CreateIgnoresCaseAndPadding(a, b);
  }

  lemma PaddedVinIsClean(pad: string, b: string)
    requires pad == "  " && b == ValidVin
    ensures Clean(pad + b + pad) == Clean(b) && Trim(pad + b + pad) == b
  {
    ValidVinIsShaped();
    TrimAround(pad, b, pad);
    PaddedVinHasNoLowerCase(pad, b);
    ValidVinIsClean();
  }

  lemma PaddedVinHasNoLowerCase(pad: string, b: string)
    requires pad == "  " && IsVinShaped(b)
    ensures ToUpper(pad + b + pad) == pad + b + pad
  {
    var a := pad + b + pad;
    forall i | 0 <= i < |a|
      ensures ToUpper(a)[i] == a[i]
    {
      if i < 2 || 19 <= i {
        assert a[i] == ' ';
      } else {
        assert a[i] == b[i - 2] && IsVinChar(b[i - 2]);
      }
    }
  }

  /** A clean candidate of the wrong length fails on the length. */
  lemma WrongLength(s: string)
    requires |s| > 0 && |s| != 17 && NoWhitespace(s) && forall i :: 0 <= i < |s| ==> !IsLower(s[i])
    ensures Create(s) == Failure(LengthMessage)
  {
    assert ToUpper(s) == s;
    TrimNoWhitespace(s);
    CreateFromClean(s);
  }

  lemma ShortExample()
    ensures Create("1HGBH41JXMN10918") == Failure(LengthMessage)
  {
    WrongLength("1HGBH41JXMN10918");
  }

  lemma LongExample()
    ensures Create("1HGBH41JXMN1091866") == Failure(LengthMessage)
  {
    WrongLength("1HGBH41JXMN1091866");
  }

  /** Seventeen clean characters: the forbidden-letter test comes first. */
  lemma SeventeenClean(s: string)
    requires |s| == 17 && NoWhitespace(s) && forall i :: 0 <= i < |s| ==> !IsLower(s[i])
    ensures Create(s) ==
      if HasForbiddenLetter(s) then Failure(ForbiddenLetterMessage)
      else if IsVinShaped(s) then Success(Vin(s))
      else Failure(AlphabetMessage)
  {
    assert ToUpper(s) == s;
    TrimNoWhitespace(s);
    CreateFromClean(s);
  }

  /** A character outside the alphabet fails the last test. */
  lemma InvalidCharacterExample()
    ensures Create("1HGBH41JXMN10918@") == Failure(AlphabetMessage)
  {
    var s := "1HGBH41JXMN10918@";
    assert !IsVinChar(s[16]);
    assert !HasForbiddenLetter(s);
    SeventeenClean(s);
  }

  lemma ForbiddenAtSix(s: string)
    requires |s| == 17 && NoWhitespace(s) && forall i :: 0 <= i < |s| ==> !IsLower(s[i])
    requires IsForbiddenLetter(s[6])
    ensures Create(s) == Failure(ForbiddenLetterMessage)
  {
    SeventeenClean(s);
  }

  /** I, O and Q are refused. */
  lemma LetterIExample()
    ensures Create("1HGBH4IJXMN109186") == Failure(ForbiddenLetterMessage)
  {
    ForbiddenAtSix("1HGBH4IJXMN109186");
  }

  lemma LetterOExample()
    ensures Create("1HGBH4OJXMN109186") == Failure(ForbiddenLetterMessage)
  {
    ForbiddenAtSix("1HGBH4OJXMN109186");
  }

  lemma LetterQExample()
    ensures Create("1HGBH4QJXMN109186") == Failure(ForbiddenLetterMessage)
  {
    ForbiddenAtSix("1HGBH4QJXMN109186");
  }

  lemma BlankExamples()
    ensures Create("") == Failure(EmptyMessage)
    ensures Create("   ") == Failure(EmptyMessage)
  {
    BlankSamples();
  }

  /** Different VINs are not equal. */
  lemma DistinctExample(a: Vin, b: Vin)
    requires a == Vin(ValidVin) && b == Vin("2HGBH41JXMN109187")
    ensures !a.Equals(b)
  {
    assert a.value[0] != b.value[0];
  }
}
