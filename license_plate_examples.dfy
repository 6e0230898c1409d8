/** The concrete cases of the licence-plate test suite, proved of the model.
    Each fact about a literal is established in a small lemma of its own and
    then fed to the general lemmas about `Create`. */
module LicensePlateExamples {
  import opened Wrappers
  import opened Text
  import opened LicensePlates

  lemma OldPlateIsOldFormat()
    ensures IsOldFormat("ABC1234")
  {
    assert "ABC1234"[..3] == "ABC" && "ABC1234"[3..] == "1234";
  }

  lemma OldPlateIsClean()
    ensures forall i :: 0 <= i < 7 ==> IsUpperAlphanumeric("ABC1234"[i])
  {
  }

  lemma OldPlateFormatted(p: LicensePlate)
    requires p.value == "ABC1234"
    ensures p.Formatted() == "ABC-1234" && p.ToString() == "ABC-1234"
  {
    OldPlateIsOldFormat();
  }

  /** An old-layout plate is accepted as it is and shown with a hyphen. */
  lemma OldPlateExample()
    ensures Create("ABC1234") == Success(LicensePlate("ABC1234"))
    ensures Create("ABC1234").value.Formatted() == "ABC-1234"
  {
    OldPlateIsOldFormat();
    OldPlateIsClean();
    CreateFromClean("ABC1234");
    OldPlateFormatted(Create("ABC1234").value);
  }

  lemma CleanOfLowerCasePlate()
    ensures Clean("abc1234") == "ABC1234"
  {
    assert ToUpper("abc1234") == "ABC1234";
    OldPlateIsClean();
    CleanOfClean("ABC1234");
  }

  lemma CleanOfPieces()
    ensures Clean("ABC") == "ABC" && Clean("abc") == "ABC" && Clean("1234") == "1234"
    ensures Clean("aBc") == "ABC" && Clean(" ") == "" && Clean("  ") == ""
  {
    CleanOfClean("ABC");
    CleanOfClean("1234");
    assert ToUpper("abc") == "ABC";
    assert ToUpper("aBc") == "ABC";
    CleanOfSeparators(" ");
    CleanOfSeparators("  ");
  }

  lemma CleanOfHyphenatedPlate()
    ensures Clean("ABC-1234") == "ABC1234"
  {
    CleanAroundHyphen("ABC", "1234");
    CleanOfPieces();
    assert "ABC" + "-" + "1234" == "ABC-1234";
    assert "ABC" + "1234" == "ABC1234";
  }

  lemma CleanOfLowerCaseHyphenatedPlate()
    ensures Clean("abc-1234") == "ABC1234"
  {
    CleanAroundHyphen("abc", "1234");
    CleanOfPieces();
    assert "abc" + "-" + "1234" == "abc-1234";
    assert "ABC" + "1234" == "ABC1234";
  }

  lemma CleanOfSeparators(s: string)
    requires forall i :: 0 <= i < |s| ==> !IsUpperAlphanumeric(ToUpperChar(s[i]))
    ensures Clean(s) == ""
  {
    KeepNone(ToUpper(s), IsUpperAlphanumeric);
  }

  lemma CleanOfFivePieces(a: string, b: string, c: string, d: string, e: string)
    ensures Clean(a + b + c + d + e) == Clean(a) + Clean(b) + Clean(c) + Clean(d) + Clean(e)
  {
    CleanConcat(a + b + c + d, e);
    CleanConcat(a + b + c, d);
    CleanConcat(a + b, c);
    CleanConcat(a, b);
  }

  lemma CleanOfSpacedPlate()
    ensures Clean("  aBc 1234  ") == "ABC1234"
  {
    assert "  aBc 1234  " == "  " + "aBc" + " " + "1234" + "  ";
    CleanOfFivePieces("  ", "aBc", " ", "1234", "  ");
    CleanOfPieces();
    assert "" + "ABC" + "" + "1234" + "" == "ABC1234";
  }

  lemma OldPlateVariantsNotBlank()
    ensures !IsBlank("abc1234") && !IsBlank("ABC-1234") && !IsBlank("abc-1234")
    ensures !IsBlank("ABC1234") && !IsBlank("  aBc 1234  ")
  {
    NotBlank("abc1234");
    NotBlank("ABC-1234");
    NotBlank("abc-1234");
    NotBlank("ABC1234");
    BlankIffAllWhitespace("  aBc 1234  ");
    assert !IsWhitespace("  aBc 1234  "[2]);
  }

  /** Lower case, a hyphen and surrounding or inner spaces give the same
      plate. */
  lemma OldPlateVariantsExample()
    ensures Create("abc1234") == Success(LicensePlate("ABC1234"))
    ensures Create("ABC-1234") == Success(LicensePlate("ABC1234"))
    ensures Create("abc-1234") == Success(LicensePlate("ABC1234"))
    ensures Create("  aBc 1234  ") == Success(LicensePlate("ABC1234"))
  {
    OldPlateExample();
    OldPlateIsClean();
    CleanOfClean("ABC1234");
    CleanOfLowerCasePlate();
    CleanOfHyphenatedPlate();
    CleanOfLowerCaseHyphenatedPlate();
    CleanOfSpacedPlate();
    OldPlateVariantsNotBlank();
    CreateIgnoresCaseAndSeparators("abc1234", "ABC1234");
    CreateIgnoresCaseAndSeparators("ABC-1234", "ABC1234");
    CreateIgnoresCaseAndSeparators("abc-1234", "ABC1234");
    CreateIgnoresCaseAndSeparators("  aBc 1234  ", "ABC1234");
  }

  lemma MercosurPlateIsMercosurFormat()
    ensures IsMercosurFormat("ABC1D23") && !IsOldFormat("ABC1D23")
  {
    assert "ABC1D23"[..3] == "ABC";
    FormatsDisjoint("ABC1D23");
  }

  lemma MercosurPlateIsClean()
    ensures forall i :: 0 <= i < 7 ==> IsUpperAlphanumeric("ABC1D23"[i])
  {
  }

  lemma CleanOfMercosurPlate()
    ensures Clean("ABC1D23") == "ABC1D23"
  {
    MercosurPlateIsClean();
    CleanOfClean("ABC1D23");
  }

  lemma CleanOfLowerCaseMercosurPlate()
    ensures Clean("abc1d23") == "ABC1D23"
  {
    assert ToUpper("abc1d23") == "ABC1D23";
    MercosurPlateIsClean();
    CleanOfClean("ABC1D23");
  }

  /** A Mercosur plate is accepted and shown as stored. */
  lemma MercosurPlateExample()
    ensures Create("ABC1D23") == Success(LicensePlate("ABC1D23"))
    ensures LicensePlate("ABC1D23").Formatted() == "ABC1D23"
  {
    MercosurPlateIsMercosurFormat();
    MercosurPlateIsClean();
    CreateFromClean("ABC1D23");
  }

  /** Lower case gives the same Mercosur plate. */
  lemma LowerCaseMercosurPlateExample()
    ensures Create("abc1d23") == Success(LicensePlate("ABC1D23"))
  {
    MercosurPlateExample();
    LowerCaseMercosurPlate("abc1d23", "ABC1D23");
  }

  lemma LowerCaseMercosurPlate(a: string, b: string)
    requires a == "abc1d23" && b == "ABC1D23"
    ensures Create(a) == Create(b)
  {
    CleanOfLowerCaseMercosurPlate();
    CleanOfMercosurPlate();
    NotBlank(a);
    NotBlank(b);
    CreateIgnoresCaseAndSeparators(a, b);
  }

  /** On a clean plate of the wrong length only the format error remains. */
  lemma WrongLength(s: string)
    requires |s| > 0 && |s| != 7 && forall i :: 0 <= i < |s| ==> IsUpperAlphanumeric(s[i])
    ensures Create(s) == Failure(FormatMessage)
  {
    CreateFromClean(s);
  }

  lemma ShortPlateExample()
    ensures Create("ABC123") == Failure(FormatMessage)
  {
    WrongLength("ABC123");
  }

  lemma LongPlateExample()
    ensures Create("ABC12345") == Failure(FormatMessage)
  {
    WrongLength("ABC12345");
  }

  lemma CleanOfSpecialCharacterPlate()
    ensures Clean("ABC@123") == "ABC123"
  {
    CleanAroundSeparator("ABC", "@", "123");
    assert "ABC" + "@" + "123" == "ABC@123";
    assert "ABC" + "123" == "ABC123";
  }

  lemma CleanAroundSeparator(a: string, sep: string, b: string)
    requires a == "ABC" && sep == "@" && b == "123"
    ensures Clean(a + sep + b) == a + b
  {
    CleanConcat(a + sep, b);
    CleanConcat(a, sep);
    CleanOfSeparators(sep);
    CleanOfClean(a);
    CleanOfClean(b);
  }

  /** The `@` is cleaned away, and the six characters left are refused. */
  lemma SpecialCharacterExample()
    ensures Create("ABC@123") == Failure(FormatMessage)
  {
    CleanOfSpecialCharacterPlate();
    NotBlank("ABC@123");
  }

  lemma AllLettersExample()
    ensures Create("ABCDEFG") == Failure(FormatMessage)
  {
    var s := "ABCDEFG";
    assert !IsDigit(s[3]);
    CreateFromClean(s);
  }

  lemma AllDigitsExample()
    ensures Create("1234567") == Failure(FormatMessage)
  {
    var s := "1234567";
    assert !IsUpper(s[..3][0]);
    CreateFromClean(s);
  }

  lemma WrongPatternExample()
    ensures Create("AB12345") == Failure(FormatMessage)
  {
    var s := "AB12345";
    assert !IsUpper(s[..3][2]);
    CreateFromClean(s);
  }

  lemma BlankExamples()
    ensures Create("") == Failure(EmptyMessage)
    ensures Create("   ") == Failure(EmptyMessage)
  {
    BlankSamples();
  }

  /** Different plates are not equal. */
  lemma DistinctExample(a: LicensePlate, b: LicensePlate)
    requires a == LicensePlate("ABC1234") && b == LicensePlate("XYZ9876")
    ensures !a.Equals(b)
  {
    assert a.value[0] != b.value[0];
  }
}
