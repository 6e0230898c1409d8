/** The concrete cases of the e-mail test suite, proved of the model. Each
    fact about a literal is established in a small lemma of its own and then
    fed to the general lemmas about `Create`. */
module EmailExamples {
  import opened Wrappers
  import opened Text
  import opened Emails

  lemma NoWhitespaceInTestAddress()
    ensures NoWhitespace("test@example.com")
  {
  }

  lemma TestAddressAt()
    ensures IndexOf("test@example.com", '@') == 4
  {
  }

  lemma TestAddressDomain()
    ensures '@' !in "test@example.com"[5..]
    ensures '.' in "test@example.com"[6..15]
  {
    assert "test@example.com"[5..] == "example.com";
    assert "test@example.com"[6..15] == "xample.co";
    assert "xample.co"[6] == '.';
  }

  lemma TestAddressIsWellFormed()
    ensures IsWellFormedEmail("test@example.com")
  {
    TestAddressAt();
    TestAddressDomain();
    NoWhitespaceInTestAddress();
  }

  lemma TestAddressIsLowerCase()
    ensures ToLower("test@example.com") == "test@example.com"
  {
  }

  /** A well-formed address is accepted and kept as it is. */
  lemma AcceptedExample()
    ensures Create("test@example.com") == Success(Email("test@example.com"))
  {
    NoWhitespaceInTestAddress();
    TestAddressIsWellFormed();
    TestAddressIsLowerCase();
    CreateWithoutWhitespace("test@example.com");
  }

  lemma UpperCaseFolds()
    ensures ToLower("Test@Example.COM") == "test@example.com"
    ensures ToLower("TEST@EXAMPLE.COM") == "test@example.com"
  {
  }

  /** Upper case is folded: the stored address is lower case. */
  lemma LowerCasedExample()
    ensures Create("Test@Example.COM") == Success(Email("test@example.com"))
    ensures Create("TEST@EXAMPLE.COM") == Success(Email("test@example.com"))
  {
    AcceptedExample();
    UpperCaseFolds();
    TestAddressIsLowerCase();
    CreateIgnoresCase("Test@Example.COM", "test@example.com");
    CreateIgnoresCase("TEST@EXAMPLE.COM", "test@example.com");
  }

  /** Without an `@` the address is refused. */
  lemma MissingAtExample()
    ensures Create("testexample.com") == Failure(InvalidFormatMessage)
  {
    NoAtIn("testexample.com");
    CreateWithoutWhitespace("testexample.com");
  }

  lemma NoAtIn(s: string)
    requires s == "testexample.com"
    ensures NoWhitespace(s) && IndexOf(s, '@') == -1
  {
    assert forall i :: 0 <= i < |s| ==> s[i] != '@';
  }

  /** With nothing after the `@` the address is refused. */
  lemma MissingDomainExample()
    ensures Create("test@") == Failure(InvalidFormatMessage)
  {
    var s := "test@";
    assert IndexOf(s, '@') == 4;
    CreateWithoutWhitespace(s);
  }

  /** With nothing before the `@` the address is refused. */
  lemma MissingLocalPartExample()
    ensures Create("@example.com") == Failure(InvalidFormatMessage)
  {
    var s := "@example.com";
    assert IndexOf(s, '@') == 0;
    CreateWithoutWhitespace(s);
  }

  /** Without a `.` in the domain the address is refused. */
  lemma MissingTopLevelDomainExample()
    ensures Create("test@example") == Failure(InvalidFormatMessage)
  {
    NoDotIn("test@example");
    CreateWithoutWhitespace("test@example");
  }

  lemma NoDotIn(s: string)
    requires s == "test@example"
    ensures NoWhitespace(s) && IndexOf(s, '@') == 4 && '.' !in s[6..11]
  {
    assert s[6..11] == "xampl";
  }

  /** A space inside the address is refused as a format error. */
  lemma InnerSpaceExample()
    ensures Create("test @example.com") == Failure(InvalidFormatMessage)
  {
    SpaceIn("test @example.com");
  }

  lemma SpaceIn(s: string)
    requires s == "test @example.com"
    ensures !IsBlank(s) && !MatchesEmailPattern(s)
  {
    assert IsWhitespace(s[4]);
    BlankIffAllWhitespace(s);
    assert !IsWhitespace(s[0]);
  }

  lemma BlankExamples()
    ensures Create("") == Failure(EmptyMessage)
    ensures Create("   ") == Failure(EmptyMessage)
  {
    BlankSamples();
  }

  /** Addresses that differ in more than case are not equal. */
  lemma DistinctExample(a: Email, b: Email)
    requires a == Email("test1@example.com") && b == Email("test2@example.com")
    ensures !a.Equals(b)
  {
    assert a.value[4] != b.value[4];
  }
}
