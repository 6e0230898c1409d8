/** The client's e-mail address, held lower-cased. */
module Emails {
  import opened Wrappers
  import opened Text

  const EmptyMessage := "Email cannot be empty"
  const InvalidFormatMessage := "Invalid email format"

  /** The meaning of `/^[^\s@]+@[^\s@]+\.[^\s@]+$/`: no whitespace, exactly
      one `@` with something before it, and after it a `.` with something on
      each side. */
  predicate MatchesEmailPattern(s: string) {
    && NoWhitespace(s)
    && exists at, dot :: 0 < at < |s| && at + 1 < dot < |s| - 1 && s[at] == '@' && s[dot] == '.'
         && forall i :: 0 <= i < |s| && i != at ==> s[i] != '@'
  }

  /** The first index of `c` in `s`, or -1. */
  function IndexOf(s: string, c: char): (r: int)
    ensures -1 <= r < |s|
    ensures r == -1 <==> c !in s
    ensures r >= 0 ==> s[r] == c && c !in s[..r]
  {
    if s == [] then -1
    else if s[0] == c then 0
    else
      var k := IndexOf(s[1..], c);
      if k == -1 then -1 else k + 1
  }

  /** The pattern checked piecewise: no whitespace, the first `@` is not at
      the start, no `@` follows it, and a `.` sits strictly inside what does. */
  predicate IsWellFormedEmail(s: string) {
    var at := IndexOf(s, '@');
    && NoWhitespace(s)
    && 0 < at
    && '@' !in s[at + 1..]
    && at + 2 <= |s| - 1
    && '.' in s[at + 2..|s| - 1]
  }

  /** The piecewise check accepts exactly the strings the pattern matches. */
  lemma WellFormedIffMatches(s: string)
    ensures IsWellFormedEmail(s) <==> MatchesEmailPattern(s)
  {
    var at := IndexOf(s, '@');
    if IsWellFormedEmail(s) {
      var tail := s[at + 2..|s| - 1];
      var j :| 0 <= j < |tail| && tail[j] == '.';
      var dot := at + 2 + j;
      assert s[dot] == '.';
      forall i | 0 <= i < |s| && i != at
        ensures s[i] != '@'
      {
        if i < at {
          assert s[..at][i] == s[i];
        } else {
          assert s[at + 1..][i - at - 1] == s[i];
        }
      }
    }
    if MatchesEmailPattern(s) {
      var a, dot :| 0 < a < |s| && a + 1 < dot < |s| - 1 && s[a] == '@' && s[dot] == '.'
         && forall i :: 0 <= i < |s| && i != a ==> s[i] != '@';
      assert at == a;
      assert s[at + 2..|s| - 1][dot - at - 2] == '.';
    }
  }

  /** Lower-casing leaves `@`, `.` and whitespace where they were. */
  lemma MatchesIgnoresCase(s: string)
    ensures MatchesEmailPattern(ToLower(s)) == MatchesEmailPattern(s)
  {
    var l := ToLower(s);
    assert forall i :: 0 <= i < |s| ==> (l[i] == '@' <==> s[i] == '@');
    assert forall i :: 0 <= i < |s| ==> (l[i] == '.' <==> s[i] == '.');
    assert forall i :: 0 <= i < |s| ==> (IsWhitespace(l[i]) <==> IsWhitespace(s[i]));
    if MatchesEmailPattern(s) {
      var at, dot :| 0 < at < |s| && at + 1 < dot < |s| - 1 && s[at] == '@' && s[dot] == '.'
         && forall i :: 0 <= i < |s| && i != at ==> s[i] != '@';
      assert l[at] == '@' && l[dot] == '.';
    }
    if MatchesEmailPattern(l) {
      var at, dot :| 0 < at < |l| && at + 1 < dot < |l| - 1 && l[at] == '@' && l[dot] == '.'
         && forall i :: 0 <= i < |l| && i != at ==> l[i] != '@';
      assert s[at] == '@' && s[dot] == '.';
    }
  }

  lemma ToLowerIsIdempotent(s: string)
    ensures ToLower(ToLower(s)) == ToLower(s)
  {
  }

  /** An address as stored. */
  datatype Email = Email(value: string) {

    /** What every instance satisfies, since only `Create` builds one. */
    ghost predicate Valid() {
      MatchesEmailPattern(value) && ToLower(value) == value
    }

    /** The `normalized` getter. */
    function Normalized(): string {
      value
    }

    /** The `value` getter. */
    function Value(): string {
      value
    }

    /** Same stored address means the same value object. */
    function Equals(other: Email): (r: bool)
      ensures r <==> this == other
    {
      value == other.value
    }

    function ToString(): string {
      value
    }
  }

  /** The private constructor: lower-cases, then trims. */
  function Make(value: string): (e: Email)
    ensures NoWhitespace(value) ==> e.value == ToLower(value)
  {
    assert NoWhitespace(value) ==> Trim(ToLower(value)) == ToLower(value) by {
      if NoWhitespace(value) {
        NoWhitespaceIgnoresCase(value);
        TrimNoWhitespace(ToLower(value));
      }
    }
    Email(Trim(ToLower(value)))
  }

  /** `Email.create`. */
  function Create(email: string): (r: Result<Email, string>)
    ensures IsBlank(email) ==> r == Failure(EmptyMessage)
    ensures !IsBlank(email) && !MatchesEmailPattern(email) ==> r == Failure(InvalidFormatMessage)
    ensures !IsBlank(email) && MatchesEmailPattern(email) ==> r == Success(Email(ToLower(email)))
    ensures r.Success? ==> r.value.Valid()
  {
    WellFormedIffMatches(email);
    if IsBlank(email) then Failure(EmptyMessage)
    else if !IsWellFormedEmail(email) then Failure(InvalidFormatMessage)
    else
      MatchesIgnoresCase(email);
      ToLowerIsIdempotent(email);
      TrimNoWhitespace(ToLower(email));
      Success(Make(email))
  }

  /** All three getters give the lower-cased input, which has no whitespace
      and matches the pattern. */
  lemma CreatedEmailShape(s: string)
    requires Create(s).Success?
    ensures var e := Create(s).value;
      && e.Normalized() == e.Value() == e.ToString() == ToLower(s)
      && NoWhitespace(e.Value()) && MatchesEmailPattern(e.Value())
  {
  }

  /** Addresses differing only in letter case create the same value. */
  lemma CreateIgnoresCase(a: string, b: string)
    requires ToLower(a) == ToLower(b)
    ensures Create(a) == Create(b)
  {
    BlankIgnoresCase(a);
    BlankIgnoresCase(b);
    MatchesIgnoresCase(a);
    MatchesIgnoresCase(b);
  }

  /** Two created addresses are `equals` exactly when they agree up to
      letter case. */
  lemma EqualsIffSameLowercase(a: string, b: string)
    requires Create(a).Success? && Create(b).Success?
    ensures Create(a).value.Equals(Create(b).value) <==> ToLower(a) == ToLower(b)
  {
  }

  /** Creating from `toString` gives back the same value. */
  lemma ToStringRoundTrip(e: Email)
    requires e.Valid()
    ensures Create(e.ToString()) == Success(e)
  {
    var v := e.value;
    assert !IsBlank(v) by {
      BlankIffAllWhitespace(v);
      assert !IsWhitespace(v[0]);
    }
  }

  /** On input without whitespace only the piecewise check decides. */
  lemma CreateWithoutWhitespace(s: string)
    requires |s| > 0 && NoWhitespace(s)
    ensures Create(s) == if IsWellFormedEmail(s) then Success(Email(ToLower(s))) else Failure(InvalidFormatMessage)
  {
    BlankIffAllWhitespace(s);
    assert !IsWhitespace(s[0]);
    WellFormedIffMatches(s);
  }
}
