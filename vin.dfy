/** The vehicle identification number: seventeen capitals and digits, with
    the letters I, O and Q excluded. */
module Vins {
  import opened Wrappers
  import opened Text

  const EmptyMessage := "VIN cannot be empty"
  const LengthMessage := "VIN must be exactly 17 characters"
  const ForbiddenLetterMessage := "VIN cannot contain letters I, O, or Q"
  const AlphabetMessage := "VIN must contain only alphanumeric characters (excluding I, O, Q)"

  predicate IsForbiddenLetter(c: char) {
    c == 'I' || c == 'O' || c == 'Q'
  }

  /** The regular-expression class `[A-HJ-NPR-Z0-9]`. */
  predicate IsVinChar(c: char) {
    IsUpperAlphanumeric(c) && !IsForbiddenLetter(c)
  }

  /** `/[IOQ]/.test(s)`. */
  predicate HasForbiddenLetter(s: string) {
    exists i :: 0 <= i < |s| && IsForbiddenLetter(s[i])
  }

  /** `/^[A-HJ-NPR-Z0-9]{17}$/.test(s)`. */
  predicate IsVinShaped(s: string) {
    |s| == 17 && forall i :: 0 <= i < |s| ==> IsVinChar(s[i])
  }

  /** `toUpperCase().trim()`: empty exactly for a blank input, and never
      starting or ending with whitespace. */
  function Clean(s: string): (r: string)
    ensures r == "" <==> IsBlank(s)
    ensures |r| > 0 ==> !IsWhitespace(r[0]) && !IsWhitespace(r[|r| - 1])
  {
    BlankIgnoresCase(s);
    Trim(ToUpper(s))
  }

  /** A VIN as stored. */
  datatype Vin = Vin(value: string) {

    /** What every instance satisfies, since only `Create` builds one. */
    ghost predicate Valid() {
      IsVinShaped(value)
    }

    /** The `clean` getter. */
    function Clean(): string {
      value
    }

    /** The world manufacturer, descriptor and identifier sections joined by
        hyphens. */
    function Formatted(): string {
      Substring(value, 0, 3) + "-" + Substring(value, 3, 9) + "-" + Substring(value, 9, |value|)
    }

    /** Same stored VIN means the same value object. */
    function Equals(other: Vin): (r: bool)
      ensures r <==> this == other
    {
      value == other.value
    }

    function ToString(): string {
      value
    }
  }

  /** The private constructor: upper-cases and trims again. */
  function Make(value: string): (v: Vin)
    ensures IsVinShaped(value) ==> v.value == value
  {
    assert IsVinShaped(value) ==> Clean(value) == value by {
      if IsVinShaped(value) {
        CleanOfVinShaped(value);
      }
    }
    Vin(Clean(value))
  }

  /** A VIN-shaped string is its own clean form. */
  lemma CleanOfVinShaped(s: string)
    requires IsVinShaped(s)
    ensures Clean(s) == s
  {
    assert ToUpper(s) == s;
    TrimNoWhitespace(s);
  }

  /** `Vin.create`: the checks run in this order, each with its own error. */
  function Create(vin: string): (r: Result<Vin, string>)
    ensures IsBlank(vin) ==> r == Failure(EmptyMessage)
    ensures !IsBlank(vin) && |Clean(vin)| != 17 ==> r == Failure(LengthMessage)
    ensures !IsBlank(vin) && |Clean(vin)| == 17 && HasForbiddenLetter(Clean(vin)) ==>
              r == Failure(ForbiddenLetterMessage)
    ensures !IsBlank(vin) && |Clean(vin)| == 17 && !HasForbiddenLetter(Clean(vin)) ==>
              r == if IsVinShaped(Clean(vin)) then Success(Vin(Clean(vin))) else Failure(AlphabetMessage)
    ensures r.Success? ==> r.value.Valid()
  {
    if IsBlank(vin) then Failure(EmptyMessage)
    else
      var clean := Clean(vin);
      if |clean| != 17 then Failure(LengthMessage)
      else if HasForbiddenLetter(clean) then Failure(ForbiddenLetterMessage)
      else if !IsVinShaped(clean) then Failure(AlphabetMessage)
      else
        CleanOfVinShaped(clean);
        Success(Make(clean))
  }

  // ---------------------------------------------------------------------
  // Properties

  /** A created VIN is seventeen capitals and digits without I, O or Q,
      and is its own clean form. */
  lemma CreatedShape(s: string)
    requires Create(s).Success?
    ensures var v := Create(s).value.Clean();
      |v| == 17 && !HasForbiddenLetter(v)
      && (forall i :: 0 <= i < 17 ==> IsUpperAlphanumeric(v[i]))
      && Clean(v) == v
  {
    CleanOfVinShaped(Create(s).value.Clean());
  }

  /** Lower-case i, o and q are upper-cased first, so they are refused as
      forbidden letters too. */
  lemma LowerCaseForbiddenLettersRejected(s: string, i: nat)
    requires !IsBlank(s) && |Clean(s)| == 17
    requires i < |s| && (s[i] == 'i' || s[i] == 'o' || s[i] == 'q')
    ensures Create(s) == Failure(ForbiddenLetterMessage)
  {
    ForbiddenLetterSurvivesClean(s, i);
  }

  /** A lower-case i, o or q becomes a forbidden capital that trimming keeps. */
  lemma ForbiddenLetterSurvivesClean(s: string, i: nat)
    requires i < |s| && (s[i] == 'i' || s[i] == 'o' || s[i] == 'q')
    ensures HasForbiddenLetter(Clean(s))
  {
    var u := ToUpper(s);
    assert IsForbiddenLetter(u[i]) by {
      assert u[i] == ToUpperChar(s[i]);
    }
    ForbiddenLetterSurvivesTrim(u, i);
  }

  /** Trimming only drops whitespace, so a forbidden letter stays. */
  lemma ForbiddenLetterSurvivesTrim(u: string, i: nat)
    requires i < |u| && IsForbiddenLetter(u[i])
    ensures HasForbiddenLetter(Trim(u))
  {
    TrimKeeps(u, i);
    var j := |u| - |TrimStart(u)|;
    assert IsForbiddenLetter(Trim(u)[i - j]);
  }

  /** Case and surrounding whitespace do not matter. */
  lemma CreateIgnoresCaseAndPadding(a: string, b: string)
    requires Clean(a) == Clean(b) && !IsBlank(a) && !IsBlank(b)
    ensures Create(a) == Create(b)
  {
  }

  /** Two created VINs are `equals` exactly when their inputs clean to the
      same text. */
  lemma EqualsIffSameClean(a: string, b: string)
    requires Create(a).Success? && Create(b).Success?
    ensures Create(a).value.Equals(Create(b).value) <==> Clean(a) == Clean(b)
  {
  }

  /** Creating from `toString` gives back the same VIN. */
  lemma ToStringRoundTrip(v: Vin)
    requires v.Valid()
    ensures Create(v.ToString()) == Success(v)
  {
    CleanOfVinShaped(v.value);
    assert !IsBlank(v.value) by {
      BlankIffAllWhitespace(v.value);
      assert !IsWhitespace(v.value[0]);
    }
  }

  /** `formatted` has nineteen characters, hyphens at 3 and 10, and drops
      back to the VIN when they are removed. */
  lemma FormattedShape(v: Vin)
    requires v.Valid()
    ensures var f := v.Formatted();
      |f| == 19 && f[3] == '-' && f[10] == '-'
      && f[..3] + f[4..10] + f[11..] == v.value
  {
    var w := v.value;
    var f := v.Formatted();
    assert f == w[..3] + "-" + w[3..9] + "-" + w[9..];
    assert f[..3] == w[..3] && f[4..10] == w[3..9] && f[11..] == w[9..];
    assert w[..3] + w[3..9] + w[9..] == w;
  }

  /** `formatted` is a display form only: creating from it fails on the
      length. */
  lemma FormattedNotAccepted(v: Vin)
    requires v.Valid()
    ensures Create(v.Formatted()) == Failure(LengthMessage)
  {
    FormattedShape(v);
    var f := v.Formatted();
    assert NoWhitespace(f) by {
      forall i | 0 <= i < 19
        ensures !IsWhitespace(f[i])
      {
        if i < 3 {
          assert f[i] == f[..3][i];
        } else if 3 < i < 10 {
          assert f[i] == f[4..10][i - 4];
        } else if i > 10 {
          assert f[i] == f[11..][i - 11];
        }
      }
    }
    assert forall i :: 0 <= i < 19 ==> !IsLower(f[i]);
    assert ToUpper(f) == f;
    TrimNoWhitespace(f);
    BlankIffAllWhitespace(f);
    assert !IsWhitespace(f[0]);
  }

  /** On a non-blank string that needs no cleaning only the three checks
      decide. */
  lemma CreateFromClean(s: string)
    requires |s| > 0 && Clean(s) == s && !IsWhitespace(s[0])
    ensures Create(s) ==
      if |s| != 17 then Failure(LengthMessage)
      else if HasForbiddenLetter(s) then Failure(ForbiddenLetterMessage)
      else if IsVinShaped(s) then Success(Vin(s))
      else Failure(AlphabetMessage)
  {
    BlankIffAllWhitespace(s);
  }
}
