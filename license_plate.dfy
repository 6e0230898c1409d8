/** The Brazilian licence plate, in the old `ABC1234` layout or the Mercosur
    `ABC1D23` layout, held upper-cased without separators. */
module LicensePlates {
  import opened Wrappers
  import opened Text

  const EmptyMessage := "License plate cannot be empty"
  const FormatMessage := "Invalid license plate format. Expected ABC1234 or ABC1D23"

  /** `toUpperCase().replace(/[^A-Z0-9]/g, '')`. */
  function Clean(s: string): (r: string)
    ensures forall i :: 0 <= i < |r| ==> IsUpperAlphanumeric(r[i])
  {
    Keep(ToUpper(s), IsUpperAlphanumeric)
  }

  /** `/^[A-Z]{3}[0-9]{4}$/`. */
  predicate IsOldFormat(c: string) {
    |c| == 7 && AllUpper(c[..3]) && AllDigits(c[3..])
  }

  /** `/^[A-Z]{3}[0-9][A-Z][0-9]{2}$/`. */
  predicate IsMercosurFormat(c: string) {
    |c| == 7 && AllUpper(c[..3]) && IsDigit(c[3]) && IsUpper(c[4]) && IsDigit(c[5]) && IsDigit(c[6])
  }

  /** A plate as stored. */
  datatype LicensePlate = LicensePlate(value: string) {

    /** What every instance satisfies, since only `Create` builds one. */
    ghost predicate Valid() {
      IsOldFormat(value) || IsMercosurFormat(value)
    }

    /** The `clean` getter. */
    function Clean(): string {
      value
    }

    /** `ABC-1234` for the old layout; a Mercosur plate as it is. */
    function Formatted(): string {
      if IsOldFormat(value) then value[..3] + "-" + value[3..] else value
    }

    /** Same stored plate means the same value object. */
    function Equals(other: LicensePlate): (r: bool)
      ensures r <==> this == other
    {
      value == other.value
    }

    function ToString(): string {
      Formatted()
    }
  }

  /** The private constructor: cleans its argument again. */
  function Make(value: string): (p: LicensePlate)
    ensures (forall i :: 0 <= i < |value| ==> IsUpperAlphanumeric(value[i])) ==> p.value == value
  {
    assert (forall i :: 0 <= i < |value| ==> IsUpperAlphanumeric(value[i])) ==> Clean(value) == value by {
      if forall i :: 0 <= i < |value| ==> IsUpperAlphanumeric(value[i]) {
        CleanOfClean(value);
      }
    }
    LicensePlate(Clean(value))
  }

  /** Upper-casing distributes over concatenation. */
  lemma ToUpperConcat(a: string, b: string)
    ensures ToUpper(a + b) == ToUpper(a) + ToUpper(b)
  {
    assert forall i :: 0 <= i < |a + b| ==> ToUpper(a + b)[i] == (ToUpper(a) + ToUpper(b))[i];
  }

  /** A string of capitals and digits is its own clean form. */
  lemma CleanOfClean(s: string)
    requires forall i :: 0 <= i < |s| ==> IsUpperAlphanumeric(s[i])
    ensures Clean(s) == s
  {
    assert ToUpper(s) == s;
    KeepAll(s, IsUpperAlphanumeric);
  }

  /** Cleaning twice is cleaning once. */
  lemma CleanIsIdempotent(s: string)
    ensures Clean(Clean(s)) == Clean(s)
  {
    CleanOfClean(Clean(s));
  }

  /** `LicensePlate.create`. */
  function Create(plate: string): (r: Result<LicensePlate, string>)
    ensures IsBlank(plate) ==> r == Failure(EmptyMessage)
    ensures !IsBlank(plate) ==>
              (r.Success? <==> IsOldFormat(Clean(plate)) || IsMercosurFormat(Clean(plate)))
    ensures !IsBlank(plate) && r.Failure? ==> r.error == FormatMessage
    ensures r.Success? ==> r.value.Valid() && r.value.Clean() == Clean(plate)
  {
    if IsBlank(plate) then Failure(EmptyMessage)
    else
      var clean := Clean(plate);
      if !IsOldFormat(clean) && !IsMercosurFormat(clean) then Failure(FormatMessage)
      else
        CleanIsIdempotent(plate);
        Success(Make(clean))
  }

  // ---------------------------------------------------------------------
  // Properties

  /** No plate fits both layouts: the fifth character decides. */
  lemma FormatsDisjoint(c: string)
    ensures !(IsOldFormat(c) && IsMercosurFormat(c))
  {
    if IsOldFormat(c) {
      assert c[3..][1] == c[4];
    }
  }

  /** A plate in either layout is seven capitals and digits. */
  lemma ValidPlateShape(p: LicensePlate)
    requires p.Valid()
    ensures |p.value| == 7 && forall i :: 0 <= i < 7 ==> IsUpperAlphanumeric(p.value[i])
  {
    var c := p.value;
    forall i | 0 <= i < 7
      ensures IsUpperAlphanumeric(c[i])
    {
      if i < 3 {
        assert c[..3][i] == c[i];
      } else if IsOldFormat(c) {
        assert c[3..][i - 3] == c[i];
      }
    }
  }

  /** A created plate has seven capitals and digits, three letters first,
      and is in exactly one of the two layouts. */
  lemma CreatedShape(s: string)
    requires Create(s).Success?
    ensures var c := Create(s).value.Clean();
      |c| == 7 && AllUpper(c[..3]) && IsDigit(c[3]) && IsDigit(c[5]) && IsDigit(c[6])
    ensures var c := Create(s).value.Clean();
      IsOldFormat(c) != IsMercosurFormat(c)
  {
    var c := Create(s).value.Clean();
    FormatsDisjoint(c);
    if IsOldFormat(c) {
      assert c[3..][0] == c[3] && c[3..][2] == c[5] && c[3..][3] == c[6];
    }
  }

  /** Case, spaces and separators do not matter: inputs with the same clean
      form create the same plate or fail alike (unless one is blank). */
  lemma CreateIgnoresCaseAndSeparators(a: string, b: string)
    requires Clean(a) == Clean(b) && !IsBlank(a) && !IsBlank(b)
    ensures Create(a) == Create(b)
  {
  }

  /** Two created plates are `equals` exactly when their inputs clean to the
      same text. */
  lemma EqualsIffSameClean(a: string, b: string)
    requires Create(a).Success? && Create(b).Success?
    ensures Create(a).value.Equals(Create(b).value) <==> Clean(a) == Clean(b)
  {
  }

  /** The old layout gains one hyphen after the letters; removing it gives
      the plate back. A Mercosur plate is shown as stored. */
  lemma FormattedShape(p: LicensePlate)
    requires p.Valid()
    ensures IsOldFormat(p.value) ==>
              |p.Formatted()| == 8 && p.Formatted()[3] == '-'
              && p.Formatted()[..3] + p.Formatted()[4..] == p.value
    ensures IsMercosurFormat(p.value) ==> p.Formatted() == p.value
  {
    FormatsDisjoint(p.value);
    if IsOldFormat(p.value) {
      var f := p.Formatted();
      assert f[..3] == p.value[..3] && f[4..] == p.value[3..];
      assert p.value[..3] + p.value[3..] == p.value;
    }
  }

  /** Cleaning works piece by piece. */
  lemma CleanConcat(a: string, b: string)
    ensures Clean(a + b) == Clean(a) + Clean(b)
  {
    ToUpperConcat(a, b);
    KeepConcat(ToUpper(a), ToUpper(b), IsUpperAlphanumeric);
  }

  /** A hyphen between two pieces is cleaned away. */
  lemma CleanAroundHyphen(a: string, b: string)
    ensures Clean(a + "-" + b) == Clean(a) + Clean(b)
  {
    ToUpperConcat(a + "-", b);
    ToUpperConcat(a, "-");
    assert ToUpper("-") == "-";
    KeepConcat(ToUpper(a) + "-", ToUpper(b), IsUpperAlphanumeric);
    KeepConcat(ToUpper(a), "-", IsUpperAlphanumeric);
    KeepNone("-", IsUpperAlphanumeric);
  }

  /** Cleaning `formatted` gives back the stored plate. */
  lemma CleanOfFormatted(p: LicensePlate)
    requires p.Valid()
    ensures Clean(p.Formatted()) == p.value
  {
    var v := p.value;
    CleanOfClean(v);
    if IsOldFormat(v) {
      CleanAroundHyphen(v[..3], v[3..]);
      CleanOfClean(v[..3]);
      CleanOfClean(v[3..]);
      assert v[..3] + v[3..] == v;
    }
  }

  /** Creating from `formatted` (hence from `toString`) gives back the same
      plate. */
  lemma FormattedRoundTrip(p: LicensePlate)
    requires p.Valid()
    ensures Create(p.Formatted()) == Success(p)
    ensures Create(p.ToString()) == Success(p)
  {
    var f := p.Formatted();
    CleanOfFormatted(p);
    assert !IsBlank(f) by {
      BlankIffAllWhitespace(f);
      assert !IsWhitespace(f[0]);
    }
  }

  /** On a non-empty string of capitals and digits only the two layouts
      decide. */
  lemma CreateFromClean(s: string)
    requires |s| > 0 && forall i :: 0 <= i < |s| ==> IsUpperAlphanumeric(s[i])
    ensures Create(s) ==
      if IsOldFormat(s) || IsMercosurFormat(s) then Success(LicensePlate(s)) else Failure(FormatMessage)
  {
    CleanOfClean(s);
    BlankIffAllWhitespace(s);
    assert !IsWhitespace(s[0]);
  }
}
