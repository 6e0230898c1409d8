/** The character-level operations the value objects rely on: JavaScript's
    `trim`, `toUpperCase`, `toLowerCase` and regular-expression character
    classes, restricted to ASCII. */
module Text {
  import opened Wrappers

  /** JavaScript `\s` on ASCII: space, tab, line feed, vertical tab, form feed
      and carriage return (code points 9 to 13). */
  predicate IsWhitespace(c: char) {
    c == ' ' || '\t' <= c <= '\r'
  }

  /** The regular-expression class `[0-9]` (also `\d`). */
  predicate IsDigit(c: char) {
    '0' <= c <= '9'
  }

  /** The regular-expression class `[A-Z]`. */
  predicate IsUpper(c: char) {
    'A' <= c <= 'Z'
  }

  predicate IsLower(c: char) {
    'a' <= c <= 'z'
  }

  /** The regular-expression class `[A-Z0-9]`. */
  predicate IsUpperAlphanumeric(c: char) {
    IsUpper(c) || IsDigit(c)
  }

  predicate AllDigits(s: string) {
    forall i :: 0 <= i < |s| ==> IsDigit(s[i])
  }

  predicate AllUpper(s: string) {
    forall i :: 0 <= i < |s| ==> IsUpper(s[i])
  }

  predicate NoWhitespace(s: string) {
    forall i :: 0 <= i < |s| ==> !IsWhitespace(s[i])
  }

  /** `parseInt` of a single decimal digit. */
  function DigitValue(c: char): (d: int)
    requires IsDigit(c)
    ensures 0 <= d <= 9
  {
    c as int - '0' as int
  }

  /** `toUpperCase` of one ASCII character. */
  function ToUpperChar(c: char): (u: char)
    ensures IsLower(c) ==> IsUpper(u)
    ensures !IsLower(c) ==> u == c
  {
    if IsLower(c) then (c as int - 32) as char else c
  }

  /** `toLowerCase` of one ASCII character. */
  function ToLowerChar(c: char): (l: char)
    ensures IsUpper(c) ==> IsLower(l)
    ensures !IsUpper(c) ==> l == c
  {
    if IsUpper(c) then (c as int + 32) as char else c
  }

  function ToUpper(s: string): (r: string)
    ensures |r| == |s|
    ensures forall i :: 0 <= i < |s| ==> r[i] == ToUpperChar(s[i])
  {
    seq(|s|, i requires 0 <= i < |s| => ToUpperChar(s[i]))
  }

  function ToLower(s: string): (r: string)
    ensures |r| == |s|
    ensures forall i :: 0 <= i < |s| ==> r[i] == ToLowerChar(s[i])
  {
    seq(|s|, i requires 0 <= i < |s| => ToLowerChar(s[i]))
  }

  /** Drops the leading whitespace: what remains is a suffix of `s` that
      does not start with whitespace, and everything dropped is whitespace. */
  function TrimStart(s: string): (r: string)
    ensures |r| <= |s| && r == s[|s| - |r|..]
    ensures |r| > 0 ==> !IsWhitespace(r[0])
    ensures forall i :: 0 <= i < |s| - |r| ==> IsWhitespace(s[i])
  {
    if |s| > 0 && IsWhitespace(s[0]) then TrimStart(s[1..]) else s
  }

  /** Drops the trailing whitespace. */
  function TrimEnd(s: string): (r: string)
    ensures |r| <= |s| && r == s[..|r|]
    ensures |r| > 0 ==> !IsWhitespace(r[|r| - 1])
    ensures forall i :: |r| <= i < |s| ==> IsWhitespace(s[i])
  {
    if |s| > 0 && IsWhitespace(s[|s| - 1]) then TrimEnd(s[..|s| - 1]) else s
  }

  /** `String.prototype.trim`. */
  function Trim(s: string): string {
    TrimEnd(TrimStart(s))
  }

  /** The guard `!value || value.trim() === ''` every value object opens with. */
  predicate IsBlank(s: string) {
    Trim(s) == ""
  }

  /** `s !== undefined && s !== null && s.trim() !== ''`: an optional text
      that is present and holds some character other than whitespace. */
  function HasText(s: Option<string>): (r: bool)
    ensures r <==> s.Some? && exists i :: 0 <= i < |s.value| && !IsWhitespace(s.value[i])
  {
    if s.None? then false
    else
      BlankIffAllWhitespace(s.value);
      !IsBlank(s.value)
  }

  /** A string is blank exactly when every character of it is whitespace. */
  lemma BlankIffAllWhitespace(s: string)
    ensures IsBlank(s) <==> forall i :: 0 <= i < |s| ==> IsWhitespace(s[i])
  {
    var t := TrimStart(s);
    if IsBlank(s) {
      assert t == "";
    } else {
      var r := TrimEnd(t);
      assert r[0] == s[|s| - |t|];
    }
  }

  /** A string that starts with a non-whitespace character is not blank. */
  lemma NotBlank(s: string)
    requires |s| > 0 && !IsWhitespace(s[0])
    ensures !IsBlank(s)
  {
    BlankIffAllWhitespace(s);
  }

  /** The empty string and three spaces, the blank inputs the test suites
      try, are both blank. */
  lemma BlankSamples()
    ensures IsBlank("") && IsBlank("   ")
  {
    BlankIffAllWhitespace("   ");
    assert IsBlank("");
  }

  /** Trimming a string that holds no whitespace leaves it as it is. */
  lemma TrimNoWhitespace(s: string)
    requires NoWhitespace(s)
    ensures Trim(s) == s
  {
    assert TrimStart(s) == s;
  }

  /** Case mapping neither creates nor removes whitespace. */
  lemma BlankIgnoresCase(s: string)
    ensures IsBlank(ToUpper(s)) == IsBlank(s)
    ensures IsBlank(ToLower(s)) == IsBlank(s)
  {
    BlankIffAllWhitespace(s);
    BlankIffAllWhitespace(ToUpper(s));
    BlankIffAllWhitespace(ToLower(s));
    forall i | 0 <= i < |s|
      ensures IsWhitespace(ToUpper(s)[i]) == IsWhitespace(s[i])
      ensures IsWhitespace(ToLower(s)[i]) == IsWhitespace(s[i])
    {
      WhitespaceIgnoresCase(s[i]);
    }
  }

  /** A string without whitespace keeps none after case mapping. */
  lemma NoWhitespaceIgnoresCase(s: string)
    requires NoWhitespace(s)
    ensures NoWhitespace(ToLower(s)) && NoWhitespace(ToUpper(s))
  {
    forall i | 0 <= i < |s|
      ensures !IsWhitespace(ToLower(s)[i]) && !IsWhitespace(ToUpper(s)[i])
    {
      WhitespaceIgnoresCase(s[i]);
    }
  }

  lemma WhitespaceIgnoresCase(c: char)
    ensures IsWhitespace(ToUpperChar(c)) == IsWhitespace(c)
    ensures IsWhitespace(ToLowerChar(c)) == IsWhitespace(c)
  {
  }

  lemma {:induction false} TrimStartAfterWhitespace(pre: string, t: string)
    requires forall i :: 0 <= i < |pre| ==> IsWhitespace(pre[i])
    ensures TrimStart(pre + t) == TrimStart(t)
  {
    if pre != [] {
      assert (pre + t)[1..] == pre[1..] + t;
      TrimStartAfterWhitespace(pre[1..], t);
    } else {
      assert pre + t == t;
    }
  }

  lemma {:induction false} TrimEndBeforeWhitespace(t: string, post: string)
    requires forall i :: 0 <= i < |post| ==> IsWhitespace(post[i])
    ensures TrimEnd(t + post) == TrimEnd(t)
  {
    if post != [] {
      var p := post[..|post| - 1];
      assert (t + post)[..|t + post| - 1] == t + p;
      TrimEndBeforeWhitespace(t, p);
    } else {
      assert t + post == t;
    }
  }

  /** Trimming removes exactly the whitespace padding around a word that
      neither starts nor ends with whitespace. */
  lemma TrimAround(pre: string, s: string, post: string)
    requires forall i :: 0 <= i < |pre| ==> IsWhitespace(pre[i])
    requires forall i :: 0 <= i < |post| ==> IsWhitespace(post[i])
    requires |s| > 0 && !IsWhitespace(s[0]) && !IsWhitespace(s[|s| - 1])
    ensures Trim(pre + s + post) == s
  {
    TrimStartAfterWhitespace(pre, s + post);
    assert pre + s + post == pre + (s + post);
    assert TrimStart(s + post) == s + post;
    TrimEndBeforeWhitespace(s, post);
  }

  /** Trimming keeps every character that is not whitespace, shifted left
      by the length of the leading padding. */
  lemma TrimKeeps(s: string, i: nat)
    requires i < |s| && !IsWhitespace(s[i])
    ensures var k := |s| - |TrimStart(s)|;
      k <= i && i - k < |Trim(s)| && Trim(s)[i - k] == s[i]
  {
  }

  /** JavaScript's `substring(start, end)`: both bounds are clamped to the
      string, and swapped when the first exceeds the second. */
  function Substring(s: string, start: int, end: int): (r: string)
    ensures 0 <= start <= end <= |s| ==> r == s[start..end]
    ensures 0 <= end <= start <= |s| ==> r == s[end..start]
  {
    var a := if start < 0 then 0 else if start > |s| then |s| else start;
    var b := if end < 0 then 0 else if end > |s| then |s| else end;
    if a <= b then s[a..b] else s[b..a]
  }

  /** The characters of `s` that satisfy `keep`, in order: the model of
      `s.replace(/[^...]/g, '')`. */
  function Keep(s: string, keep: char -> bool): (r: string)
    ensures |r| <= |s|
    ensures forall i :: 0 <= i < |r| ==> keep(r[i])
  {
    if s == [] then [] else (if keep(s[0]) then [s[0]] else []) + Keep(s[1..], keep)
  }

  lemma {:induction false} KeepConcat(a: string, b: string, keep: char -> bool)
    ensures Keep(a + b, keep) == Keep(a, keep) + Keep(b, keep)
  {
    if a != [] {
      assert (a + b)[1..] == a[1..] + b;
      KeepConcat(a[1..], b, keep);
    } else {
      assert a + b == b;
    }
  }

  lemma {:induction false} KeepAll(s: string, keep: char -> bool)
    requires forall i :: 0 <= i < |s| ==> keep(s[i])
    ensures Keep(s, keep) == s
  {
    if s != [] {
      KeepAll(s[1..], keep);
    }
  }

  lemma {:induction false} KeepNone(s: string, keep: char -> bool)
    requires forall i :: 0 <= i < |s| ==> !keep(s[i])
    ensures Keep(s, keep) == ""
  {
    if s != [] {
      KeepNone(s[1..], keep);
    }
  }

  /** Filtering twice keeps the same characters as filtering once. */
  lemma {:induction false} KeepIsIdempotent(s: string, keep: char -> bool)
    ensures Keep(Keep(s, keep), keep) == Keep(s, keep)
  {
    KeepAll(Keep(s, keep), keep);
  }
}
