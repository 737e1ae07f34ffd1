/** Shared value helpers: an optional value, and the two string operations every
    lookup in the menu page applies to a key before using it, JavaScript's
    `toLowerCase()` followed by `trim()`. */
module Text {

  datatype Option<+T> = None | Some(value: T)

  datatype Result<+T, +E> = Success(value: T) | Failure(error: E)

  // ---- toLowerCase ----

  /** Capitals whose lower case is the character 32 code points above:
      ASCII A-Z and the Latin-1 capitals U+00C0..U+00DE except the
      multiplication sign U+00D7. */
  predicate IsShiftedUpper(c: char) {
    ('A' <= c <= 'Z') || ('\U{C0}' <= c <= '\U{DE}' && c != '\U{D7}')
  }

  /** Upper-case letters this model lower-cases: the shifted ones, and the
      four capitals outside Latin-1 whose lower case lies inside it: Y WITH
      DIAERESIS (to U+00FF), KELVIN SIGN (to "k"), ANGSTROM SIGN (to U+00E5)
      and CAPITAL SHARP S (to U+00DF). */
  predicate IsUpper(c: char) {
    IsShiftedUpper(c) || c == '\U{178}' || c == '\U{212A}' || c == '\U{212B}' || c == '\U{1E9E}'
  }

  function LowerChar(c: char): (d: char)
    ensures !IsUpper(d)
    ensures !IsUpper(c) ==> d == c
    ensures c == '\U{212A}' ==> d == 'k'
  {
    if IsShiftedUpper(c) then (c as int + 32) as char
    else if c == '\U{178}' then '\U{FF}'
    else if c == '\U{212A}' then 'k'
    else if c == '\U{212B}' then '\U{E5}'
    else if c == '\U{1E9E}' then '\U{DF}'
    else c
  }

  function Lower(s: string): (r: string)
    ensures |r| == |s|
    ensures forall i :: 0 <= i < |s| ==> r[i] == LowerChar(s[i])
  {
    if s == [] then [] else [LowerChar(s[0])] + Lower(s[1..])
  }

  predicate NoUpper(s: string) {
    forall i :: 0 <= i < |s| ==> !IsUpper(s[i])
  }

  // ---- trim ----

  /** The characters `String.prototype.trim` removes: WhiteSpace and
      LineTerminator of ECMA-262 (TAB, VT, FF, ZWNBSP, the Zs category, LF, CR,
      LS, PS). */
  predicate IsTrimmable(c: char) {
    c == '\t' || c == '\U{B}' || c == '\U{C}' || c == '\U{FEFF}'
    || c == ' ' || c == '\U{A0}' || c == '\U{1680}' || ('\U{2000}' <= c <= '\U{200A}')
    || c == '\U{202F}' || c == '\U{205F}' || c == '\U{3000}'
    || c == '\n' || c == '\r' || c == '\U{2028}' || c == '\U{2029}'
  }

  /** How many characters `trim` cuts from the front of `s`: the length of
      its longest trimmable prefix. */
  function Leading(s: string): (n: nat)
    ensures n <= |s|
    ensures forall i :: 0 <= i < n ==> IsTrimmable(s[i])
    ensures n == |s| || !IsTrimmable(s[n])
  {
    if s != [] && IsTrimmable(s[0]) then 1 + Leading(s[1..]) else 0
  }

  /** How many characters `trim` cuts from the back of `s`: the length of its
      longest trimmable suffix. */
  function Trailing(s: string): (n: nat)
    ensures n <= |s|
    ensures forall i :: |s| - n <= i < |s| ==> IsTrimmable(s[i])
    ensures n == |s| || !IsTrimmable(s[|s| - n - 1])
  {
    if s != [] && IsTrimmable(s[|s| - 1]) then 1 + Trailing(s[..|s| - 1]) else 0
  }

  /** `s.trim()`: the slice of `s` between its trimmable prefix and its
      trimmable suffix, which neither starts nor ends with a trimmable
      character; empty when `s` is all white space. */
  function Trim(s: string): (r: string)
    ensures |r| <= |s|
    ensures r == [] || (!IsTrimmable(r[0]) && !IsTrimmable(r[|r| - 1]))
    ensures r == [] <==> Leading(s) == |s|
    ensures r != [] ==> r == s[Leading(s)..|s| - Trailing(s)]
  {
    var i := Leading(s);
    if i == |s| then []
    else
      assert !IsTrimmable(s[i]);
      s[i..|s| - Trailing(s)]
  }

  /** The key normalisation `k.toLowerCase().trim()` used by every table lookup. */
  function Normalize(s: string): (n: string) {
    Trim(Lower(s))
  }

  /** `toLowerCase` leaves no upper-case letter behind. */
  lemma LowerHasNoUpper(s: string)
    ensures NoUpper(Lower(s))
  {
    var l := Lower(s);
    forall j | 0 <= j < |l| ensures !IsUpper(l[j]) {
      assert l[j] == LowerChar(s[j]);
    }
  }

  /** Trimming keeps a key free of upper-case letters. */
  lemma TrimKeepsNoUpper(s: string)
    requires NoUpper(s)
    ensures NoUpper(Trim(s))
  {
    var r := Trim(s);
    if r != [] {
      var i := Leading(s);
      forall j | 0 <= j < |r| ensures !IsUpper(r[j]) {
        assert r[j] == s[i + j];
      }
    }
  }

  /** A normalised key never holds an upper-case letter, so a table entry whose
      key has one can never be found through `Normalize`. */
  lemma NormalizeHasNoUpper(s: string)
    ensures NoUpper(Normalize(s))
  {
    LowerHasNoUpper(s);
    TrimKeepsNoUpper(Lower(s));
  }

  /** A key already in lower case with nothing to trim at either end is its
      own normal form. */
  lemma NormalizeFixesCleanKey(s: string)
    requires NoUpper(s)
    requires s == [] || (!IsTrimmable(s[0]) && !IsTrimmable(s[|s| - 1]))
    ensures Normalize(s) == s
  {
    assert Lower(s) == s;
    if s != [] {
      assert Leading(s) == 0 && Trailing(s) == 0;
      assert s[0..|s|] == s;
    }
  }

  /** A key spelled with KELVIN SIGN normalises like the same key spelled
      with "k", so it finds the same table entries. */
  lemma KelvinSignNormalizesToK(a: string, b: string)
    ensures Normalize(a + "\U{212A}" + b) == Normalize(a + "k" + b)
  {
    var x, y := a + "\U{212A}" + b, a + "k" + b;
    assert |x| == |y|;
    forall i | 0 <= i < |x| ensures Lower(x)[i] == Lower(y)[i] {
      if i != |a| {
        assert x[i] == y[i];
      }
    }
    assert Lower(x) == Lower(y);
  }

  /** Normalising twice is normalising once. */
  lemma NormalizeIdempotent(s: string)
    ensures Normalize(Normalize(s)) == Normalize(s)
  {
    NormalizeHasNoUpper(s);
    NormalizeFixesCleanKey(Normalize(s));
  }
}
