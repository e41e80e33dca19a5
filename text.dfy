/**
 * The string operations the widget and the relay rely on: JavaScript's
 * `String.prototype.trim`, lower-casing, a regular expression made of plain
 * alternatives (a substring test), and the decimal rendering of a
 * millisecond clock value.
 */
module Text {

  /** The WhiteSpace and LineTerminator code points that `trim` removes. */
  predicate IsSpace(c: char) {
    || c == '\t' || c == '\n' || c == '\U{000B}' || c == '\U{000C}' || c == '\r'
    || c == ' ' || c == '\U{00A0}' || c == '\U{1680}'
    || ('\U{2000}' <= c <= '\U{200A}')
    || c == '\U{2028}' || c == '\U{2029}' || c == '\U{202F}' || c == '\U{205F}'
    || c == '\U{3000}' || c == '\U{FEFF}'
  }

  /** Every character of `s` at a position in [lo, hi) is white space. */
  predicate SpaceBetween(s: string, lo: int, hi: int) {
    forall j :: lo <= j < hi && 0 <= j < |s| ==> IsSpace(s[j])
  }

  /** The first position at or after `i` that does not hold white space, or `|s|`. */
  function SkipSpace(s: string, i: nat): (k: nat)
    requires i <= |s|
    ensures i <= k <= |s| && SpaceBetween(s, i, k)
    ensures k == |s| || !IsSpace(s[k])
    decreases |s| - i
  {
    if i < |s| && IsSpace(s[i]) then SkipSpace(s, i + 1) else i
  }

  /** The end of `s[lo..j]` once its trailing white space is cut away. */
  function SkipSpaceBack(s: string, lo: nat, j: nat): (k: nat)
    requires lo <= j <= |s|
    ensures lo <= k <= j && SpaceBetween(s, k, j)
    ensures k == lo || !IsSpace(s[k - 1])
  {
    if lo < j && IsSpace(s[j - 1]) then SkipSpaceBack(s, lo, j - 1) else j
  }

  /**
   * `s.trim()`: the result is the stretch of `s` left once the white space
   * at both ends is cut away. It has no white space at either end, and it
   * is empty exactly when `s` holds nothing but white space.
   */
  function Trim(s: string): (r: string)
    ensures |r| <= |s|
    ensures exists i :: 0 <= i <= |s| - |r| && r == s[i..i + |r|] && SpaceBetween(s, 0, i) && SpaceBetween(s, i + |r|, |s|)
    ensures r == [] || (!IsSpace(r[0]) && !IsSpace(r[|r| - 1]))
    ensures r == [] <==> SpaceBetween(s, 0, |s|)
  {
    var i := SkipSpace(s, 0);
    var j := SkipSpaceBack(s, i, |s|);
    assert i < |s| ==> !IsSpace(s[i]);
    s[i..j]
  }

  /**
   * The trim is determined by where the white space is: a stretch `s[i..j]`
   * with only white space before and after it, and none at either of its
   * own ends, is `Trim(s)`.
   */
  lemma TrimUnique(s: string, i: nat, j: nat)
    requires i <= j <= |s| && SpaceBetween(s, 0, i) && SpaceBetween(s, j, |s|)
    requires i < j ==> !IsSpace(s[i]) && !IsSpace(s[j - 1])
    ensures Trim(s) == s[i..j]
  {
    var k := SkipSpace(s, 0);
    var m := SkipSpaceBack(s, k, |s|);
    if i < j {
      assert k == i;
      assert m == j;
    } else {
      assert SpaceBetween(s, 0, |s|);
    }
  }

  /** A string that neither starts nor ends with white space is its own trim. */
  lemma TrimKeeps(s: string)
    requires s == [] || (!IsSpace(s[0]) && !IsSpace(s[|s| - 1]))
    ensures Trim(s) == s
  {
    TrimUnique(s, 0, |s|);
  }

  /** Trimming a trimmed string changes nothing. */
  lemma TrimIdempotent(s: string)
    ensures Trim(Trim(s)) == Trim(s)
  {
    TrimKeeps(Trim(s));
  }

  predicate IsUpperAscii(c: char) {
    'A' <= c <= 'Z'
  }

  function LowerChar(c: char): char {
    if IsUpperAscii(c) then (c as int + 32) as char else c
  }

  /**
   * `s.toLowerCase()` restricted to ASCII: every upper-case Latin letter is
   * mapped to its lower-case form and every other character is kept.
   */
  function ToLower(s: string): (r: string)
    ensures |r| == |s|
    ensures forall i :: 0 <= i < |s| ==> !IsUpperAscii(r[i])
    ensures forall i :: 0 <= i < |s| && !IsUpperAscii(s[i]) ==> r[i] == s[i]
    ensures forall i :: 0 <= i < |s| && IsUpperAscii(s[i]) ==> r[i] as int == s[i] as int + 32
  {
    if s == [] then [] else [LowerChar(s[0])] + ToLower(s[1..])
  }

  /** Lower-casing changes nothing in a string without upper-case ASCII letters. */
  lemma ToLowerKeeps(s: string)
    requires forall i :: 0 <= i < |s| ==> !IsUpperAscii(s[i])
    ensures ToLower(s) == s
  {
  }

  /** Lower-casing neither creates nor removes white space at a position. */
  lemma ToLowerSpace(s: string, k: nat)
    requires k < |s|
    ensures IsSpace(ToLower(s)[k]) <==> IsSpace(s[k])
  {
    var c, d := s[k], ToLower(s)[k];
    if IsUpperAscii(c) {
      assert d as int == c as int + 32;
      LetterNotSpace(c);
      LetterNotSpace(d);
    }
  }

  /** No ASCII letter is white space. */
  lemma LetterNotSpace(c: char)
    requires 'A' as int <= c as int <= 'Z' as int || 'a' as int <= c as int <= 'z' as int
    ensures !IsSpace(c)
  {
  }

  /** Lower-casing keeps a run of white space. */
  lemma ToLowerSpaceBetween(s: string, lo: nat, hi: nat)
    requires SpaceBetween(s, lo, hi)
    ensures SpaceBetween(ToLower(s), lo, hi)
  {
    forall k | lo <= k < hi && 0 <= k < |s| ensures IsSpace(ToLower(s)[k]) {
      ToLowerSpace(s, k);
    }
  }

  /** Lower-casing a slice is slicing the lower-cased string. */
  lemma ToLowerSlice(s: string, i: nat, j: nat)
    requires i <= j <= |s|
    ensures ToLower(s[i..j]) == ToLower(s)[i..j]
  {
    var a, b := ToLower(s[i..j]), ToLower(s)[i..j];
    forall m | 0 <= m < j - i ensures a[m] == b[m] {
      var c := s[i..j][m];
      assert c == s[i + m];
      assert b[m] == ToLower(s)[i + m];
      if IsUpperAscii(c) {
        assert a[m] as int == b[m] as int;
      }
    }
  }

  /** Lower-casing and trimming commute. */
  lemma TrimToLower(s: string)
    ensures Trim(ToLower(s)) == ToLower(Trim(s))
  {
    var l := ToLower(s);
    var i := SkipSpace(s, 0);
    var j := SkipSpaceBack(s, i, |s|);
    ToLowerSlice(s, i, j);
    ToLowerSpaceBetween(s, 0, i);
    ToLowerSpaceBetween(s, j, |s|);
    assert |l| == |s|;
    assert SpaceBetween(l, 0, i) && SpaceBetween(l, j, |l|);
    if i < j {
      ToLowerSpace(s, i);
      ToLowerSpace(s, j - 1);
      assert !IsSpace(l[i]) && !IsSpace(l[j - 1]);
    }
    TrimUnique(l, i, j);
  }

  predicate StartsWith(s: string, k: string) {
    |k| <= |s| && s[..|k|] == k
  }

  /** `k` occurs somewhere in `s`: the test a one-alternative regular expression makes. */
  predicate Contains(s: string, k: string)
    decreases |s|
  {
    StartsWith(s, k) || (s != [] && Contains(s[1..], k))
  }

  /** An occurrence of `k` at any position `i` of `s` is found by `Contains`. */
  lemma {:induction false} ContainsAt(s: string, k: string, i: nat)
    requires i + |k| <= |s| && s[i..i + |k|] == k
    ensures Contains(s, k)
  {
    if i > 0 {
      assert s[1..][i - 1..i - 1 + |k|] == s[i..i + |k|];
      ContainsAt(s[1..], k, i - 1);
    }
  }

  /** Conversely, whatever `Contains` finds is an occurrence of `k` at some position `i` of `s`. */
  lemma {:induction false} ContainsOccurs(s: string, k: string) returns (i: nat)
    requires Contains(s, k)
    ensures i + |k| <= |s| && s[i..i + |k|] == k
    decreases |s|
  {
    if StartsWith(s, k) {
      i := 0;
    } else {
      var j := ContainsOccurs(s[1..], k);
      assert s[j + 1..j + 1 + |k|] == s[1..][j..j + |k|];
      i := j + 1;
    }
  }

  /** A keyword whose first character does not occur in `s` is not contained in `s`. */
  lemma {:induction false} MissingHead(s: string, k: string)
    requires |k| > 0 && forall i :: 0 <= i < |s| ==> s[i] != k[0]
    ensures !Contains(s, k)
  {
    if s != [] {
      if |k| <= |s| {
        assert s[..|k|][0] == s[0];
      }
      MissingHead(s[1..], k);
    }
  }

  predicate IsDigit(c: char) {
    '0' as int <= c as int <= '9' as int
  }

  function DigitChar(d: nat): (c: char)
    requires d < 10
    ensures IsDigit(c) && c as int - '0' as int == d
  {
    ('0' as int + d) as char
  }

  /** The decimal numeral of `n`, as a template literal renders an integral number. */
  function Decimal(n: nat): (r: string)
    ensures |r| >= 1
    ensures forall i :: 0 <= i < |r| ==> IsDigit(r[i])
    ensures r[0] == '0' ==> n == 0
  {
    if n < 10 then [DigitChar(n)] else Decimal(n / 10) + [DigitChar(n % 10)]
  }

  /** The value of a numeral: the reference reading of `Decimal`. */
  function ParseDecimal(s: string): nat
    requires forall i :: 0 <= i < |s| ==> IsDigit(s[i])
  {
    if s == [] then 0
    else
      var last := s[|s| - 1];
      assert IsDigit(last);
      ParseDecimal(s[..|s| - 1]) * 10 + (last as int - '0' as int)
  }

  /** Reading back the numeral `Decimal(n)` gives `n`. */
  lemma {:induction false} ParseDecimalInverts(n: nat)
    ensures ParseDecimal(Decimal(n)) == n
  {
    if n >= 10 {
      var s := Decimal(n);
      assert s[..|s| - 1] == Decimal(n / 10);
      ParseDecimalInverts(n / 10);
    }
  }

  /** Different numbers have different numerals. */
  lemma DecimalInjective(m: nat, n: nat)
    ensures Decimal(m) == Decimal(n) ==> m == n
  {
    ParseDecimalInverts(m);
    ParseDecimalInverts(n);
  }
}
