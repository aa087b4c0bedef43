/** Characters, runs of characters, trimming and decimal numerals, as the parser's
    regular expressions and JavaScript's string built-ins see them (ASCII only). */
module Text {
  import opened Wrappers

  /** JavaScript's `\s` and `trim` blanks below code point 128: space, and tab through carriage return. */
  predicate IsSpace(c: char) { c == ' ' || '\t' <= c <= '\r' }

  predicate IsDigit(c: char) { '0' <= c <= '9' }

  predicate IsLetter(c: char) { 'A' <= c <= 'Z' || 'a' <= c <= 'z' }

  /** The character classes the parser's patterns repeat: `\s`, `\d`, `[\d,]` and `[A-Za-z\s]`. */
  datatype CharClass = Space | Digit | DigitOrComma | NameChar

  predicate InClass(k: CharClass, c: char) {
    match k
    case Space => IsSpace(c)
    case Digit => IsDigit(c)
    case DigitOrComma => IsDigit(c) || c == ','
    case NameChar => IsLetter(c) || IsSpace(c)
  }

  predicate AllIn(k: CharClass, s: string) {
    forall i :: 0 <= i < |s| ==> InClass(k, s[i])
  }

  /** The end of the longest run of class `k` starting at `p` (a greedy `k*`). */
  function RunEnd(s: string, p: nat, k: CharClass): (q: nat)
    requires p <= |s|
    ensures p <= q <= |s|
    ensures forall i :: p <= i < q ==> InClass(k, s[i])
    ensures q == |s| || !InClass(k, s[q])
    decreases |s| - p
  {
    if p < |s| && InClass(k, s[p]) then RunEnd(s, p + 1, k) else p
  }

  /** A run of class `k` from `p` to `q` that cannot be extended is the one `RunEnd` finds. */
  lemma RunEndIs(s: string, p: nat, q: nat, k: CharClass)
    requires p <= q <= |s| && AllIn(k, s[p..q]) && (q == |s| || !InClass(k, s[q]))
    ensures RunEnd(s, p, k) == q
  {
    assert forall i :: p <= i < q ==> s[i] == s[p..q][i - p];
  }

  /** A greedy `\s*` from `p`. */
  function SkipSpaces(s: string, p: nat): (q: nat)
    requires p <= |s|
    ensures p <= q <= |s|
  {
    RunEnd(s, p, Space)
  }

  /** ASCII lower case; the `/i` flag folds no other characters onto ASCII letters. */
  function Lower(c: char): char {
    if 'A' <= c <= 'Z' then (c as int + 32) as char else c
  }

  /** The lower-case word `w` occurs at `p` in `s`, ignoring ASCII case. */
  predicate WordAt(s: string, p: nat, w: string)
    ensures WordAt(s, p, w) ==> p + |w| <= |s|
    decreases |w|
  {
    p + |w| <= |s| && (|w| == 0 || (Lower(s[p]) == w[0] && WordAt(s, p + 1, w[1..])))
  }

  /** `s.trimStart()`: drops the leading blanks and nothing else. */
  function TrimStart(s: string): (r: string)
    ensures |r| <= |s| && r == s[|s| - |r|..]
    ensures forall i :: 0 <= i < |s| - |r| ==> IsSpace(s[i])
    ensures r == [] || !IsSpace(r[0])
  {
    s[RunEnd(s, 0, Space)..]
  }

  /** `s.trimEnd()`: drops the trailing blanks and nothing else. */
  function TrimEnd(s: string): (r: string)
    ensures |r| <= |s| && r == s[..|r|]
    ensures forall i :: |r| <= i < |s| ==> IsSpace(s[i])
    ensures r == [] || !IsSpace(r[|r| - 1])
    decreases |s|
  {
    if s != [] && IsSpace(s[|s| - 1]) then TrimEnd(s[..|s| - 1]) else s
  }

  /** `s.trim()`. */
  function Trim(s: string): (r: string)
    ensures |r| <= |s|
    ensures r == [] || (!IsSpace(r[0]) && !IsSpace(r[|r| - 1]))
  {
    TrimEnd(TrimStart(s))
  }

  /** Trimming keeps every remaining character where it was: the result is a slice of the input. */
  lemma TrimIsSlice(s: string) returns (i: nat)
    ensures i + |Trim(s)| <= |s| && Trim(s) == s[i..i + |Trim(s)|]
    ensures forall j :: 0 <= j < i ==> IsSpace(s[j])
    ensures forall j :: i + |Trim(s)| <= j < |s| ==> IsSpace(s[j])
  {
    var t := TrimStart(s);
    i := |s| - |t|;
    var r := TrimEnd(t);
    assert r == t[..|r|];
    assert forall j :: i + |r| <= j < |s| ==> s[j] == t[j - i];
  }

  /** The trim is empty exactly when the text is all blanks. */
  lemma TrimEmptyIffBlank(s: string)
    ensures Trim(s) == [] <==> AllIn(Space, s)
  {
    var i := TrimIsSlice(s);
    if Trim(s) != [] {
      assert s[i] == Trim(s)[0];
    }
  }

  /** A string without blanks at either end is its own trim; in particular trimming is idempotent. */
  lemma TrimFixed(s: string)
    requires s == [] || (!IsSpace(s[0]) && !IsSpace(s[|s| - 1]))
    ensures Trim(s) == s
  {
    assert TrimStart(s) == s;
  }

  /** Trimming a string of one character class leaves a string of that class. */
  lemma {:induction false} TrimKeepsClass(k: CharClass, s: string)
    requires AllIn(k, s)
    ensures AllIn(k, Trim(s))
  {
    var i := TrimIsSlice(s);
    var r := Trim(s);
    forall j | 0 <= j < |r| ensures InClass(k, r[j]) {
      assert r[j] == s[i + j];
    }
  }

  /** `s.replace(/,/g, '')`. */
  function StripCommas(s: string): (r: string)
    ensures ',' !in r
    ensures forall c :: c in s && c != ',' ==> c in r
    ensures forall c :: c in r ==> c in s
  {
    if s == [] then [] else (if s[0] == ',' then [] else [s[0]]) + StripCommas(s[1..])
  }

  /** Removing commas from two pieces separately or from the joined string is the same. */
  lemma {:induction false} StripCommasAppend(a: string, b: string)
    ensures StripCommas(a + b) == StripCommas(a) + StripCommas(b)
  {
    if a == [] {
      assert a + b == b;
    } else {
      assert (a + b)[1..] == a[1..] + b;
      StripCommasAppend(a[1..], b);
    }
  }

  /** A string without commas is left as it is. */
  lemma {:induction false} StripCommasNoComma(s: string)
    requires ',' !in s
    ensures StripCommas(s) == s
  {
    if s != [] {
      assert ',' !in s[1..] by {
        assert forall i :: 0 <= i < |s[1..]| ==> s[1..][i] == s[i + 1];
      }
      StripCommasNoComma(s[1..]);
      assert s == [s[0]] + s[1..];
    }
  }

  function DigitValue(c: char): nat
    requires IsDigit(c)
  {
    c as int - '0' as int
  }

  /** The value of a string of decimal digits, most significant first. */
  function DigitsValue(d: string): nat
    requires AllIn(Digit, d)
    decreases |d|
  {
    if d == [] then 0 else DigitsValue(d[..|d| - 1]) * 10 + DigitValue(d[|d| - 1])
  }

  function Pow10(n: nat): (r: nat)
    ensures r > 0
  {
    if n == 0 then 1 else 10 * Pow10(n - 1)
  }

  /** The exact value of the decimal numeral with integer digits `w` and fraction digits `f`. */
  function DecimalValue(w: string, f: string): (v: real)
    requires AllIn(Digit, w) && AllIn(Digit, f)
    ensures v >= 0.0
  {
    DigitsValue(w) as real + DigitsValue(f) as real / Pow10(|f|) as real
  }

  /** Digits with at most one '.', which only digits follow: an amount capture once its commas
      are gone. */
  predicate DecimalShape(t: string) {
    forall i :: 0 <= i < |t| ==> IsDigit(t[i]) || (t[i] == '.' && forall j :: i < j < |t| ==> IsDigit(t[j]))
  }

  /** `parseFloat(t)` for a text of digits with at most one '.', as the amount captures are once
      their commas are gone: the longest prefix `\d*(\.\d*)?` read as an exact decimal, `None`
      (NaN) when that prefix holds no digit. */
  function ParseFloat(t: string): (r: Option<real>)
    requires DecimalShape(t)
    ensures r.Some? ==> r.value >= 0.0
    ensures r.None? <==> t == [] || (!IsDigit(t[0]) && !(t[0] == '.' && |t| > 1 && IsDigit(t[1])))
  {
    var e := RunEnd(t, 0, Digit);
    var fracEnd := if e < |t| && t[e] == '.' then RunEnd(t, e + 1, Digit) else e;
    var frac := if fracEnd > e then t[e + 1..fracEnd] else [];
    if e == 0 && frac == [] then None
    else Some(DecimalValue(t[..e], frac))
  }

  /** `parseFloat` reads digits, a '.' and more digits as the exact decimal they spell, and a text
      with no digit on either side of the '.' as NaN. */
  lemma ParseFloatDecimal(d: string, f: string)
    requires AllIn(Digit, d) && AllIn(Digit, f)
    ensures DecimalShape(d + "." + f) &&
      ParseFloat(d + "." + f) ==
        if d == [] && f == [] then None
        else Some(DecimalValue(d, f))
  {
    var t := d + "." + f;
    PointSplit(d, f);
    RunEndIs(t, 0, |d|, Digit);
    RunEndIs(t, |d| + 1, |t|, Digit);
    var e := RunEnd(t, 0, Digit);
    var fracEnd := if e < |t| && t[e] == '.' then RunEnd(t, e + 1, Digit) else e;
    assert e == |d| && fracEnd == |t|;
    var frac := if fracEnd > e then t[e + 1..fracEnd] else [];
    assert frac == f && t[..e] == d;
  }

  /** The pieces of `d + "." + f` where `ParseFloat` cuts it. */
  lemma PointSplit(d: string, f: string)
    requires AllIn(Digit, d) && AllIn(Digit, f)
    ensures var t := d + "." + f;
      && DecimalShape(t) && |t| == |d| + 1 + |f| && t[|d|] == '.'
      && t[..|d|] == d && t[0..|d|] == d && t[|d| + 1..|t|] == f
      && AllIn(Digit, t[0..|d|]) && AllIn(Digit, t[|d| + 1..|t|])
  {
    var t := d + "." + f;
    assert t[..|d|] == d;
    assert t[|d| + 1..|t|] == f;
    forall i | 0 <= i < |t|
      ensures IsDigit(t[i]) || (t[i] == '.' && forall j :: i < j < |t| ==> IsDigit(t[j]))
    {
      if i < |d| {
        assert t[i] == d[i];
      } else if i > |d| {
        assert t[i] == f[i - |d| - 1];
      } else {
        assert forall j :: i < j < |t| ==> t[j] == f[j - |d| - 1];
      }
    }
  }

  /** `parseFloat` reads a digit string as the whole number it spells, and the empty text as NaN. */
  lemma ParseFloatWhole(d: string)
    requires AllIn(Digit, d)
    ensures DecimalShape(d) && ParseFloat(d) == if d == [] then None else Some(DigitsValue(d) as real)
  {
    assert d[..|d|] == d;
    RunEndIs(d, 0, |d|, Digit);
  }

  /** Removing the commas from digits and commas leaves digits. */
  lemma StripCommasDigits(a: string)
    requires AllIn(DigitOrComma, a)
    ensures AllIn(Digit, StripCommas(a))
  {
    var r := StripCommas(a);
    assert forall j :: 0 <= j < |r| ==> r[j] in r;
  }

  /** The shape `[\d,]+(\.\d*)?` of an amount capture. */
  predicate IsNumeral(c: string) {
    && c != []
    && InClass(DigitOrComma, c[0])
    && forall i :: 0 <= i < |c| ==>
         InClass(DigitOrComma, c[i]) || (c[i] == '.' && forall j :: i < j < |c| ==> IsDigit(c[j]))
  }

  /** Removing the commas from an amount capture leaves a text `parseFloat` reads as a decimal. */
  lemma {:induction false} StripKeepsShape(c: string)
    requires forall i :: 0 <= i < |c| ==>
               InClass(DigitOrComma, c[i]) || (c[i] == '.' && forall j :: i < j < |c| ==> IsDigit(c[j]))
    ensures DecimalShape(StripCommas(c))
  {
    if c != [] {
      assert forall i :: 1 <= i < |c| ==> c[1..][i - 1] == c[i];
      StripKeepsShape(c[1..]);
      var rest := StripCommas(c[1..]);
      var head: string := if c[0] == ',' then [] else [c[0]];
      assert StripCommas(c) == head + rest;
      if c[0] == '.' {
        assert forall ch :: ch in rest ==> ch in c[1..];
        assert forall j :: 0 <= j < |rest| ==> rest[j] in c[1..];
      }
    }
  }
}
