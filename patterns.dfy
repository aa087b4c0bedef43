/** The regular expressions of the payment-message parser, each hand-coded as an anchored
    scanner that follows JavaScript's backtracking semantics (leftmost match, greedy
    quantifiers, `/i` as ASCII case folding), and the leftmost-match search `s.match(re)`.
    Only capture group 1 is reported, as a span of the scanned string. */
module Patterns {
  import opened Wrappers
  import opened Text

  /** Capture group 1 of a match: `s[start..end]`. */
  datatype Span = Span(start: nat, end: nat)

  /** A match found by `s.match(re)`: where it starts and what group 1 captured. */
  datatype Match = Match(at: nat, group: Span)

  /** The minimum length of the bare digit run `(\d{6,})`. */
  const MinBareDigits: nat := 6

  /** The pattern shapes that occur in the parser. Words and labels are written in lower case
      and matched case-insensitively; every shape except `DollarAmount` and `BareDigits`
      belongs to a pattern with the `/i` flag. */
  datatype Pattern =
    | DollarAmount                                        // \$?([\d,]+\.?\d*)
    | CodeAmount(code: string)                            // code\s*([\d,]+\.?\d*)
    | NameAfter(word: string)                             // word\s+([A-Za-z\s]+)
    | LabelDigits(marker: string, qualifier: seq<string>)  // marker\s*(?:q1\s*q2\s*…)?(\d+)
    | AnyLabelDigits(labels: seq<string>)                 // (?:l1|l2|…):\s*(\d+)
    | LooseLabelDigits(words: seq<string>)                // w1\s*w2\s*…:?\s*(\d+)
    | BareDigits                                          // (\d{6,})

  /** A non-empty, maximal run of class `k` at `sp`. */
  predicate IsRun(k: CharClass, s: string, sp: Span) {
    && sp.start < sp.end <= |s|
    && (forall i :: sp.start <= i < sp.end ==> InClass(k, s[i]))
    && (sp.end == |s| || !InClass(k, s[sp.end]))
  }

  /** A numeral `[\d,]+(\.\d*)?` at `sp` that the greedy quantifiers cannot extend: no digit
      follows it, and when it holds no '.', no comma and no '.' follow it either. */
  predicate IsNumeralSpan(s: string, sp: Span) {
    && sp.start < sp.end <= |s|
    && IsNumeral(s[sp.start..sp.end])
    && (sp.end < |s| ==>
          && !IsDigit(s[sp.end])
          && ('.' !in s[sp.start..sp.end] ==> s[sp.end] != ',' && s[sp.end] != '.'))
  }

  /** What group 1 of each pattern can capture, as a span of the scanned string. */
  predicate IsCapture(pat: Pattern, s: string, sp: Span) {
    match pat
    case DollarAmount => IsNumeralSpan(s, sp)
    case CodeAmount(_) => IsNumeralSpan(s, sp)
    case NameAfter(_) => IsRun(NameChar, s, sp)
    case BareDigits => IsRun(Digit, s, sp) && sp.end - sp.start >= MinBareDigits
    case _ => IsRun(Digit, s, sp)
  }

  /** What group 1 of each pattern can capture, as text. */
  predicate Fits(pat: Pattern, c: string) {
    match pat
    case DollarAmount => IsNumeral(c)
    case CodeAmount(_) => IsNumeral(c)
    case NameAfter(_) => c != [] && AllIn(NameChar, c)
    case BareDigits => |c| >= MinBareDigits && AllIn(Digit, c)
    case _ => c != [] && AllIn(Digit, c)
  }

  /** A span that is a capture of `pat` holds text that fits `pat`. */
  lemma CaptureFits(pat: Pattern, s: string, sp: Span)
    requires IsCapture(pat, s, sp)
    ensures Fits(pat, s[sp.start..sp.end])
  {
    var c := s[sp.start..sp.end];
    assert forall i :: 0 <= i < |c| ==> c[i] == s[sp.start + i];
  }

  /** `[\d,]+\.?\d*` from `q`, which holds a digit or a comma: the comma-digit run is
      maximal, then a '.' if there is one, then the digit run after it. */
  function NumeralFrom(s: string, q: nat): (sp: Span)
    requires q < |s| && InClass(DigitOrComma, s[q])
    ensures sp.start == q && IsNumeralSpan(s, sp)
  {
    var e := RunEnd(s, q, DigitOrComma);
    if e < |s| && s[e] == '.' then
      var f := RunEnd(s, e + 1, Digit);
      var c := s[q..f];
      assert forall i :: 0 <= i < |c| ==> c[i] == s[q + i];
      assert forall i :: 0 <= i < |c| && q + i != e ==> InClass(DigitOrComma, c[i]);
      Span(q, f)
    else
      var c := s[q..e];
      assert forall i :: 0 <= i < |c| ==> c[i] == s[q + i];
      assert '.' !in c;
      Span(q, e)
  }

  /** A maximal numeral is the one `NumeralFrom` reads from its start. */
  lemma NumeralSpanIsFrom(s: string, sp: Span)
    requires IsNumeralSpan(s, sp)
    ensures NumeralFrom(s, sp.start) == sp
  {
    var c := s[sp.start..sp.end];
    assert forall i :: 0 <= i < |c| ==> c[i] == s[sp.start + i];
    if '.' in c {
      var i :| 0 <= i < |c| && c[i] == '.';
      assert !IsDigit(c[i]) && s[sp.start + i] == '.';
      var whole := s[sp.start..sp.start + i];
      assert forall j :: 0 <= j < |whole| ==> whole[j] == c[j] && InClass(DigitOrComma, c[j]);
      RunEndIs(s, sp.start, sp.start + i, DigitOrComma);
      var frac := s[sp.start + i + 1..sp.end];
      assert forall j :: 0 <= j < |frac| ==> frac[j] == c[i + 1 + j];
      RunEndIs(s, sp.start + i + 1, sp.end, Digit);
    } else {
      assert AllIn(DigitOrComma, s[sp.start..sp.end]);
      RunEndIs(s, sp.start, sp.end, DigitOrComma);
    }
  }

  /** A maximal run is the one `RunEnd` finds from its start. */
  lemma RunIsRunEnd(k: CharClass, s: string, sp: Span)
    requires IsRun(k, s, sp)
    ensures RunEnd(s, sp.start, k) == sp.end
  {
    assert AllIn(k, s[sp.start..sp.end]);
    RunEndIs(s, sp.start, sp.end, k);
  }

  /** Where a capture starts decides where it ends: no two captures of a pattern share a start. */
  lemma CaptureUnique(pat: Pattern, s: string, a: Span, b: Span)
    requires IsCapture(pat, s, a) && IsCapture(pat, s, b) && a.start == b.start
    ensures a == b
  {
    match pat
    case DollarAmount =>
      NumeralSpanIsFrom(s, a);
      NumeralSpanIsFrom(s, b);
    case CodeAmount(_) =>
      NumeralSpanIsFrom(s, a);
      NumeralSpanIsFrom(s, b);
    case NameAfter(_) =>
      RunIsRunEnd(NameChar, s, a);
      RunIsRunEnd(NameChar, s, b);
    case _ =>
      RunIsRunEnd(Digit, s, a);
      RunIsRunEnd(Digit, s, b);
  }

  /** `(\d+)` from `t`: the maximal digit run, if `t` holds a digit. */
  function DigitsFrom(s: string, t: nat): (r: Option<Span>)
    requires t <= |s|
    ensures r.Some? <==> t < |s| && IsDigit(s[t])
    ensures r.Some? ==> r.value.start == t && IsRun(Digit, s, r.value)
  {
    if t < |s| && IsDigit(s[t]) then Some(Span(t, RunEnd(s, t, Digit))) else None
  }

  /** `\$?([\d,]+\.?\d*)` at `p`. When '$' is not followed by a digit or comma, backtracking
      drops the optional '$' and the run must then start on the '$' itself, which fails. */
  function DollarAmountAt(s: string, p: nat): (r: Option<Span>)
    requires p <= |s|
    ensures r.Some? <==>
      p < |s| && (InClass(DigitOrComma, s[p]) || (s[p] == '$' && p + 1 < |s| && InClass(DigitOrComma, s[p + 1])))
    ensures r.Some? ==> p < |s| && r.value.start == (if s[p] == '$' then p + 1 else p) && IsNumeralSpan(s, r.value)
  {
    if p + 1 < |s| && s[p] == '$' && InClass(DigitOrComma, s[p + 1]) then Some(NumeralFrom(s, p + 1))
    else if p < |s| && InClass(DigitOrComma, s[p]) then Some(NumeralFrom(s, p))
    else None
  }

  /** `code\s*([\d,]+\.?\d*)` at `p`, case-insensitive. Giving back blanks cannot help: the
      run would then have to start on a blank. */
  function CodeAmountAt(s: string, p: nat, code: string): (r: Option<Span>)
    requires p <= |s|
    ensures r.Some? <==>
              WordAt(s, p, code) && (var q := SkipSpaces(s, p + |code|); q < |s| && InClass(DigitOrComma, s[q]))
    ensures r.Some? ==>
              WordAt(s, p, code) && r.value.start == SkipSpaces(s, p + |code|) && IsNumeralSpan(s, r.value)
  {
    if !WordAt(s, p, code) then None
    else
      var q := SkipSpaces(s, p + |code|);
      if q < |s| && InClass(DigitOrComma, s[q]) then Some(NumeralFrom(s, q)) else None
  }

  /** `word\s+([A-Za-z\s]+)` at `p`, case-insensitive. The greedy `\s+` takes every blank; if a
      letter follows, the group is the maximal letter-or-blank run from there. Otherwise
      backtracking hands the last blank to the group, which is then that single blank; this
      needs at least two blanks, since `\s+` must keep one. */
  function NameAfterAt(s: string, p: nat, word: string): (r: Option<Span>)
    requires p <= |s|
    ensures r.Some? <==>
              WordAt(s, p, word) &&
              (var q := SkipSpaces(s, p + |word|);
               p + |word| < q && ((q < |s| && IsLetter(s[q])) || p + |word| + 2 <= q))
    ensures r.Some? ==>
              WordAt(s, p, word) &&
              (var q := SkipSpaces(s, p + |word|);
               r.value.start == (if q < |s| && IsLetter(s[q]) then q else q - 1) && IsRun(NameChar, s, r.value))
  {
    if !WordAt(s, p, word) then None
    else
      var q := SkipSpaces(s, p + |word|);
      if q == p + |word| then None
      else if q < |s| && IsLetter(s[q]) then Some(Span(q, RunEnd(s, q, NameChar)))
      else if q >= p + |word| + 2 then Some(Span(q - 1, q))
      else None
  }

  /** `w1\s*w2\s*…` at `p` (each word followed by a greedy `\s*`): where the blanks after the
      last word end. */
  function WordsEnd(s: string, p: nat, words: seq<string>): (r: Option<nat>)
    requires p <= |s|
    ensures r.Some? ==> p <= r.value <= |s|
    decreases |words|
  {
    if words == [] then Some(p)
    else if WordAt(s, p, words[0]) then WordsEnd(s, SkipSpaces(s, p + |words[0]|), words[1..])
    else None
  }

  /** A match of the words starts with the first word at `p` and ends where the blanks after the
      last word end; with no words it is empty. */
  lemma {:induction false} WordsEndShape(s: string, p: nat, words: seq<string>)
    requires p <= |s|
    ensures words == [] ==> WordsEnd(s, p, words) == Some(p)
    ensures words != [] && WordsEnd(s, p, words).Some? ==>
              WordAt(s, p, words[0]) && var e := WordsEnd(s, p, words).value; e == |s| || !IsSpace(s[e])
    decreases |words|
  {
    if words != [] && WordAt(s, p, words[0]) {
      var q := SkipSpaces(s, p + |words[0]|);
      WordsEndShape(s, q, words[1..]);
    }
  }

  /** `marker\s*(?:q1\s*q2\s*…)?(\d+)` at `p`, case-insensitive. */
  function LabelDigitsAt(s: string, p: nat, marker: string, qualifier: seq<string>): (r: Option<Span>)
    requires p <= |s|
    ensures r.Some? <==>
              WordAt(s, p, marker) &&
              (var t := QualifiedStart(s, SkipSpaces(s, p + |marker|), qualifier); t < |s| && IsDigit(s[t]))
    ensures r.Some? ==>
              WordAt(s, p, marker) && IsRun(Digit, s, r.value) &&
              r.value.start == QualifiedStart(s, SkipSpaces(s, p + |marker|), qualifier)
  {
    if !WordAt(s, p, marker) then None else QualifiedDigits(s, SkipSpaces(s, p + |marker|), qualifier)
  }

  /** `(?:q1\s*q2\s*…)?(\d+)` at `q`: the optional group is tried first; if it does not match,
      or no digit follows it, the digits must start at `q` itself. */
  function QualifiedDigits(s: string, q: nat, qualifier: seq<string>): (r: Option<Span>)
    requires q <= |s|
    ensures r.Some? <==> var t := QualifiedStart(s, q, qualifier); t < |s| && IsDigit(s[t])
    ensures r.Some? ==> r.value.start == QualifiedStart(s, q, qualifier) && IsRun(Digit, s, r.value)
  {
    var t := WordsEnd(s, q, qualifier);
    if t.Some? && DigitsFrom(s, t.value).Some? then DigitsFrom(s, t.value) else DigitsFrom(s, q)
  }

  /** Where the digits of `(?:q1\s*q2\s*…)?(\d+)` from `q` begin: just past the qualifier words
      and their blanks when the words are there and a digit follows them, at `q` otherwise. */
  function QualifiedStart(s: string, q: nat, qualifier: seq<string>): (t: nat)
    requires q <= |s|
    ensures q <= t <= |s|
    ensures var w := WordsEnd(s, q, qualifier);
              w.Some? && w.value < |s| && IsDigit(s[w.value]) ==> Some(t) == w
    ensures t != q ==> Some(t) == WordsEnd(s, q, qualifier) && t < |s| && IsDigit(s[t])
  {
    var w := WordsEnd(s, q, qualifier);
    if w.Some? && w.value < |s| && IsDigit(s[w.value]) then w.value else q
  }

  /** `(?:l1|l2|…):\s*(\d+)` at `p`, case-insensitive: the alternatives in order. */
  function AnyLabelDigitsAt(s: string, p: nat, labels: seq<string>): (r: Option<Span>)
    requires p <= |s|
    ensures r.None? <==> forall l :: l in labels ==> LabelDigitsAt(s, p, l + ":", []).None?
    ensures r.Some? ==>
              exists l :: l in labels && WordAt(s, p, l + ":") &&
                r.value.start == SkipSpaces(s, p + |l| + 1) && IsRun(Digit, s, r.value)
    decreases |labels|
  {
    if labels == [] then None
    else
      assert labels == [labels[0]] + labels[1..];
      match LabelDigitsAt(s, p, labels[0] + ":", [])
      case Some(sp) =>
        WordsEndShape(s, SkipSpaces(s, p + |labels[0]| + 1), []);
        Some(sp)
      case None => AnyLabelDigitsAt(s, p, labels[1..])
  }

  /** `w1\s*w2\s*…:?\s*(\d+)` at `p`, case-insensitive. */
  function LooseLabelDigitsAt(s: string, p: nat, words: seq<string>): (r: Option<Span>)
    requires p <= |s|
    ensures r.Some? <==>
              WordsEnd(s, p, words).Some? &&
              (var u := OptionalColon(s, WordsEnd(s, p, words).value); u < |s| && IsDigit(s[u]))
    ensures r.Some? ==>
              WordsEnd(s, p, words).Some? && IsRun(Digit, s, r.value) &&
              r.value.start == OptionalColon(s, WordsEnd(s, p, words).value)
  {
    var t := WordsEnd(s, p, words);
    if t.None? then None else DigitsFrom(s, OptionalColon(s, t.value))
  }

  /** `:?\s*` at `t`, where no blank stands: past a colon and the blanks after it, if there is a
      colon; nowhere otherwise. */
  function OptionalColon(s: string, t: nat): (u: nat)
    requires t <= |s|
    ensures t <= u <= |s|
    ensures t < |s| && s[t] == ':' ==>
      t < u && (forall i :: t < i < u ==> IsSpace(s[i])) && (u == |s| || !IsSpace(s[u]))
    ensures !(t < |s| && s[t] == ':') ==> u == t
  {
    if t < |s| && s[t] == ':' then SkipSpaces(s, t + 1) else t
  }

  /** `(\d{6,})` at `p`: the greedy digit run from `p`, if it is long enough. */
  function BareDigitsAt(s: string, p: nat): (r: Option<Span>)
    requires p <= |s|
    ensures r.Some? <==> p + MinBareDigits <= |s| && forall i :: p <= i < p + MinBareDigits ==> IsDigit(s[i])
    ensures r.Some? ==> r.value.start == p && IsRun(Digit, s, r.value) && r.value.end - p >= MinBareDigits
  {
    var e := RunEnd(s, p, Digit);
    if e - p >= MinBareDigits then Some(Span(p, e)) else None
  }

  /** `pat` matched at position `p`: group 1's span, or `None`. */
  function MatchAt(pat: Pattern, s: string, p: nat): (r: Option<Span>)
    requires p <= |s|
    ensures r.Some? ==> p <= r.value.start && IsCapture(pat, s, r.value)
  {
    match pat
    case DollarAmount => DollarAmountAt(s, p)
    case CodeAmount(code) => CodeAmountAt(s, p, code)
    case NameAfter(word) => NameAfterAt(s, p, word)
    case LabelDigits(marker, qualifier) => LabelDigitsAt(s, p, marker, qualifier)
    case AnyLabelDigits(labels) => AnyLabelDigitsAt(s, p, labels)
    case LooseLabelDigits(words) => LooseLabelDigitsAt(s, p, words)
    case BareDigits => BareDigitsAt(s, p)
  }

  /** The leftmost match of `pat` at or after `from`, trying each start position in turn. */
  function Search(pat: Pattern, s: string, from: nat): (r: Option<Match>)
    requires from <= |s|
    ensures r.Some? ==> from <= r.value.at <= |s| && MatchAt(pat, s, r.value.at) == Some(r.value.group)
    ensures r.Some? ==> forall q :: from <= q < r.value.at ==> MatchAt(pat, s, q).None?
    ensures r.None? ==> forall q :: from <= q <= |s| ==> MatchAt(pat, s, q).None?
    decreases |s| - from
  {
    match MatchAt(pat, s, from)
    case Some(sp) => Some(Match(from, sp))
    case None =>
      if from == |s| then None
      else
        var r := Search(pat, s, from + 1);
        assert forall q :: from <= q <= from ==> MatchAt(pat, s, q).None?;
        r
  }

  /** `s.match(re)?.[1]`: group 1 of the leftmost match, or `None` when `re` matches nowhere. */
  function Capture(pat: Pattern, s: string): (r: Option<string>)
    ensures r.Some? ==> Fits(pat, r.value)
    ensures r.None? <==> forall p :: 0 <= p <= |s| ==> MatchAt(pat, s, p).None?
  {
    match Search(pat, s, 0)
    case Some(m) =>
      CaptureFits(pat, s, m.group);
      Some(s[m.group.start..m.group.end])
    case None => None
  }

  /** A match found at `q` with no match at any earlier position is the one `s.match(re)` reports. */
  lemma CaptureAt(pat: Pattern, s: string, q: nat, sp: Span)
    requires q <= |s| && MatchAt(pat, s, q) == Some(sp) && NoMatchIn(pat, s, 0, q)
    ensures Capture(pat, s) == Some(s[sp.start..sp.end])
  {
    var m := Search(pat, s, 0);
    assert m.Some? && m.value.at == q;
  }

  /** The characters a match of `pat` can start on: a word or label pattern starts on the first
      letter of its word or of one of its labels, in either case; an amount on '$', a digit or a
      comma; a bare digit run on a digit. */
  predicate MayStart(pat: Pattern, c: char) {
    match pat
    case DollarAmount => c == '$' || InClass(DigitOrComma, c)
    case CodeAmount(code) => code == [] || Lower(c) == code[0]
    case NameAfter(word) => word == [] || Lower(c) == word[0]
    case LabelDigits(marker, _) => marker == [] || Lower(c) == marker[0]
    case AnyLabelDigits(labels) => exists l :: l in labels && Lower(c) == (l + ":")[0]
    case LooseLabelDigits(words) => words == [] || words[0] == [] || Lower(c) == words[0][0]
    case BareDigits => IsDigit(c)
  }

  lemma WordAtStart(s: string, p: nat, w: string)
    requires WordAt(s, p, w) && w != []
    ensures p < |s| && Lower(s[p]) == w[0]
  {
  }

  /** No match starts on a character the pattern cannot start on. */
  lemma StartsOn(pat: Pattern, s: string, p: nat)
    requires p <= |s|
    ensures MatchAt(pat, s, p).Some? ==> p < |s| && MayStart(pat, s[p])
  {
    if MatchAt(pat, s, p).Some? {
      match pat
      case DollarAmount =>
      case CodeAmount(code) => if code != [] { WordAtStart(s, p, code); } else { assert p < |s|; }
      case NameAfter(word) => if word != [] { WordAtStart(s, p, word); } else { assert p < |s|; }
      case LabelDigits(marker, _) => if marker != [] { WordAtStart(s, p, marker); } else { assert p < |s|; }
      case AnyLabelDigits(labels) =>
        var l :| l in labels && WordAt(s, p, l + ":");
        WordAtStart(s, p, l + ":");
      case LooseLabelDigits(words) =>
        if words != [] && words[0] != [] {
          WordAtStart(s, p, words[0]);
        } else {
          assert p < |s|;
        }
      case BareDigits =>
    }
  }

  /** No character of `t` can start a match of `pat`. */
  predicate NoStart(pat: Pattern, t: string) {
    forall i :: 0 <= i < |t| ==> !MayStart(pat, t[i])
  }

  /** No match of `pat` starts in `[lo, hi)`. */
  predicate NoMatchIn(pat: Pattern, s: string, lo: nat, hi: nat)
    requires hi <= |s|
  {
    forall p :: lo <= p < hi ==> MatchAt(pat, s, p).None?
  }

  lemma NoMatchJoin(pat: Pattern, s: string, lo: nat, mid: nat, hi: nat)
    requires lo <= mid <= hi <= |s| && NoMatchIn(pat, s, lo, mid) && NoMatchIn(pat, s, mid, hi)
    ensures NoMatchIn(pat, s, lo, hi)
  {
  }

  lemma NoMatchAt(pat: Pattern, s: string, p: nat)
    requires p < |s| && MatchAt(pat, s, p).None?
    ensures NoMatchIn(pat, s, p, p + 1)
  {
  }

  /** With no match anywhere before the end, there is no capture. */
  lemma NoMatchNoCapture(pat: Pattern, s: string)
    requires NoMatchIn(pat, s, 0, |s|)
    ensures Capture(pat, s).None?
  {
    StartsOn(pat, s, |s|);
  }

  /** A stretch of `s` on which no character can start a match holds no match. */
  lemma NoMatchOver(pat: Pattern, s: string, lo: nat, hi: nat)
    requires lo <= hi <= |s| && NoStart(pat, s[lo..hi])
    ensures NoMatchIn(pat, s, lo, hi)
  {
    forall p | lo <= p < hi
      ensures MatchAt(pat, s, p).None?
    {
      assert s[lo..hi][p - lo] == s[p];
      StartsOn(pat, s, p);
    }
  }

  /** A string on which no character can start a match holds no match at all. */
  lemma NoCapture(pat: Pattern, s: string)
    requires NoStart(pat, s)
    ensures Capture(pat, s).None?
  {
    assert s[0..|s|] == s;
    NoMatchOver(pat, s, 0, |s|);
    StartsOn(pat, s, |s|);
  }

  /** A match of a digit pattern captures from a digit of the scanned string. */
  lemma DigitCaptureStart(pat: Pattern, s: string, p: nat)
    requires pat.LabelDigits? || pat.AnyLabelDigits? || pat.LooseLabelDigits? || pat.BareDigits?
    requires p <= |s|
    ensures MatchAt(pat, s, p).Some? ==>
              MatchAt(pat, s, p).value.start < |s| && IsDigit(s[MatchAt(pat, s, p).value.start])
  {
  }

  /** The digit patterns find nothing in a string without a digit. */
  lemma NoDigitNoCapture(pat: Pattern, s: string)
    requires pat.LabelDigits? || pat.AnyLabelDigits? || pat.LooseLabelDigits? || pat.BareDigits?
    requires forall i :: 0 <= i < |s| ==> !IsDigit(s[i])
    ensures Capture(pat, s).None?
  {
    forall p | 0 <= p <= |s|
      ensures MatchAt(pat, s, p).None?
    {
      DigitCaptureStart(pat, s, p);
    }
  }

  /** A span moved `d` places to the right. */
  function Shift(r: Option<Span>, d: nat): (q: Option<Span>)
    ensures q.Some? <==> r.Some?
    ensures q.Some? ==> q.value.start == r.value.start + d && q.value.end == r.value.end + d
  {
    match r
    case None => None
    case Some(sp) => Some(Span(sp.start + d, sp.end + d))
  }

  /** The scanners only look ahead: their answers at `p` in `s` are their answers at `p - d`
      in the suffix `s[d..]`, moved back by `d`. */
  lemma {:induction false} RunEndLocal(s: string, d: nat, p: nat, k: CharClass)
    requires d <= p <= |s|
    ensures RunEnd(s, p, k) == d + RunEnd(s[d..], p - d, k)
    decreases |s| - p
  {
    if p < |s| {
      assert s[d..][p - d] == s[p];
      if InClass(k, s[p]) {
        RunEndLocal(s, d, p + 1, k);
      }
    }
  }

  lemma {:induction false} WordAtLocal(s: string, d: nat, p: nat, w: string)
    requires d <= p && d <= |s|
    ensures WordAt(s, p, w) == WordAt(s[d..], p - d, w)
    decreases |w|
  {
    if |w| > 0 && p + |w| <= |s| {
      assert s[d..][p - d] == s[p];
      WordAtLocal(s, d, p + 1, w[1..]);
    }
  }

  lemma {:induction false} NumeralFromLocal(s: string, d: nat, q: nat)
    requires d <= q < |s| && InClass(DigitOrComma, s[q])
    ensures s[d..][q - d] == s[q]
    ensures NumeralFrom(s, q) == Shift(Some(NumeralFrom(s[d..], q - d)), d).value
  {
    assert s[d..][q - d] == s[q];
    RunEndLocal(s, d, q, DigitOrComma);
    var e := RunEnd(s, q, DigitOrComma);
    if e < |s| {
      assert s[d..][e - d] == s[e];
      if s[e] == '.' {
        RunEndLocal(s, d, e + 1, Digit);
      }
    }
  }

  lemma {:induction false} DigitsFromLocal(s: string, d: nat, t: nat)
    requires d <= t <= |s|
    ensures DigitsFrom(s, t) == Shift(DigitsFrom(s[d..], t - d), d)
  {
    if t < |s| {
      assert s[d..][t - d] == s[t];
      RunEndLocal(s, d, t, Digit);
    }
  }

  lemma {:induction false} WordsEndLocal(s: string, d: nat, p: nat, words: seq<string>)
    requires d <= p <= |s|
    ensures WordsEnd(s, p, words).Some? <==> WordsEnd(s[d..], p - d, words).Some?
    ensures WordsEnd(s, p, words).Some? ==> WordsEnd(s, p, words).value == d + WordsEnd(s[d..], p - d, words).value
    decreases |words|
  {
    if words != [] {
      WordAtLocal(s, d, p, words[0]);
      if WordAt(s, p, words[0]) {
        var q := SkipSpaces(s, p + |words[0]|);
        RunEndLocal(s, d, p + |words[0]|, Space);
        WordsEndUnfold(s, p, words);
        WordsEndUnfold(s[d..], p - d, words);
        WordsEndLocal(s, d, q, words[1..]);
      }
    }
  }

  /** After a word that matches, the rest of the words are matched from past the blanks that follow it. */
  lemma WordsEndUnfold(s: string, p: nat, words: seq<string>)
    requires p <= |s| && words != [] && WordAt(s, p, words[0])
    ensures WordsEnd(s, p, words) == WordsEnd(s, SkipSpaces(s, p + |words[0]|), words[1..])
  {
  }

  lemma {:induction false} QualifiedDigitsLocal(s: string, d: nat, q: nat, qualifier: seq<string>)
    requires d <= q <= |s|
    ensures QualifiedDigits(s, q, qualifier) == Shift(QualifiedDigits(s[d..], q - d, qualifier), d)
  {
    WordsEndLocal(s, d, q, qualifier);
    DigitsFromLocal(s, d, q);
    if WordsEnd(s, q, qualifier).Some? {
      QualifiedLocal(s, d, q, qualifier, WordsEnd(s, q, qualifier).value);
    } else {
      assert QualifiedDigits(s[d..], q - d, qualifier) == DigitsFrom(s[d..], q - d);
    }
  }

  lemma {:induction false} QualifiedLocal(s: string, d: nat, q: nat, qualifier: seq<string>, t: nat)
    requires d <= q <= |s| && d <= t <= |s|
    requires WordsEnd(s, q, qualifier) == Some(t) && WordsEnd(s[d..], q - d, qualifier) == Some(t - d)
    ensures QualifiedDigits(s, q, qualifier) == Shift(QualifiedDigits(s[d..], q - d, qualifier), d)
  {
    QualifiedAt(s, q, qualifier, t);
    QualifiedAt(s[d..], q - d, qualifier, t - d);
    DigitsFromLocal(s, d, q);
    DigitsFromLocal(s, d, t);
  }

  lemma {:induction false} QualifiedAt(s: string, q: nat, qualifier: seq<string>, t: nat)
    requires q <= |s| && WordsEnd(s, q, qualifier) == Some(t)
    ensures t <= |s|
    ensures QualifiedDigits(s, q, qualifier) == if DigitsFrom(s, t).Some? then DigitsFrom(s, t) else DigitsFrom(s, q)
  {
  }

  lemma {:induction false} LabelDigitsAtLocal(s: string, d: nat, p: nat, marker: string, qualifier: seq<string>)
    requires d <= p <= |s|
    ensures LabelDigitsAt(s, p, marker, qualifier) == Shift(LabelDigitsAt(s[d..], p - d, marker, qualifier), d)
  {
    WordAtLocal(s, d, p, marker);
    if WordAt(s, p, marker) {
      SkipLocal(s, d, p + |marker|);
      MarkedLocal(s, d, p, marker, qualifier, SkipSpaces(s, p + |marker|));
    } else {
      assert LabelDigitsAt(s[d..], p - d, marker, qualifier) == None;
    }
  }

  lemma {:induction false} MarkedLocal(s: string, d: nat, p: nat, marker: string, qualifier: seq<string>, u: nat)
    requires d <= p <= |s| && d <= u <= |s|
    requires WordAt(s, p, marker) && WordAt(s[d..], p - d, marker)
    requires SkipSpaces(s, p + |marker|) == u && SkipSpaces(s[d..], p - d + |marker|) == u - d
    ensures LabelDigitsAt(s, p, marker, qualifier) == Shift(LabelDigitsAt(s[d..], p - d, marker, qualifier), d)
  {
    var t := s[d..];
    MarkedFrom(s, p, marker, qualifier, u);
    MarkedFrom(t, p - d, marker, qualifier, u - d);
    QualifiedDigitsLocal(s, d, u, qualifier);
    ShiftThrough(LabelDigitsAt(s, p, marker, qualifier), LabelDigitsAt(t, p - d, marker, qualifier),
      QualifiedDigits(s, u, qualifier), QualifiedDigits(t, u - d, qualifier), d);
  }

  /** Two results equal to a pair of shifted results are shifted alike. */
  lemma ShiftThrough(a: Option<Span>, b: Option<Span>, qa: Option<Span>, qb: Option<Span>, d: nat)
    requires a == qa && b == qb && qa == Shift(qb, d)
    ensures a == Shift(b, d)
  {
  }

  lemma {:induction false} SkipLocal(s: string, d: nat, p: nat)
    requires d <= p <= |s|
    ensures SkipSpaces(s[d..], p - d) == SkipSpaces(s, p) - d
  {
    RunEndLocal(s, d, p, Space);
  }

  lemma {:induction false} MarkedFrom(s: string, p: nat, marker: string, qualifier: seq<string>, u: nat)
    requires p <= |s| && WordAt(s, p, marker) && SkipSpaces(s, p + |marker|) == u
    ensures LabelDigitsAt(s, p, marker, qualifier) == QualifiedDigits(s, u, qualifier)
  {
    LabelDigitsAtMarked(s, p, marker, qualifier);
  }

  lemma {:induction false} LabelDigitsAtMarked(s: string, p: nat, marker: string, qualifier: seq<string>)
    requires p <= |s| && WordAt(s, p, marker)
    ensures LabelDigitsAt(s, p, marker, qualifier) == QualifiedDigits(s, SkipSpaces(s, p + |marker|), qualifier)
  {
  }

  lemma {:induction false} AnyLabelDigitsAtLocal(s: string, d: nat, p: nat, labels: seq<string>)
    requires d <= p <= |s|
    ensures AnyLabelDigitsAt(s, p, labels) == Shift(AnyLabelDigitsAt(s[d..], p - d, labels), d)
    decreases |labels|
  {
    if labels != [] {
      LabelDigitsAtLocal(s, d, p, labels[0] + ":", []);
      AnyLabelDigitsAtLocal(s, d, p, labels[1..]);
    }
  }

  lemma {:induction false} OptionalColonLocal(s: string, d: nat, t: nat)
    requires d <= t <= |s|
    ensures OptionalColon(s, t) == d + OptionalColon(s[d..], t - d)
  {
    if t < |s| {
      assert s[d..][t - d] == s[t];
      if s[t] == ':' {
        RunEndLocal(s, d, t + 1, Space);
      }
    }
  }

  lemma {:induction false} LooseLabelDigitsAtLocal(s: string, d: nat, p: nat, words: seq<string>)
    requires d <= p <= |s|
    ensures LooseLabelDigitsAt(s, p, words) == Shift(LooseLabelDigitsAt(s[d..], p - d, words), d)
  {
    WordsEndLocal(s, d, p, words);
    if WordsEnd(s, p, words).Some? {
      LabelledLocal(s, d, p, words, WordsEnd(s, p, words).value);
    } else {
      assert LooseLabelDigitsAt(s[d..], p - d, words) == None;
    }
  }

  lemma {:induction false} LabelledLocal(s: string, d: nat, p: nat, words: seq<string>, t: nat)
    requires d <= p <= |s| && d <= t <= |s|
    requires WordsEnd(s, p, words) == Some(t) && WordsEnd(s[d..], p - d, words) == Some(t - d)
    ensures LooseLabelDigitsAt(s, p, words) == Shift(LooseLabelDigitsAt(s[d..], p - d, words), d)
  {
    LabelledAt(s, p, words, t);
    LabelledAt(s[d..], p - d, words, t - d);
    ColonDigitsLocal(s, d, t);
  }

  lemma {:induction false} ColonDigitsLocal(s: string, d: nat, t: nat)
    requires d <= t <= |s|
    ensures DigitsFrom(s, OptionalColon(s, t)) == Shift(DigitsFrom(s[d..], OptionalColon(s[d..], t - d)), d)
  {
    OptionalColonLocal(s, d, t);
    DigitsFromLocal(s, d, OptionalColon(s, t));
  }

  lemma {:induction false} LabelledAt(s: string, p: nat, words: seq<string>, t: nat)
    requires p <= |s| && WordsEnd(s, p, words) == Some(t)
    ensures t <= |s| && LooseLabelDigitsAt(s, p, words) == DigitsFrom(s, OptionalColon(s, t))
  {
  }

  lemma {:induction false} DollarAmountAtLocal(s: string, d: nat, p: nat)
    requires d <= p <= |s|
    ensures DollarAmountAt(s, p) == Shift(DollarAmountAt(s[d..], p - d), d)
  {
    if p < |s| {
      assert s[d..][p - d] == s[p];
      if p + 1 < |s| {
        assert s[d..][p + 1 - d] == s[p + 1];
      }
      if p + 1 < |s| && s[p] == '$' && InClass(DigitOrComma, s[p + 1]) {
        NumeralFromLocal(s, d, p + 1);
      } else if InClass(DigitOrComma, s[p]) {
        NumeralFromLocal(s, d, p);
      }
    }
  }

  lemma {:induction false} CodeAmountAtLocal(s: string, d: nat, p: nat, code: string)
    requires d <= p <= |s|
    ensures CodeAmountAt(s, p, code) == Shift(CodeAmountAt(s[d..], p - d, code), d)
  {
    WordAtLocal(s, d, p, code);
    if WordAt(s, p, code) {
      SkipLocal(s, d, p + |code|);
      CodedLocal(s, d, p, code, SkipSpaces(s, p + |code|));
    } else {
      assert CodeAmountAt(s[d..], p - d, code) == None;
    }
  }

  lemma {:induction false} CodedLocal(s: string, d: nat, p: nat, code: string, q: nat)
    requires d <= p <= |s| && d <= q <= |s|
    requires WordAt(s, p, code) && WordAt(s[d..], p - d, code)
    requires SkipSpaces(s, p + |code|) == q && SkipSpaces(s[d..], p - d + |code|) == q - d
    ensures CodeAmountAt(s, p, code) == Shift(CodeAmountAt(s[d..], p - d, code), d)
  {
    if q < |s| && InClass(DigitOrComma, s[q]) {
      CodedSomeLocal(s, d, p, code, q);
    } else {
      CodedNoneLocal(s, d, p, code, q);
    }
  }

  lemma {:induction false} CodedSomeLocal(s: string, d: nat, p: nat, code: string, q: nat)
    requires d <= p <= |s| && d <= q < |s| && InClass(DigitOrComma, s[q])
    requires WordAt(s, p, code) && WordAt(s[d..], p - d, code)
    requires SkipSpaces(s, p + |code|) == q && SkipSpaces(s[d..], p - d + |code|) == q - d
    ensures CodeAmountAt(s, p, code) == Shift(CodeAmountAt(s[d..], p - d, code), d)
  {
    assert s[d..][q - d] == s[q];
    CodedAt(s, p, code, q);
    CodedAt(s[d..], p - d, code, q - d);
    NumeralFromLocal(s, d, q);
  }

  lemma {:induction false} CodedNoneLocal(s: string, d: nat, p: nat, code: string, q: nat)
    requires d <= p <= |s| && d <= q <= |s| && !(q < |s| && InClass(DigitOrComma, s[q]))
    requires WordAt(s, p, code) && WordAt(s[d..], p - d, code)
    requires SkipSpaces(s, p + |code|) == q && SkipSpaces(s[d..], p - d + |code|) == q - d
    ensures CodeAmountAt(s, p, code) == Shift(CodeAmountAt(s[d..], p - d, code), d)
  {
    assert q < |s| ==> s[d..][q - d] == s[q];
    UncodedAt(s, p, code, q);
    UncodedAt(s[d..], p - d, code, q - d);
  }

  lemma {:induction false} CodedAt(s: string, p: nat, code: string, q: nat)
    requires p <= |s| && WordAt(s, p, code) && SkipSpaces(s, p + |code|) == q
    requires q < |s| && InClass(DigitOrComma, s[q])
    ensures CodeAmountAt(s, p, code) == Some(NumeralFrom(s, q))
  {
  }

  lemma {:induction false} UncodedAt(s: string, p: nat, code: string, q: nat)
    requires p <= |s| && WordAt(s, p, code) && SkipSpaces(s, p + |code|) == q
    requires !(q < |s| && InClass(DigitOrComma, s[q]))
    ensures CodeAmountAt(s, p, code) == None
  {
  }

  lemma {:induction false} NameAfterAtLocal(s: string, d: nat, p: nat, word: string)
    requires d <= p <= |s|
    ensures NameAfterAt(s, p, word) == Shift(NameAfterAt(s[d..], p - d, word), d)
  {
    WordAtLocal(s, d, p, word);
    if WordAt(s, p, word) {
      SkipLocal(s, d, p + |word|);
      NamedLocal(s, d, p, word, SkipSpaces(s, p + |word|));
    } else {
      assert NameAfterAt(s[d..], p - d, word) == None;
    }
  }

  lemma {:induction false} NamedLocal(s: string, d: nat, p: nat, word: string, q: nat)
    requires d <= p <= |s| && d <= q <= |s|
    requires WordAt(s, p, word) && WordAt(s[d..], p - d, word)
    requires SkipSpaces(s, p + |word|) == q && SkipSpaces(s[d..], p - d + |word|) == q - d
    ensures NameAfterAt(s, p, word) == Shift(NameAfterAt(s[d..], p - d, word), d)
  {
    if p + |word| < q < |s| && IsLetter(s[q]) {
      NamedSomeLocal(s, d, p, word, q);
    } else {
      NamedBlankLocal(s, d, p, word, q);
    }
  }

  lemma {:induction false} NamedSomeLocal(s: string, d: nat, p: nat, word: string, q: nat)
    requires d <= p <= |s| && d <= q && p + |word| < q < |s| && IsLetter(s[q])
    requires WordAt(s, p, word) && WordAt(s[d..], p - d, word)
    requires SkipSpaces(s, p + |word|) == q && SkipSpaces(s[d..], p - d + |word|) == q - d
    ensures NameAfterAt(s, p, word) == Shift(NameAfterAt(s[d..], p - d, word), d)
  {
    assert s[d..][q - d] == s[q];
    NamedAt(s, p, word, q);
    NamedAt(s[d..], p - d, word, q - d);
    RunEndLocal(s, d, q, NameChar);
  }

  lemma {:induction false} NamedBlankLocal(s: string, d: nat, p: nat, word: string, q: nat)
    requires d <= p <= |s| && d <= q <= |s| && !(p + |word| < q < |s| && IsLetter(s[q]))
    requires WordAt(s, p, word) && WordAt(s[d..], p - d, word)
    requires SkipSpaces(s, p + |word|) == q && SkipSpaces(s[d..], p - d + |word|) == q - d
    ensures NameAfterAt(s, p, word) == Shift(NameAfterAt(s[d..], p - d, word), d)
  {
    assert q < |s| ==> s[d..][q - d] == s[q];
    UnnamedAt(s, p, word, q);
    UnnamedAt(s[d..], p - d, word, q - d);
  }

  lemma {:induction false} NamedAt(s: string, p: nat, word: string, q: nat)
    requires p <= |s| && WordAt(s, p, word) && SkipSpaces(s, p + |word|) == q
    requires p + |word| < q < |s| && IsLetter(s[q])
    ensures NameAfterAt(s, p, word) == Some(Span(q, RunEnd(s, q, NameChar)))
  {
  }

  /** Without a blank and then a letter, the group is the last of at least two blanks. */
  lemma {:induction false} UnnamedAt(s: string, p: nat, word: string, q: nat)
    requires p <= |s| && WordAt(s, p, word) && SkipSpaces(s, p + |word|) == q
    requires !(p + |word| < q < |s| && IsLetter(s[q]))
    ensures NameAfterAt(s, p, word) == if p + |word| + 2 <= q then Some(Span(q - 1, q)) else None
  {
  }

  lemma {:induction false} BareDigitsAtLocal(s: string, d: nat, p: nat)
    requires d <= p <= |s|
    ensures BareDigitsAt(s, p) == Shift(BareDigitsAt(s[d..], p - d), d)
  {
    RunEndLocal(s, d, p, Digit);
  }

  /** A match at `p` is decided by `s[p..]` alone. */
  lemma {:induction false} MatchAtLocal(pat: Pattern, s: string, p: nat)
    requires p <= |s|
    ensures MatchAt(pat, s, p) == Shift(MatchAt(pat, s[p..], 0), p)
  {
    match pat
    case DollarAmount => DollarAmountAtLocal(s, p, p);
    case CodeAmount(code) => CodeAmountAtLocal(s, p, p, code);
    case NameAfter(word) => NameAfterAtLocal(s, p, p, word);
    case LabelDigits(marker, qualifier) => LabelDigitsAtLocal(s, p, p, marker, qualifier);
    case AnyLabelDigits(labels) => AnyLabelDigitsAtLocal(s, p, p, labels);
    case LooseLabelDigits(words) => LooseLabelDigitsAtLocal(s, p, p, words);
    case BareDigits => BareDigitsAtLocal(s, p, p);
  }

  /** A match found in a suffix is a match at the suffix's start in the whole string. */
  lemma MatchInSuffix(pat: Pattern, s: string, p: nat, t: string, sp: Span)
    requires p <= |s| && s[p..] == t && MatchAt(pat, t, 0) == Some(sp)
    ensures p + sp.end <= |s|
    ensures MatchAt(pat, s, p) == Some(Span(p + sp.start, p + sp.end))
    ensures s[p + sp.start..p + sp.end] == t[sp.start..sp.end]
  {
    CaptureInBounds(pat, t, sp);
    SliceOfSuffix(s, p, t, sp.start, sp.end);
    MatchFromSuffix(pat, s, p, t, sp);
  }

  lemma MatchFromSuffix(pat: Pattern, s: string, p: nat, t: string, sp: Span)
    requires p <= |s| && s[p..] == t && MatchAt(pat, t, 0) == Some(sp)
    ensures MatchAt(pat, s, p) == Some(Span(p + sp.start, p + sp.end))
  {
    MatchShifted(pat, s, p, sp);
    ShiftSome(sp, p);
  }

  /** A capture is a non-empty span inside the scanned string. */
  lemma CaptureInBounds(pat: Pattern, s: string, sp: Span)
    requires IsCapture(pat, s, sp)
    ensures sp.start < sp.end <= |s|
  {
  }

  /** A slice of a suffix is the slice of the whole string shifted by the suffix's start. */
  lemma SliceOfSuffix(s: string, p: nat, t: string, i: nat, j: nat)
    requires p <= |s| && s[p..] == t && i <= j <= |t|
    ensures p + j <= |s| && s[p + i..p + j] == t[i..j]
  {
    forall k | 0 <= k < j - i
      ensures s[p + i..p + j][k] == t[i..j][k]
    {
      assert s[p + i + k] == s[p..][i + k];
    }
  }

  lemma MatchShifted(pat: Pattern, s: string, p: nat, sp: Span)
    requires p <= |s| && MatchAt(pat, s[p..], 0) == Some(sp)
    ensures MatchAt(pat, s, p) == Shift(Some(sp), p)
  {
    MatchAtLocal(pat, s, p);
  }

  lemma ShiftSome(sp: Span, d: nat)
    ensures Shift(Some(sp), d) == Some(Span(d + sp.start, d + sp.end))
  {
  }
}
