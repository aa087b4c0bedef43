/** Worked examples: the mock message bodies of the SMS and e-mail readers run through the
    parser, with an M-Pesa style SMS, a short SMS that validation rejects, a `Ref:` memo, a message
    without a digit and a comma-grouped amount. Each body is written as a chain of suffixes, `body = piece + rest`, and every step is checked on one piece. */
module ParserExamples {
  import opened Wrappers
  import opened Text
  import opened Patterns
  import opened MessageParser

  /** `$d.dd` followed by a non-digit: the dollar rule captures the numeral after the sign. */
  lemma DollarFigureMatch(t: string)
    requires |t| >= 7 && t[0] == '$' && IsDigit(t[1]) && IsDigit(t[2]) && t[3] == '.'
    requires IsDigit(t[4]) && IsDigit(t[5]) && t[6] == ' '
    ensures MatchAt(DollarAmount, t, 0) == Some(Span(1, 6))
  {
    assert AllIn(DigitOrComma, t[1..3]);
    RunEndIs(t, 1, 3, DigitOrComma);
    assert AllIn(Digit, t[4..6]);
    RunEndIs(t, 4, 6, Digit);
  }
  /** "from", one blank, then a name of letters and blanks up to `e`. */
  lemma FromNameMatch(t: string, e: nat)
    requires WordAt(t, 0, "from") && 5 < e < |t| && t[4] == ' ' && IsLetter(t[5])
    requires AllIn(NameChar, t[5..e]) && !InClass(NameChar, t[e])
    ensures MatchAt(SenderRule, t, 0) == Some(Span(5, e))
  {
    assert !IsSpace(t[5]);
    RunEndIs(t, 4, 5, Space);
    RunEndIs(t, 5, e, NameChar);
  }
  /** A label rule read off its parts: the marker, the blanks, the qualifier words, the digits. */
  lemma LabelMatch(t: string, marker: string, qualifier: seq<string>, u: nat, e: nat)
    requires WordAt(t, 0, marker)
    requires WordsEnd(t, SkipSpaces(t, |marker|), qualifier) == Some(u)
    requires u <= |t| && DigitsFrom(t, u) == Some(Span(u, e))
    ensures MatchAt(LabelDigits(marker, qualifier), t, 0) == Some(Span(u, e))
  {
    LabelDigitsAtMarked(t, 0, marker, qualifier);
  }
  /** A label rule whose qualifier does not follow the marker: the digits must come right
      after the blanks. */
  lemma LabelMatchPlain(t: string, marker: string, qualifier: seq<string>, e: nat)
    requires WordAt(t, 0, marker)
    requires WordsEnd(t, SkipSpaces(t, |marker|), qualifier).None?
    requires DigitsFrom(t, SkipSpaces(t, |marker|)) == Some(Span(SkipSpaces(t, |marker|), e))
    ensures MatchAt(LabelDigits(marker, qualifier), t, 0) == Some(Span(SkipSpaces(t, |marker|), e))
  {
    LabelDigitsAtMarked(t, 0, marker, qualifier);
  }
  /** A label rule finds nothing where its marker is absent. */
  lemma NoLabelAt(marker: string, qualifier: seq<string>, s: string, p: nat)
    requires p < |s| && !WordAt(s, p, marker)
    ensures NoMatchIn(LabelDigits(marker, qualifier), s, p, p + 1)
  {
    NoMatchAt(LabelDigits(marker, qualifier), s, p);
  }
  lemma WordsEndStep(t: string, p: nat, w: string, rest: seq<string>)
    requires p <= |t| && WordAt(t, p, w)
    ensures WordsEnd(t, p, [w] + rest) == WordsEnd(t, SkipSpaces(t, p + |w|), rest)
  {
    assert ([w] + rest)[1..] == rest;
  }
  /** What follows the piece `a` of a suffix `a + b` is the suffix `b`. */
  lemma Rest(s: string, lo: nat, a: string, b: string)
    requires lo <= |s| && s[lo..] == a + b
    ensures lo + |a| <= |s| && s[lo + |a|..] == b
  {
    assert s[lo + |a|..] == s[lo..][|a|..];
  }

  /** No match starts at `lo + i` through `lo + j - 1` when the suffix `t + u` from `lo` holds
      no starting character between `i` and `j`, within its first piece `t`. */
  lemma NoMatchInPiece(pat: Pattern, s: string, lo: nat, t: string, u: string, i: nat, j: nat)
    requires lo <= |s| && s[lo..] == t + u && i <= j <= |t| && NoStart(pat, t[i..j])
    ensures lo + j <= |s| && NoMatchIn(pat, s, lo + i, lo + j)
  {
    forall k | 0 <= k < j - i
      ensures s[lo + i..lo + j][k] == t[i..j][k]
    {
      assert s[lo + i + k] == s[lo..][i + k] == (t + u)[i + k];
    }
    assert s[lo + i..lo + j] == t[i..j];
    NoMatchOver(pat, s, lo + i, lo + j);
  }

  /** No match starts anywhere in the suffix `t` from `lo` when `t` holds no starting character. */
  lemma NoMatchInRest(pat: Pattern, s: string, lo: nat, t: string)
    requires lo <= |s| && s[lo..] == t && NoStart(pat, t)
    ensures lo + |t| == |s| && NoMatchIn(pat, s, lo, |s|)
  {
    assert s[lo..|s|] == t;
    NoMatchOver(pat, s, lo, |s|);
  }

  /** A string joined from two pieces without starting characters has none. */
  lemma NoStartJoin(pat: Pattern, a: string, b: string)
    requires NoStart(pat, a) && NoStart(pat, b)
    ensures NoStart(pat, a + b)
  {
    assert forall i :: 0 <= i < |a + b| ==> (a + b)[i] == if i < |a| then a[i] else b[i - |a|];
  }

  /** A label rule finds nothing at `lo + i` when the suffix `t` from `lo` does not spell its
      marker at `i`. */
  lemma NoLabelInPiece(marker: string, qualifier: seq<string>, s: string, lo: nat, t: string, i: nat)
    requires lo <= |s| && s[lo..] == t && i < |t| && !WordAt(t, i, marker)
    ensures lo + i < |s| && NoMatchIn(LabelDigits(marker, qualifier), s, lo + i, lo + i + 1)
  {
    WordAtLocal(s, lo, lo + i, marker);
    NoLabelAt(marker, qualifier, s, lo + i);
  }

  /** No match at `lo` when there is none at the start of the suffix from `lo`. */
  lemma NoMatchAtPiece(pat: Pattern, s: string, lo: nat, t: string)
    requires lo < |s| && s[lo..] == t && MatchAt(pat, t, 0).None?
    ensures NoMatchIn(pat, s, lo, lo + 1)
  {
    MatchAtLocal(pat, s, lo);
    NoMatchAt(pat, s, lo);
  }

  /** A dollar figure `ab.00` is worth `ab` dollars. */
  lemma WholeDollars(a: char, b: char)
    requires IsDigit(a) && IsDigit(b)
    ensures IsNumeral([a, b, '.', '0', '0']) &&
      AmountOf([a, b, '.', '0', '0']) == Some((DigitValue(a) * 10 + DigitValue(b)) as real)
  {
    AmountOfDecimal([a, b], "00");
    assert [a, b] + "." + "00" == [a, b, '.', '0', '0'];
    assert ',' !in [a, b];
    StripCommasNoComma([a, b]);
    TwoDigitsWhole(a, b);
  }

  lemma TwoDigitsWhole(a: char, b: char)
    requires IsDigit(a) && IsDigit(b)
    ensures DecimalValue([a, b], "00") == (DigitValue(a) * 10 + DigitValue(b)) as real
  {
    var ab := [a, b];
    assert ab[..|ab| - 1] == [a] && ab[|ab| - 1] == b;
    assert DigitsValue([a]) == DigitValue(a) by {
      assert [a][..0] == [];
    }
    assert DigitsValue(ab) == DigitsValue([a]) * 10 + DigitValue(b);
    assert DigitsValue("00") == 0 by { assert "00"[..1] == "0"; }
  }


  /** A rule set applied to a message whose three captures are known. */
  lemma ApplyRulesTo(rules: Rules, message: string, now: int, amount: string, sender: string, memo: string,
                     name: string, value: Amount)
    requires WellShaped(rules)
    requires Capture(rules.amount, message) == Some(amount)
    requires Capture(rules.sender, message) == Some(sender)
    requires Capture(rules.memo, message) == Some(memo)
    requires Trim(sender) == name && AmountOf(amount) == value
    ensures Matches(rules, message)
    ensures ApplyRules(rules, message, now) == Some(ParsedMessage(name, value, memo, now))
  {
  }

  /** The rule sets of the four profiles, by the names used below. */
  lemma TableRules()
    ensures ProfileTable[0].rules == Rules(DollarAmount, SenderRule, ZelleMemoRule)
    ensures ProfileTable[1].rules == Rules(DollarAmount, SenderRule, VenmoMemoRule)
    ensures ProfileTable[2].rules == Rules(DollarAmount, SenderRule, CashAppMemoRule)
    ensures ProfileTable[3].rules == Rules(CodeAmount("ksh"), SenderRule, MpesaMemoRule)
  {
  }
  /** The mock Zelle SMS body, "Zelle payment received: $25.00 from Jane Doe. Memo: Member ID
      918245", as a chain of suffixes. */
  const ZelleBody: string := ZelleLead + ZelleAmountOn
  const ZelleLead: string := "Zelle payment received: "
  const ZelleAmountOn: string := "$25.00 " + ZelleFromOn
  const ZelleFromOn: string := "from Jane Doe. " + ZelleMemoOn
  const ZelleMemoOn: string := "Memo: " + "Member " + "ID " + "918245"

  /** The memo rule of the Zelle profile. */
  const ZelleMemoRule: Pattern := LabelDigits("memo:", ["member", "id"])

  lemma ZelleSuffixes()
    ensures |ZelleBody| == 68 && ZelleBody[0..] == ZelleBody
    ensures ZelleBody[24..] == ZelleAmountOn && ZelleBody[31..] == ZelleFromOn && ZelleBody[46..] == ZelleMemoOn
  {
    assert ZelleBody[0..] == ZelleLead + ZelleAmountOn;
    Rest(ZelleBody, 0, ZelleLead, ZelleAmountOn);
    Rest(ZelleBody, 24, "$25.00 ", ZelleFromOn);
    Rest(ZelleBody, 31, "from Jane Doe. ", ZelleMemoOn);
  }

  lemma ZelleAmountMatch()
    ensures |ZelleBody| == 68
    ensures MatchAt(DollarAmount, ZelleBody, 24) == Some(Span(25, 30))
    ensures ZelleBody[25..30] == "25.00"
  {
    assert ZelleAmountOn[1..6] == "25.00";
    ZelleSuffixes();
    DollarFigureMatch(ZelleAmountOn);
    MatchInSuffix(DollarAmount, ZelleBody, 24, ZelleAmountOn, Span(1, 6));
  }

  lemma ZelleAmount()
    ensures Capture(DollarAmount, ZelleBody) == Some("25.00")
  {
    assert NoStart(DollarAmount, ZelleLead[0..24]);
    ZelleSuffixes();
    NoMatchInPiece(DollarAmount, ZelleBody, 0, ZelleLead, ZelleAmountOn, 0, 24);
    ZelleAmountMatch();
    CaptureAt(DollarAmount, ZelleBody, 24, Span(25, 30));
  }

  lemma ZelleFromOnMatch()
    ensures MatchAt(SenderRule, ZelleFromOn, 0) == Some(Span(5, 13))
  {
    var t := ZelleFromOn;
    assert t[0..4] == "from";
    assert t[5..13] == "Jane Doe";
    assert AllIn(NameChar, "Jane Doe");
    FromNameMatch(t, 13);
  }
  lemma ZelleSenderMatch()
    ensures |ZelleBody| == 68
    ensures MatchAt(SenderRule, ZelleBody, 31) == Some(Span(36, 44))
    ensures ZelleBody[36..44] == "Jane Doe"
  {
    assert ZelleFromOn[5..13] == "Jane Doe";
    ZelleSuffixes();
    ZelleFromOnMatch();
    MatchInSuffix(SenderRule, ZelleBody, 31, ZelleFromOn, Span(5, 13));
  }

  lemma ZelleSender()
    ensures Capture(SenderRule, ZelleBody) == Some("Jane Doe")
  {
    var z, r := ZelleBody, SenderRule;
    assert NoStart(r, ZelleLead[0..24]) && NoStart(r, "$25.00 "[0..7]);
    ZelleSuffixes();
    NoMatchInPiece(r, z, 0, ZelleLead, ZelleAmountOn, 0, 24);
    NoMatchInPiece(r, z, 24, "$25.00 ", ZelleFromOn, 0, 7);
    NoMatchJoin(r, z, 0, 24, 31);
    ZelleSenderMatch();
    CaptureAt(r, z, 31, Span(36, 44));
  }

  // The Zelle memo rule: the 'm's before "Memo:" start "me" of "payment" and "m " of "from".

  lemma ZelleNoMemoInLead(s: string, lo: nat)
    requires lo <= |s| && s[lo..] == ZelleBody
    ensures NoMatchIn(ZelleMemoRule, s, lo, lo + 24)
  {
    var m := ZelleMemoRule;
    assert NoStart(m, ZelleLead[0..9]) && NoStart(m, ZelleLead[10..24]);
    assert !WordAt(ZelleBody, 9, "memo:");
    NoMatchInPiece(m, s, lo, ZelleLead, ZelleAmountOn, 0, 9);
    NoLabelInPiece("memo:", ["member", "id"], s, lo, ZelleBody, 9);
    NoMatchInPiece(m, s, lo, ZelleLead, ZelleAmountOn, 10, 24);
    NoMatchJoin(m, s, lo, lo + 9, lo + 10);
    NoMatchJoin(m, s, lo, lo + 10, lo + 24);
  }

  lemma ZelleNoMemoInFrom(s: string, lo: nat)
    requires lo <= |s| && s[lo..] == ZelleFromOn
    ensures NoMatchIn(ZelleMemoRule, s, lo, lo + 15)
  {
    var m, f := ZelleMemoRule, "from Jane Doe. ";
    assert NoStart(m, f[0..3]) && NoStart(m, f[4..15]);
    assert !WordAt(ZelleFromOn, 3, "memo:");
    NoMatchInPiece(m, s, lo, f, ZelleMemoOn, 0, 3);
    NoLabelInPiece("memo:", ["member", "id"], s, lo, ZelleFromOn, 3);
    NoMatchInPiece(m, s, lo, f, ZelleMemoOn, 4, 15);
    NoMatchJoin(m, s, lo, lo + 3, lo + 4);
    NoMatchJoin(m, s, lo, lo + 4, lo + 15);
  }

  lemma ZelleMemoMarker()
    ensures WordAt(ZelleMemoOn, 0, "memo:") && SkipSpaces(ZelleMemoOn, 5) == 6
  {
    assert ZelleMemoOn[0..6] == "Memo: ";
    assert AllIn(Space, ZelleMemoOn[5..6]);
    RunEndIs(ZelleMemoOn, 5, 6, Space);
  }
  lemma ZelleMemoQualifier()
    ensures WordsEnd(ZelleMemoOn, 6, ["member", "id"]) == Some(16)
  {
    var t := ZelleMemoOn;
    assert t[6..13] == "Member ";
    assert WordAt(t, 6, "member");
    assert AllIn(Space, t[12..13]);
    RunEndIs(t, 12, 13, Space);
    WordsEndStep(t, 6, "member", ["id"]);
    assert t[13..16] == "ID ";
    assert WordAt(t, 13, "id");
    assert AllIn(Space, t[15..16]);
    RunEndIs(t, 15, 16, Space);
    WordsEndStep(t, 13, "id", []);
  }
  lemma ZelleMemoDigits()
    ensures |ZelleMemoOn| == 22 && DigitsFrom(ZelleMemoOn, 16) == Some(Span(16, 22))
    ensures ZelleMemoOn[16..22] == "918245"
  {
    assert ZelleMemoOn[16..22] == "918245";
    assert AllIn(Digit, "918245");
    RunEndIs(ZelleMemoOn, 16, 22, Digit);
  }
  lemma ZelleMemoOnMatch()
    ensures MatchAt(ZelleMemoRule, ZelleMemoOn, 0) == Some(Span(16, 22))
  {
    ZelleMemoMarker();
    ZelleMemoQualifier();
    ZelleMemoDigits();
    LabelMatch(ZelleMemoOn, "memo:", ["member", "id"], 16, 22);
  }
  lemma ZelleMemoMatch()
    ensures |ZelleBody| == 68
    ensures MatchAt(ZelleMemoRule, ZelleBody, 46) == Some(Span(62, 68))
    ensures ZelleBody[62..68] == "918245"
  {
    ZelleSuffixes();
    ZelleMemoDigits();
    ZelleMemoOnMatch();
    MatchInSuffix(ZelleMemoRule, ZelleBody, 46, ZelleMemoOn, Span(16, 22));
  }

  lemma ZelleMemo()
    ensures Capture(ZelleMemoRule, ZelleBody) == Some("918245")
  {
    var z, m := ZelleBody, ZelleMemoRule;
    ZelleSuffixes();
    ZelleNoMemoInLead(z, 0);
    assert NoStart(m, "$25.00 "[0..7]);
    NoMatchInPiece(m, z, 24, "$25.00 ", ZelleFromOn, 0, 7);
    ZelleNoMemoInFrom(z, 31);
    NoMatchJoin(m, z, 0, 24, 31);
    NoMatchJoin(m, z, 0, 31, 46);
    ZelleMemoMatch();
    CaptureAt(ZelleMemoRule, ZelleBody, 46, Span(62, 68));
  }

  lemma AmountTwentyFive()
    ensures AmountOf("25.00") == Some(25.0)
  {
    assert "25.00" == ['2', '5', '.', '0', '0'];
    WholeDollars('2', '5');
  }


  lemma ZelleCaptures()
    ensures Capture(DollarAmount, ZelleBody) == Some("25.00")
    ensures Capture(SenderRule, ZelleBody) == Some("Jane Doe")
    ensures Capture(ZelleMemoRule, ZelleBody) == Some("918245")
  {
    ZelleAmount();
    ZelleSender();
    ZelleMemo();
  }
  lemma JaneDoeTrimmed()
    ensures Trim("Jane Doe") == "Jane Doe"
  {
    var t := "Jane Doe";
    assert t[0] == 'J' && t[|t| - 1] == 'e';
    TrimFixed(t);
  }
  lemma ZelleRules(now: int)
    ensures Matches(ProfileTable[0].rules, ZelleBody)
    ensures ApplyRules(ProfileTable[0].rules, ZelleBody, now) == Some(ParsedMessage("Jane Doe", Some(25.0), "918245", now))
  {
    TableRules();
    ZelleApplied(now);
  }
  lemma ZelleApplied(now: int)
    ensures Matches(Rules(DollarAmount, SenderRule, ZelleMemoRule), ZelleBody)
    ensures ApplyRules(Rules(DollarAmount, SenderRule, ZelleMemoRule), ZelleBody, now) == Some(ParsedMessage("Jane Doe", Some(25.0), "918245", now))
  {
    ZelleCaptures();
    AmountTwentyFive();
    JaneDoeTrimmed();
    ApplyRulesTo(Rules(DollarAmount, SenderRule, ZelleMemoRule), ZelleBody, now, "25.00", "Jane Doe", "918245", "Jane Doe", Some(25.0));
  }

  /** The mock Zelle SMS parses, by the Zelle profile, to sender "Jane Doe", amount 25 and
      member id "918245". */
  lemma ZelleExample(now: int)
    ensures ParsePaymentMessage(ZelleBody, SMS, now) == Some(ParsedMessage("Jane Doe", Some(25.0), "918245", now))
  {
    ZelleRules(now);
    ParseTakesFirstProfile(ZelleBody, SMS, now, 0);
  }
  /** The mock Venmo SMS body, "Venmo: You received $30.00 from John Smith. Note: 784293", as a
      chain of suffixes. */
  const VenmoBody: string := VenmoLead + VenmoAmountOn
  const VenmoLead: string := "Venmo: You received "
  const VenmoAmountOn: string := "$30.00 " + VenmoFromOn
  const VenmoFromOn: string := "from John Smith. " + VenmoNoteOn
  const VenmoNoteOn: string := "Note: " + "784293"

  /** The memo rule of the Venmo profile. */
  const VenmoMemoRule: Pattern := LabelDigits("note:", ["member", "id"])

  lemma VenmoSuffixes()
    ensures |VenmoBody| == 56 && VenmoBody[0..] == VenmoBody
    ensures VenmoBody[20..] == VenmoAmountOn && VenmoBody[27..] == VenmoFromOn && VenmoBody[44..] == VenmoNoteOn
  {
    assert VenmoBody[0..] == VenmoLead + VenmoAmountOn;
    Rest(VenmoBody, 0, VenmoLead, VenmoAmountOn);
    Rest(VenmoBody, 20, "$30.00 ", VenmoFromOn);
    Rest(VenmoBody, 27, "from John Smith. ", VenmoNoteOn);
  }

  // The Zelle memo rule finds no "memo:" in the Venmo body; its only 'm's start "mo:", "m " and "mi".

  lemma VenmoNoZelleMemoInLead(s: string, lo: nat)
    requires lo <= |s| && s[lo..] == VenmoBody
    ensures NoMatchIn(ZelleMemoRule, s, lo, lo + 20)
  {
    var m := ZelleMemoRule;
    assert NoStart(m, VenmoLead[0..3]) && NoStart(m, VenmoLead[4..20]);
    assert !WordAt(VenmoBody, 3, "memo:");
    NoMatchInPiece(m, s, lo, VenmoLead, VenmoAmountOn, 0, 3);
    NoLabelInPiece("memo:", ["member", "id"], s, lo, VenmoBody, 3);
    NoMatchInPiece(m, s, lo, VenmoLead, VenmoAmountOn, 4, 20);
    NoMatchJoin(m, s, lo, lo + 3, lo + 4);
    NoMatchJoin(m, s, lo, lo + 4, lo + 20);
  }

  lemma VenmoNoZelleMemoInFrom(s: string, lo: nat)
    requires lo <= |s| && s[lo..] == VenmoFromOn
    ensures NoMatchIn(ZelleMemoRule, s, lo, lo + 17)
  {
    var m, f := ZelleMemoRule, "from John Smith. ";
    assert NoStart(m, f[0..3]) && NoStart(m, f[4..11]) && NoStart(m, f[12..17]);
    assert !WordAt(VenmoFromOn, 3, "memo:") && !WordAt(VenmoFromOn, 11, "memo:");
    NoMatchInPiece(m, s, lo, f, VenmoNoteOn, 0, 3);
    NoLabelInPiece("memo:", ["member", "id"], s, lo, VenmoFromOn, 3);
    NoMatchInPiece(m, s, lo, f, VenmoNoteOn, 4, 11);
    NoLabelInPiece("memo:", ["member", "id"], s, lo, VenmoFromOn, 11);
    NoMatchInPiece(m, s, lo, f, VenmoNoteOn, 12, 17);
    NoMatchJoin(m, s, lo, lo + 3, lo + 4);
    NoMatchJoin(m, s, lo, lo + 4, lo + 11);
    NoMatchJoin(m, s, lo, lo + 11, lo + 12);
    NoMatchJoin(m, s, lo, lo + 12, lo + 17);
  }

  /** The Venmo body is not a Zelle message: it has no "memo:". */
  lemma VenmoNotZelle()
    ensures !Matches(ProfileTable[0].rules, VenmoBody)
  {
    var z, m := VenmoBody, ZelleMemoRule;
    VenmoSuffixes();
    VenmoNoZelleMemoInLead(z, 0);
    assert NoStart(m, "$30.00 "[0..7]) && NoStart(m, "Note: ") && NoStart(m, "784293");
    NoMatchInPiece(m, z, 20, "$30.00 ", VenmoFromOn, 0, 7);
    VenmoNoZelleMemoInFrom(z, 27);
    NoStartJoin(m, "Note: ", "784293");
    NoMatchInRest(m, z, 44, VenmoNoteOn);
    NoMatchJoin(m, z, 0, 20, 27);
    NoMatchJoin(m, z, 0, 27, 44);
    NoMatchJoin(m, z, 0, 44, 56);
    NoMatchNoCapture(m, z);
  }

  lemma VenmoAmountMatch()
    ensures |VenmoBody| == 56
    ensures MatchAt(DollarAmount, VenmoBody, 20) == Some(Span(21, 26))
    ensures VenmoBody[21..26] == "30.00"
  {
    assert VenmoAmountOn[1..6] == "30.00";
    VenmoSuffixes();
    DollarFigureMatch(VenmoAmountOn);
    MatchInSuffix(DollarAmount, VenmoBody, 20, VenmoAmountOn, Span(1, 6));
  }

  lemma VenmoAmount()
    ensures Capture(DollarAmount, VenmoBody) == Some("30.00")
  {
    assert NoStart(DollarAmount, VenmoLead[0..20]);
    VenmoSuffixes();
    NoMatchInPiece(DollarAmount, VenmoBody, 0, VenmoLead, VenmoAmountOn, 0, 20);
    VenmoAmountMatch();
    CaptureAt(DollarAmount, VenmoBody, 20, Span(21, 26));
  }

  lemma VenmoFromOnMatch()
    ensures MatchAt(SenderRule, VenmoFromOn, 0) == Some(Span(5, 15))
  {
    var t := VenmoFromOn;
    assert t[0..4] == "from";
    assert t[5..16] == "John Smith.";
    assert AllIn(NameChar, "John Smith");
    FromNameMatch(t, 15);
  }
  lemma VenmoSenderMatch()
    ensures |VenmoBody| == 56
    ensures MatchAt(SenderRule, VenmoBody, 27) == Some(Span(32, 42))
    ensures VenmoBody[32..42] == "John Smith"
  {
    assert VenmoFromOn[5..15] == "John Smith";
    VenmoSuffixes();
    VenmoFromOnMatch();
    MatchInSuffix(SenderRule, VenmoBody, 27, VenmoFromOn, Span(5, 15));
  }

  lemma VenmoSender()
    ensures Capture(SenderRule, VenmoBody) == Some("John Smith")
  {
    var z, r := VenmoBody, SenderRule;
    assert NoStart(r, VenmoLead[0..20]) && NoStart(r, "$30.00 "[0..7]);
    VenmoSuffixes();
    NoMatchInPiece(r, z, 0, VenmoLead, VenmoAmountOn, 0, 20);
    NoMatchInPiece(r, z, 20, "$30.00 ", VenmoFromOn, 0, 7);
    NoMatchJoin(r, z, 0, 20, 27);
    VenmoSenderMatch();
    CaptureAt(r, z, 27, Span(32, 42));
  }

  // The Venmo memo rule: the 'n's before "Note:" start "nm" and "n ".

  lemma VenmoNoNoteInLead(s: string, lo: nat)
    requires lo <= |s| && s[lo..] == VenmoBody
    ensures NoMatchIn(VenmoMemoRule, s, lo, lo + 20)
  {
    var m := VenmoMemoRule;
    assert NoStart(m, VenmoLead[0..2]) && NoStart(m, VenmoLead[3..20]);
    assert !WordAt(VenmoBody, 2, "note:");
    NoMatchInPiece(m, s, lo, VenmoLead, VenmoAmountOn, 0, 2);
    NoLabelInPiece("note:", ["member", "id"], s, lo, VenmoBody, 2);
    NoMatchInPiece(m, s, lo, VenmoLead, VenmoAmountOn, 3, 20);
    NoMatchJoin(m, s, lo, lo + 2, lo + 3);
    NoMatchJoin(m, s, lo, lo + 3, lo + 20);
  }

  lemma VenmoNoNoteInFrom(s: string, lo: nat)
    requires lo <= |s| && s[lo..] == VenmoFromOn
    ensures NoMatchIn(VenmoMemoRule, s, lo, lo + 17)
  {
    var m, f := VenmoMemoRule, "from John Smith. ";
    assert NoStart(m, f[0..8]) && NoStart(m, f[9..17]);
    assert !WordAt(VenmoFromOn, 8, "note:");
    NoMatchInPiece(m, s, lo, f, VenmoNoteOn, 0, 8);
    NoLabelInPiece("note:", ["member", "id"], s, lo, VenmoFromOn, 8);
    NoMatchInPiece(m, s, lo, f, VenmoNoteOn, 9, 17);
    NoMatchJoin(m, s, lo, lo + 8, lo + 9);
    NoMatchJoin(m, s, lo, lo + 9, lo + 17);
  }

  lemma VenmoNoteOnMatch()
    ensures MatchAt(VenmoMemoRule, VenmoNoteOn, 0) == Some(Span(6, 12))
  {
    var t := VenmoNoteOn;
    assert t[0..6] == "Note: ";
    assert AllIn(Space, t[5..6]);
    RunEndIs(t, 5, 6, Space);
    assert !WordAt(t, 6, "member");
    assert t[6..12] == "784293";
    assert AllIn(Digit, "784293");
    RunEndIs(t, 6, 12, Digit);
    LabelMatchPlain(t, "note:", ["member", "id"], 12);
  }
  lemma VenmoMemoMatch()
    ensures |VenmoBody| == 56
    ensures MatchAt(VenmoMemoRule, VenmoBody, 44) == Some(Span(50, 56))
    ensures VenmoBody[50..56] == "784293"
  {
    assert VenmoNoteOn[6..12] == "784293";
    VenmoSuffixes();
    VenmoNoteOnMatch();
    MatchInSuffix(VenmoMemoRule, VenmoBody, 44, VenmoNoteOn, Span(6, 12));
  }

  lemma VenmoMemo()
    ensures Capture(VenmoMemoRule, VenmoBody) == Some("784293")
  {
    var z, m := VenmoBody, VenmoMemoRule;
    VenmoSuffixes();
    VenmoNoNoteInLead(z, 0);
    assert NoStart(m, "$30.00 "[0..7]);
    NoMatchInPiece(m, z, 20, "$30.00 ", VenmoFromOn, 0, 7);
    VenmoNoNoteInFrom(z, 27);
    NoMatchJoin(m, z, 0, 20, 27);
    NoMatchJoin(m, z, 0, 27, 44);
    VenmoMemoMatch();
    CaptureAt(VenmoMemoRule, VenmoBody, 44, Span(50, 56));
  }

  lemma AmountThirty()
    ensures AmountOf("30.00") == Some(30.0)
  {
    assert "30.00" == ['3', '0', '.', '0', '0'];
    WholeDollars('3', '0');
  }


  lemma VenmoCaptures()
    ensures Capture(DollarAmount, VenmoBody) == Some("30.00")
    ensures Capture(SenderRule, VenmoBody) == Some("John Smith")
    ensures Capture(VenmoMemoRule, VenmoBody) == Some("784293")
  {
    VenmoAmount();
    VenmoSender();
    VenmoMemo();
  }
  lemma JohnSmithTrimmed()
    ensures Trim("John Smith") == "John Smith"
  {
    var t := "John Smith";
    assert t[0] == 'J' && t[|t| - 1] == 'h';
    TrimFixed(t);
  }
  lemma VenmoRules(now: int)
    ensures Matches(ProfileTable[1].rules, VenmoBody)
    ensures ApplyRules(ProfileTable[1].rules, VenmoBody, now) == Some(ParsedMessage("John Smith", Some(30.0), "784293", now))
  {
    TableRules();
    VenmoApplied(now);
  }
  lemma VenmoApplied(now: int)
    ensures Matches(Rules(DollarAmount, SenderRule, VenmoMemoRule), VenmoBody)
    ensures ApplyRules(Rules(DollarAmount, SenderRule, VenmoMemoRule), VenmoBody, now) == Some(ParsedMessage("John Smith", Some(30.0), "784293", now))
  {
    VenmoCaptures();
    AmountThirty();
    JohnSmithTrimmed();
    ApplyRulesTo(Rules(DollarAmount, SenderRule, VenmoMemoRule), VenmoBody, now, "30.00", "John Smith", "784293", "John Smith", Some(30.0));
  }

  /** The mock Venmo SMS is not a Zelle message, and parses by the Venmo profile to sender
      "John Smith", amount 30 and member id "784293". */
  lemma VenmoExample(now: int)
    ensures ParsePaymentMessage(VenmoBody, SMS, now) == Some(ParsedMessage("John Smith", Some(30.0), "784293", now))
  {
    VenmoNotZelle();
    NoneMatchBeforeNext(ProfileTable, VenmoBody, 0);
    VenmoRules(now);
    ParseTakesFirstProfile(VenmoBody, SMS, now, 1);
  }
  /** The mock Cash App e-mail body, "Cash App: You received $15.00 from Mike Brown. Note:
      Account No 673892", as a chain of suffixes. */
  const CashAppBody: string := CashAppLead + CashAppAmountOn
  const CashAppLead: string := "Cash App: You received "
  const CashAppAmountOn: string := "$15.00 " + CashAppFromOn
  const CashAppFromOn: string := "from Mike Brown. " + CashAppNoteOn
  const CashAppNoteOn: string := "Note: " + CashAppAccountOn
  const CashAppAccountOn: string := "Account " + CashAppNoOn
  const CashAppNoOn: string := "No " + "673892"

  /** The memo rule of the Cash App profile. */
  const CashAppMemoRule: Pattern := LabelDigits("note:", ["account", "no"])

  lemma CashAppSuffixes()
    ensures |CashAppBody| == 70 && CashAppBody[0..] == CashAppBody
    ensures CashAppBody[23..] == CashAppAmountOn && CashAppBody[30..] == CashAppFromOn && CashAppBody[47..] == CashAppNoteOn
  {
    assert CashAppBody[0..] == CashAppLead + CashAppAmountOn;
    Rest(CashAppBody, 0, CashAppLead, CashAppAmountOn);
    Rest(CashAppBody, 23, "$15.00 ", CashAppFromOn);
    Rest(CashAppBody, 30, "from Mike Brown. ", CashAppNoteOn);
  }

  /** Neither the lead nor the amount holds an 'm', an 'n' or an 'f'. */
  lemma CashAppNoLabelInLead(pat: Pattern)
    requires pat in {ZelleMemoRule, VenmoMemoRule, CashAppMemoRule, SenderRule}
    ensures NoMatchIn(pat, CashAppBody, 0, 30)
  {
    var z := CashAppBody;
    assert NoStart(pat, CashAppLead[0..23]) && NoStart(pat, "$15.00 "[0..7]);
    CashAppSuffixes();
    NoMatchInPiece(pat, z, 0, CashAppLead, CashAppAmountOn, 0, 23);
    NoMatchInPiece(pat, z, 23, "$15.00 ", CashAppFromOn, 0, 7);
    NoMatchJoin(pat, z, 0, 23, 30);
  }

  // The Zelle memo rule finds no "memo:" in the Cash App body; its only 'm's start "m " and "Mi".

  lemma CashAppNoZelleMemoInFrom(s: string, lo: nat)
    requires lo <= |s| && s[lo..] == CashAppFromOn
    ensures NoMatchIn(ZelleMemoRule, s, lo, lo + 17)
  {
    var m, f := ZelleMemoRule, "from Mike Brown. ";
    assert NoStart(m, f[0..3]) && NoStart(m, f[4..5]) && NoStart(m, f[6..17]);
    assert !WordAt(CashAppFromOn, 3, "memo:") && !WordAt(CashAppFromOn, 5, "memo:");
    NoMatchInPiece(m, s, lo, f, CashAppNoteOn, 0, 3);
    NoLabelInPiece("memo:", ["member", "id"], s, lo, CashAppFromOn, 3);
    NoMatchInPiece(m, s, lo, f, CashAppNoteOn, 4, 5);
    NoLabelInPiece("memo:", ["member", "id"], s, lo, CashAppFromOn, 5);
    NoMatchInPiece(m, s, lo, f, CashAppNoteOn, 6, 17);
    NoMatchJoin(m, s, lo, lo + 3, lo + 4);
    NoMatchJoin(m, s, lo, lo + 4, lo + 5);
    NoMatchJoin(m, s, lo, lo + 5, lo + 6);
    NoMatchJoin(m, s, lo, lo + 6, lo + 17);
  }

  lemma CashAppNoteNoZelleMemo(s: string, lo: nat)
    requires lo <= |s| && s[lo..] == CashAppNoteOn
    ensures lo + 23 == |s| && NoMatchIn(ZelleMemoRule, s, lo, |s|)
  {
    var m := ZelleMemoRule;
    assert NoStart(m, "Note: ") && NoStart(m, "Account ") && NoStart(m, "No ") && NoStart(m, "673892");
    NoStartJoin(m, "No ", "673892");
    NoStartJoin(m, "Account ", CashAppNoOn);
    NoStartJoin(m, "Note: ", CashAppAccountOn);
    NoMatchInRest(m, s, lo, CashAppNoteOn);
  }

  /** The Cash App body is not a Zelle message: it has no "memo:". */
  lemma CashAppNotZelle()
    ensures !Matches(ProfileTable[0].rules, CashAppBody)
  {
    CashAppSuffixes();
    CashAppNoLabelInLead(ZelleMemoRule);
    CashAppNoZelleMemoInFrom(CashAppBody, 30);
    CashAppNoteNoZelleMemo(CashAppBody, 47);
    NoMatchJoin(ZelleMemoRule, CashAppBody, 30, 47, 70);
    NoMatchJoin(ZelleMemoRule, CashAppBody, 0, 30, 70);
    NoMatchNoCapture(ZelleMemoRule, CashAppBody);
  }

  // The Venmo and Cash App memo rules: the 'n' of "Brown." starts "n.".

  lemma CashAppNoNoteInFrom(qualifier: seq<string>, s: string, lo: nat)
    requires lo <= |s| && s[lo..] == CashAppFromOn
    ensures NoMatchIn(LabelDigits("note:", qualifier), s, lo, lo + 17)
  {
    var m, f := LabelDigits("note:", qualifier), "from Mike Brown. ";
    assert NoStart(m, f[0..14]) && NoStart(m, f[15..17]);
    assert !WordAt(CashAppFromOn, 14, "note:");
    NoMatchInPiece(m, s, lo, f, CashAppNoteOn, 0, 14);
    NoLabelInPiece("note:", qualifier, s, lo, CashAppFromOn, 14);
    NoMatchInPiece(m, s, lo, f, CashAppNoteOn, 15, 17);
    NoMatchJoin(m, s, lo, lo + 14, lo + 15);
    NoMatchJoin(m, s, lo, lo + 15, lo + 17);
  }

  lemma CashAppNoteOnNoVenmo()
    ensures MatchAt(VenmoMemoRule, CashAppNoteOn, 0).None?
  {
    var t := CashAppNoteOn;
    assert t[0..7] == "Note: A";
    assert AllIn(Space, t[5..6]);
    RunEndIs(t, 5, 6, Space);
    assert !WordAt(t, 6, "member");
    LabelDigitsAtMarked(t, 0, "note:", ["member", "id"]);
  }
  // Within the note, the Venmo memo rule finds "Note:" followed by "Account No", not by a member
  // id; the other 'n's start "nt" and "No ".

  lemma CashAppNoVenmoMemoInAccount(s: string, lo: nat)
    requires lo <= |s| && s[lo..] == CashAppAccountOn
    ensures lo + 17 == |s| && NoMatchIn(VenmoMemoRule, s, lo, |s|)
  {
    var m := VenmoMemoRule;
    assert NoStart(m, "Account "[0..5]) && NoStart(m, "Account "[6..8]) && NoStart(m, "No "[1..3]);
    assert NoStart(m, "673892");
    assert !WordAt(CashAppAccountOn, 5, "note:") && !WordAt(CashAppNoOn, 0, "note:");
    NoMatchInPiece(m, s, lo, "Account ", CashAppNoOn, 0, 5);
    NoLabelInPiece("note:", ["member", "id"], s, lo, CashAppAccountOn, 5);
    NoMatchInPiece(m, s, lo, "Account ", CashAppNoOn, 6, 8);
    Rest(s, lo, "Account ", CashAppNoOn);
    NoLabelInPiece("note:", ["member", "id"], s, lo + 8, CashAppNoOn, 0);
    NoMatchInPiece(m, s, lo + 8, "No ", "673892", 1, 3);
    Rest(s, lo + 8, "No ", "673892");
    NoMatchInRest(m, s, lo + 11, "673892");
    NoMatchJoin(m, s, lo, lo + 5, lo + 6);
    NoMatchJoin(m, s, lo, lo + 6, lo + 8);
    NoMatchJoin(m, s, lo, lo + 8, lo + 9);
    NoMatchJoin(m, s, lo, lo + 9, lo + 11);
    NoMatchJoin(m, s, lo, lo + 11, lo + 17);
  }

  lemma CashAppNoVenmoMemoInNote(s: string, lo: nat)
    requires lo <= |s| && s[lo..] == CashAppNoteOn
    ensures lo + 23 == |s| && NoMatchIn(VenmoMemoRule, s, lo, |s|)
  {
    var m := VenmoMemoRule;
    assert NoStart(m, "Note: "[1..6]);
    CashAppNoteOnNoVenmo();
    NoMatchAtPiece(m, s, lo, CashAppNoteOn);
    NoMatchInPiece(m, s, lo, "Note: ", CashAppAccountOn, 1, 6);
    Rest(s, lo, "Note: ", CashAppAccountOn);
    CashAppNoVenmoMemoInAccount(s, lo + 6);
    NoMatchJoin(m, s, lo, lo + 1, lo + 6);
    NoMatchJoin(m, s, lo, lo + 6, |s|);
  }

  /** The Cash App body is not a Venmo message: after "Note:" comes "Account No", not a member id. */
  lemma CashAppNotVenmo()
    ensures !Matches(ProfileTable[1].rules, CashAppBody)
  {
    var z, m := CashAppBody, VenmoMemoRule;
    CashAppSuffixes();
    CashAppNoLabelInLead(m);
    CashAppNoNoteInFrom(["member", "id"], z, 30);
    NoMatchJoin(m, z, 0, 30, 47);
    CashAppNoVenmoMemoInNote(z, 47);
    NoMatchJoin(m, z, 0, 47, 70);
    NoMatchNoCapture(m, z);
  }

  lemma CashAppAmountMatch()
    ensures |CashAppBody| == 70
    ensures MatchAt(DollarAmount, CashAppBody, 23) == Some(Span(24, 29))
    ensures CashAppBody[24..29] == "15.00"
  {
    assert CashAppAmountOn[1..6] == "15.00";
    CashAppSuffixes();
    DollarFigureMatch(CashAppAmountOn);
    MatchInSuffix(DollarAmount, CashAppBody, 23, CashAppAmountOn, Span(1, 6));
  }

  lemma CashAppAmount()
    ensures Capture(DollarAmount, CashAppBody) == Some("15.00")
  {
    assert NoStart(DollarAmount, CashAppLead[0..23]);
    CashAppSuffixes();
    NoMatchInPiece(DollarAmount, CashAppBody, 0, CashAppLead, CashAppAmountOn, 0, 23);
    CashAppAmountMatch();
    CaptureAt(DollarAmount, CashAppBody, 23, Span(24, 29));
  }

  lemma CashAppFromOnMatch()
    ensures MatchAt(SenderRule, CashAppFromOn, 0) == Some(Span(5, 15))
  {
    var t := CashAppFromOn;
    assert t[0..4] == "from";
    assert t[5..16] == "Mike Brown.";
    assert AllIn(NameChar, "Mike Brown");
    FromNameMatch(t, 15);
  }
  lemma CashAppSenderMatch()
    ensures |CashAppBody| == 70
    ensures MatchAt(SenderRule, CashAppBody, 30) == Some(Span(35, 45))
    ensures CashAppBody[35..45] == "Mike Brown"
  {
    assert CashAppFromOn[5..15] == "Mike Brown";
    CashAppSuffixes();
    CashAppFromOnMatch();
    MatchInSuffix(SenderRule, CashAppBody, 30, CashAppFromOn, Span(5, 15));
  }

  lemma CashAppSender()
    ensures Capture(SenderRule, CashAppBody) == Some("Mike Brown")
  {
    CashAppNoLabelInLead(SenderRule);
    CashAppSenderMatch();
    CaptureAt(SenderRule, CashAppBody, 30, Span(35, 45));
  }

  lemma CashAppNoteQualifier()
    ensures WordsEnd(CashAppNoteOn, 6, ["account", "no"]) == Some(17)
  {
    var t := CashAppNoteOn;
    assert t[6..14] == "Account ";
    assert WordAt(t, 6, "account");
    assert AllIn(Space, t[13..14]);
    RunEndIs(t, 13, 14, Space);
    WordsEndStep(t, 6, "account", ["no"]);
    assert t[14..17] == "No ";
    assert WordAt(t, 14, "no");
    assert AllIn(Space, t[16..17]);
    RunEndIs(t, 16, 17, Space);
    WordsEndStep(t, 14, "no", []);
  }
  lemma CashAppNoteMarker()
    ensures WordAt(CashAppNoteOn, 0, "note:") && SkipSpaces(CashAppNoteOn, 5) == 6
  {
    assert CashAppNoteOn[0..6] == "Note: ";
    assert AllIn(Space, CashAppNoteOn[5..6]);
    RunEndIs(CashAppNoteOn, 5, 6, Space);
  }
  lemma CashAppNoteDigits()
    ensures |CashAppNoteOn| == 23 && DigitsFrom(CashAppNoteOn, 17) == Some(Span(17, 23))
    ensures CashAppNoteOn[17..23] == "673892"
  {
    assert CashAppNoteOn[17..23] == "673892";
    assert AllIn(Digit, "673892");
    RunEndIs(CashAppNoteOn, 17, 23, Digit);
  }
  lemma CashAppNoteOnMatch()
    ensures MatchAt(CashAppMemoRule, CashAppNoteOn, 0) == Some(Span(17, 23))
  {
    CashAppNoteMarker();
    CashAppNoteQualifier();
    CashAppNoteDigits();
    LabelMatch(CashAppNoteOn, "note:", ["account", "no"], 17, 23);
  }
  lemma CashAppMemoMatch()
    ensures |CashAppBody| == 70
    ensures MatchAt(CashAppMemoRule, CashAppBody, 47) == Some(Span(64, 70))
    ensures CashAppBody[64..70] == "673892"
  {
    CashAppSuffixes();
    CashAppNoteDigits();
    CashAppNoteOnMatch();
    MatchInSuffix(CashAppMemoRule, CashAppBody, 47, CashAppNoteOn, Span(17, 23));
  }

  lemma CashAppMemo()
    ensures Capture(CashAppMemoRule, CashAppBody) == Some("673892")
  {
    CashAppNoLabelInLead(CashAppMemoRule);
    CashAppSuffixes();
    CashAppNoNoteInFrom(["account", "no"], CashAppBody, 30);
    NoMatchJoin(CashAppMemoRule, CashAppBody, 0, 30, 47);
    CashAppMemoMatch();
    CaptureAt(CashAppMemoRule, CashAppBody, 47, Span(64, 70));
  }


  lemma AmountFifteen()
    ensures AmountOf("15.00") == Some(15.0)
  {
    assert "15.00" == ['1', '5', '.', '0', '0'];
    WholeDollars('1', '5');
  }

  lemma MikeBrownTrimmed()
    ensures Trim("Mike Brown") == "Mike Brown"
  {
    var t := "Mike Brown";
    assert t[0] == 'M' && t[|t| - 1] == 'n';
    TrimFixed(t);
  }
  lemma CashAppCaptures()
    ensures Capture(DollarAmount, CashAppBody) == Some("15.00")
    ensures Capture(SenderRule, CashAppBody) == Some("Mike Brown")
    ensures Capture(CashAppMemoRule, CashAppBody) == Some("673892")
  {
    CashAppAmount();
    CashAppSender();
    CashAppMemo();
  }
  lemma CashAppRules(now: int)
    ensures Matches(ProfileTable[2].rules, CashAppBody)
    ensures ApplyRules(ProfileTable[2].rules, CashAppBody, now) == Some(ParsedMessage("Mike Brown", Some(15.0), "673892", now))
  {
    TableRules();
    CashAppApplied(now);
  }
  lemma CashAppApplied(now: int)
    ensures Matches(Rules(DollarAmount, SenderRule, CashAppMemoRule), CashAppBody)
    ensures ApplyRules(Rules(DollarAmount, SenderRule, CashAppMemoRule), CashAppBody, now) == Some(ParsedMessage("Mike Brown", Some(15.0), "673892", now))
  {
    CashAppCaptures();
    AmountFifteen();
    MikeBrownTrimmed();
    ApplyRulesTo(Rules(DollarAmount, SenderRule, CashAppMemoRule), CashAppBody, now, "15.00", "Mike Brown", "673892", "Mike Brown", Some(15.0));
  }

  /** The mock Cash App e-mail is neither a Zelle nor a Venmo message, and parses by the Cash App
      profile to sender "Mike Brown", amount 15 and member id "673892". */
  lemma CashAppExample(now: int)
    ensures ParsePaymentMessage(CashAppBody, Email, now) == Some(ParsedMessage("Mike Brown", Some(15.0), "673892", now))
  {
    CashAppNotZelle();
    NoneMatchBeforeNext(ProfileTable, CashAppBody, 0);
    CashAppNotVenmo();
    NoneMatchBeforeNext(ProfileTable, CashAppBody, 1);
    CashAppRules(now);
    ParseTakesFirstProfile(CashAppBody, Email, now, 2);
  }
  /** "Ref: 12345" carries no "member id", "id", "account no" or "account" label, so the "ref"
      pattern supplies the member id. */
  const RefMemo: string := "Ref: " + "12345"

  lemma RefMemoNoEarlierLabel()
    ensures NoneCaptureBefore(MemberIdPatterns, RefMemo, 4)
  {
    RefMemoNoLabel(["member", "id"]);
    RefMemoNoLabel(["id"]);
    RefMemoNoLabel(["account", "no"]);
    RefMemoNoLabel(["account"]);
  }

  /** "Ref: 12345" holds no 'm', 'i' or 'a' in either case. */
  lemma RefMemoNoLabel(words: seq<string>)
    requires words != [] && words[0] != [] && words[0][0] in "mia"
    ensures Capture(LooseLabelDigits(words), RefMemo).None?
  {
    assert NoStart(LooseLabelDigits(words), RefMemo);
    NoCapture(LooseLabelDigits(words), RefMemo);
  }

  lemma RefMemoMatch()
    ensures MatchAt(LooseLabelDigits(["ref"]), RefMemo, 0) == Some(Span(5, 10))
  {
    var m := RefMemo;
    assert m[0..5] == "Ref: ";
    assert WordAt(m, 0, "ref");
    RunEndIs(m, 3, 3, Space);
    WordsEndStep(m, 0, "ref", []);
    assert AllIn(Space, m[4..5]);
    RunEndIs(m, 4, 5, Space);
    assert m[5..10] == "12345" && AllIn(Digit, "12345");
    RunEndIs(m, 5, 10, Digit);
  }

  lemma RefMemoExample()
    ensures ExtractMemberIdFromMemo(RefMemo) == Some("12345")
  {
    RefMemoNoEarlierLabel();
    assert RefMemo[5..10] == "12345";
    RefMemoMatch();
    assert NoMatchIn(MemberIdPatterns[4], RefMemo, 0, 0);
    CaptureAt(MemberIdPatterns[4], RefMemo, 0, Span(5, 10));
    ExtractTakesFirstPattern(RefMemo, 4);
  }

  /** A message without a single digit is not a payment. */
  lemma ThanksExample(now: int)
    ensures ParsePaymentMessage("Thanks " + "for " + "your " + "support!", SMS, now).None?
  {
    var m := "Thanks " + "for " + "your " + "support!";
    assert forall i :: 0 <= i < |m| ==> !IsDigit(m[i]);
    NoDigitNoParse(m, SMS, now);
  }

  /** Commas are removed before the conversion: the dollar rule captures "1,240.50" from
      "$1,240.50", and that capture is worth 1240.5. */
  lemma CommaAmountExample()
    ensures Capture(DollarAmount, "$1,240.50") == Some("1,240.50")
    ensures AmountOf("1,240.50") == Some(1240.5)
  {
    CommaCapture();
    CommaAmount();
  }

  lemma CommaCapture()
    ensures Capture(DollarAmount, "$1,240.50") == Some("1,240.50")
  {
    var s := "$1,240.50";
    assert AllIn(DigitOrComma, s[1..6]);
    RunEndIs(s, 1, 6, DigitOrComma);
    assert AllIn(Digit, s[7..9]);
    RunEndIs(s, 7, 9, Digit);
    assert MatchAt(DollarAmount, s, 0) == Some(Span(1, 9));
    CaptureAt(DollarAmount, s, 0, Span(1, 9));
    assert s[1..9] == "1,240.50";
  }

  lemma CommaAmount()
    ensures AmountOf("1,240.50") == Some(1240.5)
  {
    AmountOfDecimal("1,240", "50");
    assert "1,240" + "." + "50" == "1,240.50";
    CommaStripped();
    CommaFreeValue();
  }

  lemma CommaStripped()
    ensures StripCommas("1,240") == "1240"
  {
    assert "1,240" == ['1'] + ",240" && ",240"[1..] == "240";
    assert ',' !in "240";
    StripCommasNoComma("240");
  }

  lemma CommaFreeValue()
    ensures DecimalValue("1240", "50") == 1240.5
  {
    assert DigitsValue("12") == 12 by { assert "12"[..1] == "1"; }
    assert DigitsValue("124") == 124 by { assert "124"[..2] == "12"; }
    assert DigitsValue("1240") == 1240 by { assert "1240"[..3] == "124"; }
    assert DigitsValue("50") == 50 by { assert "50"[..1] == "5"; }
    assert Pow10(2) == 100;
  }

  /** No alternative of a label list matches at `lo + i` when the suffix `t` from `lo` spells none
      of the labels, with its colon, at `i`. */
  lemma NoAnyLabelInPiece(labels: seq<string>, s: string, lo: nat, t: string, i: nat)
    requires lo <= |s| && s[lo..] == t && i < |t|
    requires forall l :: l in labels ==> !WordAt(t, i, l + ":")
    ensures lo + i < |s| && NoMatchIn(AnyLabelDigits(labels), s, lo + i, lo + i + 1)
  {
    forall l | l in labels
      ensures LabelDigitsAt(s, lo + i, l + ":", []).None?
    {
      WordAtLocal(s, lo, lo + i, l + ":");
    }
    NoMatchAt(AnyLabelDigits(labels), s, lo + i);
  }

  /** The mock e-mail "Hi! You received $20.00 from Sarah Johnson for Member ID: 892374", which
      no service profile claims, as a chain of suffixes. */
  const MailBody: string := MailLead + MailAmountOn
  const MailLead: string := "Hi! You received "
  const MailAmountOn: string := "$20.00 " + MailFromOn
  const MailFromOn: string := "from Sarah Johnson " + MailForOn
  const MailForOn: string := "for Member " + MailIdOn
  const MailIdOn: string := "ID: " + "892374"

  lemma MailSuffixes()
    ensures |MailBody| == 64 && MailBody[0..] == MailBody
    ensures MailBody[17..] == MailAmountOn && MailBody[24..] == MailFromOn
    ensures MailBody[43..] == MailForOn && MailBody[54..] == MailIdOn
  {
    assert MailBody[0..] == MailLead + MailAmountOn;
    Rest(MailBody, 0, MailLead, MailAmountOn);
    Rest(MailBody, 17, "$20.00 ", MailFromOn);
    Rest(MailBody, 24, "from Sarah Johnson ", MailForOn);
    Rest(MailBody, 43, "for Member ", MailIdOn);
  }

  /** The lead and the amount hold no letter any label rule or the sender rule starts on. */
  lemma MailNoLabelInLead(pat: Pattern)
    requires pat in {ZelleMemoRule, VenmoMemoRule, CashAppMemoRule, SenderRule}
    ensures NoMatchIn(pat, MailBody, 0, 24)
  {
    var z := MailBody;
    assert NoStart(pat, MailLead[0..17]) && NoStart(pat, "$20.00 "[0..7]);
    MailSuffixes();
    NoMatchInPiece(pat, z, 0, MailLead, MailAmountOn, 0, 17);
    NoMatchInPiece(pat, z, 17, "$20.00 ", MailFromOn, 0, 7);
    NoMatchJoin(pat, z, 0, 17, 24);
  }

  // The Zelle memo rule: the 'm's of the e-mail start "m S", "Memb" and "mber".

  lemma MailNoMemoInFrom()
    ensures NoMatchIn(ZelleMemoRule, MailBody, 24, 43)
  {
    var m, f, z := ZelleMemoRule, "from Sarah Johnson ", MailBody;
    MailSuffixes();
    assert NoStart(m, f[0..3]) && NoStart(m, f[4..19]);
    assert !WordAt(MailFromOn, 3, "memo:");
    NoMatchInPiece(m, z, 24, f, MailForOn, 0, 3);
    NoLabelInPiece("memo:", ["member", "id"], z, 24, MailFromOn, 3);
    NoMatchInPiece(m, z, 24, f, MailForOn, 4, 19);
    NoMatchJoin(m, z, 24, 27, 28);
    NoMatchJoin(m, z, 24, 28, 43);
  }

  lemma MailNoMemoInFor()
    ensures NoMatchIn(ZelleMemoRule, MailBody, 43, 64)
  {
    var m, f, z := ZelleMemoRule, "for Member ", MailBody;
    MailSuffixes();
    assert NoStart(m, f[0..4]) && NoStart(m, f[5..6]) && NoStart(m, f[7..11]);
    assert !WordAt(MailForOn, 4, "memo:") && !WordAt(MailForOn, 6, "memo:");
    NoMatchInPiece(m, z, 43, f, MailIdOn, 0, 4);
    NoLabelInPiece("memo:", ["member", "id"], z, 43, MailForOn, 4);
    NoMatchInPiece(m, z, 43, f, MailIdOn, 5, 6);
    NoLabelInPiece("memo:", ["member", "id"], z, 43, MailForOn, 6);
    NoMatchInPiece(m, z, 43, f, MailIdOn, 7, 11);
    assert NoStart(m, "ID: ") && NoStart(m, "892374");
    NoStartJoin(m, "ID: ", "892374");
    NoMatchInRest(m, z, 54, MailIdOn);
    NoMatchJoin(m, z, 43, 47, 48);
    NoMatchJoin(m, z, 43, 48, 49);
    NoMatchJoin(m, z, 43, 49, 50);
    NoMatchJoin(m, z, 43, 50, 54);
    NoMatchJoin(m, z, 43, 54, 64);
  }

  /** The e-mail is not a Zelle message: it has no "memo:". */
  lemma MailNotZelle()
    ensures !Matches(ProfileTable[0].rules, MailBody)
  {
    var m, z := ZelleMemoRule, MailBody;
    MailSuffixes();
    MailNoLabelInLead(m);
    MailNoMemoInFrom();
    MailNoMemoInFor();
    NoMatchJoin(m, z, 0, 24, 43);
    NoMatchJoin(m, z, 0, 43, 64);
    NoMatchNoCapture(m, z);
  }

  // The Venmo and Cash App memo rules: the 'n's of the e-mail start "nson" and "n fo".

  lemma MailNoNote(qualifier: seq<string>)
    requires LabelDigits("note:", qualifier) in {VenmoMemoRule, CashAppMemoRule}
    ensures Capture(LabelDigits("note:", qualifier), MailBody).None?
  {
    var m, z := LabelDigits("note:", qualifier), MailBody;
    MailSuffixes();
    MailNoLabelInLead(m);
    MailNoNoteAfterLead(qualifier);
    NoMatchJoin(m, z, 0, 24, 64);
    NoMatchNoCapture(m, z);
  }

  lemma MailNoNoteAfterLead(qualifier: seq<string>)
    ensures NoMatchIn(LabelDigits("note:", qualifier), MailBody, 24, 64)
  {
    var m, f, z := LabelDigits("note:", qualifier), "from Sarah Johnson ", MailBody;
    MailSuffixes();
    assert NoStart(m, f[0..14]) && NoStart(m, f[15..17]) && NoStart(m, f[18..19]);
    assert !WordAt(MailFromOn, 14, "note:") && !WordAt(MailFromOn, 17, "note:");
    NoMatchInPiece(m, z, 24, f, MailForOn, 0, 14);
    NoLabelInPiece("note:", qualifier, z, 24, MailFromOn, 14);
    NoMatchInPiece(m, z, 24, f, MailForOn, 15, 17);
    NoLabelInPiece("note:", qualifier, z, 24, MailFromOn, 17);
    NoMatchInPiece(m, z, 24, f, MailForOn, 18, 19);
    assert NoStart(m, "for Member ") && NoStart(m, "ID: ") && NoStart(m, "892374");
    NoStartJoin(m, "ID: ", "892374");
    NoStartJoin(m, "for Member ", MailIdOn);
    NoMatchInRest(m, z, 43, MailForOn);
    NoMatchJoin(m, z, 24, 38, 39);
    NoMatchJoin(m, z, 24, 39, 41);
    NoMatchJoin(m, z, 24, 41, 42);
    NoMatchJoin(m, z, 24, 42, 43);
    NoMatchJoin(m, z, 24, 43, 64);
  }

  /** The e-mail is neither a Venmo nor a Cash App message: it has no "note:". */
  lemma MailNotVenmoOrCashApp()
    ensures !Matches(ProfileTable[1].rules, MailBody) && !Matches(ProfileTable[2].rules, MailBody)
  {
    MailNoNote(["member", "id"]);
    MailNoNote(["account", "no"]);
  }

  /** The e-mail is not an M-Pesa message: it has no "ksh". */
  lemma MailNotMpesa()
    ensures !Matches(ProfileTable[3].rules, MailBody)
  {
    var k := CodeAmount("ksh");
    assert NoStart(k, MailLead) && NoStart(k, "$20.00 ") && NoStart(k, "from Sarah Johnson ");
    assert NoStart(k, "for Member ") && NoStart(k, "ID: ") && NoStart(k, "892374");
    NoStartJoin(k, "ID: ", "892374");
    NoStartJoin(k, "for Member ", MailIdOn);
    NoStartJoin(k, "from Sarah Johnson ", MailForOn);
    NoStartJoin(k, "$20.00 ", MailFromOn);
    NoStartJoin(k, MailLead, MailAmountOn);
    NoCapture(k, MailBody);
  }

  lemma MailAmount()
    ensures Capture(DollarAmount, MailBody) == Some("20.00")
  {
    var z := MailBody;
    MailNoAmountInLead();
    MailSuffixes();
    assert MailAmountOn[1..6] == "20.00";
    DollarFigureMatch(MailAmountOn);
    MatchInSuffix(DollarAmount, z, 17, MailAmountOn, Span(1, 6));
    CaptureAt(DollarAmount, z, 17, Span(18, 23));
  }

  lemma MailNoAmountInLead()
    ensures |MailBody| == 64 && NoMatchIn(DollarAmount, MailBody, 0, 17)
  {
    assert NoStart(DollarAmount, MailLead[0..17]);
    MailSuffixes();
    NoMatchInPiece(DollarAmount, MailBody, 0, MailLead, MailAmountOn, 0, 17);
  }

  /** The name run after "from" reaches past "for Member ID" and stops at the colon. */
  lemma MailFromOnMatch()
    ensures MatchAt(SenderRule, MailFromOn, 0) == Some(Span(5, 32))
    ensures MailFromOn[5..32] == "Sarah Johnson for Member ID"
  {
    MailFlat();
    MailNameSlice();
    assert "from Sarah Johnson for Member ID: 892374"[32] == ':';
    MailFromWord();
    assert AllIn(NameChar, "Sarah Johnson for Member ID");
    FromNameMatch(MailFromOn, 32);
  }

  /** The suffixes from "from" and from "for", written out flat. */
  lemma MailFlat()
    ensures MailFromOn == "from Sarah Johnson for Member ID: 892374"
    ensures MailForOn == "for Member ID: 892374"
  {
  }

  lemma MailFromWord()
    ensures WordAt(MailFromOn, 0, "from") && MailFromOn[4] == ' ' && IsLetter(MailFromOn[5])
  {
    assert MailFromOn[0..4] == "from";
  }

  lemma MailNameSlice()
    ensures "from Sarah Johnson for Member ID: 892374"[5..32] == "Sarah Johnson for Member ID"
  {
    Middle("from ", "Sarah Johnson for Member ID", ": 892374");
    MailNamePieces();
  }

  lemma MailNamePieces()
    ensures "from " + "Sarah Johnson for Member ID" + ": 892374" == "from Sarah Johnson for Member ID: 892374"
  {
  }

  /** The middle piece of a three-piece string. */
  lemma Middle(a: string, b: string, c: string)
    ensures (a + b + c)[|a|..|a| + |b|] == b && |a + b + c| == |a| + |b| + |c|
  {
    assert forall k :: 0 <= k < |b| ==> (a + b + c)[|a| + k] == b[k];
  }



  lemma MailSender()
    ensures Capture(SenderRule, MailBody) == Some("Sarah Johnson for Member ID")
  {
    MailSuffixes();
    MailNoLabelInLead(SenderRule);
    MailFromOnMatch();
    MatchInSuffix(SenderRule, MailBody, 24, MailFromOn, Span(5, 32));
    CaptureAt(SenderRule, MailBody, 24, Span(29, 56));
  }

  /** The labels of the fallback memo rule. */
  const MailLabels: seq<string> := ["id", "member", "account", "note", "memo"]

  /** A word matched at `p` begins with its first letter and ends with its last character. */
  lemma {:induction false} WordAtEnds(s: string, p: nat, w: string)
    requires w != []
    ensures WordAt(s, p, w) ==> p + |w| <= |s| && Lower(s[p]) == w[0] && Lower(s[p + |w| - 1]) == w[|w| - 1]
    decreases |w|
  {
    if |w| > 1 && WordAt(s, p, w) {
      WordAtEnds(s, p + 1, w[1..]);
    }
  }

  /** The fallback memo rule finds nothing at `lo + i` when the character at `i` of the suffix
      `t` from `lo` starts no label whose colon falls where the label would end. */
  lemma NoMailLabelInPiece(s: string, lo: nat, t: string, i: nat)
    requires lo <= |s| && s[lo..] == t && i < |t|
    requires Lower(t[i]) == 'i' ==> i + 2 >= |t| || t[i + 2] != ':'
    requires Lower(t[i]) == 'm' ==> (i + 6 >= |t| || t[i + 6] != ':') && (i + 4 >= |t| || t[i + 4] != ':')
    requires Lower(t[i]) == 'a' ==> i + 7 >= |t| || t[i + 7] != ':'
    requires Lower(t[i]) == 'n' ==> i + 4 >= |t| || t[i + 4] != ':'
    ensures lo + i < |s| && NoMatchIn(AnyLabelDigits(MailLabels), s, lo + i, lo + i + 1)
  {
    NoMailLabel(t, i);
    NoAnyLabelInPiece(MailLabels, s, lo, t, i);
  }

  /** A fallback label can match at `i` only when the letter there starts it and its colon
      comes right after it. */
  lemma NoMailLabel(t: string, i: nat)
    requires i < |t|
    requires Lower(t[i]) == 'i' ==> i + 2 >= |t| || t[i + 2] != ':'
    requires Lower(t[i]) == 'm' ==> (i + 6 >= |t| || t[i + 6] != ':') && (i + 4 >= |t| || t[i + 4] != ':')
    requires Lower(t[i]) == 'a' ==> i + 7 >= |t| || t[i + 7] != ':'
    requires Lower(t[i]) == 'n' ==> i + 4 >= |t| || t[i + 4] != ':'
    ensures forall l :: l in MailLabels ==> !WordAt(t, i, l + ":")
  {
    forall l | l in MailLabels
      ensures !WordAt(t, i, l + ":")
    {
      WordAtEnds(t, i, l + ":");
    }
  }

  // The fallback memo rule starts on 'i', 'm', 'a' and 'n': "i!", "iv", "m S", "ar", "ah",
  // "ns", "n f", "Member " and "mber" spell no label with its colon.

  lemma MailNoLabelBeforeFrom()
    ensures NoMatchIn(AnyLabelDigits(MailLabels), MailBody, 0, 24)
  {
    var m, z := AnyLabelDigits(MailLabels), MailBody;
    MailSuffixes();
    MailNoLabelInGreeting();
    assert NoStart(m, "$20.00 "[0..7]);
    NoMatchInPiece(m, z, 17, "$20.00 ", MailFromOn, 0, 7);
    NoMatchJoin(m, z, 0, 17, 24);
  }

  lemma MailNoLabelInGreeting()
    ensures NoMatchIn(AnyLabelDigits(MailLabels), MailBody, 0, 17)
  {
    var m, z := AnyLabelDigits(MailLabels), MailBody;
    MailSuffixes();
    assert NoStart(m, MailLead[0..1]) && NoStart(m, MailLead[2..12]);
    assert z[1] == 'i' && z[3] == ' ';
    NoMatchInPiece(m, z, 0, MailLead, MailAmountOn, 0, 1);
    NoMailLabelInPiece(z, 0, z, 1);
    NoMatchInPiece(m, z, 0, MailLead, MailAmountOn, 2, 12);
    NoMatchJoin(m, z, 0, 1, 2);
    NoMatchJoin(m, z, 0, 2, 12);
    MailNoLabelInReceived();
    NoMatchJoin(m, z, 0, 12, 17);
  }

  lemma MailNoLabelInReceived()
    ensures NoMatchIn(AnyLabelDigits(MailLabels), MailBody, 12, 17)
  {
    var m, z := AnyLabelDigits(MailLabels), MailBody;
    MailSuffixes();
    assert NoStart(m, MailLead[13..17]);
    assert z[12] == 'i' && z[14] == 'e';
    NoMailLabelInPiece(z, 0, z, 12);
    NoMatchInPiece(m, z, 0, MailLead, MailAmountOn, 13, 17);
    NoMatchJoin(m, z, 12, 13, 17);
  }





  /** The suffix from "from", written out flat, as a suffix of the e-mail. */
  lemma MailFromFlat()
    ensures MailBody[24..] == "from Sarah Johnson for Member ID: 892374"
  {
    MailSuffixes();
    MailFlat();
  }

  lemma MailNoLabelInFrom()
    ensures NoMatchIn(AnyLabelDigits(MailLabels), MailBody, 24, 43)
  {
    MailNoLabelInSarah();
    MailNoLabelInJohnson();
    NoMatchJoin(AnyLabelDigits(MailLabels), MailBody, 24, 32, 43);
  }

  lemma MailNoLabelInSarah()
    ensures NoMatchIn(AnyLabelDigits(MailLabels), MailBody, 24, 32)
  {
    var m, f, z := AnyLabelDigits(MailLabels), "from Sarah Johnson ", MailBody;
    var g := "from Sarah Johnson for Member ID: 892374";
    MailSuffixes();
    MailFromFlat();
    assert NoStart(m, f[4..6]) && NoStart(m, f[7..8]);
    assert g[7] == 'r' && g[9] == 'h' && g[6] == 'a' && g[13] == 'h';
    MailNoLabelInFrm();
    NoMatchInPiece(m, z, 24, f, MailForOn, 4, 6);
    NoMailLabelInPiece(z, 24, g, 6);
    NoMatchInPiece(m, z, 24, f, MailForOn, 7, 8);
    NoMatchJoin(m, z, 24, 28, 30);
    NoMatchJoin(m, z, 24, 30, 31);
    NoMatchJoin(m, z, 24, 31, 32);
  }

  lemma MailNoLabelInFrm()
    ensures NoMatchIn(AnyLabelDigits(MailLabels), MailBody, 24, 28)
  {
    var m, f, z := AnyLabelDigits(MailLabels), "from Sarah Johnson ", MailBody;
    var g := "from Sarah Johnson for Member ID: 892374";
    MailSuffixes();
    MailFromFlat();
    assert NoStart(m, f[0..3]);
    assert g[3] == 'm' && g[7] == 'r';
    NoMatchInPiece(m, z, 24, f, MailForOn, 0, 3);
    NoMailLabelInPiece(z, 24, g, 3);
    NoMatchJoin(m, z, 24, 27, 28);
  }

  lemma MailNoLabelInJohnson()
    ensures NoMatchIn(AnyLabelDigits(MailLabels), MailBody, 32, 43)
  {
    var m, f, z := AnyLabelDigits(MailLabels), "from Sarah Johnson ", MailBody;
    var g := "from Sarah Johnson for Member ID: 892374";
    MailSuffixes();
    MailFromFlat();
    MailNoLabelInJohn();
    assert NoStart(m, f[15..17]) && NoStart(m, f[18..19]);
    assert g[15] == 's' && g[14] == 'n' && g[18] == ' ' && g[17] == 'n' && g[21] == 'r';
    NoMailLabelInPiece(z, 24, g, 14);
    NoMatchInPiece(m, z, 24, f, MailForOn, 15, 17);
    NoMailLabelInPiece(z, 24, g, 17);
    NoMatchInPiece(m, z, 24, f, MailForOn, 18, 19);
    NoMatchJoin(m, z, 32, 38, 39);
    NoMatchJoin(m, z, 32, 39, 41);
    NoMatchJoin(m, z, 32, 41, 42);
    NoMatchJoin(m, z, 32, 42, 43);
  }

  lemma MailNoLabelInJohn()
    ensures NoMatchIn(AnyLabelDigits(MailLabels), MailBody, 32, 38)
  {
    var m, f, z := AnyLabelDigits(MailLabels), "from Sarah Johnson ", MailBody;
    var g := "from Sarah Johnson for Member ID: 892374";
    MailSuffixes();
    MailFromFlat();
    assert NoStart(m, f[9..14]);
    assert g[8] == 'a' && g[15] == 's';
    NoMailLabelInPiece(z, 24, g, 8);
    NoMatchInPiece(m, z, 24, f, MailForOn, 9, 14);
    NoMatchJoin(m, z, 32, 33, 38);
  }


  lemma MailNoLabelInFor()
    ensures NoMatchIn(AnyLabelDigits(MailLabels), MailBody, 43, 54)
  {
    var m, f, z := AnyLabelDigits(MailLabels), "for Member ", MailBody;
    MailSuffixes();
    MailNoLabelInForM();
    assert NoStart(m, f[5..6]) && NoStart(m, f[7..11]);
    MailFlat();
    var g := "for Member ID: 892374";
    assert g[8] == 'e' && g[10] == ' ' && g[6] == 'm' && g[12] == 'D';
    NoMatchInPiece(m, z, 43, f, MailIdOn, 5, 6);
    NoMailLabelInPiece(z, 43, g, 6);
    NoMatchInPiece(m, z, 43, f, MailIdOn, 7, 11);
    NoMatchJoin(m, z, 43, 48, 49);
    NoMatchJoin(m, z, 43, 49, 50);
    NoMatchJoin(m, z, 43, 50, 54);
  }

  lemma MailNoLabelInForM()
    ensures NoMatchIn(AnyLabelDigits(MailLabels), MailBody, 43, 48)
  {
    var m, f, z := AnyLabelDigits(MailLabels), "for Member ", MailBody;
    MailSuffixes();
    assert NoStart(m, f[0..4]);
    MailFlat();
    var g := "for Member ID: 892374";
    assert g[4] == 'M' && g[8] == 'e' && g[10] == ' ';
    NoMatchInPiece(m, z, 43, f, MailIdOn, 0, 4);
    NoMailLabelInPiece(z, 43, g, 4);
    NoMatchJoin(m, z, 43, 47, 48);
  }

  /** "ID: 892374": the first label, "id", matches, and the digits follow the blank. */
  lemma MailIdOnMatch()
    ensures MatchAt(AnyLabelDigits(MailLabels), MailIdOn, 0) == Some(Span(4, 10))
    ensures MailIdOn[4..10] == "892374"
  {
    var t := MailIdOn;
    assert t == "ID: 892374";
    assert t[4..10] == "892374";
    assert WordAt(t, 0, "id:");
    assert AllIn(Space, t[3..4]);
    RunEndIs(t, 3, 4, Space);
    assert AllIn(Digit, t[4..10]);
    RunEndIs(t, 4, 10, Digit);
    WordsEndShape(t, 4, []);
    assert LabelDigitsAt(t, 0, "id:", []) == Some(Span(4, 10));
    assert MailLabels[0] + ":" == "id:";
  }

  lemma MailNoLabelBeforeId()
    ensures NoMatchIn(AnyLabelDigits(MailLabels), MailBody, 0, 54)
  {
    var m, z := AnyLabelDigits(MailLabels), MailBody;
    MailSuffixes();
    MailNoLabelBeforeFrom();
    MailNoLabelInFrom();
    MailNoLabelInFor();
    NoMatchJoin(m, z, 0, 24, 43);
    NoMatchJoin(m, z, 0, 43, 54);
  }

  lemma MailMemo()
    ensures Capture(AnyLabelDigits(MailLabels), MailBody) == Some("892374")
  {
    var m, z := AnyLabelDigits(MailLabels), MailBody;
    MailSuffixes();
    MailNoLabelBeforeId();
    MailIdOnMatch();
    MatchInSuffix(m, z, 54, MailIdOn, Span(4, 10));
    CaptureAt(m, z, 54, Span(58, 64));
  }


  lemma SarahJohnsonTrimmed()
    ensures Trim("Sarah Johnson for Member ID") == "Sarah Johnson for Member ID"
  {
    var t := "Sarah Johnson for Member ID";
    assert t[0] == 'S' && t[|t| - 1] == 'D';
    TrimFixed(t);
  }

  lemma AmountTwenty()
    ensures AmountOf("20.00") == Some(20.0)
  {
    assert "20.00" == ['2', '0', '.', '0', '0'];
    WholeDollars('2', '0');
  }

  /** The mock e-mail matches no service profile: Zelle lacks "memo:", Venmo and Cash App lack
      "note:", M-Pesa lacks "ksh". */
  lemma MailNoProfile()
    ensures forall k :: 0 <= k < |ProfileTable| ==> !Matches(ProfileTable[k].rules, MailBody)
  {
    MailNotZelle();
    MailNotVenmoOrCashApp();
    MailNotMpesa();
  }

  lemma MailFallbackRules(now: int)
    ensures ApplyRules(Fallback, MailBody, now) ==
              Some(ParsedMessage("Sarah Johnson for Member ID", Some(20.0), "892374", now))
  {
    assert Fallback == Rules(DollarAmount, SenderRule, AnyLabelDigits(MailLabels));
    MailAmount();
    MailSender();
    MailMemo();
    AmountTwenty();
    SarahJohnsonTrimmed();
    ApplyRulesTo(Fallback, MailBody, now, "20.00", "Sarah Johnson for Member ID", "892374",
                 "Sarah Johnson for Member ID", Some(20.0));
  }

  /** No profile claims the mock e-mail, so the generic fallback reads it: sender "Sarah Johnson
      for Member ID" (the name run stops only at the colon), amount 20 and member id "892374". */
  lemma FallbackExample(now: int)
    ensures ParsePaymentMessage(MailBody, Email, now) ==
              Some(ParsedMessage("Sarah Johnson for Member ID", Some(20.0), "892374", now))
  {
    MailNoProfile();
    ParseFallsBack(MailBody, Email, now);
    MailFallbackRules(now);
  }

  /** "$5 from Al. Memo: 12": a Zelle-shaped message whose member id is too short. */
  const ShortBody: string := "$5 " + ShortFromOn
  const ShortFromOn: string := "from Al. " + ShortMemoOn
  const ShortMemoOn: string := "Memo: " + "12"

  lemma ShortSuffixes()
    ensures |ShortBody| == 20 && ShortBody[0..] == ShortBody
    ensures ShortBody[3..] == ShortFromOn && ShortBody[12..] == ShortMemoOn
  {
    assert ShortBody[0..] == "$5 " + ShortFromOn;
    Rest(ShortBody, 0, "$5 ", ShortFromOn);
    Rest(ShortBody, 3, "from Al. ", ShortMemoOn);
  }

  lemma ShortAmount()
    ensures Capture(DollarAmount, ShortBody) == Some("5")
  {
    var z := ShortBody;
    assert z[0] == '$' && z[1] == '5' && z[2] == ' ';
    assert AllIn(DigitOrComma, z[1..2]);
    RunEndIs(z, 1, 2, DigitOrComma);
    assert MatchAt(DollarAmount, z, 0) == Some(Span(1, 2));
    CaptureAt(DollarAmount, z, 0, Span(1, 2));
    assert z[1..2] == "5";
  }

  lemma ShortSender()
    ensures Capture(SenderRule, ShortBody) == Some("Al")
  {
    var z, t := ShortBody, ShortFromOn;
    ShortSuffixes();
    assert NoStart(SenderRule, "$5 "[0..3]);
    NoMatchInPiece(SenderRule, z, 0, "$5 ", t, 0, 3);
    assert t[0..4] == "from" && t[5..7] == "Al" && t[7] == '.';
    assert AllIn(NameChar, "Al");
    FromNameMatch(t, 7);
    MatchInSuffix(SenderRule, z, 3, t, Span(5, 7));
    CaptureAt(SenderRule, z, 3, Span(8, 10));
  }

  lemma ShortMemoOnMatch()
    ensures MatchAt(ZelleMemoRule, ShortMemoOn, 0) == Some(Span(6, 8))
    ensures ShortMemoOn[6..8] == "12"
  {
    var t := ShortMemoOn;
    assert t == "Memo: 12";
    assert t[0..5] == "Memo:" && t[6..8] == "12";
    assert AllIn(Space, t[5..6]);
    RunEndIs(t, 5, 6, Space);
    assert !WordAt(t, 6, "member");
    assert AllIn(Digit, t[6..8]);
    RunEndIs(t, 6, 8, Digit);
    LabelMatchPlain(t, "memo:", ["member", "id"], 8);
  }

  lemma ShortMemo()
    ensures Capture(ZelleMemoRule, ShortBody) == Some("12")
  {
    var m, z, f := ZelleMemoRule, ShortBody, "from Al. ";
    ShortSuffixes();
    assert NoStart(m, "$5 "[0..3]) && NoStart(m, f[0..3]) && NoStart(m, f[4..9]);
    assert !WordAt(ShortFromOn, 3, "memo:");
    NoMatchInPiece(m, z, 0, "$5 ", ShortFromOn, 0, 3);
    NoMatchInPiece(m, z, 3, f, ShortMemoOn, 0, 3);
    NoLabelInPiece("memo:", ["member", "id"], z, 3, ShortFromOn, 3);
    NoMatchInPiece(m, z, 3, f, ShortMemoOn, 4, 9);
    NoMatchJoin(m, z, 0, 3, 6);
    NoMatchJoin(m, z, 0, 6, 7);
    NoMatchJoin(m, z, 0, 7, 12);
    ShortMemoOnMatch();
    MatchInSuffix(m, z, 12, ShortMemoOn, Span(6, 8));
    CaptureAt(m, z, 12, Span(18, 20));
  }

  lemma AmountFive()
    ensures AmountOf("5") == Some(5.0)
  {
    AmountOfWhole("5");
    assert ',' !in "5";
    StripCommasNoComma("5");
    assert DigitsValue("5") == 5 by { assert "5"[..0] == []; }
  }

  lemma AlTrimmed()
    ensures Trim("Al") == "Al"
  {
    var t := "Al";
    assert t[0] == 'A' && t[|t| - 1] == 'l';
    TrimFixed(t);
  }

  /** The short message parses, by the Zelle profile, to sender "Al", amount 5 and member id
      "12", and the validator rejects that record: a member id needs five characters. */
  lemma ShortIdExample(now: int)
    ensures ParsePaymentMessage(ShortBody, SMS, now) == Some(ParsedMessage("Al", Some(5.0), "12", now))
    ensures !ValidateParsedMessage(ParsedMessage("Al", Some(5.0), "12", now))
  {
    ShortRules(now);
    ParseTakesFirstProfile(ShortBody, SMS, now, 0);
  }

  lemma ShortRules(now: int)
    ensures Matches(ProfileTable[0].rules, ShortBody)
    ensures ApplyRules(ProfileTable[0].rules, ShortBody, now) == Some(ParsedMessage("Al", Some(5.0), "12", now))
  {
    TableRules();
    ShortApplied(now);
  }
  lemma ShortApplied(now: int)
    ensures Matches(Rules(DollarAmount, SenderRule, ZelleMemoRule), ShortBody)
    ensures ApplyRules(Rules(DollarAmount, SenderRule, ZelleMemoRule), ShortBody, now) == Some(ParsedMessage("Al", Some(5.0), "12", now))
  {
    ShortAmount();
    ShortSender();
    ShortMemo();
    AmountFive();
    AlTrimmed();
    ApplyRulesTo(Rules(DollarAmount, SenderRule, ZelleMemoRule), ShortBody, now, "5", "Al", "12", "Al", Some(5.0));
  }

  /** An M-Pesa style SMS, "Ksh 1,500 from Mary. Account: 204518", as a chain of suffixes. */
  const MpesaBody: string := "Ksh 1,500 " + MpesaFromOn
  const MpesaFromOn: string := "from Mary. " + MpesaAccountOn
  const MpesaAccountOn: string := "Account: " + "204518"

  /** The memo rule of the M-Pesa profile. */
  const MpesaMemoRule: Pattern := LabelDigits("account:", [])

  lemma MpesaSuffixes()
    ensures |MpesaBody| == 36 && MpesaBody[0..] == MpesaBody
    ensures MpesaBody[10..] == MpesaFromOn && MpesaBody[21..] == MpesaAccountOn
  {
    assert MpesaBody[0..] == "Ksh 1,500 " + MpesaFromOn;
    Rest(MpesaBody, 0, "Ksh 1,500 ", MpesaFromOn);
    Rest(MpesaBody, 10, "from Mary. ", MpesaAccountOn);
  }

  /** No "memo:": the 'm's of the SMS start "m M" and "Mary". */
  lemma MpesaNotZelle()
    ensures !Matches(ProfileTable[0].rules, MpesaBody)
  {
    var m, z, f := ZelleMemoRule, MpesaBody, "from Mary. ";
    MpesaSuffixes();
    assert NoStart(m, "Ksh 1,500 "[0..10]) && NoStart(m, f[0..3]) && NoStart(m, f[4..5]) && NoStart(m, f[6..11]);
    assert !WordAt(MpesaFromOn, 3, "memo:") && !WordAt(MpesaFromOn, 5, "memo:");
    assert NoStart(m, "Account: ") && NoStart(m, "204518");
    NoMatchInPiece(m, z, 0, "Ksh 1,500 ", MpesaFromOn, 0, 10);
    NoMatchInPiece(m, z, 10, f, MpesaAccountOn, 0, 3);
    NoLabelInPiece("memo:", ["member", "id"], z, 10, MpesaFromOn, 3);
    NoMatchInPiece(m, z, 10, f, MpesaAccountOn, 4, 5);
    NoLabelInPiece("memo:", ["member", "id"], z, 10, MpesaFromOn, 5);
    NoMatchInPiece(m, z, 10, f, MpesaAccountOn, 6, 11);
    NoStartJoin(m, "Account: ", "204518");
    NoMatchInRest(m, z, 21, MpesaAccountOn);
    NoMatchJoin(m, z, 0, 10, 13);
    NoMatchJoin(m, z, 0, 13, 14);
    NoMatchJoin(m, z, 0, 14, 15);
    NoMatchJoin(m, z, 0, 15, 16);
    NoMatchJoin(m, z, 0, 16, 21);
    NoMatchJoin(m, z, 0, 21, 36);
    NoMatchNoCapture(m, z);
  }

  /** No "note:": the only 'n' of the SMS starts "nt:". */
  lemma MpesaNoNote(qualifier: seq<string>)
    requires LabelDigits("note:", qualifier) in {VenmoMemoRule, CashAppMemoRule}
    ensures Capture(LabelDigits("note:", qualifier), MpesaBody).None?
  {
    var m, z, a := LabelDigits("note:", qualifier), MpesaBody, "Account: ";
    MpesaSuffixes();
    assert NoStart(m, "Ksh 1,500 "[0..10]) && NoStart(m, "from Mary. "[0..11]);
    assert NoStart(m, a[0..5]) && NoStart(m, a[6..9]) && NoStart(m, "204518");
    assert !WordAt(MpesaAccountOn, 5, "note:");
    NoMatchInPiece(m, z, 0, "Ksh 1,500 ", MpesaFromOn, 0, 10);
    NoMatchInPiece(m, z, 10, "from Mary. ", MpesaAccountOn, 0, 11);
    NoMatchInPiece(m, z, 21, a, "204518", 0, 5);
    NoLabelInPiece("note:", qualifier, z, 21, MpesaAccountOn, 5);
    NoMatchInPiece(m, z, 21, a, "204518", 6, 9);
    Rest(z, 21, a, "204518");
    NoMatchInRest(m, z, 30, "204518");
    NoMatchJoin(m, z, 0, 10, 21);
    NoMatchJoin(m, z, 0, 21, 26);
    NoMatchJoin(m, z, 0, 26, 27);
    NoMatchJoin(m, z, 0, 27, 30);
    NoMatchJoin(m, z, 0, 30, 36);
    NoMatchNoCapture(m, z);
  }

  lemma MpesaNotVenmoOrCashApp()
    ensures !Matches(ProfileTable[1].rules, MpesaBody) && !Matches(ProfileTable[2].rules, MpesaBody)
  {
    MpesaNoNote(["member", "id"]);
    MpesaNoNote(["account", "no"]);
  }

  /** "Ksh", a blank, then the comma-grouped numeral "1,500". */
  lemma MpesaAmount()
    ensures Capture(CodeAmount("ksh"), MpesaBody) == Some("1,500")
  {
    var z := MpesaBody;
    MpesaCodeAt();
    MpesaNumeral();
    CodedAt(z, 0, "ksh", 4);
    assert MatchAt(CodeAmount("ksh"), z, 0) == Some(Span(4, 9));
    CaptureAt(CodeAmount("ksh"), z, 0, Span(4, 9));
  }

  lemma MpesaCodeAt()
    ensures |MpesaBody| == 36 && WordAt(MpesaBody, 0, "ksh")
    ensures SkipSpaces(MpesaBody, 3) == 4 && InClass(DigitOrComma, MpesaBody[4])
  {
    var z := MpesaBody;
    assert z[0..10] == "Ksh 1,500 ";
    assert z[0..3] == "Ksh";
    assert AllIn(Space, z[3..4]);
    RunEndIs(z, 3, 4, Space);
  }

  lemma MpesaNumeral()
    ensures |MpesaBody| == 36 && InClass(DigitOrComma, MpesaBody[4])
    ensures NumeralFrom(MpesaBody, 4) == Span(4, 9) && MpesaBody[4..9] == "1,500"
  {
    var z := MpesaBody;
    assert z[0..10] == "Ksh 1,500 ";
    assert AllIn(DigitOrComma, z[4..9]);
    RunEndIs(z, 4, 9, DigitOrComma);
    assert z[9] == ' ';
  }

  lemma MpesaSender()
    ensures Capture(SenderRule, MpesaBody) == Some("Mary")
  {
    var z, t := MpesaBody, MpesaFromOn;
    MpesaSuffixes();
    assert NoStart(SenderRule, "Ksh 1,500 "[0..10]);
    NoMatchInPiece(SenderRule, z, 0, "Ksh 1,500 ", t, 0, 10);
    assert t[0..4] == "from" && t[5..9] == "Mary" && t[9] == '.';
    assert AllIn(NameChar, "Mary");
    FromNameMatch(t, 9);
    MatchInSuffix(SenderRule, z, 10, t, Span(5, 9));
    CaptureAt(SenderRule, z, 10, Span(15, 19));
  }

  lemma MpesaAccountOnMatch()
    ensures MatchAt(MpesaMemoRule, MpesaAccountOn, 0) == Some(Span(9, 15))
    ensures MpesaAccountOn[9..15] == "204518"
  {
    var t := MpesaAccountOn;
    MpesaAccountMarker();
    MpesaAccountDigits();
    assert WordsEnd(t, 9, []) == Some(9);
    LabelMatch(t, "account:", [], 9, 15);
  }

  lemma MpesaAccountMarker()
    ensures WordAt(MpesaAccountOn, 0, "account:") && SkipSpaces(MpesaAccountOn, 8) == 9
  {
    assert MpesaAccountOn[0..9] == "Account: ";
    assert AllIn(Space, MpesaAccountOn[8..9]);
    RunEndIs(MpesaAccountOn, 8, 9, Space);
  }

  lemma MpesaAccountDigits()
    ensures |MpesaAccountOn| == 15 && DigitsFrom(MpesaAccountOn, 9) == Some(Span(9, 15))
    ensures MpesaAccountOn[9..15] == "204518"
  {
    assert MpesaAccountOn[9..15] == "204518";
    assert AllIn(Digit, MpesaAccountOn[9..15]);
    RunEndIs(MpesaAccountOn, 9, 15, Digit);
  }

  lemma MpesaMemo()
    ensures Capture(MpesaMemoRule, MpesaBody) == Some("204518")
  {
    var m, z := MpesaMemoRule, MpesaBody;
    MpesaSuffixes();
    MpesaNoMemoBefore();
    MpesaAccountOnMatch();
    MatchInSuffix(m, z, 21, MpesaAccountOn, Span(9, 15));
    CaptureAt(m, z, 21, Span(30, 36));
  }

  lemma MpesaNoMemoBefore()
    ensures |MpesaBody| == 36 && NoMatchIn(MpesaMemoRule, MpesaBody, 0, 21)
  {
    var m, z, f := MpesaMemoRule, MpesaBody, "from Mary. ";
    MpesaSuffixes();
    assert NoStart(m, "Ksh 1,500 "[0..10]) && NoStart(m, f[0..6]) && NoStart(m, f[7..11]);
    assert !WordAt(MpesaFromOn, 6, "account:");
    NoMatchInPiece(m, z, 0, "Ksh 1,500 ", MpesaFromOn, 0, 10);
    NoMatchInPiece(m, z, 10, f, MpesaAccountOn, 0, 6);
    NoLabelInPiece("account:", [], z, 10, MpesaFromOn, 6);
    NoMatchInPiece(m, z, 10, f, MpesaAccountOn, 7, 11);
    NoMatchJoin(m, z, 0, 10, 16);
    NoMatchJoin(m, z, 0, 16, 17);
    NoMatchJoin(m, z, 0, 17, 21);
  }

  /** "1,500" is 1500 once the comma is gone. */
  lemma AmountFifteenHundred()
    ensures AmountOf("1,500") == Some(1500.0)
  {
    AmountOfWhole("1,500");
    FifteenHundredStripped();
    FifteenHundredValue();
  }

  lemma FifteenHundredStripped()
    ensures StripCommas("1,500") == "1500"
  {
    assert "1,500" == ['1'] + ",500" && ",500"[1..] == "500";
    assert ',' !in "500";
    StripCommasNoComma("500");
  }

  lemma FifteenHundredValue()
    ensures DigitsValue("1500") == 1500
  {
    assert DigitsValue("15") == 15 by { assert "15"[..1] == "1"; }
    assert DigitsValue("150") == 150 by { assert "150"[..2] == "15"; }
    assert "1500"[..3] == "150";
  }


  lemma MaryTrimmed()
    ensures Trim("Mary") == "Mary"
  {
    var t := "Mary";
    assert t[0] == 'M' && t[|t| - 1] == 'y';
    TrimFixed(t);
  }

  lemma MpesaRules(now: int)
    ensures Matches(ProfileTable[3].rules, MpesaBody)
    ensures ApplyRules(ProfileTable[3].rules, MpesaBody, now) == Some(ParsedMessage("Mary", Some(1500.0), "204518", now))
  {
    TableRules();
    MpesaApplied(now);
  }
  lemma MpesaApplied(now: int)
    ensures Matches(Rules(CodeAmount("ksh"), SenderRule, MpesaMemoRule), MpesaBody)
    ensures ApplyRules(Rules(CodeAmount("ksh"), SenderRule, MpesaMemoRule), MpesaBody, now) == Some(ParsedMessage("Mary", Some(1500.0), "204518", now))
  {
    MpesaAmount();
    MpesaSender();
    MpesaMemo();
    AmountFifteenHundred();
    MaryTrimmed();
    ApplyRulesTo(Rules(CodeAmount("ksh"), SenderRule, MpesaMemoRule), MpesaBody, now, "1,500", "Mary", "204518", "Mary", Some(1500.0));
  }


  /** The SMS parses by the fourth profile, M-Pesa, after the three dollar profiles fail: sender
      "Mary", amount 1500 (the comma removed) and member id "204518". */
  lemma MpesaExample(now: int)
    ensures ParsePaymentMessage(MpesaBody, SMS, now) == Some(ParsedMessage("Mary", Some(1500.0), "204518", now))
  {
    MpesaNotZelle();
    NoneMatchBeforeNext(ProfileTable, MpesaBody, 0);
    MpesaNotVenmoOrCashApp();
    NoneMatchBeforeNext(ProfileTable, MpesaBody, 1);
    NoneMatchBeforeNext(ProfileTable, MpesaBody, 2);
    MpesaRules(now);
    ParseTakesFirstProfile(MpesaBody, SMS, now, 3);
  }
}
