/** The payment-message parser: a fixed table of service profiles tried in order, a generic
    fallback, the member-id extractor for free-text memos, and the validator. Every operation
    is total: where `parsePaymentMessage` catches an exception and answers `null` or `false`, nothing
    in this model can fail in the first place. */
module MessageParser {
  import opened Wrappers
  import opened Text
  import opened Patterns

  /** The transport a message arrived by. The parser receives it but never reads it. */
  datatype Source = SMS | Email

  /** A monetary amount as `parseFloat` yields it: `None` stands for NaN. */
  type Amount = Option<real>

  /** A successful parse; `date` is the clock reading at parse time. */
  datatype ParsedMessage = ParsedMessage(senderName: string, amount: Amount, memberId: string, date: int)

  /** The three extraction rules of one service. */
  datatype Rules = Rules(amount: Pattern, sender: Pattern, memo: Pattern)

  datatype Profile = Profile(service: string, rules: Rules)

  /** The sender rule every profile and the fallback share: `/from\s+([A-Za-z\s]+)/i`. */
  const SenderRule: Pattern := NameAfter("from")

  /** The service profiles, in declaration order. */
  const ProfileTable: seq<Profile> := [
    Profile("zelle", Rules(DollarAmount, SenderRule, LabelDigits("memo:", ["member", "id"]))),
    Profile("venmo", Rules(DollarAmount, SenderRule, LabelDigits("note:", ["member", "id"]))),
    Profile("cashapp", Rules(DollarAmount, SenderRule, LabelDigits("note:", ["account", "no"]))),
    Profile("mpesa", Rules(CodeAmount("ksh"), SenderRule, LabelDigits("account:", [])))
  ]

  /** The generic fallback rules. */
  const Fallback: Rules := Rules(DollarAmount, SenderRule, AnyLabelDigits(["id", "member", "account", "note", "memo"]))

  /** The amount rules capture numerals; the memo rules capture digit strings. */
  predicate WellShaped(rules: Rules) {
    && (rules.amount.DollarAmount? || rules.amount.CodeAmount?)
    && rules.sender == SenderRule
    && (rules.memo.LabelDigits? || rules.memo.AnyLabelDigits?)
  }

  /** Every profile's rules are well shaped. */
  predicate AllWellShaped(profiles: seq<Profile>) {
    forall k :: 0 <= k < |profiles| ==> WellShaped(profiles[k].rules)
  }

  /** `parseFloat(capture.replace(/,/g, ''))` for a capture of an amount rule. */
  function AmountOf(capture: string): (r: Amount)
    requires IsNumeral(capture)
    ensures r.Some? ==> r.value >= 0.0
  {
    StripKeepsShape(capture);
    ParseFloat(StripCommas(capture))
  }

  /** An amount without a '.' is the whole number its digits spell once the commas are gone. */
  lemma AmountOfWhole(a: string)
    requires a != [] && AllIn(DigitOrComma, a)
    ensures IsNumeral(a) && AllIn(Digit, StripCommas(a)) &&
      AmountOf(a) == if StripCommas(a) == [] then None else Some(DigitsValue(StripCommas(a)) as real)
  {
    StripCommasDigits(a);
    ParseFloatWhole(StripCommas(a));
  }

  /** An amount `a.b` is the decimal whose integer digits are those of `a` with the commas gone
      and whose fraction digits are `b`; with no digit on either side of the '.' it is NaN. */
  lemma AmountOfDecimal(a: string, b: string)
    requires a != [] && AllIn(DigitOrComma, a) && AllIn(Digit, b)
    ensures IsNumeral(a + "." + b) && AllIn(Digit, StripCommas(a)) &&
      AmountOf(a + "." + b) ==
        if StripCommas(a) == [] && b == [] then None
        else Some(DecimalValue(StripCommas(a), b))
  {
    var c := a + "." + b;
    assert forall i :: 0 <= i < |c| ==> c[i] == if i < |a| then a[i] else if i == |a| then '.' else b[i - |a| - 1];
    StripCommasDigits(a);
    assert ',' !in b by {
      assert forall i :: 0 <= i < |b| ==> IsDigit(b[i]);
    }
    StripCommasAppend(a + ".", b);
    StripCommasAppend(a, ".");
    StripCommasNoComma(".");
    StripCommasNoComma(b);
    ParseFloatDecimal(StripCommas(a), b);
  }

  /** All three rules find a match somewhere in the message. */
  predicate Matches(rules: Rules, message: string) {
    Capture(rules.amount, message).Some? && Capture(rules.sender, message).Some? && Capture(rules.memo, message).Some?
  }

  /** The record one set of rules yields: trimmed sender, comma-free amount, memo digits as captured. */
  function ApplyRules(rules: Rules, message: string, now: int): (r: Option<ParsedMessage>)
    requires WellShaped(rules)
    ensures r.Some? <==> Matches(rules, message)
    ensures r.Some? ==> r.value.date == now
  {
    if Matches(rules, message) then
      Some(ParsedMessage(
        Trim(Capture(rules.sender, message).value),
        AmountOf(Capture(rules.amount, message).value),
        Capture(rules.memo, message).value,
        now))
    else None
  }

  /** The loop over the profile table: the record of the first profile whose rules all match. */
  function FirstProfile(profiles: seq<Profile>, message: string, now: int): (r: Option<ParsedMessage>)
    requires AllWellShaped(profiles)
    ensures r.None? <==> forall k :: 0 <= k < |profiles| ==> !Matches(profiles[k].rules, message)
    ensures r.Some? ==> exists k :: 0 <= k < |profiles| && ApplyRules(profiles[k].rules, message, now) == r
  {
    if profiles == [] then None
    else
      assert WellShaped(profiles[0].rules);
      match ApplyRules(profiles[0].rules, message, now)
      case Some(parsed) => Some(parsed)
      case None =>
        var rest := profiles[1..];
        assert forall k :: 0 <= k < |rest| ==> rest[k] == profiles[k + 1];
        assert AllWellShaped(rest);
        FirstProfile(rest, message, now)
  }

  /** `parsePaymentMessage(message, source)` read at clock time `now`: the first fully matching
      profile, else the generic fallback, else `None` (null). */
  function ParsePaymentMessage(message: string, source: Source, now: int): (r: Option<ParsedMessage>)
    ensures r.Some? ==> r.value.date == now
  {
    ParserRulesWellShaped();
    match FirstProfile(ProfileTable, message, now)
    case Some(parsed) => Some(parsed)
    case None => ApplyRules(Fallback, message, now)
  }

  /** The first profile whose rules all match decides the result, whatever later profiles
      and the fallback would give. */
  lemma FirstProfileWins(profiles: seq<Profile>, message: string, now: int, k: nat)
    requires AllWellShaped(profiles)
    requires k < |profiles| && Matches(profiles[k].rules, message)
    requires NoneMatchBefore(profiles, message, k)
    ensures FirstProfile(profiles, message, now) == ApplyRules(profiles[k].rules, message, now)
  {
    assert profiles[0..] == profiles;
    FirstProfileFrom(profiles, message, now, 0, k);
  }

  /** None of the first `k` profiles matches. */
  predicate NoneMatchBefore(profiles: seq<Profile>, message: string, k: nat)
    requires k <= |profiles|
  {
    forall j :: 0 <= j < k ==> !Matches(profiles[j].rules, message)
  }

  lemma NoneMatchBeforeNext(profiles: seq<Profile>, message: string, k: nat)
    requires k < |profiles| && NoneMatchBefore(profiles, message, k) && !Matches(profiles[k].rules, message)
    ensures NoneMatchBefore(profiles, message, k + 1)
  {
  }

  /** The loop resumed at profile `i`, no later than the first matching profile `k`. */
  lemma {:induction false} FirstProfileFrom(profiles: seq<Profile>, message: string, now: int, i: nat, k: nat)
    requires AllWellShaped(profiles)
    requires i <= k < |profiles| && Matches(profiles[k].rules, message)
    requires forall j :: i <= j < k ==> !Matches(profiles[j].rules, message)
    ensures FirstProfile(profiles[i..], message, now) == ApplyRules(profiles[k].rules, message, now)
    decreases k - i
  {
    FirstProfileStep(profiles, message, now, i);
    if i < k {
      FirstProfileFrom(profiles, message, now, i + 1, k);
    }
  }

  /** One step of the loop over the profiles. */
  lemma FirstProfileStep(profiles: seq<Profile>, message: string, now: int, i: nat)
    requires AllWellShaped(profiles) && i < |profiles|
    ensures Matches(profiles[i].rules, message) ==>
              FirstProfile(profiles[i..], message, now) == ApplyRules(profiles[i].rules, message, now)
    ensures !Matches(profiles[i].rules, message) ==>
              FirstProfile(profiles[i..], message, now) == FirstProfile(profiles[i + 1..], message, now)
  {
    assert profiles[i..][0] == profiles[i];
    assert profiles[i..][1..] == profiles[i + 1..];
  }

  /** Profiles are tried in the order zelle, venmo, cashapp, mpesa, and the first one whose three
      rules match produces the result. */
  lemma ParseTakesFirstProfile(message: string, source: Source, now: int, k: nat)
    requires k < |ProfileTable| && Matches(ProfileTable[k].rules, message)
    requires NoneMatchBefore(ProfileTable, message, k)
    ensures WellShaped(ProfileTable[k].rules) &&
              ParsePaymentMessage(message, source, now) == ApplyRules(ProfileTable[k].rules, message, now)
  {
    ParserRulesWellShaped();
    FirstProfileWins(ProfileTable, message, now, k);
  }

  /** The fallback is consulted only when no profile matches fully; when it fails too the
      result is `None`, and only then. */
  lemma ParseFallsBack(message: string, source: Source, now: int)
    ensures (forall k :: 0 <= k < |ProfileTable| ==> !Matches(ProfileTable[k].rules, message)) ==>
              ParsePaymentMessage(message, source, now) == ApplyRules(Fallback, message, now)
    ensures ParsePaymentMessage(message, source, now).None? <==>
              (forall k :: 0 <= k < |ProfileTable| ==> !Matches(ProfileTable[k].rules, message)) && !Matches(Fallback, message)
  {
  }

  /** Two passes over the same profiles at different clock readings agree except on the date. */
  lemma {:induction false} FirstProfileClock(profiles: seq<Profile>, message: string, t1: int, t2: int)
    requires AllWellShaped(profiles)
    ensures FirstProfile(profiles, message, t1).Some? ==>
              FirstProfile(profiles, message, t1).value.(date := t2) == FirstProfile(profiles, message, t2).value
  {
    if profiles != [] && !Matches(profiles[0].rules, message) {
      FirstProfileClock(profiles[1..], message, t1, t2);
    }
  }

  /** The result depends on the message and the clock only: `source` is never read, and two
      calls agree on everything except the date. */
  lemma ParseIgnoresSourceAndClock(message: string, s1: Source, s2: Source, t1: int, t2: int)
    ensures ParsePaymentMessage(message, s1, t1).None? == ParsePaymentMessage(message, s2, t2).None?
    ensures ParsePaymentMessage(message, s1, t1).Some? ==>
              ParsePaymentMessage(message, s1, t1).value.(date := t2) == ParsePaymentMessage(message, s2, t2).value
  {
    ParserRulesWellShaped();
    FirstProfileClock(ProfileTable, message, t1, t2);
  }

  /** What every well-shaped rule set yields on success. */
  lemma ApplyRulesShape(rules: Rules, message: string, now: int)
    requires WellShaped(rules) && Matches(rules, message)
    ensures var r := ApplyRules(rules, message, now).value;
      && Capture(SenderRule, message).Some?
      && r.senderName == Trim(Capture(SenderRule, message).value)
      && r.memberId != [] && AllIn(Digit, r.memberId)
      && AllIn(NameChar, r.senderName)
      && (r.amount.Some? ==> r.amount.value >= 0.0)
  {
    TrimKeepsClass(NameChar, Capture(SenderRule, message).value);
  }

  /** On success: the sender is the trimmed capture after "from" (whichever rules won), so it holds
      only letters and inner blanks and may be empty; the member id is the captured non-empty
      digit string; the amount is NaN or non-negative; the date is the clock reading. */
  lemma ParsedFields(message: string, source: Source, now: int) returns (r: ParsedMessage)
    requires ParsePaymentMessage(message, source, now).Some?
    ensures r == ParsePaymentMessage(message, source, now).value
    ensures Capture(SenderRule, message).Some? && r.senderName == Trim(Capture(SenderRule, message).value)
    ensures AllIn(NameChar, r.senderName)
    ensures r.senderName == [] || (!IsSpace(r.senderName[0]) && !IsSpace(r.senderName[|r.senderName| - 1]))
    ensures r.memberId != [] && AllIn(Digit, r.memberId)
    ensures r.amount.Some? ==> r.amount.value >= 0.0
    ensures r.date == now
  {
    ParserRulesWellShaped();
    var first := FirstProfile(ProfileTable, message, now);
    var rules: Rules;
    if first.Some? {
      var k :| 0 <= k < |ProfileTable| && ApplyRules(ProfileTable[k].rules, message, now) == first;
      TableWellShaped(k);
      rules := ProfileTable[k].rules;
    } else {
      rules := Fallback;
    }
    assert ParsePaymentMessage(message, source, now) == ApplyRules(rules, message, now);
    r := ApplyRules(rules, message, now).value;
    ApplyRulesShape(rules, message, now);
  }

  lemma TableWellShaped(k: nat)
    requires k < |ProfileTable|
    ensures WellShaped(ProfileTable[k].rules)
  {
  }

  /** Every rule set the parser applies, the four profiles and the fallback, is well shaped. */
  lemma ParserRulesWellShaped()
    ensures AllWellShaped(ProfileTable) && WellShaped(Fallback)
  {
  }

  /** `parseFloat` of a comma-stripped amount capture is NaN exactly when the capture holds no
      digit, as for the comma-only capture of "Hello, …". */
  lemma AmountNaNIffNoDigit(capture: string)
    requires IsNumeral(capture)
    ensures AmountOf(capture).None? <==> forall i :: 0 <= i < |capture| ==> !IsDigit(capture[i])
  {
    StripKeepsShape(capture);
    var t := StripCommas(capture);
    if exists i :: 0 <= i < |capture| && IsDigit(capture[i]) {
      var i :| 0 <= i < |capture| && IsDigit(capture[i]);
      assert capture[i] in t;
      var k :| 0 <= k < |t| && t[k] == capture[i];
      assert t != [];
      if !IsDigit(t[0]) {
        assert t[0] == '.' && k > 0;
        assert IsDigit(t[1]);
      }
    } else {
      assert forall j :: 0 <= j < |t| ==> t[j] in capture;
      assert forall j :: 0 <= j < |t| ==> !IsDigit(t[j]);
    }
  }

  /** The memo patterns of `extractMemberIdFromMemo`, highest priority first. */
  const MemberIdPatterns: seq<Pattern> := [
    LooseLabelDigits(["member", "id"]),
    LooseLabelDigits(["id"]),
    LooseLabelDigits(["account", "no"]),
    LooseLabelDigits(["account"]),
    LooseLabelDigits(["ref"]),
    BareDigits
  ]

  /** The loop over a pattern list: group 1 of the first pattern that matches. */
  function FirstCapture(patterns: seq<Pattern>, s: string): (r: Option<string>)
    ensures r.None? <==> forall k :: 0 <= k < |patterns| ==> Capture(patterns[k], s).None?
    ensures r.Some? ==> exists k :: 0 <= k < |patterns| && Capture(patterns[k], s) == r
  {
    if patterns == [] then None
    else
      match Capture(patterns[0], s)
      case Some(c) => Some(c)
      case None =>
        var r := FirstCapture(patterns[1..], s);
        assert forall k :: 1 <= k < |patterns| ==> patterns[1..][k - 1] == patterns[k];
        r
  }

  /** `extractMemberIdFromMemo(memo)`: the capture of the first member-id pattern that matches
      anywhere in the memo; always a non-empty digit string. */
  function ExtractMemberIdFromMemo(memo: string): (r: Option<string>)
    ensures r.None? <==> forall k :: 0 <= k < |MemberIdPatterns| ==> Capture(MemberIdPatterns[k], memo).None?
    ensures r.Some? ==> r.value != [] && AllIn(Digit, r.value)
  {
    MemberIdPatternsCaptureDigits();
    FirstCaptureDigits(MemberIdPatterns, memo);
    FirstCapture(MemberIdPatterns, memo)
  }

  /** A pattern whose group 1 is a digit run. */
  predicate CapturesDigits(pat: Pattern) {
    pat.LabelDigits? || pat.AnyLabelDigits? || pat.LooseLabelDigits? || pat.BareDigits?
  }

  lemma MemberIdPatternsCaptureDigits()
    ensures forall k :: 0 <= k < |MemberIdPatterns| ==> CapturesDigits(MemberIdPatterns[k])
  {
  }

  lemma FirstCaptureDigits(patterns: seq<Pattern>, s: string)
    requires forall k :: 0 <= k < |patterns| ==> CapturesDigits(patterns[k])
    ensures FirstCapture(patterns, s).Some? ==>
              FirstCapture(patterns, s).value != [] && AllIn(Digit, FirstCapture(patterns, s).value)
  {
    if FirstCapture(patterns, s).Some? {
      var k :| 0 <= k < |patterns| && Capture(patterns[k], s) == FirstCapture(patterns, s);
      assert Fits(patterns[k], Capture(patterns[k], s).value);
    }
  }

  /** None of the first `k` patterns matches. */
  predicate NoneCaptureBefore(patterns: seq<Pattern>, s: string, k: nat)
    requires k <= |patterns|
  {
    forall j :: 0 <= j < k ==> Capture(patterns[j], s).None?
  }

  lemma NoneCaptureBeforeNext(patterns: seq<Pattern>, s: string, k: nat)
    requires k < |patterns| && NoneCaptureBefore(patterns, s, k) && Capture(patterns[k], s).None?
    ensures NoneCaptureBefore(patterns, s, k + 1)
  {
  }

  /** The first pattern in the list that matches decides the result. */
  lemma {:induction false} FirstCaptureWins(patterns: seq<Pattern>, s: string, k: nat)
    requires k < |patterns| && Capture(patterns[k], s).Some?
    requires NoneCaptureBefore(patterns, s, k)
    ensures FirstCapture(patterns, s) == Capture(patterns[k], s)
  {
    if k > 0 {
      assert Capture(patterns[0], s).None?;
      assert forall j :: 0 <= j < k - 1 ==> patterns[1..][j] == patterns[j + 1];
      FirstCaptureWins(patterns[1..], s, k - 1);
    }
  }

  /** The member-id patterns are tried in priority order: "member id", "id", "account no",
      "account", "ref", then a bare run of six or more digits. */
  lemma ExtractTakesFirstPattern(memo: string, k: nat)
    requires k < |MemberIdPatterns| && Capture(MemberIdPatterns[k], memo).Some?
    requires NoneCaptureBefore(MemberIdPatterns, memo, k)
    ensures ExtractMemberIdFromMemo(memo) == Capture(MemberIdPatterns[k], memo)
  {
    FirstCaptureWins(MemberIdPatterns, memo, k);
  }

  /** Six consecutive digits anywhere in the memo guarantee a member id. */
  lemma SixDigitsGiveMemberId(memo: string, i: nat)
    requires i + MinBareDigits <= |memo|
    requires forall j :: i <= j < i + MinBareDigits ==> IsDigit(memo[j])
    ensures ExtractMemberIdFromMemo(memo).Some?
  {
    assert MatchAt(BareDigits, memo, i).Some?;
    assert Capture(MemberIdPatterns[5], memo).Some?;
  }

  /** A memo without a digit has no member id, and a message without a digit does not parse. */
  lemma NoDigitNoMemberId(memo: string)
    requires forall i :: 0 <= i < |memo| ==> !IsDigit(memo[i])
    ensures ExtractMemberIdFromMemo(memo).None?
  {
    MemberIdPatternsCaptureDigits();
    forall k | 0 <= k < |MemberIdPatterns|
      ensures Capture(MemberIdPatterns[k], memo).None?
    {
      NoDigitNoCapture(MemberIdPatterns[k], memo);
    }
  }

  lemma NoDigitNoParse(message: string, source: Source, now: int)
    requires forall i :: 0 <= i < |message| ==> !IsDigit(message[i])
    ensures ParsePaymentMessage(message, source, now).None?
  {
    forall k | 0 <= k < |ProfileTable|
      ensures !Matches(ProfileTable[k].rules, message)
    {
      TableWellShaped(k);
      NoDigitNoCapture(ProfileTable[k].rules.memo, message);
    }
    NoDigitNoCapture(Fallback.memo, message);
    ParseFallsBack(message, source, now);
  }

  /** `validateParsedMessage(parsed)`: a sender that is not blank, an amount that is a number
      above zero (NaN and 0 are falsy), and a member id of at least five characters. */
  function ValidateParsedMessage(parsed: ParsedMessage): (ok: bool)
    ensures ok <==>
      && (exists i :: 0 <= i < |parsed.senderName| && !IsSpace(parsed.senderName[i]))
      && parsed.amount.Some? && parsed.amount.value > 0.0
      && |parsed.memberId| >= 5
  {
    TrimEmptyIffBlank(parsed.senderName);
    && parsed.senderName != []
    && Trim(parsed.senderName) != []
    && parsed.amount.Some? && parsed.amount.value > 0.0
    && |parsed.memberId| >= 5
  }

  /** On a parser result the validator reduces to: a non-empty sender, a positive amount and
      a member id of five or more digits; the trim is a no-op there, and amounts are never
      negative, so "positive" is "neither 0 nor NaN". */
  lemma ValidatedParse(message: string, source: Source, now: int)
    requires ParsePaymentMessage(message, source, now).Some?
    ensures var r := ParsePaymentMessage(message, source, now).value;
      ValidateParsedMessage(r) <==>
        r.senderName != [] && r.amount.Some? && r.amount.value != 0.0 && |r.memberId| >= 5
  {
    var r := ParsedFields(message, source, now);
    TrimFixed(r.senderName);
  }
}
