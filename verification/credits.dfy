/**
 * Reading the account's leftover credits from the page: the validation
 * pattern `is_valid_credits_text`, the extraction pattern
 * `extract_credit_number`, and `get_and_save_leftover_credit_amount`.
 * Both patterns are case-insensitive on the word "Credits"; ASCII only.
 */
module Credits {
  import opened Wrappers
  import opened Text
  import opened Constants
  import opened Records

  const CREDITS_WORD := "credits"

  predicate AllSpace(s: string) { forall k :: 0 <= k < |s| ==> IsSpace(s[k]) }

  /** The word "Credits" in any letter case. */
  predicate IsCreditsWord(c: string) { Lower(c) == CREDITS_WORD }

  predicate IsNumeralChar(c: char) { IsDigit(c) || c == ',' }

  /** `s.replace(',', '')`. */
  function StripCommas(s: string): (r: string)
    ensures forall k :: 0 <= k < |r| ==> r[k] != ','
    ensures AllDigits(s) ==> r == s
    decreases |s|
  {
    if |s| == 0 then ""
    else StripCommas(s[..|s| - 1]) + (if s[|s| - 1] == ',' then "" else [s[|s| - 1]])
  }

  lemma {:induction false} StripCommasConcat(a: string, b: string)
    ensures StripCommas(a + b) == StripCommas(a) + StripCommas(b)
    decreases |b|
  {
    if |b| > 0 {
      assert (a + b)[..|a + b| - 1] == a + b[..|b| - 1];
      StripCommasConcat(a, b[..|b| - 1]);
    } else {
      assert a + b == a;
    }
  }

  // ---- is_valid_credits_text: ^(?:0|[1-9]\d{0,4}(?:,\d{3})?|50,?000) Credits$

  /** `[1-9]\d{0,4}` */
  predicate LeadDigits(s: string) { 1 <= |s| <= 5 && AllDigits(s) && s[0] != '0' }

  /** The numeral alternatives of the validation pattern. */
  predicate ValidationNumeral(n: string) {
    || n == "0"
    || LeadDigits(n)
    || (|n| >= 5 && LeadDigits(n[..|n| - 4]) && n[|n| - 4] == ',' && AllDigits(n[|n| - 3..]))
    || n == "50000" || n == "50,000"
  }

  /**
   * `is_valid_credits_text` (scrape_song/scrape_song.py:714-726): the text
   * is a numeral, one space and the word, and the numeral without commas is
   * at most MAX_CREDITS_NUMBER.
   */
  predicate IsValidCreditsText(text: Option<string>) {
    && Truthy(text)
    && |text.value| >= 8
    && text.value[|text.value| - 8] == ' '
    && IsCreditsWord(text.value[|text.value| - 7..])
    && ValidationNumeral(text.value[..|text.value| - 8])
    && DigitsValue(StripCommas(text.value[..|text.value| - 8])) <= MAX_CREDITS_NUMBER
  }

  // ---- extract_credit_number: ^(\d{1,3}(?:,\d{3})*|\d+)\s*Credits$

  /** `(?:,\d{3})*` */
  predicate GroupTail(s: string)
    decreases |s|
  {
    s == "" || (|s| >= 4 && s[0] == ',' && AllDigits(s[1..4]) && GroupTail(s[4..]))
  }

  /** `\d{1,3}(?:,\d{3})*` */
  predicate Grouped(g: string) {
    exists h | 1 <= h <= 3 :: h <= |g| && AllDigits(g[..h]) && GroupTail(g[h..])
  }

  predicate ExtractionNumeral(g: string) { Grouped(g) || (|g| >= 1 && AllDigits(g)) }

  /** Length of the longest prefix of digits and commas. */
  function NumeralLength(s: string): (n: nat)
    ensures n <= |s|
    ensures forall k :: 0 <= k < n ==> IsNumeralChar(s[k])
    ensures n < |s| ==> !IsNumeralChar(s[n])
    decreases |s|
  {
    if |s| == 0 || !IsNumeralChar(s[0]) then 0 else 1 + NumeralLength(s[1..])
  }

  /** `\s*Credits$` */
  predicate CreditsTail(r: string) {
    |r| >= 7 && AllSpace(r[..|r| - 7]) && IsCreditsWord(r[|r| - 7..])
  }

  datatype CreditError = NullText | NoMatch | OutOfRange

  /**
   * `extract_credit_number` (scrape_song/scrape_song.py:728-745). The
   * numeral of a match can only be the longest digit-and-comma prefix, since
   * neither whitespace nor the word starts with a digit or a comma.
   */
  function ExtractCreditNumber(text: Option<string>): (r: Result<nat, CreditError>)
    ensures r == Failure(NullText) <==> !Truthy(text)
    ensures r.Success? ==> r.value <= MAX_CREDITS_NUMBER
    ensures r.Success? || r == Failure(OutOfRange) <==>
              Truthy(text) && ExtractionNumeral(text.value[..NumeralLength(text.value)])
              && CreditsTail(text.value[NumeralLength(text.value)..])
    ensures r == Failure(OutOfRange) ==> DigitsValue(StripCommas(text.value[..NumeralLength(text.value)])) > MAX_CREDITS_NUMBER
  {
    if !Truthy(text) then Failure(NullText)
    else
      var t := text.value;
      var n := NumeralLength(t);
      if ExtractionNumeral(t[..n]) && CreditsTail(t[n..]) then
        var number := DigitsValue(StripCommas(t[..n]));
        if number <= MAX_CREDITS_NUMBER then Success(number) else Failure(OutOfRange)
      else Failure(NoMatch)
  }

  lemma {:induction false} GroupTailChars(s: string)
    requires GroupTail(s)
    ensures forall k :: 0 <= k < |s| ==> IsNumeralChar(s[k])
    decreases |s|
  {
    if s != "" {
      var digits, rest := s[1..4], s[4..];
      GroupTailChars(rest);
      assert AllDigits(digits) && IsNumeralChar(s[0]);
      assert forall k :: 1 <= k < 4 ==> s[k] == digits[k - 1];
      assert forall k :: 4 <= k < |s| ==> s[k] == rest[k - 4];
    }
  }

  lemma NumeralChars(g: string)
    requires ExtractionNumeral(g)
    ensures |g| >= 1 && forall k :: 0 <= k < |g| ==> IsNumeralChar(g[k])
  {
    if !AllDigits(g) {
      var h :| 1 <= h <= 3 && h <= |g| && AllDigits(g[..h]) && GroupTail(g[h..]);
      GroupTailChars(g[h..]);
      assert forall k :: h <= k < |g| ==> g[k] == g[h..][k - h];
      assert forall k :: 0 <= k < h ==> g[k] == g[..h][k];
    }
  }

  lemma {:induction false} NumeralLengthOf(g: string, rest: string)
    requires forall k :: 0 <= k < |g| ==> IsNumeralChar(g[k])
    requires |rest| > 0 && !IsNumeralChar(rest[0])
    ensures NumeralLength(g + rest) == |g|
    decreases |g|
  {
    if |g| > 0 {
      assert (g + rest)[1..] == g[1..] + rest;
      NumeralLengthOf(g[1..], rest);
    } else {
      assert g + rest == rest;
    }
  }

  /** The word never begins with a digit or a comma. */
  lemma CreditsWordStart(c: string)
    requires IsCreditsWord(c)
    ensures |c| == 7 && !IsNumeralChar(c[0])
  {
    assert Lower(c)[0] == LowerChar(c[0]) == 'c';
  }

  /**
   * Every text of the pattern's shape, numeral then optional whitespace then
   * the word, is read as that numeral's value, or refused as out of range.
   */
  lemma ExtractionOfShape(g: string, w: string, c: string)
    requires ExtractionNumeral(g) && AllSpace(w) && IsCreditsWord(c)
    ensures var v := DigitsValue(StripCommas(g));
      ExtractCreditNumber(Some(g + w + c)) == if v <= MAX_CREDITS_NUMBER then Success(v) else Failure(OutOfRange)
  {
    var t, r := g + w + c, w + c;
    assert t == g + r;
    NumeralChars(g);
    CreditsTailOf(w, c);
    NumeralLengthOf(g, r);
    ExtractionBySplit(t, g, r);
  }

  /** Reading a text whose longest numeral prefix is `g` and whose rest is a credits tail. */
  lemma ExtractionBySplit(t: string, g: string, r: string)
    requires t == g + r && |g| > 0 && NumeralLength(t) == |g|
    requires ExtractionNumeral(g) && CreditsTail(r)
    ensures var v := DigitsValue(StripCommas(g));
      ExtractCreditNumber(Some(t)) == if v <= MAX_CREDITS_NUMBER then Success(v) else Failure(OutOfRange)
  {
    assert t[..|g|] == g && t[|g|..] == r;
  }

  /** Whitespace then the word is a credits tail that starts with neither a digit nor a comma. */
  lemma CreditsTailOf(w: string, c: string)
    requires AllSpace(w) && IsCreditsWord(c)
    ensures |w + c| > 0 && !IsNumeralChar((w + c)[0]) && CreditsTail(w + c)
  {
    CreditsWordStart(c);
    var r := w + c;
    if |w| > 0 {
      assert r[0] == w[0];
    } else {
      assert r[0] == c[0];
    }
    assert r[..|r| - 7] == w && r[|r| - 7..] == c;
  }


  /** A text the validation accepts is read back as the validated number. */
  lemma ValidTextIsExtracted(t: string)
    requires IsValidCreditsText(Some(t))
    ensures ExtractCreditNumber(Some(t)) == Success(DigitsValue(StripCommas(t[..|t| - 8])))
  {
    var n, c := t[..|t| - 8], t[|t| - 7..];
    SplitAtSpace(t, |t| - 8);
    NumeralIsExtractable(n);
    ExtractionInRange(t, n, c);
  }

  lemma ExtractionInRange(t: string, g: string, c: string)
    requires ExtractionNumeral(g) && IsCreditsWord(c) && t == g + " " + c
    requires DigitsValue(StripCommas(g)) <= MAX_CREDITS_NUMBER
    ensures ExtractCreditNumber(Some(t)) == Success(DigitsValue(StripCommas(g)))
  {
    assert AllSpace(" ");
    ExtractionOfShape(g, " ", c);
  }

  lemma SplitAtSpace(t: string, i: nat)
    requires i < |t| && t[i] == ' '
    ensures t == t[..i] + " " + t[i + 1..]
  {
  }

  /** Dropping the one comma of `a,b` leaves the digits of `a` then `b`. */
  lemma CommaJoinValue(a: string, b: string)
    requires AllDigits(a) && AllDigits(b) && |b| == 3
    ensures StripCommas(a + "," + b) == a + b
    ensures DigitsValue(StripCommas(a + "," + b)) == DigitsValue(a) * 1000 + DigitsValue(b)
  {
    var ac := a + ",";
    assert ac[..|ac| - 1] == a;
    assert StripCommas(ac) == StripCommas(a);
    StripCommasConcat(ac, b);
    assert a + "," + b == ac + b;
    DigitsValueConcat(a, b);
    assert Pow10(3) == 1000;
  }

  /** One group of three after a comma. */
  lemma OneGroup(a: string, b: string)
    requires 1 <= |a| <= 3 && AllDigits(a) && AllDigits(b) && |b| == 3
    ensures Grouped(a + "," + b)
  {
    var g := a + "," + b;
    assert g[..|a|] == a;
    assert g[|a|..] == "," + b;
    assert ("," + b)[1..4] == b;
    assert GroupTail(("," + b)[4..]);
  }

  lemma NumeralIsExtractable(n: string)
    requires ValidationNumeral(n) && DigitsValue(StripCommas(n)) <= MAX_CREDITS_NUMBER
    ensures ExtractionNumeral(n)
  {
    if n == "50,000" {
      FiftyThousandGrouped();
    } else if n == "0" || n == "50000" || LeadDigits(n) {
      PlainNumeral(n);
    } else {
      CommaNumeralIsGrouped(n);
    }
  }

  lemma FiftyThousandGrouped()
    ensures Grouped("50,000")
  {
    OneGroup("50", "000");
    assert "50" + "," + "000" == "50,000";
  }

  lemma PlainNumeral(n: string)
    requires n == "0" || n == "50000" || LeadDigits(n)
    ensures AllDigits(n)
  {
  }

  /** `[1-9]\d{0,4},\d{3}` within the limit has at most two leading digits, so it is grouped. */
  lemma CommaNumeralIsGrouped(n: string)
    requires |n| >= 5 && LeadDigits(n[..|n| - 4]) && n[|n| - 4] == ',' && AllDigits(n[|n| - 3..])
    requires DigitsValue(StripCommas(n)) <= MAX_CREDITS_NUMBER
    ensures Grouped(n)
  {
    var a, b := n[..|n| - 4], n[|n| - 3..];
    SplitAtComma(n);
    CommaJoinValue(a, b);
    ShortHead(a, DigitsValue(b));
    OneGroup(a, b);
  }

  lemma SplitAtComma(n: string)
    requires |n| >= 4 && n[|n| - 4] == ','
    ensures n == n[..|n| - 4] + "," + n[|n| - 3..]
  {
  }

  /** A leading part worth 100 or more would put the value above the limit. */
  lemma ShortHead(a: string, low: nat)
    requires LeadDigits(a) && DigitsValue(a) * 1000 + low <= MAX_CREDITS_NUMBER
    ensures |a| <= 2
  {
    assert Pow10(2) == 100;
    if |a| >= 3 {
      DigitsValueLeading(a);
      Pow10Grows(2, |a| - 1);
      assert false;
    }
  }


  lemma {:induction false} Pow10Grows(i: nat, j: nat)
    requires i <= j
    ensures Pow10(i) <= Pow10(j)
    decreases j - i
  {
    if i < j {
      Pow10Grows(i, j - 1);
    }
  }

  /** `f"{n} Credits"` */
  function FormatCredits(n: nat): string { NatToString(n) + " Credits" }

  /** `f"{n:,} Credits"` for a number with one thousands separator. */
  function FormatCreditsGrouped(n: nat): string
    requires 1000 <= n < 1000000
  {
    NatToString(n / 1000) + "," + Pad3(n % 1000) + " Credits"
  }

  lemma CreditsWordCased()
    ensures IsCreditsWord("Credits")
  {
    assert Lower("Credits") == "credits";
  }

  /** A numeral followed by " Credits" is valid exactly when the numeral is. */
  lemma FormattedValidity(num: string)
    requires num != ""
    ensures var t := num + " Credits";
      IsValidCreditsText(Some(t)) <==> ValidationNumeral(num) && DigitsValue(StripCommas(num)) <= MAX_CREDITS_NUMBER
    ensures var t := num + " Credits"; t[..|t| - 8] == num
  {
    var t := num + " Credits";
    CreditsWordCased();
    CreditsSuffixParts(num);
    assert IsCreditsWord(t[|t| - 7..]);
  }

  /** The pieces of a numeral followed by " Credits". */
  lemma CreditsSuffixParts(num: string)
    ensures var t := num + " Credits";
      && |t| == |num| + 8 && t[..|t| - 8] == num && t[|t| - 8] == ' ' && t[|t| - 7..] == "Credits"
  {
    var t := num + " Credits";
    assert t[..|num|] == num;
    assert t[|num|..] == " Credits";
    assert t[|num| + 1..] == t[|num|..][1..];
  }

  /** Every balance the site can show is accepted and read back exactly. */
  lemma CreditsRoundTrip(n: nat)
    requires n <= MAX_CREDITS_NUMBER
    ensures IsValidCreditsText(Some(FormatCredits(n)))
    ensures ExtractCreditNumber(Some(FormatCredits(n))) == Success(n)
  {
    var s := NatToString(n);
    NatToStringRoundTrip(n);
    NatToStringLeading(n);
    assert Pow10(5) == 100000 by { Pow10Five(); }
    NatToStringShort(n, 5);
    assert ValidationNumeral(s) by {
      if n != 0 { assert LeadDigits(s); }
    }
    NumeralRoundTrip(s, n);
  }

  lemma Pow10Five()
    ensures Pow10(5) == 100000
  {
    assert Pow10(2) == 100;
  }

  /** The same holds with a thousands separator. */
  lemma GroupedCreditsRoundTrip(n: nat)
    requires 1000 <= n <= MAX_CREDITS_NUMBER
    ensures IsValidCreditsText(Some(FormatCreditsGrouped(n)))
    ensures ExtractCreditNumber(Some(FormatCreditsGrouped(n))) == Success(n)
  {
    var q, r := n / 1000, n % 1000;
    SplitThousands(n);
    var num := NatToString(q) + "," + Pad3(r);
    GroupedNumeral(q, r);
    NumeralRoundTrip(num, n);
    assert FormatCreditsGrouped(n) == num + " Credits";
  }

  /** An accepted numeral within the limit, followed by " Credits", is read back as its value. */
  lemma NumeralRoundTrip(num: string, v: nat)
    requires ValidationNumeral(num) && DigitsValue(StripCommas(num)) == v <= MAX_CREDITS_NUMBER
    ensures IsValidCreditsText(Some(num + " Credits"))
    ensures ExtractCreditNumber(Some(num + " Credits")) == Success(v)
  {
    FormattedValidity(num);
    ValidTextIsExtracted(num + " Credits");
  }

  lemma SplitThousands(n: nat)
    requires 1000 <= n <= MAX_CREDITS_NUMBER
    ensures n == n / 1000 * 1000 + n % 1000
    ensures 1 <= n / 1000 < 100 && n % 1000 < 1000
  {
  }

  /** `q,rrr` is an accepted numeral worth `q * 1000 + r`. */
  lemma GroupedNumeral(q: nat, r: nat)
    requires 1 <= q < 100 && r < 1000
    ensures var num := NatToString(q) + "," + Pad3(r);
      && ValidationNumeral(num)
      && DigitsValue(StripCommas(num)) == q * 1000 + r
  {
    var a, b := NatToString(q), Pad3(r);
    var num := a + "," + b;
    NatToStringRoundTrip(q);
    NatToStringLeading(q);
    assert Pow10(2) == 100;
    NatToStringShort(q, 2);
    Pad3RoundTrip(r);
    CommaJoinValue(a, b);
    assert num[..|num| - 4] == a && num[|num| - 4] == ',' && num[|num| - 3..] == b;
    assert LeadDigits(a);
  }


  /**
   * `get_leftover_credit_amount` (scrape_song/scrape_song.py:647-657): the
   * credits element's text, when there is exactly one such element.
   */
  function LeftoverCreditAmount(span: Option<string>): (r: Option<nat>)
    ensures r.Some? <==> IsValidCreditsText(span)
    ensures r.Some? ==> r.value <= MAX_CREDITS_NUMBER
    ensures r.Some? ==> r.value == DigitsValue(StripCommas(span.value[..|span.value| - 8]))
  {
    if !Truthy(span) || !IsValidCreditsText(span) then None
    else
      ValidTextIsExtracted(span.value);
      match ExtractCreditNumber(span)
      case Success(v) => Some(v)
      case Failure(_) => None
  }

  /** What `get_and_save_leftover_credit_amount` did. */
  datatype SaveOutcome = SaveOutcome(ok: bool, lowBalanceAlert: bool, credits: map<string, Option<int>>)

  /**
   * `get_and_save_leftover_credit_amount` (scrape_song/scrape_song.py:632-645):
   * a missing or zero balance is a failure; a balance at or below
   * MIN_SUNO_CREDIT_BALANCE raises an alert and is still saved.
   */
  function GetAndSaveLeftoverCredits(span: Option<string>, credits: map<string, Option<int>>, phone: string)
    : (r: SaveOutcome)
    ensures r.ok <==> IsValidCreditsText(span) && LeftoverCreditAmount(span).value != 0
    ensures !r.ok ==> !r.lowBalanceAlert && r.credits == credits
    ensures r.ok ==> (r.lowBalanceAlert <==> LeftoverCreditAmount(span).value <= MIN_SUNO_CREDIT_BALANCE)
    ensures r.ok && phone in credits ==> r.credits == credits[phone := Some(LeftoverCreditAmount(span).value as int)]
    ensures phone !in credits ==> r.credits == credits
  {
    match LeftoverCreditAmount(span)
    case None => SaveOutcome(false, false, credits)
    case Some(v) =>
      if v == 0 then SaveOutcome(false, false, credits)
      else SaveOutcome(true, v <= MIN_SUNO_CREDIT_BALANCE, UpdateCreditNumber(credits, phone, Some(v)).1)
  }
}
