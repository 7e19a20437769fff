/**
 * The phone sign-in flow (sign_in/sign_in.py): a fixed sequence of stages
 * that stops at the first failure, then up to three attempts at obtaining
 * and typing the SMS verification code. Page observations and the outcome of
 * each fetch are inputs.
 */
module SignIn {
  import opened Wrappers
  import opened Text
  import opened Constants
  import opened Stages
  import opened Sms

  const REQUIRED_DETAILS: seq<string> := ["phone", "country", "phone_provider", "country_code"]

  /** `validate_sign_in_details` (sign_in/sign_in.py:89-96). */
  function ValidateSignInDetails(details: map<string, string>): (ok: bool)
    ensures ok ==> |details| > 0
  {
    if |details| == 0 then
      assert REQUIRED_DETAILS[0] !in details;
      false
    else
      forall k | 0 <= k < |REQUIRED_DETAILS| :: REQUIRED_DETAILS[k] in details && details[REQUIRED_DETAILS[k]] != ""
  }

  /** The four details the flow reads, each present and non-empty. */
  predicate Filled(details: map<string, string>) {
    && "phone" in details && details["phone"] != ""
    && "country" in details && details["country"] != ""
    && "phone_provider" in details && details["phone_provider"] != ""
    && "country_code" in details && details["country_code"] != ""
  }

  /**
   * Validation accepts exactly the maps in which every key the flow reads is
   * filled, so such a map holds at least those four keys.
   */
  lemma ValidDetailsAreFilled(details: map<string, string>)
    ensures ValidateSignInDetails(details) <==> Filled(details)
    ensures ValidateSignInDetails(details) ==> |details| >= |REQUIRED_DETAILS|
  {
    assert REQUIRED_DETAILS[0] == "phone" && REQUIRED_DETAILS[1] == "country";
    assert REQUIRED_DETAILS[2] == "phone_provider" && REQUIRED_DETAILS[3] == "country_code";
    if Filled(details) {
      assert details.Keys != {};
      assert forall k :: 0 <= k < |REQUIRED_DETAILS| ==> REQUIRED_DETAILS[k] in details && details[REQUIRED_DETAILS[k]] != "";
    }
    if ValidateSignInDetails(details) {
      assert REQUIRED_DETAILS[0] in details && REQUIRED_DETAILS[1] in details;
      assert REQUIRED_DETAILS[2] in details && REQUIRED_DETAILS[3] in details;
      var needed := {"phone", "country", "phone_provider", "country_code"};
      assert needed <= details.Keys;
      assert |needed| == 4;
      SubsetSize(needed, details.Keys);
    }
  }

  lemma SubsetSize<T>(a: set<T>, b: set<T>)
    requires a <= b
    ensures |a| <= |b|
  {
    assert b == a + (b - a);
  }

  /** A row of the country list matches: exactly one `<p>` child, equal to the code up to case. */
  predicate RowMatches(paragraphs: seq<string>, countryCode: string) {
    |paragraphs| == 1 && EqualsIgnoreCase(paragraphs[0], countryCode)
  }

  /** The first matching row from `from` on. */
  function FirstMatchingRow(rows: seq<seq<string>>, countryCode: string, from: nat): (r: Option<nat>)
    ensures r.Some? ==> from <= r.value < |rows| && RowMatches(rows[r.value], countryCode)
    ensures r.Some? ==> forall j :: from <= j < r.value ==> !RowMatches(rows[j], countryCode)
    ensures r.None? ==> forall j :: from <= j < |rows| ==> !RowMatches(rows[j], countryCode)
    decreases |rows| - from
  {
    if from >= |rows| then None
    else if RowMatches(rows[from], countryCode) then Some(from)
    else FirstMatchingRow(rows, countryCode, from + 1)
  }

  /**
   * `search_country_code` (sign_in/sign_in.py:179-205): the row clicked, if
   * any. The first matching row wins even when later rows match too.
   */
  function SearchCountryCode(searchFieldFound: bool, rows: seq<seq<string>>, countryCode: string): (r: Option<nat>)
    ensures r.Some? ==> searchFieldFound && r.value < |rows| && RowMatches(rows[r.value], countryCode)
    ensures r.Some? ==> forall j :: 0 <= j < r.value ==> !RowMatches(rows[j], countryCode)
    ensures r.None? <==> !searchFieldFound || forall j :: 0 <= j < |rows| ==> !RowMatches(rows[j], countryCode)
  {
    if !searchFieldFound then None else FirstMatchingRow(rows, countryCode, 0)
  }

  /** Two matching rows: the first is taken. */
  lemma FirstOfTwoMatchesTaken()
    ensures SearchCountryCode(true, [["+44"], ["+1"], ["+1"]], "+1") == Some(1)
  {
    assert !RowMatches(["+44"], "+1") by {
      assert |Lower("+44")| != |Lower("+1")|;
    }
    assert RowMatches(["+1"], "+1");
  }

  datatype SmsClient = TwilioClient(number: string) | MessageBirdClient(clientData: map<string, string>)

  /** `get_sms_client` (sign_in/sign_in.py:81-87). */
  function GetSmsClient(details: map<string, string>): (r: Option<SmsClient>)
    requires "phone_provider" in details && "phone" in details && "country_code" in details
    ensures details["phone_provider"] == "twilio" ==> r == Some(TwilioClient(details["country_code"] + details["phone"]))
    ensures details["phone_provider"] == "message_bird" ==> r == Some(MessageBirdClient(details))
    ensures r.None? <==> details["phone_provider"] != "twilio" && details["phone_provider"] != "message_bird"
  {
    if details["phone_provider"] == "twilio" then Some(TwilioClient(details["country_code"] + details["phone"]))
    else if details["phone_provider"] == "message_bird" then Some(MessageBirdClient(details))
    else None
  }

  /** The details name a provider the flow has a client for. */
  predicate HasClient(details: map<string, string>) {
    "phone_provider" in details && "phone" in details && "country_code" in details && GetSmsClient(details).Some?
  }

  /**
   * Validation does not ask for the MessageBird workspace: validated details
   * of a MessageBird user without one yield a client whose every fetch raises.
   */
  lemma MessageBirdWithoutWorkspaceRaises(details: map<string, string>, response: Response)
    requires ValidateSignInDetails(details)
    requires "phone_provider" in details && details["phone_provider"] == "message_bird" && "workspace_id" !in details
    ensures HasClient(details)
    ensures FetchMessageBird(GetSmsClient(details).value.clientData, response).Raised?
  {
    ValidDetailsAreFilled(details);
  }

  /** The Twilio number of validated details is the country code followed by the phone, both non-empty. */
  lemma TwilioNumberOfValidDetails(details: map<string, string>)
    requires ValidateSignInDetails(details)
    requires "phone_provider" in details && details["phone_provider"] == "twilio"
    ensures HasClient(details)
    ensures var number := GetSmsClient(details).value.number;
      && |number| >= 2
      && StartsWith(number, details["country_code"])
      && number[|details["country_code"]|..] == details["phone"]
  {
    ValidDetailsAreFilled(details);
    var number := GetSmsClient(details).value.number;
    assert number[..|details["country_code"]|] == details["country_code"];
  }

  /**
   * One attempt at the code: whether the Resend button was found (unused on
   * the first attempt, which does not resend), what the fetch produced, and
   * the page after typing: whether the first digit field was found and
   * whether the page then showed the create screen.
   */
  datatype Attempt = Attempt(resendFound: bool, fetched: Fetch, codeFieldFound: bool, onCreateScreen: bool)

  /**
   * The code an attempt obtains: a missing Resend button yields no code
   * without fetching (sign_in/sign_in.py:67-79).
   */
  function Obtained(attempts: seq<Attempt>, i: nat): Fetch
    requires i < |attempts|
  {
    if i > 0 && !attempts[i].resendFound then NoCode else attempts[i].fetched
  }

  /** An attempt ends the ladder: the fetch raised, or a code was typed. */
  predicate Stops(attempts: seq<Attempt>, i: nat)
    requires i < |attempts|
  {
    Obtained(attempts, i).Raised? || (HasCode(Obtained(attempts, i)) && attempts[i].codeFieldFound)
  }

  /** The ladder signs in at attempt i. */
  predicate SignsInAt(attempts: seq<Attempt>, i: nat)
    requires i < |attempts|
  {
    && (forall j :: 0 <= j < i ==> !Stops(attempts, j))
    && Stops(attempts, i) && !Obtained(attempts, i).Raised? && attempts[i].onCreateScreen
  }

  /** How many attempts the ladder makes: up to the first that stops, or all three. */
  function LadderLength(attempts: seq<Attempt>): (n: nat)
    requires |attempts| == 3
    ensures 1 <= n <= 3
    ensures forall j :: 0 <= j < n - 1 ==> !Stops(attempts, j)
    ensures n < 3 ==> Stops(attempts, n - 1)
  {
    if Stops(attempts, 0) then 1 else if Stops(attempts, 1) then 2 else 3
  }

  /** The resends among the first n attempts: each later attempt whose Resend button was found. */
  function ResendCount(attempts: seq<Attempt>, n: nat): (c: nat)
    requires n <= |attempts|
    ensures c < n || n == 0
  {
    if n <= 1 then 0 else ResendCount(attempts, n - 1) + (if attempts[n - 1].resendFound then 1 else 0)
  }

  const RESEND_MISSING := "SCRAPER - SIGN_IN: Could not find the Resend button."
  const CODE_FIELD_MISSING := "SCRAPER - SIGN_IN: Could not find the input field for the sign in code."

  /**
   * The errors attempt i reports (sign_in/sign_in.py:72, 152): a missing
   * Resend button, or a code with no field to type it into.
   */
  function AttemptReports(attempts: seq<Attempt>, i: nat): seq<string>
    requires i < |attempts|
  {
    if i > 0 && !attempts[i].resendFound then [RESEND_MISSING]
    else if HasCode(attempts[i].fetched) && !attempts[i].codeFieldFound then [CODE_FIELD_MISSING]
    else []
  }

  /** The errors the first n attempts report, in order. */
  function LadderReports(attempts: seq<Attempt>, n: nat): seq<string>
    requires n <= |attempts|
  {
    if n == 0 then [] else LadderReports(attempts, n - 1) + AttemptReports(attempts, n - 1)
  }

  datatype LadderResult = LadderResult(ok: bool, fetches: nat, resends: nat, reports: seq<string>)

  /**
   * The verification-code ladder of `sign_in` (sign_in/sign_in.py:42-79):
   * fetch, then resend and fetch at most twice. A typed code ends the ladder
   * with the create-screen check; a failed entry moves on to the next resend.
   * A missing Resend button skips that attempt's fetch and is reported.
   */
  method CodeLadder(attempts: seq<Attempt>) returns (r: LadderResult)
    requires |attempts| == 3
    ensures r.ok <==> exists i :: 0 <= i < 3 && SignsInAt(attempts, i)
    ensures r.fetches == r.resends + 1
    ensures r.resends == ResendCount(attempts, LadderLength(attempts)) <= 2
    ensures r.reports == LadderReports(attempts, LadderLength(attempts))
    ensures Stops(attempts, 0) ==> r.fetches == 1 && r.resends == 0 && r.reports == []
  {
    var i := 0;
    var fetches, resends, reports := 0, 0, [];
    while i < 3
      invariant 0 <= i <= 3
      invariant forall j :: 0 <= j < i ==> !Stops(attempts, j)
      invariant i == 0 ==> fetches == 0
      invariant i > 0 ==> fetches == resends + 1
      invariant resends == ResendCount(attempts, i)
      invariant reports == LadderReports(attempts, i)
    {
      if i > 0 && !attempts[i].resendFound {
        reports := reports + [RESEND_MISSING];
      } else {
        fetches := fetches + 1;
        if i > 0 {
          resends := resends + 1;
        }
        var code := attempts[i].fetched;
        if HasCode(code) && !attempts[i].codeFieldFound {
          reports := reports + [CODE_FIELD_MISSING];
        }
      }
      if Stops(attempts, i) {
        r := LadderResult(!Obtained(attempts, i).Raised? && attempts[i].onCreateScreen, fetches, resends, reports);
        assert r.ok ==> SignsInAt(attempts, i);
        assert forall k :: 0 <= k < 3 && k != i ==> !SignsInAt(attempts, k);
        assert LadderLength(attempts) == i + 1;
        return;
      }
      i := i + 1;
    }
    r := LadderResult(false, fetches, resends, reports);
  }

  /**
   * A missing Resend button on the first resend is reported even when the
   * last attempt signs in; the report outlives the successful sign-in.
   */
  lemma MissingResendReportedDespiteSignIn(attempts: seq<Attempt>)
    requires |attempts| == 3
    requires attempts[0].fetched == NoCode && !attempts[1].resendFound
    requires attempts[2].resendFound && attempts[2].fetched == Code("123456")
    requires attempts[2].codeFieldFound && attempts[2].onCreateScreen
    ensures SignsInAt(attempts, 2)
    ensures LadderReports(attempts, LadderLength(attempts)) == [RESEND_MISSING]
    ensures ResendCount(attempts, LadderLength(attempts)) == 1
  {
    assert !Stops(attempts, 0) && !Stops(attempts, 1) && Stops(attempts, 2);
    assert LadderLength(attempts) == 3;
    assert AttemptReports(attempts, 0) == [] && AttemptReports(attempts, 2) == [];
    assert LadderReports(attempts, 1) == [] + [];
    assert LadderReports(attempts, 2) == [] + [RESEND_MISSING];
    assert LadderReports(attempts, 3) == LadderReports(attempts, 2) + [];
  }

  /** With no code on the first two attempts and one on the third, the ladder resends twice. */
  lemma ThirdCodeAfterTwoResends(attempts: seq<Attempt>)
    requires |attempts| == 3
    requires attempts[0].fetched == NoCode
    requires attempts[1].resendFound && attempts[1].fetched == NoCode
    requires attempts[2].resendFound && attempts[2].fetched == Code("123456") && attempts[2].codeFieldFound
    ensures LadderLength(attempts) == 3
    ensures ResendCount(attempts, LadderLength(attempts)) == 2
    ensures LadderReports(attempts, LadderLength(attempts)) == []
    ensures attempts[2].onCreateScreen <==> SignsInAt(attempts, 2)
  {
    assert !Stops(attempts, 0) && !Stops(attempts, 1);
    assert AttemptReports(attempts, 0) == [] && AttemptReports(attempts, 1) == [] && AttemptReports(attempts, 2) == [];
    assert LadderReports(attempts, 3) == LadderReports(attempts, 2) + [];
    assert LadderReports(attempts, 2) == LadderReports(attempts, 1) + [];
    assert LadderReports(attempts, 1) == [] + [];
  }

  /** What the sign-in page shows at each stage. */
  datatype Page = Page(
    currentUrl: string,
    countrySelectorFound: bool,
    countrySearchFieldFound: bool,
    countryRows: seq<seq<string>>,
    phoneFieldFound: bool,
    continueButtonFound: bool,
    pageText: string)

  datatype Stage = Details | SignInPage | CountryCode | PhoneNumber | SubmitPhone | SmsClientStage | VerificationCode

  const STAGES: seq<Stage> := [Details, SignInPage, CountryCode, PhoneNumber, SubmitPhone]

  /** The results of the fixed stages, in order (sign_in/sign_in.py:17-40). */
  function StageResults(details: map<string, string>, page: Page): (r: seq<bool>)
    ensures |r| == |STAGES|
    ensures r[0] == ValidateSignInDetails(details)
  {
    [ ValidateSignInDetails(details),
      StartsWith(page.currentUrl, SIGN_IN_URL),
      && page.countrySelectorFound
      && "country_code" in details
      && SearchCountryCode(page.countrySearchFieldFound, page.countryRows, details["country_code"]).Some?,
      page.phoneFieldFound,
      page.continueButtonFound && Contains(page.pageText, SIGN_IN_CHECK_PHONE) ]
  }

  const DETAILS_INVALID := "SCRAPER - SIGN_IN: Invalid sign in details."
  const WRONG_PAGE := "SCRAPER - SIGN_IN: Not on the phone sign in page."
  const SELECTOR_MISSING := "SCRAPER - SIGN_IN: Could not find the country code selector."
  const SEARCH_FIELD_MISSING := "SCRAPER - SIGN_IN: Could not find the country code search field."
  const COUNTRY_MISSING := "SCRAPER - SIGN_IN: Could not find the target country."
  const PHONE_FIELD_MISSING := "SCRAPER - SIGN_IN: Could not find the phone input field."
  const CONTINUE_MISSING := "SCRAPER - SIGN_IN: Could not find the Continue button."
  const NOT_CHECK_PHONE := "SCRAPER - SIGN_IN: Not on the Check your phone screen."

  /**
   * The error a failing stage reports (sign_in/sign_in.py:94, 102, 115,
   * 127, 139, 169, 185, 200).
   */
  function StageReport(page: Page, stage: nat): string
  {
    if stage == 0 then DETAILS_INVALID
    else if stage == 1 then WRONG_PAGE
    else if stage == 2 then
      if !page.countrySelectorFound then SELECTOR_MISSING
      else if !page.countrySearchFieldFound then SEARCH_FIELD_MISSING
      else COUNTRY_MISSING
    else if stage == 3 then PHONE_FIELD_MISSING
    else if !page.continueButtonFound then CONTINUE_MISSING
    else NOT_CHECK_PHONE
  }

  /** The outcome of signing in, with the errors reported on the way. */
  datatype SignInResult = SignInResult(failedAt: Option<Stage>, stagesRun: nat, fetches: nat, resends: nat,
                                       reports: seq<string>)

  /** `sign_in` (sign_in/sign_in.py:15-65). An unknown provider leaves no client, and using it raises. */
  method SignIn(details: map<string, string>, page: Page, attempts: seq<Attempt>) returns (r: SignInResult)
    requires |attempts| == 3
    ensures r.stagesRun == ChecksRun(StageResults(details, page))
    ensures FirstFailure(StageResults(details, page)).Some? ==>
              && r.failedAt == Some(STAGES[FirstFailure(StageResults(details, page)).value]) && r.fetches == 0
              && r.reports == [StageReport(page, FirstFailure(StageResults(details, page)).value)]
    ensures FirstFailure(StageResults(details, page)).None? ==> Filled(details)
    ensures FirstFailure(StageResults(details, page)).None? && !HasClient(details) ==>
              r.failedAt == Some(SmsClientStage) && r.fetches == 0 && r.reports == []
    ensures FirstFailure(StageResults(details, page)).None? && HasClient(details) ==>
              && (r.failedAt.None? <==> exists i :: 0 <= i < 3 && SignsInAt(attempts, i))
              && (r.failedAt.Some? ==> r.failedAt == Some(VerificationCode))
              && r.fetches == r.resends + 1
              && r.resends == ResendCount(attempts, LadderLength(attempts))
              && r.reports == LadderReports(attempts, LadderLength(attempts))
    ensures r.failedAt.None? ==> FirstFailure(StageResults(details, page)).None? && HasClient(details)
  {
    var results := StageResults(details, page);
    match FirstFailure(results)
    case Some(i) =>
      var message := StageReport(page, i);
      r := SignInResult(Some(STAGES[i]), i + 1, 0, 0, [message]);
    case None =>
      assert results[0];
      ValidDetailsAreFilled(details);
      if GetSmsClient(details).None? {
        r := SignInResult(Some(SmsClientStage), |results|, 0, 0, []);
      } else {
        var ladder := CodeLadder(attempts);
        r := SignInResult(if ladder.ok then None else Some(VerificationCode), |results|, ladder.fetches,
                          ladder.resends, ladder.reports);
      }
  }

  /** A first code typed on the create screen signs in without resending. */
  lemma FirstCodeSignsIn(attempts: seq<Attempt>)
    requires |attempts| == 3
    requires attempts[0].fetched == Code("123456") && attempts[0].codeFieldFound && attempts[0].onCreateScreen
    ensures SignsInAt(attempts, 0) && Stops(attempts, 0)
  {
  }

  /** Typing a code that does not reach the create screen ends the ladder there, failed. */
  lemma TypedCodeEndsLadder(attempts: seq<Attempt>)
    requires |attempts| == 3
    requires attempts[0].fetched == Code("123456") && attempts[0].codeFieldFound && !attempts[0].onCreateScreen
    ensures Stops(attempts, 0) && LadderLength(attempts) == 1
    ensures forall i :: 0 <= i < 3 ==> !SignsInAt(attempts, i)
  {
    assert Stops(attempts, 0);
  }
}
