/**
 * The entry point's checks (create_song.py): page navigation with bounded
 * refreshes, the consistency of the login and proxy profile maps, the
 * environment variables, the IP check, the order of the pre-flight checks
 * and the routing on the landing URL. Environment variables are a map
 * from name to value; an unset variable is a missing key.
 */
module Preflight {
  import opened Wrappers
  import opened Text
  import opened Constants
  import opened Stages

  datatype Navigation = Navigation(ok: bool, loads: nat, refreshes: nat)

  /**
   * `navigate_with_refresh` (create_song.py:21-35): `loaded[k]` says whether
   * attempt k loaded before its timeout.
   */
  method NavigateWithRefresh(loaded: seq<bool>, maxAttempts: nat) returns (r: Navigation)
    requires |loaded| >= maxAttempts
    ensures r.ok <==> exists k :: 0 <= k < maxAttempts && loaded[k]
    ensures r.loads <= maxAttempts
    ensures r.ok ==> r.loads >= 1 && loaded[r.loads - 1] && forall k :: 0 <= k < r.loads - 1 ==> !loaded[k]
    ensures r.ok ==> r.refreshes == r.loads - 1
    ensures !r.ok ==> r.loads == maxAttempts && r.refreshes == if maxAttempts == 0 then 0 else maxAttempts - 1
  {
    var attempt := 0;
    var refreshes := 0;
    while attempt < maxAttempts
      invariant attempt <= maxAttempts
      invariant forall k :: 0 <= k < attempt ==> !loaded[k]
      invariant refreshes == attempt
      invariant maxAttempts > 0 ==> attempt < maxAttempts
    {
      if loaded[attempt] {
        return Navigation(true, attempt + 1, refreshes);
      }
      if attempt < maxAttempts - 1 {
        refreshes := refreshes + 1;
      } else {
        return Navigation(false, attempt + 1, refreshes);
      }
      attempt := attempt + 1;
    }
    r := Navigation(false, attempt, refreshes);
  }

  const LOGIN_REQUIRED_KEYS: set<string> := {"phone_provider", "phone", "country", "country_code"}
  const PROXY_REQUIRED_KEYS: set<string> := {"proxy_address", "port", "username", "password"}

  /** A profile holds every required key with a non-empty value. */
  predicate Complete(profile: map<string, string>, required: set<string>) {
    forall key :: key in required ==> key in profile && profile[key] != ""
  }

  predicate AllComplete(profiles: map<string, map<string, string>>, required: set<string>) {
    forall id :: id in profiles ==> Complete(profiles[id], required)
  }

  /** Every profile in `ids` is complete, checked one profile at a time. */
  method CheckProfiles(profiles: map<string, map<string, string>>, required: set<string>) returns (ok: bool)
    ensures ok <==> AllComplete(profiles, required)
  {
    var remaining := profiles.Keys;
    while remaining != {}
      invariant remaining <= profiles.Keys
      invariant forall id :: id in profiles && id !in remaining ==> Complete(profiles[id], required)
      decreases |remaining|
    {
      var id :| id in remaining;
      if !Complete(profiles[id], required) {
        return false;
      }
      remaining := remaining - {id};
    }
    return true;
  }

  /** `check_suno_creds` (create_song.py:37-68). */
  method CheckSunoCreds(login: map<string, map<string, string>>, proxies: map<string, map<string, string>>)
    returns (ok: bool)
    ensures ok <==> login.Keys == proxies.Keys && AllComplete(login, LOGIN_REQUIRED_KEYS)
                    && AllComplete(proxies, PROXY_REQUIRED_KEYS)
  {
    if |login| != |proxies| {
      assert |login.Keys| == |login| && |proxies.Keys| == |proxies|;
      return false;
    }
    if login.Keys != proxies.Keys {
      return false;
    }
    ok := CheckProfiles(login, LOGIN_REQUIRED_KEYS);
    if !ok {
      return;
    }
    ok := CheckProfiles(proxies, PROXY_REQUIRED_KEYS);
  }

  const GENERAL_VARS: seq<string> := [
    "TWILIO_ACCOUNT_SID", "TWILIO_AUTH_TOKEN", "MESSAGE_BIRD_API_KEY",
    "AWS_REGION", "AWS_ACCESS_KEY", "AWS_SECRET_ACCESS_KEY", "AWS_BUCKET_NAME",
    "SUPABASE_JWT_SECRET", "SUPABASE_URL", "SUPABASE_ANON_KEY"]

  predicate IsSet(env: map<string, string>, name: string) { name in env && env[name] != "" }

  /** `check_general_vars` (create_song.py:70-90). */
  method CheckGeneralVars(env: map<string, string>) returns (ok: bool)
    ensures ok <==> forall k :: 0 <= k < |GENERAL_VARS| ==> IsSet(env, GENERAL_VARS[k])
  {
    var k := 0;
    while k < |GENERAL_VARS|
      invariant k <= |GENERAL_VARS|
      invariant forall j :: 0 <= j < k ==> IsSet(env, GENERAL_VARS[j])
    {
      if !IsSet(env, GENERAL_VARS[k]) {
        return false;
      }
      k := k + 1;
    }
    return true;
  }

  /** Python's `int` on an optional sign followed by decimal digits. */
  function ParseInt(s: string): (r: Option<int>)
    ensures r.Some? <==> (|s| >= 1 && AllDigits(s)) || (|s| >= 2 && (s[0] == '-' || s[0] == '+') && AllDigits(s[1..]))
    ensures AllDigits(s) && |s| >= 1 ==> r == Some(DigitsValue(s))
    ensures r.Some? && (s[0] == '-' || s[0] == '+') ==> r.value == (if s[0] == '-' then -1 else 1) * DigitsValue(s[1..])
  {
    if |s| >= 2 && s[0] == '-' && AllDigits(s[1..]) then Some(0 - DigitsValue(s[1..]) as int)
    else if |s| >= 2 && s[0] == '+' && AllDigits(s[1..]) then Some(DigitsValue(s[1..]))
    else if |s| >= 1 && AllDigits(s) then Some(DigitsValue(s))
    else None
  }

  /** Printed numbers parse back. */
  lemma ParseIntRoundTrip(n: nat)
    ensures ParseInt(NatToString(n)) == Some(n)
  {
    NatToStringRoundTrip(n);
  }

  /** A printed number with a sign parses back to the signed value. */
  lemma SignedParseRoundTrip(n: nat)
    ensures ParseInt("-" + NatToString(n)) == Some(-(n as int))
    ensures ParseInt("+" + NatToString(n)) == Some(n)
  {
    NatToStringRoundTrip(n);
    assert ("-" + NatToString(n))[1..] == NatToString(n);
    assert ("+" + NatToString(n))[1..] == NatToString(n);
  }

  /** `check_os_params` (create_song.py:92-114). An unset MAX_RUNTIME reads as 0. */
  function CheckOsParams(env: map<string, string>, loginProfileIds: set<string>): (ok: bool)
    ensures ok <==> && IsSet(env, "GENERATION_ID") && |env["GENERATION_ID"]| <= MAX_GENERATION_ID_LENGTH
                    && IsSet(env, "PHONE_NUMBER") && env["PHONE_NUMBER"] in loginProfileIds
                    && "MAX_RUNTIME" in env && ParseInt(env["MAX_RUNTIME"]).Some?
                    && MIN_RUNTIME <= ParseInt(env["MAX_RUNTIME"]).value <= MAX_RUNTIME
  {
    var maxRuntime := if "MAX_RUNTIME" in env then ParseInt(env["MAX_RUNTIME"]) else Some(0);
    if maxRuntime.None? then false
    else if !IsSet(env, "GENERATION_ID") || |env["GENERATION_ID"]| > MAX_GENERATION_ID_LENGTH then false
    else if !IsSet(env, "PHONE_NUMBER") || env["PHONE_NUMBER"] !in loginProfileIds then false
    else MIN_RUNTIME <= maxRuntime.value <= MAX_RUNTIME
  }

  /** A runtime of "600" passes; " 600" and "6e2" do not parse. */
  lemma RuntimeParsing()
    ensures ParseInt("600") == Some(600)
    ensures ParseInt("6e2").None?
  {
    assert DigitsValue("600") == 600 by {
      assert "600"[..2] == "60";
      DigitsValueTwo("60");
    }
    assert !AllDigits("6e2") by { assert !IsDigit("6e2"[1]); }
    assert !AllDigits("e2") by { assert !IsDigit("e2"[0]); }
  }

  /**
   * `check_ip` (create_song.py:116-128): the page body must be an allowed
   * IP; whether the IP page loaded is not consulted.
   */
  function CheckIp(navigation: Navigation, body: string): (ok: bool)
    ensures ok <==> exists k :: 0 <= k < |VALID_IPS| && VALID_IPS[k] == body
  {
    body in VALID_IPS
  }

  /**
   * The verdict depends on the body alone: a failed navigation to the IP
   * page, which leaves the previous page's body in place, is judged the same
   * as a loaded one.
   */
  lemma CheckIpIgnoresNavigation(loaded: Navigation, failed: Navigation, body: string)
    ensures CheckIp(loaded, body) == CheckIp(failed, body)
    ensures CheckIp(failed, body) <==> body == "proxyiphere"
    ensures !CheckIp(failed, "")
  {
  }

  datatype Route = SignInFirst | AlreadySignedIn | Unreachable

  /** The routing on the landing page's URL (create_song.py:216-227). */
  function RouteByUrl(url: string): (r: Route)
    ensures r == SignInFirst <==> StartsWith(url, SIGN_IN_URL)
    ensures r == AlreadySignedIn <==> StartsWith(url, BASE_URL)
    ensures r == Unreachable <==> !StartsWith(url, SIGN_IN_URL) && !StartsWith(url, BASE_URL)
  {
    SignInAndCreateDisjoint(url);
    if StartsWith(url, SIGN_IN_URL) then SignInFirst
    else if StartsWith(url, BASE_URL) then AlreadySignedIn
    else Unreachable
  }

  /** No URL is under both the sign-in and the create prefix, so the order of the tests does not matter. */
  lemma SignInAndCreateDisjoint(url: string)
    ensures !(StartsWith(url, SIGN_IN_URL) && StartsWith(url, BASE_URL))
  {
    if StartsWith(url, SIGN_IN_URL) {
      assert url[8] == SIGN_IN_URL[8] == 'a';
      assert BASE_URL[8] == 's';
    }
  }

  datatype Step = PreflightChecks | CreationData | Driver | Ip | Navigate | Login | Dashboard | Scrape

  /** What a run of `main` did: where it stopped and whether it reported an error. */
  datatype MainOutcome = MainOutcome(stoppedAt: Option<Step>, checksRun: nat, reported: bool)

  /**
   * `main` (create_song.py:162-227): the four pre-flight checks in order (OS
   * parameters, credentials, general variables, the record store), then the
   * creation data, the driver, the IP, the navigation to the create page,
   * the routing on the landing URL, the sign-in when needed, and the scrape.
   * Every stop before the scrape reports an error; the scrape reports its own.
   */
  function Main(checks: seq<bool>, creationData: bool, driver: bool, ipOk: bool, navigated: bool,
                landingUrl: string, signedIn: bool, scraped: bool): (r: MainOutcome)
    requires |checks| == 4
    ensures r.checksRun == ChecksRun(checks)
    ensures r.stoppedAt == Some(PreflightChecks) <==> FirstFailure(checks).Some?
    ensures r.stoppedAt.None? <==> && FirstFailure(checks).None? && creationData && driver && ipOk && navigated
                                   && RouteByUrl(landingUrl) != Unreachable
                                   && (RouteByUrl(landingUrl) == SignInFirst ==> signedIn)
                                   && scraped
    ensures r.stoppedAt == Some(Login) <==> (&& FirstFailure(checks).None? && creationData && driver && ipOk && navigated
                                            && StartsWith(landingUrl, SIGN_IN_URL) && !signedIn)
    ensures r.reported <==> r.stoppedAt.Some? && r.stoppedAt != Some(Scrape)
  {
    if FirstFailure(checks).Some? then MainOutcome(Some(PreflightChecks), ChecksRun(checks), true)
    else if !creationData then MainOutcome(Some(CreationData), 4, true)
    else if !driver then MainOutcome(Some(Driver), 4, true)
    else if !ipOk then MainOutcome(Some(Ip), 4, true)
    else if !navigated then MainOutcome(Some(Navigate), 4, true)
    else match RouteByUrl(landingUrl)
      case Unreachable => MainOutcome(Some(Dashboard), 4, true)
      case SignInFirst =>
        if !signedIn then MainOutcome(Some(Login), 4, true)
        else if !scraped then MainOutcome(Some(Scrape), 4, false)
        else MainOutcome(None, 4, false)
      case AlreadySignedIn =>
        if !scraped then MainOutcome(Some(Scrape), 4, false)
        else MainOutcome(None, 4, false)
  }

  /** Already on the create page, a run never signs in. */
  lemma CreatePageSkipsLogin(checks: seq<bool>, creationData: bool, driver: bool, ipOk: bool, navigated: bool,
                             landingUrl: string, scraped: bool)
    requires |checks| == 4 && StartsWith(landingUrl, BASE_URL)
    ensures Main(checks, creationData, driver, ipOk, navigated, landingUrl, false, scraped)
         == Main(checks, creationData, driver, ipOk, navigated, landingUrl, true, scraped)
  {
    SignInAndCreateDisjoint(landingUrl);
  }
}
