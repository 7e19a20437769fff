/**
 * Fetching the sign-in verification code from the phone provider's inbox:
 * MessageBird (phone/message_bird.py) and Twilio (phone/twilio.py). The
 * provider's answer is an input; times are whole seconds.
 */
module Sms {
  import opened Wrappers
  import opened Text
  import opened Constants

  const CODE_LENGTH := 6

  /** What one fetch produced: a code, nothing, or an exception that escapes the fetch. */
  datatype Fetch = Code(code: string) | NoCode | Raised

  predicate HasCode(f: Fetch) { f.Code? && f.code != "" }

  // ---- MessageBird

  /** The parameters of the messages request; `startAt` is the instant the provider reads, in UTC seconds. */
  datatype Query = Query(limit: nat, direction: string, startAt: int)

  /**
   * The request as written (phone/message_bird.py:22-29): the start is the
   * host's local wall-clock time minus the window, labelled as UTC. A host
   * whose local time is `utcOffset` seconds ahead of UTC sends a start
   * shifted by that offset.
   */
  function MessageBirdQuery(utcNow: int, utcOffset: int): (q: Query)
    ensures q.limit == MAX_SMS_TO_READ && q.direction == "incoming"
    ensures utcNow - q.startAt == SMS_MAX_TIME_DELTA_MINUTES * 60 - utcOffset
  {
    var localNow := utcNow + utcOffset;
    Query(MAX_SMS_TO_READ, "incoming", localNow - SMS_MAX_TIME_DELTA_MINUTES * 60)
  }

  /**
   * On a host one hour ahead of UTC the window starts in the future, so no
   * message already received qualifies; on a host five hours behind it
   * reaches back more than five hours.
   */
  lemma MessageBirdWindowShifted(utcNow: int)
    ensures MessageBirdQuery(utcNow, 3600).startAt > utcNow
    ensures utcNow - MessageBirdQuery(utcNow, -5 * 3600).startAt > 5 * 3600
  {
  }

  /** The request with the start taken from a UTC reading, as the "Z" label promises. */
  function MessageBirdQueryUtc(utcNow: int): (q: Query)
    ensures q.limit == MAX_SMS_TO_READ && q.direction == "incoming"
    ensures q == MessageBirdQuery(utcNow, 0)
  {
    Query(MAX_SMS_TO_READ, "incoming", utcNow - SMS_MAX_TIME_DELTA_MINUTES * 60)
  }

  /** The corrected request selects the same messages by age as the Twilio filter. */
  lemma UtcQueryMatchesTwilioWindow(utcNow: int, sentAt: int)
    ensures sentAt >= MessageBirdQueryUtc(utcNow).startAt <==> utcNow - sentAt <= SMS_MAX_TIME_DELTA_MINUTES * 60
  {
  }

  datatype Response = RequestFailed | Results(texts: seq<string>)

  /** `\b(\d{6})\b` matches at position i. */
  predicate CodeAt(text: string, i: int) {
    && 0 <= i && i + CODE_LENGTH <= |text|
    && AllDigits(text[i..i + CODE_LENGTH])
    && (i == 0 || !IsWordChar(text[i - 1]))
    && (i + CODE_LENGTH == |text| || !IsWordChar(text[i + CODE_LENGTH]))
  }

  /** `re.search` for a word-bounded six-digit token from position `from`: the leftmost match. */
  function SearchCode(text: string, from: nat): (r: Option<nat>)
    ensures r.Some? ==> from <= r.value && CodeAt(text, r.value)
    ensures r.Some? ==> forall j :: from <= j < r.value ==> !CodeAt(text, j)
    ensures r.None? ==> forall j :: from <= j ==> !CodeAt(text, j)
    decreases |text| - from
  {
    if from + CODE_LENGTH > |text| then None
    else if CodeAt(text, from) then Some(from)
    else SearchCode(text, from + 1)
  }

  /** A message the scan takes its code from. */
  predicate Carries(text: string) {
    Contains(text, SUNO_VERIFICATION_MESSAGE_IDENTIFIER) && SearchCode(text, 0).Some?
  }

  function TokenOf(text: string): string
    requires Carries(text)
  {
    var i := SearchCode(text, 0).value;
    text[i..i + CODE_LENGTH]
  }

  /** The scan over the returned messages (phone/message_bird.py:41-48). */
  function ScanTexts(texts: seq<string>): (r: Fetch)
    ensures r.Raised? == false
    ensures r.NoCode? <==> forall k :: 0 <= k < |texts| ==> !Carries(texts[k])
    ensures r.Code? ==> exists k :: 0 <= k < |texts| && Carries(texts[k]) && r.code == TokenOf(texts[k])
                                     && forall j :: 0 <= j < k ==> !Carries(texts[j])
    decreases |texts|
  {
    if texts == [] then NoCode
    else if Carries(texts[0]) then Code(TokenOf(texts[0]))
    else
      var rest := ScanTexts(texts[1..]);
      assert forall k :: 1 <= k < |texts| ==> texts[k] == texts[1..][k - 1];
      rest
  }

  /** Every code a scan returns is six digits. */
  lemma ScannedCodeIsSixDigits(texts: seq<string>)
    ensures ScanTexts(texts).Code? ==> |ScanTexts(texts).code| == 6 && AllDigits(ScanTexts(texts).code)
  {
  }

  /**
   * `MessageBird.fetch_suno_verification_code` (phone/message_bird.py:13-51):
   * a missing workspace or channel key raises, an empty one gives nothing
   * before any request, and a failed request gives nothing.
   */
  function FetchMessageBird(clientData: map<string, string>, response: Response): (r: Fetch)
    ensures r.Raised? <==> "workspace_id" !in clientData || ("workspace_id" in clientData && clientData["workspace_id"] != "" && "channel_id" !in clientData)
    ensures !r.Raised? && (clientData["workspace_id"] == "" || clientData["channel_id"] == "") ==> r == NoCode
    ensures response.RequestFailed? ==> !r.Code?
    ensures r.Code? ==> |r.code| == 6 && AllDigits(r.code)
    ensures "workspace_id" in clientData && "channel_id" in clientData
            && clientData["workspace_id"] != "" && clientData["channel_id"] != "" && response.Results?
            ==> r == ScanTexts(response.texts)
  {
    if "workspace_id" !in clientData then Raised
    else if clientData["workspace_id"] == "" then NoCode
    else if "channel_id" !in clientData then Raised
    else if clientData["channel_id"] == "" then NoCode
    else match response
      case RequestFailed => NoCode
      case Results(texts) =>
        ScannedCodeIsSixDigits(texts);
        ScanTexts(texts)
  }

  /** A "Suno" message without a standalone code is passed over for a later one. */
  lemma MessageWithoutTokenSkipped()
    ensures ScanTexts(["Suno 1234567", "Suno 123456"]) == Code("123456")
  {
    var a := "Suno 1234567";
    var b := "Suno 123456";
    forall j | 0 <= j
      ensures !CodeAt(a, j)
    {
      if j < 5 {
        assert a[j..j + CODE_LENGTH][0] == a[j];
      } else if j == 5 {
        assert IsWordChar(a[11]);
      } else if j == 6 {
        assert IsWordChar(a[5]);
      }
    }
    assert !Carries(a);
    assert OccursAt(b, "Suno", 0);
    assert b[5..11] == "123456";
    assert CodeAt(b, 5);
    forall j | 0 <= j < 5
      ensures !CodeAt(b, j)
    {
      assert b[j..j + CODE_LENGTH][0] == b[j];
    }
    SearchFinds(b, 0, 5);
    assert ["Suno 1234567", "Suno 123456"][1..] == [b];
  }

  /** The search returns the leftmost match. */
  lemma {:induction false} SearchFinds(text: string, from: nat, i: nat)
    requires from <= i && CodeAt(text, i)
    requires forall j :: from <= j < i ==> !CodeAt(text, j)
    ensures SearchCode(text, from) == Some(i)
    decreases i - from
  {
    if from < i {
      SearchFinds(text, from + 1, i);
    }
  }

  // ---- Twilio

  datatype Message = Message(body: string, to: string, sentAt: int)

  /** A message the Twilio filter keeps (phone/twilio.py:32-39). */
  predicate Kept(m: Message, number: string, now: int) {
    && Contains(m.body, SUNO_VERIFICATION_MESSAGE_IDENTIFIER)
    && |m.body| >= CODE_LENGTH && AllDigits(m.body[..CODE_LENGTH])
    && m.to == number
    && now - m.sentAt <= SMS_MAX_TIME_DELTA_MINUTES * 60
  }

  /** `\d{6}` matches at position j. */
  predicate SixDigitsAt(body: string, j: int) {
    0 <= j && j + CODE_LENGTH <= |body| && AllDigits(body[j..j + CODE_LENGTH])
  }

  /** The first six-digit run of a body, `re.search(r'\d{6}')`. */
  function FirstSixDigits(body: string, from: nat): (r: Option<nat>)
    ensures r.Some? ==> from <= r.value && SixDigitsAt(body, r.value)
    ensures r.Some? ==> forall j :: from <= j < r.value ==> !SixDigitsAt(body, j)
    ensures SixDigitsAt(body, from) ==> r == Some(from)
    decreases |body| - from
  {
    if from + CODE_LENGTH > |body| then None
    else if SixDigitsAt(body, from) then Some(from)
    else FirstSixDigits(body, from + 1)
  }

  function FirstQualifying(messages: seq<Message>, number: string, now: int): (r: Option<nat>)
    ensures r.Some? ==> r.value < |messages| && Kept(messages[r.value], number, now)
    ensures r.Some? ==> forall j :: 0 <= j < r.value ==> !Kept(messages[j], number, now)
    ensures r.None? <==> forall j :: 0 <= j < |messages| ==> !Kept(messages[j], number, now)
    decreases |messages|
  {
    if messages == [] then None
    else if Kept(messages[0], number, now) then Some(0)
    else
      match FirstQualifying(messages[1..], number, now)
      case None =>
        assert forall j :: 1 <= j < |messages| ==> messages[j] == messages[1..][j - 1];
        None
      case Some(i) => Some(i + 1)
  }

  /**
   * `Twilio.fetch_suno_verification_code` (phone/twilio.py:13-47): the latest
   * MAX_SMS_TO_READ messages are listed; the code is the first six-digit run
   * of the first one that qualifies.
   */
  function FetchTwilio(number: string, inbox: seq<Message>, now: int): (r: Fetch)
    ensures number == "" ==> r == NoCode
    ensures r != Raised
    ensures r.Code? ==> exists k :: 0 <= k < |inbox| && k < MAX_SMS_TO_READ && Kept(inbox[k], number, now)
                                     && r.code == inbox[k].body[..CODE_LENGTH]
                                     && forall j :: 0 <= j < k ==> !Kept(inbox[j], number, now)
    ensures r == NoCode && number != "" ==> forall k :: 0 <= k < |inbox| && k < MAX_SMS_TO_READ ==> !Kept(inbox[k], number, now)
  {
    if number == "" then NoCode
    else
      var listed := Latest(inbox);
      match FirstQualifying(listed, number, now)
      case None => NoCode
      case Some(k) =>
        var body := listed[k].body;
        KeptCodeLeads(listed[k], number, now);
        var i := FirstSixDigits(body, 0).value;
        Code(body[i..i + CODE_LENGTH])
  }

  /** The messages the provider lists: the latest MAX_SMS_TO_READ of the inbox. */
  function Latest(inbox: seq<Message>): (r: seq<Message>)
    ensures |r| <= MAX_SMS_TO_READ && |r| <= |inbox|
    ensures |r| == MAX_SMS_TO_READ || |r| == |inbox|
    ensures forall j :: 0 <= j < |r| ==> r[j] == inbox[j]
  {
    if |inbox| <= MAX_SMS_TO_READ then inbox else inbox[..MAX_SMS_TO_READ]
  }

  /** A kept message starts with its six-digit code, so the search stops at 0. */
  lemma KeptCodeLeads(m: Message, number: string, now: int)
    requires Kept(m, number, now)
    ensures FirstSixDigits(m.body, 0) == Some(0)
  {
    assert m.body[0..CODE_LENGTH] == m.body[..CODE_LENGTH];
  }
}
