# Suno song scraper — a verified model of its core

The scraper signs into a Suno account in a browser, switches the create page
to the requested creation mode, requests a song, picks the longest finished
candidate, downloads its audio, reads the leftover credit balance and stores
the song and its metadata in a Supabase database and bucket. A queued
generation is validated before any of this, and every failure is recorded as
the first error of the run.

This project models the decision logic of that core as pure functions and
small methods over explicit inputs: what the page shows (element lookups,
texts, durations), what the SMS providers return, what the database rows
hold, the environment variables and the clock readings. Modules follow the
program's structure:

- `Constants` — the limits, URLs and markers the scraper uses.
- `Text`, `Wrappers`, `Lookups` — ASCII string helpers standing in for the
  Python string methods and regular-expression classes, `Option`/`Result`,
  and the "exactly one element" page lookup.
- `Duration`, `Selection`, `Reaper`, `Download`, `Credits`, `Budget`,
  `CreationMode`, `GenrePrompt` — the song scraper (`scrape_song.py`).
- `Stages`, `SignIn`, `Sms` — the sign-in flow and the two SMS providers.
- `Preflight` — the entry point's checks, navigation and routing
  (`create_song.py`).
- `Records`, `ErrorStore` — the database guards, the storage key of a saved
  song, and the first-write-wins error columns.

Where the repository's prose description and its code disagree, the model
follows the code:

- The pending-song reaper deletes up to four pending songs and only then
  fails on a fifth. It does not refuse before deleting (`Reaper.ReapSpec`,
  `Reaper.FivePendingFailAfterFour`).
- The country-code search clicks the first matching row even when several
  rows match (`SignIn.SearchCountryCode`, `SignIn.FirstOfTwoMatchesTaken`).
- A download that times out and one that finds an unusable directory both
  return `None`. The model keeps the two outcomes apart and proves which
  observations lead to `None` (`Download.DownloadFailuresCollapse`).
- The custom-lyrics checks sit behind the guard `x and x == False`, which no
  value passes. The lyrics are therefore never validated
  (`Records.LyricsNeverValidated`).
- With `MAX_RUNTIME` unset, `still_have_time` uses `RUNTIME_ERROR_MARGIN` as
  the runtime, which leaves no time at all. `check_os_params` reads an unset
  value as 0 and refuses it.
- `check_ip` reads the page body even when the IP page did not load.
- A phone provider other than Twilio or MessageBird leaves no SMS client.
  The first fetch then raises, and the model treats this as a sign-in failure.

Python truthiness is modelled explicitly. A duration of `0:00` parses to 0,
which counts as "not finished". A credit balance of 0 is a failure. An empty
string counts like a missing value wherever the source tests `not x`.

## Model

| member | source | states |
|---|---|---|
| Lookups.FindOne | scrape_song/scrape_song.py:779-787 | a single-element lookup yields an element exactly when one element matches, and then that element; several matches count as none |
| Lookups.OneAmongMany | scrape_song/scrape_song.py:779-792 | the single-element lookup finds an element exactly when the multi-element lookup yields exactly one, and then it is that element; several matches satisfy only the multi-element lookup |
| Duration.TimeToSeconds | scrape_song/scrape_song.py:774-777 | a well-formed "M:SS" text converts to a number of seconds between 0 and 23:59 |
| Duration.SongDuration | scrape_song/scrape_song.py:483-497 | a row's duration is read exactly when the span exists, is non-empty, at most five characters, not the `--:--` placeholder and matches the time pattern; the value is then within 0 to 23:59 |
| Duration.FormatImpliesGuards | scrape_song/scrape_song.py:490-493 | the pattern test alone implies the length, emptiness and placeholder tests that precede it |
| Duration.DurationRoundTrip | scrape_song/scrape_song.py:709-712 | every duration the site can print (minutes unpadded, seconds two digits) is read back as itself |
| Duration.DurationCanonical | scrape_song/scrape_song.py:709-712 | every text read as a duration is the printed form of its value, up to one leading zero on the minutes |
| Selection.Step | scrape_song/scrape_song.py:462-465 | one reading replaces the running best only when it is finished, at least MIN_SONG_LENGTH and strictly longer, and the maximum never decreases |
| Selection.TrackIsFirstMaximum | scrape_song/scrape_song.py:446-467 | the running maximum ends on the first reading of the longest qualifying duration, and on nothing when no reading qualifies |
| Selection.PollsTaken | scrape_song/scrape_song.py:454-472 | the poll loop stops after the first poll in which every tracked candidate is finished, or when the polls run out |
| Selection.ReadPoll | scrape_song/scrape_song.py:455-467 | one poll reads every tracked row in order and leaves the running maximum and target where the first-maximum selection over all readings so far puts them; the poll counts as done exactly when every reading is a finished duration |
| Selection.PollForTarget | scrape_song/scrape_song.py:446-481 | the loop's target and maximum are those of the first maximal qualifying reading among the polls it takes; with no qualifying reading there is no target and the maximum stays 0 |
| Selection.UnfinishedPositions | scrape_song/scrape_song.py:432 | the unfinished rows are exactly the rows without a finished duration, in list order |
| Selection.ChooseTracked | scrape_song/scrape_song.py:432-442 | the tracked set is the first sample's unfinished rows, or the second sample's when the first has none, and it is accepted only with 1 to SUNO_MAX_SONGS_PER_GENERATION members |
| Selection.PickFirstFinishedSong | scrape_song/scrape_song.py:420-481 | no target for an empty listing or a tracked set of the wrong size; otherwise the target is a listed row carrying the first maximal qualifying duration among the polls taken, and there is none exactly when nothing qualifies; it ends with a report exactly when there is no target: an empty listing to both error columns, a wrong-sized set (with its size) and no qualifying reading to the generation's error only |
| Selection.PollTracked | scrape_song/scrape_song.py:446-481 | the poll loop over the tracked rows ends on a listed row carrying the first maximal qualifying duration, and on none exactly when nothing qualifies |
| Selection.FlattenCandidates | scrape_song/scrape_song.py:456-465 | every reading of the poll loop is of a tracked candidate |
| Selection.SelectionExamples | scrape_song/scrape_song.py:454-472 | a later poll's longer song replaces an earlier pick; songs of 0:10 and 0:12 pick nothing; a tie keeps the earlier row |
| Reaper.ReapSpec | scrape_song/scrape_song.py:659-703 | the reaper succeeds exactly when every pending row has a menu toggle, there are at most MAX_SONGS_TO_DELETE of them and each can be deleted; a missing toggle deletes nothing; otherwise the leading deletable pending rows are deleted, never more than MAX_SONGS_TO_DELETE |
| Reaper.DeleteLoopSpec | scrape_song/scrape_song.py:678-703 | the deletion loop deletes the leading deletable rows up to the remaining limit and succeeds exactly when all rows fit within it and are deletable |
| Reaper.AllDeletablePending | scrape_song/scrape_song.py:659-703 | when every row is pending and deletable, the first MAX_SONGS_TO_DELETE rows are deleted in order and the call succeeds exactly when there were no more than that |
| Reaper.NothingPendingSucceeds | scrape_song/scrape_song.py:661-676 | a listing with no pending row (including an empty one) succeeds without deleting |
| Reaper.ThreePendingAreDeleted | scrape_song/scrape_song.py:678-703 | three deletable pending rows are all deleted, in order |
| Reaper.FivePendingFailAfterFour | scrape_song/scrape_song.py:679-682 | with five pending rows, four are deleted before the call fails |
| Download.Extension | scrape_song/scrape_song.py:759 | a file's extension is empty or a dot-led suffix of the name with no further dot |
| Download.ExtensionOfSuffix | scrape_song/scrape_song.py:759 | a name made of a stem with a non-dot character and a dot-led suffix has that suffix as its extension |
| Download.ClassifyDirectory | scrape_song/scrape_song.py:747-772 | a directory gives a song file exactly when it lists one file with an accepted extension (case-insensitive); it is still empty exactly when it lists nothing; it is unusable otherwise, and when it is missing |
| Download.Join | scrape_song/scrape_song.py:628 | joining keeps an absolute name as is and otherwise ends with the name |
| Download.BasenameShape | db/supabase.py:333 | a base name is a slash-free suffix of the path, preceded by a slash unless it is the whole path |
| Download.BasenameOfJoin | db/supabase.py:333 | the base name of a joined path is the slash-free file name that was joined |
| Download.WaitForDownload | scrape_song/scrape_song.py:619-630 | the wait returns the first observation's song file when every earlier observation was empty; it times out exactly when every observation is empty; it fails on the first unusable observation after empty ones |
| Download.DownloadFailuresCollapse | scrape_song/scrape_song.py:585-630 | the download gives no path exactly when a menu control is missing, every observation before the deadline is an empty directory, or the first non-empty observation is unusable; a path is the directory joined with the single accepted file of the first non-empty observation |
| Download.SingleSongIsDownloaded | scrape_song/scrape_song.py:755-763 | a directory holding only `song.mp3` yields that file's path |
| Download.TwoFilesAreAnIntegrityFailure | scrape_song/scrape_song.py:770-772 | two files end the wait at once as a failure, not a timeout |
| Credits.StripCommas | scrape_song/scrape_song.py:723 | removing commas leaves no comma and leaves a digit string unchanged |
| Credits.ExtractCreditNumber | scrape_song/scrape_song.py:728-745 | a missing or empty text is the null-text error; the text matches the credits pattern exactly when the result is a number or the out-of-range error, so every other text is the no-match error; an out-of-range numeral exceeds MAX_CREDITS_NUMBER and every extracted number is at most it |
| Credits.ExtractionOfShape | scrape_song/scrape_song.py:733-745 | a grouped or plain numeral, optional whitespace and the word "Credits" in any case is read as the numeral's value without commas, or refused as out of range |
| Credits.ValidTextIsExtracted | scrape_song/scrape_song.py:714-745 | every text the validation accepts is extracted as the validated number |
| Credits.CreditsRoundTrip | scrape_song/scrape_song.py:714-745 | every balance from 0 to MAX_CREDITS_NUMBER printed as "N Credits" is accepted and read back exactly |
| Credits.NumeralRoundTrip | scrape_song/scrape_song.py:714-745 | an accepted numeral within the limit, followed by " Credits", is valid text and is read back as the numeral's value |
| Credits.GroupedCreditsRoundTrip | scrape_song/scrape_song.py:714-745 | every balance from 1,000 to MAX_CREDITS_NUMBER printed with a thousands separator is accepted and read back exactly |
| Credits.FormattedValidity | scrape_song/scrape_song.py:719-724 | a numeral followed by " Credits" is valid exactly when the numeral is an accepted numeral within the limit |
| Credits.LeftoverCreditAmount | scrape_song/scrape_song.py:647-657 | a balance is read exactly when the credits text is valid; it is at most MAX_CREDITS_NUMBER and equals the numeral's value |
| Credits.GetAndSaveLeftoverCredits | scrape_song/scrape_song.py:632-645 | the call succeeds exactly when a non-zero balance is read; the balance is then saved for the phone, and an alert is raised exactly when it is at most MIN_SUNO_CREDIT_BALANCE; a failure saves nothing |
| Budget.StillHaveTime | scrape_song/scrape_song.py:705-707 | there is time left exactly when the elapsed seconds are below the allowance; with MAX_RUNTIME unset there never is |
| Budget.TimeRunsOut | scrape_song/scrape_song.py:705-707 | once time has run out, it stays out at every later reading |
| Budget.CanWaitForSongs | scrape_song/scrape_song.py:260 | the check before the song wait passes exactly when the elapsed time is MAX_SONG_CREATION_WAIT_TIME below the allowance |
| Budget.WaitFitsInBudget | scrape_song/scrape_song.py:260 | passing that check keeps every budget check within the following song wait passing |
| Budget.WaitWindow | scrape_song/scrape_song.py:260 | with MAX_RUNTIME in its accepted range, the wait can begin only within the first 470 seconds, and always within the first 50 |
| CreationMode.ReadSetting | scrape_song/scrape_song.py:130-156 | a toggle reads as on or off exactly when exactly one of its two renderings is found |
| CreationMode.DismissIntroFlow | scrape_song/scrape_song.py:332-368 | each first-use popup button is clicked exactly when it is present, and no mode toggle is clicked |
| CreationMode.SwitchToCorrectCreationMode | scrape_song/scrape_song.py:88-128 | the switch succeeds exactly when both toggles are readable and every toggle that differs from the request is found; on success the clicks leave the page in the requested mode; only differing toggles are clicked; the popups are dismissed only after custom mode is turned over |
| CreationMode.SwitchApplies | scrape_song/scrape_song.py:110-128 | toggling instrumental if needed, then custom mode, then dismissing the popups reaches the requested mode |
| CreationMode.DismissLeavesMode | scrape_song/scrape_song.py:332-344 | clicks that are not toggles leave the mode unchanged |
| CreationMode.AlreadyInMode | scrape_song/scrape_song.py:88-128 | a page already in the requested mode succeeds with no click |
| CreationMode.UnreadableToggleFails | scrape_song/scrape_song.py:144-156 | a custom toggle whose "on" rendering matches twice fails the switch before any click |
| GenrePrompt.CustomGenrePrompt | scrape_song/scrape_song.py:370-387 | there is no prompt exactly when all three values are empty; the call raises exactly when a usable second genre meets a missing first genre; a prompt ends with a space |
| GenrePrompt.PromptIsSpacedWords | scrape_song/scrape_song.py:370-387 | the prompt is the vibe, the first genre and a distinct second genre, skipping unusable ones, each followed by one space |
| GenrePrompt.SpacedSplit | scrape_song/scrape_song.py:374-385 | splitting a prompt of space-free words at spaces gives back the words and a final empty field |
| GenrePrompt.RepeatedGenreIgnored | scrape_song/scrape_song.py:379-381 | a second genre equal to the first up to letter case changes nothing |
| GenrePrompt.NoneWordYieldsEmptyPrompt | scrape_song/scrape_song.py:372-385 | "none" values pass the emptiness check but contribute no word |
| Stages.FirstFailure | create_song.py:171-175 | the first failing check is reported, and none exactly when every check passes |
| Stages.LaterChecksIrrelevant | sign_in/sign_in.py:17-40 | results of checks after the first failure do not change the outcome |
| SignIn.ValidDetailsAreFilled | sign_in/sign_in.py:89-96 | validation accepts exactly the details in which phone, country, provider and country code are present and non-empty, so valid details hold at least four keys |
| SignIn.FirstMatchingRow | sign_in/sign_in.py:190-197 | the row picked is the first row whose only paragraph equals the code up to case |
| SignIn.SearchCountryCode | sign_in/sign_in.py:179-205 | a row is clicked only when the search field is found; it is the first matching row; nothing is clicked exactly when the field is missing or no row matches |
| SignIn.FirstOfTwoMatchesTaken | sign_in/sign_in.py:190-197 | with two matching rows, the first one is clicked |
| SignIn.MessageBirdWithoutWorkspaceRaises | sign_in/sign_in.py:81-96 | validation does not ask for the MessageBird workspace, so valid MessageBird details without one give a client whose every fetch raises |
| SignIn.TwilioNumberOfValidDetails | sign_in/sign_in.py:81-87 | the Twilio client of valid details dials the country code followed by the phone |
| SignIn.CodeLadder | sign_in/sign_in.py:42-79 | the ladder signs in exactly when some attempt is the first to stop and then reaches the create screen; it always fetches once more than it resends; it resends once for each attempt it makes after the first whose Resend button was found; it reports every missing Resend button and every code left without a field to type it into; a first attempt that stops ends it with no resend and no report |
| SignIn.MissingResendReportedDespiteSignIn | sign_in/sign_in.py:52-72 | a Resend button missing on the first resend is reported even when the last attempt signs in |
| SignIn.ThirdCodeAfterTwoResends | sign_in/sign_in.py:50-65 | with no code on the first two attempts and a code typed on the third, the ladder resends twice, reports nothing, and signs in exactly when the create screen follows |
| SignIn.StageResults | sign_in/sign_in.py:17-40 | the stages are, in order, the details check, the sign-in page check, the country code, the phone number and its submission |
| SignIn.SignIn | sign_in/sign_in.py:15-79 | the stages run up to the first failure, which reports that stage's own error and fetches nothing; with every stage passed the details are filled; an unknown provider then fails without a report; a known one signs in exactly when the ladder signs in, with the ladder's fetches, resends and reports |
| SignIn.FirstCodeSignsIn | sign_in/sign_in.py:43-48 | a first code typed on the create screen signs in without a resend |
| SignIn.TypedCodeEndsLadder | sign_in/sign_in.py:47-48 | a typed first code that does not reach the create screen ends the ladder at the first attempt, which fails |
| Sms.MessageBirdQuery | phone/message_bird.py:22-29 | the request asks for MAX_SMS_TO_READ incoming messages from a start SMS_MAX_TIME_DELTA_MINUTES before the host's local clock, which misses the intended UTC start by the host's UTC offset |
| Sms.MessageBirdWindowShifted | phone/message_bird.py:22-29 | on a host one hour ahead of UTC the window starts in the future; on one five hours behind it reaches back more than five hours |
| Sms.MessageBirdQueryUtc | phone/message_bird.py:22-29 | the corrected request starts SMS_MAX_TIME_DELTA_MINUTES before the UTC time |
| Sms.UtcQueryMatchesTwilioWindow | phone/twilio.py:23-38 | the corrected start admits exactly the messages the Twilio filter finds recent enough |
| Sms.SearchCode | phone/message_bird.py:44 | the search finds the leftmost word-bounded six-digit token from the start position, and none when there is none |
| Sms.SearchFinds | phone/message_bird.py:44 | a token with no earlier one is the one found |
| Sms.ScanTexts | phone/message_bird.py:41-48 | the scan gives nothing exactly when no text both names Suno and holds a token; otherwise it gives the token of the first such text |
| Sms.ScannedCodeIsSixDigits | phone/message_bird.py:44-46 | every code found is six digits |
| Sms.FetchMessageBird | phone/message_bird.py:13-51 | a missing workspace key, or a missing channel key after a non-empty workspace, raises; an empty one gives nothing; a failed request gives nothing; with both keys filled and an answer, the result is the scan of the returned texts; a code is six digits |
| Sms.MessageWithoutTokenSkipped | phone/message_bird.py:41-46 | a Suno message whose digits are not a standalone six-digit token is passed over for a later one |
| Sms.FirstSixDigits | phone/twilio.py:42-45 | the first six-digit run is found, and one at the start position is found at once |
| Sms.FirstQualifying | phone/twilio.py:32-39 | the message used is the first one the filter keeps, and none exactly when the filter keeps none |
| Sms.FetchTwilio | phone/twilio.py:13-47 | an empty number gives nothing; a code is the first six characters of the first kept message among the latest MAX_SMS_TO_READ; nothing is found only when none of them is kept |
| Preflight.NavigateWithRefresh | create_song.py:21-35 | navigation succeeds exactly when one of the allowed attempts loads; it stops at the first attempt that loads and refreshes once between attempts |
| Preflight.CheckProfiles | create_song.py:46-66 | the profile check passes exactly when every profile holds every required key with a non-empty value |
| Preflight.CheckSunoCreds | create_song.py:37-68 | the credentials pass exactly when login and proxy profiles cover the same phone numbers and each is complete |
| Preflight.CheckGeneralVars | create_song.py:70-90 | the general variables pass exactly when all ten are set and non-empty |
| Preflight.ParseInt | create_song.py:97 | a text parses exactly when it is digits, or a sign followed by digits; the value is the digits' decimal value with the sign applied |
| Preflight.SignedParseRoundTrip | create_song.py:97 | a printed number behind a sign parses back to the signed value |
| Preflight.ParseIntRoundTrip | create_song.py:97 | every printed natural number parses back to itself |
| Preflight.CheckOsParams | create_song.py:92-114 | the OS parameters pass exactly when the generation id is set and at most MAX_GENERATION_ID_LENGTH long, the phone number has a login profile, and MAX_RUNTIME parses within MIN_RUNTIME and MAX_RUNTIME |
| Preflight.RuntimeParsing | create_song.py:97 | "600" parses to 600 and "6e2" does not parse |
| Preflight.CheckIpIgnoresNavigation | create_song.py:116-128 | the IP verdict does not depend on whether the IP page loaded; it passes exactly for the allowed IP and never for an empty body |
| Preflight.RouteByUrl | create_song.py:216-227 | a landing URL under the sign-in URL goes to sign-in, one under the create URL skips it, and any other URL stops the run |
| Preflight.SignInAndCreateDisjoint | create_song.py:216-222 | no URL is under both prefixes, so the order of the two tests does not matter |
| Preflight.Main | create_song.py:162-232 | the pre-flight checks stop the run at the first failure; the run finishes exactly when every check and step passes, sign-in included when the landing URL asks for it; every stop before the scrape reports an error |
| Preflight.CreatePageSkipsLogin | create_song.py:222-223 | landing on the create page never stops the run at sign-in |
| Records.IsValidSongGeneration | db/supabase.py:46-166 | a generation is accepted exactly when its row exists, has no prior error, has reply ids and no output, passes the custom-mode or prompt checks, its user has a platform id and the bucket holds no song for it; a missing row and a prior error are refused as such |
| Records.LyricsNeverValidated | db/supabase.py:125-143 | the lyrics column never affects the verdict |
| Records.SunoTitleRefused | db/supabase.py:107-110 | a custom title "Suno" is refused |
| Records.ScraperCanCreateSong | db/supabase.py:211-236 | the scraper may create a song exactly when its status row exists, has no latest error and holds more than MIN_SUNO_CREDIT_BALANCE credits |
| Records.ReportBlocksLaterRuns | db/supabase.py:211-275 | after a report to a status row that is clean or holds a non-empty error, the scraper may not create a song, whatever its credits |
| Records.EmptyStoredErrorSwallowsReports | db/supabase.py:211-275 | an empty stored error is kept by every report, yet it does not stop a run with enough credits |
| Records.UpdateCreditNumber | db/supabase.py:238-253 | an update is accepted exactly when the credits are present, non-zero and at most MAX_CREDITS_NUMBER; it then sets that phone's balance and leaves other rows alone; a refused update changes nothing |
| Records.StorageKeyRoundTrip | db/supabase.py:334 | a storage key reads back into its user, guild, reply and file parts when no part holds a slash |
| Records.SaveSongData | db/supabase.py:301-359 | saving succeeds exactly when the four inputs are non-empty, the file exists, the generation's reply ids and the platform user id are set and the upload succeeds; the saved key is built from those ids and the file's base name |
| Records.SavedKeyEndsWithDownloadedName | db/supabase.py:332-334 | a song downloaded into a directory is stored under its own file name |
| ErrorStore.WriteFirstError | db/supabase.py:255-299 | an error write succeeds exactly when the message is non-empty; it sets the row's error only while it is null and never touches other rows |
| ErrorStore.WriteFirstErrorIdempotent | db/supabase.py:255-299 | writing the same error twice is writing it once |
| ErrorStore.FirstErrorWins | db/supabase.py:255-299 | of two errors written in turn to a clean row, the first stays |
| ErrorStore.ReportError | error_logging/error_logging.py:13-16 | a report sets a clean scraper row's latest error and a clean generation's error to the message; rows already holding an error and all other rows are left as they are; an empty message changes nothing |
| ErrorStore.ReportGenerationError | error_logging/error_logging.py:18-20 | a generation report sets a clean generation's error, leaves other generations and set errors alone, and never touches the scraper's latest error |
| ErrorStore.ReportAll | error_logging/error_logging.py:13-20 | a run's reports never remove a row and never overwrite an error already set |
| ErrorStore.LaterReportsKeepFirst | error_logging/error_logging.py:13-16 | after the first report of a run lands on clean rows, every later report leaves that first message in place |
| Text.NatToStringRoundTrip | scrape_song/scrape_song.py:776 | a printed natural number is a non-empty digit string that reads back as itself |

## Left out

- Browser automation (Selenium), sleeps, clocks, the network and the file
  system are inputs: page lookups are sequences of matches, durations and
  texts are given readings, and the clock is passed as whole seconds.
- `scrape_song` and `fetch_song`, the orchestration that strings the song
  steps together, are not modelled as one function. Their steps are, and
  the budget check that guards the song wait is `Budget.CanWaitForSongs`.
- `get_main_ui_elements`, `dismiss_intro_tutorial`, `pick_suno_model`,
  `get_song_title_and_genre`, `get_lyrics` and `go_to_song_details_screen`
  only find and click page elements; their lookups are the `Lookups` model.
- `get_song_creation_data` and `get_creation_modes` only fetch columns; the
  fetched values are inputs to the modelled checks.
- The e-mail side of error reporting (SendGrid), the JWT signing of database
  requests, the AWS profile storage, the driver setup and the proxy
  configuration are outside the core.
- Exceptions caught by a broad `except` (database and request errors) are
  not modelled, except where a raise decides the outcome: a missing
  MessageBird key, an unknown SMS provider and the genre prompt's `None`
  comparison.
- Regular expressions are modelled over ASCII. Unicode digits, Unicode
  whitespace, Unicode case folding and the `$` match before a trailing
  newline are not.
- Preflight.ParseInt: accepts an optional sign and ASCII digits only, not the
  surrounding whitespace or digit-group underscores that Python's `int`
  also accepts.
- Records.SaveSongData: the title and file name are stored as given, without
  the transliteration to ASCII the source applies; the database update after
  the upload is assumed to succeed.
- Records.IsValidSongGeneration: the `None` result for an exception inside
  the validation is not modelled.
- Sms.FetchTwilio: assumes the provider lists the latest messages first; the
  listing order is an input.
- Preflight.CheckProfiles: profile values are strings; a non-string value
  that the source would read as truthy is not represented.
- Sms.FetchMessageBird: the provider's answer is an input, so neither the
  request as written nor the corrected one filters the texts it returns;
  the host's UTC offset is a single number, with no daylight-saving change
  inside the window.
- SignIn.SignIn: the two exceptions the country-code stage catches and
  reports (sign_in/sign_in.py:174-177, 202-205) are not modelled; the
  stage's three non-exceptional reports are.

## Findings

| source | as written | input that shows it | evidently intended | confidence | as-written member | corrected member |
|---|---|---|---|---|---|---|
| phone/message_bird.py:23-28 | the start of the message window is the host's local time (`datetime.now()`) minus three minutes, sent with a "Z" that labels it UTC | a host whose clock runs one hour ahead of UTC: the window starts 57 minutes in the future and no received message qualifies | a start three minutes before the current UTC time, as the Twilio filter uses (phone/twilio.py:23) | medium, not executed; hosts that run on UTC are unaffected | Sms.MessageBirdWindowShifted | Sms.UtcQueryMatchesTwilioWindow |
