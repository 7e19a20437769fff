/**
 * Validation and guards of the record store (db/supabase.py): whether a
 * queued generation may be scraped, whether the scraper may create a song,
 * the credit-update guard, and the storage key of a saved song.
 * Database and bucket queries are inputs: the fetched rows, the platform user
 * id of the generation's user, and whether the bucket already holds a song.
 */
module Records {
  import opened Wrappers
  import opened Text
  import opened Constants
  import opened Download
  import opened ErrorStore

  /** The columns of a `discord_song_generations` row read by the validation. */
  datatype GenerationRecord = GenerationRecord(
    errorMessage: Option<string>,
    outputReplyId: Option<string>,
    outputSong: Option<string>,
    songOutputGenre: Option<string>,
    songOutputTitle: Option<string>,
    songOutputLyrics: Option<string>,
    songOutputCover: Option<string>,
    userId: Option<string>,
    repliesGuild: Option<string>,
    initialReplyId: Option<string>,
    useCustomMode: bool,
    useInstrumentalOnly: bool,
    songInputGenre: Option<string>,
    songInputCustomTitle: Option<string>,
    songInputCustomLyrics: Option<string>,
    songPrompt: Option<string>)

  /** Why `is_valid_song_generation` refuses a generation, in the order it checks. */
  datatype Rejection =
    | NoSuchGeneration
    | PriorError
    | NoOutputReplyId
    | AlreadyHasOutput
    | MissingReplyIds
    | InvalidGenre
    | InvalidTitle
    | ForbiddenWordInTitle
    | TitleCharacters
    | InvalidLyrics
    | EmptyPrompt
    | NoPlatformUser
    | SongAlreadyStored

  datatype Verdict = Accept | Reject(reason: Rejection)

  predicate HasOutput(r: GenerationRecord) {
    || r.songOutputGenre.Some? || r.songOutputTitle.Some? || r.songOutputLyrics.Some?
    || r.songOutputCover.Some? || r.outputSong.Some?
  }

  predicate HasReplyIds(r: GenerationRecord) {
    r.userId.Some? && r.repliesGuild.Some? && r.initialReplyId.Some?
  }

  /** A character of `^[a-zA-Z0-9!?=.$;'"\-\t\s\[\]()]+$`. */
  predicate AllowedTitleChar(c: char) {
    IsAlnum(c) || IsSpace(c) || c in "!?=.$;'\"-[]()"
  }

  predicate MatchesCustomPattern(s: string) {
    |s| >= 1 && forall k :: 0 <= k < |s| ==> AllowedTitleChar(s[k])
  }

  predicate HasAlnum(s: string) {
    exists k :: 0 <= k < |s| && IsAlnum(s[k])
  }

  /** Some forbidden word occurs in the lower-cased text. */
  predicate HasForbiddenWord(s: string) {
    exists k :: 0 <= k < |FORBIDDEN_WORDS| && Contains(Lower(s), FORBIDDEN_WORDS[k])
  }

  predicate ValidCustomLyrics(lyrics: Option<string>) {
    && Truthy(lyrics)
    && MIN_CUSTOM_LYRICS_LENGTH <= |lyrics.value| <= MAX_CUSTOM_LYRICS_LENGTH
    && !HasForbiddenWord(lyrics.value)
    && MatchesCustomPattern(lyrics.value)
  }

  /**
   * The guard of the custom-lyrics checks, `x and x == False`
   * (db/supabase.py:125): true of no value, so lyrics are never checked.
   */
  predicate LyricsChecked(useInstrumentalOnly: bool) {
    useInstrumentalOnly && useInstrumentalOnly == false
  }

  function ValidateCustom(r: GenerationRecord): Option<Rejection> {
    if !Truthy(r.songInputGenre) || |r.songInputGenre.value| < MIN_GENRE_LENGTH then Some(InvalidGenre)
    else if !Truthy(r.songInputCustomTitle) || |r.songInputCustomTitle.value| > MAX_CUSTOM_TITLE_LENGTH then Some(InvalidTitle)
    else if HasForbiddenWord(r.songInputCustomTitle.value) then Some(ForbiddenWordInTitle)
    else if !(MatchesCustomPattern(r.songInputCustomTitle.value) && HasAlnum(r.songInputCustomTitle.value)) then Some(TitleCharacters)
    else if LyricsChecked(r.useInstrumentalOnly) && !ValidCustomLyrics(r.songInputCustomLyrics) then Some(InvalidLyrics)
    else None
  }

  function ValidateRecord(r: GenerationRecord): Option<Rejection> {
    if r.errorMessage.Some? then Some(PriorError)
    else if r.outputReplyId.None? then Some(NoOutputReplyId)
    else if HasOutput(r) then Some(AlreadyHasOutput)
    else if !HasReplyIds(r) then Some(MissingReplyIds)
    else if r.useCustomMode then ValidateCustom(r)
    else if !Truthy(r.songPrompt) then Some(EmptyPrompt)
    else None
  }

  /** The declarative reading of a generation the scraper may work on. */
  predicate AcceptableRecord(r: GenerationRecord) {
    && r.errorMessage.None?
    && r.outputReplyId.Some?
    && !HasOutput(r)
    && HasReplyIds(r)
    && (r.useCustomMode ==>
          && Truthy(r.songInputGenre) && |r.songInputGenre.value| >= MIN_GENRE_LENGTH
          && Truthy(r.songInputCustomTitle)
          && 1 <= |r.songInputCustomTitle.value| <= MAX_CUSTOM_TITLE_LENGTH
          && !HasForbiddenWord(r.songInputCustomTitle.value)
          && MatchesCustomPattern(r.songInputCustomTitle.value)
          && HasAlnum(r.songInputCustomTitle.value))
    && (!r.useCustomMode ==> Truthy(r.songPrompt))
  }

  /**
   * `is_valid_song_generation` (db/supabase.py:72-163): the fetched row (if
   * any), the platform id of its user and whether the output bucket already
   * holds a song for it.
   */
  function IsValidSongGeneration(row: Option<GenerationRecord>, platformUserId: Option<string>,
                                 bucketHasSong: bool): (v: Verdict)
    ensures v.Accept? <==> row.Some? && AcceptableRecord(row.value) && Truthy(platformUserId) && !bucketHasSong
    ensures v == Reject(NoSuchGeneration) <==> row.None?
    ensures row.Some? ==> (v == Reject(PriorError) <==> row.value.errorMessage.Some?)
    ensures v == Reject(AlreadyHasOutput) ==> row.Some? && HasOutput(row.value)
    ensures v == Reject(InvalidLyrics) ==> false
  {
    match row
    case None => Reject(NoSuchGeneration)
    case Some(r) =>
      match ValidateRecord(r)
      case Some(reason) => Reject(reason)
      case None =>
        if !Truthy(platformUserId) then Reject(NoPlatformUser)
        else if bucketHasSong then Reject(SongAlreadyStored)
        else Accept
  }

  /** The lyrics column has no influence on the verdict. */
  lemma LyricsNeverValidated(r: GenerationRecord, lyrics: Option<string>, platformUserId: Option<string>, bucketHasSong: bool)
    ensures IsValidSongGeneration(Some(r), platformUserId, bucketHasSong)
         == IsValidSongGeneration(Some(r.(songInputCustomLyrics := lyrics)), platformUserId, bucketHasSong)
  {
  }

  /** A custom-mode title containing "suno" in any case is refused. */
  lemma SunoTitleRefused(r: GenerationRecord, platformUserId: Option<string>, bucketHasSong: bool)
    requires r.useCustomMode && r.songInputCustomTitle == Some("Suno")
    ensures !IsValidSongGeneration(Some(r), platformUserId, bucketHasSong).Accept?
  {
    assert Lower("Suno") == "suno";
    assert OccursAt(Lower("Suno"), FORBIDDEN_WORDS[0], 0);
  }

  /** The columns of a `scraper_status` row. */
  datatype StatusRow = StatusRow(latestError: Option<string>, remainingCredits: Option<int>)

  /** `scraper_can_create_song` (db/supabase.py:220-233). */
  function ScraperCanCreateSong(status: Option<StatusRow>): (ok: bool)
    ensures ok <==> && status.Some?
                    && !Truthy(status.value.latestError)
                    && status.value.remainingCredits.Some?
                    && status.value.remainingCredits.value > MIN_SUNO_CREDIT_BALANCE
  {
    match status
    case None => false
    case Some(row) =>
      if Truthy(row.latestError) then false
      else if row.remainingCredits.None? || row.remainingCredits.value <= MIN_SUNO_CREDIT_BALANCE then false
      else true
  }

  /**
   * A report that lands on a clean status row stops every later run: the
   * scraper refuses to create a song whatever its credits. A row already
   * holding an error blocks too, unless that error is the empty string.
   */
  lemma ReportBlocksLaterRuns(store: Store, phone: string, generationId: string, message: string,
                              credits: Option<int>)
    requires phone in store.latestError && message != ""
    requires store.latestError[phone] != Some("")
    ensures !ScraperCanCreateSong(Some(StatusRow(ReportError(store, phone, generationId, message).latestError[phone], credits)))
  {
  }

  /**
   * An empty stored error counts as set for the first-write guard but as no
   * error for the run guard: reports never land and runs go on.
   */
  lemma EmptyStoredErrorSwallowsReports(store: Store, phone: string, generationId: string, message: string,
                                        credits: int)
    requires phone in store.latestError && store.latestError[phone] == Some("")
    requires credits > MIN_SUNO_CREDIT_BALANCE
    ensures ReportError(store, phone, generationId, message).latestError[phone] == Some("")
    ensures ScraperCanCreateSong(Some(StatusRow(ReportError(store, phone, generationId, message).latestError[phone], Some(credits))))
  {
  }

  /** The guard of `update_credit_number`: 0 and a missing value are refused like out-of-range ones. */
  predicate CreditUpdateAccepted(credits: Option<int>) {
    !(credits.None? || credits.value == 0 || credits.value > MAX_CREDITS_NUMBER || credits.value < 0)
  }

  /**
   * `update_credit_number` against the `remaining_credits` column, keyed by
   * phone number. An update that matches no row changes nothing.
   */
  function UpdateCreditNumber(column: map<string, Option<int>>, phone: string, credits: Option<int>)
    : (r: (bool, map<string, Option<int>>))
    ensures r.0 <==> credits.Some? && 0 < credits.value <= MAX_CREDITS_NUMBER
    ensures !r.0 ==> r.1 == column
    ensures r.0 && phone in column ==> r.1 == column[phone := credits]
    ensures phone !in column ==> r.1 == column
  {
    if !CreditUpdateAccepted(credits) then (false, column)
    else if phone in column then (true, column[phone := credits])
    else (true, column)
  }

  /** The bucket key of a saved song. */
  function StorageKey(platformUserId: string, guild: string, outputReplyId: string, fileName: string): string {
    "user-id:" + platformUserId + "/" + "guild-id:" + guild + "/" + "output-reply-id:" + outputReplyId + "/" + fileName
  }

  predicate NoSlash(s: string) { forall k :: 0 <= k < |s| ==> s[k] != '/' }

  /** Reads a storage key back into its four parts. */
  function ParseStorageKey(key: string): Option<(string, string, string, string)> {
    var parts := Split(key, '/');
    if |parts| == 4 && StartsWith(parts[0], "user-id:") && StartsWith(parts[1], "guild-id:")
       && StartsWith(parts[2], "output-reply-id:")
    then Some((parts[0][8..], parts[1][9..], parts[2][16..], parts[3]))
    else None
  }

  /** Storage keys are unambiguous when no part holds a slash. */
  lemma StorageKeyRoundTrip(p: string, g: string, o: string, f: string)
    requires NoSlash(p) && NoSlash(g) && NoSlash(o) && NoSlash(f)
    ensures ParseStorageKey(StorageKey(p, g, o, f)) == Some((p, g, o, f))
  {
    StorageKeyFields(p, g, o, f);
    Prefixed("user-id:", p);
    Prefixed("guild-id:", g);
    Prefixed("output-reply-id:", o);
  }

  /** Splitting a key at its slashes gives back the four labelled fields. */
  lemma StorageKeyFields(p: string, g: string, o: string, f: string)
    requires NoSlash(p) && NoSlash(g) && NoSlash(o) && NoSlash(f)
    ensures Split(StorageKey(p, g, o, f), '/') == ["user-id:" + p, "guild-id:" + g, "output-reply-id:" + o, f]
  {
    var a, b, c := "user-id:" + p, "guild-id:" + g, "output-reply-id:" + o;
    PrefixedNoSlash("user-id:", p);
    PrefixedNoSlash("guild-id:", g);
    PrefixedNoSlash("output-reply-id:", o);
    KeyShape(p, g, o, f);
    SplitField(a, '/', b + ['/'] + (c + ['/'] + f));
    SplitField(b, '/', c + ['/'] + f);
    SplitField(c, '/', f);
    SplitWhole(f, '/');
  }

  lemma KeyShape(p: string, g: string, o: string, f: string)
    ensures StorageKey(p, g, o, f)
         == ("user-id:" + p) + ['/'] + (("guild-id:" + g) + ['/'] + (("output-reply-id:" + o) + ['/'] + f))
  {
  }

  lemma PrefixedNoSlash(tag: string, x: string)
    requires NoSlash(tag) && NoSlash(x)
    ensures NoSlash(tag + x)
  {
    assert forall k :: 0 <= k < |tag + x| ==> (tag + x)[k] == if k < |tag| then tag[k] else x[k - |tag|];
  }

  lemma Prefixed(tag: string, x: string)
    ensures StartsWith(tag + x, tag) && (tag + x)[|tag|..] == x
  {
    assert (tag + x)[..|tag|] == tag;
  }

  /** What a successful save writes: the bucket key and the output columns. */
  datatype SavedSong = SavedSong(key: string, title: string, genre: string, lyrics: string)

  /** The generation columns `save_song_data` re-reads. */
  datatype ReplyTarget = ReplyTarget(userId: Option<string>, repliesGuild: Option<string>, outputReplyId: Option<string>)

  /**
   * `save_song_data` (db/supabase.py:301-356): all four inputs must be
   * non-empty, the file must exist, the reply columns and the platform user
   * id must be set, and the upload must succeed; the file is stored under
   * the key built from those ids and the file's base name.
   */
  function SaveSongData(title: string, genre: string, lyrics: string, path: string, fileExists: bool,
                        target: Option<ReplyTarget>, platformUserId: Option<string>, uploadOk: bool)
    : (r: Option<SavedSong>)
    ensures r.Some? <==>
              && title != "" && genre != "" && lyrics != "" && path != ""
              && fileExists && uploadOk && target.Some? && Truthy(platformUserId)
              && Truthy(target.value.userId) && Truthy(target.value.repliesGuild)
              && Truthy(target.value.outputReplyId)
    ensures r.Some? ==> r.value.title == title && r.value.genre == genre && r.value.lyrics == lyrics
    ensures r.Some? ==> r.value.key == StorageKey(platformUserId.value, target.value.repliesGuild.value,
                                                  target.value.outputReplyId.value, Basename(path))
  {
    if title == "" || genre == "" || lyrics == "" || path == "" then None
    else if !fileExists then None
    else match target
      case None => None
      case Some(t) =>
        if !(Truthy(t.userId) && Truthy(t.repliesGuild) && Truthy(t.outputReplyId)) then None
        else if !Truthy(platformUserId) then None
        else if !uploadOk then None
        else Some(SavedSong(StorageKey(platformUserId.value, t.repliesGuild.value, t.outputReplyId.value, Basename(path)),
                            title, genre, lyrics))
  }

  /** A song downloaded into a directory is stored under its own file name. */
  lemma SavedKeyEndsWithDownloadedName(title: string, genre: string, lyrics: string, directory: string,
                                       name: string, target: ReplyTarget, platformUserId: string)
    requires title != "" && genre != "" && lyrics != "" && name != "" && NoSlash(name)
    requires Truthy(target.userId) && Truthy(target.repliesGuild) && Truthy(target.outputReplyId)
    requires platformUserId != ""
    ensures var saved := SaveSongData(title, genre, lyrics, Join(directory, name), true, Some(target), Some(platformUserId), true);
      saved.Some? && saved.value.key == StorageKey(platformUserId, target.repliesGuild.value, target.outputReplyId.value, name)
  {
    BasenameOfJoin(directory, name);
  }
}
