/** Values of constants.py that the modelled logic depends on. */
module Constants {

  // URLs
  const BASE_URL: string := "https://suno.com/create"
  const SIGN_IN_URL: string := "https://accounts.suno.com/sign-in"
  const SONG_DETAILS_URL: string := "https://suno.com/song/"
  const SIGN_IN_CHECK_PHONE: string := "Check your phone"

  // Download directory
  const ACCEPTED_SONG_FILE_TYPES: seq<string> := [".mp3", ".wav", ".mpeg"]

  // Bot limitations
  const RUNTIME_ERROR_MARGIN: int := 100
  const MIN_SUNO_CREDIT_BALANCE: int := 50
  const MIN_RUNTIME: int := 420
  const MAX_RUNTIME: int := 840
  const MAX_SONGS_TO_DELETE: nat := 4
  const MAX_GENERATION_ID_LENGTH: nat := 50
  const MAX_PAGE_RELOAD_TRIES: nat := 3

  // SMS
  const SMS_MAX_TIME_DELTA_MINUTES: nat := 3
  const MAX_SMS_TO_READ: nat := 3

  // Song generation
  const MAX_CUSTOM_TITLE_LENGTH: nat := 60
  const MIN_CUSTOM_LYRICS_LENGTH: nat := 30
  const MAX_CUSTOM_LYRICS_LENGTH: nat := 1000
  const SUNO_MAX_SONGS_PER_GENERATION: nat := 2
  const MIN_GENRE_LENGTH: nat := 3
  const MAX_SONG_CREATION_WAIT_TIME: int := 270
  const MAX_CREDITS_NUMBER: int := 50000
  const MIN_SONG_LENGTH: int := 14
  const SUNO_VERIFICATION_MESSAGE_IDENTIFIER: string := "Suno"
  const UNFINISHED_SONG_LENGTH_PLACEHOLDER: string := "--:--"
  const SUNO_SONG_DURATION_STRING_LENGTH: nat := 5

  // Word filtering
  const FORBIDDEN_WORDS: seq<string> := ["suno"]

  // Proxy
  const VALID_IPS: seq<string> := ["proxyiphere"]
}
