/**
 * The error columns of the record store and the reporting entry points of
 * error_logging.py. Both `latest_error` (scraper_status, keyed by phone
 * number) and `error_message` (discord_song_generations, keyed by generation
 * id) are written only while they are still null: the first error recorded
 * is the one that stays. The e-mail side of a report is left out.
 */
module ErrorStore {
  import opened Wrappers

  /** An error column: row key to the column's value; a missing key is a missing row. */
  type Column = map<string, Option<string>>

  /**
   * `update_scraper_latest_error` / `update_generation_error_message`
   * (db/supabase.py:255-299): an empty message is refused; a row whose
   * column is already set is left alone and the call still succeeds; an
   * update naming no row changes nothing.
   */
  function WriteFirstError(column: Column, key: string, message: string): (r: (bool, Column))
    ensures r.0 <==> message != ""
    ensures r.1.Keys == column.Keys
    ensures forall k :: k in column && k != key ==> r.1[k] == column[k]
    ensures key in column && column[key].Some? ==> r.1 == column
    ensures key in column && column[key].None? && message != "" ==> r.1[key] == Some(message)
    ensures message == "" ==> r.1 == column
  {
    if message == "" then (false, column)
    else if key in column && column[key].Some? then (true, column)
    else if key in column then (true, column[key := Some(message)])
    else (true, column)
  }

  /** Writing the same error twice is writing it once. */
  lemma WriteFirstErrorIdempotent(column: Column, key: string, message: string)
    ensures WriteFirstError(WriteFirstError(column, key, message).1, key, message) == WriteFirstError(column, key, message)
  {
  }

  /** Of two errors written in turn, the first one stays. */
  lemma FirstErrorWins(column: Column, key: string, first: string, second: string)
    requires key in column && column[key].None?
    requires first != ""
    ensures WriteFirstError(WriteFirstError(column, key, first).1, key, second).1[key] == Some(first)
  {
  }

  /** Both error columns. */
  datatype Store = Store(latestError: Column, generationError: Column)

  /**
   * `save_error_and_send_email` (error_logging/error_logging.py:13-16): the
   * message goes to the scraper's latest error and to the generation's error.
   */
  function ReportError(store: Store, phone: string, generationId: string, message: string): (s: Store)
    ensures s.latestError.Keys == store.latestError.Keys && s.generationError.Keys == store.generationError.Keys
    ensures phone in store.latestError && store.latestError[phone].None? && message != ""
            ==> s.latestError[phone] == Some(message)
    ensures generationId in store.generationError && store.generationError[generationId].None? && message != ""
            ==> s.generationError[generationId] == Some(message)
    ensures forall k :: k in store.latestError && (k != phone || store.latestError[k].Some?)
                        ==> s.latestError[k] == store.latestError[k]
    ensures forall k :: k in store.generationError && (k != generationId || store.generationError[k].Some?)
                        ==> s.generationError[k] == store.generationError[k]
    ensures message == "" ==> s == store
  {
    Store(WriteFirstError(store.latestError, phone, message).1,
          WriteFirstError(store.generationError, generationId, message).1)
  }

  /**
   * `save_generation_error_and_send_email` (error_logging/error_logging.py:18-20):
   * only the generation's error is written.
   */
  function ReportGenerationError(store: Store, generationId: string, message: string): (s: Store)
    ensures s.latestError == store.latestError
    ensures s.generationError.Keys == store.generationError.Keys
    ensures generationId in store.generationError && store.generationError[generationId].None? && message != ""
            ==> s.generationError[generationId] == Some(message)
    ensures forall k :: k in store.generationError && (k != generationId || store.generationError[k].Some?)
                        ==> s.generationError[k] == store.generationError[k]
  {
    store.(generationError := WriteFirstError(store.generationError, generationId, message).1)
  }

  /** A report as a step sends it: to both error columns, or to the generation's only. */
  datatype Report = Full(message: string) | GenerationOnly(message: string)

  /** Once the first report of a run lands, every later report leaves both rows as they are. */
  lemma {:induction false} LaterReportsKeepFirst(store: Store, phone: string, generationId: string,
                                                 first: string, later: seq<string>)
    requires phone in store.latestError && generationId in store.generationError
    requires first != ""
    ensures var s := ReportAll(ReportError(store, phone, generationId, first), phone, generationId, later);
      && (store.latestError[phone].None? ==> s.latestError[phone] == Some(first))
      && (store.generationError[generationId].None? ==> s.generationError[generationId] == Some(first))
      && s.latestError.Keys == store.latestError.Keys
      && s.generationError.Keys == store.generationError.Keys
    decreases |later|
  {
    if later != [] {
      LaterReportsKeepFirst(store, phone, generationId, first, later[..|later| - 1]);
    }
  }

  /** A run's reports, in order. */
  function ReportAll(store: Store, phone: string, generationId: string, messages: seq<string>): (s: Store)
    ensures s.latestError.Keys == store.latestError.Keys
    ensures s.generationError.Keys == store.generationError.Keys
    ensures phone in store.latestError && store.latestError[phone].Some? ==> s.latestError[phone] == store.latestError[phone]
    ensures generationId in store.generationError && store.generationError[generationId].Some?
            ==> s.generationError[generationId] == store.generationError[generationId]
    decreases |messages|
  {
    if messages == [] then store
    else ReportError(ReportAll(store, phone, generationId, messages[..|messages| - 1]), phone, generationId,
                     messages[|messages| - 1])
  }
}
