/**
 * The runtime budget of a scrape (`still_have_time`): every stage asks
 * whether the seconds elapsed since the start are still below the configured
 * MAX_RUNTIME minus RUNTIME_ERROR_MARGIN. Clock readings are whole seconds
 * passed in as parameters.
 */
module Budget {
  import opened Wrappers
  import opened Constants

  /**
   * The seconds a run may use. MAX_RUNTIME defaults to RUNTIME_ERROR_MARGIN
   * when unset, which leaves no time at all.
   */
  function Allowance(maxRuntime: Option<int>): (a: int)
    ensures maxRuntime.None? ==> a == 0
    ensures maxRuntime.Some? ==> a == maxRuntime.value - RUNTIME_ERROR_MARGIN
  {
    (match maxRuntime case None => RUNTIME_ERROR_MARGIN case Some(m) => m) - RUNTIME_ERROR_MARGIN
  }

  /** `still_have_time` (scrape_song/scrape_song.py:705-707). */
  function StillHaveTime(now: int, start: int, maxRuntime: Option<int>): (r: bool)
    ensures r <==> now - start < Allowance(maxRuntime)
    ensures maxRuntime.None? && start <= now ==> !r
  {
    now - start < (match maxRuntime case None => RUNTIME_ERROR_MARGIN case Some(m) => m) - RUNTIME_ERROR_MARGIN
  }

  /** Once time has run out it stays out. */
  lemma TimeRunsOut(start: int, earlier: int, later: int, maxRuntime: Option<int>)
    requires earlier <= later
    ensures StillHaveTime(later, start, maxRuntime) ==> StillHaveTime(earlier, start, maxRuntime)
  {
  }

  /**
   * The check before waiting for the songs (scrape_song/scrape_song.py:260):
   * the start is moved back by MAX_SONG_CREATION_WAIT_TIME, so it passes
   * exactly when the elapsed time is that much below the allowance.
   */
  function CanWaitForSongs(now: int, start: int, maxRuntime: Option<int>): (r: bool)
    ensures r <==> now - start < Allowance(maxRuntime) - MAX_SONG_CREATION_WAIT_TIME
  {
    StillHaveTime(now, start - MAX_SONG_CREATION_WAIT_TIME, maxRuntime)
  }

  /** Passing it leaves room for the whole wait: every later check within it passes. */
  lemma WaitFitsInBudget(now: int, start: int, maxRuntime: Option<int>, later: int)
    requires CanWaitForSongs(now, start, maxRuntime)
    requires now <= later <= now + MAX_SONG_CREATION_WAIT_TIME
    ensures StillHaveTime(later, start, maxRuntime)
  {
  }

  /**
   * With MAX_RUNTIME in its accepted range, the wait can only begin within
   * the first 50 to 470 seconds of a run.
   */
  lemma WaitWindow(now: int, start: int, maxRuntime: int)
    requires MIN_RUNTIME <= maxRuntime <= MAX_RUNTIME
    ensures CanWaitForSongs(now, start, Some(maxRuntime)) ==> now - start < 470
    ensures now - start < 50 ==> CanWaitForSongs(now, start, Some(maxRuntime))
  {
  }
}
