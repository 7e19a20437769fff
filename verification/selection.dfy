/**
 * Candidate selection after a generation request (`pick_first_finished_song`):
 * the unfinished rows are sampled once (and once more when none is
 * unfinished), then polled until every tracked candidate has a duration or
 * the polls run out; a running maximum over durations of at least
 * MIN_SONG_LENGTH picks the target, and a tie keeps the earlier candidate.
 *
 * The deadline is not modelled as a clock: `polls` holds the readings of the
 * iterations that start before it, one reading per tracked candidate.
 */
module Selection {
  import opened Wrappers
  import opened Constants
  import opened Duration
  import Text
  import ErrorStore

  /** One reading of one tracked candidate (a row handle) during the loop. */
  datatype Observation = Observation(candidate: nat, duration: Option<int>)

  /** The loop's running state: `max_duration` and `target_song`. */
  datatype Best = Best(maxDuration: int, target: Option<nat>)

  const NOTHING_PICKED: Best := Best(0, None)

  /** A reading that can become the target: a duration of at least MIN_SONG_LENGTH. */
  predicate Qualifies(o: Observation) {
    o.duration.Some? && o.duration.value >= MIN_SONG_LENGTH
  }

  /** One pass of the inner `if` (scrape_song.py:463-465). */
  function Step(b: Best, o: Observation): (r: Best)
    ensures r.maxDuration >= b.maxDuration
    ensures r != b ==> Qualifies(o) && o.duration.value > b.maxDuration
    ensures Qualifies(o) && o.duration.value > b.maxDuration >= 0 ==>
              r == Best(o.duration.value, Some(o.candidate))
  {
    if IsFinished(o.duration) && o.duration.value > b.maxDuration && o.duration.value >= MIN_SONG_LENGTH
    then Best(o.duration.value, Some(o.candidate))
    else b
  }

  /** The running state after a sequence of readings, from the initial state. */
  function Track(obs: seq<Observation>): Best
    decreases |obs|
  {
    if |obs| == 0 then NOTHING_PICKED else Step(Track(obs[..|obs| - 1]), obs[|obs| - 1])
  }

  lemma TrackAppend(obs: seq<Observation>, o: Observation)
    ensures Track(obs + [o]) == Step(Track(obs), o)
  {
    assert (obs + [o])[..|obs|] == obs;
  }

  predicate NoneQualifies(obs: seq<Observation>) {
    forall k :: 0 <= k < |obs| ==> !Qualifies(obs[k])
  }

  /**
   * Reference definition of the selection: reading `i` qualifies, no
   * qualifying reading is longer, and every earlier qualifying reading is
   * strictly shorter.
   */
  predicate IsFirstMaximum(obs: seq<Observation>, i: int) {
    && 0 <= i < |obs|
    && Qualifies(obs[i])
    && (forall k :: 0 <= k < |obs| && Qualifies(obs[k]) ==> obs[k].duration.value <= obs[i].duration.value)
    && (forall k :: 0 <= k < i && Qualifies(obs[k]) ==> obs[k].duration.value < obs[i].duration.value)
  }

  /** The running maximum picks the first reading of the maximal qualifying duration. */
  lemma {:induction false} TrackIsFirstMaximum(obs: seq<Observation>)
    ensures NoneQualifies(obs) ==> Track(obs) == NOTHING_PICKED
    ensures !NoneQualifies(obs) ==>
      exists i :: IsFirstMaximum(obs, i) && Track(obs) == Best(obs[i].duration.value, Some(obs[i].candidate))
    decreases |obs|
  {
    if |obs| > 0 {
      var n := |obs| - 1;
      var pre := obs[..n];
      var o := obs[n];
      assert obs == pre + [o];
      TrackIsFirstMaximum(pre);
      TrackAppend(pre, o);
      if NoneQualifies(pre) {
        if Qualifies(o) {
          assert IsFirstMaximum(obs, n);
        }
      } else {
        var i :| IsFirstMaximum(pre, i) && Track(pre) == Best(pre[i].duration.value, Some(pre[i].candidate));
        if Qualifies(o) && o.duration.value > pre[i].duration.value {
          assert IsFirstMaximum(obs, n);
        } else {
          assert IsFirstMaximum(obs, i);
        }
      }
    }
  }

  /** A poll reads every tracked candidate: done when every duration is finished. */
  predicate AllDone(poll: seq<Option<int>>) {
    forall j :: 0 <= j < |poll| ==> IsFinished(poll[j])
  }

  /** Readings of one poll, in the order of the tracked candidates. */
  function Readings(tracked: seq<nat>, poll: seq<Option<int>>): (r: seq<Observation>)
    requires |poll| == |tracked|
    ensures |r| == |tracked|
    ensures forall j :: 0 <= j < |r| ==> r[j] == Observation(tracked[j], poll[j])
  {
    seq(|tracked|, j requires 0 <= j < |tracked| => Observation(tracked[j], poll[j]))
  }

  predicate WellShaped(tracked: seq<nat>, polls: seq<seq<Option<int>>>) {
    forall k :: 0 <= k < |polls| ==> |polls[k]| == |tracked|
  }

  /** Every reading of every poll, poll by poll. */
  function Flatten(tracked: seq<nat>, polls: seq<seq<Option<int>>>): seq<Observation>
    requires WellShaped(tracked, polls)
    decreases |polls|
  {
    if |polls| == 0 then []
    else Flatten(tracked, polls[..|polls| - 1]) + Readings(tracked, polls[|polls| - 1])
  }

  /** How many polls the loop takes: up to and including the first one where all are done. */
  function PollsTaken(polls: seq<seq<Option<int>>>): (n: nat)
    ensures n <= |polls|
    ensures |polls| > 0 ==> n > 0
    ensures forall q :: 0 <= q < n - 1 ==> !AllDone(polls[q])
    ensures 0 < n < |polls| ==> AllDone(polls[n - 1])
  {
    if |polls| == 0 then 0
    else if AllDone(polls[0]) then 1
    else 1 + PollsTaken(polls[1..])
  }

  lemma PollsTakenUnique(polls: seq<seq<Option<int>>>, k: nat)
    requires k <= |polls|
    requires |polls| > 0 ==> k > 0
    requires forall q :: 0 <= q < k - 1 ==> !AllDone(polls[q])
    requires k < |polls| ==> AllDone(polls[k - 1])
    ensures PollsTaken(polls) == k
  {
  }

  /**
   * One poll of the loop (scrape_song.py:455-467): every tracked candidate is
   * read in order, the running state is stepped by each reading, and the
   * poll is done when every reading is finished.
   */
  method ReadPoll(tracked: seq<nat>, poll: seq<Option<int>>, ghost before: seq<Observation>,
                  maxIn: int, targetIn: Option<nat>)
    returns (allDone: bool, maxDuration: int, target: Option<nat>)
    requires |poll| == |tracked|
    requires Best(maxIn, targetIn) == Track(before)
    ensures Best(maxDuration, target) == Track(before + Readings(tracked, poll))
    ensures allDone <==> AllDone(poll)
  {
    maxDuration, target := maxIn, targetIn;
    allDone := true;
    ghost var readings := Readings(tracked, poll);
    assert before + readings[..0] == before;
    var j := 0;
    while j < |tracked|
      invariant 0 <= j <= |tracked|
      invariant allDone <==> forall i :: 0 <= i < j ==> IsFinished(poll[i])
      invariant Best(maxDuration, target) == Track(before + readings[..j])
    {
      var o := Observation(tracked[j], poll[j]);
      assert readings[j] == o;
      ReadStep(before, readings, j);
      var next := Step(Best(maxDuration, target), o);
      maxDuration, target := next.maxDuration, next.target;
      if !IsFinished(poll[j]) {
        allDone := false;
      }
      j := j + 1;
    }
    assert readings[..j] == readings;
  }

  /** Tracking one more reading of a poll steps the running best by that reading. */
  lemma ReadStep(before: seq<Observation>, readings: seq<Observation>, j: nat)
    requires j < |readings|
    ensures Track(before + readings[..j + 1]) == Step(Track(before + readings[..j]), readings[j])
  {
    assert readings[..j + 1] == readings[..j] + [readings[j]];
    assert before + readings[..j] + [readings[j]] == before + readings[..j + 1];
    TrackAppend(before + readings[..j], readings[j]);
  }

  /**
   * The poll loop (scrape_song.py:446-481): the target and maximum it ends
   * with are those of the first maximal qualifying reading among the polls
   * it takes, and there is no target when no reading qualifies.
   */
  method PollForTarget(tracked: seq<nat>, polls: seq<seq<Option<int>>>) returns (target: Option<nat>, maxDuration: int)
    requires WellShaped(tracked, polls)
    ensures var obs := Flatten(tracked, polls[..PollsTaken(polls)]);
      && (target.None? <==> NoneQualifies(obs))
      && (target.None? ==> maxDuration == 0)
      && (target.Some? ==> exists i :: IsFirstMaximum(obs, i) &&
                             obs[i].candidate == target.value && obs[i].duration == Some(maxDuration))
  {
    maxDuration := 0;
    target := None;
    var k, allDone := 0, false;
    while k < |polls| && !allDone
      invariant 0 <= k <= |polls|
      invariant forall q :: 0 <= q < k - 1 ==> !AllDone(polls[q])
      invariant allDone <==> 0 < k && AllDone(polls[k - 1])
      invariant Best(maxDuration, target) == Track(Flatten(tracked, polls[..k]))
    {
      ghost var earlier := k;
      assert forall q :: 0 <= q < earlier ==> !AllDone(polls[q]);
      allDone, maxDuration, target := ReadPoll(tracked, polls[k], Flatten(tracked, polls[..k]), maxDuration, target);
      FlattenStep(tracked, polls, k);
      k := k + 1;
    }
    PollsTakenUnique(polls, k);
    BestOfTrack(Flatten(tracked, polls[..k]), target, maxDuration);
  }

  lemma FlattenStep(tracked: seq<nat>, polls: seq<seq<Option<int>>>, k: nat)
    requires WellShaped(tracked, polls) && k < |polls|
    ensures Flatten(tracked, polls[..k + 1]) == Flatten(tracked, polls[..k]) + Readings(tracked, polls[k])
  {
    assert polls[..k + 1][..k] == polls[..k];
  }

  /** The running state after all readings, read as the selection it makes. */
  lemma BestOfTrack(obs: seq<Observation>, target: Option<nat>, maxDuration: int)
    requires Best(maxDuration, target) == Track(obs)
    ensures target.None? <==> NoneQualifies(obs)
    ensures target.None? ==> maxDuration == 0
    ensures target.Some? ==> exists i :: IsFirstMaximum(obs, i) &&
                               obs[i].candidate == target.value && obs[i].duration == Some(maxDuration)
  {
    TrackIsFirstMaximum(obs);
  }

  /** Positions of the rows whose sampled duration is not finished, in list order. */
  function UnfinishedPositions(sample: seq<Option<int>>): (r: seq<nat>)
    ensures forall i :: 0 <= i < |r| ==> r[i] < |sample| && !IsFinished(sample[r[i]])
    ensures forall p :: 0 <= p < |sample| && !IsFinished(sample[p]) ==> p in r
    ensures forall i, j :: 0 <= i < j < |r| ==> r[i] < r[j]
    decreases |sample|
  {
    if |sample| == 0 then []
    else
      var pre := UnfinishedPositions(sample[..|sample| - 1]);
      if IsFinished(sample[|sample| - 1]) then pre else pre + [|sample| - 1]
  }

  /**
   * The unfinished set (scrape_song.py:432-442): sampled once, sampled again
   * when empty, and rejected unless it has 1 to SUNO_MAX_SONGS_PER_GENERATION
   * members.
   */
  function ChooseTracked(sample1: seq<Option<int>>, sample2: seq<Option<int>>): (r: Option<seq<nat>>)
    ensures r.Some? ==> 0 < |r.value| <= SUNO_MAX_SONGS_PER_GENERATION
    ensures r.Some? ==> r.value == (if |UnfinishedPositions(sample1)| == 0
                                    then UnfinishedPositions(sample2) else UnfinishedPositions(sample1))
    ensures r.None? ==> |UnfinishedPositions(sample1)| > SUNO_MAX_SONGS_PER_GENERATION
                        || (|UnfinishedPositions(sample1)| == 0 &&
                            !(0 < |UnfinishedPositions(sample2)| <= SUNO_MAX_SONGS_PER_GENERATION))
  {
    var first := UnfinishedPositions(sample1);
    var chosen := if |first| == 0 then UnfinishedPositions(sample2) else first;
    if 0 < |chosen| <= SUNO_MAX_SONGS_PER_GENERATION then Some(chosen) else None
  }

  /** The handles of the tracked rows. */
  function Handles(rows: seq<nat>, positions: seq<nat>): (r: seq<nat>)
    requires forall i :: 0 <= i < |positions| ==> positions[i] < |rows|
    ensures |r| == |positions|
    ensures forall i :: 0 <= i < |r| ==> r[i] == rows[positions[i]]
  {
    seq(|positions|, i requires 0 <= i < |positions| => rows[positions[i]])
  }

  /** A poll's readings of the tracked rows only. */
  function Project(positions: seq<nat>, poll: seq<Option<int>>): (r: seq<Option<int>>)
    requires forall i :: 0 <= i < |positions| ==> positions[i] < |poll|
    ensures |r| == |positions|
    ensures forall i :: 0 <= i < |r| ==> r[i] == poll[positions[i]]
  {
    seq(|positions|, i requires 0 <= i < |positions| => poll[positions[i]])
  }

  function ProjectAll(positions: seq<nat>, n: nat, polls: seq<seq<Option<int>>>): (r: seq<seq<Option<int>>>)
    requires forall i :: 0 <= i < |positions| ==> positions[i] < n
    requires forall k :: 0 <= k < |polls| ==> |polls[k]| == n
    ensures WellShaped(positions, r) && |r| == |polls|
    ensures forall k :: 0 <= k < |r| ==> r[k] == Project(positions, polls[k])
  {
    seq(|polls|, k requires 0 <= k < |polls| => Project(positions, polls[k]))
  }

  /** The target is the candidate of the first maximal qualifying reading, and there is none when nothing qualifies. */
  predicate SelectsFirstMaximum(obs: seq<Observation>, target: Option<nat>) {
    && (target.None? <==> NoneQualifies(obs))
    && (target.Some? ==> exists i | 0 <= i < |obs| :: IsFirstMaximum(obs, i) && obs[i].candidate == target.value)
  }

  /** The readings the poll loop takes of the rows at `positions`. */
  function PolledReadings(rows: seq<nat>, positions: seq<nat>, polls: seq<seq<Option<int>>>): seq<Observation>
    requires forall i :: 0 <= i < |positions| ==> positions[i] < |rows|
    requires forall k :: 0 <= k < |polls| ==> |polls[k]| == |rows|
  {
    var polled := ProjectAll(positions, |rows|, polls);
    Flatten(Handles(rows, positions), polled[..PollsTaken(polled)])
  }

  /** The unfinished positions the size check looks at: the second sample's when the first has none. */
  function Resampled(sample1: seq<Option<int>>, sample2: seq<Option<int>>): seq<nat> {
    if |UnfinishedPositions(sample1)| == 0 then UnfinishedPositions(sample2) else UnfinishedPositions(sample1)
  }

  const NO_SONGS_LISTED := "SCRAPER - SCRAPE_SONG: Could not find any songs in the song list."
  const NO_SUITABLE_SONG := "SCRAPER - SCRAPE_SONG: Did not find a suitable song."

  /** The report of an unfinished set of the wrong size, with its size printed. */
  function WrongCountMessage(count: nat): string {
    "SCRAPER - SCRAPE_SONG: Invalid number of unfinished songs: " + Text.NatToString(count) + "."
  }

  /**
   * `pick_first_finished_song` over the listed rows (after the listing retry)
   * and the readings of every listed row at the two samples and each poll.
   * The target is a tracked row carrying the first maximal qualifying
   * duration; there is none when the listing is empty, the unfinished set
   * has the wrong size, or no reading qualifies. Every way of ending
   * without a target sends one report (scrape_song.py:429, 441, 479): an
   * empty listing to both error columns, the other two to the generation's
   * only.
   */
  method PickFirstFinishedSong(rows: seq<nat>, sample1: seq<Option<int>>, sample2: seq<Option<int>>,
                               polls: seq<seq<Option<int>>>) returns (target: Option<nat>, report: Option<ErrorStore.Report>)
    requires |sample1| == |rows| && |sample2| == |rows|
    requires forall k :: 0 <= k < |polls| ==> |polls[k]| == |rows|
    ensures |rows| == 0 || ChooseTracked(sample1, sample2).None? ==> target.None?
    ensures target.Some? ==> target.value in rows
    ensures |rows| > 0 && ChooseTracked(sample1, sample2).Some? ==>
      SelectsFirstMaximum(PolledReadings(rows, ChooseTracked(sample1, sample2).value, polls), target)
    ensures report.None? <==> target.Some?
    ensures |rows| == 0 ==> report == Some(ErrorStore.Full(NO_SONGS_LISTED))
    ensures |rows| > 0 && ChooseTracked(sample1, sample2).None? ==>
      report == Some(ErrorStore.GenerationOnly(WrongCountMessage(|Resampled(sample1, sample2)|)))
    ensures |rows| > 0 && ChooseTracked(sample1, sample2).Some? && target.None? ==>
      report == Some(ErrorStore.GenerationOnly(NO_SUITABLE_SONG))
  {
    if |rows| == 0 {
      return None, Some(ErrorStore.Full(NO_SONGS_LISTED));
    }
    var chosen := ChooseTracked(sample1, sample2);
    if chosen.None? {
      var count := |Resampled(sample1, sample2)|;
      return None, Some(ErrorStore.GenerationOnly(WrongCountMessage(count)));
    }
    target := PollTracked(rows, chosen.value, polls);
    report := if target.Some? then None else Some(ErrorStore.GenerationOnly(NO_SUITABLE_SONG));
  }

  /** The poll loop over the rows at `positions`: the first maximal qualifying reading's row, if any. */
  method PollTracked(rows: seq<nat>, positions: seq<nat>, polls: seq<seq<Option<int>>>) returns (target: Option<nat>)
    requires forall i :: 0 <= i < |positions| ==> positions[i] < |rows|
    requires forall k :: 0 <= k < |polls| ==> |polls[k]| == |rows|
    ensures target.Some? ==> target.value in rows
    ensures SelectsFirstMaximum(PolledReadings(rows, positions, polls), target)
  {
    var tracked := Handles(rows, positions);
    var polled := ProjectAll(positions, |rows|, polls);
    ghost var obs := Flatten(tracked, polled[..PollsTaken(polled)]);
    assert obs == PolledReadings(rows, positions, polls);
    var maxDuration;
    target, maxDuration := PollForTarget(tracked, polled);
    if target.Some? {
      ghost var i :| IsFirstMaximum(obs, i) && obs[i].candidate == target.value;
      FlattenCandidates(tracked, polled[..PollsTaken(polled)], i);
      assert target.value in tracked;
    }
  }

  lemma {:induction false} FlattenCandidates(tracked: seq<nat>, polls: seq<seq<Option<int>>>, i: int)
    requires WellShaped(tracked, polls)
    requires 0 <= i < |Flatten(tracked, polls)|
    ensures Flatten(tracked, polls)[i].candidate in tracked
    decreases |polls|
  {
    var pre := Flatten(tracked, polls[..|polls| - 1]);
    if i < |pre| {
      FlattenCandidates(tracked, polls[..|polls| - 1], i);
    } else {
      assert Flatten(tracked, polls)[i] == Readings(tracked, polls[|polls| - 1])[i - |pre|];
    }
  }

  /**
   * Two tracked rows read over two polls: the first poll sees only the
   * second row finished at 0:45, the second sees 0:50 and 0:45, so the
   * first row is picked; two short songs (0:10 and 0:12) pick nothing; a
   * tie keeps the earlier row.
   */
  lemma SelectionExamples()
    ensures Track(Flatten([1, 2], [[None, Some(45)], [Some(50), Some(45)]])) == Best(50, Some(1))
    ensures Track(Flatten([1, 2], [[Some(10), Some(12)]])) == NOTHING_PICKED
    ensures Track(Flatten([1, 2], [[Some(45), Some(45)]])) == Best(45, Some(1))
  {
    var twoPolls: seq<seq<Option<int>>> := [[None, Some(45)], [Some(50), Some(45)]];
    assert twoPolls[..1] == [[None, Some(45)]];
    var first := [Observation(1, None), Observation(2, Some(45))];
    assert Flatten([1, 2], twoPolls[..1]) == first;
    assert Flatten([1, 2], twoPolls) == first + [Observation(1, Some(50)), Observation(2, Some(45))];
    assert Track(first) == Best(45, Some(2));
    TrackAppend(first, Observation(1, Some(50)));
    TrackAppend(first + [Observation(1, Some(50))], Observation(2, Some(45)));
    assert first + [Observation(1, Some(50))] + [Observation(2, Some(45))]
        == first + [Observation(1, Some(50)), Observation(2, Some(45))];
    var onePoll: seq<seq<Option<int>>> := [[Some(10), Some(12)]];
    assert Flatten([1, 2], onePoll) == [Observation(1, Some(10)), Observation(2, Some(12))];
    var tie: seq<seq<Option<int>>> := [[Some(45), Some(45)]];
    assert Flatten([1, 2], tie) == [Observation(1, Some(45)), Observation(2, Some(45))];
  }
}
