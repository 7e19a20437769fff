/**
 * Detection of the downloaded song file (`get_song_name_from_directory`,
 * the wait loop of `download_song_audio`) and the path helpers it shares with
 * the record store (`os.path.join`, `os.path.splitext`, `os.path.basename`).
 */
module Download {
  import opened Wrappers
  import opened Text
  import opened Constants

  /** Index of the last '.' in `s`, or -1 when there is none. */
  function LastDot(s: string): (r: int)
    ensures -1 <= r < |s|
    ensures r == -1 <==> forall k :: 0 <= k < |s| ==> s[k] != '.'
    ensures r >= 0 ==> s[r] == '.' && forall k :: r < k < |s| ==> s[k] != '.'
    decreases |s|
  {
    if |s| == 0 then -1
    else if s[|s| - 1] == '.' then |s| - 1
    else LastDot(s[..|s| - 1])
  }

  /**
   * `os.path.splitext(name)[1]` for a bare file name: from the last dot to
   * the end, unless only dots precede that dot (".mp3" has no extension).
   */
  function Extension(name: string): (r: string)
    ensures r == "" || (r[0] == '.' && |r| <= |name| && r == name[|name| - |r|..])
    ensures forall k :: 0 < k < |r| ==> r[k] != '.'
  {
    var i := LastDot(name);
    if i > 0 && exists k | 0 <= k < i :: name[k] != '.' then name[i..] else ""
  }

  /** A name ending in `ext` after a stem with a non-dot character has extension `ext`. */
  lemma ExtensionOfSuffix(stem: string, ext: string)
    requires |ext| >= 1 && ext[0] == '.' && forall k :: 0 < k < |ext| ==> ext[k] != '.'
    requires exists k :: 0 <= k < |stem| && stem[k] != '.'
    ensures Extension(stem + ext) == ext
  {
    var name := stem + ext;
    var i := LastDot(name);
    assert name[|stem|] == '.';
    assert i == |stem|;
    var k :| 0 <= k < |stem| && stem[k] != '.';
    assert name[k] != '.';
    assert name[i..] == ext;
  }

  /** The extension test of `get_song_name_from_directory`, case-insensitive. */
  predicate AcceptedExtension(name: string) {
    Lower(Extension(name)) in ACCEPTED_SONG_FILE_TYPES
  }

  /** The download directory as observed: absent, or the names of the regular files in it. */
  datatype Directory = Missing | Listing(files: seq<string>)

  /** The three answers of `get_song_name_from_directory`: a name, `False`, `None`. */
  datatype DirectoryState = SongFile(name: string) | NoFileYet | Unusable

  function ClassifyDirectory(d: Directory): (r: DirectoryState)
    ensures r.SongFile? <==> d.Listing? && |d.files| == 1 && AcceptedExtension(d.files[0])
    ensures r.SongFile? ==> r.name == d.files[0]
    ensures r.NoFileYet? <==> d.Listing? && |d.files| == 0
    ensures r.Unusable? <==> d.Missing? || (d.Listing? && (|d.files| > 1 || (|d.files| == 1 && !AcceptedExtension(d.files[0]))))
  {
    match d
    case Missing => Unusable
    case Listing(files) =>
      if |files| == 1 then (if AcceptedExtension(files[0]) then SongFile(files[0]) else Unusable)
      else if |files| == 0 then NoFileYet
      else Unusable
  }

  /** `os.path.join(directory, name)`. */
  function Join(directory: string, name: string): (r: string)
    ensures StartsWith(name, "/") ==> r == name
    ensures !StartsWith(name, "/") ==> |r| >= |name| && r[|r| - |name|..] == name
  {
    if StartsWith(name, "/") then name
    else if |directory| == 0 || directory[|directory| - 1] == '/' then directory + name
    else directory + "/" + name
  }

  /** `os.path.basename(path)`: everything after the last '/'. */
  function Basename(path: string): string
    decreases |path|
  {
    if |path| == 0 then ""
    else if path[|path| - 1] == '/' then ""
    else Basename(path[..|path| - 1]) + [path[|path| - 1]]
  }

  /** The base name is the slash-free suffix that follows the last slash, or the whole path. */
  lemma {:induction false} BasenameShape(path: string)
    ensures var r := Basename(path);
      && |r| <= |path| && r == path[|path| - |r|..]
      && (forall k :: 0 <= k < |r| ==> r[k] != '/')
      && (|r| < |path| ==> path[|path| - |r| - 1] == '/')
    decreases |path|
  {
    if |path| > 0 && path[|path| - 1] != '/' {
      var n, front := |path|, path[..|path| - 1];
      BasenameShape(front);
      var r, r' := Basename(path), Basename(front);
      assert r == r' + [path[n - 1]];
      SuffixStep(path, r');
      assert forall k :: 0 <= k < |r'| ==> r[k] == r'[k];
      assert |r| < n ==> path[n - |r| - 1] == front[|front| - |r'| - 1];
    }
  }

  /** Extending a suffix of a path's front by the path's last character gives a suffix of the path. */
  lemma SuffixStep(path: string, r': string)
    requires |path| > 0
    requires |r'| <= |path| - 1 && r' == path[..|path| - 1][|path| - 1 - |r'|..]
    ensures r' + [path[|path| - 1]] == path[|path| - |r'| - 1..]
  {
    var n, m := |path|, |r'|;
    assert path[..n - 1][n - 1 - m..] == path[n - 1 - m..n - 1];
    assert path[n - 1 - m..] == path[n - 1 - m..n - 1] + [path[n - 1]];
  }

  /** The base name of a joined path is the file name that was joined. */
  lemma BasenameOfJoin(directory: string, name: string)
    requires forall k :: 0 <= k < |name| ==> name[k] != '/'
    requires |name| > 0
    ensures Basename(Join(directory, name)) == name
  {
    assert name[..1] != "/" by {
      assert name[..1][0] == name[0];
    }
    if |directory| == 0 || directory[|directory| - 1] == '/' {
      BasenameAfterSeparator(directory, name);
    } else {
      var d := directory + "/";
      assert Join(directory, name) == d + name;
      BasenameAfterSeparator(d, name);
    }
  }

  /** A slash-free name written after a separator, or alone, is the base name. */
  lemma {:induction false} BasenameAfterSeparator(d: string, name: string)
    requires |d| == 0 || d[|d| - 1] == '/'
    requires forall k :: 0 <= k < |name| ==> name[k] != '/'
    ensures Basename(d + name) == name
    decreases |name|
  {
    if |name| == 0 {
      assert d + name == d;
    } else {
      var p, front, c := d + name, name[..|name| - 1], name[|name| - 1];
      assert p[..|p| - 1] == d + front;
      assert p[|p| - 1] == c && c != '/';
      assert Basename(p) == Basename(d + front) + [c];
      assert forall k :: 0 <= k < |front| ==> front[k] == name[k];
      BasenameAfterSeparator(d, front);
      assert front + [c] == name;
    }
  }

  /** How the download wait ends. */
  datatype DownloadOutcome =
    | Downloaded(path: string)
    | MissingControl   // a menu entry needed to start the download was not found
    | TimedOut         // the directory stayed empty until the deadline
    | Integrity        // missing directory, several files or a rejected extension

  /**
   * The wait loop (scrape_song.py:620-630) over the directory observations
   * made before the deadline: an empty directory keeps it waiting, anything
   * else but a single accepted file ends it at once.
   */
  function WaitForDownload(directory: string, checks: seq<Directory>): (r: DownloadOutcome)
    ensures r.Downloaded? ==> exists i :: 0 <= i < |checks| && ClassifyDirectory(checks[i]).SongFile?
                                && r.path == Join(directory, checks[i].files[0])
                                && forall j :: 0 <= j < i ==> ClassifyDirectory(checks[j]).NoFileYet?
    ensures r.TimedOut? <==> forall j :: 0 <= j < |checks| ==> ClassifyDirectory(checks[j]).NoFileYet?
    ensures r.Integrity? <==> exists i :: 0 <= i < |checks| && ClassifyDirectory(checks[i]).Unusable?
                                && forall j :: 0 <= j < i ==> ClassifyDirectory(checks[j]).NoFileYet?
    ensures !r.MissingControl?
  {
    var i := StillEmpty(checks);
    StillEmptyUnique(checks);
    if i == |checks| then TimedOut
    else
      var state := ClassifyDirectory(checks[i]);
      assert !(forall j :: 0 <= j < |checks| ==> ClassifyDirectory(checks[j]).NoFileYet?);
      if state.SongFile? then Downloaded(Join(directory, state.name)) else Integrity
  }

  /** The first observation that is not an empty directory is the one `StillEmpty` stops at. */
  lemma StillEmptyUnique(checks: seq<Directory>)
    ensures forall j :: 0 <= j < |checks| && !ClassifyDirectory(checks[j]).NoFileYet?
                        && (forall k :: 0 <= k < j ==> ClassifyDirectory(checks[k]).NoFileYet?)
                        ==> j == StillEmpty(checks)
  {
  }

  /** How many observations in a row, from the first, see an empty directory. */
  function StillEmpty(checks: seq<Directory>): (n: nat)
    ensures n <= |checks|
    ensures forall j :: 0 <= j < n ==> ClassifyDirectory(checks[j]).NoFileYet?
    ensures n < |checks| ==> !ClassifyDirectory(checks[n]).NoFileYet?
    decreases |checks|
  {
    if |checks| == 0 || !ClassifyDirectory(checks[0]).NoFileYet? then 0
    else 1 + StillEmpty(checks[1..])
  }

  /**
   * `download_song_audio`: the row's menu toggle, the Download entry and the
   * audio entry must each be found exactly once before the wait starts.
   */
  function DownloadSongAudio(menuToggleFound: bool, downloadEntryFound: bool, audioEntryFound: bool,
                             directory: string, checks: seq<Directory>): (r: DownloadOutcome)
    ensures r.MissingControl? <==> !(menuToggleFound && downloadEntryFound && audioEntryFound)
    ensures !r.MissingControl? ==> r == WaitForDownload(directory, checks)
  {
    if !menuToggleFound || !downloadEntryFound || !audioEntryFound then MissingControl
    else WaitForDownload(directory, checks)
  }

  /** What the source returns: the path on success, `None` for every failure. */
  function ToPath(outcome: DownloadOutcome): (r: Option<string>)
    ensures r.Some? <==> outcome.Downloaded?
    ensures r.Some? ==> r.value == outcome.path
  {
    if outcome.Downloaded? then Some(outcome.path) else None
  }

  /**
   * The source returns `None` for a missing control, a timeout and an
   * unusable directory alike: exactly when a control is missing, every
   * observation is empty, or the first non-empty one is unusable.
   */
  lemma DownloadFailuresCollapse(menuToggleFound: bool, downloadEntryFound: bool, audioEntryFound: bool,
                                 directory: string, checks: seq<Directory>)
    ensures var r := ToPath(DownloadSongAudio(menuToggleFound, downloadEntryFound, audioEntryFound, directory, checks));
      r.None? <==> || !(menuToggleFound && downloadEntryFound && audioEntryFound)
                   || (forall j :: 0 <= j < |checks| ==> ClassifyDirectory(checks[j]).NoFileYet?)
                   || (exists i :: 0 <= i < |checks| && ClassifyDirectory(checks[i]).Unusable?
                                   && forall j :: 0 <= j < i ==> ClassifyDirectory(checks[j]).NoFileYet?)
    ensures var r := ToPath(DownloadSongAudio(menuToggleFound, downloadEntryFound, audioEntryFound, directory, checks));
      r.Some? ==> exists i :: 0 <= i < |checks| && ClassifyDirectory(checks[i]).SongFile?
                              && r.value == Join(directory, checks[i].files[0])
  {
  }

  /** A directory holding only "song.mp3" gives that file's path. */
  lemma SingleSongIsDownloaded(directory: string)
    ensures WaitForDownload(directory, [Listing(["song.mp3"])]) == Downloaded(Join(directory, "song.mp3"))
  {
    assert "song"[0] != '.';
    ExtensionOfSuffix("song", ".mp3");
    assert "song" + ".mp3" == "song.mp3";
    assert Lower(".mp3") == ".mp3";
    assert ClassifyDirectory(Listing(["song.mp3"])) == SongFile("song.mp3");
  }

  /** A directory that stays empty until the deadline is a timeout. */
  lemma EmptyDirectoryTimesOut(directory: string)
    ensures WaitForDownload(directory, [Listing([]), Listing([])]) == TimedOut
  {
    assert ClassifyDirectory(Listing([])) == NoFileYet;
  }

  /** Two files end the wait at once, as an integrity failure rather than a timeout. */
  lemma TwoFilesAreAnIntegrityFailure(directory: string)
    ensures WaitForDownload(directory, [Listing([]), Listing(["a.mp3", "b.mp3"]), Listing([])]) == Integrity
  {
    var checks := [Listing([]), Listing(["a.mp3", "b.mp3"]), Listing([])];
    assert ClassifyDirectory(checks[0]).NoFileYet?;
    assert ClassifyDirectory(checks[1]).Unusable?;
    assert WaitForDownload(directory, checks).Integrity?;
  }
}
