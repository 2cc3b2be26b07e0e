/** The decision logic of the FishCam log utility `log_manager.py`: the type
    column of the file listing, the tail of a log, the case-insensitive
    search over a selection of logs, and the age-based removal of rotated
    logs. The log directory is an input: a listing of files in the order the
    operating system returns them, each with its size, modification time,
    contents and whether removing it succeeds. */
module LogManager {
  import opened Wrappers
  import opened Strings
  import opened Lexico

  // ---------------------------------------------------------------------
  // The log directory

  datatype Content =
    | Readable(lines: seq<string>)
      /** Reading fails (say, a decode error) after the lines given. */
    | Unreadable(readBefore: seq<string>)

  datatype LogFile = LogFile(name: string, size: nat, mtime: real, content: Content, removable: bool)

  /** The regular files of the log directory, in listing order. */
  type Listing = seq<LogFile>

  /** The lines the utility gets to see before reading stops. */
  function LinesRead(c: Content): seq<string>
  {
    match c
    case Readable(lines) => lines
    case Unreadable(readBefore) => readBefore
  }

  /** The first listed file called `name`: `os.path.exists` and the file it
      names. */
  function Lookup(dir: Listing, name: string): (r: Option<LogFile>)
    ensures r.Some? <==> exists k :: 0 <= k < |dir| && dir[k].name == name
    ensures r.Some? ==> r.value in dir && r.value.name == name
  {
    if dir == [] then None
    else if dir[0].name == name then Some(dir[0])
    else Lookup(dir[1..], name)
  }

  // ---------------------------------------------------------------------
  // File classification (the "Type" column of `list_log_files`)

  datatype LogKind =
    | Current | Rotated
    | EmailCurrent | EmailRotated
    | StreamCurrent | StreamRotated
    | Other

  /** The branches are tried in order and the first that matches wins. */
  function Classify(filename: string): (k: LogKind)
    ensures k == Current <==> filename == "sensors_ts.log"
    ensures k == EmailCurrent <==> filename == "email_notification.log"
    ensures k == StreamCurrent <==> filename == "web_stream.log"
    ensures k != Other ==> EndsWith(filename, ".log")
    ensures k == Other <==>
      !EndsWith(filename, ".log")
      || !(StartsWith(filename, "sensors_ts.") || StartsWith(filename, "email_notification.")
           || StartsWith(filename, "web_stream."))
  {
    if filename == "sensors_ts.log" then Current
    else if StartsWith(filename, "sensors_ts.") && EndsWith(filename, ".log") then
      assert filename[0] == 's';
      Rotated
    else if filename == "email_notification.log" then EmailCurrent
    else if StartsWith(filename, "email_notification.") && EndsWith(filename, ".log") then
      assert filename[0] == 'e';
      EmailRotated
    else if filename == "web_stream.log" then StreamCurrent
    else if StartsWith(filename, "web_stream.") && EndsWith(filename, ".log") then StreamRotated
    else Other
  }

  /** A rotated log, `<base>.<suffix>.log`, is classified as rotated for
      each of the three log families, whatever its suffix. */
  lemma RotatedNamesClassified(suffix: string)
    ensures Classify("sensors_ts." + suffix + ".log") == Rotated
    ensures Classify("email_notification." + suffix + ".log") == EmailRotated
    ensures Classify("web_stream." + suffix + ".log") == StreamRotated
  {
    var s := "sensors_ts." + suffix + ".log";
    var e := "email_notification." + suffix + ".log";
    var w := "web_stream." + suffix + ".log";
    assert s[..11] == "sensors_ts." && s[|s| - 4..] == ".log";
    assert s != "sensors_ts.log" by { assert |s| != |"sensors_ts.log"|; }
    assert e[..19] == "email_notification." && e[|e| - 4..] == ".log";
    assert e != "email_notification.log" by { assert |e| != |"email_notification.log"|; }
    assert e[0] == 'e';
    assert w[..11] == "web_stream." && w[|w| - 4..] == ".log";
    assert w != "web_stream.log" by { assert |w| != |"web_stream.log"|; }
    assert w[0] == 'w';
  }

  // ---------------------------------------------------------------------
  // `show_log_tail`

  /** Python's `s[start:]`, negative `start` counting from the end. */
  function SliceFrom<T>(s: seq<T>, start: int): seq<T>
  {
    if start < 0 then (if -start >= |s| then s else s[|s| + start..])
    else if start >= |s| then []
    else s[start..]
  }

  function Min(a: int, b: int): int
  {
    if a <= b then a else b
  }

  /** `all_lines[-lines:] if len(all_lines) > lines else all_lines`. For a
      positive count these are the last `min(lines, len)` lines in their
      order; a count of 0 keeps everything and a negative count drops that
      many lines from the front. */
  function Tail(allLines: seq<string>, lines: int): (r: seq<string>)
    ensures lines > 0 ==>
      |r| == Min(lines, |allLines|) && r == allLines[|allLines| - |r|..]
    ensures lines == 0 ==> r == allLines
    ensures lines < 0 ==> r == allLines[Min(-lines, |allLines|)..]
  {
    if |allLines| > lines then SliceFrom(allLines, -lines) else allLines
  }

  datatype TailView = NotFound | ReadFailed | Shown(lines: seq<string>)

  /** What `show_log_tail` shows: the tail lines with trailing whitespace
      removed, or one of its two messages. */
  function ShowLogTail(dir: Listing, filename: string, lines: int): (v: TailView)
    ensures v == NotFound <==> Lookup(dir, filename).None?
    ensures v == ReadFailed <==>
      Lookup(dir, filename).Some? && Lookup(dir, filename).value.content.Unreadable?
    ensures v.Shown? ==>
      var t := Tail(Lookup(dir, filename).value.content.lines, lines);
      |v.lines| == |t| && forall k :: 0 <= k < |t| ==> v.lines[k] == RStrip(t[k])
  {
    match Lookup(dir, filename)
    case None => NotFound
    case Some(f) =>
      match f.content
      case Unreadable(_) => ReadFailed
      case Readable(all) =>
        var t := Tail(all, lines);
        Shown(seq(|t|, k requires 0 <= k < |t| => RStrip(t[k])))
  }

  // ---------------------------------------------------------------------
  // Glob patterns

  /** The patterns the utility globs for in the log directory. */
  datatype Pattern =
    | PrefixLog(prefix: string)  // "<prefix>*.log"
    | AnyLog                     // "*.log"
    | AnyLogSuffix               // "*.log*"
    | Dated                      // "*.????-??-??.log"

  /** A leading dot hides a file from a pattern that starts with a
      wildcard. */
  predicate Hidden(name: string)
  {
    |name| > 0 && name[0] == '.'
  }

  predicate GlobMatch(p: Pattern, name: string)
  {
    match p
    case PrefixLog(prefix) =>
      |name| >= |prefix| + 4 && StartsWith(name, prefix) && EndsWith(name, ".log")
    case AnyLog => !Hidden(name) && EndsWith(name, ".log")
    case AnyLogSuffix => !Hidden(name) && Contains(name, ".log")
    case Dated =>
      var n := |name|;
      !Hidden(name) && n >= 15 && EndsWith(name, ".log")
      && name[n - 15] == '.' && name[n - 10] == '-' && name[n - 7] == '-'
  }

  /** The names `glob` returns for a pattern, in listing order. */
  function Matching(dir: Listing, p: Pattern): (names: seq<string>)
    ensures |names| <= |dir|
    ensures forall n :: n in names <==>
      (exists k :: 0 <= k < |dir| && dir[k].name == n) && GlobMatch(p, n)
  {
    if dir == [] then []
    else
      var prev := Matching(dir[..|dir| - 1], p);
      var last := dir[|dir| - 1];
      assert forall k :: 0 <= k < |dir| - 1 ==> dir[..|dir| - 1][k] == dir[k];
      if GlobMatch(p, last.name) then prev + [last.name] else prev
  }

  /** Names written by the daily rotation, `<base>.YYYY-MM-DD.log`, match
      the dated pattern; the three current logs do not. */
  lemma DatedPatternSelectsRotatedLogs(base: string, date: string)
    requires |base| > 0 && base[0] != '.'
    requires |date| == 10 && date[4] == '-' && date[7] == '-'
    ensures GlobMatch(Dated, base + "." + date + ".log")
    ensures !GlobMatch(Dated, "sensors_ts.log")
    ensures !GlobMatch(Dated, "email_notification.log")
    ensures !GlobMatch(Dated, "web_stream.log")
  {
    var name := base + "." + date + ".log";
    var n := |name|;
    assert name[n - 15] == '.' && name[n - 10] == date[4] && name[n - 7] == date[7];
    assert name[n - 4..] == ".log";
    assert "email_notification.log"[22 - 15] != '.';
  }

  // ---------------------------------------------------------------------
  // `search_logs`

  datatype Hit = Hit(file: string, lineNumber: nat, text: string)

  /** `search_term.lower() in line.lower()`. */
  predicate LineMatches(term: string, line: string)
  {
    Contains(Lower(line), Lower(term))
  }

  /** The matches `search_logs` prints for one file, numbered from 1. */
  function Hits(file: string, term: string, lines: seq<string>): seq<Hit>
  {
    if lines == [] then []
    else
      var prev := Hits(file, term, lines[..|lines| - 1]);
      var line := lines[|lines| - 1];
      if LineMatches(term, line) then prev + [Hit(file, |lines|, Strip(line))] else prev
  }

  /** Line `n` (counted from 1) of `lines` contains the term. */
  ghost predicate MatchesAt(term: string, lines: seq<string>, n: int)
  {
    1 <= n <= |lines| && LineMatches(term, lines[n - 1])
  }

  /** `h` reports line `h.lineNumber` of `lines`, which contains the term. */
  ghost predicate HitOf(file: string, term: string, lines: seq<string>, h: Hit)
  {
    h.file == file && MatchesAt(term, lines, h.lineNumber)
    && h.text == Strip(lines[h.lineNumber - 1])
  }

  /** Every hit reports a matching line by its 1-based number and its
      stripped text. */
  lemma {:induction false} HitsSound(file: string, term: string, lines: seq<string>)
    ensures forall h :: h in Hits(file, term, lines) ==> HitOf(file, term, lines, h)
  {
    if lines != [] {
      var init := lines[..|lines| - 1];
      HitsSound(file, term, init);
      forall h | h in Hits(file, term, init) ensures HitOf(file, term, lines, h) {
        assert init[h.lineNumber - 1] == lines[h.lineNumber - 1];
      }
    }
  }

  lemma {:induction false} HitsInRange(file: string, term: string, lines: seq<string>)
    ensures forall h :: h in Hits(file, term, lines) ==> 1 <= h.lineNumber <= |lines|
  {
    if lines != [] {
      HitsInRange(file, term, lines[..|lines| - 1]);
    }
  }

  /** The hits come in strictly increasing line order. */
  ghost predicate Increasing(hs: seq<Hit>)
  {
    forall k, m :: 0 <= k < m < |hs| ==> hs[k].lineNumber < hs[m].lineNumber
  }

  lemma {:induction false} HitsOrdered(file: string, term: string, lines: seq<string>)
    ensures Increasing(Hits(file, term, lines))
  {
    if lines != [] {
      var init := lines[..|lines| - 1];
      HitsOrdered(file, term, init);
      HitsInRange(file, term, init);
      var prev := Hits(file, term, init);
      var hs := Hits(file, term, lines);
      if hs != prev {
        assert hs == prev + [hs[|hs| - 1]] && hs[|hs| - 1].lineNumber == |lines|;
        forall k, m | 0 <= k < m < |hs| ensures hs[k].lineNumber < hs[m].lineNumber {
          assert hs[k] == prev[k];
          if m < |prev| {
            assert hs[m] == prev[m];
          } else {
            assert prev[k] in prev;
          }
        }
      }
    }
  }

  /** Every matching line is reported. */
  lemma {:induction false} HitsComplete(file: string, term: string, lines: seq<string>, n: int)
    requires MatchesAt(term, lines, n)
    ensures exists h :: h in Hits(file, term, lines) && h.lineNumber == n
  {
    var init := lines[..|lines| - 1];
    var hs := Hits(file, term, lines);
    if n == |lines| {
      assert hs[|hs| - 1].lineNumber == n;
    } else {
      assert init[n - 1] == lines[n - 1];
      HitsComplete(file, term, init, n);
      var h :| h in Hits(file, term, init) && h.lineNumber == n;
      assert h in hs;
    }
  }

  /** Scans one file line by line, as the `enumerate(f, 1)` loop does. */
  method SearchFile(term: string, f: LogFile) returns (hits: seq<Hit>, matches: nat)
    ensures hits == Hits(f.name, term, LinesRead(f.content))
    ensures matches == |hits|
  {
    var lines := LinesRead(f.content);
    hits, matches := [], 0;
    var i := 0;
    while i < |lines|
      invariant 0 <= i <= |lines|
      invariant hits == Hits(f.name, term, lines[..i])
      invariant matches == |hits|
    {
      assert lines[..i + 1][..i] == lines[..i];
      if LineMatches(term, lines[i]) {
        matches := matches + 1;
        hits := hits + [Hit(f.name, i + 1, Strip(lines[i]))];
      }
      i := i + 1;
    }
    assert lines[..i] == lines;
  }

  /** The glob each `log_type` selects; anything unknown searches all logs. */
  function PatternFor(logType: string): Pattern
  {
    if logType == "sensors" then PrefixLog("sensors_ts")
    else if logType == "email" then PrefixLog("email_notification")
    else if logType == "stream" then PrefixLog("web_stream")
    else AnyLog
  }

  /** The files `search_logs` considers: a non-empty explicit file name
      wins over `log_type` and is taken without checking that it exists. */
  function SearchTargets(filename: Option<string>, logType: string, dir: Listing): (names: seq<string>)
    ensures filename.Some? && filename.value != "" ==> names == [filename.value]
    ensures !(filename.Some? && filename.value != "") ==>
      forall n :: n in names <==>
        (exists k :: 0 <= k < |dir| && dir[k].name == n) && GlobMatch(PatternFor(logType), n)
  {
    if filename.Some? && filename.value != "" then [filename.value]
    else Matching(dir, PatternFor(logType))
  }

  datatype FileCount = FileCount(file: string, matches: nat)

  /** The matches printed for the file called `name`, if it exists. */
  function NameHits(term: string, name: string, dir: Listing): seq<Hit>
  {
    match Lookup(dir, name)
    case None => []
    case Some(f) => Hits(f.name, term, LinesRead(f.content))
  }

  /** The matches of the files visited in `order`, missing files skipped. */
  function AllHits(term: string, order: seq<string>, dir: Listing): seq<Hit>
  {
    if order == [] then []
    else AllHits(term, order[..|order| - 1], dir) + NameHits(term, order[|order| - 1], dir)
  }

  /** Match count of a file that exists and reads to the end, else 0. */
  function ReadableCount(term: string, name: string, dir: Listing): nat
  {
    match Lookup(dir, name)
    case Some(LogFile(n, _, _, Readable(lines), _)) => |Hits(n, term, lines)|
    case _ => 0
  }

  /** The "-> N matches in F" summaries, one per file with matches. */
  function FileCounts(term: string, order: seq<string>, dir: Listing): seq<FileCount>
  {
    if order == [] then []
    else
      var name := order[|order| - 1];
      var c := ReadableCount(term, name, dir);
      FileCounts(term, order[..|order| - 1], dir) + if c > 0 then [FileCount(name, c)] else []
  }

  /** Whether the file called `name` exists and its reading fails. */
  predicate ReadFails(name: string, dir: Listing)
  {
    Lookup(dir, name).Some? && Lookup(dir, name).value.content.Unreadable?
  }

  /** The files whose reading failed, in visiting order. */
  function FailedFiles(order: seq<string>, dir: Listing): seq<string>
  {
    if order == [] then []
    else
      var name := order[|order| - 1];
      FailedFiles(order[..|order| - 1], dir) + if ReadFails(name, dir) then [name] else []
  }

  function SumCounts(cs: seq<FileCount>): nat
  {
    if cs == [] then 0 else SumCounts(cs[..|cs| - 1]) + cs[|cs| - 1].matches
  }

  function SumReadable(term: string, order: seq<string>, dir: Listing): nat
  {
    if order == [] then 0
    else SumReadable(term, order[..|order| - 1], dir) + ReadableCount(term, order[|order| - 1], dir)
  }

  /** The summaries name exactly the visited files that exist, read to the
      end and have at least one match, with their match counts, and their
      total is the sum of the match counts of all readable visited files. */
  lemma FileCountsCorrect(term: string, order: seq<string>, dir: Listing)
    ensures var cs := FileCounts(term, order, dir);
      && (forall k :: 0 <= k < |cs| ==>
            cs[k].file in order && cs[k].matches == ReadableCount(term, cs[k].file, dir) > 0)
      && (forall n :: n in order && ReadableCount(term, n, dir) > 0 ==>
            exists k :: 0 <= k < |cs| && cs[k].file == n)
      && SumCounts(cs) == SumReadable(term, order, dir)
  {
    FileCountsSound(term, order, dir);
    FileCountsComplete(term, order, dir);
    FileCountsSum(term, order, dir);
  }

  /** The summaries of `order` are those of all but its last file, then the
      last file's summary if it has matches. */
  lemma FileCountsLast(term: string, order: seq<string>, dir: Listing)
    requires order != []
    ensures var n := |order| - 1;
      var c := ReadableCount(term, order[n], dir);
      FileCounts(term, order, dir) == FileCounts(term, order[..n], dir) + if c > 0 then [FileCount(order[n], c)] else []
  {
  }

  lemma {:induction false} FileCountsSound(term: string, order: seq<string>, dir: Listing)
    ensures var cs := FileCounts(term, order, dir);
      forall k :: 0 <= k < |cs| ==>
        cs[k].file in order && cs[k].matches == ReadableCount(term, cs[k].file, dir) > 0
  {
    if order != [] {
      var n := |order| - 1;
      var init := order[..n];
      FileCountsSound(term, init, dir);
      FileCountsLast(term, order, dir);
      var prev := FileCounts(term, init, dir);
      var cs := FileCounts(term, order, dir);
      forall k | 0 <= k < |cs|
        ensures cs[k].file in order && cs[k].matches == ReadableCount(term, cs[k].file, dir) > 0
      {
        if k < |prev| {
          assert cs[k] == prev[k];
          var j :| 0 <= j < |init| && init[j] == prev[k].file;
          assert order[j] == init[j];
        } else {
          assert cs[k] == FileCount(order[n], ReadableCount(term, order[n], dir));
        }
      }
    }
  }

  lemma {:induction false} FileCountsComplete(term: string, order: seq<string>, dir: Listing)
    ensures var cs := FileCounts(term, order, dir);
      forall n :: n in order && ReadableCount(term, n, dir) > 0 ==>
        exists k :: 0 <= k < |cs| && cs[k].file == n
  {
    if order != [] {
      var last := |order| - 1;
      var init := order[..last];
      FileCountsComplete(term, init, dir);
      FileCountsLast(term, order, dir);
      var prev := FileCounts(term, init, dir);
      var cs := FileCounts(term, order, dir);
      forall n | n in order && ReadableCount(term, n, dir) > 0
        ensures exists k :: 0 <= k < |cs| && cs[k].file == n
      {
        if n == order[last] {
          assert cs[|cs| - 1].file == n;
        } else {
          var j :| 0 <= j < |order| && order[j] == n;
          assert j < last && init[j] == n;
          var k :| 0 <= k < |prev| && prev[k].file == n;
          assert cs[k] == prev[k];
        }
      }
    }
  }

  lemma {:induction false} FileCountsSum(term: string, order: seq<string>, dir: Listing)
    ensures SumCounts(FileCounts(term, order, dir)) == SumReadable(term, order, dir)
  {
    if order != [] {
      var n := |order| - 1;
      FileCountsSum(term, order[..n], dir);
      FileCountsLast(term, order, dir);
      var c := ReadableCount(term, order[n], dir);
      assert SumReadable(term, order, dir) == SumReadable(term, order[..n], dir) + c;
      var prev := FileCounts(term, order[..n], dir);
      if c > 0 {
        SumCountsAppend(prev, FileCount(order[n], c));
      } else {
        assert FileCounts(term, order, dir) == prev + [] == prev;
      }
    }
  }

  /** One more visited file extends each accumulated result by that file's
      part alone. */
  lemma SearchStep(term: string, order: seq<string>, i: nat, dir: Listing)
    requires i < |order|
    ensures AllHits(term, order[..i + 1], dir) == AllHits(term, order[..i], dir) + NameHits(term, order[i], dir)
    ensures FileCounts(term, order[..i + 1], dir) == FileCounts(term, order[..i], dir)
      + if ReadableCount(term, order[i], dir) > 0 then [FileCount(order[i], ReadableCount(term, order[i], dir))] else []
    ensures FailedFiles(order[..i + 1], dir) == FailedFiles(order[..i], dir)
      + if ReadFails(order[i], dir) then [order[i]] else []
  {
    assert order[..i + 1][..i] == order[..i];
  }

  lemma SumCountsAppend(cs: seq<FileCount>, c: FileCount)
    ensures SumCounts(cs + [c]) == SumCounts(cs) + c.matches
  {
    assert (cs + [c])[..|cs|] == cs;
  }

  /** What one visited file contributes, in terms of its lookup. */
  lemma FilePart(term: string, name: string, dir: Listing)
    ensures Lookup(dir, name).None? ==>
      NameHits(term, name, dir) == [] && ReadableCount(term, name, dir) == 0 && !ReadFails(name, dir)
    ensures Lookup(dir, name).Some? ==>
      var f := Lookup(dir, name).value;
      && NameHits(term, name, dir) == Hits(f.name, term, LinesRead(f.content))
      && (ReadFails(name, dir) <==> f.content.Unreadable?)
      && ReadableCount(term, name, dir) == if f.content.Unreadable? then 0 else |NameHits(term, name, dir)|
  {
  }

  /** One pass of the loop: skips a missing file, prints the matches of an
      existing one, and reports whether reading it failed and, if it did
      not, how many lines matched. */
  method VisitFile(term: string, name: string, dir: Listing)
    returns (fileHits: seq<Hit>, readFailed: bool, matches: nat)
    ensures fileHits == NameHits(term, name, dir)
    ensures readFailed == ReadFails(name, dir)
    ensures matches == ReadableCount(term, name, dir)
  {
    FilePart(term, name, dir);
    fileHits, readFailed, matches := [], false, 0;
    var entry := Lookup(dir, name);
    if entry.Some? {
      var f := entry.value;
      var count;
      fileHits, count := SearchFile(term, f);
      if f.content.Unreadable? {
        readFailed := true;
      } else {
        matches := count;
      }
    }
  }

  /** `search_logs(search_term, filename, log_type)`: visits the selected
      files in sorted order. */
  method SearchLogs(term: string, filename: Option<string>, logType: string, dir: Listing)
    returns (hits: seq<Hit>, summaries: seq<FileCount>, failed: seq<string>, total: nat)
    ensures var order := SortStrings(SearchTargets(filename, logType, dir));
      && hits == AllHits(term, order, dir)
      && summaries == FileCounts(term, order, dir)
      && failed == FailedFiles(order, dir)
      && total == SumCounts(summaries)
  {
    hits, summaries, failed, total := VisitFiles(term, SortStrings(SearchTargets(filename, logType, dir)), dir);
  }

  /** The loop of `search_logs` over the files in `order`: missing files are
      skipped, and a file whose reading fails has its matches printed but
      not counted. */
  method VisitFiles(term: string, order: seq<string>, dir: Listing)
    returns (hits: seq<Hit>, summaries: seq<FileCount>, failed: seq<string>, total: nat)
    ensures hits == AllHits(term, order, dir)
    ensures summaries == FileCounts(term, order, dir)
    ensures failed == FailedFiles(order, dir)
    ensures total == SumCounts(summaries)
  {
    hits, summaries, failed, total := [], [], [], 0;
    var i := 0;
    while i < |order|
      invariant 0 <= i <= |order|
      invariant hits == AllHits(term, order[..i], dir)
      invariant summaries == FileCounts(term, order[..i], dir)
      invariant failed == FailedFiles(order[..i], dir)
      invariant total == SumCounts(summaries)
    {
      var name := order[i];
      SearchStep(term, order, i, dir);
      var fileHits, readFailed, matches := VisitFile(term, name, dir);
      hits := hits + fileHits;
      if readFailed {
        failed := failed + [name];
      }
      if matches > 0 {
        SumCountsAppend(summaries, FileCount(name, matches));
        summaries := summaries + [FileCount(name, matches)];
        total := total + matches;
      }
      i := i + 1;
    }
    assert order[..i] == order;
  }

  // ---------------------------------------------------------------------
  // `clean_old_logs`

  const SECONDS_PER_DAY: real := 86400.0

  /** `timedelta` refuses more than 999999999 days either way. */
  const MAX_TIMEDELTA_DAYS: int := 999999999

  /** The range of `datetime`, in seconds from 1970-01-01 00:00 of the
      same (naive, local) clock: from 0001-01-01 00:00 up to, but not
      including, 10000-01-01 00:00. */
  const DATETIME_MIN_SECONDS: real := -62135596800.0
  const DATETIME_END_SECONDS: real := 253402300800.0

  /** `datetime.now() - timedelta(days=days_to_keep)` raises OverflowError:
      the day count is beyond `timedelta`'s range, or the difference falls
      outside `datetime`'s. */
  predicate CutoffOverflows(now: real, daysToKeep: int)
  {
    || daysToKeep > MAX_TIMEDELTA_DAYS || daysToKeep < -MAX_TIMEDELTA_DAYS
    || now - daysToKeep as real * SECONDS_PER_DAY < DATETIME_MIN_SECONDS
    || now - daysToKeep as real * SECONDS_PER_DAY >= DATETIME_END_SECONDS
  }

  /** For the positive counts the clean menu accepts and any time from 1970
      on, the subtraction fails exactly when the cutoff would fall before
      year 1: never for 719162 days (1969 years) or fewer, always from
      3652059 days on, and, at any time before 2100, from 766644 days on. */
  lemma PositiveDaysOverflow(now: real, daysToKeep: int)
    requires 0.0 <= now < DATETIME_END_SECONDS && daysToKeep > 0
    ensures CutoffOverflows(now, daysToKeep) <==>
      now - daysToKeep as real * SECONDS_PER_DAY < DATETIME_MIN_SECONDS
    ensures daysToKeep <= 719162 ==> !CutoffOverflows(now, daysToKeep)
    ensures daysToKeep >= 3652059 ==> CutoffOverflows(now, daysToKeep)
    ensures now < 4102444800.0 && daysToKeep >= 766644 ==> CutoffOverflows(now, daysToKeep)
  {
  }

  /** A rotated, date-suffixed log last modified strictly before the cutoff. */
  predicate Expired(f: LogFile, cutoff: real)
  {
    GlobMatch(Dated, f.name) && f.mtime < cutoff
  }

  /** The files removed, in listing order. */
  function Removed(dir: Listing, cutoff: real): seq<LogFile>
  {
    if dir == [] then []
    else
      var f := dir[|dir| - 1];
      Removed(dir[..|dir| - 1], cutoff) + if Expired(f, cutoff) && f.removable then [f] else []
  }

  /** The listing left afterwards. */
  function Kept(dir: Listing, cutoff: real): Listing
  {
    if dir == [] then []
    else
      var f := dir[|dir| - 1];
      Kept(dir[..|dir| - 1], cutoff) + if Expired(f, cutoff) && f.removable then [] else [f]
  }

  /** The expired files whose removal failed. */
  function RemoveFailures(dir: Listing, cutoff: real): seq<string>
  {
    if dir == [] then []
    else
      var f := dir[|dir| - 1];
      RemoveFailures(dir[..|dir| - 1], cutoff) + if Expired(f, cutoff) && !f.removable then [f.name] else []
  }

  function TotalSize(fs: seq<LogFile>): nat
  {
    if fs == [] then 0 else TotalSize(fs[..|fs| - 1]) + fs[|fs| - 1].size
  }

  /** A file is removed exactly when it is an expired dated log whose
      removal succeeds; every other file stays, so the current logs and
      anything modified at or after the cutoff are never removed. */
  lemma {:induction false} RemovedExactly(dir: Listing, cutoff: real)
    ensures forall f :: f in Removed(dir, cutoff) <==> f in dir && Expired(f, cutoff) && f.removable
    ensures forall f :: f in Kept(dir, cutoff) <==> f in dir && !(Expired(f, cutoff) && f.removable)
    ensures |Removed(dir, cutoff)| + |Kept(dir, cutoff)| == |dir|
  {
    if dir != [] {
      var init := dir[..|dir| - 1];
      RemovedExactly(init, cutoff);
      assert dir == init + [dir[|dir| - 1]];
    }
  }

  lemma CurrentLogsKept(dir: Listing, cutoff: real, f: LogFile)
    requires f in dir && Classify(f.name) in {Current, EmailCurrent, StreamCurrent}
    ensures f in Kept(dir, cutoff) && f !in Removed(dir, cutoff)
  {
    RemovedExactly(dir, cutoff);
    DatedPatternSelectsRotatedLogs("x", "0000-00-00");
  }

  /** Cleaning one more file extends each result by that file's part. */
  lemma CleanStep(dir: Listing, i: nat, cutoff: real)
    requires i < |dir|
    ensures var f := dir[i];
      && Removed(dir[..i + 1], cutoff) == Removed(dir[..i], cutoff) + (if Expired(f, cutoff) && f.removable then [f] else [])
      && Kept(dir[..i + 1], cutoff) == Kept(dir[..i], cutoff) + (if Expired(f, cutoff) && f.removable then [] else [f])
      && RemoveFailures(dir[..i + 1], cutoff) ==
           RemoveFailures(dir[..i], cutoff) + (if Expired(f, cutoff) && !f.removable then [f.name] else [])
  {
    assert dir[..i + 1][..i] == dir[..i] && dir[..i + 1][i] == dir[i];
  }

  lemma TotalSizeAppend(fs: seq<LogFile>, f: LogFile)
    ensures TotalSize(fs + [f]) == TotalSize(fs) + f.size
  {
    assert (fs + [f])[..|fs|] == fs;
  }

  /** `clean_old_logs(days_to_keep)` at time `now` (seconds): removes the
      expired dated logs and counts only the removals that succeed. When
      computing the cutoff overflows, the OverflowError (which nothing in
      the utility catches) ends it before any file is looked at. */
  method CleanOldLogs(dir: Listing, now: real, daysToKeep: int)
    returns (overflow: bool, cutoff: real, remaining: Listing, removed: seq<LogFile>,
             failures: seq<string>, deletedCount: nat, freedSpace: nat)
    ensures overflow <==> CutoffOverflows(now, daysToKeep)
    ensures overflow ==> remaining == dir && removed == [] && failures == [] && deletedCount == 0
    ensures !overflow ==>
      && cutoff == now - daysToKeep as real * SECONDS_PER_DAY
      && removed == Removed(dir, cutoff) && remaining == Kept(dir, cutoff)
      && failures == RemoveFailures(dir, cutoff)
      && deletedCount == |removed| && freedSpace == TotalSize(removed)
  {
    remaining, removed, failures, deletedCount, freedSpace := dir, [], [], 0, 0;
    if CutoffOverflows(now, daysToKeep) {
      return true, 0.0, remaining, removed, failures, deletedCount, freedSpace;
    }
    overflow := false;
    cutoff := now - daysToKeep as real * SECONDS_PER_DAY;
    remaining := [];
    var i := 0;
    while i < |dir|
      invariant 0 <= i <= |dir|
      invariant removed == Removed(dir[..i], cutoff) && remaining == Kept(dir[..i], cutoff)
      invariant failures == RemoveFailures(dir[..i], cutoff)
      invariant deletedCount == |removed| && freedSpace == TotalSize(removed)
    {
      var f := dir[i];
      CleanStep(dir, i, cutoff);
      if Expired(f, cutoff) {
        if f.removable {
          TotalSizeAppend(removed, f);
          removed := removed + [f];
          deletedCount := deletedCount + 1;
          freedSpace := freedSpace + f.size;
        } else {
          failures := failures + [f.name];
          remaining := remaining + [f];
        }
      } else {
        remaining := remaining + [f];
      }
      i := i + 1;
    }
    assert dir[..i] == dir;
  }
}
