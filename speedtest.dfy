/** The averaging and scheduling arithmetic of the FishCam speed-test
    logger. The Speedtest library is an oracle: the best-server lookup
    either fails or yields the server's attributes, and each of the runs
    either fails or yields raw download and upload rates (bits per second)
    and a ping time. Sleeping is counted, not performed. */
module SpeedtestLogger {
  import opened Wrappers
  import opened Numeric

  const TEST_INTERVAL_MINUTES: int := 60
  const NUM_RUNS_TO_AVERAGE: int := 3
  const BITS_PER_MEGABIT: real := 1000000.0

  /** What one successful measurement reports. */
  datatype RawRun = RawRun(downloadBps: real, uploadBps: real, pingMs: real)

  /** The dictionary `run_single_test` returns (its time stamp left out). */
  datatype TestResult = TestResult(download: real, upload: real, ping: real)

  /** The dictionary `run_averaged_test` returns (its time stamp left out). */
  datatype AveragedResult = AveragedResult(download: real, upload: real, ping: real,
                                           server: string, numTests: int)

  /** Bits per second to megabits per second. */
  function ToMbps(bps: real): (mbps: real)
    ensures mbps * BITS_PER_MEGABIT == bps
    ensures bps >= 0.0 ==> 0.0 <= mbps <= bps
  {
    bps / BITS_PER_MEGABIT
  }

  /** `run_single_test`: a failed measurement gives `None`. */
  function SingleTest(run: Option<RawRun>): (r: Option<TestResult>)
    ensures r.Some? <==> run.Some?
    ensures r.Some? ==>
      && r.value.download * BITS_PER_MEGABIT == run.value.downloadBps
      && r.value.upload * BITS_PER_MEGABIT == run.value.uploadBps
      && r.value.ping == run.value.pingMs
  {
    match run
    case None => None
    case Some(RawRun(d, u, p)) => Some(TestResult(ToMbps(d), ToMbps(u), p))
  }

  /** `server.get(key, "Unknown")`. */
  function Attribute(server: map<string, string>, key: string): string
  {
    if key in server then server[key] else "Unknown"
  }

  /** The "sponsor - name, cc" label of the chosen server. */
  function ServerLabel(server: map<string, string>): string
  {
    Attribute(server, "sponsor") + " - " + Attribute(server, "name") + ", " + Attribute(server, "cc")
  }

  /** The results of the successful runs, in run order. */
  function Successes(runs: seq<Option<RawRun>>): (rs: seq<TestResult>)
    ensures |rs| <= |runs|
  {
    if runs == [] then []
    else
      var prev := Successes(runs[..|runs| - 1]);
      match SingleTest(runs[|runs| - 1])
      case None => prev
      case Some(r) => prev + [r]
  }

  /** Every successful run contributes one result and failed runs none:
      the successes are exactly the converted outcomes of the runs that did
      not fail. */
  lemma {:induction false} SuccessesCount(runs: seq<Option<RawRun>>)
    ensures |Successes(runs)| == |set k | 0 <= k < |runs| && runs[k].Some?|
    ensures Successes(runs) == [] <==> forall k :: 0 <= k < |runs| ==> runs[k].None?
  {
    if runs != [] {
      var init := runs[..|runs| - 1];
      SuccessesCount(init);
      var before := set k | 0 <= k < |init| && init[k].Some?;
      var all := set k | 0 <= k < |runs| && runs[k].Some?;
      assert forall k :: 0 <= k < |init| ==> init[k] == runs[k];
      if runs[|runs| - 1].Some? {
        assert all == before + {|runs| - 1};
      } else {
        assert all == before;
      }
    }
  }

  function Downloads(rs: seq<TestResult>): seq<real>
  {
    seq(|rs|, k requires 0 <= k < |rs| => rs[k].download)
  }

  function Uploads(rs: seq<TestResult>): seq<real>
  {
    seq(|rs|, k requires 0 <= k < |rs| => rs[k].upload)
  }

  function Pings(rs: seq<TestResult>): seq<real>
  {
    seq(|rs|, k requires 0 <= k < |rs| => rs[k].ping)
  }

  /** Index of the first run whose `Speedtest(secure=True)` construction
      fails (the library fetches its configuration when built), or the
      number of runs when none does. */
  function FirstRefused(constructs: seq<bool>): (k: nat)
    ensures k <= |constructs|
    ensures forall j :: 0 <= j < k ==> constructs[j]
    ensures k < |constructs| ==> !constructs[k]
  {
    if constructs == [] then 0
    else if !constructs[0] then 0
    else 1 + FirstRefused(constructs[1..])
  }

  /** `run_averaged_test`: gives up without testing when no server can be
      chosen; otherwise runs the tests with a pause between consecutive
      ones, skips the failed runs and averages the rest. `constructs` says
      whether the fresh Speedtest client for each run could be built and
      `runs` holds the outcome of each run. Building the client happens
      outside `run_single_test`'s try, so a failure there ends the whole
      call with an exception (`aborted`) that nothing in the logger
      catches. */
  method RunAveragedTest(server: Option<map<string, string>>, constructs: seq<bool>,
                         runs: seq<Option<RawRun>>)
    returns (aborted: bool, result: Option<AveragedResult>, results: seq<TestResult>,
             testsRun: nat, pauses: nat)
    requires |runs| == NUM_RUNS_TO_AVERAGE && |constructs| == NUM_RUNS_TO_AVERAGE
    ensures server.None? ==>
      !aborted && result == None && testsRun == 0 && pauses == 0 && results == []
    ensures server.Some? ==>
      && (aborted <==> FirstRefused(constructs) < NUM_RUNS_TO_AVERAGE)
      && testsRun == FirstRefused(constructs)
      && results == Successes(runs[..testsRun])
      && pauses == if aborted then testsRun else NUM_RUNS_TO_AVERAGE - 1
    ensures result.Some? <==> server.Some? && !aborted && Successes(runs) != []
    ensures result.Some? ==>
      && result.value.numTests == |results| && 1 <= result.value.numTests <= NUM_RUNS_TO_AVERAGE
      && result.value.download == Mean(Downloads(results))
      && result.value.upload == Mean(Uploads(results))
      && result.value.ping == Mean(Pings(results))
      && result.value.server == ServerLabel(server.value)
  {
    aborted, testsRun, pauses, results := false, 0, 0, [];
    if server.None? {
      return false, None, results, testsRun, pauses;
    }
    var i := 0;
    while i < NUM_RUNS_TO_AVERAGE
      invariant 0 <= i <= NUM_RUNS_TO_AVERAGE
      invariant forall j :: 0 <= j < i ==> constructs[j]
      invariant results == Successes(runs[..i])
      invariant testsRun == i
      invariant pauses == if i < NUM_RUNS_TO_AVERAGE then i else NUM_RUNS_TO_AVERAGE - 1
    {
      if !constructs[i] {
        return true, None, results, testsRun, pauses;
      }
      assert runs[..i + 1][..i] == runs[..i];
      var r := SingleTest(runs[i]);
      testsRun := testsRun + 1;
      if r.Some? {
        results := results + [r.value];
      }
      if i < NUM_RUNS_TO_AVERAGE - 1 {
        pauses := pauses + 1;
      }
      i := i + 1;
    }
    assert runs[..i] == runs;
    if results == [] {
      return false, None, results, testsRun, pauses;
    }
    result := Some(AveragedResult(Mean(Downloads(results)), Mean(Uploads(results)),
                                  Mean(Pings(results)), ServerLabel(server.value), |results|));
  }

  /** The runs as `run_single_test` would see them if building the client
      were inside its try: a client that cannot be built is a failed run. */
  function GuardedRuns(constructs: seq<bool>, runs: seq<Option<RawRun>>): (g: seq<Option<RawRun>>)
    requires |constructs| == |runs|
    ensures |g| == |runs|
    ensures forall k :: 0 <= k < |g| ==> (g[k].Some? <==> constructs[k] && runs[k].Some?)
  {
    seq(|runs|, k requires 0 <= k < |runs| => if constructs[k] then runs[k] else None)
  }

  /** The averaging with the client built inside the per-run guard: it is
      never aborted, all runs are made, and a result exists exactly when
      some run had its client built and succeeded. */
  method RunAveragedTestGuarded(server: Option<map<string, string>>, constructs: seq<bool>,
                                runs: seq<Option<RawRun>>)
    returns (result: Option<AveragedResult>, results: seq<TestResult>, testsRun: nat, pauses: nat)
    requires |runs| == NUM_RUNS_TO_AVERAGE && |constructs| == NUM_RUNS_TO_AVERAGE
    ensures server.Some? ==> testsRun == NUM_RUNS_TO_AVERAGE && pauses == NUM_RUNS_TO_AVERAGE - 1
    ensures server.Some? ==> results == Successes(GuardedRuns(constructs, runs))
    ensures result.Some? <==>
      server.Some? && exists k :: 0 <= k < NUM_RUNS_TO_AVERAGE && constructs[k] && runs[k].Some?
    ensures result.Some? ==>
      && result.value.numTests == |results| && 1 <= result.value.numTests <= NUM_RUNS_TO_AVERAGE
      && result.value.download == Mean(Downloads(results))
      && result.value.upload == Mean(Uploads(results))
      && result.value.ping == Mean(Pings(results))
  {
    var guarded := GuardedRuns(constructs, runs);
    var built := seq(NUM_RUNS_TO_AVERAGE, _ => true);
    assert FirstRefused(built) == NUM_RUNS_TO_AVERAGE;
    SuccessesCount(guarded);
    assert guarded[..NUM_RUNS_TO_AVERAGE] == guarded;
    var aborted;
    aborted, result, results, testsRun, pauses := RunAveragedTest(server, built, guarded);
  }

  /** A network outage while the first client is built: as written, no test
      is made and the call aborts although the later runs would succeed;
      with the guard, those later runs are still averaged. */
  lemma OutageAtFirstClient(runs: seq<Option<RawRun>>)
    requires |runs| == NUM_RUNS_TO_AVERAGE && runs[1].Some?
    ensures FirstRefused([false, true, true]) == 0
    ensures Successes(GuardedRuns([false, true, true], runs)) != []
  {
    var g := GuardedRuns([false, true, true], runs);
    SuccessesCount(g);
    assert g[1].Some?;
  }

  /** Each averaged metric lies between the smallest and the largest value
      the successful runs measured. */
  lemma AveragesWithinRuns(rs: seq<TestResult>)
    requires |rs| > 0
    ensures exists i, j ::
      0 <= i < |rs| && 0 <= j < |rs| && rs[i].download <= Mean(Downloads(rs)) <= rs[j].download
    ensures exists i, j ::
      0 <= i < |rs| && 0 <= j < |rs| && rs[i].upload <= Mean(Uploads(rs)) <= rs[j].upload
    ensures exists i, j ::
      0 <= i < |rs| && 0 <= j < |rs| && rs[i].ping <= Mean(Pings(rs)) <= rs[j].ping
  {
    MeanBetweenExtremes(Downloads(rs));
    MeanBetweenExtremes(Uploads(rs));
    MeanBetweenExtremes(Pings(rs));
    var i, j :| 0 <= i < |rs| && 0 <= j < |rs| && Downloads(rs)[i] <= Mean(Downloads(rs)) <= Downloads(rs)[j];
    assert rs[i].download <= Mean(Downloads(rs)) <= rs[j].download;
    var i', j' :| 0 <= i' < |rs| && 0 <= j' < |rs| && Uploads(rs)[i'] <= Mean(Uploads(rs)) <= Uploads(rs)[j'];
    assert rs[i'].upload <= Mean(Uploads(rs)) <= rs[j'].upload;
    var i'', j'' :| 0 <= i'' < |rs| && 0 <= j'' < |rs| && Pings(rs)[i''] <= Mean(Pings(rs)) <= Pings(rs)[j''];
    assert rs[i''].ping <= Mean(Pings(rs)) <= rs[j''].ping;
  }

  // ---------------------------------------------------------------------
  // The next-run time printed by `scheduled_test`

  /** A wall-clock minute: a day number, an hour and a minute. */
  datatype Stamp = Stamp(day: int, hour: int, minute: int)

  predicate ValidStamp(t: Stamp)
  {
    0 <= t.hour < 24 && 0 <= t.minute < 60
  }

  /** Minutes since the start of day 0. */
  function Minutes(t: Stamp): int
  {
    (t.day * 24 + t.hour) * 60 + t.minute
  }

  /** The minute field `scheduled_test` computes:
      `(minute // interval + 1) * interval % 60`. */
  function NextMinute(minute: int): int
  {
    (minute / TEST_INTERVAL_MINUTES + 1) * TEST_INTERVAL_MINUTES % 60
  }

  /** The next-run computation as written: `replace(hour=hour + 1)` when the
      minute wraps to 0, which `datetime` refuses for hour 24. */
  function NextRunAsWritten(now: Stamp): (r: Result<Stamp, string>)
    requires ValidStamp(now)
    ensures r.Ok? <==> now.hour < 23
    ensures r.Ok? ==> r.value == Stamp(now.day, now.hour + 1, 0)
  {
    var m := NextMinute(now.minute);
    if m == 0 then
      if now.hour + 1 <= 23 then Ok(Stamp(now.day, now.hour + 1, 0))
      else Err("hour must be in 0..23")
    else Ok(Stamp(now.day, now.hour, m))
  }

  /** The evidently intended next run: the start of the next hour, rolling
      over to the next day after 23:xx. */
  function NextRun(now: Stamp): (r: Stamp)
    requires ValidStamp(now)
    ensures ValidStamp(r) && r.minute == 0
    ensures Minutes(r) == Minutes(now) + (60 - now.minute)
    ensures now.hour < 23 ==> NextRunAsWritten(now) == Ok(r)
  {
    if NextMinute(now.minute) == 0 then
      if now.hour < 23 then Stamp(now.day, now.hour + 1, 0) else Stamp(now.day + 1, 0, 0)
    else Stamp(now.day, now.hour, NextMinute(now.minute))
  }
}
