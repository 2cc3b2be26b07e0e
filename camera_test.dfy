/** The FishCam camera test utility: probing camera indices for the first
    one that delivers a frame, reading back a camera's settings, and
    scanning common resolution and frame-rate requests for those the camera
    accepts. OpenCV is an oracle: whether an index opens, whether it yields
    a frame, and what width, height and frame rate the camera reports after
    a request. */
module CameraTest {
  import opened Wrappers
  import opened Numeric
  import opened Strings

  const DEFAULT_MAX_INDEX: int := 3

  /** The index opens and its first read yields a frame. */
  predicate Works(opens: int -> bool, yieldsFrame: int -> bool, i: int)
  {
    opens(i) && yieldsFrame(i)
  }

  /** `find_working_camera(max_index)`: probes indices 0..max_index in
      ascending order and returns the first working one, releasing every
      capture it opened exactly once. */
  method FindWorkingCamera(maxIndex: int, opens: int -> bool, yieldsFrame: int -> bool)
    returns (found: Option<int>, probed: seq<int>, released: seq<int>)
    ensures found.Some? ==>
      && 0 <= found.value <= maxIndex
      && Works(opens, yieldsFrame, found.value)
      && forall j :: 0 <= j < found.value ==> !Works(opens, yieldsFrame, j)
    ensures found.None? <==> forall j :: 0 <= j <= maxIndex ==> !Works(opens, yieldsFrame, j)
    ensures |probed| == if found.Some? then found.value + 1 else if maxIndex < 0 then 0 else maxIndex + 1
    ensures forall k :: 0 <= k < |probed| ==> probed[k] == k
    ensures released == probed
  {
    probed, released := [], [];
    var idx := 0;
    while idx <= maxIndex
      invariant 0 <= idx && (idx <= maxIndex + 1 || idx == 0)
      invariant |probed| == idx && forall k :: 0 <= k < idx ==> probed[k] == k
      invariant released == probed
      invariant forall j :: 0 <= j < idx ==> !Works(opens, yieldsFrame, j)
    {
      probed := probed + [idx];
      if opens(idx) && yieldsFrame(idx) {
        assert Works(opens, yieldsFrame, idx);
        released := released + [idx];
        return Some(idx), probed, released;
      }
      released := released + [idx];
      idx := idx + 1;
    }
    found := None;
  }

  /** The utility's own call `find_working_camera()`: indices 0 to 3 at
      most are probed. */
  method FindDefaultCamera(opens: int -> bool, yieldsFrame: int -> bool)
    returns (found: Option<int>, probed: seq<int>, released: seq<int>)
    ensures 1 <= |probed| <= DEFAULT_MAX_INDEX + 1
    ensures found.Some? ==>
      && 0 <= found.value <= DEFAULT_MAX_INDEX
      && Works(opens, yieldsFrame, found.value)
      && forall j :: 0 <= j < found.value ==> !Works(opens, yieldsFrame, j)
    ensures found.None? <==> forall j :: 0 <= j <= DEFAULT_MAX_INDEX ==> !Works(opens, yieldsFrame, j)
    ensures |probed| == if found.Some? then found.value + 1 else DEFAULT_MAX_INDEX + 1
    ensures forall k :: 0 <= k < |probed| ==> probed[k] == k
    ensures released == probed
  {
    found, probed, released := FindWorkingCamera(DEFAULT_MAX_INDEX, opens, yieldsFrame);
  }

  /** What the camera reports after a width, height and frame-rate request. */
  datatype Report = Report(width: real, height: real, fps: real)

  /** The camera's reports: the settings in effect after the given request. */
  type Camera = (int, int, int) -> Report

  /** The settings `print_camera_info` shows. */
  datatype Info = Info(width: int, height: int, fps: real)

  /** `print_camera_info`: nothing when the camera cannot be opened;
      otherwise the settings reported after asking for 800x600 at 20 fps,
      with width and height truncated. */
  function CameraInfo(opens: bool, camera: Camera): (r: Option<Info>)
    ensures r.None? <==> !opens
    ensures r.Some? ==>
      && r.value.width == Trunc(camera(800, 600, 20).width)
      && r.value.height == Trunc(camera(800, 600, 20).height)
      && r.value.fps == camera(800, 600, 20).fps
  {
    if !opens then None
    else
      var rep := camera(800, 600, 20);
      Some(Info(Trunc(rep.width), Trunc(rep.height), rep.fps))
  }

  datatype Resolution = Resolution(width: int, height: int)

  /** One request of the scan. */
  datatype Request = Request(width: int, height: int, fps: int)

  /** A recorded configuration: its "WxH" label and the reported rate. */
  datatype Config = Config(name: string, fps: real)

  /** A row of the fallback table: the request and what the camera reports. */
  datatype FallbackRow = FallbackRow(width: int, height: int, actualWidth: int, actualHeight: int)

  const COMMON_RESOLUTIONS: seq<Resolution> :=
    [Resolution(320, 240), Resolution(640, 480), Resolution(800, 600), Resolution(1024, 768),
     Resolution(1280, 720), Resolution(1280, 1024), Resolution(1600, 1200), Resolution(1920, 1080)]
  const COMMON_FPS: seq<int> := [5, 10, 15, 20, 24, 25, 30, 60]
  /** How many resolutions the fallback table tries. */
  const FALLBACK_COUNT: int := 4

  /** The requests for resolution `i`, one per rate in order. */
  function RowRequests(i: int): (rs: seq<Request>)
    requires 0 <= i < |COMMON_RESOLUTIONS|
    ensures |rs| == 8
  {
    seq(8, j requires 0 <= j < 8 =>
      Request(COMMON_RESOLUTIONS[i].width, COMMON_RESOLUTIONS[i].height, COMMON_FPS[j]))
  }

  /** The requests for the first `i` resolutions, resolution-major. */
  function RequestsBefore(i: int): (rs: seq<Request>)
    requires 0 <= i <= |COMMON_RESOLUTIONS|
    ensures |rs| == 8 * i
  {
    if i == 0 then [] else RequestsBefore(i - 1) + RowRequests(i - 1)
  }

  /** Every resolution with every rate: the two nested loops of the scan. */
  function Requests(): (rs: seq<Request>)
    ensures |rs| == |COMMON_RESOLUTIONS| * |COMMON_FPS|
  {
    RequestsBefore(|COMMON_RESOLUTIONS|)
  }

  function Label(width: int, height: int): string
  {
    IntToString(width) + "x" + IntToString(height)
  }

  function LabelOf(r: Request): string
  {
    Label(r.width, r.height)
  }

  /** The camera honours the requested resolution (the rate may differ). */
  predicate Accepted(camera: Camera, r: Request)
  {
    Trunc(camera(r.width, r.height, r.fps).width) == r.width
    && Trunc(camera(r.width, r.height, r.fps).height) == r.height
  }

  function ConfigOf(camera: Camera, r: Request): Config
  {
    Config(LabelOf(r), camera(r.width, r.height, r.fps).fps)
  }

  function Labels(cs: seq<Config>): (ls: seq<string>)
    ensures |ls| == |cs| && forall k :: 0 <= k < |cs| ==> ls[k] == cs[k].name
  {
    seq(|cs|, k requires 0 <= k < |cs| => cs[k].name)
  }

  /** The configurations the scan records for the requests in order: an
      accepted request whose label is not yet recorded. */
  function Collect(camera: Camera, rs: seq<Request>): seq<Config>
  {
    if rs == [] then []
    else
      var prev := Collect(camera, rs[..|rs| - 1]);
      var r := rs[|rs| - 1];
      if Accepted(camera, r) && LabelOf(r) !in Labels(prev) then prev + [ConfigOf(camera, r)]
      else prev
  }

  /** Request `r` is accepted and recorded under label `l`. */
  predicate YieldsLabel(camera: Camera, r: Request, l: string)
  {
    Accepted(camera, r) && LabelOf(r) == l
  }

  /** Request `k` is accepted and no earlier accepted request has its label. */
  ghost predicate FirstWithLabel(camera: Camera, rs: seq<Request>, k: int)
  {
    0 <= k < |rs| && Accepted(camera, rs[k])
    && forall j :: 0 <= j < k ==> !YieldsLabel(camera, rs[j], LabelOf(rs[k]))
  }

  /** No two configurations share a label. */
  predicate DistinctNames(cs: seq<Config>)
  {
    forall a, b :: 0 <= a < b < |cs| ==> cs[a].name != cs[b].name
  }

  /** No label is recorded twice. */
  lemma {:induction false} CollectUnique(camera: Camera, rs: seq<Request>)
    ensures DistinctNames(Collect(camera, rs))
  {
    if rs != [] {
      var prev := Collect(camera, rs[..|rs| - 1]);
      CollectUnique(camera, rs[..|rs| - 1]);
      var r := rs[|rs| - 1];
      if Accepted(camera, r) && LabelOf(r) !in Labels(prev) {
        var cs := prev + [ConfigOf(camera, r)];
        forall a, b | 0 <= a < b < |cs| ensures cs[a].name != cs[b].name {
          if b == |prev| {
            assert cs[b].name == LabelOf(r);
            assert cs[a].name == Labels(prev)[a];
            assert Labels(prev)[a] in Labels(prev);
          } else {
            assert cs[a] == prev[a] && cs[b] == prev[b];
          }
        }
        assert Collect(camera, rs) == cs;
      } else {
        assert Collect(camera, rs) == prev;
      }
    }
  }

  /** The requests that are accepted with label `l`. */
  ghost function HasLabel(camera: Camera, l: string): Request -> bool
  {
    r => YieldsLabel(camera, r, l)
  }

  /** Some request of `rs` satisfies `p`, stated by recursion on the last
      request as `Collect` is. */
  ghost predicate SomeRequest(p: Request -> bool, rs: seq<Request>)
  {
    rs != [] && (SomeRequest(p, rs[..|rs| - 1]) || p(rs[|rs| - 1]))
  }

  /** The recursive statement agrees with picking a request. */
  lemma SomeRequestAt(p: Request -> bool, rs: seq<Request>)
    ensures SomeRequest(p, rs) <==> exists k :: 0 <= k < |rs| && p(rs[k])
  {
    if SomeRequest(p, rs) {
      SomeRequestFound(p, rs);
    }
    if exists k :: 0 <= k < |rs| && p(rs[k]) {
      var k :| 0 <= k < |rs| && p(rs[k]);
      SomeRequestFrom(p, rs, k);
    }
  }

  lemma {:induction false} SomeRequestFound(p: Request -> bool, rs: seq<Request>)
    requires SomeRequest(p, rs)
    ensures exists k :: 0 <= k < |rs| && p(rs[k])
  {
    var n := |rs| - 1;
    if SomeRequest(p, rs[..n]) {
      SomeRequestFound(p, rs[..n]);
      var k :| 0 <= k < n && p(rs[..n][k]);
      assert rs[..n][k] == rs[k];
    } else {
      assert p(rs[n]);
    }
  }

  lemma {:induction false} SomeRequestFrom(p: Request -> bool, rs: seq<Request>, k: int)
    requires 0 <= k < |rs| && p(rs[k])
    ensures SomeRequest(p, rs)
  {
    var n := |rs| - 1;
    if k < n {
      assert rs[..n][k] == rs[k];
      SomeRequestFrom(p, rs[..n], k);
    }
  }

  /** The recorded labels are exactly the labels of the accepted requests. */
  lemma {:induction false} CollectLabels(camera: Camera, rs: seq<Request>, l: string)
    ensures l in Labels(Collect(camera, rs)) <==> exists k :: 0 <= k < |rs| && YieldsLabel(camera, rs[k], l)
  {
    var p := HasLabel(camera, l);
    CollectHasLabel(camera, rs, l);
    SomeRequestAt(p, rs);
    assert forall k :: 0 <= k < |rs| ==> (p(rs[k]) <==> YieldsLabel(camera, rs[k], l));
  }

  lemma {:induction false} CollectHasLabel(camera: Camera, rs: seq<Request>, l: string)
    ensures l in Labels(Collect(camera, rs)) <==> SomeRequest(HasLabel(camera, l), rs)
  {
    if rs != [] {
      var n := |rs| - 1;
      var r := rs[n];
      var prev := Collect(camera, rs[..n]);
      CollectHasLabel(camera, rs[..n], l);
      assert HasLabel(camera, l)(r) == YieldsLabel(camera, r, l);
      if Accepted(camera, r) && LabelOf(r) !in Labels(prev) {
        assert Labels(prev + [ConfigOf(camera, r)]) == Labels(prev) + [LabelOf(r)];
      }
    }
  }

  /** Each recorded configuration is that of the first accepted request
      with its label, so the first rate seen is the one kept. */
  lemma {:induction false} CollectSound(camera: Camera, rs: seq<Request>, c: Config)
    requires c in Collect(camera, rs)
    ensures exists k :: FirstWithLabel(camera, rs, k) && c == ConfigOf(camera, rs[k])
  {
    var n := |rs| - 1;
    if c in Collect(camera, rs[..n]) {
      CollectSound(camera, rs[..n], c);
      var k :| FirstWithLabel(camera, rs[..n], k) && c == ConfigOf(camera, rs[..n][k]);
      FirstWithLabelPrefix(camera, rs, k, n);
    } else {
      CollectLast(camera, rs, c);
    }
  }

  /** A configuration recorded by the last request is that request's, and
      the request is the first accepted one with its label. */
  lemma CollectLast(camera: Camera, rs: seq<Request>, c: Config)
    requires rs != [] && c in Collect(camera, rs) && c !in Collect(camera, rs[..|rs| - 1])
    ensures FirstWithLabel(camera, rs, |rs| - 1) && c == ConfigOf(camera, rs[|rs| - 1])
  {
    FirstIffNew(camera, rs);
  }

  /** The last request is the first accepted one with its label exactly when
      it is accepted and its label is not among those recorded before it. */
  lemma FirstIffNew(camera: Camera, rs: seq<Request>)
    requires rs != []
    ensures FirstWithLabel(camera, rs, |rs| - 1) <==>
      Accepted(camera, rs[|rs| - 1]) && LabelOf(rs[|rs| - 1]) !in Labels(Collect(camera, rs[..|rs| - 1]))
  {
    var n := |rs| - 1;
    var init := rs[..n];
    CollectLabels(camera, init, LabelOf(rs[n]));
    assert forall j :: 0 <= j < n ==> init[j] == rs[j];
  }

  /** Every first accepted request with a given label is recorded. */
  lemma {:induction false} CollectComplete(camera: Camera, rs: seq<Request>, k: int)
    requires FirstWithLabel(camera, rs, k)
    ensures ConfigOf(camera, rs[k]) in Collect(camera, rs)
  {
    var n := |rs| - 1;
    if k < n {
      FirstWithLabelPrefix(camera, rs, k, n);
      CollectComplete(camera, rs[..n], k);
      CollectKeeps(camera, rs, ConfigOf(camera, rs[k]));
    } else {
      CollectNewLabel(camera, rs);
    }
  }

  /** Being first with a label depends only on the requests up to it. */
  lemma FirstWithLabelPrefix(camera: Camera, rs: seq<Request>, k: int, m: int)
    requires 0 <= k < m <= |rs|
    ensures (FirstWithLabel(camera, rs[..m], k) <==> FirstWithLabel(camera, rs, k)) && rs[..m][k] == rs[k]
  {
    assert forall j :: 0 <= j <= k ==> rs[..m][j] == rs[j];
  }

  /** What is recorded for a prefix stays recorded. */
  lemma CollectKeeps(camera: Camera, rs: seq<Request>, c: Config)
    requires rs != [] && c in Collect(camera, rs[..|rs| - 1])
    ensures c in Collect(camera, rs)
  {
  }

  /** A request accepted with a label no earlier accepted request has is
      recorded. */
  lemma CollectNewLabel(camera: Camera, rs: seq<Request>)
    requires FirstWithLabel(camera, rs, |rs| - 1)
    ensures ConfigOf(camera, rs[|rs| - 1]) in Collect(camera, rs)
  {
    FirstIffNew(camera, rs);
  }

  /** Among the requests for the first `n` resolutions, the one at
      position `8 * i + j` is request `j` of resolution `i`. */
  lemma {:induction false} RequestsBeforeAt(n: int, i: int, j: int)
    requires 0 <= i < n <= |COMMON_RESOLUTIONS| && 0 <= j < 8
    ensures RequestsBefore(n)[8 * i + j] == RowRequests(i)[j]
  {
    var k := 8 * i + j;
    var prefix := RequestsBefore(n - 1);
    var row := RowRequests(n - 1);
    assert RequestsBefore(n) == prefix + row && |prefix| == 8 * (n - 1);
    if i < n - 1 {
      RequestsBeforeAt(n - 1, i, j);
      assert (prefix + row)[k] == prefix[k];
    } else {
      assert (prefix + row)[k] == row[j];
    }
  }

  /** The request at position `8 * i + j` is resolution `i` at rate `j`. */
  lemma RequestAt(i: int, j: int)
    requires 0 <= i < |COMMON_RESOLUTIONS| && 0 <= j < |COMMON_FPS|
    ensures Requests()[8 * i + j] ==
      Request(COMMON_RESOLUTIONS[i].width, COMMON_RESOLUTIONS[i].height, COMMON_FPS[j])
  {
    RequestsBeforeAt(|COMMON_RESOLUTIONS|, i, j);
  }

  /** Collecting one more request at the end. */
  lemma CollectAppend(camera: Camera, rs: seq<Request>, r: Request)
    ensures Collect(camera, rs + [r]) ==
      var prev := Collect(camera, rs);
      if Accepted(camera, r) && LabelOf(r) !in Labels(prev) then prev + [ConfigOf(camera, r)]
      else prev
  {
    assert (rs + [r])[..|rs|] == rs;
  }

  /** The fallback row for resolution `k`: its request, and what the camera
      reports with the rate left at the last one the scan set. */
  function FallbackRowFor(camera: Camera, k: int): FallbackRow
    requires 0 <= k < |COMMON_RESOLUTIONS|
  {
    var res := COMMON_RESOLUTIONS[k];
    var rep := camera(res.width, res.height, COMMON_FPS[|COMMON_FPS| - 1]);
    FallbackRow(res.width, res.height, Trunc(rep.width), Trunc(rep.height))
  }

  /** Trying rate `j` at resolution `i`: the configuration is recorded
      when the camera honours the resolution and its label is new. */
  method TryRate(camera: Camera, i: int, j: int, configs: seq<Config>) returns (configs': seq<Config>)
    requires 0 <= i < |COMMON_RESOLUTIONS| && 0 <= j < |COMMON_FPS|
    requires configs == Collect(camera, RequestsBefore(i) + RowRequests(i)[..j])
    ensures configs' == Collect(camera, RequestsBefore(i) + RowRequests(i)[..j + 1])
  {
    var res := COMMON_RESOLUTIONS[i];
    var r := RowRequests(i)[j];
    RowStep(camera, i, j);
    var rep := camera(res.width, res.height, COMMON_FPS[j]);
    var name := Label(res.width, res.height);
    assert r == Request(res.width, res.height, COMMON_FPS[j]) && name == LabelOf(r);
    assert Accepted(camera, r) <==> Trunc(rep.width) == res.width && Trunc(rep.height) == res.height;
    configs' := configs;
    if Trunc(rep.width) == res.width && Trunc(rep.height) == res.height {
      if name !in Labels(configs) {
        configs' := configs + [Config(name, rep.fps)];
      }
    }
  }

  /** The requests up to rate `j` of resolution `i`, one more at a time. */
  lemma RowStep(camera: Camera, i: int, j: int)
    requires 0 <= i < |COMMON_RESOLUTIONS| && 0 <= j < |COMMON_FPS|
    ensures var r := RowRequests(i)[j];
      var prev := Collect(camera, RequestsBefore(i) + RowRequests(i)[..j]);
      Collect(camera, RequestsBefore(i) + RowRequests(i)[..j + 1]) ==
        if Accepted(camera, r) && LabelOf(r) !in Labels(prev) then prev + [ConfigOf(camera, r)] else prev
  {
    var row := RowRequests(i);
    PrefixStep(RequestsBefore(i), row, j);
    CollectAppend(camera, RequestsBefore(i) + row[..j], row[j]);
  }

  lemma PrefixStep<T>(front: seq<T>, row: seq<T>, j: int)
    requires 0 <= j < |row|
    ensures front + row[..j + 1] == (front + row[..j]) + [row[j]]
  {
    assert row[..j + 1] == row[..j] + [row[j]];
  }

  /** The rates tried for resolution `i`, recording the accepted ones whose
      label is new. */
  method ScanResolution(camera: Camera, i: int, configs: seq<Config>) returns (configs': seq<Config>)
    requires 0 <= i < |COMMON_RESOLUTIONS|
    requires configs == Collect(camera, RequestsBefore(i))
    ensures configs' == Collect(camera, RequestsBefore(i + 1))
  {
    configs' := configs;
    var j := 0;
    assert RequestsBefore(i) + RowRequests(i)[..0] == RequestsBefore(i);
    while j < |COMMON_FPS|
      invariant 0 <= j <= |COMMON_FPS|
      invariant configs' == Collect(camera, RequestsBefore(i) + RowRequests(i)[..j])
    {
      configs' := TryRate(camera, i, j, configs');
      j := j + 1;
    }
    assert RowRequests(i)[..|COMMON_FPS|] == RowRequests(i);
  }

  /** The table shown when nothing matched: the first four resolutions,
      with the rate left at 60. */
  method FallbackTable(camera: Camera) returns (rows: seq<FallbackRow>)
    ensures |rows| == FALLBACK_COUNT
    ensures forall k :: 0 <= k < FALLBACK_COUNT ==> rows[k] == FallbackRowFor(camera, k)
  {
    rows := [];
    var k := 0;
    while k < FALLBACK_COUNT
      invariant 0 <= k <= FALLBACK_COUNT && |rows| == k
      invariant forall m :: 0 <= m < k ==> rows[m] == FallbackRowFor(camera, m)
    {
      var res := COMMON_RESOLUTIONS[k];
      var rep := camera(res.width, res.height, 60);
      rows := rows + [FallbackRow(res.width, res.height, Trunc(rep.width), Trunc(rep.height))];
      k := k + 1;
    }
  }

  /** `scan_supported_resolutions_and_fps`: nothing when the camera cannot
      be opened; otherwise the configurations collected over all requests,
      and only when none was collected, the fallback table. The capture is
      released only on the path that opened it. */
  method ScanSupportedResolutions(opens: bool, camera: Camera)
    returns (configs: seq<Config>, fallback: seq<FallbackRow>, released: bool)
    ensures !opens ==> configs == [] && fallback == [] && !released
    ensures opens ==> released && configs == Collect(camera, Requests())
    ensures fallback != [] ==> opens && configs == []
    ensures opens && configs == [] ==>
      |fallback| == FALLBACK_COUNT && forall k :: 0 <= k < FALLBACK_COUNT ==> fallback[k] == FallbackRowFor(camera, k)
  {
    configs, fallback, released := [], [], false;
    if !opens {
      return;
    }
    var i := 0;
    while i < |COMMON_RESOLUTIONS|
      invariant 0 <= i <= |COMMON_RESOLUTIONS|
      invariant configs == Collect(camera, RequestsBefore(i))
    {
      configs := ScanResolution(camera, i, configs);
      i := i + 1;
    }
    if configs == [] {
      fallback := FallbackTable(camera);
    }
    released := true;
  }
}
