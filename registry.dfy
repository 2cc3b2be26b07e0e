/** The application's relay registry (`_media_relay` in `main_app.py`):
    one started relay per upstream URL, created on first use, the caching
    variant for the wireless camera's host, and torn down at exit. Each
    method runs as one critical section of `_relay_lock`. */
module RelayRegistry {
  import opened Wrappers
  import opened Strings
  import opened RelayInterface

  const DEFAULT_STREAM_HOST := "172.16.1.200"
  const DEFAULT_STREAM_PORT := 8000
  const DEFAULT_STREAM_PATH := "/stream.mjpg"
  const WIRELESS_CACHE_DURATION: real := 15.0
  const WIRELESS_SERVE_DELAY: real := 2.0

  /** `f"http://{host}:{port}{path}"`. */
  function StreamUrl(host: string, port: int, path: string): string
  {
    "http://" + host + ":" + IntToString(port) + path
  }

  /** The upstream URL can be taken apart again: it is `http://`, the host,
      a colon, the port's decimal text and the path, in that order. */
  lemma StreamUrlParts(host: string, port: int, path: string)
    ensures var url := StreamUrl(host, port, path);
      var p := 7 + |host| + 1;
      |url| == p + |IntToString(port)| + |path|
      && url[..7] == "http://" && url[7..7 + |host|] == host && url[7 + |host|] == ':'
      && ParseInt(url[p..|url| - |path|]) == Some(port)
      && url[|url| - |path|..] == path
  {
    var digits := IntToString(port);
    var front := "http://" + host + ":";
    var url := front + digits + path;
    assert url == StreamUrl(host, port, path);
    assert |front| == 7 + |host| + 1;
    assert url[..|front|] == front;
    assert front[..7] == "http://" && front[7..7 + |host|] == host && front[7 + |host|] == ':';
    assert url[|front|..|url| - |path|] == digits;
    assert url[|url| - |path|..] == path;
    ParseIntOfString(port);
  }

  /** The relay class chosen for a URL: cached when the URL names the
      wireless camera's host anywhere, plain otherwise. */
  function KindFor(url: string): (k: RelayKind)
    ensures k.Cached? <==> exists i :: OccursAt(url, DEFAULT_STREAM_HOST, i)
    ensures k.Cached? ==> k == Cached(WIRELESS_CACHE_DURATION, WIRELESS_SERVE_DELAY)
  {
    if Contains(url, DEFAULT_STREAM_HOST) then
      Cached(WIRELESS_CACHE_DURATION, WIRELESS_SERVE_DELAY)
    else
      Plain
  }

  /** The page's default stream goes through a caching relay with a 15 s
      window and a 2 s serve delay. */
  lemma DefaultStreamIsCached()
    ensures KindFor(StreamUrl(DEFAULT_STREAM_HOST, DEFAULT_STREAM_PORT, DEFAULT_STREAM_PATH))
      == Cached(15.0, 2.0)
  {
    var url := StreamUrl(DEFAULT_STREAM_HOST, DEFAULT_STREAM_PORT, DEFAULT_STREAM_PATH);
    assert url[7..7 + |DEFAULT_STREAM_HOST|] == DEFAULT_STREAM_HOST;
    assert OccursAt(url, DEFAULT_STREAM_HOST, 7);
  }

  /** What `relay_status` reports about one relay. */
  datatype RelaySummary = RelaySummary(
    running: bool, connectedClients: nat, contentType: string, hasLastFrame: bool)

  /** The `relay_status` document: the number of relays and one summary
      per upstream URL. */
  datatype StatusReport = StatusReport(activeRelays: nat, relays: map<string, RelaySummary>)

  class Registry {
    var relays: map<string, Relay>

    /** Every stored relay serves the URL it is stored under, was built
        with that URL's relay class, and has been started; no relay is
        stored under two URLs. */
    ghost predicate Valid()
      reads this, relays.Values
    {
      && (forall u :: u in relays ==>
            relays[u].upstreamUrl == u && relays[u].kind == KindFor(u)
            && relays[u].startCalls >= 1 && relays[u].Valid())
      && (forall u, v :: u in relays && v in relays && u != v ==> relays[u] != relays[v])
    }

    constructor ()
      ensures Valid() && relays == map[]
    {
      relays := map[];
    }

    /** `get_media_relay(url)`: returns the relay stored for `url`, or builds,
        starts and stores a new one when there is none. */
    method GetMediaRelay(url: string) returns (relay: Relay)
      requires Valid()
      modifies this
      ensures Valid()
      ensures url in relays && relay == relays[url]
      ensures url in old(relays) ==> relays == old(relays) && relay == old(relays[url])
      ensures url !in old(relays) ==>
        && fresh(relay) && relays == old(relays)[url := relay]
        && relay.kind == KindFor(url) && relay.running && relay.startCalls == 1
        && relay.stopCalls == 0 && relay.clients == {} && relay.removed == []
    {
      if url !in relays {
        relay := new Relay(url, KindFor(url));
        relay.Start();
        relays := relays[url := relay];
      }
      relay := relays[url];
    }

    /** `cleanup_relays()`: stops every stored relay once and empties the
        registry. */
    method CleanupRelays()
      requires Valid()
      modifies this, relays.Values
      ensures relays == map[]
      ensures forall r :: r in old(relays.Values) ==> !r.running && r.stopCalls == old(r.stopCalls) + 1
    {
      var pending := relays.Keys;
      while pending != {}
        invariant pending <= relays.Keys && relays == old(relays)
        invariant forall u :: u in relays ==> relays[u].Valid()
        invariant forall u, v :: u in relays && v in relays && u != v ==> relays[u] != relays[v]
        invariant forall u :: u in relays && u !in pending ==>
          !relays[u].running && relays[u].stopCalls == old(relays[u].stopCalls) + 1
        invariant forall u :: u in pending ==> relays[u].stopCalls == old(relays[u].stopCalls)
        decreases pending
      {
        var u :| u in pending;
        relays[u].Stop();
        pending := pending - {u};
      }
      relays := map[];
    }

    /** `relay_status()`: a snapshot of every stored relay. */
    function Status(): (report: StatusReport)
      reads this, relays.Values
      ensures report.activeRelays == |relays|
      ensures report.relays.Keys == relays.Keys
      ensures forall u :: u in relays ==>
        report.relays[u].running == relays[u].running
        && report.relays[u].connectedClients == |relays[u].clients|
        && report.relays[u].contentType == relays[u].contentType
        && report.relays[u].hasLastFrame == relays[u].lastFrame.Some?
    {
      StatusReport(|relays|, map u | u in relays :: Summary(relays[u]))
    }
  }

  function Summary(r: Relay): RelaySummary
    reads r
  {
    RelaySummary(r.running, |r.clients|, r.contentType, r.lastFrame.Some?)
  }
}
