/** One browser's stream: the `generate()` loop inside `stream_proxy`,
    which waits for the relay to warm up, then forwards the chunks of the
    viewer's queue until a sentinel, a stopped relay, too many empty waits,
    an error or the browser going away ends it, and always releases the
    queue. The queue is given as the sequence of outcomes of its successive
    `get(timeout=QUEUE_TIMEOUT)` calls. */
module StreamProxy {
  import opened Wrappers
  import opened RelayInterface
  import opened RelayRegistry

  /** `WARMUP_TIMEOUT` (15 s) counted in the loop's 0.1 s sleeps. */
  const WARMUP_POLLS: nat := 150
  const MAX_CONSECUTIVE_TIMEOUTS: nat := 10

  /** Outcome of one `client_queue.get(timeout=QUEUE_TIMEOUT)`: a chunk, the
      `None` sentinel, `queue.Empty` (with the value `relay.running` had
      when it was then read), or another exception. */
  datatype QueueEvent = Chunk(data: Bytes) | Sentinel | Timeout(relayRunning: bool) | Fault

  /** Why the loop ended; `ClientGone` is the browser closing the response
      once all outcomes given have been consumed. */
  datatype EndReason = SentinelReceived | RelayStopped | TooManyTimeouts | Failed | ClientGone

  /** The chunks the loop yields and why it stops, for queue outcomes
      `events` when `timeouts` empty waits have already happened in a row. */
  function Serve(events: seq<QueueEvent>, timeouts: nat): (seq<Bytes>, EndReason)
    decreases |events|
  {
    if events == [] then ([], ClientGone)
    else match events[0]
      case Chunk(d) =>
        var (rest, why) := Serve(events[1..], 0);
        ([d] + rest, why)
      case Sentinel => ([], SentinelReceived)
      case Fault => ([], Failed)
      case Timeout(running) =>
        if !running then ([], RelayStopped)
        else if timeouts + 1 >= MAX_CONSECUTIVE_TIMEOUTS then ([], TooManyTimeouts)
        else Serve(events[1..], timeouts + 1)
  }

  /** Index of the outcome that ends the loop, `|events|` when none does. */
  function EndIndex(events: seq<QueueEvent>, timeouts: nat): (n: nat)
    ensures n <= |events|
    decreases |events|
  {
    if events == [] then 0
    else match events[0]
      case Chunk(_) => 1 + EndIndex(events[1..], 0)
      case Sentinel => 0
      case Fault => 0
      case Timeout(running) =>
        if !running || timeouts + 1 >= MAX_CONSECUTIVE_TIMEOUTS then 0
        else 1 + EndIndex(events[1..], timeouts + 1)
  }

  /** The payloads of the chunks among `events`, in order. */
  function Payloads(events: seq<QueueEvent>): seq<Bytes>
  {
    if events == [] then []
    else (if events[0].Chunk? then [events[0].data] else []) + Payloads(events[1..])
  }

  /** Number of `queue.Empty` outcomes with a running relay at the end of
      `events`. */
  function TrailingTimeouts(events: seq<QueueEvent>): (k: nat)
    ensures k <= |events|
  {
    if events != [] && events[|events| - 1] == Timeout(true) then
      1 + TrailingTimeouts(events[..|events| - 1])
    else 0
  }

  /** The yielded chunks are exactly the queued chunks before the outcome
      that ends the loop, in queue order; that outcome is the sentinel, a
      timeout or an error according to the reason, and no sentinel or error
      comes before it. */
  lemma ServeYieldsQueuedChunks(events: seq<QueueEvent>, timeouts: nat)
    ensures var (sent, why) := Serve(events, timeouts);
      var n := EndIndex(events, timeouts);
      && sent == Payloads(events[..n])
      && (forall k :: 0 <= k < n ==> events[k].Chunk? || events[k] == Timeout(true))
      && (why == ClientGone <==> n == |events|)
      && (why == SentinelReceived ==> n < |events| && events[n] == Sentinel)
      && (why == Failed ==> n < |events| && events[n] == Fault)
      && (why == RelayStopped ==> n < |events| && events[n] == Timeout(false))
      && (why == TooManyTimeouts ==> n < |events| && events[n] == Timeout(true))
  {
    ServeSendsPayloads(events, timeouts);
    ServeStopsAt(events, timeouts);
  }

  /** What is sent is the payloads before the stopping outcome. */
  lemma {:induction false} ServeSendsPayloads(events: seq<QueueEvent>, timeouts: nat)
    ensures Serve(events, timeouts).0 == Payloads(events[..EndIndex(events, timeouts)])
    decreases |events|
  {
    if events != [] {
      var n := EndIndex(events, timeouts);
      var next := if events[0].Chunk? then 0 else timeouts + 1;
      if n > 0 {
        assert events[0].Chunk? || (events[0] == Timeout(true) && timeouts + 1 < MAX_CONSECUTIVE_TIMEOUTS);
        assert n == 1 + EndIndex(events[1..], next);
        ServeSendsPayloads(events[1..], next);
        var prefix := events[..n];
        assert prefix[0] == events[0] && prefix[1..] == events[1..][..n - 1];
        assert Payloads(prefix) == (if events[0].Chunk? then [events[0].data] else []) + Payloads(prefix[1..]);
      }
    }
  }

  /** The outcomes before the stopping one are chunks and empty waits with
      the relay running, and the reason names the stopping outcome. */
  lemma {:induction false} ServeStopsAt(events: seq<QueueEvent>, timeouts: nat)
    ensures var why := Serve(events, timeouts).1;
      var n := EndIndex(events, timeouts);
      && (forall k :: 0 <= k < n ==> events[k].Chunk? || events[k] == Timeout(true))
      && (why == ClientGone <==> n == |events|)
      && (why == SentinelReceived ==> n < |events| && events[n] == Sentinel)
      && (why == Failed ==> n < |events| && events[n] == Fault)
      && (why == RelayStopped ==> n < |events| && events[n] == Timeout(false))
      && (why == TooManyTimeouts ==> n < |events| && events[n] == Timeout(true))
    decreases |events|
  {
    if events != [] {
      match events[0]
      case Chunk(d) =>
        ServeStopsAt(events[1..], 0);
      case Sentinel =>
      case Fault =>
      case Timeout(running) =>
        if running && timeouts + 1 < MAX_CONSECUTIVE_TIMEOUTS {
          ServeStopsAt(events[1..], timeouts + 1);
        }
    }
  }

  /** The outcomes up to and including the stopping one end in ten
      `queue.Empty` outcomes with the relay running, or consist of such
      outcomes only and the `carried` ones before them make up the ten. */
  ghost predicate TenInARow(prefix: seq<QueueEvent>, carried: nat)
  {
    var t := TrailingTimeouts(prefix);
    || (t < |prefix| && t == MAX_CONSECUTIVE_TIMEOUTS)
    || (t == |prefix| && carried + t == MAX_CONSECUTIVE_TIMEOUTS)
  }

  /** A chunk resets the count: what follows it must be ten in a row alone. */
  lemma ChunkThenTen(e: QueueEvent, b: seq<QueueEvent>, carried: nat)
    requires e.Chunk? && TenInARow(b, 0)
    ensures TenInARow([e] + b, carried)
  {
    assert TrailingTimeouts([e]) == 0;
    TrailingTimeoutsPrefix([e], b);
  }

  /** An empty wait adds one to the count carried into what follows. */
  lemma TimeoutThenTen(b: seq<QueueEvent>, carried: nat)
    requires TenInARow(b, carried + 1)
    ensures TenInARow([Timeout(true)] + b, carried)
  {
    assert [Timeout(true)][..0] == [];
    assert TrailingTimeouts([Timeout(true)]) == 1;
    TrailingTimeoutsPrefix([Timeout(true)], b);
  }

  /** The loop gives up on empty waits only at the tenth in a row: either
      the ten outcomes ending at the stopping one are all `queue.Empty` with
      the relay running, or every outcome so far was one and the count
      carried in makes up the rest. */
  lemma {:induction false} TooManyTimeoutsMeansTenInARow(events: seq<QueueEvent>, timeouts: nat)
    requires timeouts < MAX_CONSECUTIVE_TIMEOUTS
    requires Serve(events, timeouts).1 == TooManyTimeouts
    ensures var n := EndIndex(events, timeouts);
      n < |events| && TenInARow(events[..n + 1], timeouts)
    decreases |events|
  {
    var n := EndIndex(events, timeouts);
    assert events != [];
    match events[0]
    case Chunk(d) =>
      assert Serve(events[1..], 0).1 == TooManyTimeouts;
      TooManyTimeoutsMeansTenInARow(events[1..], 0);
      var m := EndIndex(events[1..], 0);
      assert n == m + 1;
      assert events[..n + 1] == [events[0]] + events[1..][..m + 1];
      ChunkThenTen(events[0], events[1..][..m + 1], timeouts);
    case Timeout(running) =>
      if timeouts + 1 >= MAX_CONSECUTIVE_TIMEOUTS {
        assert events[..1] == [Timeout(true)];
        assert TrailingTimeouts(events[..1][..0]) == 0;
      } else {
        assert running && Serve(events[1..], timeouts + 1).1 == TooManyTimeouts;
        TooManyTimeoutsMeansTenInARow(events[1..], timeouts + 1);
        var m := EndIndex(events[1..], timeouts + 1);
        assert n == m + 1;
        assert events[..n + 1] == [Timeout(true)] + events[1..][..m + 1];
        TimeoutThenTen(events[1..][..m + 1], timeouts);
      }
  }

  /** Trailing timeouts of `a + b`: those of `b`, plus those of `a` when `b`
      consists of timeouts only. */
  lemma {:induction false} TrailingTimeoutsPrefix(a: seq<QueueEvent>, b: seq<QueueEvent>)
    ensures TrailingTimeouts(b) < |b| ==> TrailingTimeouts(a + b) == TrailingTimeouts(b)
    ensures TrailingTimeouts(b) == |b| ==> TrailingTimeouts(a + b) == TrailingTimeouts(a) + |b|
    decreases |b|
  {
    if b != [] {
      assert (a + b)[..|a + b| - 1] == a + b[..|b| - 1];
      if b[|b| - 1] == Timeout(true) {
        TrailingTimeoutsPrefix(a, b[..|b| - 1]);
      }
    } else {
      assert a + b == a;
    }
  }

  /** A viewer that starts afresh stops on empty waits only after exactly
      ten of them in a row. */
  lemma FreshViewerWaitsTenTimes(events: seq<QueueEvent>)
    requires Serve(events, 0).1 == TooManyTimeouts
    ensures var n := EndIndex(events, 0);
      n < |events| && TrailingTimeouts(events[..n + 1]) == MAX_CONSECUTIVE_TIMEOUTS
  {
    TooManyTimeoutsMeansTenInARow(events, 0);
    TenFromFresh(events, EndIndex(events, 0));
  }

  /** With nothing carried in, ten in a row means ten trailing timeouts. */
  lemma TenFromFresh(events: seq<QueueEvent>, n: nat)
    requires n < |events| && TenInARow(events[..n + 1], 0)
    ensures TrailingTimeouts(events[..n + 1]) == MAX_CONSECUTIVE_TIMEOUTS
  {
  }

  /** Conversely, the loop gives up as soon as the count reaches ten: when
      `timeouts` empty waits are carried in and the next `10 - timeouts`
      outcomes are all `queue.Empty` with the relay running, nothing is sent
      and the last of those outcomes ends the loop. */
  lemma {:induction false} TenTimeoutsGiveUp(events: seq<QueueEvent>, timeouts: nat)
    requires timeouts < MAX_CONSECUTIVE_TIMEOUTS
    requires MAX_CONSECUTIVE_TIMEOUTS - timeouts <= |events|
    requires forall k :: 0 <= k < MAX_CONSECUTIVE_TIMEOUTS - timeouts ==> events[k] == Timeout(true)
    ensures Serve(events, timeouts) == ([], TooManyTimeouts)
    ensures EndIndex(events, timeouts) == MAX_CONSECUTIVE_TIMEOUTS - timeouts - 1
    decreases MAX_CONSECUTIVE_TIMEOUTS - timeouts
  {
    assert events[0] == Timeout(true);
    if timeouts + 1 < MAX_CONSECUTIVE_TIMEOUTS {
      var rest := events[1..];
      assert forall k :: 0 <= k < MAX_CONSECUTIVE_TIMEOUTS - (timeouts + 1) ==> rest[k] == events[k + 1];
      TenTimeoutsGiveUp(rest, timeouts + 1);
    }
  }

  /** The warm-up wait: polls `relay.last_frame` every 0.1 s until a frame
      is there or 15 s have passed. `frameAt(k)` says whether a frame was
      there at the `k`-th check. Returns the number of sleeps and whether a
      frame had arrived (when it had not, the source only logs a warning). */
  method WarmUp(frameAt: nat -> bool) returns (sleeps: nat, ready: bool)
    ensures sleeps <= WARMUP_POLLS
    ensures ready == frameAt(sleeps)
    ensures !ready ==> sleeps == WARMUP_POLLS
    ensures forall k :: 0 <= k < sleeps ==> !frameAt(k)
  {
    sleeps := 0;
    while !frameAt(sleeps) && sleeps < WARMUP_POLLS
      invariant sleeps <= WARMUP_POLLS
      invariant forall k :: 0 <= k < sleeps ==> !frameAt(k)
    {
      sleeps := sleeps + 1;
    }
    ready := frameAt(sleeps);
  }

  /** The forwarding loop of `generate()` with its `finally` clause. */
  method Generate(relay: Relay, queue: Handle, events: seq<QueueEvent>)
    returns (sent: seq<Bytes>, why: EndReason)
    requires relay.Valid()
    modifies relay
    ensures relay.Valid()
    ensures (sent, why) == Serve(events, 0)
    ensures relay.removed == old(relay.removed) + [queue]
    ensures relay.clients == old(relay.clients) - {queue}
    ensures relay.running == old(relay.running) && relay.startCalls == old(relay.startCalls)
    ensures relay.stopCalls == old(relay.stopCalls)
  {
    var consecutiveTimeouts: nat := 0;
    var i := 0;
    sent := [];
    why := ClientGone;
    assert events[i..] == events;
    while i < |events|
      invariant i <= |events| && consecutiveTimeouts < MAX_CONSECUTIVE_TIMEOUTS
      invariant sent + Serve(events[i..], consecutiveTimeouts).0 == Serve(events, 0).0
      invariant Serve(events[i..], consecutiveTimeouts).1 == Serve(events, 0).1
      decreases |events| - i
    {
      assert events[i..] != [] && events[i..][0] == events[i];
      ghost var rest := Serve(events[i..], consecutiveTimeouts);
      match events[i] {
      case Chunk(d) =>
        consecutiveTimeouts := 0;
        sent := sent + [d];
        assert events[i..][1..] == events[i + 1..];
      case Sentinel =>
        why := SentinelReceived;
        assert rest == ([], SentinelReceived) && sent + [] == sent;
        break;
      case Fault =>
        why := Failed;
        assert rest == ([], Failed) && sent + [] == sent;
        break;
      case Timeout(running) =>
        consecutiveTimeouts := consecutiveTimeouts + 1;
        if !running {
          why := RelayStopped;
          assert rest == ([], RelayStopped) && sent + [] == sent;
          break;
        }
        if consecutiveTimeouts >= MAX_CONSECUTIVE_TIMEOUTS {
          why := TooManyTimeouts;
          assert rest == ([], TooManyTimeouts) && sent + [] == sent;
          break;
        }
        assert events[i..][1..] == events[i + 1..];
      }
      i := i + 1;
    }
    assert why == ClientGone ==> events[i..] == [] && sent + [] == sent;
    relay.RemoveClient(queue);
  }

  /** `stream_proxy`: builds the upstream URL, gets (or creates) its relay,
      registers this viewer's queue and serves it. */
  method ServeViewer(registry: Registry, host: string, port: int, path: string,
                     frameAt: nat -> bool, events: seq<QueueEvent>)
    returns (relay: Relay, queue: Handle, sent: seq<Bytes>, why: EndReason)
    requires registry.Valid()
    modifies registry, registry.relays.Values
    ensures registry.Valid()
    ensures var url := StreamUrl(host, port, path);
      url in registry.relays && relay == registry.relays[url]
    ensures (sent, why) == Serve(events, 0)
    ensures queue !in relay.clients
    ensures relay.removed == old(if StreamUrl(host, port, path) in registry.relays
                                 then registry.relays[StreamUrl(host, port, path)].removed
                                 else []) + [queue]
  {
    var url := StreamUrl(host, port, path);
    relay := registry.GetMediaRelay(url);
    queue := relay.AddClient();
    var sleeps, ready := WarmUp(frameAt);
    sent, why := Generate(relay, queue, events);
  }
}
