/** The interface the web application uses of a media relay (`MediaRelay`
    and `CachedMediaRelay`). Their implementation is not part of this model:
    the class keeps only the state the application reads (`running`,
    `last_frame`, `content_type`, `clients`) and counts the calls made to
    it, so that callers can be proved to start, stop and release relays as
    intended. */
module RelayInterface {
  import opened Wrappers

  type Bytes = seq<bv8>

  /** Handle of one viewer's queue, as returned by `add_client`. */
  type Handle = nat

  /** Which relay class was built: the plain relay, or the caching relay
      with its cache window and serve delay, in seconds. */
  datatype RelayKind = Plain | Cached(cacheDuration: real, serveDelay: real)

  class Relay {
    const upstreamUrl: string
    const kind: RelayKind
    var running: bool
    var lastFrame: Option<Bytes>
    var contentType: string
    var clients: set<Handle>
    var nextHandle: nat
    /** Number of `start()` and `stop()` calls received so far. */
    var startCalls: nat
    var stopCalls: nat
    /** Every `remove_client` call received, in order. */
    var removed: seq<Handle>

    ghost predicate Valid()
      reads this
    {
      forall h :: h in clients ==> h < nextHandle
    }

    constructor (upstreamUrl: string, kind: RelayKind)
      ensures Valid()
      ensures this.upstreamUrl == upstreamUrl && this.kind == kind
      ensures !running && lastFrame == None && clients == {}
      ensures startCalls == 0 && stopCalls == 0 && removed == []
    {
      this.upstreamUrl := upstreamUrl;
      this.kind := kind;
      running := false;
      lastFrame := None;
      contentType := "";
      clients := {};
      nextHandle := 0;
      startCalls, stopCalls := 0, 0;
      removed := [];
    }

    /** `start()`: begins background ingestion; starting again is harmless. */
    method Start()
      requires Valid()
      modifies this
      ensures Valid()
      ensures running && startCalls == old(startCalls) + 1
      ensures stopCalls == old(stopCalls) && clients == old(clients)
      ensures removed == old(removed) && lastFrame == old(lastFrame)
    {
      running := true;
      startCalls := startCalls + 1;
    }

    /** `stop()`: ends ingestion. */
    method Stop()
      requires Valid()
      modifies this
      ensures Valid()
      ensures !running && stopCalls == old(stopCalls) + 1
      ensures startCalls == old(startCalls) && clients == old(clients)
      ensures removed == old(removed) && lastFrame == old(lastFrame)
    {
      running := false;
      stopCalls := stopCalls + 1;
    }

    /** `add_client()`: registers a new queue and returns its handle. */
    method AddClient() returns (h: Handle)
      requires Valid()
      modifies this
      ensures Valid()
      ensures h !in old(clients) && clients == old(clients) + {h}
      ensures running == old(running) && startCalls == old(startCalls)
      ensures stopCalls == old(stopCalls) && removed == old(removed)
    {
      h := nextHandle;
      clients := clients + {h};
      nextHandle := nextHandle + 1;
    }

    /** `remove_client(queue)`: unregisters the queue; an unknown handle is
        ignored. */
    method RemoveClient(h: Handle)
      requires Valid()
      modifies this
      ensures Valid()
      ensures clients == old(clients) - {h} && removed == old(removed) + [h]
      ensures running == old(running) && startCalls == old(startCalls)
      ensures stopCalls == old(stopCalls) && nextHandle == old(nextHandle)
    {
      clients := clients - {h};
      removed := removed + [h];
    }
  }
}
