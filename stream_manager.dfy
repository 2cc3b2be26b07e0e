/** The browser-side `StreamManager` of `stream.js`: it (re)loads the
    relayed stream into an image element, shows one of three elements
    (loading indicator, stream, error box), retries failed loads with
    exponential backoff, and restarts the stream when the page becomes
    visible and focused again. Browser timers and event listeners become
    methods that the environment calls: the retry timers scheduled by
    `onStreamError`, the 20 s load timeout, and the visibility, focus, blur,
    page-show and viewport events. `now` is the value `Date.getTime()`
    returns at the call. */
module StreamManagerModel {
  import opened Wrappers
  import opened Strings

  const MAX_RETRIES: int := 5
  const INITIAL_RETRY_DELAY: real := 2000.0
  const MAX_RETRY_DELAY: real := 30000.0

  /** `Math.min(retryDelay * 1.5, 30000)`: the smaller of one and a half
      times the delay and the 30 s cap. */
  function NextRetryDelay(d: real): (r: real)
    ensures r <= MAX_RETRY_DELAY && r <= d * 1.5
    ensures r == MAX_RETRY_DELAY || r == d * 1.5
    ensures INITIAL_RETRY_DELAY <= d <= MAX_RETRY_DELAY ==> d <= r && INITIAL_RETRY_DELAY <= r
  {
    if d * 1.5 < MAX_RETRY_DELAY then d * 1.5 else MAX_RETRY_DELAY
  }

  /** The delay after `n` backoff steps from the initial 2 s. */
  function BackoffDelay(n: nat): real
  {
    if n == 0 then INITIAL_RETRY_DELAY else NextRetryDelay(BackoffDelay(n - 1))
  }

  function Pow15(n: nat): real
  {
    if n == 0 then 1.0 else 1.5 * Pow15(n - 1)
  }

  /** After `n` backoff steps the delay is `min(2000 * 1.5^n, 30000)`: it
      never decreases, and from the seventh step on it stays at 30 s. */
  lemma {:induction false} BackoffDelayClosedForm(n: nat)
    ensures BackoffDelay(n) == if INITIAL_RETRY_DELAY * Pow15(n) < MAX_RETRY_DELAY
                               then INITIAL_RETRY_DELAY * Pow15(n) else MAX_RETRY_DELAY
    ensures INITIAL_RETRY_DELAY <= BackoffDelay(n) <= MAX_RETRY_DELAY
    ensures BackoffDelay(n) <= BackoffDelay(n + 1)
  {
    if n > 0 {
      BackoffDelayClosedForm(n - 1);
      PowGrows(n - 1);
    }
    PowGrows(n);
  }

  lemma {:induction false} PowGrows(n: nat)
    ensures 1.0 <= Pow15(n) <= Pow15(n + 1)
  {
    if n > 0 {
      PowGrows(n - 1);
    }
  }

  lemma BackoffReachesCap(n: nat)
    requires n >= 7
    ensures BackoffDelay(n) == MAX_RETRY_DELAY
  {
    BackoffDelayClosedForm(n);
    PowAtLeast(n);
  }

  lemma {:induction false} PowAtLeast(n: nat)
    requires n >= 7
    ensures Pow15(n) >= 17.0
  {
    if n > 7 {
      PowAtLeast(n - 1);
    } else {
      assert Pow15(7) == 1.5 * 1.5 * 1.5 * 1.5 * 1.5 * 1.5 * 1.5 by {
        assert Pow15(1) == 1.5;
      }
    }
  }

  /** The image source set by `startStream`: the stream URL with a
      cache-busting `t` parameter, joined with `&` when the URL already has
      a query string and with `?` otherwise. */
  function CacheBustUrl(streamUrl: string, now: int): string
  {
    streamUrl + (if Contains(streamUrl, "?") then "&" else "?") + "t=" + IntToString(now)
  }

  lemma CacheBustUrlParts(streamUrl: string, now: int)
    ensures var url := CacheBustUrl(streamUrl, now);
      var n := |streamUrl|;
      && |url| > n + 3
      && url[..n] == streamUrl
      && (url[n] == '&' <==> exists i :: OccursAt(streamUrl, "?", i))
      && (url[n] == '?' <==> !exists i :: OccursAt(streamUrl, "?", i))
      && url[n + 1..n + 3] == "t="
      && ParseInt(url[n + 3..]) == Some(now)
  {
    var url := CacheBustUrl(streamUrl, now);
    var n := |streamUrl|;
    assert url[n + 3..] == IntToString(now);
    ParseIntOfString(now);
  }

  class StreamManager {
    const streamUrl: string
    const maxRetries: int
    var retryCount: int
    var retryDelay: real
    var isPageVisible: bool
    var isWindowFocused: bool
    var streamActive: bool
    /** Whether each element's `style.display` is other than `'none'`. */
    var streamShown: bool
    var loadingShown: bool
    var errorShown: bool
    /** The image's `src`. */
    var src: string
    /** Whether the 20 s load timeout is pending. */
    var loadTimeoutArmed: bool
    /** The delays of the pending retry timers, in the order they were set. */
    var pendingRetries: seq<real>

    ghost predicate Valid()
      reads this
    {
      && maxRetries == MAX_RETRIES && retryCount >= 0
      && INITIAL_RETRY_DELAY <= retryDelay <= MAX_RETRY_DELAY
      && (forall k :: 0 <= k < |pendingRetries| ==>
            INITIAL_RETRY_DELAY <= pendingRetries[k] <= MAX_RETRY_DELAY)
    }

    /** `shouldStreamBeActive()`. */
    predicate ShouldStreamBeActive()
      reads this
    {
      isPageVisible && isWindowFocused
    }

    /** The stream, its retry state and the displayed element are as they
        were: only the page's visibility or focus flags may have changed. */
    twostate predicate StreamLeftAlone()
      reads this
    {
      && retryCount == old(retryCount) && retryDelay == old(retryDelay)
      && src == old(src) && streamActive == old(streamActive)
      && streamShown == old(streamShown) && loadingShown == old(loadingShown)
      && errorShown == old(errorShown) && loadTimeoutArmed == old(loadTimeoutArmed)
    }

    /** Exactly one of the three elements is displayed, and it is `shown`. */
    ghost predicate Displays(shown: int)
      reads this
    {
      && (shown == 0 <==> loadingShown)
      && (shown == 1 <==> streamShown)
      && (shown == 2 <==> errorShown)
    }

    /** The state the constructor leaves; the display of the three elements
        and the image's first `src` come from the page. */
    constructor (streamUrl: string, src: string, streamShown: bool, loadingShown: bool, errorShown: bool)
      ensures Valid()
      ensures this.streamUrl == streamUrl && this.src == src
      ensures retryCount == 0 && retryDelay == INITIAL_RETRY_DELAY
      ensures isPageVisible && isWindowFocused && !streamActive
      ensures this.streamShown == streamShown && this.loadingShown == loadingShown
      ensures this.errorShown == errorShown
      ensures !loadTimeoutArmed && pendingRetries == []
    {
      this.streamUrl := streamUrl;
      maxRetries := MAX_RETRIES;
      retryCount := 0;
      retryDelay := INITIAL_RETRY_DELAY;
      isPageVisible, isWindowFocused, streamActive := true, true, false;
      this.streamShown, this.loadingShown, this.errorShown := streamShown, loadingShown, errorShown;
      this.src := src;
      loadTimeoutArmed := false;
      pendingRetries := [];
    }

    method ShowLoading()
      modifies this`streamShown, this`loadingShown, this`errorShown
      ensures Displays(0)
    {
      streamShown, errorShown, loadingShown := false, false, true;
    }

    method ShowStream()
      modifies this`streamShown, this`loadingShown, this`errorShown
      ensures Displays(1)
    {
      loadingShown, errorShown, streamShown := false, false, true;
    }

    method ShowError()
      modifies this`streamShown, this`loadingShown, this`errorShown
      ensures Displays(2)
    {
      loadingShown, streamShown, errorShown := false, false, true;
    }

    /** `startStream()`: does nothing while the page should not stream;
        otherwise shows the loading indicator, counts one more attempt,
        (re)arms the load timeout and points the image at a fresh URL. */
    method StartStream(now: int)
      requires Valid()
      modifies this
      ensures Valid()
      ensures !old(ShouldStreamBeActive()) ==> unchanged(this)
      ensures old(ShouldStreamBeActive()) ==>
        && Displays(0) && retryCount == old(retryCount) + 1
        && loadTimeoutArmed && src == CacheBustUrl(streamUrl, now)
        && retryDelay == old(retryDelay) && streamActive == old(streamActive)
        && pendingRetries == old(pendingRetries)
        && isPageVisible == old(isPageVisible) && isWindowFocused == old(isWindowFocused)
    {
      if !ShouldStreamBeActive() {
        return;
      }
      ShowLoading();
      retryCount := retryCount + 1;
      loadTimeoutArmed := true;
      src := CacheBustUrl(streamUrl, now);
    }

    /** `stopStream()`. */
    method StopStream()
      requires Valid()
      modifies this
      ensures Valid()
      ensures !loadTimeoutArmed && src == "" && !streamActive
      ensures retryCount == old(retryCount) && retryDelay == old(retryDelay)
      ensures pendingRetries == old(pendingRetries)
      ensures streamShown == old(streamShown) && loadingShown == old(loadingShown)
      ensures errorShown == old(errorShown)
      ensures isPageVisible == old(isPageVisible) && isWindowFocused == old(isWindowFocused)
    {
      loadTimeoutArmed := false;
      src := "";
      streamActive := false;
    }

    /** `onStreamLoad()`: the image loaded; the retry state is reset. */
    method OnStreamLoad()
      requires Valid()
      modifies this
      ensures Valid()
      ensures retryCount == 0 && retryDelay == INITIAL_RETRY_DELAY && streamActive
      ensures Displays(1) && !loadTimeoutArmed
      ensures src == old(src) && pendingRetries == old(pendingRetries)
      ensures isPageVisible == old(isPageVisible) && isWindowFocused == old(isWindowFocused)
    {
      loadTimeoutArmed := false;
      retryCount := 0;
      retryDelay := INITIAL_RETRY_DELAY;
      streamActive := true;
      ShowStream();
    }

    /** `onStreamError()`: schedules a retry after the current delay while
        the page should stream and attempts remain, shows the error once
        they are used up, and does neither while the page is hidden or
        unfocused. */
    method OnStreamError()
      requires Valid()
      modifies this
      ensures Valid()
      ensures !streamActive && !loadTimeoutArmed
      ensures retryCount == old(retryCount) && retryDelay == old(retryDelay) && src == old(src)
      ensures isPageVisible == old(isPageVisible) && isWindowFocused == old(isWindowFocused)
      ensures pendingRetries ==
        if ShouldStreamBeActive() && retryCount < maxRetries
        then old(pendingRetries) + [retryDelay] else old(pendingRetries)
      ensures ShouldStreamBeActive() && retryCount >= maxRetries ==> Displays(2)
      ensures !(ShouldStreamBeActive() && retryCount >= maxRetries) ==>
        streamShown == old(streamShown) && loadingShown == old(loadingShown)
        && errorShown == old(errorShown)
    {
      loadTimeoutArmed := false;
      streamActive := false;
      if ShouldStreamBeActive() && retryCount < maxRetries {
        pendingRetries := pendingRetries + [retryDelay];
      } else if !ShouldStreamBeActive() {
      } else {
        ShowError();
      }
    }

    /** The 20 s load timeout fires: it counts as a load error. */
    method LoadTimeoutFires()
      requires Valid() && loadTimeoutArmed
      modifies this
      ensures Valid()
      ensures !streamActive && !loadTimeoutArmed
      ensures retryCount == old(retryCount) && retryDelay == old(retryDelay) && src == old(src)
      ensures isPageVisible == old(isPageVisible) && isWindowFocused == old(isWindowFocused)
      ensures pendingRetries ==
        if ShouldStreamBeActive() && retryCount < maxRetries
        then old(pendingRetries) + [retryDelay] else old(pendingRetries)
      ensures ShouldStreamBeActive() && retryCount >= maxRetries ==> Displays(2)
      ensures !(ShouldStreamBeActive() && retryCount >= maxRetries) ==>
        streamShown == old(streamShown) && loadingShown == old(loadingShown)
        && errorShown == old(errorShown)
    {
      loadTimeoutArmed := false;
      OnStreamError();
    }

    /** The `k`-th pending retry timer fires: the delay grows by half, up to
        30 s, and the stream is started again. */
    method RetryTimerFires(k: nat, now: int)
      requires Valid() && k < |pendingRetries|
      modifies this
      ensures Valid()
      ensures retryDelay == NextRetryDelay(old(retryDelay))
      ensures old(retryDelay) <= retryDelay
      ensures isPageVisible == old(isPageVisible) && isWindowFocused == old(isWindowFocused)
      ensures old(ShouldStreamBeActive()) ==> loadTimeoutArmed
      ensures pendingRetries == old(pendingRetries[..k] + pendingRetries[k + 1..])
      ensures old(ShouldStreamBeActive()) ==>
        && Displays(0) && retryCount == old(retryCount) + 1 && src == CacheBustUrl(streamUrl, now)
        && streamActive == old(streamActive)
      ensures !old(ShouldStreamBeActive()) ==>
        && retryCount == old(retryCount) && src == old(src) && streamActive == old(streamActive)
        && streamShown == old(streamShown) && loadingShown == old(loadingShown)
        && errorShown == old(errorShown) && loadTimeoutArmed == old(loadTimeoutArmed)
    {
      pendingRetries := pendingRetries[..k] + pendingRetries[k + 1..];
      retryDelay := NextRetryDelay(retryDelay);
      StartStream(now);
    }

    /** `retryConnection()`: a fresh start with a full retry budget. */
    method RetryConnection(now: int)
      requires Valid()
      modifies this
      ensures Valid()
      ensures retryDelay == INITIAL_RETRY_DELAY && !streamActive
      ensures pendingRetries == old(pendingRetries)
      ensures isPageVisible == old(isPageVisible) && isWindowFocused == old(isWindowFocused)
      ensures ShouldStreamBeActive() ==>
        retryCount == 1 && Displays(0) && loadTimeoutArmed && src == CacheBustUrl(streamUrl, now)
      ensures !ShouldStreamBeActive() ==>
        && retryCount == 0 && src == old(src)
        && streamShown == old(streamShown) && loadingShown == old(loadingShown)
        && errorShown == old(errorShown) && loadTimeoutArmed == old(loadTimeoutArmed)
    {
      retryCount := 0;
      retryDelay := INITIAL_RETRY_DELAY;
      streamActive := false;
      StartStream(now);
    }

    /** `handleVisibilityChange()`: when the page should stream but the
        stream is inactive or hidden, it is restarted. */
    method HandleVisibilityChange(now: int)
      requires Valid()
      modifies this
      ensures Valid()
      ensures isPageVisible == old(isPageVisible) && isWindowFocused == old(isWindowFocused)
      ensures pendingRetries == old(pendingRetries)
      ensures var restart := ShouldStreamBeActive() && (!old(streamActive) || !old(streamShown));
        && (restart ==> retryCount == 1 && retryDelay == INITIAL_RETRY_DELAY && !streamActive
                        && Displays(0) && loadTimeoutArmed && src == CacheBustUrl(streamUrl, now))
        && (!restart ==> unchanged(this))
    {
      if ShouldStreamBeActive() {
        if !streamActive || !streamShown {
          RetryConnection(now);
        }
      }
    }

    /** The `visibilitychange` listener. */
    method OnVisibilityChange(hidden: bool, now: int)
      requires Valid()
      modifies this
      ensures Valid()
      ensures isPageVisible == !hidden && isWindowFocused == old(isWindowFocused)
      ensures pendingRetries == old(pendingRetries)
      ensures var restart := ShouldStreamBeActive() && (!old(streamActive) || !old(streamShown));
        && (restart ==> retryCount == 1 && retryDelay == INITIAL_RETRY_DELAY && !streamActive
                        && Displays(0) && loadTimeoutArmed && src == CacheBustUrl(streamUrl, now))
        && (!restart ==> StreamLeftAlone())
    {
      isPageVisible := !hidden;
      HandleVisibilityChange(now);
    }

    /** The window `focus` listener. */
    method OnFocus(now: int)
      requires Valid()
      modifies this
      ensures Valid()
      ensures isWindowFocused && isPageVisible == old(isPageVisible)
      ensures pendingRetries == old(pendingRetries)
      ensures var restart := isPageVisible && (!old(streamActive) || !old(streamShown));
        && (restart ==> retryCount == 1 && retryDelay == INITIAL_RETRY_DELAY && !streamActive
                        && Displays(0) && loadTimeoutArmed && src == CacheBustUrl(streamUrl, now))
        && (!restart ==> StreamLeftAlone())
    {
      isWindowFocused := true;
      HandleVisibilityChange(now);
    }

    /** The window `blur` listener: the stream is left as it is. */
    method OnBlur()
      requires Valid()
      modifies this
      ensures Valid()
      ensures !isWindowFocused && !ShouldStreamBeActive() && isPageVisible == old(isPageVisible)
      ensures StreamLeftAlone() && pendingRetries == old(pendingRetries)
    {
      isWindowFocused := false;
      HandleVisibilityChange(0);
    }

    /** The `pageshow` listener: a page restored from the back/forward cache
        restarts the stream. */
    method OnPageShow(persisted: bool, now: int)
      requires Valid()
      modifies this
      ensures Valid()
      ensures !persisted ==> unchanged(this)
      ensures persisted ==>
        && retryDelay == INITIAL_RETRY_DELAY && !streamActive && pendingRetries == old(pendingRetries)
        && isPageVisible == old(isPageVisible) && isWindowFocused == old(isWindowFocused)
      ensures persisted && ShouldStreamBeActive() ==>
        retryCount == 1 && Displays(0) && loadTimeoutArmed && src == CacheBustUrl(streamUrl, now)
      ensures persisted && !ShouldStreamBeActive() ==>
        && retryCount == 0 && src == old(src)
        && streamShown == old(streamShown) && loadingShown == old(loadingShown)
        && errorShown == old(errorShown) && loadTimeoutArmed == old(loadTimeoutArmed)
    {
      if persisted {
        RetryConnection(now);
      }
    }

    /** The viewport observer: the stream's container came into view while
        the page should stream and the stream is inactive. */
    method OnIntersection(isInView: bool, now: int)
      requires Valid()
      modifies this
      ensures Valid()
      ensures isPageVisible == old(isPageVisible) && isWindowFocused == old(isWindowFocused)
      ensures pendingRetries == old(pendingRetries)
      ensures var restart := isInView && ShouldStreamBeActive() && !old(streamActive);
        && (restart ==> retryCount == 1 && retryDelay == INITIAL_RETRY_DELAY && !streamActive
                        && Displays(0) && loadTimeoutArmed && src == CacheBustUrl(streamUrl, now))
        && (!restart ==> unchanged(this))
    {
      if isInView && ShouldStreamBeActive() && !streamActive {
        RetryConnection(now);
      }
    }
  }

  /** A load that keeps failing while the page stays visible and focused:
      the manager makes five attempts in all, with retry delays 2, 3, 4.5
      and 6.75 s, and then shows the error instead of retrying again. */
  method FailingStreak(streamUrl: string) returns (attempts: int, delays: seq<real>, errorShown: bool)
    ensures attempts == MAX_RETRIES && errorShown
    ensures delays == [2000.0, 3000.0, 4500.0, 6750.0]
  {
    var m := new StreamManager(streamUrl, "", false, true, false);
    m.RetryConnection(0);
    assert m.retryCount == 1;
    delays := [];
    var attempt := 1;
    while attempt < 5
      invariant 1 <= attempt <= 5 && m.Valid() && m.ShouldStreamBeActive()
      invariant m.retryCount == attempt && m.pendingRetries == [] && m.loadTimeoutArmed
      invariant m.retryDelay == BackoffDelay(attempt - 1)
      invariant |delays| == attempt - 1
      invariant forall k :: 0 <= k < |delays| ==> delays[k] == BackoffDelay(k)
      modifies m
    {
      var delay := FailThenRetry(m, attempt);
      delays := delays + [delay];
      attempt := attempt + 1;
    }
    m.LoadTimeoutFires();
    assert m.pendingRetries == [] && m.Displays(2);
    attempts, errorShown := m.retryCount, m.errorShown;
    FirstDelays();
  }

  /** The first four backoff delays. */
  lemma FirstDelays()
    ensures BackoffDelay(0) == 2000.0 && BackoffDelay(1) == 3000.0
    ensures BackoffDelay(2) == 4500.0 && BackoffDelay(3) == 6750.0
  {
  }

  /** One failed attempt of the streak: the load times out, a retry is
      scheduled after the current delay, and that timer fires. */
  method FailThenRetry(m: StreamManager, attempt: int) returns (delay: real)
    requires m.Valid() && m.ShouldStreamBeActive() && 1 <= attempt < MAX_RETRIES
    requires m.retryCount == attempt && m.pendingRetries == [] && m.loadTimeoutArmed
    modifies m
    ensures m.Valid() && m.ShouldStreamBeActive()
    ensures m.retryCount == attempt + 1 && m.pendingRetries == [] && m.loadTimeoutArmed
    ensures delay == old(m.retryDelay) && m.retryDelay == NextRetryDelay(delay)
  {
    m.LoadTimeoutFires();
    assert m.pendingRetries == [m.retryDelay];
    delay := m.pendingRetries[0];
    m.RetryTimerFires(0, attempt);
  }
}
