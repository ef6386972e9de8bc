/** The background worker's rate limiter: at most five dispatches per window
    of one second, where a window starts at the first request that arrives
    more than a second after the previous window's start. Time is an explicit
    millisecond count. A request that finds the window full is told how long
    to wait; re-submitting it after the wait is the source's recursive call. */
module RateLimit {

  const MaxRequestsPerSecond := 5
  const WindowMs := 1000

  /** `requestsInLastSecond` and `lastRequestTime`. */
  datatype Window = Window(requestsInLastSecond: int, lastRequestTime: int)

  datatype Decision = Dispatch | Wait(ms: int)

  datatype StepResult = StepResult(window: Window, decision: Decision)

  /** The counter never leaves [0, 5]. */
  predicate Valid(w: Window)
  {
    0 <= w.requestsInLastSecond <= MaxRequestsPerSecond
  }

  /** The window after the reset check at time `now`. */
  function Refresh(w: Window, now: int): Window
  {
    if now - w.lastRequestTime > WindowMs then Window(0, now) else w
  }

  /** One evaluation of `handleTranslationRequest` at time `now`. */
  function Step(w: Window, now: int): StepResult
  {
    var cur := Refresh(w, now);
    if cur.requestsInLastSecond >= MaxRequestsPerSecond then
      StepResult(cur, Wait(WindowMs - (now - cur.lastRequestTime)))
    else
      StepResult(cur.(requestsInLastSecond := cur.requestsInLastSecond + 1), Dispatch)
  }

  /** More than a second after the window's start, the counter restarts at
      `now` and the request goes out. */
  lemma StaleWindowResets(w: Window, now: int)
    requires now - w.lastRequestTime > WindowMs
    ensures Step(w, now) == StepResult(Window(1, now), Dispatch)
  {
  }

  /** A full window makes the request wait out the rest of the window: a wait
      that is never negative, and at most a second unless the clock went back. */
  lemma WaitIsRestOfWindow(w: Window, now: int)
    requires Step(w, now).decision.Wait?
    ensures Step(w, now).window == w
    ensures w.requestsInLastSecond >= MaxRequestsPerSecond
    ensures Step(w, now).decision.ms == WindowMs - (now - w.lastRequestTime)
    ensures 0 <= Step(w, now).decision.ms
    ensures now >= w.lastRequestTime ==> Step(w, now).decision.ms <= WindowMs
  {
  }

  /** A dispatch adds exactly one to the (possibly restarted) counter, and the
      counter stays within the ceiling. */
  lemma DispatchCountsOne(w: Window, now: int)
    requires Valid(w)
    ensures Valid(Step(w, now).window)
    ensures Step(w, now).decision.Dispatch? ==>
      Step(w, now).window.requestsInLastSecond == Refresh(w, now).requestsInLastSecond + 1
    ensures Step(w, now).decision.Dispatch? <==> Refresh(w, now).requestsInLastSecond < MaxRequestsPerSecond
  {
  }

  /** Requests arriving at the given times, one after another. */
  datatype Run = Run(window: Window, decisions: seq<Decision>)

  function RunAll(w: Window, times: seq<int>): (r: Run)
    decreases |times|
    ensures |r.decisions| == |times|
  {
    if times == [] then Run(w, [])
    else
      var first := Step(w, times[0]);
      var rest := RunAll(first.window, times[1..]);
      Run(rest.window, [first.decision] + rest.decisions)
  }

  function Dispatches(ds: seq<Decision>): nat
  {
    if ds == [] then 0 else (if ds[0].Dispatch? then 1 else 0) + Dispatches(ds[1..])
  }

  /** Within one window (no request comes more than a second after its
      start), no more requests go out than the counter has room for. */
  lemma {:induction false} AtMostFivePerWindow(w: Window, times: seq<int>)
    requires Valid(w)
    requires forall k :: 0 <= k < |times| ==> times[k] - w.lastRequestTime <= WindowMs
    ensures Dispatches(RunAll(w, times).decisions) <= MaxRequestsPerSecond - w.requestsInLastSecond
    ensures RunAll(w, times).window.lastRequestTime == w.lastRequestTime
    decreases |times|
  {
    if times != [] {
      var first := Step(w, times[0]);
      assert first.window.lastRequestTime == w.lastRequestTime;
      AtMostFivePerWindow(first.window, times[1..]);
    }
  }

  /** Running two batches one after the other is running their concatenation. */
  lemma {:induction false} RunAllAppend(w: Window, a: seq<int>, b: seq<int>)
    decreases |a|
    ensures RunAll(w, a + b).window == RunAll(RunAll(w, a).window, b).window
    ensures RunAll(w, a + b).decisions == RunAll(w, a).decisions + RunAll(RunAll(w, a).window, b).decisions
  {
    if a == [] {
      assert a + b == b;
    } else {
      assert (a + b)[1..] == a[1..] + b;
      RunAllAppend(Step(w, a[0]).window, a[1..], b);
    }
  }

  lemma {:induction false} DispatchesAppend(x: seq<Decision>, y: seq<Decision>)
    ensures Dispatches(x + y) == Dispatches(x) + Dispatches(y)
  {
    if x == [] {
      assert x + y == y;
    } else {
      assert (x + y)[1..] == x[1..] + y;
      DispatchesAppend(x[1..], y);
    }
  }

  function Repeat(t: int, n: nat): (ts: seq<int>)
    ensures |ts| == n && forall k :: 0 <= k < n ==> ts[k] == t
  {
    if n == 0 then [] else [t] + Repeat(t, n - 1)
  }

  function DispatchTimes(n: nat): (ds: seq<Decision>)
    ensures |ds| == n && forall k :: 0 <= k < n ==> ds[k] == Dispatch
  {
    if n == 0 then [] else [Dispatch] + DispatchTimes(n - 1)
  }

  lemma {:induction false} DispatchTimesCount(n: nat)
    ensures Dispatches(DispatchTimes(n)) == n
  {
    if n > 0 {
      DispatchTimesCount(n - 1);
    }
  }

  /** `n` requests at one instant inside the window all go out while the
      counter has room for them. */
  lemma {:induction false} BurstWithinRoom(c: int, start: int, now: int, n: nat)
    requires 0 <= c && c + n <= MaxRequestsPerSecond
    requires now - start <= WindowMs
    ensures RunAll(Window(c, start), Repeat(now, n)) == Run(Window(c + n, start), DispatchTimes(n))
    decreases n
  {
    if n > 0 {
      BurstWithinRoom(c + 1, start, now, n - 1);
      assert Repeat(now, n)[1..] == Repeat(now, n - 1);
    }
  }

  /** Six requests at the same instant into an empty window: five go out and
      the sixth waits for the rest of the window. */
  lemma SixAtOnce(start: int, now: int)
    requires start <= now <= start + WindowMs
    ensures RunAll(Window(0, start), Repeat(now, 6)).decisions ==
      DispatchTimes(5) + [Wait(WindowMs - (now - start))]
  {
    assert Repeat(now, 6) == Repeat(now, 5) + [now];
    RunAllAppend(Window(0, start), Repeat(now, 5), [now]);
    BurstWithinRoom(0, start, now, 5);
  }

  /** Re-submitting exactly when the wait ends still finds the window full
      (the reset needs strictly more than a second), so the request waits
      again for zero milliseconds; one millisecond later it goes out. */
  lemma RetryAtDeadline(w: Window, now: int)
    requires Valid(w) && w.requestsInLastSecond == MaxRequestsPerSecond
    requires w.lastRequestTime <= now <= w.lastRequestTime + WindowMs
    ensures var ms := WindowMs - (now - w.lastRequestTime);
      Step(w, now) == StepResult(w, Wait(ms))
      && Step(w, now + ms) == StepResult(w, Wait(0))
      && Step(w, now + ms + 1).decision == Dispatch
  {
  }

  /** The window is not a rolling one: ten requests spread over three
      milliseconds all go out when they straddle a window's end. */
  lemma TenWithinThreeMilliseconds()
    ensures Dispatches(RunAll(Window(0, 0), Repeat(999, 5) + Repeat(1001, 5)).decisions) == 10
  {
    RunAllAppend(Window(0, 0), Repeat(999, 5), Repeat(1001, 5));
    BurstWithinRoom(0, 0, 999, 5);
    // 1001 is more than a second after 0: the window restarts at 1001.
    assert Repeat(1001, 5) == [1001] + Repeat(1001, 4);
    BurstWithinRoom(1, 1001, 1001, 4);
    DispatchesAppend(DispatchTimes(5), [Dispatch] + DispatchTimes(4));
    assert [Dispatch] + DispatchTimes(4) == DispatchTimes(5);
    DispatchTimesCount(5);
  }
}
