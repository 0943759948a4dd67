/**
 * The request-latency window of app.py (`request_times`, filled by
 * `after_request` and read by `MetricsAPI.get`) and the debug/host guard
 * of its `__main__` block.
 */
module App {
  import opened Wrappers
  import Settings

  // ----- The bounded window -----

  /** `after_request` keeps only the last 1000 durations. */
  const WindowLimit: nat := 1000

  /**
   * One `after_request`: append the new duration, then drop the oldest
   * entry if the list has grown beyond the limit.
   */
  function Record<T>(window: seq<T>, duration: T): (r: seq<T>)
    ensures |r| > 0 && r[|r| - 1] == duration
    ensures |window| <= WindowLimit ==> |r| <= WindowLimit
    ensures |window| < WindowLimit ==> r == window + [duration]
    ensures |window| >= WindowLimit ==> r == window[1..] + [duration]
  {
    var appended := window + [duration];
    if |appended| > WindowLimit then appended[1..] else appended
  }

  /** The last `n` elements of `s` (all of `s` when it is shorter). */
  function Suffix<T>(s: seq<T>, n: nat): (r: seq<T>)
    ensures |r| == if |s| <= n then |s| else n
  {
    if |s| <= n then s else s[|s| - n..]
  }

  /** The window after a run of requests, one `Record` per duration. */
  function RecordAll<T>(window: seq<T>, durations: seq<T>): seq<T> {
    if durations == [] then window
    else Record(RecordAll(window, durations[..|durations| - 1]), durations[|durations| - 1])
  }

  /** One more request moves the last-1000 view of the history along by one. */
  lemma RecordSuffix<T>(history: seq<T>, d: T)
    ensures Record(Suffix(history, WindowLimit), d) == Suffix(history + [d], WindowLimit)
  {
    var x := Suffix(history, WindowLimit);
    if |history| >= WindowLimit {
      var k := |history| - WindowLimit;
      assert x == history[k..];
      assert x[1..] == history[k + 1..];
      assert (history + [d])[k + 1..] == history[k + 1..] + [d];
    }
  }

  /**
   * Whatever the run of requests, the window holds exactly the last 1000
   * durations, oldest first: first in, first out.
   */
  lemma {:induction false} WindowKeepsLastDurations<T>(window: seq<T>, durations: seq<T>)
    requires |window| <= WindowLimit
    ensures RecordAll(window, durations) == Suffix(window + durations, WindowLimit)
  {
    if durations != [] {
      var earlier := durations[..|durations| - 1];
      var d := durations[|durations| - 1];
      WindowKeepsLastDurations(window, earlier);
      RecordSuffix(window + earlier, d);
      assert window + durations == (window + earlier) + [d];
    }
  }

  // ----- The metrics report -----

  /** No duration in `s` is negative, stated the way `Sum` takes `s` apart. */
  predicate NonNegative(s: seq<real>) {
    s == [] || (0.0 <= s[|s| - 1] && NonNegative(s[..|s| - 1]))
  }

  /** `NonNegative` says that every element is non-negative. */
  lemma {:induction false} NonNegativeEach(s: seq<real>)
    ensures NonNegative(s) <==> forall i :: 0 <= i < |s| ==> 0.0 <= s[i]
  {
    if s != [] {
      var t := s[..|s| - 1];
      NonNegativeEach(t);
      assert forall i :: 0 <= i < |t| ==> t[i] == s[i];
    }
  }

  /** `sum(request_times)`, in exact arithmetic: durations never sum to less than zero. */
  function Sum(s: seq<real>): (r: real)
    ensures NonNegative(s) ==> 0.0 <= r
  {
    if s == [] then 0.0 else Sum(s[..|s| - 1]) + s[|s| - 1]
  }

  /** What `MetricsAPI.get` returns. */
  datatype MetricsReport = MetricsReport(
    requestsTotal: nat, requestsPerSecond: real, averageResponseTime: real)

  /** `len(request_times) / (time.time() - start_time)` raising on a zero divisor. */
  datatype MetricsError = ZeroDivision

  /**
   * `MetricsAPI.get` for a window and the time elapsed since start-up:
   * zeros for an empty window, otherwise the mean duration and the number
   * of windowed requests per second.
   */
  function Summarize(window: seq<real>, elapsed: real): (r: Result<MetricsReport, MetricsError>)
    ensures r.Failure? <==> window != [] && elapsed == 0.0
    ensures r.Success? ==> r.value.requestsTotal == |window|
    ensures window == [] ==> r == Success(MetricsReport(0, 0.0, 0.0))
    ensures r.Success? && window != [] ==>
      && r.value.averageResponseTime * |window| as real == Sum(window)
      && r.value.requestsPerSecond * elapsed == |window| as real
  {
    if window == [] then Success(MetricsReport(0, 0.0, 0.0))
    else if elapsed == 0.0 then Failure(ZeroDivision)
    else
      Success(MetricsReport(
        requestsTotal := |window|,
        requestsPerSecond := |window| as real / elapsed,
        averageResponseTime := Sum(window) / |window| as real))
  }

  /** Every duration in `s` lies between `lo` and `hi`. */
  predicate Between(s: seq<real>, lo: real, hi: real) {
    forall i :: 0 <= i < |s| ==> lo <= s[i] <= hi
  }

  /** Dropping the newest duration keeps the bounds. */
  lemma BetweenPrefix(s: seq<real>, lo: real, hi: real)
    requires s != [] && Between(s, lo, hi)
    ensures Between(s[..|s| - 1], lo, hi) && lo <= s[|s| - 1] <= hi
  {
    var t := s[..|s| - 1];
    assert forall i :: 0 <= i < |t| ==> t[i] == s[i];
  }

  /** Adding one more bounded term to a bounded total of `n` terms. */
  lemma StepBounds(total: real, x: real, n: real, m: real, lo: real, hi: real)
    requires n * lo <= total <= n * hi && lo <= x <= hi && m == n + 1.0
    ensures m * lo <= total + x <= m * hi
  {
  }

  lemma {:induction false} SumBounds(s: seq<real>, lo: real, hi: real)
    requires Between(s, lo, hi)
    ensures |s| as real * lo <= Sum(s) <= |s| as real * hi
  {
    if s != [] {
      var t := s[..|s| - 1];
      BetweenPrefix(s, lo, hi);
      SumBounds(t, lo, hi);
      StepBounds(Sum(t), s[|s| - 1], |t| as real, |s| as real, lo, hi);
    }
  }

  /** Dividing by a positive count keeps bounds that hold for the scaled total. */
  lemma QuotientBounds(x: real, n: real, lo: real, hi: real)
    requires n > 0.0 && n * lo <= x <= n * hi
    ensures lo <= x / n <= hi
  {
  }

  /** Durations are never negative, so neither is the reported average. */
  lemma AverageNonNegative(window: seq<real>, elapsed: real)
    requires window != [] && elapsed != 0.0
    requires forall i :: 0 <= i < |window| ==> 0.0 <= window[i]
    ensures 0.0 <= Summarize(window, elapsed).value.averageResponseTime
  {
    NonNegativeEach(window);
  }

  /** The reported average lies between the smallest and the largest windowed duration. */
  lemma AverageWithinBounds(window: seq<real>, elapsed: real, lo: real, hi: real)
    requires window != [] && elapsed != 0.0
    requires Between(window, lo, hi)
    ensures lo <= Summarize(window, elapsed).value.averageResponseTime <= hi
  {
    SumBounds(window, lo, hi);
    QuotientBounds(Sum(window), |window| as real, lo, hi);
  }

  /** The module-level `request_times` list. */
  class RequestLog {
    var requestTimes: seq<real>

    /** The window never holds more than 1000 durations. */
    predicate Valid()
      reads this
    {
      |requestTimes| <= WindowLimit
    }

    constructor ()
      ensures Valid() && requestTimes == []
    {
      requestTimes := [];
    }

    /** `after_request`: record one request's duration. */
    method AfterRequest(duration: real)
      requires Valid()
      modifies this
      ensures Valid()
      ensures requestTimes == Record(old(requestTimes), duration)
    {
      requestTimes := requestTimes + [duration];
      if |requestTimes| > WindowLimit {
        requestTimes := requestTimes[1..];
      }
    }

    /** `MetricsAPI.get`, given the seconds elapsed since start-up. */
    method Get(elapsed: real) returns (r: Result<MetricsReport, MetricsError>)
      requires Valid()
      ensures r == Summarize(requestTimes, elapsed)
      ensures r.Success? ==> r.value.requestsTotal <= WindowLimit
    {
      if requestTimes != [] {
        if elapsed == 0.0 {
          return Failure(ZeroDivision);
        }
        var n := |requestTimes| as real;
        return Success(MetricsReport(|requestTimes|, n / elapsed, Sum(requestTimes) / n));
      }
      return Success(MetricsReport(0, 0.0, 0.0));
    }
  }

  // ----- The __main__ guard -----

  const Localhost := "127.0.0.1"

  datatype Startup = Startup(host: string, port: nat, debug: bool)

  /**
   * The `__main__` block: debug is forced off when FLASK_ENV is exactly
   * "production"; a debug server binds to localhost, otherwise to the
   * configured HOST (localhost by default); the port is always 8000.
   */
  function StartupSettings(flaskEnv: Option<string>, configDebug: bool, configHost: Option<string>): (r: Startup)
    ensures flaskEnv == Some("production") ==> !r.debug
    ensures flaskEnv != Some("production") ==> r.debug == configDebug
    ensures r.debug ==> r.host == Localhost
    ensures !r.debug && configHost.Some? ==> r.host == configHost.value
    ensures !r.debug && configHost.None? ==> r.host == Localhost
    ensures r.port == 8000
  {
    var debug := if flaskEnv == Some("production") && configDebug then false else configDebug;
    var host := if debug then Localhost else if configHost.Some? then configHost.value else Localhost;
    Startup(host, 8000, debug)
  }

  /**
   * The guard compares FLASK_ENV exactly, while `get_config` lower-cases it:
   * `get_config` would map FLASK_ENV=Production to the production profile,
   * yet the guard leaves a configured debug on.
   */
  lemma StartupGuardIsCaseSensitive(configHost: Option<string>)
    ensures Settings.SelectProfile("Production") == Settings.Production
    ensures StartupSettings(Some("Production"), true, configHost).debug
  {
    Settings.SelectProfileUpperCase();
  }
}
