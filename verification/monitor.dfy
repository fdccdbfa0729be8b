/**
 * The performance `Monitor`: a bounded history of runtime samples, an
 * edge-triggered alert state machine over memory and goroutine counts,
 * a bounded alert log, and the bounded process history that each sample
 * also records. Reading the runtime statistics, the clock and the
 * operating system's process table are parameters.
 */
module Monitor {
  import opened Wrappers
  import opened Strconv
  import opened Queues
  import opened Format
  import opened Process

  /** One hour of samples taken every five seconds. */
  const HistorySize: nat := 720
  const AlertsLimit: nat := 100
  const DefaultMemThreshold: nat := 512 * 1024 * 1024
  const DefaultGoroutineThreshold: int := 1000
  const PointsPerMinute: nat := 12
  const DefaultMinutes: nat := 60

  /** One runtime sample. */
  datatype HistoryPoint = HistoryPoint(timestamp: int, memAlloc: nat, memSys: nat, numGoroutine: int, numGC: nat)

  /** What an alert message says, kept as its arguments rather than its rendered text. */
  datatype AlertMessage =
    | MemoryOver(alloc: ByteSize, threshold: ByteSize)
    | MemoryNormal(alloc: ByteSize)
    | GoroutinesOver(count: int, limit: int)
    | GoroutinesNormal(count: int)

  /** The value shown with an alert: a formatted size, or a count in decimal. */
  datatype AlertValue = SizeValue(size: ByteSize) | CountValue(text: string)

  datatype Alert = Alert(time: int, kind: string, message: AlertMessage, value: AlertValue, resolved: bool)

  /** The alert kinds that announce a return to normal. */
  predicate IsResolvedKind(kind: string)
  {
    kind == "memory_resolved" || kind == "goroutine_resolved"
  }

  // ------------------------------------------------------ alert machine

  /**
   * One check of one alert kind, given whether the value is over its
   * threshold and whether an alert is currently raised: the `resolved`
   * flag of the alert it adds, or `None` when it adds none.
   */
  function Transition(over: bool, raised: bool): (r: Option<bool>)
    ensures r.Some? <==> over != raised
    ensures r.Some? ==> r.value == !over
  {
    if over && !raised then Some(false)
    else if !over && raised then Some(true)
    else None
  }

  /** The `resolved` flags of the alerts one kind raises over a run of checks. */
  function Raised(raised: bool, overs: seq<bool>): seq<bool>
    decreases |overs|
  {
    if overs == [] then []
    else
      var step := Transition(overs[0], raised);
      (if step.Some? then [step.value] else []) + Raised(overs[0], overs[1..])
  }

  /**
   * Alerts of one kind alternate: the first one resolves exactly when an
   * alert was already raised, no two consecutive ones are both raised or
   * both resolved, and there is at most one per check.
   */
  lemma {:induction false} AlertsAlternate(raised: bool, overs: seq<bool>)
    ensures var r := Raised(raised, overs);
      && |r| <= |overs|
      && (|r| > 0 ==> r[0] == raised)
      && (forall i :: 0 <= i < |r| - 1 ==> r[i] != r[i + 1])
    decreases |overs|
  {
    if overs != [] {
      AlertsAlternate(overs[0], overs[1..]);
    }
  }

  /** A steady value raises nothing after the first check. */
  lemma {:induction false} SteadyIsQuiet(raised: bool, over: bool, n: nat)
    ensures |Raised(raised, seq(n, _ => over))| == if n > 0 && over != raised then 1 else 0
    decreases n
  {
    if n > 0 {
      var overs := seq(n, _ => over);
      assert overs[1..] == seq(n - 1, _ => over);
      SteadyIsQuiet(over, over, n - 1);
    }
  }

  /** The memory alert a sample adds: over the threshold raises, back at or below resolves. */
  function MemoryAlerts(alloc: nat, threshold: nat, raised: bool, now: int): (r: seq<Alert>)
    ensures |r| <= 1 && (r != [] <==> (alloc > threshold) != raised)
    ensures r != [] ==> r[0].resolved == (alloc <= threshold) && r[0].resolved == IsResolvedKind(r[0].kind)
    ensures r != [] ==> r[0].value == SizeValue(ByteSizeOf(alloc)) && r[0].time == now
  {
    match Transition(alloc > threshold, raised)
    case None => []
    case Some(resolved) =>
      if resolved then [Alert(now, "memory_resolved", MemoryNormal(ByteSizeOf(alloc)), SizeValue(ByteSizeOf(alloc)), true)]
      else [Alert(now, "memory", MemoryOver(ByteSizeOf(alloc), ByteSizeOf(threshold)), SizeValue(ByteSizeOf(alloc)), false)]
  }

  /** The goroutine alert a sample adds, by the same rule. */
  function GoroutineAlerts(count: int, threshold: int, raised: bool, now: int): (r: seq<Alert>)
    ensures |r| <= 1 && (r != [] <==> (count > threshold) != raised)
    ensures r != [] ==> r[0].resolved == (count <= threshold) && r[0].resolved == IsResolvedKind(r[0].kind)
    ensures r != [] ==> r[0].value == CountValue(Itoa(count)) && r[0].time == now
  {
    match Transition(count > threshold, raised)
    case None => []
    case Some(resolved) =>
      if resolved then [Alert(now, "goroutine_resolved", GoroutinesNormal(count), CountValue(Itoa(count)), true)]
      else [Alert(now, "goroutine", GoroutinesOver(count, threshold), CountValue(Itoa(count)), false)]
  }

  // ------------------------------------------------------- history window

  /**
   * How many of the newest `len` samples `GetHistory(minutes)` and
   * `GetProcessHistory(minutes)` return, with the count of samples worked
   * out without overflow: twelve per minute, an hour when `minutes` is not
   * positive, at most all of them.
   */
  function HistoryWindow(minutes: int, len: nat): (r: nat)
    ensures r <= len && r <= RequestedPoints(minutes)
    ensures RequestedPoints(minutes) <= len ==> r == RequestedPoints(minutes)
    ensures len < RequestedPoints(minutes) ==> r == len
  {
    var points := RequestedPoints(minutes);
    if points > len then len else points
  }

  /** The samples asked for: twelve per minute, an hour's worth when `minutes` is not positive. */
  function RequestedPoints(minutes: int): nat
  {
    PointsPerMinute * (if minutes <= 0 then DefaultMinutes else minutes)
  }

  /** Asking for more minutes never returns fewer samples. */
  lemma HistoryWindowMonotone(a: int, b: int, len: nat)
    requires 0 < a <= b
    ensures HistoryWindow(a, len) <= HistoryWindow(b, len)
  {
  }

  /**
   * The window as the source computes it: `minutes * 12` in 64-bit
   * arithmetic, capped at the length; `None` stands for the panic of
   * `make` with a negative length.
   */
  function HistoryWindowAsWritten(minutes: int, len: nat): (r: Option<nat>)
    requires MinInt64 <= minutes <= MaxInt64
    ensures r.Some? ==> r.value <= len
  {
    var m := if minutes <= 0 then DefaultMinutes else minutes;
    var points := WrapInt64(m * PointsPerMinute);
    var capped := if points > len then len else points;
    if capped < 0 then None else Some(capped)
  }

  /** Up to a twelfth of the largest 64-bit integer the two windows agree. */
  lemma HistoryWindowAgrees(minutes: int, len: nat)
    requires MinInt64 <= minutes <= MaxInt64 / 12
    ensures HistoryWindowAsWritten(minutes, len) == Some(HistoryWindow(minutes, len))
  {
  }

  /**
   * Past that, the multiplication wraps: one request panics, and one asks
   * for more minutes than one minute's worth yet gets fewer samples.
   */
  lemma HistoryWindowOverflow()
    ensures HistoryWindowAsWritten(768614336404564652, HistorySize) == None
    ensures HistoryWindowAsWritten(1537228672809129302, HistorySize) == Some(8)
    ensures HistoryWindowAsWritten(1, HistorySize) == Some(12)
    ensures HistoryWindow(1537228672809129302, HistorySize) == HistorySize
  {
    assert 768614336404564652 * 12 == MaxInt64 + 17;
    assert 1537228672809129302 * 12 == TwoTo64 + 8;
  }

  // -------------------------------------------------------------- monitor

  class Monitor {
    const startTime: int
    var history: seq<HistoryPoint>
    var alerts: seq<Alert>
    var memThreshold: nat
    var goroutineThreshold: int
    var lastMemAlert: bool
    var lastGoroutineAlert: bool
    /** The package-level process history, kept with the one monitor that fills it. */
    var processHistory: seq<ProcessPoint>

    ghost predicate Valid()
      reads this
    {
      |history| <= HistorySize && |alerts| <= AlertsLimit && |processHistory| <= HistorySize
      && memThreshold < TwoTo64
    }

    /** `NewMonitor`: empty history and alerts, 512 MiB and 1000 goroutines, no alert raised. */
    constructor(now: int)
      ensures Valid()
      ensures startTime == now && history == [] && alerts == [] && processHistory == []
      ensures memThreshold == DefaultMemThreshold && goroutineThreshold == DefaultGoroutineThreshold
      ensures !lastMemAlert && !lastGoroutineAlert
    {
      startTime := now;
      history := [];
      alerts := [];
      memThreshold := DefaultMemThreshold;
      goroutineThreshold := DefaultGoroutineThreshold;
      lastMemAlert := false;
      lastGoroutineAlert := false;
      processHistory := [];
    }

    /**
     * `SetThresholds`: a positive memory limit in MiB becomes bytes (in
     * 64-bit arithmetic), a positive goroutine limit is taken as is, and
     * anything else leaves its threshold alone.
     */
    method SetThresholds(memMB: int, goroutines: int)
      requires Valid() && MinInt64 <= memMB <= MaxInt64
      modifies this
      ensures Valid()
      ensures memThreshold == if memMB > 0 then WrapUint64(memMB * 1024 * 1024) else old(memThreshold)
      ensures goroutineThreshold == if goroutines > 0 then goroutines else old(goroutineThreshold)
      ensures history == old(history) && alerts == old(alerts) && processHistory == old(processHistory)
      ensures lastMemAlert == old(lastMemAlert) && lastGoroutineAlert == old(lastGoroutineAlert)
    {
      if memMB > 0 {
        memThreshold := WrapUint64(memMB * 1024 * 1024);
      }
      if goroutines > 0 {
        goroutineThreshold := goroutines;
      }
    }

    /**
     * `addAlert`: the alert is resolved exactly for the two "resolved"
     * kinds, and the log keeps its newest 100 entries.
     */
    method AddAlert(kind: string, message: AlertMessage, value: AlertValue, now: int)
      requires Valid()
      modifies this
      ensures Valid()
      ensures alerts == Newest(old(alerts) + [Alert(now, kind, message, value, IsResolvedKind(kind))], AlertsLimit)
      ensures history == old(history) && processHistory == old(processHistory)
      ensures memThreshold == old(memThreshold) && goroutineThreshold == old(goroutineThreshold)
      ensures lastMemAlert == old(lastMemAlert) && lastGoroutineAlert == old(lastGoroutineAlert)
    {
      var alert := Alert(now, kind, message, value, kind == "memory_resolved" || kind == "goroutine_resolved");
      alerts := alerts + [alert];
      if |alerts| > AlertsLimit {
        alerts := alerts[1..];
      }
    }

    /**
     * `checkAlerts`: each flag ends up recording whether its value is over
     * its threshold, and an alert is added exactly when a flag changes.
     */
    method CheckAlerts(point: HistoryPoint, now: int)
      requires Valid()
      modifies this
      ensures Valid()
      ensures lastMemAlert == (point.memAlloc > memThreshold)
      ensures lastGoroutineAlert == (point.numGoroutine > goroutineThreshold)
      ensures alerts == Newest(old(alerts)
        + MemoryAlerts(point.memAlloc, memThreshold, old(lastMemAlert), now)
        + GoroutineAlerts(point.numGoroutine, goroutineThreshold, old(lastGoroutineAlert), now), AlertsLimit)
      ensures history == old(history) && processHistory == old(processHistory)
      ensures memThreshold == old(memThreshold) && goroutineThreshold == old(goroutineThreshold)
    {
      var mem := MemoryAlerts(point.memAlloc, memThreshold, lastMemAlert, now);
      var gor := GoroutineAlerts(point.numGoroutine, goroutineThreshold, lastGoroutineAlert, now);
      ghost var before := alerts;
      if point.memAlloc > memThreshold {
        if !lastMemAlert {
          AddAlert("memory", MemoryOver(ByteSizeOf(point.memAlloc), ByteSizeOf(memThreshold)),
            SizeValue(ByteSizeOf(point.memAlloc)), now);
          lastMemAlert := true;
        }
      } else if lastMemAlert {
        AddAlert("memory_resolved", MemoryNormal(ByteSizeOf(point.memAlloc)), SizeValue(ByteSizeOf(point.memAlloc)), now);
        lastMemAlert := false;
      }
      assert alerts == Newest(before + mem, AlertsLimit);
      ghost var middle := alerts;
      if point.numGoroutine > goroutineThreshold {
        if !lastGoroutineAlert {
          AddAlert("goroutine", GoroutinesOver(point.numGoroutine, goroutineThreshold),
            CountValue(Itoa(point.numGoroutine)), now);
          lastGoroutineAlert := true;
        }
      } else if lastGoroutineAlert {
        AddAlert("goroutine_resolved", GoroutinesNormal(point.numGoroutine), CountValue(Itoa(point.numGoroutine)), now);
        lastGoroutineAlert := false;
      }
      if gor == [] {
        assert before + mem + gor == before + mem;
      } else {
        NewestSnoc(before + mem, AlertsLimit, gor[0]);
        assert before + mem + gor == (before + mem) + [gor[0]];
      }
    }

    /**
     * `CollectProcessHistory` given the system information of this
     * sample: its point is appended and only the newest 720 are kept.
     */
    method CollectProcessHistory(info: SystemInfo, now: int)
      requires Valid()
      modifies this
      ensures Valid()
      ensures processHistory == Newest(old(processHistory) + [PointOf(info, now)], HistorySize)
      ensures history == old(history) && alerts == old(alerts)
      ensures memThreshold == old(memThreshold) && goroutineThreshold == old(goroutineThreshold)
      ensures lastMemAlert == old(lastMemAlert) && lastGoroutineAlert == old(lastGoroutineAlert)
    {
      var point := ProcessPointOf(info, now);
      processHistory := processHistory + [point];
      if |processHistory| > HistorySize {
        processHistory := processHistory[1..];
      }
    }

    /**
     * `collect` given the runtime sample and the system information: the
     * sample is appended and only the newest 720 are kept, the alerts are
     * checked against it, and the process history records its point.
     */
    method Collect(point: HistoryPoint, info: SystemInfo, now: int)
      requires Valid()
      modifies this
      ensures Valid()
      ensures history == Newest(old(history) + [point], HistorySize)
      ensures lastMemAlert == (point.memAlloc > memThreshold)
      ensures lastGoroutineAlert == (point.numGoroutine > goroutineThreshold)
      ensures alerts == Newest(old(alerts)
        + MemoryAlerts(point.memAlloc, memThreshold, old(lastMemAlert), now)
        + GoroutineAlerts(point.numGoroutine, goroutineThreshold, old(lastGoroutineAlert), now), AlertsLimit)
      ensures processHistory == Newest(old(processHistory) + [PointOf(info, now)], HistorySize)
      ensures memThreshold == old(memThreshold) && goroutineThreshold == old(goroutineThreshold)
    {
      history := history + [point];
      if |history| > HistorySize {
        history := history[1..];
      }
      CheckAlerts(point, now);
      CollectProcessHistory(info, now);
    }

    /** `GetHistory`: the newest samples of the window, oldest first. */
    function GetHistory(minutes: int): (r: seq<HistoryPoint>)
      reads this
      ensures |r| == HistoryWindow(minutes, |history|)
      ensures |r| == if RequestedPoints(minutes) <= |history| then RequestedPoints(minutes) else |history|
      ensures r == history[|history| - |r|..]
    {
      history[|history| - HistoryWindow(minutes, |history|)..]
    }

    /** `GetProcessHistory`: the same window over the process history. */
    function GetProcessHistory(minutes: int): (r: seq<ProcessPoint>)
      reads this
      ensures |r| == HistoryWindow(minutes, |processHistory|)
      ensures |r| == if RequestedPoints(minutes) <= |processHistory| then RequestedPoints(minutes) else |processHistory|
      ensures r == processHistory[|processHistory| - |r|..]
    {
      processHistory[|processHistory| - HistoryWindow(minutes, |processHistory|)..]
    }

    /**
     * `GetAlerts`: a limit that is not positive or exceeds the log means
     * the whole log; the result lists the newest alerts first.
     */
    method GetAlerts(limit: int) returns (r: seq<Alert>)
      ensures |r| == if limit <= 0 || limit > |alerts| then |alerts| else limit
      ensures forall i :: 0 <= i < |r| ==> r[i] == alerts[|alerts| - 1 - i]
    {
      var n := limit;
      if limit <= 0 || limit > |alerts| {
        n := |alerts|;
      }
      r := [];
      var i := 0;
      while i < n
        invariant 0 <= i <= n <= |alerts|
        invariant |r| == i
        invariant forall j :: 0 <= j < i ==> r[j] == alerts[|alerts| - 1 - j]
      {
        r := r + [alerts[|alerts| - 1 - i]];
        i := i + 1;
      }
    }
  }

  /** A window of the history after one more sample still ends with that sample. */
  lemma NewestSampleShown(history: seq<HistoryPoint>, point: HistoryPoint, minutes: int)
    ensures var h := Newest(history + [point], HistorySize);
      var w := h[|h| - HistoryWindow(minutes, |h|)..];
      |w| > 0 && w[|w| - 1] == point
  {
    var h := Newest(history + [point], HistorySize);
    assert h[|h| - 1] == point;
  }
}
