/**
 * The process side of the `monitor` package: decoding the `ps` state
 * letter, reading one `ps -o pid,comm,state,rss,vsz,etime,%cpu` row,
 * the command-line fallback, the totals over the server and its child
 * processes, the per-sample process history point, and the key/value
 * extraction from an ffmpeg progress line.
 */
module Process {
  import opened Wrappers
  import opened Text
  import opened Strconv
  import opened Format

  // ---------------------------------------------------------------- state

  /** The state letters `parseState` knows, in the order it tests them. */
  const StateLetters: string := "RSDZTIU"

  /**
   * `parseState`: the empty state is "unknown", a known first letter gives
   * its fixed name, and anything else is passed through unchanged.
   */
  function ParseState(state: string): (r: string)
    ensures state == "" ==> r == "unknown"
    ensures state != "" && state[0] == 'R' ==> r == "running"
    ensures state != "" && state[0] == 'S' ==> r == "sleeping"
    ensures state != "" && state[0] == 'D' ==> r == "disk_sleep"
    ensures state != "" && state[0] == 'Z' ==> r == "zombie"
    ensures state != "" && state[0] == 'T' ==> r == "stopped"
    ensures state != "" && state[0] == 'I' ==> r == "idle"
    ensures state != "" && state[0] == 'U' ==> r == "uninterruptible"
    ensures state != "" ==> (r == state <==> state[0] !in StateLetters)
  {
    if state == [] then "unknown"
    else match state[0]
      case 'R' => "running"
      case 'S' => "sleeping"
      case 'D' => "disk_sleep"
      case 'Z' => "zombie"
      case 'T' => "stopped"
      case 'I' => "idle"
      case 'U' => "uninterruptible"
      case _ => state
  }

  /** Decoding a decoded state changes nothing: every name starts with a lower-case letter. */
  lemma ParseStateIdempotent(state: string)
    ensures ParseState(ParseState(state)) == ParseState(state)
  {
  }

  /** The state is reported as "unknown" exactly when it is empty or literally "unknown". */
  lemma ParseStateUnknown(state: string)
    ensures ParseState(state) == "unknown" <==> state == "" || state == "unknown"
  {
  }

  // ---------------------------------------------------------- one process

  /**
   * One process as the monitor reports it (the CPU percentage, a float,
   * and the never-filled start time are not modelled). `memoryStr` is
   * `None` where the source leaves the string empty.
   */
  datatype ProcessInfo = ProcessInfo(
    pid: int,
    name: string,
    command: string,
    memoryRss: nat,
    memoryVsz: nat,
    memoryStr: Option<ByteSize>,
    state: string,
    runTime: string)

  /** What `getProcessInfo` returns when `ps` fails or prints no row. */
  function Unknown(pid: int): ProcessInfo
  {
    ProcessInfo(pid, "", "", 0, 0, None, "unknown", "")
  }

  /** A `ps` memory column in KiB as 64-bit bytes; an unparseable column stays 0. */
  function KiloBytes(field: string): (r: nat)
    ensures r < TwoTo64
    ensures ParseUint64(field).None? ==> r == 0
  {
    match ParseUint64(field)
    case Some(v) => WrapUint64(v * 1024)
    case None => 0
  }

  /**
   * `getProcessInfo` given what `ps` printed (`None` when it failed) and
   * what `getCommandLine` returns: the second line is split into fields,
   * and only a row of at least seven fields fills in name, state, memory
   * and run time.
   */
  function ProcessInfoOf(pid: int, psOutput: Option<string>, commandLine: string): (info: ProcessInfo)
    ensures info.pid == pid && info.memoryRss < TwoTo64 && info.memoryVsz < TwoTo64
    ensures psOutput.None? ==> info == Unknown(pid)
    ensures info.memoryStr.None? ==> info == Unknown(pid)
    ensures info.memoryStr.Some? ==> info.memoryStr.value == ByteSizeOf(info.memoryRss) && info.command == commandLine
    ensures info.name == "" ==> info.memoryRss == 0 && info.memoryVsz == 0 && info.state == "unknown" && info.runTime == ""
  {
    if psOutput.None? then Unknown(pid)
    else
      var lines := Split(psOutput.value, '\n');
      if |lines| < 2 then Unknown(pid)
      else
        var fs := Fields(lines[1]);
        var row := if |fs| >= 7 then
            ProcessInfo(pid, fs[1], "", KiloBytes(fs[3]), KiloBytes(fs[4]), None, ParseState(fs[2]), fs[5])
          else Unknown(pid);
        row.(memoryStr := Some(ByteSizeOf(row.memoryRss)), command := commandLine)
  }

  /**
   * A header line followed by a row of at least seven space-separated
   * words, whose memory columns are decimal KiB, reads back as that row:
   * name, decoded state, memory in bytes, run time and the command line.
   */
  lemma PsRowRoundTrip(pid: int, header: string, fs: seq<string>, rss: nat, vsz: nat, tail: string, commandLine: string)
    requires '\n' !in header
    requires |fs| >= 7 && forall k :: 0 <= k < |fs| ==> IsWord(fs[k])
    requires rss < TwoTo64 && vsz < TwoTo64 && fs[3] == Itoa(rss) && fs[4] == Itoa(vsz)
    ensures ProcessInfoOf(pid, Some(header + "\n" + (Join(fs, ' ') + "\n" + tail)), commandLine)
      == ProcessInfo(pid, fs[1], commandLine, WrapUint64(rss * 1024), WrapUint64(vsz * 1024),
                     Some(ByteSizeOf(WrapUint64(rss * 1024))), ParseState(fs[2]), fs[5])
  {
    var row := Join(fs, ' ');
    forall k | 0 <= k < |fs|
      ensures '\n' !in fs[k]
    {
      assert IsWord(fs[k]);
    }
    JoinWithout(fs, ' ', '\n');
    SecondLine(header, row, tail);
    FieldsJoin(fs);
    ParseUint64Itoa(rss);
    ParseUint64Itoa(vsz);
  }

  /** The line after a header without line breaks is the row that follows it. */
  lemma SecondLine(header: string, row: string, tail: string)
    requires '\n' !in header && '\n' !in row
    ensures var lines := Split(header + "\n" + (row + "\n" + tail), '\n');
      |lines| >= 2 && lines[1] == row
  {
    SplitFirst(row, '\n', tail);
    SplitFirst(header, '\n', row + "\n" + tail);
  }

  // --------------------------------------------------------- command line

  /** The `ps` fallback keeps at most 200 characters and marks a cut with "...". */
  function Truncate(cmdLine: string): (r: string)
    ensures |r| <= 203
    ensures |cmdLine| <= 200 ==> r == cmdLine
    ensures |cmdLine| > 200 ==> |r| == 203 && r[..200] == cmdLine[..200] && r[200..] == "..."
  {
    if |cmdLine| > 200 then cmdLine[..200] + "..." else cmdLine
  }

  /** A truncated command line is not cut a second time. */
  lemma TruncateIdempotent(cmdLine: string)
    ensures Truncate(Truncate(cmdLine)) == Truncate(cmdLine)
  {
    if |cmdLine| > 200 {
      var r := Truncate(cmdLine);
      assert r[..200] + "..." == r;
    }
  }

  /** `strings.ReplaceAll(data, "\x00", " ")`. */
  function NulsToSpaces(data: string): (r: string)
    ensures |r| == |data| && '\0' !in r
    ensures forall i :: 0 <= i < |data| && data[i] != '\0' ==> r[i] == data[i]
  {
    seq(|data|, i requires 0 <= i < |data| => if data[i] == '\0' then ' ' else data[i])
  }

  /**
   * `getCommandLine` given the contents of `/proc/<pid>/cmdline` and the
   * output of `ps -o command=` (`None` where the read or the command
   * failed): the arguments joined by spaces, else the trimmed and
   * truncated `ps` line, else the empty string.
   */
  function CommandLine(procData: Option<string>, psOutput: Option<string>): (r: string)
    ensures procData.Some? ==> r == NulsToSpaces(procData.value)
    ensures procData.None? && psOutput.None? ==> r == ""
    ensures procData.None? && psOutput.Some? ==> r == Truncate(TrimSpace(psOutput.value))
  {
    if procData.Some? then NulsToSpaces(procData.value)
    else if psOutput.None? then ""
    else Truncate(TrimSpace(psOutput.value))
  }

  // --------------------------------------------------------------- totals

  /** The server process, its children, and their totals. */
  datatype SystemInfo = SystemInfo(
    main: ProcessInfo,
    children: seq<ProcessInfo>,
    totalProcesses: nat,
    totalMemory: nat,
    totalMemoryStr: ByteSize)

  /** The resident memory of `ps`, added up without wrap-around. */
  function SumRss(ps: seq<ProcessInfo>): nat
  {
    if ps == [] then 0 else SumRss(ps[..|ps| - 1]) + ps[|ps| - 1].memoryRss
  }

  /** The total a `SystemInfo` holds is the 64-bit sum of the resident memory it lists. */
  predicate Totalled(info: SystemInfo)
  {
    info.totalMemory == WrapUint64(info.main.memoryRss + SumRss(info.children))
  }

  /**
   * The totals of `GetSystemInfo` given the main process and its children
   * as the operating system reports them: one process plus the children,
   * and the resident memory added up in `uint64`.
   */
  method GetSystemInfo(main: ProcessInfo, children: seq<ProcessInfo>) returns (info: SystemInfo)
    requires main.memoryRss < TwoTo64
    ensures info.main == main && info.children == children
    ensures info.totalProcesses == 1 + |children|
    ensures Totalled(info) && info.totalMemory < TwoTo64
    ensures info.totalMemoryStr == ByteSizeOf(info.totalMemory)
  {
    var total := main.memoryRss;
    var i := 0;
    while i < |children|
      invariant 0 <= i <= |children|
      invariant total == WrapUint64(main.memoryRss + SumRss(children[..i]))
    {
      assert children[..i + 1][..i] == children[..i];
      WrapUint64Add(main.memoryRss + SumRss(children[..i]), children[i].memoryRss);
      total := WrapUint64(total + children[i].memoryRss);
      i := i + 1;
    }
    assert children[..i] == children;
    var str := FormatBytes(total);
    info := SystemInfo(main, children, 1 + |children|, total, str);
  }

  // ----------------------------------------------------- process history

  /** One sample of the process history (the CPU sums, floats, are not modelled). */
  datatype ProcessPoint = ProcessPoint(
    timestamp: int,
    mainMem: nat,
    ffmpegMem: nat,
    totalMem: nat,
    ffmpegCount: nat)

  /** A child counts as ffmpeg when its lower-cased name contains "ffmpeg". */
  predicate IsFfmpeg(p: ProcessInfo)
  {
    Contains(ToLower(p.name), "ffmpeg")
  }

  /** The processes whose `keep` verdict is `want`, in order. */
  function Select(ps: seq<ProcessInfo>, keep: ProcessInfo -> bool, want: bool): seq<ProcessInfo>
  {
    if ps == [] then []
    else Select(ps[..|ps| - 1], keep, want) + (if keep(ps[|ps| - 1]) == want then [ps[|ps| - 1]] else [])
  }

  /** The ffmpeg children, in order. */
  function Ffmpeg(ps: seq<ProcessInfo>): seq<ProcessInfo>
  {
    Select(ps, IsFfmpeg, true)
  }

  /** The other children, in order. */
  function Others(ps: seq<ProcessInfo>): seq<ProcessInfo>
  {
    Select(ps, IsFfmpeg, false)
  }

  lemma SumRssSnoc(ps: seq<ProcessInfo>, p: ProcessInfo)
    ensures SumRss(ps + [p]) == SumRss(ps) + p.memoryRss
  {
    assert (ps + [p])[..|ps|] == ps;
  }

  /** The resident memory of any list splits into that of the kept processes and the rest. */
  lemma {:induction false} SumRssPartition(ps: seq<ProcessInfo>, keep: ProcessInfo -> bool)
    ensures SumRss(ps) == SumRss(Select(ps, keep, true)) + SumRss(Select(ps, keep, false))
    decreases |ps|
  {
    if ps != [] {
      var init, last := ps[..|ps| - 1], ps[|ps| - 1];
      SumRssPartition(init, keep);
      if keep(last) {
        assert Select(ps, keep, true) == Select(init, keep, true) + [last];
        assert Select(ps, keep, false) == Select(init, keep, false);
        SumRssSnoc(Select(init, keep, true), last);
      } else {
        assert Select(ps, keep, true) == Select(init, keep, true);
        assert Select(ps, keep, false) == Select(init, keep, false) + [last];
        SumRssSnoc(Select(init, keep, false), last);
      }
    }
  }

  /** The children's resident memory is that of the ffmpeg children plus that of the others. */
  lemma FfmpegPartition(ps: seq<ProcessInfo>)
    ensures SumRss(ps) == SumRss(Ffmpeg(ps)) + SumRss(Others(ps))
  {
    SumRssPartition(ps, IsFfmpeg);
  }

  /**
   * The point `CollectProcessHistory` records: the main process memory,
   * the 64-bit sum over ffmpeg children, the total, and the number of all
   * children.
   */
  function PointOf(info: SystemInfo, now: int): ProcessPoint
  {
    ProcessPoint(now, info.main.memoryRss, WrapUint64(SumRss(Ffmpeg(info.children))), info.totalMemory, |info.children|)
  }

  /** The summing loop of `CollectProcessHistory`. */
  method ProcessPointOf(info: SystemInfo, now: int) returns (p: ProcessPoint)
    ensures p == PointOf(info, now)
  {
    var children := info.children;
    var ffmpegMem := 0;
    var i := 0;
    while i < |children|
      invariant 0 <= i <= |children|
      invariant ffmpegMem == WrapUint64(SumRss(Ffmpeg(children[..i])))
    {
      var child := children[i];
      assert children[..i + 1][..i] == children[..i];
      if IsFfmpeg(child) {
        assert Ffmpeg(children[..i + 1]) == Ffmpeg(children[..i]) + [child];
        SumRssSnoc(Ffmpeg(children[..i]), child);
        WrapUint64Add(SumRss(Ffmpeg(children[..i])), child.memoryRss);
        ffmpegMem := WrapUint64(ffmpegMem + child.memoryRss);
      } else {
        assert Ffmpeg(children[..i + 1]) == Ffmpeg(children[..i]);
      }
      i := i + 1;
    }
    assert children[..i] == children;
    p := ProcessPoint(now, info.main.memoryRss, ffmpegMem, info.totalMemory, |children|);
  }

  /**
   * In a recorded point, the main memory plus the ffmpeg memory plus the
   * memory of the other children comes to the total (in 64-bit arithmetic).
   */
  lemma PointAddsUp(info: SystemInfo, now: int)
    requires Totalled(info)
    ensures var p := PointOf(info, now);
      WrapUint64(p.mainMem + p.ffmpegMem + SumRss(Others(info.children))) == p.totalMem
  {
    var m, f, o := info.main.memoryRss, SumRss(Ffmpeg(info.children)), SumRss(Others(info.children));
    FfmpegPartition(info.children);
    WrapSum(m, f, o, SumRss(info.children), info.totalMemory);
  }

  /** Wrapping one summand first does not change the wrapped sum. */
  lemma WrapSum(m: int, f: int, o: int, sum: int, total: int)
    requires sum == f + o && total == WrapUint64(m + sum)
    ensures WrapUint64(m + WrapUint64(f) + o) == total
  {
    WrapUint64Add(f, m + o);
    assert m + WrapUint64(f) + o == WrapUint64(f) + (m + o);
    assert m + (f + o) == f + (m + o);
  }

  // ------------------------------------------------------- ffmpeg progress

  /** The fields `ParseFFmpegProgress` extracts (the float `fps` is not modelled). */
  datatype FfmpegStats = FfmpegStats(frame: int, size: string, time: string, bitrate: string, speed: string)

  /**
   * The first white-space separated word after the first occurrence of
   * `key`, or `None` when `key` does not occur or only spaces follow it.
   */
  function ValueAfter(line: string, key: string): (r: Option<string>)
    ensures IndexOf(line, key) < 0 ==> r.None?
    ensures r.Some? ==> IsWord(r.value)
  {
    var idx := IndexOf(line, key);
    if idx < 0 then None else FirstField(line[idx + |key|..])
  }

  /** The first field of `s`, if it has one. */
  function FirstField(s: string): (r: Option<string>)
    ensures r.Some? ==> IsWord(r.value)
  {
    var fs := Fields(s);
    if |fs| > 0 then Some(fs[0]) else None
  }

  /** Spaces, a word, then a space or nothing: the word is the first field. */
  lemma FirstFieldWord(sp: string, word: string, rest: string)
    requires forall i :: 0 <= i < |sp| ==> IsSpace(sp[i])
    requires IsWord(word) && (rest == [] || IsSpace(rest[0]))
    ensures FirstField(sp + (word + rest)) == Some(word)
  {
    FieldsSpaces(sp, word + rest);
    FieldsWord(word, rest);
  }

  /**
   * When `key` first occurs right after `prefix` and is followed by
   * spaces and a word, that word is the value.
   */
  lemma ValueAfterFirst(prefix: string, key: string, sp: string, word: string, rest: string)
    requires forall j :: 0 <= j < |prefix| ==> !OccursAt(prefix + key + sp + word + rest, key, j)
    requires forall i :: 0 <= i < |sp| ==> IsSpace(sp[i])
    requires IsWord(word) && (rest == [] || IsSpace(rest[0]))
    ensures ValueAfter(prefix + key + sp + word + rest, key) == Some(word)
  {
    var line := prefix + key + sp + word + rest;
    assert line[|prefix|..|prefix| + |key|] == key;
    IndexOfFirst(line, key, |prefix|);
    var after := line[|prefix| + |key|..];
    assert after == sp + (word + rest);
    FirstFieldWord(sp, word, rest);
  }

  /** An occurrence with none before it is the one `IndexOf` finds. */
  lemma IndexOfFirst(line: string, key: string, p: int)
    requires OccursAt(line, key, p) && forall j :: 0 <= j < p ==> !OccursAt(line, key, j)
    ensures IndexOf(line, key) == p
  {
  }

  /** A missing value leaves the string field empty. */
  function TextOr(v: Option<string>): string
  {
    if v.Some? then v.value else ""
  }

  /** The frame count: the value after "frame=" through `ParseInt`, its error ignored. */
  function FrameOf(line: string): (r: int)
    ensures MinInt64 <= r <= MaxInt64
    ensures ValueAfter(line, "frame=").None? ==> r == 0
    ensures ValueAfter(line, "frame=").Some? && SignedValue(ValueAfter(line, "frame=").value).None? ==> r == 0
  {
    var frame := ValueAfter(line, "frame=");
    if frame.Some? then ParseInt64Lenient(frame.value) else 0
  }

  /**
   * `ParseFFmpegProgress`: each field is the value after its key, and a
   * missing one keeps its zero value.
   */
  function ParseFfmpegProgress(line: string): (r: FfmpegStats)
    ensures r.frame == FrameOf(line)
    ensures r.size == TextOr(ValueAfter(line, "size=")) && r.time == TextOr(ValueAfter(line, "time="))
    ensures r.bitrate == TextOr(ValueAfter(line, "bitrate=")) && r.speed == TextOr(ValueAfter(line, "speed="))
  {
    FfmpegStats(
      FrameOf(line),
      TextOr(ValueAfter(line, "size=")),
      TextOr(ValueAfter(line, "time=")),
      TextOr(ValueAfter(line, "bitrate=")),
      TextOr(ValueAfter(line, "speed=")))
  }

  /** A progress line that starts with a printed frame count reads that count back. */
  lemma FrameRoundTrip(n: int, sp: string, rest: string)
    requires MinInt64 <= n <= MaxInt64
    requires forall i :: 0 <= i < |sp| ==> IsSpace(sp[i])
    requires rest == [] || IsSpace(rest[0])
    ensures FrameOf("frame=" + sp + Itoa(n) + rest) == n
  {
    var w := Itoa(n);
    assert IsWord(w);
    LeadingValue("frame=", sp, w, rest);
    AtoiItoa(n);
  }

  /** A line that starts with the key: the first word after it is the value. */
  lemma LeadingValue(key: string, sp: string, word: string, rest: string)
    requires forall i :: 0 <= i < |sp| ==> IsSpace(sp[i])
    requires IsWord(word) && (rest == [] || IsSpace(rest[0]))
    ensures ValueAfter(key + sp + word + rest, key) == Some(word)
  {
    var line := key + sp + word + rest;
    assert line[..|key|] == key;
    assert OccursAt(line, key, 0);
    var after := line[|key|..];
    assert after == sp + (word + rest);
    FirstFieldWord(sp, word, rest);
  }
}
