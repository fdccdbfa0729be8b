/**
 * The recording index of the `storage` package: recordings are the files
 * `<camera>_<YYYYMMDD>_<HHMMSS>.<format>` that the capture segmenter
 * writes under `<storage path>/<camera>`; they are listed newest first,
 * optionally within a time window, and old ones are cleaned up.
 *
 * The filesystem is an oracle from a directory path to its listing; the
 * current time is a parameter; times are Unix seconds and the local time
 * zone is taken to be UTC.
 */
module Storage {
  import opened Wrappers
  import opened Text
  import opened Strconv
  import opened Config

  /** A directory entry: its name, whether it is a directory, and its size when `Info` succeeds. */
  datatype Entry = Entry(name: string, isDir: bool, size: Option<int>)

  /** What `Stat` and `ReadDir` find at a path. */
  datatype Listing = Missing | Unreadable | Entries(entries: seq<Entry>)

  datatype StorageError = ReadDirFailed(path: string)

  /** `Recording`; `EndTime` and `Duration` are never filled in and are left out. */
  datatype Recording = Recording(
    id: string, cameraId: string, fileName: string, filePath: string, startTime: int, size: int)

  /** The optional bounds of a listing; `None` stands for the zero `time.Time`. */
  datatype Window = Window(start: Option<int>, end: Option<int>)

  const Unbounded: Window := Window(None, None)
  const SecondsPerDay: int := 86400

  predicate InWindow(w: Window, t: int)
  {
    (w.start.None? || w.start.value <= t) && (w.end.None? || t <= w.end.value)
  }

  // ---------------------------------------------------------------------
  // The `20060102_150405` timestamp
  // ---------------------------------------------------------------------

  datatype Civil = Civil(year: nat, month: nat, day: nat, hour: nat, minute: nat, second: nat)

  predicate IsLeap(y: int)
  {
    y % 4 == 0 && (y % 100 != 0 || y % 400 == 0)
  }

  function DaysIn(y: int, m: int): (n: int)
    requires 1 <= m <= 12
    ensures 28 <= n <= 31
  {
    if m == 2 then (if IsLeap(y) then 29 else 28)
    else if m == 4 || m == 6 || m == 9 || m == 11 then 30
    else 31
  }

  /** The fields Go's layout parser accepts: a four-digit year and in-range fields. */
  predicate ValidCivil(c: Civil)
  {
    c.year <= 9999 && 1 <= c.month <= 12 && 1 <= c.day <= DaysIn(c.year, c.month)
    && c.hour < 24 && c.minute < 60 && c.second < 60
  }

  /** Days since 1970-01-01 of a proleptic Gregorian date. */
  function DaysFromCivil(y: int, m: int, d: int): int
    requires 1 <= m <= 12
  {
    var y' := if m <= 2 then y - 1 else y;
    var era := y' / 400;
    var yoe := y' - era * 400;
    var mp := if m > 2 then m - 3 else m + 9;
    var doy := (153 * mp + 2) / 5 + d - 1;
    var doe := yoe * 365 + yoe / 4 - yoe / 100 + doy;
    era * 146097 + doe - 719468
  }

  /** `Time.Unix()` of a civil time in UTC. */
  function UnixSeconds(c: Civil): int
    requires 1 <= c.month <= 12
  {
    DaysFromCivil(c.year, c.month, c.day) * SecondsPerDay + c.hour * 3600 + c.minute * 60 + c.second
  }

  function Pow10(n: nat): nat
  {
    if n == 0 then 1 else 10 * Pow10(n - 1)
  }

  /** `n` written with exactly `width` digits: zero-padded, higher digits dropped. */
  function Pad(n: nat, width: nat): (s: string)
    ensures |s| == width && AllDigits(s)
  {
    if width == 0 then "" else Pad(n / 10, width - 1) + [DigitChar(n % 10)]
  }

  /** The text `FormatStamp` writes for a civil time: `YYYYMMDD_HHMMSS`. */
  function FormatStamp(c: Civil): (s: string)
    ensures StampShape(s)
  {
    var date := Pad(c.year, 4) + Pad(c.month, 2) + Pad(c.day, 2);
    var clock := Pad(c.hour, 2) + Pad(c.minute, 2) + Pad(c.second, 2);
    var s := date + "_" + clock;
    assert s[0..4] == Pad(c.year, 4) && s[4..6] == Pad(c.month, 2) && s[6..8] == Pad(c.day, 2);
    assert s[9..11] == Pad(c.hour, 2) && s[11..13] == Pad(c.minute, 2) && s[13..15] == Pad(c.second, 2);
    s
  }

  /** The shape of the layout: fifteen characters, an underscore at position 8, digits elsewhere. */
  predicate StampShape(s: string)
  {
    |s| == 15 && s[8] == '_'
    && AllDigits(s[0..4]) && AllDigits(s[4..6]) && AllDigits(s[6..8])
    && AllDigits(s[9..11]) && AllDigits(s[11..13]) && AllDigits(s[13..15])
  }

  /**
   * `time.ParseInLocation("20060102_150405", s, time.Local)`: the layout's
   * shape and fields in range.
   */
  function ParseStamp(s: string): (r: Option<Civil>)
    ensures r.Some? ==> ValidCivil(r.value)
  {
    if StampShape(s) then
      var c := Civil(DigitsValue(s[0..4]), DigitsValue(s[4..6]), DigitsValue(s[6..8]),
                     DigitsValue(s[9..11]), DigitsValue(s[11..13]), DigitsValue(s[13..15]));
      if ValidCivil(c) then Some(c) else None
    else None
  }

  /** What `ParseStamp` accepts is exactly what `FormatStamp` writes for the time it gives. */
  lemma ParseStampFormats(s: string)
    requires ParseStamp(s).Some?
    ensures FormatStamp(ParseStamp(s).value) == s
  {
    var c := ParseStamp(s).value;
    PadDigits(s[0..4]);
    PadDigits(s[4..6]);
    PadDigits(s[6..8]);
    PadDigits(s[9..11]);
    PadDigits(s[11..13]);
    PadDigits(s[13..15]);
    var date := Pad(c.year, 4) + Pad(c.month, 2) + Pad(c.day, 2);
    var clock := Pad(c.hour, 2) + Pad(c.minute, 2) + Pad(c.second, 2);
    assert date == s[..8];
    assert clock == s[9..];
    assert s == s[..8] + "_" + s[9..];
  }

  /** Reading `width` digits back gives the number they were written from. */
  lemma {:induction false} PadValue(n: nat, width: nat)
    requires n < Pow10(width)
    ensures DigitsValue(Pad(n, width)) == n
  {
    if width > 0 {
      PadValue(n / 10, width - 1);
      var s := Pad(n, width);
      assert s[..|s| - 1] == Pad(n / 10, width - 1);
    }
  }

  /** Writing the value of a run of digits with its own width gives the run back. */
  lemma {:induction false} PadDigits(s: string)
    requires AllDigits(s)
    ensures Pad(DigitsValue(s), |s|) == s
    decreases |s|
  {
    if |s| > 0 {
      var init := s[..|s| - 1];
      PadDigits(init);
      var v := DigitsValue(s);
      assert v / 10 == DigitsValue(init) && v % 10 == s[|s| - 1] as int - '0' as int;
      assert s == init + [s[|s| - 1]];
    }
  }

  /** A valid civil time survives formatting and parsing. */
  lemma ParseFormatStamp(c: Civil)
    requires ValidCivil(c)
    ensures ParseStamp(FormatStamp(c)) == Some(c)
  {
    var s := FormatStamp(c);
    assert Pow10(2) == 100 && Pow10(4) == 10000;
    PadValue(c.year, 4);
    PadValue(c.month, 2);
    PadValue(c.day, 2);
    PadValue(c.hour, 2);
    PadValue(c.minute, 2);
    PadValue(c.second, 2);
    assert s[0..4] == Pad(c.year, 4) && s[4..6] == Pad(c.month, 2) && s[6..8] == Pad(c.day, 2);
    assert s[9..11] == Pad(c.hour, 2) && s[11..13] == Pad(c.minute, 2) && s[13..15] == Pad(c.second, 2);
  }

  // ---------------------------------------------------------------------
  // Recognising a recording file
  // ---------------------------------------------------------------------

  /**
   * The time in a file name: the name without `.<format>` is split on
   * `_`, fewer than three parts is no time, and parts 1 and 2 joined by
   * `_` must parse as a timestamp.
   */
  function NameStamp(name: string, format: string): Option<Civil>
  {
    var parts := Split(TrimSuffix(name, "." + format), '_');
    if |parts| < 3 then None else ParseStamp(parts[1] + "_" + parts[2])
  }

  /**
   * One iteration of the listing loop of `GetRecordings`: a directory, a
   * name without the `.<format>` suffix, a name without a timestamp, a
   * time outside the window and a failed `Info` are all skipped; anything
   * else is a recording named after the camera and its Unix time.
   */
  function Recognize(camera: string, dir: string, format: string, w: Window, e: Entry): Option<Recording>
  {
    if e.isDir || !HasSuffix(e.name, "." + format) then None
    else
      match NameStamp(e.name, format)
      case None => None
      case Some(c) =>
        var t := UnixSeconds(c);
        if !InWindow(w, t) || e.size.None? then None
        else Some(Recording(camera + "_" + Itoa(t), camera, e.name, PathJoin(dir, e.name), t, e.size.value))
  }

  /**
   * A recognised entry is a file with the `.<format>` suffix and a
   * timestamp in its name, inside the window; its recording is identified
   * by the camera and the Unix time, and its path is the entry's name
   * under the camera directory.
   */
  lemma RecognizeSound(camera: string, dir: string, format: string, w: Window, e: Entry)
    requires Recognize(camera, dir, format, w, e).Some?
    ensures var rec := Recognize(camera, dir, format, w, e).value;
      && !e.isDir && HasSuffix(e.name, "." + format) && e.size == Some(rec.size)
      && NameStamp(e.name, format).Some? && rec.startTime == UnixSeconds(NameStamp(e.name, format).value)
      && InWindow(w, rec.startTime)
      && rec.id == camera + "_" + Itoa(rec.startTime) && rec.cameraId == camera
      && rec.fileName == e.name && rec.filePath == PathJoin(dir, e.name)
  {
  }

  /** The window only filters: a bounded listing keeps the unbounded one's recordings that fall inside it. */
  lemma RecognizeWindow(camera: string, dir: string, format: string, w: Window, e: Entry)
    ensures Recognize(camera, dir, format, w, e)
      == match Recognize(camera, dir, format, Unbounded, e)
         case Some(rec) => if InWindow(w, rec.startTime) then Some(rec) else None
         case None => None
  {
  }

  /** The file name the capture segmenter writes for a camera and a start time. */
  function SegmentName(camera: string, c: Civil, format: string): string
  {
    camera + "_" + FormatStamp(c) + "." + format
  }

  /** The date and clock halves of a stamp carry no underscore. */
  lemma StampHalves(c: Civil)
    ensures var s := FormatStamp(c); s == s[..8] + "_" + s[9..] && '_' !in s[..8] && '_' !in s[9..]
  {
    var s := FormatStamp(c);
    assert s == s[..8] + [s[8]] + s[9..];
    assert s[..8] == s[0..4] + s[4..6] + s[6..8];
    assert s[9..] == s[9..11] + s[11..13] + s[13..15];
  }

  /** A segment name without its suffix is the camera, `_` and the stamp. */
  lemma SegmentStem(camera: string, c: Civil, format: string)
    ensures TrimSuffix(SegmentName(camera, c, format), "." + format) == camera + "_" + FormatStamp(c)
  {
    var name := SegmentName(camera, c, format);
    assert HasSuffix(name, "." + format);
  }

  /** Three texts without underscore joined by `_` split back into the three. */
  lemma SplitThree(front: string, date: string, clock: string)
    requires '_' !in front && '_' !in date && '_' !in clock
    ensures Split(front + "_" + date + "_" + clock, '_') == [front, date, clock]
  {
    var rest := date + ['_'] + clock;
    assert Split(rest, '_') == [date, clock] by {
      SplitFirst(date, '_', clock);
      SplitWithout(clock, '_');
    }
    assert front + "_" + date + "_" + clock == front + ['_'] + rest;
    SplitFirst(front, '_', rest);
  }

  /**
   * A segment file of a camera whose id has no underscore is recognised
   * with the time in its name, whenever that time is in the window.
   */
  lemma RecognizeSegment(camera: string, dir: string, format: string, w: Window, c: Civil, size: int)
    requires ValidCivil(c) && '_' !in camera
    ensures var name := SegmentName(camera, c, format);
      Recognize(camera, dir, format, w, Entry(name, false, Some(size)))
      == if InWindow(w, UnixSeconds(c)) then
           Some(Recording(camera + "_" + Itoa(UnixSeconds(c)), camera, name, PathJoin(dir, name), UnixSeconds(c), size))
         else None
  {
    var name := SegmentName(camera, c, format);
    var s := FormatStamp(c);
    SegmentStem(camera, c, format);
    StampHalves(c);
    assert camera + "_" + s == camera + "_" + s[..8] + "_" + s[9..];
    SplitThree(camera, s[..8], s[9..]);
    ParseFormatStamp(c);
    assert NameStamp(name, format) == Some(c);
  }

  /**
   * A segment file of a camera whose id has one underscore is never
   * recognised: the second `_`-part of its name is then the camera's tail,
   * not the date.
   */
  lemma UnderscoreCameraIgnored(a: string, b: string, dir: string, format: string, w: Window, c: Civil, size: int)
    requires ValidCivil(c) && '_' !in a && '_' !in b
    ensures var camera := a + "_" + b;
      Recognize(camera, dir, format, w, Entry(SegmentName(camera, c, format), false, Some(size))) == None
  {
    var s := FormatStamp(c);
    TwoPartCameraSplit(a, b, c, format);
    UnderscoreBreaksShape(b, s[..8]);
    assert NameStamp(SegmentName(a + "_" + b, c, format), format) == None;
  }

  /** The stem of a segment name of camera `a_b` splits into `a`, `b`, the date and the clock. */
  lemma TwoPartCameraSplit(a: string, b: string, c: Civil, format: string)
    requires '_' !in a && '_' !in b
    ensures var s := FormatStamp(c);
      Split(TrimSuffix(SegmentName(a + "_" + b, c, format), "." + format), '_') == [a, b, s[..8], s[9..]]
  {
    var s := FormatStamp(c);
    SegmentStem(a + "_" + b, c, format);
    StampHalves(c);
    assert a + "_" + b + "_" + s == a + ['_'] + (b + "_" + s[..8] + "_" + s[9..]);
    SplitFirst(a, '_', b + "_" + s[..8] + "_" + s[9..]);
    SplitThree(b, s[..8], s[9..]);
  }

  /** A camera tail, `_` and a date never have the shape of a stamp. */
  lemma UnderscoreBreaksShape(b: string, date: string)
    requires |date| == 8
    ensures !StampShape(b + "_" + date)
  {
    var joined := b + "_" + date;
    if |joined| == 15 {
      assert joined[6..8][0] == joined[6] == '_';
    }
  }

  /** The present values of a sequence of options, in order. */
  function Somes<T>(xs: seq<Option<T>>): seq<T>
    decreases |xs|
  {
    if xs == [] then []
    else Somes(xs[..|xs| - 1]) + (if xs[|xs| - 1].Some? then [xs[|xs| - 1].value] else [])
  }

  lemma {:induction false} SomesMembers<T>(xs: seq<Option<T>>, x: T)
    ensures x in Somes(xs) <==> exists i :: 0 <= i < |xs| && xs[i] == Some(x)
    decreases |xs|
  {
    if xs != [] {
      var n := |xs| - 1;
      var init := xs[..n];
      SomesMembers(init, x);
      if x in Somes(xs) && x !in Somes(init) {
        assert xs[n] == Some(x);
      }
      if x in Somes(init) {
        var i :| 0 <= i < |init| && init[i] == Some(x);
        assert xs[i] == init[i];
      }
      if exists i :: 0 <= i < |xs| && xs[i] == Some(x) {
        var i :| 0 <= i < |xs| && xs[i] == Some(x);
        if i < n {
          assert init[i] == xs[i];
        }
      }
    }
  }

  /** What the listing loop makes of each entry. */
  function Recognized(camera: string, dir: string, format: string, w: Window, es: seq<Entry>): (os: seq<Option<Recording>>)
    ensures |os| == |es|
  {
    seq(|es|, i requires 0 <= i < |es| => Recognize(camera, dir, format, w, es[i]))
  }

  /** The recordings the listing loop appends, in directory order. */
  function Scan(camera: string, dir: string, format: string, w: Window, es: seq<Entry>): seq<Recording>
  {
    Somes(Recognized(camera, dir, format, w, es))
  }

  /** One more entry of the listing adds its recording, if it is one. */
  lemma ScanSnoc(camera: string, dir: string, format: string, w: Window, es: seq<Entry>, i: int)
    requires 0 <= i < |es|
    ensures Scan(camera, dir, format, w, es[..i + 1])
      == Scan(camera, dir, format, w, es[..i])
         + match Recognize(camera, dir, format, w, es[i]) case Some(rec) => [rec] case None => []
  {
    var os := Recognized(camera, dir, format, w, es[..i + 1]);
    assert os[..i] == Recognized(camera, dir, format, w, es[..i]);
  }

  /** A recording is listed exactly when some entry of the directory is recognised as it. */
  lemma ScanMembers(camera: string, dir: string, format: string, w: Window, es: seq<Entry>, rec: Recording)
    ensures rec in Scan(camera, dir, format, w, es)
      <==> exists i :: 0 <= i < |es| && Recognize(camera, dir, format, w, es[i]) == Some(rec)
  {
    var os := Recognized(camera, dir, format, w, es);
    SomesMembers(os, rec);
    assert forall i :: 0 <= i < |es| ==> os[i] == Recognize(camera, dir, format, w, es[i]);
  }

  /** The camera directory `GetRecordings` lists. */
  function CameraDir(cfg: StorageConfig, camera: string): string
  {
    PathJoin(cfg.path, camera)
  }

  /** What a listing of the camera's directory holds: nothing when it is missing or unreadable. */
  function Found(cfg: StorageConfig, camera: string, w: Window, fs: string -> Listing): seq<Recording>
  {
    var dir := CameraDir(cfg, camera);
    match fs(dir)
    case Entries(es) => Scan(camera, dir, cfg.format, w, es)
    case _ => []
  }

  /** The concatenation of a sequence of sequences, in order. */
  function Concat<T>(xss: seq<seq<T>>): seq<T>
    decreases |xss|
  {
    if xss == [] then [] else Concat(xss[..|xss| - 1]) + xss[|xss| - 1]
  }

  lemma {:induction false} ConcatMembers<T>(xss: seq<seq<T>>, x: T)
    ensures x in Concat(xss) <==> exists i :: 0 <= i < |xss| && x in xss[i]
    decreases |xss|
  {
    if xss != [] {
      var n := |xss| - 1;
      var init := xss[..n];
      ConcatMembers(init, x);
      assert Concat(xss) == Concat(init) + xss[n];
      if x in Concat(init) {
        var i :| 0 <= i < |init| && x in init[i];
        assert xss[i] == init[i];
      }
      if exists i :: 0 <= i < |xss| && x in xss[i] {
        var i :| 0 <= i < |xss| && x in xss[i];
        if i < n {
          assert init[i] == xss[i];
        }
      }
    }
  }

  /** The `Found` recordings of several cameras, in the order given. */
  function FoundAll(cfg: StorageConfig, cameras: seq<string>, w: Window, fs: string -> Listing): seq<Recording>
  {
    Concat(seq(|cameras|, i requires 0 <= i < |cameras| => Found(cfg, cameras[i], w, fs)))
  }

  /** Visiting one more camera appends its recordings. */
  lemma FoundAllSnoc(cfg: StorageConfig, cameras: seq<string>, id: string, w: Window, fs: string -> Listing)
    ensures FoundAll(cfg, cameras + [id], w, fs) == FoundAll(cfg, cameras, w, fs) + Found(cfg, id, w, fs)
  {
    var xss := seq(|cameras + [id]|, i requires 0 <= i < |cameras + [id]| => Found(cfg, (cameras + [id])[i], w, fs));
    assert xss[..|cameras|] == seq(|cameras|, i requires 0 <= i < |cameras| => Found(cfg, cameras[i], w, fs));
  }

  /** A recording is among several cameras' exactly when it is among one of theirs. */
  lemma FoundAllMembers(cfg: StorageConfig, cameras: seq<string>, w: Window, fs: string -> Listing, rec: Recording)
    ensures rec in FoundAll(cfg, cameras, w, fs) <==> exists i :: 0 <= i < |cameras| && rec in Found(cfg, cameras[i], w, fs)
  {
    var xss := seq(|cameras|, i requires 0 <= i < |cameras| => Found(cfg, cameras[i], w, fs));
    ConcatMembers(xss, rec);
    assert forall i :: 0 <= i < |cameras| ==> xss[i] == Found(cfg, cameras[i], w, fs);
  }

  /** `StartTime.After` order: each recording is at least as new as the next, ties in any order. */
  predicate NewestFirst(rs: seq<Recording>)
  {
    forall i :: 0 < i < |rs| ==> rs[i - 1].startTime >= rs[i].startTime
  }

  /** In a newest-first list every recording is at least as new as any later one. */
  lemma {:induction false} NewestFirstOrdered(rs: seq<Recording>, i: int, j: int)
    requires NewestFirst(rs) && 0 <= i <= j < |rs|
    ensures rs[i].startTime >= rs[j].startTime
    decreases j - i
  {
    if i < j {
      NewestFirstOrdered(rs, i, j - 1);
    }
  }

  /** Puts a recording into a newest-first list before the first one not newer than it. */
  function Insert(rec: Recording, rs: seq<Recording>): (out: seq<Recording>)
    requires NewestFirst(rs)
    ensures NewestFirst(out) && multiset(out) == multiset(rs) + multiset{rec}
    ensures |out| > 0 && (out[0] == rec || (|rs| > 0 && out[0] == rs[0]))
    decreases |rs|
  {
    if rs == [] || rec.startTime >= rs[0].startTime then [rec] + rs
    else
      var tail := Insert(rec, rs[1..]);
      assert rs == [rs[0]] + rs[1..];
      [rs[0]] + tail
  }

  /**
   * The `sort.Slice` of `GetRecordings` and `GetAllRecordings`, by its
   * specification: a newest-first permutation (the library's order of
   * equal times is not modelled).
   */
  function SortNewestFirst(rs: seq<Recording>): (out: seq<Recording>)
    ensures NewestFirst(out) && multiset(out) == multiset(rs)
    decreases |rs|
  {
    if rs == [] then []
    else
      assert rs == [rs[0]] + rs[1..];
      Insert(rs[0], SortNewestFirst(rs[1..]))
  }

  /**
   * `GetRecordings`: a missing camera directory gives no recordings and no
   * error, an unreadable one an error; otherwise the entries the listing
   * loop recognises, newest first.
   */
  method GetRecordings(cfg: StorageConfig, camera: string, w: Window, fs: string -> Listing)
    returns (r: Result<seq<Recording>, StorageError>)
    ensures fs(CameraDir(cfg, camera)).Missing? ==> r == Success([])
    ensures fs(CameraDir(cfg, camera)).Unreadable? ==> r == Failure(ReadDirFailed(CameraDir(cfg, camera)))
    ensures fs(CameraDir(cfg, camera)).Entries? ==> r.Success?
    ensures r.Success? ==> NewestFirst(r.value) && multiset(r.value) == multiset(Found(cfg, camera, w, fs))
  {
    var dir := CameraDir(cfg, camera);
    var listing := fs(dir);
    if listing.Missing? {
      return Success([]);
    }
    if listing.Unreadable? {
      return Failure(ReadDirFailed(dir));
    }
    var es := listing.entries;
    var recordings: seq<Recording> := [];
    var i := 0;
    while i < |es|
      invariant 0 <= i <= |es|
      invariant recordings == Scan(camera, dir, cfg.format, w, es[..i])
    {
      ScanSnoc(camera, dir, cfg.format, w, es, i);
      var found := Recognize(camera, dir, cfg.format, w, es[i]);
      if found.Some? {
        recordings := recordings + [found.value];
      }
      i := i + 1;
    }
    assert es[..i] == es;
    return Success(SortNewestFirst(recordings));
  }

  /**
   * `GetAllRecordings`: every capturer's recordings, a capturer whose
   * listing fails contributing none, newest first. The cameras are visited
   * in the order `order` records.
   */
  method GetAllRecordings(cfg: StorageConfig, cameras: set<string>, fs: string -> Listing)
    returns (all: seq<Recording>, ghost order: seq<string>)
    ensures |order| == |cameras| && (forall id :: id in cameras <==> id in order)
    ensures NewestFirst(all) && multiset(all) == multiset(FoundAll(cfg, order, Unbounded, fs))
  {
    var pending := cameras;
    all := [];
    order := [];
    while pending != {}
      invariant pending <= cameras && |order| + |pending| == |cameras|
      invariant forall id :: id in cameras <==> id in order || id in pending
      invariant forall id :: id in order ==> id !in pending
      invariant multiset(all) == multiset(FoundAll(cfg, order, Unbounded, fs))
      decreases pending
    {
      var id :| id in pending;
      var r := GetRecordings(cfg, id, Unbounded, fs);
      FoundAllSnoc(cfg, order, id, Unbounded, fs);
      if r.Success? {
        all := all + r.value;
      } else {
        assert Found(cfg, id, Unbounded, fs) == [];
      }
      order := order + [id];
      pending := pending - {id};
    }
    all := SortNewestFirst(all);
  }

  /** `time.Now().AddDate(0, 0, -RetentionDays)` in UTC. */
  function Cutoff(cfg: StorageConfig, now: int): int
  {
    now - cfg.retentionDays * SecondsPerDay
  }

  /** The paths of a list of recordings, in order. */
  function Paths(rs: seq<Recording>): (ps: seq<string>)
    ensures |ps| == |rs| && forall i :: 0 <= i < |rs| ==> ps[i] == rs[i].filePath
    decreases |rs|
  {
    if rs == [] then [] else Paths(rs[..|rs| - 1]) + [rs[|rs| - 1].filePath]
  }

  /**
   * `CleanupOldRecordings`: for every capturer whose listing succeeds,
   * each recording at or before the cutoff is removed; a failed removal is
   * only logged. `removed` are the paths it removes, those of `selected`,
   * camera by camera in the order `order` records.
   */
  method CleanupOldRecordings(cfg: StorageConfig, cameras: set<string>, fs: string -> Listing, now: int)
    returns (removed: seq<string>, ghost order: seq<string>, ghost selected: seq<Recording>)
    ensures |order| == |cameras| && (forall id :: id in cameras <==> id in order)
    ensures removed == Paths(selected)
    ensures multiset(selected) == multiset(FoundAll(cfg, order, Window(None, Some(Cutoff(cfg, now))), fs))
  {
    var cutoff := Cutoff(cfg, now);
    ghost var w := Window(None, Some(cutoff));
    var pending := cameras;
    removed := [];
    order := [];
    selected := [];
    while pending != {}
      invariant pending <= cameras && |order| + |pending| == |cameras|
      invariant forall id :: id in cameras <==> id in order || id in pending
      invariant forall id :: id in order ==> id !in pending
      invariant removed == Paths(selected)
      invariant multiset(selected) == multiset(FoundAll(cfg, order, w, fs))
      decreases pending
    {
      var id :| id in pending;
      var r := GetRecordings(cfg, id, Window(None, Some(cutoff)), fs);
      FoundAllSnoc(cfg, order, id, w, fs);
      if r.Success? {
        var paths := RemoveEach(r.value);
        PathsAppend(selected, r.value);
        removed := removed + paths;
        selected := selected + r.value;
      } else {
        assert Found(cfg, id, w, fs) == [];
      }
      order := order + [id];
      pending := pending - {id};
    }
  }

  /**
   * The inner loop of `CleanupOldRecordings`: `DeleteRecording` on each
   * recording's path in turn, whatever the outcome of the one before.
   */
  method RemoveEach(recs: seq<Recording>) returns (removed: seq<string>)
    ensures removed == Paths(recs)
  {
    removed := [];
    var j := 0;
    while j < |recs|
      invariant 0 <= j <= |recs|
      invariant removed == Paths(recs[..j])
    {
      assert recs[..j + 1][..j] == recs[..j];
      removed := removed + [recs[j].filePath];
      j := j + 1;
    }
    assert recs[..j] == recs;
  }

  /** `Paths` distributes over concatenation. */
  lemma {:induction false} PathsAppend(a: seq<Recording>, b: seq<Recording>)
    ensures Paths(a + b) == Paths(a) + Paths(b)
    decreases |b|
  {
    if b != [] {
      PathsAppend(a, b[..|b| - 1]);
      assert (a + b)[..|a + b| - 1] == a + b[..|b| - 1];
    }
  }

  /**
   * The cleanup selection: among a camera's recordings, exactly those whose
   * time is not after the cutoff are removed.
   */
  lemma CleanupSelects(cfg: StorageConfig, camera: string, fs: string -> Listing, now: int, rec: Recording)
    ensures rec in Found(cfg, camera, Window(None, Some(Cutoff(cfg, now))), fs)
      <==> rec in Found(cfg, camera, Unbounded, fs) && rec.startTime <= Cutoff(cfg, now)
  {
    var dir := CameraDir(cfg, camera);
    var w := Window(None, Some(Cutoff(cfg, now)));
    if fs(dir).Entries? {
      var es := fs(dir).entries;
      ScanMembers(camera, dir, cfg.format, w, es, rec);
      ScanMembers(camera, dir, cfg.format, Unbounded, es, rec);
      forall i | 0 <= i < |es|
        ensures Recognize(camera, dir, cfg.format, w, es[i]) == Some(rec)
          <==> Recognize(camera, dir, cfg.format, Unbounded, es[i]) == Some(rec) && rec.startTime <= Cutoff(cfg, now)
      {
        RecognizeWindow(camera, dir, cfg.format, w, es[i]);
      }
    }
  }
}
