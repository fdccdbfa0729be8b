/**
 * The MJPEG demultiplexer of the capturer: the byte search it is built on,
 * the frame splitting of a growing buffer, the buffer ceiling, and the
 * fixed-size audio blocks read from the PCM pipe.
 */
module Mjpeg {
  import opened Wrappers
  import opened Text
  import opened Queues

  const StartMarker: Bytes := [0xFF, 0xD8]
  const EndMarker: Bytes := [0xFF, 0xD9]

  /** The working buffer may not grow past 2 MiB ... */
  const BufferCeiling: nat := 2 * 1024 * 1024
  /** ... and when it does, only its last 1 MiB is kept. */
  const BufferKeep: nat := 1024 * 1024

  /** 960 samples of 16-bit mono PCM: 20 ms at 48 kHz. */
  const AudioBlockSize: nat := 960 * 2 * 1

  /**
   * The position `findBytes` reports: -1 for an empty pattern or one
   * longer than the data, otherwise the first occurrence or -1.
   */
  function Find(data: Bytes, pattern: Bytes): int
  {
    if |pattern| == 0 then -1 else FindFrom(data, pattern, 0)
  }

  /** The first occurrence at or after `from`, or -1. */
  function FindFrom(data: Bytes, pattern: Bytes, from: nat): int
    decreases |data| - from
  {
    if from + |pattern| > |data| then -1
    else if data[from..from + |pattern|] == pattern then from
    else FindFrom(data, pattern, from + 1)
  }

  lemma {:induction false} FindFromSpec(data: Bytes, pattern: Bytes, from: nat)
    ensures var r := FindFrom(data, pattern, from);
      (r == -1 || from <= r <= |data|)
      && (r >= 0 ==> OccursAt(data, pattern, r) && forall j :: from <= j < r ==> !OccursAt(data, pattern, j))
      && (r == -1 ==> forall j :: from <= j ==> !OccursAt(data, pattern, j))
    decreases |data| - from
  {
    if from + |pattern| <= |data| && data[from..from + |pattern|] != pattern {
      FindFromSpec(data, pattern, from + 1);
    }
  }

  /**
   * `Find` gives the least index at which a non-empty pattern occurs, and
   * -1 exactly when the pattern is empty or occurs nowhere.
   */
  lemma FindSpec(data: Bytes, pattern: Bytes)
    ensures -1 <= Find(data, pattern) <= |data|
    ensures Find(data, pattern) >= 0 ==>
      |pattern| > 0 && OccursAt(data, pattern, Find(data, pattern))
      && forall j :: 0 <= j < Find(data, pattern) ==> !OccursAt(data, pattern, j)
    ensures Find(data, pattern) == -1 <==>
      |pattern| == 0 || forall j :: 0 <= j ==> !OccursAt(data, pattern, j)
  {
    FindFromSpec(data, pattern, 0);
  }

  /**
   * `findBytes`: a scan over every start position, comparing byte by byte;
   * it computes `Find`, whose meaning `FindSpec` states.
   */
  method FindBytes(data: Bytes, pattern: Bytes) returns (r: int)
    ensures -1 <= r <= |data|
    ensures r == Find(data, pattern)
  {
    FindSpec(data, pattern);
    if |pattern| == 0 || |data| < |pattern| {
      return -1;
    }
    var i := 0;
    while i <= |data| - |pattern|
      invariant 0 <= i <= |data| - |pattern| + 1
      invariant forall k :: 0 <= k < i ==> !OccursAt(data, pattern, k)
    {
      var matched := true;
      var j := 0;
      while j < |pattern|
        invariant 0 <= j <= |pattern|
        invariant matched ==> data[i..i + j] == pattern[..j]
        invariant !matched ==> !OccursAt(data, pattern, i)
      {
        if data[i + j] != pattern[j] {
          matched := false;
          assert data[i..i + |pattern|][j] == data[i + j];
          break;
        }
        assert data[i..i + j + 1] == data[i..i + j] + [data[i + j]];
        j := j + 1;
      }
      if matched {
        assert OccursAt(data, pattern, i);
        return i;
      }
      i := i + 1;
    }
    assert forall k :: 0 <= k ==> !OccursAt(data, pattern, k);
    return -1;
  }

  /** A search that succeeds in a prefix gives the same answer on any extension. */
  lemma FindExtends(a: Bytes, b: Bytes, pattern: Bytes)
    requires Find(a, pattern) >= 0
    ensures Find(a + b, pattern) == Find(a, pattern)
  {
    var k := Find(a, pattern);
    FindSpec(a, pattern);
    assert (a + b)[k..k + |pattern|] == a[k..k + |pattern|];
    forall j | 0 <= j < k ensures !OccursAt(a + b, pattern, j) {
      assert !OccursAt(a, pattern, j);
      assert (a + b)[j..j + |pattern|] == a[j..j + |pattern|];
    }
    FindAt(a + b, pattern, k);
  }

  /** The search finds the first occurrence. */
  lemma FindAt(data: Bytes, pattern: Bytes, k: nat)
    requires |pattern| > 0 && OccursAt(data, pattern, k)
    requires forall j :: 0 <= j < k ==> !OccursAt(data, pattern, j)
    ensures Find(data, pattern) == k
  {
    FindSpec(data, pattern);
  }

  /** Where a frame sits in a buffer: `buf[start..end]`. */
  datatype Span = Span(start: nat, end: nat)

  /**
   * One step of the parse loop: the first start marker, and the first end
   * marker at or after it; none when either is missing.
   */
  function NextFrame(buf: Bytes): (r: Option<Span>)
    ensures r.Some? ==> r.value.start + 2 <= r.value.end <= |buf|
  {
    var s := Find(buf, StartMarker);
    if s < 0 then None
    else
      FindSpec(buf, StartMarker);
      var e := Find(buf[s..], EndMarker);
      if e < 0 then None
      else
        FindSpec(buf[s..], EndMarker);
        Some(Span(s, s + e + 2))
  }

  /** The frames split off a buffer, and what is left for the next read. */
  datatype Split = Split(frames: seq<Bytes>, rest: Bytes)

  /**
   * The inner parse loop of `readMJPEGStream`: emit the bytes from the
   * first start marker to the first end marker after it, markers included,
   * and continue after the end marker; stop when either marker is missing,
   * keeping the buffer as it stands.
   */
  function Demux(buf: Bytes): Split
    decreases |buf|
  {
    match NextFrame(buf)
    case None => Split([], buf)
    case Some(sp) =>
      var tail := Demux(buf[sp.end..]);
      Split([buf[sp.start..sp.end]] + tail.frames, tail.rest)
  }

  /** The bytes skipped before each emitted frame's start marker. */
  ghost function Discarded(buf: Bytes): seq<Bytes>
    decreases |buf|
  {
    match NextFrame(buf)
    case None => []
    case Some(sp) => [buf[..sp.start]] + Discarded(buf[sp.end..])
  }

  /** Gaps and frames, alternately, starting with a gap. */
  function Weave(gaps: seq<Bytes>, frames: seq<Bytes>): Bytes
    requires |gaps| == |frames|
  {
    if gaps == [] then [] else gaps[0] + frames[0] + Weave(gaps[1..], frames[1..])
  }

  /**
   * A complete JPEG frame as the demultiplexer sees it: it starts with the
   * start marker, ends with the end marker, and the end marker occurs
   * nowhere else in it.
   */
  predicate WellFormedFrame(f: Bytes)
  {
    |f| >= 4 && f[..2] == StartMarker && f[|f| - 2..] == EndMarker
    && forall i :: 0 <= i < |f| && OccursAt(f, EndMarker, i) ==> i == |f| - 2
  }

  /**
   * The span of one step: the start marker is the first in the buffer, and
   * the frame it delimits is well formed.
   */
  lemma NextFrameSpec(buf: Bytes)
    ensures NextFrame(buf).Some? ==>
      var sp := NextFrame(buf).value;
      WellFormedFrame(buf[sp.start..sp.end])
      && forall j :: 0 <= j < sp.start ==> !OccursAt(buf, StartMarker, j)
    ensures NextFrame(buf).None? ==>
      (forall j :: 0 <= j ==> !OccursAt(buf, StartMarker, j))
      || (Find(buf, StartMarker) >= 0
          && Find(buf, StartMarker) <= |buf|
          && forall j :: 0 <= j ==> !OccursAt(buf[Find(buf, StartMarker)..], EndMarker, j))
  {
    FindSpec(buf, StartMarker);
    var s := Find(buf, StartMarker);
    if s >= 0 {
      var t := buf[s..];
      assert t[..2] == StartMarker by { assert buf[s..s + 2] == t[..2]; }
      var e := Find(t, EndMarker);
      if e >= 0 {
        MarkedFrameWellFormed(t);
        assert buf[s..s + e + 2] == t[..e + 2];
      } else {
        FindSpec(t, EndMarker);
      }
    }
  }

  /** From a start marker up to the first end marker is a well-formed frame. */
  lemma MarkedFrameWellFormed(t: Bytes)
    requires |t| >= 2 && t[..2] == StartMarker && Find(t, EndMarker) >= 0
    ensures Find(t, EndMarker) + 2 <= |t|
    ensures WellFormedFrame(t[..Find(t, EndMarker) + 2])
  {
    FindSpec(t, EndMarker);
    var e := Find(t, EndMarker);
    var f := t[..e + 2];
    assert t[e..e + 2] == EndMarker;
    assert !OccursAt(t, EndMarker, 0) by { assert t[0..2][1] == t[1] == 0xD8; }
    assert !OccursAt(t, EndMarker, 1) by { assert |t| >= 3 ==> t[1..3][0] == t[1] == 0xD8; }
    assert f[..2] == t[..2];
    assert f[|f| - 2..] == t[e..e + 2];
    forall i | 0 <= i < |f| && OccursAt(f, EndMarker, i) ensures i == |f| - 2 {
      assert f[i..i + 2] == t[i..i + 2];
      assert OccursAt(t, EndMarker, i);
    }
  }

  /** Every frame the demultiplexer emits is well formed. */
  lemma {:induction false} DemuxFramesWellFormed(buf: Bytes)
    ensures forall f :: f in Demux(buf).frames ==> WellFormedFrame(f)
    decreases |buf|
  {
    match NextFrame(buf)
    case None =>
    case Some(sp) =>
      NextFrameSpec(buf);
      DemuxFramesWellFormed(buf[sp.end..]);
  }

  /** One step of `Demux`, spelled out. */
  lemma DemuxStep(buf: Bytes, sp: Span)
    requires NextFrame(buf) == Some(sp)
    ensures Demux(buf).frames == [buf[sp.start..sp.end]] + Demux(buf[sp.end..]).frames
    ensures Demux(buf).rest == Demux(buf[sp.end..]).rest
    ensures Discarded(buf) == [buf[..sp.start]] + Discarded(buf[sp.end..])
  {
  }

  /**
   * An incremental splitter bound for `total` frames and the tail `rest`,
   * which has emitted `emitted` and kept `buf`, is still on course after
   * taking the next frame off `buf`.
   */
  lemma DemuxAdvance(total: seq<Bytes>, rest: Bytes, emitted: seq<Bytes>, buf: Bytes, sp: Span)
    requires total == emitted + Demux(buf).frames && rest == Demux(buf).rest
    requires NextFrame(buf) == Some(sp)
    ensures total == (emitted + [buf[sp.start..sp.end]]) + Demux(buf[sp.end..]).frames
    ensures rest == Demux(buf[sp.end..]).rest
  {
    DemuxStep(buf, sp);
    SnocRegroup(total, emitted, Demux(buf).frames, buf[sp.start..sp.end], Demux(buf[sp.end..]).frames);
  }

  lemma SnocRegroup<T>(total: seq<T>, done: seq<T>, todo: seq<T>, x: T, later: seq<T>)
    requires total == done + todo && todo == [x] + later
    ensures total == (done + [x]) + later
  {
  }

  /** `NextFrame` in terms of the two searches the parse loop makes. */
  lemma NextFrameAt(buf: Bytes, s: int, e: int)
    requires s == Find(buf, StartMarker) && 0 <= s <= |buf|
    requires e == Find(buf[s..], EndMarker) && e >= 0
    ensures NextFrame(buf) == Some(Span(s, s + e + 2))
  {
  }

  /** `NextFrame` finds nothing when either search of the parse loop fails. */
  lemma NextFrameAbsent(buf: Bytes, s: int)
    requires s == Find(buf, StartMarker)
    requires s == -1 || (0 <= s <= |buf| && Find(buf[s..], EndMarker) == -1)
    ensures NextFrame(buf).None?
  {
  }

  /** Once no complete frame is left, the incremental splitter has emitted all it was bound for. */
  lemma DemuxDone(total: seq<Bytes>, rest: Bytes, emitted: seq<Bytes>, buf: Bytes)
    requires total == emitted + Demux(buf).frames && rest == Demux(buf).rest
    requires NextFrame(buf).None?
    ensures total == emitted && rest == buf
  {
    DemuxStops(buf);
  }

  /** Without a complete frame, `Demux` emits nothing and keeps everything. */
  lemma DemuxStops(buf: Bytes)
    requires NextFrame(buf).None?
    ensures Demux(buf) == Split([], buf)
  {
  }

  /** The bytes before the first start marker hold no start marker. */
  lemma GapHasNoStart(buf: Bytes, sp: Span)
    requires NextFrame(buf) == Some(sp)
    ensures Find(buf[..sp.start], StartMarker) == -1
  {
    NextFrameSpec(buf);
    var gap := buf[..sp.start];
    forall j | 0 <= j ensures !OccursAt(gap, StartMarker, j) {
      if j + 2 <= |gap| {
        assert gap[j..j + 2] == buf[j..j + 2];
        assert !OccursAt(buf, StartMarker, j);
      }
    }
    FindSpec(gap, StartMarker);
  }

  /**
   * Nothing is lost or reordered: the buffer is the discarded gaps and the
   * frames, interleaved in stream order, followed by the kept tail.
   */
  lemma {:induction false} DemuxReassembles(buf: Bytes)
    ensures |Discarded(buf)| == |Demux(buf).frames|
    ensures Weave(Discarded(buf), Demux(buf).frames) + Demux(buf).rest == buf
    decreases |buf|
  {
    match NextFrame(buf)
    case None =>
    case Some(sp) =>
      var tail := buf[sp.end..];
      DemuxReassembles(tail);
      DemuxStep(buf, sp);
      ReassembleStep(buf, sp.start, sp.end, Discarded(tail), Demux(tail).frames, Demux(tail).rest);
  }

  /** One step of `DemuxReassembles`: a gap and a frame put back in front of the reassembled tail. */
  lemma ReassembleStep(buf: Bytes, s: int, e: int, gaps: seq<Bytes>, frames: seq<Bytes>, rest: Bytes)
    requires 0 <= s <= e <= |buf| && |gaps| == |frames|
    requires Weave(gaps, frames) + rest == buf[e..]
    ensures Weave([buf[..s]] + gaps, [buf[s..e]] + frames) + rest == buf
  {
    var gap, frame, tail := buf[..s], buf[s..e], buf[e..];
    var woven := Weave(gaps, frames);
    WeaveCons(gap, frame, gaps, frames);
    Regroup(gap, frame, woven, rest);
    SplitThree(buf, s, e);
  }

  lemma Regroup(a: Bytes, b: Bytes, c: Bytes, d: Bytes)
    ensures a + b + c + d == a + b + (c + d)
  {
  }

  lemma SplitThree(buf: Bytes, s: int, e: int)
    requires 0 <= s <= e <= |buf|
    ensures buf[..s] + buf[s..e] + buf[e..] == buf
  {
  }

  lemma WeaveCons(gap: Bytes, frame: Bytes, gaps: seq<Bytes>, frames: seq<Bytes>)
    requires |gaps| == |frames|
    ensures Weave([gap] + gaps, [frame] + frames) == gap + frame + Weave(gaps, frames)
  {
    assert ([gap] + gaps)[1..] == gaps;
    assert ([frame] + frames)[1..] == frames;
  }

  /** Only bytes holding no start marker are ever discarded. */
  lemma {:induction false} DiscardedHasNoStart(buf: Bytes)
    ensures forall g :: g in Discarded(buf) ==> Find(g, StartMarker) == -1
    decreases |buf|
  {
    match NextFrame(buf)
    case None =>
    case Some(sp) =>
      DiscardedHasNoStart(buf[sp.end..]);
      DemuxStep(buf, sp);
      GapHasNoStart(buf, sp);
  }

  /** What is kept for the next read never holds a complete frame. */
  lemma {:induction false} DemuxRestHasNoFrame(buf: Bytes)
    ensures NextFrame(Demux(buf).rest).None?
    decreases |buf|
  {
    match NextFrame(buf)
    case None =>
    case Some(sp) => DemuxRestHasNoFrame(buf[sp.end..]);
  }

  /** A frame found in a buffer is found in the same place once more bytes arrive. */
  lemma NextFrameExtends(a: Bytes, b: Bytes)
    requires NextFrame(a).Some?
    ensures NextFrame(a + b) == NextFrame(a)
  {
    var s := Find(a, StartMarker);
    FindExtends(a, b, StartMarker);
    assert (a + b)[s..] == a[s..] + b;
    FindExtends(a[s..], b, EndMarker);
  }

  /**
   * Reading in chunks loses nothing: splitting `a`, then splitting its kept
   * tail extended by `b`, emits exactly the frames of splitting `a + b` in
   * one go, and keeps the same tail.
   */
  lemma {:induction false} DemuxChunked(a: Bytes, b: Bytes)
    ensures Demux(a).frames + Demux(Demux(a).rest + b).frames == Demux(a + b).frames
    ensures Demux(Demux(a).rest + b).rest == Demux(a + b).rest
    decreases |a|
  {
    match NextFrame(a)
    case None =>
      assert Demux(a) == Split([], a);
    case Some(sp) =>
      DemuxChunked(a[sp.end..], b);
      DemuxStep(a, sp);
      DemuxStepExtended(a, b, sp);
      ConcatAssoc([a[sp.start..sp.end]], Demux(a[sp.end..]).frames, Demux(Demux(a[sp.end..]).rest + b).frames);
  }

  lemma ConcatAssoc(x: seq<Bytes>, y: seq<Bytes>, z: seq<Bytes>)
    ensures (x + y) + z == x + (y + z)
  {
  }

  /** The step `Demux` takes on `a` is also its first step on `a + b`. */
  lemma DemuxStepExtended(a: Bytes, b: Bytes, sp: Span)
    requires NextFrame(a) == Some(sp)
    ensures Demux(a + b).frames == [a[sp.start..sp.end]] + Demux(a[sp.end..] + b).frames
    ensures Demux(a + b).rest == Demux(a[sp.end..] + b).rest
  {
    NextFrameExtends(a, b);
    DemuxStep(a + b, sp);
    assert (a + b)[sp.end..] == a[sp.end..] + b;
    assert (a + b)[sp.start..sp.end] == a[sp.start..sp.end];
  }

  /** Two back-to-back one-byte frames come out separately, in order. */
  lemma DemuxTwoFrames(buf: Bytes)
    requires buf == [0xFF, 0xD8, 0x41, 0xFF, 0xD9, 0xFF, 0xD8, 0x42, 0xFF, 0xD9]
    ensures Demux(buf).frames == [[0xFF, 0xD8, 0x41, 0xFF, 0xD9], [0xFF, 0xD8, 0x42, 0xFF, 0xD9]]
  {
    var second := buf[5..];
    OneFrame(buf, 0x41);
    assert buf[5..] == second;
    OneFrame(second, 0x42);
    assert second[5..] == [];
    assert NextFrame([]) == None by { FindSpec([], StartMarker); }
  }

  /** A buffer opening with a one-byte frame yields that frame first. */
  lemma OneFrame(buf: Bytes, x: byte)
    requires |buf| >= 5 && buf[..5] == [0xFF, 0xD8, x, 0xFF, 0xD9] && x != 0xFF
    ensures NextFrame(buf) == Some(Span(0, 5))
  {
    assert buf[0..2] == StartMarker;
    FindAt(buf, StartMarker, 0);
    assert buf[0..] == buf;
    forall j | 0 <= j < 3 ensures !OccursAt(buf, EndMarker, j) {
      assert buf[j..j + 2][0] == buf[j];
      assert buf[j..j + 2][1] == buf[j + 1];
    }
    assert buf[3..5] == EndMarker;
    FindAt(buf, EndMarker, 3);
  }

  /**
   * The working-buffer ceiling: the result never exceeds 2 MiB, and a
   * buffer over the ceiling is replaced by exactly its last 1 MiB.
   */
  function Truncate(buf: Bytes): (r: Bytes)
    ensures |r| <= BufferCeiling
    ensures |buf| <= BufferCeiling ==> r == buf
    ensures |buf| > BufferCeiling ==> |r| == BufferKeep && buf == buf[..|buf| - BufferKeep] + r
  {
    if |buf| > BufferCeiling then buf[|buf| - BufferKeep..] else buf
  }

  /**
   * The blocks `readAudioStream` broadcasts from a PCM stream: full
   * 1920-byte blocks in order; a short final read ends the loop and its
   * bytes are never broadcast.
   */
  function AudioBlocks(stream: Bytes): seq<Bytes>
    decreases |stream|
  {
    if |stream| < AudioBlockSize then []
    else [stream[..AudioBlockSize]] + AudioBlocks(stream[AudioBlockSize..])
  }

  function Concat(blocks: seq<Bytes>): Bytes
  {
    if blocks == [] then [] else blocks[0] + Concat(blocks[1..])
  }

  /**
   * Every block is full, and together the blocks are the stream minus its
   * incomplete tail, which is shorter than one block.
   */
  lemma {:induction false} AudioBlocksCover(stream: Bytes)
    ensures forall b :: b in AudioBlocks(stream) ==> |b| == AudioBlockSize
    ensures |AudioBlocks(stream)| == |stream| / AudioBlockSize
    ensures Concat(AudioBlocks(stream)) == stream[..|stream| - |stream| % AudioBlockSize]
    decreases |stream|
  {
    if |stream| >= AudioBlockSize {
      var tail := stream[AudioBlockSize..];
      var r := |stream| % AudioBlockSize;
      AudioBlocksCover(tail);
      BlockArith(|stream|);
      ConcatCons(stream[..AudioBlockSize], AudioBlocks(tail));
      PrefixThrough(stream, AudioBlockSize, |stream| - r);
    }
  }

  lemma ConcatCons(block: Bytes, blocks: seq<Bytes>)
    ensures Concat([block] + blocks) == block + Concat(blocks)
  {
    assert ([block] + blocks)[1..] == blocks;
  }

  lemma PrefixThrough(s: Bytes, k: int, m: int)
    requires 0 <= k <= m <= |s|
    ensures s[..m] == s[..k] + s[k..][..m - k]
  {
  }

  /** A block reader bound for `total` blocks is still on course after taking the next block off `rest`. */
  lemma AudioBlocksStep(total: seq<Bytes>, emitted: seq<Bytes>, rest: Bytes)
    requires total == emitted + AudioBlocks(rest) && |rest| >= AudioBlockSize
    ensures total == (emitted + [rest[..AudioBlockSize]]) + AudioBlocks(rest[AudioBlockSize..])
  {
    SnocRegroup(total, emitted, AudioBlocks(rest), rest[..AudioBlockSize], AudioBlocks(rest[AudioBlockSize..]));
  }

  /** Once less than a block is left, the block reader has emitted all it was bound for. */
  lemma AudioBlocksDone(total: seq<Bytes>, emitted: seq<Bytes>, rest: Bytes)
    requires total == emitted + AudioBlocks(rest) && |rest| < AudioBlockSize
    ensures total == emitted
  {
  }

  /** Taking one block off a stream leaves the remainder and removes one from the quotient. */
  lemma BlockArith(n: nat)
    requires n >= AudioBlockSize
    ensures (n - AudioBlockSize) % AudioBlockSize == n % AudioBlockSize
    ensures (n - AudioBlockSize) / AudioBlockSize == n / AudioBlockSize - 1
  {
  }
}
