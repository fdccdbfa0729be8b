/**
 * The camera capturer: one ffmpeg process per camera whose MJPEG preview
 * pipe is split into frames and fanned out to frame subscribers, whose
 * PCM pipe is cut into 20 ms blocks and fanned out to audio subscribers,
 * and the keyed registry of capturers.
 *
 * Process spawning is an outcome given as a parameter; process exit is an
 * event (`OnProcessExit`); each read of a pipe is a call carrying the
 * bytes read.
 */
module Capture {
  import opened Wrappers
  import opened Text
  import opened Strconv
  import opened Queues
  import opened Mjpeg
  import opened Config
  import opened Args

  /** Capacity of a frame subscriber's channel. */
  const FrameQueueCap: nat := 30
  /** Capacity of an audio subscriber's channel: two seconds of 20 ms blocks. */
  const AudioQueueCap: nat := 100

  datatype RecordingConfig = RecordingConfig(outputPath: string, segmentDuration: int, format: string)

  datatype CaptureError =
    | MjpegPipeFailed
    | AudioPipeFailed
    | FfmpegStartFailed
    | NotRunning
    | FrameTimeout
    | CapturerExists(id: string)
    | CapturerNotFound(id: string)

  /** What the operating system does when `startCapture` asks it for pipes and a process. */
  datatype SpawnOutcome = SpawnOutcome(mjpegPipe: bool, audioPipe: bool, process: bool)

  /**
   * The error of `startCapture`, checked in the code's order: the MJPEG
   * pipe, then the audio pipe (only when audio is enabled), then the
   * process itself.
   */
  function StartCaptureError(audioEnabled: bool, o: SpawnOutcome): (r: Option<CaptureError>)
    ensures r.None? <==> o.mjpegPipe && (audioEnabled ==> o.audioPipe) && o.process
    ensures !o.mjpegPipe ==> r == Some(MjpegPipeFailed)
    ensures o.mjpegPipe && audioEnabled && !o.audioPipe ==> r == Some(AudioPipeFailed)
    ensures !audioEnabled ==> r != Some(AudioPipeFailed)
  {
    if !o.mjpegPipe then Some(MjpegPipeFailed)
    else if audioEnabled && !o.audioPipe then Some(AudioPipeFailed)
    else if !o.process then Some(FfmpegStartFailed)
    else None
  }

  /** The id of the temporary subscription `GetFrame` makes, from the clock in nanoseconds. */
  function SnapshotId(nanos: int): string
  {
    "snapshot_" + Itoa(nanos)
  }

  /**
   * The two searches of `readMJPEGStream`'s parse loop: the first start
   * marker, then the first end marker after it; the frame runs from the
   * start marker to just past the end marker.
   */
  method LocateFrame(buf: Bytes) returns (found: bool, startIdx: nat, endIdx: nat)
    ensures found <==> NextFrame(buf).Some?
    ensures found ==> NextFrame(buf) == Some(Span(startIdx, endIdx)) && startIdx + 2 <= endIdx <= |buf|
  {
    var s := FindBytes(buf, StartMarker);
    if s == -1 {
      NextFrameAbsent(buf, s);
      return false, 0, 0;
    }
    var e := FindBytes(buf[s..], EndMarker);
    if e == -1 {
      NextFrameAbsent(buf, s);
      return false, 0, 0;
    }
    NextFrameAt(buf, s, e);
    return true, s, s + e + 2;
  }

  class Capturer {
    const config: CameraConfig
    const recording: Option<RecordingConfig>
    /** The `running` flag. */
    var running: bool
    /** The process handle is set (`cmd != nil`). */
    var processAlive: bool
    var frameSubscribers: map<string, seq<Bytes>>
    var audioSubscribers: map<string, seq<Bytes>>
    var lastFrame: Option<Bytes>
    /** The working buffer of the MJPEG reader, fresh for every process. */
    var frameBuffer: Bytes

    ghost predicate Valid()
      reads this
    {
      Bounded(frameSubscribers, FrameQueueCap)
      && Bounded(audioSubscribers, AudioQueueCap)
      && |frameBuffer| <= BufferCeiling
      && (processAlive ==> running)
    }

    /** `NewAVCapturer`, and the capturer `AddCapturerWithRecording` builds. */
    constructor(config: CameraConfig, recording: Option<RecordingConfig>)
      ensures Valid()
      ensures this.config == config && this.recording == recording
      ensures !running && !processAlive
      ensures frameSubscribers == map[] && audioSubscribers == map[]
      ensures lastFrame == None && frameBuffer == []
    {
      this.config := config;
      this.recording := recording;
      running := false;
      processAlive := false;
      frameSubscribers := map[];
      audioSubscribers := map[];
      lastFrame := None;
      frameBuffer := [];
    }

    /**
     * `Start`: nothing happens when already running; otherwise the
     * capturer is running exactly when every step of spawning succeeded.
     */
    method Start(outcome: SpawnOutcome) returns (err: Option<CaptureError>)
      requires Valid()
      modifies this
      ensures Valid()
      ensures old(running) ==> err.None? && unchanged(this)
      ensures !old(running) ==> err == StartCaptureError(config.audio.enabled, outcome)
      ensures !old(running) ==> running == err.None? && processAlive == err.None?
      ensures !old(running) && err.None? ==> frameBuffer == []
      ensures !old(running) && err.Some? ==> frameBuffer == old(frameBuffer)
      ensures frameSubscribers == old(frameSubscribers) && audioSubscribers == old(audioSubscribers)
      ensures lastFrame == old(lastFrame)
    {
      if running {
        return None;
      }
      err := StartCaptureError(config.audio.enabled, outcome);
      if err.Some? {
        return;
      }
      frameBuffer := [];
      processAlive := true;
      running := true;
    }

    /**
     * `Stop`: nothing happens when not running; otherwise the process is
     * gone, every subscriber is dropped and the capturer is not running.
     * The cached last frame survives.
     */
    method Stop()
      requires Valid()
      modifies this
      ensures Valid()
      ensures !old(running) ==> unchanged(this)
      ensures old(running) ==> !running && !processAlive
      ensures old(running) ==> frameSubscribers == map[] && audioSubscribers == map[]
      ensures lastFrame == old(lastFrame) && frameBuffer == old(frameBuffer)
    {
      if !running {
        return;
      }
      processAlive := false;
      while frameSubscribers != map[]
        invariant Bounded(frameSubscribers, FrameQueueCap)
        invariant lastFrame == old(lastFrame) && frameBuffer == old(frameBuffer)
        invariant !processAlive && audioSubscribers == old(audioSubscribers)
        decreases frameSubscribers.Keys
      {
        var id :| id in frameSubscribers;
        frameSubscribers := frameSubscribers - {id};
      }
      while audioSubscribers != map[]
        invariant Bounded(audioSubscribers, AudioQueueCap)
        invariant lastFrame == old(lastFrame) && frameBuffer == old(frameBuffer)
        invariant !processAlive && frameSubscribers == map[]
        decreases audioSubscribers.Keys
      {
        var id :| id in audioSubscribers;
        audioSubscribers := audioSubscribers - {id};
      }
      running := false;
    }

    /**
     * The exit watcher: the process handle is cleared, but the capturer
     * still reports itself running.
     */
    method OnProcessExit()
      requires Valid()
      modifies this
      ensures Valid()
      ensures !processAlive && running == old(running)
      ensures frameSubscribers == old(frameSubscribers) && audioSubscribers == old(audioSubscribers)
      ensures lastFrame == old(lastFrame) && frameBuffer == old(frameBuffer)
    {
      processAlive := false;
    }

    /** `SubscribeFrames`: a fresh empty queue, replacing any queue under the same id. */
    method SubscribeFrames(id: string)
      requires Valid()
      modifies this
      ensures Valid()
      ensures frameSubscribers == old(frameSubscribers)[id := []]
      ensures audioSubscribers == old(audioSubscribers) && running == old(running)
      ensures processAlive == old(processAlive)
      ensures lastFrame == old(lastFrame) && frameBuffer == old(frameBuffer)
    {
      frameSubscribers := frameSubscribers[id := []];
    }

    /** `UnsubscribeFrames`: removes the id when present, otherwise does nothing. */
    method UnsubscribeFrames(id: string)
      requires Valid()
      modifies this
      ensures Valid()
      ensures frameSubscribers == old(frameSubscribers) - {id}
      ensures id !in old(frameSubscribers) ==> unchanged(this)
      ensures audioSubscribers == old(audioSubscribers) && running == old(running)
      ensures processAlive == old(processAlive)
      ensures lastFrame == old(lastFrame) && frameBuffer == old(frameBuffer)
    {
      if id in frameSubscribers {
        frameSubscribers := frameSubscribers - {id};
      }
    }

    /** `SubscribeAudio`: a fresh empty queue, replacing any queue under the same id. */
    method SubscribeAudio(id: string)
      requires Valid()
      modifies this
      ensures Valid()
      ensures audioSubscribers == old(audioSubscribers)[id := []]
      ensures frameSubscribers == old(frameSubscribers) && running == old(running)
      ensures processAlive == old(processAlive)
      ensures lastFrame == old(lastFrame) && frameBuffer == old(frameBuffer)
    {
      audioSubscribers := audioSubscribers[id := []];
    }

    /** `UnsubscribeAudio`: removes the id when present, otherwise does nothing. */
    method UnsubscribeAudio(id: string)
      requires Valid()
      modifies this
      ensures Valid()
      ensures audioSubscribers == old(audioSubscribers) - {id}
      ensures id !in old(audioSubscribers) ==> unchanged(this)
      ensures frameSubscribers == old(frameSubscribers) && running == old(running)
      ensures processAlive == old(processAlive)
      ensures lastFrame == old(lastFrame) && frameBuffer == old(frameBuffer)
    {
      if id in audioSubscribers {
        audioSubscribers := audioSubscribers - {id};
      }
    }

    /** A subscriber receives every frame queued on its channel, which is left empty. */
    method TakeFrames(id: string) returns (frames: seq<Bytes>)
      requires Valid() && id in frameSubscribers
      modifies this
      ensures Valid()
      ensures frames == old(frameSubscribers[id]) && frameSubscribers == old(frameSubscribers)[id := []]
      ensures audioSubscribers == old(audioSubscribers) && running == old(running)
      ensures processAlive == old(processAlive)
      ensures lastFrame == old(lastFrame) && frameBuffer == old(frameBuffer)
    {
      frames := frameSubscribers[id];
      frameSubscribers := frameSubscribers[id := []];
    }

    /** A subscriber receives every audio block queued on its channel, which is left empty. */
    method TakeAudio(id: string) returns (blocks: seq<Bytes>)
      requires Valid() && id in audioSubscribers
      modifies this
      ensures Valid()
      ensures blocks == old(audioSubscribers[id]) && audioSubscribers == old(audioSubscribers)[id := []]
      ensures frameSubscribers == old(frameSubscribers) && running == old(running)
      ensures processAlive == old(processAlive)
      ensures lastFrame == old(lastFrame) && frameBuffer == old(frameBuffer)
    {
      blocks := audioSubscribers[id];
      audioSubscribers := audioSubscribers[id := []];
    }

    /**
     * `broadcastFrame`: every queue ends with the new frame and keeps its
     * newest 30 items; a full queue loses its head.
     */
    method BroadcastFrame(frame: Bytes)
      requires Valid()
      modifies this
      ensures Valid()
      ensures frameSubscribers == OfferToAll(DropOldest, old(frameSubscribers), FrameQueueCap, frame)
      ensures forall id :: id in frameSubscribers ==>
        frameSubscribers[id] == Newest(old(frameSubscribers)[id] + [frame], FrameQueueCap)
        && frameSubscribers[id][|frameSubscribers[id]| - 1] == frame
      ensures audioSubscribers == old(audioSubscribers) && running == old(running)
      ensures processAlive == old(processAlive)
      ensures lastFrame == old(lastFrame) && frameBuffer == old(frameBuffer)
    {
      frameSubscribers := Broadcast(DropOldest, frameSubscribers, FrameQueueCap, frame);
    }

    /**
     * `broadcastAudio`: a queue with room gets the block appended; a full
     * queue of 100 is left as it was.
     */
    method BroadcastAudio(block: Bytes)
      requires Valid()
      modifies this
      ensures Valid()
      ensures audioSubscribers == OfferToAll(DropNewest, old(audioSubscribers), AudioQueueCap, block)
      ensures forall id :: id in audioSubscribers ==>
        if |old(audioSubscribers)[id]| < AudioQueueCap
        then audioSubscribers[id] == old(audioSubscribers)[id] + [block]
        else audioSubscribers[id] == old(audioSubscribers)[id]
      ensures frameSubscribers == old(frameSubscribers) && running == old(running)
      ensures processAlive == old(processAlive)
      ensures lastFrame == old(lastFrame) && frameBuffer == old(frameBuffer)
    {
      audioSubscribers := Broadcast(DropNewest, audioSubscribers, AudioQueueCap, block);
    }

    /**
     * One read of the MJPEG pipe in `readMJPEGStream`: the bytes are
     * appended to the working buffer, every complete frame is cached as
     * the last frame and broadcast in stream order, and the remainder is
     * kept under the 2 MiB ceiling.
     */
    method ReadVideoChunk(chunk: Bytes)
      requires Valid()
      modifies this
      ensures Valid()
      ensures frameBuffer == Truncate(Demux(old(frameBuffer) + chunk).rest)
      ensures frameSubscribers
           == BroadcastAll(DropOldest, old(frameSubscribers), FrameQueueCap, Demux(old(frameBuffer) + chunk).frames)
      ensures var frames := Demux(old(frameBuffer) + chunk).frames;
        lastFrame == if frames == [] then old(lastFrame) else Some(frames[|frames| - 1])
      ensures audioSubscribers == old(audioSubscribers) && running == old(running)
      ensures processAlive == old(processAlive)
    {
      var buf := SplitFrames(frameBuffer + chunk);
      if |buf| > BufferCeiling {
        buf := buf[|buf| - BufferKeep..];
      }
      frameBuffer := buf;
    }

    /**
     * The parse loop of `readMJPEGStream`: frames are taken off the front
     * of `buf` one at a time, each cached and broadcast before the next is
     * searched for; what cannot be parsed yet is returned.
     */
    method SplitFrames(buf0: Bytes) returns (buf: Bytes)
      requires Valid()
      modifies this
      ensures Valid()
      ensures buf == Demux(buf0).rest
      ensures frameSubscribers == BroadcastAll(DropOldest, old(frameSubscribers), FrameQueueCap, Demux(buf0).frames)
      ensures var frames := Demux(buf0).frames;
        lastFrame == if frames == [] then old(lastFrame) else Some(frames[|frames| - 1])
      ensures audioSubscribers == old(audioSubscribers) && running == old(running)
      ensures processAlive == old(processAlive) && frameBuffer == old(frameBuffer)
    {
      buf := buf0;
      ghost var total, rest := Demux(buf0).frames, Demux(buf0).rest;
      ghost var emitted: seq<Bytes> := [];
      ghost var subs0 := frameSubscribers;
      while true
        invariant total == emitted + Demux(buf).frames && rest == Demux(buf).rest
        invariant Valid() && frameBuffer == old(frameBuffer)
        invariant subs0 == old(frameSubscribers) && Bounded(subs0, FrameQueueCap)
        invariant frameSubscribers == BroadcastAll(DropOldest, subs0, FrameQueueCap, emitted)
        invariant lastFrame == if emitted == [] then old(lastFrame) else Some(emitted[|emitted| - 1])
        invariant audioSubscribers == old(audioSubscribers) && running == old(running)
        invariant processAlive == old(processAlive)
        decreases |buf|
      {
        var found, startIdx, endIdx := LocateFrame(buf);
        if !found {
          DemuxDone(total, rest, emitted, buf);
          break;
        }
        DemuxAdvance(total, rest, emitted, buf, Span(startIdx, endIdx));
        var frame := buf[startIdx..endIdx];
        var next := buf[endIdx..];
        EmitFrame(frame, subs0, emitted);
        emitted := emitted + [frame];
        buf := next;
      }
    }

    /** One frame of `SplitFrames`: cached as the latest frame, then broadcast. */
    method EmitFrame(frame: Bytes, ghost subs0: map<string, seq<Bytes>>, ghost emitted: seq<Bytes>)
      requires Valid() && Bounded(subs0, FrameQueueCap)
      requires frameSubscribers == BroadcastAll(DropOldest, subs0, FrameQueueCap, emitted)
      modifies this
      ensures Valid()
      ensures frameSubscribers == BroadcastAll(DropOldest, subs0, FrameQueueCap, emitted + [frame])
      ensures lastFrame == Some(frame)
      ensures audioSubscribers == old(audioSubscribers) && running == old(running)
      ensures processAlive == old(processAlive) && frameBuffer == old(frameBuffer)
    {
      lastFrame := Some(frame);
      BroadcastFrame(frame);
      BroadcastAllSnoc(DropOldest, subs0, FrameQueueCap, emitted, frame);
    }

    /**
     * `readAudioStream` over everything the PCM pipe delivers: each full
     * 1920-byte block is broadcast in order; the short read at the end
     * stops the loop without a broadcast.
     */
    method ReadAudioStream(stream: Bytes)
      requires Valid()
      modifies this
      ensures Valid()
      ensures audioSubscribers == BroadcastAll(DropNewest, old(audioSubscribers), AudioQueueCap, AudioBlocks(stream))
      ensures frameSubscribers == old(frameSubscribers) && running == old(running)
      ensures processAlive == old(processAlive)
      ensures lastFrame == old(lastFrame) && frameBuffer == old(frameBuffer)
    {
      var rest := stream;
      ghost var total := AudioBlocks(stream);
      ghost var subs0 := audioSubscribers;
      ghost var emitted: seq<Bytes> := [];
      while |rest| >= AudioBlockSize
        invariant total == emitted + AudioBlocks(rest)
        invariant Valid() && subs0 == old(audioSubscribers) && Bounded(subs0, AudioQueueCap)
        invariant audioSubscribers == BroadcastAll(DropNewest, subs0, AudioQueueCap, emitted)
        invariant frameSubscribers == old(frameSubscribers) && running == old(running)
        invariant processAlive == old(processAlive)
        invariant lastFrame == old(lastFrame) && frameBuffer == old(frameBuffer)
        decreases |rest|
      {
        var block := rest[..AudioBlockSize];
        EmitBlock(block, subs0, emitted);
        AudioBlocksStep(total, emitted, rest);
        emitted := emitted + [block];
        rest := rest[AudioBlockSize..];
      }
      AudioBlocksDone(total, emitted, rest);
    }

    /** One block of `ReadAudioStream`, broadcast to the audio subscribers. */
    method EmitBlock(block: Bytes, ghost subs0: map<string, seq<Bytes>>, ghost emitted: seq<Bytes>)
      requires Valid() && Bounded(subs0, AudioQueueCap)
      requires audioSubscribers == BroadcastAll(DropNewest, subs0, AudioQueueCap, emitted)
      modifies this
      ensures Valid()
      ensures audioSubscribers == BroadcastAll(DropNewest, subs0, AudioQueueCap, emitted + [block])
      ensures frameSubscribers == old(frameSubscribers) && running == old(running)
      ensures processAlive == old(processAlive)
      ensures lastFrame == old(lastFrame) && frameBuffer == old(frameBuffer)
    {
      BroadcastAudio(block);
      BroadcastAllSnoc(DropNewest, subs0, AudioQueueCap, emitted, block);
    }

    /**
     * `GetFrame`: an error when not running; the cached frame when there is
     * one; otherwise the first frame to arrive on a temporary subscription
     * (`arrival`, or a timeout), which is removed again afterwards.
     */
    method GetFrame(arrival: Option<Bytes>, nanos: int) returns (r: Result<Bytes, CaptureError>)
      requires Valid()
      modifies this
      ensures Valid()
      ensures !old(running) ==> r == Failure(NotRunning) && unchanged(this)
      ensures old(running) && old(lastFrame).Some? ==> r == Success(old(lastFrame).value) && unchanged(this)
      ensures old(running) && old(lastFrame).None? ==>
        r == (if arrival.Some? then Success(arrival.value) else Failure(FrameTimeout))
        && frameSubscribers == old(frameSubscribers) - {SnapshotId(nanos)}
      ensures audioSubscribers == old(audioSubscribers) && running == old(running)
      ensures processAlive == old(processAlive)
      ensures lastFrame == old(lastFrame) && frameBuffer == old(frameBuffer)
    {
      if !running {
        return Failure(NotRunning);
      }
      if lastFrame.Some? {
        return Success(lastFrame.value);
      }
      var subId := SnapshotId(nanos);
      SubscribeFrames(subId);
      if arrival.Some? {
        r := Success(arrival.value);
      } else {
        r := Failure(FrameTimeout);
      }
      UnsubscribeFrames(subId);
    }
  }

  /** `%dx%d` of a width and a height. */
  function Size(width: int, height: int): string
  {
    Itoa(width) + "x" + Itoa(height)
  }

  /** macOS: an avfoundation device `<video>:<audio>`, with `none` for no audio. */
  function DarwinInput(cam: CameraConfig): seq<string>
  {
    var device := Itoa(cam.deviceIndex) + ":" + (if cam.audio.enabled then Itoa(cam.audio.deviceIndex) else "none");
    ["-f", "avfoundation", "-framerate", Itoa(cam.fps), "-video_size", Size(cam.width, cam.height), "-i", device]
  }

  /** Linux: a v4l2 device, followed by a PulseAudio or ALSA input when audio is enabled. */
  function LinuxInput(cam: CameraConfig): seq<string>
  {
    LinuxVideo(cam) + LinuxAudio(cam)
  }

  function LinuxVideo(cam: CameraConfig): seq<string>
  {
    ["-f", "v4l2", "-framerate", Itoa(cam.fps), "-video_size", Size(cam.width, cam.height),
     "-i", "/dev/video" + Itoa(cam.deviceIndex)]
  }

  function LinuxAudio(cam: CameraConfig): seq<string>
  {
    if !cam.audio.enabled then []
    else if cam.audio.kind == "pulse" then ["-f", "pulse", "-i", "default"]
    else ["-f", "alsa", "-i", "hw:" + Itoa(cam.audio.deviceIndex)]
  }

  /** Windows: a DirectShow device, named with its microphone when audio is enabled. */
  function WindowsInput(cam: CameraConfig): seq<string>
  {
    var video := "video=@device_pnp_" + Itoa(cam.deviceIndex);
    var mic := if cam.audio.deviceName != "" then cam.audio.deviceName else "Microphone";
    ["-f", "dshow", "-i", video + (if cam.audio.enabled then ":audio=" + mic else "")]
  }

  /** Any other system: a plain v4l2 device. */
  function DefaultInput(cam: CameraConfig): seq<string>
  {
    ["-f", "v4l2", "-i", "/dev/video" + Itoa(cam.deviceIndex)]
  }

  /** `getInputArgs`: the local capture device for the operating system `goos`. */
  function InputArgs(cam: CameraConfig, goos: string): seq<string>
  {
    if goos == "darwin" then DarwinInput(cam)
    else if goos == "linux" then LinuxInput(cam)
    else if goos == "windows" then WindowsInput(cam)
    else DefaultInput(cam)
  }

  /**
   * On macOS the capture reads an avfoundation device at the camera rate;
   * the device names the audio device, or `none` without audio.
   */
  lemma DarwinInputFlags(cam: CameraConfig)
    ensures ValueAfter(InputArgs(cam, "darwin"), "-f") == Some("avfoundation")
    ensures ValueAfter(InputArgs(cam, "darwin"), "-framerate") == Some(Itoa(cam.fps))
    ensures ValueAfter(InputArgs(cam, "darwin"), "-i") == Some(
      Itoa(cam.deviceIndex) + ":" + (if cam.audio.enabled then Itoa(cam.audio.deviceIndex) else "none"))
  {
    var args := DarwinInput(cam);
    ItoaIsNotFlag(cam.fps, "-i");
    ValueAfterAt(args, 0, "-f");
    ValueAfterAt(args, 2, "-framerate");
    ValueAfterAt(args, 6, "-i");
  }

  /**
   * On Linux the capture reads a v4l2 device at the camera rate, and the
   * command line ends with the PulseAudio or ALSA device when audio is
   * enabled.
   */
  lemma LinuxInputFlags(cam: CameraConfig)
    ensures ValueAfter(InputArgs(cam, "linux"), "-f") == Some("v4l2")
    ensures ValueAfter(InputArgs(cam, "linux"), "-framerate") == Some(Itoa(cam.fps))
    ensures ValueAfter(InputArgs(cam, "linux"), "-i") == Some("/dev/video" + Itoa(cam.deviceIndex))
    ensures cam.audio.enabled ==> var args := InputArgs(cam, "linux");
      args[|args| - 1] == if cam.audio.kind == "pulse" then "default" else "hw:" + Itoa(cam.audio.deviceIndex)
  {
    var video, audio := LinuxVideo(cam), LinuxAudio(cam);
    ItoaIsNotFlag(cam.fps, "-i");
    ValueAfterAt(video, 0, "-f");
    ValueAfterAt(video, 2, "-framerate");
    ValueAfterAt(video, 6, "-i");
    ValueAfterPrefix(video, audio, "-f");
    ValueAfterPrefix(video, audio, "-framerate");
    ValueAfterPrefix(video, audio, "-i");
  }

  /**
   * On Windows the capture reads a DirectShow device; with audio its name
   * carries the microphone, `Microphone` when none is configured.
   */
  lemma WindowsInputFlags(cam: CameraConfig)
    ensures ValueAfter(InputArgs(cam, "windows"), "-f") == Some("dshow")
    ensures ValueAfter(InputArgs(cam, "windows"), "-i") == Some(
      "video=@device_pnp_" + Itoa(cam.deviceIndex)
      + (if !cam.audio.enabled then ""
         else ":audio=" + (if cam.audio.deviceName != "" then cam.audio.deviceName else "Microphone")))
  {
    var args := WindowsInput(cam);
    ValueAfterAt(args, 0, "-f");
    ValueAfterAt(args, 2, "-i");
  }

  /** On any other system the capture reads a v4l2 device. */
  lemma DefaultInputFlags(cam: CameraConfig, goos: string)
    requires goos != "darwin" && goos != "linux" && goos != "windows"
    ensures ValueAfter(InputArgs(cam, goos), "-f") == Some("v4l2")
    ensures ValueAfter(InputArgs(cam, goos), "-i") == Some("/dev/video" + Itoa(cam.deviceIndex))
  {
    var args := DefaultInput(cam);
    ValueAfterAt(args, 0, "-f");
    ValueAfterAt(args, 2, "-i");
  }

  /** The input part of `buildCaptureArgs`: an RTSP or HLS URL, or the local device. */
  function SourceArgs(cam: CameraConfig, goos: string): seq<string>
  {
    if cam.kind == "rtsp" then ["-rtsp_transport", "tcp", "-i", cam.rtspUrl]
    else if cam.kind == "hls" then
      ["-reconnect", "1", "-reconnect_streamed", "1", "-reconnect_delay_max", "5", "-i", cam.hlsUrl]
    else InputArgs(cam, goos)
  }

  /** An RTSP camera is read from its URL over TCP; an HLS camera from its playlist URL. */
  lemma SourceArgsFlags(cam: CameraConfig, goos: string)
    ensures cam.kind == "rtsp" ==> ValueAfter(SourceArgs(cam, goos), "-i") == Some(cam.rtspUrl)
    ensures cam.kind == "rtsp" ==> ValueAfter(SourceArgs(cam, goos), "-rtsp_transport") == Some("tcp")
    ensures cam.kind == "hls" ==> ValueAfter(SourceArgs(cam, goos), "-i") == Some(cam.hlsUrl)
    ensures cam.kind == "hls" ==> ValueAfter(SourceArgs(cam, goos), "-reconnect") == Some("1")
  {
    var args := SourceArgs(cam, goos);
    if cam.kind == "rtsp" {
      ValueAfterAt(args, 0, "-rtsp_transport");
      ValueAfterAt(args, 2, "-i");
    } else if cam.kind == "hls" {
      ValueAfterAt(args, 0, "-reconnect");
      ValueAfterAt(args, 6, "-i");
    }
  }

  /** Output 1: the MJPEG preview at the camera's rate and size, to descriptor 3. */
  function PreviewOutputArgs(cam: CameraConfig): seq<string>
  {
    ["-map", "0:v", "-an", "-f", "mjpeg", "-q:v", "5", "-r", Itoa(cam.fps),
     "-s", Size(cam.width, cam.height), "pipe:3"]
  }

  /** The preview is MJPEG at the camera's rate and size, written to descriptor 3. */
  lemma PreviewOutputFlags(cam: CameraConfig)
    ensures ValueAfter(PreviewOutputArgs(cam), "-f") == Some("mjpeg")
    ensures ValueAfter(PreviewOutputArgs(cam), "-r") == Some(Itoa(cam.fps))
    ensures ValueAfter(PreviewOutputArgs(cam), "-s") == Some(Size(cam.width, cam.height))
  {
    var args := PreviewOutputArgs(cam);
    ItoaIsNotFlag(cam.fps, "-s");
    ValueAfterAt(args, 3, "-f");
    ValueAfterAt(args, 7, "-r");
    ValueAfterAt(args, 9, "-s");
  }

  /** Output 2: 48 kHz mono 16-bit PCM to descriptor 4, only when audio is enabled. */
  function AudioOutputArgs(cam: CameraConfig): seq<string>
  {
    if !cam.audio.enabled then []
    else ["-map", "0:a", "-vn", "-f", "s16le", "-acodec", "pcm_s16le", "-ar", "48000", "-ac", "1", "pipe:4"]
  }

  /**
   * There is an audio output exactly when audio is enabled; it is signed
   * 16-bit PCM at 48 kHz, mono, written to descriptor 4.
   */
  lemma AudioOutputFlags(cam: CameraConfig)
    ensures AudioOutputArgs(cam) == [] <==> !cam.audio.enabled
    ensures cam.audio.enabled ==> ValueAfter(AudioOutputArgs(cam), "-f") == Some("s16le")
    ensures cam.audio.enabled ==> ValueAfter(AudioOutputArgs(cam), "-ar") == Some("48000")
    ensures cam.audio.enabled ==> ValueAfter(AudioOutputArgs(cam), "-ac") == Some("1")
  {
    if cam.audio.enabled {
      var args := AudioOutputArgs(cam);
      ValueAfterAt(args, 3, "-f");
      ValueAfterAt(args, 7, "-ar");
      ValueAfterAt(args, 9, "-ac");
    }
  }

  /** Where segments are written: `<output>/<id>/<id>_%Y%m%d_%H%M%S.<format>`. */
  function RecordingPattern(cam: CameraConfig, rec: RecordingConfig): string
  {
    PathJoin(PathJoin(rec.outputPath, cam.id), cam.id + "_%Y%m%d_%H%M%S." + rec.format)
  }

  /**
   * Output 3: H.264 segments of the configured length with a 60-frame
   * keyframe interval, with AAC audio when audio is enabled; only when
   * recording is configured.
   */
  function RecordingOutputArgs(cam: CameraConfig, rec: Option<RecordingConfig>): (args: seq<string>)
    ensures rec.None? <==> args == []
    ensures rec.Some? ==> args[|args| - 1] == RecordingPattern(cam, rec.value)
  {
    match rec
    case None => []
    case Some(r) => RecordingStreams(cam) + RecordingCodecs(cam) + SegmentArgs(cam, r)
  }

  /** Which input streams the recording output maps. */
  function RecordingStreams(cam: CameraConfig): seq<string>
  {
    if cam.audio.enabled then ["-map", "0:v", "-map", "0:a"] else ["-map", "0:v", "-an"]
  }

  /** H.264 with a 60-frame keyframe interval, then AAC when audio is enabled. */
  function RecordingCodecs(cam: CameraConfig): seq<string>
  {
    ["-c:v", "libx264", "-pix_fmt", "yuv420p", "-preset", "ultrafast", "-crf", "23", "-g", "60"]
    + (if cam.audio.enabled then ["-c:a", "aac", "-b:a", "128k"] else [])
  }

  /** The segment muxer, ending with the file name pattern. */
  function SegmentArgs(cam: CameraConfig, r: RecordingConfig): seq<string>
  {
    ["-f", "segment", "-segment_time", Itoa(r.segmentDuration),
     "-segment_format", r.format,
     "-segment_format_options", "movflags=frag_keyframe+empty_moov+default_base_moof",
     "-reset_timestamps", "1", "-strftime", "1", RecordingPattern(cam, r)]
  }

  /** The recording output cuts segments of the configured length. */
  lemma RecordingSegmentFlags(cam: CameraConfig, r: RecordingConfig)
    ensures ValueAfter(RecordingOutputArgs(cam, Some(r)), "-segment_time") == Some(Itoa(r.segmentDuration))
  {
    var streams, codecs, segment := RecordingStreams(cam), RecordingCodecs(cam), SegmentArgs(cam, r);
    assert RecordingOutputArgs(cam, Some(r)) == streams + (codecs + segment);
    ValueAfterSkip(streams, codecs + segment, "-segment_time");
    ValueAfterSkip(codecs, segment, "-segment_time");
    ValueAfterAt(segment, 2, "-segment_time");
  }

  /**
   * The recording output encodes H.264 with a keyframe every 60 frames, and
   * adds AAC audio exactly when the camera has audio.
   */
  lemma RecordingOutputFlags(cam: CameraConfig, r: RecordingConfig)
    ensures ValueAfter(RecordingOutputArgs(cam, Some(r)), "-g") == Some("60")
    ensures ValueAfter(RecordingOutputArgs(cam, Some(r)), "-c:v") == Some("libx264")
    ensures cam.audio.enabled ==> ValueAfter(RecordingOutputArgs(cam, Some(r)), "-c:a") == Some("aac")
    ensures !cam.audio.enabled ==>
      ValueAfter(RecordingOutputArgs(cam, Some(r)), "-c:a") == ValueAfter(SegmentArgs(cam, r), "-c:a")
  {
    var streams, codecs, segment := RecordingStreams(cam), RecordingCodecs(cam), SegmentArgs(cam, r);
    assert RecordingOutputArgs(cam, Some(r)) == streams + (codecs + segment);
    ValueAfterSkip(streams, codecs + segment, "-g");
    ValueAfterSkip(streams, codecs + segment, "-c:v");
    ValueAfterSkip(streams, codecs + segment, "-c:a");
    CodecFlags(cam, segment);
  }

  lemma CodecFlags(cam: CameraConfig, segment: seq<string>)
    ensures ValueAfter(RecordingCodecs(cam) + segment, "-g") == Some("60")
    ensures ValueAfter(RecordingCodecs(cam) + segment, "-c:v") == Some("libx264")
    ensures cam.audio.enabled ==> ValueAfter(RecordingCodecs(cam) + segment, "-c:a") == Some("aac")
    ensures !cam.audio.enabled ==> ValueAfter(RecordingCodecs(cam) + segment, "-c:a") == ValueAfter(segment, "-c:a")
  {
    var codecs := RecordingCodecs(cam);
    ValueAfterAt(codecs + segment, 8, "-g");
    ValueAfterAt(codecs + segment, 0, "-c:v");
    if cam.audio.enabled {
      ValueAfterAt(codecs + segment, 10, "-c:a");
    } else {
      ValueAfterSkip(codecs, segment, "-c:a");
    }
  }

  /**
   * `buildCaptureArgs`: the input, then the preview output, then the audio
   * output when audio is enabled, then the recording output when one is
   * configured.
   */
  function CaptureArgs(cam: CameraConfig, rec: Option<RecordingConfig>, goos: string): seq<string>
  {
    SourceArgs(cam, goos) + (PreviewOutputArgs(cam) + AudioOutputArgs(cam) + RecordingOutputArgs(cam, rec))
  }

  /** The network source survives the outputs appended after it. */
  lemma CaptureArgsSource(cam: CameraConfig, rec: Option<RecordingConfig>, goos: string)
    ensures cam.kind == "rtsp" ==> ValueAfter(CaptureArgs(cam, rec, goos), "-i") == Some(cam.rtspUrl)
    ensures cam.kind == "hls" ==> ValueAfter(CaptureArgs(cam, rec, goos), "-i") == Some(cam.hlsUrl)
  {
    if cam.kind == "rtsp" || cam.kind == "hls" {
      SourceArgsFlags(cam, goos);
      ValueAfterPrefix(SourceArgs(cam, goos), PreviewOutputArgs(cam) + AudioOutputArgs(cam) + RecordingOutputArgs(cam, rec), "-i");
    }
  }

  /**
   * The command line ends with the last configured output: the recording
   * pattern, else the audio descriptor, else the preview descriptor.
   */
  lemma CaptureArgsLast(cam: CameraConfig, rec: Option<RecordingConfig>, goos: string)
    ensures var args := CaptureArgs(cam, rec, goos);
      |args| > 0 && args[|args| - 1] ==
        if rec.Some? then RecordingPattern(cam, rec.value)
        else if cam.audio.enabled then "pipe:4" else "pipe:3"
  {
    var preview, audio, recording := PreviewOutputArgs(cam), AudioOutputArgs(cam), RecordingOutputArgs(cam, rec);
    AudioOutputFlags(cam);
    assert cam.audio.enabled ==> audio[|audio| - 1] == "pipe:4";
    LastOfParts(SourceArgs(cam, goos), preview, audio, recording);
  }

  /** The last element of a command line put together from parts. */
  lemma LastOfParts(source: seq<string>, preview: seq<string>, audio: seq<string>, recording: seq<string>)
    requires |preview| > 0
    ensures var all := source + (preview + audio + recording);
      |all| > 0 && all[|all| - 1] ==
        if |recording| > 0 then recording[|recording| - 1]
        else if |audio| > 0 then audio[|audio| - 1] else preview[|preview| - 1]
  {
  }

  /** The keyed registry of capturers. */
  class Manager {
    var capturers: map<string, Capturer>

    ghost function Objects(): set<Capturer>
      reads this
    {
      set id | id in capturers :: capturers[id]
    }

    /** Every capturer is filed under its camera id, once. */
    ghost predicate Filed()
      reads this
    {
      (forall id :: id in capturers ==> capturers[id].config.id == id)
      && (forall i, j :: i in capturers && j in capturers && i != j ==> capturers[i] != capturers[j])
    }

    /** Every capturer is filed under its camera id, once, and is itself valid. */
    ghost predicate Valid()
      reads this, Objects()
    {
      Filed() && forall id :: id in capturers ==> capturers[id].Valid()
    }

    constructor()
      ensures Valid() && capturers == map[]
    {
      capturers := map[];
    }

    /** `AddCapturer`: a duplicate id is rejected and nothing changes. */
    method AddCapturer(cfg: CameraConfig) returns (r: Result<Capturer, CaptureError>)
      requires Valid()
      modifies this
      ensures Valid()
      ensures cfg.id in old(capturers) ==> r == Failure(CapturerExists(cfg.id)) && capturers == old(capturers)
      ensures cfg.id !in old(capturers) ==>
        r.Success? && fresh(r.value) && capturers == old(capturers)[cfg.id := r.value]
        && r.value.config == cfg && r.value.recording.None? && !r.value.running
    {
      if cfg.id in capturers {
        return Failure(CapturerExists(cfg.id));
      }
      var c := new Capturer(cfg, None);
      capturers := capturers[cfg.id := c];
      r := Success(c);
    }

    /** `AddCapturerWithRecording`: as `AddCapturer`, with a recording configuration. */
    method AddCapturerWithRecording(cfg: CameraConfig, rec: RecordingConfig) returns (r: Result<Capturer, CaptureError>)
      requires Valid()
      modifies this
      ensures Valid()
      ensures cfg.id in old(capturers) ==> r == Failure(CapturerExists(cfg.id)) && capturers == old(capturers)
      ensures cfg.id !in old(capturers) ==>
        r.Success? && fresh(r.value) && capturers == old(capturers)[cfg.id := r.value]
        && r.value.config == cfg && r.value.recording == Some(rec) && !r.value.running
    {
      if cfg.id in capturers {
        return Failure(CapturerExists(cfg.id));
      }
      var c := new Capturer(cfg, Some(rec));
      capturers := capturers[cfg.id := c];
      r := Success(c);
    }

    /** `GetCapturer`: the capturer filed under `id`, or a not-found error. */
    function GetCapturer(id: string): (r: Result<Capturer, CaptureError>)
      reads this
      ensures r.Success? <==> id in capturers
      ensures r.Success? ==> r.value == capturers[id]
      ensures r.Failure? ==> r.error == CapturerNotFound(id)
    {
      if id in capturers then Success(capturers[id]) else Failure(CapturerNotFound(id))
    }

    /**
     * `StartAll`: starts the capturers one by one in no particular order
     * and stops at the first error, which it returns; the capturers not yet
     * tried are left as they were. Without an error every capturer runs.
     */
    method StartAll(outcome: string -> SpawnOutcome) returns (err: Option<CaptureError>, ghost tried: set<string>)
      requires Valid()
      modifies Objects()
      ensures Valid()
      ensures tried <= capturers.Keys
      ensures forall id :: id in capturers && id !in tried ==> unchanged(capturers[id])
      ensures err.None? ==> tried == capturers.Keys && forall id :: id in capturers ==> capturers[id].running
      ensures err.Some? ==> exists id :: (id in tried && !capturers[id].running
        && err == StartCaptureError(capturers[id].config.audio.enabled, outcome(id)))
    {
      var pending := capturers.Keys;
      tried := {};
      err := None;
      while pending != {}
        invariant pending <= capturers.Keys && tried == capturers.Keys - pending
        invariant Filed() && forall id :: id in capturers ==> capturers[id].Valid()
        invariant forall id :: id in pending ==> unchanged(capturers[id])
        invariant forall id :: id in tried ==> capturers[id].running
        decreases pending
      {
        var id :| id in pending;
        var e := StartOne(id, outcome(id));
        tried := tried + {id};
        pending := pending - {id};
        if e.Some? {
          return e, tried;
        }
      }
    }

    /** One capturer of `StartAll`; the others are left as they were. */
    method StartOne(id: string, outcome: SpawnOutcome) returns (err: Option<CaptureError>)
      requires Filed() && id in capturers && forall k :: k in capturers ==> capturers[k].Valid()
      modifies capturers[id]
      ensures forall k :: k in capturers ==> capturers[k].Valid()
      ensures forall k :: k in capturers && k != id ==> unchanged(capturers[k])
      ensures err.None? ==> capturers[id].running
      ensures err.Some? ==> !capturers[id].running
      ensures err.Some? ==> err == StartCaptureError(capturers[id].config.audio.enabled, outcome)
    {
      err := capturers[id].Start(outcome);
    }

    /** `StopAll`: every capturer ends stopped. */
    method StopAll()
      requires Valid()
      modifies Objects()
      ensures Valid()
      ensures forall id :: id in capturers ==> !capturers[id].running
    {
      var pending := capturers.Keys;
      while pending != {}
        invariant pending <= capturers.Keys
        invariant Filed() && forall id :: id in capturers ==> capturers[id].Valid()
        invariant forall id :: id in capturers && id !in pending ==> !capturers[id].running
        decreases pending
      {
        var id :| id in pending;
        StopOne(id);
        pending := pending - {id};
      }
    }

    /** One capturer of `StopAll`; the others keep their state. */
    method StopOne(id: string)
      requires Filed() && id in capturers && forall k :: k in capturers ==> capturers[k].Valid()
      modifies capturers[id]
      ensures forall k :: k in capturers ==> capturers[k].Valid()
      ensures forall k :: k in capturers && k != id ==> capturers[k].running == old(capturers[k].running)
      ensures !capturers[id].running
    {
      capturers[id].Stop();
    }
  }
}
