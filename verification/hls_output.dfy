/**
 * The HLS output of one camera and the manager that keeps at most one per
 * enabled camera. An output runs one ffmpeg process that reads MJPEG on
 * descriptor 3 and PCM on descriptor 4 and writes an HLS playlist with
 * H.264/AAC segments under `<temp>/hls/<camera>/`; two feed loops take
 * what the camera's capturer publishes to them and write it to the pipes.
 *
 * Directory creation, pipe creation and the process start are an outcome
 * given as a parameter; process exit is an event (`OnProcessExit`).
 */
module HlsOutput {
  import opened Wrappers
  import opened Text
  import opened Strconv
  import opened Queues
  import opened Args
  import opened Config
  import opened Feeds
  import Capture

  datatype HlsError =
    | DirCreateFailed
    | VideoPipeFailed
    | AudioPipeFailed
    | ProcessStartFailed
    | AlreadyRunning(id: string)
    | UnknownCamera(id: string)
    | CapturerLookupFailed(cause: Capture.CaptureError)

  /** What the operating system does when `Start` asks for a directory, two pipes and a process. */
  datatype StartOutcome = StartOutcome(mkdir: bool, videoPipe: bool, audioPipe: bool, process: bool)

  /** The error of `Output.Start`, in the code's order: directory, video pipe, audio pipe, process. */
  function OutputStartError(o: StartOutcome): (r: Option<HlsError>)
    ensures r.None? <==> o.mkdir && o.videoPipe && o.audioPipe && o.process
    ensures !o.mkdir ==> r == Some(DirCreateFailed)
    ensures o.mkdir && !o.videoPipe ==> r == Some(VideoPipeFailed)
    ensures o.mkdir && o.videoPipe && !o.audioPipe ==> r == Some(AudioPipeFailed)
  {
    if !o.mkdir then Some(DirCreateFailed)
    else if !o.videoPipe then Some(VideoPipeFailed)
    else if !o.audioPipe then Some(AudioPipeFailed)
    else if !o.process then Some(ProcessStartFailed)
    else None
  }

  /** The segment length in seconds: the configured one, or 2 when it is not positive. */
  function SegmentDuration(s: StreamConfig): (r: int)
    ensures r > 0
    ensures s.hlsSegmentDuration > 0 ==> r == s.hlsSegmentDuration
    ensures s.hlsSegmentDuration <= 0 ==> r == 2
  {
    if s.hlsSegmentDuration <= 0 then 2 else s.hlsSegmentDuration
  }

  /** The number of segments the playlist lists: the configured one, or 5 when it is not positive. */
  function PlaylistLength(s: StreamConfig): (r: int)
    ensures r > 0
    ensures s.hlsPlaylistLength > 0 ==> r == s.hlsPlaylistLength
    ensures s.hlsPlaylistLength <= 0 ==> r == 5
  {
    if s.hlsPlaylistLength <= 0 then 5 else s.hlsPlaylistLength
  }

  /** The directory all HLS outputs write under. */
  function OutputPath(tempPath: string): string
  {
    PathJoin(tempPath, "hls")
  }

  /** The directory of one camera's output. */
  function HlsDir(outputPath: string, id: string): string
  {
    PathJoin(outputPath, id)
  }

  function PlaylistPath(dir: string): string
  {
    PathJoin(dir, "index.m3u8")
  }

  function SegmentPattern(dir: string): string
  {
    PathJoin(dir, "segment_%03d.ts")
  }

  /** The URL path a camera's playlist is served under. */
  function PlaylistUrl(id: string): string
  {
    "/hls/" + id + "/index.m3u8"
  }

  /**
   * The playlist the encoder writes is the file the URL names under the
   * temporary directory: `<temp>/hls/<id>/index.m3u8` is `<temp>` followed
   * by `/hls/<id>/index.m3u8`.
   */
  lemma PlaylistServed(tempPath: string, id: string)
    requires tempPath != "" && id != ""
    ensures PlaylistPath(HlsDir(OutputPath(tempPath), id)) == tempPath + PlaylistUrl(id)
  {
    assert tempPath + "/" + "hls" + "/" + id + "/" + "index.m3u8" == tempPath + PlaylistUrl(id);
  }

  /** Segments and playlist lie in the same per-camera directory, and differ. */
  lemma SegmentsBesidePlaylist(dir: string)
    requires dir != ""
    ensures SegmentPattern(dir) == dir + "/segment_%03d.ts"
    ensures PlaylistPath(dir) == dir + "/index.m3u8"
    ensures SegmentPattern(dir) != PlaylistPath(dir)
  {
    assert SegmentPattern(dir)[|dir| + 1] == 's';
    assert PlaylistPath(dir)[|dir| + 1] == 'i';
  }

  /** The H.264 encoder, its rate control, keyframe spacing and pixel format. */
  function VideoCodecArgs(fps: int): seq<string>
  {
    ["-c:v", "libx264", "-preset", "ultrafast", "-tune", "zerolatency",
     "-profile:v", "baseline", "-level", "3.1",
     "-b:v", "1500k", "-maxrate", "2000k", "-bufsize", "3000k",
     "-g", Itoa(fps * 2), "-sc_threshold", "0", "-pix_fmt", "yuv420p"]
  }

  /** The AAC encoder. */
  function AudioCodecArgs(): seq<string>
  {
    ["-c:a", "aac", "-b:a", "128k", "-ar", "44100"]
  }

  /** The HLS muxer: segment length, playlist length, flags, segment names and the playlist. */
  function MuxArgs(seg: int, len: int, dir: string): seq<string>
  {
    ["-f", "hls", "-hls_time", Itoa(seg), "-hls_list_size", Itoa(len),
     "-hls_flags", "delete_segments+append_list",
     "-hls_segment_filename", SegmentPattern(dir), PlaylistPath(dir)]
  }

  /** The encoder command line, in the code's order. */
  function HlsArgs(fps: int, seg: int, len: int, dir: string): seq<string>
  {
    GlobalArgs() + VideoInputArgs(fps) + AudioInputArgs() + VideoCodecArgs(fps) + AudioCodecArgs() + MuxArgs(seg, len, dir)
  }

  /** The encoder reads MJPEG from descriptor 3 at the camera rate as its first input. */
  lemma HlsArgsInput(fps: int, seg: int, len: int, dir: string)
    ensures ValueAfter(HlsArgs(fps, seg, len, dir), "-f") == Some("mjpeg")
    ensures ValueAfter(HlsArgs(fps, seg, len, dir), "-framerate") == Some(Itoa(fps))
    ensures ValueAfter(HlsArgs(fps, seg, len, dir), "-i") == Some("pipe:3")
  {
    var a, b := GlobalArgs(), VideoInputArgs(fps);
    var c, d, e, f := AudioInputArgs(), VideoCodecArgs(fps), AudioCodecArgs(), MuxArgs(seg, len, dir);
    ValueAfterAt(b, 0, "-f");
    ValueAfterAt(b, 2, "-framerate");
    ItoaIsNotFlag(fps, "-i");
    ValueAfterAt(b, 4, "-i");
    ValueAfterSkip(a, b, "-f");
    ValueAfterSkip(a, b, "-framerate");
    ValueAfterSkip(a, b, "-i");
    ThroughTail(a + b, c, d, e, f, "-f");
    ThroughTail(a + b, c, d, e, f, "-framerate");
    ThroughTail(a + b, c, d, e, f, "-i");
  }

  /** The codec part sets the GOP to twice the camera rate. */
  lemma CodecGop(fps: int)
    ensures ValueAfter(VideoCodecArgs(fps), "-g") == Some(Itoa(fps * 2))
  {
    ValueAfterAt(VideoCodecArgs(fps), 16, "-g");
  }

  /** A keyframe every two seconds: a GOP of twice the camera rate. */
  lemma HlsArgsGop(fps: int, seg: int, len: int, dir: string)
    ensures ValueAfter(HlsArgs(fps, seg, len, dir), "-g") == Some(Itoa(fps * 2))
  {
    var a, b, c := GlobalArgs(), VideoInputArgs(fps), AudioInputArgs();
    var d, e, f := VideoCodecArgs(fps), AudioCodecArgs(), MuxArgs(seg, len, dir);
    ItoaIsNotFlag(fps, "-g");
    assert "-g" !in a + b + c;
    CodecGop(fps);
    ValueAfterSkip(a + b + c, d, "-g");
    ValueAfterPrefix(a + b + c + d, e, "-g");
    ValueAfterPrefix(a + b + c + d + e, f, "-g");
  }

  /** The options only the HLS muxer takes. */
  predicate MuxFlag(flag: string)
  {
    flag == "-hls_time" || flag == "-hls_list_size" || flag == "-hls_segment_filename"
  }

  /** No muxer option occurs among the global options and the two inputs. */
  lemma InputsLackMuxFlag(fps: int, flag: string)
    requires MuxFlag(flag)
    ensures flag !in GlobalArgs() + VideoInputArgs(fps) + AudioInputArgs()
  {
    ItoaIsNotFlag(fps, flag);
  }

  /** No muxer option occurs among the codec options. */
  lemma CodecsLackMuxFlag(fps: int, flag: string)
    requires MuxFlag(flag)
    ensures flag !in VideoCodecArgs(fps) && flag !in AudioCodecArgs()
  {
    ItoaIsNotFlag(fps * 2, flag);
  }

  /** A muxer option takes its value from the muxer part, whatever precedes it. */
  lemma MuxFlagValue(fps: int, seg: int, len: int, dir: string, i: nat, flag: string)
    requires MuxFlag(flag)
    requires i + 1 < |MuxArgs(seg, len, dir)| && MuxArgs(seg, len, dir)[i] == flag
    requires flag !in MuxArgs(seg, len, dir)[..i]
    ensures ValueAfter(HlsArgs(fps, seg, len, dir), flag) == Some(MuxArgs(seg, len, dir)[i + 1])
  {
    var a, b, c := GlobalArgs(), VideoInputArgs(fps), AudioInputArgs();
    var d, e, f := VideoCodecArgs(fps), AudioCodecArgs(), MuxArgs(seg, len, dir);
    InputsLackMuxFlag(fps, flag);
    CodecsLackMuxFlag(fps, flag);
    ValueAfterAt(f, i, flag);
    ValueAfterSkip(a + b + c + d + e, f, flag);
  }

  /** The segment length the muxer is given. */
  lemma HlsArgsSegmentTime(fps: int, seg: int, len: int, dir: string)
    ensures ValueAfter(HlsArgs(fps, seg, len, dir), "-hls_time") == Some(Itoa(seg))
  {
    MuxFlagValue(fps, seg, len, dir, 2, "-hls_time");
  }

  /** The playlist length the muxer is given. */
  lemma HlsArgsListSize(fps: int, seg: int, len: int, dir: string)
    ensures ValueAfter(HlsArgs(fps, seg, len, dir), "-hls_list_size") == Some(Itoa(len))
  {
    ItoaIsNotFlag(seg, "-hls_list_size");
    MuxFlagValue(fps, seg, len, dir, 4, "-hls_list_size");
  }

  /** Segments are named after the pattern in the camera's directory; the playlist is the last argument. */
  lemma HlsArgsFiles(fps: int, seg: int, len: int, dir: string)
    ensures ValueAfter(HlsArgs(fps, seg, len, dir), "-hls_segment_filename") == Some(SegmentPattern(dir))
    ensures Last(HlsArgs(fps, seg, len, dir)) == PlaylistPath(dir)
  {
    ItoaIsNotFlag(seg, "-hls_segment_filename");
    ItoaIsNotFlag(len, "-hls_segment_filename");
    MuxFlagValue(fps, seg, len, dir, 8, "-hls_segment_filename");
  }

  /** The last element of a non-empty command line. */
  function Last(args: seq<string>): string
  {
    if args == [] then "" else args[|args| - 1]
  }

  /** The capturer subscription ids an output uses. */
  function VideoSubId(id: string): string
  {
    "hls_video_" + id
  }

  function AudioSubId(id: string): string
  {
    "hls_audio_" + id
  }

  class Output {
    const capturer: Capture.Capturer
    const camera: CameraConfig
    const stream: StreamConfig
    const outputPath: string
    /** The `running` flag. */
    var running: bool
    /** The process started by the last successful `Start` has not exited or been killed. */
    var processAlive: bool
    /** The write ends of the two pipes are set (`videoStdin`/`audioStdin` non-nil). */
    var videoPipe: bool
    var audioPipe: bool
    /** The feed loops of the last successful `Start` are still looping. */
    var videoFeeding: bool
    var audioFeeding: bool
    /** What the feed loops have written to the encoder since the last successful `Start`. */
    var videoStream: seq<Bytes>
    var audioStream: seq<Bytes>

    /** The camera the output belongs to: its capturer's. */
    function Id(): string
    {
      capturer.config.id
    }

    function HasAudio(): bool
    {
      capturer.config.audio.enabled
    }

    ghost predicate Valid()
      reads this
    {
      (running ==> processAlive && videoPipe && audioPipe && videoFeeding)
      && (running && HasAudio() ==> audioFeeding)
      && (!HasAudio() ==> !audioFeeding)
    }

    /** `NewHLSOutput`. */
    constructor(capturer: Capture.Capturer, camera: CameraConfig, stream: StreamConfig, outputPath: string)
      ensures Valid()
      ensures this.capturer == capturer && this.camera == camera
      ensures this.stream == stream && this.outputPath == outputPath
      ensures !running && !processAlive && !videoPipe && !audioPipe && !videoFeeding && !audioFeeding
      ensures videoStream == [] && audioStream == []
    {
      this.capturer := capturer;
      this.camera := camera;
      this.stream := stream;
      this.outputPath := outputPath;
      running := false;
      processAlive := false;
      videoPipe := false;
      audioPipe := false;
      videoFeeding := false;
      audioFeeding := false;
      videoStream := [];
      audioStream := [];
    }

    function Dir(): string
    {
      HlsDir(outputPath, Id())
    }

    /** The command line `Start` runs ffmpeg with. */
    function Args(): seq<string>
    {
      HlsArgs(camera.fps, SegmentDuration(stream), PlaylistLength(stream), Dir())
    }

    /**
     * The encoder's segment and playlist lengths are the configured ones
     * when positive and 2 and 5 seconds otherwise, and it writes the
     * playlist into the camera's directory.
     */
    lemma ArgsUseDefaults()
      ensures ValueAfter(Args(), "-hls_time") == Some(Itoa(if stream.hlsSegmentDuration <= 0 then 2 else stream.hlsSegmentDuration))
      ensures ValueAfter(Args(), "-hls_list_size") == Some(Itoa(if stream.hlsPlaylistLength <= 0 then 5 else stream.hlsPlaylistLength))
      ensures Last(Args()) == PathJoin(HlsDir(outputPath, Id()), "index.m3u8")
    {
      HlsArgsSegmentTime(camera.fps, SegmentDuration(stream), PlaylistLength(stream), Dir());
      HlsArgsListSize(camera.fps, SegmentDuration(stream), PlaylistLength(stream), Dir());
      HlsArgsFiles(camera.fps, SegmentDuration(stream), PlaylistLength(stream), Dir());
    }

    function IsRunning(): bool
      reads this
    {
      running
    }

    /** `GetPlaylistURL`. */
    function GetPlaylistUrl(): string
    {
      PlaylistUrl(Id())
    }

    /**
     * `Start`: nothing happens when running. Otherwise the directory is
     * made, then both pipes, then the process is started; the output runs
     * only if all four succeed. Once both pipes exist their write ends stay
     * set even when the process fails to start. A started output
     * subscribes to its capturer's frames, and to its audio when the
     * camera has audio.
     */
    method Start(o: StartOutcome) returns (err: Option<HlsError>)
      requires Valid() && capturer.Valid()
      modifies this, capturer
      ensures Valid() && capturer.Valid()
      ensures old(running) ==> err.None? && unchanged(this) && unchanged(capturer)
      ensures !old(running) ==> err == OutputStartError(o) && running == err.None?
      ensures !old(running) && o.mkdir && o.videoPipe && o.audioPipe ==> videoPipe && audioPipe
      ensures !old(running) && !(o.mkdir && o.videoPipe && o.audioPipe) ==>
        videoPipe == old(videoPipe) && audioPipe == old(audioPipe)
      ensures err.Some? ==> unchanged(capturer) && processAlive == old(processAlive)
      ensures err.Some? ==> videoFeeding == old(videoFeeding) && audioFeeding == old(audioFeeding)
      ensures err.Some? ==> videoStream == old(videoStream) && audioStream == old(audioStream)
      ensures !old(running) && err.None? ==> processAlive && videoFeeding && audioFeeding == HasAudio()
      ensures !old(running) && err.None? ==> videoStream == [] && audioStream == []
      ensures !old(running) && err.None? ==> capturer.frameSubscribers == old(capturer.frameSubscribers)[VideoSubId(Id()) := []]
      ensures !old(running) && err.None? ==>
        capturer.audioSubscribers == if HasAudio() then old(capturer.audioSubscribers)[AudioSubId(Id()) := []]
                                     else old(capturer.audioSubscribers)
      ensures capturer.running == old(capturer.running) && capturer.processAlive == old(capturer.processAlive)
      ensures capturer.lastFrame == old(capturer.lastFrame) && capturer.frameBuffer == old(capturer.frameBuffer)
    {
      if running {
        return None;
      }
      if !o.mkdir {
        return Some(DirCreateFailed);
      }
      if !o.videoPipe {
        return Some(VideoPipeFailed);
      }
      if !o.audioPipe {
        return Some(AudioPipeFailed);
      }
      videoPipe := true;
      audioPipe := true;
      if !o.process {
        return Some(ProcessStartFailed);
      }
      processAlive := true;
      videoStream := [];
      audioStream := [];
      videoFeeding := true;
      capturer.SubscribeFrames(VideoSubId(Id()));
      if HasAudio() {
        audioFeeding := true;
        capturer.SubscribeAudio(AudioSubId(Id()));
      }
      running := true;
      err := None;
    }

    /**
     * The exit watcher: once the process ends the output no longer runs.
     * Its context is not cancelled and its pipes stay set, so a later
     * `Stop` does nothing.
     */
    method OnProcessExit()
      requires Valid() && processAlive
      modifies this
      ensures Valid()
      ensures !running && !processAlive
      ensures videoPipe == old(videoPipe) && audioPipe == old(audioPipe)
      ensures videoFeeding == old(videoFeeding) && audioFeeding == old(audioFeeding)
      ensures videoStream == old(videoStream) && audioStream == old(audioStream)
    {
      running := false;
      processAlive := false;
    }

    /**
     * `Stop`: nothing happens when not running. Otherwise `running` is
     * cleared, the context is cancelled (ending both feed loops), both
     * pipes are closed and cleared, and the process is killed.
     */
    method Stop()
      requires Valid()
      modifies this
      ensures Valid()
      ensures !running
      ensures !old(running) ==> unchanged(this)
      ensures old(running) ==> !processAlive && !videoPipe && !audioPipe
      ensures old(running) ==> !videoFeeding && !audioFeeding
      ensures videoStream == old(videoStream) && audioStream == old(audioStream)
    {
      if !running {
        return;
      }
      running := false;
      videoFeeding := false;
      audioFeeding := false;
      videoPipe := false;
      audioPipe := false;
      processAlive := false;
    }

    /** The frames waiting on the video feed loop's subscription. */
    function VideoPending(): seq<Bytes>
      reads capturer
    {
      var sub := VideoSubId(Id());
      if sub in capturer.frameSubscribers then capturer.frameSubscribers[sub] else []
    }

    /** The audio blocks waiting on the audio feed loop's subscription. */
    function AudioPending(): seq<Bytes>
      reads capturer
    {
      var sub := AudioSubId(Id());
      if sub in capturer.audioSubscribers then capturer.audioSubscribers[sub] else []
    }

    /**
     * `feedVideo`, run until its channel is drained. A cancelled loop and
     * an empty channel do nothing. When the output no longer runs, the
     * loop takes one frame, ends and unsubscribes. Otherwise every waiting
     * frame is taken and the non-empty ones are written to the encoder
     * when it has an input pipe; `ok[i]` tells whether the i-th write
     * succeeds, and a failure is ignored.
     */
    method FeedVideo(ok: seq<bool>)
      requires Valid() && capturer.Valid() && |ok| == |VideoPending()|
      modifies this, capturer
      ensures Valid() && capturer.Valid()
      ensures !old(videoFeeding) || old(VideoPending()) == [] ==> unchanged(this) && unchanged(capturer)
      ensures old(videoFeeding) && old(VideoPending()) != [] && !running ==>
        !videoFeeding && capturer.frameSubscribers == old(capturer.frameSubscribers) - {VideoSubId(Id())}
        && videoStream == old(videoStream)
      ensures old(videoFeeding) && running ==> videoFeeding && VideoPending() == []
      ensures old(videoFeeding) && running ==> videoStream == old(videoStream) + Delivered(old(VideoPending()), ok, videoPipe)
      ensures running == old(running) && processAlive == old(processAlive) && audioFeeding == old(audioFeeding)
      ensures videoPipe == old(videoPipe) && audioPipe == old(audioPipe) && audioStream == old(audioStream)
      ensures capturer.audioSubscribers == old(capturer.audioSubscribers) && capturer.running == old(capturer.running)
    {
      var sub := VideoSubId(Id());
      if !videoFeeding || sub !in capturer.frameSubscribers || capturer.frameSubscribers[sub] == [] {
        return;
      }
      if !running {
        capturer.UnsubscribeFrames(sub);
        videoFeeding := false;
        return;
      }
      var frames := capturer.TakeFrames(sub);
      WriteVideo(frames, ok);
    }

    /** The writes of a running video feed loop, one per received frame. */
    method WriteVideo(frames: seq<Bytes>, ok: seq<bool>)
      requires |ok| == |frames|
      modifies this
      ensures videoStream == old(videoStream) + Delivered(frames, ok, videoPipe)
      ensures running == old(running) && processAlive == old(processAlive)
      ensures videoFeeding == old(videoFeeding) && audioFeeding == old(audioFeeding)
      ensures videoPipe == old(videoPipe) && audioPipe == old(audioPipe) && audioStream == old(audioStream)
    {
      var i := 0;
      while i < |frames|
        invariant 0 <= i <= |frames|
        invariant videoStream == old(videoStream) + Delivered(frames[..i], ok[..i], videoPipe)
        invariant running == old(running) && processAlive == old(processAlive)
        invariant videoFeeding == old(videoFeeding) && audioFeeding == old(audioFeeding)
        invariant videoPipe == old(videoPipe) && audioPipe == old(audioPipe) && audioStream == old(audioStream)
      {
        assert frames[..i + 1][..i] == frames[..i] && ok[..i + 1][..i] == ok[..i];
        if videoPipe && |frames[i]| > 0 && ok[i] {
          videoStream := videoStream + [frames[i]];
        }
        i := i + 1;
      }
      assert frames[..i] == frames && ok[..i] == ok;
    }

    /** `feedAudio`: the same loop for the audio subscription. */
    method FeedAudio(ok: seq<bool>)
      requires Valid() && capturer.Valid() && |ok| == |AudioPending()|
      modifies this, capturer
      ensures Valid() && capturer.Valid()
      ensures !old(audioFeeding) || old(AudioPending()) == [] ==> unchanged(this) && unchanged(capturer)
      ensures old(audioFeeding) && old(AudioPending()) != [] && !running ==>
        !audioFeeding && capturer.audioSubscribers == old(capturer.audioSubscribers) - {AudioSubId(Id())}
        && audioStream == old(audioStream)
      ensures old(audioFeeding) && running ==> audioFeeding && AudioPending() == []
      ensures old(audioFeeding) && running ==> audioStream == old(audioStream) + Delivered(old(AudioPending()), ok, audioPipe)
      ensures running == old(running) && processAlive == old(processAlive) && videoFeeding == old(videoFeeding)
      ensures videoPipe == old(videoPipe) && audioPipe == old(audioPipe) && videoStream == old(videoStream)
      ensures capturer.frameSubscribers == old(capturer.frameSubscribers) && capturer.running == old(capturer.running)
    {
      var sub := AudioSubId(Id());
      if !audioFeeding || sub !in capturer.audioSubscribers || capturer.audioSubscribers[sub] == [] {
        return;
      }
      if !running {
        capturer.UnsubscribeAudio(sub);
        audioFeeding := false;
        return;
      }
      var blocks := capturer.TakeAudio(sub);
      WriteAudio(blocks, ok);
    }

    /** The writes of a running audio feed loop, one per received block. */
    method WriteAudio(blocks: seq<Bytes>, ok: seq<bool>)
      requires |ok| == |blocks|
      modifies this
      ensures audioStream == old(audioStream) + Delivered(blocks, ok, audioPipe)
      ensures running == old(running) && processAlive == old(processAlive)
      ensures videoFeeding == old(videoFeeding) && audioFeeding == old(audioFeeding)
      ensures videoPipe == old(videoPipe) && audioPipe == old(audioPipe) && videoStream == old(videoStream)
    {
      var i := 0;
      while i < |blocks|
        invariant 0 <= i <= |blocks|
        invariant audioStream == old(audioStream) + Delivered(blocks[..i], ok[..i], audioPipe)
        invariant running == old(running) && processAlive == old(processAlive)
        invariant videoFeeding == old(videoFeeding) && audioFeeding == old(audioFeeding)
        invariant videoPipe == old(videoPipe) && audioPipe == old(audioPipe) && videoStream == old(videoStream)
      {
        assert blocks[..i + 1][..i] == blocks[..i] && ok[..i + 1][..i] == ok[..i];
        if audioPipe && |blocks[i]| > 0 && ok[i] {
          audioStream := audioStream + [blocks[i]];
        }
        i := i + 1;
      }
      assert blocks[..i] == blocks && ok[..i] == ok;
    }
  }

  class Manager {
    const captures: Capture.Manager
    /** The enabled cameras by id. */
    const cameras: map<string, CameraConfig>
    const stream: StreamConfig
    /** `GetOutputPath`. */
    const outputPath: string
    var outputs: map<string, Output>

    ghost function Outputs(): set<Output>
      reads this
    {
      set id | id in outputs :: outputs[id]
    }

    /** Every output is filed under its camera id and is itself valid. */
    ghost predicate Valid()
      reads this, Outputs()
    {
      forall id :: id in outputs ==> outputs[id].Id() == id && outputs[id].Valid()
    }

    /** `NewHLSOutputManager`: only enabled cameras are registered, and outputs go under `<temp>/hls`. */
    constructor(captures: Capture.Manager, cams: seq<CameraConfig>, stream: StreamConfig)
      ensures Valid()
      ensures this.captures == captures && cameras == EnabledCameras(cams) && this.stream == stream
      ensures outputPath == OutputPath(stream.tempPath)
      ensures outputs == map[]
    {
      var enabled := CollectEnabled(cams);
      this.captures := captures;
      cameras := enabled;
      this.stream := stream;
      outputPath := OutputPath(stream.tempPath);
      outputs := map[];
    }

    /**
     * Why `StartOutput` would turn the camera away, checked in the code's
     * order: a running output already exists, the camera is not enabled,
     * or the capture manager has no capturer for it.
     */
    function Rejection(id: string): (r: Option<HlsError>)
      reads this, Outputs(), captures
    {
      if id in outputs && outputs[id].running then Some(AlreadyRunning(id))
      else if id !in cameras then Some(UnknownCamera(id))
      else if captures.GetCapturer(id).Failure? then Some(CapturerLookupFailed(captures.GetCapturer(id).error))
      else None
    }

    /**
     * `StartOutput`: a rejection is returned as is; otherwise a new output
     * is started, and it is filed only if it starts. A capturer that is not
     * running is accepted. An existing output that is not running is
     * replaced without being stopped.
     */
    method StartOutput(id: string, o: StartOutcome) returns (err: Option<HlsError>)
      requires Valid() && captures.Valid()
      modifies this, captures.Objects()
      ensures Valid()
      ensures captures.Valid()
      ensures err == if old(Rejection(id)).Some? then old(Rejection(id)) else OutputStartError(o)
      ensures err.Some? ==> outputs == old(outputs)
      ensures err.Some? && id in captures.capturers ==> unchanged(captures.capturers[id])
      ensures err.None? ==> id in outputs && fresh(outputs[id]) && outputs == old(outputs)[id := outputs[id]]
      ensures err.None? ==> var out := outputs[id];
        out.running && out.camera == cameras[id] && out.capturer == captures.capturers[id]
        && out.stream == stream && out.outputPath == outputPath
      ensures err.None? ==> var c := captures.capturers[id];
        c.frameSubscribers == old(c.frameSubscribers)[VideoSubId(id) := []]
        && c.audioSubscribers == (if c.config.audio.enabled then old(c.audioSubscribers)[AudioSubId(id) := []]
                                  else old(c.audioSubscribers))
      ensures forall j :: j in captures.capturers && j != id ==> unchanged(captures.capturers[j])
    {
      err := Rejection(id);
      if err.Some? {
        return;
      }
      var c := captures.capturers[id];
      assert c.config.id == id;
      var out := new Output(c, cameras[id], stream, outputPath);
      err := out.Start(o);
      if err.Some? {
        return;
      }
      File(id, out);
    }

    /** The end of a successful `StartOutput`: the output is filed under its camera. */
    method File(id: string, out: Output)
      requires Valid() && out.Valid() && out.Id() == id
      modifies this
      ensures Valid()
      ensures outputs == old(outputs)[id := out]
    {
      outputs := outputs[id := out];
    }

    /** `StopOutput`: always succeeds; stops and forgets the camera's output, if any. */
    method StopOutput(id: string) returns (err: Option<HlsError>)
      requires Valid()
      modifies this, Outputs()
      ensures Valid()
      ensures err.None?
      ensures outputs == old(outputs) - {id}
      ensures id in old(outputs) ==> !old(outputs)[id].running
      ensures forall j :: j in old(outputs) && j != id ==> unchanged(old(outputs)[j])
    {
      if id in outputs {
        var out := outputs[id];
        out.Stop();
        outputs := outputs - {id};
      }
      err := None;
    }

    /** `GetOutputStatus`: running and its playlist URL exactly when the camera has a running output. */
    function GetOutputStatus(id: string): (r: (bool, string))
      requires Valid()
      reads this, Outputs()
      ensures r.0 <==> id in outputs && outputs[id].running
      ensures r.1 == if r.0 then PlaylistUrl(id) else ""
    {
      if id in outputs && outputs[id].running then (true, outputs[id].GetPlaylistUrl()) else (false, "")
    }

    /** `GetAllOutputs`: the playlist URL of every running output, by camera. */
    method GetAllOutputs() returns (r: map<string, string>)
      requires Valid()
      ensures forall id :: id in r <==> id in outputs && outputs[id].running
      ensures forall id :: id in r ==> r[id] == PlaylistUrl(id)
    {
      r := map[];
      var pending := outputs.Keys;
      while pending != {}
        invariant pending <= outputs.Keys
        invariant forall id :: id in r <==> id in outputs && id !in pending && outputs[id].running
        invariant forall id :: id in r ==> r[id] == PlaylistUrl(id)
        decreases pending
      {
        var id :| id in pending;
        if outputs[id].running {
          r := r[id := outputs[id].GetPlaylistUrl()];
        }
        pending := pending - {id};
      }
    }

    /** `StopAll`: every output is stopped and the table ends empty. */
    method StopAll()
      requires forall id :: id in outputs ==> outputs[id].Valid()
      modifies this, Outputs()
      ensures Valid()
      ensures outputs == map[]
      ensures forall id :: id in old(outputs) ==> !old(outputs)[id].running
    {
      ghost var all := outputs;
      while outputs != map[]
        invariant outputs.Keys <= all.Keys
        invariant forall id :: id in outputs ==> outputs[id] == all[id]
        invariant forall id :: id in all ==> all[id].Valid() && (id !in outputs ==> !all[id].running)
        decreases outputs.Keys
      {
        var id :| id in outputs;
        outputs[id].Stop();
        outputs := outputs - {id};
      }
    }
  }
}
