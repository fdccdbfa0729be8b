/**
 * The RTMP push stream of one camera and the manager that keeps at most
 * one per camera. A streamer runs one ffmpeg process that reads MJPEG on
 * descriptor 3 and PCM on descriptor 4 and pushes H.264 and AAC in FLV to
 * a URL; two feed loops drain its bounded input channels into the pipes.
 *
 * Pipe creation and the process start are an outcome given as a
 * parameter; process exit is an event (`OnProcessExit`).
 */
module Rtmp {
  import opened Wrappers
  import opened Strconv
  import opened Queues
  import opened Args
  import opened Config
  import opened Feeds
  import Capture

  /** Capacity of the frame input channel. */
  const FrameInputCap: nat := 30
  /** Capacity of the audio input channel. */
  const AudioInputCap: nat := 100

  datatype RtmpError =
    | VideoPipeFailed
    | AudioPipeFailed
    | ProcessStartFailed
    | AlreadyStreaming(id: string)
    | UnknownCamera(id: string)
    | CapturerMissing(id: string)
    | CapturerNotRunning(id: string)

  /** What the operating system does when `Start` asks it for two pipes and a process. */
  datatype StartOutcome = StartOutcome(videoPipe: bool, audioPipe: bool, process: bool)

  /** The error of `Streamer.Start`, in the code's order: video pipe, audio pipe, process. */
  function StreamerStartError(o: StartOutcome): (r: Option<RtmpError>)
    ensures r.None? <==> o.videoPipe && o.audioPipe && o.process
    ensures !o.videoPipe ==> r == Some(VideoPipeFailed)
    ensures o.videoPipe && !o.audioPipe ==> r == Some(AudioPipeFailed)
  {
    if !o.videoPipe then Some(VideoPipeFailed)
    else if !o.audioPipe then Some(AudioPipeFailed)
    else if !o.process then Some(ProcessStartFailed)
    else None
  }

  /** The H.264 encoder and its rate control. */
  function VideoCodecArgs(): seq<string>
  {
    ["-c:v", "libx264", "-preset", "ultrafast", "-tune", "zerolatency",
     "-profile:v", "baseline", "-level", "3.1",
     "-b:v", "2000k", "-maxrate", "2500k", "-bufsize", "4000k"]
  }

  /** The keyframe spacing and pixel format. */
  function GopArgs(fps: int): seq<string>
  {
    ["-g", Itoa(fps * 2), "-keyint_min", Itoa(fps), "-sc_threshold", "0", "-pix_fmt", "yuv420p"]
  }

  /** The AAC encoder and the FLV output to the URL. */
  function OutputArgs(url: string): seq<string>
  {
    ["-c:a", "aac", "-b:a", "128k", "-ar", "44100",
     "-f", "flv", "-flvflags", "no_duration_filesize", url]
  }

  /** The push command line, in the code's order. */
  function StreamerArgs(fps: int, url: string): (args: seq<string>)
    ensures |args| > 0 && args[|args| - 1] == url
  {
    GlobalArgs() + VideoInputArgs(fps) + AudioInputArgs() + VideoCodecArgs() + GopArgs(fps) + OutputArgs(url)
  }

  /**
   * The push command reads MJPEG from descriptor 3 at the camera rate as
   * its first input.
   */
  lemma StreamerArgsInput(fps: int, url: string)
    ensures ValueAfter(StreamerArgs(fps, url), "-f") == Some("mjpeg")
    ensures ValueAfter(StreamerArgs(fps, url), "-framerate") == Some(Itoa(fps))
    ensures ValueAfter(StreamerArgs(fps, url), "-i") == Some("pipe:3")
  {
    var a, b := GlobalArgs(), VideoInputArgs(fps);
    var c, d, e, f := AudioInputArgs(), VideoCodecArgs(), GopArgs(fps), OutputArgs(url);
    ValueAfterAt(b, 0, "-f");
    ValueAfterAt(b, 2, "-framerate");
    ItoaIsNotFlag(fps, "-i");
    ValueAfterAt(b, 4, "-i");
    ValueAfterSkip(a, b, "-f");
    ValueAfterSkip(a, b, "-framerate");
    ValueAfterSkip(a, b, "-i");
    ThroughTail(a + b, c, d, e, f, "-f");
    ThroughTail(a + b, c, d, e, f, "-framerate");
    ThroughTail(a + b, c, d, e, f, "-i");
  }

  /** The push command encodes H.264. */
  lemma StreamerArgsVideo(fps: int, url: string)
    ensures ValueAfter(StreamerArgs(fps, url), "-c:v") == Some("libx264")
  {
    var a, b, c := GlobalArgs(), VideoInputArgs(fps), AudioInputArgs();
    var d, e, f := VideoCodecArgs(), GopArgs(fps), OutputArgs(url);
    ItoaIsNotFlag(fps, "-c:v");
    ValueAfterAt(d, 0, "-c:v");
    ValueAfterSkip(a + b + c, d, "-c:v");
    ValueAfterPrefix(a + b + c + d, e, "-c:v");
    ValueAfterPrefix(a + b + c + d + e, f, "-c:v");
  }

  /** A keyframe at least every two seconds: a GOP of twice the rate. */
  lemma StreamerArgsGop(fps: int, url: string)
    ensures ValueAfter(StreamerArgs(fps, url), "-g") == Some(Itoa(fps * 2))
  {
    var a, b, c := GlobalArgs(), VideoInputArgs(fps), AudioInputArgs();
    var d, e, f := VideoCodecArgs(), GopArgs(fps), OutputArgs(url);
    ItoaIsNotFlag(fps, "-g");
    ValueAfterAt(e, 0, "-g");
    ValueAfterSkip(a + b + c + d, e, "-g");
    ValueAfterPrefix(a + b + c + d + e, f, "-g");
  }

  /** At most one keyframe a second: a minimum keyframe interval of the rate. */
  lemma StreamerArgsKeyint(fps: int, url: string)
    ensures ValueAfter(StreamerArgs(fps, url), "-keyint_min") == Some(Itoa(fps))
  {
    var a, b, c := GlobalArgs(), VideoInputArgs(fps), AudioInputArgs();
    var d, e, f := VideoCodecArgs(), GopArgs(fps), OutputArgs(url);
    ItoaIsNotFlag(fps, "-keyint_min");
    ItoaIsNotFlag(fps * 2, "-keyint_min");
    ValueAfterAt(e, 2, "-keyint_min");
    ValueAfterSkip(a + b + c + d, e, "-keyint_min");
    ValueAfterPrefix(a + b + c + d + e, f, "-keyint_min");
  }

  class Streamer {
    const cameraId: string
    const camera: CameraConfig
    const url: string
    /** The `running` flag. */
    var running: bool
    /** The process started by the last successful `Start` has not exited or been killed. */
    var processAlive: bool
    /** The write ends of the two pipes are set (`videoStdin`/`audioStdin` non-nil). */
    var videoPipe: bool
    var audioPipe: bool
    /** The two feed loops of the last successful `Start` are still looping. */
    var videoFeeding: bool
    var audioFeeding: bool
    var frameInput: seq<Bytes>
    var audioInput: seq<Bytes>
    /** What each feed loop has done since the last successful `Start`. */
    var video: FeedState
    var audio: FeedState

    ghost predicate Valid()
      reads this
    {
      |frameInput| <= FrameInputCap && |audioInput| <= AudioInputCap
      && (running ==> processAlive && videoPipe && audioPipe && videoFeeding && audioFeeding)
    }

    /** `NewStreamer`. */
    constructor(cameraId: string, camera: CameraConfig, url: string)
      ensures Valid()
      ensures this.cameraId == cameraId && this.camera == camera && this.url == url
      ensures !running && !processAlive && !videoPipe && !audioPipe && !videoFeeding && !audioFeeding
      ensures frameInput == [] && audioInput == [] && video == FreshFeed && audio == FreshFeed
    {
      this.cameraId := cameraId;
      this.camera := camera;
      this.url := url;
      running := false;
      processAlive := false;
      videoPipe := false;
      audioPipe := false;
      videoFeeding := false;
      audioFeeding := false;
      frameInput := [];
      audioInput := [];
      video := FreshFeed;
      audio := FreshFeed;
    }

    function IsRunning(): bool
      reads this
    {
      running
    }

    /**
     * `Start`: nothing happens when running. Otherwise both pipes are
     * made, then the process is started; the streamer runs only if all
     * three succeed. Once both pipes exist their write ends stay set even
     * when the process fails to start.
     */
    method Start(o: StartOutcome) returns (err: Option<RtmpError>)
      requires Valid()
      modifies this
      ensures Valid()
      ensures old(running) ==> err.None? && unchanged(this)
      ensures !old(running) ==> err == StreamerStartError(o) && running == err.None?
      ensures !old(running) && o.videoPipe && o.audioPipe ==> videoPipe && audioPipe
      ensures !old(running) && !(o.videoPipe && o.audioPipe) ==>
        videoPipe == old(videoPipe) && audioPipe == old(audioPipe)
      ensures !old(running) && err.None? ==> processAlive && videoFeeding && audioFeeding
      ensures !old(running) && err.None? ==> video == FreshFeed && audio == FreshFeed
      ensures err.Some? ==> processAlive == old(processAlive) && video == old(video) && audio == old(audio)
      ensures err.Some? ==> videoFeeding == old(videoFeeding) && audioFeeding == old(audioFeeding)
      ensures frameInput == old(frameInput) && audioInput == old(audioInput)
    {
      if running {
        return None;
      }
      if !o.videoPipe {
        return Some(VideoPipeFailed);
      }
      if !o.audioPipe {
        return Some(AudioPipeFailed);
      }
      videoPipe := true;
      audioPipe := true;
      if !o.process {
        return Some(ProcessStartFailed);
      }
      processAlive := true;
      video := FreshFeed;
      audio := FreshFeed;
      videoFeeding := true;
      audioFeeding := true;
      running := true;
      err := None;
    }

    /**
     * The exit watcher: once the process ends the streamer no longer
     * runs. Its context is not cancelled and its pipes stay set, so a
     * later `Stop` does nothing.
     */
    method OnProcessExit()
      requires Valid() && processAlive
      modifies this
      ensures Valid()
      ensures !running && !processAlive
      ensures videoPipe == old(videoPipe) && audioPipe == old(audioPipe)
      ensures videoFeeding == old(videoFeeding) && audioFeeding == old(audioFeeding)
      ensures frameInput == old(frameInput) && audioInput == old(audioInput)
      ensures video == old(video) && audio == old(audio)
    {
      running := false;
      processAlive := false;
    }

    /**
     * `Stop`: nothing happens when not running. Otherwise `running` is
     * cleared, the context is cancelled (ending both feed loops), both
     * pipes are closed and cleared, and the process is killed.
     */
    method Stop()
      requires Valid()
      modifies this
      ensures Valid()
      ensures !old(running) ==> unchanged(this)
      ensures old(running) ==> !running && !processAlive && !videoPipe && !audioPipe
      ensures old(running) ==> !videoFeeding && !audioFeeding
      ensures frameInput == old(frameInput) && audioInput == old(audioInput)
      ensures video == old(video) && audio == old(audio)
    {
      if !running {
        return;
      }
      running := false;
      videoFeeding := false;
      audioFeeding := false;
      videoPipe := false;
      audioPipe := false;
      processAlive := false;
    }

    /** `WriteFrame`: dropped when not running; otherwise a non-blocking, drop-newest send. */
    method WriteFrame(frame: Bytes)
      requires Valid()
      modifies this
      ensures Valid()
      ensures frameInput == if old(running) then Offer(DropNewest, old(frameInput), FrameInputCap, frame)
                            else old(frameInput)
      ensures |old(frameInput)| == FrameInputCap ==> frameInput == old(frameInput)
      ensures running == old(running) && processAlive == old(processAlive) && audioInput == old(audioInput)
      ensures videoPipe == old(videoPipe) && audioPipe == old(audioPipe)
      ensures videoFeeding == old(videoFeeding) && audioFeeding == old(audioFeeding)
      ensures video == old(video) && audio == old(audio)
    {
      if !running {
        return;
      }
      frameInput := Offer(DropNewest, frameInput, FrameInputCap, frame);
    }

    /** `WriteAudio`: dropped when not running; otherwise a non-blocking, drop-newest send. */
    method WriteAudio(block: Bytes)
      requires Valid()
      modifies this
      ensures Valid()
      ensures audioInput == if old(running) then Offer(DropNewest, old(audioInput), AudioInputCap, block)
                            else old(audioInput)
      ensures |old(audioInput)| == AudioInputCap ==> audioInput == old(audioInput)
      ensures running == old(running) && processAlive == old(processAlive) && frameInput == old(frameInput)
      ensures videoPipe == old(videoPipe) && audioPipe == old(audioPipe)
      ensures videoFeeding == old(videoFeeding) && audioFeeding == old(audioFeeding)
      ensures video == old(video) && audio == old(audio)
    {
      if !running {
        return;
      }
      audioInput := Offer(DropNewest, audioInput, AudioInputCap, block);
    }

    /**
     * `feedFrames`, run until the channel is drained. A cancelled loop
     * does nothing and an empty channel leaves it waiting. When the
     * streamer no longer runs, the loop takes one frame and ends. Otherwise
     * every frame is taken and handled by `FeedStep`, with `ok[i]` telling
     * whether the i-th write succeeds.
     */
    method FeedFrames(ok: seq<bool>)
      requires Valid() && |ok| == |frameInput|
      modifies this
      ensures Valid()
      ensures !old(videoFeeding) || old(frameInput) == [] ==> unchanged(this)
      ensures old(videoFeeding) && old(frameInput) != [] && !running ==>
        frameInput == old(frameInput)[1..] && !videoFeeding && video == old(video)
      ensures old(videoFeeding) && running ==>
        frameInput == [] && videoFeeding && video == FeedAll(old(video), old(frameInput), ok, videoPipe)
      ensures running == old(running) && processAlive == old(processAlive) && audioInput == old(audioInput)
      ensures videoPipe == old(videoPipe) && audioPipe == old(audioPipe) && audioFeeding == old(audioFeeding)
      ensures audio == old(audio)
    {
      if !videoFeeding || frameInput == [] {
        return;
      }
      if !running {
        frameInput := frameInput[1..];
        videoFeeding := false;
        return;
      }
      ghost var input := frameInput;
      var i := 0;
      while i < |ok|
        invariant 0 <= i <= |ok| == |input|
        invariant frameInput == input[i..]
        invariant video == FeedAll(old(video), input[..i], ok[..i], videoPipe)
        invariant running == old(running) && processAlive == old(processAlive) && audioInput == old(audioInput)
        invariant videoPipe == old(videoPipe) && audioPipe == old(audioPipe)
        invariant videoFeeding == old(videoFeeding) && audioFeeding == old(audioFeeding)
        invariant audio == old(audio)
        decreases |ok| - i
      {
        var frame := frameInput[0];
        frameInput := frameInput[1..];
        assert input[..i + 1][..i] == input[..i] && ok[..i + 1][..i] == ok[..i];
        if videoPipe && |frame| > 0 {
          if !ok[i] {
            var e := video.errCount + 1;
            video := video.(errCount := e, logged := video.logged + (if e <= LoggedErrorLimit then 1 else 0));
          } else {
            video := video.(written := video.written + [frame], count := video.count + 1, errCount := 0);
          }
        }
        i := i + 1;
      }
      assert input[..i] == input && ok[..i] == ok;
    }

    /** `feedAudio`: the same loop for the audio channel. */
    method FeedAudio(ok: seq<bool>)
      requires Valid() && |ok| == |audioInput|
      modifies this
      ensures Valid()
      ensures !old(audioFeeding) || old(audioInput) == [] ==> unchanged(this)
      ensures old(audioFeeding) && old(audioInput) != [] && !running ==>
        audioInput == old(audioInput)[1..] && !audioFeeding && audio == old(audio)
      ensures old(audioFeeding) && running ==>
        audioInput == [] && audioFeeding && audio == FeedAll(old(audio), old(audioInput), ok, audioPipe)
      ensures running == old(running) && processAlive == old(processAlive) && frameInput == old(frameInput)
      ensures videoPipe == old(videoPipe) && audioPipe == old(audioPipe) && videoFeeding == old(videoFeeding)
      ensures video == old(video)
    {
      if !audioFeeding || audioInput == [] {
        return;
      }
      if !running {
        audioInput := audioInput[1..];
        audioFeeding := false;
        return;
      }
      ghost var input := audioInput;
      var i := 0;
      while i < |ok|
        invariant 0 <= i <= |ok| == |input|
        invariant audioInput == input[i..]
        invariant audio == FeedAll(old(audio), input[..i], ok[..i], audioPipe)
        invariant running == old(running) && processAlive == old(processAlive) && frameInput == old(frameInput)
        invariant videoPipe == old(videoPipe) && audioPipe == old(audioPipe)
        invariant videoFeeding == old(videoFeeding) && audioFeeding == old(audioFeeding)
        invariant video == old(video)
        decreases |ok| - i
      {
        var block := audioInput[0];
        audioInput := audioInput[1..];
        assert input[..i + 1][..i] == input[..i] && ok[..i + 1][..i] == ok[..i];
        if audioPipe && |block| > 0 {
          if !ok[i] {
            var e := audio.errCount + 1;
            audio := audio.(errCount := e, logged := audio.logged + (if e <= LoggedErrorLimit then 1 else 0));
          } else {
            audio := audio.(written := audio.written + [block], count := audio.count + 1, errCount := 0);
          }
        }
        i := i + 1;
      }
      assert input[..i] == input && ok[..i] == ok;
    }
  }

  /** The capturer subscription ids the manager uses for a camera. */
  function VideoSubId(id: string): string
  {
    "rtmp_video_" + id
  }

  function AudioSubId(id: string): string
  {
    "rtmp_audio_" + id
  }

  /**
   * The subscriptions `StartStream` makes on a camera's capturer: one for
   * frames, and one for audio when the camera has audio.
   */
  method SubscribeForwarding(c: Capture.Capturer, id: string)
    requires c.Valid()
    modifies c
    ensures c.Valid()
    ensures c.frameSubscribers == old(c.frameSubscribers)[VideoSubId(id) := []]
    ensures c.audioSubscribers == if c.config.audio.enabled then old(c.audioSubscribers)[AudioSubId(id) := []]
                                  else old(c.audioSubscribers)
    ensures c.running == old(c.running) && c.processAlive == old(c.processAlive)
    ensures c.lastFrame == old(c.lastFrame) && c.frameBuffer == old(c.frameBuffer)
  {
    c.SubscribeFrames(VideoSubId(id));
    if c.config.audio.enabled {
      c.SubscribeAudio(AudioSubId(id));
    }
  }

  class Manager {
    const captures: Capture.Manager
    /** The enabled cameras by id. */
    const cameras: map<string, CameraConfig>
    var streamers: map<string, Streamer>
    /** The cameras whose frame forwarding can be cancelled. */
    var frameFeeds: set<string>

    ghost function Streamers(): set<Streamer>
      reads this
    {
      set id | id in streamers :: streamers[id]
    }

    /**
     * Every streamer is filed under its camera id, once, and is itself
     * valid; a camera has a cancellable frame feed exactly when it has a
     * streamer.
     */
    ghost predicate Valid()
      reads this, Streamers()
    {
      frameFeeds == streamers.Keys
      && (forall id :: id in streamers ==> streamers[id].cameraId == id && streamers[id].Valid())
      && (forall i, j :: i in streamers && j in streamers && i != j ==> streamers[i] != streamers[j])
    }

    /** `NewManager`: only enabled cameras are registered. */
    constructor(captures: Capture.Manager, cams: seq<CameraConfig>)
      ensures Valid()
      ensures this.captures == captures && cameras == EnabledCameras(cams)
      ensures streamers == map[] && frameFeeds == {}
    {
      var enabled := CollectEnabled(cams);
      this.captures := captures;
      cameras := enabled;
      streamers := map[];
      frameFeeds := {};
    }

    /**
     * Why `StartStream` would turn the camera away, checked in the code's
     * order: a running streamer already exists, the camera is not enabled,
     * it has no capturer, or its capturer is not running.
     */
    function Rejection(id: string): (r: Option<RtmpError>)
      reads this, Streamers(), captures, captures.Objects()
    {
      if id in streamers && streamers[id].running then Some(AlreadyStreaming(id))
      else if id !in cameras then Some(UnknownCamera(id))
      else if id !in captures.capturers then Some(CapturerMissing(id))
      else if !captures.capturers[id].running then Some(CapturerNotRunning(id))
      else None
    }

    /**
     * `StartStream`: a rejection is returned as is; otherwise a new
     * streamer is started, and nothing is registered unless it starts. On
     * success the capturer gets a frame subscription, and an audio one
     * when it has audio. An existing streamer that is not running is
     * replaced without being stopped.
     */
    method StartStream(id: string, url: string, o: StartOutcome) returns (err: Option<RtmpError>)
      requires Valid() && captures.Valid()
      modifies this, captures.Objects()
      ensures Valid() && captures.Valid()
      ensures err == if old(Rejection(id)).Some? then old(Rejection(id)) else StreamerStartError(o)
      ensures err.Some? ==> streamers == old(streamers) && frameFeeds == old(frameFeeds)
      ensures err.Some? ==> forall c :: c in captures.Objects() ==> unchanged(c)
      ensures err.None? ==> id in streamers && fresh(streamers[id]) && streamers == old(streamers)[id := streamers[id]]
      ensures err.None? ==> streamers[id].running && streamers[id].url == url && streamers[id].camera == cameras[id]
      ensures err.None? ==> frameFeeds == old(frameFeeds) + {id}
      ensures err.None? ==> var c := captures.capturers[id];
        c.frameSubscribers == old(c.frameSubscribers)[VideoSubId(id) := []]
        && c.audioSubscribers == (if c.config.audio.enabled then old(c.audioSubscribers)[AudioSubId(id) := []]
                                  else old(c.audioSubscribers))
        && c.running
      ensures forall j :: j in captures.capturers && j != id ==> unchanged(captures.capturers[j])
    {
      err := Rejection(id);
      if err.Some? {
        return;
      }
      var c := captures.capturers[id];
      var s := new Streamer(id, cameras[id], url);
      err := s.Start(o);
      if err.Some? {
        return;
      }
      Register(id, s, c);
    }

    /**
     * The end of a successful `StartStream`: the frame feed is recorded,
     * the capturer subscriptions are made and the streamer is filed.
     */
    method Register(id: string, s: Streamer, c: Capture.Capturer)
      requires Valid() && captures.Valid()
      requires id in captures.capturers && c == captures.capturers[id]
      requires s.Valid() && s.cameraId == id && s !in Streamers()
      modifies this, c
      ensures Valid() && captures.Valid()
      ensures streamers == old(streamers)[id := s] && frameFeeds == old(frameFeeds) + {id}
      ensures c.frameSubscribers == old(c.frameSubscribers)[VideoSubId(id) := []]
      ensures c.audioSubscribers == if c.config.audio.enabled then old(c.audioSubscribers)[AudioSubId(id) := []]
                                    else old(c.audioSubscribers)
      ensures c.running == old(c.running)
    {
      frameFeeds := frameFeeds + {id};
      SubscribeForwarding(c, id);
      streamers := streamers[id := s];
    }

    /**
     * `StopStream`: always succeeds; cancels the camera's frame feed and
     * stops and forgets its streamer, and does nothing for an unknown id.
     */
    method StopStream(id: string) returns (err: Option<RtmpError>)
      requires Valid()
      modifies this, Streamers()
      ensures Valid()
      ensures err.None?
      ensures streamers == old(streamers) - {id} && frameFeeds == old(frameFeeds) - {id}
      ensures id in old(streamers) ==> !old(streamers)[id].running
      ensures forall j :: j in old(streamers) && j != id ==> unchanged(old(streamers)[j])
    {
      if id in frameFeeds {
        frameFeeds := frameFeeds - {id};
      }
      if id in streamers {
        var s := streamers[id];
        s.Stop();
        streamers := streamers - {id};
      }
      err := None;
    }

    /** `GetStreamStatus`: running and its URL exactly when the camera has a running streamer. */
    function GetStreamStatus(id: string): (r: (bool, string))
      reads this, Streamers()
      ensures r.0 <==> id in streamers && streamers[id].running
      ensures r.1 == if r.0 then streamers[id].url else ""
    {
      if id in streamers && streamers[id].running then (true, streamers[id].url) else (false, "")
    }

    /** `GetAllStreams`: the URL of every running streamer, by camera. */
    method GetAllStreams() returns (r: map<string, string>)
      requires Valid()
      ensures forall id :: id in r <==> id in streamers && streamers[id].running
      ensures forall id :: id in r ==> r[id] == streamers[id].url
    {
      r := map[];
      var pending := streamers.Keys;
      while pending != {}
        invariant pending <= streamers.Keys
        invariant forall id :: id in r <==> id in streamers && id !in pending && streamers[id].running
        invariant forall id :: id in r ==> r[id] == streamers[id].url
        decreases pending
      {
        var id :| id in pending;
        if streamers[id].running {
          r := r[id := streamers[id].url];
        }
        pending := pending - {id};
      }
    }

    /** `StopAll`: every feed is cancelled, every streamer stopped, and both tables end empty. */
    method StopAll()
      requires Valid()
      modifies this, Streamers()
      ensures Valid()
      ensures streamers == map[] && frameFeeds == {}
      ensures forall id :: id in old(streamers) ==> !old(streamers)[id].running
    {
      while frameFeeds != {}
        modifies this
        invariant streamers == old(streamers)
        decreases frameFeeds
      {
        var id :| id in frameFeeds;
        frameFeeds := frameFeeds - {id};
      }
      StopStreamers();
    }

    /** The second half of `StopAll`: every streamer is stopped and removed. */
    method StopStreamers()
      requires forall id :: id in streamers ==> streamers[id].Valid()
      modifies this, Streamers()
      ensures streamers == map[] && frameFeeds == old(frameFeeds)
      ensures forall id :: id in old(streamers) ==> !old(streamers)[id].running
    {
      ghost var all := streamers;
      while streamers != map[]
        invariant streamers.Keys <= all.Keys
        invariant forall id :: id in streamers ==> streamers[id] == all[id]
        invariant forall id :: id in all ==> all[id].Valid()
        invariant forall id :: id in all && id !in streamers ==> !all[id].running
        invariant frameFeeds == old(frameFeeds)
        decreases streamers.Keys
      {
        var id :| id in streamers;
        streamers[id].Stop();
        streamers := streamers - {id};
      }
    }
  }
}
