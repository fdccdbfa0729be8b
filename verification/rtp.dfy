/**
 * The WebRTC RTP forwarder of one camera: JPEG frames and PCM blocks are
 * queued without blocking, fed to two ffmpeg encoders (VP8 and Opus) whose
 * RTP output the browser tracks carry, and a viewer count is kept.
 *
 * Track creation, UDP sockets, pipes and process starts are an outcome
 * given as a parameter; RTP packet handling belongs to the WebRTC library
 * and is not part of this model.
 */
module Rtp {
  import opened Wrappers
  import opened Strconv
  import opened Queues
  import opened Args
  import opened Mjpeg
  import opened Config
  import opened Feeds
  import Capture

  /** Capacity of the JPEG input channel. */
  const FrameInputCap: nat := 10
  /** Capacity of the PCM input channel. */
  const AudioInputCap: nat := 100

  datatype RtpError =
    | VideoTrackFailed
    | AudioTrackFailed
    | VideoAddrFailed
    | VideoListenFailed
    | VideoPipeFailed
    | VideoEncoderFailed
    | AudioAddrFailed
    | AudioListenFailed
    | AudioPipeFailed
    | AudioEncoderFailed

  /** What each step of `Start` yields, in the order the steps run. */
  datatype StartOutcome = StartOutcome(
    videoTrack: bool, audioTrack: bool,
    videoAddr: bool, videoListen: bool, videoPipe: bool, videoStart: bool,
    audioAddr: bool, audioListen: bool, audioPipe: bool, audioStart: bool)

  /** Every step up to and including the start of the VP8 encoder succeeded. */
  predicate VideoStarted(o: StartOutcome)
  {
    o.videoTrack && o.audioTrack && o.videoAddr && o.videoListen && o.videoPipe && o.videoStart
  }

  /** Every step of the audio branch succeeded. */
  predicate AudioStarted(o: StartOutcome)
  {
    o.audioAddr && o.audioListen && o.audioPipe && o.audioStart
  }

  /** An error raised by the audio branch of `Start`. */
  predicate IsAudioStep(e: RtpError)
  {
    e.AudioAddrFailed? || e.AudioListenFailed? || e.AudioPipeFailed? || e.AudioEncoderFailed?
  }

  /**
   * The error `Start` returns: the first failing step in the code's
   * order, where the audio branch runs only for a camera with audio and
   * only after the video encoder is up.
   */
  function StartError(hasAudio: bool, o: StartOutcome): (r: Option<RtpError>)
    ensures r.None? <==> VideoStarted(o) && (hasAudio ==> AudioStarted(o))
    ensures r.Some? && IsAudioStep(r.value) ==> hasAudio && VideoStarted(o)
    ensures !o.videoTrack ==> r == Some(VideoTrackFailed)
    ensures VideoStarted(o) && hasAudio && !o.audioAddr ==> r == Some(AudioAddrFailed)
  {
    if !o.videoTrack then Some(VideoTrackFailed)
    else if !o.audioTrack then Some(AudioTrackFailed)
    else if !o.videoAddr then Some(VideoAddrFailed)
    else if !o.videoListen then Some(VideoListenFailed)
    else if !o.videoPipe then Some(VideoPipeFailed)
    else if !o.videoStart then Some(VideoEncoderFailed)
    else if !hasAudio then None
    else if !o.audioAddr then Some(AudioAddrFailed)
    else if !o.audioListen then Some(AudioListenFailed)
    else if !o.audioPipe then Some(AudioPipeFailed)
    else if !o.audioStart then Some(AudioEncoderFailed)
    else None
  }

  /** `WriteFrame`'s check: at least two bytes, starting with the JPEG start marker. */
  predicate AcceptsFrame(frame: Bytes)
  {
    |frame| >= 2 && frame[0] == 0xFF && frame[1] == 0xD8
  }

  /**
   * Every frame the capturer's demultiplexer emits passes the forwarder's
   * check, and so does a frame that was cut before its end marker.
   */
  lemma DemuxFramesAccepted(buf: Bytes)
    ensures forall f :: f in Demux(buf).frames ==> AcceptsFrame(f)
    ensures forall f :: |f| >= 2 && f[..2] == StartMarker ==> AcceptsFrame(f)
  {
    DemuxFramesWellFormed(buf);
    forall f | f in Demux(buf).frames
      ensures AcceptsFrame(f)
    {
      assert f[..2][0] == f[0] && f[..2][1] == f[1];
    }
    forall f: Bytes | |f| >= 2 && f[..2] == StartMarker
      ensures AcceptsFrame(f)
    {
      assert f[..2][0] == f[0] && f[..2][1] == f[1];
    }
  }

  /** The address the encoders send RTP to. */
  function RtpUrl(port: int): string
  {
    "rtp://127.0.0.1:" + Itoa(port) + "?pkt_size=1200"
  }

  /** `startVideoEncoder`'s command line: JPEG on standard input, VP8 over RTP. */
  function VideoEncoderArgs(fps: int, port: int): seq<string>
  {
    VideoEncoderInput(fps) + VideoEncoderCodec() + VideoEncoderOutput(port)
  }

  function VideoEncoderInput(fps: int): seq<string>
  {
    ["-f", "mjpeg", "-framerate", Itoa(fps), "-i", "pipe:0"]
  }

  function VideoEncoderCodec(): seq<string>
  {
    ["-c:v", "libvpx", "-b:v", "1M", "-keyint_min", "30", "-g", "30"]
  }

  function VideoEncoderOutput(port: int): seq<string>
  {
    ["-deadline", "realtime", "-cpu-used", "8", "-an", "-f", "rtp", RtpUrl(port)]
  }

  /**
   * The VP8 encoder reads JPEG frames from its standard input, puts a
   * keyframe every 30 frames, and sends RTP to the forwarder's port.
   */
  lemma VideoEncoderFlags(fps: int, port: int)
    ensures ValueAfter(VideoEncoderArgs(fps, port), "-f") == Some("mjpeg")
    ensures ValueAfter(VideoEncoderArgs(fps, port), "-i") == Some("pipe:0")
    ensures var args := VideoEncoderArgs(fps, port); args[|args| - 1] == RtpUrl(port)
  {
    var input, codec, output := VideoEncoderInput(fps), VideoEncoderCodec(), VideoEncoderOutput(port);
    ItoaIsNotFlag(fps, "-i");
    ValueAfterAt(input, 0, "-f");
    ValueAfterAt(input, 4, "-i");
    InputKept(input, codec, output, "-f");
    InputKept(input, codec, output, "-i");
  }

  /** The VP8 encoder puts a keyframe every 30 frames. */
  lemma VideoEncoderCodecFlags(fps: int, port: int)
    ensures ValueAfter(VideoEncoderArgs(fps, port), "-c:v") == Some("libvpx")
    ensures ValueAfter(VideoEncoderArgs(fps, port), "-g") == Some("30")
    ensures ValueAfter(VideoEncoderArgs(fps, port), "-keyint_min") == Some("30")
  {
    var input, codec, output := VideoEncoderInput(fps), VideoEncoderCodec(), VideoEncoderOutput(port);
    ItoaIsNotFlag(fps, "-c:v");
    ItoaIsNotFlag(fps, "-g");
    ItoaIsNotFlag(fps, "-keyint_min");
    ValueAfterIn(input, codec, output, 0, "-c:v");
    ValueAfterIn(input, codec, output, 4, "-keyint_min");
    ValueAfterIn(input, codec, output, 6, "-g");
  }

  /** `startAudioEncoder`'s command line: 48 kHz mono PCM on standard input, Opus over RTP. */
  function AudioEncoderArgs(port: int): seq<string>
  {
    AudioEncoderInput() + AudioEncoderCodec() + ["-f", "rtp", RtpUrl(port)]
  }

  function AudioEncoderInput(): seq<string>
  {
    ["-f", "s16le", "-ar", "48000", "-ac", "1", "-i", "pipe:0"]
  }

  function AudioEncoderCodec(): seq<string>
  {
    ["-c:a", "libopus", "-b:a", "48k", "-application", "lowdelay", "-vn"]
  }

  /**
   * The Opus encoder reads signed 16-bit PCM at 48 kHz, mono, from its
   * standard input and sends RTP to the forwarder's port.
   */
  lemma AudioEncoderFlags(port: int)
    ensures ValueAfter(AudioEncoderArgs(port), "-f") == Some("s16le")
    ensures ValueAfter(AudioEncoderArgs(port), "-ar") == Some("48000")
    ensures ValueAfter(AudioEncoderArgs(port), "-ac") == Some("1")
  {
    var input, codec, output := AudioEncoderInput(), AudioEncoderCodec(), ["-f", "rtp", RtpUrl(port)];
    ValueAfterAt(input, 0, "-f");
    ValueAfterAt(input, 2, "-ar");
    ValueAfterAt(input, 4, "-ac");
    InputKept(input, codec, output, "-f");
    InputKept(input, codec, output, "-ar");
    InputKept(input, codec, output, "-ac");
  }

  /** The Opus encoder reads its standard input, encodes Opus, and sends RTP to the forwarder's port. */
  lemma AudioEncoderIoFlags(port: int)
    ensures ValueAfter(AudioEncoderArgs(port), "-i") == Some("pipe:0")
    ensures ValueAfter(AudioEncoderArgs(port), "-c:a") == Some("libopus")
    ensures var args := AudioEncoderArgs(port); args[|args| - 1] == RtpUrl(port)
  {
    var input, codec, output := AudioEncoderInput(), AudioEncoderCodec(), ["-f", "rtp", RtpUrl(port)];
    ValueAfterAt(input, 6, "-i");
    InputKept(input, codec, output, "-i");
    ValueAfterIn(input, codec, output, 0, "-c:a");
  }

  /** A flag the input part fixes keeps its value through the codec and output parts. */
  lemma InputKept(input: seq<string>, codec: seq<string>, output: seq<string>, flag: string)
    requires ValueAfter(input, flag).Some?
    ensures ValueAfter(input + codec + output, flag) == ValueAfter(input, flag)
  {
    ValueAfterPrefix(input, codec, flag);
    ValueAfterPrefix(input + codec, output, flag);
  }

  /**
   * The encoders read what the capturer writes: the VP8 encoder's input
   * format is the capturer's preview format, and the Opus encoder's
   * sample format, rate and channel count are those of the capturer's
   * PCM output.
   */
  lemma EncodersMatchCapture(cam: CameraConfig, port: int)
    requires cam.audio.enabled
    ensures ValueAfter(VideoEncoderArgs(cam.fps, port), "-f") == ValueAfter(Capture.PreviewOutputArgs(cam), "-f")
    ensures ValueAfter(AudioEncoderArgs(port), "-ar") == ValueAfter(Capture.AudioOutputArgs(cam), "-ar")
    ensures ValueAfter(AudioEncoderArgs(port), "-ac") == ValueAfter(Capture.AudioOutputArgs(cam), "-ac")
    ensures ValueAfter(AudioEncoderArgs(port), "-f") == ValueAfter(Capture.AudioOutputArgs(cam), "-f")
  {
    VideoEncoderFlags(cam.fps, port);
    AudioEncoderFlags(port);
    Capture.PreviewOutputFlags(cam);
    Capture.AudioOutputFlags(cam);
  }

  class Forwarder {
    const cameraId: string
    const fps: int
    const videoPort: int
    const audioPort: int
    /** The camera has audio; fixed when the forwarder is made. */
    const hasAudio: bool
    /** The `running` flag. */
    var running: bool
    /** The viewer count; it has no floor. */
    var subscribers: int
    var frameInput: seq<Bytes>
    var audioInput: seq<Bytes>
    /** The encoders' input pipes are set (`videoStdin`/`audioStdin` non-nil). */
    var videoPipe: bool
    var audioPipe: bool
    /** The encoder processes are alive. */
    var videoEncoder: bool
    var audioEncoder: bool
    /** The `feedFrames` loop runs: started with the VP8 encoder, ended by cancelling the context. */
    var feeding: bool
    /** The `feedAudio` loop runs: started only once the Opus encoder is up. */
    var audioFeeding: bool
    /** What each encoder has been given on its standard input. */
    var videoStream: seq<Bytes>
    var audioStream: seq<Bytes>
    var frameCount: nat
    var audioCount: nat

    ghost predicate Valid()
      reads this
    {
      |frameInput| <= FrameInputCap && |audioInput| <= AudioInputCap
      && (running ==> feeding && videoPipe && videoEncoder && (hasAudio ==> audioPipe && audioEncoder && audioFeeding))
    }

    /** `NewRTPForwarder`. */
    constructor(cameraId: string, cam: CameraConfig, videoPort: int, audioPort: int)
      ensures Valid()
      ensures this.cameraId == cameraId && fps == cam.fps && hasAudio == cam.audio.enabled
      ensures this.videoPort == videoPort && this.audioPort == audioPort
      ensures !running && subscribers == 0 && frameInput == [] && audioInput == []
      ensures !videoPipe && !audioPipe && !videoEncoder && !audioEncoder && !feeding && !audioFeeding
      ensures videoStream == [] && audioStream == [] && frameCount == 0 && audioCount == 0
    {
      this.cameraId := cameraId;
      fps := cam.fps;
      this.videoPort := videoPort;
      this.audioPort := audioPort;
      hasAudio := cam.audio.enabled;
      running := false;
      subscribers := 0;
      frameInput := [];
      audioInput := [];
      videoPipe := false;
      audioPipe := false;
      videoEncoder := false;
      audioEncoder := false;
      feeding := false;
      audioFeeding := false;
      videoStream := [];
      audioStream := [];
      frameCount := 0;
      audioCount := 0;
    }

    function IsRunning(): bool
      reads this
    {
      running
    }

    function GetSubscriberCount(): int
      reads this
    {
      subscribers
    }

    /**
     * `Start`: nothing happens when running. Otherwise the steps run in
     * order and the forwarder is running only if all of them succeed. A
     * failure in the audio branch leaves the VP8 encoder and its feed loop
     * alive although the forwarder is not running; the audio feed loop
     * is started only together with a running Opus encoder.
     */
    method Start(o: StartOutcome) returns (err: Option<RtpError>)
      requires Valid()
      modifies this
      ensures Valid()
      ensures old(running) ==> err.None? && unchanged(this)
      ensures !old(running) ==> err == StartError(hasAudio, o) && running == err.None?
      ensures !old(running) ==> videoEncoder == (old(videoEncoder) || VideoStarted(o))
      ensures !old(running) ==> feeding == (old(feeding) || VideoStarted(o))
      ensures !old(running) ==> audioEncoder == (old(audioEncoder) || (hasAudio && err.None?))
      ensures !old(running) ==> audioFeeding == (old(audioFeeding) || (hasAudio && err.None?))
      ensures !old(running) && err.Some? && VideoStarted(o) ==> videoEncoder && feeding && !running
      ensures !old(running) && err.Some? ==> audioFeeding == old(audioFeeding)
      ensures frameInput == old(frameInput) && audioInput == old(audioInput) && subscribers == old(subscribers)
      ensures videoStream == old(videoStream) && audioStream == old(audioStream)
      ensures frameCount == old(frameCount) && audioCount == old(audioCount)
    {
      if running {
        return None;
      }
      err := StartError(hasAudio, o);
      if !(o.videoTrack && o.audioTrack && o.videoAddr && o.videoListen) {
        return;
      }
      videoPipe := o.videoPipe;
      if !o.videoPipe || !o.videoStart {
        return;
      }
      videoEncoder := true;
      feeding := true;
      if hasAudio {
        if !(o.audioAddr && o.audioListen) {
          return;
        }
        audioPipe := o.audioPipe;
        if !o.audioPipe || !o.audioStart {
          return;
        }
        audioEncoder := true;
        audioFeeding := true;
      }
      running := true;
    }

    /**
     * `Stop`: nothing happens when not running. Otherwise `running` is
     * cleared first, the context is cancelled and both encoders are
     * killed. Queued input is left in the channels.
     */
    method Stop()
      requires Valid()
      modifies this
      ensures Valid()
      ensures !old(running) ==> unchanged(this)
      ensures old(running) ==> !running && !feeding && !audioFeeding && !videoEncoder && !audioEncoder
      ensures frameInput == old(frameInput) && audioInput == old(audioInput) && subscribers == old(subscribers)
      ensures videoPipe == old(videoPipe) && audioPipe == old(audioPipe)
      ensures videoStream == old(videoStream) && audioStream == old(audioStream)
      ensures frameCount == old(frameCount) && audioCount == old(audioCount)
    {
      if !running {
        return;
      }
      running := false;
      feeding := false;
      audioFeeding := false;
      videoEncoder := false;
      audioEncoder := false;
    }

    /**
     * `WriteFrame`: a frame that does not start with the JPEG start marker
     * is dropped; one without the end marker is still queued. The send
     * never blocks: a full channel drops the new frame. Whether the
     * forwarder is running is not consulted.
     */
    method WriteFrame(frame: Bytes)
      requires Valid()
      modifies this
      ensures Valid()
      ensures frameInput == if AcceptsFrame(frame) then Offer(DropNewest, old(frameInput), FrameInputCap, frame)
                            else old(frameInput)
      ensures AcceptsFrame(frame) && |old(frameInput)| < FrameInputCap ==> frameInput == old(frameInput) + [frame]
      ensures |old(frameInput)| == FrameInputCap ==> frameInput == old(frameInput)
      ensures running == old(running) && audioInput == old(audioInput) && subscribers == old(subscribers)
      ensures videoPipe == old(videoPipe) && audioPipe == old(audioPipe)
      ensures videoEncoder == old(videoEncoder) && audioEncoder == old(audioEncoder)
      ensures feeding == old(feeding) && audioFeeding == old(audioFeeding)
      ensures videoStream == old(videoStream) && audioStream == old(audioStream)
      ensures frameCount == old(frameCount) && audioCount == old(audioCount)
    {
      if |frame| < 2 {
        return;
      }
      var isJpeg := frame[0] == 0xFF && frame[1] == 0xD8;
      if !isJpeg {
        return;
      }
      frameInput := Offer(DropNewest, frameInput, FrameInputCap, frame);
    }

    /** `WriteAudio`: a no-op without audio; otherwise a non-blocking, drop-newest send. */
    method WriteAudio(audio: Bytes)
      requires Valid()
      modifies this
      ensures Valid()
      ensures audioInput == if hasAudio then Offer(DropNewest, old(audioInput), AudioInputCap, audio)
                            else old(audioInput)
      ensures |old(audioInput)| == AudioInputCap ==> audioInput == old(audioInput)
      ensures running == old(running) && frameInput == old(frameInput) && subscribers == old(subscribers)
      ensures videoPipe == old(videoPipe) && audioPipe == old(audioPipe)
      ensures videoEncoder == old(videoEncoder) && audioEncoder == old(audioEncoder)
      ensures feeding == old(feeding) && audioFeeding == old(audioFeeding)
      ensures videoStream == old(videoStream) && audioStream == old(audioStream)
      ensures frameCount == old(frameCount) && audioCount == old(audioCount)
    {
      if !hasAudio {
        return;
      }
      audioInput := Offer(DropNewest, audioInput, AudioInputCap, audio);
    }

    /**
     * `feedFrames`, run until the channel is drained: nothing when the
     * context was cancelled; otherwise every queued frame is taken, the
     * non-empty ones are written to the VP8 encoder when it has an input
     * pipe, and a failed write (`ok[i]` false) is skipped without ending
     * the loop.
     */
    method FeedFrames(ok: seq<bool>)
      requires Valid() && |ok| == |frameInput|
      modifies this
      ensures Valid()
      ensures !old(feeding) ==> unchanged(this)
      ensures old(feeding) ==> frameInput == []
      ensures old(feeding) ==> videoStream == old(videoStream) + Delivered(old(frameInput), ok, videoPipe)
      ensures old(feeding) ==> frameCount == old(frameCount) + |Delivered(old(frameInput), ok, videoPipe)|
      ensures running == old(running) && audioInput == old(audioInput) && audioStream == old(audioStream)
      ensures videoPipe == old(videoPipe) && audioPipe == old(audioPipe)
      ensures feeding == old(feeding) && audioFeeding == old(audioFeeding)
      ensures videoEncoder == old(videoEncoder) && audioEncoder == old(audioEncoder)
      ensures subscribers == old(subscribers) && audioCount == old(audioCount)
    {
      if !feeding {
        return;
      }
      ghost var input := frameInput;
      var i := 0;
      while i < |ok|
        invariant 0 <= i <= |ok| == |input|
        invariant frameInput == input[i..]
        invariant videoStream == old(videoStream) + Delivered(input[..i], ok[..i], videoPipe)
        invariant frameCount == old(frameCount) + |Delivered(input[..i], ok[..i], videoPipe)|
        invariant running == old(running) && audioInput == old(audioInput) && audioStream == old(audioStream)
        invariant videoPipe == old(videoPipe) && audioPipe == old(audioPipe)
        invariant feeding == old(feeding) && audioFeeding == old(audioFeeding)
        invariant videoEncoder == old(videoEncoder) && audioEncoder == old(audioEncoder)
        invariant subscribers == old(subscribers) && audioCount == old(audioCount)
        decreases |ok| - i
      {
        var frame := frameInput[0];
        frameInput := frameInput[1..];
        assert input[..i + 1][..i] == input[..i] && ok[..i + 1][..i] == ok[..i];
        if videoPipe && |frame| > 0 && ok[i] {
          videoStream := videoStream + [frame];
          frameCount := frameCount + 1;
        }
        i := i + 1;
      }
      assert input[..i] == input && ok[..i] == ok;
    }

    /** `feedAudio`: the same loop for the PCM channel and the Opus encoder. */
    method FeedAudio(ok: seq<bool>)
      requires Valid() && |ok| == |audioInput|
      modifies this
      ensures Valid()
      ensures !old(audioFeeding) ==> unchanged(this)
      ensures old(audioFeeding) ==> audioInput == []
      ensures old(audioFeeding) ==> audioStream == old(audioStream) + Delivered(old(audioInput), ok, audioPipe)
      ensures old(audioFeeding) ==> audioCount == old(audioCount) + |Delivered(old(audioInput), ok, audioPipe)|
      ensures running == old(running) && frameInput == old(frameInput) && videoStream == old(videoStream)
      ensures videoPipe == old(videoPipe) && audioPipe == old(audioPipe)
      ensures feeding == old(feeding) && audioFeeding == old(audioFeeding)
      ensures videoEncoder == old(videoEncoder) && audioEncoder == old(audioEncoder)
      ensures subscribers == old(subscribers) && frameCount == old(frameCount)
    {
      if !audioFeeding {
        return;
      }
      ghost var input := audioInput;
      var i := 0;
      while i < |ok|
        invariant 0 <= i <= |ok| == |input|
        invariant audioInput == input[i..]
        invariant audioStream == old(audioStream) + Delivered(input[..i], ok[..i], audioPipe)
        invariant audioCount == old(audioCount) + |Delivered(input[..i], ok[..i], audioPipe)|
        invariant running == old(running) && frameInput == old(frameInput) && videoStream == old(videoStream)
        invariant videoPipe == old(videoPipe) && audioPipe == old(audioPipe)
        invariant feeding == old(feeding) && audioFeeding == old(audioFeeding)
        invariant videoEncoder == old(videoEncoder) && audioEncoder == old(audioEncoder)
        invariant subscribers == old(subscribers) && frameCount == old(frameCount)
        decreases |ok| - i
      {
        var block := audioInput[0];
        audioInput := audioInput[1..];
        assert input[..i + 1][..i] == input[..i] && ok[..i + 1][..i] == ok[..i];
        if audioPipe && |block| > 0 && ok[i] {
          audioStream := audioStream + [block];
          audioCount := audioCount + 1;
        }
        i := i + 1;
      }
      assert input[..i] == input && ok[..i] == ok;
    }

    /** `AddSubscriber`: one more viewer. */
    method AddSubscriber()
      modifies this
      ensures subscribers == old(subscribers) + 1
      ensures running == old(running) && frameInput == old(frameInput) && audioInput == old(audioInput)
      ensures videoPipe == old(videoPipe) && audioPipe == old(audioPipe)
      ensures feeding == old(feeding) && audioFeeding == old(audioFeeding)
      ensures videoEncoder == old(videoEncoder) && audioEncoder == old(audioEncoder)
      ensures videoStream == old(videoStream) && audioStream == old(audioStream)
      ensures frameCount == old(frameCount) && audioCount == old(audioCount)
    {
      subscribers := subscribers + 1;
    }

    /** `RemoveSubscriber`: one viewer fewer, without a floor; returns the new count. */
    method RemoveSubscriber() returns (n: int)
      modifies this
      ensures n == subscribers == old(subscribers) - 1
      ensures running == old(running) && frameInput == old(frameInput) && audioInput == old(audioInput)
      ensures videoPipe == old(videoPipe) && audioPipe == old(audioPipe)
      ensures feeding == old(feeding) && audioFeeding == old(audioFeeding)
      ensures videoEncoder == old(videoEncoder) && audioEncoder == old(audioEncoder)
      ensures videoStream == old(videoStream) && audioStream == old(audioStream)
      ensures frameCount == old(frameCount) && audioCount == old(audioCount)
    {
      subscribers := subscribers - 1;
      n := subscribers;
    }
  }
}
