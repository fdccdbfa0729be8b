/**
 * The configuration records, the duration-string parser and the filling
 * of default values for fields the configuration file left at zero.
 */
module Config {
  import opened Wrappers
  import opened Strconv
  import opened Text

  datatype AudioConfig = AudioConfig(
    enabled: bool, kind: string, deviceIndex: int, deviceName: string,
    sampleRate: int, channels: int)

  datatype CameraConfig = CameraConfig(
    id: string, name: string, kind: string, deviceIndex: int,
    rtspUrl: string, hlsUrl: string, width: int, height: int, fps: int,
    enabled: bool, audio: AudioConfig)

  datatype ServerConfig = ServerConfig(host: string, port: int)

  datatype MjpegConfig = MjpegConfig(enabled: bool, port: int, quality: int)

  datatype WebRtcConfig = WebRtcConfig(enabled: bool, port: int, stunServers: seq<string>)

  datatype PreviewConfig = PreviewConfig(mjpeg: MjpegConfig, webrtc: WebRtcConfig)

  datatype StorageConfig = StorageConfig(
    enabled: bool, path: string, segmentDuration: string, retentionDays: int, format: string)

  datatype StreamConfig = StreamConfig(hlsSegmentDuration: int, hlsPlaylistLength: int, tempPath: string)

  datatype Config = Config(
    server: ServerConfig, cameras: seq<CameraConfig>, storage: StorageConfig,
    stream: StreamConfig, preview: PreviewConfig)

  datatype DurationError = InvalidDuration(text: string)

  const SecondsPerDay := 86400
  const NanosPerSecond := 1_000_000_000
  const DefaultSegmentSeconds := 300

  /** Integer division truncating toward zero, as Go's `/` does. */
  function Quo(a: int, b: nat): (q: int)
    requires b > 0
    ensures a >= 0 ==> q == a / b
    ensures a < 0 ==> q == -((-a) / b)
  {
    if a >= 0 then a / b else -((-a) / b)
  }

  /** A number of days: an integer followed by a final `d`. */
  predicate DaysText(s: string)
  {
    HasSuffix(s, "d") && Atoi(TrimSuffix(s, "d")).Some?
  }

  /**
   * `ParseDuration`. `goDuration` is Go's `time.ParseDuration`, taken as
   * an opaque oracle giving nanoseconds or nothing; its result is cut to
   * whole seconds toward zero.
   */
  function ParseDuration(s: string, goDuration: string -> Option<int>): (r: Result<int, DurationError>)
    ensures s == "" ==> r == Success(0)
    ensures s != "" && Atoi(s).Some? ==> r == Success(Atoi(s).value)
    ensures s != "" && Atoi(s).None? && DaysText(s) ==>
      r == Success(WrapInt64(Atoi(TrimSuffix(s, "d")).value * SecondsPerDay))
    ensures s != "" && Atoi(s).None? && !DaysText(s) && goDuration(s).Some? ==>
      r == Success(Quo(goDuration(s).value, NanosPerSecond))
    ensures r.Failure? <==> s != "" && Atoi(s).None? && !DaysText(s) && goDuration(s).None?
    ensures r.Failure? ==> r.error == InvalidDuration(s)
  {
    if s == "" then Success(0)
    else if Atoi(s).Some? then Success(Atoi(s).value)
    else if DaysText(s) then Success(WrapInt64(Atoi(TrimSuffix(s, "d")).value * SecondsPerDay))
    else match goDuration(s)
      case Some(ns) => Success(Quo(ns, NanosPerSecond))
      case None => Failure(InvalidDuration(s))
  }

  /** A plain number of seconds, written as Go prints it, reads back unchanged. */
  lemma ParseDurationSeconds(n: int, goDuration: string -> Option<int>)
    requires MinInt64 <= n <= MaxInt64
    ensures ParseDuration(Itoa(n), goDuration) == Success(n)
  {
    AtoiItoa(n);
  }

  /** `"<n>d"` reads as `n` days, whatever the oracle would say. */
  lemma ParseDurationDays(n: int, goDuration: string -> Option<int>)
    requires MinInt64 <= n * SecondsPerDay <= MaxInt64
    ensures ParseDuration(Itoa(n) + "d", goDuration) == Success(n * SecondsPerDay)
  {
    var s := Itoa(n) + "d";
    AtoiItoa(n);
    assert TrimSuffix(s, "d") == Itoa(n);
    assert s[|s| - 1] == 'd';
    assert Atoi(s).None? by {
      assert !AllDigits(s) && !AllDigits(s[1..]) by { assert s[|s| - 1] == 'd'; }
    }
  }

  /**
   * `GetSegmentDurationSeconds`: the parsed duration when it is positive,
   * otherwise five minutes; the result is always positive.
   */
  function SegmentDurationSeconds(c: StorageConfig, goDuration: string -> Option<int>): (r: int)
    ensures r > 0
    ensures r == DefaultSegmentSeconds <==>
      (ParseDuration(c.segmentDuration, goDuration).Failure?
       || ParseDuration(c.segmentDuration, goDuration).value <= 0
       || ParseDuration(c.segmentDuration, goDuration).value == DefaultSegmentSeconds)
    ensures r != DefaultSegmentSeconds ==> ParseDuration(c.segmentDuration, goDuration) == Success(r)
  {
    match ParseDuration(c.segmentDuration, goDuration)
    case Failure(_) => DefaultSegmentSeconds
    case Success(seconds) => if seconds <= 0 then DefaultSegmentSeconds else seconds
  }

  const DefaultStunServers: seq<string> := ["stun:stun.l.google.com:19302", "stun:stun1.l.google.com:19302"]

  /** The audio defaults of one camera: 44100 Hz, two channels. */
  function CameraDefaults(cam: CameraConfig): (r: CameraConfig)
  {
    cam.(audio := cam.audio.(
      sampleRate := if cam.audio.sampleRate == 0 then 44100 else cam.audio.sampleRate,
      channels := if cam.audio.channels == 0 then 2 else cam.audio.channels))
  }

  function ServerDefaults(s: ServerConfig): ServerConfig
  {
    ServerConfig(if s.host == "" then "0.0.0.0" else s.host, if s.port == 0 then 8080 else s.port)
  }

  function StorageDefaults(s: StorageConfig): StorageConfig
  {
    s.(path := if s.path == "" then "./recordings" else s.path,
       segmentDuration := if s.segmentDuration == "" then "5m" else s.segmentDuration,
       retentionDays := if s.retentionDays == 0 then 7 else s.retentionDays,
       format := if s.format == "" then "mp4" else s.format)
  }

  function StreamDefaults(s: StreamConfig): StreamConfig
  {
    StreamConfig(
      if s.hlsSegmentDuration == 0 then 2 else s.hlsSegmentDuration,
      if s.hlsPlaylistLength == 0 then 5 else s.hlsPlaylistLength,
      if s.tempPath == "" then "./temp" else s.tempPath)
  }

  function PreviewDefaults(p: PreviewConfig): PreviewConfig
  {
    PreviewConfig(
      MjpegConfig(
        p.mjpeg.enabled || !p.webrtc.enabled,
        if p.mjpeg.port == 0 then 8081 else p.mjpeg.port,
        if p.mjpeg.quality == 0 then 5 else p.mjpeg.quality),
      p.webrtc.(
        port := if p.webrtc.port == 0 then 8082 else p.webrtc.port,
        stunServers := if |p.webrtc.stunServers| == 0 then DefaultStunServers else p.webrtc.stunServers))
  }

  /** The value of a configuration after `setDefaults`. */
  function WithDefaults(c: Config): (r: Config)
  {
    Config(
      ServerDefaults(c.server),
      seq(|c.cameras|, i requires 0 <= i < |c.cameras| => CameraDefaults(c.cameras[i])),
      StorageDefaults(c.storage),
      StreamDefaults(c.stream),
      PreviewDefaults(c.preview))
  }

  method FillServer(s: ServerConfig) returns (r: ServerConfig)
    ensures r == ServerDefaults(s)
  {
    r := s;
    if r.host == "" { r := r.(host := "0.0.0.0"); }
    if r.port == 0 { r := r.(port := 8080); }
  }

  method FillStorage(s: StorageConfig) returns (r: StorageConfig)
    ensures r == StorageDefaults(s)
  {
    r := s;
    if r.path == "" { r := r.(path := "./recordings"); }
    if r.segmentDuration == "" { r := r.(segmentDuration := "5m"); }
    if r.retentionDays == 0 { r := r.(retentionDays := 7); }
    if r.format == "" { r := r.(format := "mp4"); }
  }

  method FillStream(s: StreamConfig) returns (r: StreamConfig)
    ensures r == StreamDefaults(s)
  {
    r := s;
    if r.hlsSegmentDuration == 0 { r := r.(hlsSegmentDuration := 2); }
    if r.hlsPlaylistLength == 0 { r := r.(hlsPlaylistLength := 5); }
    if r.tempPath == "" { r := r.(tempPath := "./temp"); }
  }

  method FillCameras(cameras: seq<CameraConfig>) returns (cams: seq<CameraConfig>)
    ensures |cams| == |cameras|
    ensures forall k :: 0 <= k < |cams| ==> cams[k] == CameraDefaults(cameras[k])
  {
    cams := cameras;
    var i := 0;
    while i < |cams|
      invariant 0 <= i <= |cams| == |cameras|
      invariant forall k :: 0 <= k < i ==> cams[k] == CameraDefaults(cameras[k])
      invariant forall k :: i <= k < |cams| ==> cams[k] == cameras[k]
    {
      if cams[i].audio.sampleRate == 0 {
        cams := cams[i := cams[i].(audio := cams[i].audio.(sampleRate := 44100))];
      }
      if cams[i].audio.channels == 0 {
        cams := cams[i := cams[i].(audio := cams[i].audio.(channels := 2))];
      }
      i := i + 1;
    }
  }

  method FillPreview(p: PreviewConfig) returns (r: PreviewConfig)
    ensures r == PreviewDefaults(p)
  {
    r := p;
    if !r.mjpeg.enabled && !r.webrtc.enabled {
      r := r.(mjpeg := r.mjpeg.(enabled := true));
    }
    if r.mjpeg.port == 0 { r := r.(mjpeg := r.mjpeg.(port := 8081)); }
    if r.mjpeg.quality == 0 { r := r.(mjpeg := r.mjpeg.(quality := 5)); }
    if r.webrtc.port == 0 { r := r.(webrtc := r.webrtc.(port := 8082)); }
    if |r.webrtc.stunServers| == 0 { r := r.(webrtc := r.webrtc.(stunServers := DefaultStunServers)); }
  }

  /**
   * `setDefaults`: every field left at zero or empty gets its default and
   * every field that was set keeps its value; at least one preview kind
   * ends up enabled.
   */
  method SetDefaults(c: Config) returns (r: Config)
    ensures r == WithDefaults(c)
    ensures c.server.host != "" ==> r.server.host == c.server.host
    ensures c.server.port != 0 ==> r.server.port == c.server.port
    ensures c.storage.retentionDays != 0 ==> r.storage.retentionDays == c.storage.retentionDays
    ensures |r.cameras| == |c.cameras|
    ensures forall i :: 0 <= i < |c.cameras| ==>
      r.cameras[i].audio.sampleRate == (if c.cameras[i].audio.sampleRate == 0 then 44100 else c.cameras[i].audio.sampleRate)
      && r.cameras[i].audio.channels == (if c.cameras[i].audio.channels == 0 then 2 else c.cameras[i].audio.channels)
      && r.cameras[i].id == c.cameras[i].id
    ensures r.preview.mjpeg.enabled || r.preview.webrtc.enabled
    ensures r.preview.mjpeg.enabled != c.preview.mjpeg.enabled <==>
      (!c.preview.mjpeg.enabled && !c.preview.webrtc.enabled)
  {
    var server := FillServer(c.server);
    var storage := FillStorage(c.storage);
    var stream := FillStream(c.stream);
    var cams := FillCameras(c.cameras);
    var preview := FillPreview(c.preview);
    r := Config(server, cams, storage, stream, preview);
  }

  /** Filling defaults a second time changes nothing. */
  lemma WithDefaultsIdempotent(c: Config)
    ensures WithDefaults(WithDefaults(c)) == WithDefaults(c)
  {
    var once := WithDefaults(c);
    var twice := WithDefaults(once);
    assert twice.cameras == once.cameras by {
      forall i | 0 <= i < |once.cameras| ensures twice.cameras[i] == once.cameras[i] {
        assert CameraDefaults(CameraDefaults(c.cameras[i])) == CameraDefaults(c.cameras[i]);
      }
    }
  }

  /** The enabled cameras by id, as the sink managers keep them; a later entry with the same id wins. */
  function EnabledCameras(cams: seq<CameraConfig>): map<string, CameraConfig>
    decreases |cams|
  {
    if cams == [] then map[]
    else
      var m := EnabledCameras(cams[..|cams| - 1]);
      var c := cams[|cams| - 1];
      if c.enabled then m[c.id := c] else m
  }

  /**
   * A camera is kept exactly when some enabled entry has its id; the one
   * kept is the last such entry, filed under its own id.
   */
  lemma {:induction false} EnabledCamerasSpec(cams: seq<CameraConfig>, id: string)
    ensures id in EnabledCameras(cams) <==> exists i :: 0 <= i < |cams| && cams[i].enabled && cams[i].id == id
    ensures id in EnabledCameras(cams) ==>
      exists i :: 0 <= i < |cams| && cams[i] == EnabledCameras(cams)[id] && cams[i].enabled && cams[i].id == id
        && forall j :: i < j < |cams| && cams[j].enabled ==> cams[j].id != id
    decreases |cams|
  {
    if cams != [] {
      var n := |cams| - 1;
      var init := cams[..n];
      EnabledCamerasSpec(init, id);
      if cams[n].enabled && cams[n].id == id {
        assert cams[n] == EnabledCameras(cams)[id];
      } else {
        if id in EnabledCameras(cams) {
          var i :| 0 <= i < n && init[i] == EnabledCameras(init)[id] && init[i].enabled && init[i].id == id
            && forall j :: i < j < n && init[j].enabled ==> init[j].id != id;
          assert cams[i] == init[i];
          assert forall j :: i < j < |cams| && cams[j].enabled ==> cams[j].id != id by {
            forall j | i < j < |cams| && cams[j].enabled
              ensures cams[j].id != id
            {
              if j < n {
                assert cams[j] == init[j];
              }
            }
          }
        }
        if exists i :: 0 <= i < |cams| && cams[i].enabled && cams[i].id == id {
          var i :| 0 <= i < |cams| && cams[i].enabled && cams[i].id == id;
          assert i < n && init[i] == cams[i];
        }
      }
    }
  }

  /** The loop of `NewManager` and `NewHLSOutputManager` that files the enabled cameras. */
  method CollectEnabled(cams: seq<CameraConfig>) returns (m: map<string, CameraConfig>)
    ensures m == EnabledCameras(cams)
  {
    m := map[];
    for i := 0 to |cams|
      invariant m == EnabledCameras(cams[..i])
    {
      assert cams[..i + 1][..i] == cams[..i];
      var cam := cams[i];
      if cam.enabled {
        m := m[cam.id := cam];
      }
    }
    assert cams[..|cams|] == cams;
  }
}
