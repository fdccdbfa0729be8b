/**
 * Two pieces of the HTTP handlers: the host shown on the index page, and
 * the first-match lookup by file name behind downloading, playing and
 * deleting a recording. The HTTP plumbing around them is not modelled;
 * a response is reduced to what it decides.
 */
module Handler {
  import opened Wrappers
  import opened Config
  import opened Storage

  /** The configured host that means "whatever address the browser used". */
  const AnyHost: string := "0.0.0.0"

  // ------------------------------------------------------------ index host

  /** The position of the last `c` in `s`, or -1 when there is none. */
  function LastIndex(s: string, c: char): (k: int)
    ensures -1 <= k < |s|
    ensures k >= 0 ==> s[k] == c && c !in s[k + 1..]
    ensures k < 0 ==> c !in s
    decreases |s|
  {
    if s == [] then -1
    else if s[|s| - 1] == c then |s| - 1
    else LastIndex(s[..|s| - 1], c)
  }

  /**
   * The request host with its port removed: everything from the last ':'
   * on is dropped, except that a host of at most one character is kept.
   */
  function StripPort(h: string): (r: string)
    ensures |r| <= |h| && r == h[..|r|]
    ensures |h| <= 1 || ':' !in h ==> r == h
    ensures |h| > 1 && ':' in h ==> |r| < |h| && h[|r|] == ':' && ':' !in h[|r| + 1..]
  {
    var k := LastIndex(h, ':');
    if |h| <= 1 || k < 0 then h else h[..k]
  }

  /** A host without ':' followed by ':' and a port without ':' strips back to the host. */
  lemma StripPortOfHostPort(host: string, port: string)
    requires ':' !in host && ':' !in port && |host| + |port| >= 1
    ensures StripPort(host + ":" + port) == host
  {
    var h := host + ":" + port;
    assert h[|host|] == ':' && h[|host| + 1..] == port && h[..|host|] == host;
    LastIndexAt(h, ':', |host|);
  }

  /**
   * The host `Index` shows: a configured host other than "0.0.0.0" is
   * used unchanged; otherwise the request host is scanned from its end
   * and cut at the first ':' found.
   */
  method DisplayHost(configured: string, requestHost: string) returns (host: string)
    ensures configured != AnyHost ==> host == configured
    ensures configured == AnyHost ==> host == StripPort(requestHost)
  {
    host := configured;
    if host == AnyHost {
      host := requestHost;
      if |host| - 1 > 0 {
        var i := |host| - 1;
        while i >= 0
          invariant -1 <= i < |requestHost| && host == requestHost
          invariant ':' !in requestHost[i + 1..]
          decreases i + 1
        {
          if host[i] == ':' {
            host := host[..i];
            LastIndexAt(requestHost, ':', i);
            return;
          }
          i := i - 1;
        }
        assert requestHost[0..] == requestHost;
      }
    }
  }

  /** The last occurrence is the one with no occurrence after it. */
  lemma LastIndexAt(s: string, c: char, i: int)
    requires 0 <= i < |s| && s[i] == c && c !in s[i + 1..]
    ensures LastIndex(s, c) == i
  {
  }

  // ----------------------------------------------------- recording lookup

  /** The first recording named `fileName`, scanning in order. */
  method FindRecording(recs: seq<Recording>, fileName: string) returns (found: Option<Recording>)
    ensures found.None? <==> forall k :: 0 <= k < |recs| ==> recs[k].fileName != fileName
    ensures found.Some? ==> exists k :: (0 <= k < |recs| && recs[k] == found.value
      && recs[k].fileName == fileName && forall j :: 0 <= j < k ==> recs[j].fileName != fileName)
  {
    var i := 0;
    while i < |recs|
      invariant 0 <= i <= |recs|
      invariant forall j :: 0 <= j < i ==> recs[j].fileName != fileName
    {
      if recs[i].fileName == fileName {
        return Some(recs[i]);
      }
      i := i + 1;
    }
    return None;
  }

  /** A recording of the camera's unbounded listing carries this name. */
  predicate Listed(cfg: StorageConfig, camera: string, fileName: string, fs: string -> Listing)
  {
    exists rec :: rec in Found(cfg, camera, Unbounded, fs) && rec.fileName == fileName
  }

  /**
   * The lookup the three handlers share: list the camera's recordings
   * with no time bounds, then take the first with the requested name.
   */
  method Lookup(cfg: StorageConfig, camera: string, fileName: string, fs: string -> Listing)
    returns (r: Result<Option<Recording>, StorageError>)
    ensures fs(CameraDir(cfg, camera)).Unreadable? <==> r.Failure?
    ensures r.Failure? ==> r.error == ReadDirFailed(CameraDir(cfg, camera))
    ensures r.Success? ==> (r.value.None? <==> !Listed(cfg, camera, fileName, fs))
    ensures r.Success? && r.value.Some? ==>
      r.value.value in Found(cfg, camera, Unbounded, fs) && r.value.value.fileName == fileName
  {
    var listing := GetRecordings(cfg, camera, Unbounded, fs);
    if listing.Failure? {
      return Failure(listing.error);
    }
    var recs := listing.value;
    var found := FindRecording(recs, fileName);
    if found.None? {
      forall rec | rec in Found(cfg, camera, Unbounded, fs)
        ensures rec.fileName != fileName
      {
        assert rec in multiset(recs);
      }
    } else {
      assert found.value in multiset(recs);
    }
    return Success(found);
  }

  /** What a recording request ends in. */
  datatype Response =
    | InternalError(error: StorageError)
    | NotFound
    | Attachment(fileName: string, path: string)
    | ServeFile(path: string)
    | Deleted(path: string)
    | DeleteFailed(path: string)

  /**
   * `DownloadRecording`: a listing error is a server error, no recording
   * of that name is not-found, and otherwise the file of the first match
   * is sent as an attachment under the requested name.
   */
  method DownloadRecording(cfg: StorageConfig, camera: string, fileName: string, fs: string -> Listing)
    returns (resp: Response)
    ensures fs(CameraDir(cfg, camera)).Unreadable? ==> resp == InternalError(ReadDirFailed(CameraDir(cfg, camera)))
    ensures !fs(CameraDir(cfg, camera)).Unreadable? ==> (resp == NotFound <==> !Listed(cfg, camera, fileName, fs))
    ensures resp.Attachment? ==> resp.fileName == fileName
    ensures resp.Attachment? ==> exists rec :: rec in Found(cfg, camera, Unbounded, fs) && rec.fileName == fileName && rec.filePath == resp.path
  {
    var r := Lookup(cfg, camera, fileName, fs);
    if r.Failure? {
      return InternalError(r.error);
    }
    if r.value.None? {
      return NotFound;
    }
    return Attachment(fileName, r.value.value.filePath);
  }

  /** `PlayRecording`: the same lookup, serving the file of the first match. */
  method PlayRecording(cfg: StorageConfig, camera: string, fileName: string, fs: string -> Listing)
    returns (resp: Response)
    ensures fs(CameraDir(cfg, camera)).Unreadable? ==> resp == InternalError(ReadDirFailed(CameraDir(cfg, camera)))
    ensures !fs(CameraDir(cfg, camera)).Unreadable? ==> (resp == NotFound <==> !Listed(cfg, camera, fileName, fs))
    ensures resp.ServeFile? ==>
      exists rec :: rec in Found(cfg, camera, Unbounded, fs) && rec.fileName == fileName && rec.filePath == resp.path
  {
    var r := Lookup(cfg, camera, fileName, fs);
    if r.Failure? {
      return InternalError(r.error);
    }
    if r.value.None? {
      return NotFound;
    }
    return ServeFile(r.value.value.filePath);
  }

  /**
   * `DeleteRecording`: the same lookup, removing the file of the first
   * match; `remove` stands for the file removal and says whether it
   * succeeded.
   */
  method DeleteRecording(cfg: StorageConfig, camera: string, fileName: string, fs: string -> Listing,
                         remove: string -> bool)
    returns (resp: Response)
    ensures fs(CameraDir(cfg, camera)).Unreadable? ==> resp == InternalError(ReadDirFailed(CameraDir(cfg, camera)))
    ensures !fs(CameraDir(cfg, camera)).Unreadable? ==> (resp == NotFound <==> !Listed(cfg, camera, fileName, fs))
    ensures resp.Deleted? ==> remove(resp.path)
    ensures resp.DeleteFailed? ==> !remove(resp.path)
    ensures resp.Deleted? || resp.DeleteFailed? ==>
      exists rec :: rec in Found(cfg, camera, Unbounded, fs) && rec.fileName == fileName && rec.filePath == resp.path
  {
    var r := Lookup(cfg, camera, fileName, fs);
    if r.Failure? {
      return InternalError(r.error);
    }
    if r.value.None? {
      return NotFound;
    }
    var path := r.value.value.filePath;
    if !remove(path) {
      return DeleteFailed(path);
    }
    return Deleted(path);
  }
}
