/**
 * The preview fan-out of the `stream` package: an `HLSStreamer` hands the
 * frames its capturer publishes on to its own preview subscribers, each
 * with a channel of 10 frames that never blocks the sender; the
 * `StreamManager` keeps one streamer per capturer.
 *
 * Directory creation is an outcome given as a parameter. The frames the
 * distribution loop receives from its capturer subscription are a
 * parameter of `DistributeFrames`.
 */
module Stream {
  import opened Wrappers
  import opened Text
  import opened Queues
  import opened Config
  import HlsOutput
  import Capture

  /** Capacity of a preview subscriber's channel. */
  const PreviewQueueCap: nat := 10

  datatype StreamError =
    | DirCreateFailed
    | StreamNotFound(id: string)
    | CapturerLookupFailed(cause: Capture.CaptureError)

  /** The directory `Start` makes: the camera's HLS directory under `<temp>/hls`. */
  function PreviewDir(tempPath: string, id: string): string
  {
    HlsOutput.HlsDir(HlsOutput.OutputPath(tempPath), id)
  }

  /**
   * Fanning frames out without blocking leaves each preview queue with its
   * oldest ten items: what it held, then the first frames that still fit.
   */
  lemma FanOutPerSubscriber(table: map<string, seq<Bytes>>, frames: seq<Bytes>, id: string)
    requires Bounded(table, PreviewQueueCap) && id in table
    ensures BroadcastAll(DropNewest, table, PreviewQueueCap, frames)[id] == Oldest(table[id] + frames, PreviewQueueCap)
  {
    BroadcastAllPerSubscriber(DropNewest, table, PreviewQueueCap, frames, id);
    DropNewestKeepsOldest(table[id], PreviewQueueCap, frames);
  }

  class Streamer {
    const capturer: Capture.Capturer
    const config: StreamConfig
    var outputPath: string
    /** The `running` flag. */
    var running: bool
    /** The distribution loop of the last successful `Start` is still looping. */
    var distributing: bool
    var subscribers: map<string, seq<Bytes>>

    /** The camera the streamer belongs to: its capturer's. */
    function Id(): string
    {
      capturer.config.id
    }

    ghost predicate Valid()
      reads this
    {
      Bounded(subscribers, PreviewQueueCap) && (distributing ==> running)
    }

    /** `NewHLSStreamer`. */
    constructor(capturer: Capture.Capturer, config: StreamConfig)
      ensures Valid()
      ensures this.capturer == capturer && this.config == config
      ensures !running && !distributing && subscribers == map[]
    {
      this.capturer := capturer;
      this.config := config;
      outputPath := "";
      running := false;
      distributing := false;
      subscribers := map[];
    }

    function IsRunning(): bool
      reads this
    {
      running
    }

    /** `GetPlaylistPath`. */
    function GetPlaylistPath(): string
      reads this
    {
      PathJoin(outputPath, "playlist.m3u8")
    }

    /**
     * `Start`: nothing happens when running. Otherwise the output directory
     * is recorded and made; if that fails the streamer stays stopped. On
     * success it runs and its distribution loop starts.
     */
    method Start(mkdirOk: bool) returns (err: Option<StreamError>)
      requires Valid()
      modifies this
      ensures Valid()
      ensures old(running) ==> err.None? && unchanged(this)
      ensures !old(running) ==> outputPath == PreviewDir(config.tempPath, Id())
      ensures !old(running) ==> (err.None? <==> mkdirOk) && (running <==> mkdirOk)
      ensures !old(running) && !mkdirOk ==> err == Some(DirCreateFailed) && distributing == old(distributing)
      ensures !old(running) && mkdirOk ==> distributing
      ensures subscribers == old(subscribers)
    {
      if running {
        return None;
      }
      outputPath := PreviewDir(config.tempPath, Id());
      if !mkdirOk {
        return Some(DirCreateFailed);
      }
      running := true;
      distributing := true;
      err := None;
    }

    /**
     * `Stop`: nothing happens when not running. Otherwise the distribution
     * loop is cancelled and waited for, every preview subscriber is closed
     * and removed, and the streamer no longer runs.
     */
    method Stop()
      requires Valid()
      modifies this
      ensures Valid()
      ensures !running && !distributing
      ensures !old(running) ==> unchanged(this)
      ensures old(running) ==> subscribers == map[]
      ensures outputPath == old(outputPath)
    {
      if !running {
        return;
      }
      distributing := false;
      subscribers := map[];
      running := false;
    }

    /** `Subscribe`: a fresh empty channel under `id`, replacing any earlier one. */
    method Subscribe(id: string)
      requires Valid()
      modifies this
      ensures Valid()
      ensures subscribers == old(subscribers)[id := []]
      ensures running == old(running) && distributing == old(distributing) && outputPath == old(outputPath)
    {
      subscribers := subscribers[id := []];
    }

    /** `Unsubscribe`: removes the id when present, otherwise does nothing. */
    method Unsubscribe(id: string)
      requires Valid()
      modifies this
      ensures Valid()
      ensures subscribers == old(subscribers) - {id}
      ensures id !in old(subscribers) ==> unchanged(this)
      ensures running == old(running) && distributing == old(distributing) && outputPath == old(outputPath)
    {
      if id in subscribers {
        subscribers := subscribers - {id};
      }
    }

    /**
     * `distributeFrames`: a cancelled loop does nothing. Otherwise each of
     * the frames it receives is offered to every preview subscriber without
     * blocking, a full channel skipping it; the loop ends when its channel
     * is closed (the capturer stopped).
     */
    method DistributeFrames(frames: seq<Bytes>, closed: bool)
      requires Valid()
      modifies this
      ensures Valid()
      ensures !old(distributing) ==> unchanged(this)
      ensures old(distributing) ==> subscribers.Keys == old(subscribers).Keys
      ensures old(distributing) ==> forall id :: id in subscribers ==>
        subscribers[id] == Oldest(old(subscribers)[id] + frames, PreviewQueueCap)
      ensures old(distributing) ==> distributing == !closed
      ensures running == old(running) && outputPath == old(outputPath)
    {
      if !distributing {
        return;
      }
      ghost var before := subscribers;
      FanOut(frames);
      forall id | id in subscribers
        ensures subscribers[id] == Oldest(before[id] + frames, PreviewQueueCap)
      {
        FanOutPerSubscriber(before, frames, id);
      }
      if closed {
        distributing := false;
      }
    }

    /** The inner loop of `distributeFrames`: each frame is offered to every subscriber in turn. */
    method FanOut(frames: seq<Bytes>)
      requires Valid()
      modifies this
      ensures Valid()
      ensures subscribers == BroadcastAll(DropNewest, old(subscribers), PreviewQueueCap, frames)
      ensures running == old(running) && distributing == old(distributing) && outputPath == old(outputPath)
    {
      var i := 0;
      while i < |frames|
        invariant 0 <= i <= |frames|
        invariant subscribers == BroadcastAll(DropNewest, old(subscribers), PreviewQueueCap, frames[..i])
        invariant Valid()
        invariant running == old(running) && distributing == old(distributing) && outputPath == old(outputPath)
      {
        BroadcastAllSnoc(DropNewest, old(subscribers), PreviewQueueCap, frames[..i], frames[i]);
        assert frames[..i + 1] == frames[..i] + [frames[i]];
        subscribers := Broadcast(DropNewest, subscribers, PreviewQueueCap, frames[i]);
        i := i + 1;
      }
      assert frames[..i] == frames;
    }
  }

  class Manager {
    const captures: Capture.Manager
    const config: StreamConfig
    var streamers: map<string, Streamer>

    ghost function Streamers(): set<Streamer>
      reads this
    {
      streamers.Values
    }

    /** Every streamer is filed under its capturer's id and is itself valid. */
    ghost predicate Valid()
      reads this, Streamers()
    {
      forall id :: id in streamers ==> streamers[id].Id() == id && streamers[id].Valid()
    }

    /** `NewStreamManager`. */
    constructor(captures: Capture.Manager, config: StreamConfig)
      ensures Valid()
      ensures this.captures == captures && this.config == config && streamers == map[]
    {
      this.captures := captures;
      this.config := config;
      streamers := map[];
    }

    /**
     * `CreateStream`: the streamer already filed under the id, if any;
     * otherwise a new stopped streamer for the id's capturer, filed under
     * it, or the capture manager's lookup error with nothing filed.
     */
    method CreateStream(id: string) returns (r: Result<Streamer, StreamError>)
      requires Valid() && captures.Filed()
      modifies this
      ensures Valid()
      ensures r.Success? ==> streamers == old(streamers)[id := r.value]
      ensures r.Failure? ==> streamers == old(streamers)
      ensures id in old(streamers) ==> r == Success(old(streamers)[id])
      ensures id !in old(streamers) && id !in captures.capturers ==>
        r == Failure(CapturerLookupFailed(Capture.CapturerNotFound(id)))
      ensures id !in old(streamers) && id in captures.capturers ==>
        r.Success? && fresh(r.value) && !r.value.running && r.value.subscribers == map[]
        && r.value.capturer == captures.capturers[id] && r.value.config == config
    {
      if id in streamers {
        return Success(streamers[id]);
      }
      var c := captures.GetCapturer(id);
      if c.Failure? {
        return Failure(CapturerLookupFailed(c.error));
      }
      var s := new Streamer(c.value, config);
      streamers := streamers[id := s];
      r := Success(s);
    }

    /** `GetStream`: the streamer filed under the id, or a not-found error. */
    function GetStream(id: string): (r: Result<Streamer, StreamError>)
      reads this
      ensures r.Success? <==> id in streamers
      ensures r.Success? ==> r.value == streamers[id]
      ensures r.Failure? ==> r.error == StreamNotFound(id)
    {
      if id in streamers then Success(streamers[id]) else Failure(StreamNotFound(id))
    }

    /**
     * `StartStream`: the streamer `CreateStream` gives, started; a lookup
     * error is returned before anything is started.
     */
    method StartStream(id: string, mkdirOk: bool) returns (err: Option<StreamError>)
      requires Valid() && captures.Filed()
      modifies this, Streamers()
      ensures Valid()
      ensures id !in old(streamers) && id !in captures.capturers ==>
        err == Some(CapturerLookupFailed(Capture.CapturerNotFound(id))) && streamers == old(streamers)
      ensures id in old(streamers) || id in captures.capturers ==> id in streamers
      ensures id in streamers ==> (err.None? <==> streamers[id].running)
      ensures id in streamers && err.Some? ==> err == Some(DirCreateFailed) && !mkdirOk
      ensures id in old(streamers) ==> streamers == old(streamers)
      ensures id !in old(streamers) && id in streamers ==>
        fresh(streamers[id]) && streamers == old(streamers)[id := streamers[id]]
      ensures forall j :: j in old(streamers) && j != id ==> unchanged(old(streamers)[j])
    {
      var r := CreateStream(id);
      if r.Failure? {
        return Some(r.error);
      }
      var s := r.value;
      assert streamers[id] == s;
      err := s.Start(mkdirOk);
    }

    /** `StopStream`: an unknown id is an error; otherwise its streamer is stopped and stays filed. */
    method StopStream(id: string) returns (err: Option<StreamError>)
      requires Valid()
      modifies Streamers()
      ensures Valid()
      ensures err.Some? <==> id !in streamers
      ensures err.Some? ==> err == Some(StreamNotFound(id))
      ensures id in streamers ==> !streamers[id].running && !streamers[id].distributing
      ensures id in streamers && old(streamers[id].running) ==> streamers[id].subscribers == map[]
      ensures forall j :: j in streamers && j != id ==> unchanged(streamers[j])
    {
      if id !in streamers {
        return Some(StreamNotFound(id));
      }
      var s := streamers[id];
      s.Stop();
      err := None;
    }

    /**
     * `StartAll`: starts a stream for every capturer, one by one in no
     * particular order, and stops at the first error, which it returns;
     * no stream is created for the capturers not yet tried. Without an
     * error every capturer has a running streamer.
     */
    method StartAll(mkdirOk: string -> bool) returns (err: Option<StreamError>, ghost tried: set<string>)
      requires Valid() && captures.Filed()
      modifies this, Streamers()
      ensures Valid()
      ensures tried <= captures.capturers.Keys
      ensures streamers.Keys == old(streamers).Keys + tried
      ensures err.None? ==> tried == captures.capturers.Keys
      ensures err.None? ==> forall id :: id in captures.capturers ==> streamers[id].running
      ensures err.Some? ==> err == Some(DirCreateFailed)
      ensures err.Some? ==> exists id :: id in tried && !mkdirOk(id) && !streamers[id].running
    {
      var all := captures.capturers.Keys;
      var pending := all;
      ghost var initial := streamers;
      tried := {};
      err := None;
      while pending != {} && err.None?
        invariant captures.capturers.Keys == all
        invariant pending <= all && tried == all - pending
        invariant Valid() && streamers.Keys == initial.Keys + tried
        invariant err.None? ==> Progress(initial, tried)
        invariant err.Some? ==> err == Some(DirCreateFailed)
        invariant err.Some? ==> exists id :: id in tried && !mkdirOk(id) && !streamers[id].running
        invariant forall id :: id in streamers && id !in initial ==> fresh(streamers[id])
        decreases pending
      {
        var id :| id in pending;
        err := StartOne(id, mkdirOk(id), initial, tried);
        tried := tried + {id};
        pending := pending - {id};
      }
    }

    /**
     * What `StartAll` has done after starting the ids in `started`: the
     * streamers filed before are still filed, one streamer was added per
     * started id, and each started streamer runs.
     */
    ghost predicate Progress(initial: map<string, Streamer>, started: set<string>)
      reads this, Streamers()
    {
      && streamers.Keys == initial.Keys + started
      && (forall id :: id in initial ==> streamers[id] == initial[id])
      && (forall id :: id in started ==> streamers[id].running)
    }

    /** One step of `StartAll`: `StartStream` for a capturer's id not started yet. */
    method StartOne(id: string, mkdirOk: bool, ghost initial: map<string, Streamer>, ghost started: set<string>)
      returns (err: Option<StreamError>)
      requires Valid() && captures.Filed() && id in captures.capturers && id !in started
      requires Progress(initial, started)
      modifies this, Streamers()
      ensures Valid()
      ensures captures.capturers == old(captures.capturers)
      ensures forall j :: j in streamers && j !in old(streamers) ==> fresh(streamers[j])
      ensures forall j :: j in old(streamers) ==> j in streamers && streamers[j] == old(streamers)[j]
      ensures err.None? ==> Progress(initial, started + {id})
      ensures err.Some? ==> err == Some(DirCreateFailed) && !mkdirOk
      ensures err.Some? ==> streamers.Keys == initial.Keys + (started + {id}) && !streamers[id].running
    {
      err := StartStream(id, mkdirOk);
    }

    /** `StopAll`: every streamer is stopped; all stay filed. */
    method StopAll()
      requires Valid()
      modifies Streamers()
      ensures Valid()
      ensures forall id :: id in streamers ==> !streamers[id].running
    {
      var pending := streamers.Keys;
      while pending != {}
        invariant pending <= streamers.Keys
        invariant Valid()
        invariant forall id :: id in streamers && id !in pending ==> !streamers[id].running
        decreases pending
      {
        var id :| id in pending;
        streamers[id].Stop();
        pending := pending - {id};
      }
    }
  }
}
