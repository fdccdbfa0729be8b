# home-monitor in Dafny

home-monitor is a home camera server. For each camera it runs one ffmpeg
capture process and splits the process's MJPEG preview pipe into JPEG
frames and its PCM pipe into 20 ms audio blocks. It fans both out, through
bounded non-blocking queues, to several consumers:

- a WebRTC forwarder that re-encodes to VP8 and Opus over RTP;
- an RTMP push streamer;
- an HLS segment writer;
- a preview fan-out.

Recordings are written by the capture process itself as timestamped
segment files. The server lists, serves and expires them. A monitor keeps
a bounded history of runtime and process samples with edge-triggered
alerts.

This project models that in-process bookkeeping. Each module follows one
source component:

| module | component |
|---|---|
| `Mjpeg` | the frame demultiplexer and audio block reader |
| `Capture` | the capturer and its registry |
| `Rtp` | the RTP forwarder |
| `Rtmp` | the push streamer and its manager |
| `HlsOutput` | the HLS output and its manager |
| `Stream` | the preview fan-out and stream registry |
| `Config` | duration parsing and defaults |
| `Storage` | recording listing and cleanup |
| `Monitor`, `Format`, `Process` | the monitor, its formatting and process statistics |
| `Handler` | the index host and recording lookups of the HTTP handlers |

Shared pieces live in their own modules:

- `Queues`: bounded queues with the drop-oldest and drop-newest offer policies;
- `Feeds`: the feed loops that drain a queue into an encoder;
- `Text`, `Strconv` and `Args`: Go's string, number and command-line helpers.

Objects whose fields the code updates in place are classes, and channels
are sequences bounded by their capacity. What the operating system does
is a parameter:

- pipe and process creation outcomes;
- the bytes a read returns;
- directory listings;
- whether a write succeeds;
- the clock.

A process exit is an event method.

Some behaviour of the code that a reader might not expect, and that the
model keeps:

- Only the capturer's frame broadcast drops the oldest item when a queue
  is full. The audio broadcast, the preview fan-out and every sink input
  drop the new item instead.
- Only the RTMP feed loops count and rate-limit write errors. The HLS and
  RTP loops ignore a failed write.
- The capturer's exit watcher clears the process handle but not the
  `running` flag.

## Model

| member | source | states |
|---|---|---|
| Strconv.Atoi | internal/config/config.go:115-117 | an accepted string is an optional sign followed by digits and its value lies in the 64-bit range |
| Strconv.AtoiItoa | internal/config/config.go:115-117 | every 64-bit integer printed in decimal is read back by `Atoi` as itself |
| Strconv.ParseInt64Lenient | internal/monitor/process.go:347 | with the error ignored, a syntax error gives 0, an accepted value is kept, a value above the 64-bit range gives the largest 64-bit integer and one below it the smallest, so the result stays in the 64-bit range |
| Strconv.ParseUint64 | internal/monitor/process.go:94-101 | an accepted string is all digits, non-empty, and its value is below 2^64 |
| Strconv.ParseUint64Itoa | internal/monitor/process.go:94-101 | every 64-bit unsigned value printed in decimal is read back by `ParseUint64` as itself |
| Strconv.WrapInt64 | internal/monitor/monitor.go:297 | 64-bit signed wrap-around: the result is in range and equals the argument whenever that is in range |
| Strconv.WrapUint64Add | internal/monitor/process.go:53-60 | adding to an already wrapped `uint64` sum wraps to the same value as adding before wrapping, so a running wrapped total equals the wrapped exact total |
| Text.IndexOf | internal/monitor/process.go:343 | `strings.Index`: the result is -1 exactly when the pattern occurs nowhere, otherwise the pattern occurs there and at no earlier position |
| Text.TrimSuffix | internal/config/config.go:119-121 | with the suffix present the result followed by the suffix is the input; otherwise the input is unchanged |
| Text.Split | internal/storage/storage.go:91-94 | `strings.Split` on one separator: at least one part, and no part contains the separator |
| Text.JoinSplit | internal/storage/storage.go:91-94 | joining the parts of `Split` with the separator gives back the original string |
| Text.SplitFirst | internal/monitor/process.go:82 | the first separator ends the first part: a separator-free head, the separator and a rest split into the head followed by the parts of the rest |
| Text.SplitWithout | internal/storage/storage.go:91-94 | a string without the separator splits into itself alone |
| Text.Fields | internal/monitor/process.go:88 | `strings.Fields`: every field is a non-empty run of non-space characters |
| Text.FieldsJoin | internal/monitor/process.go:88 | words joined by single spaces split back by `Fields` into the same words |
| Queues.Offer | internal/capture/capture.go:516-538 | a non-blocking send to a bounded channel: the queue never exceeds its capacity; drop-oldest keeps the newest items of the queue plus the new one and the new one is last; drop-newest keeps the oldest |
| Queues.DropOldestKeepsNewest | internal/capture/capture.go:516-538 | after any number of drop-oldest sends the queue holds exactly the newest `cap` items of everything it was given, in order |
| Queues.DropNewestKeepsOldest | internal/capture/capture.go:625-639 | after any number of drop-newest sends the queue holds exactly the oldest `cap` items of everything it was given, in order |
| Queues.BroadcastAllPerSubscriber | internal/capture/capture.go:516-538 | broadcasting treats subscribers independently: each queue ends as if the items had been offered to it alone |
| Queues.Broadcast | internal/capture/capture.go:516-538 | the loop over the subscriber table visits every subscriber once, in any order, keeps the same subscribers and leaves each queue as one non-blocking send made it |
| Config.ParseDuration | internal/config/config.go:110-132 | the empty string is 0 seconds; a plain integer is that many seconds; otherwise an integer followed by `d` is that many days of 86400 seconds, wrapped to 64 bits; otherwise Go's duration parser decides, its nanoseconds cut toward zero to whole seconds; the result is an error, naming the string, exactly when none of these applies and Go's parser rejects it |
| Config.ParseDurationSeconds | internal/config/config.go:115-117 | a printed 64-bit number of seconds parses back to itself |
| Config.ParseDurationDays | internal/config/config.go:119-125 | `"<n>d"` parses to n times 86400 seconds, whatever Go's duration parser would say |
| Config.SegmentDurationSeconds | internal/config/config.go:135-141 | the segment length is always positive; it is 300 exactly when parsing fails, gives a non-positive value or gives 300, and otherwise it is the parsed value |
| Config.SetDefaults | internal/config/config.go:144-203 | every field left zero or empty takes its default and every set field keeps its value; cameras keep their order and ids and get 44100 Hz and two channels when unset; at least one preview kind ends enabled, MJPEG being switched on exactly when both were off |
| Config.FillCameras | internal/config/config.go:174-181 | the camera loop keeps the number and order of cameras and gives each one its audio defaults |
| Config.WithDefaultsIdempotent | internal/config/config.go:144-203 | filling defaults a second time changes nothing |
| Config.EnabledCamerasSpec | internal/rtmp/manager.go:33-37 | a camera id is filed exactly when some enabled entry has it, and the entry filed is the last enabled one with that id |
| Config.CollectEnabled | internal/rtmp/manager.go:33-37 | the filing loop of the sink managers builds exactly the map of enabled cameras by id |
| Feeds.DeliveredSpec | internal/rtmp/rtmp.go:173-207 | a feed loop writes at most what it received, only non-empty buffers it received, and nothing without an input pipe |
| Feeds.DeliveredAll | internal/rtmp/rtmp.go:173-207 | when every write succeeds and no buffer is empty, everything received is written, in order |
| Feeds.DeliveredCountsSuccesses | internal/rtmp/rtmp.go:199-200 | the written-frame count equals the number of successful write attempts |
| Feeds.FailureRun | internal/rtmp/rtmp.go:187-197 | a run of failed writes raises the error counter by its length and only failures that bring it to at most three are logged |
| Feeds.AfterSuccess | internal/rtmp/rtmp.go:187-199 | a successful write resets the counter: after it and k failures the counter is k and at most three of those failures were logged |
| Feeds.FeedAllSpec | internal/rtmp/rtmp.go:173-207 | the loop state after a run of buffers: the written buffers are the delivered ones, the count their number, and the error counter and log count follow the attempts' outcomes |
| Text.TrimSpace | internal/monitor/process.go:219 | no white space is left at either end of the result |
| Text.TrimSpaceCuts | internal/monitor/process.go:219 | the result is the stretch of the input that starts right after its leading white space and is followed only by white space, so only the edges are cut |
| Mjpeg.FindSpec | internal/capture/capture.go:663-680 | `findBytes` gives the least index at which a non-empty pattern occurs, and -1 exactly when the pattern is empty or occurs nowhere |
| Mjpeg.FindBytes | internal/capture/capture.go:663-680 | the scan over every start position with a byte-by-byte comparison computes `Find`, whose meaning `FindSpec` states |
| Mjpeg.FindExtends | internal/capture/capture.go:663-680 | a search that succeeds on a buffer gives the same answer once more bytes are appended |
| Mjpeg.NextFrameSpec | internal/capture/capture.go:482-496 | one step of the parse loop starts at the first start marker of the buffer and delimits a well-formed frame; with no step, the buffer lacks a start marker or an end marker after it |
| Mjpeg.DemuxFramesWellFormed | internal/capture/capture.go:482-505 | every emitted frame starts with FF D8, ends with FF D9 and holds no other FF D9 |
| Mjpeg.DemuxReassembles | internal/capture/capture.go:482-505 | nothing is lost or reordered: the buffer is the skipped gaps and the frames, interleaved in stream order, followed by the kept tail |
| Mjpeg.DiscardedHasNoStart | internal/capture/capture.go:483-486 | the only bytes ever skipped hold no start marker |
| Mjpeg.DemuxRestHasNoFrame | internal/capture/capture.go:482-491 | the tail kept for the next read never holds a complete frame |
| Mjpeg.DemuxChunked | internal/capture/capture.go:466-505 | reading in chunks loses nothing: splitting a buffer and then its kept tail extended by more bytes emits the frames of splitting everything at once, and keeps the same tail |
| Mjpeg.DemuxTwoFrames | internal/capture/capture.go:482-505 | two back-to-back one-byte frames `FF D8 41 FF D9 FF D8 42 FF D9` come out as two frames, in order |
| Mjpeg.Truncate | internal/capture/capture.go:507-510 | the working buffer never exceeds 2 MiB, and a buffer over it is replaced by exactly its last 1 MiB |
| Mjpeg.AudioBlocksCover | internal/capture/capture.go:599-619 | every broadcast block is a full 1920 bytes, there are as many as whole blocks in the stream, and together they are the stream without its incomplete tail |
| Capture.StartCaptureError | internal/capture/capture.go:195-236 | the start succeeds exactly when the MJPEG pipe, the audio pipe (with audio enabled) and the process all succeed; the MJPEG pipe is checked first, then the audio pipe, which is never the error without audio |
| Capture.Capturer.constructor | internal/capture/capture.go:84-91 | a new capturer keeps its configuration, is not running and has no subscribers, no cached frame and an empty buffer |
| Capture.Capturer.Start | internal/capture/capture.go:126-148 | a running capturer is left untouched and reports no error; otherwise it runs exactly when spawning succeeded, the error is the first failing step, and a successful start begins with an empty frame buffer |
| Capture.Capturer.Stop | internal/capture/capture.go:151-192 | a stopped capturer is left untouched; a running one ends not running, without a process and with no frame or audio subscribers, and keeps its cached frame |
| Capture.Capturer.OnProcessExit | internal/capture/capture.go:253-258 | when ffmpeg exits the process handle is cleared but the capturer still reports itself running |
| Capture.Capturer.SubscribeFrames | internal/capture/capture.go:573-580 | the id gets a fresh empty frame queue, replacing any queue it had, and nothing else changes |
| Capture.Capturer.UnsubscribeFrames | internal/capture/capture.go:583-591 | the id's frame queue is removed; an unknown id changes nothing |
| Capture.Capturer.SubscribeAudio | internal/capture/capture.go:642-649 | the id gets a fresh empty audio queue, replacing any queue it had, and nothing else changes |
| Capture.Capturer.UnsubscribeAudio | internal/capture/capture.go:652-660 | the id's audio queue is removed; an unknown id changes nothing |
| Capture.Capturer.TakeFrames | internal/capture/capture.go:573-580 | a subscriber's receive on the channel `SubscribeFrames` returned: it gets every queued frame, in order, and its queue is left empty; nothing else changes |
| Capture.Capturer.TakeAudio | internal/capture/capture.go:642-649 | the same receive on the channel `SubscribeAudio` returned |
| Capture.Capturer.BroadcastFrame | internal/capture/capture.go:516-538 | every frame queue ends with the new frame and holds the newest 30 of its items plus the frame, a full queue losing its head |
| Capture.Capturer.BroadcastAudio | internal/capture/capture.go:625-639 | an audio queue with room gets the block appended and a full queue of 100 is left as it was |
| Capture.Capturer.ReadVideoChunk | internal/capture/capture.go:471-510 | after one read the buffer is the truncated tail that `Demux` keeps of the old buffer plus the chunk; the demultiplexed frames are broadcast in order and the last of them becomes the cached frame |
| Capture.LocateFrame | internal/capture/capture.go:483-493 | a frame is found exactly when `NextFrame` finds one, and the span returned is that frame, from its start marker to just past its end marker |
| Capture.Capturer.SplitFrames | internal/capture/capture.go:482-505 | the parse loop returns what `Demux` keeps, broadcasts exactly the frames `Demux` emits, in order, and caches the last one |
| Capture.Capturer.ReadAudioStream | internal/capture/capture.go:594-622 | the audio subscribers receive exactly the full 1920-byte blocks of the stream, in order, through drop-newest sends |
| Capture.Capturer.GetFrame | internal/capture/capture.go:541-570 | not running is an error; a cached frame is returned as it is; otherwise the frame that arrives on a temporary subscription, or a timeout, and the temporary subscription is removed again |
| Capture.DarwinInputFlags | internal/capture/capture.go:391-406 | on macOS the input is avfoundation at the camera rate, from `<video>:<audio>`, or `<video>:none` without audio |
| Capture.LinuxInputFlags | internal/capture/capture.go:408-422 | on Linux the input is v4l2 from `/dev/video<n>` at the camera rate; with audio the command line adds a PulseAudio `default` input or an ALSA `hw:<n>` input |
| Capture.WindowsInputFlags | internal/capture/capture.go:424-439 | on Windows the input is DirectShow, naming the microphone (`Microphone` when none is configured) when audio is enabled |
| Capture.DefaultInputFlags | internal/capture/capture.go:441-446 | on any other system the input is v4l2 from `/dev/video<n>` |
| Capture.SourceArgsFlags | internal/capture/capture.go:292-308 | an RTSP camera is read from its URL over TCP and an HLS camera from its URL with reconnection enabled |
| Capture.PreviewOutputFlags | internal/capture/capture.go:310-319 | the preview output is MJPEG at the camera's rate and size |
| Capture.AudioOutputFlags | internal/capture/capture.go:321-332 | there is an audio output exactly when audio is enabled, and it is 16-bit PCM at 48 kHz, mono |
| Capture.RecordingOutputArgs | internal/capture/capture.go:334-383 | there is a recording output exactly when recording is configured, and it ends with the segment file pattern |
| Capture.RecordingSegmentFlags | internal/capture/capture.go:356 | the recording output cuts segments of the configured length |
| Capture.RecordingOutputFlags | internal/capture/capture.go:343-382 | the recording encodes H.264 with a keyframe every 60 frames, and AAC audio when the camera has audio |
| Capture.CaptureArgsSource | internal/capture/capture.go:288-386 | a network source keeps its URL as the first input after every output is appended |
| Capture.CaptureArgsLast | internal/capture/capture.go:288-386 | the command line ends with the last configured output: the recording pattern, else descriptor 4, else descriptor 3 |
| Capture.Manager.constructor | internal/capture/capture.go:689-693 | a new registry is empty |
| Capture.Manager.AddCapturer | internal/capture/capture.go:696-708 | a duplicate id is rejected and nothing changes; otherwise a fresh capturer without recording is filed under the id |
| Capture.Manager.AddCapturerWithRecording | internal/capture/capture.go:711-729 | as `AddCapturer`, the new capturer carrying the recording configuration |
| Capture.Manager.GetCapturer | internal/capture/capture.go:732-741 | the capturer filed under the id, or a not-found error naming it exactly when there is none |
| Capture.Manager.StartAll | internal/capture/capture.go:756-764 | capturers are started one at a time in no fixed order; without an error every capturer runs; an error is the first failing capturer's start error, and the capturers not yet tried are untouched |
| Capture.Manager.StopAll | internal/capture/capture.go:767-774 | every capturer ends stopped |
| Rtp.StartError | internal/webrtc/rtp.go:79-161 | `Start` fails exactly when some step fails, and then with the first failing step in the code's order; an audio-branch error arises only for a camera with audio and only after the VP8 encoder is up |
| Rtp.DemuxFramesAccepted | internal/webrtc/rtp.go:338-352 | every frame the capturer's demultiplexer emits passes `WriteFrame`'s check, and so does any frame that starts with the start marker, even without its end marker |
| Rtp.VideoEncoderFlags | internal/webrtc/rtp.go:168-184 | the VP8 encoder reads MJPEG from its standard input and its command line ends with the RTP address of the video port |
| Rtp.VideoEncoderCodecFlags | internal/webrtc/rtp.go:175-178 | the VP8 encoder uses libvpx with a keyframe interval of exactly 30 frames |
| Rtp.AudioEncoderFlags | internal/webrtc/rtp.go:224-229 | the Opus encoder reads signed 16-bit PCM at 48 kHz, mono |
| Rtp.AudioEncoderIoFlags | internal/webrtc/rtp.go:229-237 | the Opus encoder reads its standard input, encodes with libopus and its command line ends with the RTP address of the audio port |
| Rtp.EncodersMatchCapture | internal/webrtc/rtp.go:168-238 | the encoders read what the capturer writes: the VP8 input format is the capturer's preview format, and the Opus input's sample format, rate and channel count are those of the capturer's PCM output |
| Rtp.Forwarder.constructor | internal/webrtc/rtp.go:66-76 | a new forwarder records its camera, rate, audio flag and ports, is not running, has no viewers, empty channels and no encoders |
| Rtp.Forwarder.Start | internal/webrtc/rtp.go:79-161 | a running forwarder is left untouched; otherwise it runs exactly when every step succeeds and the error is `StartError`; a failure in the audio branch leaves the VP8 encoder and its feed loop alive although the forwarder is not running; the audio feed loop is started exactly when the camera has audio and every step, the Opus encoder included, succeeds |
| Rtp.Forwarder.Stop | internal/webrtc/rtp.go:455-499 | a stopped forwarder is left untouched; a running one ends not running with its feed loops and both encoders gone, and queued input stays in the channels |
| Rtp.Forwarder.WriteFrame | internal/webrtc/rtp.go:338-364 | a frame under two bytes or without the start marker is dropped; otherwise it is queued by a drop-newest send to the 10-frame channel, whether or not the forwarder is running |
| Rtp.Forwarder.WriteAudio | internal/webrtc/rtp.go:326-335 | without audio nothing changes; otherwise a drop-newest send to the 100-block channel |
| Rtp.Forwarder.FeedFrames | internal/webrtc/rtp.go:274-297 | with the loop cancelled nothing happens; otherwise the channel is drained and the VP8 encoder receives exactly the delivered frames, in order, and the count rises by their number |
| Rtp.Forwarder.FeedAudio | internal/webrtc/rtp.go:300-323 | the same for the PCM channel and the Opus encoder, gated by the audio feed loop, which exists only after the Opus encoder started; after a failed audio branch queued blocks stay in the channel |
| Rtp.Forwarder.AddSubscriber | internal/webrtc/rtp.go:512-516 | the viewer count rises by one and nothing else changes |
| Rtp.Forwarder.RemoveSubscriber | internal/webrtc/rtp.go:519-524 | the viewer count falls by one, with no floor, and the new count is returned |
| Rtmp.StreamerStartError | internal/rtmp/rtmp.go:58-131 | `Start` fails exactly when a step fails, and with the first failing one: the video pipe, then the audio pipe, then the process |
| Rtmp.StreamerArgs | internal/rtmp/rtmp.go:77-116 | the push command line ends with the target URL |
| Rtmp.StreamerArgsInput | internal/rtmp/rtmp.go:80-86 | the first input is MJPEG read from descriptor 3 at the camera's frame rate |
| Rtmp.StreamerArgsVideo | internal/rtmp/rtmp.go:94 | the video is encoded with libx264 |
| Rtmp.StreamerArgsGop | internal/rtmp/rtmp.go:102 | the GOP is twice the frame rate, so there is a keyframe at least every two seconds |
| Rtmp.StreamerArgsKeyint | internal/rtmp/rtmp.go:103 | the minimum keyframe interval is the frame rate |
| Rtmp.Streamer.constructor | internal/rtmp/rtmp.go:37-45 | a new streamer keeps its camera and URL, is not running, and has no process, pipes, feed loops or queued input |
| Rtmp.Streamer.Start | internal/rtmp/rtmp.go:48-170 | a running streamer is left untouched; otherwise it runs exactly when both pipes and the process start, with the error of the first failing step; once both pipes exist their write ends stay set even if the process fails; queued input is kept |
| Rtmp.Streamer.OnProcessExit | internal/rtmp/rtmp.go:148-158 | after the process exits the streamer is not running, but its pipes and feed loops are left as they were, so a later `Stop` does nothing |
| Rtmp.Streamer.Stop | internal/rtmp/rtmp.go:271-304 | a stopped streamer is left untouched; a running one ends not running, with its process, pipes and feed loops gone and its queued input kept |
| Rtmp.Streamer.WriteFrame | internal/rtmp/rtmp.go:247-256 | a frame is dropped when the streamer is not running; otherwise it is queued by a drop-newest send, so a full channel is left as it was |
| Rtmp.Streamer.WriteAudio | internal/rtmp/rtmp.go:259-268 | the same for audio blocks |
| Rtmp.Streamer.FeedFrames | internal/rtmp/rtmp.go:173-207 | a cancelled loop or an empty channel changes nothing; when the streamer no longer runs, the loop takes one frame and ends; otherwise the channel is drained into the pipe as `FeedAll` describes |
| Rtmp.Streamer.FeedAudio | internal/rtmp/rtmp.go:210-244 | the same for the audio channel |
| Rtmp.SubscribeForwarding | internal/rtmp/manager.go:81-117 | the capturer gets a fresh frame subscription under `rtmp_video_<id>`, and a fresh audio one under `rtmp_audio_<id>` exactly when the camera has audio; its running state and frames are unchanged |
| Rtmp.Manager.constructor | internal/rtmp/manager.go:24-40 | only enabled cameras are registered, and there are no streamers or feeds |
| Rtmp.Manager.StartStream | internal/rtmp/manager.go:43-121 | it refuses, in this order, a camera already streaming, an unknown camera, one without a capturer and one whose capturer is not running; otherwise the error is the streamer's start error; on failure nothing is registered and no capturer changes; on success a fresh running streamer for that URL and camera is filed, its feed recorded and the capturer subscribed, and no other capturer changes |
| Rtmp.Manager.StopStream | internal/rtmp/manager.go:124-141 | it always succeeds; the camera's feed and streamer are forgotten, its streamer is stopped, and the other streamers are untouched |
| Rtmp.Manager.GetStreamStatus | internal/rtmp/manager.go:144-152 | it reports running exactly when the camera has a running streamer, with that streamer's URL, and otherwise an empty URL |
| Rtmp.Manager.GetAllStreams | internal/rtmp/manager.go:155-166 | the map holds exactly the cameras with a running streamer, each with its URL |
| Rtmp.Manager.StopAll | internal/rtmp/manager.go:169-182 | every feed is cancelled, every streamer is stopped, and both tables end empty |
| HlsOutput.OutputStartError | internal/stream/hls_output.go:59-155 | `Start` fails exactly when a step fails, and with the first failing one: the directory, the video pipe, the audio pipe, then the process |
| HlsOutput.SegmentDuration | internal/stream/hls_output.go:84-87 | the segment length is the configured one when positive and 2 seconds otherwise, so it is always positive |
| HlsOutput.PlaylistLength | internal/stream/hls_output.go:88-91 | the playlist length is the configured one when positive and 5 otherwise, so it is always positive |
| HlsOutput.PlaylistServed | internal/stream/hls_output.go:65 | the playlist the process writes under `<temp>/hls/<camera>/` is the file the URL `/hls/<camera>/index.m3u8` names below the temporary directory |
| HlsOutput.SegmentsBesidePlaylist | internal/stream/hls_output.go:65 | segments are written as `segment_%03d.ts` in the playlist's directory, under a name different from the playlist's |
| HlsOutput.HlsArgsInput | internal/stream/hls_output.go:97-100 | the first input is MJPEG read from descriptor 3 at the camera's frame rate |
| HlsOutput.HlsArgsGop | internal/stream/hls_output.go:117 | the GOP is twice the frame rate, so each two-second segment can start on a keyframe |
| HlsOutput.HlsArgsSegmentTime | internal/stream/hls_output.go:128 | `-hls_time` carries the segment length given |
| HlsOutput.HlsArgsListSize | internal/stream/hls_output.go:129 | `-hls_list_size` carries the playlist length given |
| HlsOutput.HlsArgsFiles | internal/stream/hls_output.go:131-132 | the segment pattern follows `-hls_segment_filename` and the command line ends with the playlist path |
| HlsOutput.Output.constructor | internal/stream/hls_output.go:38-45 | a new output keeps its capturer, camera, stream settings and output path, is not running, and has no process, pipes, feed loops or written data |
| HlsOutput.Output.ArgsUseDefaults | internal/stream/hls_output.go:84-133 | the command line an output builds carries the defaulted segment length and playlist length and ends with `index.m3u8` in the camera's directory |
| HlsOutput.Output.Start | internal/stream/hls_output.go:48-182 | a running output is left untouched; otherwise it runs exactly when all four steps succeed, with the error of the first failing one; on failure the capturer and the feed loops are unchanged; on success the process and the video feed loop are alive, the audio loop exactly when the camera has audio, and the capturer holds fresh `hls_video_<id>` (and, with audio, `hls_audio_<id>`) subscriptions |
| HlsOutput.Output.OnProcessExit | internal/stream/hls_output.go:162-171 | after the process exits the output is not running, but its pipes and feed loops are left as they were, so a later `Stop` does nothing |
| HlsOutput.Output.Stop | internal/stream/hls_output.go:230-258 | the output ends not running; a running one loses its process, pipes and feed loops, and what was written stays written |
| HlsOutput.Output.FeedVideo | internal/stream/hls_output.go:188-206 | a cancelled loop or an empty subscription changes nothing; when the output no longer runs, the loop ends and drops its subscription; otherwise it drains the subscription and the encoder receives exactly the non-empty frames whose write succeeds, in order, while a pipe is set |
| HlsOutput.Output.FeedAudio | internal/stream/hls_output.go:209-227 | the same for the audio subscription |
| HlsOutput.Manager.constructor | internal/stream/hls_output.go:284-301 | only enabled cameras are registered, the output path is `<temp>/hls`, and there are no outputs |
| HlsOutput.Manager.StartOutput | internal/stream/hls_output.go:304-329 | it refuses, in this order, a camera with a running output, an unknown camera and a camera without a capturer; a capturer that is not running is accepted; otherwise the error is the output's start error; on failure nothing is filed and the capturer is unchanged; on success a fresh running output is filed and no other capturer changes |
| HlsOutput.Manager.StopOutput | internal/stream/hls_output.go:332-341 | it always succeeds; the camera's output is stopped and forgotten and the others are untouched |
| HlsOutput.Manager.GetOutputStatus | internal/stream/hls_output.go:344-352 | it reports running exactly when the camera has a running output, with the playlist URL, and otherwise an empty URL |
| HlsOutput.Manager.GetAllOutputs | internal/stream/hls_output.go:355-366 | the map holds exactly the cameras with a running output, each with its playlist URL |
| HlsOutput.Manager.StopAll | internal/stream/hls_output.go:369-377 | every output is stopped and the table ends empty |
| Stream.FanOutPerSubscriber | internal/stream/stream.go:163-171 | offering frames to every subscriber without blocking leaves each queue with its oldest ten items: what it held, then the first frames that still fit |
| Stream.Streamer.constructor | internal/stream/stream.go:34-41 | a new streamer keeps its capturer and settings, is not running and has no subscribers |
| Stream.Streamer.Start | internal/stream/stream.go:44-70 | a running streamer is left untouched; otherwise the output path becomes `<temp>/hls/<camera>`, the streamer runs and distributes exactly when the directory is made, and the only error is the directory's; subscribers are kept |
| Stream.Streamer.Stop | internal/stream/stream.go:73-104 | the streamer ends neither running nor distributing; a running one also drops every subscriber; a stopped one is left untouched |
| Stream.Streamer.Subscribe | internal/stream/stream.go:107-114 | the id gets a fresh empty channel, replacing any it had, and nothing else changes |
| Stream.Streamer.Unsubscribe | internal/stream/stream.go:117-125 | the id's channel is removed, an unknown id changes nothing, and nothing else changes |
| Stream.Streamer.DistributeFrames | internal/stream/stream.go:140-174 | a cancelled loop changes nothing; otherwise the subscribers stay the same and each queue becomes the oldest ten of what it held followed by the frames received, and the loop ends exactly when its channel closes |
| Stream.Streamer.FanOut | internal/stream/stream.go:163-171 | every subscriber queue receives the frames by drop-newest offers, as `BroadcastAll` describes |
| Stream.Manager.constructor | internal/stream/stream.go:185-191 | a new manager keeps its capture manager and settings and has no streamers |
| Stream.Manager.CreateStream | internal/stream/stream.go:194-210 | an existing streamer is returned as is; a camera without a capturer is an error and files nothing; otherwise a fresh streamer over that capturer is filed and returned |
| Stream.Manager.GetStream | internal/stream/stream.go:213-222 | it succeeds exactly for a filed camera, with its streamer, and fails with not-found otherwise |
| Stream.Manager.StartStream | internal/stream/stream.go:225-231 | a camera with neither a streamer nor a capturer is an error and files nothing; otherwise the camera's streamer exists afterwards and the call succeeds exactly when it runs, the only start error being the directory's; other streamers are untouched |
| Stream.Manager.StopStream | internal/stream/stream.go:234-244 | an unknown camera is not-found; otherwise its streamer is stopped, dropping its subscribers if it ran, and the others are untouched |
| Stream.Manager.StartAll | internal/stream/stream.go:247-256 | it starts a stream for each capturer and stops at the first error, which is a directory error of a camera it tried; streams are created only for the capturers tried, and without an error every capturer has a running streamer |
| Stream.Manager.StopAll | internal/stream/stream.go:259-266 | every streamer is stopped and all of them stay filed |
| Storage.FormatStamp | internal/capture/capture.go:341 | the `%Y%m%d_%H%M%S` stamp the segmenter writes always has the shape of the `20060102_150405` layout |
| Storage.ParseStamp | internal/storage/storage.go:96-100 | a parsed stamp is a valid calendar date and clock time |
| Storage.ParseStampFormats | internal/storage/storage.go:96-100 | whatever the parser accepts is exactly the stamp written for the time it yields, so no two texts parse to the same time |
| Storage.ParseFormatStamp | internal/storage/storage.go:96-100 | parsing the stamp written for a valid time gives that time back |
| Storage.RecognizeSound | internal/storage/storage.go:80-121 | a listed entry is a file with the `.<format>` suffix and a parsable time in its name, inside the window, with readable size; its recording is `<camera>_<unix time>`, names the entry and lies under the camera directory |
| Storage.RecognizeWindow | internal/storage/storage.go:102-107 | the time window only filters: a bounded listing keeps exactly the unbounded one's entries whose time falls inside it |
| Storage.StampHalves | internal/capture/capture.go:341 | the date and clock halves of a stamp hold no underscore |
| Storage.SegmentStem | internal/storage/storage.go:91 | a segment name without its suffix is the camera, `_` and the stamp |
| Storage.SplitThree | internal/storage/storage.go:91-96 | three underscore-free texts joined by `_` split back into those three |
| Storage.RecognizeSegment | internal/storage/storage.go:80-121 | a segment written by the recorder of a camera whose id has no underscore is listed, with the time in its name, whenever that time is in the window |
| Storage.UnderscoreCameraIgnored | internal/storage/storage.go:91-100 | a segment of a camera whose id holds one underscore is never listed: the second part of its name is the camera's tail, not the date |
| Storage.TwoPartCameraSplit | internal/storage/storage.go:91 | such a name splits into the camera's two halves, the date and the clock |
| Storage.ScanMembers | internal/storage/storage.go:80-122 | a recording is listed exactly when some directory entry is recognised as it |
| Storage.FoundAllMembers | internal/storage/storage.go:136-142 | the combined listing holds exactly the recordings of the cameras' individual listings |
| Storage.NewestFirstOrdered | internal/storage/storage.go:124-126 | in a newest-first listing an earlier recording never starts before a later one |
| Storage.SortNewestFirst | internal/storage/storage.go:124-126 | sorting yields the same recordings, newest first |
| Storage.GetRecordings | internal/storage/storage.go:67-129 | a missing camera directory is an empty listing, an unreadable one is an error naming it, and otherwise the result is the recognised entries, newest first, as a permutation of the scan |
| Storage.GetAllRecordings | internal/storage/storage.go:132-149 | every camera is visited once; a camera whose listing fails is skipped; the result is all listed recordings, newest first |
| Storage.CleanupOldRecordings | internal/storage/storage.go:157-177 | every camera is visited once; the paths removed are those of the recordings at or before the cutoff, camera by camera, a failed listing removing nothing and a failed removal not stopping the rest |
| Storage.CleanupSelects | internal/storage/storage.go:158-162 | the cleanup removes exactly the listed recordings whose time is not after `now - retentionDays` days |
| Format.ExponentBounds | internal/monitor/monitor.go:348-352 | the number of divisions by 1024 picks the power of 1024 at or below the count, the next power being above it |
| Format.ByteSizeOfBounds | internal/monitor/monitor.go:343-354 | every 64-bit count of at least 1024 bytes is shown against the largest power of 1024 not above it, and its exponent is a valid index into `KMGTPE` |
| Format.FormatBytes | internal/monitor/monitor.go:343-354 | a count below 1024 is shown as `<n> B`; otherwise the loop ends with a divisor that is a power of 1024 with the count between it and 1024 times it, and a unit letter that exists |
| Format.PartsOf | internal/monitor/monitor.go:358-361 | days, hours below 24, minutes below 60 and seconds below 60 that add back up to the uptime |
| Format.FormatDuration | internal/monitor/monitor.go:357-373 | an uptime of a day or more shows days, hours and minutes; of an hour or more hours, minutes and seconds; of a minute or more minutes and seconds; otherwise seconds |
| Monitor.Transition | internal/monitor/monitor.go:189-218 | one check of one kind adds an alert exactly when being over the threshold differs from the raised flag, and that alert resolves exactly when the value is back within the threshold |
| Monitor.AlertsAlternate | internal/monitor/monitor.go:187-219 | over any run of checks the alerts of one kind alternate between raised and resolved, the first resolving exactly when one was already raised, at most one per check |
| Monitor.SteadyIsQuiet | internal/monitor/monitor.go:187-219 | a value that stays on one side of its threshold adds at most one alert, on the first check |
| Monitor.MemoryAlerts | internal/monitor/monitor.go:189-202 | a sample adds at most one memory alert, exactly when being over the threshold differs from the raised flag; it is resolved exactly when memory is back within the threshold, carries the allocation as its value and the check's time |
| Monitor.GoroutineAlerts | internal/monitor/monitor.go:205-218 | the same for the goroutine count, which is carried in decimal |
| Monitor.HistoryWindow | internal/monitor/monitor.go:292-300 | the number of newest samples returned is the smaller of twelve per minute asked (an hour's worth when not positive) and the number stored |
| Monitor.HistoryWindowMonotone | internal/monitor/monitor.go:292-300 | asking for more minutes never returns fewer samples |
| Monitor.HistoryWindowAsWritten | internal/monitor/monitor.go:292-309 | the window computed with `minutes * 12` in 64-bit arithmetic never exceeds what is stored when it does not panic |
| Monitor.HistoryWindowAgrees | internal/monitor/monitor.go:297 | up to a twelfth of the largest 64-bit integer, the computation as written equals the intended window |
| Monitor.HistoryWindowOverflow | internal/monitor/monitor.go:297 | past that bound one request makes `make` panic and another gets 8 samples where the intended window is all 720 |
| Monitor.Monitor.constructor | internal/monitor/monitor.go:95-105 | a new monitor starts now with no history, alerts or process history, the 512 MiB and 1000-goroutine thresholds and no raised alert |
| Monitor.Monitor.SetThresholds | internal/monitor/monitor.go:108-118 | a positive memory value sets the threshold to that many MiB, wrapped to 64 bits; a positive goroutine value sets that threshold; non-positive values leave them; nothing else changes |
| Monitor.Monitor.AddAlert | internal/monitor/monitor.go:222-242 | the alert is appended with the time given, resolved exactly for the two resolved kinds, and only the newest 100 are kept |
| Monitor.Monitor.CheckAlerts | internal/monitor/monitor.go:187-219 | each raised flag ends up saying whether its value is over its threshold, and the alerts grow by the memory alert and then the goroutine alert of that sample, newest 100 kept |
| Monitor.Monitor.CollectProcessHistory | internal/monitor/process.go:271-300 | the point made from the system snapshot is appended to the process history and only the newest 720 are kept; nothing else changes |
| Monitor.Monitor.Collect | internal/monitor/monitor.go:157-184 | the sample is appended to the history with only the newest 720 kept, the alerts are checked, and a process point is recorded |
| Monitor.Monitor.GetHistory | internal/monitor/monitor.go:288-310 | the result is the newest samples, in order, as many as the smaller of twelve per minute asked (an hour's worth when not positive) and the number stored |
| Monitor.Monitor.GetProcessHistory | internal/monitor/process.go:303-323 | the result is the newest process points, in order, as many as the smaller of twelve per minute asked (an hour's worth when not positive) and the number stored |
| Monitor.Monitor.GetAlerts | internal/monitor/monitor.go:313-327 | the newest `limit` alerts, or all of them when the limit is not positive or too large, newest first |
| Monitor.NewestSampleShown | internal/monitor/monitor.go:172-175 | after a sample is collected every history window, whatever the minutes, ends with that sample |
| Process.ParseState | internal/monitor/process.go:229-252 | an empty state is `unknown`; the seven known letters map to their names by the first character; any other state is returned unchanged exactly when its first letter is not one of them |
| Process.ParseStateIdempotent | internal/monitor/process.go:229-252 | decoding a decoded state changes nothing |
| Process.ParseStateUnknown | internal/monitor/process.go:229-252 | the result is `unknown` exactly for an empty state or the text `unknown` itself |
| Process.KiloBytes | internal/monitor/process.go:94-101 | a `ps` memory column becomes a 64-bit byte count, and an unparsable one stays 0 |
| Process.ProcessInfoOf | internal/monitor/process.go:68-117 | the pid is kept and the memory fits 64 bits; a failed `ps` gives the unknown record without memory string or command; otherwise the memory string is the formatted resident memory and the command is the command line; a row too short to parse leaves name, memory, state and run time empty |
| Process.PsRowRoundTrip | internal/monitor/process.go:68-117 | a header and a row of at least seven words whose memory columns are decimal KiB read back as that row: name, decoded state, memory times 1024 in 64 bits, run time and the command line |
| Process.Truncate | internal/monitor/process.go:219-223 | a command of at most 200 characters is kept; a longer one is cut to its first 200 followed by `...` |
| Process.TruncateIdempotent | internal/monitor/process.go:219-223 | cutting an already cut command changes nothing |
| Process.NulsToSpaces | internal/monitor/process.go:207-209 | the result has the input's length and no NUL, and every other character stays in place |
| Process.CommandLine | internal/monitor/process.go:204-226 | `/proc/<pid>/cmdline`, when readable, is returned with NULs as spaces; otherwise the trimmed and cut `ps` output, or an empty command when `ps` fails too |
| Process.GetSystemInfo | internal/monitor/process.go:44-65 | the snapshot keeps the main process and children, counts one process more than the children, and its total is the 64-bit sum of all resident memory, formatted as `formatBytes` does |
| Process.SumRssPartition | internal/monitor/process.go:276-281 | splitting the children by any test splits their memory sum in two |
| Process.ProcessPointOf | internal/monitor/process.go:274-292 | the summing loop records the main memory, the 64-bit sum over children whose lower-cased name contains `ffmpeg`, the total, and a count of all children, ffmpeg or not |
| Process.PointAddsUp | internal/monitor/process.go:274-292 | in a recorded point the main memory, the ffmpeg memory and the other children's memory add up to the total, in 64-bit arithmetic |
| Process.ValueAfter | internal/monitor/process.go:343-346 | no occurrence of the key gives no value, and a value is always one word |
| Process.ValueAfterFirst | internal/monitor/process.go:343-346 | when the key first occurs after a prefix and is followed by spaces and a word, that word is the value |
| Process.FrameOf | internal/monitor/process.go:343-349 | the frame count fits 64 bits, and a missing or unparsable value gives 0 |
| Process.ParseFfmpegProgress | internal/monitor/process.go:337-397 | the frame count is `FrameOf` and size, time, bitrate and speed are the word after their key, empty when missing |
| Process.FrameRoundTrip | internal/monitor/process.go:343-349 | a progress line that starts with a printed 64-bit frame count reads that count back |
| Process.LeadingValue | internal/monitor/process.go:343-346 | for a line that starts with the key, the word after the spaces is the value |
| Handler.LastIndex | internal/handler/handler.go:364-370 | the position of the last occurrence of a character, or -1 exactly when it does not occur |
| Handler.StripPort | internal/handler/handler.go:360-371 | the result is a prefix of the host; a host of at most one character or without `:` is kept; otherwise it is cut just before its last `:` |
| Handler.StripPortOfHostPort | internal/handler/handler.go:360-371 | `host:port` with neither part holding `:` strips back to the host |
| Handler.DisplayHost | internal/handler/handler.go:357-373 | a configured host other than `0.0.0.0` is shown as it is; otherwise the request host with its port stripped |
| Handler.FindRecording | internal/handler/handler.go:274-280 | nothing is found exactly when no recording has the name; otherwise the first recording with that name |
| Handler.Lookup | internal/handler/handler.go:265-280 | the lookup fails exactly when the camera directory is unreadable, with that error; otherwise it finds nothing exactly when the camera's listing has no recording of that name, and what it finds is listed under that name |
| Handler.DownloadRecording | internal/handler/handler.go:260-286 | an unreadable directory is a server error, no recording of the name is not-found, and an attachment is a listed recording's file under the requested name |
| Handler.PlayRecording | internal/handler/handler.go:289-313 | the same errors, and a served file is that of a listed recording with the name |
| Handler.DeleteRecording | internal/handler/handler.go:316-350 | the same errors; a removal is reported as done exactly when it succeeds, on the file of a listed recording with the name |

## Left out

- Process spawning, pipes and signals are left out. `exec.Cmd`, `os.Pipe`, `Kill`/`Wait` and stderr scanning become outcome parameters and the `OnProcessExit` events. The grace-period sleeps and the 5-second wait of `HLSStreamer.Stop` are left out.
- Concurrency is left out: goroutines, mutexes, `context` cancellation and channel closing. Every operation runs to completion in sequence. A goroutine becomes a flag saying its loop is alive, plus a method that runs the loop until its channel is drained.
- When a cancelled sink feed loop ends, it unsubscribes from the capturer. This deferred unsubscription is not modelled, for the HLS feed loops and for the RTMP manager's forwarding loops. After `Stop`, `StopOutput` or `StopStream` the capturer subscription stays in the model.
- HLS subscriptions are made by `Output.Start` itself, rather than by the feed goroutines it launches. The preview streamer's own capturer subscription is not modelled. Its id contains the clock, and the frames it would receive are the parameter of `DistributeFrames`.
- `Rtp.Forwarder.Start`: when the camera has audio and a step of the audio branch fails, the VP8 encoder and its feed loop are left running while the forwarder is not running, and the audio feed loop is never started, so blocks queued by `WriteAudio` stay in the channel with no reader. The model keeps this behaviour; it is not corrected.
- RTP packet reception and the WebRTC tracks are left out, because they are done by a foreign library and UDP sockets.
- Floating point is left out: CPU percentages, the `fps=` value of a progress line, and the `%.1f` quotient of `formatBytes` (`ByteSize` keeps the divisor and unit instead). `formatDuration` works on whole seconds, so the float rounding of `d.Hours()` and `d.Minutes()` is not modelled.
- Log messages and the text of alert messages are left out. An alert message is a datatype carrying its values.
- Child-process discovery (`getChildProcesses`, `findFFmpegProcesses`) is left out, as is running `ps` and reading `/proc`. Their outputs are inputs to the model.
- `Text.ToLower` lower-cases ASCII only.
- Lengths are counted in characters where Go counts bytes: the 200-character command cut and the host scan.
- `processHistory` is a package-level variable in the source. It is kept as a field of `Monitor.Monitor`.
- `Text.PathJoin` joins with one `/` and does not clean the path, as `filepath.Join` would.
- Recording times are read in UTC, not the server's local time zone. The cleanup cutoff is `now` minus whole days of 86400 seconds, so daylight-saving shifts are not modelled.
- `Storage.ParseStamp` is stricter than Go's layout parser. It accepts only the fifteen-character shape the recorder writes. Go would also take fractional seconds after the seconds field (`20240101_120000.5`), which the recorder never writes.
- `sort.Slice` is not stable. The model proves only the newest-first order and the permutation, not the order of equal times.
- `Recording.EndTime` and `Recording.Duration` are left out because the code never fills them in.
- `StorageManager.StartAll`, `StopAll` and `StartCleanupTask` are left out because they only create directories or run a timer.
- The HTTP plumbing of the handlers is left out (parameters, JSON bodies, status codes). A response is reduced to what it decides.
- `Capture.RecordingOutputFlags`: without audio it states only that the `-c:a` value comes from the segment arguments, because a configured segment format string could itself contain `-c:a`.
- `Capture.Manager.StopAll`: states only that every capturer ends stopped. The subscriber tables being emptied is stated per capturer by `Capture.Capturer.Stop`, and is not restated over the whole registry.
- `Config.ParseDuration`: the seconds of a Go-parsed duration are its nanoseconds cut toward zero. Go computes `int(d.Seconds())` through float64, which rounds up to the next second when the fraction lies within half a float64 step of it, so `4700h0m0.999999999s` gives 16920001 in Go and 16920000 here.
- Plain getters that only read a field (`IsRunning` of each component, `GetPlaylistUrl`, `GetPlaylistPath` and `Rtp.Forwarder.GetSubscriberCount`) carry no contract and have no row.
- Go map iteration order is nondeterministic. Loops over a map pick any remaining key, and their contracts hold for every order.

## Findings

| source | as written | input that shows it | evidently intended | confidence | as-written member | corrected member |
|---|---|---|---|---|---|---|
| internal/monitor/monitor.go:297 | `points := minutes * 12` is computed in 64-bit `int` before the cap, so a huge `minutes` wraps | `GetHistory(768614336404564652)` wraps to a negative count and `make` panics; `GetHistory(1537228672809129302)` wraps to 8 and returns 8 samples | at most all stored samples: the newest `min(12·minutes, len)` | not executed | Monitor.HistoryWindowOverflow | Monitor.HistoryWindow |
| internal/monitor/process.go:311 | `GetProcessHistory` computes the same `minutes * 12` in 64-bit `int` | `GetProcessHistory(768614336404564652)` panics; `GetProcessHistory(1537228672809129302)` returns 8 points | the newest `min(12·minutes, len)` process points | not executed | Monitor.HistoryWindowAsWritten | Monitor.Monitor.GetProcessHistory |
