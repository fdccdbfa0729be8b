/**
 * Reading ffmpeg command lines: the value that follows a flag.
 */
module Args {
  import opened Wrappers
  import opened Strconv

  /** The argument right after the first occurrence of `flag`, if any. */
  function ValueAfter(args: seq<string>, flag: string): Option<string>
    decreases |args|
  {
    if |args| < 2 then None
    else if args[0] == flag then Some(args[1])
    else ValueAfter(args[1..], flag)
  }

  /** A flag at the head of the list takes the next argument as its value. */
  lemma ValueAfterHead(flag: string, value: string, rest: seq<string>)
    ensures ValueAfter([flag, value] + rest, flag) == Some(value)
  {
  }

  /** Arguments that do not mention the flag do not affect its value. */
  lemma {:induction false} ValueAfterSkip(prefix: seq<string>, rest: seq<string>, flag: string)
    requires flag !in prefix
    ensures ValueAfter(prefix + rest, flag) == ValueAfter(rest, flag)
    decreases |prefix|
  {
    if prefix != [] {
      var all := prefix + rest;
      assert all[0] == prefix[0] != flag;
      assert all[1..] == prefix[1..] + rest;
      ValueAfterSkip(prefix[1..], rest, flag);
      if |all| >= 2 {
        assert ValueAfter(all, flag) == ValueAfter(all[1..], flag);
      } else {
        assert rest == [] && ValueAfter(rest, flag).None?;
      }
    } else {
      assert prefix + rest == rest;
    }
  }

  /** The first occurrence of the flag, at index `i`, decides its value. */
  lemma {:induction false} ValueAfterAt(args: seq<string>, i: nat, flag: string)
    requires i + 1 < |args| && args[i] == flag
    requires flag !in args[..i]
    ensures ValueAfter(args, flag) == Some(args[i + 1])
    decreases i
  {
    if i > 0 {
      assert args[0] != flag by { assert args[..i][0] == args[0]; }
      assert args[1..][..i - 1] == args[..i][1..];
      ValueAfterAt(args[1..], i - 1, flag);
    }
  }

  /** Once a flag has a value, what follows does not change it. */
  lemma {:induction false} ValueAfterPrefix(args: seq<string>, more: seq<string>, flag: string)
    requires ValueAfter(args, flag).Some?
    ensures ValueAfter(args + more, flag) == ValueAfter(args, flag)
    decreases |args|
  {
    assert (args + more)[0] == args[0] && (args + more)[1] == args[1];
    if args[0] != flag {
      assert (args + more)[1..] == args[1..] + more;
      ValueAfterPrefix(args[1..], more, flag);
    }
  }

  /**
   * A flag first occurring at index `i` of the middle part of a command
   * line takes the argument after it, whatever precedes or follows.
   */
  lemma ValueAfterIn(pre: seq<string>, mid: seq<string>, post: seq<string>, i: nat, flag: string)
    requires flag !in pre
    requires i + 1 < |mid| && mid[i] == flag
    requires flag !in mid[..i]
    ensures ValueAfter(pre + mid + post, flag) == Some(mid[i + 1])
  {
    assert pre + mid + post == pre + (mid + post);
    ValueAfterAt(mid, i, flag);
    ValueAfterPrefix(mid, post, flag);
    ValueAfterSkip(pre, mid + post, flag);
  }

  /** A printed number is never mistaken for a flag such as `-i`. */
  lemma ItoaIsNotFlag(n: int, flag: string)
    requires |flag| >= 2 && flag[0] == '-' && !IsDigit(flag[1])
    ensures Itoa(n) != flag
  {
  }

  /** The global options both encoders that read the capturer's two pipes start with. */
  function GlobalArgs(): seq<string>
  {
    ["-hide_banner", "-loglevel", "warning"]
  }

  /** The MJPEG input on descriptor 3, at the camera rate. */
  function VideoInputArgs(fps: int): seq<string>
  {
    ["-f", "mjpeg", "-framerate", Itoa(fps), "-i", "pipe:3"]
  }

  /** The PCM input on descriptor 4: signed 16-bit, 48 kHz, mono. */
  function AudioInputArgs(): seq<string>
  {
    ["-f", "s16le", "-ar", "48000", "-ac", "1", "-i", "pipe:4"]
  }

  /** A flag whose value the head of a command line fixes keeps it through four more parts. */
  lemma ThroughTail(head: seq<string>, c: seq<string>, d: seq<string>, e: seq<string>, f: seq<string>, flag: string)
    requires ValueAfter(head, flag).Some?
    ensures ValueAfter(head + c + d + e + f, flag) == ValueAfter(head, flag)
  {
    ValueAfterPrefix(head, c, flag);
    ValueAfterPrefix(head + c, d, flag);
    ValueAfterPrefix(head + c + d, e, flag);
    ValueAfterPrefix(head + c + d + e, f, flag);
  }
}
