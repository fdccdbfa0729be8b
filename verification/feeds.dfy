/**
 * The feed loops that drain an input channel into an encoder's standard
 * input: which buffers they write, and the rate-limited logging of
 * consecutive write errors some of them do.
 */
module Feeds {
  import opened Queues

  /**
   * The buffers a feed loop writes to an encoder, from the buffers it
   * received and whether each write succeeded: nothing when the encoder
   * has no input pipe, never an empty buffer, and a failed write is
   * skipped.
   */
  function Delivered(xs: seq<Bytes>, ok: seq<bool>, pipe: bool): (r: seq<Bytes>)
    requires |ok| == |xs|
    decreases |xs|
  {
    if xs == [] then []
    else
      var n := |xs| - 1;
      Delivered(xs[..n], ok[..n], pipe)
      + (if pipe && |xs[n]| > 0 && ok[n] then [xs[n]] else [])
  }

  /**
   * A feed loop writes at most what it received, only non-empty buffers
   * it received, and nothing at all without an input pipe.
   */
  lemma {:induction false} DeliveredSpec(xs: seq<Bytes>, ok: seq<bool>, pipe: bool)
    requires |ok| == |xs|
    ensures |Delivered(xs, ok, pipe)| <= |xs|
    ensures forall x :: x in Delivered(xs, ok, pipe) ==> x in xs && |x| > 0
    ensures !pipe ==> Delivered(xs, ok, pipe) == []
    decreases |xs|
  {
    if xs != [] {
      var n := |xs| - 1;
      DeliveredSpec(xs[..n], ok[..n], pipe);
      forall x | x in xs[..n]
        ensures x in xs
      {
        var k :| 0 <= k < n && xs[..n][k] == x;
        assert xs[k] == x;
      }
    }
  }

  /** With every write succeeding and no empty buffer, everything received is written, in order. */
  lemma {:induction false} DeliveredAll(xs: seq<Bytes>, ok: seq<bool>)
    requires |ok| == |xs|
    requires forall i :: 0 <= i < |xs| ==> ok[i] && |xs[i]| > 0
    ensures Delivered(xs, ok, true) == xs
    decreases |xs|
  {
    if xs != [] {
      var n := |xs| - 1;
      DeliveredAll(xs[..n], ok[..n]);
      assert xs[..n] + [xs[n]] == xs;
    }
  }

  /**
   * The outcomes of the writes a feed loop attempts, in order: one per
   * non-empty buffer, and none without an input pipe.
   */
  function Attempts(xs: seq<Bytes>, ok: seq<bool>, pipe: bool): seq<bool>
    requires |ok| == |xs|
    decreases |xs|
  {
    if xs == [] then []
    else
      var n := |xs| - 1;
      Attempts(xs[..n], ok[..n], pipe) + (if pipe && |xs[n]| > 0 then [ok[n]] else [])
  }

  /** Every attempted write that succeeded delivered one buffer. */
  lemma {:induction false} DeliveredCountsSuccesses(xs: seq<Bytes>, ok: seq<bool>, pipe: bool)
    requires |ok| == |xs|
    ensures |Delivered(xs, ok, pipe)| == Successes(Attempts(xs, ok, pipe))
    decreases |xs|
  {
    if xs != [] {
      var n := |xs| - 1;
      DeliveredCountsSuccesses(xs[..n], ok[..n], pipe);
      var a := Attempts(xs[..n], ok[..n], pipe);
      var tail := if pipe && |xs[n]| > 0 then [ok[n]] else [];
      SuccessesAppend(a, tail);
    }
  }

  /** The number of successful writes among the outcomes. */
  function Successes(rs: seq<bool>): nat
    decreases |rs|
  {
    if rs == [] then 0 else Successes(rs[..|rs| - 1]) + (if rs[|rs| - 1] then 1 else 0)
  }

  lemma {:induction false} SuccessesAppend(a: seq<bool>, b: seq<bool>)
    ensures Successes(a + b) == Successes(a) + Successes(b)
    decreases |b|
  {
    if b == [] {
      assert a + b == a;
    } else {
      var n := |b| - 1;
      assert (a + b)[..|a + b| - 1] == a + b[..n];
      SuccessesAppend(a, b[..n]);
    }
  }

  /** Only this many consecutive write errors are logged. */
  const LoggedErrorLimit: nat := 3

  /** The consecutive-error counter after the outcomes `rs`, starting from `e0`. */
  function ErrCount(e0: nat, rs: seq<bool>): nat
    decreases |rs|
  {
    if rs == [] then e0
    else if rs[|rs| - 1] then 0
    else ErrCount(e0, rs[..|rs| - 1]) + 1
  }

  /** How many of the failures are logged: those that bring the counter to at most the limit. */
  function Logged(e0: nat, rs: seq<bool>): nat
    decreases |rs|
  {
    if rs == [] then 0
    else
      var init := rs[..|rs| - 1];
      Logged(e0, init) + (if !rs[|rs| - 1] && ErrCount(e0, init) + 1 <= LoggedErrorLimit then 1 else 0)
  }

  function Min(a: int, b: int): int
  {
    if a <= b then a else b
  }

  /**
   * A run of failures raises the counter by its length, and only the
   * first few of it, up to the limit of three consecutive errors, are
   * logged.
   */
  lemma {:induction false} FailureRun(e0: nat, p: seq<bool>, b: seq<bool>)
    requires forall i :: 0 <= i < |b| ==> !b[i]
    ensures ErrCount(e0, p + b) == ErrCount(e0, p) + |b|
    ensures Logged(e0, p + b) == Logged(e0, p)
      + (if ErrCount(e0, p) >= LoggedErrorLimit then 0 else Min(|b|, LoggedErrorLimit - ErrCount(e0, p)))
    decreases |b|
  {
    if b == [] {
      assert p + b == p;
    } else {
      var n := |b| - 1;
      assert (p + b)[..|p + b| - 1] == p + b[..n];
      FailureRun(e0, p, b[..n]);
    }
  }

  /**
   * A successful write resets the counter: after a success followed by
   * `k` failures the counter is `k` and at most three of them were logged.
   */
  lemma AfterSuccess(e0: nat, a: seq<bool>, b: seq<bool>)
    requires forall i :: 0 <= i < |b| ==> !b[i]
    ensures ErrCount(e0, a + [true] + b) == |b|
    ensures Logged(e0, a + [true] + b) == Logged(e0, a) + Min(|b|, LoggedErrorLimit)
  {
    assert (a + [true])[..|a|] == a;
    FailureRun(e0, a + [true], b);
  }

  /** What a feed loop that counts its errors has done since its encoder started. */
  datatype FeedState = FeedState(written: seq<Bytes>, count: nat, errCount: nat, logged: nat)

  const FreshFeed := FeedState([], 0, 0, 0)

  /**
   * One buffer taken from the channel: written when there is an input pipe
   * and the buffer is not empty; a success resets the error counter, a
   * failure raises it and is logged while it is at most the limit.
   */
  function FeedStep(st: FeedState, x: Bytes, ok: bool, pipe: bool): FeedState
  {
    if !(pipe && |x| > 0) then st
    else if ok then st.(written := st.written + [x], count := st.count + 1, errCount := 0)
    else st.(errCount := st.errCount + 1,
             logged := st.logged + (if st.errCount + 1 <= LoggedErrorLimit then 1 else 0))
  }

  /** The buffers `xs`, taken in order. */
  function FeedAll(st: FeedState, xs: seq<Bytes>, ok: seq<bool>, pipe: bool): FeedState
    requires |ok| == |xs|
    decreases |xs|
  {
    if xs == [] then st
    else
      var n := |xs| - 1;
      FeedStep(FeedAll(st, xs[..n], ok[..n], pipe), xs[n], ok[n], pipe)
  }

  /**
   * After a run of the loop the encoder has been given exactly the
   * delivered buffers, one count each; the error counter is that of the
   * attempted writes and so are the logged errors.
   */
  lemma {:induction false} FeedAllSpec(st: FeedState, xs: seq<Bytes>, ok: seq<bool>, pipe: bool)
    requires |ok| == |xs|
    ensures FeedAll(st, xs, ok, pipe).written == st.written + Delivered(xs, ok, pipe)
    ensures FeedAll(st, xs, ok, pipe).count == st.count + |Delivered(xs, ok, pipe)|
    ensures FeedAll(st, xs, ok, pipe).errCount == ErrCount(st.errCount, Attempts(xs, ok, pipe))
    ensures FeedAll(st, xs, ok, pipe).logged == st.logged + Logged(st.errCount, Attempts(xs, ok, pipe))
    decreases |xs|
  {
    if xs != [] {
      var n := |xs| - 1;
      var a := Attempts(xs[..n], ok[..n], pipe);
      FeedAllSpec(st, xs[..n], ok[..n], pipe);
      assert FeedAll(st, xs, ok, pipe) == FeedStep(FeedAll(st, xs[..n], ok[..n], pipe), xs[n], ok[n], pipe);
      if pipe && |xs[n]| > 0 {
        assert Attempts(xs, ok, pipe) == a + [ok[n]];
        CountersSnoc(st.errCount, a, ok[n]);
      } else {
        assert Attempts(xs, ok, pipe) == a;
      }
    }
  }

  /** The counters after one more outcome. */
  lemma CountersSnoc(e0: nat, a: seq<bool>, r: bool)
    ensures ErrCount(e0, a + [r]) == if r then 0 else ErrCount(e0, a) + 1
    ensures Logged(e0, a + [r]) == Logged(e0, a) + (if !r && ErrCount(e0, a) + 1 <= LoggedErrorLimit then 1 else 0)
  {
    assert (a + [r])[..|a|] == a;
  }
}
