/**
 * Bounded queues standing for Go's buffered channels, and the two
 * non-blocking offer policies the code uses on them:
 *  - drop-oldest: when full, the head is discarded to admit the new item;
 *  - drop-newest: when full, the new item is discarded.
 * A subscriber table maps a subscriber id to its queue.
 */
module Queues {

  newtype byte = x: int | 0 <= x < 256

  type Bytes = seq<byte>

  datatype Policy = DropOldest | DropNewest

  /** The last `n` items of `s` (all of them when `s` is shorter). */
  function Newest<T>(s: seq<T>, n: nat): (r: seq<T>)
    ensures |r| == if |s| < n then |s| else n
  {
    if |s| <= n then s else s[|s| - n..]
  }

  /** The first `n` items of `s` (all of them when `s` is shorter). */
  function Oldest<T>(s: seq<T>, n: nat): (r: seq<T>)
    ensures |r| == if |s| < n then |s| else n
  {
    if |s| <= n then s else s[..n]
  }

  /**
   * A non-blocking send of `x` to a queue of capacity `cap`. Under
   * drop-oldest the queue keeps the newest `cap` items of `q + [x]`;
   * under drop-newest it keeps the oldest `cap` items.
   */
  function Offer<T>(policy: Policy, q: seq<T>, cap: nat, x: T): (r: seq<T>)
    requires 0 < cap && |q| <= cap
    ensures |r| <= cap
    ensures policy == DropOldest ==> r == Newest(q + [x], cap) && r[|r| - 1] == x
    ensures policy == DropNewest ==> r == Oldest(q + [x], cap)
  {
    if |q| < cap then q + [x]
    else if policy == DropOldest then q[1..] + [x]
    else q
  }

  /** Offering `xs` one after the other, in order. */
  function OfferAll<T>(policy: Policy, q: seq<T>, cap: nat, xs: seq<T>): (r: seq<T>)
    requires 0 < cap && |q| <= cap
    ensures |r| <= cap
    decreases |xs|
  {
    if xs == [] then q
    else Offer(policy, OfferAll(policy, q, cap, xs[..|xs| - 1]), cap, xs[|xs| - 1])
  }

  /**
   * However many items are offered, a drop-oldest queue holds exactly the
   * newest `cap` of everything it was given, in the order they were given.
   */
  lemma {:induction false} DropOldestKeepsNewest<T>(q: seq<T>, cap: nat, xs: seq<T>)
    requires 0 < cap && |q| <= cap
    ensures OfferAll(DropOldest, q, cap, xs) == Newest(q + xs, cap)
    decreases |xs|
  {
    if xs != [] {
      var init, x := xs[..|xs| - 1], xs[|xs| - 1];
      DropOldestKeepsNewest(q, cap, init);
      NewestSnoc(q + init, cap, x);
      assert q + xs == (q + init) + [x];
    }
  }

  /** Keeping the newest `n` items before appending one loses nothing the newest `n` after it need. */
  lemma NewestSnoc<T>(s: seq<T>, n: nat, x: T)
    requires 0 < n
    ensures Newest(Newest(s, n) + [x], n) == Newest(s + [x], n)
  {
    if |s| >= n {
      assert (s[|s| - n..] + [x])[1..] == s[|s| - n + 1..] + [x];
      assert (s + [x])[|s| + 1 - n..] == s[|s| + 1 - n..] + [x];
    }
  }

  /**
   * A drop-newest queue holds exactly the oldest `cap` of everything it
   * was given: once full, it never changes again.
   */
  lemma {:induction false} DropNewestKeepsOldest<T>(q: seq<T>, cap: nat, xs: seq<T>)
    requires 0 < cap && |q| <= cap
    ensures OfferAll(DropNewest, q, cap, xs) == Oldest(q + xs, cap)
    decreases |xs|
  {
    if xs != [] {
      var init := xs[..|xs| - 1];
      DropNewestKeepsOldest(q, cap, init);
      var mid := Oldest(q + init, cap);
      assert q + xs == (q + init) + [xs[|xs| - 1]];
      if |q + init| >= cap {
        assert (q + xs)[..cap] == (q + init)[..cap];
      }
    }
  }

  /** Every queue of the table holds at most `cap` items. */
  ghost predicate Bounded<T>(table: map<string, seq<T>>, cap: nat)
  {
    forall id :: id in table ==> |table[id]| <= cap
  }

  /** Each subscriber's queue after one item was offered to every subscriber. */
  function OfferToAll<T>(policy: Policy, table: map<string, seq<T>>, cap: nat, x: T): (r: map<string, seq<T>>)
    requires 0 < cap && Bounded(table, cap)
    ensures r.Keys == table.Keys && Bounded(r, cap)
  {
    map id | id in table :: Offer(policy, table[id], cap, x)
  }

  /** Each subscriber's queue after a sequence of broadcasts. */
  function BroadcastAll<T>(policy: Policy, table: map<string, seq<T>>, cap: nat, xs: seq<T>): (r: map<string, seq<T>>)
    requires 0 < cap && Bounded(table, cap)
    ensures r.Keys == table.Keys && Bounded(r, cap)
    decreases |xs|
  {
    if xs == [] then table
    else OfferToAll(policy, BroadcastAll(policy, table, cap, xs[..|xs| - 1]), cap, xs[|xs| - 1])
  }

  /**
   * Broadcasting treats subscribers independently: each queue ends up as
   * if the items had been offered to it alone.
   */
  lemma {:induction false} BroadcastAllPerSubscriber<T>(policy: Policy, table: map<string, seq<T>>, cap: nat, xs: seq<T>, id: string)
    requires 0 < cap && Bounded(table, cap) && id in table
    ensures BroadcastAll(policy, table, cap, xs)[id] == OfferAll(policy, table[id], cap, xs)
    decreases |xs|
  {
    if xs != [] {
      BroadcastAllPerSubscriber(policy, table, cap, xs[..|xs| - 1], id);
    }
  }

  /** One more broadcast extends the history by one item. */
  lemma BroadcastAllSnoc<T>(policy: Policy, table: map<string, seq<T>>, cap: nat, xs: seq<T>, x: T)
    requires 0 < cap && Bounded(table, cap)
    ensures BroadcastAll(policy, table, cap, xs + [x])
         == OfferToAll(policy, BroadcastAll(policy, table, cap, xs), cap, x)
  {
    assert (xs + [x])[..|xs|] == xs;
  }

  /**
   * The broadcast loop of the capturer and of the preview streamer: visits
   * the subscribers one at a time, in no particular order, and makes a
   * non-blocking offer to each.
   */
  method Broadcast<T>(policy: Policy, table: map<string, seq<T>>, cap: nat, x: T) returns (r: map<string, seq<T>>)
    requires 0 < cap && Bounded(table, cap)
    ensures r.Keys == table.Keys
    ensures forall id :: id in table ==> r[id] == Offer(policy, table[id], cap, x)
    ensures r == OfferToAll(policy, table, cap, x)
  {
    r := table;
    var pending := table.Keys;
    while pending != {}
      invariant pending <= table.Keys && r.Keys == table.Keys
      invariant forall id :: id in table && id !in pending ==> r[id] == Offer(policy, table[id], cap, x)
      invariant forall id :: id in pending ==> r[id] == table[id]
      decreases pending
    {
      var id :| id in pending;
      r := r[id := Offer(policy, r[id], cap, x)];
      pending := pending - {id};
    }
  }
}
