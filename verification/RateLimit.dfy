/**
 The sliding-window limiter: a queue of accepted times per key, pruned at every check.
 Checks are atomic and the clock never goes back.
 */
module RateLimit {

  type Time = real

  datatype Call = Call(key: string, now: Time)

  // --------------------------------------------------------------------------- one check

  function Bucket(events: map<string, seq<Time>>, key: string): seq<Time> {
    if key in events then events[key] else []
  }

  /** The queue without the leading events that have left the window. */
  function Pruned(bucket: seq<Time>, cutoff: Time): seq<Time> {
    if bucket != [] && bucket[0] <= cutoff then Pruned(bucket[1..], cutoff) else bucket
  }

  function Accepts(events: map<string, seq<Time>>, call: Call, requests: nat, window: Time): bool {
    |Pruned(Bucket(events, call.key), call.now - window)| < requests
  }

  function Checked(events: map<string, seq<Time>>, call: Call, requests: nat, window: Time): map<string, seq<Time>> {
    var bucket := Pruned(Bucket(events, call.key), call.now - window);
    events[call.key := if |bucket| < requests then bucket + [call.now] else bucket]
  }

  class SlidingWindowLimiter {
    const requests: nat
    const window: Time
    var events: map<string, seq<Time>>

    constructor (requests: nat, window: Time)
      ensures this.requests == requests && this.window == window && events == map[]
    {
      this.requests, this.window, events := requests, window, map[];
    }

    method Check(key: string, now: Time) returns (accepted: bool)
      modifies this`events
      ensures accepted == Accepts(old(events), Call(key, now), requests, window)
      ensures events == Checked(old(events), Call(key, now), requests, window)
    {
      var cutoff := now - window;
      var bucket := if key in events then events[key] else [];
      while bucket != [] && bucket[0] <= cutoff
        invariant Pruned(bucket, cutoff) == Pruned(Bucket(old(events), key), cutoff)
        decreases |bucket|
      {
        bucket := bucket[1..];
      }
      if |bucket| >= requests {
        events := events[key := bucket];
        return false;
      }
      events := events[key := bucket + [now]];
      return true;
    }
  }

  // ------------------------------------------------------------------------- whole runs

  /** The state after a sequence of calls. */
  function After(calls: seq<Call>, requests: nat, window: Time): map<string, seq<Time>> {
    if calls == [] then map[]
    else Checked(After(calls[..|calls| - 1], requests, window), calls[|calls| - 1], requests, window)
  }

  /** Everything that was ever accepted under the key. */
  function History(calls: seq<Call>, key: string, requests: nat, window: Time): seq<Time> {
    if calls == [] then []
    else
      var front, last := calls[..|calls| - 1], calls[|calls| - 1];
      History(front, key, requests, window) + Added(After(front, requests, window), last, key, requests, window)
  }

  /** Events later than lo and no later than hi. */
  function CountIn(times: seq<Time>, lo: Time, hi: Time): nat {
    if times == [] then 0
    else CountIn(times[..|times| - 1], lo, hi) + if lo < times[|times| - 1] <= hi then 1 else 0
  }

  ghost predicate Ordered(calls: seq<Call>) {
    forall i, j :: 0 <= i < j < |calls| ==> calls[i].now <= calls[j].now
  }

  ghost predicate Sorted(times: seq<Time>) {
    forall i, j :: 0 <= i < j < |times| ==> times[i] <= times[j]
  }

  ghost predicate NoneAfter(times: seq<Time>, t: Time) {
    forall i :: 0 <= i < |times| ==> times[i] <= t
  }

  ghost predicate AllAfter(times: seq<Time>, t: Time) {
    forall i :: 0 <= i < |times| ==> times[i] > t
  }

  /** The queue is the history without a beginning that lies outside every window from now on. */
  ghost predicate KeepsRecent(bucket: seq<Time>, history: seq<Time>, now: Time, cutoff: Time) {
    && |bucket| <= |history|
    && bucket == history[|history| - |bucket|..]
    && NoneAfter(history[..|history| - |bucket|], cutoff)
    && Sorted(history)
    && NoneAfter(history, now)
  }

  lemma {:induction false} PrunedKeepsRecent(bucket: seq<Time>, history: seq<Time>, now: Time, cutoff: Time)
    requires KeepsRecent(bucket, history, now, cutoff)
    ensures KeepsRecent(Pruned(bucket, cutoff), history, now, cutoff)
    ensures AllAfter(Pruned(bucket, cutoff), cutoff)
    decreases |bucket|
  {
    var n := |history| - |bucket|;
    if bucket != [] && bucket[0] <= cutoff {
      assert history[..n + 1] == history[..n] + [bucket[0]];
      PrunedKeepsRecent(bucket[1..], history, now, cutoff);
    } else if bucket != [] {
      forall i | 0 <= i < |bucket| ensures bucket[i] > cutoff {
        assert history[n] <= history[n + i];
      }
    }
  }

  lemma {:induction false} CountSplits(a: seq<Time>, b: seq<Time>, lo: Time, hi: Time)
    ensures CountIn(a + b, lo, hi) == CountIn(a, lo, hi) + CountIn(b, lo, hi)
  {
    if b == [] {
      assert a + b == a;
    } else {
      CountSplits(a, b[..|b| - 1], lo, hi);
      assert (a + b)[..|a + b| - 1] == a + b[..|b| - 1];
    }
  }

  lemma CountOneMore(times: seq<Time>, t: Time, lo: Time, hi: Time)
    ensures CountIn(times + [t], lo, hi) == CountIn(times, lo, hi) + if lo < t <= hi then 1 else 0
  {
    assert (times + [t])[..|times|] == times;
  }

  lemma {:induction false} CountNone(times: seq<Time>, lo: Time, hi: Time)
    requires NoneAfter(times, lo)
    ensures CountIn(times, lo, hi) == 0
  {
    if times != [] { CountNone(times[..|times| - 1], lo, hi); }
  }

  lemma {:induction false} CountAll(times: seq<Time>, lo: Time, hi: Time)
    requires AllAfter(times, lo) && NoneAfter(times, hi)
    ensures CountIn(times, lo, hi) == |times|
  {
    if times != [] { CountAll(times[..|times| - 1], lo, hi); }
  }

  /** The pruned queue holds exactly the events of the window that ends now. */
  lemma PrunedCounts(bucket: seq<Time>, history: seq<Time>, now: Time, cutoff: Time)
    requires KeepsRecent(bucket, history, now, cutoff)
    ensures |Pruned(bucket, cutoff)| == CountIn(history, cutoff, now)
  {
    PrunedKeepsRecent(bucket, history, now, cutoff);
    var rest := Pruned(bucket, cutoff);
    var gone := history[..|history| - |rest|];
    assert history == gone + rest;
    CountSplits(gone, rest, cutoff, now);
    CountNone(gone, cutoff, now);
    CountAll(rest, cutoff, now);
  }

  lemma RecentLater(bucket: seq<Time>, history: seq<Time>, now: Time, cutoff: Time, now': Time, cutoff': Time)
    requires KeepsRecent(bucket, history, now, cutoff) && now <= now' && cutoff <= cutoff'
    ensures KeepsRecent(bucket, history, now', cutoff')
  {
  }

  lemma OneMoreAccepted(bucket: seq<Time>, history: seq<Time>, now: Time, cutoff: Time)
    requires KeepsRecent(bucket, history, now, cutoff)
    ensures KeepsRecent(bucket + [now], history + [now], now, cutoff)
  {
    var n := |history| - |bucket|;
    assert (history + [now])[..n] == history[..n];
    assert (history + [now])[n..] == history[n..] + [now];
  }

  /** What one call adds to the history of a key. */
  function Added(events: map<string, seq<Time>>, call: Call, key: string, requests: nat, window: Time): seq<Time> {
    if call.key == key && Accepts(events, call, requests, window) then [call.now] else []
  }

  lemma CheckKeepsRecent(events: map<string, seq<Time>>, history: seq<Time>, call: Call, key: string,
                         requests: nat, window: Time, cutoff: Time)
    requires cutoff == call.now - window && KeepsRecent(Bucket(events, key), history, call.now, cutoff)
    ensures KeepsRecent(Bucket(Checked(events, call, requests, window), key),
                        history + Added(events, call, key, requests, window), call.now, cutoff)
  {
    var bucket := Bucket(events, key);
    assert history + [] == history;
    if call.key == key {
      PrunedKeepsRecent(bucket, history, call.now, cutoff);
      OneMoreAccepted(Pruned(bucket, cutoff), history, call.now, cutoff);
    }
  }

  lemma {:induction false} QueueKeepsRecent(calls: seq<Call>, key: string, requests: nat, window: Time, now: Time, cutoff: Time)
    requires Ordered(calls) && cutoff == now - window && (calls != [] ==> calls[|calls| - 1].now <= now)
    ensures KeepsRecent(Bucket(After(calls, requests, window), key), History(calls, key, requests, window), now, cutoff)
  {
    if calls != [] {
      var front, last := calls[..|calls| - 1], calls[|calls| - 1];
      var lastCutoff := last.now - window;
      var events, history := After(front, requests, window), History(front, key, requests, window);
      QueueKeepsRecent(front, key, requests, window, last.now, lastCutoff);
      CheckKeepsRecent(events, history, last, key, requests, window, lastCutoff);
      RecentLater(Bucket(After(calls, requests, window), key), History(calls, key, requests, window), last.now, lastCutoff, now, cutoff);
    }
  }

  lemma QueueDecides(events: map<string, seq<Time>>, history: seq<Time>, call: Call, requests: nat, window: Time, cutoff: Time)
    requires cutoff == call.now - window && KeepsRecent(Bucket(events, call.key), history, call.now, cutoff)
    ensures Accepts(events, call, requests, window) <==> CountIn(history, cutoff, call.now) < requests
  {
    PrunedCounts(Bucket(events, call.key), history, call.now, cutoff);
  }

  /** The call is not earlier than any before it. */
  ghost predicate ComesNext(calls: seq<Call>, call: Call) {
    Ordered(calls) && (calls != [] ==> calls[|calls| - 1].now <= call.now)
  }

  /** The queue decides as the full history would: accepted exactly when the window that ends now has room. */
  lemma AcceptanceIsExact(calls: seq<Call>, call: Call, requests: nat, window: Time, cutoff: Time)
    requires ComesNext(calls, call) && cutoff == call.now - window
    ensures Accepts(After(calls, requests, window), call, requests, window) <==>
              CountIn(History(calls, call.key, requests, window), cutoff, call.now) < requests
  {
    QueueKeepsRecent(calls, call.key, requests, window, call.now, cutoff);
    QueueDecides(After(calls, requests, window), History(calls, call.key, requests, window), call, requests, window, cutoff);
  }

  lemma {:induction false} EarlierWindowHasMore(times: seq<Time>, lo: Time, lo': Time, hi: Time, hi': Time)
    requires lo' <= lo && NoneAfter(times, hi')
    ensures CountIn(times, lo, hi) <= CountIn(times, lo', hi')
  {
    if times != [] { EarlierWindowHasMore(times[..|times| - 1], lo, lo', hi, hi'); }
  }

  /** An accepted event finds fewer than the allowed number in every window that contains it. */
  lemma AcceptedFindsRoom(calls: seq<Call>, call: Call, requests: nat, window: Time, lo: Time, t: Time)
    requires ComesNext(calls, call) && lo == t - window && lo < call.now <= t
    requires Accepts(After(calls, requests, window), call, requests, window)
    ensures CountIn(History(calls, call.key, requests, window), lo, t) < requests
  {
    var cutoff := call.now - window;
    AcceptanceIsExact(calls, call, requests, window, cutoff);
    QueueKeepsRecent(calls, call.key, requests, window, call.now, cutoff);
    EarlierWindowHasMore(History(calls, call.key, requests, window), lo, cutoff, t, call.now);
  }

  lemma AddedFits(events: map<string, seq<Time>>, history: seq<Time>, call: Call, key: string, requests: nat, window: Time, lo: Time, t: Time)
    requires CountIn(history, lo, t) <= requests
    requires call.key == key && lo < call.now <= t && Accepts(events, call, requests, window) ==> CountIn(history, lo, t) < requests
    ensures CountIn(history + Added(events, call, key, requests, window), lo, t) <= requests
  {
    CountOneMore(history, call.now, lo, t);
    assert history + [] == history;
  }

  /** No window of the given length, wherever it lies, ever holds more accepted events than allowed. */
  lemma {:induction false} NoWindowOverflows(calls: seq<Call>, key: string, requests: nat, window: Time, lo: Time, t: Time)
    requires Ordered(calls) && lo == t - window
    ensures CountIn(History(calls, key, requests, window), lo, t) <= requests
  {
    if calls != [] {
      var front, last := calls[..|calls| - 1], calls[|calls| - 1];
      var events, history := After(front, requests, window), History(front, key, requests, window);
      NoWindowOverflows(front, key, requests, window, lo, t);
      if last.key == key && lo < last.now <= t && Accepts(events, last, requests, window) {
        AcceptedFindsRoom(front, last, requests, window, lo, t);
      }
      AddedFits(events, history, last, key, requests, window, lo, t);
    }
  }
}
