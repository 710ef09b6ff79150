/** The invitation rate limiter: per-key sliding windows with a bound on tracked keys (src/campaigns/invitations.ts). */
module RateLimiter {

  /** How many entries lie after the cutoff. */
  function Recent(history: seq<int>, cutoff: int): nat {
    if |history| == 0 then 0 else
    Recent(history[..|history| - 1], cutoff) + if history[|history| - 1] > cutoff then 1 else 0
  }

  /** Counted as a set of places: the entries strictly after the cutoff. */
  ghost function After(history: seq<int>, cutoff: int): set<nat> {
    set i: nat | i < |history| && cutoff < history[i]
  }

  lemma {:induction false} RecentCounts(history: seq<int>, cutoff: int)
    ensures Recent(history, cutoff) == |After(history, cutoff)|
  {
    if |history| == 0 {
      assert After(history, cutoff) == {};
    } else {
      var last: nat := |history| - 1;
      RecentCounts(history[..last], cutoff);
      assert After(history, cutoff) == After(history[..last], cutoff) + if history[last] > cutoff then {last} else {};
    }
  }

  ghost predicate Sorted(s: seq<int>) { forall i, j :: 0 <= i < j < |s| ==> s[i] <= s[j] }

  /** The rate promised: any maxAttempts + 1 admissions of one bucket span at least the window. */
  ghost predicate Spaced(history: seq<int>, windowMs: int, maxAttempts: int) {
    forall i, j :: 0 <= i < j < |history| && j == i + maxAttempts ==> history[i] + windowMs <= history[j]
  }

  /**
   * Hence no window holds more than maxAttempts admissions: those that far apart in the history are a window apart in
   * time.
   */
  lemma NoWindowHoldsMore(history: seq<int>, windowMs: int, maxAttempts: int, i: nat, j: nat)
    requires Sorted(history) && Spaced(history, windowMs, maxAttempts) && maxAttempts > 0
    requires i + maxAttempts <= j < |history|
    ensures history[i] + windowMs <= history[j]
  {
    assert history[i] + windowMs <= history[i + maxAttempts] <= history[j];
  }

  /** `hits` is what a bucket still holds of the full history: a suffix, the rest being outside every later window. */
  ghost predicate Holds(hits: seq<int>, history: seq<int>, cutoff: int) {
    |hits| <= |history| && hits == history[|history| - |hits|..] &&
    forall i :: 0 <= i < |history| - |hits| ==> history[i] <= cutoff
  }

  /** In a sorted history the recent entries are exactly a suffix. */
  lemma {:induction false} RecentIsSuffix(history: seq<int>, cutoff: int, k: nat)
    requires Sorted(history) && k <= |history|
    requires forall i :: 0 <= i < k ==> history[i] <= cutoff
    requires forall i :: k <= i < |history| ==> history[i] > cutoff
    ensures Recent(history, cutoff) == |history| - k
  {
    if |history| > 0 {
      var shorter := history[..|history| - 1];
      if k == |history| {
        RecentIsSuffix(shorter, cutoff, k - 1);
      } else {
        RecentIsSuffix(shorter, cutoff, k);
      }
    }
  }

  lemma AdmissionKeepsSpacing(history: seq<int>, windowMs: int, maxAttempts: int, now: int, k: nat)
    requires Spaced(history, windowMs, maxAttempts) && k <= |history| && |history| - k < maxAttempts
    requires forall i :: 0 <= i < k ==> history[i] <= now - windowMs
    ensures Spaced(history + [now], windowMs, maxAttempts)
  {
  }

  ghost predicate ValidBucket(hits: seq<int>, history: seq<int>, windowMs: int, maxAttempts: int, clock: int) {
    && Holds(hits, history, clock - windowMs)
    && Sorted(history) && (forall i :: 0 <= i < |history| ==> history[i] <= clock)
    && (hits == [] || |hits| <= maxAttempts)
    && Spaced(history, windowMs, maxAttempts)
  }

  lemma ValidLater(hits: seq<int>, history: seq<int>, windowMs: int, maxAttempts: int, clock: int, now: int)
    requires ValidBucket(hits, history, windowMs, maxAttempts, clock) && clock <= now
    ensures ValidBucket(hits, history, windowMs, maxAttempts, now)
  {
  }

  /** A pruned bucket counts its window. */
  lemma PrunedCountsWindow(kept: seq<int>, history: seq<int>, cutoff: int)
    requires Holds(kept, history, cutoff) && Sorted(history)
    requires |kept| > 0 ==> kept[0] > cutoff
    ensures Recent(history, cutoff) == |kept|
  {
    var k := |history| - |kept|;
    forall i | k <= i < |history| ensures history[i] > cutoff {
      assert history[k] == kept[0];
    }
    RecentIsSuffix(history, cutoff, k);
  }

  /** One check on one bucket: pruned to `kept`, the bucket stays valid with or without the new hit. */
  lemma AdmitOne(kept: seq<int>, history: seq<int>, windowMs: int, maxAttempts: int, now: int)
    requires ValidBucket(kept, history, windowMs, maxAttempts, now)
    requires |kept| < maxAttempts
    ensures ValidBucket(kept + [now], history + [now], windowMs, maxAttempts, now)
  {
    AdmissionKeepsSpacing(history, windowMs, maxAttempts, now, |history| - |kept|);
    HoldsOneMore(kept, history, now - windowMs, now);
  }

  lemma HoldsOneMore(hits: seq<int>, history: seq<int>, cutoff: int, now: int)
    requires Holds(hits, history, cutoff)
    ensures Holds(hits + [now], history + [now], cutoff)
  {
    var k := |history| - |hits|;
    assert (history + [now])[k..] == history[k..] + [now];
  }

  /** Hits at or before the cutoff leave from the front, and only from there. */
  function Pruned(hits: seq<int>, cutoff: int): seq<int> {
    if |hits| > 0 && hits[0] <= cutoff then Pruned(hits[1..], cutoff) else hits
  }

  lemma {:induction false} PrunedHolds(hits: seq<int>, history: seq<int>, cutoff: int)
    requires Holds(hits, history, cutoff)
    ensures Holds(Pruned(hits, cutoff), history, cutoff) && |Pruned(hits, cutoff)| <= |hits|
    ensures |Pruned(hits, cutoff)| > 0 ==> Pruned(hits, cutoff)[0] > cutoff
  {
    if |hits| > 0 && hits[0] <= cutoff {
      PrunedHolds(hits[1..], history, cutoff);
    }
  }

  /** While the clock does not go back, the pruned bucket decides as a count of the last window would. */
  lemma BucketCountsWindow(hits: seq<int>, history: seq<int>, windowMs: int, maxAttempts: int, now: int)
    requires ValidBucket(hits, history, windowMs, maxAttempts, now)
    ensures var kept := Pruned(hits, now - windowMs);
      && Recent(history, now - windowMs) == |kept|
      && ValidBucket(kept, history, windowMs, maxAttempts, now)
      && (|kept| < maxAttempts ==> ValidBucket(kept + [now], history + [now], windowMs, maxAttempts, now))
  {
    var kept := Pruned(hits, now - windowMs);
    PrunedHolds(hits, history, now - windowMs);
    PrunedCountsWindow(kept, history, now - windowMs);
    if |kept| < maxAttempts {
      AdmitOne(kept, history, windowMs, maxAttempts, now);
    }
  }

  /** Insertion order after a new key: it joins last, and past the bound the first one leaves. */
  function Joined(order: seq<string>, key: string, maxBuckets: nat): seq<string> {
    if |order| < maxBuckets then order + [key] else (order + [key])[1..]
  }

  function Leaver(order: seq<string>, key: string): string { (order + [key])[0] }

  lemma JoinLast(order: seq<string>, key: string, maxBuckets: nat)
    requires Distinct(order) && key !in order && |order| <= maxBuckets
    ensures Distinct(Joined(order, key, maxBuckets)) && |Joined(order, key, maxBuckets)| <= maxBuckets
    ensures forall k :: k in Joined(order, key, maxBuckets) <==>
      (k in order || k == key) && (|order| == maxBuckets ==> k != Leaver(order, key))
  {
    var joined := order + [key];
    var tail := joined[1..];
    assert Distinct(joined);
    assert joined == [joined[0]] + tail;
    assert forall i :: 0 <= i < |tail| ==> tail[i] == joined[i + 1];
    assert joined[0] !in tail;
    assert forall k :: k in joined <==> k in order || k == key;
    assert forall k :: k in joined <==> k in tail || k == joined[0];
  }

  ghost predicate AllValid(buckets: map<string, seq<int>>, admitted: map<string, seq<int>>, windowMs: int,
      maxAttempts: int, clock: int) {
    buckets.Keys == admitted.Keys &&
    forall k {:trigger ValidBucket(buckets[k], admitted[k], windowMs, maxAttempts, clock)} ::
      k in buckets ==> ValidBucket(buckets[k], admitted[k], windowMs, maxAttempts, clock)
  }

  lemma AllValidLater(buckets: map<string, seq<int>>, admitted: map<string, seq<int>>, windowMs: int, maxAttempts: int,
      clock: int, now: int)
    requires AllValid(buckets, admitted, windowMs, maxAttempts, clock) && clock <= now
    ensures AllValid(buckets, admitted, windowMs, maxAttempts, now)
  {
    forall k | k in buckets ensures ValidBucket(buckets[k], admitted[k], windowMs, maxAttempts, now) {
      assert ValidBucket(buckets[k], admitted[k], windowMs, maxAttempts, clock);
      ValidLater(buckets[k], admitted[k], windowMs, maxAttempts, clock, now);
    }
  }

  lemma AllValidPut(buckets: map<string, seq<int>>, admitted: map<string, seq<int>>, windowMs: int, maxAttempts: int,
      clock: int, key: string, hits: seq<int>, history: seq<int>)
    requires AllValid(buckets, admitted, windowMs, maxAttempts, clock) &&
      ValidBucket(hits, history, windowMs, maxAttempts, clock)
    ensures AllValid(buckets[key := hits], admitted[key := history], windowMs, maxAttempts, clock)
  {
  }

  lemma AllValidDrop(buckets: map<string, seq<int>>, admitted: map<string, seq<int>>, windowMs: int, maxAttempts: int,
      clock: int, gone: string)
    requires AllValid(buckets, admitted, windowMs, maxAttempts, clock)
    ensures AllValid(buckets - {gone}, admitted - {gone}, windowMs, maxAttempts, clock)
  {
  }

  predicate Distinct(s: seq<string>) { forall i, j :: 0 <= i < j < |s| ==> s[i] != s[j] }

  class Limiter {
    const windowMs: int
    const maxAttempts: int
    const maxBuckets: nat
    var buckets: map<string, seq<int>>
    /** Keys in insertion order, as the bucket map iterates them. */
    var order: seq<string>
    /** Every attempt admitted since the bucket was created, dropped ones included. */
    ghost var admitted: map<string, seq<int>>
    /** The last time seen, and whether the clock has never gone back. */
    ghost var clock: int
    ghost var orderly: bool

    ghost predicate Valid()
      reads this
    {
      && buckets.Keys == admitted.Keys
      && (orderly ==> AllValid(buckets, admitted, windowMs, maxAttempts, clock))
      && Distinct(order) && (forall k :: k in buckets <==> k in order)
      && |order| <= maxBuckets
    }

    constructor (windowMs: int, maxAttempts: int, maxBuckets: nat, ghost start: int)
      ensures Valid() && orderly && buckets == map[] && clock == start
      ensures this.windowMs == windowMs && this.maxAttempts == maxAttempts && this.maxBuckets == maxBuckets
    {
      this.windowMs := windowMs;
      this.maxAttempts := maxAttempts;
      this.maxBuckets := maxBuckets;
      buckets, order, admitted, clock, orderly := map[], [], map[], start, true;
    }

    function Hits(key: string): seq<int>
      reads this
    {
      if key in buckets then buckets[key] else []
    }

    /** The history a check is judged by: empty for a key without a bucket. */
    ghost function History(key: string): seq<int>
      reads this
    {
      if key in admitted then admitted[key] else []
    }

    /** The bucket map after a look-up: a new key joins last, and past the bound the one that joined first leaves. */
    method OpenBucket(key: string)
      requires Valid() && key !in buckets
      modifies this`buckets, this`order, this`admitted
      ensures Valid()
      ensures order == Joined(old(order), key, maxBuckets)
      ensures order == if |old(order)| < maxBuckets then old(order) + [key] else (old(order) + [key])[1..]
      ensures key in buckets ==> buckets[key] == admitted[key] == []
      ensures forall k :: k in buckets && k != key ==> k in old(buckets) && buckets[k] == old(buckets[k])
      ensures forall k :: k in buckets && k != key ==> admitted[k] == old(admitted[k])
    {
      JoinLast(order, key, maxBuckets);
      var oldest := Leaver(order, key);
      if orderly {
        AllValidPut(buckets, admitted, windowMs, maxAttempts, clock, key, [], []);
        AllValidDrop(buckets[key := []], admitted[key := []], windowMs, maxAttempts, clock, oldest);
      }
      if |order| == maxBuckets {
        buckets, admitted := buckets[key := []] - {oldest}, admitted[key := []] - {oldest};
      } else {
        buckets, admitted := buckets[key := []], admitted[key := []];
      }
      order := Joined(order, key, maxBuckets);
    }

    static method Prune(hits: seq<int>, cutoff: int) returns (kept: seq<int>)
      ensures kept == Pruned(hits, cutoff)
    {
      kept := hits;
      while |kept| > 0 && kept[0] <= cutoff
        invariant Pruned(kept, cutoff) == Pruned(hits, cutoff)
      {
        kept := kept[1..];
      }
    }

    /** The bucket's own part of a check: prune, compare, push. */
    method Judge(hits: seq<int>, now: int, ghost history: seq<int>, ghost valid: bool)
        returns (ok: bool, kept: seq<int>)
      requires valid ==> ValidBucket(hits, history, windowMs, maxAttempts, now)
      ensures ok <==> |Pruned(hits, now - windowMs)| < maxAttempts
      ensures kept == Pruned(hits, now - windowMs) + if ok then [now] else []
      ensures valid ==> (ok <==> Recent(history, now - windowMs) < maxAttempts)
      ensures valid ==> ValidBucket(kept, if ok then history + [now] else history, windowMs, maxAttempts, now)
    {
      if valid {
        BucketCountsWindow(hits, history, windowMs, maxAttempts, now);
      }
      kept := Prune(hits, now - windowMs);
      ok := |kept| < maxAttempts;
      if ok {
        kept := kept + [now];
      }
    }

    /** The pushed array is seen through the map, unless the bucket was evicted at once. */
    method Store(key: string, hits: seq<int>, ghost history: seq<int>)
      requires Valid() && (orderly ==> ValidBucket(hits, history, windowMs, maxAttempts, clock))
      modifies this`buckets, this`admitted
      ensures Valid() && buckets.Keys == old(buckets.Keys)
      ensures key in buckets ==> buckets[key] == hits && admitted[key] == history
      ensures forall k :: k in buckets && k != key ==> buckets[k] == old(buckets[k]) && admitted[k] == old(admitted[k])
    {
      if key in buckets {
        if orderly {
          AllValidPut(buckets, admitted, windowMs, maxAttempts, clock, key, hits, history);
        }
        buckets, admitted := buckets[key := hits], admitted[key := history];
      }
    }

    /** The hits array of a key, creating its bucket when it has none. */
    method Fetch(key: string) returns (hits: seq<int>)
      requires Valid()
      modifies this`buckets, this`order, this`admitted
      ensures Valid() && hits == old(Hits(key))
      ensures orderly ==> ValidBucket(hits, old(History(key)), windowMs, maxAttempts, clock)
      ensures order == if old(key in buckets) then old(order) else Joined(old(order), key, maxBuckets)
      ensures forall k :: k in buckets && k != key ==> k in old(buckets) && buckets[k] == old(buckets[k])
      ensures forall k :: k in buckets && k != key ==> admitted[k] == old(admitted[k])
    {
      if key in buckets {
        hits := buckets[key];
        assert orderly ==> ValidBucket(buckets[key], admitted[key], windowMs, maxAttempts, clock);
      } else {
        hits := [];
        OpenBucket(key);
      }
    }

    ghost method Advance(now: int)
      requires Valid()
      modifies this`clock, this`orderly
      ensures Valid() && clock == now && orderly == old(orderly && clock <= now)
    {
      if orderly && clock <= now {
        AllValidLater(buckets, admitted, windowMs, maxAttempts, clock, now);
      }
      orderly := orderly && clock <= now;
      clock := now;
    }

    method Check(key: string, now: int) returns (ok: bool)
      requires Valid()
      modifies this
      ensures Valid() && clock == now && orderly == old(orderly && clock <= now)
      // decided by the key's own bucket, pruned from the front
      ensures ok <==> |Pruned(old(Hits(key)), now - windowMs)| < maxAttempts
      ensures key in buckets ==> buckets[key] == Pruned(old(Hits(key)), now - windowMs) + if ok then [now] else []
      // and so, while the clock does not go back, by what was admitted in the last window
      ensures orderly ==> (ok <==> Recent(old(History(key)), now - windowMs) < maxAttempts)
      ensures key in buckets ==> admitted[key] == old(History(key)) + if ok then [now] else []
      // a new key joins last; the key that joined first makes room, and nothing else is forgotten
      ensures order == if old(key in buckets) then old(order) else Joined(old(order), key, maxBuckets)
      ensures forall k :: k in buckets && k != key ==> k in old(buckets) && buckets[k] == old(buckets[k])
      ensures forall k :: k in buckets && k != key ==> admitted[k] == old(admitted[k])
    {
      ghost var history := History(key);
      var hits := Fetch(key);
      if orderly && clock <= now {
        ValidLater(hits, history, windowMs, maxAttempts, clock, now);
      }
      Advance(now);
      ok, hits := Judge(hits, now, history, orderly);
      Store(key, hits, if ok then history + [now] else history);
    }
  }
}
