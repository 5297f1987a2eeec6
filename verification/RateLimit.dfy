/** The sliding-window rate limit: per-key hits, their expiry, and the pruning of idle keys. */
module RateLimit {

  const KEYS := 10_000

  // The reference: a log that forgets nothing.

  datatype Hit = Hit(key: string, at: real)

  /** How many of the first `k` hits are `key`'s, later than `since` and not later than `upto`. */
  function Count(log: seq<Hit>, key: string, since: real, upto: real, k: nat): nat
    requires k <= |log|
  {
    if k == 0 then 0
    else Count(log, key, since, upto, k - 1) + if log[k - 1].key == key && since < log[k - 1].at <= upto then 1 else 0
  }

  /** Whether one more hit of `key` is within the limit, by the whole log. */
  predicate Free(log: seq<Hit>, key: string, count: nat, window: real, now: real) {
    Count(log, key, now - window, now, |log|) < count
  }

  /** Each of the first `k` hits was accepted with fewer than `count` of its key's in the window that ends with it. */
  ghost predicate Accepted(log: seq<Hit>, count: nat, window: real, k: nat)
    requires k <= |log|
  {
    k == 0 ||
    (Accepted(log, count, window, k - 1) &&
     Count(log, log[k - 1].key, log[k - 1].at - window, log[k - 1].at, k - 1) < count)
  }

  ghost predicate Ordered(log: seq<Hit>) {
    forall i, j :: 0 <= i <= j < |log| ==> log[i].at <= log[j].at
  }

  /** An interval of time, open or closed at each end. */
  datatype Window = Window(lo: real, hi: real, openLo: bool, openHi: bool)
  {
    predicate Has(at: real) {
      (if openLo then lo < at else lo <= at) && (if openHi then at < hi else at <= hi)
    }

    /** No longer than `window`, and open at one end at least. */
    predicate Within(window: real) {
      hi <= lo + window && (openLo || openHi)
    }
  }

  /** How many of the first `k` hits are `key`'s and in the window. */
  function CountIn(log: seq<Hit>, key: string, w: Window, k: nat): nat
    requires k <= |log|
  {
    if k == 0 then 0
    else CountIn(log, key, w, k - 1) + if log[k - 1].key == key && w.Has(log[k - 1].at) then 1 else 0
  }

  lemma {:induction false} CountedIn(log: seq<Hit>, key: string, w: Window, since: real, upto: real, k: nat)
    requires k <= |log| && forall i :: 0 <= i < k && w.Has(log[i].at) ==> since < log[i].at <= upto
    ensures CountIn(log, key, w, k) <= Count(log, key, since, upto, k)
  {
    if k > 0 {
      CountedIn(log, key, w, since, upto, k - 1);
    }
  }

  /** A window open at either end holds at most `count` accepted hits of one key. */
  lemma {:induction false} WindowHolds(log: seq<Hit>, count: nat, window: real, key: string, w: Window, k: nat)
    requires k <= |log| && Accepted(log, count, window, k) && Ordered(log) && w.Within(window)
    ensures CountIn(log, key, w, k) <= count
  {
    if k > 0 {
      WindowHolds(log, count, window, key, w, k - 1);
      var last := log[k - 1];
      if last.key == key && w.Has(last.at) {
        assert forall i :: 0 <= i < k - 1 ==> log[i].at <= last.at;
        CountedIn(log, key, w, last.at - window, last.at, k - 1);
      }
    }
  }

  lemma {:induction false} CountSplits(log: seq<Hit>, key: string, lo: real, hi: real, k: nat)
    requires k <= |log| && lo <= hi
    ensures CountIn(log, key, Window(lo, hi, false, false), k) ==
            CountIn(log, key, Window(lo, hi, false, true), k) + CountIn(log, key, Window(hi, hi, false, false), k)
  {
    if k > 0 {
      CountSplits(log, key, lo, hi, k - 1);
    }
  }

  lemma {:induction false} CountNarrows(log: seq<Hit>, key: string, w: Window, v: Window, k: nat)
    requires k <= |log| && forall i :: 0 <= i < k && log[i].key == key && w.Has(log[i].at) ==> v.Has(log[i].at)
    ensures CountIn(log, key, w, k) <= CountIn(log, key, v, k)
  {
    if k > 0 {
      CountNarrows(log, key, w, v, k - 1);
    }
  }

  /** A hit of `key` at this instant. */
  ghost predicate HitAt(log: seq<Hit>, key: string, at: real) {
    Hit(key, at) in log
  }

  /** A window closed at both ends holds at most twice `count`, and more than `count` only with hits at both its ends. */
  lemma ClosedWindowHolds(log: seq<Hit>, count: nat, window: real, key: string, since: real)
    requires Accepted(log, count, window, |log|) && Ordered(log) && window > 0.0
    ensures var n := CountIn(log, key, Window(since, since + window, false, false), |log|);
            n <= 2 * count && (n > count ==> HitAt(log, key, since) && HitAt(log, key, since + window))
  {
    var k, end := |log|, since + window;
    var closed := Window(since, end, false, false);
    CountSplits(log, key, since, end, k);
    WindowHolds(log, count, window, key, Window(since, end, false, true), k);
    CountNarrows(log, key, Window(end, end, false, false), Window(since, end, true, false), k);
    WindowHolds(log, count, window, key, Window(since, end, true, false), k);
    if !HitAt(log, key, since) {
      CountNarrows(log, key, closed, Window(since, end, true, false), k);
    }
    if !HitAt(log, key, end) {
      CountNarrows(log, key, closed, Window(since, end, false, true), k);
    }
  }

  // For every limit there is a log that reaches that bound: `count` hits at one instant and `count` a window later.

  ghost predicate Bursts(log: seq<Hit>, key: string, at: real, window: real, count: nat) {
    |log| == 2 * count && forall i :: 0 <= i < |log| ==> log[i] == Hit(key, if i < count then at else at + window)
  }

  lemma {:induction false} FirstBurst(log: seq<Hit>, key: string, at: real, window: real, count: nat, k: nat)
    requires Bursts(log, key, at, window, count) && window > 0.0 && k <= count
    ensures Count(log, key, at - window, at, k) == k
  {
    if k > 0 {
      FirstBurst(log, key, at, window, count, k - 1);
      assert log[k - 1] == Hit(key, at);
    }
  }

  lemma {:induction false} SecondBurst(log: seq<Hit>, key: string, at: real, window: real, count: nat, k: nat)
    requires Bursts(log, key, at, window, count) && window > 0.0 && k <= 2 * count
    ensures Count(log, key, at, at + window, k) == if k <= count then 0 else k - count
  {
    if k > 0 {
      SecondBurst(log, key, at, window, count, k - 1);
      assert log[k - 1] == Hit(key, if k - 1 < count then at else at + window);
    }
  }

  lemma {:induction false} BurstsAccepted(log: seq<Hit>, key: string, at: real, window: real, count: nat, k: nat)
    requires Bursts(log, key, at, window, count) && window > 0.0 && k <= 2 * count
    ensures Accepted(log, count, window, k) && CountIn(log, key, Window(at, at + window, false, false), k) == k
  {
    if k > 0 {
      BurstsAccepted(log, key, at, window, count, k - 1);
      assert log[k - 1] == Hit(key, if k - 1 < count then at else at + window);
      if k <= count {
        FirstBurst(log, key, at, window, count, k - 1);
      } else {
        SecondBurst(log, key, at, window, count, k - 1);
      }
    }
  }

  lemma ClosedWindowReached(key: string, at: real, window: real, count: nat) returns (log: seq<Hit>)
    requires window > 0.0
    ensures Ordered(log) && Accepted(log, count, window, |log|)
    ensures CountIn(log, key, Window(at, at + window, false, false), |log|) == 2 * count
  {
    log := seq(2 * count, i => Hit(key, if i < count then at else at + window));
    BurstsAccepted(log, key, at, window, count, 2 * count);
  }

  // The limiter's per-key hits against the log.

  /** `hits` are `key`'s among the first `k` of the log, without some at the front that are not later than `since`. */
  ghost predicate Tracks(hits: seq<real>, log: seq<Hit>, key: string, since: real, k: nat)
    requires k <= |log|
  {
    if k == 0 then hits == []
    else if log[k - 1].key != key then Tracks(hits, log, key, since, k - 1)
    else if hits == [] then log[k - 1].at <= since && Tracks([], log, key, since, k - 1)
    else hits[|hits| - 1] == log[k - 1].at && Tracks(hits[..|hits| - 1], log, key, since, k - 1)
  }

  lemma {:induction false} TracksPop(hits: seq<real>, log: seq<Hit>, key: string, since: real, k: nat)
    requires k <= |log| && Tracks(hits, log, key, since, k) && hits != [] && hits[0] <= since
    ensures Tracks(hits[1..], log, key, since, k)
  {
    if log[k - 1].key != key {
      TracksPop(hits, log, key, since, k - 1);
    } else if |hits| > 1 {
      TracksPop(hits[..|hits| - 1], log, key, since, k - 1);
      assert hits[..|hits| - 1][1..] == hits[1..][..|hits| - 2];
    }
  }

  lemma {:induction false} TracksLater(hits: seq<real>, log: seq<Hit>, key: string, since: real, later: real, k: nat)
    requires k <= |log| && Tracks(hits, log, key, since, k) && since <= later
    ensures Tracks(hits, log, key, later, k)
  {
    if k > 0 {
      if log[k - 1].key != key || hits == [] {
        TracksLater(hits, log, key, since, later, k - 1);
      } else {
        TracksLater(hits[..|hits| - 1], log, key, since, later, k - 1);
      }
    }
  }

  lemma {:induction false} TracksSame(hits: seq<real>, log: seq<Hit>, more: seq<Hit>, key: string, since: real, k: nat)
    requires k <= |log| && log <= more && Tracks(hits, log, key, since, k)
    ensures Tracks(hits, more, key, since, k)
  {
    if k > 0 {
      TracksSame(if log[k - 1].key != key || hits == [] then hits else hits[..|hits| - 1], log, more, key, since, k - 1);
    }
  }

  lemma {:induction false} TracksSorted(hits: seq<real>, log: seq<Hit>, key: string, since: real, k: nat)
    requires k <= |log| && Ordered(log) && Tracks(hits, log, key, since, k)
    ensures forall i :: 0 <= i < |hits| ==> hits[0] <= hits[i] <= hits[|hits| - 1] && hits[i] <= log[k - 1].at
  {
    if k > 0 {
      TracksSorted(if log[k - 1].key != key || hits == [] then hits else hits[..|hits| - 1], log, key, since, k - 1);
    }
  }

  /** When the hits kept are all in the window, there are as many as the log counts. */
  lemma {:induction false} TracksCount(hits: seq<real>, log: seq<Hit>, key: string, since: real, upto: real, k: nat)
    requires k <= |log| && Tracks(hits, log, key, since, k)
    requires forall i :: 0 <= i < |hits| ==> hits[i] > since
    requires forall i :: 0 <= i < k ==> log[i].at <= upto
    ensures Count(log, key, since, upto, k) == |hits|
  {
    if k > 0 {
      TracksCount(if log[k - 1].key != key || hits == [] then hits else hits[..|hits| - 1], log, key, since, upto, k - 1);
    }
  }

  lemma {:induction false} TracksNone(hits: seq<real>, log: seq<Hit>, key: string, since: real, k: nat)
    requires k <= |log| && Tracks(hits, log, key, since, k) && forall i :: 0 <= i < |hits| ==> hits[i] <= since
    ensures Tracks([], log, key, since, k)
    decreases |hits|
  {
    if hits != [] {
      TracksPop(hits, log, key, since, k);
      TracksNone(hits[1..], log, key, since, k);
    }
  }

  function Of(hits: map<string, seq<real>>, key: string): seq<real> {
    if key in hits then hits[key] else []
  }

  ghost predicate TracksKey(hits: map<string, seq<real>>, log: seq<Hit>, since: real, count: nat, key: string) {
    Tracks(Of(hits, key), log, key, since, |log|) && |Of(hits, key)| <= count
  }

  ghost predicate TracksAll(hits: map<string, seq<real>>, log: seq<Hit>, since: real, count: nat) {
    forall key :: TracksKey(hits, log, since, count, key)
  }

  lemma AllLater(hits: map<string, seq<real>>, log: seq<Hit>, since: real, later: real, count: nat)
    requires TracksAll(hits, log, since, count) && since <= later
    ensures TracksAll(hits, log, later, count)
  {
    forall key ensures TracksKey(hits, log, later, count, key) {
      assert TracksKey(hits, log, since, count, key);
      TracksLater(Of(hits, key), log, key, since, later, |log|);
    }
  }

  lemma AllSet(hits: map<string, seq<real>>, log: seq<Hit>, since: real, count: nat, key: string, own: seq<real>)
    requires TracksAll(hits, log, since, count) && Tracks(own, log, key, since, |log|) && |own| <= count
    ensures TracksAll(hits[key := own], log, since, count)
  {
    var after := hits[key := own];
    forall k ensures TracksKey(after, log, since, count, k) {
      assert TracksKey(hits, log, since, count, k);
    }
  }

  lemma AllAppend(hits: map<string, seq<real>>, log: seq<Hit>, since: real, count: nat, key: string, now: real)
    requires TracksAll(hits, log, since, count) && |Of(hits, key)| < count
    ensures TracksAll(hits[key := Of(hits, key) + [now]], log + [Hit(key, now)], since, count)
  {
    var more, after := log + [Hit(key, now)], hits[key := Of(hits, key) + [now]];
    forall k ensures TracksKey(after, more, since, count, k) {
      assert TracksKey(hits, log, since, count, k);
      TracksSame(Of(hits, k), log, more, k, since, |log|);
      assert (Of(hits, key) + [now])[..|Of(hits, key)|] == Of(hits, key);
    }
  }

  /** The keys with a hit still in the window. */
  function Pruned(hits: map<string, seq<real>>, since: real): map<string, seq<real>> {
    map key | key in hits && hits[key] != [] && hits[key][|hits[key]| - 1] > since :: hits[key]
  }

  /** No key is idle: each has a hit in the window. */
  ghost predicate Busy(hits: map<string, seq<real>>, since: real) {
    forall key :: key in hits ==> hits[key] != [] && hits[key][|hits[key]| - 1] > since
  }

  lemma AllPruned(hits: map<string, seq<real>>, log: seq<Hit>, since: real, count: nat)
    requires TracksAll(hits, log, since, count) && Ordered(log)
    ensures TracksAll(Pruned(hits, since), log, since, count)
  {
    forall key ensures TracksKey(Pruned(hits, since), log, since, count, key) {
      assert TracksKey(hits, log, since, count, key);
      if key !in Pruned(hits, since) {
        TracksSorted(Of(hits, key), log, key, since, |log|);
        TracksNone(Of(hits, key), log, key, since, |log|);
      }
    }
  }

  /** Pops the hits at the front that are no longer in the window. */
  method Expire(hits: seq<real>, since: real, ghost log: seq<Hit>, ghost key: string) returns (r: seq<real>)
    requires Tracks(hits, log, key, since, |log|) && Ordered(log)
    ensures Tracks(r, log, key, since, |log|) && |r| <= |hits|
    ensures forall i :: 0 <= i < |r| ==> r[i] > since
  {
    r := hits;
    while r != [] && r[0] <= since
      invariant Tracks(r, log, key, since, |log|) && |r| <= |hits|
    {
      TracksPop(r, log, key, since, |log|);
      r := r[1..];
    }
    TracksSorted(r, log, key, since, |log|);
  }

  /** A fair log with one more fair hit is fair. */
  lemma {:induction false} AcceptedSame(log: seq<Hit>, more: seq<Hit>, count: nat, window: real, k: nat)
    requires k <= |log| && log <= more && Accepted(log, count, window, k)
    ensures Accepted(more, count, window, k)
  {
    if k > 0 {
      AcceptedSame(log, more, count, window, k - 1);
      CountSame(log, more, log[k - 1].key, log[k - 1].at - window, log[k - 1].at, k - 1);
    }
  }

  lemma {:induction false} CountSame(log: seq<Hit>, more: seq<Hit>, key: string, since: real, upto: real, k: nat)
    requires k <= |log| && log <= more
    ensures Count(more, key, since, upto, k) == Count(log, key, since, upto, k)
  {
    if k > 0 {
      CountSame(log, more, key, since, upto, k - 1);
    }
  }

  /** The log of a limiter last checked at `last`. */
  ghost predicate Fair(log: seq<Hit>, count: nat, window: real, last: real) {
    Ordered(log) && Accepted(log, count, window, |log|) && forall i :: 0 <= i < |log| ==> log[i].at <= last
  }

  lemma FairNext(log: seq<Hit>, count: nat, window: real, last: real, key: string, now: real)
    requires Fair(log, count, window, last) && last <= now && Free(log, key, count, window, now)
    ensures Fair(log + [Hit(key, now)], count, window, now)
  {
    var more := log + [Hit(key, now)];
    AcceptedSame(log, more, count, window, |log|);
    CountSame(log, more, key, now - window, now, |log|);
    assert more[|log|] == Hit(key, now);
  }

  lemma {:induction false} TracksAtMost(hits: seq<real>, log: seq<Hit>, key: string, since: real, upto: real, k: nat)
    requires k <= |log| && Tracks(hits, log, key, since, k)
    ensures Count(log, key, since, upto, k) <= |hits|
  {
    if k > 0 {
      TracksAtMost(if log[k - 1].key != key || hits == [] then hits else hits[..|hits| - 1], log, key, since, upto, k - 1);
    }
  }

  /** Once the oldest hit kept has left the window, there is room for another. */
  lemma RoomLater(hits: seq<real>, log: seq<Hit>, key: string, since: real, count: nat, window: real, later: real)
    requires Tracks(hits, log, key, since, |log|) && 0 < |hits| <= count && since <= later - window
    requires hits[0] <= later - window
    ensures Free(log, key, count, window, later)
  {
    TracksLater(hits, log, key, since, later - window, |log|);
    TracksPop(hits, log, key, later - window, |log|);
    TracksAtMost(hits[1..], log, key, later - window, later, |log|);
  }

  lemma {:induction false} TracksAtLeast(hits: seq<real>, log: seq<Hit>, key: string, since: real, later: real, upto: real, k: nat)
    requires k <= |log| && Tracks(hits, log, key, since, k)
    requires forall i :: 0 <= i < |hits| ==> hits[i] > later
    requires forall i :: 0 <= i < k ==> log[i].at <= upto
    ensures Count(log, key, later, upto, k) >= |hits|
  {
    if k > 0 {
      TracksAtLeast(if log[k - 1].key != key || hits == [] then hits else hits[..|hits| - 1], log, key, since, later, upto, k - 1);
    }
  }

  /** Until the oldest hit kept has left the window, there is none. */
  lemma NoRoomBefore(hits: seq<real>, log: seq<Hit>, key: string, since: real, count: nat, window: real, later: real)
    requires Tracks(hits, log, key, since, |log|) && 0 < count <= |hits| && Ordered(log)
    requires hits[0] > later - window && forall i :: 0 <= i < |log| ==> log[i].at <= later
    ensures !Free(log, key, count, window, later)
  {
    TracksSorted(hits, log, key, since, |log|);
    TracksAtLeast(hits, log, key, since, later - window, later, |log|);
  }

  /** Whole seconds until the oldest hit kept has left the window. */
  function Retry(oldest: real, window: real, now: real): int {
    (oldest + window - now).Floor + 1
  }

  /** The first `k` checks that were accepted. */
  function Passed(checks: seq<Hit>, decisions: seq<bool>, k: nat): seq<Hit>
    requires k <= |checks| && k <= |decisions|
  {
    if k == 0 then [] else Passed(checks, decisions, k - 1) + if decisions[k - 1] then [checks[k - 1]] else []
  }

  lemma {:induction false} PassedSame(checks: seq<Hit>, decisions: seq<bool>, more: seq<bool>, k: nat)
    requires k <= |checks| && k <= |decisions| && decisions <= more
    ensures Passed(checks, decisions, k) == Passed(checks, more, k)
  {
    if k > 0 {
      PassedSame(checks, decisions, more, k - 1);
    }
  }

  /** Each of the first `k` checks is decided by the whole log before it. */
  ghost predicate Decided(log: seq<Hit>, checks: seq<Hit>, decisions: seq<bool>, count: nat, window: real, k: nat)
    requires k <= |checks| && k <= |decisions|
  {
    k == 0 ||
    (Decided(log, checks, decisions, count, window, k - 1) &&
     decisions[k - 1] == Free(log + Passed(checks, decisions, k - 1), checks[k - 1].key, count, window, checks[k - 1].at))
  }

  lemma {:induction false} DecidedSame(log: seq<Hit>, checks: seq<Hit>, decisions: seq<bool>, more: seq<bool>, count: nat,
                                       window: real, k: nat)
    requires k <= |checks| && k <= |decisions| && decisions <= more && Decided(log, checks, decisions, count, window, k)
    ensures Decided(log, checks, more, count, window, k)
  {
    if k > 0 {
      DecidedSame(log, checks, decisions, more, count, window, k - 1);
      PassedSame(checks, decisions, more, k - 1);
    }
  }

  class Limit {
    const count: nat
    const window: real
    var hits: map<string, seq<real>>
    ghost var log: seq<Hit>
    ghost var last: real

    /** Every key's hits are tracked up to the last check, and the log is fair. */
    ghost predicate Valid()
      reads this
    {
      count > 0 && window >= 0.0 && Fair(log, count, window, last) && TracksAll(hits, log, last - window, count)
    }

    constructor (count: nat, window: real, start: real)
      requires count > 0 && window >= 0.0
      ensures Valid() && this.count == count && this.window == window && log == [] && last == start
    {
      this.count, this.window, hits, log, last := count, window, map[], [], start;
    }

    /** Whatever was popped or pruned, a hit is accepted exactly when the whole log has fewer than `count` of its
        key's in the window that ends now; one that is refused finds room from the time it is told on, unless others are
        accepted, and would not have found any more than a second sooner. */
    method Check(key: string, now: real) returns (accepted: bool, retry: int)
      requires Valid() && now >= last
      modifies this
      ensures Valid() && last == now
      ensures accepted <==> Free(old(log), key, count, window, now)
      ensures log == if accepted then old(log) + [Hit(key, now)] else old(log)
      ensures accepted && |hits| > KEYS ==> Busy(hits, now - window)
      ensures !accepted ==> retry >= 1
      ensures !accepted ==> forall later :: later >= now + retry as real ==> Free(log, key, count, window, later)
      ensures !accepted ==> forall later :: now <= later < now + (retry - 1) as real ==> !Free(log, key, count, window, later)
    {
      var since := now - window;
      AllLater(hits, log, last - window, since, count);
      assert TracksKey(hits, log, since, count, key);
      var own := Expire(Of(hits, key), since, log, key);
      AllSet(hits, log, since, count, key, own);
      TracksCount(own, log, key, since, now, |log|);
      hits := hits[key := own];
      if |own| >= count {
        last := now;
        accepted, retry := false, Retry(own[0], window, now);
        forall later | later >= now + retry as real ensures Free(log, key, count, window, later) {
          RoomLater(own, log, key, since, count, window, later);
        }
        forall later | now <= later < now + (retry - 1) as real ensures !Free(log, key, count, window, later) {
          NoRoomBefore(own, log, key, since, count, window, later);
        }
        return;
      }
      accepted, retry := true, 0;
      FairNext(log, count, window, last, key, now);
      Record(key, own, now);
    }

    /** Over any checks from the first, each decided by the whole log, no window open at either end ever holds more than
        `count` accepted hits of a key. */
    method Run(checks: seq<Hit>) returns (decisions: seq<bool>)
      requires Valid() && Ordered(checks) && forall i :: 0 <= i < |checks| ==> last <= checks[i].at
      modifies this
      ensures Valid() && |decisions| == |checks| && log == old(log) + Passed(checks, decisions, |checks|)
      ensures Decided(old(log), checks, decisions, count, window, |checks|)
      ensures forall key, w: Window :: w.Within(window) ==> CountIn(log, key, w, |log|) <= count
    {
      decisions := [];
      for i := 0 to |checks|
        invariant Valid() && |decisions| == i && forall j :: i <= j < |checks| ==> last <= checks[j].at
        invariant log == old(log) + Passed(checks, decisions, i)
        invariant Decided(old(log), checks, decisions, count, window, i)
      {
        var accepted, _ := Check(checks[i].key, checks[i].at);
        PassedSame(checks, decisions, decisions + [accepted], i);
        DecidedSame(old(log), checks, decisions, decisions + [accepted], count, window, i);
        decisions := decisions + [accepted];
      }
      forall key, w: Window | w.Within(window) ensures CountIn(log, key, w, |log|) <= count {
        WindowHolds(log, count, window, key, w, |log|);
      }
    }

    /** Adds an accepted hit, and drops the idle keys of an overfull table. */
    method Record(key: string, own: seq<real>, now: real)
      requires TracksAll(hits, log, now - window, count) && key in hits && hits[key] == own && |own| < count
      requires Fair(log + [Hit(key, now)], count, window, now)
      modifies this
      ensures log == old(log) + [Hit(key, now)] && last == now
      ensures |hits| > KEYS ==> Busy(hits, now - window)
      ensures Fair(log, count, window, last) && TracksAll(hits, log, last - window, count)
    {
      AllAppend(hits, log, now - window, count, key, now);
      hits := hits[key := own + [now]];
      log := log + [Hit(key, now)];
      last := now;
      if |hits| > KEYS {
        AllPruned(hits, log, now - window, count);
        hits := Pruned(hits, now - window);
      }
    }
  }
}
