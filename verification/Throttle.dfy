/** The login throttle: too many failures within a window lock an address out. */
module Throttle {

  // ---------------------------------------------------------------- what the throttle promises

  ghost predicate Sorted(log: seq<real>) {
    forall i, j :: 0 <= i < j < |log| ==> log[i] <= log[j]
  }

  /** The last `limit` failures all happened within the window before now. */
  predicate Locked(log: seq<real>, limit: nat, window: real, now: real)
    requires limit >= 1
  {
    |log| >= limit && now - log[|log| - limit] <= window
  }

  predicate LockedAfter(log: seq<real>, limit: nat, window: real, now: real, seconds: nat)
    requires limit >= 1
  {
    Locked(log, limit, window, now + seconds as real)
  }

  /** Failures that are `limit` apart in the log are more than a window apart in time. */
  ghost predicate Spaced(log: seq<real>, limit: nat, window: real) {
    forall i, j :: 0 <= i && i + limit == j < |log| ==> log[j] - log[i] > window
  }

  /** The failures within a closed interval. */
  function Within(log: seq<real>, from: real, to: real): set<nat> {
    set i: nat | i < |log| && from <= log[i] <= to
  }

  lemma {:induction false} SmallSpan(s: set<nat>, first: nat, count: nat)
    requires forall i :: i in s ==> first <= i < first + count
    ensures |s| <= count
    decreases count
  {
    if count > 0 {
      var last := first + count - 1;
      SmallSpan(s - {last}, first, count - 1);
      assert s <= (s - {last}) + {last};
      assert |s| <= |s - {last}| + 1 by {
        if last in s {
          assert s == (s - {last}) + {last};
        } else {
          assert s == s - {last};
        }
      }
    } else {
      assert s == {};
    }
  }

  lemma Least(s: set<nat>) returns (least: nat)
    requires s != {}
    ensures least in s && forall i :: i in s ==> least <= i
    decreases s
  {
    var some :| some in s;
    var below := set j | j in s && j < some;
    if below == {} {
      least := some;
      forall i | i in s ensures least <= i { assert i !in below; }
    } else {
      assert some !in below;
      least := Least(below);
      forall i | i in s ensures least <= i { assert i >= some || i in below; }
    }
  }

  lemma FarApart(log: seq<real>, limit: nat, window: real)
    requires Sorted(log) && Spaced(log, limit, window)
    ensures forall a, b :: 0 <= a && a + limit <= b < |log| ==> log[b] - log[a] > window
  {
    forall a, b | 0 <= a && a + limit <= b < |log| ensures log[b] - log[a] > window {
      assert log[a + limit] - log[a] > window;
    }
  }

  /** If failures are spaced, no closed interval as long as the window holds more than `limit` of them. */
  lemma SpacedIsBounded(log: seq<real>, limit: nat, window: real, from: real)
    requires Sorted(log) && Spaced(log, limit, window)
    ensures |Within(log, from, from + window)| <= limit
  {
    var here := Within(log, from, from + window);
    if here != {} {
      var first := Least(here);
      FarApart(log, limit, window);
      SmallSpan(here, first, limit);
    }
  }

  /** One more failure leaves the log spaced exactly if it is recorded while not locked. */
  lemma SpacedStep(log: seq<real>, limit: nat, window: real, now: real)
    requires limit >= 1 && Spaced(log, limit, window)
    ensures Spaced(log + [now], limit, window) <==> !Locked(log, limit, window, now)
  {
    var more := log + [now];
    if |log| >= limit {
      assert more[|log|] - more[|log| - limit] == now - log[|log| - limit];
    }
  }

  /** Who is not locked out does not become so by waiting. */
  lemma StaysUnlocked(log: seq<real>, limit: nat, window: real, now: real, later: real)
    requires limit >= 1 && now <= later && !Locked(log, limit, window, now)
    ensures !Locked(log, limit, window, later)
  {}

  // ---------------------------------------------------------------- the throttle

  /** What is left of the attempts when those older than the window are dropped. */
  function Recent(attempts: seq<real>, window: real, now: real): seq<real> {
    if attempts != [] && now - attempts[0] > window then Recent(attempts[1..], window, now) else attempts
  }

  /** The attempts remembered are the end of the log; what was forgotten is older than the window, by now and for
      ever. */
  ghost predicate Remembers(attempts: seq<real>, log: seq<real>, window: real, clock: real) {
    && |attempts| <= |log| && attempts == log[|log| - |attempts|..]
    && (forall i :: 0 <= i < |log| - |attempts| ==> clock - log[i] > window)
    && Sorted(log) && (forall i :: 0 <= i < |log| ==> log[i] <= clock)
  }

  lemma {:induction false} RecentRemembers(attempts: seq<real>, log: seq<real>, window: real, clock: real, now: real)
    requires Remembers(attempts, log, window, clock) && clock <= now
    ensures Remembers(Recent(attempts, window, now), log, window, now)
    ensures var r := Recent(attempts, window, now); r != [] ==> now - r[0] <= window
    decreases |attempts|
  {
    assert Remembers(attempts, log, window, now);
    if attempts != [] && now - attempts[0] > window {
      assert attempts[1..] == log[|log| - |attempts| + 1..];
      assert attempts[0] == log[|log| - |attempts|];
      RecentRemembers(attempts[1..], log, window, now, now);
    }
  }

  lemma RemembersMore(attempts: seq<real>, log: seq<real>, window: real, now: real)
    requires Remembers(attempts, log, window, now)
    ensures Remembers(attempts + [now], log + [now], window, now)
  {
    var more := log + [now];
    assert more[|more| - |attempts + [now]|..] == log[|log| - |attempts|..] + [now];
  }

  // ---------------------------------------------------------------- all keys

  type Times = map<string, seq<real>>

  /** A missing key has no entries (`defaultdict`). */
  function Of(times: Times, key: string): seq<real> {
    if key in times then times[key] else []
  }

  ghost predicate KeyRemembered(failures: Times, log: Times, key: string, window: real, clock: real) {
    Remembers(Of(failures, key), Of(log, key), window, clock)
  }

  ghost predicate KeySpaced(log: Times, key: string, limit: nat, window: real) {
    Spaced(Of(log, key), limit, window)
  }

  ghost predicate AllRemembered(failures: Times, log: Times, window: real, clock: real) {
    forall key :: KeyRemembered(failures, log, key, window, clock)
  }

  ghost predicate AllSpaced(log: Times, limit: nat, window: real) {
    forall key :: KeySpaced(log, key, limit, window)
  }

  lemma SameForKey(f: Times, l: Times, g: Times, m: Times, key: string, window: real, clock: real)
    requires KeyRemembered(f, l, key, window, clock) && Of(g, key) == Of(f, key) && Of(m, key) == Of(l, key)
    ensures KeyRemembered(g, m, key, window, clock)
  {
    assert KeyRemembered(g, m, key, window, clock) == Remembers(Of(f, key), Of(l, key), window, clock);
  }

  lemma RememberedLater(f: Times, l: Times, key: string, window: real, clock: real, now: real)
    requires KeyRemembered(f, l, key, window, clock) && clock <= now
    ensures KeyRemembered(f, l, key, window, now)
  {}

  lemma PruneKeepsRecord(failures: Times, log: Times, window: real, clock: real, key: string, now: real, next: Times)
    requires AllRemembered(failures, log, window, clock) && clock <= now
    requires next == failures[key := Recent(Of(failures, key), window, now)]
    ensures AllRemembered(next, log, window, now)
    ensures var r := Recent(Of(failures, key), window, now); r != [] ==> now - r[0] <= window
  {
    assert KeyRemembered(failures, log, key, window, clock);
    RecentRemembers(Of(failures, key), Of(log, key), window, clock, now);
    forall k ensures KeyRemembered(next, log, k, window, now) {
      if k == key {
        assert KeyRemembered(next, log, k, window, now) ==
               Remembers(Recent(Of(failures, key), window, now), Of(log, key), window, now);
      } else {
        assert KeyRemembered(failures, log, k, window, clock);
        RememberedLater(failures, log, k, window, clock, now);
        SameForKey(failures, log, next, log, k, window, now);
      }
    }
  }

  lemma FailureKeepsRecord(failures: Times, log: Times, window: real, key: string, now: real)
    requires AllRemembered(failures, log, window, now)
    ensures AllRemembered(failures[key := Of(failures, key) + [now]], log[key := Of(log, key) + [now]], window, now)
  {
    var f, l := failures[key := Of(failures, key) + [now]], log[key := Of(log, key) + [now]];
    forall k ensures KeyRemembered(f, l, k, window, now) {
      assert KeyRemembered(failures, log, k, window, now);
      if k == key {
        RemembersMore(Of(failures, key), Of(log, key), window, now);
      } else {
        assert Of(f, k) == Of(failures, k) && Of(l, k) == Of(log, k);
      }
    }
  }

  lemma FailureSpaces(log: Times, limit: nat, window: real, key: string, now: real)
    requires limit >= 1 && AllSpaced(log, limit, window)
    ensures AllSpaced(log[key := Of(log, key) + [now]], limit, window) <==> !Locked(Of(log, key), limit, window, now)
  {
    var l := log[key := Of(log, key) + [now]];
    assert KeySpaced(log, key, limit, window);
    SpacedStep(Of(log, key), limit, window, now);
    assert KeySpaced(l, key, limit, window) == Spaced(Of(log, key) + [now], limit, window);
    forall k | k != key ensures KeySpaced(l, k, limit, window) {
      assert KeySpaced(log, k, limit, window) && Of(l, k) == Of(log, k);
    }
  }

  lemma NothingRemembered(f: Times, l: Times, key: string, window: real, clock: real)
    requires Of(f, key) == [] && Of(l, key) == []
    ensures KeyRemembered(f, l, key, window, clock)
  {}

  lemma OthersStay(f: Times, key: string, k: string)
    ensures Of(f - {key}, k) == if k == key then [] else Of(f, k)
  {}

  lemma ForgottenKey(f: Times, l: Times, window: real, key: string, clock: real)
    ensures KeyRemembered(f - {key}, l - {key}, key, window, clock)
  {
    OthersStay(f, key, key);
    OthersStay(l, key, key);
    NothingRemembered(f - {key}, l - {key}, key, window, clock);
  }

  lemma OtherKey(f: Times, l: Times, window: real, key: string, clock: real, k: string)
    requires k != key && KeyRemembered(f, l, k, window, clock)
    ensures KeyRemembered(f - {key}, l - {key}, k, window, clock)
  {
    OthersStay(f, key, k);
    OthersStay(l, key, k);
    SameForKey(f, l, f - {key}, l - {key}, k, window, clock);
  }

  lemma SuccessKeepsRecord(failures: Times, log: Times, window: real, key: string, clock: real)
    requires AllRemembered(failures, log, window, clock)
    ensures AllRemembered(failures - {key}, log - {key}, window, clock)
  {
    ForgottenKey(failures, log, window, key, clock);
    forall k | k != key ensures KeyRemembered(failures - {key}, log - {key}, k, window, clock) {
      assert KeyRemembered(failures, log, k, window, clock);
      OtherKey(failures, log, window, key, clock, k);
    }
  }

  lemma SuccessSpaces(log: Times, limit: nat, window: real, key: string)
    requires AllSpaced(log, limit, window)
    ensures AllSpaced(log - {key}, limit, window)
  {
    forall k ensures KeySpaced(log - {key}, k, limit, window) {
      assert KeySpaced(log, k, limit, window);
      assert k != key ==> Of(log - {key}, k) == Of(log, k);
    }
  }

  class LoginThrottle {
    const maxFailures: nat
    const window: real
    var failures: Times
    /** All failures of a key since its last success, and the time. */
    ghost var log: Times
    ghost var clock: real

    /** What is remembered of each key is the end of its log, without what is too old to matter. */
    ghost predicate Recorded()
      reads this
    {
      maxFailures >= 1 && window >= 0.0 && AllRemembered(failures, log, window, clock)
    }

    /** Moreover, failures are recorded only by logins that were let through. */
    ghost predicate Valid()
      reads this
    {
      Recorded() && AllSpaced(log, maxFailures, window)
    }

    constructor (maxFailures: nat, window: real, now: real)
      requires maxFailures >= 1 && window >= 0.0
      ensures Valid() && this.maxFailures == maxFailures && this.window == window
      ensures clock == now && log == map[]
    {
      this.maxFailures, this.window, failures, log, clock := maxFailures, window, map[], map[], now;
    }

    method PopOld(times: seq<real>, now: real) returns (attempts: seq<real>)
      ensures attempts == Recent(times, window, now)
    {
      attempts := times;
      while attempts != [] && now - attempts[0] > window
        invariant Recent(attempts, window, now) == Recent(times, window, now)
        decreases |attempts|
      {
        attempts := attempts[1..];
      }
    }

    /** Forgets the attempts of a key that are older than the window. */
    method Prune(key: string, now: real) returns (attempts: seq<real>)
      requires Recorded() && now >= clock
      modifies `failures, `clock
      ensures Recorded() && clock == now
      ensures attempts == Recent(old(Of(failures, key)), window, now)
      ensures failures == old(failures)[key := attempts]
      ensures attempts != [] ==> now - attempts[0] <= window
    {
      attempts := PopOld(Of(failures, key), now);
      failures, clock := failures[key := attempts], now;
      PruneKeepsRecord(old(failures), log, window, old(clock), key, now, failures);
    }

    /** 0 unless the key is locked out; else the least number of seconds after which it no longer is. */
    method RetryAfter(key: string, now: real) returns (wait: nat)
      requires Valid() && now >= clock
      modifies `failures, `clock
      ensures Valid() && clock == now
      ensures wait == 0 <==> !Locked(Of(log, key), maxFailures, window, now)
      ensures !LockedAfter(Of(log, key), maxFailures, window, now, wait)
      ensures forall n: nat :: n < wait ==> LockedAfter(Of(log, key), maxFailures, window, now, n)
    {
      var attempts := Prune(key, now);
      assert KeyRemembered(failures, log, key, window, now) && KeySpaced(log, key, maxFailures, window);
      LockedByAttempts(attempts, Of(log, key), maxFailures, window, now);
      if |attempts| < maxFailures {
        return 0;
      }
      var rest := window - (now - attempts[0]);
      assert rest.Floor as real <= rest < rest.Floor as real + 1.0;
      return rest.Floor + 1;
    }

    /** Records a failure, at any time. The bound is kept exactly if the key is not locked at this moment. */
    method Failure(key: string, now: real)
      requires Recorded() && now >= clock
      modifies this
      ensures Recorded() && clock == now
      ensures log == old(log)[key := old(Of(log, key)) + [now]]
      ensures old(Valid()) ==> Valid() == !Locked(old(Of(log, key)), maxFailures, window, now)
    {
      var attempts := Prune(key, now);
      FailureKeepsRecord(failures, log, window, key, now);
      if AllSpaced(log, maxFailures, window) {
        FailureSpaces(log, maxFailures, window, key, now);
      }
      failures, log := failures[key := attempts + [now]], log[key := Of(log, key) + [now]];
    }

    /** Forgets the failures of a key. */
    method Success(key: string)
      requires Valid()
      modifies this
      ensures Valid() && clock == old(clock) && log == old(log) - {key}
    {
      SuccessKeepsRecord(failures, log, window, key, clock);
      SuccessSpaces(log, maxFailures, window, key);
      failures := failures - {key};
      log := log - {key};
    }

    /** A login attempt. passed: the password is right; later: the time after the password has been looked at. While
        locked, the attempt is refused without looking at the password. */
    method Login(key: string, passed: bool, now: real, later: real) returns (wait: nat, accepted: bool)
      requires Valid() && clock <= now <= later
      modifies this
      ensures Valid() && clock == if wait == 0 && !passed then later else now
      ensures wait > 0 <==> Locked(old(Of(log, key)), maxFailures, window, now)
      ensures accepted <==> wait == 0 && passed
      ensures wait > 0 ==> unchanged(`log)
      ensures accepted ==> log == old(log) - {key}
      ensures wait == 0 && !passed ==> log == old(log)[key := old(Of(log, key)) + [later]]
    {
      wait := RetryAfter(key, now);
      if wait > 0 {
        return wait, false;
      }
      if !passed {
        StaysUnlocked(Of(log, key), maxFailures, window, now, later);
        Failure(key, later);
        return 0, false;
      }
      Success(key);
      return 0, true;
    }

    /** At any time, whatever was attempted: no interval as long as the window holds more than the allowed failures. */
    lemma Bounded(key: string, from: real)
      requires Valid()
      ensures |Within(Of(log, key), from, from + window)| <= maxFailures
    {
      assert KeyRemembered(failures, log, key, window, clock) && KeySpaced(log, key, maxFailures, window);
      SpacedIsBounded(Of(log, key), maxFailures, window, from);
    }
  }

  /** Counting the attempts in memory tells whether the log is locked, and which failure to wait for. */
  lemma LockedByAttempts(attempts: seq<real>, log: seq<real>, limit: nat, window: real, now: real)
    requires limit >= 1 && Remembers(attempts, log, window, now) && Spaced(log, limit, window)
    requires attempts != [] ==> now - attempts[0] <= window
    ensures |attempts| <= limit
    ensures |attempts| < limit <==> !Locked(log, limit, window, now)
    ensures |attempts| == limit ==> attempts[0] == log[|log| - limit]
  {
    if attempts != [] {
      SpacedFrom(log, limit, window, |log| - |attempts|);
    }
  }

  lemma SpacedFrom(log: seq<real>, limit: nat, window: real, a: nat)
    requires Spaced(log, limit, window) && a < |log|
    ensures a + limit < |log| ==> log[a + limit] - log[a] > window
  {}
}
