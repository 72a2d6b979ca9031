/**
 * The request bucket both rate limiters keep: a queue of instants (milliseconds),
 * oldest first, from which expired entries are popped at the front only.
 */
module Bucket {

  /** `now.duration_since(t)`: the time elapsed since `t`, zero when `t` is not yet reached. */
  function Age(now: nat, t: nat): nat
  {
    if now >= t then now - t else 0
  }

  /** An entry has expired when it is strictly older than the bucket length. */
  predicate Expired(now: nat, bucketLength: nat, t: nat)
  {
    Age(now, t) > bucketLength
  }

  /**
   * The bucket after the clean loop: front entries are popped while they are
   * expired, and popping stops at the first entry that is not.
   */
  function Cleaned(requests: seq<nat>, bucketLength: nat, now: nat): (r: seq<nat>)
    ensures |r| <= |requests|
    ensures r != [] ==> !Expired(now, bucketLength, r[0])
    decreases |requests|
  {
    if requests != [] && Expired(now, bucketLength, requests[0]) then
      Cleaned(requests[1..], bucketLength, now)
    else
      requests
  }

  /** What the clean loop leaves is a suffix of the bucket, and everything before it had expired. */
  lemma {:induction false} CleanedSuffix(requests: seq<nat>, bucketLength: nat, now: nat)
    ensures var r := Cleaned(requests, bucketLength, now);
      && r == requests[|requests| - |r|..]
      && forall i :: 0 <= i < |requests| - |r| ==> Expired(now, bucketLength, requests[i])
    decreases |requests|
  {
    if requests != [] && Expired(now, bucketLength, requests[0]) {
      CleanedSuffix(requests[1..], bucketLength, now);
    }
  }

  /** Cleaning twice at the same instant removes nothing more. */
  lemma CleanedIdempotent(requests: seq<nat>, bucketLength: nat, now: nat)
    ensures Cleaned(Cleaned(requests, bucketLength, now), bucketLength, now) == Cleaned(requests, bucketLength, now)
  {
  }

  /** An entry exactly `bucketLength` old is not expired, so it stops the clean loop. */
  lemma BoundaryEntryKept(requests: seq<nat>, bucketLength: nat, now: nat)
    requires requests != [] && Age(now, requests[0]) == bucketLength
    ensures Cleaned(requests, bucketLength, now) == requests
  {
  }

  /**
   * Cleaning at an earlier instant and then at a later one is the same as
   * cleaning once at the later instant: what expired earlier stays expired.
   */
  lemma {:induction false} CleanedLater(requests: seq<nat>, bucketLength: nat, earlier: nat, later: nat)
    requires earlier <= later
    ensures Cleaned(Cleaned(requests, bucketLength, earlier), bucketLength, later) == Cleaned(requests, bucketLength, later)
    decreases |requests|
  {
    if requests != [] && Expired(earlier, bucketLength, requests[0]) {
      assert Expired(later, bucketLength, requests[0]);
      CleanedLater(requests[1..], bucketLength, earlier, later);
    }
  }

  /** Non-decreasing order: the order in which a monotonic clock stamps entries. */
  predicate Sorted(s: seq<nat>)
  {
    forall i, j :: 0 <= i <= j < |s| ==> s[i] <= s[j]
  }

  /** Number of entries of `s` that lie in the closed window [t - length, t]. */
  function WindowCount(s: seq<nat>, t: int, length: nat): (n: nat)
    ensures n <= |s|
  {
    if s == [] then 0
    else (if t - length <= s[|s| - 1] <= t then 1 else 0) + WindowCount(s[..|s| - 1], t, length)
  }

  lemma {:induction false} WindowCountAppend(a: seq<nat>, b: seq<nat>, t: int, length: nat)
    ensures WindowCount(a + b, t, length) == WindowCount(a, t, length) + WindowCount(b, t, length)
    decreases |b|
  {
    if b == [] {
      assert a + b == a;
    } else {
      assert (a + b)[..|a + b| - 1] == a + b[..|b| - 1];
      WindowCountAppend(a, b[..|b| - 1], t, length);
    }
  }

  /** A window that lies after every entry, or that no entry reaches, counts nothing. */
  lemma {:induction false} WindowCountNone(s: seq<nat>, t: int, length: nat)
    requires forall i :: 0 <= i < |s| ==> !(t - length <= s[i] <= t)
    ensures WindowCount(s, t, length) == 0
    decreases |s|
  {
    if s != [] {
      WindowCountNone(s[..|s| - 1], t, length);
    }
  }

  /** A window holding every entry counts them all. */
  lemma {:induction false} WindowCountAll(s: seq<nat>, t: int, length: nat)
    requires forall i :: 0 <= i < |s| ==> t - length <= s[i] <= t
    ensures WindowCount(s, t, length) == |s|
    decreases |s|
  {
    if s != [] {
      WindowCountAll(s[..|s| - 1], t, length);
    }
  }

  /** Appending an entry later than `t` leaves the window ending at `t` unchanged. */
  lemma WindowCountAppendLater(s: seq<nat>, x: nat, t: int, length: nat)
    requires t < x
    ensures WindowCount(s + [x], t, length) == WindowCount(s, t, length)
  {
    assert (s + [x])[..|s + [x]| - 1] == s;
  }
}
