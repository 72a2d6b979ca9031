/**
 * The older shared-bucket rate limiter. Each acquire cleans the bucket, then
 * either admits the request at once or sleeps until the oldest entry leaves
 * the window and tries again; telegram acquires are further gated on the time
 * of the last telegram and of the last recruitment telegram.
 *
 * Time is explicit: each operation receives the instant at which it starts
 * (milliseconds) and a sleep advances that instant. The ghost log `sent` holds
 * every instant the limiter has admitted, and the invariant states the
 * guarantee the limiter exists for: no window of `bucketLength` contains more
 * than `maxRequests` admitted requests.
 */
module UtilsRatelimiter {
  import opened Wrappers
  import opened Bucket

  /**
   * The bucket invariant on plain values: the bucket is in clock order, holds
   * no instant later than the clock and never more than `maxRequests`
   * entries; for every window that ends at or after the clock it counts
   * exactly what the log of admitted instants counts; and every window of
   * `bucketLength` holds at most `maxRequests` admitted instants.
   */
  ghost predicate Inv(sent: seq<nat>, requests: seq<nat>, clock: nat, bucketLength: nat, maxRequests: nat)
  {
    && Sorted(requests)
    && (forall i :: 0 <= i < |requests| ==> requests[i] <= clock)
    && |requests| <= maxRequests
    && (forall t: int :: t >= clock ==> WindowCount(sent, t, bucketLength) == WindowCount(requests, t, bucketLength))
    && (forall t: int :: WindowCount(sent, t, bucketLength) <= maxRequests)
  }

  /** Cleaning at instant 0 pops nothing: no entry can be older than that. */
  lemma CleanedAtZero(requests: seq<nat>, bucketLength: nat)
    ensures Cleaned(requests, bucketLength, 0) == requests
  {
  }

  /** The entries the clean loop pops at `now` lie in no window ending at or after `now`. */
  lemma PoppedOutsideWindows(requests: seq<nat>, bucketLength: nat, now: nat, t: int)
    requires now <= t
    ensures var gone := requests[..|requests| - |Cleaned(requests, bucketLength, now)|];
      WindowCount(gone, t, bucketLength) == 0
  {
    var kept := Cleaned(requests, bucketLength, now);
    CleanedSuffix(requests, bucketLength, now);
    var gone := requests[..|requests| - |kept|];
    forall i | 0 <= i < |gone|
      ensures !(t - bucketLength <= gone[i] <= t)
    {
      assert Expired(now, bucketLength, requests[i]);
    }
    WindowCountNone(gone, t, bucketLength);
  }

  /** The entries the clean loop keeps at `now` all lie in the window ending at `now`. */
  lemma KeptInsideWindow(requests: seq<nat>, clock: nat, bucketLength: nat, now: nat)
    requires Sorted(requests)
    requires forall i :: 0 <= i < |requests| ==> requests[i] <= clock
    requires clock <= now
    ensures var kept := Cleaned(requests, bucketLength, now);
      WindowCount(kept, now, bucketLength) == |kept|
  {
    var kept := Cleaned(requests, bucketLength, now);
    CleanedSuffix(requests, bucketLength, now);
    var k := |requests| - |kept|;
    forall i | 0 <= i < |kept|
      ensures now - bucketLength <= kept[i] <= now
    {
      assert kept[0] == requests[k] && kept[i] == requests[k + i];
      assert requests[k] <= requests[k + i];
    }
    WindowCountAll(kept, now, bucketLength);
  }

  /**
   * For a window ending at or after `now`, the bucket counts what its cleaned
   * version counts; for the window ending at `now` that is every kept entry.
   */
  lemma CleanedSplit(requests: seq<nat>, clock: nat, bucketLength: nat, now: nat, t: int)
    requires Sorted(requests)
    requires forall i :: 0 <= i < |requests| ==> requests[i] <= clock
    requires clock <= now <= t
    ensures var kept := Cleaned(requests, bucketLength, now);
      && WindowCount(requests, t, bucketLength) == WindowCount(kept, t, bucketLength)
      && WindowCount(requests, now, bucketLength) == |kept|
  {
    var kept := Cleaned(requests, bucketLength, now);
    CleanedSuffix(requests, bucketLength, now);
    var gone := requests[..|requests| - |kept|];
    assert requests == gone + kept;
    PoppedOutsideWindows(requests, bucketLength, now, t);
    PoppedOutsideWindows(requests, bucketLength, now, now);
    KeptInsideWindow(requests, clock, bucketLength, now);
    WindowCountAppend(gone, kept, t, bucketLength);
    WindowCountAppend(gone, kept, now, bucketLength);
  }

  /**
   * After cleaning at `now`, the bucket holds exactly as many entries as the
   * log has admitted instants inside the window ending at `now`.
   */
  lemma CleanedCountsWindow(sent: seq<nat>, requests: seq<nat>, clock: nat, bucketLength: nat,
                            maxRequests: nat, now: nat)
    requires Inv(sent, requests, clock, bucketLength, maxRequests)
    requires clock <= now
    ensures |Cleaned(requests, bucketLength, now)| == WindowCount(sent, now, bucketLength)
  {
    CleanedSplit(requests, clock, bucketLength, now, now);
  }

  /** Cleaning the bucket at a later instant keeps the invariant, with the clock moved on. */
  lemma CleanKeepsInv(sent: seq<nat>, requests: seq<nat>, clock: nat, bucketLength: nat,
                      maxRequests: nat, now: nat)
    requires Inv(sent, requests, clock, bucketLength, maxRequests)
    requires clock <= now
    ensures Inv(sent, Cleaned(requests, bucketLength, now), now, bucketLength, maxRequests)
  {
    var kept := Cleaned(requests, bucketLength, now);
    CleanedSuffix(requests, bucketLength, now);
    var k := |requests| - |kept|;
    forall i, j | 0 <= i <= j < |kept|
      ensures kept[i] <= kept[j]
    {
      assert kept[i] == requests[k + i] && kept[j] == requests[k + j];
    }
    forall i | 0 <= i < |kept|
      ensures kept[i] <= now
    {
      assert kept[i] == requests[k + i];
    }
    forall t: int | t >= now
      ensures WindowCount(sent, t, bucketLength) == WindowCount(kept, t, bucketLength)
    {
      CleanedSplit(requests, clock, bucketLength, now, t);
    }
  }

  /**
   * Admitting `now` into a bucket cleaned at `now` that still has room keeps
   * the invariant: every window ending at or after `now` gains exactly the
   * new instant, and held fewer than `maxRequests` before it.
   */
  lemma AdmitKeepsInv(sent: seq<nat>, requests: seq<nat>, bucketLength: nat, maxRequests: nat, now: nat)
    requires Inv(sent, requests, now, bucketLength, maxRequests)
    requires |requests| < maxRequests
    ensures Inv(sent + [now], requests + [now], now, bucketLength, maxRequests)
  {
    var sent', requests' := sent + [now], requests + [now];
    forall t: int
      ensures WindowCount(sent', t, bucketLength) <= maxRequests
      ensures t >= now ==> WindowCount(sent', t, bucketLength) == WindowCount(requests', t, bucketLength)
    {
      if t < now {
        WindowCountAppendLater(sent, now, t, bucketLength);
      } else {
        WindowCountAppend(sent, [now], t, bucketLength);
        WindowCountAppend(requests, [now], t, bucketLength);
      }
    }
  }

  /** A telegram gate is open when nothing was sent yet or at least `cooldown` has elapsed since. */
  predicate CooldownFinished(last: Option<nat>, cooldown: nat, now: nat)
  {
    last.None? || Age(now, last.value) >= cooldown
  }

  /**
   * The limiter: a shared bucket of admitted instants and the instants of the
   * last telegram and the last recruitment telegram.
   */
  class Ratelimiter {
    const maxRequests: nat
    const bucketLength: nat
    const telegramCooldown: nat
    const recruitmentTelegramCooldown: nat
    var requests: seq<nat>
    var lastTelegramSent: Option<nat>
    var lastRecruitmentTelegramSent: Option<nat>
    /** every instant admitted so far, oldest first */
    ghost var sent: seq<nat>
    /** the latest instant the limiter has observed */
    ghost var clock: nat

    ghost predicate Valid()
      reads this
    {
      && Inv(sent, requests, clock, bucketLength, maxRequests)
      && (lastTelegramSent.Some? ==> lastTelegramSent.value <= clock)
      && (lastRecruitmentTelegramSent.Some? ==> lastRecruitmentTelegramSent.value <= clock)
    }

    constructor (maxRequests: nat, bucketLength: nat, telegramCooldown: nat, recruitmentTelegramCooldown: nat)
      ensures Valid()
      ensures this.maxRequests == maxRequests && this.bucketLength == bucketLength
      ensures this.telegramCooldown == telegramCooldown
      ensures this.recruitmentTelegramCooldown == recruitmentTelegramCooldown
      ensures requests == [] && lastTelegramSent == None && lastRecruitmentTelegramSent == None
      ensures sent == [] && clock == 0
    {
      this.maxRequests := maxRequests;
      this.bucketLength := bucketLength;
      this.telegramCooldown := telegramCooldown;
      this.recruitmentTelegramCooldown := recruitmentTelegramCooldown;
      requests := [];
      lastTelegramSent := None;
      lastRecruitmentTelegramSent := None;
      sent := [];
      clock := 0;
    }

    /** Pops expired entries from the front of the bucket. */
    method CleanBucket(now: nat)
      modifies this`requests
      ensures requests == Cleaned(old(requests), bucketLength, now)
    {
      while requests != []
        invariant Cleaned(requests, bucketLength, now) == Cleaned(old(requests), bucketLength, now)
        decreases |requests|
      {
        if Age(now, requests[0]) > bucketLength {
          requests := requests[1..];
        } else {
          break;
        }
      }
    }

    /**
     * One pass of the acquire loop at instant `now`: cleans the bucket, then
     * admits `now` if the cleaned bucket has room. The clock moves to `now`.
     */
    method TryAdmit(now: nat) returns (admitted: bool)
      requires Valid() && clock <= now
      modifies this`requests, this`sent, this`clock
      ensures Valid() && clock == now
      ensures admitted <==> |Cleaned(old(requests), bucketLength, now)| < maxRequests
      ensures admitted ==> requests == Cleaned(old(requests), bucketLength, now) + [now]
      ensures admitted ==> sent == old(sent) + [now]
      ensures !admitted ==> requests == Cleaned(old(requests), bucketLength, now) && sent == old(sent)
    {
      CleanKeepsInv(sent, requests, clock, bucketLength, maxRequests, now);
      CleanBucket(now);
      clock := now;
      if |requests| < maxRequests {
        AdmitKeepsInv(sent, requests, bucketLength, maxRequests, now);
        requests := requests + [now];
        sent := sent + [now];
        admitted := true;
      } else {
        admitted := false;
      }
    }

    /**
     * Takes a slot in the bucket, starting at `now` and sleeping while the
     * bucket is full; returns the instant at which the request was admitted.
     * The admitted instant joins the bucket, which had room for it once
     * cleaned at that instant; when the bucket was full at `now`, admission
     * comes only after its oldest entry has left the window.
     */
    method Acquire(now: nat) returns (admittedAt: nat)
      requires Valid() && clock <= now
      requires maxRequests > 0
      modifies this`requests, this`sent, this`clock
      ensures Valid()
      ensures now <= admittedAt && clock == admittedAt
      ensures sent == old(sent) + [admittedAt]
      ensures |Cleaned(old(requests), bucketLength, admittedAt)| < maxRequests
      ensures requests == Cleaned(old(requests), bucketLength, admittedAt) + [admittedAt]
      ensures |Cleaned(old(requests), bucketLength, now)| < maxRequests ==> admittedAt == now
      ensures var full := Cleaned(old(requests), bucketLength, now);
        |full| >= maxRequests ==> admittedAt > full[0] + bucketLength
    {
      var t := now;
      CleanedAtZero(requests, bucketLength);
      ghost var cleanedAt: nat := 0;
      while true
        invariant Valid() && now <= t && clock <= t && cleanedAt <= t
        invariant sent == old(sent)
        invariant requests == Cleaned(old(requests), bucketLength, cleanedAt)
        invariant t == now || |Cleaned(old(requests), bucketLength, now)| >= maxRequests
        invariant t > now ==> t > Cleaned(old(requests), bucketLength, now)[0] + bucketLength
        decreases |Cleaned(requests, bucketLength, t)|
      {
        CleanedLater(old(requests), bucketLength, cleanedAt, t);
        var admitted := TryAdmit(t);
        cleanedAt := t;
        if admitted {
          admittedAt := t;
          return;
        }
        var front := requests[0];
        var cooldown := bucketLength - Age(t, front);
        var late: nat :| late >= 1;
        ghost var size := |requests|;
        t := t + cooldown + late;
        assert Expired(t, bucketLength, requests[0]);
        assert |Cleaned(requests, bucketLength, t)| < size;
      }
    }

    /**
     * What every telegram acquire started at `now` does, against the state
     * before it: one instant, no earlier than `now`, is admitted; the bucket
     * is cleaned at that instant and the instant pushed at its back; it
     * becomes the last telegram, at least the telegram cooldown after the
     * previous one.
     */
    twostate predicate AdmittedTelegram(now: nat)
      reads this
    {
      && now <= clock
      && sent == old(sent) + [clock]
      && requests == Cleaned(old(requests), bucketLength, clock) + [clock]
      && lastTelegramSent == Some(clock)
      && (old(lastTelegramSent).Some? ==> clock >= old(lastTelegramSent).value + telegramCooldown)
    }

    /**
     * The effect of `acquire_for_telegram` started at `now`: a telegram
     * admitted as above, and admitted at `now` itself when the telegram
     * cooldown had already elapsed (or no telegram was sent yet) and the
     * bucket cleaned at `now` has room.
     */
    twostate predicate TelegramAcquired(now: nat)
      reads this
    {
      && AdmittedTelegram(now)
      && ((CooldownFinished(old(lastTelegramSent), telegramCooldown, now)
           && |Cleaned(old(requests), bucketLength, now)| < maxRequests)
          ==> clock == now)
    }

    /**
     * The effect of `acquire_for_recruitment_telegram` started at `now`: a
     * telegram admitted as above that is also the last recruitment telegram,
     * at least the recruitment cooldown after the previous one; admitted at
     * `now` itself when both cooldowns had elapsed and the bucket has room.
     */
    twostate predicate RecruitmentTelegramAcquired(now: nat)
      reads this
    {
      && AdmittedTelegram(now)
      && lastRecruitmentTelegramSent == Some(clock)
      && (old(lastRecruitmentTelegramSent).Some? ==>
            clock >= old(lastRecruitmentTelegramSent).value + recruitmentTelegramCooldown)
      && ((CooldownFinished(old(lastRecruitmentTelegramSent), recruitmentTelegramCooldown, now)
           && CooldownFinished(old(lastTelegramSent), telegramCooldown, now)
           && |Cleaned(old(requests), bucketLength, now)| < maxRequests)
          ==> clock == now)
    }

    /**
     * Waits until the telegram cooldown has elapsed since the last telegram
     * (inclusive), then takes a slot in the bucket and records the instant
     * as the last telegram; returns that instant.
     */
    method AcquireForTelegram(now: nat) returns (sentAt: nat)
      requires Valid() && clock <= now
      requires maxRequests > 0
      modifies this`requests, this`sent, this`clock, this`lastTelegramSent
      ensures Valid() && sentAt == clock
      ensures TelegramAcquired(now)
    {
      var t := now;
      while !CooldownFinished(lastTelegramSent, telegramCooldown, t)
        invariant now <= t && clock <= t
        invariant t == now || !CooldownFinished(lastTelegramSent, telegramCooldown, now)
        decreases if CooldownFinished(lastTelegramSent, telegramCooldown, t) then 0 else 1
      {
        var elapsed := Age(t, lastTelegramSent.value);
        var late: nat :| true;
        t := t + (telegramCooldown - elapsed) + late;
      }
      sentAt := Acquire(t);
      lastTelegramSent := Some(sentAt);
    }

    /**
     * Waits until the recruitment cooldown has elapsed since the last
     * recruitment telegram (inclusive), then acquires as a telegram (so the
     * telegram cooldown and the bucket apply too) and records the instant as
     * the last recruitment telegram; returns that instant.
     */
    method AcquireForRecruitmentTelegram(now: nat) returns (sentAt: nat)
      requires Valid() && clock <= now
      requires maxRequests > 0
      modifies this`requests, this`sent, this`clock, this`lastTelegramSent, this`lastRecruitmentTelegramSent
      ensures Valid() && sentAt == clock
      ensures RecruitmentTelegramAcquired(now)
    {
      var t := now;
      while !CooldownFinished(lastRecruitmentTelegramSent, recruitmentTelegramCooldown, t)
        invariant now <= t && clock <= t
        invariant t == now || !CooldownFinished(lastRecruitmentTelegramSent, recruitmentTelegramCooldown, now)
        decreases if CooldownFinished(lastRecruitmentTelegramSent, recruitmentTelegramCooldown, t) then 0 else 1
      {
        var elapsed := Age(t, lastRecruitmentTelegramSent.value);
        var late: nat :| true;
        t := t + (recruitmentTelegramCooldown - elapsed) + late;
      }
      sentAt := AcquireForTelegram(t);
      lastRecruitmentTelegramSent := Some(sentAt);
    }
  }

  /**
   * With 50 requests per 10 s, fifty acquires at one instant go through at
   * once and the fifty-first is admitted only after the window has passed.
   */
  method FiftyFirstAcquireWaits(start: nat) returns (admittedAt: nat)
    ensures admittedAt > start + 10_000
  {
    var limiter := new Ratelimiter(50, 10_000, 10_000, 30_000);
    var i := 0;
    while i < 50
      invariant 0 <= i <= 50
      invariant limiter.Valid() && limiter.clock <= start && limiter.maxRequests == 50
      invariant limiter.bucketLength == 10_000
      invariant limiter.requests == seq(i, _ => start)
      modifies limiter
    {
      var at := limiter.Acquire(start);
      assert Cleaned(seq(i, _ => start), 10_000, start) == seq(i, _ => start);
      assert limiter.requests == seq(i + 1, _ => start);
      i := i + 1;
    }
    assert Cleaned(seq(50, _ => start), 10_000, start) == seq(50, _ => start);
    admittedAt := limiter.Acquire(start);
  }

  /** Two telegram acquires are at least the telegram cooldown (10 s) apart. */
  method TelegramsSpacedByCooldown(start: nat) returns (first: nat, second: nat)
    ensures start <= first && second >= first + 10_000
  {
    var limiter := new Ratelimiter(50, 10_000, 10_000, 30_000);
    first := limiter.AcquireForTelegram(start);
    second := limiter.AcquireForTelegram(first);
  }

  /**
   * The telegram gate is inclusive: a telegram asked for exactly one
   * cooldown (10 s) after the previous one goes out at that very instant.
   */
  method TelegramAtCooldownBoundary(start: nat) returns (first: nat, second: nat)
    ensures start == first && second == first + 10_000
  {
    var limiter := new Ratelimiter(50, 10_000, 10_000, 30_000);
    first := limiter.AcquireForTelegram(start);
    second := limiter.AcquireForTelegram(first + 10_000);
  }

  /**
   * A recruitment telegram, then a telegram, then another recruitment
   * telegram: the telegram waits 10 s and the second recruitment 30 s after the first.
   */
  method RecruitmentSpacedByCooldown(start: nat) returns (recruitment: nat, telegram: nat, again: nat)
    ensures start <= recruitment && telegram >= recruitment + 10_000 && again >= recruitment + 30_000
  {
    var limiter := new Ratelimiter(50, 10_000, 10_000, 30_000);
    recruitment := limiter.AcquireForRecruitmentTelegram(start);
    telegram := limiter.AcquireForTelegram(recruitment);
    again := limiter.AcquireForRecruitmentTelegram(telegram);
  }
}
