/**
 * The channel-driven rate limiter: a Receiver that owns a sliding-window
 * request bucket and three cooldown trackers (telegram, recruitment, and
 * restricted actions per sending nation). Instants and durations are
 * milliseconds; the clock reading `now` is a parameter.
 */
module SyncRatelimiter {
  import opened Wrappers
  import opened Bucket

  /** What a caller wants to do; each kind is subject to a different set of limits. */
  datatype Target =
    | RecruitmentTelegram(sender: string)
    | Telegram(sender: string)
    | Restricted(sender: string)
    | Standard

  datatype Action = Peek(target: Target) | Acquire(target: Target) | Update

  datatype Response = Ok | Peek(wait: nat) | Acquire(result: Result<(), nat>)

  /** The limits a Receiver is built with. */
  datatype Limits = Limits(
    maxRequests: nat,
    bucketLength: nat,
    telegramCooldown: nat,
    recruitmentCooldown: nat,
    restrictedActionCooldown: nat)

  /** The Receiver's mutable trackers, as one value. */
  datatype Trackers = Trackers(
    requests: seq<nat>,
    lastTelegram: Option<nat>,
    lastRecruitment: Option<nat>,
    lastRestrictedAction: map<string, nat>)

  /** `Duration::saturating_sub`. */
  function SaturatingSub(a: nat, b: nat): nat
  {
    if a >= b then a - b else 0
  }

  /**
   * The wait one cooldown tracker imposes: none without a record or once more
   * than `cooldown` has elapsed, otherwise what is left of the cooldown.
   */
  function CooldownWait(last: Option<nat>, cooldown: nat, now: nat): (w: nat)
    ensures w <= cooldown
    ensures w == 0 <==> last.None? || Age(now, last.value) >= cooldown
    ensures last.Some? && Age(now, last.value) <= cooldown ==> w + Age(now, last.value) == cooldown
  {
    match last
    case None => 0
    case Some(t) =>
      if Age(now, t) > cooldown then 0 else cooldown - Age(now, t)
  }

  /** The recorded restricted action of `sender`, if any. */
  function LastAction(trackers: Trackers, sender: string): Option<nat>
  {
    if sender in trackers.lastRestrictedAction then Some(trackers.lastRestrictedAction[sender]) else None
  }

  /**
   * The wait the request bucket imposes after cleaning: none while fewer than
   * `maxRequests` entries remain, otherwise until the front entry leaves the window.
   */
  function StandardWait(limits: Limits, requests: seq<nat>, now: nat): (w: nat)
    requires limits.maxRequests > 0
    ensures w <= limits.bucketLength
    ensures var c := Cleaned(requests, limits.bucketLength, now);
      w == 0 <==> |c| < limits.maxRequests || Age(now, c[0]) == limits.bucketLength
    ensures var c := Cleaned(requests, limits.bucketLength, now);
      |c| >= limits.maxRequests ==> w + Age(now, c[0]) == limits.bucketLength
  {
    var c := Cleaned(requests, limits.bucketLength, now);
    if |c| < limits.maxRequests then 0
    else SaturatingSub(limits.bucketLength, Age(now, c[0]))
  }

  /** The components of the wait for `target`, in the order the Receiver computes them. */
  function Components(limits: Limits, trackers: Trackers, target: Target, now: nat): seq<nat>
    requires limits.maxRequests > 0
  {
    var standard := StandardWait(limits, trackers.requests, now);
    match target
    case RecruitmentTelegram(sender) =>
      [ CooldownWait(trackers.lastRecruitment, limits.recruitmentCooldown, now),
        CooldownWait(trackers.lastTelegram, limits.telegramCooldown, now),
        CooldownWait(LastAction(trackers, sender), limits.restrictedActionCooldown, now),
        standard ]
    case Telegram(sender) =>
      [ CooldownWait(trackers.lastTelegram, limits.telegramCooldown, now),
        CooldownWait(LastAction(trackers, sender), limits.restrictedActionCooldown, now),
        standard ]
    case Restricted(sender) =>
      [ CooldownWait(LastAction(trackers, sender), limits.restrictedActionCooldown, now),
        standard ]
    case Standard =>
      [ standard ]
  }

  /** The wait `peek` reports: the largest of the limits that apply to `target`. */
  function Max(a: nat, b: nat): nat
  {
    if a >= b then a else b
  }

  /**
   * The wait `peek` reports: the largest of the limits that apply to `target`,
   * folded in the order the Receiver lists them.
   */
  function PeekWait(limits: Limits, trackers: Trackers, target: Target, now: nat): (w: nat)
    requires limits.maxRequests > 0
    ensures w >= StandardWait(limits, trackers.requests, now)
    ensures target.Standard? ==> w == StandardWait(limits, trackers.requests, now)
  {
    var standard := StandardWait(limits, trackers.requests, now);
    match target
    case RecruitmentTelegram(sender) =>
      Max(Max(Max(CooldownWait(trackers.lastRecruitment, limits.recruitmentCooldown, now),
                  CooldownWait(trackers.lastTelegram, limits.telegramCooldown, now)),
              CooldownWait(LastAction(trackers, sender), limits.restrictedActionCooldown, now)),
          standard)
    case Telegram(sender) =>
      Max(Max(CooldownWait(trackers.lastTelegram, limits.telegramCooldown, now),
              CooldownWait(LastAction(trackers, sender), limits.restrictedActionCooldown, now)),
          standard)
    case Restricted(sender) =>
      Max(CooldownWait(LastAction(trackers, sender), limits.restrictedActionCooldown, now), standard)
    case Standard =>
      standard
  }

  /** The reported wait is one of the applicable limits and no smaller than any of them. */
  lemma PeekWaitIsMax(limits: Limits, trackers: Trackers, target: Target, now: nat)
    requires limits.maxRequests > 0
    ensures PeekWait(limits, trackers, target, now) in Components(limits, trackers, target, now)
    ensures forall c :: c in Components(limits, trackers, target, now) ==> c <= PeekWait(limits, trackers, target, now)
  {
  }

  /**
   * The more a target is limited, the longer it waits: for one sender at one
   * instant, recruitment >= telegram >= restricted >= standard.
   */
  lemma PeekOrdering(limits: Limits, trackers: Trackers, sender: string, now: nat)
    requires limits.maxRequests > 0
    ensures PeekWait(limits, trackers, RecruitmentTelegram(sender), now) >= PeekWait(limits, trackers, Telegram(sender), now)
    ensures PeekWait(limits, trackers, Telegram(sender), now) >= PeekWait(limits, trackers, Restricted(sender), now)
    ensures PeekWait(limits, trackers, Restricted(sender), now) >= PeekWait(limits, trackers, Standard, now)
  {
    var rec := Components(limits, trackers, RecruitmentTelegram(sender), now);
    var tel := Components(limits, trackers, Telegram(sender), now);
    var res := Components(limits, trackers, Restricted(sender), now);
    var std := Components(limits, trackers, Standard, now);
    assert forall c :: c in tel ==> c in rec;
    assert forall c :: c in res ==> c in tel;
    assert forall c :: c in std ==> c in res;
  }

  /**
   * A wait is bounded by the largest limit that applies: no target ever waits
   * longer than the longest configured cooldown or the bucket length.
   */
  lemma PeekBounded(limits: Limits, trackers: Trackers, target: Target, now: nat)
    requires limits.maxRequests > 0
    ensures PeekWait(limits, trackers, target, now)
              <= Max(Max(limits.recruitmentCooldown, limits.telegramCooldown),
                     Max(limits.restrictedActionCooldown, limits.bucketLength))
  {
    PeekWaitIsMax(limits, trackers, target, now);
  }

  /**
   * The trackers after a slot for `target` is reserved at `requestAt`: the
   * instant joins the bucket, and every cooldown `target` is subject to restarts.
   */
  function Stamped(trackers: Trackers, target: Target, requestAt: nat): (r: Trackers)
    ensures r.requests == trackers.requests + [requestAt]
    ensures r.lastRecruitment == if target.RecruitmentTelegram? then Some(requestAt) else trackers.lastRecruitment
    ensures r.lastTelegram == if target.RecruitmentTelegram? || target.Telegram? then Some(requestAt)
                              else trackers.lastTelegram
    ensures target.Standard? ==> r.lastRestrictedAction == trackers.lastRestrictedAction
    ensures !target.Standard? ==> r.lastRestrictedAction.Keys == trackers.lastRestrictedAction.Keys + {target.sender}
    ensures !target.Standard? ==> r.lastRestrictedAction[target.sender] == requestAt
    ensures forall n :: n in trackers.lastRestrictedAction && !(!target.Standard? && n == target.sender) ==>
              r.lastRestrictedAction[n] == trackers.lastRestrictedAction[n]
  {
    var bucket := trackers.(requests := trackers.requests + [requestAt]);
    match target
    case RecruitmentTelegram(sender) =>
      bucket.(lastRecruitment := Some(requestAt), lastTelegram := Some(requestAt),
              lastRestrictedAction := trackers.lastRestrictedAction[sender := requestAt])
    case Telegram(sender) =>
      bucket.(lastTelegram := Some(requestAt),
              lastRestrictedAction := trackers.lastRestrictedAction[sender := requestAt])
    case Restricted(sender) =>
      bucket.(lastRestrictedAction := trackers.lastRestrictedAction[sender := requestAt])
    case Standard =>
      bucket
  }

  /** The trackers after `acquire(target)` at `now`: the bucket is cleaned, then the slot is stamped. */
  function AfterAcquire(limits: Limits, trackers: Trackers, target: Target, now: nat): Trackers
    requires limits.maxRequests > 0
  {
    Stamped(trackers.(requests := Cleaned(trackers.requests, limits.bucketLength, now)),
            target, now + PeekWait(limits, trackers, target, now))
  }

  /** The Receiver half of the limiter; the channel it reads commands from is not modelled. */
  class Receiver {
    const limits: Limits
    var requests: seq<nat>
    var lastTelegram: Option<nat>
    var lastRecruitment: Option<nat>
    /** the last restricted action performed by each nation name */
    var lastRestrictedAction: map<string, nat>

    function State(): Trackers
      reads this
    {
      Trackers(requests, lastTelegram, lastRecruitment, lastRestrictedAction)
    }

    constructor (maxRequests: nat, bucketLength: nat, telegramCooldown: nat,
                 recruitmentCooldown: nat, restrictedActionCooldown: nat)
      requires maxRequests > 0
      ensures limits == Limits(maxRequests, bucketLength, telegramCooldown,
                               recruitmentCooldown, restrictedActionCooldown)
      ensures State() == Trackers([], None, None, map[])
    {
      limits := Limits(maxRequests, bucketLength, telegramCooldown,
                       recruitmentCooldown, restrictedActionCooldown);
      requests := [];
      lastTelegram := None;
      lastRecruitment := None;
      lastRestrictedAction := map[];
    }

    /** Pops expired entries from the front of the bucket. */
    method CleanBucket(now: nat)
      modifies this`requests
      ensures requests == Cleaned(old(requests), limits.bucketLength, now)
    {
      while requests != []
        invariant Cleaned(requests, limits.bucketLength, now) == Cleaned(old(requests), limits.bucketLength, now)
        decreases |requests|
      {
        if Age(now, requests[0]) > limits.bucketLength {
          requests := requests[1..];
        } else {
          break;
        }
      }
    }

    /** What is left of the recruitment cooldown: zero once it has elapsed or with no recruitment telegram yet. */
    function PeekRecruitment(now: nat): (w: nat)
      reads this
      ensures w <= limits.recruitmentCooldown
      ensures w == 0 <==> lastRecruitment.None? || Age(now, lastRecruitment.value) >= limits.recruitmentCooldown
    {
      CooldownWait(lastRecruitment, limits.recruitmentCooldown, now)
    }

    /** What is left of the telegram cooldown: zero once it has elapsed or with no telegram yet. */
    function PeekTelegram(now: nat): (w: nat)
      reads this
      ensures w <= limits.telegramCooldown
      ensures w == 0 <==> lastTelegram.None? || Age(now, lastTelegram.value) >= limits.telegramCooldown
    {
      CooldownWait(lastTelegram, limits.telegramCooldown, now)
    }

    /** What is left of `sender`'s restricted-action cooldown: zero once it has elapsed or with no action recorded. */
    function PeekRestricted(sender: string, now: nat): (w: nat)
      reads this
      ensures w <= limits.restrictedActionCooldown
      ensures w == 0 <==> sender !in lastRestrictedAction
                          || Age(now, lastRestrictedAction[sender]) >= limits.restrictedActionCooldown
    {
      CooldownWait(LastAction(State(), sender), limits.restrictedActionCooldown, now)
    }

    method PeekStandard(now: nat) returns (wait: nat)
      requires limits.maxRequests > 0
      modifies this`requests
      ensures requests == Cleaned(old(requests), limits.bucketLength, now)
      ensures wait == StandardWait(limits, old(requests), now)
    {
      CleanBucket(now);
      if |requests| < limits.maxRequests {
        wait := 0;
      } else {
        wait := SaturatingSub(limits.bucketLength, Age(now, requests[0]));
      }
    }

    /** The wait for `target`; the only change it makes is cleaning the bucket. */
    method Peek(target: Target, now: nat) returns (wait: nat)
      requires limits.maxRequests > 0
      modifies this`requests
      ensures requests == Cleaned(old(requests), limits.bucketLength, now)
      ensures wait == PeekWait(limits, old(State()), target, now)
    {
      match target {
        case RecruitmentTelegram(sender) =>
          var recruitment := PeekRecruitment(now);
          var telegram := PeekTelegram(now);
          var restricted := PeekRestricted(sender, now);
          var standard := PeekStandard(now);
          wait := Max(Max(Max(recruitment, telegram), restricted), standard);
        case Telegram(sender) =>
          var telegram := PeekTelegram(now);
          var restricted := PeekRestricted(sender, now);
          var standard := PeekStandard(now);
          wait := Max(Max(telegram, restricted), standard);
        case Restricted(sender) =>
          var restricted := PeekRestricted(sender, now);
          var standard := PeekStandard(now);
          wait := Max(restricted, standard);
        case Standard =>
          wait := PeekStandard(now);
      }
    }

    /** Records a slot for `target` at `requestAt` in the bucket and in the trackers it is subject to. */
    method Stamp(target: Target, requestAt: nat)
      modifies this
      ensures State() == Stamped(old(State()), target, requestAt)
    {
      match target {
        case RecruitmentTelegram(sender) =>
          lastRecruitment := Some(requestAt);
          lastTelegram := Some(requestAt);
          lastRestrictedAction := lastRestrictedAction[sender := requestAt];
          requests := requests + [requestAt];
        case Telegram(sender) =>
          lastTelegram := Some(requestAt);
          lastRestrictedAction := lastRestrictedAction[sender := requestAt];
          requests := requests + [requestAt];
        case Restricted(sender) =>
          lastRestrictedAction := lastRestrictedAction[sender := requestAt];
          requests := requests + [requestAt];
        case Standard =>
          requests := requests + [requestAt];
      }
    }

    /**
     * Reserves a slot: stamps `now + wait` into the bucket and into the
     * trackers of `target`, and reports whether the caller may go at once.
     */
    method Acquire(target: Target, now: nat) returns (result: Result<(), nat>)
      requires limits.maxRequests > 0
      modifies this
      ensures State() == AfterAcquire(limits, old(State()), target, now)
      ensures result.Success? <==> PeekWait(limits, old(State()), target, now) == 0
      ensures result.Failure? ==> result.error == PeekWait(limits, old(State()), target, now)
    {
      ghost var before := State();
      var wait := Peek(target, now);
      assert State() == before.(requests := Cleaned(before.requests, limits.bucketLength, now));
      Stamp(target, now + wait);
      if wait == 0 {
        result := Success(());
      } else {
        result := Failure(wait);
      }
    }

    /** Answers one command received over the channel. */
    method Process(action: Action, now: nat) returns (response: Response)
      requires limits.maxRequests > 0
      modifies this
      ensures action.Peek? ==> response == Response.Peek(PeekWait(limits, old(State()), action.target, now))
      ensures action.Peek? ==> State() == old(State()).(requests := Cleaned(old(requests), limits.bucketLength, now))
      ensures action.Acquire? ==>
                response.Acquire? &&
                (response.result.Success? <==> PeekWait(limits, old(State()), action.target, now) == 0) &&
                (response.result.Failure? ==> response.result.error == PeekWait(limits, old(State()), action.target, now)) &&
                State() == AfterAcquire(limits, old(State()), action.target, now)
      ensures action.Update? ==> response == Ok && State() == old(State())
    {
      match action {
        case Peek(target) =>
          var wait := Peek(target, now);
          response := Response.Peek(wait);
        case Acquire(target) =>
          var result := Acquire(target, now);
          response := Response.Acquire(result);
        case Update =>
          response := Ok;
      }
    }
  }

  /** The limits every scenario below is configured with. */
  const ScenarioLimits := Limits(2, 10_000, 5_000, 15_000, 20_000)

  /** A Receiver that has seen no request yet. */
  const Idle := Trackers([], None, None, map[])

  /**
   * With room for two requests, two Standard acquires at one instant go
   * through at once and fill the bucket; a third waits the whole bucket length.
   */
  lemma {:induction false} StandardScenario(now: nat)
    ensures PeekWait(ScenarioLimits, Idle, Standard, now) == 0
    ensures var once := AfterAcquire(ScenarioLimits, Idle, Standard, now);
      once.requests == [now] && PeekWait(ScenarioLimits, once, Standard, now) == 0
    ensures var twice := AfterAcquire(ScenarioLimits, AfterAcquire(ScenarioLimits, Idle, Standard, now), Standard, now);
      twice.requests == [now, now] && PeekWait(ScenarioLimits, twice, Standard, now) == 10_000
  {
    var once := AfterAcquire(ScenarioLimits, Idle, Standard, now);
    assert once.requests == [now];
    assert Cleaned([now], 10_000, now) == [now];
    var twice := AfterAcquire(ScenarioLimits, once, Standard, now);
    assert twice.requests == [now, now];
    assert Cleaned([now, now], 10_000, now) == [now, now];
  }

  /**
   * After a Telegram acquire, a peek within one second waits at least 19 s:
   * the sender's restricted-action cooldown (20 s) outlasts the telegram cooldown.
   */
  lemma TelegramScenario(sender: string, start: nat, later: nat)
    requires start <= later <= start + 1_000
    ensures PeekWait(ScenarioLimits, Idle, Telegram(sender), start) == 0
    ensures PeekWait(ScenarioLimits, AfterAcquire(ScenarioLimits, Idle, Telegram(sender), start),
                     Telegram(sender), later) >= 19_000
  {
    var after := AfterAcquire(ScenarioLimits, Idle, Telegram(sender), start);
    assert LastAction(after, sender) == Some(start);
    PeekWaitIsMax(ScenarioLimits, after, Telegram(sender), later);
  }

  /** After a RecruitmentTelegram acquire, a peek within one second waits at least 19 s. */
  lemma RecruitmentScenario(sender: string, start: nat, later: nat)
    requires start <= later <= start + 1_000
    ensures PeekWait(ScenarioLimits, Idle, RecruitmentTelegram(sender), start) == 0
    ensures PeekWait(ScenarioLimits, AfterAcquire(ScenarioLimits, Idle, RecruitmentTelegram(sender), start),
                     RecruitmentTelegram(sender), later) >= 19_000
  {
    var after := AfterAcquire(ScenarioLimits, Idle, RecruitmentTelegram(sender), start);
    assert after.lastRecruitment == Some(start);
    assert LastAction(after, sender) == Some(start);
    PeekWaitIsMax(ScenarioLimits, after, RecruitmentTelegram(sender), later);
  }

  /** After a Restricted acquire with a 20 s cooldown, a peek within one second waits at least 19 s. */
  lemma RestrictedScenario(sender: string, start: nat, later: nat)
    requires start <= later <= start + 1_000
    ensures PeekWait(ScenarioLimits, Idle, Restricted(sender), start) == 0
    ensures PeekWait(ScenarioLimits, AfterAcquire(ScenarioLimits, Idle, Restricted(sender), start),
                     Restricted(sender), later) >= 19_000
  {
    var after := AfterAcquire(ScenarioLimits, Idle, Restricted(sender), start);
    assert LastAction(after, sender) == Some(start);
    PeekWaitIsMax(ScenarioLimits, after, Restricted(sender), later);
  }
}
