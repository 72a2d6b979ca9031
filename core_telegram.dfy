/**
 * The telegram queue of the API state: a recruitment queue and a standard
 * queue of API telegram requests, drained one telegram per `send` through
 * the shared rate limiter, recruitment first. The HTTP delivery of a
 * telegram is the parameter `deliver`; the clock reading is `now` (ms).
 */
module CoreTelegram {
  import opened Wrappers
  import opened Errors
  import opened Bucket
  import opened WorkQueue
  import opened NsTelegram
  import UtilsRatelimiter

  /** The test `delete_telegram` keeps a telegram by: not addressed to that recipient with that id. */
  function NotMatching(header: TelegramHeader): Telegram -> bool
  {
    (t: Telegram) => !(t.recipient == header.recipient && t.telegramId == header.telegramId)
  }

  /** The (recipient, telegram id) pairs of a queue, in queue order. */
  function Listing(q: seq<Telegram>): (r: seq<ListedTelegram>)
    ensures |r| == |q|
    ensures forall i :: 0 <= i < |q| ==> r[i] == ListedTelegram(q[i].recipient, q[i].telegramId)
  {
    if q == [] then [] else [ListedTelegram(q[0].recipient, q[0].telegramId)] + Listing(q[1..])
  }

  /**
   * Whether `try_send_recruitment_telegram` takes the front of a queue: it
   * is non-empty and either no recruitment telegram was sent yet or more
   * than `recruitmentCooldown - telegramCooldown` has elapsed since.
   */
  predicate RecruitmentDue(queue: seq<Telegram>, last: Option<nat>, recruitmentCooldown: nat, telegramCooldown: nat, now: nat)
    ensures RecruitmentDue(queue, last, recruitmentCooldown, telegramCooldown, now) ==> queue != []
    ensures queue != [] && last.None? ==> RecruitmentDue(queue, last, recruitmentCooldown, telegramCooldown, now)
    ensures RecruitmentDue(queue, last, recruitmentCooldown, telegramCooldown, now) && last.Some? ==>
              Age(now, last.value) + telegramCooldown > recruitmentCooldown
  {
    && queue != []
    && (last.Some? ==> recruitmentCooldown >= telegramCooldown && Age(now, last.value) > recruitmentCooldown - telegramCooldown)
  }

  /** The cooldown subtraction underflows, which panics: a non-empty queue, a previous recruitment telegram, and a recruitment cooldown shorter than the telegram cooldown. */
  predicate CooldownUnderflow(queue: seq<Telegram>, last: Option<nat>, recruitmentCooldown: nat, telegramCooldown: nat)
  {
    queue != [] && last.Some? && recruitmentCooldown < telegramCooldown
  }

  /** `send_telegram(t)?` followed by `Ok(true)`. */
  function SentOutcome(delivered: Result<(), Error>): (r: Result<bool, Error>)
    ensures r.Success? <==> delivered.Success?
    ensures r.Success? ==> r.value
    ensures r.Failure? ==> r.error == delivered.error
  {
    match delivered
    case Success(_) => Success(true)
    case Failure(e) => Failure(e)
  }

  class Telegrammer {
    const clientKey: string
    var recruitmentQueue: seq<Telegram>
    var standardQueue: seq<Telegram>
    const ratelimiter: UtilsRatelimiter.Ratelimiter

    ghost predicate Valid()
      reads this, ratelimiter
    {
      ratelimiter.Valid()
    }

    constructor (clientKey: string, ratelimiter: UtilsRatelimiter.Ratelimiter)
      requires ratelimiter.Valid()
      ensures Valid()
      ensures this.clientKey == clientKey && this.ratelimiter == ratelimiter
      ensures recruitmentQueue == [] && standardQueue == []
    {
      this.clientKey := clientKey;
      this.ratelimiter := ratelimiter;
      recruitmentQueue := [];
      standardQueue := [];
    }

    /** Builds the API request and appends it to the back of the queue its type names. */
    method QueueTelegram(params: TelegramParams)
      modifies this`recruitmentQueue, this`standardQueue
      ensures params.telegramType == Recruitment ==>
                recruitmentQueue == old(recruitmentQueue) + [FromParams(clientKey, params)] && standardQueue == old(standardQueue)
      ensures params.telegramType == Standard ==>
                standardQueue == old(standardQueue) + [FromParams(clientKey, params)] && recruitmentQueue == old(recruitmentQueue)
    {
      match params.telegramType
      case Recruitment =>
        var telegram := FromParams(clientKey, params);
        recruitmentQueue := recruitmentQueue + [telegram];
      case Standard =>
        var telegram := FromParams(clientKey, params);
        standardQueue := standardQueue + [telegram];
    }

    /** Removes from both queues every telegram to the header's recipient with the header's id. */
    method DeleteTelegram(header: TelegramHeader)
      modifies this`recruitmentQueue, this`standardQueue
      ensures recruitmentQueue == Retain(old(recruitmentQueue), NotMatching(header))
      ensures standardQueue == Retain(old(standardQueue), NotMatching(header))
    {
      recruitmentQueue := Retain(recruitmentQueue, NotMatching(header));
      standardQueue := Retain(standardQueue, NotMatching(header));
    }

    /** The listing: exactly the two queue names, each with its telegrams in queue order. */
    function ListTelegrams(): (m: map<string, seq<ListedTelegram>>)
      reads this
      ensures m.Keys == {"recruitment", "standard"}
      ensures |m["recruitment"]| == |recruitmentQueue| && |m["standard"]| == |standardQueue|
      ensures forall i :: 0 <= i < |recruitmentQueue| ==>
                m["recruitment"][i] == ListedTelegram(recruitmentQueue[i].recipient, recruitmentQueue[i].telegramId)
      ensures forall i :: 0 <= i < |standardQueue| ==>
                m["standard"][i] == ListedTelegram(standardQueue[i].recipient, standardQueue[i].telegramId)
    {
      map["recruitment" := Listing(recruitmentQueue), "standard" := Listing(standardQueue)]
    }

    /**
     * Sends the front recruitment telegram when one is due: pops it, waits
     * for the recruitment, telegram and bucket limits, and delivers it. The
     * popped telegram is gone even when its delivery fails.
     */
    method TrySendRecruitmentTelegram(now: nat, deliver: Telegram -> Result<(), Error>) returns (r: Result<bool, Error>)
      requires Valid() && ratelimiter.clock <= now && ratelimiter.maxRequests > 0
      modifies this`recruitmentQueue, ratelimiter
      ensures Valid()
      ensures var due := RecruitmentDue(old(recruitmentQueue), old(ratelimiter.lastRecruitmentTelegramSent),
                                        ratelimiter.recruitmentTelegramCooldown, ratelimiter.telegramCooldown, now);
        && (due ==>
              && recruitmentQueue == old(recruitmentQueue)[1..]
              && r == SentOutcome(deliver(old(recruitmentQueue)[0]))
              && ratelimiter.RecruitmentTelegramAcquired(now))
        && (!due ==>
              && recruitmentQueue == old(recruitmentQueue)
              && unchanged(ratelimiter)
              && r == if CooldownUnderflow(old(recruitmentQueue), old(ratelimiter.lastRecruitmentTelegramSent),
                                           ratelimiter.recruitmentTelegramCooldown, ratelimiter.telegramCooldown)
                      then Failure(Panic) else Success(false))
    {
      if |recruitmentQueue| > 0 {
        match ratelimiter.lastRecruitmentTelegramSent
        case Some(lastRecruitment) =>
          if ratelimiter.recruitmentTelegramCooldown < ratelimiter.telegramCooldown {
            return Failure(Panic);
          }
          if Age(now, lastRecruitment) > ratelimiter.recruitmentTelegramCooldown - ratelimiter.telegramCooldown {
            var telegram := recruitmentQueue[0];
            recruitmentQueue := recruitmentQueue[1..];
            var _ := ratelimiter.AcquireForRecruitmentTelegram(now);
            r := SentOutcome(deliver(telegram));
          } else {
            r := Success(false);
          }
        case None =>
          var telegram := recruitmentQueue[0];
          recruitmentQueue := recruitmentQueue[1..];
          var _ := ratelimiter.AcquireForRecruitmentTelegram(now);
          r := SentOutcome(deliver(telegram));
      } else {
        r := Success(false);
      }
    }

    /**
     * Sends the front standard telegram, if any: pops it, waits for the
     * telegram and bucket limits, and delivers it.
     */
    method TrySendStandardTelegram(now: nat, deliver: Telegram -> Result<(), Error>) returns (r: Result<bool, Error>)
      requires Valid() && ratelimiter.clock <= now && ratelimiter.maxRequests > 0
      modifies this`standardQueue, ratelimiter
      ensures Valid()
      ensures old(standardQueue) != [] ==>
                && standardQueue == old(standardQueue)[1..]
                && r == SentOutcome(deliver(old(standardQueue)[0]))
                && ratelimiter.TelegramAcquired(now)
                && ratelimiter.lastRecruitmentTelegramSent == old(ratelimiter.lastRecruitmentTelegramSent)
      ensures old(standardQueue) == [] ==> standardQueue == [] && unchanged(ratelimiter) && r == Success(false)
    {
      if |standardQueue| > 0 {
        var telegram := standardQueue[0];
        standardQueue := standardQueue[1..];
        var _ := ratelimiter.AcquireForTelegram(now);
        r := SentOutcome(deliver(telegram));
      } else {
        r := Success(false);
      }
    }

    /**
     * One round of the telegram loop: a recruitment telegram if one is due,
     * and only otherwise a standard telegram; delivery failures are passed on.
     */
    method Send(now: nat, deliver: Telegram -> Result<(), Error>) returns (r: Result<(), Error>)
      requires Valid() && ratelimiter.clock <= now && ratelimiter.maxRequests > 0
      modifies this`recruitmentQueue, this`standardQueue, ratelimiter
      ensures Valid()
      ensures var due := RecruitmentDue(old(recruitmentQueue), old(ratelimiter.lastRecruitmentTelegramSent),
                                        ratelimiter.recruitmentTelegramCooldown, ratelimiter.telegramCooldown, now);
        var underflow := CooldownUnderflow(old(recruitmentQueue), old(ratelimiter.lastRecruitmentTelegramSent),
                                           ratelimiter.recruitmentTelegramCooldown, ratelimiter.telegramCooldown);
        && (due ==>
              && recruitmentQueue == old(recruitmentQueue)[1..]
              && standardQueue == old(standardQueue)
              && ratelimiter.RecruitmentTelegramAcquired(now)
              && r == (if deliver(old(recruitmentQueue)[0]).Success? then Success(()) else Failure(deliver(old(recruitmentQueue)[0]).error)))
        && (!due && underflow ==>
              && recruitmentQueue == old(recruitmentQueue) && standardQueue == old(standardQueue)
              && unchanged(ratelimiter)
              && r == Failure(Panic))
        && (!due && !underflow ==>
              && recruitmentQueue == old(recruitmentQueue)
              && (old(standardQueue) != [] ==>
                    && standardQueue == old(standardQueue)[1..]
                    && ratelimiter.TelegramAcquired(now)
                    && ratelimiter.lastRecruitmentTelegramSent == old(ratelimiter.lastRecruitmentTelegramSent)
                    && r == (if deliver(old(standardQueue)[0]).Success? then Success(()) else Failure(deliver(old(standardQueue)[0]).error)))
              && (old(standardQueue) == [] ==> standardQueue == [] && unchanged(ratelimiter) && r == Success(())))
    {
      var recruitment := TrySendRecruitmentTelegram(now, deliver);
      if recruitment.Failure? {
        return Failure(recruitment.error);
      }
      if recruitment.value {
        return Success(());
      }
      var standard := TrySendStandardTelegram(now, deliver);
      if standard.Failure? {
        return Failure(standard.error);
      }
      r := Success(());
    }
  }

  /** A second delete with the same header finds nothing more to remove. */
  lemma DeleteIdempotent(q: seq<Telegram>, header: TelegramHeader)
    ensures Retain(Retain(q, NotMatching(header)), NotMatching(header)) == Retain(q, NotMatching(header))
  {
    RetainIdempotent(q, NotMatching(header));
  }

  /** Delete removes exactly the telegrams to that recipient with that id, every occurrence, and no other. */
  lemma DeleteExactly(q: seq<Telegram>, header: TelegramHeader, t: Telegram)
    ensures t.recipient == header.recipient && t.telegramId == header.telegramId ==>
              multiset(Retain(q, NotMatching(header)))[t] == 0
    ensures !(t.recipient == header.recipient && t.telegramId == header.telegramId) ==>
              multiset(Retain(q, NotMatching(header)))[t] == multiset(q)[t]
  {
    RetainCounts(q, NotMatching(header), t);
  }
}
