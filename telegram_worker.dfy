/**
 * The telegram worker: a client holding a recruitment queue and a standard
 * queue of telegrams, fed by commands (queue, delete, list) and drained one
 * telegram at a time, recruitment first, as the shared rate limiter allows.
 * The limiter is reached through a channel in the program; here its answer
 * for each target is the function `wait` (milliseconds).
 */
module TelegramWorker {
  import opened Wrappers
  import opened WorkQueue
  import SyncRatelimiter
  import NsTelegram

  /** A queued telegram waits at most this long (ms) for its rate limit. */
  const MaxCooldown: nat := 100

  datatype TgType = Recruitment | Standard

  datatype Params = Params(sender: string, recipient: string, telegramId: string, secretKey: string, tgType: TgType)

  datatype Header = Header(recipient: string, telegramId: string)

  datatype Telegram = Telegram(
    clientKey: string,
    sender: string,
    recipient: string,
    telegramId: string,
    secretKey: string,
    tgType: TgType)
  {
    function header(): Header
    {
      Header(recipient, telegramId)
    }
  }

  datatype Operation = Queue(params: Params) | Delete(header: Header) | List

  datatype Response = Ok | List(telegrams: map<string, seq<NsTelegram.ListedTelegram>>)

  /** The telegram built from the parameters of a Queue command, signed with the client key. */
  function FromParams(key: string, params: Params): (t: Telegram)
    ensures t.clientKey == key && t.sender == params.sender && t.tgType == params.tgType
    ensures t.header() == Header(params.recipient, params.telegramId)
  {
    Telegram(key, params.sender, params.recipient, params.telegramId, params.secretKey, params.tgType)
  }

  /** The rate-limit target a telegram is sent under: its type, with its own sender. */
  function SendTarget(t: Telegram): (target: SyncRatelimiter.Target)
    ensures (target.RecruitmentTelegram? || target.Telegram?) && target.sender == t.sender
    ensures target.RecruitmentTelegram? <==> t.tgType == Recruitment
  {
    match t.tgType
    case Recruitment => SyncRatelimiter.Target.RecruitmentTelegram(t.sender)
    case Standard => SyncRatelimiter.Target.Telegram(t.sender)
  }

  /** A recruitment telegram may go now when its sender's recruitment wait is at most MaxCooldown. */
  function RecruitmentReady(wait: SyncRatelimiter.Target -> nat): Telegram -> bool
  {
    (t: Telegram) => wait(SyncRatelimiter.Target.RecruitmentTelegram(t.sender)) <= MaxCooldown
  }

  /** A standard telegram may go now when its sender's telegram wait is at most MaxCooldown. */
  function StandardReady(wait: SyncRatelimiter.Target -> nat): Telegram -> bool
  {
    (t: Telegram) => wait(SyncRatelimiter.Target.Telegram(t.sender)) <= MaxCooldown
  }

  /** The test `delete` keeps a telegram by: a different header. */
  function OtherHeader(header: Header): Telegram -> bool
  {
    (t: Telegram) => t.header() != header
  }

  /** The (recipient, telegram id) pairs of a queue, in queue order. */
  function Listing(q: seq<Telegram>): (r: seq<NsTelegram.ListedTelegram>)
    ensures |r| == |q|
    ensures forall i :: 0 <= i < |q| ==> r[i] == NsTelegram.ListedTelegram(q[i].recipient, q[i].telegramId)
  {
    if q == [] then [] else [NsTelegram.ListedTelegram(q[0].recipient, q[0].telegramId)] + Listing(q[1..])
  }

  /** Listing a queue with one more telegram at the back lists one more entry at the back. */
  lemma ListingPushBack(q: seq<Telegram>, t: Telegram)
    ensures Listing(q + [t]) == Listing(q) + [NsTelegram.ListedTelegram(t.recipient, t.telegramId)]
  {
  }

  predicate AllOfType(q: seq<Telegram>, tgType: TgType)
  {
    forall i :: 0 <= i < |q| ==> q[i].tgType == tgType
  }

  class Client {
    const key: string
    var recruitmentQueue: seq<Telegram>
    var standardQueue: seq<Telegram>

    /** Each queue holds only telegrams of its own type. */
    predicate Valid()
      reads this
    {
      AllOfType(recruitmentQueue, Recruitment) && AllOfType(standardQueue, Standard)
    }

    constructor (key: string)
      ensures Valid()
      ensures this.key == key && recruitmentQueue == [] && standardQueue == []
    {
      this.key := key;
      recruitmentQueue := [];
      standardQueue := [];
    }

    /** Appends the new telegram to the back of the queue of its type. */
    method Queue(params: Params)
      requires Valid()
      modifies this
      ensures Valid()
      ensures params.tgType == Standard ==>
                standardQueue == old(standardQueue) + [FromParams(key, params)] && recruitmentQueue == old(recruitmentQueue)
      ensures params.tgType == Recruitment ==>
                recruitmentQueue == old(recruitmentQueue) + [FromParams(key, params)] && standardQueue == old(standardQueue)
    {
      var telegram := FromParams(key, params);
      match telegram.tgType
      case Standard => standardQueue := standardQueue + [telegram];
      case Recruitment => recruitmentQueue := recruitmentQueue + [telegram];
    }

    /** Removes every telegram with the given header from both queues. */
    method Delete(header: Header)
      requires Valid()
      modifies this
      ensures Valid()
      ensures standardQueue == Retain(old(standardQueue), OtherHeader(header))
      ensures recruitmentQueue == Retain(old(recruitmentQueue), OtherHeader(header))
      ensures forall i :: 0 <= i < |standardQueue| ==> standardQueue[i].header() != header
      ensures forall i :: 0 <= i < |recruitmentQueue| ==> recruitmentQueue[i].header() != header
    {
      standardQueue := Retain(standardQueue, OtherHeader(header));
      recruitmentQueue := Retain(recruitmentQueue, OtherHeader(header));
    }

    /** The listing answered to a List command: exactly the two queue names, each in queue order. */
    function ListQueues(): (m: map<string, seq<NsTelegram.ListedTelegram>>)
      reads this
      ensures m.Keys == {"recruitment", "standard"}
      ensures |m["recruitment"]| == |recruitmentQueue| && |m["standard"]| == |standardQueue|
      ensures forall i :: 0 <= i < |recruitmentQueue| ==>
                m["recruitment"][i] == NsTelegram.ListedTelegram(recruitmentQueue[i].recipient, recruitmentQueue[i].telegramId)
      ensures forall i :: 0 <= i < |standardQueue| ==>
                m["standard"][i] == NsTelegram.ListedTelegram(standardQueue[i].recipient, standardQueue[i].telegramId)
    {
      map["recruitment" := Listing(recruitmentQueue), "standard" := Listing(standardQueue)]
    }

    /** Answers a command: Ok after a queue or a delete, the listing for List. */
    method ProcessCommand(operation: Operation) returns (response: Response)
      requires Valid()
      modifies this
      ensures Valid()
      ensures operation.List? ==> response == Response.List(ListQueues()) && unchanged(this)
      ensures !operation.List? ==> response == Response.Ok
      ensures operation.Queue? && operation.params.tgType == Standard ==>
                standardQueue == old(standardQueue) + [FromParams(key, operation.params)]
                && recruitmentQueue == old(recruitmentQueue)
      ensures operation.Queue? && operation.params.tgType == Recruitment ==>
                recruitmentQueue == old(recruitmentQueue) + [FromParams(key, operation.params)]
                && standardQueue == old(standardQueue)
      ensures operation.Delete? ==>
                standardQueue == Retain(old(standardQueue), OtherHeader(operation.header))
                && recruitmentQueue == Retain(old(recruitmentQueue), OtherHeader(operation.header))
    {
      match operation
      case Queue(params) =>
        Queue(params);
        response := Response.Ok;
      case Delete(header) =>
        Delete(header);
        response := Response.Ok;
      case List =>
        response := Response.List(ListQueues());
    }

    /**
     * Picks the next telegram to send: the first ready recruitment telegram
     * in queue order, otherwise the first ready standard telegram; the
     * picked telegram leaves its queue.
     */
    method GetTelegram(wait: SyncRatelimiter.Target -> nat) returns (telegram: Option<Telegram>)
      requires Valid()
      modifies this
      ensures Valid()
      ensures telegram.Some? ==> wait(SendTarget(telegram.value)) <= MaxCooldown
      ensures match FirstEligible(old(recruitmentQueue), RecruitmentReady(wait))
        case Some(i) =>
          && telegram == Some(old(recruitmentQueue)[i])
          && recruitmentQueue == RemoveAt(old(recruitmentQueue), i)
          && standardQueue == old(standardQueue)
        case None =>
          && recruitmentQueue == old(recruitmentQueue)
          && match FirstEligible(old(standardQueue), StandardReady(wait))
            case Some(i) =>
              telegram == Some(old(standardQueue)[i]) && standardQueue == RemoveAt(old(standardQueue), i)
            case None =>
              telegram == None && standardQueue == old(standardQueue)
    {
      var index := FindFirst(recruitmentQueue, RecruitmentReady(wait));
      if index.Some? {
        telegram := Some(recruitmentQueue[index.value]);
        recruitmentQueue := RemoveAt(recruitmentQueue, index.value);
        return;
      }
      index := FindFirst(standardQueue, StandardReady(wait));
      if index.Some? {
        telegram := Some(standardQueue[index.value]);
        standardQueue := RemoveAt(standardQueue, index.value);
        return;
      }
      telegram := None;
    }
  }
}
