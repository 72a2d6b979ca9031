/**
 * The message-driven nation table: a receiver owning a map from nation name
 * to credentials answers get-password, get-pin and set-pin commands, and the
 * sending side turns a password reply into a result.
 */
module SyncNations {
  import opened Wrappers
  import opened Errors
  import NsNation

  datatype Action =
    | GetPassword(nation: string)
    | GetPin(nation: string)
    | SetPin(nation: string, pin: string)

  datatype Response =
    | Ok
    | Password(password: Option<string>)
    | Pin(pin: Option<string>)

  /** The reply `process` sends for a command, given the table it holds. */
  function Reply(nations: map<string, NsNation.Nation>, action: Action): (r: Response)
    ensures action.GetPassword? ==> r.Password? && (r.password.Some? <==> action.nation in nations)
    ensures action.GetPassword? && r.password.Some? ==> r.password.value == nations[action.nation].password
    ensures action.GetPin? ==> r.Pin?
    ensures action.GetPin? && r.pin.Some? ==> action.nation in nations && nations[action.nation].pin == r.pin
    ensures action.GetPin? && action.nation in nations ==> r.pin == nations[action.nation].pin
    ensures action.SetPin? <==> r == Ok
  {
    match action
    case GetPassword(nation) =>
      if nation in nations then Password(Some(nations[nation].password)) else Password(None)
    case GetPin(nation) =>
      if nation in nations then Pin(nations[nation].pin) else Pin(None)
    case SetPin(_, _) => Ok
  }

  /**
   * The table after `process`: the same names, names and passwords; only a
   * set-pin on a present nation changes anything, and only that nation's pin.
   */
  function Updated(nations: map<string, NsNation.Nation>, action: Action): (m: map<string, NsNation.Nation>)
    ensures m.Keys == nations.Keys
    ensures forall k :: k in m ==> m[k].name == nations[k].name && m[k].password == nations[k].password
    ensures forall k :: k in m && !(action.SetPin? && action.nation == k) ==> m[k] == nations[k]
    ensures action.SetPin? && action.nation in m ==> m[action.nation].pin == Some(action.pin)
  {
    match action
    case SetPin(nation, pin) =>
      if nation in nations then nations[nation := nations[nation].(pin := Some(pin))] else nations
    case _ => nations
  }

  class Receiver {
    var nations: map<string, NsNation.Nation>

    /** A receiver starts with an empty table. */
    constructor ()
      ensures nations == map[]
    {
      nations := map[];
    }

    /** `process`: answers the command and applies it to the table. */
    method Process(action: Action) returns (response: Response)
      modifies this
      ensures response == Reply(old(nations), action)
      ensures nations == Updated(old(nations), action)
    {
      match action {
        case GetPassword(nation) =>
          if nation in nations {
            response := Password(Some(nations[nation].password));
          } else {
            response := Password(None);
          }
        case GetPin(nation) =>
          if nation in nations {
            response := Pin(nations[nation].pin);
          } else {
            response := Pin(None);
          }
        case SetPin(nation, pin) =>
          if nation in nations {
            nations := nations[nation := nations[nation].(pin := Some(pin))];
          }
          response := Ok;
      }
    }
  }

  /**
   * The sending side of `get_password`: `reply` is None when the command or
   * its answer was lost on the channel. A missing password is InvalidNation;
   * any reply other than a password is unreachable and panics.
   */
  function SenderGetPassword(reply: Option<Response>): (r: Result<string, Error>)
    ensures reply.None? ==> r == Failure(Internal)
    ensures r.Success? <==> reply.Some? && reply.value.Password? && reply.value.password.Some?
    ensures r.Success? ==> r.value == reply.value.password.value
    ensures reply.Some? && reply.value.Password? && reply.value.password.None? ==> r == Failure(InvalidNation)
    ensures reply.Some? && !reply.value.Password? ==> r == Failure(Panic)
  {
    match reply
    case None => Failure(Internal)
    case Some(Password(password)) =>
      (match password
       case Some(p) => Success(p)
       case None => Failure(InvalidNation))
    case Some(_) => Failure(Panic)
  }

  /** Reads leave the table as it was. */
  lemma ReadsDoNotModify(nations: map<string, NsNation.Nation>, nation: string)
    ensures Updated(nations, GetPassword(nation)) == nations
    ensures Updated(nations, GetPin(nation)) == nations
  {
  }

  /**
   * A password request answered by the receiver yields the stored password
   * for a known nation and InvalidNation otherwise; it never panics.
   */
  lemma GetPasswordEndToEnd(nations: map<string, NsNation.Nation>, nation: string)
    ensures var r := SenderGetPassword(Some(Reply(nations, GetPassword(nation))));
      && (nation in nations ==> r == Success(nations[nation].password))
      && (nation !in nations ==> r == Failure(InvalidNation))
  {
  }

  /** A set pin is what the next get-pin for that nation answers. */
  lemma SetThenGetPin(nations: map<string, NsNation.Nation>, nation: string, pin: string)
    requires nation in nations
    ensures Reply(Updated(nations, SetPin(nation, pin)), GetPin(nation)) == Pin(Some(pin))
  {
  }

  /** Setting the pin of an absent nation changes nothing, yet is answered Ok. */
  lemma SetPinAbsent(nations: map<string, NsNation.Nation>, nation: string, pin: string)
    requires nation !in nations
    ensures Updated(nations, SetPin(nation, pin)) == nations
    ensures Reply(nations, SetPin(nation, pin)) == Ok
    ensures Reply(Updated(nations, SetPin(nation, pin)), GetPin(nation)) == Pin(None)
  {
  }

  /**
   * The pin reply cannot tell an unknown nation from a known one without a
   * pin: both are answered Pin(None).
   */
  lemma PinReplyAmbiguous(nations: map<string, NsNation.Nation>, nation: string)
    requires nation in nations && nations[nation].pin.None?
    ensures Reply(nations, GetPin(nation)) == Reply(nations - {nation}, GetPin(nation)) == Pin(None)
  {
  }
}
