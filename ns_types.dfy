/**
 * The private-command vocabulary of the NationStates API: the command names,
 * the two modes of the prepare/execute exchange, and the two states a
 * private command request can be in.
 */
module NsTypes {

  datatype Command = Dispatch | RmbPost

  /** Prepare asks the API for a token; Execute carries the token back. */
  datatype Mode = Prepare | Execute

  /** The states of a private command request (the program's marker types). */
  datatype State = Unprepared | Prepared

  /** The private command's name: "dispatch" or "rmbpost", one per command. */
  function SerializeCommand(c: Command): (s: string)
    ensures s == "dispatch" || s == "rmbpost"
    ensures s == "dispatch" <==> c == Dispatch
  {
    match c
    case Dispatch => "dispatch"
    case RmbPost => "rmbpost"
  }

  /** The mode's name: "prepare" or "execute", one per mode. */
  function SerializeMode(m: Mode): (s: string)
    ensures s == "prepare" || s == "execute"
    ensures s == "prepare" <==> m == Prepare
  {
    match m
    case Prepare => "prepare"
    case Execute => "execute"
  }

  /** Distinct commands and distinct modes serialise to distinct strings, and no command name is a mode name. */
  lemma SerializationInjective(c: Command, d: Command, m: Mode, n: Mode)
    ensures SerializeCommand(c) == SerializeCommand(d) ==> c == d
    ensures SerializeMode(m) == SerializeMode(n) ==> m == n
    ensures SerializeCommand(c) != SerializeMode(m)
  {
  }
}
