/**
 * The telegram request record sent to the NationStates API (`a=sendTG`),
 * its construction from client parameters, and the telegram type names.
 */
module NsTelegram {
  import opened Wrappers

  datatype TelegramType = Recruitment | Standard

  datatype TelegramParams = TelegramParams(id: string, recipient: string, secretKey: string, telegramType: TelegramType)

  /** Identifies queued telegrams for deletion. */
  datatype TelegramHeader = TelegramHeader(recipient: string, telegramId: string)

  datatype Telegram = Telegram(action: string, clientKey: string, telegramId: string, secretKey: string, recipient: string)

  /** One entry of a queue listing: recipient and telegram id. */
  datatype ListedTelegram = ListedTelegram(recipient: string, telegramId: string)

  predicate IsUpper(c: char)
  {
    'A' <= c <= 'Z'
  }

  function LowerChar(c: char): (d: char)
    ensures !IsUpper(d)
    ensures IsUpper(c) ==> d as int == c as int + 32
    ensures !IsUpper(c) ==> d == c
  {
    if IsUpper(c) then (c as int + 32) as char else c
  }

  /** `to_lowercase`, on ASCII letters. */
  function Lowercase(s: string): (r: string)
    ensures |r| == |s|
    ensures forall i :: 0 <= i < |s| ==> r[i] == LowerChar(s[i])
  {
    if s == [] then [] else [LowerChar(s[0])] + Lowercase(s[1..])
  }

  /** `replace(" ", "_")`. */
  function ReplaceSpaces(s: string): (r: string)
    ensures |r| == |s|
    ensures forall i :: 0 <= i < |s| ==> r[i] == if s[i] == ' ' then '_' else s[i]
  {
    if s == [] then [] else [if s[0] == ' ' then '_' else s[0]] + ReplaceSpaces(s[1..])
  }

  /**
   * The recipient as the API expects it: lower-case with underscores for
   * spaces. It has no spaces and no upper-case letters, and keeps its length.
   */
  function NormalizeRecipient(s: string): (r: string)
    ensures |r| == |s|
    ensures ' ' !in r
    ensures forall i :: 0 <= i < |r| ==> !IsUpper(r[i])
  {
    ReplaceSpaces(Lowercase(s))
  }

  /** Character by character: a space becomes '_', a letter its lower case, anything else stays. */
  lemma NormalizedChars(s: string, i: nat)
    requires i < |s|
    ensures s[i] == ' ' ==> NormalizeRecipient(s)[i] == '_'
    ensures IsUpper(s[i]) ==> NormalizeRecipient(s)[i] as int == s[i] as int + 32
    ensures s[i] != ' ' && !IsUpper(s[i]) ==> NormalizeRecipient(s)[i] == s[i]
  {
  }

  /** Normalising an already normalised recipient changes nothing. */
  lemma NormalizeIdempotent(s: string)
    ensures NormalizeRecipient(NormalizeRecipient(s)) == NormalizeRecipient(s)
  {
    var n := NormalizeRecipient(s);
    assert forall i :: 0 <= i < |n| ==> NormalizeRecipient(n)[i] == n[i];
  }

  /** `Telegram::from_params`: the API request for a queued telegram. */
  function FromParams(clientKey: string, params: TelegramParams): (t: Telegram)
    ensures t.action == "sendTG" && t.clientKey == clientKey
    ensures t.telegramId == params.id && t.secretKey == params.secretKey
    ensures t.recipient == NormalizeRecipient(params.recipient)
    ensures ' ' !in t.recipient && |t.recipient| == |params.recipient|
  {
    Telegram("sendTG", clientKey, params.id, params.secretKey, NormalizeRecipient(params.recipient))
  }

  /** `Display`: the telegram id, a colon, the recipient. */
  function Display(t: Telegram): (s: string)
    ensures |s| == |t.telegramId| + 1 + |t.recipient|
    ensures s[..|t.telegramId|] == t.telegramId && s[|t.telegramId|] == ':'
    ensures s[|t.telegramId| + 1..] == t.recipient
  {
    t.telegramId + ":" + t.recipient
  }

  /** Splits a rendering at its first colon. */
  function ParseDisplay(s: string): (r: Option<(string, string)>)
    ensures r.None? <==> ':' !in s
    ensures r.Some? ==> s == r.value.0 + ":" + r.value.1 && ':' !in r.value.0
  {
    if s == [] then None
    else if s[0] == ':' then Some(([], s[1..]))
    else match ParseDisplay(s[1..])
      case None => None
      case Some(p) => Some(([s[0]] + p.0, p.1))
  }

  /** A telegram id without a colon, and the recipient, are recovered from the rendering. */
  lemma {:induction false} DisplayRoundTrip(t: Telegram)
    requires ':' !in t.telegramId
    ensures ParseDisplay(Display(t)) == Some((t.telegramId, t.recipient))
  {
    SplitAtFirstColon(t.telegramId, t.recipient);
  }

  lemma {:induction false} SplitAtFirstColon(a: string, b: string)
    requires ':' !in a
    ensures ParseDisplay(a + ":" + b) == Some((a, b))
    decreases |a|
  {
    if a == [] {
      assert a + ":" + b == [':'] + b;
    } else {
      assert (a + ":" + b)[1..] == a[1..] + ":" + b;
      SplitAtFirstColon(a[1..], b);
      assert [a[0]] + a[1..] == a;
    }
  }

  /** The wire name of a telegram type, which deserialises back to it. */
  function SerializeType(t: TelegramType): (s: string)
    ensures DeserializeType(s) == Success(t)
  {
    match t
    case Recruitment => "recruitment"
    case Standard => "standard"
  }

  /** Exactly the two names are accepted; anything else fails with "invalid telegram type". */
  function DeserializeType(s: string): (r: Result<TelegramType, string>)
    ensures r.Success? <==> s == "recruitment" || s == "standard"
    ensures r.Failure? ==> r.error == "invalid telegram type"
  {
    if s == "recruitment" then Success(Recruitment)
    else if s == "standard" then Success(Standard)
    else Failure("invalid telegram type")
  }

  /** An accepted name serialises back to itself. */
  lemma DeserializeSerializes(s: string)
    requires DeserializeType(s).Success?
    ensures SerializeType(DeserializeType(s).value) == s
  {
  }
}
