/**
 * The nation credential table the API front-end acts with: nation name to
 * password and optional pin, read from a "name:password,name:password"
 * configuration string.
 */
module NsNation {
  import opened Wrappers
  import opened Errors

  datatype Nation = Nation(name: string, password: string, pin: Option<string>)

  /** A nation as configured: no pin until the API hands one out. */
  function NewNation(name: string, password: string): (n: Nation)
    ensures n.name == name && n.password == password && n.pin == None
  {
    Nation(name, password, None)
  }

  /** `str::split(sep)`: the pieces between separators; always at least one, possibly empty. */
  function Split(s: string, sep: char): (pieces: seq<string>)
    ensures |pieces| >= 1
    ensures forall i :: 0 <= i < |pieces| ==> sep !in pieces[i]
  {
    if s == [] then [[]]
    else
      var rest := Split(s[1..], sep);
      if s[0] == sep then [[]] + rest else [[s[0]] + rest[0]] + rest[1..]
  }

  /** The pieces glued back together with the separator. */
  function Join(pieces: seq<string>, sep: char): string
  {
    if |pieces| <= 1 then (if pieces == [] then [] else pieces[0])
    else pieces[0] + [sep] + Join(pieces[1..], sep)
  }

  /** Splitting loses nothing: joining the pieces gives the string back. */
  lemma {:induction false} SplitJoin(s: string, sep: char)
    ensures Join(Split(s, sep), sep) == s
    decreases |s|
  {
    if s != [] {
      var rest := Split(s[1..], sep);
      SplitJoin(s[1..], sep);
      if s[0] == sep {
        assert Split(s, sep) == [[]] + rest;
        assert ([[]] + rest)[1..] == rest;
      } else {
        var pieces := [[s[0]] + rest[0]] + rest[1..];
        assert Split(s, sep) == pieces;
        if |rest| == 1 {
          assert Join(pieces, sep) == [s[0]] + rest[0];
        } else {
          assert pieces[1..] == rest[1..];
          assert Join(pieces, sep) == [s[0]] + (rest[0] + [sep] + Join(rest[1..], sep));
        }
      }
    }
  }

  /** One configured "name:password" segment: text after a second ':' is ignored; no ':' panics. */
  function ParseEntry(segment: string): (r: Result<(string, Nation), Error>)
    ensures r.Failure? <==> ':' !in segment
    ensures r.Failure? ==> r.error == Panic
    ensures r.Success? ==> |Split(segment, ':')| >= 2
    ensures r.Success? ==> r.value.1 == NewNation(r.value.0, Split(segment, ':')[1]) && r.value.0 == Split(segment, ':')[0]
  {
    var parts := Split(segment, ':');
    SplitJoin(segment, ':');
    if |parts| < 2 then Failure(Panic)
    else Success((parts[0], NewNation(parts[0], parts[1])))
  }

  function ParseEntries(segments: seq<string>): (r: Result<seq<(string, Nation)>, Error>)
    ensures r.Success? <==> forall i :: 0 <= i < |segments| ==> ':' in segments[i]
    ensures r.Success? ==> |r.value| == |segments|
    ensures r.Success? ==> forall i :: 0 <= i < |segments| ==> ParseEntry(segments[i]) == Success(r.value[i])
    ensures r.Failure? ==> r.error == Panic
  {
    if segments == [] then Success([])
    else
      match ParseEntry(segments[0])
      case Failure(e) => Failure(e)
      case Success(entry) =>
        match ParseEntries(segments[1..])
        case Failure(e) => Failure(e)
        case Success(rest) => Success([entry] + rest)
  }

  /** `collect()` into a map: entries are inserted in order, so a later key overwrites an earlier one. */
  function Collect(entries: seq<(string, Nation)>): (m: map<string, Nation>)
    ensures forall i :: 0 <= i < |entries| ==> entries[i].0 in m
    ensures forall k :: k in m ==> exists i :: 0 <= i < |entries| && entries[i].0 == k && m[k] == entries[i].1
  {
    if entries == [] then map[]
    else Collect(entries[..|entries| - 1])[entries[|entries| - 1].0 := entries[|entries| - 1].1]
  }

  /** The value kept for a key is the one from its last entry. */
  lemma {:induction false} CollectLastWins(entries: seq<(string, Nation)>, i: nat)
    requires i < |entries|
    requires forall j :: i < j < |entries| ==> entries[j].0 != entries[i].0
    ensures Collect(entries)[entries[i].0] == entries[i].1
    decreases |entries|
  {
    if i < |entries| - 1 {
      CollectLastWins(entries[..|entries| - 1], i);
    }
  }

  /** `create_nations_map`: fails exactly when some comma-separated segment has no ':'. */
  function CreateNationsMap(nations: string): (r: Result<map<string, Nation>, Error>)
    ensures r.Success? <==> forall i :: 0 <= i < |Split(nations, ',')| ==> ':' in Split(nations, ',')[i]
    ensures r.Failure? ==> r.error == Panic
  {
    var segments := Split(nations, ',');
    match ParseEntries(segments)
    case Failure(e) =>
      var i :| 0 <= i < |segments| && ':' !in segments[i];
      assert ':' !in Split(nations, ',')[i];
      Failure(e)
    case Success(entries) => Success(Collect(entries))
  }

  /**
   * In a parsed table every segment's name is a key, and each key holds the
   * password of its last segment, with no pin.
   */
  lemma CreatedEntries(nations: string, i: nat)
    requires CreateNationsMap(nations).Success?
    requires i < |Split(nations, ',')|
    requires forall j :: i < j < |Split(nations, ',')| ==>
               Split(Split(nations, ',')[j], ':')[0] != Split(Split(nations, ',')[i], ':')[0]
    ensures var segment := Split(Split(nations, ',')[i], ':');
      && segment[0] in CreateNationsMap(nations).value
      && CreateNationsMap(nations).value[segment[0]] == NewNation(segment[0], segment[1])
  {
    var entries := ParseEntries(Split(nations, ',')).value;
    CollectLastWins(entries, i);
  }

  /** Every key of a parsed table comes from some segment, and no nation starts with a pin. */
  lemma CreatedKeys(nations: string, name: string)
    requires CreateNationsMap(nations).Success?
    requires name in CreateNationsMap(nations).value
    ensures exists i :: 0 <= i < |Split(nations, ',')| && Split(Split(nations, ',')[i], ':')[0] == name
    ensures CreateNationsMap(nations).value[name].pin == None
    ensures CreateNationsMap(nations).value[name].name == name
  {
    var segments := Split(nations, ',');
    var entries := ParseEntries(segments).value;
    var i :| 0 <= i < |entries| && entries[i].0 == name && Collect(entries)[name] == entries[i].1;
    assert ParseEntry(segments[i]) == Success(entries[i]);
  }

  class NationList {
    var nations: map<string, Nation>

    constructor (nations: map<string, Nation>)
      ensures this.nations == nations
    {
      this.nations := nations;
    }

    function ContainsNation(name: string): (b: bool)
      reads this
      ensures b <==> name in nations
    {
      name in nations
    }

    /** The stored password; InvalidNation for an unknown name. */
    function GetPassword(name: string): (r: Result<string, Error>)
      reads this
      ensures r.Success? <==> name in nations
      ensures r.Success? ==> r.value == nations[name].password
      ensures r.Failure? ==> r.error == InvalidNation
    {
      if name in nations then Success(nations[name].password) else Failure(InvalidNation)
    }

    /** The stored pin, "" when there is none yet; InvalidNation for an unknown name. */
    function GetPin(name: string): (r: Result<string, Error>)
      reads this
      ensures r.Success? <==> name in nations
      ensures r.Success? && nations[name].pin.Some? ==> r.value == nations[name].pin.value
      ensures r.Success? && nations[name].pin.None? ==> r.value == ""
      ensures r.Failure? ==> r.error == InvalidNation
    {
      if name !in nations then Failure(InvalidNation)
      else match nations[name].pin
        case Some(pin) => Success(pin)
        case None => Success("")
    }

    /** Stores a known nation's pin; an unknown name is InvalidNation and changes nothing. */
    method SetPin(name: string, pin: string) returns (r: Result<(), Error>)
      modifies this`nations
      ensures old(name in nations) ==> r.Success? && nations == old(nations)[name := old(nations)[name].(pin := Some(pin))]
      ensures old(name !in nations) ==> r == Failure(InvalidNation) && nations == old(nations)
      ensures old(name in nations) ==> GetPin(name) == Success(pin)
      ensures forall other :: other != name ==> GetPin(other) == old(GetPin(other)) && GetPassword(other) == old(GetPassword(other))
    {
      if name in nations {
        nations := nations[name := nations[name].(pin := Some(pin))];
        r := Success(());
      } else {
        r := Failure(InvalidNation);
      }
    }
  }
}
