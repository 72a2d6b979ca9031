/**
 * Dispatch requests of the API front-end: the three dispatch actions built
 * from request parameters, and the private-command record sent to the
 * NationStates API for an action. Category codes are 16-bit signed here and
 * dispatch ids 32-bit signed.
 */
module NsDispatch {
  import opened Wrappers
  import opened Errors
  import opened Factbook
  import NsTypes

  newtype i16 = x: int | -0x8000 <= x < 0x8000
  newtype i32 = x: int | -0x8000_0000 <= x < 0x8000_0000

  datatype NewDispatch = NewDispatch(nation: string, title: string, text: string, category: i16, subcategory: i16)

  datatype EditDispatch = EditDispatch(title: string, text: string, category: i16, subcategory: i16)

  datatype Action =
    | Add(nation: string, title: string, text: string, category: FactbookCategory)
    | Edit(id: i32, nation: string, title: string, text: string, category: FactbookCategory)
    | Remove(id: i32, nation: string)

  /** `to_tuple` with 16-bit codes: every code of the table fits. */
  function Codes(c: FactbookCategory): (r: (i16, i16))
    ensures r.0 as int == ToTuple(c).0 && r.1 as int == ToTuple(c).1
    ensures r.0 in {1, 3, 5, 8}
  {
    (ToTuple(c).0 as i16, ToTuple(c).1 as i16)
  }

  /** `try_from` on a 16-bit code pair. */
  function TryFromCodes(codes: (i16, i16)): (r: Result<FactbookCategory, Error>)
    ensures r.Failure? ==> r.error == InvalidFactbookCategory
  {
    TryFrom((codes.0 as int, codes.1 as int))
  }

  /** Every category survives the trip through its 16-bit codes. */
  lemma CodesRoundTrip(c: FactbookCategory)
    ensures TryFromCodes(Codes(c)) == Success(c)
  {
    TryFromToTuple(c);
  }

  /** Only pairs of the table decode, each to the category whose codes they are. */
  lemma OnlyTableCodes(codes: (i16, i16))
    ensures TryFromCodes(codes).Success? ==> Codes(TryFromCodes(codes).value) == codes
  {
    ToTupleTryFrom((codes.0 as int, codes.1 as int));
  }

  /** `Action::add`: fails exactly when the code pair is not in the table. */
  function AddAction(params: NewDispatch): (r: Result<Action, Error>)
    ensures r.Success? <==> TryFromCodes((params.category, params.subcategory)).Success?
    ensures r.Success? ==>
      && r.value.Add? && r.value.nation == params.nation
      && r.value.title == params.title && r.value.text == params.text
      && Codes(r.value.category) == (params.category, params.subcategory)
    ensures r.Failure? ==> r.error == InvalidFactbookCategory
  {
    OnlyTableCodes((params.category, params.subcategory));
    match TryFromCodes((params.category, params.subcategory))
    case Success(category) => Success(Add(params.nation, params.title, params.text, category))
    case Failure(e) => Failure(e)
  }

  /** `Action::edit`: fails exactly when the code pair is not in the table. */
  function EditAction(id: i32, nation: string, params: EditDispatch): (r: Result<Action, Error>)
    ensures r.Success? <==> TryFromCodes((params.category, params.subcategory)).Success?
    ensures r.Success? ==>
      && r.value.Edit? && r.value.id == id && r.value.nation == nation
      && r.value.title == params.title && r.value.text == params.text
      && Codes(r.value.category) == (params.category, params.subcategory)
    ensures r.Failure? ==> r.error == InvalidFactbookCategory
  {
    OnlyTableCodes((params.category, params.subcategory));
    match TryFromCodes((params.category, params.subcategory))
    case Success(category) => Success(Edit(id, nation, params.title, params.text, category))
    case Failure(e) => Failure(e)
  }

  /** `Action::remove`: needs no category, so it cannot fail. */
  function RemoveAction(id: i32, nation: string): (r: Action)
    ensures r.Remove? && r.id == id && r.nation == nation
  {
    Remove(id, nation)
  }

  /** The `dispatch` field of the request: the action's name. */
  function ActionName(a: Action): (name: string)
    ensures name in {"add", "edit", "remove"}
    ensures a.Add? <==> name == "add"
    ensures a.Edit? <==> name == "edit"
  {
    match a
    case Add(_, _, _, _) => "add"
    case Edit(_, _, _, _, _) => "edit"
    case Remove(_, _) => "remove"
  }

  /** The request record for a dispatch action (command `dispatch`). */
  class Dispatch {
    var id: Option<i32>
    var nation: string
    var command: string
    var action: string
    var title: Option<string>
    var text: Option<string>
    var category: Option<i16>
    var subcategory: Option<i16>
    var mode: NsTypes.Mode
    var token: Option<string>

    /**
     * `From<Action>`: an id only for Edit and Remove; title, text and codes
     * only for Add and Edit; always in mode Prepare without a token.
     */
    constructor FromAction(a: Action)
      ensures id == if a.Add? then None else Some(a.id)
      ensures nation == a.nation && command == NsTypes.SerializeCommand(NsTypes.Dispatch) && action == ActionName(a)
      ensures a.Remove? ==> title == None && text == None && category == None && subcategory == None
      ensures !a.Remove? ==>
        && title == Some(a.title) && text == Some(a.text)
        && category == Some(Codes(a.category).0) && subcategory == Some(Codes(a.category).1)
      ensures mode == NsTypes.Prepare && token == None
    {
      match a
      case Add(nation, title, text, category) =>
        id := None;
        this.nation := nation;
        command := "dispatch";
        action := "add";
        this.title := Some(title);
        this.text := Some(text);
        this.category := Some(Codes(category).0);
        subcategory := Some(Codes(category).1);
        mode := NsTypes.Prepare;
        token := None;
      case Edit(id, nation, title, text, category) =>
        this.id := Some(id);
        this.nation := nation;
        command := "dispatch";
        action := "edit";
        this.title := Some(title);
        this.text := Some(text);
        this.category := Some(Codes(category).0);
        subcategory := Some(Codes(category).1);
        mode := NsTypes.Prepare;
        token := None;
      case Remove(id, nation) =>
        this.id := Some(id);
        this.nation := nation;
        command := "dispatch";
        action := "remove";
        title := None;
        text := None;
        category := None;
        subcategory := None;
        mode := NsTypes.Prepare;
        token := None;
    }

    /** Changes the mode and nothing else. */
    method SetMode(mode: NsTypes.Mode)
      modifies this`mode
      ensures this.mode == mode
    {
      this.mode := mode;
    }

    /** Stores the token and changes nothing else. */
    method SetToken(token: string)
      modifies this`token
      ensures this.token == Some(token)
    {
      this.token := Some(token);
    }
  }
}
