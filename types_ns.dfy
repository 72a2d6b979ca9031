/**
 * The older dispatch request record: built by one constructor from a
 * command, an action and an optional category, with the category codes
 * 32-bit unsigned and the command, action and mode stored as their
 * display strings.
 */
module TypesNs {
  import opened Wrappers
  import opened Errors
  import opened Factbook
  import NsTypes

  newtype u32 = x: int | 0 <= x < 0x1_0000_0000

  datatype Command = Dispatch

  datatype DispatchAction = Add | Edit(id: u32) | Remove(id: u32)

  datatype NewDispatchParams = NewDispatchParams(title: string, text: string, category: u32, subcategory: u32)

  datatype EditDispatchParams = EditDispatchParams(id: u32, title: string, text: string, category: u32, subcategory: u32)

  datatype RemoveDispatchParams = RemoveDispatchParams(id: u32)

  /** `to_tuple` with 32-bit codes: every code of the table fits. */
  function Codes(c: FactbookCategory): (r: (u32, u32))
    ensures r.0 as int == ToTuple(c).0 && r.1 as int == ToTuple(c).1
    ensures r.0 in {1, 3, 5, 8}
  {
    (ToTuple(c).0 as u32, ToTuple(c).1 as u32)
  }

  /** `try_from` on a 32-bit code pair. */
  function TryFromCodes(codes: (u32, u32)): (r: Result<FactbookCategory, Error>)
    ensures r.Failure? ==> r.error == InvalidFactbookCategory
  {
    TryFrom((codes.0 as int, codes.1 as int))
  }

  /** Every category survives the trip through its 32-bit codes. */
  lemma CodesRoundTrip(c: FactbookCategory)
    ensures TryFromCodes(Codes(c)) == Success(c)
  {
    TryFromToTuple(c);
  }

  /** Only pairs of the table decode, each to the category whose codes they are. */
  lemma OnlyTableCodes(codes: (u32, u32))
    ensures TryFromCodes(codes).Success? ==> Codes(TryFromCodes(codes).value) == codes
  {
    ToTupleTryFrom((codes.0 as int, codes.1 as int));
  }

  /** `Display for Command`: the private command name. */
  function CommandDisplay(c: Command): (s: string)
    ensures s == NsTypes.SerializeCommand(NsTypes.Dispatch)
  {
    "dispatch"
  }

  /** `Display for DispatchAction`: the action's name, without its id. */
  function ActionDisplay(a: DispatchAction): (s: string)
    ensures s == "add" || s == "edit" || s == "remove"
    ensures s == "add" <==> a.Add?
    ensures s == "edit" <==> a.Edit?
  {
    match a
    case Add => "add"
    case Edit(_) => "edit"
    case Remove(_) => "remove"
  }

  /** Two actions display alike exactly when they are the same kind; the id never shows. */
  lemma ActionDisplayKinds(a: DispatchAction, b: DispatchAction)
    ensures ActionDisplay(a) == ActionDisplay(b) <==> (a.Add? && b.Add?) || (a.Edit? && b.Edit?) || (a.Remove? && b.Remove?)
  {
  }

  /** The id a request carries: the action's id for Edit and Remove, none for Add. */
  function ActionId(a: DispatchAction): (id: Option<u32>)
    ensures id.Some? <==> !a.Add?
    ensures id.Some? ==> id.value == a.id
  {
    match a
    case Edit(n) => Some(n)
    case Remove(n) => Some(n)
    case Add => None
  }

  class DispatchRequest {
    var id: Option<u32>
    var nation: string
    var command: string
    var action: string
    var title: Option<string>
    var text: Option<string>
    var category: Option<u32>
    var subcategory: Option<u32>
    var mode: string
    var token: Option<string>

    /**
     * `Dispatch::new`: the id of Edit and Remove, the display strings, both
     * codes or neither, mode "prepare" and no token.
     */
    constructor (nation: string, command: Command, action: DispatchAction, title: Option<string>, text: Option<string>,
                 factbookCategory: Option<FactbookCategory>)
      ensures id == ActionId(action)
      ensures this.nation == nation && this.command == CommandDisplay(command) && this.action == ActionDisplay(action)
      ensures this.title == title && this.text == text
      ensures category.Some? <==> subcategory.Some?
      ensures factbookCategory.Some? ==>
                category == Some(Codes(factbookCategory.value).0) && subcategory == Some(Codes(factbookCategory.value).1)
      ensures factbookCategory.None? ==> category == None
      ensures mode == NsTypes.SerializeMode(NsTypes.Prepare) && token == None
    {
      id := ActionId(action);
      var (c, s) := match factbookCategory
        case Some(fc) => (Some(Codes(fc).0), Some(Codes(fc).1))
        case None => (None, None);
      this.nation := nation;
      this.command := CommandDisplay(command);
      this.action := ActionDisplay(action);
      this.title := title;
      this.text := text;
      category := c;
      subcategory := s;
      mode := NsTypes.SerializeMode(NsTypes.Prepare);
      token := None;
    }

    /** Stores the mode's display string and changes nothing else. */
    method SetMode(mode: NsTypes.Mode)
      modifies this`mode
      ensures this.mode == NsTypes.SerializeMode(mode)
    {
      this.mode := NsTypes.SerializeMode(mode);
    }

    /** Stores the token and changes nothing else. */
    method SetToken(token: string)
      modifies this`token
      ensures this.token == Some(token)
    {
      this.token := Some(token);
    }
  }

  /** A new dispatch: "add", no id, title, text and codes, command "dispatch", mode "prepare", no token; fails exactly when the code pair is not in the table. */
  method TryFromNewParams(params: NewDispatchParams, nation: string) returns (r: Result<DispatchRequest, Error>)
    ensures r.Success? <==> TryFromCodes((params.category, params.subcategory)).Success?
    ensures r.Failure? ==> r.error == InvalidFactbookCategory
    ensures r.Success? ==>
      && fresh(r.value)
      && r.value.id == None && r.value.action == "add" && r.value.nation == nation
      && r.value.title == Some(params.title) && r.value.text == Some(params.text)
      && r.value.category == Some(params.category) && r.value.subcategory == Some(params.subcategory)
      && r.value.command == "dispatch" && r.value.mode == "prepare" && r.value.token == None
  {
    OnlyTableCodes((params.category, params.subcategory));
    match TryFromCodes((params.category, params.subcategory))
    case Failure(e) =>
      return Failure(e);
    case Success(category) =>
      var d := new DispatchRequest(nation, Dispatch, Add, Some(params.title), Some(params.text), Some(category));
      return Success(d);
  }

  /** An edit: "edit", the id, title, text and codes, command "dispatch", mode "prepare", no token; fails exactly when the code pair is not in the table. */
  method TryFromEditParams(params: EditDispatchParams, nation: string) returns (r: Result<DispatchRequest, Error>)
    ensures r.Success? <==> TryFromCodes((params.category, params.subcategory)).Success?
    ensures r.Failure? ==> r.error == InvalidFactbookCategory
    ensures r.Success? ==>
      && fresh(r.value)
      && r.value.id == Some(params.id) && r.value.action == "edit" && r.value.nation == nation
      && r.value.title == Some(params.title) && r.value.text == Some(params.text)
      && r.value.category == Some(params.category) && r.value.subcategory == Some(params.subcategory)
      && r.value.command == "dispatch" && r.value.mode == "prepare" && r.value.token == None
  {
    OnlyTableCodes((params.category, params.subcategory));
    match TryFromCodes((params.category, params.subcategory))
    case Failure(e) =>
      return Failure(e);
    case Success(category) =>
      var d := new DispatchRequest(nation, Dispatch, Edit(params.id), Some(params.title), Some(params.text), Some(category));
      return Success(d);
  }

  /** A removal: "remove", the id, no title, text or codes, command "dispatch", mode "prepare", no token. */
  method FromRemoveParams(params: RemoveDispatchParams, nation: string) returns (d: DispatchRequest)
    ensures fresh(d)
    ensures d.id == Some(params.id) && d.action == "remove" && d.nation == nation
    ensures d.title == None && d.text == None && d.category == None && d.subcategory == None
    ensures d.command == "dispatch" && d.mode == "prepare" && d.token == None
  {
    d := new DispatchRequest(nation, Dispatch, Remove(params.id), None, None, None);
  }
}
