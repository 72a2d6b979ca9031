/**
 * The dispatch category table of the NationStates API: each category and
 * subcategory pair has a numeric code (category, subcategory). The program
 * carries this table twice, with 16-bit signed and with 32-bit unsigned
 * codes; the table itself is defined once here, over integers.
 */
module Factbook {
  import opened Wrappers
  import opened Errors

  datatype FactbookSubcategory =
    | Overview | History | Geography | Culture | Politics | Legislation
    | Religion | Military | Economy | International | Trivia | Miscellaneous

  datatype BulletinSubcategory = Policy | News | Opinion | Campaign

  datatype AccountSubcategory = Military | Trade | Sport | Drama | Diplomacy | Science | Culture | Other

  datatype MetaSubcategory = Gameplay | Reference

  datatype FactbookCategory =
    | Factbook(factbook: FactbookSubcategory)
    | Bulletin(bulletin: BulletinSubcategory)
    | Account(account: AccountSubcategory)
    | Meta(meta: MetaSubcategory)

  /** The code pair of a category; the subcategory code's hundreds digit is the category code. */
  function ToTuple(c: FactbookCategory): (r: (int, int))
    ensures r.0 in {1, 3, 5, 8}
    ensures 100 <= r.1 < 900 && r.1 / 100 == r.0
  {
    match c
    case Factbook(s) =>
      (match s
      case Overview => (1, 100)
      case History => (1, 101)
      case Geography => (1, 102)
      case Culture => (1, 103)
      case Politics => (1, 104)
      case Legislation => (1, 105)
      case Religion => (1, 106)
      case Military => (1, 107)
      case Economy => (1, 108)
      case International => (1, 109)
      case Trivia => (1, 110)
      case Miscellaneous => (1, 111))
    case Bulletin(s) =>
      (match s
      case Policy => (3, 305)
      case News => (3, 315)
      case Opinion => (3, 325)
      case Campaign => (3, 385))
    case Account(s) =>
      (match s
      case Military => (5, 505)
      case Trade => (5, 515)
      case Sport => (5, 525)
      case Drama => (5, 535)
      case Diplomacy => (5, 545)
      case Science => (5, 555)
      case Culture => (5, 565)
      case Other => (5, 595))
    case Meta(s) =>
      (match s
      case Gameplay => (8, 835)
      case Reference => (8, 845))
  }

  /** The category of a code pair; any pair outside the table is InvalidFactbookCategory. */
  function TryFrom(codes: (int, int)): (r: Result<FactbookCategory, Error>)
    ensures r.Failure? ==> r.error == InvalidFactbookCategory
  {
    var (category, subcategory) := codes;
    if category == 1 then
      if subcategory == 100 then Success(Factbook(Overview))
      else if subcategory == 101 then Success(Factbook(History))
      else if subcategory == 102 then Success(Factbook(Geography))
      else if subcategory == 103 then Success(Factbook(FactbookSubcategory.Culture))
      else if subcategory == 104 then Success(Factbook(Politics))
      else if subcategory == 105 then Success(Factbook(Legislation))
      else if subcategory == 106 then Success(Factbook(Religion))
      else if subcategory == 107 then Success(Factbook(FactbookSubcategory.Military))
      else if subcategory == 108 then Success(Factbook(Economy))
      else if subcategory == 109 then Success(Factbook(International))
      else if subcategory == 110 then Success(Factbook(Trivia))
      else if subcategory == 111 then Success(Factbook(Miscellaneous))
      else Failure(InvalidFactbookCategory)
    else if category == 3 then
      if subcategory == 305 then Success(Bulletin(Policy))
      else if subcategory == 315 then Success(Bulletin(News))
      else if subcategory == 325 then Success(Bulletin(Opinion))
      else if subcategory == 385 then Success(Bulletin(Campaign))
      else Failure(InvalidFactbookCategory)
    else if category == 5 then
      if subcategory == 505 then Success(Account(AccountSubcategory.Military))
      else if subcategory == 515 then Success(Account(Trade))
      else if subcategory == 525 then Success(Account(Sport))
      else if subcategory == 535 then Success(Account(Drama))
      else if subcategory == 545 then Success(Account(Diplomacy))
      else if subcategory == 555 then Success(Account(Science))
      else if subcategory == 565 then Success(Account(AccountSubcategory.Culture))
      else if subcategory == 595 then Success(Account(Other))
      else Failure(InvalidFactbookCategory)
    else if category == 8 then
      if subcategory == 835 then Success(Meta(Gameplay))
      else if subcategory == 845 then Success(Meta(Reference))
      else Failure(InvalidFactbookCategory)
    else Failure(InvalidFactbookCategory)
  }

  /** Decoding the code pair of a category gives the category back. */
  lemma TryFromToTuple(c: FactbookCategory)
    ensures TryFrom(ToTuple(c)) == Success(c)
  {
  }

  /** A pair is accepted only if it is the code pair of the category it decodes to. */
  lemma ToTupleTryFrom(codes: (int, int))
    ensures TryFrom(codes).Success? ==> ToTuple(TryFrom(codes).value) == codes
  {
  }

  /** Distinct categories have distinct code pairs. */
  lemma ToTupleInjective(a: FactbookCategory, b: FactbookCategory)
    ensures ToTuple(a) == ToTuple(b) ==> a == b
  {
    TryFromToTuple(a);
    TryFromToTuple(b);
  }

  /** The category code is 1, 3, 5 or 8 exactly for Factbook, Bulletin, Account and Meta. */
  lemma CategoryCodes(c: FactbookCategory)
    ensures c.Factbook? <==> ToTuple(c).0 == 1
    ensures c.Bulletin? <==> ToTuple(c).0 == 3
    ensures c.Account? <==> ToTuple(c).0 == 5
    ensures c.Meta? <==> ToTuple(c).0 == 8
  {
  }

  /** A valid subcategory code under another category is refused. */
  lemma WrongCategoryRefused()
    ensures TryFrom((3, 100)) == Failure(InvalidFactbookCategory)
    ensures TryFrom((1, 305)) == Failure(InvalidFactbookCategory)
    ensures TryFrom((8, 505)) == Failure(InvalidFactbookCategory)
  {
  }
}
