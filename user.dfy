/**
 * Account registration: the guards on the requested username and password,
 * the user record created, and the claims of the token issued for it.
 * Hashing and the database insert are foreign; their outcomes are
 * parameters.
 */
module User {
  import opened Wrappers
  import opened Errors

  /** Seconds in the one day a token stays valid. */
  const TokenLifetime: nat := 86400

  const Issuer: string := "https://api.europeia.dev"

  const ShortPasswordMessage: string := "Password must be at least 8 characters"

  datatype AuthorizedUser = AuthorizedUser(id: int, username: string, passwordHash: string, claims: seq<string>)

  datatype Claims = Claims(exp: nat, iat: nat, sub: string, iss: string)

  /** What the insert of the new row came back with. */
  datatype InsertOutcome = Inserted(id: int) | UniqueViolation | DatabaseError(message: string)

  /** A character of the class `[a-zA-Z0-9_-]`. */
  predicate UsernameChar(c: char)
  {
    ('a' <= c <= 'z') || ('A' <= c <= 'Z') || ('0' <= c <= '9') || c == '_' || c == '-'
  }

  /** The whole username matches `^[a-zA-Z0-9_-]{3,20}$`; such a name is plain ASCII. */
  predicate ValidUsername(s: string)
    ensures ValidUsername(s) ==> forall i :: 0 <= i < |s| ==> s[i] as int < 0x80
  {
    3 <= |s| <= 20 && forall i :: 0 <= i < |s| ==> UsernameChar(s[i])
  }

  /** Bytes in the UTF-8 encoding of one character. */
  function Utf8Width(c: char): (n: nat)
    ensures 1 <= n <= 4
    ensures n == 1 <==> c as int < 0x80
  {
    if c as int < 0x80 then 1
    else if c as int < 0x800 then 2
    else if c as int < 0x1_0000 then 3
    else 4
  }

  /** `str::len`: the length of the UTF-8 encoding, between one and four bytes per character. */
  function Utf8Length(s: string): (n: nat)
    ensures |s| <= n <= 4 * |s|
  {
    if s == [] then 0 else Utf8Width(s[0]) + Utf8Length(s[1..])
  }

  /** For ASCII text the byte length is the character count. */
  lemma {:induction false} Utf8LengthAscii(s: string)
    requires forall i :: 0 <= i < |s| ==> s[i] as int < 0x80
    ensures Utf8Length(s) == |s|
  {
    if s != [] {
      Utf8LengthAscii(s[1..]);
    }
  }

  /** The claims of a token issued at `now` (seconds): valid for one day, for this user, from this issuer. */
  function ClaimsFor(username: string, now: nat): (c: Claims)
    ensures c.iat == now && c.exp == c.iat + TokenLifetime
    ensures c.sub == username && c.iss == Issuer
  {
    Claims(now + TokenLifetime, now, username, Issuer)
  }

  /**
   * `register`: the username guard, then the password guard on its byte
   * length, then hashing and the insert; a new user has no claims.
   */
  function Register(username: string, password: string, hashed: Result<string, string>,
                    inserted: InsertOutcome, now: nat): (r: Result<(AuthorizedUser, Claims), Error>)
    ensures !ValidUsername(username) ==> r == Failure(InvalidUsername)
    ensures ValidUsername(username) && Utf8Length(password) < 8 ==> r == Failure(InvalidPassword(ShortPasswordMessage))
    ensures r.Success? <==> ValidUsername(username) && Utf8Length(password) >= 8 && hashed.Success? && inserted.Inserted?
    ensures r.Success? ==>
      && r.value.0 == AuthorizedUser(inserted.id, username, hashed.value, [])
      && r.value.1 == ClaimsFor(username, now)
    ensures ValidUsername(username) && Utf8Length(password) >= 8 && hashed.Failure? ==>
      r == Failure(Bcrypt(hashed.error))
    ensures ValidUsername(username) && Utf8Length(password) >= 8 && hashed.Success? && inserted.UniqueViolation? ==>
      r == Failure(UserAlreadyExists)
    ensures ValidUsername(username) && Utf8Length(password) >= 8 && hashed.Success? && inserted.DatabaseError? ==>
      r == Failure(Sql(inserted.message))
  {
    if !ValidUsername(username) then Failure(InvalidUsername)
    else if Utf8Length(password) < 8 then Failure(InvalidPassword(ShortPasswordMessage))
    else match hashed
      case Failure(message) => Failure(Bcrypt(message))
      case Success(hash) =>
        match inserted
        case UniqueViolation => Failure(UserAlreadyExists)
        case DatabaseError(message) => Failure(Sql(message))
        case Inserted(id) => Success((AuthorizedUser(id, username, hash, []), ClaimsFor(username, now)))
  }

  /**
   * The password guard counts bytes, not characters: four two-byte letters
   * pass it while seven ASCII letters do not.
   */
  lemma PasswordGuardCountsBytes()
    ensures Utf8Length("\U{E9}\U{E9}\U{E9}\U{E9}") >= 8
    ensures Utf8Length("abcdefg") < 8
  {
    assert Utf8Length("\U{E9}") == 2;
    assert "\U{E9}\U{E9}\U{E9}\U{E9}"[1..] == "\U{E9}\U{E9}\U{E9}";
    assert "\U{E9}\U{E9}\U{E9}"[1..] == "\U{E9}\U{E9}";
    assert "\U{E9}\U{E9}"[1..] == "\U{E9}";
    Utf8LengthAscii("abcdefg");
  }

  /** A username of the pattern has between 3 and 20 bytes, one per character. */
  lemma UsernameBytes(s: string)
    requires ValidUsername(s)
    ensures 3 <= Utf8Length(s) <= 20
  {
    Utf8LengthAscii(s);
  }

  /** Samples of the pattern: its bounds are inclusive, and '.' and ' ' are refused. */
  lemma UsernameSamples()
    ensures ValidUsername("abc") && ValidUsername("user_name-01")
    ensures !ValidUsername("ab") && !ValidUsername("a.bc") && !ValidUsername("a bc")
    ensures ValidUsername("abcdefghijklmnopqrst") && !ValidUsername("abcdefghijklmnopqrstu")
  {
    assert !UsernameChar('.') && !UsernameChar(' ');
    assert "a.bc"[1] == '.';
    assert "a bc"[1] == ' ';
  }
}
