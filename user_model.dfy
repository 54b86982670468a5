/** The stored account document (`User`) and the ObjectId that keys it. */
module UserModel {
  import opened Common
  import opened Auth

  predicate IsHexDigit(c: char)
  {
    '0' <= c <= '9' || 'a' <= c <= 'f' || 'A' <= c <= 'F'
  }

  predicate IsLowerHexDigit(c: char)
  {
    '0' <= c <= '9' || 'a' <= c <= 'f'
  }

  predicate IsObjectIdText(s: string)
  {
    |s| == 24 && forall i | 0 <= i < |s| :: IsLowerHexDigit(s[i])
  }

  /** A document id as `str(id)` writes it: 24 lower-case hexadecimal digits. */
  type ObjectId = s: string | IsObjectIdText(s) witness "000000000000000000000000"

  function LowerHexDigit(c: char): (d: char)
    requires IsHexDigit(c)
    ensures IsLowerHexDigit(d)
    ensures IsLowerHexDigit(c) ==> d == c
  {
    if 'A' <= c <= 'F' then (c as int - 'A' as int + 'a' as int) as char else c
  }

  /** The characters `bytes.fromhex` skips before a pair of digits: space,
      tab, line feed, carriage return, vertical tab and form feed. */
  predicate IsAsciiSpace(c: char)
  {
    c == ' ' || c == '\t' || c == '\n' || c == '\r' || c == '\U{B}' || c == '\U{C}'
  }

  /** `bytes.fromhex(s)`, given as the lower-case hexadecimal text of the
      bytes it produces: whitespace may come before any pair of digits, but
      the two digits of a pair must be adjacent. */
  function FromHex(s: string): (r: Option<string>)
    ensures r.Some? ==> |r.value| % 2 == 0 && |r.value| <= |s|
    ensures r.Some? ==> forall i | 0 <= i < |r.value| :: IsLowerHexDigit(r.value[i])
    ensures r.Some? && |r.value| == |s| ==>
              forall i | 0 <= i < |s| :: IsHexDigit(s[i]) && r.value[i] == LowerHexDigit(s[i])
    ensures |s| % 2 == 0 && (forall i | 0 <= i < |s| :: IsHexDigit(s[i])) ==> r.Some? && |r.value| == |s|
    decreases |s|
  {
    if s == [] then Some([])
    else if IsAsciiSpace(s[0]) then FromHex(s[1..])
    else if |s| >= 2 && IsHexDigit(s[0]) && IsHexDigit(s[1]) then
      match FromHex(s[2..])
      case None => None
      case Some(rest) => Some([LowerHexDigit(s[0]), LowerHexDigit(s[1])] + rest)
    else None
  }

  /** `PydanticObjectId(s)` on a text: bson accepts exactly the texts of 24
      characters that `bytes.fromhex` accepts, and the id is the hexadecimal
      text of those bytes. Only 24 hexadecimal digits give a full 12-byte id;
      a text padded with whitespace gives a shorter id. */
  function ParseObjectId(s: string): (r: Option<string>)
    ensures r.Some? ==> |s| == 24 && |r.value| % 2 == 0 && |r.value| <= 24
    ensures r.Some? ==> forall i | 0 <= i < |r.value| :: IsLowerHexDigit(r.value[i])
    ensures r.Some? ==> (IsObjectIdText(r.value) <==> forall i | 0 <= i < |s| :: IsHexDigit(s[i]))
    ensures |s| == 24 && (forall i | 0 <= i < |s| :: IsHexDigit(s[i])) ==>
              r.Some? && forall i | 0 <= i < |s| :: r.value[i] == LowerHexDigit(s[i])
  {
    if |s| == 24 then FromHex(s) else None
  }

  /** `PydanticObjectId(str(id)) == id`. */
  lemma ParseObjectIdText(id: ObjectId)
    ensures ParseObjectId(id) == Some(id)
  {
    var parsed := ParseObjectId(id);
    assert parsed.Some?;
    assert parsed.value == id;
  }

  /** `bytes.fromhex` of an even run of lower-case digits followed by
      whitespace gives back the digits. */
  lemma {:induction false} FromHexSkipsTrailingSpace(digits: string, pad: string)
    requires |digits| % 2 == 0 && forall i | 0 <= i < |digits| :: IsLowerHexDigit(digits[i])
    requires forall i | 0 <= i < |pad| :: IsAsciiSpace(pad[i])
    ensures FromHex(digits + pad) == Some(digits)
    decreases |digits| + |pad|
  {
    if digits == [] {
      if pad != [] {
        assert (digits + pad)[1..] == [] + pad[1..];
        FromHexSkipsTrailingSpace(digits, pad[1..]);
      }
    } else {
      var rest := digits[2..];
      assert (digits + pad)[2..] == rest + pad;
      FromHexSkipsTrailingSpace(rest, pad);
      assert digits == [digits[0], digits[1]] + rest;
    }
  }

  /** Twenty-two digits and two trailing spaces pass bson's length test and
      decode to an 11-byte id instead of being refused as malformed. */
  lemma PaddedTextParsesToShortId()
    ensures ParseObjectId("0123456789abcdef012345  ") == Some("0123456789abcdef012345")
    ensures !IsObjectIdText(ParseObjectId("0123456789abcdef012345  ").value)
  {
    var digits := "0123456789abcdef012345";
    assert digits + "  " == "0123456789abcdef012345  ";
    FromHexSkipsTrailingSpace(digits, "  ");
  }

  /** A `User` document. Only the hash of the password is stored. */
  datatype Account = Account(
    firstName: string,
    lastName: string,
    username: string,
    email: string,
    hashedPassword: PasswordHash,
    refreshToken: Option<Token>,
    savedArticles: seq<ObjectId>,
    createdAt: int)

  /** A new document: no refresh token and no saved articles yet. */
  function NewAccount(firstName: string, lastName: string, username: string, email: string,
                      hashedPassword: PasswordHash, createdAt: int): (a: Account)
    ensures a.refreshToken == None && a.savedArticles == []
    ensures a.firstName == firstName && a.lastName == lastName
    ensures a.username == username && a.email == email
    ensures a.hashedPassword == hashedPassword && a.createdAt == createdAt
  {
    Account(firstName, lastName, username, email, hashedPassword, None, [], createdAt)
  }

  /** The unique indexes of the collection: no two documents share a
      username, and no two share an email. */
  ghost predicate UniqueUsernamesAndEmails(accounts: map<ObjectId, Account>)
  {
    forall a, b | a in accounts && b in accounts && a != b ::
      accounts[a].username != accounts[b].username && accounts[a].email != accounts[b].email
  }
}
