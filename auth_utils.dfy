/**
 * The mobile client's token helpers (mobile/lib/auth/utils.ts): reading the
 * payload segment of a JSON web token, picking the user attributes out of it,
 * and the display-name fallbacks. Base64 decoding and `JSON.parse` are
 * parameters; each either yields a value or throws.
 */
module AuthUtils {
  import opened Wrappers
  import opened Strings
  import opened PyJson

  /** A thrown JavaScript error: its `name` and `message`. */
  datatype Failure = Failure(name: string, message: string)

  /**
   * User attributes after a `JSON.stringify`/`JSON.parse` round trip: only
   * properties with a defined value survive, so an absent key is `undefined`.
   */
  type Attributes = map<string, string>

  /** The three attributes the app keeps. */
  const AttributeNames: seq<string> := ["email", "given_name", "family_name"]

  /** What `undefined.replace(...)` throws when the token has no second segment. */
  const NoPayloadSegment := Failure("TypeError", "Cannot read properties of undefined (reading 'replace')")

  /** `s.replace(/c/g, d)` for single characters `c` and `d`. */
  function ReplaceChar(s: string, c: char, d: char): (r: string)
    ensures |r| == |s|
    ensures forall i :: 0 <= i < |s| ==> r[i] == (if s[i] == c then d else s[i])
  {
    seq(|s|, i requires 0 <= i < |s| => if s[i] == c then d else s[i])
  }

  /** The URL-safe base64 alphabet mapped back to the standard one. */
  function FromBase64Url(s: string): (r: string)
    ensures |r| == |s|
    ensures '-' !in r && '_' !in r
    ensures forall i :: 0 <= i < |s| && s[i] != '-' && s[i] != '_' ==> r[i] == s[i]
    ensures forall i :: 0 <= i < |s| && s[i] == '-' ==> r[i] == '+'
    ensures forall i :: 0 <= i < |s| && s[i] == '_' ==> r[i] == '/'
  {
    ReplaceChar(ReplaceChar(s, '-', '+'), '_', '/')
  }

  /** `parseJwt(token)`: only the segment after the first '.' is decoded. */
  function ParseJwt(token: string, decode: string -> Result<string, Failure>,
                    parse: string -> Result<Json, Failure>): Result<Json, Failure>
  {
    var parts := JsSplit(token, '.');
    if |parts| < 2 then Err(NoPayloadSegment)
    else
      var text :- decode(FromBase64Url(parts[1]));
      parse(text)
  }

  /** A token without a '.' has no payload segment, and parsing it throws. */
  lemma ParseJwtWithoutDot(token: string, decode: string -> Result<string, Failure>,
                           parse: string -> Result<Json, Failure>)
    requires '.' !in token
    ensures ParseJwt(token, decode, parse) == Err(NoPayloadSegment)
  {
    SplitWithoutSeparator(token, '.');
  }

  /**
   * The header and the signature play no part: for any header without a '.',
   * the payload segment alone decides the result.
   */
  lemma ParseJwtReadsPayloadOnly(header: string, payload: string, signature: string,
                                 decode: string -> Result<string, Failure>,
                                 parse: string -> Result<Json, Failure>)
    requires '.' !in header && '.' !in payload
    ensures ParseJwt(header + "." + payload + "." + signature, decode, parse)
      == (match decode(FromBase64Url(payload))
          case Ok(text) => parse(text)
          case Err(f) => Err(f))
  {
    var token := header + "." + payload + "." + signature;
    assert token == header + ['.'] + (payload + ['.'] + signature);
    SplitAppend(header, '.', payload + ['.'] + signature);
    SplitAppend(payload, '.', signature);
  }

  /** `obj.key` on a parsed JSON value: absent is `undefined`; `null.key` throws. */
  function Property(v: Json, key: string): (r: Result<Option<Json>, Failure>)
    ensures r.Err? <==> v.JNull?
    ensures v.JObj? ==> r == Ok(if key in v.fields then Some(v.fields[key]) else None)
    ensures !v.JObj? && !v.JNull? ==> r == Ok(None)
  {
    match v
    case JNull => Err(Failure("TypeError", "Cannot read properties of null (reading '" + key + "')"))
    case JObj(m) => Ok(if key in m then Some(m[key]) else None)
    case _ => Ok(None)
  }

  /** The string attributes of a payload object among `names`. */
  function StringFields(payload: Json, names: seq<string>): (a: Attributes)
    ensures a.Keys <= set n | n in names
    ensures forall n :: (n in names && payload.JObj? && n in payload.fields && payload.fields[n].JStr?
                         ==> n in a && a[n] == payload.fields[n].s)
    ensures forall n :: n in a ==> payload.JObj? && n in payload.fields && payload.fields[n] == JStr(a[n])
  {
    if names == [] || !payload.JObj? then map[]
    else
      var rest := StringFields(payload, names[1..]);
      var n := names[0];
      if n in payload.fields && payload.fields[n].JStr? then rest[n := payload.fields[n].s] else rest
  }

  /**
   * `extractAttributesFromToken(token)`: exactly `email`, `given_name` and
   * `family_name` of the payload. Non-string payload values are not modelled.
   */
  function ExtractAttributes(token: string, decode: string -> Result<string, Failure>,
                             parse: string -> Result<Json, Failure>): (r: Result<Attributes, Failure>)
    ensures r.Ok? ==> r.value.Keys <= {"email", "given_name", "family_name"}
  {
    var payload :- ParseJwt(token, decode, parse);
    if payload.JNull? then Err(Failure("TypeError", "Cannot read properties of null (reading 'email')"))
    else Ok(StringFields(payload, AttributeNames))
  }

  /** Exactly the string-valued attributes of the payload are picked. */
  lemma ExtractedAttributesAreThePayloads(token: string, decode: string -> Result<string, Failure>,
                                          parse: string -> Result<Json, Failure>, payload: Json)
    requires ParseJwt(token, decode, parse) == Ok(payload) && payload.JObj?
    ensures ExtractAttributes(token, decode, parse).Ok?
    ensures forall n :: n in AttributeNames ==>
      ((n in ExtractAttributes(token, decode, parse).value)
       <==> (n in payload.fields && payload.fields[n].JStr?))
    ensures forall n :: n in ExtractAttributes(token, decode, parse).value ==>
      JStr(ExtractAttributes(token, decode, parse).value[n]) == payload.fields[n]
  {
  }

  // ---------------------------------------------------------------------------
  // Display helpers

  /** A JavaScript truthy string property: present and not empty. */
  predicate HasValue(a: Attributes, key: string) { key in a && a[key] != "" }

  /** `getUserInitials`: "U" unless both names are there; otherwise both first letters, upper-cased. */
  function UserInitials(attrs: Option<Attributes>): (r: string)
    ensures |r| == 2 <==> (attrs.Some? && HasValue(attrs.value, "given_name") && HasValue(attrs.value, "family_name"))
    ensures |r| != 2 ==> r == "U"
    ensures |r| == 2 ==> r[0] == UpperChar(attrs.value["given_name"][0]) && r[1] == UpperChar(attrs.value["family_name"][0])
  {
    if attrs.None? || !HasValue(attrs.value, "given_name") || !HasValue(attrs.value, "family_name") then "U"
    else ToUpper([attrs.value["given_name"][0]] + [attrs.value["family_name"][0]])
  }

  /** `getUserFirstName`: the given name, or "User". */
  function UserFirstName(attrs: Option<Attributes>): (r: string)
    ensures attrs.Some? && HasValue(attrs.value, "given_name") ==> r == attrs.value["given_name"]
    ensures !(attrs.Some? && HasValue(attrs.value, "given_name")) ==> r == "User"
  {
    if attrs.None? || !HasValue(attrs.value, "given_name") then "User" else attrs.value["given_name"]
  }

  /** `getUserFullName`: "given family", or "User" unless both names are there. */
  function UserFullName(attrs: Option<Attributes>): (r: string)
    ensures attrs.Some? && HasValue(attrs.value, "given_name") && HasValue(attrs.value, "family_name")
      ==> r == attrs.value["given_name"] + " " + attrs.value["family_name"]
    ensures !(attrs.Some? && HasValue(attrs.value, "given_name") && HasValue(attrs.value, "family_name"))
      ==> r == "User"
  {
    if attrs.None? || !HasValue(attrs.value, "given_name") || !HasValue(attrs.value, "family_name") then "User"
    else attrs.value["given_name"] + " " + attrs.value["family_name"]
  }

  /** `getUserEmail`: the email, or the empty string. */
  function UserEmail(attrs: Option<Attributes>): (r: string)
    ensures attrs.Some? && HasValue(attrs.value, "email") ==> r == attrs.value["email"]
    ensures !(attrs.Some? && HasValue(attrs.value, "email")) ==> r == ""
  {
    if attrs.None? || !HasValue(attrs.value, "email") then "" else attrs.value["email"]
  }

  /** The initials are the upper-cased first letters of the first and last word of the full name. */
  lemma InitialsOfFullName(attrs: Attributes)
    requires HasValue(attrs, "given_name") && HasValue(attrs, "family_name")
    ensures UserInitials(Some(attrs)) == ToUpper([UserFullName(Some(attrs))[0]] + [attrs["family_name"][0]])
    ensures UserFullName(Some(attrs))[|attrs["given_name"]|] == ' '
    ensures UserInitials(Some(attrs))[0] == UpperChar(UserFullName(Some(attrs))[0])
    ensures UserInitials(Some(attrs))[1] == UpperChar(UserFullName(Some(attrs))[|attrs["given_name"]| + 1])
  {
  }
}
