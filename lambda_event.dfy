/**
 * The request plumbing both Lambda handlers share (`get_user_id_from_event` and
 * `parse_body` are copied verbatim between api/lambda/posts/handler.py and
 * api/lambda/schedules/handler.py): the caller's id from the authorizer
 * claims and the request body.
 */
module LambdaEvent {
  import opened Wrappers
  import opened PyJson

  /** An API Gateway proxy event: a dict. */
  type Event = map<string, Json>

  /** An HTTP response as the handlers build it (headers and JSON text are not modelled). */
  datatype Response = Response(statusCode: int, body: Json)

  /** The claim keys tried, in order, for the caller id. */
  const ClaimKeys: seq<string> := ["sub", "cognito:username", "username"]

  /** `for key in keys: if key in claims: return claims[key]`, over the remaining keys. */
  function FirstClaim(claims: Json, keys: seq<string>): (r: Option<Json>)
  {
    if keys == [] then None
    else
      match Member(keys[0], claims)
      case None => None
      case Some(true) => Subscript(claims, keys[0])
      case Some(false) => FirstClaim(claims, keys[1..])
  }

  /**
   * `get_user_id_from_event`: the first of `sub`, `cognito:username`,
   * `username` present in `requestContext.authorizer.claims`; `None` when there
   * is none or when reading the event raises (every exception is caught).
   */
  function UserIdFromEvent(event: Event): Option<Json>
  {
    if "requestContext" !in event then None
    else
      var context := event["requestContext"];
      match Member("authorizer", context)
      case None => None
      case Some(false) => None
      case Some(true) =>
        match Subscript(context, "authorizer")
        case None => None
        case Some(authorizer) =>
          if !authorizer.JObj? then None
          else FirstClaim(GetOr(authorizer.fields, "claims", JObj(map[])), ClaimKeys)
  }

  /** The event shape API Gateway produces for a Cognito-authorised request. */
  function AuthorisedEvent(claims: map<string, Json>, rest: Event): Event
  {
    rest["requestContext" := JObj(map["authorizer" := JObj(map["claims" := JObj(claims)])])]
  }

  /** With claims present, the id is the first claim of the three that is present, in that order. */
  lemma UserIdIsFirstPresentClaim(claims: map<string, Json>, rest: Event)
    ensures UserIdFromEvent(AuthorisedEvent(claims, rest)) ==
      if "sub" in claims then Some(claims["sub"])
      else if "cognito:username" in claims then Some(claims["cognito:username"])
      else if "username" in claims then Some(claims["username"])
      else None
  {
    var c := JObj(claims);
    var event := AuthorisedEvent(claims, rest);
    assert Member("authorizer", event["requestContext"]) == Some(true);
    assert UserIdFromEvent(event) == FirstClaim(c, ClaimKeys);
    assert ClaimKeys[1..] == ["cognito:username", "username"];
    assert ClaimKeys[1..][1..] == ["username"];
    assert ClaimKeys[1..][1..][1..] == [];
    assert FirstClaim(c, ["username"]) == if "username" in claims then Some(claims["username"]) else None;
    assert FirstClaim(c, ["cognito:username", "username"]) ==
      if "cognito:username" in claims then Some(claims["cognito:username"]) else FirstClaim(c, ["username"]);
  }

  /** Without an authorizer context there is no caller id. */
  lemma NoContextNoUser(event: Event)
    requires "requestContext" !in event
    ensures UserIdFromEvent(event) == None
  {
  }

  /**
   * `parse_body`: the `body` field (the text `"{}"` when absent); a string is
   * parsed with `json.loads`, given as `decode` (`None` for a
   * `JSONDecodeError`, which yields `{}`); any other value is returned as is.
   */
  function ParseBody(event: Event, decode: string -> Option<Json>): (body: Json)
    ensures "body" in event && !event["body"].JStr? ==> body == event["body"]
    ensures "body" in event && event["body"].JStr? && decode(event["body"].s).None? ==> body == JObj(map[])
  {
    match GetOr(event, "body", JStr("{}"))
    case JStr(text) => decode(text).GetOr(JObj(map[]))
    case other => other
  }

  /** An absent body is parsed from the text `{}`. */
  lemma AbsentBodyIsEmptyObject(event: Event, decode: string -> Option<Json>)
    requires "body" !in event
    requires decode("{}") == Some(JObj(map[]))
    ensures ParseBody(event, decode) == JObj(map[])
  {
  }

  /**
   * What the router of a handler decides to do with an event: call one of
   * the five operations for the caller, or answer directly.
   */
  datatype Dispatch =
    | List(userId: Json)
    | Create(userId: Json, body: Json)
    | Fetch(userId: Json, id: Json)
    | Update(userId: Json, id: Json, body: Json)
    | Remove(userId: Json, id: Json)
    | Answer(response: Response)

  const ConfigurationError := Response(500, Message("Internal server error - configuration issue"))
  const Unauthorized := Response(401, Message("Unauthorized"))
  const InvalidRoute := Response(400, Message("Bad request - invalid route"))
  /** The router's `except` answer; the exception text it appends is not modelled. */
  const RouterError := Response(500, Message("Internal server error"))

  /**
   * `lambda_handler`'s routing for the collection `base` (`/posts` or
   * `/schedules`): the configuration check comes first, then the caller id,
   * then the resource path and method. `configured` says whether the
   * environment names the table (and, for posts, the media bucket);
   * `missingId` is the 400 message for a falsy path id.
   */
  function Route(event: Event, configured: bool, decode: string -> Option<Json>, base: string, missingId: string): (d: Dispatch)
    ensures !configured ==> d == Answer(ConfigurationError)
    ensures configured && (UserIdFromEvent(event).None? || !Truthy(UserIdFromEvent(event).value)) ==> d == Answer(Unauthorized)
    ensures !d.Answer? ==> configured && UserIdFromEvent(event).Some? && d.userId == UserIdFromEvent(event).value && Truthy(d.userId)
    ensures (d.Fetch? || d.Update? || d.Remove?) ==> Truthy(d.id)
    ensures (d.Create? || d.Update?) ==> d.body == ParseBody(event, decode)
  {
    var httpMethod := GetOr(event, "httpMethod", JStr(""));
    var resource := GetOr(event, "resource", JStr(""));
    if !configured then Answer(ConfigurationError)
    else
      var user := UserIdFromEvent(event);
      if user.None? || !Truthy(user.value) then Answer(Unauthorized)
      else if resource == JStr(base) then
        if httpMethod == JStr("GET") then List(user.value)
        else if httpMethod == JStr("POST") then Create(user.value, ParseBody(event, decode))
        else Answer(InvalidRoute)
      else if resource == JStr(base + "/{id}") then
        match GetOr(event, "pathParameters", JObj(map[]))
        case JObj(params) =>
          var id := Get(params, "id");
          if !Truthy(id) then Answer(Response(400, Message(missingId)))
          else if httpMethod == JStr("GET") then Fetch(user.value, id)
          else if httpMethod == JStr("PUT") then Update(user.value, id, ParseBody(event, decode))
          else if httpMethod == JStr("DELETE") then Remove(user.value, id)
          else Answer(InvalidRoute)
        case _ => Answer(RouterError)
      else Answer(InvalidRoute)
  }

  /** An authorised `GET` of the collection lists the caller's items. */
  lemma RouteList(claims: map<string, Json>, rest: Event, decode: string -> Option<Json>, base: string, missingId: string)
    requires "sub" in claims && Truthy(claims["sub"])
    requires "resource" in rest && rest["resource"] == JStr(base)
    requires "httpMethod" in rest && rest["httpMethod"] == JStr("GET")
    ensures Route(AuthorisedEvent(claims, rest), true, decode, base, missingId) == List(claims["sub"])
  {
    UserIdIsFirstPresentClaim(claims, rest);
    var event := AuthorisedEvent(claims, rest);
    assert event["resource"] == rest["resource"] && event["httpMethod"] == rest["httpMethod"];
  }

  /** A request on an item path with no id is refused before any operation runs. */
  lemma RouteMissingId(claims: map<string, Json>, rest: Event, decode: string -> Option<Json>, base: string, missingId: string)
    requires "sub" in claims && Truthy(claims["sub"])
    requires "resource" in rest && rest["resource"] == JStr(base + "/{id}")
    requires "pathParameters" !in rest
    ensures Route(AuthorisedEvent(claims, rest), true, decode, base, missingId) == Answer(Response(400, Message(missingId)))
  {
    UserIdIsFirstPresentClaim(claims, rest);
    var event := AuthorisedEvent(claims, rest);
    assert event["resource"] == rest["resource"];
    assert "pathParameters" !in event;
    assert JStr(base + "/{id}") != JStr(base) by {
      assert |base + "/{id}"| != |base|;
    }
  }
}
