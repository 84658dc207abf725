/** The small decision rules of the resource: the content-type hook, the
    endpoint classifier, the collection-name resolver and the public-post
    guard. */
module Rules {
  import opened Base
  import opened Strings
  import opened Model

  const JsonMediaType := "application/json"

  /** The `validate_json_content` hook.  It accepts every content type that
      occurs inside "application/json" (so also "", "json" or "app") and
      rejects everything else, "application/json; charset=utf-8" included.
      `None` means the request may proceed; a missing header makes the
      membership test itself raise. */
  function ValidateJsonContent(contentType: Option<string>): (rejection: Option<Response>)
    ensures rejection.None? <==>
            contentType.Some? &&
            exists i, j :: 0 <= i <= j <= |JsonMediaType| && JsonMediaType[i..j] == contentType.value
    ensures contentType.Some? && rejection.Some? ==>
            rejection.value == BadRequest("Bad request", "Body of request should be application/json")
    ensures contentType.None? ==> rejection == Some(ServerError("TypeError"))
  {
    match contentType
    case None => Some(ServerError("TypeError"))
    case Some(ct) =>
      ContainsIsSubstring(JsonMediaType, ct);
      if Contains(JsonMediaType, ct) then None
      else Some(BadRequest("Bad request", "Body of request should be application/json"))
  }

  /** `__check_endpoint__`: "d" names the private namespace, "p" the public
      one, and every other token is invalid with the empty kind. */
  function CheckEndpoint(token: string): (r: (bool, EndpointKind))
    ensures r.0 <==> r.1 != NoKind
    ensures r.1 == Private <==> token == "d"
    ensures r.1 == Public <==> token == "p"
  {
    if token == "d" then (true, Private)
    else if token == "p" then (true, Public)
    else (false, NoKind)
  }

  /** `__generate_table_name__` given a string user name: a private endpoint
      gets the suffix `_username` unless the name is empty; a public one
      keeps the requested name. */
  function GenerateTableName(table: string, username: string, kind: EndpointKind): (name: string)
    ensures table <= name
    ensures name == table <==> kind != Private || username == ""
    ensures name != table ==> name[|table|..] == "_" + username
  {
    if kind == Private then
      if username != "" then table + "_" + username else table
    else
      table
  }

  /** `__generate_table_name__` as the delete and update handlers call it:
      with the user record (or `None`) where a user name belongs.  The test
      `username != ""` always holds for such a value, so on a private
      endpoint `table + "_" + username` adds a string to a non-string and
      raises; other endpoints keep the requested name. */
  function TableNameFromUserRecord(table: string, record: Option<User>, kind: EndpointKind): (r: Result<string>)
    ensures r.Ok? <==> kind != Private
    ensures r.Ok? ==> r.value == table
    ensures r.Raised? ==> r.exception == "TypeError"
  {
    if kind == Private then Raised("TypeError") else Ok(table)
  }

  /** Whether some entry of the user's public endpoints names `table`. */
  predicate MayPostTo(user: User, table: string)
  {
    exists i :: 0 <= i < |user.publicEndpoints| && user.publicEndpoints[i].endpoint == table
  }

  /** `__check_user_can_post_to_endpoint`: scans every public endpoint of
      the user and sets the flag on a match.  `false` stands for the
      "Cannot post to this endpoint" rejection it raises. */
  method CheckUserCanPostToEndpoint(user: User, table: string) returns (allowed: bool)
    ensures allowed == MayPostTo(user, table)
  {
    allowed := false;
    for i := 0 to |user.publicEndpoints|
      invariant allowed <==> exists k :: 0 <= k < i && user.publicEndpoints[k].endpoint == table
    {
      if user.publicEndpoints[i].endpoint == table {
        allowed := true;
      }
    }
  }
}
