/** The entities a request to the user document resource is made of, and
    the calls and responses it produces. */
module Model {
  import opened Base
  import opened Json

  /** A value of the parsed query string: one string, or a list of strings
      when the key was repeated or its value held commas. */
  datatype QValue = Single(s: string) | Multi(items: seq<string>)

  /** One entry of a sort specification: the field and its direction. */
  datatype SortKey = SortKey(field: QValue, direction: int)

  /** The kind of endpoint the first path segment names; `NoKind` is the
      empty kind that an unknown token yields. */
  datatype EndpointKind = Private | Public | NoKind

  /** An entry of a user's `publicEndpoints` list. */
  datatype PublicEndpoint = PublicEndpoint(endpoint: string)

  /** The user record the authenticator hands back. */
  datatype User = User(displayName: string, addDatestampToPosts: bool, publicEndpoints: seq<PublicEndpoint>)

  /** The three values the authenticator returns: whether the token verified,
      the body to answer with on failure, and the user record if one was found. */
  datatype AuthResult = AuthResult(valid: bool, message: string, user: Option<User>)

  /** Read-only configuration: the reserved query words and the prefix that
      marks metadata directives. */
  datatype Config = Config(reservedWords: seq<string>, metadataKey: string)

  /** An incoming request: its content type (absent when the header is
      missing), the three path segments, the parsed query string and the
      decoded body (`None` when the body is not valid UTF-8 JSON). */
  datatype Request = Request(
    contentType: Option<string>,
    endpointType: string,
    table: string,
    docId: Option<string>,
    query: map<string, QValue>,
    body: Option<Json>)

  /** `if doc_id:` holds for a present, non-empty identifier. */
  predicate HasId(docId: Option<string>): (b: bool)
    ensures b <==> docId != None && docId != Some("")
  {
    docId.Some? && docId.value != ""
  }

  /** One call on the database object. */
  datatype StoreCall =
    | AddTable(table: string)
    | Save(doc: Json, table: string)
    | GetOne(table: string, id: string)
    | GetAll(table: string, filter: map<string, QValue>, sort: seq<SortKey>)
    | Update(table: string, id: string, doc: Json)
    | DeleteOne(table: string, id: string)
    | DeleteAll(table: string)

  /** What the client receives. */
  datatype Response =
      /** a raised `falcon.HTTPBadRequest(title, description)` */
    | BadRequest(title: string, description: string)
      /** a raised `falcon.HTTPError(status, title, description)` */
    | HttpError(status: string, title: string, description: string)
      /** a body set to a string the gateway was handed */
    | Text(body: string)
      /** a body that is the JSON encoding of a flat object with these entries, in order */
    | JsonObject(entries: seq<(string, string)>)
      /** a body that is whatever the store returned for this call */
    | StoreReply(call: StoreCall)
      /** a body that is the JSON encoding of these saved documents, with `_id` renamed */
    | Saved(docs: seq<Json>)
      /** an exception that escapes the handler and becomes a server error */
    | ServerError(exception: string)

  /** The store calls one request makes, in order, and its response. */
  datatype Outcome = Outcome(calls: seq<StoreCall>, response: Response)
}
