# User document resource of the stashy JSON store

stashy is a small HTTP gateway in front of a document database. Clients
authenticate with a bearer token and read, write, replace and delete
JSON documents in named collections. Each collection lives in one of two
namespaces, picked by the first path segment: `d` is private and `p` is
public. A private collection name carries the user's display name as a
suffix (`notes` becomes `notes_ann`). A public name is used as it is, and
a user may POST to it only when the name is listed among their public
endpoints.

This project models the resource class that implements the four handlers
(`UserDocumentResource.py`) and the helpers they use:

- the `validate_json_content` hook, which runs before GET, POST and PUT;
- the endpoint classifier;
- the collection-name resolver;
- the public-post guard;
- the filter and sort builder behind GET, and the reserved-word test;
- the metadata builder behind POST, including its `explode` directive;
- the loop that saves documents one by one, with an optional `created`
  datestamp;
- the `_id` to `id` rename applied to POST's response text.

The database is modelled as the log of calls it receives. The
`UserDocumentResource` class holds that log in its `calls` field. Each
handler is a method that appends the calls it makes and returns the
response. Each handler also has a pure function, `GetOutcome`,
`PostOutcome`, `PutOutcome` or `DeleteOutcome`, that computes the calls and
the response from the request and from the authenticator's answer. Each
method's contract ties it to its function, and module `Properties` proves
the lemmas about those functions.

A Python exception that escapes a handler becomes
`ServerError(<exception name>)`. The Falcon errors raised on purpose
become `BadRequest` or `HttpError`. What a handler writes to `resp.body`
becomes `Text`, `JsonObject`, `StoreReply` (the store's reply to the
recorded call) or `Saved` (the documents a POST saved).

The model follows the code as written, including behaviour that reads as
unintended:

- **Content type.** The content type is tested with Python's substring
  `in`. So `"json"` and `"app"` pass. `"application/json;
  charset=utf-8"` and `"text/plain"` are rejected. A missing header raises
  `TypeError`. The hook itself would also pass `""`, but Falcon reports an
  empty header as a missing one, so such a request raises too.
- **POST and the token.** POST never looks at whether the token verified.
  A user record is enough to save. Without one, the next subscript raises
  `TypeError`. The authenticator's message is set as the body, but the
  handler does not return there.
- **PUT and DELETE on private endpoints.** PUT and DELETE pass the whole
  user record where the user name belongs. On a private endpoint,
  `table + "_" + username` therefore always raises `TypeError`, and the
  store is never called.
- **Colliding private names.** Two users can resolve to the same private
  collection: `notes_bob` for user `x`, and `notes` for user `bob_x`.
- **The `order` parameter.** It is lower-cased even when there is no
  `sortby`, so a repeated `order` raises `AttributeError`. With `sortby`,
  a direction other than asc or desc goes through `int` and raises
  `ValueError` unless it is an integer.
- **The `_id` rename.** The rename is a plain text replacement.
  `user_id` becomes `userid`, and `__id` becomes `_id`.

## Model

| member | source | states |
|---|---|---|
| Rules.ValidateJsonContent | UserDocumentResource.py:17-20 | the request passes exactly when the content type is present and occurs as a substring of "application/json"; any other present type gets the "Body of request should be application/json" bad request; a missing one raises TypeError |
| Rules.CheckEndpoint | UserDocumentResource.py:181-187 | valid exactly when a kind is returned; private exactly for "d", public exactly for "p" |
| Rules.GenerateTableName | UserDocumentResource.py:121-130 | the result extends the requested name; it differs from it exactly on a private endpoint with a non-empty user name, and then the added part is "_" followed by the user name |
| Rules.TableNameFromUserRecord | UserDocumentResource.py:121-130 | called with a user record in place of a name, as PUT and DELETE do: it raises TypeError exactly on a private endpoint, and otherwise returns the requested name |
| Rules.CheckUserCanPostToEndpoint | UserDocumentResource.py:189-196 | allowed exactly when some public endpoint of the user names the table |
| Query.IsReservedWord | UserDocumentResource.py:178-179 | a word is reserved exactly when it occurs in the configured list |
| Query.FilterOf | UserDocumentResource.py:161-164 | a key is in the filter exactly when it is in the query and not a reserved word, and its value is the query's |
| Query.OrderOf | UserDocumentResource.py:151-156 | with no `order` the direction is 1; a repeated `order` raises AttributeError; asc and desc in any case become 1 and -1, exactly; any other text is kept as it was sent |
| Query.IntOf | UserDocumentResource.py:159 | a mapped direction passes unchanged; other text succeeds exactly when it parses as an integer, giving that integer, and raises ValueError otherwise |
| Query.SortFrom | UserDocumentResource.py:143-159 | one sort key; `_id` ascending without `sortby`; otherwise the `sortby` value with direction 1 for asc or a missing order, -1 for desc (any case), the integer for a numeric order; ValueError for other text; AttributeError for a repeated order |
| Query.FilterQuery | UserDocumentResource.py:141-166 | succeeds exactly when the sort can be built, and then pairs the filter with the sort |
| Query.ConstructFilterFromQueryParams | UserDocumentResource.py:141-166 | its loop over the query produces the filter and sort of `FilterQuery`, or its exception |
| Query.MetadataOf | UserDocumentResource.py:168-176 | every query key that starts with the prefix appears without the prefix and with the same value, and every entry comes from such a key |
| Query.ConstructMetadataFromQueryParams | UserDocumentResource.py:168-176 | its loop over the query produces the metadata of `MetadataOf` |
| Query.MetadataDetermined | UserDocumentResource.py:172-174 | the two characterising properties of the metadata determine it |
| Strings.Contains | UserDocumentResource.py:18 | the string `in` test holds when the needle is a prefix, and never for a needle longer than the haystack |
| Strings.ContainsIsSubstring | UserDocumentResource.py:18 | the string `in` test holds exactly when the needle is a slice of the haystack |
| Strings.ContainsGivesSubstring | UserDocumentResource.py:18 | a contained string is some slice of the haystack |
| Strings.SubstringIsContained | UserDocumentResource.py:18 | every slice of the haystack is contained |
| Strings.ContainedCharsOccur | UserDocumentResource.py:18 | every character of a contained string occurs in the haystack |
| Strings.Slice | UserDocumentResource.py:173 | `key[:n]` is a prefix of the key, of length n clamped to the key's length |
| Strings.StartsWithIsPrefix | UserDocumentResource.py:173 | comparing `key[:len(prefix)]` with the prefix is the prefix relation |
| Strings.Lower | UserDocumentResource.py:153 | `lower()` keeps the length, leaves no ASCII capital, keeps every other character and moves each capital to its small letter |
| Strings.ParseInt | UserDocumentResource.py:159 | `int` succeeds exactly on a non-empty run of digits with an optional sign |
| Strings.NatString | UserDocumentResource.py:159 | the decimal spelling of a natural number is a non-empty run of digits |
| Strings.NatStringValue | UserDocumentResource.py:159 | the digits of a spelled natural number have its value |
| Strings.ParseIntDecimalString | UserDocumentResource.py:159 | `int` gives back every integer from its decimal spelling, so a numeric order passes through unchanged |
| Ingest.Stamped | UserDocumentResource.py:135-136 | without the flag the document is saved unchanged; with it, stamping succeeds exactly for an object |
| Ingest.StampedAddsCreated | UserDocumentResource.py:136 | a stamped object gains `created` set to the timestamp and keeps every other field |
| Ingest.PlanSaves | UserDocumentResource.py:132-139 | never more documents saved than given, and all of them when the loop completes |
| Ingest.PlanSavesPrefix | UserDocumentResource.py:134-138 | the saved documents are the stamped inputs in order; the loop completes exactly when all were saved, and stops at the first document that cannot be stamped |
| Ingest.PlanSavesDetermined | UserDocumentResource.py:132-139 | those properties determine the outcome of the loop |
| Ingest.PlanWithoutDatestamp | UserDocumentResource.py:134-138 | without the flag every document is saved unchanged, in order |
| Ingest.PlanWithDatestamp | UserDocumentResource.py:135-138 | with the flag, a completed loop saved only objects and each gained `created` and kept its other fields |
| Ingest.SaveCalls | UserDocumentResource.py:137 | one store call per saved document |
| Ingest.SaveCallsAt | UserDocumentResource.py:137 | the i-th call saves the i-th document into the collection |
| Ingest.SaveCallsAppend | UserDocumentResource.py:137 | saving one more document appends exactly one call |
| Model.HasId | UserDocumentResource.py:36 | `if doc_id:` holds exactly when an identifier is present and not empty |
| Ingest.HoldsField | UserDocumentResource.py:68 | `field in parsed` is key membership for an object, element membership for a list and the substring test for a string; any other value raises TypeError |
| Ingest.DocumentList | UserDocumentResource.py:134-137 | the saving loop walks a list's items, a string's characters one by one, and nothing for an empty object; a non-empty object raises KeyError and any other value TypeError |
| Ingest.PayloadOf | UserDocumentResource.py:67-76 | without `explode` the body is the one document; with `explode` on an object, a missing field stops with that field's name and a list field gives its items |
| Ingest.PayloadOfExplodedField | UserDocumentResource.py:68-70 | an exploded field present in an object yields the documents `DocumentList` gives for its value, or its exception |
| Ingest.PayloadOfExplodeNeedsObject | UserDocumentResource.py:67-74 | a repeated `explode` raises TypeError, and a body that is not an object never yields documents to save: it gets the missing-attribute stop exactly when `in` finds no such field in it, and TypeError otherwise |
| Ingest.RenameIds | UserDocumentResource.py:78 | the rename never lengthens the text |
| Ingest.RenameIdsLeavesOtherText | UserDocumentResource.py:78 | text without `_id` is unchanged |
| Ingest.RenameIdsKey | UserDocumentResource.py:78 | an `_id` key becomes `id` |
| Ingest.RenameIdsInsideName | UserDocumentResource.py:78 | `user_id` becomes `userid` |
| Ingest.RenameIdsLeavesUnderscoreId | UserDocumentResource.py:78 | `__id` becomes `_id` |
| Handlers.GetOutcome | UserDocumentResource.py:22-40 | at most one store call, and the response is the store's reply to it |
| Handlers.PostOutcome | UserDocumentResource.py:42-81 | any store call needs a user record, and the first call creates the collection |
| Handlers.IngestOutcome | UserDocumentResource.py:61-81 | the collection is created first, whatever the body |
| Handlers.PutOutcome | UserDocumentResource.py:98-119 | at most one store call, an update, answered with the store's reply |
| Handlers.DeleteOutcome | UserDocumentResource.py:83-96 | at most one store call, answered with the store's reply; it deletes one document exactly when an identifier is given |
| Handlers.UserDocumentResource.constructor | UserDocumentResource.py:12-15 | a new resource has made no store call |
| Handlers.UserDocumentResource.OnGet | UserDocumentResource.py:22-40 | appends exactly the calls of `GetOutcome` and returns its response |
| Handlers.UserDocumentResource.OnPost | UserDocumentResource.py:42-81 | appends exactly the calls of `PostOutcome` and returns its response |
| Handlers.UserDocumentResource.Ingest | UserDocumentResource.py:61-81 | appends exactly the calls of `IngestOutcome` and returns its response |
| Handlers.UserDocumentResource.OnPut | UserDocumentResource.py:98-119 | appends exactly the calls of `PutOutcome` and returns its response |
| Handlers.UserDocumentResource.OnDelete | UserDocumentResource.py:83-96 | appends exactly the calls of `DeleteOutcome` and returns its response |
| Handlers.UserDocumentResource.SaveDocuments | UserDocumentResource.py:132-139 | appends one save per document the loop got through; returns them, or TypeError if it stopped early; the list holds the stamped documents in front and the untouched rest behind |
| Properties.ContentTypeFragmentsAccepted | UserDocumentResource.py:18 | "application/json", "json" and "" pass the hook |
| Properties.LongContentTypeRejected | UserDocumentResource.py:18-20 | any content type longer than "application/json" is rejected |
| Properties.CharsetParameterRejected | UserDocumentResource.py:18-20 | "application/json; charset=utf-8" is rejected |
| Properties.ForeignCharacterRejected | UserDocumentResource.py:18-20 | a content type with a character that "application/json" lacks is rejected |
| Properties.UnknownEndpointRejectedBeforeAuthentication | UserDocumentResource.py:24-27 | with an unknown endpoint token all four handlers answer "404" with no store call, whatever the authenticator says |
| Properties.ContentTypeCheckedFirst | UserDocumentResource.py:22 | a rejected content type ends GET, POST and PUT with that rejection and no store call |
| Properties.DeleteIgnoresContentType | UserDocumentResource.py:83 | the DELETE outcome does not depend on the content type |
| Properties.PrivateCollectionsCanCoincide | UserDocumentResource.py:124-126 | ("notes_bob", user "x") and ("notes", user "bob_x") resolve to the same private collection |
| Properties.NamelessPrivateIsPublic | UserDocumentResource.py:125-130 | with an empty user name the private name is the public one |
| Properties.PrivateNameDeterminesUser | UserDocumentResource.py:126 | for a fixed requested name, two non-empty user names that resolve to the same private collection are equal |
| Properties.GetStopsOnAuthenticationFailure | UserDocumentResource.py:31-33 | a rejected token or a missing user ends GET with the authenticator's message and no store call |
| Properties.GetCallsTheResolvedCollection | UserDocumentResource.py:35-40 | an authenticated GET makes its one call on the resolved collection: get by identifier, or get all with the query's filter and sort; a failing sort makes no call |
| Properties.SortByNameDescending | UserDocumentResource.py:148-159 | `sortby=name&order=desc` sorts by name, descending |
| Properties.SortDirectionIgnoresCase | UserDocumentResource.py:153 | `order=ASC` sorts ascending |
| Properties.SortDirectionPassesThroughInt | UserDocumentResource.py:159 | `order=5` gives direction 5; `order=up` raises ValueError |
| Properties.OrderAloneIsIgnored | UserDocumentResource.py:143-158 | without `sortby` a single `order` value leaves the default sort |
| Properties.ControlKeysStayInFilter | UserDocumentResource.py:162-164 | unreserved `sortby` and `order` are copied into the filter as well |
| Properties.PostIgnoresTokenValidity | UserDocumentResource.py:48-51 | the POST outcome is the same whatever the token's validity and message, for the same user record |
| Properties.PostProceedsWithRejectedToken | UserDocumentResource.py:50-62 | a POST with a rejected token creates the private collection and saves the body |
| Properties.PostWithoutUserRaises | UserDocumentResource.py:53-59 | without a user record POST raises TypeError and makes no store call |
| Properties.PublicPostGuard | UserDocumentResource.py:53-62 | on a public endpoint an unlisted name is rejected before the collection is created, and a listed one creates it under its own name; a private endpoint skips the guard and creates the suffixed collection |
| Properties.BadJsonSavesNothing | UserDocumentResource.py:62-81 | an undecodable body creates the collection, saves nothing and answers "Bad JSON" |
| Properties.SingleDocumentSaved | UserDocumentResource.py:75-76 | without `explode` the body is saved as one document: unchanged without the datestamp flag, with `created` added when the flag is on and it is an object; a non-object body with the flag raises TypeError after the collection was created |
| Properties.ExplodeMissingFieldSavesNothing | UserDocumentResource.py:68-74 | for any body whose `in` test finds no such field (an object without the key, a list without that string, a string without that substring), exploding saves nothing and names the field |
| Properties.ExplodeSavesItemsInOrder | UserDocumentResource.py:67-70 | exploding a list field saves its items in order, one call each, and returns them: unchanged without the flag; with it the request succeeds exactly when every item is an object, each saved item gaining `created`, and otherwise raises TypeError at the first non-object after saving the ones before it |
| Properties.ExplodeExample | UserDocumentResource.py:67-70 | exploding `items` of {"items": [{"a": 1}, {"a": 2}], "x": 9} saves the two items |
| Properties.IngestSavesIntoOneCollection | UserDocumentResource.py:62-76 | every call after the creation saves into the resolved collection, and the i-th saves the i-th chosen document, stamped |
| Properties.SaveDocumentsPreservesOrder | UserDocumentResource.py:132-139 | a completed save returns one document per input in order, each stamped as asked, with one save call each |
| Properties.DatestampOnNonObjectStops | UserDocumentResource.py:135-137 | with the flag, a number in the list stops the saves after the earlier object |
| Properties.PutWithoutIdMakesNoStoreCall | UserDocumentResource.py:108-117 | PUT without an identifier never calls the store, and on a public endpoint with a verified token answers "No document found" |
| Properties.PutReplacesDocument | UserDocumentResource.py:108-115 | an authenticated public PUT with an identifier updates the document with the body, or raises "Invalid JSON" without a call |
| Properties.DeleteWithIdDeletesOne | UserDocumentResource.py:89-92 | an authenticated public DELETE with an identifier makes exactly one call: delete that document |
| Properties.DeleteWithoutIdDeletesAll | UserDocumentResource.py:89-94 | an authenticated public DELETE without an identifier makes exactly one call: delete all |
| Properties.PutDeleteStopOnRejectedToken | UserDocumentResource.py:88-96 | a rejected token ends PUT and DELETE with the authenticator's message |
| Properties.PrivatePutDeleteRaise | UserDocumentResource.py:104-106 | an authenticated PUT or DELETE on a private endpoint raises TypeError with no store call |

## Left out

- Falcon's routing, hooks and request objects are not modelled. A request
  is a record holding the content type, the endpoint token, the table, the
  identifier, the parsed query and the decoded body.
- `falcon.uri.parse_query_string` is not modelled. The query arrives
  parsed: a value is one string, or a list when it was repeated or held
  commas. Blank values are absent.
- `AuthenticationManager.verify_jwt` is not part of this model. Its
  answer (valid, message, user record) is a parameter of each handler.
- Reading and decoding the request body are not modelled. The decoded
  body is a parameter, and `None` stands for a body that fails to decode.
  JSON numbers are integers; floating point is not modelled.
- The database is not modelled beyond the log of calls. What the store
  returns, and any `_id` it adds to a saved document, is not modelled.
  `StoreReply` only names the call it answers.
- `json.dumps` and `JSONEncoder` are not modelled. `Saved` carries the
  documents instead of their serialised text. `Ingest.RenameIds` models the
  `_id` rename on a given text but is not applied to `Saved`.
- The clock is a parameter, `now`, taken as already formatted. All the
  documents of one request get the same timestamp, where the source reads
  the clock once per document.
- `config` is not part of this model. The reserved words and the metadata
  prefix are fields of `Config`.
- A user record or endpoint record that lacks a key is not modelled. A
  user record always has a display name, the datestamp flag and its public
  endpoints.
- `Strings.ParseInt`: models `int` on an optional sign and ASCII digits
  only. Surrounding whitespace, underscores between digits and non-ASCII
  digits are not accepted.
- `Strings.Lower`: lowers ASCII letters only and keeps every other
  character. Python's `str.lower` also lowers non-ASCII capitals (`É`
  becomes `é`), and some of them grow: `İ` becomes two characters. This
  cannot change the asc/desc test it serves. In Unicode's case tables the
  only non-ASCII characters whose lower case holds an ASCII letter are `İ`
  (to `i` and a combining dot) and the Kelvin sign (to `k`), and neither
  `i` nor `k` occurs in "asc" or "desc".
- `Query.SortFrom`: lower-cases through `Strings.Lower`, so ASCII letters
  only, where `str.lower` covers all of Unicode. The source's extra test `order_val == 1` compares
  a string with an integer, is always false, and is left out.
- `UserDocumentResource.OnPost`: the tail of `on_post` after the
  collection name is resolved lives in a separate method,
  `UserDocumentResource.Ingest`. The handler's loop works on a fresh array
  made from the decoded list (`NewList`). So aliasing between the decoded
  body and other values is not modelled.
- GetOutcome: its own contract states only the shape of the calls and
  response; each path is stated by `GetStopsOnAuthenticationFailure`,
  `GetCallsTheResolvedCollection` and the endpoint and content-type lemmas.
- PostOutcome: its own contract states only that a store call needs a user
  record and starts with creating the collection; the paths are stated by
  `PostIgnoresTokenValidity`, `PostWithoutUserRaises`, `PublicPostGuard`
  and the lemmas about `IngestOutcome`.
- IngestOutcome: its own contract states only that the collection is
  created first; what it saves and answers is stated by
  `BadJsonSavesNothing`, `SingleDocumentSaved`,
  `ExplodeMissingFieldSavesNothing`, `ExplodeSavesItemsInOrder` and
  `IngestSavesIntoOneCollection`, with the datestamp flag on and off.
- PutOutcome: its own contract states only the shape of the calls and
  response; each path is stated by `PutWithoutIdMakesNoStoreCall`,
  `PutReplacesDocument`, `PutDeleteStopOnRejectedToken` and
  `PrivatePutDeleteRaise`.
- DeleteOutcome: its own contract states only the shape of the calls and
  response; each path is stated by `DeleteWithIdDeletesOne`,
  `DeleteWithoutIdDeletesAll`, `PutDeleteStopOnRejectedToken` and
  `PrivatePutDeleteRaise`.
- Falcon's reading of an empty Content-Type header as a missing one is not
  modelled: the header reaches the hook as the request record holds it.
