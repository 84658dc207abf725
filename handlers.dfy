/** The four request handlers of the user document resource.  Each is given
    twice: as a function from a request (and the authenticator's answer) to
    the store calls it makes and the response, and as a method of the
    resource that makes those calls on its database, modelled as the log of
    calls received.  The method's contract ties it to the function. */
module Handlers {
  import opened Base
  import opened Json
  import opened Model
  import opened Rules
  import opened Query
  import opened Ingest

  const BadEndpoint := BadRequest("Bad request", "404")
  const CannotPost := BadRequest("Bad request", "Cannot post to this endpoint")
  const BadJson := JsonObject([("status", "fail"), ("message", "Bad JSON")])
  const NoDocument := JsonObject([("Success", "Fail"), ("message", "No document found with supplied ID")])
  const InvalidJson := HttpError("400 Bad Request", "Invalid JSON",
                                 "Could not decode the request body. The JSON was incorrect.")

  function ExplodeFailure(field: string): Response
  {
    JsonObject([("status", "fail"), ("message", "Could not find attribute '" + field + "' to explode")])
  }

  /** `on_get`, after the content-type hook. */
  function GetOutcome(cfg: Config, req: Request, auth: AuthResult): (o: Outcome)
    ensures |o.calls| <= 1
    ensures o.calls != [] ==> o.response == StoreReply(o.calls[0])
  {
    match ValidateJsonContent(req.contentType)
    case Some(rejection) => Outcome([], rejection)
    case None =>
      var (valid, kind) := CheckEndpoint(req.endpointType);
      if !valid then Outcome([], BadEndpoint)
      else if !auth.valid || auth.user.None? then Outcome([], Text(auth.message))
      else
        var table := GenerateTableName(req.table, auth.user.value.displayName, kind);
        if HasId(req.docId) then
          var call := GetOne(table, req.docId.value);
          Outcome([call], StoreReply(call))
        else match FilterQuery(req.query, cfg.reservedWords)
          case Raised(e) => Outcome([], ServerError(e))
          case Ok(spec) =>
            var call := GetAll(table, spec.filter, spec.sort);
            Outcome([call], StoreReply(call))
  }

  /** `on_post`, after the content-type hook.  The token's validity is never
      consulted: only a missing user record stops the request, by making the
      next subscript raise. */
  function PostOutcome(cfg: Config, req: Request, auth: AuthResult, now: string): (o: Outcome)
    ensures o.calls != [] ==> auth.user.Some? && o.calls[0].AddTable?
  {
    match ValidateJsonContent(req.contentType)
    case Some(rejection) => Outcome([], rejection)
    case None =>
      var (valid, kind) := CheckEndpoint(req.endpointType);
      if !valid then Outcome([], BadEndpoint)
      else if auth.user.None? then Outcome([], ServerError("TypeError"))
      else
        var user := auth.user.value;
        if kind == Public && !MayPostTo(user, req.table) then Outcome([], CannotPost)
        else
          var table := GenerateTableName(req.table, user.displayName, kind);
          IngestOutcome(table, req.body, MetadataOf(req.query, cfg.metadataKey), user.addDatestampToPosts, now)
  }

  /** The tail of `on_post` from the creation of the collection on: decode
      the body, choose the documents, save them one by one. */
  function IngestOutcome(table: string, body: Option<Json>, metadata: map<string, QValue>,
                         addDatestamp: bool, now: string): (o: Outcome)
    ensures o.calls != [] && o.calls[0] == AddTable(table)
  {
    var created := [AddTable(table)];
    match body
    case None => Outcome(created, BadJson)
    case Some(parsed) =>
      match PayloadOf(parsed, metadata)
      case PayloadRaised(e) => Outcome(created, ServerError(e))
      case MissingAttribute(f) => Outcome(created, ExplodeFailure(f))
      case Documents(docs) =>
        var plan := PlanSaves(docs, addDatestamp, now);
        Outcome(created + SaveCalls(plan.saved, table),
                if plan.complete then Saved(plan.saved) else ServerError("TypeError"))
  }

  /** `on_put`, after the content-type hook. */
  function PutOutcome(req: Request, auth: AuthResult): (o: Outcome)
    ensures |o.calls| <= 1
    ensures o.calls != [] ==> o.calls[0].Update? && o.response == StoreReply(o.calls[0])
  {
    match ValidateJsonContent(req.contentType)
    case Some(rejection) => Outcome([], rejection)
    case None =>
      var (valid, kind) := CheckEndpoint(req.endpointType);
      if !valid then Outcome([], BadEndpoint)
      else if !auth.valid then Outcome([], Text(auth.message))
      else match TableNameFromUserRecord(req.table, auth.user, kind)
        case Raised(e) => Outcome([], ServerError(e))
        case Ok(table) =>
          if !HasId(req.docId) then Outcome([], NoDocument)
          else match req.body
            case None => Outcome([], InvalidJson)
            case Some(doc) =>
              var call := Update(table, req.docId.value, doc);
              Outcome([call], StoreReply(call))
  }

  /** `on_delete`; this handler has no content-type hook. */
  function DeleteOutcome(req: Request, auth: AuthResult): (o: Outcome)
    ensures |o.calls| <= 1
    ensures o.calls != [] ==> o.response == StoreReply(o.calls[0])
    ensures o.calls != [] ==> (o.calls[0].DeleteOne? <==> HasId(req.docId))
  {
    var (valid, kind) := CheckEndpoint(req.endpointType);
    if !valid then Outcome([], BadEndpoint)
    else if !auth.valid then Outcome([], Text(auth.message))
    else match TableNameFromUserRecord(req.table, auth.user, kind)
      case Raised(e) => Outcome([], ServerError(e))
      case Ok(table) =>
        var call := if HasId(req.docId) then DeleteOne(table, req.docId.value) else DeleteAll(table);
        Outcome([call], StoreReply(call))
  }

  /** A fresh mutable list holding `docs`, as the decoder hands it over. */
  method NewList(docs: seq<Json>) returns (list: array<Json>)
    ensures fresh(list) && list[..] == docs
  {
    list := new Json[|docs|](i requires 0 <= i < |docs| => docs[i]);
  }

  /** The resource.  `calls` is everything it has asked of its database, in order. */
  class UserDocumentResource {
    const config: Config
    var calls: seq<StoreCall>

    constructor (config: Config)
      ensures this.config == config && calls == []
    {
      this.config := config;
      calls := [];
    }

    method OnGet(req: Request, auth: AuthResult) returns (resp: Response)
      modifies this
      ensures calls == old(calls) + GetOutcome(config, req, auth).calls
      ensures resp == GetOutcome(config, req, auth).response
    {
      var rejection := ValidateJsonContent(req.contentType);
      if rejection.Some? {
        return rejection.value;
      }
      var (validEndPoint, kind) := CheckEndpoint(req.endpointType);
      if !validEndPoint {
        return BadEndpoint;
      }
      if !auth.valid || auth.user.None? {
        return Text(auth.message);
      }
      var table := GenerateTableName(req.table, auth.user.value.displayName, kind);
      if HasId(req.docId) {
        var call := GetOne(table, req.docId.value);
        calls := calls + [call];
        resp := StoreReply(call);
      } else {
        var spec := ConstructFilterFromQueryParams(req.query, config.reservedWords);
        if spec.Raised? {
          return ServerError(spec.exception);
        }
        var call := GetAll(table, spec.value.filter, spec.value.sort);
        calls := calls + [call];
        resp := StoreReply(call);
      }
    }

    method OnPost(req: Request, auth: AuthResult, now: string) returns (resp: Response)
      modifies this
      ensures calls == old(calls) + PostOutcome(config, req, auth, now).calls
      ensures resp == PostOutcome(config, req, auth, now).response
    {
      var rejection := ValidateJsonContent(req.contentType);
      if rejection.Some? {
        return rejection.value;
      }
      var (validEndPoint, kind) := CheckEndpoint(req.endpointType);
      if !validEndPoint {
        return BadEndpoint;
      }
      if auth.user.None? || !auth.valid {
        // The body is set here, but the handler does not return.
        resp := Text(auth.message);
      }
      if kind == Public {
        if auth.user.None? {
          return ServerError("TypeError");
        }
        var allowed := CheckUserCanPostToEndpoint(auth.user.value, req.table);
        if !allowed {
          return CannotPost;
        }
      }
      var metadata := ConstructMetadataFromQueryParams(req.query, config.metadataKey);
      if auth.user.None? {
        return ServerError("TypeError");
      }
      var user := auth.user.value;
      var table := GenerateTableName(req.table, user.displayName, kind);
      resp := Ingest(table, req.body, metadata, user.addDatestampToPosts, now);
    }

    /** The part of `on_post` from the creation of the collection on:
        decode the body, choose the documents and save them. */
    method Ingest(table: string, body: Option<Json>, metadata: map<string, QValue>,
                  addDatestamp: bool, now: string) returns (resp: Response)
      modifies this
      ensures calls == old(calls) + IngestOutcome(table, body, metadata, addDatestamp, now).calls
      ensures resp == IngestOutcome(table, body, metadata, addDatestamp, now).response
    {
      calls := calls + [AddTable(table)];
      if body.None? {
        return BadJson;
      }
      var payload := PayloadOf(body.value, metadata);
      match payload
      case PayloadRaised(e) =>
        resp := ServerError(e);
      case MissingAttribute(f) =>
        resp := ExplodeFailure(f);
      case Documents(docs) =>
        var list := NewList(docs);
        var saved := SaveDocuments(table, list, addDatestamp, now);
        resp := if saved.Ok? then Saved(saved.value) else ServerError(saved.exception);
    }

    method OnPut(req: Request, auth: AuthResult) returns (resp: Response)
      modifies this
      ensures calls == old(calls) + PutOutcome(req, auth).calls
      ensures resp == PutOutcome(req, auth).response
    {
      var rejection := ValidateJsonContent(req.contentType);
      if rejection.Some? {
        return rejection.value;
      }
      var (validEndPoint, kind) := CheckEndpoint(req.endpointType);
      if !validEndPoint {
        return BadEndpoint;
      }
      if auth.valid {
        var table := TableNameFromUserRecord(req.table, auth.user, kind);
        if table.Raised? {
          return ServerError(table.exception);
        }
        if HasId(req.docId) {
          if req.body.None? {
            return InvalidJson;
          }
          var call := Update(table.value, req.docId.value, req.body.value);
          calls := calls + [call];
          resp := StoreReply(call);
        } else {
          resp := NoDocument;
        }
      } else {
        resp := Text(auth.message);
      }
    }

    method OnDelete(req: Request, auth: AuthResult) returns (resp: Response)
      modifies this
      ensures calls == old(calls) + DeleteOutcome(req, auth).calls
      ensures resp == DeleteOutcome(req, auth).response
    {
      var (validEndPoint, kind) := CheckEndpoint(req.endpointType);
      if !validEndPoint {
        return BadEndpoint;
      }
      if auth.valid {
        var table := TableNameFromUserRecord(req.table, auth.user, kind);
        if table.Raised? {
          return ServerError(table.exception);
        }
        var call := if HasId(req.docId) then DeleteOne(table.value, req.docId.value) else DeleteAll(table.value);
        calls := calls + [call];
        resp := StoreReply(call);
      } else {
        resp := Text(auth.message);
      }
    }

    /** `__save_documents__`: stamps each document in place when asked to,
        saves it, and collects it; an unstampable document raises after the
        earlier ones were saved. */
    method SaveDocuments(table: string, docs: array<Json>, addDatestamp: bool, now: string)
      returns (r: Result<seq<Json>>)
      modifies this, docs
      ensures var plan := PlanSaves(old(docs[..]), addDatestamp, now);
              && calls == old(calls) + SaveCalls(plan.saved, table)
              && r == (if plan.complete then Ok(plan.saved) else Raised("TypeError"))
              && docs[..] == plan.saved + old(docs[..])[|plan.saved|..]
    {
      ghost var original := docs[..];
      ghost var before := calls;
      var saved: seq<Json> := [];
      var raised := false;
      var i := 0;
      while i < docs.Length && !raised
        invariant 0 <= i <= docs.Length && |saved| == i
        invariant forall j :: 0 <= j < i ==> Stamped(original[j], addDatestamp, now) == Some(saved[j])
        invariant raised ==> i < docs.Length && Stamped(original[i], addDatestamp, now).None?
        invariant docs[..i] == saved && docs[i..] == original[i..]
        invariant calls == before + SaveCalls(saved, table)
        decreases docs.Length - i, if raised then 0 else 1
      {
        var doc := docs[i];
        assert doc == original[i] by { assert docs[i..][0] == original[i..][0]; }
        if addDatestamp && !doc.JObj? {
          raised := true;
        } else {
          if addDatestamp {
            doc := JObj(doc.fields["created" := JStr(now)]);
            docs[i] := doc;
          }
          SaveCallsAppend(saved, doc, table);
          calls := calls + [Save(doc, table)];
          saved := saved + [doc];
          i := i + 1;
        }
      }
      PlanSavesDetermined(original, addDatestamp, now, saved, !raised);
      assert docs[..] == saved + original[i..];
      r := if raised then Raised("TypeError") else Ok(saved);
    }
  }
}
