/** Properties of the request handlers, stated over their outcome functions. */
module Properties {
  import opened Base
  import opened Json
  import opened Strings
  import opened Model
  import opened Rules
  import opened Query
  import opened Ingest
  import opened Handlers

  // ----- The content-type hook -----

  /** The exact media type passes, and so do its fragments.  (Falcon hands
      an empty header over as a missing one, so `""` reaches the hook only
      as the hook's own argument.) */
  lemma ContentTypeFragmentsAccepted()
    ensures ValidateJsonContent(Some("application/json")).None?
    ensures ValidateJsonContent(Some("json")).None?
    ensures ValidateJsonContent(Some("")).None?
  {
    assert JsonMediaType[12..16] == "json";
    assert JsonMediaType[0..0] == "";
    assert JsonMediaType[0..16] == "application/json";
  }

  /** A content type longer than "application/json" is rejected, which
      includes the media type with any parameter attached. */
  lemma LongContentTypeRejected(ct: string)
    requires |ct| > |JsonMediaType|
    ensures ValidateJsonContent(Some(ct)) == Some(BadRequest("Bad request", "Body of request should be application/json"))
  {
  }

  lemma CharsetParameterRejected()
    ensures ValidateJsonContent(Some("application/json; charset=utf-8")).Some?
  {
    LongContentTypeRejected("application/json; charset=utf-8");
  }

  /** A content type holding a character that "application/json" lacks is
      rejected: "text/plain" and "application/xml" hold an `x`. */
  lemma ForeignCharacterRejected(ct: string, c: char)
    requires c in ct && c !in JsonMediaType
    ensures ValidateJsonContent(Some(ct)).Some?
  {
    if Contains(JsonMediaType, ct) {
      ContainedCharsOccur(JsonMediaType, ct, c);
    }
  }

  // ----- Endpoint classification happens before authentication -----

  /** With an unknown endpoint token every handler answers "404" without a
      store call, whatever the authenticator would have said. */
  lemma UnknownEndpointRejectedBeforeAuthentication(cfg: Config, req: Request, auth: AuthResult, now: string)
    requires req.endpointType != "d" && req.endpointType != "p"
    requires ValidateJsonContent(req.contentType).None?
    ensures GetOutcome(cfg, req, auth) == Outcome([], BadEndpoint)
    ensures PostOutcome(cfg, req, auth, now) == Outcome([], BadEndpoint)
    ensures PutOutcome(req, auth) == Outcome([], BadEndpoint)
    ensures DeleteOutcome(req, auth) == Outcome([], BadEndpoint)
  {
  }

  /** The content-type hook runs before everything else on GET, POST and PUT. */
  lemma ContentTypeCheckedFirst(cfg: Config, req: Request, auth: AuthResult, now: string)
    requires ValidateJsonContent(req.contentType).Some?
    ensures var rejected := Outcome([], ValidateJsonContent(req.contentType).value);
            GetOutcome(cfg, req, auth) == rejected &&
            PostOutcome(cfg, req, auth, now) == rejected &&
            PutOutcome(req, auth) == rejected
  {
  }

  /** DELETE has no content-type hook. */
  lemma DeleteIgnoresContentType(req: Request, auth: AuthResult, contentType: Option<string>)
    ensures DeleteOutcome(req, auth) == DeleteOutcome(req.(contentType := contentType), auth)
  {
  }

  // ----- Collection names -----

  /** Two users can resolve to the same private collection. */
  lemma PrivateCollectionsCanCoincide()
    ensures GenerateTableName("notes_bob", "x", Private) == GenerateTableName("notes", "bob_x", Private)
  {
  }

  /** A user with an empty name writes into the public collection of that name. */
  lemma NamelessPrivateIsPublic(table: string, username: string)
    ensures GenerateTableName(table, "", Private) == GenerateTableName(table, username, Public) == table
  {
  }

  /** A private collection name tells the user name back, given the table. */
  lemma PrivateNameDeterminesUser(table: string, user1: string, user2: string)
    requires user1 != "" && user2 != ""
    requires GenerateTableName(table, user1, Private) == GenerateTableName(table, user2, Private)
    ensures user1 == user2
  {
    var name := GenerateTableName(table, user1, Private);
    assert "_" + user1 == name[|table|..] == "_" + user2;
    assert user1 == ("_" + user1)[1..];
    assert user2 == ("_" + user2)[1..];
  }

  // ----- GET -----

  /** A rejected token or a missing user ends a GET with the authenticator's
      message and no store call. */
  lemma GetStopsOnAuthenticationFailure(cfg: Config, req: Request, auth: AuthResult)
    requires ValidateJsonContent(req.contentType).None?
    requires req.endpointType == "d" || req.endpointType == "p"
    requires !auth.valid || auth.user.None?
    ensures GetOutcome(cfg, req, auth) == Outcome([], Text(auth.message))
  {
  }

  /** An authenticated GET makes exactly one call on the collection its user
      resolves to: `get_one_by_id` with an identifier, `get_all` with the
      filter and the sort of the query otherwise. */
  lemma GetCallsTheResolvedCollection(cfg: Config, req: Request, auth: AuthResult)
    requires ValidateJsonContent(req.contentType).None?
    requires req.endpointType == "d" || req.endpointType == "p"
    requires auth.valid && auth.user.Some?
    ensures var table := GenerateTableName(req.table, auth.user.value.displayName, CheckEndpoint(req.endpointType).1);
            var o := GetOutcome(cfg, req, auth);
            && (HasId(req.docId) ==> o.calls == [GetOne(table, req.docId.value)])
            && (!HasId(req.docId) && SortFrom(req.query).Ok? ==>
                  o.calls == [GetAll(table, FilterOf(req.query, cfg.reservedWords), SortFrom(req.query).value)])
            && (!HasId(req.docId) && SortFrom(req.query).Raised? ==>
                  o == Outcome([], ServerError(SortFrom(req.query).exception)))
  {
  }

  /** `sortby=name&order=desc` sorts by name, descending. */
  lemma SortByNameDescending()
    ensures SortFrom(map["sortby" := Single("name"), "order" := Single("desc")]) == Ok([SortKey(Single("name"), -1)])
  {
    assert Lower("desc") == "desc";
  }

  /** The direction is matched without regard to case. */
  lemma SortDirectionIgnoresCase()
    ensures SortFrom(map["sortby" := Single("age"), "order" := Single("ASC")]) == Ok([SortKey(Single("age"), 1)])
  {
    assert Lower("ASC") == "asc";
  }

  /** Any other direction goes through `int`: "5" passes through unmapped,
      "up" makes the request fail. */
  lemma SortDirectionPassesThroughInt()
    ensures SortFrom(map["sortby" := Single("age"), "order" := Single("5")]) == Ok([SortKey(Single("age"), 5)])
    ensures SortFrom(map["sortby" := Single("age"), "order" := Single("up")]) == Raised("ValueError")
  {
    assert Lower("5") == "5";
    assert Lower("up") == "up";
    assert ParseInt("5") == Some(5) by {
      assert DigitsValue("5") == DigitsValue("") * 10 + 5;
    }
  }

  /** Without `sortby` the direction is ignored unless it is a list. */
  lemma OrderAloneIsIgnored(q: map<string, QValue>, o: string)
    requires "sortby" !in q
    ensures SortFrom(q["order" := Single(o)]) == Ok([SortKey(Single("_id"), 1)])
  {
  }

  /** The filter keeps `sortby` and `order` unless they are reserved. */
  lemma ControlKeysStayInFilter(q: map<string, QValue>, reserved: seq<string>)
    requires "sortby" in q && "sortby" !in reserved
    requires "order" in q && "order" !in reserved
    ensures FilterOf(q, reserved)["sortby"] == q["sortby"]
    ensures FilterOf(q, reserved)["order"] == q["order"]
  {
  }

  // ----- POST -----

  /** POST never looks at whether the token verified: only the user record
      matters, and the authenticator's message is never the answer. */
  lemma PostIgnoresTokenValidity(cfg: Config, req: Request, user: Option<User>,
                                 valid1: bool, message1: string, valid2: bool, message2: string, now: string)
    ensures PostOutcome(cfg, req, AuthResult(valid1, message1, user), now) ==
            PostOutcome(cfg, req, AuthResult(valid2, message2, user), now)
  {
  }

  /** A POST with a rejected token but a user record still creates the
      private collection and saves the document. */
  lemma PostProceedsWithRejectedToken(now: string)
    ensures var req := Request(Some("application/json"), "d", "notes", None, map[], Some(JObj(map[])));
            var auth := AuthResult(false, "Token expired", Some(User("ann", false, [])));
            PostOutcome(Config([], "_meta_"), req, auth, now) ==
              Outcome([AddTable("notes_ann"), Save(JObj(map[]), "notes_ann")], Saved([JObj(map[])]))
  {
    ContentTypeFragmentsAccepted();
    assert MetadataOf(map[], "_meta_") == map[];
    assert GenerateTableName("notes", "ann", Private) == "notes_ann";
    PlanWithoutDatestamp([JObj(map[])], now);
  }

  /** Without a user record POST fails with a server error and touches nothing. */
  lemma PostWithoutUserRaises(cfg: Config, req: Request, auth: AuthResult, now: string)
    requires ValidateJsonContent(req.contentType).None?
    requires req.endpointType == "d" || req.endpointType == "p"
    requires auth.user.None?
    ensures PostOutcome(cfg, req, auth, now) == Outcome([], ServerError("TypeError"))
  {
  }

  /** On a public endpoint the guard compares the requested name and runs
      before the collection is created; a private endpoint skips it. */
  lemma PublicPostGuard(cfg: Config, req: Request, auth: AuthResult, now: string)
    requires ValidateJsonContent(req.contentType).None?
    requires auth.user.Some?
    ensures req.endpointType == "p" && !MayPostTo(auth.user.value, req.table) ==>
            PostOutcome(cfg, req, auth, now) == Outcome([], CannotPost)
    ensures req.endpointType == "p" && MayPostTo(auth.user.value, req.table) ==>
            PostOutcome(cfg, req, auth, now).calls[0] == AddTable(req.table)
    ensures req.endpointType == "d" ==>
            PostOutcome(cfg, req, auth, now).calls[0] ==
            AddTable(GenerateTableName(req.table, auth.user.value.displayName, Private))
  {
  }

  /** A body that does not decode creates the collection and saves nothing. */
  lemma BadJsonSavesNothing(table: string, metadata: map<string, QValue>, addDatestamp: bool, now: string)
    ensures IngestOutcome(table, None, metadata, addDatestamp, now) == Outcome([AddTable(table)], BadJson)
  {
  }

  /** Without `explode` the decoded body is the one document saved: as it
      is without the datestamp flag, with `created` added when it is an
      object and the flag is on; any other body then raises after the
      collection was created. */
  lemma SingleDocumentSaved(table: string, doc: Json, metadata: map<string, QValue>,
                            addDatestamp: bool, now: string)
    requires "explode" !in metadata
    ensures !addDatestamp ==>
            IngestOutcome(table, Some(doc), metadata, addDatestamp, now) ==
            Outcome([AddTable(table), Save(doc, table)], Saved([doc]))
    ensures addDatestamp && doc.JObj? ==>
            var stamped := JObj(doc.fields["created" := JStr(now)]);
            IngestOutcome(table, Some(doc), metadata, addDatestamp, now) ==
            Outcome([AddTable(table), Save(stamped, table)], Saved([stamped]))
    ensures addDatestamp && !doc.JObj? ==>
            IngestOutcome(table, Some(doc), metadata, addDatestamp, now) ==
            Outcome([AddTable(table)], ServerError("TypeError"))
  {
    if !addDatestamp {
      PlanWithoutDatestamp([doc], now);
    } else {
      assert [doc][1..] == [];
      if doc.JObj? {
        var stamped := JObj(doc.fields["created" := JStr(now)]);
        assert PlanSaves([doc], true, now) == SavePlan([stamped], true);
        assert SaveCalls([stamped], table) == [Save(stamped, table)];
      }
    }
  }

  /** `explode` naming a field the body does not hold saves nothing and
      names the field: an object without that key, a list without that
      string among its elements, a string without it as a substring. */
  lemma ExplodeMissingFieldSavesNothing(table: string, body: Json, f: string,
                                        metadata: map<string, QValue>, addDatestamp: bool, now: string)
    requires "explode" in metadata && metadata["explode"] == Single(f)
    requires HoldsField(body, f) == Ok(false)
    ensures IngestOutcome(table, Some(body), metadata, addDatestamp, now) ==
            Outcome([AddTable(table)], ExplodeFailure(f))
  {
  }

  /** `explode` naming a list field saves its items one by one, in order:
      unchanged without the datestamp flag; with it, each gains `created`,
      and the first item that is not an object stops the saves and makes
      the request fail. */
  lemma ExplodeSavesItemsInOrder(table: string, fields: map<string, Json>, f: string,
                                 metadata: map<string, QValue>, addDatestamp: bool, now: string)
    requires "explode" in metadata && metadata["explode"] == Single(f)
    requires f in fields && fields[f].JArr?
    ensures var items := fields[f].items;
            var o := IngestOutcome(table, Some(JObj(fields)), metadata, addDatestamp, now);
            && (!addDatestamp ==> o.response == Saved(items))
            && (o.response.Saved? <==> !addDatestamp || forall i :: 0 <= i < |items| ==> items[i].JObj?)
            && (o.response.Saved? ==>
                  && |o.response.docs| == |items|
                  && |o.calls| == |items| + 1
                  && forall i :: 0 <= i < |items| ==>
                       && o.calls[i + 1] == Save(o.response.docs[i], table)
                       && Stamped(items[i], addDatestamp, now) == Some(o.response.docs[i])
                       && (addDatestamp ==> AddsCreated(items[i].fields, o.response.docs[i].fields, now)))
            && (!o.response.Saved? ==>
                  && o.response == ServerError("TypeError")
                  && |o.calls| <= |items|
                  && !items[|o.calls| - 1].JObj?
                  && forall i :: 0 <= i < |o.calls| - 1 ==> items[i].JObj?)
  {
    var items := fields[f].items;
    var plan := PlanSaves(items, addDatestamp, now);
    PlanSavesPrefix(items, addDatestamp, now);
    if !addDatestamp {
      PlanWithoutDatestamp(items, now);
    }
    if plan.complete && addDatestamp {
      PlanWithDatestamp(items, now);
    }
    forall i | 0 <= i < |plan.saved| ensures SaveCalls(plan.saved, table)[i] == Save(plan.saved[i], table) {
      SaveCallsAt(plan.saved, table, i);
    }
  }

  /** A two-item example: exploding `items` of
      {"items": [{"a": 1}, {"a": 2}], "x": 9} saves the two items. */
  lemma ExplodeExample(now: string)
    ensures var a1 := JObj(map["a" := JNum(1)]);
            var a2 := JObj(map["a" := JNum(2)]);
            var body := JObj(map["items" := JArr([a1, a2]), "x" := JNum(9)]);
            IngestOutcome("t", Some(body), map["explode" := Single("items")], false, now) ==
              Outcome([AddTable("t"), Save(a1, "t"), Save(a2, "t")], Saved([a1, a2]))
  {
    var a1 := JObj(map["a" := JNum(1)]);
    var a2 := JObj(map["a" := JNum(2)]);
    PlanWithoutDatestamp([a1, a2], now);
  }

  /** After the collection is created, every call of a POST saves into it,
      and the saved documents are the chosen ones, stamped, in order. */
  lemma IngestSavesIntoOneCollection(table: string, body: Option<Json>, metadata: map<string, QValue>,
                                     addDatestamp: bool, now: string, i: nat)
    requires var o := IngestOutcome(table, body, metadata, addDatestamp, now); 1 <= i < |o.calls|
    ensures var o := IngestOutcome(table, body, metadata, addDatestamp, now);
            && body.Some?
            && PayloadOf(body.value, metadata).Documents?
            && var docs := PayloadOf(body.value, metadata).docs;
               && 1 <= i <= |docs|
               && o.calls[i].Save? && o.calls[i].table == table
               && Stamped(docs[i - 1], addDatestamp, now) == Some(o.calls[i].doc)
  {
    var docs := PayloadOf(body.value, metadata).docs;
    var plan := PlanSaves(docs, addDatestamp, now);
    PlanSavesPrefix(docs, addDatestamp, now);
    SaveCallsAt(plan.saved, table, i - 1);
  }

  /** A completed save returns one document per input, in order, each
      stamped as asked, and issues one save per document. */
  lemma SaveDocumentsPreservesOrder(docs: seq<Json>, addDatestamp: bool, now: string, table: string)
    requires PlanSaves(docs, addDatestamp, now).complete
    ensures var saved := PlanSaves(docs, addDatestamp, now).saved;
            && |saved| == |docs|
            && |SaveCalls(saved, table)| == |docs|
            && forall i :: 0 <= i < |docs| ==>
                 Stamped(docs[i], addDatestamp, now) == Some(saved[i]) &&
                 SaveCalls(saved, table)[i] == Save(saved[i], table)
  {
    var saved := PlanSaves(docs, addDatestamp, now).saved;
    PlanSavesPrefix(docs, addDatestamp, now);
    forall i | 0 <= i < |docs| ensures SaveCalls(saved, table)[i] == Save(saved[i], table) {
      SaveCallsAt(saved, table, i);
    }
  }

  /** With the datestamp flag, a non-object document stops the saves after
      the earlier ones were made. */
  lemma DatestampOnNonObjectStops(table: string, now: string)
    ensures var good := JObj(map[]);
            PlanSaves([good, JNum(3), good], true, now) == SavePlan([JObj(map["created" := JStr(now)])], false)
  {
  }

  // ----- PUT -----

  /** PUT without an identifier never calls the store, and on a public
      endpoint with a verified token answers with the "no document" payload. */
  lemma PutWithoutIdMakesNoStoreCall(req: Request, auth: AuthResult)
    requires !HasId(req.docId)
    ensures PutOutcome(req, auth).calls == []
    ensures ValidateJsonContent(req.contentType).None? && req.endpointType == "p" && auth.valid ==>
            PutOutcome(req, auth).response == NoDocument
  {
  }

  /** On a public endpoint an authenticated PUT replaces the document with
      the decoded body, or raises the "Invalid JSON" error. */
  lemma PutReplacesDocument(req: Request, auth: AuthResult)
    requires ValidateJsonContent(req.contentType).None?
    requires req.endpointType == "p" && auth.valid && HasId(req.docId)
    ensures req.body.None? ==> PutOutcome(req, auth) == Outcome([], InvalidJson)
    ensures req.body.Some? ==> PutOutcome(req, auth).calls == [Update(req.table, req.docId.value, req.body.value)]
  {
  }

  // ----- DELETE -----

  /** DELETE with an identifier makes exactly one call: delete that document. */
  lemma DeleteWithIdDeletesOne(req: Request, auth: AuthResult)
    requires req.endpointType == "p" && auth.valid && HasId(req.docId)
    ensures DeleteOutcome(req, auth) ==
            Outcome([DeleteOne(req.table, req.docId.value)], StoreReply(DeleteOne(req.table, req.docId.value)))
  {
  }

  /** DELETE without an identifier makes exactly one call: delete everything. */
  lemma DeleteWithoutIdDeletesAll(req: Request, auth: AuthResult)
    requires req.endpointType == "p" && auth.valid && !HasId(req.docId)
    ensures DeleteOutcome(req, auth) == Outcome([DeleteAll(req.table)], StoreReply(DeleteAll(req.table)))
  {
  }

  /** A rejected token ends PUT and DELETE with the authenticator's message. */
  lemma PutDeleteStopOnRejectedToken(req: Request, auth: AuthResult)
    requires req.endpointType == "d" || req.endpointType == "p"
    requires !auth.valid
    ensures DeleteOutcome(req, auth) == Outcome([], Text(auth.message))
    ensures ValidateJsonContent(req.contentType).None? ==> PutOutcome(req, auth) == Outcome([], Text(auth.message))
  {
  }

  /** On a private endpoint an authenticated PUT or DELETE raises while
      naming the collection, because the user record stands where the user
      name belongs; the store is never called. */
  lemma PrivatePutDeleteRaise(req: Request, auth: AuthResult)
    requires req.endpointType == "d" && auth.valid
    ensures DeleteOutcome(req, auth) == Outcome([], ServerError("TypeError"))
    ensures ValidateJsonContent(req.contentType).None? ==> PutOutcome(req, auth) == Outcome([], ServerError("TypeError"))
  {
  }
}
