/** The document ingestion pipeline of a POST: choosing the documents
    (the `explode` directive), stamping them, the one-save-per-document
    plan, and the `_id` rename applied to the response text. */
module Ingest {
  import opened Base
  import opened Json
  import opened Strings
  import opened Model

  /** The object fields after `doc['created'] = now`: the key `created` is
      added or overwritten and nothing else changes. */
  predicate AddsCreated(before: map<string, Json>, after: map<string, Json>, now: string)
  {
    && after.Keys == before.Keys + {"created"}
    && after["created"] == JStr(now)
    && forall k :: k in before && k != "created" ==> after[k] == before[k]
  }

  /** A document as it is saved.  Without the datestamp flag it is saved as
      it is; with it, only an object can take the `created` field, and any
      other value makes the item assignment raise (`None`). */
  function Stamped(doc: Json, addDatestamp: bool, now: string): (r: Option<Json>)
    ensures !addDatestamp ==> r == Some(doc)
    ensures addDatestamp ==> (r.Some? <==> doc.JObj?)
  {
    if !addDatestamp then Some(doc)
    else match doc
      case JObj(fields) => Some(JObj(fields["created" := JStr(now)]))
      case _ => None
  }

  /** A stamped object gained `created` and kept every other field. */
  lemma StampedAddsCreated(doc: Json, now: string)
    requires doc.JObj?
    ensures Stamped(doc, true, now).Some?
    ensures Stamped(doc, true, now).value.JObj?
    ensures AddsCreated(doc.fields, Stamped(doc, true, now).value.fields, now)
  {
  }

  /** What `__save_documents__` gets through: the documents saved, in order,
      and whether it reached the end of the list rather than raising. */
  datatype SavePlan = SavePlan(saved: seq<Json>, complete: bool)

  function PlanSaves(docs: seq<Json>, addDatestamp: bool, now: string): (p: SavePlan)
    ensures |p.saved| <= |docs|
    ensures p.complete ==> |p.saved| == |docs|
    decreases |docs|
  {
    if docs == [] then SavePlan([], true)
    else match Stamped(docs[0], addDatestamp, now)
      case None => SavePlan([], false)
      case Some(d) =>
        var rest := PlanSaves(docs[1..], addDatestamp, now);
        SavePlan([d] + rest.saved, rest.complete)
  }

  /** The plan saves a prefix of the documents, each one stamped, and stops
      exactly at the first document that cannot be stamped. */
  lemma {:induction false} PlanSavesPrefix(docs: seq<Json>, addDatestamp: bool, now: string)
    ensures var p := PlanSaves(docs, addDatestamp, now);
            && (forall i :: 0 <= i < |p.saved| ==> Stamped(docs[i], addDatestamp, now) == Some(p.saved[i]))
            && (p.complete <==> |p.saved| == |docs|)
            && (!p.complete ==> Stamped(docs[|p.saved|], addDatestamp, now).None?)
    decreases |docs|
  {
    if docs != [] && Stamped(docs[0], addDatestamp, now).Some? {
      PlanSavesPrefix(docs[1..], addDatestamp, now);
    }
  }

  /** The three properties of `PlanSavesPrefix` determine the plan. */
  lemma PlanSavesDetermined(docs: seq<Json>, addDatestamp: bool, now: string, saved: seq<Json>, complete: bool)
    requires |saved| <= |docs|
    requires forall i :: 0 <= i < |saved| ==> Stamped(docs[i], addDatestamp, now) == Some(saved[i])
    requires complete <==> |saved| == |docs|
    requires !complete ==> Stamped(docs[|saved|], addDatestamp, now).None?
    ensures PlanSaves(docs, addDatestamp, now) == SavePlan(saved, complete)
  {
    var p := PlanSaves(docs, addDatestamp, now);
    PlanSavesPrefix(docs, addDatestamp, now);
    assert |p.saved| == |saved|;
    assert p.saved == saved;
  }

  /** Without the datestamp flag every document is saved, unchanged and in order. */
  lemma {:induction false} PlanWithoutDatestamp(docs: seq<Json>, now: string)
    ensures PlanSaves(docs, false, now) == SavePlan(docs, true)
    decreases |docs|
  {
    if docs != [] {
      PlanWithoutDatestamp(docs[1..], now);
      assert [docs[0]] + docs[1..] == docs;
    }
  }

  /** With the flag, a completed plan saved every document in order, each an
      object that gained `created` and kept every other field. */
  lemma PlanWithDatestamp(docs: seq<Json>, now: string)
    requires PlanSaves(docs, true, now).complete
    ensures var saved := PlanSaves(docs, true, now).saved;
            && |saved| == |docs|
            && forall i :: 0 <= i < |docs| ==>
                 docs[i].JObj? && saved[i].JObj? && AddsCreated(docs[i].fields, saved[i].fields, now)
  {
    PlanSavesPrefix(docs, true, now);
    forall i | 0 <= i < |docs|
      ensures docs[i].JObj? && AddsCreated(docs[i].fields, PlanSaves(docs, true, now).saved[i].fields, now)
    {
      StampedAddsCreated(docs[i], now);
    }
  }

  /** One `save(doc, table)` per saved document, in order. */
  function SaveCalls(saved: seq<Json>, table: string): (calls: seq<StoreCall>)
    ensures |calls| == |saved|
    decreases |saved|
  {
    if saved == [] then [] else [Save(saved[0], table)] + SaveCalls(saved[1..], table)
  }

  /** The `i`-th save call saves the `i`-th document into `table`. */
  lemma {:induction false} SaveCallsAt(saved: seq<Json>, table: string, i: nat)
    requires i < |saved|
    ensures SaveCalls(saved, table)[i] == Save(saved[i], table)
    decreases |saved|
  {
    if i > 0 {
      SaveCallsAt(saved[1..], table, i - 1);
    }
  }

  /** Saving one more document appends one more call. */
  lemma {:induction false} SaveCallsAppend(saved: seq<Json>, doc: Json, table: string)
    ensures SaveCalls(saved + [doc], table) == SaveCalls(saved, table) + [Save(doc, table)]
    decreases |saved|
  {
    if saved != [] {
      SaveCallsAppend(saved[1..], doc, table);
      assert (saved + [doc])[1..] == saved[1..] + [doc];
    }
  }

  /** The documents a POST goes on to save, or why it stops. */
  datatype Payload =
    | Documents(docs: seq<Json>)
    | MissingAttribute(field: string)
    | PayloadRaised(exception: string)

  /** Python's `field in parsed`: a key of an object, an element of a list,
      a substring of a string; other values do not support `in`. */
  function HoldsField(parsed: Json, field: string): (r: Result<bool>)
    ensures r.Ok? <==> parsed.JObj? || parsed.JArr? || parsed.JStr?
    ensures r.Raised? ==> r.exception == "TypeError"
    ensures parsed.JObj? ==> r == Ok(field in parsed.fields)
    ensures parsed.JArr? ==> r == Ok(exists i :: 0 <= i < |parsed.items| && parsed.items[i] == JStr(field))
    ensures parsed.JStr? ==>
            r == Ok(exists i, j :: 0 <= i <= j <= |parsed.s| && parsed.s[i..j] == field)
  {
    match parsed
    case JObj(fields) => Ok(field in fields)
    case JArr(items) => Ok(JStr(field) in items)
    case JStr(s) =>
      ContainsIsSubstring(s, field);
      Ok(Contains(s, field))
    case _ => Raised("TypeError")
  }

  /** The list `__save_documents__` walks with `range(len(docs))` and
      `docs[i]`: a list's items, a string's characters, nothing for an empty
      object.  A non-empty object has no key 0, and other values have no
      length. */
  function DocumentList(v: Json): (r: Result<seq<Json>>)
    ensures r.Ok? <==> v.JArr? || v.JStr? || v == JObj(map[])
    ensures v.JArr? ==> r == Ok(v.items)
    ensures v.JStr? ==> |r.value| == |v.s| && forall i :: 0 <= i < |v.s| ==> r.value[i] == JStr([v.s[i]])
    ensures v == JObj(map[]) ==> r == Ok([])
    ensures v.JObj? && v != JObj(map[]) ==> r == Raised("KeyError")
    ensures !v.JArr? && !v.JStr? && !v.JObj? ==> r == Raised("TypeError")
  {
    match v
    case JArr(items) => Ok(items)
    case JStr(s) => Ok(seq(|s|, i requires 0 <= i < |s| => JStr([s[i]])))
    case JObj(fields) => if |fields| == 0 then Ok([]) else Raised("KeyError")
    case _ => Raised("TypeError")
  }

  /** The choice between a single document and an exploded field. */
  function PayloadOf(parsed: Json, metadata: map<string, QValue>): (p: Payload)
    ensures "explode" !in metadata ==> p == Documents([parsed])
    ensures "explode" in metadata && metadata["explode"].Single? && parsed.JObj? ==>
            var f := metadata["explode"].s;
            (f !in parsed.fields ==> p == MissingAttribute(f)) &&
            (f in parsed.fields && parsed.fields[f].JArr? ==> p == Documents(parsed.fields[f].items))
    ensures p.MissingAttribute? ==> "explode" in metadata && metadata["explode"] == Single(p.field)
  {
    if "explode" !in metadata then Documents([parsed])
    else match metadata["explode"]
      case Multi(_) => PayloadRaised("TypeError")
      case Single(f) =>
        match HoldsField(parsed, f)
        case Raised(e) => PayloadRaised(e)
        case Ok(found) =>
          if !found then MissingAttribute(f)
          else if !parsed.JObj? then PayloadRaised("TypeError")
          else match DocumentList(parsed.fields[f])
            case Raised(e) => PayloadRaised(e)
            case Ok(docs) => Documents(docs)
  }

  /** An exploded field present in an object is walked as `DocumentList`
      walks it: a list gives its items, a string its characters, an empty
      object nothing; any other value raises. */
  lemma PayloadOfExplodedField(parsed: Json, metadata: map<string, QValue>)
    requires "explode" in metadata && metadata["explode"].Single? && parsed.JObj?
    requires metadata["explode"].s in parsed.fields
    ensures var list := DocumentList(parsed.fields[metadata["explode"].s]);
            && (list.Ok? ==> PayloadOf(parsed, metadata) == Documents(list.value))
            && (list.Raised? ==> PayloadOf(parsed, metadata) == PayloadRaised(list.exception))
  {
  }

  /** `explode` needs a single field name and an object: a list of names
      raises, and no other body yields documents to save.  Another body
      gets the missing-attribute answer when `in` finds no such field in
      it, and raises otherwise. */
  lemma PayloadOfExplodeNeedsObject(parsed: Json, metadata: map<string, QValue>)
    requires "explode" in metadata
    ensures metadata["explode"].Multi? ==> PayloadOf(parsed, metadata) == PayloadRaised("TypeError")
    ensures !parsed.JObj? ==> !PayloadOf(parsed, metadata).Documents?
    ensures metadata["explode"].Single? && !parsed.JObj? ==>
            var f := metadata["explode"].s;
            (PayloadOf(parsed, metadata) == MissingAttribute(f) <==> HoldsField(parsed, f) == Ok(false)) &&
            (HoldsField(parsed, f) != Ok(false) ==> PayloadOf(parsed, metadata) == PayloadRaised("TypeError"))
  {
  }

  /** `str.replace('_id', 'id')` on the serialised response: occurrences are
      replaced from left to right without overlapping. */
  function RenameIds(text: string): (r: string)
    ensures |r| <= |text|
    decreases |text|
  {
    if |text| < 3 then text
    else if text[..3] == "_id" then "id" + RenameIds(text[3..])
    else [text[0]] + RenameIds(text[1..])
  }

  /** Text without `_id` comes back unchanged. */
  lemma {:induction false} RenameIdsLeavesOtherText(text: string)
    requires !Contains(text, "_id")
    ensures RenameIds(text) == text
    decreases |text|
  {
    if |text| >= 3 {
      assert text[..3] != "_id";
      RenameIdsLeavesOtherText(text[1..]);
      assert [text[0]] + text[1..] == text;
    }
  }

  /** An `_id` key loses its underscore. */
  lemma RenameIdsKey()
    ensures RenameIds("\"_id\":7") == "\"id\":7"
  {
    assert RenameIds("\":7") == "\":7";
    assert RenameIds("_id\":7") == "id\":7";
  }

  /** So does an `_id` inside a longer name: `user_id` becomes `userid`. */
  lemma RenameIdsInsideName()
    ensures RenameIds("user_id") == "userid"
  {
    assert RenameIds("_id") == "id";
    assert RenameIds("r_id") == "rid";
    assert RenameIds("er_id") == "erid";
    assert RenameIds("ser_id") == "serid";
  }

  /** The rename is not complete: `__id` comes back as `_id`. */
  lemma RenameIdsLeavesUnderscoreId()
    ensures RenameIds("__id") == "_id"
  {
    assert RenameIds("_id") == "id";
  }
}
