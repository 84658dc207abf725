/** The two interpreters of the parsed query string: filter and sort for
    reads, metadata directives for writes. */
module Query {
  import opened Base
  import opened Strings
  import opened Model

  /** `__reserved__word__`: membership in the configured reserved words. */
  predicate IsReservedWord(reserved: seq<string>, word: string): (b: bool)
    ensures b <==> exists i :: 0 <= i < |reserved| && reserved[i] == word
  {
    word in reserved
  }

  /** The filter: every query entry whose key is not reserved, value unchanged.
      `sortby` and `order` stay in it unless they are reserved too. */
  function FilterOf(q: map<string, QValue>, reserved: seq<string>): (filter: map<string, QValue>)
    ensures forall k :: k in filter <==> k in q && !IsReservedWord(reserved, k)
    ensures forall k :: k in filter ==> filter[k] == q[k]
  {
    map k | k in q && !IsReservedWord(reserved, k) :: q[k]
  }

  /** The value `order_val` holds before `int` is applied: a direction
      already mapped from "asc"/"desc", or the text as the client sent it. */
  datatype OrderValue = Direction(n: int) | Unmapped(text: string)

  /** Lines computing `order_val`.  A list value has no `lower` and raises.
      The source's extra test `order_val == 1` compares a string with an
      integer and never holds, so it is left out. */
  function OrderOf(q: map<string, QValue>): (r: Result<OrderValue>)
    ensures r.Ok? <==> "order" !in q || q["order"].Single?
    ensures r.Raised? ==> r.exception == "AttributeError"
    ensures r.Ok? && r.value.Direction? ==> r.value.n == 1 || r.value.n == -1
    ensures r == Ok(Direction(-1)) <==> "order" in q && q["order"].Single? && Lower(q["order"].s) == "desc"
    ensures r == Ok(Direction(1)) <==> "order" !in q || (q["order"].Single? && Lower(q["order"].s) == "asc")
    ensures r.Ok? && r.value.Unmapped? ==>
            "order" in q && q["order"] == Single(r.value.text) &&
            Lower(r.value.text) != "asc" && Lower(r.value.text) != "desc"
  {
    if "order" !in q then Ok(Direction(1))
    else match q["order"]
      case Multi(_) => Raised("AttributeError")
      case Single(o) =>
        if Lower(o) == "asc" then Ok(Direction(1))
        else if Lower(o) == "desc" then Ok(Direction(-1))
        else Ok(Unmapped(o))
  }

  /** `int(order_val)`. */
  function IntOf(v: OrderValue): (r: Result<int>)
    ensures v.Direction? ==> r == Ok(v.n)
    ensures v.Unmapped? ==> (r.Ok? <==> ParseInt(v.text).Some?)
    ensures v.Unmapped? && r.Ok? ==> r.value == ParseInt(v.text).value
    ensures r.Raised? ==> r.exception == "ValueError"
  {
    match v
    case Direction(n) => Ok(n)
    case Unmapped(t) => match ParseInt(t)
      case None => Raised("ValueError")
      case Some(n) => Ok(n)
  }

  /** The sort specification. */
  function SortFrom(q: map<string, QValue>): (r: Result<seq<SortKey>>)
    ensures r.Ok? ==> |r.value| == 1
    ensures r.Ok? && "sortby" !in q ==> r.value == [SortKey(Single("_id"), 1)]
    ensures r.Ok? && "sortby" in q ==> r.value[0].field == q["sortby"]
    ensures "sortby" !in q ==> (r.Ok? <==> "order" !in q || q["order"].Single?)
    ensures "order" in q && q["order"].Multi? ==> r == Raised("AttributeError")
    ensures "sortby" in q && "order" !in q ==> r == Ok([SortKey(q["sortby"], 1)])
    ensures "sortby" in q && "order" in q && q["order"].Single? ==>
            var o := q["order"].s;
            (Lower(o) == "asc" ==> r == Ok([SortKey(q["sortby"], 1)])) &&
            (Lower(o) == "desc" ==> r == Ok([SortKey(q["sortby"], -1)])) &&
            (Lower(o) != "asc" && Lower(o) != "desc" ==>
               (ParseInt(o).None? ==> r == Raised("ValueError")) &&
               (ParseInt(o).Some? ==> r == Ok([SortKey(q["sortby"], ParseInt(o).value)])))
  {
    match OrderOf(q)
    case Raised(e) => Raised(e)
    case Ok(order) =>
      if "sortby" in q then
        match IntOf(order)
        case Raised(e) => Raised(e)
        case Ok(n) => Ok([SortKey(q["sortby"], n)])
      else
        Ok([SortKey(Single("_id"), 1)])
  }

  /** The filter and sort handed to the store's `get_all`. */
  datatype QuerySpec = QuerySpec(filter: map<string, QValue>, sort: seq<SortKey>)

  /** `__construct_filter_from_query_params__` as a value. */
  function FilterQuery(q: map<string, QValue>, reserved: seq<string>): (r: Result<QuerySpec>)
    ensures r.Ok? <==> SortFrom(q).Ok?
    ensures r.Ok? ==> r.value.filter == FilterOf(q, reserved) && r.value.sort == SortFrom(q).value
  {
    match SortFrom(q)
    case Raised(e) => Raised(e)
    case Ok(sort) => Ok(QuerySpec(FilterOf(q, reserved), sort))
  }

  /** `__construct_filter_from_query_params__`: settles the sort from `sortby`
      and `order`, then copies every non-reserved entry into the filter. */
  method ConstructFilterFromQueryParams(q: map<string, QValue>, reserved: seq<string>) returns (r: Result<QuerySpec>)
    ensures r == FilterQuery(q, reserved)
  {
    var sortBy := [SortKey(Single("_id"), 1)];
    var sortbyVal := Single("_id");
    var orderVal := Direction(1);
    var sortby := false;
    if "sortby" in q {
      sortby := true;
      sortbyVal := q["sortby"];
    }
    if "order" in q {
      match q["order"]
      case Multi(_) =>
        return Raised("AttributeError");
      case Single(o) =>
        orderVal := Unmapped(o);
        if Lower(o) == "asc" {
          orderVal := Direction(1);
        } else if Lower(o) == "desc" {
          orderVal := Direction(-1);
        }
    }
    if sortby {
      var n := IntOf(orderVal);
      if n.Raised? {
        return Raised(n.exception);
      }
      sortBy := [SortKey(sortbyVal, n.value)];
    }

    var filter: map<string, QValue> := map[];
    var todo := q.Keys;
    while todo != {}
      invariant todo <= q.Keys
      invariant forall k :: k in filter <==> k in q && k !in todo && !IsReservedWord(reserved, k)
      invariant forall k :: k in filter ==> filter[k] == q[k]
      decreases todo
    {
      var key :| key in todo;
      if !IsReservedWord(reserved, key) {
        filter := filter[key := q[key]];
      }
      todo := todo - {key};
    }
    assert filter == FilterOf(q, reserved);
    assert SortFrom(q) == Ok(sortBy);
    r := Ok(QuerySpec(filter, sortBy));
  }

  /** The metadata directives: one entry per query key that starts with the
      prefix, keyed by what follows the prefix, value unchanged. */
  function MetadataOf(q: map<string, QValue>, prefix: string): (md: map<string, QValue>)
    ensures forall k :: k in q && prefix <= k ==> k[|prefix|..] in md && md[k[|prefix|..]] == q[k]
    ensures forall m :: m in md ==> prefix + m in q && md[m] == q[prefix + m]
  {
    assert forall k :: prefix <= k ==> prefix + k[|prefix|..] == k;
    map k | k in q && StartsWith(k, prefix) :: k[|prefix|..] := q[k]
  }

  /** `__construct_metadata_from_query_params__`. */
  method ConstructMetadataFromQueryParams(q: map<string, QValue>, prefix: string) returns (md: map<string, QValue>)
    ensures md == MetadataOf(q, prefix)
  {
    md := map[];
    var todo := q.Keys;
    while todo != {}
      invariant todo <= q.Keys
      invariant forall k :: k in q && k !in todo && prefix <= k ==> k[|prefix|..] in md && md[k[|prefix|..]] == q[k]
      invariant forall m :: m in md ==> prefix + m in q && prefix + m !in todo && md[m] == q[prefix + m]
      decreases todo
    {
      var key :| key in todo;
      if StartsWith(key, prefix) {
        assert prefix + key[|prefix|..] == key;
        md := md[key[|prefix|..] := q[key]];
      }
      todo := todo - {key};
    }
    MetadataDetermined(q, prefix, md);
  }

  /** The two properties of `MetadataOf` determine it. */
  lemma MetadataDetermined(q: map<string, QValue>, prefix: string, md: map<string, QValue>)
    requires forall k :: k in q && prefix <= k ==> k[|prefix|..] in md && md[k[|prefix|..]] == q[k]
    requires forall m :: m in md ==> prefix + m in q && md[m] == q[prefix + m]
    ensures md == MetadataOf(q, prefix)
  {
    var spec := MetadataOf(q, prefix);
    forall m | m in md ensures m in spec && spec[m] == md[m] {
      assert (prefix + m)[|prefix|..] == m;
    }
    forall m | m in spec ensures m in md {
      assert (prefix + m)[|prefix|..] == m;
    }
  }
}
