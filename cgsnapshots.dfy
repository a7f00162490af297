/** The API view builder for consistency-group snapshots
    (cinder/api/views/cgsnapshots.py): it projects snapshot records onto the
    dictionaries the REST API returns, one at a time or as a list. */
module CgsnapshotViews {
  import opened Common
  import opened PyValue

  /** A snapshot record, read by key. */
  type Record = map<string, Value>

  /** The key `_list_view` returns its list under: the keyword argument
      `cgsnapshots=` of the `dict` it builds. */
  const CollectionName := "cgsnapshots"

  /** The keys of a detailed view, in the order the source lists them. */
  const DetailKeys: seq<string> := ["id", "consistencygroup_id", "status", "created_at", "name", "description"]

  /** `summary`: the id and the name, read with `[]`, under "cgsnapshot".
      The request plays no part. */
  function Summary<R>(request: R, cgsnapshot: Record): (r: Result<Value>)
    ensures r.Ok? <==> "id" in cgsnapshot && "name" in cgsnapshot
    ensures r.Err? ==> r.error == KeyError(if "id" !in cgsnapshot then "id" else "name")
    ensures r.Ok? ==> r.value.Dict? && r.value.entries.Keys == {"cgsnapshot"}
    ensures r.Ok? ==> var inner := r.value.entries["cgsnapshot"];
                      && inner.Dict? && inner.entries.Keys == {"id", "name"}
                      && forall k :: k in inner.entries ==> inner.entries[k] == cgsnapshot[k]
  {
    var id := Index(cgsnapshot, "id");
    var name := Index(cgsnapshot, "name");
    if id.Err? then Err(id.error)
    else if name.Err? then Err(name.error)
    else Ok(Dict(map["cgsnapshot" := Dict(map["id" := id.value, "name" := name.value])]))
  }

  /** `detail`: six fields read with `.get`, under "cgsnapshot". A missing
      field reads as None; the request plays no part. */
  function Detail<R>(request: R, cgsnapshot: Record): (v: Value)
    ensures v.Dict? && v.entries.Keys == {"cgsnapshot"}
    ensures var inner := v.entries["cgsnapshot"];
            && inner.Dict? && inner.entries.Keys == set k | k in DetailKeys
            && forall k :: k in inner.entries ==>
                 inner.entries[k] == (if k in cgsnapshot then cgsnapshot[k] else Null)
  {
    Dict(map["cgsnapshot" := Dict(map[
      "id" := Get(cgsnapshot, "id"),
      "consistencygroup_id" := Get(cgsnapshot, "consistencygroup_id"),
      "status" := Get(cgsnapshot, "status"),
      "created_at" := Get(cgsnapshot, "created_at"),
      "name" := Get(cgsnapshot, "name"),
      "description" := Get(cgsnapshot, "description")])])
  }

  /** Neither view depends on the request it is given. */
  lemma ViewsIgnoreRequest<R>(first: R, second: R, cgsnapshot: Record)
    ensures Summary(first, cgsnapshot) == Summary(second, cgsnapshot)
    ensures Detail(first, cgsnapshot) == Detail(second, cgsnapshot)
  {
  }

  /** `view['cgsnapshot']` on what a view function returned. */
  function Inner(view: Result<Value>): Result<Value>
  {
    match view
    case Err(e) => Err(e)
    case Ok(Dict(entries)) => Index(entries, "cgsnapshot")
    case Ok(_) => Err(TypeError)
  }

  /** The list comprehension of `_list_view`: the inner view of each record,
      in order; the first record whose view raises stops it. */
  function InnerViews<R>(view: (R, Record) -> Result<Value>, request: R, cgsnapshots: seq<Record>)
    : (r: Result<seq<Value>>)
    ensures r.Ok? ==> |r.value| == |cgsnapshots|
    ensures r.Ok? ==> forall i :: 0 <= i < |cgsnapshots| ==>
                        Inner(view(request, cgsnapshots[i])) == Ok(r.value[i])
    ensures r.Err? ==> exists i :: 0 <= i < |cgsnapshots| &&
                        Inner(view(request, cgsnapshots[i])) == Err(r.error) &&
                        forall j :: 0 <= j < i ==> Inner(view(request, cgsnapshots[j])).Ok?
    decreases |cgsnapshots|
  {
    if |cgsnapshots| == 0 then Ok([])
    else
      var head := Inner(view(request, cgsnapshots[0]));
      if head.Err? then Err(head.error)
      else
        var rest := InnerViews(view, request, cgsnapshots[1..]);
        if rest.Err? then Err(rest.error)
        else Ok([head.value] + rest.value)
  }

  /** `_list_view`: the inner views, as a list under "cgsnapshots". When it
      returns, the list holds one inner view per record, in the records' order. */
  function ListView<R>(view: (R, Record) -> Result<Value>, request: R, cgsnapshots: seq<Record>)
    : (r: Result<Value>)
    ensures r.Ok? <==> forall i :: 0 <= i < |cgsnapshots| ==> Inner(view(request, cgsnapshots[i])).Ok?
    ensures r.Ok? ==> && r.value.Dict? && r.value.entries.Keys == {CollectionName}
                      && r.value.entries[CollectionName].List?
                      && |r.value.entries[CollectionName].items| == |cgsnapshots|
                      && forall i :: 0 <= i < |cgsnapshots| ==>
                           Inner(view(request, cgsnapshots[i])) == Ok(r.value.entries[CollectionName].items[i])
    ensures r.Err? ==> exists i :: 0 <= i < |cgsnapshots| && Inner(view(request, cgsnapshots[i])) == Err(r.error)
  {
    var items := InnerViews(view, request, cgsnapshots);
    if items.Err? then Err(items.error) else Ok(Dict(map[CollectionName := List(items.value)]))
  }

  /** `summary_list`: raises exactly when some record lacks an id or a name,
      and otherwise lists each record's id and name, in order. */
  function SummaryList<R>(request: R, cgsnapshots: seq<Record>): (r: Result<Value>)
    ensures r.Ok? <==> forall i :: 0 <= i < |cgsnapshots| ==> "id" in cgsnapshots[i] && "name" in cgsnapshots[i]
    ensures r.Ok? ==> && r.value.Dict? && r.value.entries.Keys == {CollectionName}
                      && r.value.entries[CollectionName].List?
                      && |r.value.entries[CollectionName].items| == |cgsnapshots|
                      && forall i :: 0 <= i < |cgsnapshots| ==>
                           r.value.entries[CollectionName].items[i] ==
                             Dict(map["id" := cgsnapshots[i]["id"], "name" := cgsnapshots[i]["name"]])
  {
    ListView(Summary, request, cgsnapshots)
  }

  /** `detail_list`: never raises; it holds one six-field view per record, in
      order, so an empty input gives an empty list. */
  function DetailList<R>(request: R, cgsnapshots: seq<Record>): (r: Result<Value>)
    ensures r.Ok? && r.value.Dict? && r.value.entries.Keys == {CollectionName}
    ensures r.value.entries[CollectionName].List?
    ensures |r.value.entries[CollectionName].items| == |cgsnapshots|
    ensures forall i :: 0 <= i < |cgsnapshots| ==>
              r.value.entries[CollectionName].items[i] == Detail(request, cgsnapshots[i]).entries["cgsnapshot"]
    ensures cgsnapshots == [] ==> r == Ok(Dict(map[CollectionName := List([])]))
  {
    ListView((req: R, cgsnapshot: Record) => Ok(Detail(req, cgsnapshot)), request, cgsnapshots)
  }
}
