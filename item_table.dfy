/**
 * A DynamoDB table keyed by its `id` attribute, with the `UserIdIndex`
 * secondary index and the ownership check that every per-item handler of
 * api/lambda/posts/handler.py and api/lambda/schedules/handler.py performs
 * before it reads, changes or deletes an item.
 */
module ItemTable {
  import opened Wrappers
  import opened PyJson
  import opened LambdaEvent

  /** Items by the value of their `id` key. */
  type Table = map<Json, Item>

  /** The item is in the `UserIdIndex` partition of `userId`. */
  predicate Owns(item: Item, userId: Json)
  {
    "userId" in item && item["userId"] == userId
  }

  /** The ids a `UserIdIndex` query for `userId` returns. */
  function Owned(table: Table, userId: Json): (ids: set<Json>)
    ensures forall id :: id in ids <==> id in table && Owns(table[id], userId)
  {
    set id | id in table && Owns(table[id], userId)
  }

  /**
   * `get_item` followed by the two guards: 404 with `notFound` when there is
   * no item (`not item`), 403 when its `userId` is not the caller's, the item
   * otherwise.
   */
  function OwnedItem(table: Table, userId: Json, id: Json, notFound: string): (r: Result<Item, Response>)
    ensures r.Ok? ==> id in table && r.value == table[id] && Get(r.value, "userId") == userId
    ensures r.Err? && r.error.statusCode == 404 <==> id !in table || table[id] == map[]
    ensures r.Err? && r.error.statusCode == 403 <==> id in table && table[id] != map[] && Get(table[id], "userId") != userId
    ensures r.Err? ==> r.error.statusCode in {403, 404}
  {
    if id !in table || table[id] == map[] then Err(Response(404, Message(notFound)))
    else if Get(table[id], "userId") != userId then Err(Response(403, Message("Access denied")))
    else Ok(table[id])
  }

  /** A non-null caller owns every item it passes the guards for. */
  lemma OwnedItemIsOwned(table: Table, userId: Json, id: Json, notFound: string)
    requires userId != JNull
    requires OwnedItem(table, userId, id, notFound).Ok?
    ensures id in Owned(table, userId)
  {
  }

  /** `views` shows every item of the caller, and nothing else. */
  predicate Lists(table: Table, userId: Json, view: Item -> Json, views: seq<Json>)
  {
    && (forall id :: id in Owned(table, userId) ==> view(table[id]) in views)
    && (forall v :: v in views ==> exists id :: id in Owned(table, userId) && v == view(table[id]))
  }

  /**
   * The `UserIdIndex` query followed by the formatting loop: every item of
   * the caller, each once, in the order the index returns them (which the
   * model leaves open and reports in `order`), formatted by `view`.
   */
  method QueryByUser(table: Table, userId: Json, view: Item -> Json) returns (views: seq<Json>, ghost order: seq<Json>)
    ensures |order| == |views|
    ensures forall i, j :: 0 <= i < j < |order| ==> order[i] != order[j]
    ensures forall id :: id in order <==> id in Owned(table, userId)
    ensures forall i :: 0 <= i < |order| ==> order[i] in table && views[i] == view(table[order[i]])
    ensures Lists(table, userId, view, views)
  {
    var owned := Owned(table, userId);
    var remaining := owned;
    views, order := [], [];
    while remaining != {}
      invariant remaining <= owned
      invariant |order| == |views|
      invariant forall i, j :: 0 <= i < j < |order| ==> order[i] != order[j]
      invariant forall id :: id in order <==> id in owned && id !in remaining
      invariant forall i :: 0 <= i < |order| ==> order[i] in table && views[i] == view(table[order[i]])
      decreases remaining
    {
      var id :| id in remaining;
      views := views + [view(table[id])];
      order := order + [id];
      remaining := remaining - {id};
    }
    forall id | id in owned
      ensures view(table[id]) in views
    {
      var i :| 0 <= i < |order| && order[i] == id;
      assert views[i] == view(table[id]);
    }
    forall v | v in views
      ensures exists id :: id in owned && v == view(table[id])
    {
      var i :| 0 <= i < |views| && views[i] == v;
      assert order[i] in owned && v == view(table[order[i]]);
    }
  }
}
