/**
 * The posts API (api/lambda/posts/handler.py): the posts table, the media
 * bucket it points into, and the five operations of `/posts` and
 * `/posts/{id}` behind the router.
 */
module Posts {
  import opened Wrappers
  import opened PyJson
  import Strings
  import opened LambdaEvent
  import opened ItemTable

  /** The attributes an update may set from the request body, in the order it tests them. */
  const Editable: seq<string> := ["content", "mediaUrl", "scheduledFor", "status"]

  /** The post as the read operations return it: seven attributes, `None` where missing. */
  function PostView(item: Item): (v: Json)
    ensures v.JObj?
    ensures v.fields.Keys == {"id", "content", "mediaUrl", "scheduledFor", "status", "createdAt", "updatedAt"}
    ensures forall k :: k in v.fields ==> v.fields[k] == Get(item, k)
  {
    JObj(map[
      "id" := Get(item, "id"),
      "content" := Get(item, "content"),
      "mediaUrl" := Get(item, "mediaUrl"),
      "scheduledFor" := Get(item, "scheduledFor"),
      "status" := Get(item, "status"),
      "createdAt" := Get(item, "createdAt"),
      "updatedAt" := Get(item, "updatedAt")])
  }

  /**
   * The post `create_post` writes for `body`, given the fresh id and the
   * current time: 500 when the body is not a dict (`body.get` raises), 400
   * when `content` is falsy; `mediaUrl` and `scheduledFor` are stored only
   * when truthy, and the status is SCHEDULED exactly when `scheduledFor` is.
   */
  function NewPost(userId: Json, body: Json, id: string, now: string): (r: Result<Item, Response>)
    ensures !body.JObj? ==> r == Err(Response(500, Message("Error creating post")))
    ensures body.JObj? && !Truthy(Get(body.fields, "content")) ==> r == Err(Response(400, Message("Content is required")))
    ensures r.Ok? ==> body.JObj? && Truthy(Get(body.fields, "content"))
    ensures r.Ok? ==>
      var p := r.value;
      && {"id", "userId", "content", "status", "createdAt", "updatedAt"} <= p.Keys
      && p.Keys <= {"id", "userId", "content", "status", "createdAt", "updatedAt", "mediaUrl", "scheduledFor"}
      && p["id"] == JStr(id) && p["userId"] == userId
      && p["content"] == body.fields["content"]
      && p["createdAt"] == JStr(now) && p["updatedAt"] == JStr(now)
      && (p["status"] == JStr("SCHEDULED") <==> Truthy(Get(body.fields, "scheduledFor")))
      && (p["status"] == JStr("DRAFT") <==> !Truthy(Get(body.fields, "scheduledFor")))
      && ("mediaUrl" in p <==> Truthy(Get(body.fields, "mediaUrl")))
      && ("mediaUrl" in p ==> p["mediaUrl"] == body.fields["mediaUrl"])
      && ("scheduledFor" in p <==> Truthy(Get(body.fields, "scheduledFor")))
      && ("scheduledFor" in p ==> p["scheduledFor"] == body.fields["scheduledFor"])
  {
    if !body.JObj? then Err(Response(500, Message("Error creating post")))
    else
      var content := Get(body.fields, "content");
      if !Truthy(content) then Err(Response(400, Message("Content is required")))
      else
        var mediaUrl := Get(body.fields, "mediaUrl");
        var scheduledFor := Get(body.fields, "scheduledFor");
        var base := map[
          "id" := JStr(id), "userId" := userId, "content" := content,
          "status" := JStr(if Truthy(scheduledFor) then "SCHEDULED" else "DRAFT"),
          "createdAt" := JStr(now), "updatedAt" := JStr(now)];
        var withMedia := if Truthy(mediaUrl) then base["mediaUrl" := mediaUrl] else base;
        Ok(if Truthy(scheduledFor) then withMedia["scheduledFor" := scheduledFor] else withMedia)
  }

  /** One `if "k" in body:` step of an update: record the supplied value; `None` once anything raised. */
  function Supply(changes: Option<Item>, body: Json, key: string): Option<Item>
  {
    match changes
    case None => None
    case Some(c) =>
      match BodyField(body, key)
      case None => None
      case Some(None) => Some(c)
      case Some(Some(v)) => Some(c[key := v])
  }

  /**
   * The attributes `update_post` sets: each of the four editable ones the
   * body supplies, and `updatedAt`; `None` when testing the body raises.
   */
  function PostChanges(body: Json, now: string): Option<Item>
  {
    var supplied := Supply(Supply(Supply(Supply(Some(map[]), body, "content"), body, "mediaUrl"), body, "scheduledFor"), body, "status");
    match supplied
    case None => None
    case Some(c) => Some(c["updatedAt" := JStr(now)])
  }

  /**
   * An update of a dict body always succeeds; it sets exactly the editable
   * attributes the body supplies, to the body's values, and `updatedAt` to
   * `now`, and leaves every other attribute (the id, the owner, the creation
   * time) as it was.
   */
  lemma UpdateOfObject(item: Item, body: map<string, Json>, now: string)
    ensures PostChanges(JObj(body), now).Some?
    ensures var n := item + PostChanges(JObj(body), now).value;
      && n["updatedAt"] == JStr(now)
      && (forall k :: k in Editable && k in body ==> k in n && n[k] == body[k])
      && (forall k :: k != "updatedAt" && (k !in Editable || k !in body) ==> (k in n <==> k in item) && (k in item ==> n[k] == item[k]))
  {
    var c := SuppliedOfObject(body);
    assert PostChanges(JObj(body), now) == Some(c["updatedAt" := JStr(now)]);
  }

  /** The editable attributes a dict body supplies, with the body's values. */
  lemma SuppliedOfObject(body: map<string, Json>) returns (c: Item)
    ensures Supply(Supply(Supply(Supply(Some(map[]), JObj(body), "content"), JObj(body), "mediaUrl"),
                          JObj(body), "scheduledFor"), JObj(body), "status") == Some(c)
    ensures forall k :: k in c <==> k in Editable && k in body
    ensures forall k :: k in c ==> c[k] == body[k]
  {
    var c0: Item := map[];
    var c1 := SupplyOfObject(c0, body, "content");
    assert forall k :: k in c1 ==> k == "content" && k in body && c1[k] == body[k];
    var c2 := SupplyOfObject(c1, body, "mediaUrl");
    assert forall k :: k in c2 ==> (k == "content" || k == "mediaUrl") && k in body && c2[k] == body[k];
    var c3 := SupplyOfObject(c2, body, "scheduledFor");
    assert forall k :: k in c3 ==> (k == "content" || k == "mediaUrl" || k == "scheduledFor") && k in body && c3[k] == body[k];
    c := SupplyOfObject(c3, body, "status");
    assert Editable == ["content", "mediaUrl", "scheduledFor", "status"];
  }

  lemma SupplyOfObject(c: Item, body: map<string, Json>, key: string) returns (d: Item)
    ensures Supply(Some(c), JObj(body), key) == Some(d)
    ensures d == if key in body then c[key := body[key]] else c
  {
    d := if key in body then c[key := body[key]] else c;
  }

  /** The update of a value that is not a container (None, a boolean, a number) fails. */
  lemma UpdateOfScalarFails(body: Json, now: string)
    requires body.JNull? || body.JBool? || body.JNum?
    ensures PostChanges(body, now).None?
  {
  }

  /** `f"s3://{MEDIA_BUCKET}/"`; an unset bucket is printed as `None`. */
  function MediaPrefix(bucket: Option<string>): (p: string)
    ensures p != []
  {
    "s3://" + (if bucket.Some? then bucket.value else "None") + "/"
  }

  /**
   * The media object `delete_post` removes: `Some(None)` when the post has
   * no truthy `mediaUrl` or it is not in the bucket, `Some(Some(key))` with
   * every occurrence of the prefix removed when it is, `None` when a truthy
   * `mediaUrl` is not a string (`startswith` raises).
   */
  function MediaKey(item: Item, bucket: Option<string>): (r: Option<Option<string>>)
    ensures r.Some? && r.value.Some? ==> Get(item, "mediaUrl").JStr? && Strings.StartsWith(Get(item, "mediaUrl").s, MediaPrefix(bucket))
    ensures !Truthy(Get(item, "mediaUrl")) ==> r == Some(None)
  {
    var url := Get(item, "mediaUrl");
    if !Truthy(url) then Some(None)
    else if !url.JStr? then None
    else if Strings.StartsWith(url.s, MediaPrefix(bucket)) then Some(Some(Strings.RemoveAll(url.s, MediaPrefix(bucket))))
    else Some(None)
  }

  /** A post whose media URL names object `key` of the bucket has that object deleted. */
  lemma MediaKeyOfBucketUrl(item: Item, bucket: string, key: string)
    requires key != [] && !Strings.Contains(key, MediaPrefix(Some(bucket)))
    requires "mediaUrl" in item && item["mediaUrl"] == JStr(MediaPrefix(Some(bucket)) + key)
    ensures MediaKey(item, Some(bucket)) == Some(Some(key))
  {
    var p := MediaPrefix(Some(bucket));
    var url := p + key;
    assert url[..|p|] == p;
    Strings.RemoveAllPrefix(url, p);
    assert url[|p|..] == key;
    Strings.RemoveAllAbsent(key, p);
  }

  class PostsApi {
    /** The posts table. */
    var posts: Table
    /** The object keys in the media bucket. */
    var media: set<string>
    /** The `POSTS_TABLE` and `MEDIA_BUCKET` environment variables. */
    const postsTable: Option<string>
    const mediaBucket: Option<string>

    constructor(postsTable: Option<string>, mediaBucket: Option<string>, posts: Table, media: set<string>)
      ensures this.postsTable == postsTable && this.mediaBucket == mediaBucket
      ensures this.posts == posts && this.media == media
    {
      this.postsTable := postsTable;
      this.mediaBucket := mediaBucket;
      this.posts := posts;
      this.media := media;
    }

    /** `not POSTS_TABLE or not MEDIA_BUCKET` is false. */
    predicate Configured()
      reads this
    {
      postsTable.Some? && postsTable.value != "" && mediaBucket.Some? && mediaBucket.value != ""
    }

    /** `get_posts`: the caller's posts, each once, formatted. */
    method GetPosts(userId: Json) returns (resp: Response, ghost order: seq<Json>)
      ensures resp.statusCode == 200 && resp.body.JArr?
      ensures |order| == |resp.body.elems|
      ensures forall i, j :: 0 <= i < j < |order| ==> order[i] != order[j]
      ensures forall id :: id in order <==> id in Owned(posts, userId)
      ensures forall i :: 0 <= i < |order| ==> order[i] in posts && resp.body.elems[i] == PostView(posts[order[i]])
      ensures Lists(posts, userId, PostView, resp.body.elems)
    {
      var views;
      views, order := QueryByUser(posts, userId, PostView);
      resp := Response(200, JArr(views));
    }

    /** `get_post`: 404 or 403 from the guards, else the post formatted. */
    function GetPost(userId: Json, postId: Json): (resp: Response)
      reads this
      ensures resp.statusCode == 200 <==> postId in posts && posts[postId] != map[] && Get(posts[postId], "userId") == userId
      ensures resp.statusCode == 200 ==> resp.body == PostView(posts[postId])
    {
      match OwnedItem(posts, userId, postId, "Post not found")
      case Err(r) => r
      case Ok(item) => Response(200, PostView(item))
    }

    /** `create_post`, with the generated id and the time passed in. */
    method CreatePost(userId: Json, body: Json, newId: string, now: string) returns (resp: Response)
      modifies this
      ensures media == old(media)
      ensures match NewPost(userId, body, newId, now)
        case Err(r) => resp == r && posts == old(posts)
        case Ok(p) => resp == Response(201, JObj(p)) && posts == old(posts)[JStr(newId) := p]
    {
      if !body.JObj? {
        return Response(500, Message("Error creating post"));
      }
      var content := Get(body.fields, "content");
      if !Truthy(content) {
        return Response(400, Message("Content is required"));
      }
      var mediaUrl := Get(body.fields, "mediaUrl");
      var scheduledFor := Get(body.fields, "scheduledFor");
      var post := map[
        "id" := JStr(newId), "userId" := userId, "content" := content,
        "status" := JStr(if Truthy(scheduledFor) then "SCHEDULED" else "DRAFT"),
        "createdAt" := JStr(now), "updatedAt" := JStr(now)];
      if Truthy(mediaUrl) {
        post := post["mediaUrl" := mediaUrl];
      }
      if Truthy(scheduledFor) {
        post := post["scheduledFor" := scheduledFor];
      }
      posts := posts[JStr(newId) := post];
      resp := Response(201, JObj(post));
    }

    /** `update_post`, with the current time passed in. */
    method UpdatePost(userId: Json, postId: Json, body: Json, now: string) returns (resp: Response)
      modifies this
      ensures media == old(media)
      ensures match OwnedItem(old(posts), userId, postId, "Post not found")
        case Err(r) => resp == r && posts == old(posts)
        case Ok(item) =>
          match PostChanges(body, now)
          case None => resp == Response(500, Message("Error updating post")) && posts == old(posts)
          case Some(changes) =>
            posts == old(posts)[postId := item + changes] && resp == Response(200, JObj(item + changes))
    {
      var found := OwnedItem(posts, userId, postId, "Post not found");
      if found.Err? {
        return found.error;
      }
      var item := found.value;
      var changes: Option<Item> := Some(map[]);
      changes := Supply(changes, body, "content");
      changes := Supply(changes, body, "mediaUrl");
      changes := Supply(changes, body, "scheduledFor");
      changes := Supply(changes, body, "status");
      if changes.None? {
        return Response(500, Message("Error updating post"));
      }
      var updates := changes.value["updatedAt" := JStr(now)];
      posts := posts[postId := item + updates];
      resp := Response(200, JObj(posts[postId]));
    }

    /**
     * `delete_post`: after the guards, the media object (when the post names
     * one in the bucket) is deleted unless S3 refuses, which `mediaFails`
     * stands for and which does not stop the post being deleted.
     */
    method DeletePost(userId: Json, postId: Json, mediaFails: bool) returns (resp: Response)
      modifies this
      ensures match OwnedItem(old(posts), userId, postId, "Post not found")
        case Err(r) => resp == r && posts == old(posts) && media == old(media)
        case Ok(item) =>
          match MediaKey(item, mediaBucket)
          case None => resp == Response(500, Message("Error deleting post")) && posts == old(posts) && media == old(media)
          case Some(key) =>
            && resp == Response(200, Message("Post deleted successfully"))
            && posts == old(posts) - {postId}
            && media == if key.Some? && !mediaFails then old(media) - {key.value} else old(media)
    {
      var found := OwnedItem(posts, userId, postId, "Post not found");
      if found.Err? {
        return found.error;
      }
      var key := MediaKey(found.value, mediaBucket);
      if key.None? {
        return Response(500, Message("Error deleting post"));
      }
      if key.value.Some? && !mediaFails {
        media := media - {key.value.value};
      }
      posts := posts - {postId};
      resp := Response(200, Message("Post deleted successfully"));
    }

    /**
     * `lambda_handler`: route the event and run the operation it names;
     * `decode` is `json.loads`, `newId` and `now` the values `uuid4` and the
     * clock would give, `mediaFails` whether S3 refuses a media deletion.
     */
    method Handle(event: Event, decode: string -> Option<Json>, newId: string, now: string, mediaFails: bool) returns (resp: Response)
      modifies this
      ensures var d := Route(event, old(Configured()), decode, "/posts", "Post ID is required");
        && (d.Answer? ==> resp == d.response && posts == old(posts) && media == old(media))
        && (d.Fetch? ==> resp == old(GetPost(d.userId, d.id)) && posts == old(posts))
        && (d.List? ==> resp.statusCode == 200 && resp.body.JArr? && Lists(posts, d.userId, PostView, resp.body.elems) && posts == old(posts))
        && (!d.Remove? ==> media == old(media))
      ensures var d := Route(event, old(Configured()), decode, "/posts", "Post ID is required");
        d.Create? ==>
          match NewPost(d.userId, d.body, newId, now)
          case Err(r) => resp == r && posts == old(posts)
          case Ok(p) => resp == Response(201, JObj(p)) && posts == old(posts)[JStr(newId) := p]
      ensures var d := Route(event, old(Configured()), decode, "/posts", "Post ID is required");
        d.Update? ==>
          match OwnedItem(old(posts), d.userId, d.id, "Post not found")
          case Err(r) => resp == r && posts == old(posts)
          case Ok(item) =>
            match PostChanges(d.body, now)
            case None => resp == Response(500, Message("Error updating post")) && posts == old(posts)
            case Some(changes) => resp == Response(200, JObj(item + changes)) && posts == old(posts)[d.id := item + changes]
      ensures var d := Route(event, old(Configured()), decode, "/posts", "Post ID is required");
        d.Remove? ==>
          match OwnedItem(old(posts), d.userId, d.id, "Post not found")
          case Err(r) => resp == r && posts == old(posts) && media == old(media)
          case Ok(item) =>
            match MediaKey(item, mediaBucket)
            case None => resp == Response(500, Message("Error deleting post")) && posts == old(posts) && media == old(media)
            case Some(key) =>
              && resp == Response(200, Message("Post deleted successfully"))
              && posts == old(posts) - {d.id}
              && media == if key.Some? && !mediaFails then old(media) - {key.value} else old(media)
    {
      var d := Route(event, Configured(), decode, "/posts", "Post ID is required");
      match d {
        case Answer(r) => resp := r;
        case List(u) => ghost var order; resp, order := GetPosts(u);
        case Create(u, body) => resp := CreatePost(u, body, newId, now);
        case Fetch(u, id) => resp := GetPost(u, id);
        case Update(u, id, body) => resp := UpdatePost(u, id, body, now);
        case Remove(u, id) => resp := DeletePost(u, id, mediaFails);
      }
    }
  }

  /** A post read back right after it is created is the created post. */
  lemma CreateThenGet(table: Table, userId: Json, body: Json, id: string, now: string)
    requires NewPost(userId, body, id, now).Ok?
    ensures var p := NewPost(userId, body, id, now).value;
      OwnedItem(table[JStr(id) := p], userId, JStr(id), "Post not found") == Ok(p)
  {
  }

  /** Once deleted, a post is not found. */
  lemma DeleteThenGet(table: Table, userId: Json, otherUser: Json, id: Json)
    ensures OwnedItem(table - {id}, otherUser, id, "Post not found").error == Response(404, Message("Post not found"))
  {
  }

  /** No operation on another user's post changes it: the guards answer 403 first. */
  lemma OthersPostsGuarded(table: Table, userId: Json, owner: Json, id: Json)
    requires id in table && Owns(table[id], owner) && userId != owner
    ensures OwnedItem(table, userId, id, "Post not found") == Err(Response(403, Message("Access denied")))
  {
  }
}
