// The handlers of server/controllers/postController.js over an in-memory post collection.
// Each handler is first a function from the collection (and the request data) to the new
// collection and the reply; the `PostStore` class then performs the same change in place.

module PostController {
  import opened Json
  import opened Text
  import opened Seqs
  import opened Library
  import opened Documents
  import opened Http

  const PostNotFound := "Post not found"
  const MissingFields := "Please provide all required fields"
  const NotAuthorizedUpdate := "Not authorized to update this post"
  const NotAuthorizedDelete := "Not authorized to delete this post"
  const PostDeleted := "Post deleted successfully"
  const NoCommentContent := "Comment content is required"
  const CommentAdded := "Comment added successfully"
  const QueryRequired := "Search query is required"

  // ---- Lookups ----

  /** The `$or` of getPost: the key is the post's id or its slug. */
  predicate IdOrSlug(key: string, p: Post)
  {
    p.id == key || HasSlug(p, key)
  }

  /** `findOne({$or: [{_id: key}, {slug: key}]})`: the first post, in natural order, with that id or slug. */
  function FindPost(posts: seq<Post>, key: string): (r: Option<nat>)
    ensures r.Some? ==> r.value < |posts| && IdOrSlug(key, posts[r.value])
    ensures r.Some? ==> forall j :: 0 <= j < r.value ==> !IdOrSlug(key, posts[j])
    ensures r.None? ==> forall j :: 0 <= j < |posts| ==> !IdOrSlug(key, posts[j])
  {
    FirstIndex(posts, (q: Post) => IdOrSlug(key, q))
  }

  /** `findById(id)`. */
  function FindById(posts: seq<Post>, id: string): (r: Option<nat>)
    ensures r.Some? ==> r.value < |posts| && posts[r.value].id == id
    ensures r.None? ==> forall j :: 0 <= j < |posts| ==> posts[j].id != id
  {
    FirstIndex(posts, (q: Post) => q.id == id)
  }

  /** With unique ids, `findById` finds the one post that has the id. */
  lemma FindByIdUnique(posts: seq<Post>, k: nat)
    requires UniqueIds(posts) && k < |posts|
    ensures FindById(posts, posts[k].id) == Some(k)
  {
    var r := FindById(posts, posts[k].id);
    assert r.Some? && posts[r.value].id == posts[k].id;
  }

  ghost predicate UniqueSlugs(posts: seq<Post>)
  {
    forall i, j, s :: 0 <= i < j < |posts| && HasSlug(posts[i], s) ==> !HasSlug(posts[j], s)
  }

  /** No slug is also the id of a post. */
  ghost predicate SlugsAreNotIds(posts: seq<Post>)
  {
    forall i, j :: 0 <= i < |posts| && 0 <= j < |posts| ==> !HasSlug(posts[i], posts[j].id)
  }

  /**
   * Fetching a post by its slug and by its id give the same document, as long as ids and slugs
   * are unique and no slug is also some post's id.
   */
  lemma {:induction false} SameDocumentBySlugOrId(posts: seq<Post>, k: nat, slug: string)
    requires UniqueIds(posts) && UniqueSlugs(posts) && SlugsAreNotIds(posts)
    requires k < |posts| && HasSlug(posts[k], slug)
    ensures FindPost(posts, posts[k].id) == Some(k)
    ensures FindPost(posts, slug) == Some(k)
  {
    var byId := FindPost(posts, posts[k].id);
    assert IdOrSlug(posts[k].id, posts[k]);
    var i := byId.value;
    assert i <= k && IdOrSlug(posts[k].id, posts[i]);
    assert !HasSlug(posts[i], posts[k].id);
    var bySlug := FindPost(posts, slug);
    assert IdOrSlug(slug, posts[k]);
    var j := bySlug.value;
    assert j <= k && IdOrSlug(slug, posts[j]);
    assert !HasSlug(posts[k], posts[j].id);
  }

  // ---- getPost ----

  /** getPost: 404, or the post found by id or slug with its view count raised by one. */
  function ViewPost(posts: seq<Post>, key: string): (r: (seq<Post>, Reply))
    ensures |r.0| == |posts|
    ensures r.1.status == 404 <==> forall j :: 0 <= j < |posts| ==> !IdOrSlug(key, posts[j])
    ensures r.1.status == 404 ==> r.0 == posts && r.1.payload == Message(PostNotFound)
    ensures r.1.status != 404 ==>
      var i := FindPost(posts, key).value;
      && r.1 == Reply(200, PostDoc(r.0[i]))
      && r.0[i] == posts[i].(viewCount := posts[i].viewCount + 1)
      && forall j :: 0 <= j < |posts| && j != i ==> r.0[j] == posts[j]
  {
    match FindPost(posts, key)
    case None => (posts, Reply(404, Message(PostNotFound)))
    case Some(i) =>
      var p := posts[i].(viewCount := posts[i].viewCount + 1);
      (posts[i := p], Reply(200, PostDoc(p)))
  }

  /**
   * getPost as written: the `$or` filter casts the key to an ObjectId for its `_id` branch before
   * the query runs, so a key that is not an ObjectId throws and answers 500, even when it is a slug.
   */
  function ViewPostAsWritten(lib: Lib, posts: seq<Post>, key: string): (r: (seq<Post>, Reply))
    ensures r.1.status == 500 <==> !lib.isObjectId(Some(Str(key)))
    ensures r.1.status == 500 ==> r == (posts, Reply(500, ServerError))
    ensures r.1.status != 500 ==> r == ViewPost(posts, key)
  {
    if !lib.isObjectId(Some(Str(key))) then (posts, Reply(500, ServerError)) else ViewPost(posts, key)
  }

  /** A post fetched by a slug that is not also an ObjectId: the code answers 500, the lookup finds it. */
  lemma SlugLookupFailsAsWritten(lib: Lib, posts: seq<Post>, k: nat, slug: string)
    requires k < |posts| && HasSlug(posts[k], slug) && !lib.isObjectId(Some(Str(slug)))
    ensures ViewPostAsWritten(lib, posts, slug) == (posts, Reply(500, ServerError))
    ensures ViewPost(posts, slug).1.status == 200
  {
    assert IdOrSlug(slug, posts[k]);
  }

  // ---- createPost ----

  /** The body fields createPost hands to `Post.create`; `isPublished` is not among them. */
  const CopiedFields: set<string> := {"title", "content", "category", "tags", "excerpt", "featuredImage"}

  /** The `!title || !content || !category` guard, inverted. */
  predicate RequiredPresent(body: Body)
  {
    Truthy(Get(body, "title")) && Truthy(Get(body, "content")) && Truthy(Get(body, "category"))
  }

  /** The post `Post.create` stores: the copied fields that are present, the author and the slug. */
  function NewPost(lib: Lib, requester: string, body: Body, newId: string, now: int): (r: Post)
    ensures r.id == newId && r.viewCount == 0 && r.comments == [] && r.createdAt == now
    ensures AuthorOf(r) == Some(requester)
    ensures Get(r.doc, "slug") == Some(Str(lib.slugOf(ToText(lib, Get(body, "title")))))
    ensures forall f :: f in CopiedFields ==> Get(r.doc, f) == Get(body, f)
    ensures r.doc.Keys == {"author", "slug"} + body.Keys * CopiedFields
    ensures "isPublished" !in r.doc
  {
    var slug := lib.slugOf(ToText(lib, Get(body, "title")));
    var doc := map f | f in {"author", "slug"} + body.Keys * CopiedFields ::
      if f == "author" then Str(requester) else if f == "slug" then Str(slug) else body[f];
    Post(newId, doc, 0, [], now)
  }

  /**
   * createPost: 400 and nothing stored without title, content and category; then 500 when there
   * is no `req.user` to read the author from; else one new post.
   */
  function CreatePostResult(lib: Lib, posts: seq<Post>, requester: Option<string>, body: Body, newId: string, now: int)
    : (r: (seq<Post>, Reply))
    ensures r.1.status == 400 <==> !RequiredPresent(body)
    ensures r.1.status == 400 ==> r.0 == posts && r.1.payload == Message(MissingFields)
    ensures r.1.status == 500 <==> RequiredPresent(body) && requester.None?
    ensures r.1.status == 500 ==> r == (posts, Reply(500, ServerError))
    ensures r.1.status != 400 && r.1.status != 500 ==>
      && r.1.status == 201 && requester.Some?
      && |r.0| == |posts| + 1 && r.0[..|posts|] == posts
      && r.0[|posts|] == NewPost(lib, requester.value, body, newId, now)
      && r.1.payload == PostDoc(r.0[|posts|])
  {
    if !RequiredPresent(body) then (posts, Reply(400, Message(MissingFields)))
    else if requester.None? then (posts, Reply(500, ServerError))
    else
      var p := NewPost(lib, requester.value, body, newId, now);
      (posts + [p], Reply(201, PostDoc(p)))
  }

  /** The created post belongs to the requester, and `isPublished` from the body is not stored. */
  lemma CreatedPostOwnedByRequester(lib: Lib, posts: seq<Post>, requester: string, body: Body, newId: string, now: int)
    requires RequiredPresent(body)
    ensures var r := CreatePostResult(lib, posts, Some(requester), body, newId, now);
      && r.1.status == 201 && IsAuthor(r.0[|posts|], requester)
      && "isPublished" !in r.0[|posts|].doc
      && r.0[|posts|].id == newId
  {
  }

  // ---- updatePost ----

  /**
   * `Object.assign(post, req.body)` followed by `save`: every schema path present in the body is
   * overwritten, the view counter and the comments included; nothing else changes. `None` when
   * `save` rejects the counter or the comments the body carries.
   */
  function Assigned(lib: Lib, p: Post, body: Body): (r: Option<Post>)
    ensures r.None? <==>
      || ("viewCount" in body && lib.castCount(body["viewCount"]).None?)
      || ("comments" in body && lib.castComments(body["comments"]).None?)
    ensures r.Some? ==> r.value.id == p.id && r.value.createdAt == p.createdAt
    ensures r.Some? && "viewCount" in body ==> lib.castCount(body["viewCount"]) == Some(r.value.viewCount)
    ensures r.Some? && "viewCount" !in body ==> r.value.viewCount == p.viewCount
    ensures r.Some? && "comments" in body ==> lib.castComments(body["comments"]) == Some(r.value.comments)
    ensures r.Some? && "comments" !in body ==> r.value.comments == p.comments
    ensures r.Some? ==> forall f :: f in body && f in AssignablePaths ==> Get(r.value.doc, f) == Some(body[f])
    ensures r.Some? ==> forall f :: !(f in body && f in AssignablePaths) ==> Get(r.value.doc, f) == Get(p.doc, f)
    ensures r.Some? ==> r.value.doc.Keys == p.doc.Keys + body.Keys * AssignablePaths
  {
    var count := if "viewCount" in body then lib.castCount(body["viewCount"]) else Some(p.viewCount);
    var comments := if "comments" in body then lib.castComments(body["comments"]) else Some(p.comments);
    if count.None? || comments.None? then None
    else
      var doc := map f | f in p.doc.Keys + body.Keys * AssignablePaths ::
        if f in body && f in AssignablePaths then body[f] else p.doc[f];
      Some(Post(p.id, doc, count.value, comments.value, p.createdAt))
  }

  /**
   * The ownership check shared by updatePost and deletePost: 404 without the id, 500 when the post
   * has no author to compare (`post.author.toString()` throws) or there is no `req.user`, 403 for
   * anyone but the author. `None` means the requester may go ahead with the post found.
   */
  function OwnerCheck(posts: seq<Post>, requester: Option<string>, id: string, denied: string): (r: Option<Reply>)
    ensures r.None? <==>
      FindById(posts, id).Some? && requester.Some? && IsAuthor(posts[FindById(posts, id).value], requester.value)
    ensures r.Some? && r.value.status == 404 <==> forall j :: 0 <= j < |posts| ==> posts[j].id != id
    ensures r.Some? && r.value.status == 404 ==> r.value.payload == Message(PostNotFound)
    ensures r.Some? && r.value.status == 403 ==> r.value.payload == Message(denied) && requester.Some?
    ensures r.Some? && r.value.status == 500 ==> r.value.payload == ServerError
    ensures r.Some? ==> r.value.status in {403, 404, 500}
  {
    match FindById(posts, id)
    case None => Some(Reply(404, Message(PostNotFound)))
    case Some(i) =>
      match AuthorOf(posts[i])
      case None => Some(Reply(500, ServerError))
      case Some(a) =>
        if requester.None? then Some(Reply(500, ServerError))
        else if a != requester.value then Some(Reply(403, Message(denied)))
        else None
  }

  /** updatePost: the ownership check, then the post with the body assigned and saved. */
  function UpdatePostResult(lib: Lib, posts: seq<Post>, requester: Option<string>, id: string, body: Body)
    : (r: (seq<Post>, Reply))
    ensures r.1.status == 404 <==> forall j :: 0 <= j < |posts| ==> posts[j].id != id
    ensures r.1.status != 200 ==> r.0 == posts
    ensures r.1.status == 403 ==> r.1.payload == Message(NotAuthorizedUpdate)
    ensures r.1.status == 200 <==>
      && OwnerCheck(posts, requester, id, NotAuthorizedUpdate).None?
      && Assigned(lib, posts[FindById(posts, id).value], body).Some?
    ensures OwnerCheck(posts, requester, id, NotAuthorizedUpdate).None? && r.1.status != 200 ==>
      r.1 == Reply(500, ServerError)
    ensures r.1.status == 200 ==>
      var i := FindById(posts, id).value;
      && r.0 == posts[i := Assigned(lib, posts[i], body).value]
      && r.1 == Reply(200, PostDoc(r.0[i]))
  {
    match OwnerCheck(posts, requester, id, NotAuthorizedUpdate)
    case Some(reply) => (posts, reply)
    case None =>
      var i := FindById(posts, id).value;
      match Assigned(lib, posts[i], body)
      case None => (posts, Reply(500, ServerError))
      case Some(p) => (posts[i := p], Reply(200, PostDoc(p)))
  }

  /** A requester who is not the author gets 403 from updatePost and the collection stays as it was. */
  lemma UpdateByOtherForbidden(lib: Lib, posts: seq<Post>, requester: string, k: nat, body: Body)
    requires UniqueIds(posts) && k < |posts|
    requires AuthorOf(posts[k]).Some? && !IsAuthor(posts[k], requester)
    ensures UpdatePostResult(lib, posts, Some(requester), posts[k].id, body)
         == (posts, Reply(403, Message(NotAuthorizedUpdate)))
  {
    FindByIdUnique(posts, k);
  }

  /**
   * The author's update overwrites exactly the body's schema paths of that post, the view counter
   * and the comments included, and no other post; a counter or comment list `save` rejects gives
   * 500 and changes nothing.
   */
  lemma {:induction false} UpdateByAuthor(lib: Lib, posts: seq<Post>, k: nat, body: Body)
    requires UniqueIds(posts) && k < |posts| && AuthorOf(posts[k]).Some?
    ensures var r := UpdatePostResult(lib, posts, AuthorOf(posts[k]), posts[k].id, body);
      && (r.1.status == 200 <==> Assigned(lib, posts[k], body).Some?)
      && (r.1.status != 200 ==> r == (posts, Reply(500, ServerError)))
      && (r.1.status == 200 ==>
            && |r.0| == |posts|
            && (forall j :: 0 <= j < |posts| && j != k ==> r.0[j] == posts[j])
            && r.0[k].id == posts[k].id && r.0[k].createdAt == posts[k].createdAt
            && ("viewCount" in body ==> lib.castCount(body["viewCount"]) == Some(r.0[k].viewCount))
            && ("viewCount" !in body ==> r.0[k].viewCount == posts[k].viewCount)
            && ("comments" in body ==> lib.castComments(body["comments"]) == Some(r.0[k].comments))
            && ("comments" !in body ==> r.0[k].comments == posts[k].comments)
            && (forall f :: f in body && f in AssignablePaths ==> Get(r.0[k].doc, f) == Some(body[f]))
            && (forall f :: !(f in body && f in AssignablePaths) ==> Get(r.0[k].doc, f) == Get(posts[k].doc, f)))
  {
    FindByIdUnique(posts, k);
    var a := Assigned(lib, posts[k], body);
    if a.Some? {
      assert UpdatePostResult(lib, posts, AuthorOf(posts[k]), posts[k].id, body).0 == posts[k := a.value];
    }
  }

  /** Nothing stops the author from resetting the view counter: a body `{viewCount: 0}` stores 0. */
  lemma AuthorCanResetViewCount(lib: Lib, posts: seq<Post>, k: nat)
    requires UniqueIds(posts) && k < |posts| && AuthorOf(posts[k]).Some?
    requires lib.castCount(Num(0)) == Some(0)
    ensures var r := UpdatePostResult(lib, posts, AuthorOf(posts[k]), posts[k].id, map["viewCount" := Num(0)]);
      r.1.status == 200 && r.0[k].viewCount == 0
  {
    UpdateByAuthor(lib, posts, k, map["viewCount" := Num(0)]);
  }

  // ---- deletePost ----

  /** deletePost: the ownership check, then the post removed. */
  function DeletePostResult(posts: seq<Post>, requester: Option<string>, id: string): (r: (seq<Post>, Reply))
    ensures r.1.status == 404 <==> forall j :: 0 <= j < |posts| ==> posts[j].id != id
    ensures r.1.status != 200 ==> r.0 == posts
    ensures r.1.status == 403 ==> r.1.payload == Message(NotAuthorizedDelete)
    ensures r.1.status == 200 <==> OwnerCheck(posts, requester, id, NotAuthorizedDelete).None?
    ensures r.1.status == 200 ==>
      var i := FindById(posts, id).value;
      && r.0 == posts[..i] + posts[i + 1..]
      && r.1 == Reply(200, Message(PostDeleted))
  {
    match OwnerCheck(posts, requester, id, NotAuthorizedDelete)
    case Some(reply) => (posts, reply)
    case None =>
      var i := FindById(posts, id).value;
      (posts[..i] + posts[i + 1..], Reply(200, Message(PostDeleted)))
  }

  /** A successful delete removes the post with that id and keeps every other post. */
  lemma DeleteRemovesOnlyThat(posts: seq<Post>, requester: Option<string>, id: string)
    requires UniqueIds(posts)
    ensures var r := DeletePostResult(posts, requester, id);
      r.1.status == 200 ==>
        && |r.0| == |posts| - 1
        && (forall q :: q in r.0 <==> q in posts && q.id != id)
  {
    var r := DeletePostResult(posts, requester, id);
    if r.1.status == 200 {
      var i := FindById(posts, id).value;
      RemovedKeepsOthers(posts, i);
      RemovedDropsIt(posts, i);
    }
  }

  /** Removing position `i` keeps exactly the posts with another id: those it keeps. */
  lemma RemovedKeepsOthers(posts: seq<Post>, i: nat)
    requires UniqueIds(posts) && i < |posts|
    ensures forall q :: q in posts[..i] + posts[i + 1..] ==> q in posts && q.id != posts[i].id
  {
    var rest := posts[..i] + posts[i + 1..];
    forall q | q in rest ensures q in posts && q.id != posts[i].id {
      var j :| 0 <= j < |rest| && rest[j] == q;
      var jj := if j < i then j else j + 1;
      assert posts[jj] == q && jj != i;
    }
  }

  /** ... and every post with another id is among them. */
  lemma RemovedDropsIt(posts: seq<Post>, i: nat)
    requires i < |posts|
    ensures forall q :: q in posts && q.id != posts[i].id ==> q in posts[..i] + posts[i + 1..]
  {
    var rest := posts[..i] + posts[i + 1..];
    forall q | q in posts && q.id != posts[i].id ensures q in rest {
      var j :| 0 <= j < |posts| && posts[j] == q;
      if j < i { assert rest[j] == q; } else { assert rest[j - 1] == q; }
    }
  }

  // ---- addComment ----

  /** addComment: 404 first, then 400 without content, then 500 without `req.user`, then the comment appended. */
  function AddCommentResult(posts: seq<Post>, requester: Option<string>, id: string, body: Body, now: int)
    : (r: (seq<Post>, Reply))
    ensures r.1.status == 404 <==> forall j :: 0 <= j < |posts| ==> posts[j].id != id
    ensures r.1.status != 200 ==> r.0 == posts
    ensures r.1.status == 404 ==> r.1.payload == Message(PostNotFound)
    ensures r.1.status == 400 <==> FindById(posts, id).Some? && !Truthy(Get(body, "content"))
    ensures r.1.status == 400 ==> r.1.payload == Message(NoCommentContent)
    ensures r.1.status == 500 <==> FindById(posts, id).Some? && Truthy(Get(body, "content")) && requester.None?
    ensures r.1.status == 500 ==> r.1.payload == ServerError
    ensures r.1.status == 200 ==>
      var i := FindById(posts, id).value;
      var old_ := posts[i].comments;
      && requester.Some?
      && |r.0| == |posts|
      && (forall j :: 0 <= j < |posts| && j != i ==> r.0[j] == posts[j])
      && r.0[i] == posts[i].(comments := r.0[i].comments)
      && |r.0[i].comments| == |old_| + 1 && r.0[i].comments[..|old_|] == old_
      && r.0[i].comments[|old_|] == Comment(requester.value, body["content"], now)
      && r.1 == Reply(200, CommentList(CommentAdded, r.0[i].comments))
  {
    match FindById(posts, id)
    case None => (posts, Reply(404, Message(PostNotFound)))
    case Some(i) =>
      if !Truthy(Get(body, "content")) then (posts, Reply(400, Message(NoCommentContent)))
      else if requester.None? then (posts, Reply(500, ServerError))
      else
        var p := posts[i].(comments := posts[i].comments + [Comment(requester.value, body["content"], now)]);
        (posts[i := p], Reply(200, CommentList(CommentAdded, p.comments)))
  }

  /** A missing post is reported before a missing comment. */
  lemma MissingPostBeforeMissingContent(posts: seq<Post>, requester: Option<string>, id: string, now: int)
    requires forall j :: 0 <= j < |posts| ==> posts[j].id != id
    ensures AddCommentResult(posts, requester, id, map[], now) == (posts, Reply(404, Message(PostNotFound)))
  {
  }

  /**
   * Without `req.user` each handler's own checks still answer first: a missing required field
   * gives 400 and a missing post 404; only past them does reading the user throw.
   */
  lemma ChecksBeforeUser(lib: Lib, posts: seq<Post>, id: string, body: Body, newId: string, now: int)
    requires forall j :: 0 <= j < |posts| ==> posts[j].id != id
    ensures !RequiredPresent(body) ==> CreatePostResult(lib, posts, None, body, newId, now).1.status == 400
    ensures UpdatePostResult(lib, posts, None, id, body).1.status == 404
    ensures DeletePostResult(posts, None, id).1.status == 404
    ensures AddCommentResult(posts, None, id, body, now).1.status == 404
  {
  }

  // ---- getAllPosts ----

  /** The page and limit after the defaults `page = 1, limit = 10`. */
  function PageNumber(q: Query): int { if q.page.None? then 1 else q.page.value }
  function PageSize(q: Query): int { if q.limit.None? then 10 else q.limit.value }

  /** `skip((page - 1) * limit)`. */
  function Offset(q: Query): (r: nat)
    requires WellFormedQuery(q)
  {
    MulNat(PageNumber(q) - 1, PageSize(q))
  }

  function MulNat(a: nat, b: nat): (r: nat)
  {
    a * b
  }

  /** What the source's callers pass: page and limit, when given, are positive integers. */
  predicate WellFormedQuery(q: Query)
  {
    (q.page.None? || q.page.value >= 1) && (q.limit.None? || q.limit.value >= 1)
  }

  /**
   * The category filter: the id of the first category named `name`; no filter (`None`) when no
   * name is given or no category has it.
   */
  function CategoryFilter(categories: seq<Category>, name: Option<string>): (r: Option<string>)
    ensures r.Some? <==> name.Some? && name.value != "" && exists j :: 0 <= j < |categories| && categories[j].name == name.value
    ensures r.Some? ==> exists j :: 0 <= j < |categories| && categories[j].name == name.value && categories[j].id == r.value
  {
    if name.None? || name.value == "" then None
    else
      match FirstIndex(categories, (c: Category) => c.name == name.value)
      case None => None
      case Some(j) => Some(categories[j].id)
  }

  predicate InCategory(filter: Option<string>, p: Post)
  {
    filter.None? || Get(p.doc, "category") == Some(Str(filter.value))
  }

  /** The posts the listing counts: those in the filter's category, in natural order. */
  function Matching(posts: seq<Post>, categories: seq<Category>, name: Option<string>): (r: seq<Post>)
    ensures forall p :: p in r <==> p in posts && InCategory(CategoryFilter(categories, name), p)
    ensures |r| <= |posts|
  {
    var filter := CategoryFilter(categories, name);
    Filter(posts, (p: Post) => InCategory(filter, p))
  }

  /** `sort({createdAt: -1})`. */
  predicate NewerOrSame(a: Post, b: Post)
  {
    a.createdAt >= b.createdAt
  }

  function NewestFirst(posts: seq<Post>): (r: seq<Post>)
    ensures multiset(r) == multiset(posts)
    ensures forall i, j :: 0 <= i < j < |r| ==> r[i].createdAt >= r[j].createdAt
  {
    var r := SortBy(posts, NewerOrSame);
    SortedPairwise(r, NewerOrSame);
    r
  }

  /** `Math.ceil(total / limit)` for a positive limit. */
  function CeilDiv(total: nat, limit: nat): (r: nat)
    requires limit > 0
    ensures r * limit >= total
    ensures r > 0 ==> (r - 1) * limit < total
  {
    if total == 0 then 0 else (total - 1) / limit + 1
  }

  /**
   * getAllPosts: one page of the matching posts, newest first, with the page count. The ensures
   * spell out the reply's shape; what a page holds is proved in `ListPostsPage` and
   * `EveryPostOnItsPage`.
   */
  function ListPosts(posts: seq<Post>, categories: seq<Category>, q: Query): (r: Reply)
    requires WellFormedQuery(q)
    ensures r.status == 200 && r.payload.PostPage?
    ensures var matching := Matching(posts, categories, q.category);
      && r.payload.totalPosts == |matching|
      && r.payload.currentPage == PageNumber(q)
      && r.payload.totalPages == CeilDiv(|matching|, PageSize(q))
      && r.payload.posts == Window(NewestFirst(matching), Offset(q), PageSize(q))
  {
    var matching := Matching(posts, categories, q.category);
    Reply(200, PostPage(Window(NewestFirst(matching), Offset(q), PageSize(q)), PageNumber(q),
                        CeilDiv(|matching|, PageSize(q)), |matching|))
  }

  /** At most `limit` posts, each in the store and in the requested category, newest first. */
  lemma ListPostsPage(posts: seq<Post>, categories: seq<Category>, q: Query)
    requires WellFormedQuery(q)
    ensures var r := ListPosts(posts, categories, q).payload;
      && |r.posts| <= PageSize(q)
      && (forall p :: p in r.posts ==> p in posts && InCategory(CategoryFilter(categories, q.category), p))
      && (forall i, j :: 0 <= i < j < |r.posts| ==> r.posts[i].createdAt >= r.posts[j].createdAt)
  {
    var matching := Matching(posts, categories, q.category);
    var ordered := NewestFirst(matching);
    var w := Window(ordered, Offset(q), PageSize(q));
    forall p | p in w ensures p in posts && InCategory(CategoryFilter(categories, q.category), p) {
      var k :| 0 <= k < |w| && w[k] == p;
      assert p in multiset(ordered);
      assert p in matching;
    }
  }

  /** Without page and limit, the first ten of the newest-first listing. */
  lemma ListPostsDefaults(posts: seq<Post>, categories: seq<Category>, category: Option<string>)
    ensures var r := ListPosts(posts, categories, Query(None, None, category, None)).payload;
      var ordered := NewestFirst(Matching(posts, categories, category));
      && r.currentPage == 1
      && r.posts == ordered[..if |ordered| < 10 then |ordered| else 10]
  {
  }

  /** A category name that no category has filters nothing: every post is counted. */
  lemma UnknownCategoryListsAll(posts: seq<Post>, categories: seq<Category>, name: string)
    requires forall j :: 0 <= j < |categories| ==> categories[j].name != name
    ensures ListPosts(posts, categories, Query(None, None, Some(name), None)).payload.totalPosts == |posts|
  {
    FilterAll(posts, (p: Post) => InCategory(None, p));
  }

  /** Fifteen matching posts with limit 10: two pages, and the second holds the last five. */
  lemma SecondOfTwoPages(posts: seq<Post>, categories: seq<Category>, category: Option<string>)
    requires |Matching(posts, categories, category)| == 15
    ensures var r := ListPosts(posts, categories, Query(Some(2), Some(10), category, None)).payload;
      && r.totalPages == 2 && r.totalPosts == 15 && |r.posts| == 5
      && r.posts == NewestFirst(Matching(posts, categories, category))[10..]
  {
  }

  /**
   * Paging covers the ordering: post `(page - 1) * limit + slot` of the newest-first matching
   * posts is item `slot` of page `page`, and that page is within `totalPages`.
   */
  lemma {:induction false} EveryPostOnItsPage(posts: seq<Post>, categories: seq<Category>, category: Option<string>,
                                              limit: nat, page: nat, slot: nat)
    requires limit >= 1 && page >= 1 && slot < limit
    requires MulNat(page - 1, limit) + slot < |Matching(posts, categories, category)|
    ensures var ordered := NewestFirst(Matching(posts, categories, category));
      var r := ListPosts(posts, categories, Query(Some(page), Some(limit), category, None)).payload;
      && page <= r.totalPages
      && slot < |r.posts| && r.posts[slot] == ordered[MulNat(page - 1, limit) + slot]
  {
    var n := |Matching(posts, categories, category)|;
    var q := Query(Some(page), Some(limit), category, None);
    assert Offset(q) == MulNat(page - 1, limit);
    var pages := CeilDiv(n, limit);
    if pages < page {
      MulMono(pages, page - 1, limit);
    }
  }

  lemma MulMono(a: nat, b: nat, d: nat)
    requires a <= b
    ensures a * d <= b * d
  {
    var c := b - a;
    assert b * d == a * d + c * d;
  }

  // ---- searchPosts ----

  /**
   * `{$regex: q, $options: 'i'}` on one attribute: for plain text, an occurrence ignoring ASCII
   * case; otherwise the regex engine's verdict. A missing or non-string attribute never matches.
   */
  predicate TextMatches(lib: Lib, q: string, v: Option<Value>)
  {
    match StrOf(v)
    case None => false
    case Some(s) => if IsLiteralPattern(q) then ContainsIgnoreCase(s, q) else lib.regexTest(q, s)
  }

  predicate SearchHit(lib: Lib, q: string, p: Post)
  {
    TextMatches(lib, q, Get(p.doc, "title")) || TextMatches(lib, q, Get(p.doc, "content"))
  }

  /** searchPosts: 400 without a query; otherwise the posts whose title or content match, in natural order. */
  function SearchPosts(lib: Lib, posts: seq<Post>, q: Option<string>): (r: Reply)
    ensures r.status == 400 <==> q.None? || q.value == ""
    ensures r.status == 400 ==> r.payload == Message(QueryRequired)
    ensures r.status != 400 ==>
      && r.status == 200 && r.payload.PostList?
      && IsSubsequence(r.payload.posts, posts)
      && forall p :: p in r.payload.posts <==> p in posts && SearchHit(lib, q.value, p)
  {
    if q.None? || q.value == "" then Reply(400, Message(QueryRequired))
    else Reply(200, PostList(Filter(posts, (p: Post) => SearchHit(lib, q.value, p))))
  }

  /** For a query without regex metacharacters, a post is found iff its title or content contains it, ignoring case. */
  lemma SearchLiteral(lib: Lib, posts: seq<Post>, q: string, p: Post)
    requires q != "" && IsLiteralPattern(q)
    ensures var r := SearchPosts(lib, posts, Some(q)).payload.posts;
      p in r <==>
        && p in posts
        && ((exists t :: Get(p.doc, "title") == Some(Str(t)) && ContainsIgnoreCase(t, q))
            || (exists c :: Get(p.doc, "content") == Some(Str(c)) && ContainsIgnoreCase(c, q)))
  {
  }

  // ---- The collection, updated in place ----

  class PostStore {
    /** The posts in natural (insertion) order. */
    var posts: seq<Post>

    ghost predicate Valid()
      reads this
    {
      UniqueIds(posts)
    }

    constructor ()
      ensures posts == [] && Valid()
    {
      posts := [];
    }

    /** getPost. */
    method GetPost(key: string) returns (reply: Reply)
      requires Valid()
      modifies this
      ensures Valid()
      ensures (posts, reply) == ViewPost(old(posts), key)
    {
      var k := FindPost(posts, key);
      if k.None? {
        reply := Reply(404, Message(PostNotFound));
      } else {
        var i := k.value;
        var p := posts[i];
        p := p.(viewCount := p.viewCount + 1);
        posts := posts[i := p];
        reply := Reply(200, PostDoc(p));
      }
    }

    /** createPost; `newId` is the fresh id the database assigns. */
    method CreatePost(lib: Lib, requester: Option<string>, body: Body, newId: string, now: int) returns (reply: Reply)
      requires Valid()
      requires forall j :: 0 <= j < |posts| ==> posts[j].id != newId
      modifies this
      ensures Valid()
      ensures (posts, reply) == CreatePostResult(lib, old(posts), requester, body, newId, now)
    {
      if !Truthy(Get(body, "title")) || !Truthy(Get(body, "content")) || !Truthy(Get(body, "category")) {
        return Reply(400, Message(MissingFields));
      }
      if requester.None? {
        return Reply(500, ServerError);
      }
      var p := NewPost(lib, requester.value, body, newId, now);
      posts := posts + [p];
      reply := Reply(201, PostDoc(p));
    }

    /** updatePost. */
    method UpdatePost(lib: Lib, requester: Option<string>, id: string, body: Body) returns (reply: Reply)
      requires Valid()
      modifies this
      ensures Valid()
      ensures (posts, reply) == UpdatePostResult(lib, old(posts), requester, id, body)
    {
      var check := OwnerCheck(posts, requester, id, NotAuthorizedUpdate);
      if check.Some? {
        return check.value;
      }
      var i := FindById(posts, id).value;
      var p := Assigned(lib, posts[i], body);
      if p.None? {
        return Reply(500, ServerError);
      }
      posts := posts[i := p.value];
      reply := Reply(200, PostDoc(p.value));
    }

    /** deletePost. */
    method DeletePost(requester: Option<string>, id: string) returns (reply: Reply)
      requires Valid()
      modifies this
      ensures Valid()
      ensures (posts, reply) == DeletePostResult(old(posts), requester, id)
    {
      var check := OwnerCheck(posts, requester, id, NotAuthorizedDelete);
      if check.Some? {
        return check.value;
      }
      var i := FindById(posts, id).value;
      ghost var before := posts;
      posts := posts[..i] + posts[i + 1..];
      forall a, b | 0 <= a < b < |posts| ensures posts[a].id != posts[b].id {
        var a', b' := if a < i then a else a + 1, if b < i then b else b + 1;
        assert posts[a] == before[a'] && posts[b] == before[b'] && a' < b';
      }
      reply := Reply(200, Message(PostDeleted));
    }

    /** addComment. */
    method AddComment(requester: Option<string>, id: string, body: Body, now: int) returns (reply: Reply)
      requires Valid()
      modifies this
      ensures Valid()
      ensures (posts, reply) == AddCommentResult(old(posts), requester, id, body, now)
    {
      var k := FindById(posts, id);
      if k.None? {
        return Reply(404, Message(PostNotFound));
      }
      if !Truthy(Get(body, "content")) {
        return Reply(400, Message(NoCommentContent));
      }
      if requester.None? {
        return Reply(500, ServerError);
      }
      var i := k.value;
      var p := posts[i];
      p := p.(comments := p.comments + [Comment(requester.value, body["content"], now)]);
      posts := posts[i := p];
      reply := Reply(200, CommentList(CommentAdded, p.comments));
    }
  }
}
