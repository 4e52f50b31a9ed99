// The route tables of server/routes/posts.js and server/routes/categories.js, mounted as in
// server/server.js, with Express's dispatch: the first registered route whose method and path
// pattern match handles the request, running its middleware chain step by step until a step
// answers or the controller is reached.

module Routes {
  import opened Json
  import opened Text
  import opened Seqs
  import opened Library
  import opened Documents
  import opened Http
  import opened Validators
  import ValidatorProperties
  import PostController
  import CategoryController

  datatype Verb = GET | POST | PUT | DELETE

  /** One `/`-separated piece of a path pattern: literal text, or a `:name` parameter. */
  datatype Segment = Lit(text: string) | Param(name: string)

  /** A middleware: `protect`, or an express-validator array (its rules, then `validate`). */
  datatype Step = Protect | Validation(rules: seq<Rule>)

  datatype Handler =
    | GetAllPosts | SearchPosts | GetPost | CreatePost | UpdatePost | DeletePost | AddComment
    | GetCategories | CreateCategory

  datatype Route = Route(verb: Verb, pattern: seq<Segment>, chain: seq<Step>, handler: Handler)

  const ValidatePost := Validation(PostRules)
  const ValidatePostUpdate := Validation(PostUpdateRules)
  const ValidateComment := Validation(CommentRules)
  const ValidateObjectId := Validation(ObjectIdRules)
  const ValidateCategory := Validation(CategoryRules)

  // ---- The tables ----

  /** routes/posts.js, in registration order. */
  function PostRoutes(): seq<Route>
  {
    [ Route(GET, [], [], GetAllPosts),
      Route(GET, [Lit("search")], [], SearchPosts),
      Route(GET, [Param("idOrSlug")], [], GetPost),
      Route(POST, [], [Protect, ValidatePost], CreatePost),
      Route(PUT, [Param("id")], [Protect, ValidateObjectId, ValidatePostUpdate], UpdatePost),
      Route(DELETE, [Param("id")], [Protect, ValidateObjectId], DeletePost),
      Route(POST, [Param("id"), Lit("comments")], [Protect, ValidateObjectId, ValidateComment], AddComment) ]
  }

  /** routes/categories.js, in registration order. */
  function CategoryRoutes(): seq<Route>
  {
    [ Route(GET, [], [], GetCategories),
      Route(POST, [], [ValidateCategory], CreateCategory) ]
  }

  const PostsMount: seq<Segment> := [Lit("api"), Lit("posts")]
  const CategoriesMount: seq<Segment> := [Lit("api"), Lit("categories")]

  /** `app.use(prefix, router)`: the router's routes behind the prefix, in the same order. */
  function Mounted(prefix: seq<Segment>, table: seq<Route>): (r: seq<Route>)
    ensures |r| == |table|
    ensures forall i :: 0 <= i < |table| ==> r[i] == table[i].(pattern := prefix + table[i].pattern)
  {
    seq(|table|, i requires 0 <= i < |table| => table[i].(pattern := prefix + table[i].pattern))
  }

  /** The application's routes: the posts router, then the categories router. */
  function AppRoutes(): seq<Route>
  {
    Mounted(PostsMount, PostRoutes()) + Mounted(CategoriesMount, CategoryRoutes())
  }

  /** A router: routes appended in the order they are registered. */
  class Router {
    var routes: seq<Route>

    constructor ()
      ensures routes == []
    {
      routes := [];
    }

    /** `router.get(...)`, `router.post(...)`, ...: one more route at the end. */
    method Register(verb: Verb, pattern: seq<Segment>, chain: seq<Step>, handler: Handler)
      modifies this
      ensures routes == old(routes) + [Route(verb, pattern, chain, handler)]
    {
      routes := routes + [Route(verb, pattern, chain, handler)];
    }
  }

  /** The registrations of routes/posts.js. */
  method BuildPostRouter() returns (r: Router)
    ensures fresh(r) && r.routes == PostRoutes()
  {
    r := new Router();
    r.Register(GET, [], [], GetAllPosts);
    r.Register(GET, [Lit("search")], [], SearchPosts);
    r.Register(GET, [Param("idOrSlug")], [], GetPost);
    r.Register(POST, [], [Protect, ValidatePost], CreatePost);
    r.Register(PUT, [Param("id")], [Protect, ValidateObjectId, ValidatePostUpdate], UpdatePost);
    r.Register(DELETE, [Param("id")], [Protect, ValidateObjectId], DeletePost);
    r.Register(POST, [Param("id"), Lit("comments")], [Protect, ValidateObjectId, ValidateComment], AddComment);
  }

  /** The registrations of routes/categories.js. */
  method BuildCategoryRouter() returns (r: Router)
    ensures fresh(r) && r.routes == CategoryRoutes()
  {
    r := new Router();
    r.Register(GET, [], [], GetCategories);
    r.Register(POST, [], [ValidateCategory], CreateCategory);
  }

  // ---- Matching ----

  /** A literal matches ignoring case (Express's default); a parameter matches any non-empty piece. */
  predicate SegmentMatches(s: Segment, part: string)
  {
    match s
    case Lit(t) => Lower(t) == Lower(part)
    case Param(_) => part != ""
  }

  predicate PathMatches(pattern: seq<Segment>, parts: seq<string>)
  {
    |pattern| == |parts| && forall i :: 0 <= i < |parts| ==> SegmentMatches(pattern[i], parts[i])
  }

  function ParamNames(pattern: seq<Segment>): set<string>
  {
    set i | 0 <= i < |pattern| && pattern[i].Param? :: pattern[i].name
  }

  /** `req.params`: each parameter of the pattern bound to the piece of the path it matched. */
  function Bind(pattern: seq<Segment>, parts: seq<string>): (r: map<string, string>)
    requires |pattern| == |parts|
    ensures r.Keys == ParamNames(pattern)
    ensures forall k :: k in r ==> exists i :: 0 <= i < |pattern| && pattern[i] == Param(k) && r[k] == parts[i]
    decreases |pattern|
  {
    if pattern == [] then map[]
    else
      var rest := Bind(pattern[1..], parts[1..]);
      assert forall i :: 0 < i < |pattern| ==> pattern[i] == pattern[1..][i - 1] && parts[i] == parts[1..][i - 1];
      assert ParamNames(pattern) == ParamNames(pattern[1..]) + (if pattern[0].Param? then {pattern[0].name} else {}) by {
        forall k | k in ParamNames(pattern) ensures k in ParamNames(pattern[1..]) + (if pattern[0].Param? then {pattern[0].name} else {}) {
          var i :| 0 <= i < |pattern| && pattern[i].Param? && pattern[i].name == k;
          if i > 0 { assert pattern[1..][i - 1] == pattern[i]; }
        }
      }
      if pattern[0].Param? then rest[pattern[0].name := parts[0]] else rest
  }

  predicate RouteMatches(route: Route, verb: Verb, parts: seq<string>)
  {
    route.verb == verb && PathMatches(route.pattern, parts)
  }

  /** Dispatch: the first route, in registration order, whose method and path match. */
  function FirstMatch(table: seq<Route>, verb: Verb, parts: seq<string>): (r: Option<nat>)
    ensures r.Some? ==> r.value < |table| && RouteMatches(table[r.value], verb, parts)
    ensures r.Some? ==> forall j :: 0 <= j < r.value ==> !RouteMatches(table[j], verb, parts)
    ensures r.None? ==> forall j :: 0 <= j < |table| ==> !RouteMatches(table[j], verb, parts)
  {
    FirstIndex(table, (route: Route) => RouteMatches(route, verb, parts))
  }

  // ---- The middleware chain ----

  /** What a request carries into the chain; middleware rewrites `body` and sets `user`. */
  datatype Req = Req(body: Body, params: map<string, string>, query: Query, credential: Option<string>,
                     user: Option<string>)

  datatype StepResult = Continue(req: Req) | Stop(reply: Reply)

  /** The status `protect` answers with when it turns a request away. */
  const AuthStatus := 401

  /** What the `validateObjectId` rule chain answers for a malformed `:id`. */
  const BadIdReply := Reply(400, ValidationFailed(false, "Validation failed", [FieldError("id", InvalidIdFormat)]))

  /** One middleware: it answers, or calls `next` with the request as it left it. */
  function RunStep(lib: Lib, step: Step, req: Req): (r: StepResult)
    ensures r.Continue? ==> r.req.params == req.params && r.req.query == req.query && r.req.credential == req.credential
    ensures r.Continue? && req.user.Some? ==> r.req.user.Some?
    ensures step.Protect? ==>
      (r.Continue? <==> lib.authenticate(req.credential).Some?)
      && (r.Continue? ==> r.req == req.(user := lib.authenticate(req.credential)))
      && (r.Stop? ==> r.reply == Reply(AuthStatus, AuthRejected))
    ensures step.Validation? ==>
      var checked := RunRules(lib, step.rules, req.body, req.params);
      && (r.Continue? <==> checked.errors == [])
      && (r.Continue? ==> r.req == req.(body := checked.body))
      && (r.Stop? ==> r.reply.status == 400 && r.reply.payload.ValidationFailed?)
  {
    match step
    case Protect =>
      (match lib.authenticate(req.credential)
       case None => Stop(Reply(AuthStatus, AuthRejected))
       case Some(u) => Continue(req.(user := Some(u))))
    case Validation(rules) =>
      var checked := RunRules(lib, rules, req.body, req.params);
      (match Validate(checked.errors)
       case Next => Continue(req.(body := checked.body))
       case Respond(reply) => Stop(reply))
  }

  /** The chain: each step in order, stopping at the first that answers. */
  function RunChain(lib: Lib, chain: seq<Step>, req: Req): (r: StepResult)
    ensures chain == [] ==> r == Continue(req)
    ensures r.Continue? ==> r.req.params == req.params && r.req.query == req.query && r.req.credential == req.credential
    ensures r.Continue? && (req.user.Some? || Protect in chain) ==> r.req.user.Some?
    decreases |chain|
  {
    if chain == [] then Continue(req)
    else
      var first := RunStep(lib, chain[0], req);
      if first.Stop? then first
      else
        assert Protect in chain ==> chain[0] == Protect || Protect in chain[1..];
        RunChain(lib, chain[1..], first.req)
  }

  /** Unfolding the chain at its first step. */
  lemma RunChainCons(lib: Lib, step: Step, rest: seq<Step>, req: Req)
    ensures RunChain(lib, [step] + rest, req)
      == if RunStep(lib, step, req).Stop? then RunStep(lib, step, req) else RunChain(lib, rest, RunStep(lib, step, req).req)
  {
    assert ([step] + rest)[1..] == rest;
  }

  /** The request as a mutable object: middleware assigns `req.user` and rewrites `req.body`. */
  class Request {
    var body: Body
    var params: map<string, string>
    var user: Option<string>
    const query: Query
    const credential: Option<string>

    function State(): Req
      reads this
    {
      Req(body, params, query, credential, user)
    }

    constructor (body: Body, query: Query, credential: Option<string>)
      ensures State() == Req(body, map[], query, credential, None)
    {
      this.body := body;
      this.params := map[];
      this.user := None;
      this.query := query;
      this.credential := credential;
    }
  }

  /** Runs the chain on `req` in place; returns the answer of the step that stopped it, if any. */
  method RunMiddleware(lib: Lib, chain: seq<Step>, req: Request) returns (stopped: Option<Reply>)
    modifies req
    ensures var c := RunChain(lib, chain, old(req.State()));
      if c.Stop? then stopped == Some(c.reply) else stopped.None? && req.State() == c.req
  {
    var i := 0;
    while i < |chain|
      invariant 0 <= i <= |chain|
      invariant RunChain(lib, chain, old(req.State())) == RunChain(lib, chain[i..], req.State())
    {
      assert chain[i..] == [chain[i]] + chain[i + 1..];
      RunChainCons(lib, chain[i], chain[i + 1..], req.State());
      if chain[i].Protect? {
        var u := lib.authenticate(req.credential);
        if u.None? {
          return Some(Reply(AuthStatus, AuthRejected));
        }
        req.user := u;
      } else {
        var checked := RunRules(lib, chain[i].rules, req.body, req.params);
        var gate := Validate(checked.errors);
        if gate.Respond? {
          return Some(gate.reply);
        }
        req.body := checked.body;
      }
      i := i + 1;
    }
    return None;
  }

  // ---- The controllers behind the routes ----

  /** The two collections. */
  datatype World = World(posts: seq<Post>, categories: seq<Category>)

  /** What the database and the clock supply: the id of a new document and the current time. */
  datatype Env = Env(newId: string, now: int)

  /** The route parameters each controller reads. */
  function NeededParams(h: Handler): set<string>
  {
    match h
    case GetPost => {"idOrSlug"}
    case UpdatePost => {"id"}
    case DeletePost => {"id"}
    case AddComment => {"id"}
    case _ => {}
  }

  /** The handlers that read `req.user._id`. */
  predicate NeedsUser(h: Handler)
  {
    h == CreatePost || h == UpdatePost || h == DeletePost || h == AddComment
  }

  /**
   * The controller on the request the chain hands on. A handler reached without a user runs its
   * own checks and throws (500) only where it reads `req.user._id`; createCategory throws when the
   * name is not a string.
   */
  function Apply(lib: Lib, h: Handler, w: World, req: Req, env: Env): (r: (World, Reply))
    requires NeededParams(h) <= req.params.Keys
    requires PostController.WellFormedQuery(req.query)
    ensures NeedsUser(h) && req.user.None? ==> r.0 == w && r.1.status in {400, 404, 500}
    ensures h != CreateCategory ==> r.0.categories == w.categories
    ensures h == GetAllPosts || h == SearchPosts || h == GetCategories ==> r.0 == w
    ensures h == CreateCategory ==> r.0.posts == w.posts
  {
    match h
    case GetAllPosts => (w, PostController.ListPosts(w.posts, w.categories, req.query))
    case SearchPosts => (w, PostController.SearchPosts(lib, w.posts, req.query.q))
    case GetPost =>
      var (posts, reply) := PostController.ViewPost(w.posts, req.params["idOrSlug"]);
      (w.(posts := posts), reply)
    case CreatePost =>
      var (posts, reply) := PostController.CreatePostResult(lib, w.posts, req.user, req.body, env.newId, env.now);
      (w.(posts := posts), reply)
    case UpdatePost =>
      var (posts, reply) := PostController.UpdatePostResult(lib, w.posts, req.user, req.params["id"], req.body);
      (w.(posts := posts), reply)
    case DeletePost =>
      var (posts, reply) := PostController.DeletePostResult(w.posts, req.user, req.params["id"]);
      (w.(posts := posts), reply)
    case AddComment =>
      var (posts, reply) := PostController.AddCommentResult(w.posts, req.user, req.params["id"], req.body, env.now);
      (w.(posts := posts), reply)
    case GetCategories => (w, CategoryController.ListCategories(w.categories))
    case CreateCategory =>
      match StrOf(Get(req.body, "name"))
      case None => (w, Reply(500, ServerError))
      case Some(name) =>
        var (categories, reply) :=
          CategoryController.CreateCategoryResult(w.categories, name, StrOf(Get(req.body, "description")), env.newId);
        (w.(categories := categories), reply)
  }

  /** Every controller finds the route parameters it reads in its route's pattern. */
  predicate WellFormedTable(table: seq<Route>)
  {
    forall i :: 0 <= i < |table| ==> NeededParams(table[i].handler) <= ParamNames(table[i].pattern)
  }

  /**
   * One request through the application: dispatch, the chain, then the controller. The ensures
   * name the three stages; what each route answers is proved in the `Serve*` lemmas below.
   */
  function Serve(lib: Lib, table: seq<Route>, w: World, verb: Verb, parts: seq<string>, req: Req, env: Env)
    : (r: (World, Reply))
    requires WellFormedTable(table)
    requires PostController.WellFormedQuery(req.query)
    ensures FirstMatch(table, verb, parts).None? ==> r == (w, Reply(404, NoRoute))
    ensures FirstMatch(table, verb, parts).Some? ==>
      var route := table[FirstMatch(table, verb, parts).value];
      var c := RunChain(lib, route.chain, req.(params := Bind(route.pattern, parts)));
      r == if c.Stop? then (w, c.reply) else Apply(lib, route.handler, w, c.req, env)
  {
    var found := FirstMatch(table, verb, parts);
    if found.None? then (w, Reply(404, NoRoute))
    else
      var route := table[found.value];
      var c := RunChain(lib, route.chain, req.(params := Bind(route.pattern, parts)));
      if c.Stop? then (w, c.reply) else Apply(lib, route.handler, w, c.req, env)
  }

  /** A request to the application's own routes. */
  function ServeApp(lib: Lib, w: World, verb: Verb, parts: seq<string>, req: Req, env: Env): (r: (World, Reply))
    requires PostController.WellFormedQuery(req.query)
    ensures FirstMatch(AppRoutes(), verb, parts).None? ==> r == (w, Reply(404, NoRoute))
  {
    AppRoutesWellFormed();
    Serve(lib, AppRoutes(), w, verb, parts, req, env)
  }

  // ---- The application, its stores updated in place ----

  predicate FreshId(id: string, w: World)
  {
    && (forall j :: 0 <= j < |w.posts| ==> w.posts[j].id != id)
    && (forall j :: 0 <= j < |w.categories| ==> w.categories[j].id != id)
  }

  class App {
    const posts: PostController.PostStore
    const categories: CategoryController.CategoryStore
    const routes: seq<Route>

    ghost predicate Valid()
      reads this, posts, categories
    {
      posts.Valid() && categories.Valid() && WellFormedTable(routes)
    }

    function Snapshot(): World
      reads this, posts, categories
    {
      World(posts.posts, categories.categories)
    }

    /** The routers registered and mounted, over empty collections. */
    constructor ()
      ensures Valid() && routes == AppRoutes() && Snapshot() == World([], [])
      ensures fresh(posts) && fresh(categories)
    {
      var postRouter := BuildPostRouter();
      var categoryRouter := BuildCategoryRouter();
      posts := new PostController.PostStore();
      categories := new CategoryController.CategoryStore();
      routes := Mounted(PostsMount, postRouter.routes) + Mounted(CategoriesMount, categoryRouter.routes);
      AppRoutesWellFormed();
    }

    /** One request: dispatch, the middleware on `req`, then the controller on the stores. */
    method Handle(lib: Lib, verb: Verb, parts: seq<string>, req: Request, env: Env) returns (reply: Reply)
      requires Valid() && PostController.WellFormedQuery(req.query) && FreshId(env.newId, Snapshot())
      modifies posts, categories, req
      ensures Valid()
      ensures (Snapshot(), reply) == Serve(lib, routes, old(Snapshot()), verb, parts, old(req.State()), env)
    {
      var found := FirstMatch(routes, verb, parts);
      if found.None? {
        return Reply(404, NoRoute);
      }
      var route := routes[found.value];
      req.params := Bind(route.pattern, parts);
      assert NeededParams(route.handler) <= req.params.Keys;
      var stopped := RunMiddleware(lib, route.chain, req);
      if stopped.Some? {
        return stopped.value;
      }
      reply := Dispatch(lib, route.handler, req, env);
    }

    /** The controller a route names, on the request the chain passed on. */
    method Dispatch(lib: Lib, h: Handler, req: Request, env: Env) returns (reply: Reply)
      requires Valid() && PostController.WellFormedQuery(req.query) && FreshId(env.newId, Snapshot())
      requires NeededParams(h) <= req.params.Keys
      modifies posts, categories
      ensures Valid()
      ensures (Snapshot(), reply) == Apply(lib, h, old(Snapshot()), req.State(), env)
    {
      match h
      case GetAllPosts =>
        reply := PostController.ListPosts(posts.posts, categories.categories, req.query);
      case SearchPosts =>
        reply := PostController.SearchPosts(lib, posts.posts, req.query.q);
      case GetPost =>
        reply := posts.GetPost(req.params["idOrSlug"]);
      case CreatePost =>
        reply := posts.CreatePost(lib, req.user, req.body, env.newId, env.now);
      case UpdatePost =>
        reply := posts.UpdatePost(lib, req.user, req.params["id"], req.body);
      case DeletePost =>
        reply := posts.DeletePost(req.user, req.params["id"]);
      case AddComment =>
        reply := posts.AddComment(req.user, req.params["id"], req.body, env.now);
      case GetCategories =>
        reply := CategoryController.ListCategories(categories.categories);
      case CreateCategory =>
        var name := StrOf(Get(req.body, "name"));
        if name.None? {
          reply := Reply(500, ServerError);
        } else {
          reply := categories.CreateCategory(name.value, StrOf(Get(req.body, "description")), env.newId);
        }
    }
  }

  // ---- Properties of the tables ----

  /** The mounted table, written out route by route. */
  lemma AppRoutesTable()
    ensures |AppRoutes()| == 9
    ensures AppRoutes()[0] == Route(GET, [Lit("api"), Lit("posts")], [], GetAllPosts)
    ensures AppRoutes()[1] == Route(GET, [Lit("api"), Lit("posts"), Lit("search")], [], SearchPosts)
    ensures AppRoutes()[2] == Route(GET, [Lit("api"), Lit("posts"), Param("idOrSlug")], [], GetPost)
    ensures AppRoutes()[3] == Route(POST, [Lit("api"), Lit("posts")], [Protect, ValidatePost], CreatePost)
    ensures AppRoutes()[4]
      == Route(PUT, [Lit("api"), Lit("posts"), Param("id")], [Protect, ValidateObjectId, ValidatePostUpdate], UpdatePost)
    ensures AppRoutes()[5] == Route(DELETE, [Lit("api"), Lit("posts"), Param("id")], [Protect, ValidateObjectId], DeletePost)
    ensures AppRoutes()[6] == Route(POST, [Lit("api"), Lit("posts"), Param("id"), Lit("comments")],
                                    [Protect, ValidateObjectId, ValidateComment], AddComment)
    ensures AppRoutes()[7] == Route(GET, [Lit("api"), Lit("categories")], [], GetCategories)
    ensures AppRoutes()[8] == Route(POST, [Lit("api"), Lit("categories")], [ValidateCategory], CreateCategory)
  {
    var posts := Mounted(PostsMount, PostRoutes());
    var cats := Mounted(CategoriesMount, CategoryRoutes());
    assert PostsMount + [] == PostsMount && CategoriesMount + [] == CategoriesMount;
    assert posts[1].pattern == PostsMount + [Lit("search")] == [Lit("api"), Lit("posts"), Lit("search")];
    assert posts[2].pattern == PostsMount + [Param("idOrSlug")] == [Lit("api"), Lit("posts"), Param("idOrSlug")];
    assert posts[4].pattern == posts[5].pattern == PostsMount + [Param("id")] == [Lit("api"), Lit("posts"), Param("id")];
    assert posts[6].pattern == PostsMount + [Param("id"), Lit("comments")]
      == [Lit("api"), Lit("posts"), Param("id"), Lit("comments")];
    assert |posts + cats| == 9;
  }

  lemma AppRoutesWellFormed()
    ensures WellFormedTable(AppRoutes())
  {
    AppRoutesTable();
    var t := AppRoutes();
    assert t[2].pattern[2] == Param("idOrSlug") && "idOrSlug" in ParamNames(t[2].pattern);
    assert t[4].pattern[2] == Param("id") && "id" in ParamNames(t[4].pattern);
    assert t[5].pattern[2] == Param("id") && "id" in ParamNames(t[5].pattern);
    assert t[6].pattern[2] == Param("id") && "id" in ParamNames(t[6].pattern);
  }

  /** The dispatch is the route at `k` when it matches and no earlier route does. */
  lemma FirstMatchAt(table: seq<Route>, verb: Verb, parts: seq<string>, k: nat)
    requires k < |table| && RouteMatches(table[k], verb, parts)
    requires forall j :: 0 <= j < k ==> !RouteMatches(table[j], verb, parts)
    ensures FirstMatch(table, verb, parts) == Some(k)
  {
    var r := FirstMatch(table, verb, parts);
    assert r.Some?;
    assert !(r.value < k);
    assert !(r.value > k);
  }

  /** A pattern with one parameter binds exactly that parameter to its piece of the path. */
  lemma BindOneParam(pattern: seq<Segment>, parts: seq<string>, k: nat, name: string)
    requires |pattern| == |parts| && k < |pattern| && pattern[k] == Param(name)
    requires forall i :: 0 <= i < |pattern| && i != k ==> pattern[i].Lit?
    ensures Bind(pattern, parts) == map[name := parts[k]]
  {
    var b := Bind(pattern, parts);
    assert ParamNames(pattern) == {name};
    var i :| 0 <= i < |pattern| && pattern[i] == Param(name) && b[name] == parts[i];
    assert i == k;
  }

  /** `GET /api/posts`: getAllPosts, with no middleware. */
  lemma DispatchListPosts()
    ensures FirstMatch(AppRoutes(), GET, ["api", "posts"]) == Some(0)
    ensures AppRoutes()[0].chain == [] && AppRoutes()[0].handler == GetAllPosts
    ensures Bind(AppRoutes()[0].pattern, ["api", "posts"]) == map[]
  {
    AppRoutesTable();
    FirstMatchAt(AppRoutes(), GET, ["api", "posts"], 0);
  }

  /** `GET /api/posts/search` reaches searchPosts, not getPost: its route is registered first. */
  lemma DispatchSearch()
    ensures FirstMatch(AppRoutes(), GET, ["api", "posts", "search"]) == Some(1)
    ensures AppRoutes()[1].chain == [] && AppRoutes()[1].handler == SearchPosts
    ensures Bind(AppRoutes()[1].pattern, ["api", "posts", "search"]) == map[]
  {
    AppRoutesTable();
    FirstMatchAt(AppRoutes(), GET, ["api", "posts", "search"], 1);
    assert ParamNames(AppRoutes()[1].pattern) == {};
  }

  /** Any other single piece after `/api/posts` reaches getPost, bound to `idOrSlug`. */
  lemma DispatchIdOrSlug(key: string)
    requires key != "" && Lower(key) != Lower("search")
    ensures FirstMatch(AppRoutes(), GET, ["api", "posts", key]) == Some(2)
    ensures AppRoutes()[2].chain == [] && AppRoutes()[2].handler == GetPost
    ensures Bind(AppRoutes()[2].pattern, ["api", "posts", key]) == map["idOrSlug" := key]
  {
    AppRoutesTable();
    var t := AppRoutes();
    var parts := ["api", "posts", key];
    assert !RouteMatches(t[1], GET, parts) by {
      assert t[1].pattern[2] == Lit("search") && !SegmentMatches(t[1].pattern[2], parts[2]);
    }
    forall j | 0 <= j < 2 ensures !RouteMatches(t[j], GET, parts) {
    }
    FirstMatchAt(t, GET, parts, 2);
    BindOneParam(t[2].pattern, parts, 2, "idOrSlug");
  }

  /** `POST /api/posts`: protect, validatePost, createPost, and no id check. */
  lemma DispatchCreatePost()
    ensures FirstMatch(AppRoutes(), POST, ["api", "posts"]) == Some(3)
    ensures AppRoutes()[3].chain == [Protect, ValidatePost] && AppRoutes()[3].handler == CreatePost
    ensures Bind(AppRoutes()[3].pattern, ["api", "posts"]) == map[]
  {
    AppRoutesTable();
    var t := AppRoutes();
    forall j | 0 <= j < 3 ensures !RouteMatches(t[j], POST, ["api", "posts"]) {
    }
    FirstMatchAt(t, POST, ["api", "posts"], 3);
  }

  /** `PUT /api/posts/:id`: protect, then validateObjectId, then validatePostUpdate, then updatePost. */
  lemma DispatchUpdatePost(id: string)
    requires id != ""
    ensures FirstMatch(AppRoutes(), PUT, ["api", "posts", id]) == Some(4)
    ensures AppRoutes()[4].chain == [Protect, ValidateObjectId, ValidatePostUpdate] && AppRoutes()[4].handler == UpdatePost
    ensures Bind(AppRoutes()[4].pattern, ["api", "posts", id]) == map["id" := id]
  {
    AppRoutesTable();
    var t := AppRoutes();
    forall j | 0 <= j < 4 ensures !RouteMatches(t[j], PUT, ["api", "posts", id]) {
    }
    FirstMatchAt(t, PUT, ["api", "posts", id], 4);
    BindOneParam(t[4].pattern, ["api", "posts", id], 2, "id");
  }

  /** `DELETE /api/posts/:id`: protect and the id check, and no validation of the body. */
  lemma DispatchDeletePost(id: string)
    requires id != ""
    ensures FirstMatch(AppRoutes(), DELETE, ["api", "posts", id]) == Some(5)
    ensures AppRoutes()[5].chain == [Protect, ValidateObjectId] && AppRoutes()[5].handler == DeletePost
    ensures Bind(AppRoutes()[5].pattern, ["api", "posts", id]) == map["id" := id]
  {
    AppRoutesTable();
    var t := AppRoutes();
    forall j | 0 <= j < 5 ensures !RouteMatches(t[j], DELETE, ["api", "posts", id]) {
    }
    FirstMatchAt(t, DELETE, ["api", "posts", id], 5);
    BindOneParam(t[5].pattern, ["api", "posts", id], 2, "id");
  }

  /** `POST /api/posts/:id/comments`: protect, validateObjectId, validateComment, addComment. */
  lemma DispatchAddComment(id: string)
    requires id != ""
    ensures FirstMatch(AppRoutes(), POST, ["api", "posts", id, "comments"]) == Some(6)
    ensures AppRoutes()[6].chain == [Protect, ValidateObjectId, ValidateComment] && AppRoutes()[6].handler == AddComment
    ensures Bind(AppRoutes()[6].pattern, ["api", "posts", id, "comments"]) == map["id" := id]
  {
    AppRoutesTable();
    var t := AppRoutes();
    var parts := ["api", "posts", id, "comments"];
    forall j | 0 <= j < 6 ensures !RouteMatches(t[j], POST, parts) {
    }
    FirstMatchAt(t, POST, parts, 6);
    BindOneParam(t[6].pattern, parts, 2, "id");
  }

  /** The two category routes, at the end of the mounted table. */
  lemma CategoryRoutesMounted()
    ensures AppRoutes()[7] == Route(GET, [Lit("api"), Lit("categories")], [], GetCategories)
    ensures AppRoutes()[8] == Route(POST, [Lit("api"), Lit("categories")], [ValidateCategory], CreateCategory)
  {
    var cats := Mounted(CategoriesMount, CategoryRoutes());
    assert CategoriesMount + [] == CategoriesMount;
    assert AppRoutes()[7] == cats[0] && AppRoutes()[8] == cats[1];
  }

  /** No route of the posts router matches a path whose second piece is not `posts`. */
  lemma PostRoutesUnderPosts(parts: seq<string>)
    requires |parts| >= 2 && Lower(parts[1]) != Lower("posts")
    ensures forall j, verb :: 0 <= j < 7 ==> !RouteMatches(AppRoutes()[j], verb, parts)
  {
    var t := AppRoutes();
    forall j, verb | 0 <= j < 7 ensures !RouteMatches(t[j], verb, parts) {
      assert t[j].pattern == PostsMount + PostRoutes()[j].pattern;
      assert t[j].pattern[1] == Lit("posts");
    }
  }

  /** `GET /api/categories`: getCategories, with no middleware. */
  lemma DispatchCategories()
    ensures FirstMatch(AppRoutes(), GET, ["api", "categories"]) == Some(7)
    ensures AppRoutes()[7].chain == [] && AppRoutes()[7].handler == GetCategories
    ensures Bind(AppRoutes()[7].pattern, ["api", "categories"]) == map[]
  {
    var t := AppRoutes();
    var parts := ["api", "categories"];
    assert Lower(parts[1]) != Lower("posts") by {
      assert |Lower("posts")| != |Lower("categories")|;
    }
    PostRoutesUnderPosts(parts);
    CategoryRoutesMounted();
    FirstMatchAt(t, GET, parts, 7);
  }

  /** `POST /api/categories`: validateCategory, then createCategory; no authentication. */
  lemma DispatchCreateCategory()
    ensures FirstMatch(AppRoutes(), POST, ["api", "categories"]) == Some(8)
    ensures AppRoutes()[8].chain == [ValidateCategory] && AppRoutes()[8].handler == CreateCategory
    ensures Bind(AppRoutes()[8].pattern, ["api", "categories"]) == map[]
  {
    var t := AppRoutes();
    var parts := ["api", "categories"];
    assert Lower(parts[1]) != Lower("posts") by {
      assert |Lower("posts")| != |Lower("categories")|;
    }
    PostRoutesUnderPosts(parts);
    CategoryRoutesMounted();
    assert !RouteMatches(t[7], POST, parts);
    FirstMatchAt(t, POST, parts, 8);
  }

  /** The three GET routes of posts.js run no middleware. */
  lemma PostReadsUnguarded()
    ensures forall i :: 0 <= i < |PostRoutes()| && PostRoutes()[i].verb == GET ==> PostRoutes()[i].chain == []
    ensures |set i | 0 <= i < |PostRoutes()| && PostRoutes()[i].verb == GET| == 3
  {
    var t := PostRoutes();
    assert (set i | 0 <= i < |t| && t[i].verb == GET) == {0, 1, 2};
  }

  /** Every POST, PUT and DELETE route of posts.js runs `protect` before anything else. */
  lemma PostWritesProtectFirst()
    ensures forall i :: 0 <= i < |PostRoutes()| && PostRoutes()[i].verb != GET ==>
      |PostRoutes()[i].chain| >= 1 && PostRoutes()[i].chain[0] == Protect
  {
    var t := PostRoutes();
    assert t[3].chain[0] == t[4].chain[0] == t[5].chain[0] == t[6].chain[0] == Protect;
  }

  /** Neither category route authenticates; creation validates first. */
  lemma CategoryRoutesOpen()
    ensures forall i :: 0 <= i < |CategoryRoutes()| ==> Protect !in CategoryRoutes()[i].chain
    ensures CategoryRoutes()[0] == Route(GET, [], [], GetCategories)
    ensures CategoryRoutes()[1] == Route(POST, [], [ValidateCategory], CreateCategory)
  {
    var t := CategoryRoutes();
    assert t[1].chain == [ValidateCategory] && ValidateCategory != Protect;
  }

  /** A controller that reads the user sits behind `protect`, so whenever it is reached there is one. */
  lemma UserHandlersReachedWithUser(lib: Lib, i: nat, req: Req)
    requires i < |AppRoutes()| && NeedsUser(AppRoutes()[i].handler)
    requires RunChain(lib, AppRoutes()[i].chain, req).Continue?
    ensures RunChain(lib, AppRoutes()[i].chain, req).req.user.Some?
  {
    AppRoutesTable();
    var chain := AppRoutes()[i].chain;
    if i == 3 {
      assert chain[0] == Protect;
    } else if i == 4 {
      assert chain[0] == Protect;
    } else if i == 5 {
      assert chain[0] == Protect;
    } else {
      assert i == 6 && chain[0] == Protect;
    }
  }

  // ---- Whole requests ----

  /** A request the route at `k` handles: its chain's answer, or its controller. */
  lemma ServeAt(lib: Lib, w: World, verb: Verb, parts: seq<string>, req: Req, env: Env, k: nat,
                chain: seq<Step>, handler: Handler, params: map<string, string>)
    requires PostController.WellFormedQuery(req.query) && WellFormedTable(AppRoutes())
    requires FirstMatch(AppRoutes(), verb, parts) == Some(k)
    requires AppRoutes()[k].chain == chain && AppRoutes()[k].handler == handler
    requires Bind(AppRoutes()[k].pattern, parts) == params
    ensures NeededParams(handler) <= params.Keys
    ensures var c := RunChain(lib, chain, req.(params := params));
      ServeApp(lib, w, verb, parts, req, env) == if c.Stop? then (w, c.reply) else Apply(lib, handler, w, c.req, env)
  {
  }

  /** The post controllers that read the user, on the request the chain passes on. */
  lemma ApplyCreatePost(lib: Lib, w: World, f: Req, env: Env)
    requires PostController.WellFormedQuery(f.query)
    ensures var (posts, reply) := PostController.CreatePostResult(lib, w.posts, f.user, f.body, env.newId, env.now);
      Apply(lib, CreatePost, w, f, env) == (w.(posts := posts), reply)
  {
  }

  lemma ApplyUpdatePost(lib: Lib, w: World, f: Req, env: Env)
    requires "id" in f.params && PostController.WellFormedQuery(f.query)
    ensures var (posts, reply) := PostController.UpdatePostResult(lib, w.posts, f.user, f.params["id"], f.body);
      Apply(lib, UpdatePost, w, f, env) == (w.(posts := posts), reply)
  {
  }

  lemma ApplyDeletePost(lib: Lib, w: World, f: Req, env: Env)
    requires "id" in f.params && PostController.WellFormedQuery(f.query)
    ensures var (posts, reply) := PostController.DeletePostResult(w.posts, f.user, f.params["id"]);
      Apply(lib, DeletePost, w, f, env) == (w.(posts := posts), reply)
  {
  }

  lemma ApplyAddComment(lib: Lib, w: World, f: Req, env: Env)
    requires "id" in f.params && PostController.WellFormedQuery(f.query)
    ensures var (posts, reply) := PostController.AddCommentResult(w.posts, f.user, f.params["id"], f.body, env.now);
      Apply(lib, AddComment, w, f, env) == (w.(posts := posts), reply)
  {
  }

  /** `protect` at the head of a chain: 401, or the rest of the chain as the authenticated user. */
  lemma ProtectThen(lib: Lib, rest: seq<Step>, req: Req)
    ensures var user := lib.authenticate(req.credential);
      RunChain(lib, [Protect] + rest, req)
      == if user.None? then Stop(Reply(AuthStatus, AuthRejected)) else RunChain(lib, rest, req.(user := user))
  {
    RunChainCons(lib, Protect, rest, req);
  }

  /** A validator array at the head of a chain: its 400, or the rest on the sanitized body. */
  lemma ValidationThen(lib: Lib, rules: seq<Rule>, rest: seq<Step>, req: Req)
    ensures var checked := RunRules(lib, rules, req.body, req.params);
      RunChain(lib, [Validation(rules)] + rest, req)
      == if checked.errors != [] then Stop(Validate(checked.errors).reply) else RunChain(lib, rest, req.(body := checked.body))
  {
    RunChainCons(lib, Validation(rules), rest, req);
  }

  /** The id check at the head of a chain: the 400 for a malformed id, or the rest unchanged. */
  lemma IdCheckThen(lib: Lib, rest: seq<Step>, req: Req, id: string)
    requires req.params == map["id" := id]
    ensures RunChain(lib, [ValidateObjectId] + rest, req)
      == if !lib.isObjectId(Some(Str(id))) then Stop(BadIdReply) else RunChain(lib, rest, req)
  {
    ValidationThen(lib, ObjectIdRules, rest, req);
    ValidatorProperties.ValidateObjectIdRun(lib, req.body, req.params);
    assert req.(body := req.body) == req;
  }

  /** `[protect, validator]`: 401, the validator's 400, or the authenticated, sanitized request. */
  lemma ProtectedBodyChain(lib: Lib, rules: seq<Rule>, req: Req)
    ensures var user := lib.authenticate(req.credential);
      var checked := RunRules(lib, rules, req.body, req.params);
      RunChain(lib, [Protect, Validation(rules)], req)
      == if user.None? then Stop(Reply(AuthStatus, AuthRejected))
         else if checked.errors != [] then Stop(Validate(checked.errors).reply)
         else Continue(req.(user := user, body := checked.body))
  {
    var user := lib.authenticate(req.credential);
    ProtectThen(lib, [Validation(rules)], req);
    assert [Protect] + [Validation(rules)] == [Protect, Validation(rules)];
    if user.Some? {
      ValidationThen(lib, rules, [], req.(user := user));
      assert [Validation(rules)] + [] == [Validation(rules)];
    }
  }

  /** `[protect, validateObjectId]`: 401, the id's 400, or the authenticated request. */
  lemma ProtectedIdChain(lib: Lib, req: Req, id: string)
    requires req.params == map["id" := id]
    ensures var user := lib.authenticate(req.credential);
      RunChain(lib, [Protect, ValidateObjectId], req)
      == if user.None? then Stop(Reply(AuthStatus, AuthRejected))
         else if !lib.isObjectId(Some(Str(id))) then Stop(BadIdReply)
         else Continue(req.(user := user))
  {
    var user := lib.authenticate(req.credential);
    ProtectThen(lib, [ValidateObjectId], req);
    assert [Protect] + [ValidateObjectId] == [Protect, ValidateObjectId];
    if user.Some? {
      IdCheckThen(lib, [], req.(user := user), id);
      assert [ValidateObjectId] + [] == [ValidateObjectId];
    }
  }

  /** `[protect, validateObjectId, validator]`: the first step that answers, or the sanitized request. */
  lemma ProtectedIdBodyChain(lib: Lib, rules: seq<Rule>, req: Req, id: string)
    requires req.params == map["id" := id]
    ensures var user := lib.authenticate(req.credential);
      var checked := RunRules(lib, rules, req.body, req.params);
      RunChain(lib, [Protect, ValidateObjectId, Validation(rules)], req)
      == if user.None? then Stop(Reply(AuthStatus, AuthRejected))
         else if !lib.isObjectId(Some(Str(id))) then Stop(BadIdReply)
         else if checked.errors != [] then Stop(Validate(checked.errors).reply)
         else Continue(req.(user := user, body := checked.body))
  {
    var user := lib.authenticate(req.credential);
    ProtectThen(lib, [ValidateObjectId, Validation(rules)], req);
    assert [Protect] + [ValidateObjectId, Validation(rules)] == [Protect, ValidateObjectId, Validation(rules)];
    if user.Some? {
      var authed := req.(user := user);
      IdCheckThen(lib, [Validation(rules)], authed, id);
      assert [ValidateObjectId] + [Validation(rules)] == [ValidateObjectId, Validation(rules)];
      if lib.isObjectId(Some(Str(id))) {
        ValidationThen(lib, rules, [], authed);
        assert [Validation(rules)] + [] == [Validation(rules)];
      }
    }
  }

  /** `[validator]`: its 400, or the sanitized request. */
  lemma BodyChain(lib: Lib, rules: seq<Rule>, req: Req)
    ensures var checked := RunRules(lib, rules, req.body, req.params);
      RunChain(lib, [Validation(rules)], req)
      == if checked.errors != [] then Stop(Validate(checked.errors).reply) else Continue(req.(body := checked.body))
  {
    ValidationThen(lib, rules, [], req);
    assert [Validation(rules)] + [] == [Validation(rules)];
  }

  /** `GET /api/posts`: getAllPosts on the query, whoever asks. */
  lemma ServeListPosts(lib: Lib, w: World, req: Req, env: Env)
    requires PostController.WellFormedQuery(req.query)
    ensures ServeApp(lib, w, GET, ["api", "posts"], req, env)
      == (w, PostController.ListPosts(w.posts, w.categories, req.query))
  {
    DispatchListPosts();
    AppRoutesWellFormed();
    ServeAt(lib, w, GET, ["api", "posts"], req, env, 0, [], GetAllPosts, map[]);
  }

  /** `GET /api/posts/search`: searchPosts on `q`, whoever asks. */
  lemma ServeSearch(lib: Lib, w: World, req: Req, env: Env)
    requires PostController.WellFormedQuery(req.query)
    ensures ServeApp(lib, w, GET, ["api", "posts", "search"], req, env)
      == (w, PostController.SearchPosts(lib, w.posts, req.query.q))
  {
    DispatchSearch();
    AppRoutesWellFormed();
    ServeAt(lib, w, GET, ["api", "posts", "search"], req, env, 1, [], SearchPosts, map[]);
  }

  /** `GET /api/posts/:idOrSlug`: getPost on the key, whoever asks. */
  lemma ServeGetPost(lib: Lib, w: World, key: string, req: Req, env: Env)
    requires key != "" && Lower(key) != Lower("search")
    requires PostController.WellFormedQuery(req.query)
    ensures var (posts, reply) := PostController.ViewPost(w.posts, key);
      ServeApp(lib, w, GET, ["api", "posts", key], req, env) == (w.(posts := posts), reply)
  {
    DispatchIdOrSlug(key);
    AppRoutesWellFormed();
    ServeAt(lib, w, GET, ["api", "posts", key], req, env, 2, [], GetPost, map["idOrSlug" := key]);
  }

  /** `POST /api/posts`: protect, validatePost, then createPost on the sanitized body. */
  lemma ServeCreatePost(lib: Lib, w: World, req: Req, env: Env)
    requires PostController.WellFormedQuery(req.query)
    ensures var r := ServeApp(lib, w, POST, ["api", "posts"], req, env);
      var user := lib.authenticate(req.credential);
      var checked := RunRules(lib, PostRules, req.body, map[]);
      && (user.None? ==> r == (w, Reply(AuthStatus, AuthRejected)))
      && (user.Some? && checked.errors != [] ==> r == (w, Validate(checked.errors).reply))
      && (user.Some? && checked.errors == [] ==>
            var (posts, reply) := PostController.CreatePostResult(lib, w.posts, user, checked.body, env.newId, env.now);
            r == (w.(posts := posts), reply))
  {
    var start := req.(params := map[]);
    var user := lib.authenticate(req.credential);
    var checked := RunRules(lib, PostRules, req.body, map[]);
    DispatchCreatePost();
    AppRoutesWellFormed();
    ServeAt(lib, w, POST, ["api", "posts"], req, env, 3, [Protect, ValidatePost], CreatePost, map[]);
    ProtectedBodyChain(lib, PostRules, start);
    if user.Some? && checked.errors == [] {
      ApplyCreatePost(lib, w, start.(user := user, body := checked.body), env);
    }
  }

  /** `PUT /api/posts/:id`: updatePost is reached only after protect, the id check and validatePostUpdate pass. */
  lemma ServeUpdatePost(lib: Lib, w: World, id: string, req: Req, env: Env)
    requires id != "" && PostController.WellFormedQuery(req.query)
    ensures var r := ServeApp(lib, w, PUT, ["api", "posts", id], req, env);
      var user := lib.authenticate(req.credential);
      var checked := RunRules(lib, PostUpdateRules, req.body, map["id" := id]);
      && (user.None? ==> r == (w, Reply(AuthStatus, AuthRejected)))
      && (user.Some? && !lib.isObjectId(Some(Str(id))) ==> r == (w, BadIdReply))
      && (user.Some? && lib.isObjectId(Some(Str(id))) && checked.errors != [] ==> r == (w, Validate(checked.errors).reply))
      && (user.Some? && lib.isObjectId(Some(Str(id))) && checked.errors == [] ==>
            var (posts, reply) := PostController.UpdatePostResult(lib, w.posts, user, id, checked.body);
            r == (w.(posts := posts), reply))
  {
    var start := req.(params := map["id" := id]);
    var user := lib.authenticate(req.credential);
    var checked := RunRules(lib, PostUpdateRules, req.body, map["id" := id]);
    DispatchUpdatePost(id);
    AppRoutesWellFormed();
    ServeAt(lib, w, PUT, ["api", "posts", id], req, env, 4, [Protect, ValidateObjectId, ValidatePostUpdate], UpdatePost,
            map["id" := id]);
    ProtectedIdBodyChain(lib, PostUpdateRules, start, id);
    if user.Some? && lib.isObjectId(Some(Str(id))) && checked.errors == [] {
      ApplyUpdatePost(lib, w, start.(user := user, body := checked.body), env);
    }
  }

  /** `DELETE /api/posts/:id`: protect and the id check; the body is never validated. */
  lemma ServeDeletePost(lib: Lib, w: World, id: string, req: Req, env: Env)
    requires id != "" && PostController.WellFormedQuery(req.query)
    ensures var r := ServeApp(lib, w, DELETE, ["api", "posts", id], req, env);
      var user := lib.authenticate(req.credential);
      && (user.None? ==> r == (w, Reply(AuthStatus, AuthRejected)))
      && (user.Some? && !lib.isObjectId(Some(Str(id))) ==> r == (w, BadIdReply))
      && (user.Some? && lib.isObjectId(Some(Str(id))) ==>
            var (posts, reply) := PostController.DeletePostResult(w.posts, user, id);
            r == (w.(posts := posts), reply))
  {
    var start := req.(params := map["id" := id]);
    var user := lib.authenticate(req.credential);
    DispatchDeletePost(id);
    AppRoutesWellFormed();
    ServeAt(lib, w, DELETE, ["api", "posts", id], req, env, 5, [Protect, ValidateObjectId], DeletePost, map["id" := id]);
    ProtectedIdChain(lib, start, id);
    if user.Some? && lib.isObjectId(Some(Str(id))) {
      ApplyDeletePost(lib, w, start.(user := user), env);
    }
  }

  /** `POST /api/posts/:id/comments`: protect, the id check, validateComment, then addComment. */
  lemma ServeAddComment(lib: Lib, w: World, id: string, req: Req, env: Env)
    requires id != "" && PostController.WellFormedQuery(req.query)
    ensures var r := ServeApp(lib, w, POST, ["api", "posts", id, "comments"], req, env);
      var user := lib.authenticate(req.credential);
      var checked := RunRules(lib, CommentRules, req.body, map["id" := id]);
      && (user.None? ==> r == (w, Reply(AuthStatus, AuthRejected)))
      && (user.Some? && !lib.isObjectId(Some(Str(id))) ==> r == (w, BadIdReply))
      && (user.Some? && lib.isObjectId(Some(Str(id))) && checked.errors != [] ==> r == (w, Validate(checked.errors).reply))
      && (user.Some? && lib.isObjectId(Some(Str(id))) && checked.errors == [] ==>
            var (posts, reply) := PostController.AddCommentResult(w.posts, user, id, checked.body, env.now);
            r == (w.(posts := posts), reply))
  {
    var start := req.(params := map["id" := id]);
    var user := lib.authenticate(req.credential);
    var checked := RunRules(lib, CommentRules, req.body, map["id" := id]);
    DispatchAddComment(id);
    AppRoutesWellFormed();
    ServeAt(lib, w, POST, ["api", "posts", id, "comments"], req, env, 6, [Protect, ValidateObjectId, ValidateComment],
            AddComment, map["id" := id]);
    ProtectedIdBodyChain(lib, CommentRules, start, id);
    if user.Some? && lib.isObjectId(Some(Str(id))) && checked.errors == [] {
      ApplyAddComment(lib, w, start.(user := user, body := checked.body), env);
    }
  }

  /** `GET /api/categories`: getCategories, whoever asks. */
  lemma ServeCategories(lib: Lib, w: World, req: Req, env: Env)
    requires PostController.WellFormedQuery(req.query)
    ensures ServeApp(lib, w, GET, ["api", "categories"], req, env)
      == (w, CategoryController.ListCategories(w.categories))
  {
    DispatchCategories();
    AppRoutesWellFormed();
    ServeAt(lib, w, GET, ["api", "categories"], req, env, 7, [], GetCategories, map[]);
  }

  /** createCategory on a body validateCategory accepted: the trimmed name and description. */
  lemma ApplyCreateCategory(lib: Lib, w: World, body: Body, req: Req, env: Env)
    requires PostController.WellFormedQuery(req.query)
    requires RunRules(lib, CategoryRules, body, map[]).errors == []
    requires req.body == RunRules(lib, CategoryRules, body, map[]).body
    ensures var name := ValidatorProperties.Trimmed(lib, body, "name");
      var description := if "description" in body then Some(ValidatorProperties.Trimmed(lib, body, "description")) else None;
      var (categories, reply) := CategoryController.CreateCategoryResult(w.categories, name, description, env.newId);
      Apply(lib, CreateCategory, w, req, env) == (w.(categories := categories), reply)
  {
    ValidatorProperties.ValidateCategoryLeavesStringName(lib, body, map[]);
  }

  /**
   * `POST /api/categories`: a body that fails validateCategory gets the 400 and leaves the store
   * alone; one that passes reaches createCategory with the trimmed name and description. No
   * authentication either way.
   */
  lemma ServeCreateCategory(lib: Lib, w: World, req: Req, env: Env)
    requires PostController.WellFormedQuery(req.query)
    ensures var r := ServeApp(lib, w, POST, ["api", "categories"], req, env);
      var checked := RunRules(lib, CategoryRules, req.body, map[]);
      && (checked.errors != [] ==> r == (w, Validate(checked.errors).reply) && r.1.status == 400)
      && (checked.errors == [] ==>
            var name := ValidatorProperties.Trimmed(lib, req.body, "name");
            var description :=
              if "description" in req.body then Some(ValidatorProperties.Trimmed(lib, req.body, "description")) else None;
            var (categories, reply) := CategoryController.CreateCategoryResult(w.categories, name, description, env.newId);
            r == (w.(categories := categories), reply))
  {
    var start := req.(params := map[]);
    var checked := RunRules(lib, CategoryRules, req.body, map[]);
    DispatchCreateCategory();
    AppRoutesWellFormed();
    ServeAt(lib, w, POST, ["api", "categories"], req, env, 8, [ValidateCategory], CreateCategory, map[]);
    BodyChain(lib, CategoryRules, start);
    if checked.errors == [] {
      ApplyCreateCategory(lib, w, req.body, start.(body := checked.body), env);
    }
  }
}
