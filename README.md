# A verified model of the MERN blog API

The server is an Express application over two MongoDB collections, posts and categories.
Two routers are mounted under `/api/posts` and `/api/categories`. Each route runs a chain of
middleware: `protect` authentication, then express-validator rule arrays that each end in
`validate`. After the chain come the controllers. They are `getAllPosts`, `getPost`,
`createPost`, `updatePost`, `deletePost`, `addComment` and `searchPosts` for posts, and
`getCategories` and `createCategory` for categories.

This project models that request path in Dafny, in the forms the code itself takes:

- `Validators` (validators.dfy) holds the rule chains of `validators.js` as data. Each chain is a
  field, an optional flag and its `trim` and validator items in order. Beside them sit the
  interpreter that runs the chains and the `validate` gate. `ValidatorProperties`
  (validator_properties.dfy) proves, chain by chain, exactly which bodies each array accepts,
  which errors it records and in what order, and how it rewrites the body.
- `PostController` and `CategoryController` give each controller as a function from a collection
  to the new collection and the reply. Each collection is a `seq` in insertion order, which is
  MongoDB's natural order. The `PostStore` and `CategoryStore` classes then perform the same
  change in place, and their methods are proved equal to those functions.
- `IdGate` models the standalone `validateObjectId.js` middleware.
- `Routes` holds the two routers as registration sequences (`Router.Register`), mounted as in
  `server.js`. Dispatch picks the first route whose method and path match. The chain runs step
  by step, both as a function (`RunChain`) and in place on a `Request` object (`RunMiddleware`).
  `Serve` puts the whole request together, and the `App` class's `Handle` method is proved equal
  to it. End-to-end lemmas state, route by route, what each request can answer.
- `Text` holds JavaScript's `trim` and ASCII case folding. `Seqs` holds order-preserving filtering,
  first match and a stable insertion sort. `Json`, `Documents`, `Library` and `Http` hold the data
  model: body values, post and category documents, the third-party predicates as abstract
  functions, and replies.

Third-party predicates are fields of the `Lib` datatype, chosen freely by the caller, so every
result holds whatever they decide. These are ObjectId validity, `isURL`, `isBoolean`, `isArray`,
the slug the Post model derives, `protect`'s verdict on a credential, and regex matching for
queries with metacharacters. The database's fresh id and the clock are the `Env` parameter.

Three facts about the code shape the model:

- The post handlers reply with the bare document or list. Only the category handlers wrap their
  answer, in `{success, data: {categories, count}}` and `{success, message, data}`.
- On protected routes `protect` runs first and validation after it.
- `routes/posts.js` takes `validateObjectId` from `validators.js`. That is the `param('id')` rule
  chain with the message "Invalid ID format", answered through `validate`. The standalone
  `middleware/validateObjectId.js` ("Invalid ID") is not mounted anywhere, and `IdGate` models it
  on its own.

## Model

| member | source | states |
|---|---|---|
| Validators.Validate | server/middleware/validators.js:8-21 | `next` exactly when no error was recorded; otherwise 400 with `success: false`, "Validation failed" and the error list |
| Validators.ErrorList | server/middleware/validators.js:14-17 | one `{field, message}` entry per recorded error, in order, carrying its path and message |
| Validators.RunItems | server/middleware/validators.js:25-30 | a chain records at most one error per validator, each under the chain's location and field; an absent value stays absent |
| ValidatorProperties.PostTitleRuleRun | server/middleware/validators.js:25-30 | title is trimmed; "Title is required" when empty, and the length message unless 3..100 characters, so an empty title records both |
| ValidatorProperties.PostContentRuleRun | server/middleware/validators.js:32-37 | content is trimmed; required, then at least 10 characters |
| ValidatorProperties.PostCategoryRuleRun | server/middleware/validators.js:39-47 | category is not trimmed; required, then the ObjectId check with "Invalid category ID" |
| ValidatorProperties.ExcerptRuleRun | server/middleware/validators.js:49-53 | an absent excerpt is skipped; a present one is trimmed and at most 200 characters |
| ValidatorProperties.TagsRuleRun | server/middleware/validators.js:55-58 | an absent `tags` is skipped; a present one must be an array; the body is unchanged |
| ValidatorProperties.ImageRuleRun | server/middleware/validators.js:60-64 | an absent featuredImage is skipped; a present one is trimmed and must be a URL |
| ValidatorProperties.PublishedRuleRun | server/middleware/validators.js:66-69 | an absent isPublished is skipped; a present one must be a boolean; the body is unchanged |
| ValidatorProperties.OptionalPostRules | server/middleware/validators.js:49-69 | the four optional rules together: excerpt and featuredImage trimmed, and their errors in rule order |
| ValidatorProperties.ValidatePostRun | server/middleware/validators.js:24-70 | validatePost's rules leave the title, content, excerpt and featuredImage trimmed and record title, content, category and optional-field errors, in that order |
| ValidatorProperties.ValidatePostAccepts | server/middleware/validators.js:24-72 | validatePost records no error if and only if every field meets its bounds |
| ValidatorProperties.ValidatePostOptionalAbsent | server/middleware/validators.js:49-69 | without the optional fields, every error names title, content or category |
| ValidatorProperties.ShortTitleRejected | server/middleware/validators.js:29-30 | a title under three characters after trimming records the length message |
| ValidatorProperties.UpdateTitleRuleRun | server/middleware/validators.js:76-80 | an absent title is skipped; a present one is trimmed and 3..100 characters |
| ValidatorProperties.UpdateContentRuleRun | server/middleware/validators.js:82-86 | an absent content is skipped; a present one is trimmed and at least 10 characters |
| ValidatorProperties.UpdateCategoryRuleRun | server/middleware/validators.js:88-95 | an absent category is skipped; a present one must be an ObjectId |
| ValidatorProperties.ValidatePostUpdateRun | server/middleware/validators.js:75-118 | validatePostUpdate's rules trim like validatePost's and record only errors of fields that are present, in rule order |
| ValidatorProperties.ValidatePostUpdateAccepts | server/middleware/validators.js:75-120 | validatePostUpdate records no error if and only if every present field meets its bounds |
| ValidatorProperties.ValidatePostUpdateNoFields | server/middleware/validators.js:75-120 | a body without post fields passes unchanged |
| ValidatorProperties.NameRuleRun | server/middleware/validators.js:124-129 | name is trimmed; required, then 2..50 characters |
| ValidatorProperties.DescriptionRuleRun | server/middleware/validators.js:131-135 | an absent description is skipped; a present one is trimmed and at most 200 characters |
| ValidatorProperties.ValidateCategoryRun | server/middleware/validators.js:123-136 | validateCategory's sanitized body and its errors, in rule order |
| ValidatorProperties.ValidateCategoryAccepts | server/middleware/validators.js:123-138 | no error if and only if the trimmed name has 2..50 characters and a present description at most 200 |
| ValidatorProperties.ValidateCategoryLeavesStringName | server/middleware/validators.js:124-135 | after validateCategory passes, `name` is the trimmed string, a present description is trimmed, and an absent one stays absent |
| ValidatorProperties.CommentContentRuleRun | server/middleware/validators.js:142-147 | comment content is trimmed; required, then 1..500 characters |
| ValidatorProperties.ValidateCommentRun | server/middleware/validators.js:141-148 | validateComment's sanitized body and its two possible errors |
| ValidatorProperties.ValidateCommentAccepts | server/middleware/validators.js:141-150 | no error if and only if the trimmed content has 1..500 characters |
| ValidatorProperties.ValidateObjectIdRun | server/middleware/validators.js:153-161 | the `id` route parameter records one "Invalid ID format" error unless it is an ObjectId; the body is untouched |
| ValidatorProperties.TrimField | server/middleware/validators.js:26 | `trim` rewrites only its own field and never adds or removes a key |
| Text.TrimShape | server/middleware/validators.js:26 | `trim` never lengthens and leaves no whitespace at either end |
| Text.TrimIsPaddedInfix | server/middleware/validators.js:26 | the input is whitespace, then the trimmed string, then whitespace |
| Text.TrimIdempotent | server/middleware/validators.js:26 | trimming twice equals trimming once |
| Text.TrimAllSpaces | server/middleware/validators.js:26-27 | an all-whitespace value trims to the empty string, which `notEmpty` rejects |
| Text.Lower | server/controllers/postController.js:149-150 | case folding keeps the length and folds exactly A..Z |
| IdGate.SelectId | server/middleware/validateObjectId.js:5 | `id` when non-empty, else `postId` when non-empty, else none |
| IdGate.CheckId | server/middleware/validateObjectId.js:4-10 | 400 "Invalid ID" exactly when a selected id is not an ObjectId; otherwise `next` |
| IdGate.NoIdPasses | server/middleware/validateObjectId.js:6-9 | a request with neither parameter goes on |
| IdGate.ValidIdPasses | server/middleware/validateObjectId.js:6-9 | a valid selected id goes on |
| IdGate.InvalidIdRejected | server/middleware/validateObjectId.js:5-7 | an invalid `id` is rejected whatever `postId` holds |
| IdGate.InvalidPostIdRejected | server/middleware/validateObjectId.js:5-7 | without a usable `id`, an invalid `postId` is rejected |
| PostController.FindPost | server/controllers/postController.js:39-41 | the first post in natural order whose id or slug is the key, or none when no post has it |
| PostController.FindById | server/controllers/postController.js:85 | a post with that id, or none when no post has it |
| PostController.FindByIdUnique | server/controllers/postController.js:85 | with unique ids, the lookup finds the one post with the id |
| PostController.SameDocumentBySlugOrId | server/controllers/postController.js:39-41 | with unique ids and slugs and no slug equal to an id, a post's id and its slug fetch the same post |
| PostController.ViewPost | server/controllers/postController.js:36-55 | 404 "Post not found" and nothing changed if and only if no post matches; otherwise 200 with that post, its view count raised by exactly one and every other post unchanged |
| PostController.ViewPostAsWritten | server/controllers/postController.js:36-55 | as written: 500 and nothing changed if and only if the key is not an ObjectId, because the `_id` branch of `$or` casts it; otherwise `ViewPost` |
| PostController.SlugLookupFailsAsWritten | server/controllers/postController.js:39-41 | a stored post fetched by a slug that is not an ObjectId: 500 as written, 200 from `ViewPost` |
| PostController.NewPost | server/controllers/postController.js:60-74 | the stored post has the new id, no views and no comments, the requester as author, the derived slug, and exactly the body's title, content, category, tags, excerpt and featuredImage; `isPublished` is not copied |
| PostController.CreatePostResult | server/controllers/postController.js:58-80 | 400 "Please provide all required fields" and nothing stored if and only if title, content or category is falsy; then 500 and nothing stored if and only if there is no user to read the author from; otherwise 201 and exactly one post appended |
| PostController.CreatedPostOwnedByRequester | server/controllers/postController.js:66-76 | a created post belongs to the requester, has the new id and no `isPublished` |
| PostController.Assigned | server/controllers/postController.js:94-95 | every schema path in the body is overwritten, `viewCount` and `comments` included, with their cast values; paths the body lacks are kept; no post if and only if `save` rejects the body's counter or comments |
| PostController.OwnerCheck | server/controllers/postController.js:85-92 | 404 if and only if the id is absent; 500 for a post without an author or a request without a user; 403 for anyone but the author; go ahead if and only if the post exists and the requester is its author |
| PostController.UpdatePostResult | server/controllers/postController.js:83-101 | 404 if and only if no such id, 403 for others, nothing changed unless 200; 200 if and only if the owner check passes and `save` accepts the assigned post, which then replaces the stored one and is returned; 500 when `save` rejects it |
| PostController.UpdateByOtherForbidden | server/controllers/postController.js:90-92 | a non-author gets 403 and the collection stays as it was |
| PostController.UpdateByAuthor | server/controllers/postController.js:94-97 | the author's update changes exactly the body's schema paths of that post, the view counter and comments included, and no other post; a counter or comment list `save` rejects gives 500 and changes nothing |
| PostController.AuthorCanResetViewCount | server/controllers/postController.js:94-95 | an author's body `{viewCount: 0}` sets the view counter to 0 |
| PostController.DeletePostResult | server/controllers/postController.js:104-121 | 404, 403 and 200 as for update; on 200 exactly that position is removed and "Post deleted successfully" is sent |
| PostController.DeleteRemovesOnlyThat | server/controllers/postController.js:115-117 | after a delete, a post is stored if and only if it was stored before and has another id, and one post fewer is stored |
| PostController.AddCommentResult | server/controllers/postController.js:124-139 | 404 if and only if no such id; 400 if and only if the post exists and `content` is falsy; then 500 if and only if there is no user; otherwise the comment appended to that post alone and the full list returned |
| PostController.MissingPostBeforeMissingContent | server/controllers/postController.js:126-131 | a missing post is reported before missing content |
| PostController.ChecksBeforeUser | server/controllers/postController.js:58-133 | without a user, a missing required field still answers 400 and a missing post 404, as the handlers read `req.user._id` only after those checks |
| PostController.CategoryFilter | server/controllers/postController.js:11-14 | a filter exactly when a non-empty name is given and some category has it; the filter is that category's id |
| PostController.Matching | server/controllers/postController.js:16 | the counted posts are exactly the stored posts in the filter's category |
| PostController.NewestFirst | server/controllers/postController.js:20 | a permutation ordered by creation time, newest first |
| PostController.CeilDiv | server/controllers/postController.js:27 | the smallest page count whose pages hold every post |
| PostController.ListPosts | server/controllers/postController.js:6-29 | 200 with the window after `(page - 1) * limit` of the newest-first matching posts, the page number, the page count and the total |
| PostController.ListPostsPage | server/controllers/postController.js:17-22 | a page holds at most `limit` posts, each stored and in the category, newest first |
| PostController.ListPostsDefaults | server/controllers/postController.js:8 | without page and limit, page 1 with the first ten posts |
| PostController.UnknownCategoryListsAll | server/controllers/postController.js:11-16 | a category name nobody has filters nothing |
| PostController.SecondOfTwoPages | server/controllers/postController.js:21-28 | fifteen posts at limit 10 make two pages, and the second holds the last five |
| PostController.EveryPostOnItsPage | server/controllers/postController.js:21-27 | post `(page - 1) * limit + slot` of the ordering is item `slot` of page `page`, and that page is within the page count |
| PostController.SearchPosts | server/controllers/postController.js:142-160 | 400 "Search query is required" if and only if `q` is missing or empty; otherwise the posts whose title or content match, in natural order |
| PostController.SearchLiteral | server/controllers/postController.js:147-152 | for a query without metacharacters, a post is found if and only if its title or content contains it, ignoring case |
| PostController.PostStore.GetPost | server/controllers/postController.js:36-55 | the in-place getPost equals `ViewPost` and keeps ids unique |
| PostController.PostStore.CreatePost | server/controllers/postController.js:58-80 | the in-place createPost equals `CreatePostResult` and keeps ids unique |
| PostController.PostStore.UpdatePost | server/controllers/postController.js:83-101 | the in-place updatePost equals `UpdatePostResult` and keeps ids unique |
| PostController.PostStore.DeletePost | server/controllers/postController.js:104-121 | the in-place deletePost equals `DeletePostResult` and keeps ids unique |
| PostController.PostStore.AddComment | server/controllers/postController.js:124-139 | the in-place addComment equals `AddCommentResult` and keeps ids unique |
| CategoryController.NameLeTotal | server/controllers/categoryController.js:7 | any two names are ordered one way or the other |
| CategoryController.NameLeTransitive | server/controllers/categoryController.js:7 | the name order is transitive |
| CategoryController.NameLeAntisymmetric | server/controllers/categoryController.js:7 | two names ordered both ways are equal |
| CategoryController.SortedByName | server/controllers/categoryController.js:7 | the categories, permuted into ascending name order |
| CategoryController.ListCategories | server/controllers/categoryController.js:5-18 | 200 with `success`, every category in ascending name order, and the count |
| CategoryController.ListCategoriesStrict | server/controllers/categoryController.js:7 | with unique names the listing is strictly ascending |
| CategoryController.CreateCategoryResult | server/controllers/categoryController.js:21-44 | 409 "Category already exists" and nothing stored if and only if the name is taken; otherwise 201 and exactly the new category appended and returned |
| CategoryController.CreateKeepsNamesUnique | server/controllers/categoryController.js:26-34 | one createCategory keeps names unique |
| CategoryController.ReplayKeepsNamesUnique | server/controllers/categoryController.js:26-34 | any sequence of createCategory calls keeps names unique |
| CategoryController.ReplayStoresEveryName | server/controllers/categoryController.js:26-34 | after a sequence of createCategory calls, every requested name is stored |
| CategoryController.ReplayKeepsNames | server/controllers/categoryController.js:21-44 | a stored name is never lost |
| CategoryController.CategoryStore.CreateCategory | server/controllers/categoryController.js:21-44 | the in-place createCategory equals `CreateCategoryResult` and keeps names and ids unique |
| Routes.Router.Register | server/routes/posts.js:26-34 | registering appends exactly one route at the end |
| Routes.BuildPostRouter | server/routes/posts.js:26-34 | the posts router holds its seven routes in registration order, with their chains |
| Routes.BuildCategoryRouter | server/routes/categories.js:8-11 | the categories router holds its two routes in order |
| Routes.Mounted | server/server.js:39-40 | mounting keeps the order and prefixes every pattern |
| Routes.AppRoutesTable | server/server.js:39-40 | the application's nine routes, written out with their mounted patterns |
| Routes.Bind | server/routes/posts.js:28-34 | `req.params` has exactly the pattern's parameter names, each bound to the path piece it matched |
| Routes.FirstMatch | server/server.js:39-40 | the first route in registration order whose method and path match, or none |
| Routes.RunStep | server/routes/posts.js:31-34 | `protect` goes on if and only if authentication gives a user, which it attaches; a validator array goes on if and only if no error was recorded, with the sanitized body |
| Routes.RunChain | server/routes/posts.js:31-34 | the steps run in order until one answers; params, query and credential are kept, and a chain holding `protect` only goes on with a user |
| Routes.RunChainCons | server/routes/posts.js:31-34 | a chain is its first step, then the rest on what it passed on |
| Routes.RunMiddleware | server/routes/posts.js:31-34 | the in-place loop returns the answering step's reply, or leaves the request exactly as `RunChain` passes it on |
| Routes.Apply | server/routes/posts.js:26-34 | a handler that reads the user changes nothing without one and answers 400, 404 or 500; only createCategory touches categories; the reads change nothing |
| Routes.Serve | server/server.js:39-40 | 404 when no route matches; otherwise the first matching route's chain answer, or its controller on what the chain passed on |
| Routes.ServeApp | server/server.js:39-41 | a request to no post or category route answers 404 and changes nothing |
| Routes.App.constructor | server/server.js:39-40 | the application starts with the mounted tables and empty collections |
| Routes.App.Handle | server/server.js:39-40 | one request handled in place equals `Serve` on the old state, and the stores stay valid |
| Routes.App.Dispatch | server/routes/posts.js:26-34 | the controller run in place on the stores equals `Apply` |
| Routes.DispatchListPosts | server/routes/posts.js:26 | `GET /api/posts` reaches getAllPosts with no middleware |
| Routes.DispatchSearch | server/routes/posts.js:27 | `GET /api/posts/search` reaches searchPosts, ahead of `/:idOrSlug` |
| Routes.DispatchIdOrSlug | server/routes/posts.js:28 | `GET /api/posts/<key>` reaches getPost with `idOrSlug` bound, for any key other than "search" |
| Routes.DispatchCreatePost | server/routes/posts.js:31 | `POST /api/posts` runs protect and validatePost, then createPost |
| Routes.DispatchUpdatePost | server/routes/posts.js:32 | `PUT /api/posts/:id` runs protect, validateObjectId and validatePostUpdate, then updatePost |
| Routes.DispatchDeletePost | server/routes/posts.js:33 | `DELETE /api/posts/:id` runs protect and validateObjectId, then deletePost |
| Routes.DispatchAddComment | server/routes/posts.js:34 | `POST /api/posts/:id/comments` runs protect, validateObjectId and validateComment, then addComment |
| Routes.DispatchCategories | server/routes/categories.js:8 | `GET /api/categories` reaches getCategories with no middleware |
| Routes.DispatchCreateCategory | server/routes/categories.js:11 | `POST /api/categories` runs validateCategory, then createCategory |
| Routes.PostReadsUnguarded | server/routes/posts.js:25-28 | the three GET routes of the posts router run no middleware |
| Routes.PostWritesProtectFirst | server/routes/posts.js:30-34 | every writing route of the posts router runs `protect` first |
| Routes.CategoryRoutesOpen | server/routes/categories.js:8-11 | neither category route authenticates |
| Routes.UserHandlersReachedWithUser | server/routes/posts.js:31-34 | whenever a controller that reads the user is reached, there is one |
| Routes.ServeListPosts | server/routes/posts.js:26 | `GET /api/posts` answers getAllPosts on the query, for anyone |
| Routes.ServeSearch | server/routes/posts.js:27 | `GET /api/posts/search` answers searchPosts on `q`, for anyone |
| Routes.ServeGetPost | server/routes/posts.js:28 | `GET /api/posts/<key>` answers getPost on the key, for anyone |
| Routes.ServeCreatePost | server/routes/posts.js:31 | 401 without a user, then validatePost's 400, else createPost as that user on the sanitized body |
| Routes.ServeUpdatePost | server/routes/posts.js:32 | 401, then the malformed-id 400, then validatePostUpdate's 400, else updatePost on the sanitized body; no store change before that |
| Routes.ServeDeletePost | server/routes/posts.js:33 | 401, then the malformed-id 400, else deletePost; the body is never validated |
| Routes.ServeAddComment | server/routes/posts.js:34 | 401, then the malformed-id 400, then validateComment's 400, else addComment on the sanitized body |
| Routes.ServeCategories | server/routes/categories.js:8 | `GET /api/categories` answers getCategories, for anyone |
| Routes.ApplyCreateCategory | server/controllers/categoryController.js:23-34 | after validateCategory passes, createCategory gets the trimmed name and the trimmed description when one was sent |
| Routes.ServeCreateCategory | server/routes/categories.js:11 | validateCategory's 400 with nothing changed, else createCategory with the trimmed name and description; never authentication |

## Left out

- The body of `protect` is not part of this model, because `middleware/authMiddleware.js` is not among the sources. Its verdict is the abstract `authenticate`. A rejection is modelled as status 401 with an opaque payload, and the user it attaches as an id string.
- `routes/auth.js`, the client `App.jsx` and the server bootstrap are not modelled: database connection, CORS, JSON parsing, static files, the root test route, the error handler and the process exits. They are wiring and I/O.
- The Post and Category models are not part of this model. Slug generation is the abstract `slugOf`, applied to the title when a post is created. The casts of `viewCount` and `comments` at save time are the abstract `castCount` and `castComments`. The casts of the other paths, schema defaults, the unique index on category names and `required` checks at save time are not modelled.
- The 500 catch blocks are modelled where the controller itself throws: a missing user, a post without an author, a category name that is not a string, and a `viewCount` or `comments` value `save` rejects. The model takes an id cast to succeed exactly when ObjectId validity holds; the `findById` calls of update, delete and addComment sit behind the id check. Database failures are left out.
- `populate` of authors, categories and comment users is left out because it only shapes the JSON output.
- PostController.UpdatePostResult: `Object.assign` copies only the schema paths (`AssignablePaths`, `viewCount` and `comments`). Other body keys, and keys that shadow Mongoose document methods, are not modelled. Like the code, the model lets an author overwrite `author` and `slug`.
- The query string arrives already parsed. `page` and `limit` are integers of at least 1 (`WellFormedQuery`). Zero, negative or non-numeric values, and arrays for repeated keys, are left out because they rely on JavaScript coercion to `NaN`.
- Sort ties keep insertion order; MongoDB does not specify an order for ties.
- The name order of `getCategories` is code point by code point. Collations are left out.
- Regex search is literal substring matching, with ASCII case folding, when the query has no metacharacter. Any other pattern goes to the abstract `regexTest`, because PCRE is not modelled. Unicode case folding is not modelled either.
- `isLength` counts the characters of the string. validator.js also leaves the variation selectors U+FE0E and U+FE0F out of the count, which the model does not.
- How the standard validators turn an array into a string is the abstract `arrayText`. How they treat an array value element by element is not modelled.
- Path handling is left out: URL splitting, percent-decoding, trailing slashes, `HEAD` requests and other methods. A request arrives as its method and path pieces.
- Concurrency is left out. The in-place methods run one request at a time, while the server can interleave the database calls of concurrent requests.
- `createPost` ignores `isPublished` from the body, as the code does.
- A createCategory call with a non-string name answers 500 in the model. The code first runs `Category.findOne({ name })` (categoryController.js:26), which can find a category for such a value and answer 409, and only then `Category.create`; neither cast is modelled. Behind validateCategory the name is always the trimmed string, so this case is never reached through the route.
- Json.Value: a number is an integer. Fractional and exponent numbers are floating point and are not modelled, nor is the text `trim` makes of them. An object's text is "[object Object]".
- PostController.Assigned: the id and `createdAt` are kept whatever the body holds, because the Post model that decides whether `createdAt` is assignable is not part of this model; `updatedAt` is not modelled.

## Findings

| source | as written | input that shows it | evidently intended | confidence | as-written member | corrected member |
|---|---|---|---|---|---|---|
| server/controllers/postController.js:39-41 | `findOne({ $or: [{ _id: idOrSlug }, { slug: idOrSlug }] })` casts the key to an ObjectId for the `_id` branch, so a key that is not an ObjectId throws and answers 500 | `GET /api/posts/hello-world` for a stored post with slug `hello-world` | a post is found by its id or by its slug | not executed | PostController.ViewPostAsWritten, PostController.SlugLookupFailsAsWritten | PostController.ViewPost, PostController.SameDocumentBySlugOrId |
