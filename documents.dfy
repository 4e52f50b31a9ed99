// The stored documents: posts with their embedded comments, and categories.

module Documents {
  import opened Json

  /** A comment embedded in a post. */
  datatype Comment = Comment(user: string, content: Value, createdAt: int)

  /**
   * A post document. `doc` holds the schema paths stored as they arrive (title, content, slug,
   * category, author, tags, excerpt, featuredImage, isPublished). The id, the view counter, the
   * comment list and the creation time are kept apart because they have types of their own; the
   * counter and the comments are schema paths too, which `Object.assign` in updatePost can
   * overwrite.
   */
  datatype Post = Post(id: string, doc: Body, viewCount: int, comments: seq<Comment>, createdAt: int)

  datatype Category = Category(id: string, name: string, description: Option<string>)

  /** The schema paths of `doc`, which `Object.assign` overwrites with the body's raw values. */
  const AssignablePaths: set<string> :=
    {"title", "content", "slug", "category", "author", "tags", "excerpt", "featuredImage", "isPublished"}

  function AuthorOf(p: Post): Option<string>
  {
    StrOf(Get(p.doc, "author"))
  }

  predicate IsAuthor(p: Post, user: string)
  {
    AuthorOf(p) == Some(user)
  }

  predicate HasSlug(p: Post, key: string)
  {
    Get(p.doc, "slug") == Some(Str(key))
  }

  ghost predicate UniqueIds(posts: seq<Post>)
  {
    forall i, j :: 0 <= i < j < |posts| ==> posts[i].id != posts[j].id
  }

  ghost predicate UniqueNames(categories: seq<Category>)
  {
    forall i, j :: 0 <= i < j < |categories| ==> categories[i].name != categories[j].name
  }

  ghost predicate UniqueCategoryIds(categories: seq<Category>)
  {
    forall i, j :: 0 <= i < j < |categories| ==> categories[i].id != categories[j].id
  }
}
