// The responses the handlers send: a status code and the JSON envelope.

module Http {
  import opened Json
  import opened Documents

  /** One entry of a 400 validation response. */
  datatype FieldError = FieldError(field: string, message: string)

  datatype Payload =
    | Message(text: string)
    | ValidationFailed(success: bool, message: string, errors: seq<FieldError>)
    | Outcome(success: bool, message: string)
    | PostDoc(post: Post)
    | PostPage(posts: seq<Post>, currentPage: int, totalPages: int, totalPosts: int)
    | PostList(posts: seq<Post>)
    | CommentList(message: string, comments: seq<Comment>)
    | CategoryList(success: bool, categories: seq<Category>, count: int)
    | CategoryCreated(success: bool, message: string, category: Category)
    /** Whatever the authentication middleware sends when it turns a request away. */
    | AuthRejected
    /** The 500 a controller's catch block sends for an unexpected exception. */
    | ServerError
    /** Express's final handler when no route matches. */
    | NoRoute

  datatype Reply = Reply(status: int, payload: Payload)

  /**
   * The query-string parameters the handlers read, already parsed: `page` and `limit` of the post
   * listing, its `category` name, and the search text `q`.
   */
  datatype Query = Query(page: Option<int>, limit: Option<int>, category: Option<string>, q: Option<string>)
}
