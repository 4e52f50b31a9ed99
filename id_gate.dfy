// The standalone id-check middleware of server/middleware/validateObjectId.js.

module IdGate {
  import opened Json
  import opened Library
  import opened Http
  import opened Validators

  const InvalidId := "Invalid ID"

  /** `req.params.id || req.params.postId`: route parameters are strings, and `""` is falsy. */
  function SelectId(params: map<string, string>): (r: Option<string>)
    ensures r.Some? ==> r.value != ""
    ensures "id" in params && params["id"] != "" ==> r == Some(params["id"])
    ensures !("id" in params && params["id"] != "") && "postId" in params && params["postId"] != "" ==>
      r == Some(params["postId"])
    ensures r.None? <==>
      !("id" in params && params["id"] != "") && !("postId" in params && params["postId"] != "")
  {
    if "id" in params && params["id"] != "" then Some(params["id"])
    else if "postId" in params && params["postId"] != "" then Some(params["postId"])
    else None
  }

  /** The middleware: 400 `{message: 'Invalid ID'}` for a present id that is not an ObjectId, else `next`. */
  function CheckId(lib: Lib, params: map<string, string>): (g: Gate)
    ensures g.Respond? <==> SelectId(params).Some? && !lib.isObjectId(Some(Str(SelectId(params).value)))
    ensures g.Respond? ==> g.reply == Reply(400, Message(InvalidId))
  {
    var id := SelectId(params);
    if id.Some? && !lib.isObjectId(Some(Str(id.value))) then Respond(Reply(400, Message(InvalidId)))
    else Next
  }

  /** No id and no postId: the request goes on. */
  lemma NoIdPasses(lib: Lib, params: map<string, string>)
    requires "id" !in params && "postId" !in params
    ensures CheckId(lib, params) == Next
  {
  }

  /** A present id that is valid: the request goes on and nothing is sent. */
  lemma ValidIdPasses(lib: Lib, params: map<string, string>)
    requires SelectId(params).Some? && lib.isObjectId(Some(Str(SelectId(params).value)))
    ensures CheckId(lib, params) == Next
  {
  }

  /** `id` wins over `postId`: an invalid `id` is rejected whatever `postId` holds. */
  lemma InvalidIdRejected(lib: Lib, params: map<string, string>)
    requires "id" in params && params["id"] != "" && !lib.isObjectId(Some(Str(params["id"])))
    ensures CheckId(lib, params) == Respond(Reply(400, Message(InvalidId)))
  {
  }

  /** Without a usable `id`, an invalid `postId` is rejected. */
  lemma InvalidPostIdRejected(lib: Lib, params: map<string, string>)
    requires !("id" in params && params["id"] != "")
    requires "postId" in params && params["postId"] != "" && !lib.isObjectId(Some(Str(params["postId"])))
    ensures CheckId(lib, params) == Respond(Reply(400, Message(InvalidId)))
  {
  }
}
