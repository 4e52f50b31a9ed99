// The third-party predicates the core calls, kept abstract: each is a field of `Lib`, a total
// function about which the model assumes nothing.

module Library {
  import opened Json
  import opened Documents

  datatype Lib = Lib(
    /** `mongoose.Types.ObjectId.isValid`; `None` stands for `undefined`. */
    isObjectId: Option<Value> -> bool,
    /** validator.js `isURL` on the string form of a value. */
    isURL: string -> bool,
    /** validator.js `isBoolean` on the string form of a value. */
    isBoolean: string -> bool,
    /** express-validator `isArray` on the raw value. */
    isArray: Option<Value> -> bool,
    /** The string form express-validator gives an array value. */
    arrayText: seq<Value> -> string,
    /** The slug the Post model derives from a title. */
    slugOf: string -> string,
    /** The `protect` middleware: the user a request credential resolves to, if any. */
    authenticate: Option<string> -> Option<string>,
    /** MongoDB `$regex` with option `i`, for patterns that are not plain text. */
    regexTest: (string, string) -> bool,
    /** The Post schema's cast of a value to the Number path `viewCount`; `None` when `save` rejects it. */
    castCount: Value -> Option<int>,
    /** The Post schema's cast of a value to the `comments` array; `None` when `save` rejects it. */
    castComments: Value -> Option<seq<Comment>>)

  /** The string form express-validator's standard validators and sanitizers work on. */
  function ToText(lib: Lib, v: Option<Value>): (t: string)
    ensures v == None || v == Some(Null) ==> t == ""
    ensures v.Some? && v.value.Str? ==> t == v.value.s
    ensures v.Some? && v.value.Obj? ==> t == "[object Object]"
  {
    match v
    case None => ""
    case Some(Str(s)) => s
    case Some(Num(n)) => Decimal(n)
    case Some(Bool(b)) => if b then "true" else "false"
    case Some(List(items)) => lib.arrayText(items)
    case Some(Obj(_)) => "[object Object]"
    case Some(Null) => ""
  }
}
