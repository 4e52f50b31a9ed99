// The express-validator rule chains of server/middleware/validators.js and the `validate` gate.
// A rule is one `body(field)` or `param(field)` chain: optional or not, then its sanitizers and
// validators in order. Chains do not stop at the first failure, so one field can record several
// errors.

module Validators {
  import opened Json
  import opened Text
  import opened Library
  import opened Http

  datatype Location = InBody | InParams

  datatype Check =
    | NotEmpty
    | Length(min: nat, max: Option<nat>)
    | IsArray
    | IsURL
    | IsBoolean
    | IsObjectId

  /** A chain item: the `trim` sanitizer, or a validator with the message it records. */
  datatype Item = TrimValue | Require(check: Check, message: string)

  datatype Rule = Rule(location: Location, field: string, optional: bool, items: seq<Item>)

  /** What express-validator records for a failed validator. */
  datatype ValidationError = ValidationError(location: Location, path: string, msg: string)

  /** The request after a list of rules ran: the sanitized body and the errors, in rule order. */
  datatype Checked = Checked(body: Body, errors: seq<ValidationError>)

  predicate Holds(lib: Lib, check: Check, v: Option<Value>)
  {
    var t := ToText(lib, v);
    match check
    case NotEmpty => t != ""
    case Length(min, max) => min <= |t| && (max.None? || |t| <= max.value)
    case IsArray => lib.isArray(v)
    case IsURL => lib.isURL(t)
    case IsBoolean => lib.isBoolean(t)
    case IsObjectId => lib.isObjectId(v)
  }

  /** Runs a chain's items on the field's current value; returns the final value and the errors. */
  function RunItems(lib: Lib, loc: Location, field: string, items: seq<Item>, v: Option<Value>)
    : (r: (Option<Value>, seq<ValidationError>))
    ensures |r.1| <= |items|
    ensures forall e :: e in r.1 ==> e.location == loc && e.path == field
    ensures v.None? ==> r.0.None?
  {
    if items == [] then (v, [])
    else
      match items[0]
      case TrimValue =>
        var v' := if v.Some? then Some(Str(Trim(ToText(lib, v)))) else None;
        RunItems(lib, loc, field, items[1..], v')
      case Require(check, message) =>
        var rest := RunItems(lib, loc, field, items[1..], v);
        var here := if Holds(lib, check, v) then [] else [ValidationError(loc, field, message)];
        (rest.0, here + rest.1)
  }

  /** One rule on `body` (or on the route params); an optional rule skips an absent field. */
  function RunRule(lib: Lib, rule: Rule, body: Body, params: map<string, string>): (r: Checked)
  {
    var source := if rule.location == InBody then Get(body, rule.field)
                  else if rule.field in params then Some(Str(params[rule.field])) else None;
    if rule.optional && source.None? then Checked(body, [])
    else
      var (v, errors) := RunItems(lib, rule.location, rule.field, rule.items, source);
      var body' := if rule.location == InBody && v.Some? then body[rule.field := v.value] else body;
      Checked(body', errors)
  }

  /** The rules of one validator array, in order; each sees the body the earlier ones sanitized. */
  function RunRules(lib: Lib, rules: seq<Rule>, body: Body, params: map<string, string>): (r: Checked)
    decreases |rules|
  {
    if rules == [] then Checked(body, [])
    else
      var first := RunRule(lib, rules[0], body, params);
      var rest := RunRules(lib, rules[1..], first.body, params);
      Checked(rest.body, first.errors + rest.errors)
  }

  /** The response entries: each recorded error's path and message, in order. */
  function ErrorList(errors: seq<ValidationError>): (r: seq<FieldError>)
    ensures |r| == |errors|
    ensures forall i :: 0 <= i < |errors| ==> r[i].field == errors[i].path && r[i].message == errors[i].msg
  {
    if errors == [] then []
    else [FieldError(errors[0].path, errors[0].msg)] + ErrorList(errors[1..])
  }

  /** The `validate` middleware's decision: answer, or call `next`. */
  datatype Gate = Next | Respond(reply: Reply)

  function Validate(errors: seq<ValidationError>): (g: Gate)
    ensures g.Next? <==> errors == []
    ensures g.Respond? ==> g.reply.status == 400
    ensures g.Respond? ==>
      && g.reply.payload.ValidationFailed? && !g.reply.payload.success
      && g.reply.payload.message == "Validation failed"
      && g.reply.payload.errors == ErrorList(errors)
  {
    if errors == [] then Next
    else Respond(Reply(400, ValidationFailed(false, "Validation failed", ErrorList(errors))))
  }

  // ---- The rule chains of validators.js ----

  const TitleRequired := "Title is required"
  const TitleLength := "Title must be between 3 and 100 characters"
  const ContentRequired := "Content is required"
  const ContentLength := "Content must be at least 10 characters"
  const CategoryRequired := "Category is required"
  const InvalidCategory := "Invalid category ID"
  const ExcerptLength := "Excerpt cannot exceed 200 characters"
  const TagsArray := "Tags must be an array"
  const ImageURL := "Featured image must be a valid URL"
  const PublishedBoolean := "isPublished must be a boolean"
  const NameRequired := "Category name is required"
  const NameLength := "Category name must be between 2 and 50 characters"
  const DescriptionLength := "Description cannot exceed 200 characters"
  const CommentRequired := "Comment content is required"
  const CommentLength := "Comment must be between 1 and 500 characters"
  const InvalidIdFormat := "Invalid ID format"

  const PostTitleRule :=
    Rule(InBody, "title", false, [TrimValue, Require(NotEmpty, TitleRequired), Require(Length(3, Some(100)), TitleLength)])
  const PostContentRule :=
    Rule(InBody, "content", false, [TrimValue, Require(NotEmpty, ContentRequired), Require(Length(10, None), ContentLength)])
  const PostCategoryRule :=
    Rule(InBody, "category", false, [Require(NotEmpty, CategoryRequired), Require(IsObjectId, InvalidCategory)])
  const ExcerptRule := Rule(InBody, "excerpt", true, [TrimValue, Require(Length(0, Some(200)), ExcerptLength)])
  const TagsRule := Rule(InBody, "tags", true, [Require(IsArray, TagsArray)])
  const ImageRule := Rule(InBody, "featuredImage", true, [TrimValue, Require(IsURL, ImageURL)])
  const PublishedRule := Rule(InBody, "isPublished", true, [Require(IsBoolean, PublishedBoolean)])

  /** validatePost (validators.js:24-72), without its final `validate`. */
  const PostRules: seq<Rule> :=
    [PostTitleRule, PostContentRule, PostCategoryRule, ExcerptRule, TagsRule, ImageRule, PublishedRule]

  const UpdateTitleRule := Rule(InBody, "title", true, [TrimValue, Require(Length(3, Some(100)), TitleLength)])
  const UpdateContentRule := Rule(InBody, "content", true, [TrimValue, Require(Length(10, None), ContentLength)])
  const UpdateCategoryRule := Rule(InBody, "category", true, [Require(IsObjectId, InvalidCategory)])

  /** validatePostUpdate (validators.js:75-120): every field optional. */
  const PostUpdateRules: seq<Rule> :=
    [UpdateTitleRule, UpdateContentRule, UpdateCategoryRule, ExcerptRule, TagsRule, ImageRule, PublishedRule]

  const NameRule :=
    Rule(InBody, "name", false, [TrimValue, Require(NotEmpty, NameRequired), Require(Length(2, Some(50)), NameLength)])
  const DescriptionRule :=
    Rule(InBody, "description", true, [TrimValue, Require(Length(0, Some(200)), DescriptionLength)])

  /** validateCategory (validators.js:123-138). */
  const CategoryRules: seq<Rule> := [NameRule, DescriptionRule]

  const CommentContentRule :=
    Rule(InBody, "content", false, [TrimValue, Require(NotEmpty, CommentRequired), Require(Length(1, Some(500)), CommentLength)])

  /** validateComment (validators.js:141-150). */
  const CommentRules: seq<Rule> := [CommentContentRule]

  const IdParamRule := Rule(InParams, "id", false, [Require(IsObjectId, InvalidIdFormat)])

  /** validateObjectId (validators.js:153-163). */
  const ObjectIdRules: seq<Rule> := [IdParamRule]
}
