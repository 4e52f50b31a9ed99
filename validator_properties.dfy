// What each rule chain of validators.js accepts, which errors it records and how it rewrites
// the body, stated field by field and proved against the chain interpreter.

module ValidatorProperties {
  import opened Json
  import opened Text
  import opened Library
  import opened Validators

  /** The string form of a body field (`""` when absent). */
  function TextOf(lib: Lib, body: Body, f: string): string
  {
    ToText(lib, Get(body, f))
  }

  /** The field's string form after the `trim` sanitizer. */
  function Trimmed(lib: Lib, body: Body, f: string): string
  {
    Trim(TextOf(lib, body, f))
  }

  /** The body with field `f`, when present, replaced by its trimmed string form. */
  function TrimField(lib: Lib, body: Body, f: string): (r: Body)
    ensures r.Keys == body.Keys
    ensures forall g :: g != f ==> Get(r, g) == Get(body, g)
  {
    if f in body then body[f := Str(Trim(ToText(lib, Some(body[f]))))] else body
  }

  /** One recorded body error when `ok` fails. */
  function Expect(ok: bool, f: string, msg: string): seq<ValidationError>
  {
    if ok then [] else [ValidationError(InBody, f, msg)]
  }

  // ---- Chains of one or two items, with or without a leading trim ----

  function TrimmedValue(lib: Lib, v: Option<Value>): Option<Value>
  {
    if v.Some? then Some(Str(Trim(ToText(lib, v)))) else None
  }

  function Fail(lib: Lib, loc: Location, f: string, c: Check, m: string, v: Option<Value>): seq<ValidationError>
  {
    if Holds(lib, c, v) then [] else [ValidationError(loc, f, m)]
  }

  lemma TextOfTrimmed(lib: Lib, v: Option<Value>)
    ensures ToText(lib, TrimmedValue(lib, v)) == Trim(ToText(lib, v))
  {
    if v.None? {
      assert Trim("") == "";
    }
  }

  lemma TwoChecks(lib: Lib, loc: Location, f: string, c1: Check, m1: string, c2: Check, m2: string, v: Option<Value>)
    ensures RunItems(lib, loc, f, [Require(c1, m1), Require(c2, m2)], v)
         == (v, Fail(lib, loc, f, c1, m1, v) + Fail(lib, loc, f, c2, m2, v))
  {
    var items := [Require(c1, m1), Require(c2, m2)];
    assert items[1..] == [Require(c2, m2)];
    OneCheck(lib, loc, f, c2, m2, v);
  }

  lemma OneCheck(lib: Lib, loc: Location, f: string, c: Check, m: string, v: Option<Value>)
    ensures RunItems(lib, loc, f, [Require(c, m)], v) == (v, Fail(lib, loc, f, c, m, v))
  {
    var items := [Require(c, m)];
    assert items[1..] == [];
    assert RunItems(lib, loc, f, items[1..], v) == (v, []);
    var here := if Holds(lib, c, v) then [] else [ValidationError(loc, f, m)];
    assert here + [] == here;
    assert here == Fail(lib, loc, f, c, m, v);
  }

  /** The checks that look only at the string form of the value. */
  predicate TextCheck(c: Check)
  {
    c.NotEmpty? || c.Length? || c.IsURL? || c.IsBoolean?
  }

  predicate TextHolds(lib: Lib, c: Check, t: string)
    requires TextCheck(c)
  {
    match c
    case NotEmpty => t != ""
    case Length(min, max) => min <= |t| && (max.None? || |t| <= max.value)
    case IsURL => lib.isURL(t)
    case IsBoolean => lib.isBoolean(t)
  }

  lemma HoldsText(lib: Lib, c: Check, w: Option<Value>)
    requires TextCheck(c)
    ensures Holds(lib, c, w) == TextHolds(lib, c, ToText(lib, w))
  {
  }

  lemma FailTrimmed(lib: Lib, f: string, c: Check, m: string, v: Option<Value>)
    requires TextCheck(c)
    ensures Fail(lib, InBody, f, c, m, TrimmedValue(lib, v)) == Expect(TextHolds(lib, c, Trim(ToText(lib, v))), f, m)
  {
    var w := TrimmedValue(lib, v);
    TextOfTrimmed(lib, v);
    HoldsText(lib, c, w);
  }

  lemma TrimThenTwoRaw(lib: Lib, f: string, opt: bool, c1: Check, m1: string, c2: Check, m2: string,
                       body: Body, params: map<string, string>)
    ensures var w := TrimmedValue(lib, Get(body, f));
      RunRule(lib, Rule(InBody, f, opt, [TrimValue, Require(c1, m1), Require(c2, m2)]), body, params)
      == if opt && f !in body then Checked(body, [])
         else Checked(TrimField(lib, body, f), Fail(lib, InBody, f, c1, m1, w) + Fail(lib, InBody, f, c2, m2, w))
  {
    var items := [TrimValue, Require(c1, m1), Require(c2, m2)];
    assert items[1..] == [Require(c1, m1), Require(c2, m2)];
    TwoChecks(lib, InBody, f, c1, m1, c2, m2, TrimmedValue(lib, Get(body, f)));
  }

  lemma TrimThenTwo(lib: Lib, f: string, opt: bool, c1: Check, m1: string, c2: Check, m2: string,
                    body: Body, params: map<string, string>)
    requires TextCheck(c1) && TextCheck(c2)
    ensures var t := Trimmed(lib, body, f);
      RunRule(lib, Rule(InBody, f, opt, [TrimValue, Require(c1, m1), Require(c2, m2)]), body, params)
      == if opt && f !in body then Checked(body, [])
         else Checked(TrimField(lib, body, f), Expect(TextHolds(lib, c1, t), f, m1) + Expect(TextHolds(lib, c2, t), f, m2))
  {
    TrimThenTwoRaw(lib, f, opt, c1, m1, c2, m2, body, params);
    FailTrimmed(lib, f, c1, m1, Get(body, f));
    FailTrimmed(lib, f, c2, m2, Get(body, f));
  }

  lemma TrimThenOne(lib: Lib, f: string, opt: bool, c: Check, m: string, body: Body, params: map<string, string>)
    requires TextCheck(c)
    ensures RunRule(lib, Rule(InBody, f, opt, [TrimValue, Require(c, m)]), body, params)
      == if opt && f !in body then Checked(body, [])
         else Checked(TrimField(lib, body, f), Expect(TextHolds(lib, c, Trimmed(lib, body, f)), f, m))
  {
    var items := [TrimValue, Require(c, m)];
    assert items[1..] == [Require(c, m)];
    var v := Get(body, f);
    OneCheck(lib, InBody, f, c, m, TrimmedValue(lib, v));
    FailTrimmed(lib, f, c, m, v);
  }

  lemma JustTwo(lib: Lib, f: string, opt: bool, c1: Check, m1: string, c2: Check, m2: string,
                body: Body, params: map<string, string>)
    ensures var v := Get(body, f);
      RunRule(lib, Rule(InBody, f, opt, [Require(c1, m1), Require(c2, m2)]), body, params)
      == if opt && f !in body then Checked(body, [])
         else Checked(body, Fail(lib, InBody, f, c1, m1, v) + Fail(lib, InBody, f, c2, m2, v))
  {
    TwoChecks(lib, InBody, f, c1, m1, c2, m2, Get(body, f));
  }

  lemma JustOne(lib: Lib, f: string, opt: bool, c: Check, m: string, body: Body, params: map<string, string>)
    ensures var v := Get(body, f);
      RunRule(lib, Rule(InBody, f, opt, [Require(c, m)]), body, params)
      == if opt && f !in body then Checked(body, [])
         else Checked(body, Fail(lib, InBody, f, c, m, v))
  {
    OneCheck(lib, InBody, f, c, m, Get(body, f));
  }

  /** Unfolding `RunRules` at the head of a rule list. */
  lemma RunRulesCons(lib: Lib, r: Rule, rest: seq<Rule>, body: Body, params: map<string, string>)
    ensures RunRules(lib, [r] + rest, body, params)
      == var first := RunRule(lib, r, body, params);
         var tail := RunRules(lib, rest, first.body, params);
         Checked(tail.body, first.errors + tail.errors)
  {
    assert ([r] + rest)[1..] == rest;
  }

  lemma RunRulesOne(lib: Lib, r: Rule, body: Body, params: map<string, string>)
    ensures RunRules(lib, [r], body, params) == RunRule(lib, r, body, params)
  {
    RunRulesCons(lib, r, [], body, params);
    assert [r] + [] == [r];
    var c := RunRule(lib, r, body, params);
    assert c.errors + [] == c.errors;
  }

  // ---- Each rule of validators.js, in closed form ----

  lemma PostTitleRuleRun(lib: Lib, body: Body, p: map<string, string>)
    ensures var t := Trimmed(lib, body, "title");
      RunRule(lib, PostTitleRule, body, p) == Checked(TrimField(lib, body, "title"),
        Expect(t != "", "title", TitleRequired) + Expect(3 <= |t| <= 100, "title", TitleLength))
  {
    TrimThenTwo(lib, "title", false, NotEmpty, TitleRequired, Length(3, Some(100)), TitleLength, body, p);
  }

  lemma PostContentRuleRun(lib: Lib, body: Body, p: map<string, string>)
    ensures var t := Trimmed(lib, body, "content");
      RunRule(lib, PostContentRule, body, p) == Checked(TrimField(lib, body, "content"),
        Expect(t != "", "content", ContentRequired) + Expect(10 <= |t|, "content", ContentLength))
  {
    TrimThenTwo(lib, "content", false, NotEmpty, ContentRequired, Length(10, None), ContentLength, body, p);
  }

  lemma PostCategoryRuleRun(lib: Lib, body: Body, p: map<string, string>)
    ensures RunRule(lib, PostCategoryRule, body, p) == Checked(body,
        Expect(TextOf(lib, body, "category") != "", "category", CategoryRequired)
        + Expect(lib.isObjectId(Get(body, "category")), "category", InvalidCategory))
  {
    JustTwo(lib, "category", false, NotEmpty, CategoryRequired, IsObjectId, InvalidCategory, body, p);
  }

  lemma ExcerptRuleRun(lib: Lib, body: Body, p: map<string, string>)
    ensures RunRule(lib, ExcerptRule, body, p) == Checked(TrimField(lib, body, "excerpt"), ExcerptErrors(lib, body))
  {
    TrimThenOne(lib, "excerpt", true, Length(0, Some(200)), ExcerptLength, body, p);
  }

  lemma TagsRuleRun(lib: Lib, body: Body, p: map<string, string>)
    ensures RunRule(lib, TagsRule, body, p) == Checked(body, TagsErrors(lib, body))
  {
    JustOne(lib, "tags", true, IsArray, TagsArray, body, p);
  }

  lemma ImageRuleRun(lib: Lib, body: Body, p: map<string, string>)
    ensures RunRule(lib, ImageRule, body, p) == Checked(TrimField(lib, body, "featuredImage"), ImageErrors(lib, body))
  {
    TrimThenOne(lib, "featuredImage", true, IsURL, ImageURL, body, p);
  }

  lemma PublishedRuleRun(lib: Lib, body: Body, p: map<string, string>)
    ensures RunRule(lib, PublishedRule, body, p) == Checked(body, PublishedErrors(lib, body))
  {
    JustOne(lib, "isPublished", true, IsBoolean, PublishedBoolean, body, p);
  }

  lemma UpdateTitleRuleRun(lib: Lib, body: Body, p: map<string, string>)
    ensures RunRule(lib, UpdateTitleRule, body, p) == Checked(TrimField(lib, body, "title"),
        if "title" in body then Expect(3 <= |Trimmed(lib, body, "title")| <= 100, "title", TitleLength) else [])
  {
    TrimThenOne(lib, "title", true, Length(3, Some(100)), TitleLength, body, p);
  }

  lemma UpdateContentRuleRun(lib: Lib, body: Body, p: map<string, string>)
    ensures RunRule(lib, UpdateContentRule, body, p) == Checked(TrimField(lib, body, "content"),
        if "content" in body then Expect(10 <= |Trimmed(lib, body, "content")|, "content", ContentLength) else [])
  {
    TrimThenOne(lib, "content", true, Length(10, None), ContentLength, body, p);
  }

  lemma UpdateCategoryRuleRun(lib: Lib, body: Body, p: map<string, string>)
    ensures RunRule(lib, UpdateCategoryRule, body, p) == Checked(body,
        if "category" in body then Expect(lib.isObjectId(Get(body, "category")), "category", InvalidCategory) else [])
  {
    JustOne(lib, "category", true, IsObjectId, InvalidCategory, body, p);
  }

  lemma NameRuleRun(lib: Lib, body: Body, p: map<string, string>)
    ensures var t := Trimmed(lib, body, "name");
      RunRule(lib, NameRule, body, p) == Checked(TrimField(lib, body, "name"),
        Expect(t != "", "name", NameRequired) + Expect(2 <= |t| <= 50, "name", NameLength))
  {
    TrimThenTwo(lib, "name", false, NotEmpty, NameRequired, Length(2, Some(50)), NameLength, body, p);
  }

  lemma DescriptionRuleRun(lib: Lib, body: Body, p: map<string, string>)
    ensures RunRule(lib, DescriptionRule, body, p) == Checked(TrimField(lib, body, "description"),
        if "description" in body
        then Expect(|Trimmed(lib, body, "description")| <= 200, "description", DescriptionLength) else [])
  {
    TrimThenOne(lib, "description", true, Length(0, Some(200)), DescriptionLength, body, p);
  }

  lemma CommentContentRuleRun(lib: Lib, body: Body, p: map<string, string>)
    ensures var t := Trimmed(lib, body, "content");
      RunRule(lib, CommentContentRule, body, p) == Checked(TrimField(lib, body, "content"),
        Expect(t != "", "content", CommentRequired) + Expect(1 <= |t| <= 500, "content", CommentLength))
  {
    TrimThenTwo(lib, "content", false, NotEmpty, CommentRequired, Length(1, Some(500)), CommentLength, body, p);
  }

  // ---- The optional fields shared by validatePost and validatePostUpdate ----

  predicate OptionalPostFieldsValid(lib: Lib, body: Body)
  {
    && ("excerpt" in body ==> |Trimmed(lib, body, "excerpt")| <= 200)
    && ("tags" in body ==> lib.isArray(Get(body, "tags")))
    && ("featuredImage" in body ==> lib.isURL(Trimmed(lib, body, "featuredImage")))
    && ("isPublished" in body ==> lib.isBoolean(TextOf(lib, body, "isPublished")))
  }

  function ExcerptErrors(lib: Lib, body: Body): seq<ValidationError>
  {
    if "excerpt" in body then Expect(|Trimmed(lib, body, "excerpt")| <= 200, "excerpt", ExcerptLength) else []
  }

  function TagsErrors(lib: Lib, body: Body): seq<ValidationError>
  {
    if "tags" in body then Expect(lib.isArray(Get(body, "tags")), "tags", TagsArray) else []
  }

  function ImageErrors(lib: Lib, body: Body): seq<ValidationError>
  {
    if "featuredImage" in body
    then Expect(lib.isURL(Trimmed(lib, body, "featuredImage")), "featuredImage", ImageURL) else []
  }

  function PublishedErrors(lib: Lib, body: Body): seq<ValidationError>
  {
    if "isPublished" in body
    then Expect(lib.isBoolean(TextOf(lib, body, "isPublished")), "isPublished", PublishedBoolean) else []
  }

  function OptionalPostErrors(lib: Lib, body: Body): seq<ValidationError>
  {
    ExcerptErrors(lib, body) + TagsErrors(lib, body) + ImageErrors(lib, body) + PublishedErrors(lib, body)
  }

  /** The body after the optional-field rules: excerpt and featuredImage trimmed when present. */
  function OptionalPostSanitized(lib: Lib, body: Body): Body
  {
    TrimField(lib, TrimField(lib, body, "excerpt"), "featuredImage")
  }

  const OptionalRules: seq<Rule> := [ExcerptRule, TagsRule, ImageRule, PublishedRule]

  /** Trimming one field leaves what the rules of the other fields see unchanged. */
  lemma TrimFieldElsewhere(lib: Lib, body: Body, f: string, g: string)
    requires f != g
    ensures var b := TrimField(lib, body, f);
      (g in b <==> g in body) && Get(b, g) == Get(body, g)
      && TextOf(lib, b, g) == TextOf(lib, body, g) && Trimmed(lib, b, g) == Trimmed(lib, body, g)
  {
  }

  lemma PublishedTail(lib: Lib, body: Body, p: map<string, string>)
    ensures RunRules(lib, [PublishedRule], body, p) == Checked(body, PublishedErrors(lib, body))
  {
    RunRulesOne(lib, PublishedRule, body, p);
    PublishedRuleRun(lib, body, p);
  }

  lemma ImageTail(lib: Lib, body: Body, p: map<string, string>)
    ensures RunRules(lib, [ImageRule, PublishedRule], body, p)
         == Checked(TrimField(lib, body, "featuredImage"), ImageErrors(lib, body) + PublishedErrors(lib, body))
  {
    assert [ImageRule, PublishedRule] == [ImageRule] + [PublishedRule];
    RunRulesCons(lib, ImageRule, [PublishedRule], body, p);
    ImageRuleRun(lib, body, p);
    var b := TrimField(lib, body, "featuredImage");
    PublishedTail(lib, b, p);
    PublishedErrorsElsewhere(lib, body, "featuredImage");
  }

  lemma TagsTail(lib: Lib, body: Body, p: map<string, string>)
    ensures RunRules(lib, [TagsRule, ImageRule, PublishedRule], body, p)
         == Checked(TrimField(lib, body, "featuredImage"),
                    TagsErrors(lib, body) + (ImageErrors(lib, body) + PublishedErrors(lib, body)))
  {
    assert [TagsRule, ImageRule, PublishedRule] == [TagsRule] + [ImageRule, PublishedRule];
    RunRulesCons(lib, TagsRule, [ImageRule, PublishedRule], body, p);
    TagsRuleRun(lib, body, p);
    ImageTail(lib, body, p);
  }

  lemma OptionalPostRulesRaw(lib: Lib, body: Body, p: map<string, string>)
    ensures var b := TrimField(lib, body, "excerpt");
      RunRules(lib, OptionalRules, body, p)
      == Checked(OptionalPostSanitized(lib, body),
                 ExcerptErrors(lib, body) + (TagsErrors(lib, b) + (ImageErrors(lib, b) + PublishedErrors(lib, b))))
  {
    var rest := [TagsRule, ImageRule, PublishedRule];
    assert OptionalRules == [ExcerptRule] + rest;
    RunRulesCons(lib, ExcerptRule, rest, body, p);
    ExcerptRuleRun(lib, body, p);
    TagsTail(lib, TrimField(lib, body, "excerpt"), p);
  }

  lemma OptionalPostErrorsSplit(lib: Lib, body: Body)
    ensures var b := TrimField(lib, body, "excerpt");
      ExcerptErrors(lib, body) + (TagsErrors(lib, b) + (ImageErrors(lib, b) + PublishedErrors(lib, b)))
      == OptionalPostErrors(lib, body)
  {
    TagsErrorsElsewhere(lib, body, "excerpt");
    ImageErrorsElsewhere(lib, body, "excerpt");
    PublishedErrorsElsewhere(lib, body, "excerpt");
    Assoc4(ExcerptErrors(lib, body), TagsErrors(lib, body), ImageErrors(lib, body), PublishedErrors(lib, body));
  }

  /** The last four rules, shared by both post validators. */
  lemma {:induction false} OptionalPostRules(lib: Lib, body: Body, p: map<string, string>)
    ensures RunRules(lib, OptionalRules, body, p)
         == Checked(OptionalPostSanitized(lib, body), OptionalPostErrors(lib, body))
  {
    OptionalPostRulesRaw(lib, body, p);
    OptionalPostErrorsSplit(lib, body);
  }

  lemma ExcerptErrorsElsewhere(lib: Lib, body: Body, f: string)
    requires f != "excerpt"
    ensures ExcerptErrors(lib, TrimField(lib, body, f)) == ExcerptErrors(lib, body)
  {
    TrimFieldElsewhere(lib, body, f, "excerpt");
  }

  lemma TagsErrorsElsewhere(lib: Lib, body: Body, f: string)
    requires f != "tags"
    ensures TagsErrors(lib, TrimField(lib, body, f)) == TagsErrors(lib, body)
  {
    TrimFieldElsewhere(lib, body, f, "tags");
  }

  lemma ImageErrorsElsewhere(lib: Lib, body: Body, f: string)
    requires f != "featuredImage"
    ensures ImageErrors(lib, TrimField(lib, body, f)) == ImageErrors(lib, body)
  {
    TrimFieldElsewhere(lib, body, f, "featuredImage");
  }

  lemma PublishedErrorsElsewhere(lib: Lib, body: Body, f: string)
    requires f != "isPublished"
    ensures PublishedErrors(lib, TrimField(lib, body, f)) == PublishedErrors(lib, body)
  {
    TrimFieldElsewhere(lib, body, f, "isPublished");
  }

  /** What the optional-field rules report does not depend on the title, content or category. */
  lemma OptionalPostErrorsElsewhere(lib: Lib, body: Body, f: string)
    requires f != "excerpt" && f != "tags" && f != "featuredImage" && f != "isPublished"
    ensures OptionalPostErrors(lib, TrimField(lib, body, f)) == OptionalPostErrors(lib, body)
  {
    ExcerptErrorsElsewhere(lib, body, f);
    TagsErrorsElsewhere(lib, body, f);
    ImageErrorsElsewhere(lib, body, f);
    PublishedErrorsElsewhere(lib, body, f);
  }

  // ---- validatePost ----

  function TitleErrors(lib: Lib, body: Body): seq<ValidationError>
  {
    var t := Trimmed(lib, body, "title");
    Expect(t != "", "title", TitleRequired) + Expect(3 <= |t| <= 100, "title", TitleLength)
  }

  function ContentErrors(lib: Lib, body: Body): seq<ValidationError>
  {
    var t := Trimmed(lib, body, "content");
    Expect(t != "", "content", ContentRequired) + Expect(10 <= |t|, "content", ContentLength)
  }

  function CategoryErrors(lib: Lib, body: Body): seq<ValidationError>
  {
    Expect(TextOf(lib, body, "category") != "", "category", CategoryRequired)
    + Expect(lib.isObjectId(Get(body, "category")), "category", InvalidCategory)
  }

  /** The errors validatePost records for `body`, in the order its rules run. */
  function PostErrors(lib: Lib, body: Body): seq<ValidationError>
  {
    TitleErrors(lib, body) + ContentErrors(lib, body) + CategoryErrors(lib, body) + OptionalPostErrors(lib, body)
  }

  /** The trimmed fields validatePost hands on to the controller. */
  function PostSanitized(lib: Lib, body: Body): Body
  {
    OptionalPostSanitized(lib, TrimField(lib, TrimField(lib, body, "title"), "content"))
  }

  predicate PostBodyValid(lib: Lib, body: Body)
  {
    && 3 <= |Trimmed(lib, body, "title")| <= 100
    && 10 <= |Trimmed(lib, body, "content")|
    && TextOf(lib, body, "category") != ""
    && lib.isObjectId(Get(body, "category"))
    && OptionalPostFieldsValid(lib, body)
  }

  lemma Assoc4(e1: seq<ValidationError>, e2: seq<ValidationError>, e3: seq<ValidationError>, e4: seq<ValidationError>)
    ensures e1 + (e2 + (e3 + e4)) == e1 + e2 + e3 + e4
  {
  }

  lemma PostTitleHead(lib: Lib, rest: seq<Rule>, body: Body, p: map<string, string>)
    ensures var t := RunRules(lib, rest, TrimField(lib, body, "title"), p);
      RunRules(lib, [PostTitleRule] + rest, body, p) == Checked(t.body, TitleErrors(lib, body) + t.errors)
  {
    RunRulesCons(lib, PostTitleRule, rest, body, p);
    PostTitleRuleRun(lib, body, p);
  }

  lemma PostContentHead(lib: Lib, rest: seq<Rule>, body: Body, p: map<string, string>)
    ensures var t := RunRules(lib, rest, TrimField(lib, body, "content"), p);
      RunRules(lib, [PostContentRule] + rest, body, p) == Checked(t.body, ContentErrors(lib, body) + t.errors)
  {
    RunRulesCons(lib, PostContentRule, rest, body, p);
    PostContentRuleRun(lib, body, p);
  }

  lemma PostCategoryTail(lib: Lib, body: Body, p: map<string, string>)
    ensures RunRules(lib, [PostCategoryRule] + OptionalRules, body, p)
         == Checked(OptionalPostSanitized(lib, body), CategoryErrors(lib, body) + OptionalPostErrors(lib, body))
  {
    RunRulesCons(lib, PostCategoryRule, OptionalRules, body, p);
    PostCategoryRuleRun(lib, body, p);
    OptionalPostRules(lib, body, p);
  }

  lemma PostContentTail(lib: Lib, body: Body, p: map<string, string>)
    ensures var b := TrimField(lib, body, "content");
      RunRules(lib, [PostContentRule] + ([PostCategoryRule] + OptionalRules), body, p)
      == Checked(OptionalPostSanitized(lib, b), ContentErrors(lib, body) + (CategoryErrors(lib, b) + OptionalPostErrors(lib, b)))
  {
    PostContentHead(lib, [PostCategoryRule] + OptionalRules, body, p);
    PostCategoryTail(lib, TrimField(lib, body, "content"), p);
  }

  lemma ValidatePostRunRaw(lib: Lib, body: Body, params: map<string, string>)
    ensures var b1 := TrimField(lib, body, "title");
      var b2 := TrimField(lib, b1, "content");
      RunRules(lib, PostRules, body, params)
      == Checked(OptionalPostSanitized(lib, b2),
                 TitleErrors(lib, body) + (ContentErrors(lib, b1) + (CategoryErrors(lib, b2) + OptionalPostErrors(lib, b2))))
  {
    assert PostRules == [PostTitleRule] + ([PostContentRule] + ([PostCategoryRule] + OptionalRules));
    PostTitleHead(lib, [PostContentRule] + ([PostCategoryRule] + OptionalRules), body, params);
    PostContentTail(lib, TrimField(lib, body, "title"), params);
  }

  lemma CategoryErrorsElsewhere(lib: Lib, body: Body, f: string)
    requires f != "category"
    ensures CategoryErrors(lib, TrimField(lib, body, f)) == CategoryErrors(lib, body)
  {
    TrimFieldElsewhere(lib, body, f, "category");
  }

  lemma ContentErrorsElsewhere(lib: Lib, body: Body, f: string)
    requires f != "content"
    ensures ContentErrors(lib, TrimField(lib, body, f)) == ContentErrors(lib, body)
  {
    TrimFieldElsewhere(lib, body, f, "content");
  }

  lemma PostErrorsSplit(lib: Lib, body: Body)
    ensures var b1 := TrimField(lib, body, "title");
      var b2 := TrimField(lib, b1, "content");
      TitleErrors(lib, body) + (ContentErrors(lib, b1) + (CategoryErrors(lib, b2) + OptionalPostErrors(lib, b2)))
      == PostErrors(lib, body)
  {
    var b1 := TrimField(lib, body, "title");
    ContentErrorsElsewhere(lib, body, "title");
    CategoryErrorsElsewhere(lib, body, "title");
    CategoryErrorsElsewhere(lib, b1, "content");
    OptionalPostErrorsElsewhere(lib, body, "title");
    OptionalPostErrorsElsewhere(lib, b1, "content");
    Assoc4(TitleErrors(lib, body), ContentErrors(lib, body), CategoryErrors(lib, body), OptionalPostErrors(lib, body));
  }

  lemma {:induction false} ValidatePostRun(lib: Lib, body: Body, params: map<string, string>)
    ensures RunRules(lib, PostRules, body, params) == Checked(PostSanitized(lib, body), PostErrors(lib, body))
  {
    ValidatePostRunRaw(lib, body, params);
    PostErrorsSplit(lib, body);
  }

  /** validatePost lets a body through exactly when every field obeys its bounds. */
  lemma ValidatePostAccepts(lib: Lib, body: Body, params: map<string, string>)
    ensures RunRules(lib, PostRules, body, params).errors == [] <==> PostBodyValid(lib, body)
  {
    ValidatePostRun(lib, body, params);
  }

  /** Absent optional fields never produce an error: every error then names title, content or category. */
  lemma ValidatePostOptionalAbsent(lib: Lib, body: Body, params: map<string, string>)
    requires "excerpt" !in body && "tags" !in body && "featuredImage" !in body && "isPublished" !in body
    ensures forall e :: e in RunRules(lib, PostRules, body, params).errors ==>
      e.path == "title" || e.path == "content" || e.path == "category"
  {
    ValidatePostRun(lib, body, params);
    assert OptionalPostErrors(lib, body) == [];
    var t, c, g := TitleErrors(lib, body), ContentErrors(lib, body), CategoryErrors(lib, body);
    assert forall e :: e in t ==> e.path == "title";
    assert forall e :: e in c ==> e.path == "content";
    assert forall e :: e in g ==> e.path == "category";
    assert PostErrors(lib, body) == t + c + g + [];
  }

  /** A title shorter than three characters after trimming is reported against "title". */
  lemma ShortTitleRejected(lib: Lib, body: Body, params: map<string, string>)
    requires |Trimmed(lib, body, "title")| < 3
    ensures ValidationError(InBody, "title", TitleLength) in RunRules(lib, PostRules, body, params).errors
  {
    ValidatePostRun(lib, body, params);
  }

  // ---- validatePostUpdate ----

  function UpdateTitleErrors(lib: Lib, body: Body): seq<ValidationError>
  {
    if "title" in body then Expect(3 <= |Trimmed(lib, body, "title")| <= 100, "title", TitleLength) else []
  }

  function UpdateContentErrors(lib: Lib, body: Body): seq<ValidationError>
  {
    if "content" in body then Expect(10 <= |Trimmed(lib, body, "content")|, "content", ContentLength) else []
  }

  function UpdateCategoryErrors(lib: Lib, body: Body): seq<ValidationError>
  {
    if "category" in body then Expect(lib.isObjectId(Get(body, "category")), "category", InvalidCategory) else []
  }

  /** The errors validatePostUpdate records for `body`, in the order its rules run. */
  function PostUpdateErrors(lib: Lib, body: Body): seq<ValidationError>
  {
    UpdateTitleErrors(lib, body) + UpdateContentErrors(lib, body) + UpdateCategoryErrors(lib, body)
    + OptionalPostErrors(lib, body)
  }

  predicate PostUpdateValid(lib: Lib, body: Body)
  {
    && ("title" in body ==> 3 <= |Trimmed(lib, body, "title")| <= 100)
    && ("content" in body ==> 10 <= |Trimmed(lib, body, "content")|)
    && ("category" in body ==> lib.isObjectId(Get(body, "category")))
    && OptionalPostFieldsValid(lib, body)
  }

  lemma UpdateTitleHead(lib: Lib, rest: seq<Rule>, body: Body, p: map<string, string>)
    ensures var t := RunRules(lib, rest, TrimField(lib, body, "title"), p);
      RunRules(lib, [UpdateTitleRule] + rest, body, p) == Checked(t.body, UpdateTitleErrors(lib, body) + t.errors)
  {
    RunRulesCons(lib, UpdateTitleRule, rest, body, p);
    UpdateTitleRuleRun(lib, body, p);
  }

  lemma UpdateContentHead(lib: Lib, rest: seq<Rule>, body: Body, p: map<string, string>)
    ensures var t := RunRules(lib, rest, TrimField(lib, body, "content"), p);
      RunRules(lib, [UpdateContentRule] + rest, body, p) == Checked(t.body, UpdateContentErrors(lib, body) + t.errors)
  {
    RunRulesCons(lib, UpdateContentRule, rest, body, p);
    UpdateContentRuleRun(lib, body, p);
  }

  lemma UpdateCategoryTail(lib: Lib, body: Body, p: map<string, string>)
    ensures RunRules(lib, [UpdateCategoryRule] + OptionalRules, body, p)
         == Checked(OptionalPostSanitized(lib, body), UpdateCategoryErrors(lib, body) + OptionalPostErrors(lib, body))
  {
    RunRulesCons(lib, UpdateCategoryRule, OptionalRules, body, p);
    UpdateCategoryRuleRun(lib, body, p);
    OptionalPostRules(lib, body, p);
  }

  lemma UpdateContentTail(lib: Lib, body: Body, p: map<string, string>)
    ensures var b := TrimField(lib, body, "content");
      RunRules(lib, [UpdateContentRule] + ([UpdateCategoryRule] + OptionalRules), body, p)
      == Checked(OptionalPostSanitized(lib, b),
                 UpdateContentErrors(lib, body) + (UpdateCategoryErrors(lib, b) + OptionalPostErrors(lib, b)))
  {
    UpdateContentHead(lib, [UpdateCategoryRule] + OptionalRules, body, p);
    UpdateCategoryTail(lib, TrimField(lib, body, "content"), p);
  }

  lemma ValidatePostUpdateRunRaw(lib: Lib, body: Body, params: map<string, string>)
    ensures var b1 := TrimField(lib, body, "title");
      var b2 := TrimField(lib, b1, "content");
      RunRules(lib, PostUpdateRules, body, params)
      == Checked(OptionalPostSanitized(lib, b2),
                 UpdateTitleErrors(lib, body)
                 + (UpdateContentErrors(lib, b1) + (UpdateCategoryErrors(lib, b2) + OptionalPostErrors(lib, b2))))
  {
    assert PostUpdateRules == [UpdateTitleRule] + ([UpdateContentRule] + ([UpdateCategoryRule] + OptionalRules));
    UpdateTitleHead(lib, [UpdateContentRule] + ([UpdateCategoryRule] + OptionalRules), body, params);
    UpdateContentTail(lib, TrimField(lib, body, "title"), params);
  }

  lemma UpdateErrorsElsewhere(lib: Lib, body: Body, f: string)
    ensures f != "content" ==> UpdateContentErrors(lib, TrimField(lib, body, f)) == UpdateContentErrors(lib, body)
    ensures f != "category" ==> UpdateCategoryErrors(lib, TrimField(lib, body, f)) == UpdateCategoryErrors(lib, body)
  {
    if f != "content" {
      TrimFieldElsewhere(lib, body, f, "content");
    }
    if f != "category" {
      TrimFieldElsewhere(lib, body, f, "category");
    }
  }

  lemma PostUpdateErrorsSplit(lib: Lib, body: Body)
    ensures var b1 := TrimField(lib, body, "title");
      var b2 := TrimField(lib, b1, "content");
      UpdateTitleErrors(lib, body)
      + (UpdateContentErrors(lib, b1) + (UpdateCategoryErrors(lib, b2) + OptionalPostErrors(lib, b2)))
      == PostUpdateErrors(lib, body)
  {
    var b1 := TrimField(lib, body, "title");
    UpdateErrorsElsewhere(lib, body, "title");
    UpdateErrorsElsewhere(lib, b1, "content");
    OptionalPostErrorsElsewhere(lib, body, "title");
    OptionalPostErrorsElsewhere(lib, b1, "content");
    Assoc4(UpdateTitleErrors(lib, body), UpdateContentErrors(lib, body), UpdateCategoryErrors(lib, body),
           OptionalPostErrors(lib, body));
  }

  lemma {:induction false} ValidatePostUpdateRun(lib: Lib, body: Body, params: map<string, string>)
    ensures RunRules(lib, PostUpdateRules, body, params) == Checked(PostSanitized(lib, body), PostUpdateErrors(lib, body))
  {
    ValidatePostUpdateRunRaw(lib, body, params);
    PostUpdateErrorsSplit(lib, body);
  }

  /** validatePostUpdate lets a body through exactly when every field present obeys its bounds. */
  lemma ValidatePostUpdateAccepts(lib: Lib, body: Body, params: map<string, string>)
    ensures RunRules(lib, PostUpdateRules, body, params).errors == [] <==> PostUpdateValid(lib, body)
  {
    ValidatePostUpdateRun(lib, body, params);
  }

  /** A body with none of the post fields passes validatePostUpdate and is left as it is. */
  lemma ValidatePostUpdateNoFields(lib: Lib, body: Body, params: map<string, string>)
    requires forall f :: f in body ==>
      f !in {"title", "content", "category", "excerpt", "tags", "featuredImage", "isPublished"}
    ensures RunRules(lib, PostUpdateRules, body, params) == Checked(body, [])
  {
    ValidatePostUpdateRun(lib, body, params);
  }

  // ---- validateCategory, validateComment, validateObjectId ----

  predicate CategoryBodyValid(lib: Lib, body: Body)
  {
    && 2 <= |Trimmed(lib, body, "name")| <= 50
    && ("description" in body ==> |Trimmed(lib, body, "description")| <= 200)
  }

  lemma {:induction false} ValidateCategoryRun(lib: Lib, body: Body, params: map<string, string>)
    ensures var name := Trimmed(lib, body, "name");
      RunRules(lib, CategoryRules, body, params)
      == Checked(TrimField(lib, TrimField(lib, body, "name"), "description"),
                 Expect(name != "", "name", NameRequired)
                 + Expect(2 <= |name| <= 50, "name", NameLength)
                 + (if "description" in body
                    then Expect(|Trimmed(lib, body, "description")| <= 200, "description", DescriptionLength)
                    else []))
  {
    assert CategoryRules == [NameRule] + [DescriptionRule];
    RunRulesCons(lib, NameRule, [DescriptionRule], body, params);
    NameRuleRun(lib, body, params);
    var b1 := TrimField(lib, body, "name");
    RunRulesOne(lib, DescriptionRule, b1, params);
    DescriptionRuleRun(lib, b1, params);
  }

  /** validateCategory: a trimmed name of 2 to 50 characters, an optional description of at most 200. */
  lemma ValidateCategoryAccepts(lib: Lib, body: Body, params: map<string, string>)
    ensures RunRules(lib, CategoryRules, body, params).errors == [] <==> CategoryBodyValid(lib, body)
  {
    ValidateCategoryRun(lib, body, params);
  }

  /** After validateCategory passes, the name a controller reads is the trimmed string. */
  lemma ValidateCategoryLeavesStringName(lib: Lib, body: Body, params: map<string, string>)
    requires RunRules(lib, CategoryRules, body, params).errors == []
    ensures var b := RunRules(lib, CategoryRules, body, params).body;
      && Get(b, "name") == Some(Str(Trimmed(lib, body, "name")))
      && ("description" in body ==> Get(b, "description") == Some(Str(Trimmed(lib, body, "description"))))
      && ("description" !in body ==> "description" !in b)
  {
    ValidateCategoryRun(lib, body, params);
  }

  /** validateComment: trimmed content of 1 to 500 characters. */
  lemma ValidateCommentRun(lib: Lib, body: Body, params: map<string, string>)
    ensures var content := Trimmed(lib, body, "content");
      RunRules(lib, CommentRules, body, params)
      == Checked(TrimField(lib, body, "content"),
                 Expect(content != "", "content", CommentRequired)
                 + Expect(1 <= |content| <= 500, "content", CommentLength))
  {
    RunRulesOne(lib, CommentContentRule, body, params);
    CommentContentRuleRun(lib, body, params);
  }

  lemma ValidateCommentAccepts(lib: Lib, body: Body, params: map<string, string>)
    ensures RunRules(lib, CommentRules, body, params).errors == [] <==> 1 <= |Trimmed(lib, body, "content")| <= 500
  {
    ValidateCommentRun(lib, body, params);
  }

  /** The `id` route parameter must satisfy the ObjectId predicate, else one 'Invalid ID format' error. */
  lemma ValidateObjectIdRun(lib: Lib, body: Body, params: map<string, string>)
    ensures var id := if "id" in params then Some(Str(params["id"])) else None;
      RunRules(lib, ObjectIdRules, body, params)
      == Checked(body, if lib.isObjectId(id) then [] else [ValidationError(InParams, "id", InvalidIdFormat)])
  {
    RunRulesOne(lib, IdParamRule, body, params);
    var id := if "id" in params then Some(Str(params["id"])) else None;
    OneCheck(lib, InParams, "id", IsObjectId, InvalidIdFormat, id);
  }
}
