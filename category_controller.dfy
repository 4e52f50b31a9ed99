// The handlers of server/controllers/categoryController.js over an in-memory category
// collection: the listing sorted by name, and creation guarded by name uniqueness.

module CategoryController {
  import opened Json
  import opened Seqs
  import opened Documents
  import opened Http

  const CategoryExists := "Category already exists"
  const CategoryCreatedMessage := "Category created successfully"

  // ---- Ordering by name ----

  /** MongoDB's ascending order on strings: code point by code point, a prefix first. */
  predicate NameLe(a: string, b: string)
    decreases |a|
  {
    if a == [] then true
    else if b == [] then false
    else if a[0] != b[0] then a[0] < b[0]
    else NameLe(a[1..], b[1..])
  }

  lemma {:induction false} NameLeTotal(a: string, b: string)
    ensures NameLe(a, b) || NameLe(b, a)
    decreases |a|
  {
    if a != [] && b != [] && a[0] == b[0] {
      NameLeTotal(a[1..], b[1..]);
    }
  }

  lemma {:induction false} NameLeTransitive(a: string, b: string, c: string)
    requires NameLe(a, b) && NameLe(b, c)
    ensures NameLe(a, c)
    decreases |a|
  {
    if a != [] && b != [] && c != [] && a[0] == b[0] && b[0] == c[0] {
      NameLeTransitive(a[1..], b[1..], c[1..]);
    }
  }

  lemma {:induction false} NameLeAntisymmetric(a: string, b: string)
    requires NameLe(a, b) && NameLe(b, a)
    ensures a == b
    decreases |a|
  {
    if a != [] && b != [] {
      NameLeAntisymmetric(a[1..], b[1..]);
      assert a == [a[0]] + a[1..] && b == [b[0]] + b[1..];
    }
  }

  predicate ByName(x: Category, y: Category)
  {
    NameLe(x.name, y.name)
  }

  lemma ByNameTotal()
    ensures Total(ByName)
  {
    forall x: Category, y: Category ensures ByName(x, y) || ByName(y, x) {
      NameLeTotal(x.name, y.name);
    }
  }

  lemma ByNameTransitive()
    ensures forall x, y, z :: ByName(x, y) && ByName(y, z) ==> ByName(x, z)
  {
    forall x: Category, y: Category, z: Category | ByName(x, y) && ByName(y, z) ensures ByName(x, z) {
      NameLeTransitive(x.name, y.name, z.name);
    }
  }

  // ---- getCategories ----

  /** `Category.find().sort({name: 1})`: every category, ascending by name. */
  function SortedByName(categories: seq<Category>): (r: seq<Category>)
    ensures multiset(r) == multiset(categories)
    ensures forall i, j :: 0 <= i < j < |r| ==> NameLe(r[i].name, r[j].name)
  {
    ByNameTotal();
    var r := SortBy(categories, ByName);
    ByNameTransitive();
    SortedPairwise(r, ByName);
    r
  }

  /** getCategories: 200 with every category sorted by name and their count. */
  function ListCategories(categories: seq<Category>): (r: Reply)
    ensures r.status == 200 && r.payload.CategoryList? && r.payload.success
    ensures multiset(r.payload.categories) == multiset(categories)
    ensures forall i, j :: 0 <= i < j < |r.payload.categories| ==>
      NameLe(r.payload.categories[i].name, r.payload.categories[j].name)
    ensures r.payload.count == |r.payload.categories| == |categories|
  {
    var sorted := SortedByName(categories);
    assert |sorted| == |multiset(sorted)| == |categories|;
    Reply(200, CategoryList(true, sorted, |sorted|))
  }

  /** With unique names the listing is strictly ascending. */
  lemma ListCategoriesStrict(categories: seq<Category>)
    requires UniqueNames(categories)
    ensures var r := ListCategories(categories).payload.categories;
      forall i, j :: 0 <= i < j < |r| ==> NameLe(r[i].name, r[j].name) && r[i].name != r[j].name
  {
    var r := ListCategories(categories).payload.categories;
    forall i, j | 0 <= i < j < |r| ensures r[i].name != r[j].name {
      DistinctElementsOfUnique(categories, r, i, j);
    }
  }

  /** Two positions of a permutation of a list with unique names hold different categories. */
  lemma DistinctElementsOfUnique(categories: seq<Category>, r: seq<Category>, i: nat, j: nat)
    requires UniqueNames(categories) && multiset(r) == multiset(categories)
    requires i < j < |r|
    ensures r[i].name != r[j].name
  {
    if r[i] == r[j] {
      assert multiset(r)[r[i]] >= 2 by {
        assert r == r[..j] + [r[j]] + r[j + 1..];
        assert r[i] in r[..j];
        assert multiset(r) == multiset(r[..j]) + multiset{r[j]} + multiset(r[j + 1..]);
      }
      MultiplicityOfUnique(categories, r[i]);
    } else {
      assert r[i] in multiset(categories) && r[j] in multiset(categories);
      var a :| 0 <= a < |categories| && categories[a] == r[i];
      var b :| 0 <= b < |categories| && categories[b] == r[j];
      assert a != b;
    }
  }

  /** In a list with unique names each category occurs at most once. */
  lemma {:induction false} MultiplicityOfUnique(categories: seq<Category>, c: Category)
    requires UniqueNames(categories)
    ensures multiset(categories)[c] <= 1
  {
    if categories != [] {
      var rest := categories[1..];
      assert categories == [categories[0]] + rest;
      assert multiset(categories) == multiset{categories[0]} + multiset(rest);
      assert UniqueNames(rest) by {
        forall i, j | 0 <= i < j < |rest| ensures rest[i].name != rest[j].name {
          assert rest[i] == categories[i + 1] && rest[j] == categories[j + 1];
        }
      }
      MultiplicityOfUnique(rest, c);
      if categories[0] == c {
        forall k | 0 <= k < |rest| ensures rest[k] != c {
          assert rest[k] == categories[k + 1];
        }
        assert c !in multiset(rest);
      }
    }
  }

  // ---- createCategory ----

  predicate NameTaken(categories: seq<Category>, name: string)
  {
    exists j :: 0 <= j < |categories| && categories[j].name == name
  }

  /** createCategory: 409 when the name exists (exact match), otherwise one new category and 201. */
  function CreateCategoryResult(categories: seq<Category>, name: string, description: Option<string>, newId: string)
    : (r: (seq<Category>, Reply))
    ensures r.1.status == 409 <==> NameTaken(categories, name)
    ensures r.1.status == 409 ==> r.0 == categories && r.1.payload == Outcome(false, CategoryExists)
    ensures r.1.status != 409 ==>
      && r.1.status == 201
      && r.0 == categories + [Category(newId, name, description)]
      && r.1.payload == CategoryCreated(true, CategoryCreatedMessage, Category(newId, name, description))
  {
    match FirstIndex(categories, (c: Category) => c.name == name)
    case Some(_) => (categories, Reply(409, Outcome(false, CategoryExists)))
    case None =>
      var c := Category(newId, name, description);
      (categories + [c], Reply(201, CategoryCreated(true, CategoryCreatedMessage, c)))
  }

  /** createCategory keeps names unique. */
  lemma CreateKeepsNamesUnique(categories: seq<Category>, name: string, description: Option<string>, newId: string)
    requires UniqueNames(categories)
    ensures UniqueNames(CreateCategoryResult(categories, name, description, newId).0)
  {
  }

  /** One createCategory request. */
  datatype CreateRequest = CreateRequest(name: string, description: Option<string>, newId: string)

  /** The collection after a sequence of createCategory requests, in order. */
  function Replay(categories: seq<Category>, requests: seq<CreateRequest>): seq<Category>
    decreases |requests|
  {
    if requests == [] then categories
    else
      var q := requests[0];
      Replay(CreateCategoryResult(categories, q.name, q.description, q.newId).0, requests[1..])
  }

  /** Across any sequence of createCategory calls, no two stored categories share a name. */
  lemma {:induction false} ReplayKeepsNamesUnique(categories: seq<Category>, requests: seq<CreateRequest>)
    requires UniqueNames(categories)
    ensures UniqueNames(Replay(categories, requests))
    decreases |requests|
  {
    if requests != [] {
      var q := requests[0];
      CreateKeepsNamesUnique(categories, q.name, q.description, q.newId);
      ReplayKeepsNamesUnique(CreateCategoryResult(categories, q.name, q.description, q.newId).0, requests[1..]);
    }
  }

  /** Every requested name is stored at the end, whether it was created or already there. */
  lemma {:induction false} ReplayStoresEveryName(categories: seq<Category>, requests: seq<CreateRequest>, k: nat)
    requires k < |requests|
    ensures NameTaken(Replay(categories, requests), requests[k].name)
    decreases |requests|
  {
    var q := requests[0];
    var next := CreateCategoryResult(categories, q.name, q.description, q.newId).0;
    if k == 0 {
      if !NameTaken(categories, q.name) {
        assert next[|categories|].name == q.name;
      }
      ReplayKeepsNames(next, requests[1..], q.name);
    } else {
      ReplayStoresEveryName(next, requests[1..], k - 1);
    }
  }

  /** A stored name stays stored: nothing removes categories. */
  lemma {:induction false} ReplayKeepsNames(categories: seq<Category>, requests: seq<CreateRequest>, name: string)
    requires NameTaken(categories, name)
    ensures NameTaken(Replay(categories, requests), name)
    decreases |requests|
  {
    if requests != [] {
      var q := requests[0];
      var next := CreateCategoryResult(categories, q.name, q.description, q.newId).0;
      var j :| 0 <= j < |categories| && categories[j].name == name;
      assert next[j] == categories[j];
      ReplayKeepsNames(next, requests[1..], name);
    }
  }

  // ---- The collection, updated in place ----

  class CategoryStore {
    var categories: seq<Category>

    ghost predicate Valid()
      reads this
    {
      UniqueNames(categories) && UniqueCategoryIds(categories)
    }

    constructor ()
      ensures categories == [] && Valid()
    {
      categories := [];
    }

    /** createCategory; `newId` is the fresh id the database assigns. */
    method CreateCategory(name: string, description: Option<string>, newId: string) returns (reply: Reply)
      requires Valid()
      requires forall j :: 0 <= j < |categories| ==> categories[j].id != newId
      modifies this
      ensures Valid()
      ensures (categories, reply) == CreateCategoryResult(old(categories), name, description, newId)
    {
      var found := FirstIndex(categories, (c: Category) => c.name == name);
      if found.Some? {
        return Reply(409, Outcome(false, CategoryExists));
      }
      var c := Category(newId, name, description);
      categories := categories + [c];
      reply := Reply(201, CategoryCreated(true, CategoryCreatedMessage, c));
    }
  }
}
