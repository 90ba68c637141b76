/** controllers/CategoryController.js: creating, listing (sorted by name) and counting categories. */
module CategoryController {
  import opened Base
  import opened Text
  import opened Externals
  import opened Store
  import opened Http
  import opened Validation

  /** Ascending by name in code-point order, the order `sort("category")` returns. */
  predicate SortedByName(s: seq<Category>) {
    forall i, j :: 0 <= i < j < |s| ==> StrLe(s[i].name, s[j].name)
  }

  /** `x` may precede every element of `s`. */
  predicate NoLaterThanAll(x: Category, s: seq<Category>) {
    forall j :: 0 <= j < |s| ==> StrLe(x.name, s[j].name)
  }

  lemma ConsSorted(x: Category, s: seq<Category>)
    requires SortedByName(s) && NoLaterThanAll(x, s)
    ensures SortedByName([x] + s)
  {
    var r := [x] + s;
    forall i, j | 0 <= i < j < |r| ensures StrLe(r[i].name, r[j].name) {
      assert r[j] == s[j - 1];
      if i > 0 {
        assert r[i] == s[i - 1];
      }
    }
  }

  /** Something that may precede the head of a sorted sequence may precede all of it. */
  lemma FrontIsLeast(x: Category, s: seq<Category>)
    requires SortedByName(s) && |s| > 0 && StrLe(x.name, s[0].name)
    ensures NoLaterThanAll(x, s)
  {
    forall j | 0 < j < |s| ensures StrLe(x.name, s[j].name) {
      StrLeTransitive(x.name, s[0].name, s[j].name);
    }
  }

  /** The head of a sorted sequence may precede any rearrangement of its tail plus one
      element that sorts after it. */
  lemma HeadPrecedesInsertion(s: seq<Category>, c: Category, t: seq<Category>)
    requires SortedByName(s) && |s| > 0 && StrLe(s[0].name, c.name)
    requires multiset(t) == multiset(s[1..]) + multiset{c}
    ensures NoLaterThanAll(s[0], t)
  {
    forall j | 0 <= j < |t| ensures StrLe(s[0].name, t[j].name) {
      assert t[j] in multiset(t);
      if t[j] != c {
        assert t[j] in multiset(s[1..]);
        var k :| 0 <= k < |s[1..]| && s[1..][k] == t[j];
        assert s[k + 1] == t[j];
      }
    }
  }

  /** One insertion step: `c` placed before the first name it does not exceed. */
  function Insert(c: Category, s: seq<Category>): (r: seq<Category>)
    requires SortedByName(s)
    ensures SortedByName(r)
    ensures multiset(r) == multiset(s) + multiset{c}
    decreases |s|
  {
    if |s| == 0 then [c]
    else if StrLe(c.name, s[0].name) then
      FrontIsLeast(c, s);
      ConsSorted(c, s);
      [c] + s
    else
      StrLeTotal(c.name, s[0].name);
      var t := Insert(c, s[1..]);
      HeadPrecedesInsertion(s, c, t);
      ConsSorted(s[0], t);
      assert s == [s[0]] + s[1..];
      [s[0]] + t
  }

  /** The categories ordered by name: a sorted rearrangement of the input. */
  function SortByName(s: seq<Category>): (r: seq<Category>)
    ensures SortedByName(r)
    ensures multiset(r) == multiset(s)
    ensures |r| == |s|
  {
    if |s| == 0 then []
    else
      var t := SortByName(s[1..]);
      assert s == [s[0]] + s[1..];
      Insert(s[0], t)
  }

  /** `createCategory`. `id` is the ObjectId the new document gets. The validation message is
      sent as a bare string; the saved document is sent with status 200. */
  function CreateCategory(env: Env, req: Request, w: World, id: string): (o: Outcome)
    ensures !CategoryAcceptable(req.body) ==>
      && o.response == Response(400, Plain(IssueMessage(ValidateCategory(env, req.body).error)))
      && o.world == w
    ensures o.response.status == 200 <==>
      CategoryAcceptable(req.body) && forall i :: 0 <= i < |w.categories| ==> w.categories[i].id != id
    ensures o.response.status == 200 ==>
      var c := Category(id, Raw(req.body, "category"));
      && StrField(req.body, "category") == Some(c.name)
      && o.response.payload == OneCategory(c)
      && o.world == w.(categories := w.categories + [c])
    ensures o.response.status != 200 ==> o.world == w
    ensures UniqueIndexes(w) ==> UniqueIndexes(o.world)
  {
    match ValidateCategory(env, req.body)
    case Failure(i) => Outcome(Response(400, Plain(IssueMessage(i))), w)
    case Success(name) =>
      var c := Category(id, name);
      match InsertCategory(w, c)
      case None => Crash(w, "E11000 duplicate key error")
      case Some(w') => Outcome(Response(200, OneCategory(c)), w')
  }

  /** There is no check for an existing name: creating the same category twice (under two
      fresh ids) stores it twice. */
  lemma CreateCategoryAllowsDuplicateNames(env: Env, req: Request, w: World, id1: string, id2: string)
    requires CategoryAcceptable(req.body) && id1 != id2
    requires forall i :: 0 <= i < |w.categories| ==> w.categories[i].id != id1 && w.categories[i].id != id2
    ensures var w1 := CreateCategory(env, req, w, id1).world;
            var w2 := CreateCategory(env, req, w1, id2).world;
            && |w2.categories| == |w.categories| + 2
            && w2.categories[|w.categories|].name == w2.categories[|w.categories| + 1].name
  {
    var w1 := CreateCategory(env, req, w, id1).world;
    assert forall i :: 0 <= i < |w1.categories| ==> w1.categories[i].id != id2;
  }

  /** `getCategories`: every stored category, each once, ascending by name. */
  function GetCategories(w: World): (o: Outcome)
    ensures o.world == w && o.response.status == 200 && o.response.payload.Categories?
    ensures SortedByName(o.response.payload.categories)
    ensures multiset(o.response.payload.categories) == multiset(w.categories)
  {
    Outcome(Response(200, Categories(SortByName(w.categories))), w)
  }

  /** `getCategoriesCount`. */
  function GetCategoriesCount(w: World): (o: Outcome)
    ensures o.world == w && o.response.status == 200
    ensures o.response.payload == Count(|w.categories|)
  {
    Outcome(Response(200, Count(|w.categories|)), w)
  }
}
