/**
 * The computations App performs on its `articles` array: the spread-append of a
 * created article, the `map` that swaps in an updated article, the `filter` run
 * after a delete, and the `find` that picks the article shown in the edit form.
 */
module ArticleList {
  import opened Wrappers
  import opened Js

  /** An article as the server returns it; `article_id` is a server-assigned number. */
  datatype Article = Article(articleId: int, title: string, text: string, topic: string)

  /** `art.article_id === id` */
  predicate HasId(a: Article, id: Value)
  {
    StrictEquals(Num(a.articleId), id)
  }

  /** How many entries of `s` carry the numeric id `n`. */
  function CountId(s: seq<Article>, n: int): nat
  {
    if s == [] then 0
    else (if s[0].articleId == n then 1 else 0) + CountId(s[1..], n)
  }

  /** `articles.find(art => art.article_id === id)`: the first entry with that id, if any. */
  function FindById(s: seq<Article>, id: Value): (r: Option<Article>)
    ensures r.None? <==> forall i :: 0 <= i < |s| ==> !HasId(s[i], id)
    ensures r.Some? ==> exists i :: 0 <= i < |s| && s[i] == r.value && HasId(s[i], id) &&
                                    forall j :: 0 <= j < i ==> !HasId(s[j], id)
  {
    if s == [] then None
    else if HasId(s[0], id) then Some(s[0])
    else
      var r := FindById(s[1..], id);
      assert r.Some? ==> exists i :: 1 <= i < |s| && s[i] == r.value && HasId(s[i], id) &&
                                     forall j :: 1 <= j < i ==> !HasId(s[j], id) by {
        if r.Some? {
          var k :| 0 <= k < |s[1..]| && s[1..][k] == r.value && HasId(s[1..][k], id) &&
                   forall j :: 0 <= j < k ==> !HasId(s[1..][j], id);
          assert forall j :: 1 <= j < k + 1 ==> !HasId(s[j], id) by {
            forall j | 1 <= j < k + 1 ensures !HasId(s[j], id) {
              assert s[j] == s[1..][j - 1];
            }
          }
        }
      }
      r
  }

  /**
   * `articles.map(art => art.article_id === id ? updated : art)`: every entry with
   * the id is replaced by `updated`, every other entry stays where it was.
   */
  function ReplaceById(s: seq<Article>, id: Value, updated: Article): (r: seq<Article>)
    ensures |r| == |s|
    ensures forall i :: 0 <= i < |s| ==> r[i] == if HasId(s[i], id) then updated else s[i]
  {
    if s == [] then []
    else [if HasId(s[0], id) then updated else s[0]] + ReplaceById(s[1..], id, updated)
  }

  /** `articles.filter(keep)`: the entries `keep` accepts, each as often as before, in order. */
  function Filter(s: seq<Article>, keep: Article -> bool): (r: seq<Article>)
    ensures |r| <= |s|
    ensures forall x :: multiset(r)[x] == if keep(x) then multiset(s)[x] else 0
    ensures (forall i :: 0 <= i < |s| ==> keep(s[i])) ==> r == s
  {
    if s == [] then []
    else
      assert s == [s[0]] + s[1..];
      (if keep(s[0]) then [s[0]] else []) + Filter(s[1..], keep)
  }

  /** `filter` keeps the accepted entries in their order: filtering a concatenation filters each part. */
  lemma {:induction false} FilterConcat(s: seq<Article>, u: seq<Article>, keep: Article -> bool)
    ensures Filter(s + u, keep) == Filter(s, keep) + Filter(u, keep)
  {
    if s == [] {
      assert s + u == u;
    } else {
      assert (s + u)[0] == s[0];
      assert (s + u)[1..] == s[1..] + u;
      FilterConcat(s[1..], u, keep);
    }
  }

  /**
   * The delete handler's filter as the component writes it:
   * `articles.filter(art => !art.article_id !== article_id)`. `!art.article_id` is a
   * boolean, so for any id that is not itself a boolean the comparison is always
   * true and nothing is removed; a boolean id removes the entries whose
   * `!article_id` equals it.
   */
  function FilterAsWritten(s: seq<Article>, id: Value): (r: seq<Article>)
    ensures !id.Bool? ==> r == s
    ensures id.Bool? ==> forall x :: multiset(r)[x] == if (x.articleId == 0) == id.b then 0 else multiset(s)[x]
  {
    Filter(s, (art: Article) => !StrictEquals(Not(Num(art.articleId)), id))
  }

  /** The filter the delete handler evidently intends: `art.article_id !== article_id`. */
  function RemoveById(s: seq<Article>, id: Value): (r: seq<Article>)
    ensures forall x :: x in r ==> !HasId(x, id)
    ensures forall x :: multiset(r)[x] == if HasId(x, id) then 0 else multiset(s)[x]
  {
    var r := Filter(s, (art: Article) => !HasId(art, id));
    assert forall x :: x in r ==> !HasId(x, id) by {
      forall x | x in r ensures !HasId(x, id) {
        assert x in multiset(r);
      }
    }
    r
  }

  /** The corrected filter keeps the surviving entries in their order. */
  lemma RemoveByIdConcat(s: seq<Article>, u: seq<Article>, id: Value)
    ensures RemoveById(s + u, id) == RemoveById(s, id) + RemoveById(u, id)
  {
    FilterConcat(s, u, (art: Article) => !HasId(art, id));
  }

  /** Appending one article adds exactly one entry with its id and none with any other. */
  lemma {:induction false} CountIdAppend(s: seq<Article>, a: Article, n: int)
    ensures CountId(s + [a], n) == CountId(s, n) + (if a.articleId == n then 1 else 0)
  {
    if s == [] {
      assert [a][1..] == [];
    } else {
      assert (s + [a])[1..] == s[1..] + [a];
      CountIdAppend(s[1..], a, n);
    }
  }

  /**
   * Replacing by id with an article that carries that same id keeps the number of
   * entries with the id, and every such entry afterwards is the new article.
   */
  lemma {:induction false} ReplaceByIdKeepsCount(s: seq<Article>, n: int, updated: Article)
    requires updated.articleId == n
    ensures CountId(ReplaceById(s, Num(n), updated), n) == CountId(s, n)
    ensures forall x :: x in ReplaceById(s, Num(n), updated) && x.articleId == n ==> x == updated
  {
    var r := ReplaceById(s, Num(n), updated);
    if s != [] {
      ReplaceByIdKeepsCount(s[1..], n, updated);
      assert r[1..] == ReplaceById(s[1..], Num(n), updated);
    }
  }

  /** No entry with id `n` exactly when the count of `n` is zero. */
  lemma {:induction false} CountIdZero(s: seq<Article>, n: int)
    ensures CountId(s, n) == 0 <==> forall x :: x in s ==> x.articleId != n
  {
    if s != [] {
      CountIdZero(s[1..], n);
      assert forall x :: x in s <==> x == s[0] || x in s[1..];
    }
  }

  /** The corrected filter leaves no entry with the deleted id. */
  lemma RemoveByIdRemovesAll(s: seq<Article>, n: int)
    ensures CountId(RemoveById(s, Num(n)), n) == 0
  {
    CountIdZero(RemoveById(s, Num(n)), n);
  }

  /** The filter as written leaves every entry with the deleted numeric id in place. */
  lemma FilterAsWrittenKeepsDeleted(s: seq<Article>, n: int)
    ensures CountId(FilterAsWritten(s, Num(n)), n) == CountId(s, n)
  {
  }

  /** Concretely: deleting id 3 from a one-entry list holding article 3 leaves it there. */
  lemma FilterAsWrittenCounterexample()
    ensures var s := [Article(3, "T", "X", "JS")];
      FilterAsWritten(s, Num(3)) == s && CountId(s, 3) == 1
  {
    var s := [Article(3, "T", "X", "JS")];
    assert CountId(s[1..], 3) == 0;
  }
}
