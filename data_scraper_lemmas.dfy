/**
 * Properties of the document store's search: which documents it returns,
 * in what order, how many, and how their scores are bounded.
 */
module DataScrapingLemmas {
  import opened Text
  import opened Corpus
  import opened DataScraping

  /** The fixed seed: eight course topics and six dated forum posts. */
  lemma SeedShape()
    ensures |CourseTopics| == 8 && |DiscourseSeed| == 6
    ensures forall k :: 0 <= k < |CourseTopics| ==>
      CourseTopics[k].kind == CourseMaterial && CourseTopics[k].date.None? && CourseTopics[k].replies == []
    ensures forall k :: 0 <= k < |DiscourseSeed| ==>
      DiscourseSeed[k].kind == DiscoursePost && DiscourseSeed[k].date.Some?
    ensures |DiscourseSeed[0].replies| == 1
  {
  }

  /** An entry is in `Hits(docs, ql)` exactly when its document is a hit of `docs` carrying its score. */
  lemma {:induction false} HitsFacts(docs: seq<Document>, ql: string)
    ensures |Hits(docs, ql)| <= |docs|
    ensures forall x :: x in Hits(docs, ql) <==> x.doc in docs && Hit(ql, x.doc) && x.score == ItemRelevance(ql, x.doc)
    decreases |docs|
  {
    if docs != [] {
      var init := docs[..|docs| - 1];
      HitsFacts(init, ql);
      assert docs == init + [docs[|docs| - 1]];
      forall d | d in docs ensures d in init || d == docs[|docs| - 1] {
      }
    }
  }

  lemma {:induction false} CountSumAtLeast(words: seq<string>, text: string)
    requires forall k :: 0 <= k < |words| ==> words[k] != [] && Contains(text, words[k])
    ensures CountSum(words, text) >= |words|
    decreases |words|
  {
    if words != [] {
      CountSumAtLeast(words[..|words| - 1], text);
      CountPositive(text, words[|words| - 1]);
    }
  }

  lemma SearchTextSplits(d: Document)
    ensures SearchText(d) == Lower(d.title) + " " + Lower(d.content)
  {
    LowerConcat(d.title + " ", d.content);
    LowerConcat(d.title, " ");
    assert Lower(" ") == " ";
  }

  /**
   * Every word of the query occurs in the text of a hit, so a hit scores at
   * least the number of query words, and a title hit five more.
   */
  lemma HitScoreLowerBound(ql: string, d: Document)
    requires Hit(ql, d)
    ensures ItemRelevance(ql, d) >= |SplitWhitespace(ql)|
    ensures Contains(Lower(d.title), ql) ==> ItemRelevance(ql, d) >= 5 + |SplitWhitespace(ql)|
  {
    var words := SplitWhitespace(ql);
    var text := SearchText(d);
    SplitNonEmpty(ql);
    SearchTextSplits(d);
    forall k | 0 <= k < |words| ensures Contains(text, words[k]) {
      if Contains(Lower(d.title), ql) {
        ContainsTransitive(Lower(d.title), ql, words[k]);
        ContainsPrefix(Lower(d.title), " " + Lower(d.content), words[k]);
        assert Lower(d.title) + (" " + Lower(d.content)) == text;
      } else {
        ContainsTransitive(Lower(d.content), ql, words[k]);
        ContainsSuffix(Lower(d.title) + " ", Lower(d.content), words[k]);
      }
    }
    CountSumAtLeast(words, text);
  }

  /**
   * `search_content` returns hits only, each with its own score, sorted by
   * non-increasing score, and no more than a non-negative `limit`.
   */
  lemma SearchResultsShape(course: seq<Document>, posts: seq<Document>, query: string, limit: int)
    ensures var r := SearchResults(course, posts, query, limit);
      && SortedByScoreDesc(r)
      && (limit >= 0 ==> |r| <= limit)
      && forall x :: x in r ==>
           x.doc in course + posts && Hit(Lower(query), x.doc) && x.score == ItemRelevance(Lower(query), x.doc)
  {
    var ql := Lower(query);
    var c := Hits(course, ql) + Hits(posts, ql);
    var s := SortByScoreDesc(c);
    var r := SearchResults(course, posts, query, limit);
    HitsFacts(course, ql);
    HitsFacts(posts, ql);
    SortIsSortedPermutation(c);
    assert r == s[..|r|];
    forall x | x in r
      ensures x.doc in course + posts && Hit(ql, x.doc) && x.score == ItemRelevance(ql, x.doc)
    {
      assert x in s;
      assert x in multiset(c);
      assert x in c;
    }
  }

  /**
   * Nothing better is left out: a hit missing from the results of a
   * non-negative `limit` means `limit` entries were returned, none scoring
   * below it.
   */
  lemma SearchResultsKeepsBest(course: seq<Document>, posts: seq<Document>, query: string, limit: int, d: Document)
    requires limit >= 0
    requires d in course + posts && Hit(Lower(query), d)
    requires Scored(d, ItemRelevance(Lower(query), d)) !in SearchResults(course, posts, query, limit)
    ensures |SearchResults(course, posts, query, limit)| == limit
    ensures forall x :: x in SearchResults(course, posts, query, limit) ==> x.score >= ItemRelevance(Lower(query), d)
  {
    var ql := Lower(query);
    var c := Hits(course, ql) + Hits(posts, ql);
    var s := SortByScoreDesc(c);
    var r := SearchResults(course, posts, query, limit);
    var x := Scored(d, ItemRelevance(ql, d));
    HitsFacts(course, ql);
    HitsFacts(posts, ql);
    assert x in c;
    SortIsSortedPermutation(c);
    assert x in multiset(s);
    var j :| 0 <= j < |s| && s[j] == x;
    assert r == s[..|r|];
    forall y | y in r ensures y.score >= x.score {
      var k :| 0 <= k < |r| && r[k] == y;
      assert s[k] == y;
    }
  }

  /** With a limit at least the store's size, every hit is returned. */
  lemma SearchResultsComplete(course: seq<Document>, posts: seq<Document>, query: string, limit: int)
    requires limit >= |course| + |posts|
    ensures forall d :: d in course + posts && Hit(Lower(query), d) ==>
      Scored(d, ItemRelevance(Lower(query), d)) in SearchResults(course, posts, query, limit)
  {
    var ql := Lower(query);
    var c := Hits(course, ql) + Hits(posts, ql);
    var s := SortByScoreDesc(c);
    HitsFacts(course, ql);
    HitsFacts(posts, ql);
    SortIsSortedPermutation(c);
    assert SearchResults(course, posts, query, limit) == s;
    forall d | d in course + posts && Hit(ql, d) ensures Scored(d, ItemRelevance(ql, d)) in s {
      var x := Scored(d, ItemRelevance(ql, d));
      assert x in c;
      assert x in multiset(s);
    }
  }

  /** Among equal scores, course topics come before forum posts and each keeps its list order. */
  lemma SearchResultsTies(course: seq<Document>, posts: seq<Document>, query: string, limit: int, v: nat)
    ensures WithScore(SearchResults(course, posts, query, limit), v)
      <= WithScore(Hits(course, Lower(query)), v) + WithScore(Hits(posts, Lower(query)), v)
  {
    var ql := Lower(query);
    var c := Hits(course, ql) + Hits(posts, ql);
    var s := SortByScoreDesc(c);
    var r := SearchResults(course, posts, query, limit);
    SortIsSortedPermutation(c);
    SortIsStable(c, v);
    WithScoreConcat(Hits(course, ql), Hits(posts, ql), v);
    assert r == s[..|r|];
    WithScorePrefix(s, |r|, v);
  }

  lemma {:induction false} HitsEmptyQuery(docs: seq<Document>)
    ensures Hits(docs, "") == seq(|docs|, i requires 0 <= i < |docs| => Scored(docs[i], 5))
    decreases |docs|
  {
    if docs != [] {
      var d := docs[|docs| - 1];
      HitsEmptyQuery(docs[..|docs| - 1]);
      assert StartsWith(Lower(d.title), "");
      assert SplitWhitespace("") == [];
    }
  }

  /** An empty query matches everything: the store in order, each scored 5 (the title boost), cut at `limit`. */
  lemma EmptyQueryListsStore(course: seq<Document>, posts: seq<Document>, limit: int)
    ensures SearchResults(course, posts, "", limit)
      == Slice(seq(|course + posts|, i requires 0 <= i < |course + posts| => Scored((course + posts)[i], 5)), limit)
  {
    assert Lower("") == "";
    HitsEmptyQuery(course);
    HitsEmptyQuery(posts);
    var c := Hits(course, "") + Hits(posts, "");
    assert c == seq(|course + posts|, i requires 0 <= i < |course + posts| => Scored((course + posts)[i], 5));
    SortUniformIsIdentity(c, 5);
  }
}
