/**
 * The documents both search routines rank, a document paired with its
 * per-query relevance score, and the stable descending sort that
 * `list.sort(key=lambda x: x["relevance_score"], reverse=True)` performs.
 */
module Corpus {
  import opened Wrappers
  import opened Text

  datatype Kind = CourseMaterial | DiscoursePost

  /** An entry of a forum post's `replies` list. */
  datatype Reply = Reply(content: string, url: string)

  /**
   * A stored item.  `url == ""` stands for a missing or empty `url` key, which
   * Python treats alike (`item.get("url")` is falsy); `date` is only set on
   * forum posts.
   */
  datatype Document = Document(
    title: string,
    content: string,
    url: string,
    kind: Kind,
    date: Option<string>,
    replies: seq<Reply>)

  /** The lowercased `"{title} {content}"` both scorers search. */
  function SearchText(d: Document): string
  {
    Lower(d.title + " " + d.content)
  }

  /** `{**item, "relevance_score": score}`: the document with its score added. */
  datatype Scored = Scored(doc: Document, score: nat)

  predicate SortedByScoreDesc(s: seq<Scored>)
  {
    forall i, j :: 0 <= i < j < |s| ==> s[i].score >= s[j].score
  }

  /** The entries of `s` whose score is `v`, in their order in `s`. */
  function WithScore(s: seq<Scored>, v: nat): (r: seq<Scored>)
    ensures |r| <= |s|
  {
    if s == [] then []
    else if s[0].score == v then [s[0]] + WithScore(s[1..], v)
    else WithScore(s[1..], v)
  }

  /** Places `x` before the first entry of `s` whose score is not above its own. */
  function InsertByScore(x: Scored, s: seq<Scored>): seq<Scored>
  {
    if s == [] || x.score >= s[0].score then [x] + s
    else [s[0]] + InsertByScore(x, s[1..])
  }

  /** Python's stable `sort(..., reverse=True)` on the score key. */
  function SortByScoreDesc(s: seq<Scored>): seq<Scored>
  {
    if s == [] then [] else InsertByScore(s[0], SortByScoreDesc(s[1..]))
  }

  lemma {:induction false} InsertKeepsEntries(x: Scored, s: seq<Scored>)
    ensures multiset(InsertByScore(x, s)) == multiset([x] + s)
    ensures |InsertByScore(x, s)| == |s| + 1
  {
    if s != [] && x.score < s[0].score {
      InsertKeepsEntries(x, s[1..]);
      assert s == [s[0]] + s[1..];
    }
  }

  lemma {:induction false} InsertKeepsBound(x: Scored, s: seq<Scored>, b: nat)
    requires x.score <= b
    requires forall i :: 0 <= i < |s| ==> s[i].score <= b
    ensures forall i :: 0 <= i < |InsertByScore(x, s)| ==> InsertByScore(x, s)[i].score <= b
  {
    if s != [] && x.score < s[0].score {
      InsertKeepsBound(x, s[1..], b);
    }
  }

  lemma {:induction false} InsertKeepsSorted(x: Scored, s: seq<Scored>)
    requires SortedByScoreDesc(s)
    ensures SortedByScoreDesc(InsertByScore(x, s))
  {
    if s != [] && x.score < s[0].score {
      InsertKeepsSorted(x, s[1..]);
      InsertKeepsBound(x, s[1..], s[0].score);
    }
  }

  lemma {:induction false} InsertKeepsTies(x: Scored, s: seq<Scored>, v: nat)
    ensures WithScore(InsertByScore(x, s), v) == WithScore([x] + s, v)
  {
    if s == [] || x.score >= s[0].score {
    } else {
      InsertKeepsTies(x, s[1..], v);
      assert ([x] + s)[1..] == s;
      assert ([x] + s[1..])[1..] == s[1..];
      assert ([s[0]] + InsertByScore(x, s[1..]))[1..] == InsertByScore(x, s[1..]);
      assert s == [s[0]] + s[1..];
    }
  }

  /** The sort yields a non-increasing sequence with exactly the input's entries. */
  lemma {:induction false} SortIsSortedPermutation(s: seq<Scored>)
    ensures SortedByScoreDesc(SortByScoreDesc(s))
    ensures multiset(SortByScoreDesc(s)) == multiset(s)
    ensures |SortByScoreDesc(s)| == |s|
  {
    if s != [] {
      SortIsSortedPermutation(s[1..]);
      InsertKeepsSorted(s[0], SortByScoreDesc(s[1..]));
      InsertKeepsEntries(s[0], SortByScoreDesc(s[1..]));
      assert s == [s[0]] + s[1..];
    }
  }

  /** Stability: entries with equal scores keep their input order. */
  lemma {:induction false} SortIsStable(s: seq<Scored>, v: nat)
    ensures WithScore(SortByScoreDesc(s), v) == WithScore(s, v)
  {
    if s != [] {
      SortIsStable(s[1..], v);
      InsertKeepsTies(s[0], SortByScoreDesc(s[1..]), v);
      assert ([s[0]] + SortByScoreDesc(s[1..]))[1..] == SortByScoreDesc(s[1..]);
    }
  }

  lemma {:induction false} WithScoreConcat(a: seq<Scored>, b: seq<Scored>, v: nat)
    ensures WithScore(a + b, v) == WithScore(a, v) + WithScore(b, v)
  {
    if a != [] {
      WithScoreConcat(a[1..], b, v);
      assert (a + b)[1..] == a[1..] + b;
    } else {
      assert a + b == b;
    }
  }

  /** Keeping a prefix keeps a prefix of every tie group. */
  lemma {:induction false} WithScorePrefix(s: seq<Scored>, n: nat, v: nat)
    requires n <= |s|
    ensures WithScore(s[..n], v) <= WithScore(s, v)
  {
    if n > 0 {
      WithScorePrefix(s[1..], n - 1, v);
      assert s[..n][1..] == s[1..][..n - 1];
    }
  }

  lemma {:induction false} UniformWithScore(s: seq<Scored>, v: nat)
    requires forall k :: 0 <= k < |s| ==> s[k].score == v
    ensures WithScore(s, v) == s
  {
    if s != [] {
      UniformWithScore(s[1..], v);
    }
  }

  /** When every entry has the same score, the stable sort leaves the order alone. */
  lemma SortUniformIsIdentity(s: seq<Scored>, v: nat)
    requires forall k :: 0 <= k < |s| ==> s[k].score == v
    ensures SortByScoreDesc(s) == s
  {
    var t := SortByScoreDesc(s);
    SortIsSortedPermutation(s);
    SortIsStable(s, v);
    forall k | 0 <= k < |t| ensures t[k].score == v {
      assert t[k] in multiset(s);
    }
    UniformWithScore(t, v);
    UniformWithScore(s, v);
  }
}
