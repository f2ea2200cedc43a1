/**
 * Properties of the question-answering engine: the scorer's formula and
 * boosts, what top-5 retrieval keeps, rule priority, the answer branches and
 * the shape of the link list.
 */
module QuestionAnsweringLemmas {
  import opened Wrappers
  import opened Text
  import opened Corpus
  import opened QuestionAnswering

  // ---------------------------------------------------------------------
  // Scoring

  /** `"" in text` holds and an empty question has no words: every item scores 20. */
  lemma EmptyQuestionScoresTwenty(d: Document)
    ensures Relevance("", d) == 20
  {
    assert Lower("") == "";
    assert StartsWith(SearchText(d), "");
  }

  lemma {:induction false} WordScoreSuffixMonotone(words: seq<string>, x: string, y: string)
    ensures WordScore(words, y) <= WordScore(words, x + y)
    decreases |words|
  {
    if words != [] {
      var w := words[|words| - 1];
      WordScoreSuffixMonotone(words[..|words| - 1], x, y);
      CountSuffixMonotone(x, y, w);
      MulMonotone(Count(y, w), Count(x + y, w), |w|);
    }
  }

  lemma MulMonotone(a: nat, b: nat, c: nat)
    requires a <= b
    ensures a * c <= b * c
  {
  }

  /**
   * A question word found in the title adds the title boost: the item scores
   * at least 10 more than the same item with its title removed.
   */
  lemma TitleMatchBoosts(question: string, d: Document)
    requires AnyContained(Words(Lower(question)), Lower(d.title))
    ensures Relevance(question, d) >= Relevance(question, d.(title := "")) + 10
  {
    var words := Words(Lower(question));
    var d' := d.(title := "");
    var tail := Lower(" " + d.content);
    assert d.title + " " + d.content == d.title + (" " + d.content);
    LowerConcat(d.title, " " + d.content);
    assert SearchText(d) == Lower(d.title) + tail;
    assert d'.title + " " + d'.content == " " + d.content;
    assert SearchText(d') == tail;
    WordScoreSuffixMonotone(words, Lower(d.title), tail);
    if Contains(tail, Lower(question)) {
      ContainsSuffix(Lower(d.title), tail, Lower(question));
    }
    WordsNonEmpty(Lower(question));
    assert Lower(d'.title) == "";
    assert !AnyContained(words, Lower(d'.title));
  }

  // ---------------------------------------------------------------------
  // Retrieval

  /** `Scoring` keeps exactly the positively scored documents, each with its own score. */
  lemma {:induction false} ScoringFacts(docs: seq<Document>, q: string)
    ensures forall k :: 0 <= k < |Scoring(docs, q)| ==>
      && Scoring(docs, q)[k].score > 0
      && Scoring(docs, q)[k].score == Relevance(q, Scoring(docs, q)[k].doc)
      && Scoring(docs, q)[k].doc in docs
    ensures forall i :: 0 <= i < |docs| && Relevance(q, docs[i]) > 0 ==>
      Scored(docs[i], Relevance(q, docs[i])) in Scoring(docs, q)
    decreases |docs|
  {
    if docs != [] {
      var init := docs[..|docs| - 1];
      ScoringFacts(init, q);
      forall k | 0 <= k < |Scoring(docs, q)|
        ensures Scoring(docs, q)[k].doc in docs
      {
        if k < |Scoring(init, q)| {
          assert Scoring(docs, q)[k] == Scoring(init, q)[k];
          assert Scoring(init, q)[k].doc in init;
        }
      }
      forall i | 0 <= i < |docs| && Relevance(q, docs[i]) > 0
        ensures Scored(docs[i], Relevance(q, docs[i])) in Scoring(docs, q)
      {
        if i < |docs| - 1 {
          assert docs[i] == init[i];
        }
      }
    }
  }

  /** The candidates `_search_relevant_content` sorts: course items first, then posts. */
  function Candidates(course: seq<Document>, posts: seq<Document>, question: string): seq<Scored>
  {
    Scoring(course, Lower(question)) + Scoring(posts, Lower(question))
  }

  lemma CandidateFacts(course: seq<Document>, posts: seq<Document>, question: string)
    ensures forall k :: 0 <= k < |Candidates(course, posts, question)| ==>
      && Candidates(course, posts, question)[k].score > 0
      && Candidates(course, posts, question)[k].score == Relevance(Lower(question), Candidates(course, posts, question)[k].doc)
      && Candidates(course, posts, question)[k].doc in course + posts
    ensures forall i :: 0 <= i < |course + posts| && Relevance(Lower(question), (course + posts)[i]) > 0 ==>
      Scored((course + posts)[i], Relevance(Lower(question), (course + posts)[i])) in Candidates(course, posts, question)
  {
    var ql := Lower(question);
    ScoringFacts(course, ql);
    ScoringFacts(posts, ql);
    var c := Candidates(course, posts, question);
    forall k | 0 <= k < |c|
      ensures c[k].score > 0 && c[k].score == Relevance(ql, c[k].doc) && c[k].doc in course + posts
    {
      if k < |Scoring(course, ql)| {
        assert c[k] == Scoring(course, ql)[k];
      } else {
        assert c[k] == Scoring(posts, ql)[k - |Scoring(course, ql)|];
      }
    }
    forall i | 0 <= i < |course + posts| && Relevance(ql, (course + posts)[i]) > 0
      ensures Scored((course + posts)[i], Relevance(ql, (course + posts)[i])) in c
    {
      if i < |course| {
        assert (course + posts)[i] == course[i];
      } else {
        assert (course + posts)[i] == posts[i - |course|];
      }
    }
  }

  /**
   * At most five entries, each a corpus document with its positive score,
   * in non-increasing score order.
   */
  lemma TopRelevantShape(course: seq<Document>, posts: seq<Document>, question: string)
    ensures |TopRelevant(course, posts, question)| <= 5
    ensures SortedByScoreDesc(TopRelevant(course, posts, question))
    ensures forall k :: 0 <= k < |TopRelevant(course, posts, question)| ==>
      && TopRelevant(course, posts, question)[k].score > 0
      && TopRelevant(course, posts, question)[k].score == Relevance(Lower(question), TopRelevant(course, posts, question)[k].doc)
      && TopRelevant(course, posts, question)[k].doc in course + posts
  {
    var c := Candidates(course, posts, question);
    CandidateFacts(course, posts, question);
    SortIsSortedPermutation(c);
    var s := SortByScoreDesc(c);
    forall k | 0 <= k < |TopRelevant(course, posts, question)|
      ensures TopRelevant(course, posts, question)[k] in c
    {
      assert TopRelevant(course, posts, question)[k] == s[k];
      assert s[k] in multiset(s);
    }
  }

  /**
   * Nothing better is left out: a positively scored document missing from the
   * result means five entries were kept, none scoring below it.
   */
  lemma TopRelevantKeepsBest(course: seq<Document>, posts: seq<Document>, question: string, d: Document)
    requires d in course + posts
    requires Relevance(Lower(question), d) > 0
    requires Scored(d, Relevance(Lower(question), d)) !in TopRelevant(course, posts, question)
    ensures |TopRelevant(course, posts, question)| == 5
    ensures forall k :: 0 <= k < 5 ==> TopRelevant(course, posts, question)[k].score >= Relevance(Lower(question), d)
  {
    var c := Candidates(course, posts, question);
    var x := Scored(d, Relevance(Lower(question), d));
    CandidateFacts(course, posts, question);
    var i :| 0 <= i < |course + posts| && (course + posts)[i] == d;
    assert x in c;
    SortIsSortedPermutation(c);
    var s := SortByScoreDesc(c);
    assert x in multiset(s);
    var j :| 0 <= j < |s| && s[j] == x;
    if j < 5 {
      assert TopRelevant(course, posts, question)[j] == x;
    }
  }

  /**
   * Ties keep corpus order: the entries of any one score are a prefix of the
   * course items with that score followed by the posts with that score.
   */
  lemma TopRelevantTies(course: seq<Document>, posts: seq<Document>, question: string, v: nat)
    ensures WithScore(TopRelevant(course, posts, question), v)
      <= WithScore(Scoring(course, Lower(question)), v) + WithScore(Scoring(posts, Lower(question)), v)
  {
    var c := Candidates(course, posts, question);
    var s := SortByScoreDesc(c);
    var t := TopRelevant(course, posts, question);
    SortIsStable(c, v);
    WithScoreConcat(Scoring(course, Lower(question)), Scoring(posts, Lower(question)), v);
    if |s| > 5 {
      assert t == s[..5];
      WithScorePrefix(s, 5, v);
    } else {
      assert t == s;
    }
  }

  lemma {:induction false} ScoringEmptyQuestion(docs: seq<Document>)
    ensures Scoring(docs, "") == seq(|docs|, i requires 0 <= i < |docs| => Scored(docs[i], 20))
    decreases |docs|
  {
    if docs != [] {
      ScoringEmptyQuestion(docs[..|docs| - 1]);
      EmptyQuestionScoresTwenty(docs[|docs| - 1]);
    }
  }

  /** An empty question retrieves the first five documents in corpus order, each scored 20. */
  lemma EmptyQuestionRetrievesCorpusPrefix(course: seq<Document>, posts: seq<Document>)
    ensures TopRelevant(course, posts, "")
      == Take(seq(|course + posts|, i requires 0 <= i < |course + posts| => Scored((course + posts)[i], 20)), 5)
  {
    assert Lower("") == "";
    ScoringEmptyQuestion(course);
    ScoringEmptyQuestion(posts);
    var c := Candidates(course, posts, "");
    assert c == seq(|course + posts|, i requires 0 <= i < |course + posts| => Scored((course + posts)[i], 20));
    SortUniformIsIdentity(c, 20);
  }

  // ---------------------------------------------------------------------
  // Rule priority and answers

  lemma RuleAnswersDistinct()
    ensures forall a, b :: 0 <= a < b < |QuestionPatterns| ==> QuestionPatterns[a].answer != QuestionPatterns[b].answer
  {
    // The seven answers have seven different lengths.
    var lengths := [228, 216, 224, 203, 301, 213, 245];
    assert forall a :: 0 <= a < 7 ==> |QuestionPatterns[a].answer| == lengths[a];
  }

  /** The first matching rule, in declaration order, gives the answer. */
  lemma FirstRuleAnswers(question: string, relevant: seq<Scored>, imageContext: Option<string>, i: nat)
    requires i < |QuestionPatterns| && Matches(QuestionPatterns[i], Lower(question))
    requires forall j :: 0 <= j < i ==> !Matches(QuestionPatterns[j], Lower(question))
    ensures GenerateAnswer(question, relevant, imageContext) == QuestionPatterns[i].answer
  {
    var m := FirstMatch(QuestionPatterns, Lower(question));
    assert m.Some?;
    assert m.value == i;
  }

  /** A rule that matches after an earlier matching rule never supplies the answer. */
  lemma LaterRuleNeverAnswers(question: string, relevant: seq<Scored>, imageContext: Option<string>, i: nat, j: nat)
    requires i < j < |QuestionPatterns|
    requires Matches(QuestionPatterns[i], Lower(question)) && Matches(QuestionPatterns[j], Lower(question))
    ensures GenerateAnswer(question, relevant, imageContext) != QuestionPatterns[j].answer
  {
    var m := FirstMatch(QuestionPatterns, Lower(question));
    assert m.Some? && m.value <= i;
    RuleAnswersDistinct();
  }

  /** No rule and nothing retrieved: the fixed fallback sentence. */
  lemma NothingFoundGivesFallback(question: string, imageContext: Option<string>)
    requires forall j :: 0 <= j < |QuestionPatterns| ==> !Matches(QuestionPatterns[j], Lower(question))
    ensures GenerateAnswer(question, [], imageContext) == FallbackAnswer
  {
    assert FirstMatch(QuestionPatterns, Lower(question)).None?;
  }

  /** No rule, no keyword, some content: an excerpt of the top item's first 200 characters. */
  lemma GenericAnswerQuotesTopItem(question: string, relevant: seq<Scored>, imageContext: Option<string>)
    requires forall j :: 0 <= j < |QuestionPatterns| ==> !Matches(QuestionPatterns[j], Lower(question))
    requires relevant != [] && !KeywordBranchApplies(Lower(question))
    ensures GenerateAnswer(question, relevant, imageContext)
      == "Based on the course materials: " + Take(relevant[0].doc.content, 200)
         + "... Please refer to the linked resources for more detailed information."
  {
    assert FirstMatch(QuestionPatterns, Lower(question)).None?;
  }

  /**
   * The keyword `elif` chain: the first condition that holds picks the
   * answer, and when any holds the excerpt of the top item is never given.
   */
  lemma KeywordChain(ql: string, top: Document)
    requires KeywordBranchApplies(ql)
    ensures var r := ContentAnswer(ql, top);
      var c1 := MentionsModel(ql);
      var c2 := Contains(ql, "python") && (Contains(ql, "setup") || Contains(ql, "environment"));
      var c3 := AnyContained(["visualization", "chart", "plot", "graph"], ql);
      var c4 := Contains(ql, "assignment") && (Contains(ql, "submit") || Contains(ql, "submission"));
      var c5 := MentionsContainers(ql);
      var c6 := MentionsDashboard(ql);
      var c7 := AnyContained(["exam", "2025", "september", "end-term"], ql);
      && r in [ModelAnswer, SetupKeywordAnswer, VisualizationAnswer, SubmissionAnswer, ContainerAnswer, DashboardAnswer, ExamAnswer]
      && (c1 ==> r == ModelAnswer)
      && (!c1 && c2 ==> r == SetupKeywordAnswer)
      && (!c1 && !c2 && c3 ==> r == VisualizationAnswer)
      && (!c1 && !c2 && !c3 && c4 ==> r == SubmissionAnswer)
      && (!c1 && !c2 && !c3 && !c4 && c5 ==> r == ContainerAnswer)
      && (!c1 && !c2 && !c3 && !c4 && !c5 && c6 ==> r == DashboardAnswer)
      && (!c1 && !c2 && !c3 && !c4 && !c5 && !c6 ==> c7 && r == ExamAnswer)
  {
  }

  /** The excerpt answer starts with "B", which none of the keyword answers does. */
  lemma ExcerptIsNoKeywordAnswer(excerpt: string)
    ensures GenericPrefix + excerpt + GenericSuffix
      !in [ModelAnswer, SetupKeywordAnswer, VisualizationAnswer, SubmissionAnswer, ContainerAnswer, DashboardAnswer, ExamAnswer]
  {
    var g := GenericPrefix + excerpt + GenericSuffix;
    assert g[0] == 'B';
    assert ModelAnswer[0] == 'Y';
    assert SetupKeywordAnswer[0] == 'M';
    assert VisualizationAnswer[0] == 'U';
    assert SubmissionAnswer[0] == 'F';
    assert ContainerAnswer[0] == 'W';
    assert DashboardAnswer[0] == 'I';
    assert ExamAnswer[0] == 'I';
  }

  /**
   * No rule, some content, and a keyword condition holds: the answer is the
   * keyword chain's, decided before the excerpt of the top item.
   */
  lemma KeywordAnswerWins(question: string, relevant: seq<Scored>, imageContext: Option<string>)
    requires forall j :: 0 <= j < |QuestionPatterns| ==> !Matches(QuestionPatterns[j], Lower(question))
    requires relevant != [] && KeywordBranchApplies(Lower(question))
    ensures GenerateAnswer(question, relevant, imageContext) == ContentAnswer(Lower(question), relevant[0].doc)
    ensures GenerateAnswer(question, relevant, imageContext)
      in [ModelAnswer, SetupKeywordAnswer, VisualizationAnswer, SubmissionAnswer, ContainerAnswer, DashboardAnswer, ExamAnswer]
    ensures GenerateAnswer(question, relevant, imageContext) != GenericPrefix + Take(relevant[0].doc.content, 200) + GenericSuffix
  {
    assert FirstMatch(QuestionPatterns, Lower(question)).None?;
    KeywordChain(Lower(question), relevant[0].doc);
    ExcerptIsNoKeywordAnswer(Take(relevant[0].doc.content, 200));
  }

  /** The image context never changes the answer. */
  lemma ImageContextIgnored(question: string, relevant: seq<Scored>, a: Option<string>, b: Option<string>)
    ensures GenerateAnswer(question, relevant, a) == GenerateAnswer(question, relevant, b)
  {
  }

  // ---------------------------------------------------------------------
  // Links

  /** `link` is the content link of one of `items` that has a URL. */
  predicate LinksToItem(link: Link, items: seq<Scored>)
  {
    exists j :: 0 <= j < |items| && items[j].doc.url != "" && link == Link(items[j].doc.url, ContentLinkText(items[j].doc))
  }

  lemma {:induction false} ContentLinksFacts(acc: seq<Link>, items: seq<Scored>)
    ensures acc <= ContentLinks(acc, items)
    ensures |ContentLinks(acc, items)| <= |acc| + |items|
    ensures DistinctUrls(acc) ==> DistinctUrls(ContentLinks(acc, items))
    ensures forall k :: |acc| <= k < |ContentLinks(acc, items)| ==>
      LinksToItem(ContentLinks(acc, items)[k], items)
    ensures forall j :: 0 <= j < |items| && items[j].doc.url != "" ==> HasUrl(ContentLinks(acc, items), items[j].doc.url)
    decreases |items|
  {
    if items != [] {
      var init := items[..|items| - 1];
      var last := items[|items| - 1];
      ContentLinksFacts(acc, init);
      var prev := ContentLinks(acc, init);
      var cur := ContentLinks(acc, items);
      assert cur == AddContentLink(prev, last.doc);
      assert prev <= cur;
      forall k | |acc| <= k < |cur|
        ensures LinksToItem(cur[k], items)
      {
        if k < |prev| {
          assert cur[k] == prev[k];
          assert LinksToItem(prev[k], init);
          var j :| 0 <= j < |init| && init[j].doc.url != ""
            && prev[k] == Link(init[j].doc.url, ContentLinkText(init[j].doc));
          assert items[j] == init[j];
        } else {
          assert cur[k] == Link(last.doc.url, ContentLinkText(last.doc));
          assert items[|items| - 1] == last;
        }
      }
      forall j | 0 <= j < |items| && items[j].doc.url != ""
        ensures HasUrl(cur, items[j].doc.url)
      {
        if j < |items| - 1 {
          assert items[j] == init[j];
          var k :| 0 <= k < |prev| && prev[k].url == items[j].doc.url;
          assert cur[k] == prev[k];
        } else if HasUrl(prev, last.doc.url) {
          var k :| 0 <= k < |prev| && prev[k].url == last.doc.url;
          assert cur[k] == prev[k];
        } else {
          assert cur[|cur| - 1].url == last.doc.url;
        }
      }
    }
  }

  lemma CuratedLinksDistinct(ql: string)
    ensures DistinctUrls(CuratedLinks(ql)) && |CuratedLinks(ql)| <= 2
  {
    assert ModelLinkA.url[|ModelThread| + 1] == '4';
    assert ModelLinkB.url[|ModelThread| + 1] == '3';
    assert |DockerGuideLink.url| != |DockerThreadLink.url|;
  }

  /**
   * Between one and five links with distinct URLs: the curated links of the
   * question's topic first, then links to the top three items that have a
   * URL, and the default course link only when there is nothing else.
   */
  lemma RelevantLinksShape(question: string, relevant: seq<Scored>)
    ensures 1 <= |RelevantLinks(question, relevant)| <= 5
    ensures DistinctUrls(RelevantLinks(question, relevant))
    ensures CuratedLinks(Lower(question)) <= RelevantLinks(question, relevant)
    ensures ContentLinks(CuratedLinks(Lower(question)), Take(relevant, 3)) == [] ==>
      RelevantLinks(question, relevant) == [DefaultLink]
    ensures ContentLinks(CuratedLinks(Lower(question)), Take(relevant, 3)) != [] ==>
      RelevantLinks(question, relevant) == ContentLinks(CuratedLinks(Lower(question)), Take(relevant, 3))
    ensures ContentLinks(CuratedLinks(Lower(question)), Take(relevant, 3)) != [] ==>
      forall k :: |CuratedLinks(Lower(question))| <= k < |RelevantLinks(question, relevant)| ==>
        LinksToItem(RelevantLinks(question, relevant)[k], Take(relevant, 3))
    ensures forall j :: 0 <= j < |relevant| && j < 3 && relevant[j].doc.url != "" ==>
      HasUrl(RelevantLinks(question, relevant), relevant[j].doc.url)
  {
    var ql := Lower(question);
    var top := Take(relevant, 3);
    CuratedLinksDistinct(ql);
    ContentLinksFacts(CuratedLinks(ql), top);
    var cl := ContentLinks(CuratedLinks(ql), top);
    assert |cl| <= 5;
    forall j | 0 <= j < |relevant| && j < 3 && relevant[j].doc.url != ""
      ensures HasUrl(RelevantLinks(question, relevant), relevant[j].doc.url)
    {
      assert top[j] == relevant[j];
    }
  }

  /** The topic priority: model questions, then dashboard questions, then container questions. */
  lemma CuratedLinksLeadByTopic(question: string, relevant: seq<Scored>)
    ensures MentionsModel(Lower(question)) ==>
      |RelevantLinks(question, relevant)| >= 2 && RelevantLinks(question, relevant)[..2] == [ModelLinkA, ModelLinkB]
    ensures !MentionsModel(Lower(question)) && MentionsDashboard(Lower(question)) ==>
      RelevantLinks(question, relevant)[0] == DashboardLink
    ensures !MentionsModel(Lower(question)) && !MentionsDashboard(Lower(question)) && MentionsContainers(Lower(question)) ==>
      |RelevantLinks(question, relevant)| >= 2 && RelevantLinks(question, relevant)[..2] == [DockerGuideLink, DockerThreadLink]
  {
    RelevantLinksShape(question, relevant);
  }

  // ---------------------------------------------------------------------
  // Questions that name gpt-4o-mini

  /**
   * A question whose lowercase form mentions "gpt-4o-mini" fires the first
   * rule whatever the corpus: the answer names gpt-3.5-turbo-0125 and the
   * links open with the two curated model-selection links.
   */
  lemma MiniQuestionGetsModelAnswer(question: string, course: seq<Document>, posts: seq<Document>, imageContext: Option<string>)
    requires Contains(Lower(question), "gpt-4o-mini")
    ensures GenerateAnswer(question, TopRelevant(course, posts, question), imageContext) == ModelAnswer
    ensures Contains(GenerateAnswer(question, TopRelevant(course, posts, question), imageContext), RequiredModel)
    ensures |RelevantLinks(question, TopRelevant(course, posts, question))| >= 2
    ensures RelevantLinks(question, TopRelevant(course, posts, question))[..2] == [ModelLinkA, ModelLinkB]
  {
    var ql := Lower(question);
    var i := ContainsWitness(ql, "gpt-4o-mini");
    var rest := ql[i + 11..];
    assert ql[i..] == "gpt-4o-mini" + rest;
    MiniMatchesFirstBranch();
    MatchAtExtends("gpt-4o-mini", rest, ["gpt", "4o", "mini"]);
    SearchFrom(ql, i, ["gpt", "4o", "mini"]);
    assert QuestionPatterns[0].pattern[0] == ["gpt", "4o", "mini"];
    FirstRuleAnswers(question, TopRelevant(course, posts, question), imageContext, 0);
    ModelAnswerNamesRequiredModel();
    assert "gpt-4o-mini"[..3] == "gpt";
    assert StartsWith(ql[i..], "gpt");
    ContainsAt(ql, i, "gpt");
    assert Contains(ql, ["gpt", "model", "ai", "proxy"][0]);
    CuratedLinksLeadByTopic(question, TopRelevant(course, posts, question));
  }

  /** The model-selection answer names the required model. */
  lemma ModelAnswerNamesRequiredModel()
    ensures Contains(ModelAnswer, RequiredModel)
  {
    var head := "You must use `";
    var middle := "`, even if the AI Proxy only supports `gpt-4o-mini`. Use the OpenAI API directly for this question. The assignment specifically requires ";
    var tail := " for consistency and evaluation purposes.";
    assert StartsWith(RequiredModel, RequiredModel);
    ContainsSuffix(head, RequiredModel, RequiredModel);
    ContainsPrefix(head + RequiredModel, middle, RequiredModel);
    ContainsPrefix(head + RequiredModel + middle, RequiredModel, RequiredModel);
    ContainsPrefix(head + RequiredModel + middle + RequiredModel, tail, RequiredModel);
  }

  const ModelQuestion := "Should I use " + "gpt-4o-mini" + " or gpt-3.5-turbo?"

  /** The worked question "Should I use gpt-4o-mini or gpt-3.5-turbo?" mentions gpt-4o-mini. */
  lemma ModelQuestionMentionsMini()
    ensures Contains(Lower(ModelQuestion), "gpt-4o-mini")
  {
    LowerConcat("Should I use " + "gpt-4o-mini", " or gpt-3.5-turbo?");
    LowerConcat("Should I use ", "gpt-4o-mini");
    assert Lower("gpt-4o-mini") == "gpt-4o-mini";
    assert StartsWith("gpt-4o-mini", "gpt-4o-mini");
    ContainsSuffix(Lower("Should I use "), "gpt-4o-mini", "gpt-4o-mini");
    ContainsPrefix(Lower("Should I use ") + "gpt-4o-mini", Lower(" or gpt-3.5-turbo?"), "gpt-4o-mini");
  }

  lemma MiniMatchesFirstBranch()
    ensures MatchAt("gpt-4o-mini", ["gpt", "4o", "mini"])
  {
    var t := "gpt-4o-mini";
    assert t[7..] == "mini";
    assert MatchAt(t[7..], ["mini"]);
    assert MatchGap(t[6..], ["mini"]);
    assert t[4..][..2] == "4o";
    assert MatchAt(t[4..], ["4o", "mini"]);
    assert MatchGap(t[3..], ["4o", "mini"]);
  }

  /** A branch that matches a prefix still matches when more text follows. */
  lemma {:induction false} MatchAtExtends(x: string, y: string, ps: seq<string>)
    requires MatchAt(x, ps)
    ensures MatchAt(x + y, ps)
    decreases |x|, |ps|, 0
  {
    if ps != [] {
      assert (x + y)[..|ps[0]|] == x[..|ps[0]|];
      assert (x + y)[|ps[0]|..] == x[|ps[0]|..] + y;
      MatchGapExtends(x[|ps[0]|..], y, ps[1..]);
    }
  }

  lemma {:induction false} MatchGapExtends(x: string, y: string, ps: seq<string>)
    requires MatchGap(x, ps)
    ensures MatchGap(x + y, ps)
    decreases |x|, |ps|, 1
  {
    if ps == [] {
    } else if MatchAt(x, ps) {
      MatchAtExtends(x, y, ps);
    } else {
      assert (x + y)[1..] == x[1..] + y;
      MatchGapExtends(x[1..], y, ps);
    }
  }

  /** A match of a branch starting at position `i` is found by `re.search`. */
  lemma {:induction false} SearchFrom(s: string, i: nat, ps: seq<string>)
    requires i <= |s| && MatchAt(s[i..], ps)
    ensures Search(s, ps)
    decreases i
  {
    if i > 0 {
      assert s[1..][i - 1..] == s[i..];
      SearchFrom(s[1..], i - 1, ps);
    }
  }
}
