/**
 * The retrieval-and-answer engine of `question_answerer.py`: the relevance
 * scorer, top-5 retrieval, the ordered rule table, the answer composer and the
 * link selector, and the `QuestionAnswerer` object that runs them per question.
 */
module QuestionAnswering {
  import opened Wrappers
  import opened Text
  import opened Corpus

  // ---------------------------------------------------------------------
  // Rule patterns.  Every pattern of the rule table is an alternation of
  // branches of the form `p1.*p2.*...pn` with literal pieces; `3\.?5` is
  // written as its two spellings "3.5" and "35".  Python's `.` does not
  // match a newline, so neither does a gap between two pieces.

  /** The pieces `ps` match `s` from its first character on. */
  predicate MatchAt(s: string, ps: seq<string>)
    decreases |s|, |ps|, 0
  {
    ps == [] || (StartsWith(s, ps[0]) && MatchGap(s[|ps[0]|..], ps[1..]))
  }

  /** `.*` followed by the pieces `ps` matches a prefix of `s`. */
  predicate MatchGap(s: string, ps: seq<string>)
    decreases |s|, |ps|, 1
  {
    ps == [] || MatchAt(s, ps) || (|s| > 0 && s[0] != '\n' && MatchGap(s[1..], ps))
  }

  /** `re.search` of one branch `p1.*p2.*...pn`: a match starts somewhere in `s`. */
  predicate Search(s: string, ps: seq<string>)
    decreases |s|
  {
    MatchAt(s, ps) || (|s| > 0 && Search(s[1..], ps))
  }

  /** A rule: the branches of its pattern, its canned answer and its keywords. */
  datatype Rule = Rule(pattern: seq<seq<string>>, answer: string, keywords: seq<string>)

  predicate Matches(rule: Rule, s: string)
  {
    exists k :: 0 <= k < |rule.pattern| && Search(s, rule.pattern[k])
  }

  /** The model the course requires; the model rule's answer names it twice. */
  const RequiredModel := "gpt-3.5-turbo-0125"
  const ModelAnswer := "You must use `" + RequiredModel + "`, even if the AI Proxy only supports `gpt-4o-mini`. Use the OpenAI API directly for this question. The assignment specifically requires " + RequiredModel + " for consistency and evaluation purposes."
  const SetupRuleAnswer := "Make sure to use Python 3.8+ and install required packages using pip. Common issues include version conflicts and missing dependencies. Check your environment setup and ensure all dependencies are properly installed."
  // The keyword answers below are split after their first word, so that
  // proofs can read their first character.
  const SetupKeywordAnswer := "Make " + "sure to use Python 3.8+ and install required packages using pip. Check your environment setup and ensure all dependencies are properly installed."
  const VisualizationAnswer := "Use " + "appropriate chart types, clear labels, and proper color schemes. Consider matplotlib, seaborn, or plotly for creating effective visualizations in your assignments. Consider the audience and purpose of your visualization."
  const SubmissionAnswer := "Follow " + "proper file formats, naming conventions, and include required documentation when submitting assignments. Make sure to test your code before submission and follow the specified format requirements."
  const ContainerAnswer := "While " + "Docker is acceptable and widely used, Podman is recommended for the TDS course. Podman offers better security with rootless containers and is more aligned with modern container practices. If you're familiar with Docker, the transition to Podman is straightforward as they share similar commands."
  const DashboardAnswer := "If " + "a student scores 10/10 on GA4 as well as a bonus, it would appear as '110' on the dashboard, representing 110% or 11 points out of 10 possible points. The dashboard shows the total score including bonus points."
  const ExamAnswer := "I " + "don't have information about the TDS Sep 2025 end-term exam schedule as this information is not yet available. Please check the official course announcements or contact the course coordinators for the most up-to-date exam schedule information."
  const FallbackAnswer := "I understand your question about the TDS course. Please refer to the course materials and discourse posts for detailed information. If you need specific clarification, consider posting on the course discourse forum."
  const GenericPrefix := "Based on the course materials: "
  const GenericSuffix := "... Please refer to the linked resources for more detailed information."

  /** The question-pattern table, in declaration order (which decides priority). */
  const QuestionPatterns: seq<Rule> := [
    Rule([["gpt", "4o", "mini"], ["gpt", "3.5", "turbo"], ["gpt", "35", "turbo"], ["ai", "proxy", "gpt"]],
         ModelAnswer, ["gpt", "model", "ai", "openai", "turbo", "proxy"]),
    Rule([["python", "setup"], ["environment", "setup"], ["installation"]],
         SetupRuleAnswer, ["python", "setup", "environment", "installation"]),
    Rule([["visualization"], ["chart"], ["plot"], ["graph"]],
         VisualizationAnswer, ["visualization", "chart", "plot", "matplotlib", "seaborn"]),
    Rule([["assignment", "submission"], ["submit", "assignment"]],
         SubmissionAnswer, ["assignment", "submission", "submit", "format"]),
    Rule([["docker", "podman"], ["podman", "docker"], ["containerization"]],
         ContainerAnswer, ["docker", "podman", "container", "containerization"]),
    Rule([["dashboard", "score"], ["score", "dashboard"], ["ga", "bonus"], ["bonus", "ga"]],
         DashboardAnswer, ["dashboard", "score", "bonus", "ga", "grading"]),
    Rule([["sep", "2025", "exam"], ["2025", "exam"], ["end", "term", "exam"]],
         ExamAnswer, ["exam", "schedule", "september", "2025"])
  ]

  /** The index of the first rule, in table order, whose pattern matches `s`. */
  function FirstMatch(rules: seq<Rule>, s: string): (r: Option<nat>)
    ensures r.Some? ==> r.value < |rules| && Matches(rules[r.value], s)
    ensures r.Some? ==> forall j :: 0 <= j < r.value ==> !Matches(rules[j], s)
    ensures r.None? ==> forall j :: 0 <= j < |rules| ==> !Matches(rules[j], s)
  {
    if rules == [] then None
    else if Matches(rules[0], s) then Some(0)
    else match FirstMatch(rules[1..], s)
      case None => None
      case Some(i) => Some(i + 1)
  }

  // ---------------------------------------------------------------------
  // Relevance scoring

  /** `any(word in s for word in words)` */
  predicate AnyContained(words: seq<string>, s: string)
  {
    exists k :: 0 <= k < |words| && Contains(s, words[k])
  }

  /** Sum over the words longer than two characters of `text.count(word) * len(word)`. */
  function WordScore(words: seq<string>, text: string): nat
    decreases |words|
  {
    if words == [] then 0
    else
      var w := words[|words| - 1];
      WordScore(words[..|words| - 1], text) + (if |w| > 2 then Count(text, w) * |w| else 0)
  }

  /** What `_calculate_relevance(question, item)` returns. */
  function Relevance(question: string, d: Document): (score: nat)
    ensures AnyContained(Words(Lower(question)), Lower(d.title)) ==> score >= 10
    ensures Contains(SearchText(d), Lower(question)) ==> score >= 20
  {
    var words := Words(Lower(question));
    WordScore(words, SearchText(d))
      + (if AnyContained(words, Lower(d.title)) then 10 else 0)
      + (if Contains(SearchText(d), Lower(question)) then 20 else 0)
  }

  /** The documents of `docs` with a positive score, in corpus order, with their scores. */
  function Scoring(docs: seq<Document>, question: string): (scored: seq<Scored>)
    ensures |scored| <= |docs|
    decreases |docs|
  {
    if docs == [] then []
    else
      var rest := Scoring(docs[..|docs| - 1], question);
      var d := docs[|docs| - 1];
      if Relevance(question, d) > 0 then rest + [Scored(d, Relevance(question, d))] else rest
  }

  /** What `_search_relevant_content(question)` returns for a corpus. */
  function TopRelevant(course: seq<Document>, posts: seq<Document>, question: string): (top: seq<Scored>)
    ensures |top| <= 5
  {
    var ql := Lower(question);
    Take(SortByScoreDesc(Scoring(course, ql) + Scoring(posts, ql)), 5)
  }

  // ---------------------------------------------------------------------
  // Answer composition

  predicate MentionsModel(ql: string)
  {
    AnyContained(["gpt", "model", "ai", "proxy"], ql)
  }

  predicate MentionsDashboard(ql: string)
  {
    AnyContained(["dashboard", "score", "bonus", "ga"], ql)
  }

  predicate MentionsContainers(ql: string)
  {
    AnyContained(["docker", "podman"], ql)
  }

  /** The keyword `if/elif` chain, tried when no rule matched and some content was found. */
  function ContentAnswer(ql: string, top: Document): (answer: string)
  {
    if MentionsModel(ql) then ModelAnswer
    else if Contains(ql, "python") && (Contains(ql, "setup") || Contains(ql, "environment")) then SetupKeywordAnswer
    else if AnyContained(["visualization", "chart", "plot", "graph"], ql) then VisualizationAnswer
    else if Contains(ql, "assignment") && (Contains(ql, "submit") || Contains(ql, "submission")) then SubmissionAnswer
    else if MentionsContainers(ql) then ContainerAnswer
    else if MentionsDashboard(ql) then DashboardAnswer
    else if AnyContained(["exam", "2025", "september", "end-term"], ql) then ExamAnswer
    else GenericPrefix + Take(top.content, 200) + GenericSuffix
  }

  predicate KeywordBranchApplies(ql: string)
  {
    || MentionsModel(ql)
    || (Contains(ql, "python") && (Contains(ql, "setup") || Contains(ql, "environment")))
    || AnyContained(["visualization", "chart", "plot", "graph"], ql)
    || (Contains(ql, "assignment") && (Contains(ql, "submit") || Contains(ql, "submission")))
    || MentionsContainers(ql)
    || MentionsDashboard(ql)
    || AnyContained(["exam", "2025", "september", "end-term"], ql)
  }

  /**
   * What `_generate_answer(question, relevant_content, image_context)`
   * returns: the first matching rule's answer, else a keyword answer or an
   * excerpt of the top item, else the fallback.  `imageContext` is accepted
   * and never read, as in the source.
   */
  function GenerateAnswer(question: string, relevant: seq<Scored>, imageContext: Option<string> := None): (r: string)
    ensures r != []
  {
    var ql := Lower(question);
    match FirstMatch(QuestionPatterns, ql)
    case Some(i) => QuestionPatterns[i].answer
    case None => if relevant == [] then FallbackAnswer else ContentAnswer(ql, relevant[0].doc)
  }

  // ---------------------------------------------------------------------
  // Link selection

  datatype Link = Link(url: string, text: string)

  /** The forum thread both curated model-selection links point into. */
  const ModelThread := "https://discourse.onlinedegree.iitm.ac.in/t/ga5-question-8-clarification/155939"
  const ModelLinkA := Link(ModelThread + "/4", "Use the model that's mentioned in the question.")
  const ModelLinkB := Link(ModelThread + "/3",
                           "My understanding is that you just have to use a tokenizer, similar to what Prof. Anand used, to get the number of tokens and multiply that by the given rate.")
  const DashboardLink := Link("https://discourse.onlinedegree.iitm.ac.in/t/ga4-data-sourcing-discussion-thread-tds-jan-2025/165959/388",
                              "GA4 Data Sourcing Discussion - Dashboard Scoring")
  const DockerGuideLink := Link("https://tds.s-anand.net/#/docker", "Docker and Containerization Guide")
  const DockerThreadLink := Link("https://discourse.onlinedegree.iitm.ac.in/t/docker-podman-discussion/155943",
                                 "Docker vs Podman for TDS Course")
  const DefaultLink := Link("https://tds.s-anand.net/#/2025-01/", "TDS Course Materials")

  /** The curated links of the first topic, in priority order, the question mentions. */
  function CuratedLinks(ql: string): seq<Link>
  {
    if MentionsModel(ql) then [ModelLinkA, ModelLinkB]
    else if MentionsDashboard(ql) then [DashboardLink]
    else if MentionsContainers(ql) then [DockerGuideLink, DockerThreadLink]
    else []
  }

  predicate HasUrl(links: seq<Link>, url: string)
  {
    exists k :: 0 <= k < |links| && links[k].url == url
  }

  predicate DistinctUrls(links: seq<Link>)
  {
    forall i, j :: 0 <= i < j < |links| ==> links[i].url != links[j].url
  }

  /** The text of a content link: the first 50 characters of a longer content, else the title. */
  function ContentLinkText(d: Document): string
  {
    if |d.content| > 50 then d.content[..50] + "..." else d.title
  }

  /** One step of the content-link loop. */
  function AddContentLink(links: seq<Link>, d: Document): seq<Link>
  {
    if d.url != "" && !HasUrl(links, d.url) then links + [Link(d.url, ContentLinkText(d))] else links
  }

  function ContentLinks(links: seq<Link>, items: seq<Scored>): seq<Link>
    decreases |items|
  {
    if items == [] then links
    else AddContentLink(ContentLinks(links, items[..|items| - 1]), items[|items| - 1].doc)
  }

  /** What `_get_relevant_links(question, relevant_content)` returns. */
  function RelevantLinks(question: string, relevant: seq<Scored>): seq<Link>
  {
    var links := ContentLinks(CuratedLinks(Lower(question)), Take(relevant, 3));
    Take(if links == [] then [DefaultLink] else links, 5)
  }

  datatype Stats = Stats(courseContentCount: nat, discoursePostsCount: nat, totalDocuments: nat, questionPatterns: nat)

  // ---------------------------------------------------------------------
  // The answering object

  class QuestionAnswerer {
    const courseContent: seq<Document>
    const discoursePosts: seq<Document>

    /** `data.get("course_content", [])` and `data.get("discourse_posts", [])`. */
    constructor (courseData: Option<seq<Document>>, postData: Option<seq<Document>>)
      ensures courseContent == (if courseData.Some? then courseData.value else [])
      ensures discoursePosts == (if postData.Some? then postData.value else [])
    {
      courseContent := if courseData.Some? then courseData.value else [];
      discoursePosts := if postData.Some? then postData.value else [];
    }

    method AnswerQuestion(question: string, imageContext: Option<string> := None) returns (answer: string, links: seq<Link>)
      ensures answer == GenerateAnswer(question, TopRelevant(courseContent, discoursePosts, question), imageContext)
      ensures links == RelevantLinks(question, TopRelevant(courseContent, discoursePosts, question))
    {
      var relevant := SearchRelevantContent(question);
      answer := GenerateAnswer(question, relevant, imageContext);
      links := GetRelevantLinks(question, relevant);
    }

    method SearchRelevantContent(question: string) returns (results: seq<Scored>)
      ensures results == TopRelevant(courseContent, discoursePosts, question)
    {
      var ql := Lower(question);
      results := [];
      var i := 0;
      while i < |courseContent|
        invariant 0 <= i <= |courseContent|
        invariant results == Scoring(courseContent[..i], ql)
      {
        var score := CalculateRelevance(ql, courseContent[i]);
        if score > 0 {
          results := results + [Scored(courseContent[i], score)];
        }
        assert courseContent[..i + 1][..i] == courseContent[..i];
        i := i + 1;
      }
      assert courseContent[..i] == courseContent;
      var j := 0;
      while j < |discoursePosts|
        invariant 0 <= j <= |discoursePosts|
        invariant results == Scoring(courseContent, ql) + Scoring(discoursePosts[..j], ql)
      {
        var score := CalculateRelevance(ql, discoursePosts[j]);
        if score > 0 {
          results := results + [Scored(discoursePosts[j], score)];
        }
        assert discoursePosts[..j + 1][..j] == discoursePosts[..j];
        j := j + 1;
      }
      assert discoursePosts[..j] == discoursePosts;
      results := SortByScoreDesc(results);
      results := Take(results, 5);
    }

    method CalculateRelevance(question: string, item: Document) returns (score: nat)
      ensures score == Relevance(question, item)
    {
      var text := Lower(item.title + " " + item.content);
      var questionWords := Words(Lower(question));
      score := 0;
      var i := 0;
      while i < |questionWords|
        invariant 0 <= i <= |questionWords|
        invariant score == WordScore(questionWords[..i], text)
      {
        var word := questionWords[i];
        if |word| > 2 {
          score := score + Count(text, word) * |word|;
        }
        assert questionWords[..i + 1][..i] == questionWords[..i];
        i := i + 1;
      }
      assert questionWords[..i] == questionWords;
      if AnyContained(questionWords, Lower(item.title)) {
        score := score + 10;
      }
      if Contains(text, Lower(question)) {
        score := score + 20;
      }
    }

    method GetRelevantLinks(question: string, relevant: seq<Scored>) returns (links: seq<Link>)
      ensures links == RelevantLinks(question, relevant)
    {
      var ql := Lower(question);
      links := [];
      if MentionsModel(ql) {
        links := links + [ModelLinkA];
        links := links + [ModelLinkB];
      } else if MentionsDashboard(ql) {
        links := links + [DashboardLink];
      } else if MentionsContainers(ql) {
        links := links + [DockerGuideLink];
        links := links + [DockerThreadLink];
      }
      var top := Take(relevant, 3);
      var i := 0;
      while i < |top|
        invariant 0 <= i <= |top|
        invariant links == ContentLinks(CuratedLinks(ql), top[..i])
      {
        var item := top[i].doc;
        if item.url != "" && !HasUrl(links, item.url) {
          var linkText := item.title;
          if |item.content| > 50 {
            linkText := item.content[..50] + "...";
          }
          links := links + [Link(item.url, linkText)];
        }
        assert top[..i + 1][..i] == top[..i];
        i := i + 1;
      }
      assert top[..i] == top;
      if links == [] {
        links := links + [DefaultLink];
      }
      links := Take(links, 5);
    }

    function GetStats(): (s: Stats)
      ensures s.courseContentCount == |courseContent| && s.discoursePostsCount == |discoursePosts|
      ensures s.totalDocuments == s.courseContentCount + s.discoursePostsCount
      ensures s.questionPatterns == 7
    {
      Stats(|courseContent|, |discoursePosts|, |courseContent| + |discoursePosts|, |QuestionPatterns|)
    }
  }
}
