/**
 * The document store of `data_scraper.py`: the `TDSDataScraper` object with
 * its two document lists, metadata record and loaded flag, the fixed course
 * topics and forum posts its "scrape" steps append, and its own substring
 * search with a count-based relevance score.
 */
module DataScraping {
  import opened Wrappers
  import opened Text
  import opened Corpus

  /** `data["metadata"]`: when the store was last filled and how many documents it holds. */
  datatype Metadata = Metadata(lastUpdated: Option<string>, totalDocuments: nat)

  /** `self.data`: the shape both the scrape steps and the cache file use. */
  datatype ScraperData = ScraperData(
    courseContent: seq<Document>,
    discoursePosts: seq<Document>,
    metadata: Metadata)

  const BaseUrl := "https://tds.s-anand.net/#/2025-01/"

  const EmptyData := ScraperData([], [], Metadata(None, 0))

  function Topic(title: string, content: string, url: string): (d: Document)
  {
    Document(title, content, url, CourseMaterial, None, [])
  }

  function Post(title: string, content: string, url: string, date: string, replies: seq<Reply>): (d: Document)
  {
    Document(title, content, url, DiscoursePost, Some(date), replies)
  }

  /** The eight course topics `scrape_course_content` appends, in order. */
  const CourseTopics: seq<Document> := [
    Topic("Introduction to Data Science Tools",
      "Overview of essential tools for data science including Python, R, SQL, and various libraries. Introduction to the TDS course structure and requirements.",
      "https://tds.s-anand.net/#/2025-01/introduction"),
    Topic("Python for Data Science",
      "Python programming fundamentals, pandas, numpy, matplotlib, seaborn for data analysis and visualization. Setting up Python environment with Python 3.8+ and pip package manager.",
      "https://tds.s-anand.net/#/2025-01/python"),
    Topic("Data Visualization Best Practices",
      "Creating effective visualizations using matplotlib, seaborn, plotly, and other visualization libraries. Use appropriate chart types, clear labels, and proper color schemes for assignments.",
      "https://tds.s-anand.net/#/2025-01/visualization"),
    Topic("Machine Learning Basics",
      "Introduction to machine learning concepts, scikit-learn, model evaluation, and deployment. Understanding different ML algorithms and their applications.",
      "https://tds.s-anand.net/#/2025-01/ml-basics"),
    Topic("AI and LLM Integration",
      "Working with AI APIs, OpenAI GPT models, prompt engineering, and integrating LLMs in data science workflows. Important: Use gpt-3.5-turbo-0125 for assignments, even if AI Proxy only supports gpt-4o-mini. Use OpenAI API directly when required.",
      "https://tds.s-anand.net/#/2025-01/ai-llm"),
    Topic("Docker and Containerization",
      "Introduction to containerization using Docker and Podman. While Docker is acceptable for learning, Podman is recommended for the TDS course due to its rootless architecture and better security features. Both tools serve similar purposes for containerizing applications.",
      "https://tds.s-anand.net/#/docker"),
    Topic("Assignment Submission Guidelines",
      "Proper assignment submission procedures including file formats, naming conventions, and required documentation. Make sure to test your code before submission and follow the specified format requirements.",
      "https://tds.s-anand.net/#/2025-01/assignments"),
    Topic("Course Assessment and Grading",
      "Understanding the TDS grading system, GA (Graded Assignment) scoring, and how bonus points are displayed on the dashboard. Scores are typically shown as percentages or points out of total possible.",
      "https://tds.s-anand.net/#/2025-01/grading")
  ]

  /** The six forum posts `scrape_discourse_posts` appends, in order. */
  const DiscourseSeed: seq<Document> := [
    Post("GA5 Question 8 Clarification - GPT Model Selection",
      "Use the model that's mentioned in the question. You must use gpt-3.5-turbo-0125, even if the AI Proxy only supports gpt-4o-mini. Use the OpenAI API directly for this question. The assignment specifically requires gpt-3.5-turbo-0125 for consistency and evaluation purposes.",
      "https://discourse.onlinedegree.iitm.ac.in/t/ga5-question-8-clarification/155939/4",
      "2025-01-15",
      [Reply("My understanding is that you just have to use a tokenizer, similar to what Prof. Anand used, to get the number of tokens and multiply that by the given rate.",
        "https://discourse.onlinedegree.iitm.ac.in/t/ga5-question-8-clarification/155939/3")]),
    Post("GA4 Data Sourcing Discussion - Dashboard Scoring",
      "If a student scores 10/10 on GA4 as well as a bonus, it would appear as '110' on the dashboard, representing 110% or 11 points out of 10 possible points. The dashboard shows the total score including bonus points.",
      "https://discourse.onlinedegree.iitm.ac.in/t/ga4-data-sourcing-discussion-thread-tds-jan-2025/165959/388",
      "2025-01-20", []),
    Post("Python Environment Setup Issues",
      "Common issues with setting up Python environment for TDS course. Make sure to use Python 3.8+ and install required packages using pip. Check for version conflicts and ensure all dependencies are properly installed.",
      "https://discourse.onlinedegree.iitm.ac.in/t/python-setup/155940",
      "2025-01-10", []),
    Post("Data Visualization Best Practices",
      "Guidelines for creating effective data visualizations in assignments. Use appropriate chart types, clear labels, and proper color schemes. Consider the audience and purpose of your visualization.",
      "https://discourse.onlinedegree.iitm.ac.in/t/dataviz-practices/155941",
      "2025-01-20", []),
    Post("Assignment Submission Guidelines",
      "How to properly submit assignments including file formats, naming conventions, and required documentation. Follow the specified format and test your code before submission.",
      "https://discourse.onlinedegree.iitm.ac.in/t/assignment-submission/155942",
      "2025-02-01", []),
    Post("Docker vs Podman for TDS Course",
      "While Docker is acceptable and widely used, Podman is recommended for the TDS course. Podman offers better security with rootless containers and is more aligned with modern container practices. If you're familiar with Docker, the transition to Podman is straightforward as they share similar commands.",
      "https://discourse.onlinedegree.iitm.ac.in/t/docker-podman-discussion/155943",
      "2025-01-25", [])
  ]

  // ---------------------------------------------------------------------
  // Search specification

  /** The filter of `search_content`: the lowercased query occurs in the lowercased title or content. */
  predicate Hit(ql: string, d: Document)
  {
    Contains(Lower(d.title), ql) || Contains(Lower(d.content), ql)
  }

  /** The sum of `text.count(w)` over `words`. */
  function CountSum(words: seq<string>, text: string): (n: nat)
    decreases |words|
  {
    if words == [] then 0
    else CountSum(words[..|words| - 1], text) + Count(text, words[|words| - 1])
  }

  /** What `_calculate_relevance(query, item)` returns; `search_content` passes the lowercased query. */
  function ItemRelevance(query: string, d: Document): (score: nat)
    ensures Contains(Lower(d.title), query) ==> score >= 5
  {
    CountSum(SplitWhitespace(query), SearchText(d))
      + (if Contains(Lower(d.title), query) then 5 else 0)
  }

  /** The hits among `docs`, in order, each with its score. */
  function Hits(docs: seq<Document>, ql: string): (hits: seq<Scored>)
    ensures |hits| <= |docs|
    decreases |docs|
  {
    if docs == [] then []
    else
      var rest := Hits(docs[..|docs| - 1], ql);
      var d := docs[|docs| - 1];
      if Hit(ql, d) then rest + [Scored(d, ItemRelevance(ql, d))] else rest
  }

  /** `Hits` over one more document. */
  lemma HitsStep(docs: seq<Document>, i: nat, ql: string)
    requires i < |docs|
    ensures Hits(docs[..i + 1], ql)
      == Hits(docs[..i], ql) + (if Hit(ql, docs[i]) then [Scored(docs[i], ItemRelevance(ql, docs[i]))] else [])
  {
    assert docs[..i + 1][..i] == docs[..i];
  }

  /** What `search_content(query, limit)` returns for the given store contents. */
  function SearchResults(course: seq<Document>, posts: seq<Document>, query: string, limit: int): (results: seq<Scored>)
    ensures limit >= 0 ==> |results| <= limit
  {
    var ql := Lower(query);
    Slice(SortByScoreDesc(Hits(course, ql) + Hits(posts, ql)), limit)
  }

  // ---------------------------------------------------------------------
  // The scraper object

  class TDSDataScraper {
    const baseUrl: string
    var data: ScraperData
    var dataLoaded: bool

    /** A fresh store: both lists empty, no timestamp, no documents, not loaded. */
    constructor()
      ensures baseUrl == BaseUrl
      ensures data == EmptyData
      ensures !dataLoaded
    {
      baseUrl := BaseUrl;
      data := EmptyData;
      dataLoaded := false;
    }

    /** Appends the fixed course topics; nothing else changes. */
    method ScrapeCourseContent()
      modifies this
      ensures data == old(data).(courseContent := old(data.courseContent) + CourseTopics)
      ensures dataLoaded == old(dataLoaded)
    {
      data := data.(courseContent := data.courseContent + CourseTopics);
    }

    /** Appends the fixed forum posts; nothing else changes. */
    method ScrapeDiscoursePosts()
      modifies this
      ensures data == old(data).(discoursePosts := old(data.discoursePosts) + DiscourseSeed)
      ensures dataLoaded == old(dataLoaded)
    {
      data := data.(discoursePosts := data.discoursePosts + DiscourseSeed);
    }

    /**
     * Runs both scrape steps, stamps the metadata with `now` (the caller's
     * `datetime.now().isoformat()`) and the document count, and marks the
     * store loaded.
     */
    method ScrapeAllData(now: string)
      modifies this
      ensures data.courseContent == old(data.courseContent) + CourseTopics
      ensures data.discoursePosts == old(data.discoursePosts) + DiscourseSeed
      ensures data.metadata == Metadata(Some(now), |data.courseContent| + |data.discoursePosts|)
      ensures dataLoaded
    {
      ScrapeCourseContent();
      ScrapeDiscoursePosts();
      data := data.(metadata := data.metadata.(lastUpdated := Some(now)));
      data := data.(metadata := data.metadata.(totalDocuments := |data.courseContent| + |data.discoursePosts|));
      dataLoaded := true;
    }

    /**
     * `load_data` with the cache file abstracted to its parsed contents:
     * `Some(cached)` when the file exists and parses, `None` otherwise, in
     * which case the store is scraped (writing the cache back is not modelled).
     */
    method LoadData(cache: Option<ScraperData>, now: string)
      modifies this
      ensures cache.Some? ==> data == cache.value
      ensures cache.None? ==>
        && data.courseContent == old(data.courseContent) + CourseTopics
        && data.discoursePosts == old(data.discoursePosts) + DiscourseSeed
        && data.metadata == Metadata(Some(now), |data.courseContent| + |data.discoursePosts|)
      ensures dataLoaded
    {
      if cache.Some? {
        data := cache.value;
        dataLoaded := true;
      } else {
        ScrapeAllData(now);
      }
    }

    /** `get_data`: the stored data, unchanged. */
    function GetData(): (d: ScraperData)
      reads this
      ensures d == data
    {
      data
    }

    function IsDataLoaded(): (b: bool)
      reads this
      ensures b == dataLoaded
    {
      dataLoaded
    }

    /** `search_content`: hits of both lists, stably sorted by score, cut at `limit`. */
    method SearchContent(query: string, limit: int := 10) returns (results: seq<Scored>)
      ensures results == SearchResults(data.courseContent, data.discoursePosts, query, limit)
    {
      var ql := Lower(query);
      var course := data.courseContent;
      var posts := data.discoursePosts;
      results := [];
      var i := 0;
      while i < |course|
        invariant 0 <= i <= |course|
        invariant results == Hits(course[..i], ql)
      {
        var item := course[i];
        if Hit(ql, item) {
          var score := CalculateRelevance(ql, item);
          results := results + [Scored(item, score)];
        }
        HitsStep(course, i, ql);
        i := i + 1;
      }
      assert course[..i] == course;
      var j := 0;
      while j < |posts|
        invariant 0 <= j <= |posts|
        invariant results == Hits(course, ql) + Hits(posts[..j], ql)
      {
        var post := posts[j];
        if Hit(ql, post) {
          var score := CalculateRelevance(ql, post);
          results := results + [Scored(post, score)];
        }
        HitsStep(posts, j, ql);
        j := j + 1;
      }
      assert posts[..j] == posts;
      results := SortByScoreDesc(results);
      results := Slice(results, limit);
    }

    /** `_calculate_relevance`: word counts over the searched text plus the title boost. */
    method CalculateRelevance(query: string, item: Document) returns (score: nat)
      ensures score == ItemRelevance(query, item)
    {
      var text := Lower(item.title + " " + item.content);
      var queryWords := SplitWhitespace(query);
      score := 0;
      var i := 0;
      while i < |queryWords|
        invariant 0 <= i <= |queryWords|
        invariant score == CountSum(queryWords[..i], text)
      {
        score := score + Count(text, queryWords[i]);
        assert queryWords[..i + 1][..i] == queryWords[..i];
        i := i + 1;
      }
      assert queryWords[..i] == queryWords;
      if Contains(Lower(item.title), query) {
        score := score + 5;
      }
    }
  }
}
