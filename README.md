# TDS Virtual TA: a verified model of its answer engine

This project models the deterministic core of the TDS Virtual TA, a teaching
assistant that answers questions about the "Tools in Data Science" course.
The model covers four parts:

- the **question answerer**, which
  - scores every stored document against the question with a substring-count
    heuristic;
  - keeps the five best-scoring documents, stably sorted;
  - answers with the first matching rule of a seven-rule table, then with a
    keyword chain, then with an excerpt of the top document, and finally with
    a fixed fallback;
  - picks up to five supporting links;
- the **data scraper**, a small document store. Its "scrape" steps append a
  fixed list of course topics and forum posts. It also has a second substring
  search of its own;
- the **token calculator**, which estimates tokens as a quarter of the
  whitespace-normalised length and looks up prices in a fixed table;
- the **evaluation checks**: the structural JSON schema check, the
  substring and rubric assertions, the PASS/FAIL/ERROR classification of a
  test, and the summary counts.

Modules, one file each (with a companion `_lemmas` file where the properties
are long):

| module | file | models |
|---|---|---|
| `Wrappers` | wrappers.dfy | `Option`, `Result` |
| `Text` | text.dfy | the string operations: ASCII `lower()`, `in`, `count`, slicing, `re.findall(r'\b\w+\b')`, `split()` |
| `Corpus` | corpus.dfy | documents, scored documents, the stable descending sort |
| `QuestionAnswering`, `QuestionAnsweringLemmas` | question_answerer.dfy, question_answerer_lemmas.dfy | `question_answerer.py` |
| `DataScraping`, `DataScrapingLemmas` | data_scraper.dfy, data_scraper_lemmas.dfy | `data_scraper.py` |
| `TokenCalculation`, `TokenCalculationLemmas` | token_calculator.dfy, token_calculator_lemmas.dfy | `token_calculator.py` |
| `Evaluation`, `EvaluationLemmas` | evaluation.dfy, evaluation_lemmas.dfy | `run_evaluation.py` |

The two stateful objects are Dafny classes:

- `TDSDataScraper` has its document lists, metadata and loaded flag as fields.
  `ScrapeCourseContent`, `ScrapeDiscoursePosts`, `ScrapeAllData` and
  `LoadData` modify them.
- `TDSEvaluator` has a `results` field. `RunTests`, the test loop of
  `RunEvaluation`, appends to it.

Each scoring, search, link-building and assertion loop is a `method` with a
loop. Each such method is proved equal to a specification function, and the
lemmas prove the promised properties about that function.

Regular expressions are modelled without a regex engine. Every rule pattern is
an alternation of branches like `gpt.*4o.*mini`. A branch is modelled as an
ordered list of literal pieces that must occur in order. Following Python,
`.*` does not cross a newline. `3\.?5` becomes two branches, one with "3.5"
and one with "35".

Some facts about the answer engine that its lemmas pin down:

- The link list is capped at 5 links (question_answerer.py:220).
- A link to one of the top 3 items is added whenever the item has a URL not
  yet in the list. No score or keyword condition applies
  (question_answerer.py:201-211).
- The default course link is added exactly when no other link was chosen
  (question_answerer.py:213-218).
- The generic answer quotes the first 200 characters of the top document
  (question_answerer.py:163-165).
- The image context is accepted but never read (question_answerer.py:127-168).
- An empty question scores 20 against every document, because it occurs in
  every text (question_answerer.py:122-123).

Python default arguments are kept as Dafny default parameters:

- `CalculateCost` defaults to model gpt-3.5-turbo-0125 and token type input.
- `SearchContent` defaults to a limit of 10.
- `GenerateAnswer` and `AnswerQuestion` default the image context to none.

## Model

| member | source | states |
|---|---|---|
| QuestionAnswering.QuestionAnswerer.constructor | question_answerer.py:13-16 | the lists are the data's `course_content` and `discourse_posts`, or empty when the key is missing |
| QuestionAnswering.FirstMatch | question_answerer.py:131-134 | returns the index of the earliest rule whose pattern matches, and no earlier rule matches; returns none exactly when no rule matches |
| QuestionAnswering.QuestionAnswerer.CalculateRelevance | question_answerer.py:104-125 | the loop's score equals `Relevance`: a length-weighted count over words longer than 2, plus 10 for a title hit, plus 20 for a whole-question hit |
| QuestionAnswering.QuestionAnswerer.SearchRelevantContent | question_answerer.py:77-102 | the two scoring loops, the sort and the cut equal `TopRelevant`: the positive-score documents, stably sorted descending, first 5 |
| QuestionAnswering.GenerateAnswer | question_answerer.py:127-168 | the answer is never empty |
| QuestionAnswering.QuestionAnswerer.GetRelevantLinks | question_answerer.py:170-220 | the step-by-step link list equals `RelevantLinks`: curated links, content links of the top 3, the default link when empty, cut at 5 |
| QuestionAnswering.QuestionAnswerer.AnswerQuestion | question_answerer.py:50-75 | the answer and the links are those composed from the same top-5 retrieval |
| QuestionAnswering.QuestionAnswerer.GetStats | question_answerer.py:222-229 | the two list lengths, the total as their sum, and 7 rules |
| QuestionAnsweringLemmas.EmptyQuestionScoresTwenty | question_answerer.py:110-123 | the empty question scores exactly 20 against every document |
| QuestionAnsweringLemmas.WordScoreSuffixMonotone | question_answerer.py:113-115 | the word score cannot drop when text is prepended |
| QuestionAnsweringLemmas.TitleMatchBoosts | question_answerer.py:118-119 | a question word in the lowercased title adds at least 10 over the same document with an empty title |
| QuestionAnsweringLemmas.ScoringFacts | question_answerer.py:83-98 | a scored entry is an input document with a positive score equal to its relevance; every positive-scoring document is kept |
| QuestionAnsweringLemmas.CandidateFacts | question_answerer.py:80-98 | the same facts for the course list followed by the posts list |
| QuestionAnsweringLemmas.TopRelevantShape | question_answerer.py:77-102 | at most 5 entries, sorted non-increasing, each an input document with a positive score equal to its relevance |
| QuestionAnswering.Relevance | question_answerer.py:104-125 | a title hit scores at least 10 and a whole-question hit at least 20 |
| QuestionAnswering.Scoring | question_answerer.py:83-98 | at most one scored entry per document |
| QuestionAnswering.TopRelevant | question_answerer.py:100-102 | at most 5 entries |
| QuestionAnsweringLemmas.TopRelevantKeepsBest | question_answerer.py:100-102 | a positive-scoring document left out means 5 entries were kept, none scoring below it |
| QuestionAnsweringLemmas.TopRelevantTies | question_answerer.py:83-101 | among equal scores, course items come before posts and each list keeps its order |
| QuestionAnsweringLemmas.ScoringEmptyQuestion | question_answerer.py:83-89 | with the empty question every document is kept, scored 20, in order |
| QuestionAnsweringLemmas.EmptyQuestionRetrievesCorpusPrefix | question_answerer.py:77-102 | the empty question retrieves the first five documents of course followed by posts, each scored 20 |
| QuestionAnsweringLemmas.RuleAnswersDistinct | question_answerer.py:19-48 | the seven canned answers are pairwise different |
| QuestionAnsweringLemmas.FirstRuleAnswers | question_answerer.py:131-134 | when rule i is the first that matches, the answer is rule i's answer |
| QuestionAnsweringLemmas.LaterRuleNeverAnswers | question_answerer.py:131-134 | when two rules match, the later one's answer is never given |
| QuestionAnsweringLemmas.NothingFoundGivesFallback | question_answerer.py:137-168 | no rule match and nothing retrieved give the fixed fallback sentence |
| QuestionAnsweringLemmas.KeywordChain | question_answerer.py:142-161 | when some keyword condition holds, the first condition of the chain that holds picks its answer, through all seven branches in order |
| QuestionAnsweringLemmas.KeywordAnswerWins | question_answerer.py:137-165 | with no rule match, some content and a keyword condition, the answer is a keyword answer and never the excerpt of the top item |
| QuestionAnsweringLemmas.ExcerptIsNoKeywordAnswer | question_answerer.py:142-165 | no excerpt answer equals any of the seven keyword answers |
| QuestionAnsweringLemmas.GenericAnswerQuotesTopItem | question_answerer.py:163-165 | the generic branch answers with the fixed prefix, the top item's first 200 characters and the fixed suffix |
| QuestionAnsweringLemmas.ImageContextIgnored | question_answerer.py:127-168 | the answer is the same whatever the image context |
| QuestionAnsweringLemmas.ContentLinksFacts | question_answerer.py:202-211 | content links extend the list, keep URLs distinct, each point to an item with a URL and its text rule, and cover every item URL |
| QuestionAnsweringLemmas.CuratedLinksDistinct | question_answerer.py:175-199 | the curated links have distinct URLs and number at most 2 |
| QuestionAnsweringLemmas.RelevantLinksShape | question_answerer.py:170-220 | 1 to 5 links with distinct URLs; curated links first; the default link exactly when nothing else; every top-3 URL present |
| QuestionAnsweringLemmas.CuratedLinksLeadByTopic | question_answerer.py:175-199 | the curated links follow the topic priority model > dashboard > containers |
| QuestionAnsweringLemmas.MiniQuestionGetsModelAnswer | question_answerer.py:20-23 | any question mentioning gpt-4o-mini is given the model-selection answer, which names gpt-3.5-turbo-0125, and the two model links come first |
| QuestionAnsweringLemmas.ModelQuestionMentionsMini | question_answerer.py:20 | "Should I use gpt-4o-mini or gpt-3.5-turbo?" mentions gpt-4o-mini once lowercased |
| QuestionAnsweringLemmas.ModelAnswerNamesRequiredModel | question_answerer.py:21 | the model-selection answer contains gpt-3.5-turbo-0125 |
| QuestionAnsweringLemmas.MatchAtExtends | question_answerer.py:132 | a pattern branch matching a text still matches with more text appended |
| QuestionAnsweringLemmas.SearchFrom | question_answerer.py:132 | a branch matching from some position is found by the search |
| Corpus.SortIsSortedPermutation | question_answerer.py:101 | the descending sort is sorted and a permutation |
| Corpus.SortIsStable | data_scraper.py:232 | the sort keeps the relative order of entries with equal scores |
| Corpus.SortUniformIsIdentity | data_scraper.py:232 | when every score is equal the sort changes nothing |
| Text.Slice | data_scraper.py:233 | `s[:limit]` is a prefix; its length is `limit` capped at the length, or the length minus `-limit` for a negative limit |
| DataScraping.TDSDataScraper.constructor | data_scraper.py:18-28 | a fresh store: empty lists, no timestamp, 0 documents, not loaded |
| DataScraping.TDSDataScraper.ScrapeCourseContent | data_scraper.py:74-135 | appends the eight fixed topics after any existing ones; nothing else changes |
| DataScraping.TDSDataScraper.ScrapeDiscoursePosts | data_scraper.py:137-198 | appends the six fixed posts; nothing else changes |
| DataScraping.TDSDataScraper.ScrapeAllData | data_scraper.py:57-70 | both appends, the timestamp set, the total equal to the two lengths, loaded |
| DataScraping.TDSDataScraper.LoadData | data_scraper.py:30-47 | a readable cache replaces the data; otherwise the store is scraped; either way it is loaded |
| DataScraping.TDSDataScraper.GetData | data_scraper.py:200-202 | the stored data, unchanged |
| DataScraping.TDSDataScraper.IsDataLoaded | data_scraper.py:204-206 | the loaded flag |
| DataScraping.TDSDataScraper.SearchContent | data_scraper.py:208-233 | the two filter loops, the sort and the cut equal `SearchResults` |
| DataScraping.TDSDataScraper.CalculateRelevance | data_scraper.py:235-249 | the loop's score is the sum of counts of the split query words plus 5 for a title hit |
| DataScraping.ItemRelevance | data_scraper.py:235-249 | a title hit scores at least 5 |
| DataScraping.Hits | data_scraper.py:214-229 | at most one scored entry per document |
| DataScraping.SearchResults | data_scraper.py:231-233 | no more entries than a non-negative limit |
| DataScraping.HitsStep | data_scraper.py:214-229 | one more document adds one scored entry exactly when it passes the filter |
| DataScrapingLemmas.SeedShape | data_scraper.py:80-192 | 8 course topics without dates or replies, 6 dated posts, the first with one reply |
| DataScrapingLemmas.HitsFacts | data_scraper.py:214-229 | an entry is kept exactly when its document is in the list, passes the filter and carries its score |
| DataScrapingLemmas.HitScoreLowerBound | data_scraper.py:235-249 | a document passing the filter scores at least the number of query words, and at least 5 more on a title hit |
| DataScrapingLemmas.SearchResultsShape | data_scraper.py:208-233 | results pass the filter, carry their scores, are sorted non-increasing, and number at most a non-negative limit |
| DataScrapingLemmas.SearchResultsKeepsBest | data_scraper.py:231-233 | a document passing the filter but left out means `limit` entries were kept, none scoring below it |
| DataScrapingLemmas.SearchResultsComplete | data_scraper.py:208-233 | a limit at least the store size returns every document passing the filter |
| DataScrapingLemmas.SearchResultsTies | data_scraper.py:213-232 | among equal scores, course items precede posts in list order |
| DataScrapingLemmas.EmptyQueryListsStore | data_scraper.py:208-249 | the empty query returns the store in order, each scored 5, cut at the limit |
| TokenCalculation.LStrip | token_calculator.py:43 | drops exactly the leading whitespace |
| TokenCalculation.RStrip | token_calculator.py:43 | drops exactly the trailing whitespace |
| TokenCalculation.Strip | token_calculator.py:43 | the left-stripped text cut before its trailing whitespace; neither end of the result is whitespace |
| TokenCalculation.Collapse | token_calculator.py:43 | no longer than the input; the only whitespace is ' ', never two in a row; non-empty exactly when the input is |
| TokenCalculation.NonSpaceChars | token_calculator.py:43 | no longer than the text |
| TokenCalculation.NonSpaceCharsSkipRun | token_calculator.py:43 | a leading whitespace run contributes no non-whitespace characters |
| TokenCalculation.CollapseKeepsNonSpace | token_calculator.py:43 | the non-whitespace characters of the collapsed text are those of the input, in order |
| TokenCalculation.CalculateCost | token_calculator.py:50-87 | unknown model rejected first, then unknown token type; success exactly otherwise, with the estimate, echoed model and type, and the table price |
| TokenCalculationLemmas.DefaultCallPricesInput | token_calculator.py:50-51 | a call with the default model and token type succeeds with the estimate and the gpt-3.5-turbo-0125 input price, 0.50 per million |
| TokenCalculation.GetModelPricing | token_calculator.py:16-29 | the table: the three models, each with an input and an output price |
| TokenCalculationLemmas.BlankTextHasNoTokens | token_calculator.py:39-48 | empty and whitespace-only text estimate to 0 |
| TokenCalculation.EstimateTokens | token_calculator.py:39-48 | empty text is 0 tokens, and the estimate is at most a quarter of the raw length |
| TokenCalculationLemmas.SurroundingSpaceIgnored | token_calculator.py:43 | leading and trailing whitespace do not change the estimate |
| TokenCalculationLemmas.CollapseRun | token_calculator.py:43 | a leading whitespace run becomes one space, followed by the collapse of what comes after the run |
| TokenCalculationLemmas.CollapseKeepsHead | token_calculator.py:43 | a leading non-whitespace character is kept as is, in front of the collapse of the rest |
| TokenCalculationLemmas.CollapseRunsAlike | token_calculator.py:43 | two whitespace runs in the same place collapse to the same text |
| TokenCalculationLemmas.InternalSpaceIgnored | token_calculator.py:43-48 | lengthening or shortening an internal whitespace run does not change the estimate |
| TokenCalculationLemmas.CollapseIdempotent | token_calculator.py:43 | collapsing twice is collapsing once |
| Evaluation.PyIn | run_evaluation.py:120 | `in` on a string is a substring test; it raises exactly on numbers, booleans and null |
| Evaluation.AllPresent | run_evaluation.py:157-159 | passing means every listed field is a present string key; for string fields, exactly when all are present |
| Evaluation.CheckJsonSchema | run_evaluation.py:152-173 | a non-object schema raises; the check passes exactly when required fields are present, `answer` is a string and `links` a list of url/text objects |
| Evaluation.Evaluated | run_evaluation.py:35-40 | one result per test, each the single-test result of that test |
| Evaluation.SummaryOf | run_evaluation.py:209-212 | total is the number of results and passed + failed + errors equals it |
| Evaluation.TDSEvaluator.constructor | run_evaluation.py:15-20 | the API URL, the tests, no results |
| Evaluation.FirstPrintRaise | run_evaluation.py:188-193 | the position of the first result whose printing raises: every earlier result prints, and that one raises |
| Evaluation.Appended | run_evaluation.py:35-42 | a prefix of the results: all of them when none raises on printing, else up to and including the first that raises |
| Evaluation.PrintStep | run_evaluation.py:35-42 | at a result the loop reaches, a raise on printing makes the appended results end with it; otherwise the loop reaches the next result |
| Evaluation.TDSEvaluator.RunEvaluation | run_evaluation.py:22-47 | a failed health check returns false and adds nothing; otherwise the results are appended in order up to the first whose printing raises, and the run raises when printing raised or when it ends with no results (the summary's division), and returns true otherwise |
| Evaluation.TDSEvaluator.RunTests | run_evaluation.py:35-43 | appends the results in test order, stopping after the first whose printing raises, and reports whether one did |
| Evaluation.TDSEvaluator.RunSingleTest | run_evaluation.py:57-105 | runs the assertions only on a 200 response with a JSON body and equals `SingleTestResult`, whose PASS/FAIL/ERROR split `StatusClassification` states |
| Evaluation.TDSEvaluator.RunAssertions | run_evaluation.py:107-150 | the loop's result map equals the fold `AssertionResults`, or raises where it does |
| Evaluation.TDSEvaluator.GetSummary | run_evaluation.py:209-212 | the summary of the results so far |
| Evaluation.FailureSticks | run_evaluation.py:111-150 | once an assertion raises, the whole assertion run raises |
| EvaluationLemmas.MissingRequiredFieldFails | run_evaluation.py:154-159 | a missing required field fails the check |
| EvaluationLemmas.NonStringAnswerFails | run_evaluation.py:162-163 | a non-string `answer` fails the check |
| EvaluationLemmas.MalformedLinkFails | run_evaluation.py:166-171 | a link that is not an object with `url` and `text` fails the check |
| EvaluationLemmas.EngineResponsePassesSchema | main.py:46-48 | every response the answer engine builds passes the schema check |
| EvaluationLemmas.LowerKeepsContains | run_evaluation.py:129 | a substring is still a substring after lowercasing both |
| EvaluationLemmas.AnswerContainsCheck | run_evaluation.py:128-129 | records a case-insensitive substring test under `contains_` + the value's first 20 characters, true when the answer holds the value verbatim |
| EvaluationLemmas.GptRubricCheck | run_evaluation.py:141-142 | `gpt_model_check` is exactly whether the lowercased answer names gpt-3.5-turbo-0125 |
| EvaluationLemmas.UnknownRubricCheck | run_evaluation.py:145-148 | `unknown_info_check` is exactly whether one of the three phrases occurs |
| EvaluationLemmas.LowerModelAnswerNamesModel | run_evaluation.py:140-142 | the lowercased model-selection answer names gpt-3.5-turbo-0125 |
| EvaluationLemmas.MiniQuestionPassesGptRubric | run_evaluation.py:139-142 | the engine's answer to a gpt-4o-mini question passes the gpt-3.5-turbo-0125 rubric |
| EvaluationLemmas.StatusClassification | run_evaluation.py:79-105 | PASS exactly on a 200 JSON response whose assertions all hold; ERROR exactly on a raised request, a non-200 status, a non-JSON body or a raised assertion |
| EvaluationLemmas.NoAssertionsPass | run_evaluation.py:87 | a test with no assertions passes on any 200 JSON response |
| EvaluationLemmas.ErrorsPrintQuietly | run_evaluation.py:188-193 | an ERROR result never raises when printed |
| EvaluationLemmas.NumberAnswerStopsRun | run_evaluation.py:188-193 | a first test answered 200 with a number as `answer` raises on printing and is the only result appended |
| EvaluationLemmas.EngineResponsePrintsQuietly | run_evaluation.py:188-193 | a response with a string answer and a list of links never raises when printed |
| EvaluationLemmas.RunSummaryCountsEveryTest | run_evaluation.py:209-212 | over the results of all tests, the counts add up to the number of tests, and every raised request counts as an error |

## Left out

- Transport and plumbing are not modelled. This covers HTTP requests, the
  FastAPI layer, async/await, logging, printing, YAML loading and
  `sys.exit`. main.py and image_processor.py are not part of this model,
  except for the response shape that `EngineResponsePassesSchema` uses.
  deploy.py, verify_deployment.py and the three test scripts are not part of
  it either.
- Parameters stand in for several inputs:
  - The cache file is an `Option<ScraperData>` argument of `LoadData`, and
    writing the cache back is not modelled.
  - `datetime.now()` is the `now` argument.
  - The health check is the `healthy` argument.
  - Each test's response is an `Outcome`: status, parsed body, text, elapsed
    seconds.
- `json.dumps(links)` is not modelled. It is an injected `linksJson` string,
  and the link `contains` check is a substring test on it.
- `lower()`, `\w` and `\s` are modelled on ASCII. Python applies Unicode case
  folding and character classes.
- Documents always carry a title and content. The `.get(..., '')` defaults
  for missing keys are not modelled, and an empty `url` stands for a missing
  one.
- The float cost fields `cost_dollars` and `cost_cents`, their rounding,
  `solve_sample_problem`, and the float success rate and average time of the
  summary are not modelled. The one case where the summary raises, a run
  that ends with no results, is modelled: `RunEvaluation` returns `None`
  there.
- JSON numbers are Dafny reals. A response body that is valid JSON but not an
  object is not modelled: the body is an object or unparseable.
- Python exception messages are not modelled. A raised exception is reported
  by kind only: HTTP error, request exception, non-JSON body, or an assertion
  that raised.
- TDSEvaluator.RunEvaluation: it takes one outcome per test, so it requires
  as many outcomes as tests. That requirement belongs to the model's
  injected responses, not to the source. A raise inside the loop is reported
  as `None` without its exception type. A test is a typed `TestCase` with
  a question, so the `KeyError` that a test without `vars.question` raises
  (run_evaluation.py:36 and :59) is not modelled.
- `_print_test_result` is modelled only for when it raises (`PrintRaises`).
  `answer[:100]` needs a string or a list, and `len(links)` needs a string,
  a list or an object; all other output is not modelled.
- QuestionAnswering.GenerateAnswer: its own contract states only
  non-emptiness. What it returns in each branch is stated by lemmas:
  - `FirstRuleAnswers` and `LaterRuleNeverAnswers` cover the rules.
  - `KeywordChain` and `KeywordAnswerWins` cover the keyword chain.
  - `GenericAnswerQuotesTopItem` covers the excerpt.
  - `NothingFoundGivesFallback` covers the fallback.
