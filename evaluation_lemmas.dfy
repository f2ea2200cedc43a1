/**
 * Properties of the evaluation checks: what makes the schema check fail or
 * pass, what the substring and rubric checks record, how a test is
 * classified, and that the answer engine's responses pass the checks they
 * are written against.
 */
module EvaluationLemmas {
  import opened Wrappers
  import opened Text
  import opened Corpus
  import opened QuestionAnswering
  import opened QuestionAnsweringLemmas
  import opened Evaluation

  // ---------------------------------------------------------------------
  // Schema check

  /** A required field (listed as a string) that the data lacks makes the check fail. */
  lemma MissingRequiredFieldFails(data: map<string, Json>, schema: Json, field: string)
    requires schema.JObject? && "required" in schema.fields && schema.fields["required"].JArray?
    requires forall k :: 0 <= k < |schema.fields["required"].elems| ==> schema.fields["required"].elems[k].JString?
    requires JString(field) in schema.fields["required"].elems && field !in data
    ensures CheckJsonSchema(data, schema) == Some(false)
  {
    var fields := schema.fields["required"].elems;
    var k :| 0 <= k < |fields| && fields[k] == JString(field);
    assert !(fields[k].str in data);
  }

  /** With the required fields present, a non-string `answer` makes the check fail. */
  lemma NonStringAnswerFails(data: map<string, Json>, schema: Json)
    requires schema.JObject?
    requires RequiredPresent(Get(schema.fields, "required", JArray([])), data) == Some(true)
    requires "answer" in data && !data["answer"].JString?
    ensures CheckJsonSchema(data, schema) == Some(false)
  {
  }

  /** With the required fields present, a `links` list holding something other than a url/text object makes the check fail. */
  lemma MalformedLinkFails(data: map<string, Json>, schema: Json, k: nat)
    requires schema.JObject?
    requires RequiredPresent(Get(schema.fields, "required", JArray([])), data) == Some(true)
    requires "answer" in data ==> data["answer"].JString?
    requires "links" in data && data["links"].JArray? && k < |data["links"].elems|
    requires !data["links"].elems[k].JObject? || "url" !in data["links"].elems[k].fields || "text" !in data["links"].elems[k].fields
    ensures CheckJsonSchema(data, schema) == Some(false)
  {
    assert !LinksWellFormed(data["links"]);
  }

  /** The JSON object for one link of the API response. */
  function LinkJson(link: Link): Json
  {
    JObject(map["url" := JString(link.url), "text" := JString(link.text)])
  }

  /** The body of the API's response: `{"answer": ..., "links": [{"url": ..., "text": ...}, ...]}`. */
  function ResponseBody(answer: string, links: seq<Link>): map<string, Json>
  {
    map["answer" := JString(answer), "links" := JArray(seq(|links|, i requires 0 <= i < |links| => LinkJson(links[i])))]
  }

  /** The schema the evaluation config states for responses: an object requiring `answer` and `links`. */
  const ResponseSchema := JObject(map["type" := JString("object"), "required" := JArray([JString("answer"), JString("links")])])

  /** Every response the answer engine can give passes the schema check. */
  lemma EngineResponsePassesSchema(question: string, course: seq<Document>, posts: seq<Document>, imageContext: Option<string>)
    ensures var relevant := TopRelevant(course, posts, question);
      CheckJsonSchema(ResponseBody(GenerateAnswer(question, relevant, imageContext), RelevantLinks(question, relevant)), ResponseSchema)
        == Some(true)
  {
    var relevant := TopRelevant(course, posts, question);
    var body := ResponseBody(GenerateAnswer(question, relevant, imageContext), RelevantLinks(question, relevant));
    var fields := [JString("answer"), JString("links")];
    assert ResponseSchema.fields["required"] == JArray(fields);
    assert AllPresent(fields, body) == Some(true);
    assert LinksWellFormed(body["links"]);
  }

  // ---------------------------------------------------------------------
  // Assertion checks

  lemma LowerKeepsContains(s: string, p: string)
    requires Contains(s, p)
    ensures Contains(Lower(s), Lower(p))
  {
    var i := ContainsWitness(s, p);
    assert Lower(s)[i..i + |p|] == Lower(s[i..i + |p|]);
    ContainsAt(Lower(s), i, Lower(p));
  }

  /**
   * An answer `contains` check records, under `contains_` and the value's
   * first 20 characters, a case-insensitive substring test; an answer that
   * holds the value verbatim passes it.  Other entries are kept.
   */
  lemma AnswerContainsCheck(results: map<string, bool>, transform: string, value: string, data: map<string, Json>, linksJson: string)
    requires Contains(transform, "output.answer")
    requires "answer" in data && data["answer"].JString?
    ensures var answer := data["answer"].str;
      && ContainsCheck(results, JString(transform), JString(value), data, linksJson)
        == Some(results["contains_" + Take(value, 20) := Contains(Lower(answer), Lower(value))])
      && (Contains(answer, value) ==> Contains(Lower(answer), Lower(value)))
  {
    if Contains(data["answer"].str, value) {
      LowerKeepsContains(data["answer"].str, value);
    }
  }

  /** A rubric that names gpt-3.5-turbo-0125 records whether the lowercased answer names it. */
  lemma GptRubricCheck(results: map<string, bool>, transform: string, value: string, answer: string)
    requires Contains(transform, "output.answer") && Contains(Lower(value), GptModel)
    ensures RubricCheck(results, JString(transform), JString(value), map["answer" := JString(answer)])
      == Some(results["gpt_model_check" := Contains(Lower(answer), GptModel)])
  {
  }

  /** A rubric about not knowing records whether one of the three admitting phrases occurs. */
  lemma UnknownRubricCheck(results: map<string, bool>, transform: string, value: string, answer: string)
    requires Contains(transform, "output.answer")
    requires !Contains(Lower(value), GptModel)
    requires !(Contains(Lower(value), "docker") && Contains(Lower(value), "podman"))
    requires Contains(Lower(value), "doesn't know")
    ensures RubricCheck(results, JString(transform), JString(value), map["answer" := JString(answer)])
      == Some(results["unknown_info_check" := AdmitsNotKnowing(Lower(answer))])
  {
  }

  lemma LowerRequiredModel()
    ensures Lower(RequiredModel) == RequiredModel
  {
    LowerConcat("gpt-3.5-", "turbo-0125");
    assert Lower("gpt-3.5-") == "gpt-3.5-";
    assert Lower("turbo-0125") == "turbo-0125";
  }

  lemma LowercasePieceSurvives(a: string, m: string, b: string)
    requires Lower(m) == m
    ensures Contains(Lower(a + m + b), m)
  {
    LowerConcat(a + m, b);
    LowerConcat(a, m);
    assert StartsWith(m, m);
    ContainsSuffix(Lower(a), m, m);
    ContainsPrefix(Lower(a) + m, Lower(b), m);
  }

  /** The lowercased model-selection answer still names gpt-3.5-turbo-0125. */
  lemma LowerModelAnswerNamesModel()
    ensures Contains(Lower(ModelAnswer), GptModel)
  {
    var head := "You must use `";
    var rest := "`, even if the AI Proxy only supports `gpt-4o-mini`. Use the OpenAI API directly for this question. The assignment specifically requires " + RequiredModel + " for consistency and evaluation purposes.";
    assert ModelAnswer == head + RequiredModel + rest;
    LowerRequiredModel();
    LowercasePieceSurvives(head, RequiredModel, rest);
  }

  /** The engine's answer to any question naming gpt-4o-mini passes the gpt-3.5-turbo-0125 rubric. */
  lemma MiniQuestionPassesGptRubric(question: string, course: seq<Document>, posts: seq<Document>, imageContext: Option<string>,
                                    results: map<string, bool>, transform: string, value: string)
    requires Contains(Lower(question), "gpt-4o-mini")
    requires Contains(transform, "output.answer") && Contains(Lower(value), GptModel)
    ensures var answer := GenerateAnswer(question, TopRelevant(course, posts, question), imageContext);
      RubricCheck(results, JString(transform), JString(value), map["answer" := JString(answer)])
        == Some(results["gpt_model_check" := true])
  {
    MiniQuestionGetsModelAnswer(question, course, posts, imageContext);
    LowerModelAnswerNamesModel();
  }

  // ---------------------------------------------------------------------
  // Classification

  /**
   * A test passes exactly when the response is a 200 with a JSON body and
   * every assertion holds; it errs exactly when the request raised, the
   * status is not 200, the body is not JSON or an assertion raised.
   */
  lemma StatusClassification(test: TestCase, outcome: Outcome)
    ensures var r := SingleTestResult(test, outcome);
      && (r.status == Pass <==>
            outcome.Answered? && outcome.statusCode == 200 && outcome.body.Some?
            && var checks := AssertionResults(test.assertions, outcome.body.value, outcome.linksJson, outcome.seconds);
               checks.Some? && AllTrue(checks.value))
      && (r.status == Error <==>
            outcome.RequestRaised? || outcome.statusCode != 200 || outcome.body.None?
            || AssertionResults(test.assertions, outcome.body.value, outcome.linksJson, outcome.seconds).None?)
  {
  }

  /** A test without assertions passes on any 200 response with a JSON body. */
  lemma NoAssertionsPass(question: string, body: map<string, Json>, text: string, linksJson: string, seconds: real)
    ensures SingleTestResult(TestCase(question, []), Answered(200, Some(body), text, linksJson, seconds)).status == Pass
  {
    assert AssertionResults([], body, linksJson, seconds) == Some(map[]);
  }

  // ---------------------------------------------------------------------
  // Printing results

  /** An error result carries no response data, so printing it never raises. */
  lemma ErrorsPrintQuietly(test: TestCase, outcome: Outcome)
    ensures SingleTestResult(test, outcome).status == Error ==> !PrintRaises(SingleTestResult(test, outcome))
  {
  }

  /**
   * A first test whose 200 response has a number as its `answer` stops the
   * run: printing its result raises, it is the only result appended and no
   * later test runs.
   */
  lemma NumberAnswerStopsRun(question: string, answer: real, text: string, linksJson: string, seconds: real,
                             tests: seq<TestCase>, outcomes: seq<Outcome>)
    requires |outcomes| == |tests|
    ensures var t := [TestCase(question, [])] + tests;
      var o := [Answered(200, Some(map["answer" := JNumber(answer)]), text, linksJson, seconds)] + outcomes;
      FirstPrintRaise(Evaluated(t, o)) == 0 && Appended(Evaluated(t, o)) == [Evaluated(t, o)[0]]
  {
    var body := map["answer" := JNumber(answer)];
    var t := [TestCase(question, [])] + tests;
    var o := [Answered(200, Some(body), text, linksJson, seconds)] + outcomes;
    assert AssertionResults([], body, linksJson, seconds) == Some(map[]);
    assert Get(body, "answer", JString("")) == JNumber(answer);
    assert PrintRaises(Evaluated(t, o)[0]);
  }

  /**
   * Printing the result of a test answered with the body the API gives (a
   * string `answer` and a list of `links`, as every response of the answer
   * engine has) never raises.
   */
  lemma EngineResponsePrintsQuietly(test: TestCase, answer: string, links: seq<Link>, text: string, linksJson: string, seconds: real)
    ensures !PrintRaises(SingleTestResult(test, Answered(200, Some(ResponseBody(answer, links)), text, linksJson, seconds)))
  {
    var body := ResponseBody(answer, links);
    assert Get(body, "answer", JString("")).JString?;
    assert Get(body, "links", JArray([])).JArray?;
  }

  /** How many of the outcomes are requests that raised. */
  function RaisedCount(outcomes: seq<Outcome>): nat
    decreases |outcomes|
  {
    if outcomes == [] then 0
    else RaisedCount(outcomes[..|outcomes| - 1]) + (if outcomes[|outcomes| - 1].RequestRaised? then 1 else 0)
  }

  /**
   * Over the results of all tests (what a healthy run appends when no result
   * raises on printing), the summary counts one result per test, and every
   * raised request is an error.
   */
  lemma RunSummaryCountsEveryTest(tests: seq<TestCase>, outcomes: seq<Outcome>)
    requires |outcomes| == |tests|
    ensures var s := SummaryOf(Evaluated(tests, outcomes));
      s.total == |tests| && s.passed + s.failed + s.errors == |tests| && s.errors >= RaisedCount(outcomes)
  {
    RaisedCountAsErrors(tests, outcomes);
  }

  lemma {:induction false} RaisedCountAsErrors(tests: seq<TestCase>, outcomes: seq<Outcome>)
    requires |outcomes| == |tests|
    ensures CountStatus(Evaluated(tests, outcomes), Error) >= RaisedCount(outcomes)
    decreases |tests|
  {
    if tests != [] {
      var n := |tests| - 1;
      var rs := Evaluated(tests, outcomes);
      assert rs[..n] == Evaluated(tests[..n], outcomes[..n]);
      assert outcomes[..n] == outcomes[..|outcomes| - 1];
      RaisedCountAsErrors(tests[..n], outcomes[..n]);
    }
  }
}
