/**
 * The checking half of `run_evaluation.py`: the structural JSON schema
 * check, the per-test assertion map, the PASS/FAIL/ERROR classification and
 * the summary counts.  HTTP, the wall clock, YAML loading and
 * `json.dumps` are outside the model: each test's response arrives as an
 * `Outcome` holding the status, the parsed body, the serialised `links`
 * text and the elapsed seconds.
 *
 * Python exceptions raised while checking (an attribute or type error on an
 * unexpected JSON shape) are caught by `_run_single_test`, so every checker
 * here returns `None` for "raised".
 */
module Evaluation {
  import opened Wrappers
  import opened Text

  datatype Json =
    | JNull
    | JBool(b: bool)
    | JNumber(n: real)
    | JString(str: string)
    | JArray(elems: seq<Json>)
    | JObject(fields: map<string, Json>)

  /** `d.get(key, default)`. */
  function Get(d: map<string, Json>, key: string, default: Json): Json
  {
    if key in d then d[key] else default
  }

  /**
   * Python's `needle in container` for a string needle: a substring test on
   * a string, an element test on a list, a key test on a dict; numbers,
   * booleans and `None` are not iterable and raise.
   */
  function PyIn(needle: string, container: Json): (r: Option<bool>)
    ensures container.JString? ==> r == Some(Contains(container.str, needle))
    ensures r.None? <==> container.JNull? || container.JBool? || container.JNumber?
  {
    match container
    case JString(s) => Some(Contains(s, needle))
    case JArray(es) => Some(JString(needle) in es)
    case JObject(m) => Some(needle in m)
    case _ => None
  }

  // ---------------------------------------------------------------------
  // _check_json_schema

  /** `field in data` for a JSON field value: lists and dicts are unhashable and raise. */
  function KeyIn(field: Json, data: map<string, Json>): Option<bool>
  {
    match field
    case JString(k) => Some(k in data)
    case JArray(_) => None
    case JObject(_) => None
    case _ => Some(false)
  }

  /** The `for field in required_fields` loop over a list, stopping at the first missing field. */
  function AllPresent(fields: seq<Json>, data: map<string, Json>): (r: Option<bool>)
    ensures r == Some(true) ==> forall k :: 0 <= k < |fields| ==> fields[k].JString? && fields[k].str in data
    ensures (forall k :: 0 <= k < |fields| ==> fields[k].JString?) ==>
      r == Some(forall k :: 0 <= k < |fields| ==> fields[k].str in data)
    decreases |fields|
  {
    if fields == [] then Some(true)
    else
      match KeyIn(fields[0], data)
      case None => None
      case Some(false) => Some(false)
      case Some(true) => AllPresent(fields[1..], data)
  }

  /**
   * The required-fields loop for whatever `schema.get('required', [])` is:
   * iterating a string yields its characters, a dict its keys; other values
   * are not iterable and raise.
   */
  function RequiredPresent(required: Json, data: map<string, Json>): Option<bool>
  {
    match required
    case JArray(fields) => AllPresent(fields, data)
    case JString(s) => Some(forall i :: 0 <= i < |s| ==> [s[i]] in data)
    case JObject(m) => Some(forall k :: k in m ==> k in data)
    case _ => None
  }

  /** A list whose every element is an object with both `url` and `text`. */
  predicate LinksWellFormed(links: Json)
  {
    links.JArray? &&
    forall k :: 0 <= k < |links.elems| ==>
      links.elems[k].JObject? && "url" in links.elems[k].fields && "text" in links.elems[k].fields
  }

  /**
   * `_check_json_schema(data, schema)`.  A schema that is not an object
   * raises at `schema.get`.  The data passes exactly when the required
   * fields are present, `answer` (if present) is a string and `links` (if
   * present) is a well-formed list.
   */
  function CheckJsonSchema(data: map<string, Json>, schema: Json): (r: Option<bool>)
    ensures !schema.JObject? ==> r.None?
    ensures r == Some(true) <==>
      && schema.JObject?
      && RequiredPresent(Get(schema.fields, "required", JArray([])), data) == Some(true)
      && ("answer" in data ==> data["answer"].JString?)
      && ("links" in data ==> LinksWellFormed(data["links"]))
  {
    if !schema.JObject? then None
    else
      match RequiredPresent(Get(schema.fields, "required", JArray([])), data)
      case None => None
      case Some(false) => Some(false)
      case Some(true) =>
        if "answer" in data && !data["answer"].JString? then Some(false)
        else if "links" in data then Some(LinksWellFormed(data["links"]))
        else Some(true)
  }

  // ---------------------------------------------------------------------
  // _run_assertions

  /** `response_data.get('answer', '')`, as far as `.lower()` accepts it: a non-string raises. */
  function AnswerText(data: map<string, Json>): Option<string>
  {
    if "answer" !in data then Some("")
    else if data["answer"].JString? then Some(data["answer"].str)
    else None
  }

  const GptModel := "gpt-3.5-turbo-0125"

  const UnknownPhrases: seq<string> := ["don't have information", "not available", "not yet available"]

  /** `any(phrase in answer for phrase in [...])`. */
  predicate AdmitsNotKnowing(answer: string)
  {
    exists k :: 0 <= k < |UnknownPhrases| && Contains(answer, UnknownPhrases[k])
  }

  /** The `contains` branch. */
  function ContainsCheck(results: map<string, bool>, transform: Json, value: Json, data: map<string, Json>, linksJson: string): Option<map<string, bool>>
  {
    match PyIn("output.answer", transform)
    case None => None
    case Some(true) =>
      if !value.JString? then None
      else
        (match AnswerText(data)
         case None => None
         case Some(answer) =>
           Some(results["contains_" + Take(value.str, 20) := Contains(Lower(answer), Lower(value.str))]))
    case Some(false) =>
      match PyIn("JSON.stringify(output.links)", transform)
      case None => None
      case Some(true) =>
        if !value.JString? then None
        else Some(results["contains_link_" + Take(value.str, 20) := Contains(linksJson, value.str)])
      case Some(false) => Some(results)
  }

  /** The `llm-rubric` branch: three keyword stand-ins for a model-graded rubric. */
  function RubricCheck(results: map<string, bool>, transform: Json, value: Json, data: map<string, Json>): Option<map<string, bool>>
  {
    match PyIn("output.answer", transform)
    case None => None
    case Some(false) => Some(results)
    case Some(true) =>
      match AnswerText(data)
      case None => None
      case Some(text) =>
        if !value.JString? then None
        else
          var answer := Lower(text);
          var rubric := Lower(value.str);
          if Contains(rubric, GptModel) then
            Some(results["gpt_model_check" := Contains(answer, GptModel)])
          else if Contains(rubric, "docker") && Contains(rubric, "podman") then
            Some(results["docker_podman_check" := Contains(answer, "docker") || Contains(answer, "podman")])
          else if Contains(rubric, "doesn't know") then
            Some(results["unknown_info_check" := AdmitsNotKnowing(answer)])
          else Some(results)
  }

  /** One pass of the assertion loop: the result map after `assertion`, or `None` if it raised. */
  function ApplyAssertion(results: map<string, bool>, assertion: map<string, Json>, data: map<string, Json>, linksJson: string, seconds: real): Option<map<string, bool>>
  {
    var kind := Get(assertion, "type", JNull);
    if kind == JString("is-json") then
      (match CheckJsonSchema(data, Get(assertion, "value", JObject(map[])))
       case None => None
       case Some(ok) => Some(results["is_json" := ok]))
    else if kind == JString("javascript") then
      (match PyIn("latencyMs < 30000", Get(assertion, "value", JString("")))
       case None => None
       case Some(true) => Some(results["response_time" := seconds < 30.0])
       case Some(false) => Some(results))
    else if kind == JString("contains") then
      ContainsCheck(results, Get(assertion, "transform", JString("")), Get(assertion, "value", JString("")), data, linksJson)
    else if kind == JString("llm-rubric") then
      RubricCheck(results, Get(assertion, "transform", JString("")), Get(assertion, "value", JString("")), data)
    else Some(results)
  }

  /** What `_run_assertions` returns for the assertions in order, or `None` if one raised. */
  function AssertionResults(assertions: seq<map<string, Json>>, data: map<string, Json>, linksJson: string, seconds: real): Option<map<string, bool>>
    decreases |assertions|
  {
    if assertions == [] then Some(map[])
    else
      match AssertionResults(assertions[..|assertions| - 1], data, linksJson, seconds)
      case None => None
      case Some(results) => ApplyAssertion(results, assertions[|assertions| - 1], data, linksJson, seconds)
  }

  // ---------------------------------------------------------------------
  // Test results

  datatype Status = Pass | Fail | Error

  /** One entry of the config's `tests`: `vars.question` and the `assert` list. */
  datatype TestCase = TestCase(question: string, assertions: seq<map<string, Json>>)

  /**
   * What the request produced: a response with its status code, its body
   * parsed as a JSON object (`None` when `response.json()` raises), its
   * text, its `links` serialised by `json.dumps`, and the elapsed seconds;
   * or the exception the request raised.
   */
  datatype Outcome =
    | Answered(statusCode: int, body: Option<map<string, Json>>, text: string, linksJson: string, seconds: real)
    | RequestRaised(message: string)

  datatype ErrorInfo =
    | HttpError(code: int, text: string)
    | Raised(message: string)
    | BodyNotJson
    | AssertionRaised

  datatype TestResult = TestResult(
    question: string,
    status: Status,
    responseTime: Option<real>,
    responseData: Option<map<string, Json>>,
    assertions: Option<map<string, bool>>,
    error: Option<ErrorInfo>)

  /** `all(results.values())`. */
  predicate AllTrue(results: map<string, bool>)
  {
    forall k :: k in results ==> results[k]
  }

  /**
   * The result `_run_single_test` builds from the request's `outcome` and,
   * for a 200 response with a JSON body, the assertion map `checks`
   * (`None` when an assertion raised).
   */
  function ResultWith(test: TestCase, outcome: Outcome, checks: Option<map<string, bool>>): TestResult
  {
    match outcome
    case RequestRaised(message) =>
      TestResult(test.question, Error, None, None, None, Some(Raised(message)))
    case Answered(code, body, text, _, seconds) =>
      if code != 200 then
        TestResult(test.question, Error, Some(seconds), None, None, Some(HttpError(code, text)))
      else if body.None? then
        TestResult(test.question, Error, None, None, None, Some(BodyNotJson))
      else
        match checks
        case None =>
          TestResult(test.question, Error, None, None, None, Some(AssertionRaised))
        case Some(results) =>
          TestResult(test.question, if AllTrue(results) then Pass else Fail, Some(seconds), body, Some(results), None)
  }

  /** Whether `_run_single_test` gets as far as running the assertions. */
  predicate ReachesAssertions(outcome: Outcome)
  {
    outcome.Answered? && outcome.statusCode == 200 && outcome.body.Some?
  }

  /** What `_run_single_test(test)` returns when the request ends in `outcome`. */
  function SingleTestResult(test: TestCase, outcome: Outcome): TestResult
  {
    ResultWith(test, outcome,
      if ReachesAssertions(outcome)
      then AssertionResults(test.assertions, outcome.body.value, outcome.linksJson, outcome.seconds)
      else None)
  }

  /** The results of running `tests` in order against `outcomes`. */
  function Evaluated(tests: seq<TestCase>, outcomes: seq<Outcome>): (rs: seq<TestResult>)
    requires |outcomes| == |tests|
    ensures |rs| == |tests|
    ensures forall i :: 0 <= i < |tests| ==> rs[i] == SingleTestResult(tests[i], outcomes[i])
    decreases |tests|
  {
    if tests == [] then []
    else
      var n := |tests| - 1;
      Evaluated(tests[..n], outcomes[..n]) + [SingleTestResult(tests[n], outcomes[n])]
  }

  /** How many results carry `status`. */
  function CountStatus(rs: seq<TestResult>, status: Status): (n: nat)
    ensures n <= |rs|
    decreases |rs|
  {
    if rs == [] then 0
    else CountStatus(rs[..|rs| - 1], status) + (if rs[|rs| - 1].status == status then 1 else 0)
  }

  datatype Summary = Summary(total: nat, passed: nat, failed: nat, errors: nat)

  /** The counts `_print_summary` reports; every result has one of the three statuses. */
  function SummaryOf(rs: seq<TestResult>): (s: Summary)
    ensures s.total == |rs|
    ensures s.passed + s.failed + s.errors == s.total
  {
    StatusCountsAddUp(rs);
    Summary(|rs|, CountStatus(rs, Pass), CountStatus(rs, Fail), CountStatus(rs, Error))
  }

  lemma {:induction false} StatusCountsAddUp(rs: seq<TestResult>)
    ensures CountStatus(rs, Pass) + CountStatus(rs, Fail) + CountStatus(rs, Error) == |rs|
    decreases |rs|
  {
    if rs != [] {
      StatusCountsAddUp(rs[..|rs| - 1]);
    }
  }

  // ---------------------------------------------------------------------
  // Printing a result

  /**
   * Whether `_print_test_result(result)` raises a `TypeError`. A result with
   * response data prints `answer[:100]`, which needs a string or a list, and
   * `len(links)`, which needs a string, a list or an object.
   */
  predicate PrintRaises(result: TestResult)
  {
    result.responseData.Some?
    && var answer := Get(result.responseData.value, "answer", JString(""));
       var links := Get(result.responseData.value, "links", JArray([]));
       || !(answer.JString? || answer.JArray?)
       || links.JNull? || links.JBool? || links.JNumber?
  }

  /**
   * The position of the first result in `rs` whose printing raises, or
   * `|rs|` when none does.
   */
  function FirstPrintRaise(rs: seq<TestResult>): (k: nat)
    ensures k <= |rs|
    ensures forall i {:trigger PrintRaises(rs[i])} :: 0 <= i < k ==> !PrintRaises(rs[i])
    ensures k < |rs| ==> PrintRaises(rs[k])
    decreases |rs|
  {
    if rs == [] || PrintRaises(rs[0]) then 0
    else
      var k := 1 + FirstPrintRaise(rs[1..]);
      assert forall i :: 1 <= i < k ==> rs[i] == rs[1..][i - 1];
      k
  }

  /**
   * What `run_evaluation` appends: every result when none raises on
   * printing, else the results up to and including the first that raises.
   */
  function Appended(rs: seq<TestResult>): (p: seq<TestResult>)
    ensures p <= rs
    ensures FirstPrintRaise(rs) == |rs| ==> p == rs
    ensures FirstPrintRaise(rs) < |rs| ==> |p| == FirstPrintRaise(rs) + 1 && PrintRaises(p[|p| - 1])
  {
    var k := FirstPrintRaise(rs);
    if k < |rs| then rs[..k + 1] else rs
  }

  /** Extending a prefix by one element. */
  lemma PrefixSnoc(rs: seq<TestResult>, i: nat)
    requires i < |rs|
    ensures rs[..i + 1] == rs[..i] + [rs[i]]
  {
  }

  /** A result before the first raising one raises exactly when it is that one. */
  lemma PrintStep(rs: seq<TestResult>, i: nat)
    requires i < |rs| && i <= FirstPrintRaise(rs)
    ensures PrintRaises(rs[i]) ==> Appended(rs) == rs[..i + 1]
    ensures !PrintRaises(rs[i]) ==> i + 1 <= FirstPrintRaise(rs)
  {
    var k := FirstPrintRaise(rs);
    if PrintRaises(rs[i]) {
      assert i == k;
    } else {
      assert i != k;
    }
  }

  // ---------------------------------------------------------------------
  // The evaluator object

  const ApiUrl := "http://localhost:8000/api/"

  class TDSEvaluator {
    const tests: seq<TestCase>
    const baseUrl: string
    var results: seq<TestResult>

    /** The evaluator for the tests of an already loaded config. */
    constructor(tests: seq<TestCase>)
      ensures this.tests == tests
      ensures baseUrl == ApiUrl
      ensures results == []
    {
      this.tests := tests;
      baseUrl := ApiUrl;
      results := [];
    }

    /**
     * `run_evaluation`: with `healthy` the outcome of the health check and
     * `outcomes[i]` that of the request for `tests[i]`.  A failed health
     * check leaves the results alone and reports failure.  Each result is
     * appended and then printed; printing raises (`None`) on a response whose
     * `answer` or `links` has the wrong JSON type, and no later test runs.
     * After the tests the summary divides by the number of results, so a
     * healthy run that leaves no results raises as well.
     */
    method RunEvaluation(healthy: bool, outcomes: seq<Outcome>) returns (ok: Option<bool>)
      requires |outcomes| == |tests|
      modifies this
      ensures !healthy ==> ok == Some(false) && results == old(results)
      ensures healthy ==> results == old(results) + Appended(Evaluated(tests, outcomes))
      ensures healthy ==>
        ok == if FirstPrintRaise(Evaluated(tests, outcomes)) < |tests| || |old(results)| + |tests| == 0
              then None else Some(true)
    {
      if !healthy {
        return Some(false);
      }
      var raised := RunTests(outcomes);
      if raised || |results| == 0 {
        return None;
      }
      return Some(true);
    }

    /** The loop of `run_evaluation`: run, append and print each test, stopping when printing raises. */
    method RunTests(outcomes: seq<Outcome>) returns (raised: bool)
      requires |outcomes| == |tests|
      modifies this
      ensures results == old(results) + Appended(Evaluated(tests, outcomes))
      ensures raised == (FirstPrintRaise(Evaluated(tests, outcomes)) < |tests|)
    {
      ghost var all := Evaluated(tests, outcomes);
      ghost var first := FirstPrintRaise(all);
      var i := 0;
      while i < |tests|
        invariant 0 <= i <= first
        invariant results == old(results) + all[..i]
      {
        var result := RunSingleTest(tests[i], outcomes[i]);
        PrefixSnoc(all, i);
        PrintStep(all, i);
        results := results + [result];
        if PrintRaises(result) {
          return true;
        }
        i := i + 1;
      }
      assert all[..i] == all;
      return false;
    }

    /** `_run_single_test`: the assertions run only on a 200 response with a JSON body. */
    method RunSingleTest(test: TestCase, outcome: Outcome) returns (result: TestResult)
      ensures result == SingleTestResult(test, outcome)
    {
      var checks: Option<map<string, bool>> := None;
      if ReachesAssertions(outcome) {
        checks := RunAssertions(test.assertions, outcome.body.value, outcome.linksJson, outcome.seconds);
      }
      result := ResultWith(test, outcome, checks);
    }

    /** `_run_assertions`: fills the result map assertion by assertion; `None` when one raises. */
    method RunAssertions(assertions: seq<map<string, Json>>, data: map<string, Json>, linksJson: string, seconds: real)
      returns (results: Option<map<string, bool>>)
      ensures results == AssertionResults(assertions, data, linksJson, seconds)
    {
      var acc: map<string, bool> := map[];
      var i := 0;
      while i < |assertions|
        invariant 0 <= i <= |assertions|
        invariant AssertionResults(assertions[..i], data, linksJson, seconds) == Some(acc)
      {
        assert assertions[..i + 1][..i] == assertions[..i];
        var next := ApplyAssertion(acc, assertions[i], data, linksJson, seconds);
        if next.None? {
          FailureSticks(assertions, i + 1, data, linksJson, seconds);
          assert assertions[..|assertions|] == assertions;
          return None;
        }
        acc := next.value;
        i := i + 1;
      }
      assert assertions[..i] == assertions;
      return Some(acc);
    }

    /** The counts of `_print_summary` over the results so far. */
    function GetSummary(): (s: Summary)
      reads this
      ensures s == SummaryOf(results)
    {
      SummaryOf(results)
    }
  }

  /** Once an assertion raises, the whole run raises. */
  lemma {:induction false} FailureSticks(assertions: seq<map<string, Json>>, i: nat, data: map<string, Json>, linksJson: string, seconds: real)
    requires i <= |assertions|
    requires AssertionResults(assertions[..i], data, linksJson, seconds).None?
    ensures AssertionResults(assertions, data, linksJson, seconds).None?
    decreases |assertions| - i
  {
    if i < |assertions| {
      assert assertions[..i + 1][..i] == assertions[..i];
      FailureSticks(assertions, i + 1, data, linksJson, seconds);
    } else {
      assert assertions[..i] == assertions;
    }
  }
}
