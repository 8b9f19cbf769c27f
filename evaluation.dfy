/** The answer-quality evaluator (src/modules/evaluation/evaluation.service.ts):
    asks a language model to score an answer on eight legal metrics, checks
    the scores, fills in the overall score and never fails. The model call
    and JSON.parse of its text are one oracle, the `Judge`; the prompt text
    is not modelled, only the one way building it can throw. */
module Evaluation {
  import opened JsValues
  import opened Documents

  /** The eight metrics `validateScores` requires, in its order. */
  const MetricNames: seq<string> := [
    "citationAccuracy", "precedentRelevance", "statutoryAccuracy", "legalCompleteness",
    "proceduralAccuracy", "jurisdictionalAccuracy", "sourceTransparency", "factualAccuracy"
  ]
  const OverallName := "overallScore"
  /** Characters of each source shown to the judge. */
  const SummaryLength := 500

  datatype LegalEvaluationMetrics = LegalEvaluationMetrics(
    citationAccuracy: Num,
    precedentRelevance: Num,
    statutoryAccuracy: Num,
    legalCompleteness: Num,
    proceduralAccuracy: Num,
    jurisdictionalAccuracy: Num,
    sourceTransparency: Num,
    factualAccuracy: Num,
    overallScore: Num)

  /** `evaluation[metric]` for a property name; undefined for other names. */
  function MetricNamed(e: LegalEvaluationMetrics, name: string): Option<Num> {
    if name == "citationAccuracy" then Some(e.citationAccuracy)
    else if name == "precedentRelevance" then Some(e.precedentRelevance)
    else if name == "statutoryAccuracy" then Some(e.statutoryAccuracy)
    else if name == "legalCompleteness" then Some(e.legalCompleteness)
    else if name == "proceduralAccuracy" then Some(e.proceduralAccuracy)
    else if name == "jurisdictionalAccuracy" then Some(e.jurisdictionalAccuracy)
    else if name == "sourceTransparency" then Some(e.sourceTransparency)
    else if name == "factualAccuracy" then Some(e.factualAccuracy)
    else if name == OverallName then Some(e.overallScore)
    else None
  }

  /** The eight metrics of an evaluation, in the order of `MetricNames`. */
  function Metrics(e: LegalEvaluationMetrics): (ms: seq<Num>)
    ensures |ms| == |MetricNames|
  {
    [e.citationAccuracy, e.precedentRelevance, e.statutoryAccuracy, e.legalCompleteness,
     e.proceduralAccuracy, e.jurisdictionalAccuracy, e.sourceTransparency, e.factualAccuracy]
  }

  /** Looking a metric up by its name gives the metric at that name's place. */
  lemma MetricByName(e: LegalEvaluationMetrics)
    ensures forall i :: 0 <= i < |MetricNames| ==> MetricNamed(e, MetricNames[i]) == Some(Metrics(e)[i])
  {
  }

  /** `getDefaultEvaluation`: every score 1. */
  function DefaultEvaluation(): (e: LegalEvaluationMetrics)
    ensures forall m :: m in Metrics(e) ==> m == Finite(1.0)
    ensures e.overallScore == Finite(1.0)
  {
    var one := Finite(1.0);
    LegalEvaluationMetrics(one, one, one, one, one, one, one, one, one)
  }

  /** What the judge is shown of one source. */
  datatype SourceSummary = SourceSummary(fileName: Option<Json>, content: string, score: Json)

  /** The `sources.map(...)` at the top of evaluateLegalQuery: the file name,
      the first 500 characters of the text and the score, 0 when absent or
      falsy. */
  function SourceSummaries(sources: seq<ProcessedDocument>): (r: seq<SourceSummary>)
    ensures |r| == |sources|
    ensures forall i :: 0 <= i < |sources| ==>
      var text := sources[i].pageContent;
      |r[i].content| == (if |text| < SummaryLength then |text| else SummaryLength) &&
      text[..|r[i].content|] == r[i].content &&
      (Truthy(Get(JObj(sources[i].metadata), "score")) ==> r[i].score == sources[i].metadata["score"]) &&
      (!Truthy(Get(JObj(sources[i].metadata), "score")) ==> r[i].score == JNum(Finite(0.0)))
  {
    seq(|sources|, i requires 0 <= i < |sources| =>
      var m := JObj(sources[i].metadata);
      var text := sources[i].pageContent;
      SourceSummary(Get(m, "fileName"),
                    text[..if |text| < SummaryLength then |text| else SummaryLength],
                    Or(Get(m, "score"), JNum(Finite(0.0)))))
  }

  /** Building the prompt (`createEvaluationPrompt`) prints each summary's
      score with `toFixed(3)`, which throws unless the score is a number. */
  predicate PromptBuildable(summaries: seq<SourceSummary>) {
    forall i :: 0 <= i < |summaries| ==> summaries[i].score.JNum?
  }

  /** The prompt can be built exactly when no source has a truthy score
      that is not a number (a falsy score is replaced by 0). */
  lemma PromptBuildableExactly(sources: seq<ProcessedDocument>)
    ensures PromptBuildable(SourceSummaries(sources)) <==>
      forall i :: 0 <= i < |sources| ==>
        var score := Get(JObj(sources[i].metadata), "score");
        !Truthy(score) || score.value.JNum?
  {
    var summaries := SourceSummaries(sources);
    if !PromptBuildable(summaries) {
      var i :| 0 <= i < |summaries| && !summaries[i].score.JNum?;
      assert Truthy(Get(JObj(sources[i].metadata), "score"));
    }
  }

  /** What comes back from asking the model: the call threw, its text is
      not JSON, or the parsed value. */
  datatype JudgeReply = CallFailed(error: string) | NotJson | Parsed(scores: Json)

  /** The model asked to judge (query, answer, source summaries). */
  type Judge = (string, string, seq<SourceSummary>) -> JudgeReply

  /** `n < k` on JavaScript numbers (false for NaN). */
  predicate LessThan(n: Num, k: real) {
    match n
    case Finite(r) => r < k
    case NaN => false
    case Infinity(negative) => negative
  }

  /** `n > k` on JavaScript numbers (false for NaN). */
  predicate GreaterThan(n: Num, k: real) {
    match n
    case Finite(r) => r > k
    case NaN => false
    case Infinity(negative) => !negative
  }

  /** The test of one metric in validateScores: a number, not NaN, not
      below 1, not above 10. */
  predicate ValidScore(v: Option<Json>) {
    v.Some? && v.value.JNum? && !v.value.n.NaN? && !LessThan(v.value.n, 1.0) && !GreaterThan(v.value.n, 10.0)
  }

  /** The metric test accepts exactly the finite numbers from 1 to 10. */
  lemma ValidScoreExactly(v: Option<Json>)
    ensures ValidScore(v) <==> exists r: real :: 1.0 <= r <= 10.0 && v == Some(JNum(Finite(r)))
  {
    if ValidScore(v) {
      var r := v.value.n.r;
      assert 1.0 <= r <= 10.0 && v == Some(JNum(Finite(r)));
    }
  }

  /** A value that passes the metric test is truthy, so `|| 1` keeps it. */
  lemma ValidScoreTruthy(v: Option<Json>)
    requires ValidScore(v)
    ensures Truthy(v) && NumOrOne(v) == v.value.n
  {
  }

  /** Every one of the eight metrics passes; `overallScore` is not checked. */
  predicate ScoresValid(scores: Json) {
    forall i :: 0 <= i < |MetricNames| ==> ValidScore(Get(scores, MetricNames[i]))
  }

  /** `validateScores`: the metrics in turn, stopping at the first that
      fails. On `null` the source throws at the first lookup; its caller's
      handler then returns the same default as for `false`. */
  method ValidateScores(scores: Json) returns (ok: bool)
    ensures ok <==> ScoresValid(scores)
    ensures ok ==> scores.JObj?
  {
    for i := 0 to |MetricNames|
      invariant forall j :: 0 <= j < i ==> ValidScore(Get(scores, MetricNames[j]))
    {
      if !ValidScore(Get(scores, MetricNames[i])) {
        return false;
      }
    }
    assert ValidScore(Get(scores, MetricNames[0]));
    return true;
  }

  /** The eight metric values of parsed scores, in order. */
  function MetricValues(scores: Json): (vs: seq<Option<Json>>)
    ensures |vs| == |MetricNames|
    ensures forall i :: 0 <= i < |MetricNames| ==> vs[i] == Get(scores, MetricNames[i])
  {
    seq(|MetricNames|, i requires 0 <= i < |MetricNames| => Get(scores, MetricNames[i]))
  }

  /** The numbers inside values that all passed the metric test. */
  function ScoreNumbers(vs: seq<Option<Json>>): (ns: seq<Num>)
    requires forall i :: 0 <= i < |vs| ==> ValidScore(vs[i])
    ensures |ns| == |vs|
    ensures forall i :: 0 <= i < |vs| ==> vs[i] == Some(JNum(ns[i]))
  {
    seq(|vs|, i requires 0 <= i < |vs| && ValidScore(vs[i]) => vs[i].value.n)
  }

  /** The eight validated metrics as numbers. */
  function ValidatedMetrics(scores: Json): (ns: seq<Num>)
    requires ScoresValid(scores)
    ensures |ns| == |MetricNames|
    ensures forall i :: 0 <= i < |MetricNames| ==> Get(scores, MetricNames[i]) == Some(JNum(ns[i]))
  {
    ScoreNumbers(MetricValues(scores))
  }

  function Sum(xs: seq<real>): real {
    if xs == [] then 0.0 else Sum(xs[..|xs| - 1]) + xs[|xs| - 1]
  }

  predicate AllFinite(xs: seq<Num>) {
    forall x :: x in xs ==> x.Finite?
  }

  function Reals(xs: seq<Num>): (r: seq<real>)
    requires AllFinite(xs)
    ensures |r| == |xs| && forall i :: 0 <= i < |xs| ==> r[i] == xs[i].r
  {
    seq(|xs|, i requires 0 <= i < |xs| => xs[i].r)
  }

  /** The reduce-and-divide: the arithmetic mean, 0 for no values. */
  function Mean(xs: seq<Num>): real
    requires AllFinite(xs)
  {
    if |xs| == 0 then 0.0 else Sum(Reals(xs)) / (|xs| as real)
  }

  lemma {:induction false} SumBounds(xs: seq<real>, lo: real, hi: real)
    requires forall x :: x in xs ==> lo <= x <= hi
    ensures (|xs| as real) * lo <= Sum(xs) <= (|xs| as real) * hi
  {
    if xs != [] {
      var init := xs[..|xs| - 1];
      assert forall x :: x in init ==> x in xs;
      SumBounds(init, lo, hi);
      assert xs[|xs| - 1] in xs;
    }
  }

  /** A quotient by a positive count of a total between `n * lo` and `n * hi`
      lies between `lo` and `hi`. */
  lemma QuotientBounds(total: real, n: real, lo: real, hi: real)
    requires n > 0.0 && n * lo <= total <= n * hi
    ensures lo <= total / n <= hi
  {
    assert (total / n) * n == total;
  }

  /** A mean of values between `lo` and `hi` lies between them. */
  lemma MeanBounds(xs: seq<Num>, lo: real, hi: real)
    requires AllFinite(xs) && |xs| > 0
    requires forall x :: x in xs ==> lo <= x.r <= hi
    ensures lo <= Mean(xs) <= hi
  {
    var rs := Reals(xs);
    forall x | x in rs ensures lo <= x <= hi {
      var i :| 0 <= i < |rs| && rs[i] == x;
      assert xs[i] in xs;
    }
    SumBounds(rs, lo, hi);
    QuotientBounds(Sum(rs), |xs| as real, lo, hi);
  }

  /** `typeof score === 'number' && !isNaN(score)` over a list of values. */
  function NumericValues(values: seq<Option<Json>>): (r: seq<Num>)
    ensures |r| <= |values|
    ensures forall n :: n in r ==> !n.NaN?
  {
    if values == [] then []
    else
      var v := values[0];
      (if v.Some? && v.value.JNum? && !v.value.n.NaN? then [v.value.n] else []) + NumericValues(values[1..])
  }

  /** After validation the numeric filter keeps every value, in order, and
      each is a finite number from 1 to 10. */
  lemma {:induction false} AllValidKept(vs: seq<Option<Json>>)
    requires forall i :: 0 <= i < |vs| ==> ValidScore(vs[i])
    ensures NumericValues(vs) == ScoreNumbers(vs)
    ensures AllFinite(NumericValues(vs))
    ensures forall x :: x in NumericValues(vs) ==> 1.0 <= x.r <= 10.0
  {
    if vs != [] {
      AllValidKept(vs[1..]);
      ValidScoreExactly(vs[0]);
      assert ScoreNumbers(vs) == [vs[0].value.n] + ScoreNumbers(vs[1..]);
    }
  }

  /** The mean of the eight validated metrics lies in [1, 10]. */
  lemma MeanOfValidated(scores: Json)
    requires ScoresValid(scores)
    ensures NumericValues(MetricValues(scores)) == ValidatedMetrics(scores)
    ensures AllFinite(ValidatedMetrics(scores))
    ensures 1.0 <= Mean(ValidatedMetrics(scores)) <= 10.0
  {
    AllValidKept(MetricValues(scores));
    MeanBounds(ValidatedMetrics(scores), 1.0, 10.0);
  }

  /** `overallScore` after `if (!scores.overallScore || scores.overallScore === 0)`:
      the mean of the numeric metrics when absent or falsy, else as given. */
  function OverallScore(scores: Json): (v: Option<Json>)
    requires ScoresValid(scores)
    ensures Truthy(Get(scores, OverallName)) ==> v == Get(scores, OverallName)
    ensures !Truthy(Get(scores, OverallName)) ==>
      v.Some? && v.value.JNum? && v.value.n.Finite? && 1.0 <= v.value.n.r <= 10.0
  {
    if !Truthy(Get(scores, OverallName)) then
      MeanOfValidated(scores);
      Some(JNum(Finite(Mean(NumericValues(MetricValues(scores))))))
    else Get(scores, OverallName)
  }

  /** `value || 1` for a value that is a number or falsy. */
  function NumOrOne(v: Option<Json>): Num
    requires Truthy(v) ==> v.value.JNum?
  {
    if Truthy(v) then v.value.n else Finite(1.0)
  }

  /** The result for parsed scores: the default unless the eight metrics
      validate and the overall score is a number (`toFixed` throws on
      anything else, and the handler returns the default); otherwise each
      field `|| 1`. */
  function EvaluationOf(scores: Json): (r: LegalEvaluationMetrics)
    ensures r != DefaultEvaluation() ==> ScoresValid(scores)
  {
    if !ScoresValid(scores) then DefaultEvaluation()
    else
      var overall := OverallScore(scores);
      if !overall.value.JNum? then DefaultEvaluation()
      else
        var vs := MetricValues(scores);
        LegalEvaluationMetrics(
          NumOrOne(vs[0]), NumOrOne(vs[1]), NumOrOne(vs[2]), NumOrOne(vs[3]),
          NumOrOne(vs[4]), NumOrOne(vs[5]), NumOrOne(vs[6]), NumOrOne(vs[7]),
          NumOrOne(overall))
  }

  /** What evaluateLegalQuery returns for an answer to a query. */
  function Evaluate(query: string, answer: string, sources: seq<ProcessedDocument>, judge: Judge): (r: LegalEvaluationMetrics)
    ensures var reply := judge(query, answer, SourceSummaries(sources));
      r != DefaultEvaluation() ==>
        PromptBuildable(SourceSummaries(sources)) && reply.Parsed? && ScoresValid(reply.scores)
  {
    var summaries := SourceSummaries(sources);
    if !PromptBuildable(summaries) then DefaultEvaluation()
    else
      match judge(query, answer, summaries)
      case CallFailed(_) => DefaultEvaluation()
      case NotJson => DefaultEvaluation()
      case Parsed(scores) => EvaluationOf(scores)
  }

  /** A source score the prompt cannot print, a failed model call, an
      unparsable reply, a failed validation and a non-numeric overall score
      all give the all-ones default. */
  lemma DefaultOnFailure(query: string, answer: string, sources: seq<ProcessedDocument>, judge: Judge)
    ensures var reply := judge(query, answer, SourceSummaries(sources));
      (!PromptBuildable(SourceSummaries(sources)) || reply.CallFailed? || reply.NotJson? ||
       (reply.Parsed? && !ScoresValid(reply.scores)) ||
       (reply.Parsed? && ScoresValid(reply.scores) && Truthy(Get(reply.scores, OverallName)) &&
        !Get(reply.scores, OverallName).value.JNum?))
      ==> Evaluate(query, answer, sources, judge) == DefaultEvaluation()
  {
  }

  /** Validated scores come back unchanged: the eight metrics are the parsed
      numbers, the overall score is the parsed one when it is a truthy number
      and otherwise the mean of the eight metrics, which lies in [1, 10]. */
  lemma ValidScoresPassThrough(scores: Json)
    requires ScoresValid(scores)
    requires !Truthy(Get(scores, OverallName)) || Get(scores, OverallName).value.JNum?
    ensures Metrics(EvaluationOf(scores)) == ValidatedMetrics(scores)
    ensures Truthy(Get(scores, OverallName)) ==>
      EvaluationOf(scores).overallScore == Get(scores, OverallName).value.n
    ensures !Truthy(Get(scores, OverallName)) ==>
      AllFinite(ValidatedMetrics(scores)) &&
      EvaluationOf(scores).overallScore == Finite(Mean(ValidatedMetrics(scores))) &&
      1.0 <= Mean(ValidatedMetrics(scores)) <= 10.0
  {
    MeanOfValidated(scores);
    var vs := MetricValues(scores);
    var ns := ValidatedMetrics(scores);
    forall i | 0 <= i < |MetricNames| ensures NumOrOne(vs[i]) == ns[i] {
      ValidScoreTruthy(vs[i]);
    }
    var e := EvaluationOf(scores);
    assert e == LegalEvaluationMetrics(
      NumOrOne(vs[0]), NumOrOne(vs[1]), NumOrOne(vs[2]), NumOrOne(vs[3]),
      NumOrOne(vs[4]), NumOrOne(vs[5]), NumOrOne(vs[6]), NumOrOne(vs[7]),
      NumOrOne(OverallScore(scores)));
    assert Metrics(e) == ns;
  }

  /** Whatever the judge replies, the eight metrics of the result are finite
      numbers from 1 to 10. */
  lemma MetricsInRange(query: string, answer: string, sources: seq<ProcessedDocument>, judge: Judge)
    ensures forall m :: m in Metrics(Evaluate(query, answer, sources, judge)) ==>
      m.Finite? && 1.0 <= m.r <= 10.0
  {
    var reply := judge(query, answer, SourceSummaries(sources));
    if reply.Parsed? && ScoresValid(reply.scores) {
      var scores := reply.scores;
      if !Truthy(Get(scores, OverallName)) || Get(scores, OverallName).value.JNum? {
        ValidScoresPassThrough(scores);
        MeanOfValidated(scores);
      }
    }
  }

  /** `evaluateLegalQuery`: summarises the sources, builds the prompt, asks the judge, and on
      any failure returns the default; validated scores get their overall
      score filled in place when missing. It never fails. */
  method EvaluateLegalQuery(query: string, answer: string, sources: seq<ProcessedDocument>, judge: Judge)
    returns (r: LegalEvaluationMetrics)
    ensures r == Evaluate(query, answer, sources, judge)
  {
    var sourceContent := SourceSummaries(sources);
    if !PromptBuildable(sourceContent) {
      return DefaultEvaluation();
    }
    var evaluation := judge(query, answer, sourceContent);
    if !evaluation.Parsed? {
      return DefaultEvaluation();
    }
    var scores := evaluation.scores;
    var validatedScores := ValidateScores(scores);
    if !validatedScores {
      return DefaultEvaluation();
    }
    ghost var parsed := scores;
    if !Truthy(Get(scores, OverallName)) {
      MeanOfValidated(scores);
      var metrics := NumericValues(MetricValues(scores));
      var mean := Mean(metrics);
      scores := JObj(scores.fields[OverallName := JNum(Finite(mean))]);
    }
    assert MetricValues(scores) == MetricValues(parsed);
    var overall := Get(scores, OverallName);
    if !overall.value.JNum? {
      return DefaultEvaluation();
    }
    var vs := MetricValues(scores);
    r := LegalEvaluationMetrics(
      NumOrOne(vs[0]), NumOrOne(vs[1]), NumOrOne(vs[2]), NumOrOne(vs[3]),
      NumOrOne(vs[4]), NumOrOne(vs[5]), NumOrOne(vs[6]), NumOrOne(vs[7]),
      NumOrOne(overall));
  }

  // ----- testEvaluationReliability -----

  datatype TestSource = TestSource(fileName: string, content: string, score: real)
  datatype TestCase = TestCase(query: string, answer: string, expectedHighScores: seq<string>, sources: seq<TestSource>)

  /** The two fixed test cases. */
  const TestCases: seq<TestCase> := [
    TestCase(
      "What is the overriding objective?",
      "The overriding objective is to enable the court to deal with cases justly and at proportionate cost. This is set out in CPR 1.1(1).",
      ["citationAccuracy", "factualAccuracy"],
      [TestSource("part01.txt", "CPR 1.1(1) - These Rules are a procedural code with the overriding objective...", 0.95)]),
    TestCase(
      "How do I file a claim?",
      "You can file a claim by completing form N1 and submitting it to the court. The process is outlined in Part 7 of the CPR.",
      ["proceduralAccuracy", "sourceTransparency"],
      [TestSource("part07.txt", "Part 7 - How to start proceedings - the claim form...", 0.92)])
  ]

  /** The documents a test case's sources become. */
  function TestDocuments(sources: seq<TestSource>): (r: seq<ProcessedDocument>)
    ensures |r| == |sources|
    ensures forall i :: 0 <= i < |sources| ==>
      r[i].pageContent == sources[i].content &&
      Get(JObj(r[i].metadata), "fileName") == Some(JStr(sources[i].fileName)) &&
      Get(JObj(r[i].metadata), "score") == Some(JNum(Finite(sources[i].score)))
    ensures PromptBuildable(SourceSummaries(r))
  {
    seq(|sources|, i requires 0 <= i < |sources| =>
      var s := sources[i];
      ProcessedDocument(s.content, map[
        "type" := JStr("text"),
        "source" := JStr("test"),
        "fileName" := JStr(s.fileName),
        "filePath" := JStr("./test/" + s.fileName),
        "fileSize" := Int(|s.content|),
        "score" := JNum(Finite(s.score))
      ]))
  }

  /** How many of the expected metrics scored 7 or more. */
  function HighScoreCount(e: LegalEvaluationMetrics, expected: seq<string>): (n: nat)
    ensures n <= |expected|
  {
    if expected == [] then 0
    else
      var m := MetricNamed(e, expected[0]);
      (if m.Some? && AtLeast(m.value, 7.0) then 1 else 0) + HighScoreCount(e, expected[1..])
  }

  /** One case's accuracy: the fraction of its expected metrics at 7 or more. */
  function CaseAccuracy(e: LegalEvaluationMetrics, expected: seq<string>): (a: real)
    requires |expected| > 0
    ensures 0.0 <= a <= 1.0
  {
    (HighScoreCount(e, expected) as real) / (|expected| as real)
  }

  /** One case's consistency: 1 when the overall score is 6 or more. */
  function CaseConsistency(e: LegalEvaluationMetrics): real {
    if AtLeast(e.overallScore, 6.0) then 1.0 else 0.0
  }

  function CaseEvaluation(c: TestCase, judge: Judge): LegalEvaluationMetrics {
    Evaluate(c.query, c.answer, TestDocuments(c.sources), judge)
  }

  /** Consistency summed over the first `n` cases. */
  function ConsistencyTotal(judge: Judge, n: nat): real
    requires n <= |TestCases|
  {
    if n == 0 then 0.0 else ConsistencyTotal(judge, n - 1) + CaseConsistency(CaseEvaluation(TestCases[n - 1], judge))
  }

  /** Accuracy summed over the first `n` cases. */
  function AccuracyTotal(judge: Judge, n: nat): real
    requires n <= |TestCases|
  {
    if n == 0 then 0.0
    else AccuracyTotal(judge, n - 1) + CaseAccuracy(CaseEvaluation(TestCases[n - 1], judge), TestCases[n - 1].expectedHighScores)
  }

  lemma {:induction false} TotalsBounded(judge: Judge, n: nat)
    requires n <= |TestCases|
    ensures 0.0 <= ConsistencyTotal(judge, n) <= n as real
    ensures 0.0 <= AccuracyTotal(judge, n) <= n as real
  {
    if n > 0 {
      TotalsBounded(judge, n - 1);
    }
  }

  datatype ReliabilityReport = ReliabilityReport(consistency: real, accuracy: real, testCases: nat)

  /** One pass of the loop in testEvaluationReliability: evaluates the case
      and scores it for accuracy and consistency. */
  method ScoreCase(testCase: TestCase, judge: Judge) returns (accuracy: real, consistency: real)
    requires |testCase.expectedHighScores| > 0
    ensures accuracy == CaseAccuracy(CaseEvaluation(testCase, judge), testCase.expectedHighScores)
    ensures consistency == CaseConsistency(CaseEvaluation(testCase, judge))
  {
    var evaluation := EvaluateLegalQuery(testCase.query, testCase.answer, TestDocuments(testCase.sources), judge);
    var highScoreCount := HighScoreCount(evaluation, testCase.expectedHighScores);
    accuracy := (highScoreCount as real) / (|testCase.expectedHighScores| as real);
    consistency := if AtLeast(evaluation.overallScore, 6.0) then 1.0 else 0.0;
  }

  /** `testEvaluationReliability`: evaluates each case, adds its accuracy
      and consistency, and divides both totals by the number of cases, so
      both lie in [0, 1]. Evaluation never fails, so no case is skipped. */
  method TestEvaluationReliability(judge: Judge) returns (r: ReliabilityReport)
    ensures r.testCases == |TestCases| == 2
    ensures r.consistency == ConsistencyTotal(judge, 2) / 2.0
    ensures r.accuracy == AccuracyTotal(judge, 2) / 2.0
    ensures 0.0 <= r.consistency <= 1.0 && 0.0 <= r.accuracy <= 1.0
  {
    var cases := TestCases;
    assert |cases| == 2 && |cases[0].expectedHighScores| > 0 && |cases[1].expectedHighScores| > 0;
    var consistencyScore := 0.0;
    var accuracyScore := 0.0;
    for i := 0 to |cases|
      invariant consistencyScore == ConsistencyTotal(judge, i)
      invariant accuracyScore == AccuracyTotal(judge, i)
    {
      var accuracy, consistency := ScoreCase(cases[i], judge);
      accuracyScore := accuracyScore + accuracy;
      consistencyScore := consistencyScore + consistency;
    }
    TotalsBounded(judge, 2);
    r := ReliabilityReport(consistencyScore / 2.0, accuracyScore / 2.0, |cases|);
  }
}
