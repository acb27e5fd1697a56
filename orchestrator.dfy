/** The orchestrator: it registers the enabled workers, splits a task into
    subtasks by keyword, turns them into a numbered plan, runs a simulated
    execution and folds the results into one report. */
module Orchestration {
  import opened Text

  datatype WorkerConfig = WorkerConfig(enabled: bool, description: string, skills: seq<string>)

  /** The configuration file's content; `parallel_execution` is read by nobody. */
  datatype Config = Config(workers: map<string, WorkerConfig>, executionMode: string, parallelExecution: bool)

  /** The configuration used when the configuration file is missing. */
  const DefaultConfig: Config :=
    Config(map["code_writer" := WorkerConfig(true, "コード生成を担当", ["coding", "architecture"])], "auto", false)

  /** The entries of `configured` whose worker is enabled. */
  function EnabledWorkers(configured: map<string, WorkerConfig>): (r: map<string, WorkerConfig>)
    ensures forall w :: w in r <==> w in configured && configured[w].enabled
    ensures forall w :: w in r ==> r[w] == configured[w]
  {
    map w | w in configured && configured[w].enabled :: configured[w]
  }

  /** The enabled entries among the keys visited so far. */
  function EnabledAmong(configured: map<string, WorkerConfig>, visited: set<string>): map<string, WorkerConfig>
  {
    map w | w in visited && w in configured && configured[w].enabled :: configured[w]
  }

  /** Visiting one more key adds it exactly when its worker is enabled. */
  lemma VisitOne(configured: map<string, WorkerConfig>, visited: set<string>, name: string)
    requires name in configured
    ensures EnabledAmong(configured, visited + {name}) ==
      if configured[name].enabled then EnabledAmong(configured, visited)[name := configured[name]]
      else EnabledAmong(configured, visited)
  {
  }

  // ---------------------------------------------------------------------------
  // Task analysis

  datatype TaskKind = CodeWriting | CodeReview | Testing | Default

  datatype Subtask = Subtask(kind: TaskKind, worker: string, description: string, task: string)

  const CodeKeywords: seq<string> := ["コード", "実装", "作成", "書く"]
  const ReviewKeywords: seq<string> := ["レビュー", "確認", "チェック"]
  const TestKeywords: seq<string> := ["テスト", "検証"]

  predicate AsksForCode(task: string)   { ContainsAny(Lower(task), CodeKeywords) }
  predicate AsksForReview(task: string) { ContainsAny(Lower(task), ReviewKeywords) }
  predicate AsksForTest(task: string)   { ContainsAny(Lower(task), TestKeywords) }

  function CodeSubtask(task: string): Subtask    { Subtask(CodeWriting, "code_writer", "コードを生成する", task) }
  function ReviewSubtask(task: string): Subtask  { Subtask(CodeReview, "code_reviewer", "コードをレビューする", task) }
  function TestSubtask(task: string): Subtask    { Subtask(Testing, "tester", "テストを実行する", task) }
  function DefaultSubtask(task: string): Subtask { Subtask(Default, "code_writer", "タスクを実行する", task) }

  /** Position of a kind in the fixed order in which subtasks are emitted. */
  function Rank(kind: TaskKind): nat
  {
    match kind
    case CodeWriting => 0
    case CodeReview => 1
    case Testing => 2
    case Default => 3
  }

  /** The subtasks for the given answers of the three keyword groups: the
      matched groups in their fixed order, or the default alone. */
  function SelectSubtasks(task: string, code: bool, review: bool, test: bool): (subtasks: seq<Subtask>)
    ensures 1 <= |subtasks| <= 3
    ensures forall k :: 0 <= k < |subtasks| ==>
      subtasks[k] in {CodeSubtask(task), ReviewSubtask(task), TestSubtask(task), DefaultSubtask(task)}
    ensures forall k, l :: 0 <= k < l < |subtasks| ==> Rank(subtasks[k].kind) < Rank(subtasks[l].kind)
    ensures CodeSubtask(task) in subtasks <==> code
    ensures ReviewSubtask(task) in subtasks <==> review
    ensures TestSubtask(task) in subtasks <==> test
    ensures subtasks == [DefaultSubtask(task)] <==> !code && !review && !test
    ensures (exists k :: 0 <= k < |subtasks| && subtasks[k].kind == Default) ==> |subtasks| == 1
  {
    var c, r, t := CodeSubtask(task), ReviewSubtask(task), TestSubtask(task);
    if code then
      if review then (if test then [c, r, t] else [c, r])
      else (if test then [c, t] else [c])
    else if review then (if test then [r, t] else [r])
    else if test then [t]
    else [DefaultSubtask(task)]
  }

  /** `analyze_task`: each keyword group is tested on its own, so one text
      yields up to three subtasks; the default subtask appears exactly when
      no group matches. */
  function AnalyzeTask(task: string): (subtasks: seq<Subtask>)
    ensures 1 <= |subtasks| <= 3
    ensures forall k :: 0 <= k < |subtasks| ==>
      subtasks[k] in {CodeSubtask(task), ReviewSubtask(task), TestSubtask(task), DefaultSubtask(task)}
    ensures forall k, l :: 0 <= k < l < |subtasks| ==> Rank(subtasks[k].kind) < Rank(subtasks[l].kind)
    ensures CodeSubtask(task) in subtasks <==> AsksForCode(task)
    ensures ReviewSubtask(task) in subtasks <==> AsksForReview(task)
    ensures TestSubtask(task) in subtasks <==> AsksForTest(task)
    ensures subtasks == [DefaultSubtask(task)] <==> !AsksForCode(task) && !AsksForReview(task) && !AsksForTest(task)
    ensures (exists k :: 0 <= k < |subtasks| && subtasks[k].kind == Default) ==> |subtasks| == 1
  {
    SelectSubtasks(task, AsksForCode(task), AsksForReview(task), AsksForTest(task))
  }

  // ---------------------------------------------------------------------------
  // Execution plan

  datatype PlanStep = PlanStep(step: nat, worker: string, task: Subtask, status: string)

  /** The plan `create_execution_plan` builds from the subtasks whose worker
      is in `registered`. */
  function PlanOf(subtasks: seq<Subtask>, registered: set<string>): (plan: seq<PlanStep>)
    ensures |plan| <= |subtasks|
    decreases |subtasks|
  {
    if subtasks == [] then []
    else
      var n := |subtasks| - 1;
      var last := subtasks[n];
      PlanOf(subtasks[..n], registered)
      + if last.worker in registered then [PlanStep(n + 1, last.worker, last, "pending")] else []
  }

  /** Every plan step is a registered subtask, numbered by its index + 1,
      with status "pending". */
  lemma {:induction false} PlanStepsAreRegisteredSubtasks(subtasks: seq<Subtask>, registered: set<string>)
    ensures forall k :: 0 <= k < |PlanOf(subtasks, registered)| ==>
      var step := PlanOf(subtasks, registered)[k];
      && 1 <= step.step <= |subtasks| && step.task == subtasks[step.step - 1]
      && step.worker == step.task.worker && step.worker in registered && step.status == "pending"
  {
    if subtasks != [] {
      var n := |subtasks| - 1;
      var prefix := subtasks[..n];
      PlanStepsAreRegisteredSubtasks(prefix, registered);
      var earlier := PlanOf(prefix, registered);
      var plan := PlanOf(subtasks, registered);
      forall k | 0 <= k < |earlier|
        ensures plan[k] == earlier[k] && earlier[k].task == subtasks[earlier[k].step - 1]
      {
        assert prefix[earlier[k].step - 1] == subtasks[earlier[k].step - 1];
      }
    }
  }

  /** The step numbers of a plan strictly increase. */
  lemma {:induction false} PlanStepsIncrease(subtasks: seq<Subtask>, registered: set<string>)
    ensures forall k, l :: 0 <= k < l < |PlanOf(subtasks, registered)| ==>
      PlanOf(subtasks, registered)[k].step < PlanOf(subtasks, registered)[l].step
  {
    if subtasks != [] {
      var n := |subtasks| - 1;
      var prefix := subtasks[..n];
      PlanStepsIncrease(prefix, registered);
      PlanStepsAreRegisteredSubtasks(prefix, registered);
      var earlier := PlanOf(prefix, registered);
      var plan := PlanOf(subtasks, registered);
      assert forall k :: 0 <= k < |earlier| ==> plan[k] == earlier[k] && earlier[k].step <= n;
    }
  }

  /** Conversely, every subtask whose worker is registered has its step. */
  lemma {:induction false} PlanKeepsEveryRegisteredSubtask(subtasks: seq<Subtask>, registered: set<string>, j: nat)
    requires j < |subtasks| && subtasks[j].worker in registered
    ensures exists k :: 0 <= k < |PlanOf(subtasks, registered)| && PlanOf(subtasks, registered)[k].step == j + 1
  {
    var n := |subtasks| - 1;
    var earlier := PlanOf(subtasks[..n], registered);
    var plan := PlanOf(subtasks, registered);
    if j < n {
      PlanKeepsEveryRegisteredSubtask(subtasks[..n], registered, j);
      var k :| 0 <= k < |earlier| && earlier[k].step == j + 1;
      assert plan[k] == earlier[k];
    } else {
      assert plan[|earlier|].step == j + 1;
    }
  }

  /** When every worker is registered nothing is dropped and the steps are
      numbered 1, 2, 3, ... without gaps. */
  lemma {:induction false} PlanDenseWhenAllRegistered(subtasks: seq<Subtask>, registered: set<string>)
    requires forall j :: 0 <= j < |subtasks| ==> subtasks[j].worker in registered
    ensures |PlanOf(subtasks, registered)| == |subtasks|
    ensures forall k :: 0 <= k < |subtasks| ==> PlanOf(subtasks, registered)[k].step == k + 1
  {
    if subtasks != [] {
      var n := |subtasks| - 1;
      PlanDenseWhenAllRegistered(subtasks[..n], registered);
    }
  }

  // ---------------------------------------------------------------------------
  // Simulated execution

  datatype StepResult = StepResult(step: nat, worker: string, status: string, output: string, task: Subtask, message: string)

  const SimulationNote: string := "シミュレーション: 実際のワーカーはまだ実装されていません"

  function CompletionMessage(step: PlanStep): string
  {
    "[" + step.worker + "] タスク '" + step.task.description + "' を完了しました"
  }

  /** `execute_plan`: one result per step, in plan order, copying step number,
      worker and subtask; no worker is called and every status is "success". */
  function ExecuteAll(plan: seq<PlanStep>): (results: seq<StepResult>)
    ensures |results| == |plan|
    ensures forall k :: 0 <= k < |plan| ==>
      results[k].step == plan[k].step && results[k].worker == plan[k].worker
      && results[k].task == plan[k].task && results[k].status == "success"
      && results[k].output == CompletionMessage(plan[k])
  {
    seq(|plan|, k requires 0 <= k < |plan| =>
      StepResult(plan[k].step, plan[k].worker, "success", CompletionMessage(plan[k]), plan[k].task, SimulationNote))
  }

  // ---------------------------------------------------------------------------
  // Integration and summary

  /** `sum(1 for r in results if r["status"] == "success")`. */
  function CountSuccess(results: seq<StepResult>): (n: nat)
    ensures n <= |results|
    ensures n == |results| <==> forall k :: 0 <= k < |results| ==> results[k].status == "success"
  {
    if results == [] then 0
    else
      var n := |results| - 1;
      assert forall k :: 0 <= k < n ==> results[..n][k] == results[k];
      CountSuccess(results[..n]) + if results[n].status == "success" then 1 else 0
  }

  /** A single result counts one exactly when it succeeded. */
  lemma CountSuccessOne(r: StepResult)
    ensures CountSuccess([r]) == if r.status == "success" then 1 else 0
  {
    assert [r][..0] == [];
  }

  /** The count over two runs of results is the sum of their counts, so
      together with `CountSuccessOne` it is the number of successes. */
  lemma {:induction false} CountSuccessConcat(a: seq<StepResult>, b: seq<StepResult>)
    ensures CountSuccess(a + b) == CountSuccess(a) + CountSuccess(b)
    decreases |b|
  {
    if b == [] {
      assert a + b == a;
    } else {
      var n, ab := |b| - 1, a + b;
      var last := if b[n].status == "success" then 1 else 0;
      assert ab[..|ab| - 1] == a + b[..n] && ab[|ab| - 1] == b[n];
      calc {
        CountSuccess(ab);
        CountSuccess(a + b[..n]) + last;
        { CountSuccessConcat(a, b[..n]); }
        CountSuccess(a) + CountSuccess(b[..n]) + last;
        CountSuccess(a) + CountSuccess(b);
      }
    }
  }

  const SummaryHeader: string := "\n=== 実行結果サマリー ==="

  /** One summary line: ✅ exactly for a successful step, then the step's output. */
  function SummaryLine(r: StepResult): (line: string)
    ensures |line| > 0
    ensures line[0] == '✅' <==> r.status == "success"
    ensures line[0] == '❌' <==> r.status != "success"
    ensures Contains(line, r.output)
  {
    var prefix := (if r.status == "success" then "✅" else "❌") + " ステップ " + Decimal(r.step) + ": ";
    ContainsInfix(prefix, r.output, "");
    assert prefix + r.output + "" == prefix + r.output;
    prefix + r.output
  }

  /** The header line followed by one line per result, in order. */
  function SummaryLines(results: seq<StepResult>): (lines: seq<string>)
    ensures |lines| == |results| + 1 && lines[0] == SummaryHeader
    ensures forall k :: 0 <= k < |results| ==> lines[k + 1] == SummaryLine(results[k])
  {
    [SummaryHeader] + seq(|results|, k requires 0 <= k < |results| => SummaryLine(results[k]))
  }

  /** One more result adds its line at the end. */
  lemma SummaryLinesExtend(results: seq<StepResult>, i: nat)
    requires i < |results|
    ensures SummaryLines(results[..i + 1]) == SummaryLines(results[..i]) + [SummaryLine(results[i])]
  {
    var longer, shorter := SummaryLines(results[..i + 1]), SummaryLines(results[..i]) + [SummaryLine(results[i])];
    forall k | 0 <= k < |longer| ensures longer[k] == shorter[k] {
      if 0 < k < i + 1 {
        assert results[..i + 1][k - 1] == results[..i][k - 1];
      }
    }
  }

  datatype Integrated = Integrated(status: string, totalSteps: nat, successfulSteps: nat, results: seq<StepResult>, summary: string)

  /** `integrate_results`: the counts agree with the results and the status is
      "success" exactly when every step succeeded (so also for no steps). */
  function Integrate(results: seq<StepResult>): (r: Integrated)
    ensures r.totalSteps == |results| && r.results == results
    ensures r.successfulSteps == CountSuccess(results) && r.successfulSteps <= r.totalSteps
    ensures r.status == "success" <==> forall k :: 0 <= k < |results| ==> results[k].status == "success"
    ensures r.status == "success" <==> r.successfulSteps == r.totalSteps
    ensures r.status != "success" ==> r.status == "partial_success"
    ensures r.summary == Join(SummaryLines(results), "\n")
  {
    var allSuccess := forall k | 0 <= k < |results| :: results[k].status == "success";
    Integrated(if allSuccess then "success" else "partial_success", |results|, CountSuccess(results),
               results, Join(SummaryLines(results), "\n"))
  }

  // ---------------------------------------------------------------------------
  // The orchestrator object

  class Orchestrator {
    const config: Config
    var workers: map<string, WorkerConfig>

    /** `__init__`: afterwards `workers` holds exactly the enabled workers. */
    constructor (config: Config)
      ensures this.config == config
      ensures workers == EnabledWorkers(config.workers)
    {
      this.config := config;
      workers := map[];
      new;
      RegisterWorkers();
    }

    /** `_register_workers`: adds every enabled configured worker. */
    method RegisterWorkers()
      modifies this`workers
      ensures workers == old(workers) + EnabledWorkers(config.workers)
    {
      var pending := config.workers.Keys;
      while pending != {}
        invariant pending <= config.workers.Keys
        invariant workers == old(workers) + EnabledAmong(config.workers, config.workers.Keys - pending)
        decreases pending
      {
        var name :| name in pending;
        assert config.workers.Keys - (pending - {name}) == (config.workers.Keys - pending) + {name};
        VisitOne(config.workers, config.workers.Keys - pending, name);
        if config.workers[name].enabled {
          workers := workers[name := config.workers[name]];
        }
        pending := pending - {name};
      }
      assert EnabledAmong(config.workers, config.workers.Keys - {}) == EnabledWorkers(config.workers);
    }

    /** `create_execution_plan` over the registered workers. */
    method CreateExecutionPlan(subtasks: seq<Subtask>) returns (plan: seq<PlanStep>)
      ensures plan == PlanOf(subtasks, workers.Keys)
    {
      plan := [];
      for i := 0 to |subtasks|
        invariant plan == PlanOf(subtasks[..i], workers.Keys)
      {
        assert subtasks[..i + 1][..i] == subtasks[..i];
        var workerName := subtasks[i].worker;
        if workerName in workers {
          plan := plan + [PlanStep(i + 1, workerName, subtasks[i], "pending")];
        }
      }
      assert subtasks[..|subtasks|] == subtasks;
    }

    /** `execute_plan`. */
    method ExecutePlan(plan: seq<PlanStep>) returns (results: seq<StepResult>)
      ensures results == ExecuteAll(plan)
    {
      results := [];
      for i := 0 to |plan|
        invariant results == ExecuteAll(plan[..i])
      {
        var step := plan[i];
        var result := StepResult(step.step, step.worker, "success", CompletionMessage(step), step.task, SimulationNote);
        results := results + [result];
      }
      assert plan[..|plan|] == plan;
    }

    /** `_generate_summary`. */
    method GenerateSummary(results: seq<StepResult>) returns (summary: string)
      ensures summary == Join(SummaryLines(results), "\n")
    {
      var lines := [SummaryHeader];
      for i := 0 to |results|
        invariant lines == SummaryLines(results[..i])
      {
        SummaryLinesExtend(results, i);
        lines := lines + [SummaryLine(results[i])];
      }
      assert results[..|results|] == results;
      summary := Join(lines, "\n");
    }

    /** `integrate_results`, with the summary built by the loop above. */
    method IntegrateResults(results: seq<StepResult>) returns (integrated: Integrated)
      ensures integrated == Integrate(results)
    {
      var allSuccess := forall k | 0 <= k < |results| :: results[k].status == "success";
      var summary := GenerateSummary(results);
      integrated := Integrated(if allSuccess then "success" else "partial_success", |results|,
                               CountSuccess(results), results, summary);
    }

    /** `process_task`: the four stages in sequence. */
    method ProcessTask(task: string) returns (report: Integrated)
      ensures report == Integrate(ExecuteAll(PlanOf(AnalyzeTask(task), workers.Keys)))
    {
      var subtasks := AnalyzeTask(task);
      var plan := CreateExecutionPlan(subtasks);
      var results := ExecutePlan(plan);
      report := IntegrateResults(results);
    }
  }

  // ---------------------------------------------------------------------------
  // Consequences

  /** Under the default configuration only `code_writer` is registered, so a
      pure review request is planned as nothing and still reports success. */
  lemma ReviewOnlyRequestUnderDefaultConfig(task: string)
    requires AsksForReview(task) && !AsksForCode(task) && !AsksForTest(task)
    ensures AnalyzeTask(task) == [ReviewSubtask(task)]
    ensures PlanOf(AnalyzeTask(task), EnabledWorkers(DefaultConfig.workers).Keys) == []
    ensures Integrate(ExecuteAll(PlanOf(AnalyzeTask(task), EnabledWorkers(DefaultConfig.workers).Keys)))
              == Integrated("success", 0, 0, [], SummaryHeader)
  {
    var registered := EnabledWorkers(DefaultConfig.workers).Keys;
    assert registered == {"code_writer"};
    var subtasks := AnalyzeTask(task);
    assert subtasks == [ReviewSubtask(task)];
    assert PlanOf(subtasks, registered) == PlanOf(subtasks[..0], registered);
  }

  const ReviewRequest := "レビューを実施してください"

  lemma ReviewRequestAsksForReview()
    ensures AsksForReview(ReviewRequest)
  {
    var text := Lower(ReviewRequest);
    assert text[0..4] == "レビュー";
    assert OccursAt(text, "レビュー", 0) && "レビュー" in ReviewKeywords;
  }

  lemma ReviewRequestAsksForNoCode()
    ensures !AsksForCode(ReviewRequest)
  {
    var text := Lower(ReviewRequest);
    forall c | c in "装作書" ensures c !in text {
    }
    MissingCharNotContained(text, "コード", 0);
    MissingCharNotContained(text, "実装", 1);
    MissingCharNotContained(text, "作成", 0);
    MissingCharNotContained(text, "書く", 0);
  }

  lemma ReviewRequestAsksForNoTest()
    ensures !AsksForTest(ReviewRequest)
  {
    var text := Lower(ReviewRequest);
    forall c | c in "テ検" ensures c !in text {
    }
    MissingCharNotContained(text, "テスト", 0);
    MissingCharNotContained(text, "検証", 0);
  }

  /** The review request "レビューを実施してください" with the default
      configuration: one review subtask, an empty plan, overall success. */
  lemma ReviewRequestExample()
    ensures AnalyzeTask(ReviewRequest) == [ReviewSubtask(ReviewRequest)]
    ensures PlanOf(AnalyzeTask(ReviewRequest), EnabledWorkers(DefaultConfig.workers).Keys) == []
    ensures Integrate(ExecuteAll(PlanOf(AnalyzeTask(ReviewRequest), EnabledWorkers(DefaultConfig.workers).Keys))).status
      == "success"
  {
    ReviewRequestAsksForReview();
    ReviewRequestAsksForNoCode();
    ReviewRequestAsksForNoTest();
    ReviewOnlyRequestUnderDefaultConfig(ReviewRequest);
  }

  const CodeReviewRequest := "コードをレビュー"

  lemma CodeReviewRequestKeywords()
    ensures AsksForCode(CodeReviewRequest) && AsksForReview(CodeReviewRequest)
  {
    var text := Lower(CodeReviewRequest);
    assert text[0..3] == "コード" && OccursAt(text, "コード", 0) && "コード" in CodeKeywords;
    assert text[4..8] == "レビュー" && OccursAt(text, "レビュー", 4) && "レビュー" in ReviewKeywords;
  }

  lemma CodeReviewRequestAsksForNoTest()
    ensures !AsksForTest(CodeReviewRequest)
  {
    var text := Lower(CodeReviewRequest);
    forall c | c in "テ検" ensures c !in text {
    }
    MissingCharNotContained(text, "テスト", 0);
    MissingCharNotContained(text, "検証", 0);
  }

  /** Step numbers follow the subtask index, not the plan position: in
      "コードをレビュー" with only `code_reviewer` registered, the review is
      the plan's only step and it is numbered 2. */
  lemma StepNumbersKeepGaps()
    ensures PlanOf(AnalyzeTask(CodeReviewRequest), {"code_reviewer"})
      == [PlanStep(2, "code_reviewer", ReviewSubtask(CodeReviewRequest), "pending")]
  {
    var task := CodeReviewRequest;
    CodeReviewRequestKeywords();
    CodeReviewRequestAsksForNoTest();
    var subtasks := AnalyzeTask(task);
    assert subtasks == [CodeSubtask(task), ReviewSubtask(task)];
    assert subtasks[..1] == [CodeSubtask(task)];
    assert PlanOf(subtasks[..1], {"code_reviewer"}) == PlanOf(subtasks[..1][..0], {"code_reviewer"});
  }
}
