/** The code-writer worker: a calculator template when the request asks for
    a calculator, otherwise a generic skeleton that embeds the request. */
module CodeWriter {
  import opened Text
  import opened Options

  const WorkerName := "code_writer"

  /** The generated code: the fixed calculator program (its text is not
      part of this model) or generated source text. */
  datatype Code = CalculatorProgram | Source(text: string)

  datatype Output = Output(kind: string, code: Code, language: string, description: string)

  datatype Response = Response(status: string, worker: string, output: Output, logs: seq<string>)

  /** The request asks for a calculator, in Japanese or in English of any
      case. */
  predicate AsksForCalculator(text: string)
  {
    Contains(text, "電卓") || Contains(Lower(text), "calculator")
  }

  const GenericHead := "#!/usr/bin/env python3\n\"\"\"\n"
  const GenericMiddle := "\n\"\"\"\n\ndef main():\n    \"\"\"メイン関数\"\"\"\n    print(\"タスク: "
  const GenericTail := "\")\n    print(\"TODO: 実装が必要です\")\n\nif __name__ == \"__main__\":\n    main()\n"

  /** `_generate_generic_code`: a script that carries the request verbatim
      twice, as its docstring and inside its printed line. */
  function GenericCode(task: string): (code: string)
    ensures OccursAt(code, task, |GenericHead|)
    ensures OccursAt(code, task, |GenericHead| + |task| + |GenericMiddle|)
    ensures code[..|GenericHead|] == GenericHead
  {
    Embeds(GenericHead, task, GenericMiddle, GenericTail);
    GenericHead + task + GenericMiddle + task + GenericTail
  }

  /** The template pieces around two copies of the request keep the request
      at both places and the head in front. */
  lemma Embeds(head: string, task: string, middle: string, tail: string)
    ensures OccursAt(head + task + middle + task + tail, task, |head|)
    ensures OccursAt(head + task + middle + task + tail, task, |head| + |task| + |middle|)
    ensures (head + task + middle + task + tail)[..|head|] == head
  {
    var code := head + task + middle + task + tail;
    assert code == head + task + (middle + task + tail);
    OccursAfter(head, task, middle + task + tail);
    OccursAfter(head + task + middle, task, tail);
  }

  const Logs: seq<string> := ["タスクを解析しました", "コード構造を設計しました", "コードを生成しました", "シンタックスチェック完了"]

  /** `execute`: always a success in Python; the calculator template exactly
      when the request asks for a calculator, otherwise generic code that
      embeds the request; a missing request is the empty text. */
  function Execute(task: Option<string>): (r: Response)
    ensures r.status == "success" && r.worker == WorkerName && r.output.language == "python"
    ensures r.output.kind == "calculator" <==> AsksForCalculator(task.GetOr(""))
    ensures r.output.kind == "calculator" <==> r.output.code == CalculatorProgram
    ensures r.output.kind != "calculator" ==>
      r.output.kind == "generic" && r.output.code.Source? && Contains(r.output.code.text, task.GetOr(""))
    ensures r.output.description == task.GetOr("") + " のコードを生成しました"
    ensures |r.logs| == 4
  {
    var text := task.GetOr("");
    var output :=
      if AsksForCalculator(text) then Output("calculator", CalculatorProgram, "python", text + " のコードを生成しました")
      else
        var code := GenericCode(text);
        assert OccursAt(code, text, |GenericHead|);
        Output("generic", Source(code), "python", text + " のコードを生成しました");
    Response("success", WorkerName, output, Logs)
  }

  /** A missing request gets generic code. */
  lemma MissingTaskIsGeneric()
    ensures Execute(None).output.kind == "generic"
  {
    assert !Contains("", "電卓");
    assert !Contains(Lower(""), "calculator");
  }

  /** "Calculator" in any ASCII case is recognised. */
  lemma EnglishRequestCaseInsensitive()
    ensures Execute(Some("Build a CALCULATOR")).output.kind == "calculator"
  {
    var s := Lower("Build a CALCULATOR");
    assert s[8..18] == "calculator";
    assert OccursAt(s, "calculator", 8);
  }
}
