/** The document-writer worker: task dispatch, the document templates, the
    structure suggestion and the formatting suggestion. */
module DocumentWriter {
  import opened Text
  import opened Options

  const WorkerName := "document_writer"

  datatype TemplateSection = TemplateSection(title: string, kind: string)

  datatype Template = Template(name: string, sections: seq<TemplateSection>)

  /** `_load_templates`. */
  const Templates: map<string, Template> := map[
    "proposal" := Template("提案書・企画書", [
      TemplateSection("表紙", "cover"), TemplateSection("目次", "toc"),
      TemplateSection("背景・課題", "content"), TemplateSection("提案内容", "content"),
      TemplateSection("実施計画", "content"), TemplateSection("期待効果", "content"),
      TemplateSection("費用見積", "table"), TemplateSection("付録", "appendix")]),
    "report" := Template("報告書・レポート", [
      TemplateSection("表紙", "cover"), TemplateSection("目次", "toc"),
      TemplateSection("概要", "content"), TemplateSection("調査結果", "content"),
      TemplateSection("分析", "content"), TemplateSection("結論・提言", "content"),
      TemplateSection("付録", "appendix")]),
    "minutes" := Template("議事録", [
      TemplateSection("会議情報", "header"), TemplateSection("出席者", "list"),
      TemplateSection("議題", "content"), TemplateSection("決定事項", "list"),
      TemplateSection("アクション項目", "table"), TemplateSection("次回予定", "footer")])
  ]

  /** The three templates and their section counts; proposals and reports
      open with a cover and a table of contents. */
  lemma TemplateShapes()
    ensures Templates.Keys == {"proposal", "report", "minutes"}
    ensures |Templates["proposal"].sections| == 8
    ensures |Templates["report"].sections| == 7
    ensures |Templates["minutes"].sections| == 6
    ensures forall t | t in {"proposal", "report"} ::
      Templates[t].sections[0].kind == "cover" && Templates[t].sections[1].kind == "toc"
  {
  }

  /** A task dictionary; every key may be missing. */
  datatype Task = Task(kind: Option<string>, docType: Option<string>, topic: Option<string>,
                       purpose: Option<string>, content: Option<string>)

  datatype Output =
    | Structure(docType: string, templateName: string, topic: string, purpose: string,
                sections: seq<TemplateSection>, recommendations: seq<string>)
    | Formatted(original: string, suggestions: seq<string>, formatted: string)

  /** A worker response. `DocumentFile` stands for the python-docx file
      writer, which is not part of this model. */
  datatype Response =
    | Success(worker: string, output: Output, logs: seq<string>)
    | Error(worker: string, error: string)
    | DocumentFile(worker: string)

  /** The template for a document type: its own, or the report template. */
  function ChooseTemplate(docType: string): (t: Template)
    ensures docType in Templates ==> t == Templates[docType]
    ensures docType !in Templates ==> t == Templates["report"]
    ensures 6 <= |t.sections| <= 8
  {
    if docType in Templates then Templates[docType] else Templates["report"]
  }

  /** `_get_recommendations`: four pieces of advice for each known type,
      none for any other. */
  function Recommendations(docType: string): (recs: seq<string>)
    ensures docType in Templates ==> |recs| == 4
    ensures docType !in Templates ==> recs == []
  {
    if docType == "proposal" then
      ["表紙には企業ロゴと日付を記載", "目次は自動生成機能を使用", "費用見積は表形式で明確に", "実施スケジュールはガントチャート形式で"]
    else if docType == "report" then
      ["概要（エグゼクティブサマリー）は1ページ以内", "データは図表で視覚化", "結論は箇条書きで明確に", "出典を必ず記載"]
    else if docType == "minutes" then
      ["会議開始・終了時刻を記録", "決定事項と保留事項を明確に区別", "アクション項目には担当者と期限を記載", "会議後24時間以内に配布"]
    else []
  }

  /** `_suggest_structure`: the chosen template's sections under the
      requested type, which is echoed even when unknown; the log reports the
      template's name and section count. */
  function SuggestStructure(task: Task): (r: Response)
    ensures r.Success? && r.worker == WorkerName && r.output.Structure?
    ensures var docType := task.docType.GetOr("report");
      && r.output.docType == docType
      && r.output.sections == ChooseTemplate(docType).sections
      && r.output.templateName == ChooseTemplate(docType).name
      && r.output.topic == task.topic.GetOr("") && r.output.purpose == task.purpose.GetOr("")
      && (docType in Templates <==> |r.output.recommendations| == 4)
      && |r.logs| == 3 && r.logs[1] == "セクション数: " + Decimal(|r.output.sections|)
  {
    var docType := task.docType.GetOr("report");
    var template := ChooseTemplate(docType);
    Success(WorkerName,
      Structure(docType, template.name, task.topic.GetOr(""), task.purpose.GetOr(""),
                template.sections, Recommendations(docType)),
      ["文書タイプ: " + template.name, "セクション数: " + Decimal(|template.sections|), "構成を提案しました"])
  }

  /** An unknown document type is answered with the report's seven sections
      and no advice. */
  lemma UnknownDocTypeFallsBackToReport(docType: string)
    requires docType !in Templates
    ensures var r := SuggestStructure(Task(None, Some(docType), None, None, None));
      r.output.docType == docType && |r.output.sections| == 7 && r.output.recommendations == []
  {
  }

  const FormattingAdvice: seq<string> :=
    ["見出しレベルを適切に設定", "段落間に適切な余白を挿入", "重要なポイントは太字で強調", "数値データは表形式で整理"]

  /** `_format_content`: always succeeds, and the "formatted" text is the
      input content unchanged. */
  function FormatContent(task: Task): (r: Response)
    ensures r.Success? && r.worker == WorkerName && r.output.Formatted?
    ensures r.output.original == r.output.formatted == task.content.GetOr("")
    ensures |r.output.suggestions| == 4
  {
    var content := task.content.GetOr("");
    Success(WorkerName, Formatted(content, FormattingAdvice, content), ["コンテンツのフォーマット提案を生成"])
  }

  /** `execute`: a missing type means "create_document"; the three known
      types go to their handlers and any other type is an error naming it. */
  function Execute(task: Task): (r: Response)
    ensures var kind := task.kind.GetOr("create_document");
      && (kind == "create_document" <==> r == DocumentFile(WorkerName))
      && (kind == "suggest_structure" ==> r == SuggestStructure(task))
      && (kind == "format_content" ==> r == FormatContent(task))
      && (r.Error? <==> kind !in {"create_document", "suggest_structure", "format_content"})
      && (r.Error? ==> r == Error(WorkerName, "不明なタスクタイプ: " + kind))
  {
    var kind := task.kind.GetOr("create_document");
    if kind == "create_document" then DocumentFile(WorkerName)
    else if kind == "suggest_structure" then SuggestStructure(task)
    else if kind == "format_content" then FormatContent(task)
    else Error(WorkerName, "不明なタスクタイプ: " + kind)
  }
}
