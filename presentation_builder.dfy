/** The presentation-builder worker: task dispatch, the slide-outline
    suggestion and the single-slide generator over a layout table. */
module PresentationBuilder {
  import opened Text
  import opened Options

  const WorkerName := "presentation_builder"

  /** A layout: its display name, its purpose and the elements it holds. */
  datatype Layout = Layout(name: string, description: string, elements: seq<string>)

  /** The layout table used when no layouts file is found. */
  const DefaultLayouts: map<string, Layout> := map[
    "title" := Layout("タイトルスライド", "プレゼンの表紙", ["title", "subtitle", "author", "date"]),
    "section" := Layout("セクション区切り", "大きな区切りを示すスライド", ["section_title", "section_number"]),
    "content" := Layout("コンテンツスライド", "通常のコンテンツ", ["title", "body"]),
    "two_column" := Layout("2カラム", "左右に内容を配置", ["title", "left_content", "right_content"]),
    "bullet_points" := Layout("箇条書き", "ポイントを列挙", ["title", "bullets"]),
    "image_caption" := Layout("画像+説明", "ビジュアル重視", ["title", "image", "caption"]),
    "conclusion" := Layout("まとめ", "結論・まとめスライド", ["title", "key_points", "next_steps"])
  ]

  /** A task dictionary; every key may be missing. */
  datatype Task = Task(kind: Option<string>, topic: Option<string>, audience: Option<string>,
                       duration: Option<int>, slideType: Option<string>)

  /** One entry of a suggested outline (its description and speaker notes
      are fixed prose and not kept). */
  datatype SlideOutline = SlideOutline(number: nat, layout: string, title: string)

  const StructureAdvice: seq<string> := [
    "1スライド1メッセージを心がける",
    "ビジュアル（図・グラフ）を積極的に使用",
    "文字数は最小限に（1スライド40文字以内が理想）",
    "聴衆に合わせた専門用語の使用レベルを調整"
  ]

  datatype Output =
    | Structure(topic: string, audience: string, duration: int, estimatedSlides: nat,
                structure: seq<SlideOutline>, recommendations: seq<string>)
    | SlideContent(layout: string, title: string, elements: seq<string>, recommendations: seq<string>)

  /** A worker response. `PresentationFile` stands for the python-pptx file
      writer, which is not part of this model. */
  datatype Response =
    | Success(worker: string, output: Output, logs: seq<string>)
    | Error(worker: string, error: string)
    | PresentationFile(worker: string, topic: string)

  /** The three opening slides: cover, agenda, background. */
  function Opening(topic: string): seq<SlideOutline>
  {
    [SlideOutline(1, "title", topic), SlideOutline(2, "content", "アジェンダ"), SlideOutline(3, "section", "背景・課題")]
  }

  /** The number of "ポイント" slides, `int(duration * 0.6)`, taken as exact
      arithmetic truncated toward zero. */
  function PointCount(duration: int): (n: nat)
    ensures duration <= 0 ==> n == 0
    ensures duration > 0 ==> 5 * n <= 3 * duration < 5 * n + 5
  {
    if duration <= 0 then 0 else 3 * duration / 5
  }

  /** The `i`-th (0-based) main slide. */
  function PointSlide(i: nat): SlideOutline
  {
    SlideOutline(4 + i, "content", "ポイント " + Decimal(i + 1))
  }

  function PointSlides(count: nat): seq<SlideOutline>
  {
    seq(count, i requires 0 <= i < count => PointSlide(i))
  }

  /** The closing pair as the source builds it: both entries are numbered
      `len(structure) + 1`, evaluated before `extend`. */
  function ClosingAsWritten(n: nat): seq<SlideOutline>
  {
    [SlideOutline(n + 1, "conclusion", "まとめ"), SlideOutline(n + 1, "content", "次のアクション")]
  }

  /** The closing pair numbered as every other slide is, one after another. */
  function Closing(n: nat): seq<SlideOutline>
  {
    [SlideOutline(n + 1, "conclusion", "まとめ"), SlideOutline(n + 2, "content", "次のアクション")]
  }

  /** The outline exactly as the source produces it: the opening, the point
      slides and the closing pair, numbered 1, 2, ... up to the conclusion,
      whose number the last slide repeats. */
  function StructureAsWritten(topic: string, duration: int): (s: seq<SlideOutline>)
    ensures |s| == 5 + PointCount(duration)
    ensures s[..3] == Opening(topic)
    ensures forall k :: 0 <= k < PointCount(duration) ==> s[3 + k] == PointSlide(k)
    ensures forall i :: 0 <= i < |s| - 1 ==> s[i].number == i + 1
    ensures s[|s| - 2].layout == "conclusion" && s[|s| - 1].layout == "content"
    ensures s[|s| - 1].number == |s| - 1
  {
    var n := PointCount(duration);
    var body := Opening(topic) + PointSlides(n);
    var s := body + ClosingAsWritten(3 + n);
    assert s[..3] == Opening(topic);
    forall i | 0 <= i < |s| - 1 ensures s[i].number == i + 1 {
      if 3 <= i < 3 + n {
        assert s[i] == PointSlides(n)[i - 3];
      }
    }
    s
  }

  predicate DenselyNumbered(structure: seq<SlideOutline>)
  {
    forall i :: 0 <= i < |structure| ==> structure[i].number == i + 1
  }

  /** The corrected outline: opening, main slides and closing, numbered one
      after another, and equal to the outline as written but for its last
      slide's number. */
  lemma CorrectedOutline(topic: string, n: nat)
    ensures var s := Opening(topic) + PointSlides(n) + Closing(3 + n);
      && |s| == 5 + n
      && DenselyNumbered(s)
      && s[..3] == Opening(topic)
      && (forall k :: 0 <= k < n ==> s[3 + k] == PointSlide(k))
      && s[|s| - 2].layout == "conclusion" && s[|s| - 1].layout == "content"
      && s[..|s| - 1] == (Opening(topic) + PointSlides(n) + ClosingAsWritten(3 + n))[..|s| - 1]
  {
    var body := Opening(topic) + PointSlides(n);
    var s := body + Closing(3 + n);
    assert s[..|s| - 1] == body + [Closing(3 + n)[0]];
    assert (body + ClosingAsWritten(3 + n))[..|s| - 1] == body + [ClosingAsWritten(3 + n)[0]];
    forall i | 0 <= i < |s| ensures s[i].number == i + 1 {
      if 3 <= i < 3 + n {
        assert s[i] == PointSlides(n)[i - 3];
      }
    }
    assert forall k :: 0 <= k < n ==> s[3 + k] == PointSlides(n)[k];
  }

  /** As written, the last two slides share a number, so the outline is
      never densely numbered. */
  lemma AsWrittenRepeatsLastNumber(topic: string, duration: int)
    ensures var s := StructureAsWritten(topic, duration);
      |s| == 5 + PointCount(duration)
      && s[|s| - 1].number == s[|s| - 2].number == |s| - 1
      && !DenselyNumbered(s)
  {
    var s := StructureAsWritten(topic, duration);
    assert s[|s| - 1] == ClosingAsWritten(3 + PointCount(duration))[1];
    assert s[|s| - 2] == ClosingAsWritten(3 + PointCount(duration))[0];
  }

  /** The default duration of 15 minutes gives 14 slides whose last two are
      both numbered 13. */
  lemma DefaultDurationExample()
    ensures var s := StructureAsWritten("プレゼンテーション", 15);
      |s| == 14 && s[12].number == 13 && s[13].number == 13
  {
    AsWrittenRepeatsLastNumber("プレゼンテーション", 15);
  }

  /** What `_suggest_structure` answers, with the closing pair numbered
      densely: the outline is the opening, the point slides and the closing
      pair, numbered 1, 2, ... without gap or repeat, and agrees with the
      source's outline everywhere but the last slide's number. */
  function SuggestedStructure(task: Task): (r: Response)
    ensures r.Success? && r.worker == WorkerName && r.output.Structure?
    ensures var topic := task.topic.GetOr("プレゼンテーション");
      var duration := task.duration.GetOr(15);
      var s := r.output.structure;
      && r.output.topic == topic
      && r.output.audience == task.audience.GetOr("一般")
      && r.output.duration == duration
      && |s| == 5 + PointCount(duration)
      && DenselyNumbered(s)
      && s[..3] == Opening(topic)
      && (forall k :: 0 <= k < PointCount(duration) ==> s[3 + k] == PointSlide(k))
      && s[|s| - 2].layout == "conclusion" && s[|s| - 1].layout == "content"
      && s[..|s| - 1] == StructureAsWritten(topic, duration)[..|s| - 1]
      && r.output.estimatedSlides == |s|
      && r.output.recommendations == StructureAdvice
      && r.logs == ["トピック: " + topic, "想定時間: " + IntToString(duration) + "分",
                    "提案スライド数: " + Decimal(|s|) + "枚", "構成を生成しました"]
  {
    var topic := task.topic.GetOr("プレゼンテーション");
    var duration := task.duration.GetOr(15);
    var n := PointCount(duration);
    var structure := Opening(topic) + PointSlides(n) + Closing(3 + n);
    CorrectedOutline(topic, n);
    Success(WorkerName,
      Structure(topic, task.audience.GetOr("一般"), duration, |structure|, structure, StructureAdvice),
      ["トピック: " + topic, "想定時間: " + IntToString(duration) + "分",
       "提案スライド数: " + Decimal(|structure|) + "枚", "構成を生成しました"])
  }

  /** `_suggest_structure`: the loop appends the point slides one by one,
      then the closing pair, and answers the suggested structure. */
  method SuggestStructure(task: Task) returns (r: Response)
    ensures r == SuggestedStructure(task)
  {
    var topic := task.topic.GetOr("プレゼンテーション");
    var audience := task.audience.GetOr("一般");
    var duration := task.duration.GetOr(15);
    var structure := Opening(topic);
    var mainSlides := PointCount(duration);
    for i := 0 to mainSlides
      invariant structure == Opening(topic) + PointSlides(i)
    {
      assert Opening(topic) + PointSlides(i + 1) == Opening(topic) + PointSlides(i) + [PointSlide(i)];
      structure := structure + [SlideOutline(|structure| + 1, "content", "ポイント " + Decimal(i + 1))];
    }
    structure := structure + Closing(|structure|);
    r := Success(WorkerName,
      Structure(topic, audience, duration, |structure|, structure, StructureAdvice),
      ["トピック: " + topic, "想定時間: " + IntToString(duration) + "分",
       "提案スライド数: " + Decimal(|structure|) + "枚", "構成を生成しました"]);
  }

  /** `_generate_slide`: the requested layout, or the "content" layout for an
      unknown slide type, with the requested type echoed. The fallback is
      looked up eagerly, so a table without "content" raises `KeyError`,
      here `None`. */
  function GenerateSlide(layouts: map<string, Layout>, task: Task): (r: Option<Response>)
    ensures r.Some? <==> "content" in layouts
    ensures r.Some? ==> r.value.Success? && r.value.worker == WorkerName && r.value.output.SlideContent?
    ensures r.Some? ==>
      var slideType := task.slideType.GetOr("content");
      var layout := if slideType in layouts then layouts[slideType] else layouts["content"];
      && r.value.output.layout == slideType
      && r.value.output.title == task.topic.GetOr("")
      && r.value.output.elements == layout.elements
      && r.value.logs == ["スライドコンテンツを生成: " + slideType]
  {
    if "content" !in layouts then None
    else
      var slideType := task.slideType.GetOr("content");
      var layout := if slideType in layouts then layouts[slideType] else layouts["content"];
      Some(Success(WorkerName,
        SlideContent(slideType, task.topic.GetOr(""), layout.elements,
                     ["レイアウト: " + layout.name, "用途: " + layout.description]),
        ["スライドコンテンツを生成: " + slideType]))
  }

  /** With the default table, an unknown slide type gets the content
      layout's elements under its own name. */
  lemma UnknownSlideTypeUsesContentLayout(topic: string)
    ensures var r := GenerateSlide(DefaultLayouts, Task(None, Some(topic), None, None, Some("timeline")));
      r.Some? && r.value.output.layout == "timeline" && r.value.output.elements == ["title", "body"]
  {
    assert "timeline" !in DefaultLayouts;
  }

  /** `execute`: a missing type means "create_presentation"; the three known
      types go to their handlers and any other type is an error naming it. */
  method Execute(layouts: map<string, Layout>, task: Task) returns (r: Option<Response>)
    ensures var kind := task.kind.GetOr("create_presentation");
      && (kind == "create_presentation" ==> r == Some(PresentationFile(WorkerName, task.topic.GetOr("プレゼンテーション"))))
      && (kind == "generate_slide" ==> r == GenerateSlide(layouts, task))
      && (kind == "suggest_structure" ==> r == Some(SuggestedStructure(task)))
      && (kind !in {"create_presentation", "suggest_structure", "generate_slide"} ==>
            r == Some(Error(WorkerName, "不明なタスクタイプ: " + kind)))
  {
    var kind := task.kind.GetOr("create_presentation");
    if kind == "create_presentation" {
      r := Some(PresentationFile(WorkerName, task.topic.GetOr("プレゼンテーション")));
    } else if kind == "suggest_structure" {
      var response := SuggestStructure(task);
      r := Some(response);
    } else if kind == "generate_slide" {
      r := GenerateSlide(layouts, task);
    } else {
      r := Some(Error(WorkerName, "不明なタスクタイプ: " + kind));
    }
  }
}
