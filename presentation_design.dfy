/** The presentation-design skill: a review of every slide, numbered from 1,
    scored by the number of findings. */
module PresentationDesign {
  import opened Options
  import opened Skills

  /** A slide dictionary: its `content`, `bullets` and `title` keys, each
      present or not. */
  datatype Slide = Slide(content: Option<string>, bullets: Option<seq<string>>, title: Option<string>)

  /** A finding names its slide, rule and severity, and the count that
      triggered it (characters of content or number of bullets). */
  datatype Finding = Finding(slide: nat, rule: string, severity: Severity, count: nat)

  /** The one suggestion: the title is longer than 20 characters. */
  datatype Suggestion = LongTitle(slide: nat)

  datatype GoodPractice = BulletCountFits(slide: nat) | ConciseTitle(slide: nat)

  datatype SlideReview = SlideReview(findings: seq<Finding>, suggestions: seq<Suggestion>, goodPractices: seq<GoodPractice>)

  function SlideOf(g: GoodPractice): nat
  {
    match g
    case BulletCountFits(n) => n
    case ConciseTitle(n) => n
  }

  /** `_review_slide`: content over 40 characters is a medium finding, more
      than 7 bullets a high one and 3 to 7 a good practice; a title over 20
      characters draws a suggestion and one of at most 15 is a good practice.
      Everything carries the slide's number. */
  function ReviewSlide(slide: Slide, number: nat): (r: SlideReview)
    ensures slide.content.Some? && |slide.content.value| > 40 ==>
      Finding(number, "CONTENT-003", Medium, |slide.content.value|) in r.findings
    ensures forall f :: f in r.findings && f.rule == "CONTENT-003" ==>
      slide.content.Some? && f == Finding(number, "CONTENT-003", Medium, |slide.content.value|) && f.count > 40
    ensures slide.bullets.Some? && |slide.bullets.value| > 7 ==>
      Finding(number, "CONTENT-002", High, |slide.bullets.value|) in r.findings
    ensures forall f :: f in r.findings && f.rule == "CONTENT-002" ==>
      slide.bullets.Some? && f == Finding(number, "CONTENT-002", High, |slide.bullets.value|) && f.count > 7
    ensures forall f :: f in r.findings ==> f.rule == "CONTENT-003" || f.rule == "CONTENT-002"
    ensures BulletCountFits(number) in r.goodPractices <==> slide.bullets.Some? && 3 <= |slide.bullets.value| <= 7
    ensures r.suggestions == if slide.title.Some? && |slide.title.value| > 20 then [LongTitle(number)] else []
    ensures ConciseTitle(number) in r.goodPractices <==> slide.title.Some? && |slide.title.value| <= 15
    ensures |r.findings| <= 2 && |r.goodPractices| <= 2
    ensures r.findings ==
      (if slide.content.Some? && |slide.content.value| > 40
       then [Finding(number, "CONTENT-003", Medium, |slide.content.value|)] else [])
      + (if slide.bullets.Some? && |slide.bullets.value| > 7
         then [Finding(number, "CONTENT-002", High, |slide.bullets.value|)] else [])
    ensures r.goodPractices ==
      (if slide.bullets.Some? && 3 <= |slide.bullets.value| <= 7 then [BulletCountFits(number)] else [])
      + (if slide.title.Some? && |slide.title.value| <= 15 then [ConciseTitle(number)] else [])
    ensures forall f :: f in r.findings ==> f.slide == number
    ensures forall g :: g in r.goodPractices ==> SlideOf(g) == number
  {
    var wordy :=
      if slide.content.Some? && |slide.content.value| > 40
      then [Finding(number, "CONTENT-003", Medium, |slide.content.value|)] else [];
    var crowded :=
      if slide.bullets.Some? && |slide.bullets.value| > 7
      then [Finding(number, "CONTENT-002", High, |slide.bullets.value|)] else [];
    var fits := if slide.bullets.Some? && 3 <= |slide.bullets.value| <= 7 then [BulletCountFits(number)] else [];
    var long := if slide.title.Some? && |slide.title.value| > 20 then [LongTitle(number)] else [];
    var concise := if slide.title.Some? && |slide.title.value| <= 15 then [ConciseTitle(number)] else [];
    SlideReview(wordy + crowded, long, fits + concise)
  }

  /** The review of slide `i` (0-based) under its 1-based number. */
  function ReviewAt(slides: seq<Slide>, i: nat): SlideReview
    requires i < |slides|
  {
    ReviewSlide(slides[i], i + 1)
  }

  function AllFindings(slides: seq<Slide>): seq<Finding>
  {
    if slides == [] then [] else AllFindings(slides[..|slides| - 1]) + ReviewAt(slides, |slides| - 1).findings
  }

  function AllSuggestions(slides: seq<Slide>): seq<Suggestion>
  {
    if slides == [] then [] else AllSuggestions(slides[..|slides| - 1]) + ReviewAt(slides, |slides| - 1).suggestions
  }

  function AllGoodPractices(slides: seq<Slide>): seq<GoodPractice>
  {
    if slides == [] then [] else AllGoodPractices(slides[..|slides| - 1]) + ReviewAt(slides, |slides| - 1).goodPractices
  }

  /** Every finding points at a slide of the deck, by its 1-based position,
      and is one that slide's own review reports. */
  lemma {:induction false} FindingsPointAtTheirSlide(slides: seq<Slide>, f: Finding)
    requires f in AllFindings(slides)
    ensures 1 <= f.slide <= |slides| && f in ReviewAt(slides, f.slide - 1).findings
  {
    assert slides != [];
    var init, last := slides[..|slides| - 1], ReviewAt(slides, |slides| - 1);
    assert AllFindings(slides) == AllFindings(init) + last.findings;
    if f in AllFindings(init) {
      FindingsPointAtTheirSlide(init, f);
      assert ReviewAt(init, f.slide - 1) == ReviewAt(slides, f.slide - 1);
    } else {
      assert f in last.findings;
      assert f.slide == |slides|;
    }
  }

  /** No slide draws more than two findings. */
  lemma {:induction false} AtMostTwoFindingsPerSlide(slides: seq<Slide>)
    ensures |AllFindings(slides)| <= 2 * |slides|
  {
    if slides != [] {
      AtMostTwoFindingsPerSlide(slides[..|slides| - 1]);
    }
  }

  /** Every slide's findings are among the deck's findings. */
  lemma {:induction false} EverySlideFindingReported(slides: seq<Slide>, i: nat)
    requires i < |slides|
    ensures forall f :: f in ReviewAt(slides, i).findings ==> f in AllFindings(slides)
  {
    var init := slides[..|slides| - 1];
    if i < |init| {
      EverySlideFindingReported(init, i);
      assert ReviewAt(init, i) == ReviewAt(slides, i);
    }
  }

  datatype Summary = Summary(totalSlides: nat, findings: nat, suggestions: nat, goodPractices: nat)

  datatype Report = Report(status: string, skill: string, summary: Summary, findings: seq<Finding>,
                           suggestions: seq<Suggestion>, goodPractices: seq<GoodPractice>, overallScore: int)

  /** `review`: every slide reviewed in order under its 1-based number, with
      counts and the score taken from what was gathered. */
  method Review(slides: seq<Slide>) returns (report: Report)
    ensures report.findings == AllFindings(slides)
    ensures report.suggestions == AllSuggestions(slides)
    ensures report.goodPractices == AllGoodPractices(slides)
    ensures report.summary == Summary(|slides|, |report.findings|, |report.suggestions|, |report.goodPractices|)
    ensures report.overallScore == Score(|slides|, |report.findings|)
    ensures report.status == "success" && report.skill == "presentation-design"
  {
    var findings: seq<Finding> := [];
    var suggestions: seq<Suggestion> := [];
    var goodPractices: seq<GoodPractice> := [];
    for i := 0 to |slides|
      invariant findings == AllFindings(slides[..i])
      invariant suggestions == AllSuggestions(slides[..i])
      invariant goodPractices == AllGoodPractices(slides[..i])
    {
      assert slides[..i + 1][..i] == slides[..i];
      assert ReviewAt(slides[..i + 1], i) == ReviewSlide(slides[i], i + 1);
      var review := ReviewSlide(slides[i], i + 1);
      findings := findings + review.findings;
      suggestions := suggestions + review.suggestions;
      goodPractices := goodPractices + review.goodPractices;
    }
    assert slides[..|slides|] == slides;
    report := Report("success", "presentation-design",
      Summary(|slides|, |findings|, |suggestions|, |goodPractices|),
      findings, suggestions, goodPractices, Score(|slides|, |findings|));
  }

  /** A deck with a crowded slide scores below 100. */
  lemma CrowdedSlideCostsScore(slides: seq<Slide>, i: nat)
    requires i < |slides| && slides[i].bullets.Some? && |slides[i].bullets.value| > 7
    ensures Score(|slides|, |AllFindings(slides)|) < 100
  {
    var f := Finding(i + 1, "CONTENT-002", High, |slides[i].bullets.value|);
    assert f in ReviewAt(slides, i).findings;
    EverySlideFindingReported(slides, i);
    assert f in AllFindings(slides);
  }

  /** `_load_principles`: four categories of three principles each. */
  const Principles: map<string, RuleGroup> := map[
    "content" := RuleGroup("コンテンツ設計", ["CONTENT-001", "CONTENT-002", "CONTENT-003"]),
    "layout" := RuleGroup("レイアウト設計", ["LAYOUT-001", "LAYOUT-002", "LAYOUT-003"]),
    "visual" := RuleGroup("ビジュアル設計", ["VISUAL-001", "VISUAL-002", "VISUAL-003"]),
    "storytelling" := RuleGroup("ストーリーテリング", ["STORY-001", "STORY-002", "STORY-003"])
  ]

  /** `get_guidelines`: every category for "all", one category by name, an
      empty dictionary for anything else; the rules findings cite are among
      the content guidelines. */
  function GetGuidelines(category: string): (g: Guidelines)
    ensures category == "all" ==> g.Groups? && g.groups.Keys == {"content", "layout", "visual", "storytelling"}
    ensures category in Principles ==> g.Group? && |g.group.ruleIds| == 3
    ensures category != "all" && category !in Principles ==> g == Groups(map[])
    ensures category == "content" ==> "CONTENT-002" in g.group.ruleIds && "CONTENT-003" in g.group.ruleIds
  {
    Lookup(Principles, category)
  }
}
