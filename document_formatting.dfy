/** The document-formatting skill: a structure check over the whole document
    and a check per section, scored by the number of findings. */
module DocumentFormatting {
  import opened Text
  import opened Options
  import opened Skills

  /** A section's `content`: a string, or any other value, of which only
      `str(content)` matters. */
  datatype Content = StrContent(text: string) | OtherContent(shown: string)

  function Shown(c: Content): string
  {
    match c
    case StrContent(t) => t
    case OtherContent(s) => s
  }

  /** A section dictionary: `type` (missing is ""), `content` (missing is ""),
      `level` (present or not), the number of rows of `table_data` (missing is
      0) and whether a `source` key is present. */
  datatype Section = Section(kind: string, content: Content, level: Option<int>, tableRows: nat, hasSource: bool)

  datatype Finding = Finding(rule: string, severity: Severity)

  datatype Suggestion = TableTooSmall | ContentTooLong

  datatype GoodPractice = HasTableOfContents

  datatype StructureCheck = StructureCheck(findings: seq<Finding>, suggestions: seq<Suggestion>,
                                           goodPractices: seq<GoodPractice>)

  datatype SectionCheck = SectionCheck(findings: seq<Finding>, suggestions: seq<Suggestion>)

  const MissingToc := Finding("STRUCT-002", Medium)
  const TooDeep := Finding("STRUCT-001", Low)
  const UnsourcedTable := Finding("TABLE-003", Medium)

  predicate HasToc(sections: seq<Section>)
  {
    exists k :: 0 <= k < |sections| && sections[k].kind == "toc"
  }

  /** The levels of the sections that have one, in order. */
  function HeadingLevels(sections: seq<Section>): (levels: seq<int>)
    ensures forall l :: l in levels <==> exists k :: 0 <= k < |sections| && sections[k].level == Some(l)
  {
    if sections == [] then []
    else
      var rest := HeadingLevels(sections[..|sections| - 1]);
      assert forall k :: 0 <= k < |sections| - 1 ==> sections[..|sections| - 1][k] == sections[k];
      match sections[|sections| - 1].level
      case Some(l) => rest + [l]
      case None => rest
  }

  /** `max(levels)`. */
  function MaxOf(levels: seq<int>): (m: int)
    requires levels != []
    ensures m in levels && forall l :: l in levels ==> l <= m
  {
    if |levels| == 1 then levels[0]
    else
      var rest := MaxOf(levels[1..]);
      assert forall l :: l in levels ==> l == levels[0] || l in levels[1..];
      if levels[0] >= rest then levels[0] else rest
  }

  /** `_check_structure`: a missing table of contents is a finding from five
      sections on, a present one is a good practice, and a heading level
      above 3 is a finding. */
  function CheckStructure(sections: seq<Section>): (r: StructureCheck)
    ensures MissingToc in r.findings <==> |sections| >= 5 && !HasToc(sections)
    ensures TooDeep in r.findings <==> exists k :: 0 <= k < |sections| && sections[k].level.Some? && sections[k].level.value > 3
    ensures forall f :: f in r.findings ==> f == MissingToc || f == TooDeep
    ensures |r.findings| <= 2
    ensures r.findings ==
      (if |sections| >= 5 && !HasToc(sections) then [MissingToc] else [])
      + (if exists k :: 0 <= k < |sections| && sections[k].level.Some? && sections[k].level.value > 3 then [TooDeep] else [])
    ensures r.suggestions == []
    ensures r.goodPractices == if HasToc(sections) then [HasTableOfContents] else []
  {
    var levels := HeadingLevels(sections);
    var tooDeep := levels != [] && MaxOf(levels) > 3;
    assert tooDeep <==> exists k :: 0 <= k < |sections| && sections[k].level.Some? && sections[k].level.value > 3 by {
      if exists k :: 0 <= k < |sections| && sections[k].level.Some? && sections[k].level.value > 3 {
        var k :| 0 <= k < |sections| && sections[k].level.Some? && sections[k].level.value > 3;
        assert sections[k].level.value in levels;
      }
    }
    var toc := if |sections| >= 5 && !HasToc(sections) then [MissingToc] else [];
    StructureCheck(
      toc + (if tooDeep then [TooDeep] else []),
      [],
      if HasToc(sections) then [HasTableOfContents] else [])
  }

  /** A table section with rows but neither a `source` key nor "出典" in its
      content. */
  predicate LacksSource(section: Section)
  {
    section.kind == "table" && section.tableRows > 0 && !section.hasSource && !Contains(Shown(section.content), "出典")
  }

  /** `_check_section`: an unsourced table is a finding, a one-row table and
      a string content over 500 characters are suggestions. The good practice
      the source computes for tables with data is never returned. */
  function CheckSection(section: Section): (r: SectionCheck)
    ensures r.findings == if LacksSource(section) then [UnsourcedTable] else []
    ensures TableTooSmall in r.suggestions <==> section.kind == "table" && section.tableRows == 1
    ensures ContentTooLong in r.suggestions <==> section.content.StrContent? && |section.content.text| > 500
    ensures |r.suggestions| <= 2
    ensures r.suggestions ==
      (if section.kind == "table" && section.tableRows == 1 then [TableTooSmall] else [])
      + (if section.content.StrContent? && |section.content.text| > 500 then [ContentTooLong] else [])
  {
    var small := if section.kind == "table" && section.tableRows == 1 then [TableTooSmall] else [];
    var long := if section.content.StrContent? && |section.content.text| > 500 then [ContentTooLong] else [];
    SectionCheck(if LacksSource(section) then [UnsourcedTable] else [], small + long)
  }

  /** The findings of the sections, in section order. */
  function SectionFindings(sections: seq<Section>): seq<Finding>
  {
    if sections == [] then []
    else SectionFindings(sections[..|sections| - 1]) + CheckSection(sections[|sections| - 1]).findings
  }

  /** The suggestions of the sections, in section order. */
  function SectionSuggestions(sections: seq<Section>): seq<Suggestion>
  {
    if sections == [] then []
    else SectionSuggestions(sections[..|sections| - 1]) + CheckSection(sections[|sections| - 1]).suggestions
  }

  /** Section checks find nothing but unsourced tables, one per such table. */
  lemma {:induction false} SectionFindingsAreUnsourcedTables(sections: seq<Section>)
    ensures forall f :: f in SectionFindings(sections) ==> f == UnsourcedTable
    ensures |SectionFindings(sections)| <= |sections|
  {
    if sections != [] {
      SectionFindingsAreUnsourcedTables(sections[..|sections| - 1]);
    }
  }

  /** An unsourced table anywhere is reported. */
  lemma {:induction false} UnsourcedTableReported(sections: seq<Section>, k: nat)
    requires k < |sections| && LacksSource(sections[k])
    ensures UnsourcedTable in SectionFindings(sections)
  {
    var init, last := sections[..|sections| - 1], CheckSection(sections[|sections| - 1]).findings;
    assert SectionFindings(sections) == SectionFindings(init) + last;
    if k < |init| {
      assert init[k] == sections[k];
      UnsourcedTableReported(init, k);
    } else {
      assert last == [UnsourcedTable];
    }
  }

  /** A reported finding comes from some unsourced table. */
  lemma {:induction false} FindingHasUnsourcedTable(sections: seq<Section>)
    requires SectionFindings(sections) != []
    ensures exists k :: 0 <= k < |sections| && LacksSource(sections[k])
  {
    var init, last := sections[..|sections| - 1], sections[|sections| - 1];
    if !LacksSource(last) {
      assert SectionFindings(init) != [];
      FindingHasUnsourcedTable(init);
      var k :| 0 <= k < |init| && LacksSource(init[k]);
      assert init[k] == sections[k];
    }
  }

  /** The section checks find something exactly when some table lacks a
      source. */
  lemma SectionFindingsIffUnsourced(sections: seq<Section>)
    ensures SectionFindings(sections) != [] <==> exists k :: 0 <= k < |sections| && LacksSource(sections[k])
  {
    if SectionFindings(sections) != [] {
      FindingHasUnsourcedTable(sections);
    }
    if exists k :: 0 <= k < |sections| && LacksSource(sections[k]) {
      var k :| 0 <= k < |sections| && LacksSource(sections[k]);
      UnsourcedTableReported(sections, k);
    }
  }

  datatype Summary = Summary(totalSections: nat, findings: nat, suggestions: nat, goodPractices: nat)

  datatype Report = Report(status: string, skill: string, summary: Summary, findings: seq<Finding>,
                           suggestions: seq<Suggestion>, goodPractices: seq<GoodPractice>, overallScore: int)

  /** The loop over the sections: their findings and suggestions, in order. */
  method CheckSections(sections: seq<Section>) returns (findings: seq<Finding>, suggestions: seq<Suggestion>)
    ensures findings == SectionFindings(sections)
    ensures suggestions == SectionSuggestions(sections)
  {
    findings, suggestions := [], [];
    for i := 0 to |sections|
      invariant findings == SectionFindings(sections[..i])
      invariant suggestions == SectionSuggestions(sections[..i])
    {
      assert sections[..i + 1][..i] == sections[..i];
      var check := CheckSection(sections[i]);
      findings := findings + check.findings;
      suggestions := suggestions + check.suggestions;
    }
    assert sections[..|sections|] == sections;
  }

  /** `review`: the structure check followed by every section's check, with
      counts and the score taken from what was gathered. */
  method Review(sections: seq<Section>) returns (report: Report)
    ensures report.findings == CheckStructure(sections).findings + SectionFindings(sections)
    ensures report.suggestions == SectionSuggestions(sections)
    ensures report.goodPractices == CheckStructure(sections).goodPractices
    ensures report.summary == Summary(|sections|, |report.findings|, |report.suggestions|, |report.goodPractices|)
    ensures report.overallScore == Score(|sections|, |report.findings|)
    ensures report.status == "success" && report.skill == "document-formatting"
  {
    var structure := CheckStructure(sections);
    var sectionFindings, suggestions := CheckSections(sections);
    suggestions := structure.suggestions + suggestions;
    var goodPractices := structure.goodPractices;
    var findings := structure.findings + sectionFindings;
    report := Report("success", "document-formatting",
      Summary(|sections|, |findings|, |suggestions|, |goodPractices|),
      findings, suggestions, goodPractices, Score(|sections|, |findings|));
  }

  /** One to four sections without unsourced tables or deep headings score
      100. */
  lemma CleanDocumentScores(sections: seq<Section>)
    requires 0 < |sections| < 5
    requires forall k :: 0 <= k < |sections| ==> !LacksSource(sections[k])
    requires forall k :: 0 <= k < |sections| ==> sections[k].level.None? || sections[k].level.value <= 3
    ensures Score(|sections|, |CheckStructure(sections).findings + SectionFindings(sections)|) == 100
  {
    SectionFindingsIffUnsourced(sections);
  }

  /** `_load_rules`: four categories of three rules each. */
  const Rules: map<string, RuleGroup> := map[
    "structure" := RuleGroup("文書構造", ["STRUCT-001", "STRUCT-002", "STRUCT-003"]),
    "formatting" := RuleGroup("フォーマット", ["FORMAT-001", "FORMAT-002", "FORMAT-003"]),
    "tables" := RuleGroup("表・図表", ["TABLE-001", "TABLE-002", "TABLE-003"]),
    "business_writing" := RuleGroup("ビジネス文書の書き方", ["WRITING-001", "WRITING-002", "WRITING-003"])
  ]

  /** `get_guidelines`: every category for "all", one category by name, an
      empty dictionary for anything else; every rule a finding cites is among
      the guidelines. */
  function GetGuidelines(category: string): (g: Guidelines)
    ensures category == "all" ==> g.Groups? && g.groups.Keys == {"structure", "formatting", "tables", "business_writing"}
    ensures category in Rules ==> g.Group? && |g.group.ruleIds| == 3
    ensures category != "all" && category !in Rules ==> g == Groups(map[])
    ensures category == "structure" ==> MissingToc.rule in g.group.ruleIds && TooDeep.rule in g.group.ruleIds
    ensures category == "tables" ==> UnsourcedTable.rule in g.group.ruleIds
  {
    Lookup(Rules, category)
  }
}
