# sub-agents: a verified model of the orchestrator, review skills and workers

This Dafny project models the deterministic core of the `sub-agents` system.

**Orchestrator.** It takes a task text and runs it through four stages:
- it registers the enabled workers from its configuration;
- it splits the text into subtasks by keyword;
- it keeps the subtasks whose worker is registered as a numbered plan;
- it runs a simulated execution and folds the results into one report with a summary text.

**Advisory review skills.** These are rule evaluators over code text or document and slide descriptions:
- `security-review` checks code against an eight-item checklist;
- `document-formatting` checks document structure and sections;
- `presentation-design` checks slides.

They partition what they find into findings, warnings, suggestions and good practices. They count them and clamp a score to 0..100.

**Workers.** Their decision logic is modelled, not their file output:
- `presentation_builder`: task dispatch, the slide-outline suggestion and the single-slide generator over a layout table;
- `document_writer`: task dispatch, the document templates, the structure suggestion and the formatting suggestion;
- `code_writer`: the choice between the calculator template and a generic skeleton that embeds the request.

**Slide-generator tool.** Its pure parts are modelled:
- hexadecimal colour parsing, with round trips to `%02X` formatting;
- title sanitising;
- the choice of the first free `-i` suffix for the output file;
- the layout-to-handler dispatch;
- the text lines of a slide body.

Files and modules:

| file | module | models |
|---|---|---|
| `text.dfy` | `Options`, `Text` | `Option`; substring search, ASCII lower-casing, `strip`, decimal rendering, `join` |
| `skills.dfy` | `Skills` | severities, `_calculate_score`, `get_guidelines` shared by two skills |
| `orchestrator.dfy` | `Orchestration` | `orchestrator/orchestrator.py` |
| `security_review.dfy` | `SecurityReview` | `skills/security-review/skill.py` |
| `document_formatting.dfy` | `DocumentFormatting` | `skills/document-formatting/skill.py` |
| `presentation_design.dfy` | `PresentationDesign` | `skills/presentation-design/skill.py` |
| `presentation_builder.dfy` | `PresentationBuilder` | `workers/presentation_builder/worker.py` |
| `document_writer.dfy` | `DocumentWriter` | `workers/document_writer/worker.py` |
| `code_writer.dfy` | `CodeWriter` | `workers/code_writer/worker.py` |
| `slide_generator.dfy` | `SlideGenerator` | `tools/slide_generator.py` |

**How the code is modelled.**
- Code that builds lists in loops becomes a method with a loop, proved against a specification function:
  - the orchestrator's planning, execution and summary;
  - each skill's `review`;
  - the outline suggestion;
  - the output-name search.
- The orchestrator is a class whose `workers` map is filled in place.
- Conditional rule code becomes functions with contracts, as does dispatch over a task dictionary.
- Python dictionaries with optional keys become datatypes with `Option` fields. `dict.get(k, default)` is `GetOr(default)`.
- A Python exception becomes `None`, for example `KeyError` in `_generate_slide` and `ValueError` in `int(s, 16)`.

**Where the code differs from the repository's own description of the system.** That description routes a task by the first keyword group that matches and gives it a compute tier from a fixed table. It numbers plan steps densely. It has each worker actually run, with a failing step isolated from the others. The model follows the code instead:
- `analyze_task` tests the code, review and test keyword groups independently. One text can give up to three subtasks. There is no routing to presentation or document workers and no model-tier choice.
- A plan step keeps its subtask's original index + 1. A skipped subtask leaves a gap in the step numbers.
- `execute_plan` calls no worker. Every step "succeeds" with a simulated message.
- With the default configuration, a request that only asks for a review produces an empty plan. It still reports overall `"success"`, because `all([])` holds.

## Model

| member | source | states |
|---|---|---|
| Orchestration.EnabledWorkers | projects/sub-agents/orchestrator/orchestrator.py:40-44 | a worker is kept exactly when it is configured and enabled, with its configuration unchanged |
| Orchestration.Orchestrator.constructor | projects/sub-agents/orchestrator/orchestrator.py:15-19 | after construction `workers` holds exactly the enabled configured workers |
| Orchestration.Orchestrator.RegisterWorkers | projects/sub-agents/orchestrator/orchestrator.py:40-44 | the loop over the configured workers adds every enabled one, and nothing else, to `workers` |
| Orchestration.VisitOne | projects/sub-agents/orchestrator/orchestrator.py:40-44 | visiting one more configured worker adds it to the enabled ones exactly when it is enabled |
| Orchestration.AnalyzeTask | projects/sub-agents/orchestrator/orchestrator.py:46-86 | 1 to 3 subtasks in the order code → review → test; each group's subtask is present iff one of its keywords occurs in the lower-cased text; the single default `code_writer` subtask appears exactly when no group matches |
| Orchestration.SelectSubtasks | projects/sub-agents/orchestrator/orchestrator.py:53-86 | given which keyword groups matched: each group's subtask is present iff its group matched, in the order code → review → test, and the single default subtask iff none matched |
| Orchestration.PlanOf | projects/sub-agents/orchestrator/orchestrator.py:93-104 | the plan `create_execution_plan` builds: at most one step per subtask; with the three lemmas below it is exactly the subtasks whose worker is registered, in order, each numbered its index + 1 with status "pending" |
| Orchestration.PlanStepsAreRegisteredSubtasks | projects/sub-agents/orchestrator/orchestrator.py:93-104 | every plan step is the subtask at index step − 1, its worker is registered and its status is "pending" |
| Orchestration.PlanStepsIncrease | projects/sub-agents/orchestrator/orchestrator.py:93-101 | plan step numbers strictly increase, so subtask order is kept |
| Orchestration.PlanKeepsEveryRegisteredSubtask | projects/sub-agents/orchestrator/orchestrator.py:93-101 | every subtask whose worker is registered has a step numbered by its index + 1 |
| Orchestration.PlanDenseWhenAllRegistered | projects/sub-agents/orchestrator/orchestrator.py:93-101 | when every worker is registered, nothing is dropped and the steps are 1, 2, 3, … |
| Orchestration.StepNumbersKeepGaps | projects/sub-agents/orchestrator/orchestrator.py:96-101 | a dropped subtask leaves a gap: "コードをレビュー" with only `code_reviewer` registered plans one step, numbered 2 |
| Orchestration.Orchestrator.CreateExecutionPlan | projects/sub-agents/orchestrator/orchestrator.py:88-106 | the loop builds exactly the plan over the registered workers |
| Orchestration.ExecuteAll | projects/sub-agents/orchestrator/orchestrator.py:108-132 | one result per step in plan order, copying step, worker and subtask, with status "success" and the completion message |
| Orchestration.Orchestrator.ExecutePlan | projects/sub-agents/orchestrator/orchestrator.py:108-132 | the loop produces exactly those results |
| Orchestration.CountSuccess | projects/sub-agents/orchestrator/orchestrator.py:143 | the success count is at most the number of results, and equal to it iff every result succeeded |
| Orchestration.CountSuccessOne | projects/sub-agents/orchestrator/orchestrator.py:143 | one result counts 1 iff its status is "success", else 0 |
| Orchestration.CountSuccessConcat | projects/sub-agents/orchestrator/orchestrator.py:143 | the count over `a + b` is the count over `a` plus the count over `b`; with the one-result case, the count is the number of successful results |
| Orchestration.SummaryLine | projects/sub-agents/orchestrator/orchestrator.py:152-155 | a line starts with ✅ iff its result succeeded, otherwise with ❌, and contains the result's output |
| Orchestration.SummaryLines | projects/sub-agents/orchestrator/orchestrator.py:150-156 | the header followed by one line per result, in order |
| Orchestration.Orchestrator.GenerateSummary | projects/sub-agents/orchestrator/orchestrator.py:150-156 | the loop's text is those lines joined by newlines |
| Orchestration.Integrate | projects/sub-agents/orchestrator/orchestrator.py:134-148 | total = number of results; successful = the success count (`CountSuccess`) ≤ total; status "success" iff every result succeeded iff successful = total, otherwise "partial_success" |
| Orchestration.Orchestrator.IntegrateResults | projects/sub-agents/orchestrator/orchestrator.py:134-148 | the integrated report with the loop-built summary equals the specified one |
| Orchestration.Orchestrator.ProcessTask | projects/sub-agents/orchestrator/orchestrator.py:158-181 | the report is integration ∘ execution ∘ planning ∘ analysis over the registered workers |
| Orchestration.ReviewOnlyRequestUnderDefaultConfig | projects/sub-agents/orchestrator/orchestrator.py:27-38 | under the default configuration a review-only request gives one review subtask, an empty plan and a "success" report with 0 steps |
| Orchestration.ReviewRequestExample | projects/sub-agents/orchestrator/orchestrator.py:62-68 | "レビューを実施してください" is such a request |
| Skills.Clamp | projects/sub-agents/skills/document-formatting/skill.py:259 | `max(0, min(100, x))` lies in 0..100 and is x inside that range |
| Skills.Score | projects/sub-agents/skills/document-formatting/skill.py:252-259 | 0 with nothing reviewed; otherwise 100 − 5·findings down to 0 from 20 findings on; always within 0..100 |
| Skills.ScoreAntitone | projects/sub-agents/skills/presentation-design/skill.py:226-233 | more findings never raise the score |
| Skills.Lookup | projects/sub-agents/skills/document-formatting/skill.py:271-276 | "all" gives the whole table, a known category its group, anything else an empty table |
| SecurityReview.CheckItemResult | projects/sub-agents/skills/security-review/skill.py:118-165 | SEC-001 warns iff "input(" without "int(" or "float("; SEC-005 warns iff "Exception as e" and "print(f"; SEC-004 fails iff lower-cased "password" without "hash"; every other item passes; id, category and severity are copied |
| SecurityReview.Results | projects/sub-agents/skills/security-review/skill.py:83-84 | one result per checklist item, in checklist order |
| SecurityReview.WithVerdict | projects/sub-agents/skills/security-review/skill.py:85-90 | exactly the results with the given status, no more than there are results |
| SecurityReview.WithVerdictOne | projects/sub-agents/skills/security-review/skill.py:85-90 | one result is kept iff its status is the given one |
| SecurityReview.WithVerdictConcat | projects/sub-agents/skills/security-review/skill.py:85-90 | filtering `a + b` is filtering `a` then `b`, so the filter keeps the results in order |
| SecurityReview.VerdictsSplitResults | projects/sub-agents/skills/security-review/skill.py:83-90 | every result has exactly one of the three statuses, so the three lists together are as long as the results |
| SecurityReview.Partition | projects/sub-agents/skills/security-review/skill.py:83-90 | the loop sends each result to findings, warnings or passes by its status, in order, and loses none |
| SecurityReview.WithSeverity | projects/sub-agents/skills/security-review/skill.py:94-95 | exactly the findings of the given severity |
| SecurityReview.TwoSeveritiesAtMostAll | projects/sub-agents/skills/security-review/skill.py:94-95 | critical and high findings together are no more than all findings |
| SecurityReview.OverallStatus | projects/sub-agents/skills/security-review/skill.py:98 | "fail" iff a finding is critical; "pass" iff there is no finding; "warning" otherwise; warnings play no part |
| SecurityReview.Recommendations | projects/sub-agents/skills/security-review/skill.py:167-183 | 1 to 3 items; each advice is present iff a finding has its id (SEC-001, SEC-004, SEC-005); "no major problems" iff none of them, and then alone; no advice repeats and they come in the order SEC-001, SEC-004, SEC-005 |
| SecurityReview.Review | projects/sub-agents/skills/security-review/skill.py:74-116 | the loop puts every one of the 8 items in exactly one of findings, warnings and passes (passed + warnings + findings = 8); counts, critical + high ≤ findings, status and recommendations as specified |
| SecurityReview.OnlyPasswordCheckFails | projects/sub-agents/skills/security-review/skill.py:147-165 | every finding is the critical SEC-004, and there is one iff the code has a plain password |
| SecurityReview.PasswordFindingsOnly | projects/sub-agents/skills/security-review/skill.py:98-110 | findings that are all the critical SEC-004 never give "warning"; they give "fail" iff there is one, and the only advice is to hash passwords, or "no major issues" when there is none |
| SecurityReview.ReviewNeverWarnsAndAdvisesOnlyOnPasswords | projects/sub-agents/skills/security-review/skill.py:98-110 | the overall status is never "warning"; it is "fail" iff plain password; recommendations are either the password advice or "no major problems" |
| DocumentFormatting.HeadingLevels | projects/sub-agents/skills/document-formatting/skill.py:193 | the levels are exactly those of the sections that have one |
| DocumentFormatting.MaxOf | projects/sub-agents/skills/document-formatting/skill.py:194 | `max` is an element of the list and bounds all of them |
| DocumentFormatting.CheckStructure | projects/sub-agents/skills/document-formatting/skill.py:170-206 | STRUCT-002 iff ≥ 5 sections and no "toc"; STRUCT-001 iff some explicit level > 3; the findings are exactly these, each at most once, STRUCT-002 first; the table-of-contents good practice iff a "toc" exists |
| DocumentFormatting.CheckSection | projects/sub-agents/skills/document-formatting/skill.py:208-250 | TABLE-003 iff a table with rows has no `source` and no "出典" in `str(content)`; a one-row table and a string content over 500 characters are suggestions, each at most once, the table one first; the table good practice is not returned |
| DocumentFormatting.SectionFindingsAreUnsourcedTables | projects/sub-agents/skills/document-formatting/skill.py:147-149 | section findings are only TABLE-003, at most one per section |
| DocumentFormatting.UnsourcedTableReported | projects/sub-agents/skills/document-formatting/skill.py:147-149 | an unsourced table in any section puts TABLE-003 among the section findings |
| DocumentFormatting.FindingHasUnsourcedTable | projects/sub-agents/skills/document-formatting/skill.py:147-149 | a section finding implies some section is an unsourced table |
| DocumentFormatting.SectionFindingsIffUnsourced | projects/sub-agents/skills/document-formatting/skill.py:147-149 | there is a section finding iff some table lacks a source |
| DocumentFormatting.CheckSections | projects/sub-agents/skills/document-formatting/skill.py:147-150 | the loop gathers every section's findings and suggestions, in section order |
| DocumentFormatting.Review | projects/sub-agents/skills/document-formatting/skill.py:131-168 | structure findings then section findings in order; only structure good practices; counts equal list lengths; the score from sections and findings |
| DocumentFormatting.CleanDocumentScores | projects/sub-agents/skills/document-formatting/skill.py:252-259 | 1 to 4 sections with no unsourced table and no level above 3 score 100 |
| DocumentFormatting.GetGuidelines | projects/sub-agents/skills/document-formatting/skill.py:271-276 | "all" gives the four categories, a known one its three rules, anything else an empty dictionary; the rules findings cite are in their categories |
| PresentationDesign.ReviewSlide | projects/sub-agents/skills/presentation-design/skill.py:164-224 | content over 40 characters is a medium CONTENT-003; more than 7 bullets a high CONTENT-002; 3..7 bullets a good practice; a title over 20 a suggestion, of ≤ 15 a good practice; findings and good practices are exactly these, each at most once, in that order; everything carries the slide number |
| PresentationDesign.FindingsPointAtTheirSlide | projects/sub-agents/skills/presentation-design/skill.py:140-144 | every finding names a slide 1..n by its 1-based position and is among that slide's own findings |
| PresentationDesign.AtMostTwoFindingsPerSlide | projects/sub-agents/skills/presentation-design/skill.py:140-144 | a deck of n slides has at most 2·n findings |
| PresentationDesign.EverySlideFindingReported | projects/sub-agents/skills/presentation-design/skill.py:140-144 | every slide's findings are among the deck's findings |
| PresentationDesign.Review | projects/sub-agents/skills/presentation-design/skill.py:131-162 | the loop gathers every slide's review in order under its 1-based number; counts equal list lengths; the score from slides and findings |
| PresentationDesign.CrowdedSlideCostsScore | projects/sub-agents/skills/presentation-design/skill.py:185-196 | a deck with a slide of more than 7 bullets scores below 100 |
| PresentationDesign.GetGuidelines | projects/sub-agents/skills/presentation-design/skill.py:250-255 | "all" gives the four categories, a known one its three principles, anything else an empty dictionary |
| PresentationBuilder.PointCount | projects/sub-agents/workers/presentation_builder/worker.py:138 | the number of point slides is 0 for a non-positive duration and ⌊3·duration/5⌋ otherwise |
| PresentationBuilder.StructureAsWritten | projects/sub-agents/workers/presentation_builder/worker.py:113-164 | the outline as the code builds it: 5 + point-count slides, the three opening slides, then "ポイント i" slides, then a conclusion and a content slide; every slide but the last is numbered its position, and the last repeats the conclusion's number |
| PresentationBuilder.AsWrittenRepeatsLastNumber | projects/sub-agents/workers/presentation_builder/worker.py:148-164 | as written, the two closing slides share the number n − 1, so the outline is never densely numbered |
| PresentationBuilder.DefaultDurationExample | projects/sub-agents/workers/presentation_builder/worker.py:106-164 | the default 15 minutes gives 14 slides whose last two are both numbered 13 |
| PresentationBuilder.CorrectedOutline | projects/sub-agents/workers/presentation_builder/worker.py:106-164 | opening, point slides and closing numbered 1, 2, 3, … with n + 5 slides, the point slides in order, and equal to the outline as written except the last slide's number |
| PresentationBuilder.SuggestedStructure | projects/sub-agents/workers/presentation_builder/worker.py:104-191 | defaults "プレゼンテーション", "一般", 15; the 3 opening slides (a title slide with the topic first), the point slides in order, then conclusion and next-action; n = 5 + point count slides numbered 1..n densely; equal to the outline as written except the last slide's number; `estimated_slides` = n; the advice and the logs |
| PresentationBuilder.SuggestStructure | projects/sub-agents/workers/presentation_builder/worker.py:104-191 | the loop that appends the point slides one by one and then the closing pair answers exactly the suggested structure |
| PresentationBuilder.GenerateSlide | projects/sub-agents/workers/presentation_builder/worker.py:282-306 | the requested layout or, for an unknown type, the "content" layout's elements under the requested name; a table without "content" raises |
| PresentationBuilder.UnknownSlideTypeUsesContentLayout | projects/sub-agents/workers/presentation_builder/worker.py:287 | with the default layouts an unknown type gets `["title", "body"]` |
| PresentationBuilder.Execute | projects/sub-agents/workers/presentation_builder/worker.py:83-102 | a missing type is "create_presentation", which gives the presentation file for the topic; "suggest_structure" gives exactly the suggested structure; "generate_slide" gives the generated slide; any other type is an error naming it |
| DocumentWriter.TemplateShapes | projects/sub-agents/workers/document_writer/worker.py:37-76 | three templates with 8, 7 and 6 sections |
| DocumentWriter.ChooseTemplate | projects/sub-agents/workers/document_writer/worker.py:104 | the type's own template, or the report template for an unknown type |
| DocumentWriter.Recommendations | projects/sub-agents/workers/document_writer/worker.py:129-152 | four items for each known type, none for any other |
| DocumentWriter.SuggestStructure | projects/sub-agents/workers/document_writer/worker.py:98-127 | the chosen template's sections under the echoed type; four recommendations iff the type is known; the log reports the section count |
| DocumentWriter.UnknownDocTypeFallsBackToReport | projects/sub-agents/workers/document_writer/worker.py:100-111 | an unknown type keeps its name and gets the report's 7 sections and no advice |
| DocumentWriter.FormatContent | projects/sub-agents/workers/document_writer/worker.py:333-357 | always a success whose formatted text is the unchanged original |
| DocumentWriter.Execute | projects/sub-agents/workers/document_writer/worker.py:78-96 | a missing type is "create_document"; the three known types go to their handlers; any other type is an error naming it |
| CodeWriter.GenericCode | projects/sub-agents/workers/code_writer/worker.py:118-132 | the generic script carries the request verbatim as its docstring and in its printed line |
| CodeWriter.Embeds | projects/sub-agents/workers/code_writer/worker.py:118-132 | a template wrapped around two copies of the request holds the request at both places and keeps its head in front |
| CodeWriter.Execute | projects/sub-agents/workers/code_writer/worker.py:20-54 | always "success" by `code_writer` in Python; calculator iff "電卓" or lower-cased "calculator" occurs; otherwise generic code containing the request; the description and the four logs |
| CodeWriter.MissingTaskIsGeneric | projects/sub-agents/workers/code_writer/worker.py:26 | a missing request gets generic code |
| CodeWriter.EnglishRequestCaseInsensitive | projects/sub-agents/workers/code_writer/worker.py:29 | an example: "CALCULATOR" in upper case is recognised (the all-inputs rule is `CodeWriter.Execute`) |
| SlideGenerator.ParseHex | projects/sub-agents/tools/slide_generator.py:41-43 | `int(s, 16)` on a piece of at most two characters is within −15..255 when it succeeds |
| SlideGenerator.HexValue | projects/sub-agents/tools/slide_generator.py:41-43 | one or two hex digits denote a value of at most 255, and one digit a value below 16 |
| SlideGenerator.ParseTwoDigits | projects/sub-agents/tools/slide_generator.py:41-43 | two hex digits parse to 16 times the first digit's value plus the second's |
| SlideGenerator.ParseHex2 | projects/sub-agents/tools/slide_generator.py:41-43 | a channel written as two upper-case digits parses back to the channel |
| SlideGenerator.HexToRgb | projects/sub-agents/tools/slide_generator.py:38-44 | a colour is produced iff all three pieces parse to channels 0..255, and it is those three values |
| SlideGenerator.SixDigitsColour | projects/sub-agents/tools/slide_generator.py:38-44 | six leading hex digits, upper or lower case, give the colour whose channels are the values of the three digit pairs |
| SlideGenerator.PieceValue | projects/sub-agents/tools/slide_generator.py:41-43 | each two-character piece of six leading hex digits parses to the value of its digits |
| SlideGenerator.FormatThenParse | projects/sub-agents/tools/slide_generator.py:38-44 | formatting a colour as `%02X%02X%02X` and parsing it back gives the colour |
| SlideGenerator.ParseThenFormat | projects/sub-agents/tools/slide_generator.py:38-44 | six upper-case hex digits parse to a colour that formats back to the same text |
| SlideGenerator.ExampleColour | projects/sub-agents/tools/slide_generator.py:39 | "2563EB" is (0x25, 0x63, 0xEB) |
| SlideGenerator.KeepTitleChars | projects/sub-agents/tools/slide_generator.py:210 | only alphanumerics, space, backslash, hyphen and underscore are kept, and the result is no longer than the title |
| SlideGenerator.KeepOne | projects/sub-agents/tools/slide_generator.py:210 | one character is kept iff it is alphanumeric or one of space, backslash, hyphen, underscore |
| SlideGenerator.KeepConcat | projects/sub-agents/tools/slide_generator.py:210 | keeping works piecewise: the kept characters of `a + b` are those of `a` followed by those of `b`, so every allowed character is kept, in order |
| SlideGenerator.KeepIsIdentityOnKept | projects/sub-agents/tools/slide_generator.py:210 | a title made only of kept characters is left as it is |
| SlideGenerator.SafeTitle | projects/sub-agents/tools/slide_generator.py:210 | the sanitised title is the kept text with only whitespace cut off before and after it, has only kept characters and no whitespace at either end |
| SlideGenerator.SafeTitleIdempotent | projects/sub-agents/tools/slide_generator.py:210 | sanitising twice equals sanitising once |
| Text.Strip | projects/sub-agents/tools/slide_generator.py:210 | `str.strip()`: the result occurs in the text with only whitespace before and after it, and has no whitespace at either end |
| SlideGenerator.NumberedNamesDistinct | projects/sub-agents/tools/slide_generator.py:212-216 | distinct suffixes give distinct names, and none equals the base name |
| SlideGenerator.ChooseOutputName | projects/sub-agents/tools/slide_generator.py:212-218 | the name never exists already; it is the base name when that is free, else `-i` for the smallest i ≥ 2 that is free |
| SlideGenerator.HandlerFor | projects/sub-agents/tools/slide_generator.py:182-187 | the title-slide handler iff the layout is "title"; a missing layout is "image_caption" and an unknown one falls back to the image-and-caption handler |
| SlideGenerator.BodyLines | projects/sub-agents/tools/slide_generator.py:150 | (body ≠ "" ? 1 : 0) + |bullets| lines: the body first, then "• b" per bullet; no line is empty; none iff no text box is drawn |
| SlideGenerator.GeneratePptx | projects/sub-agents/tools/slide_generator.py:190-222 | one handler per slide in order; the output name is never taken; it is `{date}-{title}.pptx` for the sanitised title ("slides" when missing) when that is free, otherwise `{date}-{title}-{i}.pptx` for the smallest free i from 2 on |

## Left out

- File and configuration input is not modelled: `_load_config`, `_load_layouts`, `load_style` and the JSON reading in `generate_pptx`. The loaded values are parameters or the default tables.
- The python-docx and python-pptx writers are foreign library code that is not part of this model. This covers:
  - `_create_document`, `_add_cover_page`, `_add_toc_placeholder`, `_add_section` and `_add_table`;
  - `_create_presentation` and `_add_slide`;
  - the slide drawing functions, their float geometry, and `mkdir`/`save`.
  - `DocumentFile` and `PresentationFile` stand for those results, and `Handler` names the drawing function chosen.
- The `config.json` file is not part of this model. Only the default configuration in the code is.
- `datetime.now()` is not modelled; the date string is a parameter. `Path.exists` is membership in a finite set of existing names.
- `print`, `_print_result` and the banners of `process_task` are console output only, so they are not modelled.
- The prose of rules, principles and checklist items, the descriptions and notes of outline slides, and the calculator template's text are not modelled. Only ids, names, severities and counts are kept.
- `examples/simple_workflow.py` is an interactive demo with no logic of its own, so it is not modelled.
- Text.Lower folds ASCII letters only. Python's `str.lower()` folds all of Unicode, but no non-ASCII character lower-cases into a letter of the keywords tested ("password", "hash", "calculator", and the Japanese keywords), so the keyword tests agree.
- SlideGenerator.KeepTitleChars takes `str.isalnum` as a parameter, because the Unicode character database is not modelled.
- SlideGenerator.ParseHex accepts ASCII hex digits only. Python's `int(s, 16)` also accepts other Unicode decimal digits.
- SlideGenerator.HexToRgb reports a colour outside 0..255 as `None`. In Python, `RGBColor` raises there.
- PresentationBuilder.PointCount computes `int(duration * 0.6)` as exact arithmetic on an integer duration. A non-integer duration is not modelled.
- PresentationBuilder.SuggestedStructure, PresentationBuilder.SuggestStructure and PresentationBuilder.Execute (its suggest_structure branch) number the closing pair densely; see Findings for the code as written.
- Section `level` values that are not integers, and a slide `content` that is not a string, are not modelled: levels are integers and content is text in the model. Python accepts some such values: a float level compares with 3 in `max(levels) > 3`, and `len(content)` counts the items of a list, tuple or dict. Others raise, such as a string level next to an integer one in `max`.
- The orchestrator's `parallel_execution` and `execution_mode` settings are not modelled, because the code never reads them.
- Dictionary iteration order in `_register_workers` is not modelled, because the result is a map.

## Findings

| source | as written | input that shows it | evidently intended | confidence | as-written member | corrected member |
|---|---|---|---|---|---|---|
| projects/sub-agents/workers/presentation_builder/worker.py:148-164 | both closing slides are numbered `len(structure) + 1`, evaluated before `extend`, so the last two slides share a number | `suggest_structure` with the default duration 15: 14 slides, the last two both numbered 13 | the slides are numbered 1, 2, …, n, as every earlier slide is numbered `len(structure) + 1` after its predecessor | not executed | PresentationBuilder.AsWrittenRepeatsLastNumber | PresentationBuilder.SuggestedStructure |
