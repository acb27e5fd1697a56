/** What the advisory review skills share: severities, the clamped score and
    the guideline lookup by category. */
module Skills {

  datatype Severity = Critical | High | Medium | Low

  function Clamp(x: int): (r: int)
    ensures 0 <= r <= 100
    ensures 0 <= x <= 100 ==> r == x
  {
    if x < 0 then 0 else if x > 100 then 100 else x
  }

  /** `_calculate_score`: 0 when there is nothing to review, otherwise 100
      minus 5 per finding, kept within 0..100. */
  function Score(total: nat, findings: nat): (score: int)
    ensures 0 <= score <= 100
    ensures total == 0 ==> score == 0
    ensures total > 0 && findings <= 20 ==> score == 100 - 5 * findings
    ensures total > 0 && findings >= 20 ==> score == 0
  {
    if total == 0 then 0 else Clamp(100 - findings * 5)
  }

  /** More findings never raise the score. */
  lemma ScoreAntitone(total: nat, fewer: nat, more: nat)
    requires fewer <= more
    ensures Score(total, more) <= Score(total, fewer)
  {
  }

  /** A category of guidelines: its display name and its rule ids (the rule
      prose is not modelled). */
  datatype RuleGroup = RuleGroup(name: string, ruleIds: seq<string>)

  /** What `get_guidelines` returns: the dictionary of all categories (empty
      for an unknown category) or the dictionary of one category. */
  datatype Guidelines = Groups(groups: map<string, RuleGroup>) | Group(group: RuleGroup)

  /** `get_guidelines(category)` over a skill's rule table. */
  function Lookup(table: map<string, RuleGroup>, category: string): (g: Guidelines)
    ensures category == "all" ==> g == Groups(table)
    ensures category != "all" && category in table ==> g == Group(table[category])
    ensures category != "all" && category !in table ==> g == Groups(map[])
  {
    if category == "all" then Groups(table)
    else if category in table then Group(table[category])
    else Groups(map[])
  }
}
