/** The security-review skill: eight checklist items, each settled by a
    keyword test on the code, partitioned into findings, warnings and passes. */
module SecurityReview {
  import opened Text
  import opened Skills

  datatype CheckItem = CheckItem(id: string, category: string, severity: Severity)

  /** `_load_checklist`, without the prose of each check. */
  const Checklist: seq<CheckItem> := [
    CheckItem("SEC-001", "入力検証", High),
    CheckItem("SEC-002", "SQLインジェクション", Critical),
    CheckItem("SEC-003", "XSS", High),
    CheckItem("SEC-004", "認証", Critical),
    CheckItem("SEC-005", "エラーハンドリング", Medium),
    CheckItem("SEC-006", "ファイル操作", High),
    CheckItem("SEC-007", "暗号化", High),
    CheckItem("SEC-008", "権限管理", High)
  ]

  datatype Verdict = Pass | Warning | Fail

  datatype CheckResult = CheckResult(id: string, category: string, severity: Severity, status: Verdict)

  /** Input is read but never converted by `int(` or `float(`. */
  predicate UnvalidatedInput(code: string)
  {
    Contains(code, "input(") && !Contains(code, "int(") && !Contains(code, "float(")
  }

  /** An exception handler next to an f-string print. */
  predicate LeakyErrorMessage(code: string)
  {
    Contains(code, "Exception as e") && Contains(code, "print(f")
  }

  /** "password" appears, ignoring case, and "hash" does not. */
  predicate PlainPassword(code: string)
  {
    Contains(Lower(code), "password") && !Contains(Lower(code), "hash")
  }

  /** `_check_item`: SEC-001 and SEC-005 can only warn, SEC-004 can only fail,
      every other item passes. */
  function CheckItemResult(code: string, item: CheckItem): (r: CheckResult)
    ensures r.id == item.id && r.category == item.category && r.severity == item.severity
    ensures r.status == Warning <==>
      (item.id == "SEC-001" && UnvalidatedInput(code)) || (item.id == "SEC-005" && LeakyErrorMessage(code))
    ensures r.status == Fail <==> item.id == "SEC-004" && PlainPassword(code)
    ensures item.id != "SEC-001" && item.id != "SEC-004" && item.id != "SEC-005" ==> r.status == Pass
  {
    var verdict :=
      if item.id == "SEC-001" then (if UnvalidatedInput(code) then Warning else Pass)
      else if item.id == "SEC-005" then (if LeakyErrorMessage(code) then Warning else Pass)
      else if item.id == "SEC-004" then (if PlainPassword(code) then Fail else Pass)
      else Pass;
    CheckResult(item.id, item.category, item.severity, verdict)
  }

  /** The result of every checklist item, in checklist order. */
  function Results(code: string): (rs: seq<CheckResult>)
    ensures |rs| == |Checklist|
    ensures forall i :: 0 <= i < |Checklist| ==> rs[i] == CheckItemResult(code, Checklist[i])
  {
    seq(|Checklist|, i requires 0 <= i < |Checklist| => CheckItemResult(code, Checklist[i]))
  }

  /** The results with the given verdict, in order. */
  function WithVerdict(rs: seq<CheckResult>, v: Verdict): (r: seq<CheckResult>)
    ensures |r| <= |rs|
    ensures forall x :: x in r <==> x in rs && x.status == v
  {
    if rs == [] then []
    else WithVerdict(rs[..|rs| - 1], v) + if rs[|rs| - 1].status == v then [rs[|rs| - 1]] else []
  }

  /** A single result is kept exactly when its verdict is the given one. */
  lemma WithVerdictOne(x: CheckResult, v: Verdict)
    ensures WithVerdict([x], v) == if x.status == v then [x] else []
  {
    assert [x][..0] == [];
  }

  /** One step of `WithVerdict`: the last result is kept or dropped. */
  lemma WithVerdictSnoc(rs: seq<CheckResult>, v: Verdict)
    requires rs != []
    ensures WithVerdict(rs, v) ==
      WithVerdict(rs[..|rs| - 1], v) + if rs[|rs| - 1].status == v then [rs[|rs| - 1]] else []
  {
  }

  /** Filtering two runs of results keeps their order: with `WithVerdictOne`
      this fixes `WithVerdict` as the in-order filter. */
  lemma {:induction false} WithVerdictConcat(a: seq<CheckResult>, b: seq<CheckResult>, v: Verdict)
    ensures WithVerdict(a + b, v) == WithVerdict(a, v) + WithVerdict(b, v)
    decreases |b|
  {
    if b == [] {
      assert a + b == a;
    } else {
      var n, ab := |b| - 1, a + b;
      var last := if b[n].status == v then [b[n]] else [];
      assert ab[..|ab| - 1] == a + b[..n] && ab[|ab| - 1] == b[n];
      calc {
        WithVerdict(ab, v);
        { WithVerdictSnoc(ab, v); }
        WithVerdict(a + b[..n], v) + last;
        { WithVerdictConcat(a, b[..n], v); }
        (WithVerdict(a, v) + WithVerdict(b[..n], v)) + last;
        WithVerdict(a, v) + (WithVerdict(b[..n], v) + last);
        { WithVerdictSnoc(b, v); }
        WithVerdict(a, v) + WithVerdict(b, v);
      }
    }
  }

  /** The results of the given severity, in order. */
  function WithSeverity(rs: seq<CheckResult>, s: Severity): (r: seq<CheckResult>)
    ensures forall x :: x in r <==> x in rs && x.severity == s
  {
    if rs == [] then []
    else WithSeverity(rs[..|rs| - 1], s) + if rs[|rs| - 1].severity == s then [rs[|rs| - 1]] else []
  }

  /** Findings of two different severities together are no more than all
      findings. */
  lemma {:induction false} TwoSeveritiesAtMostAll(rs: seq<CheckResult>, s: Severity, t: Severity)
    requires s != t
    ensures |WithSeverity(rs, s)| + |WithSeverity(rs, t)| <= |rs|
  {
    if rs != [] {
      TwoSeveritiesAtMostAll(rs[..|rs| - 1], s, t);
    }
  }

  datatype Overall = OverallPass | OverallWarning | OverallFail

  /** The overall status: fail on any critical finding, pass on none, warning
      otherwise; warnings play no part. */
  function OverallStatus(findings: seq<CheckResult>): (s: Overall)
    ensures s == OverallFail <==> exists k :: 0 <= k < |findings| && findings[k].severity == Critical
    ensures s == OverallPass <==> findings == []
  {
    var critical := WithSeverity(findings, Critical);
    if |critical| > 0 then
      assert critical[0] in findings;
      OverallFail
    else if findings == [] then OverallPass
    else
      assert findings[0] !in critical;
      OverallWarning
  }

  datatype Recommendation = ValidateInput | HashPasswords | HideErrorDetails | NoMajorIssues

  /** The position of each piece of advice in the list. */
  function Rank(rec: Recommendation): nat
  {
    match rec
    case ValidateInput => 0
    case HashPasswords => 1
    case HideErrorDetails => 2
    case NoMajorIssues => 3
  }

  predicate HasFinding(findings: seq<CheckResult>, id: string)
  {
    exists k :: 0 <= k < |findings| && findings[k].id == id
  }

  /** `_generate_recommendations`: one advice per finding id among SEC-001,
      SEC-004 and SEC-005, in that order, and "no major problems" alone when
      none of them is found. */
  function Recommendations(findings: seq<CheckResult>): (recs: seq<Recommendation>)
    ensures 1 <= |recs| <= 3
    ensures ValidateInput in recs <==> HasFinding(findings, "SEC-001")
    ensures HashPasswords in recs <==> HasFinding(findings, "SEC-004")
    ensures HideErrorDetails in recs <==> HasFinding(findings, "SEC-005")
    ensures NoMajorIssues in recs <==>
      !HasFinding(findings, "SEC-001") && !HasFinding(findings, "SEC-004") && !HasFinding(findings, "SEC-005")
    ensures NoMajorIssues in recs ==> recs == [NoMajorIssues]
    ensures forall i, j :: 0 <= i < j < |recs| ==> Rank(recs[i]) < Rank(recs[j])
  {
    var recs :=
      (if HasFinding(findings, "SEC-001") then [ValidateInput] else [])
      + (if HasFinding(findings, "SEC-004") then [HashPasswords] else [])
      + (if HasFinding(findings, "SEC-005") then [HideErrorDetails] else []);
    if recs == [] then [NoMajorIssues] else recs
  }

  datatype Summary = Summary(totalChecks: nat, passed: nat, warnings: nat, findings: nat,
                             criticalIssues: nat, highIssues: nat)

  datatype Report = Report(status: Overall, skill: string, summary: Summary, findings: seq<CheckResult>,
                           warnings: seq<CheckResult>, recommendations: seq<Recommendation>)

  /** Every result has exactly one of the three verdicts, so the three lists
      together are as long as the results. */
  lemma {:induction false} VerdictsSplitResults(rs: seq<CheckResult>)
    ensures |WithVerdict(rs, Fail)| + |WithVerdict(rs, Warning)| + |WithVerdict(rs, Pass)| == |rs|
  {
    if rs != [] {
      VerdictsSplitResults(rs[..|rs| - 1]);
    }
  }

  /** Extending a prefix by one result adds it to the list of its verdict
      only. */
  lemma PrefixVerdicts(rs: seq<CheckResult>, i: nat)
    requires i < |rs|
    ensures WithVerdict(rs[..i + 1], rs[i].status) == WithVerdict(rs[..i], rs[i].status) + [rs[i]]
    ensures forall v :: v != rs[i].status ==> WithVerdict(rs[..i + 1], v) == WithVerdict(rs[..i], v)
  {
    assert rs[..i + 1][..i] == rs[..i];
  }

  /** The loop of `review`: every result lands in exactly one of findings,
      warnings and passes, each kept in order. */
  method Partition(rs: seq<CheckResult>) returns (findings: seq<CheckResult>, warnings: seq<CheckResult>, passed: seq<CheckResult>)
    ensures findings == WithVerdict(rs, Fail)
    ensures warnings == WithVerdict(rs, Warning)
    ensures passed == WithVerdict(rs, Pass)
    ensures |findings| + |warnings| + |passed| == |rs|
  {
    findings, warnings, passed := [], [], [];
    for i := 0 to |rs|
      invariant findings == WithVerdict(rs[..i], Fail)
      invariant warnings == WithVerdict(rs[..i], Warning)
      invariant passed == WithVerdict(rs[..i], Pass)
    {
      PrefixVerdicts(rs, i);
      var result := rs[i];
      if result.status == Fail {
        findings := findings + [result];
      } else if result.status == Warning {
        warnings := warnings + [result];
      } else {
        passed := passed + [result];
      }
    }
    assert rs[..|rs|] == rs;
    VerdictsSplitResults(rs);
  }

  /** `review`: every checklist item lands in exactly one of findings,
      warnings and passes. */
  method Review(code: string) returns (report: Report)
    ensures report.findings == WithVerdict(Results(code), Fail)
    ensures report.warnings == WithVerdict(Results(code), Warning)
    ensures report.summary.totalChecks == |Checklist| == 8
    ensures report.summary.passed + report.summary.warnings + report.summary.findings == report.summary.totalChecks
    ensures report.summary.findings == |report.findings| && report.summary.warnings == |report.warnings|
    ensures report.summary.criticalIssues == |WithSeverity(report.findings, Critical)|
    ensures report.summary.highIssues == |WithSeverity(report.findings, High)|
    ensures report.summary.criticalIssues + report.summary.highIssues <= report.summary.findings
    ensures report.status == OverallStatus(report.findings)
    ensures report.recommendations == Recommendations(report.findings)
  {
    var results := Results(code);
    var findings, warnings, passed := Partition(results);
    var critical := |WithSeverity(findings, Critical)|;
    var high := |WithSeverity(findings, High)|;
    TwoSeveritiesAtMostAll(findings, Critical, High);
    report := Report(OverallStatus(findings), "security-review",
      Summary(|Checklist|, |passed|, |warnings|, |findings|, critical, high),
      findings, warnings, Recommendations(findings));
  }

  /** SEC-004 is the fourth checklist item, the only one with that id, and
      it is critical. */
  lemma PasswordCheckIsCritical()
    ensures Checklist[3].id == "SEC-004"
    ensures forall i :: 0 <= i < |Checklist| && Checklist[i].id == "SEC-004" ==> Checklist[i].severity == Critical
  {
  }

  /** Only the password check can fail, and it fails exactly on plain
      passwords; such a finding is critical. */
  lemma OnlyPasswordCheckFails(code: string)
    ensures forall f :: f in WithVerdict(Results(code), Fail) ==> f.id == "SEC-004" && f.severity == Critical
    ensures WithVerdict(Results(code), Fail) != [] <==> PlainPassword(code)
  {
    var rs := Results(code);
    PasswordCheckIsCritical();
    forall f | f in WithVerdict(rs, Fail)
      ensures f.id == "SEC-004" && f.severity == Critical
    {
      var i :| 0 <= i < |rs| && rs[i] == f;
      assert rs[i] == CheckItemResult(code, Checklist[i]);
    }
    if WithVerdict(rs, Fail) != [] {
      var f := WithVerdict(rs, Fail)[0];
      assert f in WithVerdict(rs, Fail);
      var i :| 0 <= i < |rs| && rs[i] == f;
      assert rs[i] == CheckItemResult(code, Checklist[i]);
    }
    if PlainPassword(code) {
      assert rs[3] == CheckItemResult(code, Checklist[3]);
      assert rs[3] in rs;
    }
  }

  /** Findings that are all the critical SEC-004 never give a "warning",
      give "fail" exactly when there are any, and draw only the password
      advice. */
  lemma PasswordFindingsOnly(findings: seq<CheckResult>)
    requires forall f :: f in findings ==> f.id == "SEC-004" && f.severity == Critical
    ensures OverallStatus(findings) != OverallWarning
    ensures OverallStatus(findings) == OverallFail <==> findings != []
    ensures Recommendations(findings) == if findings != [] then [HashPasswords] else [NoMajorIssues]
  {
    if findings != [] {
      assert findings[0] in findings;
    }
    assert !HasFinding(findings, "SEC-001") && !HasFinding(findings, "SEC-005") by {
      forall k | 0 <= k < |findings| ensures findings[k].id == "SEC-004" {
        assert findings[k] in findings;
      }
    }
  }

  /** Hence the overall status is never "warning", and the only advice ever
      given is about passwords or that nothing major was found. */
  lemma ReviewNeverWarnsAndAdvisesOnlyOnPasswords(code: string)
    ensures var findings := WithVerdict(Results(code), Fail);
      && OverallStatus(findings) != OverallWarning
      && (OverallStatus(findings) == OverallFail <==> PlainPassword(code))
      && Recommendations(findings) == if PlainPassword(code) then [HashPasswords] else [NoMajorIssues]
  {
    OnlyPasswordCheckFails(code);
    PasswordFindingsOnly(WithVerdict(Results(code), Fail));
  }
}
