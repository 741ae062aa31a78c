/** `summarise` and `_project` as they run: loops growing lists and dictionaries. */
module SummaryLoops {
  import opened Wrappers
  import opened Reports
  import opened Summary

  method SummariseReport(r: Report) returns (s: Summary)
    ensures s == SummaryOf(r)
    decreases r
  {
    if r.project.Some? {
      s := SummariseProject(r.project.value);
    } else if r.benchStatus.Some? || SubmissionFailedToCompile(r) || (r.tests.None? && r.customCases.Some?) {
      s := SummaryOf(r);
    } else {
      s := SummariseTests(if r.tests.Some? then r.tests.value else NO_TESTS, r.overallPass);
    }
  }

  /** The three checks add their cases and verdicts one after the other. */
  method SummariseTests(t: Tests, overallPass: bool) returns (s: Summary)
    ensures s == TestsSummary(t, overallPass)
  {
    var testcases, verdicts := CollectManual(Cases(t.manual));
    var behavior, v1 := CollectFlagged(Behavior, Cases(t.behavior), false, |testcases|);
    testcases, verdicts := testcases + behavior, verdicts + v1;
    var symbolic, v2 := CollectFlagged(Symbolic, Cases(t.symbolic), true, |testcases|);
    testcases, verdicts := testcases + symbolic, verdicts + v2;
    var verdict := "";
    if AnySectionErrored(t) {
      verdict := "RE";
    } else if verdicts != [] {
      verdict := WorstVerdict(verdicts);
    } else {
      verdict := if overallPass then "AC" else "SE";
    }
    s := Summary(verdict, Passed(testcases), |testcases|, testcases, "", None);
  }

  method Renumber(cases: seq<TestCase>, part: string, testcases: seq<TestCase>) returns (out: seq<TestCase>)
    ensures out == testcases + Tagged(cases, part, |testcases|)
  {
    out := testcases;
    for k := 0 to |cases|
      invariant out == testcases + Tagged(cases, part, |testcases|)[..k]
    {
      out := out + [cases[k].(part := part, no := |out| + 1)];
    }
  }

  method PinOwners(attributed: map<string, seq<string>>, c: IntegrationCase, declared: set<string>)
    returns (out: map<string, seq<string>>, owned: bool)
    ensures out == BlameAll(attributed, c.parts, declared, c.name)
    ensures owned == (Owners(c, declared) != {})
  {
    out, owned := attributed, false;
    for k := 0 to |c.parts|
      invariant out == BlameAll(attributed, c.parts[..k], declared, c.name)
      invariant owned <==> exists x :: x in c.parts[..k] && x in declared
    {
      assert c.parts[..k + 1][..k] == c.parts[..k];
      assert c.parts[..k + 1] == c.parts[..k] + [c.parts[k]];
      if c.parts[k] in declared {
        out := Blame(out, c.parts[k], c.name);
        assert c.parts[k] in c.parts[..k + 1];
        owned := true;
      }
    }
    assert c.parts[..|c.parts|] == c.parts;
    if owned {
      var x :| x in c.parts && x in declared;
      assert x in Owners(c, declared);
    }
  }

  method AttributeCases(cases: seq<IntegrationCase>, declared: set<string>) returns (a: Attribution)
    ensures a == Attribute(cases, declared)
  {
    var attributed: map<string, seq<string>>, unattributed: seq<string> := map[], [];
    for k := 0 to |cases|
      invariant Attribution(attributed, unattributed) == Attribute(cases[..k], declared)
    {
      assert cases[..k + 1][..k] == cases[..k];
      var c := cases[k];
      if c.failed {
        var owned;
        attributed, owned := PinOwners(attributed, c, declared);
        if !owned {
          unattributed := unattributed + [c.name];
        }
      }
    }
    assert cases[..|cases|] == cases;
    a := Attribution(attributed, unattributed);
  }

  method SummariseProject(p: Project) returns (s: Summary)
    ensures s == ProjectSummary(p)
    decreases p
  {
    var parts: map<string, PartSummary>, testcases: seq<TestCase>, verdicts: seq<string> := map[], [], [];
    for n := 0 to |p.entries|
      invariant Folded(parts, testcases, verdicts) == FoldEntries(p, n)
    {
      var e := p.entries[n];
      if WellFormedLabel(e.part) {
        if e.report.None? {
          parts := parts[e.part := PartSummary(None, 0, 0)];
        } else {
          var summary := SummariseReport(e.report.value);
          parts := parts[e.part := PartSummary(Some(summary.verdict), summary.passed, summary.total)];
          verdicts := verdicts + [summary.verdict];
          testcases := Renumber(summary.testcases, e.part, testcases);
        }
      }
    }
    ghost var f := Folded(parts, testcases, verdicts);
    var integration := IntegrationVerdict(p.integration);
    var a := AttributeCases(p.integration.cases, parts.Keys);
    var failures := CollectCompileFailures(p.integration);
    var attributed := BlameBuilds(a.attributed, parts.Keys * failures);
    if integration.Some? {
      verdicts := verdicts + [integration.value];
    }
    assert verdicts == f.verdicts + if integration.Some? then [integration.value] else [];
    var failing := FailingParts(parts, attributed.Keys);
    var info := ProjectInfo(parts, integration, attributed, a.unattributed, failing,
                            integration !in {None, Some("AC")} && attributed == map[] && failing == {});
    s := Summary(if verdicts == [] then "SE" else WorstVerdict(verdicts),
                 Passed(testcases), |testcases|, testcases, "", Some(info));
    assert s == ProjectFrom(p, f);
  }
}
