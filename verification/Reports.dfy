/**
 The engine's report, as far as the worker reads it, and the readers that the
 executor and the verdict summary share.
 */
module Reports {
  import opened Wrappers

  /** One compile step; NotAStep is a value that is not an object. */
  datatype Step = Step(ok: Option<bool>, exitCode: Option<int>) | NotAStep

  /** A check's section of the report: did it error, and its cases. */
  datatype Section<+C> = Absent | Section(error: bool, cases: seq<C>)

  /** `manual` holds verdict words, `behavior` says which cases failed, `symbolic`
      which rules were satisfied, `others` which further sections errored. */
  datatype Tests = Tests(manual: Section<string>, behavior: Section<bool>, symbolic: Section<bool>, others: seq<bool>)

  datatype Report = Report(
    compile: Option<map<string, Step>>,
    tests: Option<Tests>,
    customCases: Option<seq<string>>,
    overallPass: bool,
    project: Option<Project>,
    benchStatus: Option<string>)

  datatype Project = Project(entries: seq<Entry>, integration: Integration)

  datatype Entry = Entry(part: string, report: Option<Report>)

  datatype Link = Link(ok: Option<bool>, exitCode: Option<int>)

  datatype LinkedPart = LinkedPart(part: string, compiled: Option<bool>)

  datatype IntegrationCase = IntegrationCase(failed: bool, name: string, parts: seq<string>)

  datatype Integration = Integration(
    status: string,
    cases: seq<IntegrationCase>,
    parts: seq<LinkedPart>,
    link: Option<Link>,
    diedWithoutReport: bool)

  // ---- labels -----------------------------------------------------------

  predicate IsAlnum(c: char) { 'a' <= c <= 'z' || 'A' <= c <= 'Z' || '0' <= c <= '9' }

  /** A part label: a plain name of 1 to 64 characters. */
  predicate WellFormedLabel(s: string) {
    1 <= |s| <= 64 && IsAlnum(s[0]) && forall k :: 1 <= k < |s| ==> IsAlnum(s[k]) || s[k] in {'_', '-'}
  }

  // ---- whose fault a failed run is --------------------------------------

  const SUBMISSION_STEPS: set<string> := {"solution", "behavior_binary"}

  /** The compiler ran and refused: not the sandbox failing to launch it. */
  predicate Rejected(s: Step) {
    s.Step? && s.ok == Some(false) && s.exitCode.Some? && s.exitCode.value >= 0
  }

  predicate SubmissionFailedToCompile(r: Report) {
    r.compile.Some?
    && exists name :: name in SUBMISSION_STEPS && name in r.compile.value && Rejected(r.compile.value[name])
  }

  predicate AnySectionErrored(t: Tests) {
    (t.manual.Section? && t.manual.error) || (t.behavior.Section? && t.behavior.error)
    || (t.symbolic.Section? && t.symbolic.error) || true in t.others
  }

  predicate SubmissionCrashed(r: Report) {
    && r.compile.Some? && r.compile.value != map[]
    && (forall name :: name in r.compile.value ==>
          r.compile.value[name].Step? && r.compile.value[name].ok == Some(true))
    && r.tests.Some? && AnySectionErrored(r.tests.value)
  }

  // ---- integration ------------------------------------------------------

  predicate LinkRejected(i: Integration) {
    i.link.Some? && i.link.value.ok == Some(false)
    && i.link.value.exitCode.Some? && i.link.value.exitCode.value >= 0
  }

  predicate SuiteCrashed(i: Integration) {
    i.status == "ERROR" && i.link.Some? && i.link.value.ok == Some(true) && i.diedWithoutReport
  }

  /** Labels whose source would not build for the integration binary. */
  function CompileFailures(i: Integration): set<string> {
    set p | p in i.parts && p.compiled == Some(false) && WellFormedLabel(p.part) :: p.part
  }

  /** The loop that collects them. */
  method CollectCompileFailures(i: Integration) returns (out: set<string>)
    ensures out == CompileFailures(i)
  {
    out := {};
    for k := 0 to |i.parts|
      invariant out == set p | p in i.parts[..k] && p.compiled == Some(false) && WellFormedLabel(p.part) :: p.part
    {
      assert i.parts[..k + 1] == i.parts[..k] + [i.parts[k]];
      if i.parts[k].compiled == Some(false) && WellFormedLabel(i.parts[k].part) {
        out := out + {i.parts[k].part};
      }
    }
    assert i.parts[..|i.parts|] == i.parts;
  }

  /** A part's own report, by label; a later entry replaces an earlier one. */
  function PartReports(entries: seq<Entry>): map<string, Report>
    decreases |entries|
  {
    if entries == [] then map[]
    else
      var front := PartReports(entries[..|entries| - 1]);
      var last := entries[|entries| - 1];
      if WellFormedLabel(last.part) && last.report.Some? then front[last.part := last.report.value] else front
  }

  /** Why a project run that could not be judged is the submitters' fault. */
  predicate ProjectFault(p: Project) {
    var reports := PartReports(p.entries);
    || (exists part :: part in reports
          && (SubmissionFailedToCompile(reports[part]) || SubmissionCrashed(reports[part])))
    || LinkRejected(p.integration)
    || SuiteCrashed(p.integration)
  }
}
