/** Reducing a report to the verdict that is recorded. */
module Summary {
  import opened Wrappers
  import opened Reports

  function Rank(verdict: string): nat {
    if verdict == "WA" then 1 else if verdict == "RE" then 2 else if verdict == "OLE" then 3
    else if verdict == "MLE" then 4 else if verdict == "TLE" then 5 else if verdict == "CE" then 6
    else if verdict == "SE" then 7 else 0
  }

  /** The first verdict of greatest rank. */
  function WorstVerdict(verdicts: seq<string>): (w: string)
    ensures verdicts == [] ==> w == "SE"
    ensures verdicts != [] ==> w in verdicts && forall v :: v in verdicts ==> Rank(v) <= Rank(w)
    decreases |verdicts|
  {
    if verdicts == [] then "SE"
    else if |verdicts| == 1 then verdicts[0]
    else
      var front, last := WorstVerdict(verdicts[..|verdicts| - 1]), verdicts[|verdicts| - 1];
      assert forall v :: v in verdicts ==> v in verdicts[..|verdicts| - 1] || v == last;
      if Rank(last) > Rank(front) then last else front
  }

  datatype Kind = Io | Behavior | Symbolic

  datatype TestCase = TestCase(kind: Kind, no: nat, verdict: string, part: string)

  datatype PartSummary = PartSummary(verdict: Option<string>, passed: nat, total: nat)

  datatype ProjectInfo = ProjectInfo(
    parts: map<string, PartSummary>,
    integration: Option<string>,
    attributed: map<string, seq<string>>,
    unattributed: seq<string>,
    failingParts: set<string>,
    projectFailure: bool)

  datatype Summary = Summary(
    verdict: string,
    passed: nat,
    total: nat,
    testcases: seq<TestCase>,
    error: string,
    project: Option<ProjectInfo>)

  function Plain(verdict: string, error: string): Summary { Summary(verdict, 0, 0, [], error, None) }

  function Passed(cases: seq<TestCase>): nat
    decreases |cases|
  {
    if cases == [] then 0
    else Passed(cases[..|cases| - 1]) + (if cases[|cases| - 1].verdict == "AC" then 1 else 0)
  }

  // ---- the three checks -------------------------------------------------

  function Cases<C>(s: Section<C>): seq<C> { if s.Section? then s.cases else [] }

  function ManualCases(words: seq<string>): seq<TestCase> {
    seq(|words|, i requires 0 <= i < |words| =>
      TestCase(Io, i + 1, if words[i] == "" then "SE" else words[i], ""))
  }

  function Spoken(words: seq<string>): seq<string>
    decreases |words|
  {
    if words == [] then []
    else
      var last := words[|words| - 1];
      Spoken(words[..|words| - 1]) + (if last == "" then [] else [last])
  }

  function Flagged(kind: Kind, flags: seq<bool>, good: bool, offset: nat): seq<TestCase> {
    seq(|flags|, i requires 0 <= i < |flags| =>
      TestCase(kind, offset + i + 1, if flags[i] == good then "AC" else "WA", ""))
  }

  function VerdictsOf(cases: seq<TestCase>): seq<string> {
    seq(|cases|, i requires 0 <= i < |cases| => cases[i].verdict)
  }

  method CollectManual(words: seq<string>) returns (cases: seq<TestCase>, verdicts: seq<string>)
    ensures cases == ManualCases(words) && verdicts == Spoken(words)
  {
    cases, verdicts := [], [];
    for i := 0 to |words|
      invariant cases == ManualCases(words)[..i] && verdicts == Spoken(words[..i])
    {
      assert words[..i + 1][..i] == words[..i];
      if words[i] != "" {
        verdicts := verdicts + [words[i]];
      }
      cases := cases + [TestCase(Io, i + 1, if words[i] == "" then "SE" else words[i], "")];
    }
    assert words[..|words|] == words;
  }

  method CollectFlagged(kind: Kind, flags: seq<bool>, good: bool, offset: nat)
    returns (cases: seq<TestCase>, verdicts: seq<string>)
    ensures cases == Flagged(kind, flags, good, offset) && verdicts == VerdictsOf(cases)
  {
    cases, verdicts := [], [];
    for i := 0 to |flags|
      invariant cases == Flagged(kind, flags, good, offset)[..i] && verdicts == VerdictsOf(cases)
    {
      var verdict := if flags[i] == good then "AC" else "WA";
      verdicts := verdicts + [verdict];
      cases := cases + [TestCase(kind, offset + i + 1, verdict, "")];
    }
  }

  function CustomSummary(words: seq<string>): Summary {
    var cases := seq(|words|, i requires 0 <= i < |words| => TestCase(Io, i + 1, words[i], ""));
    Summary(if Spoken(words) == [] then "AC" else WorstVerdict(Spoken(words)),
            Passed(cases), |Spoken(words)|, cases, "", None)
  }

  function TestsSummary(t: Tests, overallPass: bool): Summary {
    var manual := ManualCases(Cases(t.manual));
    var behavior := Flagged(Behavior, Cases(t.behavior), false, |manual|);
    var symbolic := Flagged(Symbolic, Cases(t.symbolic), true, |manual| + |behavior|);
    var cases := manual + behavior + symbolic;
    var verdicts := Spoken(Cases(t.manual)) + VerdictsOf(behavior) + VerdictsOf(symbolic);
    var verdict :=
      if AnySectionErrored(t) then "RE"
      else if verdicts != [] then WorstVerdict(verdicts)
      else if overallPass then "AC" else "SE";
    Summary(verdict, Passed(cases), |cases|, cases, "", None)
  }

  const NO_TESTS := Tests(Absent, Absent, Absent, [])

  // ---- integration ------------------------------------------------------

  function IntegrationVerdict(i: Integration): Option<string> {
    if i.status in {"", "SKIPPED"} then None
    else if i.status == "PASS" then Some("AC")
    else if i.status == "FAIL" then Some("WA")
    else if LinkRejected(i) || CompileFailures(i) != {} then Some("CE")
    else if SuiteCrashed(i) then Some("RE")
    else Some("SE")
  }

  /** The declared parts a failing integration case names. */
  function Owners(c: IntegrationCase, declared: set<string>): set<string> {
    set x | x in c.parts && x in declared
  }

  function Blame(attributed: map<string, seq<string>>, part: string, what: string): map<string, seq<string>> {
    attributed[part := (if part in attributed then attributed[part] else []) + [what]]
  }

  /** Pin one name on each owner the case lists, in the order it lists them. */
  function BlameAll(attributed: map<string, seq<string>>, owners: seq<string>, declared: set<string>, what: string)
    : map<string, seq<string>>
    decreases |owners|
  {
    if owners == [] then attributed
    else
      var front := BlameAll(attributed, owners[..|owners| - 1], declared, what);
      var last := owners[|owners| - 1];
      if last in declared then Blame(front, last, what) else front
  }

  datatype Attribution = Attribution(attributed: map<string, seq<string>>, unattributed: seq<string>)

  function Attribute(cases: seq<IntegrationCase>, declared: set<string>): Attribution
    decreases |cases|
  {
    if cases == [] then Attribution(map[], [])
    else
      var front, c := Attribute(cases[..|cases| - 1], declared), cases[|cases| - 1];
      if !c.failed then front
      else Attribution(BlameAll(front.attributed, c.parts, declared, c.name),
                       front.unattributed + if Owners(c, declared) == {} then [c.name] else [])
  }

  // ---- projects ---------------------------------------------------------

  datatype Folded = Folded(parts: map<string, PartSummary>, testcases: seq<TestCase>, verdicts: seq<string>)

  /** One part's cases, tagged with its label and numbered on from `offset`. */
  function Tagged(cases: seq<TestCase>, part: string, offset: nat): seq<TestCase> {
    seq(|cases|, i requires 0 <= i < |cases| => cases[i].(part := part, no := offset + i + 1))
  }

  function AddEntry(f: Folded, part: string, summary: Option<Summary>): Folded {
    if summary.None? then f.(parts := f.parts[part := PartSummary(None, 0, 0)])
    else
      var s := summary.value;
      Folded(f.parts[part := PartSummary(Some(s.verdict), s.passed, s.total)],
             f.testcases + Tagged(s.testcases, part, |f.testcases|),
             f.verdicts + [s.verdict])
  }

  /** The first n entries of a project, folded in report order. */
  function FoldEntries(p: Project, n: nat): Folded
    requires n <= |p.entries|
    decreases p, 0, n
  {
    if n == 0 then Folded(map[], [], [])
    else
      var front, e := FoldEntries(p, n - 1), p.entries[n - 1];
      if !WellFormedLabel(e.part) then front
      else AddEntry(front, e.part, if e.report.None? then None else Some(SummaryOf(e.report.value)))
  }

  function ProjectSummary(p: Project): Summary
    decreases p, 1
  {
    ProjectFrom(p, FoldEntries(p, |p.entries|))
  }

  /** What is recorded once the entries have been folded. */
  function ProjectFrom(p: Project, f: Folded): Summary {
    var integration := IntegrationVerdict(p.integration);
    var a := Attribute(p.integration.cases, f.parts.Keys);
    var attributed := BlameBuilds(a.attributed, f.parts.Keys * CompileFailures(p.integration));
    var verdicts := f.verdicts + if integration.Some? then [integration.value] else [];
    var failing := FailingParts(f.parts, attributed.Keys);
    Summary(
      if verdicts == [] then "SE" else WorstVerdict(verdicts),
      Passed(f.testcases), |f.testcases|, f.testcases, "",
      Some(ProjectInfo(f.parts, integration, attributed, a.unattributed, failing,
                       integration !in {None, Some("AC")} && attributed == map[] && failing == {})))
  }

  function FailingParts(parts: map<string, PartSummary>, blamed: set<string>): set<string> {
    (set l | l in parts && parts[l].verdict !in {None, Some("AC")}) + blamed
  }

  function BlameBuilds(attributed: map<string, seq<string>>, labels: set<string>): map<string, seq<string>> {
    map l | l in attributed.Keys + labels ::
      (if l in attributed then attributed[l] else []) + (if l in labels then ["integration build"] else [])
  }

  /** `summarise` on a report that is there. */
  function SummaryOf(r: Report): Summary
    decreases r
  {
    if r.project.Some? then ProjectSummary(r.project.value)
    else if r.benchStatus.Some? then
      Plain(if r.benchStatus.value == "OK" then "AC" else if r.benchStatus.value == "NOISY" then "SE" else "WA", "")
    else if SubmissionFailedToCompile(r) then Plain("CE", "")
    else if r.tests.None? && r.customCases.Some? then CustomSummary(r.customCases.value)
    else TestsSummary(if r.tests.Some? then r.tests.value else NO_TESTS, r.overallPass)
  }

  function Summarise(report: Option<Report>, error: string, killedBy: Option<int>): Summary {
    if killedBy.Some? then Summary("RE", 0, 1, [TestCase(Io, 1, "RE", "")], "", None)
    else if report.None? then Plain("SE", if error == "" then "no report produced" else error)
    else if report.value.project.None? && report.value.benchStatus.Some? then
      SummaryOf(report.value).(error := error)
    else SummaryOf(report.value)
  }
}
