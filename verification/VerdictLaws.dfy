/** What the recorded verdict guarantees. */
module VerdictLaws {
  import opened Wrappers
  import opened Reports
  import opened Executor
  import opened Summary

  // ---- counting ---------------------------------------------------------

  predicate WellNumbered(cases: seq<TestCase>) { forall k :: 0 <= k < |cases| ==> cases[k].no == k + 1 }

  lemma {:induction false} PassedAppend(a: seq<TestCase>, b: seq<TestCase>)
    ensures Passed(a + b) == Passed(a) + Passed(b)
    decreases |b|
  {
    if b == [] {
      assert a + b == a;
    } else {
      PassedAppend(a, b[..|b| - 1]);
      assert (a + b)[..|a + b| - 1] == a + b[..|b| - 1];
    }
  }

  lemma {:induction false} PassedTagged(cases: seq<TestCase>, part: string, offset: nat)
    ensures Passed(Tagged(cases, part, offset)) == Passed(cases)
    decreases |cases|
  {
    if cases != [] {
      var front := cases[..|cases| - 1];
      PassedTagged(front, part, offset);
      assert Tagged(cases, part, offset)[..|cases| - 1] == Tagged(front, part, offset);
    }
  }

  /** However deeply projects nest, the cases recorded are numbered 1, 2, ..., n and
      `passed` is the number of them that were accepted. */
  lemma {:induction false} SummaryIsWellCounted(r: Report)
    ensures var s := SummaryOf(r); WellNumbered(s.testcases) && s.passed == Passed(s.testcases)
    decreases r
  {
    if r.project.Some? {
      FoldIsWellNumbered(r.project.value, |r.project.value.entries|);
    } else if r.benchStatus.None? && !SubmissionFailedToCompile(r) {
      if r.tests.None? && r.customCases.Some? {
        CustomIsWellCounted(r.customCases.value);
      } else {
        TestsAreWellCounted(if r.tests.Some? then r.tests.value else NO_TESTS, r.overallPass);
      }
    }
  }

  lemma CustomIsWellCounted(words: seq<string>)
    ensures var s := CustomSummary(words); WellNumbered(s.testcases) && s.passed == Passed(s.testcases)
  {
  }

  lemma TestsAreWellCounted(t: Tests, overallPass: bool)
    ensures var s := TestsSummary(t, overallPass); WellNumbered(s.testcases) && s.passed == Passed(s.testcases)
  {
  }

  lemma {:induction false} FoldIsWellNumbered(p: Project, n: nat)
    requires n <= |p.entries|
    ensures WellNumbered(FoldEntries(p, n).testcases)
    decreases p, n
  {
    if n > 0 {
      FoldIsWellNumbered(p, n - 1);
    }
  }

  // ---- the project verdict is a join ------------------------------------

  predicate Judged(e: Entry) { WellFormedLabel(e.part) && e.report.Some? }

  lemma {:induction false} FoldVerdicts(p: Project, n: nat)
    requires n <= |p.entries|
    ensures forall i :: 0 <= i < n && Judged(p.entries[i]) ==>
              SummaryOf(p.entries[i].report.value).verdict in FoldEntries(p, n).verdicts
    ensures forall v :: v in FoldEntries(p, n).verdicts ==>
              exists i :: 0 <= i < n && Judged(p.entries[i]) && v == SummaryOf(p.entries[i].report.value).verdict
    decreases n
  {
    if n > 0 {
      FoldVerdicts(p, n - 1);
    }
  }

  /** What the project verdict joins: the verdicts of the judged parts and of the
      integration check, if it ran. */
  ghost predicate Contributes(p: Project, v: string) {
    || (exists i :: 0 <= i < |p.entries| && Judged(p.entries[i])
          && v == SummaryOf(p.entries[i].report.value).verdict)
    || IntegrationVerdict(p.integration) == Some(v)
  }

  /** The project verdict is the worst of them, and SE when there is none. */
  lemma ProjectVerdictIsJoin(p: Project)
    ensures var w := ProjectSummary(p).verdict;
            if exists v :: Contributes(p, v)
            then Contributes(p, w) && forall v :: Contributes(p, v) ==> Rank(v) <= Rank(w)
            else w == "SE"
  {
    FoldVerdicts(p, |p.entries|);
    var integration := IntegrationVerdict(p.integration);
    var verdicts := FoldEntries(p, |p.entries|).verdicts + if integration.Some? then [integration.value] else [];
    assert forall v :: Contributes(p, v) <==> v in verdicts;
    if verdicts != [] {
      assert Contributes(p, verdicts[0]);
    }
  }

  function PassedOver(entries: seq<Entry>): nat
    decreases |entries|
  {
    if entries == [] then 0
    else
      var e := entries[|entries| - 1];
      PassedOver(entries[..|entries| - 1]) + (if Judged(e) then SummaryOf(e.report.value).passed else 0)
  }

  /** No judged case is dropped or counted twice on the way up. */
  lemma {:induction false} FoldPassed(p: Project, n: nat)
    requires n <= |p.entries|
    ensures Passed(FoldEntries(p, n).testcases) == PassedOver(p.entries[..n])
    decreases n
  {
    if n > 0 {
      FoldPassed(p, n - 1);
      assert p.entries[..n][..n - 1] == p.entries[..n - 1];
      var e := p.entries[n - 1];
      if Judged(e) {
        var front, s := FoldEntries(p, n - 1), SummaryOf(e.report.value);
        SummaryIsWellCounted(e.report.value);
        PassedTagged(s.testcases, e.part, |front.testcases|);
        PassedAppend(front.testcases, Tagged(s.testcases, e.part, |front.testcases|));
      }
    }
  }

  lemma ProjectPassedIsSum(p: Project)
    ensures ProjectSummary(p).passed == PassedOver(p.entries)
  {
    FoldPassed(p, |p.entries|);
    assert p.entries[..|p.entries|] == p.entries;
  }

  // ---- attribution ------------------------------------------------------

  predicate Blamed(attributed: map<string, seq<string>>, part: string, what: string) {
    part in attributed && what in attributed[part]
  }

  lemma {:induction false} BlameAllExact(m: map<string, seq<string>>, owners: seq<string>, declared: set<string>,
                                         what: string, part: string, x: string)
    ensures Blamed(BlameAll(m, owners, declared, what), part, x)
        <==> Blamed(m, part, x) || (x == what && part in owners && part in declared)
    decreases |owners|
  {
    if owners != [] {
      BlameAllExact(m, owners[..|owners| - 1], declared, what, part, x);
      assert part in owners <==> part in owners[..|owners| - 1] || part == owners[|owners| - 1];
    }
  }

  lemma {:induction false} BlameAllKeys(m: map<string, seq<string>>, owners: seq<string>, declared: set<string>,
                                        what: string)
    ensures BlameAll(m, owners, declared, what).Keys == m.Keys + (set o | o in owners && o in declared)
    decreases |owners|
  {
    if owners != [] {
      BlameAllKeys(m, owners[..|owners| - 1], declared, what);
      assert forall o :: o in owners <==> o in owners[..|owners| - 1] || o == owners[|owners| - 1];
    }
  }

  ghost predicate Pinned(cases: seq<IntegrationCase>, declared: set<string>, part: string, what: string) {
    exists k :: 0 <= k < |cases| && cases[k].failed && cases[k].name == what
      && part in cases[k].parts && part in declared
  }

  ghost predicate Orphaned(cases: seq<IntegrationCase>, declared: set<string>, what: string) {
    exists k :: 0 <= k < |cases| && cases[k].failed && cases[k].name == what && Owners(cases[k], declared) == {}
  }

  /** Attribution is complete and honest: a case is pinned on a part exactly when
      it failed and names that declared part, and left to the project exactly when
      it failed and names none. */
  lemma {:induction false} AttributionIsExact(cases: seq<IntegrationCase>, declared: set<string>, part: string,
                                              what: string)
    ensures Blamed(Attribute(cases, declared).attributed, part, what) <==> Pinned(cases, declared, part, what)
    ensures what in Attribute(cases, declared).unattributed <==> Orphaned(cases, declared, what)
    ensures Attribute(cases, declared).attributed.Keys <= declared
    decreases |cases|
  {
    if cases != [] {
      var n := |cases| - 1;
      var front := Attribute(cases[..n], declared);
      AttributionIsExact(cases[..n], declared, part, what);
      BlameAllExact(front.attributed, cases[n].parts, declared, cases[n].name, part, what);
      BlameAllKeys(front.attributed, cases[n].parts, declared, cases[n].name);
      PinnedOneMore(cases, declared, part, what);
    }
  }

  lemma PinnedOneMore(cases: seq<IntegrationCase>, declared: set<string>, part: string, what: string)
    requires cases != []
    ensures var n := |cases| - 1; var c := cases[n];
            && (Pinned(cases, declared, part, what) <==>
                  Pinned(cases[..n], declared, part, what)
                  || (c.failed && c.name == what && part in c.parts && part in declared))
            && (Orphaned(cases, declared, what) <==>
                  Orphaned(cases[..n], declared, what) || (c.failed && c.name == what && Owners(c, declared) == {}))
  {
    var n := |cases| - 1;
    if Pinned(cases[..n], declared, part, what) {
      var k :| 0 <= k < n && cases[..n][k].failed && cases[..n][k].name == what
        && part in cases[..n][k].parts && part in declared;
      assert cases[k] == cases[..n][k];
    }
    if Pinned(cases, declared, part, what) {
      var k :| 0 <= k < |cases| && cases[k].failed && cases[k].name == what
        && part in cases[k].parts && part in declared;
      if k < n { assert cases[k] == cases[..n][k]; }
    }
    if Orphaned(cases[..n], declared, what) {
      var k :| 0 <= k < n && cases[..n][k].failed && cases[..n][k].name == what
        && Owners(cases[..n][k], declared) == {};
      assert cases[k] == cases[..n][k];
    }
    if Orphaned(cases, declared, what) {
      var k :| 0 <= k < |cases| && cases[k].failed && cases[k].name == what && Owners(cases[k], declared) == {};
      if k < n { assert cases[k] == cases[..n][k]; }
    }
  }

  /** Every failing integration case is left to the project or pinned on a part the
      report declares. */
  lemma ProjectBlameIsComplete(p: Project, k: nat)
    requires k < |p.integration.cases| && p.integration.cases[k].failed
    ensures var info := ProjectSummary(p).project.value;
            var what := p.integration.cases[k].name;
            what in info.unattributed || exists part :: part in info.parts && Blamed(info.attributed, part, what)
  {
    var declared := FoldEntries(p, |p.entries|).parts.Keys;
    var what := p.integration.cases[k].name;
    if Owners(p.integration.cases[k], declared) == {} {
      AttributionIsExact(p.integration.cases, declared, "", what);
      assert Orphaned(p.integration.cases, declared, what);
    } else {
      var part :| part in Owners(p.integration.cases[k], declared);
      AttributionIsExact(p.integration.cases, declared, part, what);
      assert Pinned(p.integration.cases, declared, part, what);
      BuildsKeepBlame(Attribute(p.integration.cases, declared).attributed,
                      declared * CompileFailures(p.integration), part, what);
    }
  }

  lemma BuildsKeepBlame(attributed: map<string, seq<string>>, labels: set<string>, part: string, what: string)
    requires Blamed(attributed, part, what)
    ensures Blamed(BlameBuilds(attributed, labels), part, what)
  {
  }

  /** The project as a whole is failed only when its integration failed and no part
      at all is blamed: not by a verdict, a pinned case or a broken build. */
  lemma ProjectFailureBlamesNobody(p: Project)
    requires ProjectSummary(p).project.value.projectFailure
    ensures var info := ProjectSummary(p).project.value;
            && info.integration !in {None, Some("AC")}
            && info.attributed == map[] && info.failingParts == {}
            && (forall part :: part in info.parts ==> info.parts[part].verdict in {None, Some("AC")})
            && info.parts.Keys * CompileFailures(p.integration) == {}
            && (forall part, what :: !Pinned(p.integration.cases, info.parts.Keys, part, what))
  {
    var info := ProjectSummary(p).project.value;
    var cases, declared := p.integration.cases, info.parts.Keys;
    var a := Attribute(cases, declared);
    assert info.attributed.Keys == a.attributed.Keys + declared * CompileFailures(p.integration);
    forall part, what
      ensures !Pinned(cases, declared, part, what)
    {
      AttributionIsExact(cases, declared, part, what);
    }
    forall part | part in info.parts
      ensures info.parts[part].verdict in {None, Some("AC")}
    {
      assert part !in FailingParts(info.parts, info.attributed.Keys);
    }
  }

  // ---- whose fault a verdict says it is ---------------------------------

  datatype Fault = Judging | Submitter(verdict: string) | Machine

  /** An ordinary judge report: neither a project's nor a benchmark's. */
  predicate OrdinaryReport(r: Report) { r.project.None? && r.benchStatus.None? }

  predicate Ordinary(ran: Ran) { ran.Exited? && ran.report.Some? ==> OrdinaryReport(ran.report.value) }

  /** The engine was killed by a signal that submissions bring about. */
  predicate Signalled(ran: Ran) { ran.Exited? && -ran.code in SUBMISSION_SIGNALS }

  /** Such a run is recorded as RE at once, whatever its report holds and whether the job is a
      problem or a project. */
  lemma SignalsAreRuntimeErrors(isProject: bool, ran: Ran, attempt: nat, cap: nat)
    requires Signalled(ran)
    ensures var o := GiveUp(Interpret(isProject, ran), attempt, cap);
            o.status == Failed && o == Interpret(isProject, ran) && Recorded(o).verdict == "RE"
  {
  }

  /** Who is to blame for a run, read off the exit code and the compile steps alone. */
  ghost function FaultOf(ran: Ran): Fault {
    match ran
    case NotStarted => Machine
    case Unprepared(_) => Machine
    case Exited(code, report) =>
      if code < 0 then if -code in SUBMISSION_SIGNALS then Submitter("RE") else Machine
      else if code <= 1 then if report.Some? then Judging else Machine
      else if report.None? then Machine
      else if SubmissionFailedToCompile(report.value) then Submitter("CE")
      else if SubmissionCrashed(report.value) then Submitter("RE")
      else Machine
  }

  function Recorded(o: Outcome): Summary { Summarise(o.report, o.error, o.killedBy) }

  /** An outcome that asks to be tried again, whatever kind of job it is of, is retried or
      recorded as SE without its report: it is never charged to the submitter. */
  lemma RetryableIsNeverCharged(o: Outcome, attempt: nat, cap: nat)
    requires o.status == Retryable && o.killedBy.None?
    ensures var g := GiveUp(o, attempt, cap);
            if attempt < cap then g == o else g.status == Failed && g.report.None? && Recorded(g).verdict == "SE"
  {
  }

  /** A machine's fault is never charged to the submitter, and a submitter's fault
      is never mistaken for the machine's: whatever the delivery and whatever the report
      holds, a run that blames the machine is either retried or recorded as SE, one that
      blames the submission ends at once, with exactly that verdict when its report is an
      ordinary one or a signal says it already, and an outcome is retried only if the
      machine is to blame and a delivery is left. */
  lemma FaultsAreNotConfused(ran: Ran, attempt: nat, cap: nat)
    ensures var o := GiveUp(Interpret(false, ran), attempt, cap);
            match FaultOf(ran)
            case Machine => o.status == Retryable || (o.status == Failed && Recorded(o).verdict == "SE")
            case Submitter(v) => o.status == Failed && (Ordinary(ran) || Signalled(ran) ==> Recorded(o).verdict == v)
            case Judging => o.status == Succeeded
    ensures var o := GiveUp(Interpret(false, ran), attempt, cap);
            o.status == Retryable ==> FaultOf(ran) == Machine && attempt < cap
  {
    if ran.Exited? && ran.report.Some? && OrdinaryReport(ran.report.value) && SubmissionCrashed(ran.report.value) {
      CrashIsRuntimeError(ran.report.value);
    }
  }

  lemma CrashIsRuntimeError(r: Report)
    requires SubmissionCrashed(r) && OrdinaryReport(r)
    ensures !SubmissionFailedToCompile(r) && SummaryOf(r).verdict == "RE"
  {
  }

  // ---- project faults ---------------------------------------------------

  /** Some judged part's own verdict is at least as bad as RE. */
  ghost predicate BadPart(p: Project) {
    exists i :: 0 <= i < |p.entries| && Judged(p.entries[i])
                && Rank(SummaryOf(p.entries[i].report.value).verdict) >= Rank("RE")
  }

  /** The integration check neither passed, failed nor stayed away: it went wrong. */
  predicate WentWrong(i: Integration) { i.status !in {"", "SKIPPED", "PASS", "FAIL"} }

  /** Nothing was judged at all. */
  ghost predicate NothingJudged(p: Project) {
    (forall e :: e in p.entries ==> !Judged(e)) && p.integration.status in {"", "SKIPPED"}
  }

  /** The executor blames the submitters for this part: it would not compile, or crashed. */
  predicate PartBlamed(r: Report) { SubmissionFailedToCompile(r) || SubmissionCrashed(r) }

  /** A part is blamed on an ordinary judge report. */
  ghost predicate FaultyPart(p: Project) {
    exists part :: part in PartReports(p.entries) && PartBlamed(PartReports(p.entries)[part])
                   && OrdinaryReport(PartReports(p.entries)[part])
  }

  /** A part is blamed on a report with a project's or a benchmark's sections, which the
      summary reads instead of the compile steps and the tests. */
  ghost predicate OddlyShapedPart(p: Project) {
    exists part :: part in PartReports(p.entries) && PartBlamed(PartReports(p.entries)[part])
                   && !OrdinaryReport(PartReports(p.entries)[part])
  }

  /** When a project is recorded with a verdict at least as bad as RE.  A part blamed on an
      ordinary report and a crashed suite always see to it. */
  lemma ProjectFaultIsRecorded(p: Project)
    ensures Rank(ProjectSummary(p).verdict) >= Rank("RE") <==> BadPart(p) || WentWrong(p.integration) || NothingJudged(p)
    ensures FaultyPart(p) ==> BadPart(p)
    ensures SuiteCrashed(p.integration) ==> WentWrong(p.integration)
  {
    if FaultyPart(p) {
      var part :| part in PartReports(p.entries) && PartBlamed(PartReports(p.entries)[part])
                  && OrdinaryReport(PartReports(p.entries)[part]);
      var i := PartReportIsAnEntry(p.entries, part);
      var v := FaultyPartVerdict(p.entries[i].report.value);
      assert BadPart(p);
    }
    RecordedAsBad(p);
  }

  /** A run the executor ends as the submitters' fault, recorded as less than RE.  That is so
      exactly when no part's verdict is as bad, the integration check passed, failed or stayed
      away, and something was judged; and then the fault was a rejected link, or a part
      blamed on a report of another shape than the one its verdict is read from. */
  lemma BlamedAndRecordedAsLess(p: Project)
    requires ProjectFault(p)
    ensures Rank(ProjectSummary(p).verdict) < Rank("RE")
            <==> !BadPart(p) && !WentWrong(p.integration) && !NothingJudged(p)
    ensures Rank(ProjectSummary(p).verdict) < Rank("RE") ==> LinkRejected(p.integration) || OddlyShapedPart(p)
  {
    ProjectFaultIsRecorded(p);
    hide ProjectSummary, BadPart, WentWrong, NothingJudged, SuiteCrashed, LinkRejected;
    if part :| part in PartReports(p.entries) && PartBlamed(PartReports(p.entries)[part]) {
      assert OrdinaryReport(PartReports(p.entries)[part]) ==> FaultyPart(p);
    }
  }

  lemma RecordedAsBad(p: Project)
    ensures Rank(ProjectSummary(p).verdict) >= Rank("RE") <==> BadPart(p) || WentWrong(p.integration) || NothingJudged(p)
  {
    hide ProjectSummary, SummaryOf;
    ProjectVerdictIsJoin(p);
    if BadPart(p) {
      var i :| 0 <= i < |p.entries| && Judged(p.entries[i])
               && Rank(SummaryOf(p.entries[i].report.value).verdict) >= Rank("RE");
      assert Contributes(p, SummaryOf(p.entries[i].report.value).verdict);
    }
    if WentWrong(p.integration) {
      assert Contributes(p, IntegrationVerdict(p.integration).value);
    }
    if !NothingJudged(p) {
      var v := Contribution(p);
    }
  }

  lemma Contribution(p: Project) returns (v: string)
    requires !NothingJudged(p)
    ensures Contributes(p, v)
  {
    if e :| e in p.entries && Judged(e) {
      var i :| 0 <= i < |p.entries| && p.entries[i] == e;
      v := SummaryOf(p.entries[i].report.value).verdict;
    } else {
      v := IntegrationVerdict(p.integration).value;
    }
  }

  /** The executor ends this run as the submitters' fault, and the summary says WA: the link
      was rejected, and the integration check is reported as failed. */
  lemma ARejectedLinkCanBeWA() returns (p: Project)
    ensures LinkRejected(p.integration) && ProjectFault(p) && ProjectSummary(p).verdict == "WA"
    ensures Interpret(true, Exited(2, Some(Report(None, None, None, false, Some(p), None)))).status == Failed
  {
    p := Project([], Integration("FAIL", [], [], Some(Link(Some(false), Some(1))), false));
    ProjectVerdictIsJoin(p);
    assert Contributes(p, "WA");
  }

  /** The same with nothing wrong but a part that does not compile: its report has a benchmark's
      section too, which says OK, so the summary says AC. */
  lemma ABlamedPartCanBeAC() returns (p: Project)
    ensures ProjectFault(p) && !LinkRejected(p.integration) && !SuiteCrashed(p.integration) && OddlyShapedPart(p)
    ensures ProjectSummary(p).verdict == "AC"
    ensures Interpret(true, Exited(2, Some(Report(None, None, None, false, Some(p), None)))).status == Failed
  {
    var rejected := Some(map["solution" := Step(Some(false), Some(1))]);
    var r := Report(rejected, None, None, false, None, Some("OK"));
    p := Project([Entry("a", Some(r))], Integration("SKIPPED", [], [], None, false));
    assert SubmissionFailedToCompile(r) by {
      assert "solution" in SUBMISSION_STEPS;
    }
    OneEntry(p.entries[0], r);
    ProjectVerdictIsJoin(p);
    assert Contributes(p, "AC");
  }

  lemma OneEntry(e: Entry, r: Report)
    requires WellFormedLabel(e.part) && e.report == Some(r)
    ensures e.part in PartReports([e]) && PartReports([e])[e.part] == r
  {
    assert [e][..0] == [];
  }

  lemma FaultyPartVerdict(r: Report) returns (v: string)
    requires OrdinaryReport(r) && (SubmissionFailedToCompile(r) || SubmissionCrashed(r))
    ensures v == SummaryOf(r).verdict && Rank(v) >= Rank("RE")
  {
    if SubmissionCrashed(r) {
      CrashIsRuntimeError(r);
    }
    v := SummaryOf(r).verdict;
  }

  lemma {:induction false} PartReportIsAnEntry(entries: seq<Entry>, part: string) returns (i: nat)
    requires part in PartReports(entries)
    ensures i < |entries| && Judged(entries[i]) && entries[i].part == part
    ensures entries[i].report.value == PartReports(entries)[part]
    decreases |entries|
  {
    i := |entries| - 1;
    if !(Judged(entries[i]) && entries[i].part == part) {
      i := PartReportIsAnEntry(entries[..i], part);
    }
  }
}
