/**
 What the words of a summary say, told by the fields of the report: which case passed, which
 verdict is worse, and when a submission is accepted.
 */
module SummaryLaws {
  import opened Wrappers
  import opened Reports
  import opened Summary
  import opened RunEnds
  import opened VerdictLaws

  // ---- the order of verdicts --------------------------------------------

  /** From best to worst. */
  const VERDICTS: seq<string> := ["AC", "WA", "RE", "OLE", "MLE", "TLE", "CE", "SE"]

  /** Each verdict is worse than the ones before it, and an unknown word counts as AC. */
  lemma VerdictsAreOrdered(i: nat, j: nat, word: string)
    requires i < 8 && j < 8
    ensures Rank(VERDICTS[i]) < Rank(VERDICTS[j]) <==> i < j
    ensures word !in VERDICTS ==> Rank(word) == Rank("AC")
  {
    assert VERDICTS[0] == "AC" && VERDICTS[1] == "WA" && VERDICTS[2] == "RE" && VERDICTS[3] == "OLE";
    assert VERDICTS[4] == "MLE" && VERDICTS[5] == "TLE" && VERDICTS[6] == "CE" && VERDICTS[7] == "SE";
    RankOf(i);
    RankOf(j);
  }

  lemma RankOf(i: nat)
    requires i < 8
    ensures Rank(VERDICTS[i]) == i
  {
  }

  /** Of words equally bad, the first is kept. */
  lemma {:induction false} WorstIsTheFirst(verdicts: seq<string>) returns (i: nat)
    requires verdicts != []
    ensures i < |verdicts| && verdicts[i] == WorstVerdict(verdicts)
    ensures forall j :: 0 <= j < i ==> Rank(verdicts[j]) < Rank(verdicts[i])
    ensures forall j :: 0 <= j < |verdicts| ==> Rank(verdicts[j]) <= Rank(verdicts[i])
    decreases |verdicts|
  {
    hide Rank;
    var n := |verdicts| - 1;
    if n == 0 {
      i := 0;
    } else {
      var front := verdicts[..n];
      i := WorstIsTheFirst(front);
      assert forall j :: 0 <= j < n ==> front[j] == verdicts[j];
      if Rank(verdicts[n]) > Rank(WorstVerdict(front)) {
        i := n;
      }
    }
  }

  // ---- counting ---------------------------------------------------------

  /** `passed` is the number of cases whose word is AC. */
  lemma {:induction false} PassedCounts(cases: seq<TestCase>)
    ensures Passed(cases) == |set k | 0 <= k < |cases| && cases[k].verdict == "AC"|
    decreases |cases|
  {
    if cases != [] {
      var n := |cases| - 1;
      var front := cases[..n];
      PassedCounts(front);
      assert Passed(cases) == Passed(front) + if cases[n].verdict == "AC" then 1 else 0;
      hide Passed;
      var before := set k | 0 <= k < n && front[k].verdict == "AC";
      var all := set k | 0 <= k < |cases| && cases[k].verdict == "AC";
      assert forall k :: 0 <= k < n ==> front[k] == cases[k];
      assert all == before + if cases[n].verdict == "AC" then {n} else {};
    }
  }

  // ---- an ordinary report -----------------------------------------------

  function Words(r: Report): seq<string> {
    match r.tests case Some(t) => (match t.manual case Section(_, cases) => cases case Absent => []) case None => []
  }

  function Failures(r: Report): seq<bool> {
    match r.tests case Some(t) => (match t.behavior case Section(_, cases) => cases case Absent => []) case None => []
  }

  function Satisfied(r: Report): seq<bool> {
    match r.tests case Some(t) => (match t.symbolic case Section(_, cases) => cases case Absent => []) case None => []
  }

  /** The report goes through the three checks. */
  ghost predicate GoesThroughTests(r: Report) {
    r.project.None? && r.benchStatus.None? && !BuildRefused(r) && (r.tests.Some? || r.customCases.None?)
  }

  /** One of the checks broke down. */
  predicate BrokeDown(r: Report) {
    r.tests.Some?
    && var t := r.tests.value;
       || (match t.manual case Section(error, _) => error case Absent => false)
       || (match t.behavior case Section(error, _) => error case Absent => false)
       || (match t.symbolic case Section(error, _) => error case Absent => false)
       || exists k :: 0 <= k < |t.others| && t.others[k]
  }

  lemma GoesThrough(r: Report)
    requires GoesThroughTests(r)
    ensures var t := if r.tests.Some? then r.tests.value else NO_TESTS;
            && SummaryOf(r) == TestsSummary(t, r.overallPass)
            && Cases(t.manual) == Words(r) && Cases(t.behavior) == Failures(r) && Cases(t.symbolic) == Satisfied(r)
            && (AnySectionErrored(t) <==> BrokeDown(r))
  {
    RefusedExactly(r);
    hide SubmissionFailedToCompile, BuildRefused, TestsSummary;
  }

  /** The cases recorded: the manual ones with their own words (or SE), then the behaviour
      ones, accepted unless they failed, then the symbolic ones, accepted if satisfied. */
  predicate LaidOut(cases: seq<TestCase>, words: seq<string>, failures: seq<bool>, satisfied: seq<bool>) {
    var m, b := |words|, |failures|;
    && |cases| == m + b + |satisfied|
    && (forall i :: 0 <= i < m ==> cases[i] == TestCase(Io, i + 1, if words[i] == "" then "SE" else words[i], ""))
    && (forall i :: m <= i < m + b ==> cases[i] == TestCase(Behavior, i + 1, if failures[i - m] then "WA" else "AC", ""))
    && (forall i :: m + b <= i < |cases| ==>
          cases[i] == TestCase(Symbolic, i + 1, if satisfied[i - m - b] then "AC" else "WA", ""))
  }

  lemma TestsLayout(t: Tests, overallPass: bool, s: Summary, words: seq<string>, failures: seq<bool>,
                    satisfied: seq<bool>)
    requires s == TestsSummary(t, overallPass)
    requires words == Cases(t.manual) && failures == Cases(t.behavior) && satisfied == Cases(t.symbolic)
    ensures LaidOut(s.testcases, words, failures, satisfied)
    ensures s.total == |s.testcases| && s.passed == Passed(s.testcases)
  {
    hide WorstVerdict, AnySectionErrored, Passed, Spoken, Cases;
  }

  /** Every case of a report that goes through the checks is recorded, by what happened to it. */
  lemma CasesSayWhatHappened(r: Report)
    requires GoesThroughTests(r)
    ensures var s := SummaryOf(r);
            && LaidOut(s.testcases, Words(r), Failures(r), Satisfied(r)) && s.total == |s.testcases|
            && s.passed == |set k | 0 <= k < |s.testcases| && s.testcases[k].verdict == "AC"|
  {
    var t, s := if r.tests.Some? then r.tests.value else NO_TESTS, SummaryOf(r);
    GoesThrough(r);
    PassedCounts(s.testcases);
    var words, failures, satisfied := Words(r), Failures(r), Satisfied(r);
    hide *;
    TestsLayout(t, r.overallPass, s, words, failures, satisfied);
  }

  /** A word some check judged by. */
  ghost predicate JudgedBy(r: Report, v: string) {
    || (v != "" && v in Words(r))
    || (v == "WA" && (true in Failures(r) || false in Satisfied(r)))
    || (v == "AC" && (false in Failures(r) || true in Satisfied(r)))
  }

  lemma {:induction false} SpokenAre(words: seq<string>, v: string)
    ensures v in Spoken(words) <==> v != "" && v in words
    decreases |words|
  {
    if words != [] {
      var n := |words| - 1;
      SpokenAre(words[..n], v);
      assert v in words <==> v in words[..n] || v == words[n];
    }
  }

  lemma FlaggedAre(kind: Kind, flags: seq<bool>, good: bool, offset: nat, v: string)
    ensures v in VerdictsOf(Flagged(kind, flags, good, offset))
            <==> (v == "AC" && good in flags) || (v == "WA" && !good in flags)
  {
    var vs := VerdictsOf(Flagged(kind, flags, good, offset));
    assert forall i :: 0 <= i < |flags| ==> vs[i] == if flags[i] == good then "AC" else "WA";
    if good in flags {
      var i :| 0 <= i < |flags| && flags[i] == good;
      assert vs[i] == "AC";
    }
    if !good in flags {
      var i :| 0 <= i < |flags| && flags[i] == !good;
      assert vs[i] == "WA";
    }
  }

  /** The words judged by are the ones the verdict is the worst of. */
  lemma JudgedAre(r: Report, t: Tests, v: string)
    requires Cases(t.manual) == Words(r) && Cases(t.behavior) == Failures(r) && Cases(t.symbolic) == Satisfied(r)
    ensures v in Verdicts(t) <==> JudgedBy(r, v)
  {
    var b := Flagged(Behavior, Failures(r), false, |Words(r)|);
    SpokenAre(Words(r), v);
    FlaggedAre(Behavior, Failures(r), false, |Words(r)|, v);
    FlaggedAre(Symbolic, Satisfied(r), true, |Words(r)| + |b|, v);
    assert |ManualCases(Words(r))| == |Words(r)|;
    hide Flagged, Spoken, Words, Failures, Satisfied, Cases, VerdictsOf;
  }

  function Verdicts(t: Tests): seq<string> {
    var manual := ManualCases(Cases(t.manual));
    var behavior := Flagged(Behavior, Cases(t.behavior), false, |manual|);
    var symbolic := Flagged(Symbolic, Cases(t.symbolic), true, |manual| + |behavior|);
    Spoken(Cases(t.manual)) + VerdictsOf(behavior) + VerdictsOf(symbolic)
  }

  lemma TestsVerdict(t: Tests, overallPass: bool)
    ensures TestsSummary(t, overallPass).verdict ==
              if AnySectionErrored(t) then "RE" else if Verdicts(t) != [] then WorstVerdict(Verdicts(t))
              else if overallPass then "AC" else "SE"
  {
    hide AnySectionErrored, WorstVerdict, Flagged, ManualCases, Spoken, VerdictsOf, Cases, Passed;
  }

  /** The verdict of a report that goes through the checks: RE if one broke down; otherwise the
      worst word anything was judged by; and the engine's own word if nothing was. */
  lemma VerdictIsTheWorst(r: Report)
    requires GoesThroughTests(r)
    ensures var verdict := SummaryOf(r).verdict;
            if BrokeDown(r) then verdict == "RE"
            else if exists v :: JudgedBy(r, v) then
              JudgedBy(r, verdict) && forall v :: JudgedBy(r, v) ==> Rank(v) <= Rank(verdict)
            else verdict == if r.overallPass then "AC" else "SE"
  {
    var t := if r.tests.Some? then r.tests.value else NO_TESTS;
    GoesThrough(r);
    TestsVerdict(t, r.overallPass);
    forall v
      ensures v in Verdicts(t) <==> JudgedBy(r, v)
    {
      JudgedAre(r, t, v);
    }
    hide *;
    if Verdicts(t) != [] {
      assert Verdicts(t)[0] in Verdicts(t);
    }
  }

  /** A submission whose cases carry known words is accepted exactly when nothing broke down and
      every case that was judged passed, or none was and the engine says so itself. */
  lemma AcceptedExactlyWhen(r: Report)
    requires GoesThroughTests(r) && forall w :: w in Words(r) ==> w == "" || w in VERDICTS
    ensures SummaryOf(r).verdict == "AC" <==>
              && !BrokeDown(r)
              && (forall w :: w in Words(r) ==> w == "" || w == "AC") && true !in Failures(r) && false !in Satisfied(r)
              && ((exists v :: JudgedBy(r, v)) || r.overallPass)
  {
    VerdictIsTheWorst(r);
    forall i: nat | 0 < i < 8
      ensures Rank(VERDICTS[i]) > Rank("AC") && VERDICTS[i] != "AC"
    {
      VerdictsAreOrdered(0, i, "");
    }
    hide SummaryOf, BrokeDown, Rank;
    if w :| w in Words(r) && w != "" && w != "AC" {
      var i: nat :| i < 8 && VERDICTS[i] == w;
      assert i != 0;
      assert JudgedBy(r, w) && Rank(w) > Rank("AC");
    }
    if true in Failures(r) || false in Satisfied(r) {
      assert VERDICTS[1] == "WA";
      assert JudgedBy(r, "WA");
    }
    var verdict := SummaryOf(r).verdict;
    if verdict != "AC" && JudgedBy(r, verdict) && verdict in Words(r) {
      assert verdict != "";
    }
  }

  // ---- the other kinds of report ----------------------------------------

  /** A custom run is recorded case by case with its own words; only the cases that have one
      count, and with none the run is accepted. */
  lemma CustomRunsCountTheJudged(r: Report)
    requires r.project.None? && r.benchStatus.None? && !BuildRefused(r) && r.tests.None? && r.customCases.Some?
    ensures var s, words := SummaryOf(r), r.customCases.value;
            && |s.testcases| == |words|
            && (forall i :: 0 <= i < |words| ==> s.testcases[i] == TestCase(Io, i + 1, words[i], ""))
            && s.total == |set i | 0 <= i < |words| && words[i] != ""|
            && (if exists w :: w in words && w != "" then
                  s.verdict in words && s.verdict != ""
                  && forall w :: w in words && w != "" ==> Rank(w) <= Rank(s.verdict)
                else s.verdict == "AC")
  {
    RefusedExactly(r);
    var words := r.customCases.value;
    SpokenCount(words);
    forall w
      ensures w in Spoken(words) <==> w != "" && w in words
    {
      SpokenAre(words, w);
    }
    if Spoken(words) != [] {
      assert Spoken(words)[0] in Spoken(words);
    }
    hide Spoken, Rank, SubmissionFailedToCompile, BuildRefused;
  }

  lemma {:induction false} SpokenCount(words: seq<string>)
    ensures |Spoken(words)| == |set i | 0 <= i < |words| && words[i] != ""|
    decreases |words|
  {
    if words != [] {
      var n := |words| - 1;
      var front := words[..n];
      SpokenCount(front);
      assert |Spoken(words)| == |Spoken(front)| + if words[n] == "" then 0 else 1;
      hide Spoken;
      var before := set i | 0 <= i < n && front[i] != "";
      assert forall i :: 0 <= i < n ==> front[i] == words[i];
      assert (set i | 0 <= i < |words| && words[i] != "") == before + if words[n] != "" then {n} else {};
    }
  }

  /** What else there is: a benchmark's own word, a refused build, no report, and a signal. */
  lemma ThePlainOnes(report: Option<Report>, error: string, killedBy: Option<int>)
    ensures var s := Summarise(report, error, killedBy);
            && (killedBy.Some? ==> s.verdict == "RE" && s.passed == 0 && s.total == 1 && s.error == ""
                                   && s.testcases == [TestCase(Io, 1, "RE", "")])
            && (killedBy.None? && report.None? ==>
                  s.verdict == "SE" && s.testcases == [] && s.total == 0 && s.error != ""
                  && (error != "" ==> s.error == error))
            && (killedBy.None? && report.Some? && report.value.project.None? && report.value.benchStatus.Some? ==>
                  && s.testcases == [] && s.total == 0 && s.error == error
                  && s.verdict == (match report.value.benchStatus.value
                                   case "OK" => "AC"
                                   case "NOISY" => "SE"
                                   case _ => "WA"))
            && (killedBy.None? && report.Some? && report.value.project.None? && report.value.benchStatus.None? ==>
                  s.error == "" && (BuildRefused(report.value) ==> s.verdict == "CE" && s.testcases == [] && s.total == 0))
  {
    if report.Some? {
      RefusedExactly(report.value);
    }
  }

  // ---- the integration check --------------------------------------------

  /** Passed, failed or not run says so itself.  Anything else is a build error if the parts
      would not build or link, a runtime error if what was linked died, and else the machine's. */
  lemma IntegrationIs(i: Integration)
    ensures var refused := exists code :: code >= 0 && i.link == Some(Link(Some(false), Some(code)));
            var unbuilt := exists p :: p in i.parts && p.compiled == Some(false) && WellFormedLabel(p.part);
            var died := i.status == "ERROR" && i.diedWithoutReport && exists code :: i.link == Some(Link(Some(true), code));
            IntegrationVerdict(i) ==
              if i.status == "" || i.status == "SKIPPED" then None
              else if i.status == "PASS" then Some("AC")
              else if i.status == "FAIL" then Some("WA")
              else if refused || unbuilt then Some("CE")
              else if died then Some("RE")
              else Some("SE")
  {
    LinkExactly(i);
    if p :| p in i.parts && p.compiled == Some(false) && WellFormedLabel(p.part) {
      assert p.part in CompileFailures(i);
    }
    hide LinkRejected, SuiteCrashed, WellFormedLabel;
  }

  // ---- a project --------------------------------------------------------

  /** The last entry for its label. */
  predicate LastEntry(p: Project, i: int) {
    && 0 <= i < |p.entries| && WellFormedLabel(p.entries[i].part)
    && forall j :: i < j < |p.entries| ==> p.entries[j].part != p.entries[i].part
  }

  /** What is recorded of a part: nothing for one that was not judged, and else the verdict and
      the counts of its own report. */
  predicate PartIs(e: Entry, s: PartSummary) {
    match e.report
    case None => s == PartSummary(None, 0, 0)
    case Some(r) => s == PartSummary(Some(SummaryOf(r).verdict), SummaryOf(r).passed, SummaryOf(r).total)
  }

  predicate LastOf(p: Project, n: nat, i: int)
    requires n <= |p.entries|
  {
    && 0 <= i < n && WellFormedLabel(p.entries[i].part)
    && forall j :: i < j < n ==> p.entries[j].part != p.entries[i].part
  }

  lemma {:induction false} FoldedParts(p: Project, n: nat, part: string)
    requires n <= |p.entries|
    ensures part in FoldEntries(p, n).parts <==> exists i :: LastOf(p, n, i) && p.entries[i].part == part
    ensures forall i :: LastOf(p, n, i) && p.entries[i].part == part && part in FoldEntries(p, n).parts ==>
              PartIs(p.entries[i], FoldEntries(p, n).parts[part])
    decreases n
  {
    hide SummaryOf, WellFormedLabel, Tagged;
    if n > 0 {
      FoldedParts(p, n - 1, part);
      var last := p.entries[n - 1];
      if WellFormedLabel(last.part) && last.part == part {
        assert LastOf(p, n, n - 1);
      } else {
        forall i | LastOf(p, n, i) && p.entries[i].part == part
          ensures LastOf(p, n - 1, i)
        {
        }
        forall i | LastOf(p, n - 1, i) && p.entries[i].part == part
          ensures LastOf(p, n, i)
        {
        }
      }
    }
  }

  /** Each well-formed label is recorded as its last entry says, and no other. */
  lemma PartsAre(p: Project, part: string)
    ensures var parts := ProjectSummary(p).project.value.parts;
            && (part in parts <==> exists i :: LastEntry(p, i) && p.entries[i].part == part)
            && (forall i :: LastEntry(p, i) && p.entries[i].part == part ==>
                  part in parts && PartIs(p.entries[i], parts[part]))
  {
    FoldedParts(p, |p.entries|, part);
    forall i
      ensures LastEntry(p, i) <==> LastOf(p, |p.entries|, i)
    {
    }
    forall i | LastEntry(p, i) && p.entries[i].part == part
      ensures part in FoldEntries(p, |p.entries|).parts
    {
      assert LastOf(p, |p.entries|, i);
    }
  }

  /** The cases of a judged part follow those of the parts before it, under its label, numbered
      on, and otherwise as its own report has them. */
  lemma {:induction false} PartCasesAre(p: Project, n: nat, i: nat, k: nat)
    requires i < n <= |p.entries| && Judged(p.entries[i]) && k < |SummaryOf(p.entries[i].report.value).testcases|
    ensures var cases, offset := FoldEntries(p, n).testcases, |FoldEntries(p, i).testcases|;
            var c := SummaryOf(p.entries[i].report.value).testcases[k];
            offset + k < |cases| && cases[offset + k] == TestCase(c.kind, offset + k + 1, c.verdict, p.entries[i].part)
    decreases n
  {
    hide SummaryOf;
    if i < n - 1 {
      PartCasesAre(p, n - 1, i, k);
    }
  }

  /** And there are no others. */
  lemma {:induction false} AllCasesAreOfParts(p: Project, n: nat)
    requires n <= |p.entries|
    ensures |FoldEntries(p, n).testcases| ==
              if n == 0 then 0
              else |FoldEntries(p, n - 1).testcases|
                   + if Judged(p.entries[n - 1]) then |SummaryOf(p.entries[n - 1].report.value).testcases| else 0
  {
    hide SummaryOf;
  }

  /** What a project's summary says beyond its verdict: who is blamed for which integration
      case, whose source would not build, which parts fail, and whether it failed as a whole. */
  lemma BlameIs(p: Project, part: string, what: string)
    ensures var s := ProjectSummary(p);
            var info := s.project.value;
            && s.error == "" && s.total == |s.testcases| && s.testcases == FoldEntries(p, |p.entries|).testcases
            && info.integration == IntegrationVerdict(p.integration)
            && (Blamed(info.attributed, part, what) <==>
                  part in info.parts
                  && ((exists k :: 0 <= k < |p.integration.cases| && p.integration.cases[k].failed
                                   && p.integration.cases[k].name == what && part in p.integration.cases[k].parts)
                      || (what == "integration build" && Unbuilt(p, part))))
            && (part in info.failingParts <==>
                  || (part in info.parts && info.parts[part].verdict !in {None, Some("AC")})
                  || exists w :: Blamed(info.attributed, part, w))
            && (info.projectFailure <==> info.integration !in {None, Some("AC")} && info.failingParts == {})
  {
    var f := FoldEntries(p, |p.entries|);
    var declared := f.parts.Keys;
    var a := Attribute(p.integration.cases, declared);
    AttributionIsExact(p.integration.cases, declared, part, what);
    if part in a.attributed {
      NobodyForNothing(p.integration.cases, declared, part);
    }
    UnbuiltIs(p, part);
    hide SummaryOf, FoldEntries, Attribute, WellFormedLabel, IntegrationVerdict, Passed, WorstVerdict, Unbuilt;
    var attributed := BlameBuilds(a.attributed, declared * CompileFailures(p.integration));
    if part in attributed {
      if part in CompileFailures(p.integration) && part in declared {
        assert Blamed(attributed, part, "integration build");
      } else {
        var w :| Blamed(a.attributed, part, w);
        assert Blamed(attributed, part, w);
      }
    }
  }

  /** The part's source would not build for the integration binary. */
  predicate Unbuilt(p: Project, part: string) {
    exists k :: 0 <= k < |p.integration.parts| && p.integration.parts[k].part == part
                && p.integration.parts[k].compiled == Some(false) && WellFormedLabel(part)
  }

  lemma UnbuiltIs(p: Project, part: string)
    ensures part in CompileFailures(p.integration) <==> Unbuilt(p, part)
  {
    hide WellFormedLabel;
    if Unbuilt(p, part) {
      var k :| 0 <= k < |p.integration.parts| && p.integration.parts[k].part == part
               && p.integration.parts[k].compiled == Some(false) && WellFormedLabel(part);
      assert p.integration.parts[k] in p.integration.parts;
    }
  }

  /** Whoever is listed is listed for something. */
  lemma {:induction false} NobodyForNothing(cases: seq<IntegrationCase>, declared: set<string>, part: string)
    requires part in Attribute(cases, declared).attributed
    ensures exists w :: Blamed(Attribute(cases, declared).attributed, part, w)
    decreases |cases|
  {
    var c := cases[|cases| - 1];
    var front := Attribute(cases[..|cases| - 1], declared).attributed;
    if part in front {
      NobodyForNothing(cases[..|cases| - 1], declared, part);
      var w :| Blamed(front, part, w);
      BlameAllExact(front, c.parts, declared, c.name, part, w);
      assert Blamed(Attribute(cases, declared).attributed, part, w);
    } else {
      BlameAllKeys(front, c.parts, declared, c.name);
      BlameAllExact(front, c.parts, declared, c.name, part, c.name);
      assert Blamed(Attribute(cases, declared).attributed, part, c.name);
    }
  }
}
