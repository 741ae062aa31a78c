/**
 Which runs of the engine the executor ends at once and which it asks to try again, told by
 the exit code and the fields of the report.
 */
module RunEnds {
  import opened Wrappers
  import opened Reports
  import opened Executor

  // ---- one judge report -------------------------------------------------

  /** The compiler ran on the submission and refused it. */
  ghost predicate BuildRefused(r: Report) {
    r.compile.Some?
    && exists name, code ::
         name in {"solution", "behavior_binary"} && name in r.compile.value && code >= 0
         && r.compile.value[name] == Step(Some(false), Some(code))
  }

  /** Everything was built, and then one of the checks broke down. */
  ghost predicate DiedInTests(r: Report) {
    && r.compile.Some? && r.tests.Some?
    && (exists name :: name in r.compile.value)
    && (forall name :: name in r.compile.value ==> exists code :: r.compile.value[name] == Step(Some(true), code))
    && var t := r.tests.value;
       || (exists cases :: t.manual == Section(true, cases))
       || (exists cases :: t.behavior == Section(true, cases))
       || (exists cases :: t.symbolic == Section(true, cases))
       || exists k :: 0 <= k < |t.others| && t.others[k]
  }

  lemma RefusedExactly(r: Report)
    ensures SubmissionFailedToCompile(r) <==> BuildRefused(r)
  {
    if SubmissionFailedToCompile(r) {
      var name :| name in SUBMISSION_STEPS && name in r.compile.value && Rejected(r.compile.value[name]);
      assert r.compile.value[name] == Step(Some(false), Some(r.compile.value[name].exitCode.value));
    }
  }

  lemma DiedExactly(r: Report)
    ensures SubmissionCrashed(r) <==> DiedInTests(r)
  {
    if SubmissionCrashed(r) {
      forall name | name in r.compile.value
        ensures exists code :: r.compile.value[name] == Step(Some(true), code)
      {
        assert r.compile.value[name] == Step(Some(true), r.compile.value[name].exitCode);
      }
      var t := r.tests.value;
      assert t.manual.Section? ==> t.manual == Section(t.manual.error, t.manual.cases);
      assert t.behavior.Section? ==> t.behavior == Section(t.behavior.error, t.behavior.cases);
      assert t.symbolic.Section? ==> t.symbolic == Section(t.symbolic.error, t.symbolic.cases);
    }
    if DiedInTests(r) {
      var name :| name in r.compile.value;
      assert r.compile.value != map[];
    }
  }

  // ---- one project report -----------------------------------------------

  /** A label is 1 to 64 characters, all letters, digits, dashes or underscores, and the first
      a letter or a digit. */
  lemma LabelsAre(s: string)
    ensures WellFormedLabel(s) <==>
              1 <= |s| <= 64
              && forall k :: 0 <= k < |s| ==>
                   var c := s[k] as int;
                   48 <= c <= 57 || 65 <= c <= 90 || 97 <= c <= 122 || (k > 0 && (s[k] == '-' || s[k] == '_'))
  {
    if 1 <= |s| {
      assert s[0] == s[0];
    }
  }

  /** The last report there is for this entry's label. */
  predicate LastReport(entries: seq<Entry>, i: int) {
    && 0 <= i < |entries| && WellFormedLabel(entries[i].part) && entries[i].report.Some?
    && forall j :: i < j < |entries| && entries[j].report.Some? ==> entries[j].part != entries[i].part
  }

  /** A part would not build or broke its own tests, the linker ran and refused the parts, or
      what it linked died without a report. */
  ghost predicate PartsToBlame(p: Project) {
    || (exists i :: LastReport(p.entries, i)
                    && (BuildRefused(p.entries[i].report.value) || DiedInTests(p.entries[i].report.value)))
    || (exists code :: code >= 0 && p.integration.link == Some(Link(Some(false), Some(code))))
    || (p.integration.status == "ERROR" && p.integration.diedWithoutReport
        && exists code :: p.integration.link == Some(Link(Some(true), code)))
  }

  lemma {:induction false} LastReportsAre(entries: seq<Entry>, part: string, r: Report)
    ensures part in PartReports(entries) && PartReports(entries)[part] == r
            <==> exists i :: LastReport(entries, i) && entries[i].part == part && entries[i].report.value == r
    decreases |entries|
  {
    if entries != [] {
      var n := |entries| - 1;
      var front, last := entries[..n], entries[n];
      LastReportsAre(front, part, r);
      if last.part == part && last.report.Some? && WellFormedLabel(part) {
        assert LastReport(entries, n);
      } else {
        forall i | LastReport(front, i) && front[i].part == part
          ensures LastReport(entries, i)
        {
        }
        forall i | LastReport(entries, i) && entries[i].part == part
          ensures i < n && LastReport(front, i)
        {
        }
      }
    }
  }

  lemma BlamedExactly(p: Project)
    ensures ProjectFault(p) <==> PartsToBlame(p)
  {
    var reports := PartReports(p.entries);
    if part :| part in reports && (SubmissionFailedToCompile(reports[part]) || SubmissionCrashed(reports[part])) {
      LastReportsAre(p.entries, part, reports[part]);
      RefusedExactly(reports[part]);
      DiedExactly(reports[part]);
      var i :| LastReport(p.entries, i) && p.entries[i].part == part && p.entries[i].report.value == reports[part];
      assert PartsToBlame(p);
    }
    if i :| LastReport(p.entries, i)
            && (BuildRefused(p.entries[i].report.value) || DiedInTests(p.entries[i].report.value)) {
      var part, r := p.entries[i].part, p.entries[i].report.value;
      LastReportsAre(p.entries, part, r);
      RefusedExactly(r);
      DiedExactly(r);
      assert part in reports && reports[part] == r;
    }
    LinkExactly(p.integration);
    hide LinkRejected, SuiteCrashed, SubmissionFailedToCompile, SubmissionCrashed, BuildRefused, DiedInTests;
  }

  lemma LinkExactly(i: Integration)
    ensures LinkRejected(i) <==> exists code :: code >= 0 && i.link == Some(Link(Some(false), Some(code)))
    ensures SuiteCrashed(i) <==>
              i.status == "ERROR" && i.diedWithoutReport && exists code :: i.link == Some(Link(Some(true), code))
  {
    if i.link.Some? {
      assert i.link == Some(Link(i.link.value.ok, i.link.value.exitCode));
      if i.link.value.exitCode.Some? {
        assert i.link == Some(Link(i.link.value.ok, Some(i.link.value.exitCode.value)));
      }
    }
  }

  // ---- what the executor makes of a run ---------------------------------

  /** The engine could not judge, and its report says whose doing that is. */
  ghost predicate SubmittersDoing(isProject: bool, r: Report) {
    BuildRefused(r) || DiedInTests(r) || (isProject && r.project.Some? && PartsToBlame(r.project.value))
  }

  /** The run is over, whatever deliveries are left. */
  ghost predicate Ended(isProject: bool, ran: Ran) {
    match ran
    case NotStarted => false
    case Unprepared(_) => true
    case Exited(code, report) =>
      if code < 0 then code in {-4, -5, -6, -7, -8, -11, -13, -31}
      else if code <= 1 then true
      else report.Some? && SubmittersDoing(isProject, report.value)
  }

  /** A run of a problem or a project succeeds exactly when the engine exits with 0 or 1 and
      leaves a report; every other run fails if it is over, and is tried again if it is not.
      Its report, if it left one, is passed on, and only a success carries no error. */
  lemma EndsExactlyWhen(isProject: bool, ran: Ran)
    ensures var o := Interpret(isProject, ran);
            && (o.status == Succeeded <==> ran.Exited? && 0 <= ran.code <= 1 && ran.report.Some?)
            && (o.status == Failed <==> Ended(isProject, ran) && o.status != Succeeded)
            && (o.status == Retryable <==> !Ended(isProject, ran))
            && o.report == (if ran.Exited? then ran.report else None)
            && (o.status == Succeeded ==> o.error == "") && (o.status != Succeeded && !ran.Unprepared? ==> o.error != "")
            && (ran.Unprepared? ==> o.error == ran.reason)
            && o.killedBy == (if ran.Exited? && ran.code < 0 && Ended(isProject, ran) then Some(-ran.code) else None)
  {
    if ran.Exited? && ran.code > 1 && ran.report.Some? {
      var r := ran.report.value;
      RefusedExactly(r);
      DiedExactly(r);
      if r.project.Some? {
        BlamedExactly(r.project.value);
      }
      hide SubmissionFailedToCompile, SubmissionCrashed, BuildRefused, DiedInTests, ProjectFault, PartsToBlame;
    }
  }
}
