/** How the executor classifies one run of the engine. */
module Executor {
  import opened Wrappers
  import opened Reports

  datatype Status = Succeeded | Failed | Retryable

  /** How a run of the engine ended.  A negative code is death by that signal. */
  datatype Ran =
    | Exited(code: int, report: Option<Report>)
    | NotStarted
    | Unprepared(reason: string)

  datatype Outcome = Outcome(status: Status, report: Option<Report>, killedBy: Option<int>, error: string)

  /** SIGILL, SIGTRAP, SIGABRT, SIGBUS, SIGFPE, SIGSEGV, SIGPIPE and SIGSYS. */
  const SUBMISSION_SIGNALS: set<int> := {4, 5, 6, 7, 8, 11, 13, 31}

  function Interpret(isProject: bool, ran: Ran): Outcome {
    match ran
    case NotStarted => Outcome(Retryable, None, None, "could not run")
    case Unprepared(reason) => Outcome(Failed, None, None, reason)
    case Exited(code, report) =>
      if code < 0 then
        if -code in SUBMISSION_SIGNALS then Outcome(Failed, report, Some(-code), "killed while running this submission")
        else Outcome(Retryable, report, None, "killed from outside the job")
      else if code > 1 then
        var atFault := report.Some?
          && (SubmissionFailedToCompile(report.value) || SubmissionCrashed(report.value)
              || (isProject && report.value.project.Some? && ProjectFault(report.value.project.value)));
        Outcome(if atFault then Failed else Retryable, report, None, "could not judge")
      else if report.None? then Outcome(Failed, None, None, "no report")
      else Outcome(Succeeded, report, None, "")
  }

  /** On the last delivery a retry becomes a reported failure, and loses its report. */
  function GiveUp(o: Outcome, attempt: nat, cap: nat): Outcome {
    if o.status != Retryable || attempt < cap then o
    else o.(status := Failed, report := None, error := "no worker could judge this: " + o.error)
  }

  // ---- a project's parts ------------------------------------------------

  datatype PartsError = NothingDeclared | UnknownPart | UnknownFallback | MissingPart

  /** The parts a job supplies, and those it has a fallback for, against those the package
      declares. */
  method CheckParts(declared: seq<string>, supplied: set<string>, fallback: set<string>)
    returns (refusal: Option<PartsError>)
    ensures refusal.None? <==> declared != [] && supplied + fallback == set l | l in declared
    ensures refusal == Some(NothingDeclared) <==> declared == []
    ensures refusal == Some(UnknownPart) <==> declared != [] && !(supplied <= set l | l in declared)
    ensures refusal == Some(UnknownFallback) <==>
              declared != [] && supplied <= (set l | l in declared) && !(fallback <= set l | l in declared)
    ensures refusal == Some(MissingPart) <==>
              declared != [] && supplied + fallback <= (set l | l in declared)
              && exists l :: l in declared && l !in supplied + fallback
  {
    if declared == [] {
      return Some(NothingDeclared);
    }
    var labels := set l | l in declared;
    if !(supplied <= labels) {
      return Some(UnknownPart);
    }
    if !(fallback <= labels) {
      return Some(UnknownFallback);
    }
    for k := 0 to |declared|
      invariant forall j :: 0 <= j < k ==> declared[j] in supplied + fallback
    {
      if declared[k] !in supplied + fallback {
        assert declared[k] in declared;
        return Some(MissingPart);
      }
    }
    assert labels == supplied + fallback by {
      forall l | l in labels
        ensures l in supplied + fallback
      {
        var j :| 0 <= j < |declared| && declared[j] == l;
      }
    }
    refusal := None;
  }
}
