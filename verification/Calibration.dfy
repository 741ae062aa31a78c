/**
 A bencher's health: it takes a job only on the strength of a recent calibration
 that passed, and stops at the first drift it sees.
 */
module Calibration {
  import opened Wrappers
  import opened Executor
  import Supersession

  /** What `bench calibrate` came back with. */
  datatype Report = CouldNotRun | Report(ok: bool, median: real)

  /** What a benchmark came back with: `drift` is how far the host moved, if it says. */
  datatype Measured = Unreadable | Measured(verdict: string, drift: Option<real>)

  /** What has happened to the calibrator, oldest first. */
  datatype Event = Calibrated(at: real, passed: bool) | Timed | Drifted

  /** The last calibration, if there was one. */
  predicate IsLastCalibration(log: seq<Event>, k: nat) {
    k < |log| && log[k].Calibrated? && forall j :: k < j < |log| ==> !log[j].Calibrated?
  }

  function TimedIn(log: seq<Event>): nat
    decreases |log|
  {
    if log == [] then 0 else TimedIn(log[..|log| - 1]) + (if log[|log| - 1].Timed? then 1 else 0)
  }

  /** The machine is known to be sound: its last calibration passed, is young, has carried
      few enough timed jobs, and no drift has been seen since. */
  predicate Covered(log: seq<Event>, k: nat, now: real, everySeconds: real, everyJobs: nat) {
    IsLastCalibration(log, k) && log[k].passed
    && now - log[k].at < everySeconds && TimedIn(log[k + 1..]) < everyJobs
    && Drifted !in log[k + 1..]
  }

  lemma TimedOneMore(log: seq<Event>, k: nat, e: Event)
    requires k < |log|
    ensures TimedIn((log + [e])[k + 1..]) == TimedIn(log[k + 1..]) + (if e.Timed? then 1 else 0)
    ensures Drifted in (log + [e])[k + 1..] <==> e.Drifted? || Drifted in log[k + 1..]
  {
    assert (log + [e])[k + 1..] == log[k + 1..] + [e];
    assert (log[k + 1..] + [e])[..|log| - k - 1] == log[k + 1..];
  }

  class Calibrator {
    const everySeconds: real
    const everyJobs: nat
    const tolerance: real
    var ok: bool
    var checkedAt: Option<real>
    var jobsSince: nat
    var baseline: Option<real>

    ghost var log: seq<Event>
    /** The index of the last calibration in the log. */
    ghost var last: nat

    /** The fields say what the log says. */
    ghost predicate Valid()
      reads this
    {
      && everySeconds > 0.0 && everyJobs >= 1
      && (checkedAt.None? ==> !ok && forall j :: 0 <= j < |log| ==> !log[j].Calibrated?)
      && (checkedAt.Some? ==>
            && IsLastCalibration(log, last) && checkedAt.value == log[last].at
            && jobsSince == TimedIn(log[last + 1..])
            && (ok <==> log[last].passed && Drifted !in log[last + 1..]))
    }

    constructor (everySeconds: real, everyJobs: nat, tolerance: real, baseline: Option<real>)
      requires everySeconds > 0.0 && everyJobs >= 1
      ensures Valid() && log == [] && this.baseline == baseline && !ok
      ensures this.everySeconds == everySeconds && this.everyJobs == everyJobs && this.tolerance == tolerance
    {
      this.everySeconds, this.everyJobs, this.tolerance := everySeconds, everyJobs, tolerance;
      ok, checkedAt, jobsSince := false, None, 0;
      this.baseline := baseline;
      log, last := [], 0;
    }

    method Due(now: real) returns (yes: bool)
      ensures yes <==> !ok || checkedAt.None? || now - checkedAt.value >= everySeconds || jobsSince >= everyJobs
    {
      yes := !ok || checkedAt.None? || now - checkedAt.value >= everySeconds || jobsSince >= everyJobs;
    }

    method JobDone()
      requires Valid()
      modifies this
      ensures Valid() && log == old(log) + [Timed] && baseline == old(baseline) && ok == old(ok)
    {
      if checkedAt.Some? {
        TimedOneMore(log, last, Timed);
      }
      jobsSince := jobsSince + 1;
      log := log + [Timed];
    }

    method DriftSeen()
      requires Valid()
      modifies this
      ensures Valid() && log == old(log) + [Drifted] && baseline == old(baseline) && !ok
    {
      if checkedAt.Some? {
        TimedOneMore(log, last, Drifted);
      }
      ok := false;
      log := log + [Drifted];
    }

    /** The first calibration that passes sets the baseline, when none is configured. */
    method Calibrate(now: real, report: Report)
      requires Valid()
      modifies this
      ensures Valid() && log == old(log) + [Calibrated(now, report.Report? && report.ok)]
      ensures ok == (report.Report? && report.ok) && checkedAt == Some(now) && jobsSince == 0
      ensures baseline == if old(baseline).None? && ok then Some(report.median) else old(baseline)
    {
      checkedAt := Some(now);
      jobsSince := 0;
      ok := report.Report? && report.ok;
      if ok && baseline.None? {
        baseline := Some(report.median);
      }
      last := |log|;
      log := log + [Calibrated(now, ok)];
      assert log[last + 1..] == [];
    }

    /** Whether to claim a job now.  `report` is what a calibration would say. */
    method HealthyToClaim(now: real, report: Report) returns (claim: bool)
      requires Valid()
      modifies this
      ensures Valid() && old(log) <= log
      ensures claim ==> Covered(log, last, now, everySeconds, everyJobs)
      ensures var before := old(checkedAt.Some? && Covered(log, last, now, everySeconds, everyJobs));
              var passes := report.Report? && report.ok;
              && (before ==> claim && log == old(log))
              && (!before ==> claim == passes && log == old(log) + [Calibrated(now, passes)])
      ensures !claim ==> |log| == |old(log)| + 1 && log[|old(log)|] == Calibrated(now, false)
      ensures old(baseline).Some? ==> baseline == old(baseline)
    {
      var due := Due(now);
      if due {
        Calibrate(now, report);
        assert log[last + 1..] == [];
      }
      claim := ok;
    }
  }

  /** A benchmark's outcome.  A superseded or rejected one fails, a clean one counts and is
      recorded, a noisy one is retried; if the host itself drifted, claims stop.  The drift of
      a superseded run is not looked at: the calibrator only counts the run. */
  method Interpret(guard: Supersession.BenchGuard, calibrator: Calibrator, job: Supersession.Job, m: Measured)
    returns (status: Status)
    requires calibrator.Valid()
    modifies guard, calibrator
    ensures calibrator.Valid() && calibrator.baseline == old(calibrator.baseline)
    ensures var late := Supersession.Outdated(old(guard.Held()), job);
            status == match m
                      case Unreadable => Retryable
                      case Measured(v, _) =>
                        if late then Failed else if v == "OK" then Succeeded else if v == "NOISY" then Retryable else Failed
    ensures guard.Held() == if status == Succeeded then Supersession.RevisionMarked(old(guard.Held()), job)
                            else old(guard.Held())
    ensures m.Measured? && Supersession.Outdated(old(guard.Held()), job) ==>
              calibrator.log == old(calibrator.log) + [Timed] && calibrator.ok == old(calibrator.ok)
    ensures var drifted := status == Retryable && m.Measured? && m.drift.Some? && m.drift.value > calibrator.tolerance;
            calibrator.log == old(calibrator.log) + (if m.Unreadable? then [] else [Timed])
                              + (if drifted then [Drifted] else [])
            && (drifted ==> !calibrator.ok)
  {
    if m.Unreadable? {
      return Retryable;
    }
    calibrator.JobDone();
    var late := guard.SupersededAfterRun(job);
    if late {
      status := Failed;
    } else if m.verdict == "OK" {
      status := Succeeded;
      guard.Record(job);
    } else if m.verdict == "NOISY" {
      status := Retryable;
      if m.drift.Some? && m.drift.value > calibrator.tolerance {
        calibrator.DriftSeen();
      }
    } else {
      status := Failed;
    }
  }

  lemma LastIsShifted(front: seq<Event>, later: seq<Event>, k: nat)
    ensures IsLastCalibration(front + later, |front| + k) <==> IsLastCalibration(later, k)
  {
    var all, d := front + later, |front|;
    assert forall j :: 0 <= j < |later| ==> all[d + j] == later[j];
    assert forall j :: d <= j < |all| ==> all[j] == later[j - d];
  }

  lemma CoveredIsShifted(front: seq<Event>, later: seq<Event>, k: nat, now: real, everySeconds: real, everyJobs: nat)
    ensures Covered(front + later, |front| + k, now, everySeconds, everyJobs)
            <==> Covered(later, k, now, everySeconds, everyJobs)
  {
    LastIsShifted(front, later, k);
    if k < |later| {
      assert (front + later)[|front| + k] == later[k];
      assert (front + later)[|front| + k + 1..] == later[k + 1..];
    }
    hide TimedIn, IsLastCalibration;
  }

  lemma PassedIsThere(log: seq<Event>, k: nat)
    requires IsLastCalibration(log, k) && log[k].passed
    ensures exists at :: Calibrated(at, true) in log
  {
    assert log[k] == Calibrated(log[k].at, true);
  }

  lemma DriftUncovers(log: seq<Event>, d: nat, k: nat, now: real, everySeconds: real, everyJobs: nat)
    requires k <= d < |log| && log[d] == Drifted
    ensures !Covered(log, k, now, everySeconds, everyJobs)
  {
    assert k < d ==> log[k + 1..][d - k - 1] == Drifted;
  }

  /** A drift wipes the slate: whatever came before it, the machine is covered afterwards
      exactly when the events since the drift cover it on their own, so never without a
      calibration that passed since. */
  lemma DriftBlocksUntilCalibrated(
    log: seq<Event>, later: seq<Event>, k: nat, now: real, everySeconds: real, everyJobs: nat)
    ensures Covered(log + [Drifted] + later, k, now, everySeconds, everyJobs)
            <==> k > |log| && Covered(later, k - |log| - 1, now, everySeconds, everyJobs)
    ensures Covered(log + [Drifted] + later, k, now, everySeconds, everyJobs) ==>
              exists at :: Calibrated(at, true) in later
  {
    hide TimedIn, IsLastCalibration;
    var all, d := log + [Drifted] + later, |log|;
    if k > d {
      CoveredIsShifted(log + [Drifted], later, k - d - 1, now, everySeconds, everyJobs);
      if Covered(later, k - d - 1, now, everySeconds, everyJobs) {
        PassedIsThere(later, k - d - 1);
      }
    } else {
      DriftUncovers(all, d, k, now, everySeconds, everyJobs);
    }
  }
}
