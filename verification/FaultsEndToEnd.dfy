/**
 Whose fault a run was, from the engine's exit to the callback: on every path a
 verdict can take to the control plane, and through the whole retry budget.
 */
module FaultsEndToEnd {
  import opened Wrappers
  import opened LeaseQueue
  import opened Executor
  import opened RunEnds
  import opened Summary
  import opened VerdictLaws
  import opened Delivery
  import opened Protocol
  import opened Invariants

  /** The execution this payload reports. */
  predicate Reports(r: RunEvent, payload: Payload) {
    payload == PayloadOf(r.result, r.cfg.uid) && r.result.outcome.status != Retryable
  }

  /** The verdict of an execution, by whose doing its run was. */
  ghost predicate Blames(r: RunEvent, verdict: string) {
    && (RawResult(r.job, r.ran, r.benched).outcome.status == Retryable ==>
          verdict == "SE" && r.result.outcome.status == Failed && r.result.outcome.report.None?)
    && (!r.job.bench && !Ended(r.job.project, r.ran) ==> verdict == "SE")
    && (!r.job.bench && Ended(r.job.project, r.ran) && r.ran.Exited? && r.ran.code >= 0 && r.ran.report.Some? ==>
          r.result.outcome.report == r.ran.report && verdict == SummaryOf(r.ran.report.value).verdict)
    && (!r.job.bench && Signalled(r.ran) ==> verdict == "RE" && r.result.outcome.status == Failed)
    && (!r.job.bench && !r.job.project ==>
          match FaultOf(r.ran)
          case Machine => verdict == "SE"
          case Submitter(v) => r.result.outcome.status == Failed && (Ordinary(r.ran) || Signalled(r.ran) ==> verdict == v)
          case Judging => r.result.outcome.status == Succeeded)
  }

  lemma RunBlames(r: RunEvent, attempt: nat, cap: nat)
    requires r.result == Given(RawResult(r.job, r.ran, r.benched), attempt, cap) && r.result.outcome.status != Retryable
    ensures Blames(r, PayloadOf(r.result, r.cfg.uid).summary.verdict)
  {
    if RawResult(r.job, r.ran, r.benched).outcome.status == Retryable {
      RetryableHasNoSignal(r.job, r.ran, r.benched);
      RetryableIsNeverCharged(RawResult(r.job, r.ran, r.benched).outcome, attempt, cap);
    }
    if !r.job.bench {
      EndsExactlyWhen(r.job.project, r.ran);
      if Signalled(r.ran) {
        SignalsAreRuntimeErrors(r.job.project, r.ran, attempt, cap);
      }
      if !r.job.project {
        FaultsAreNotConfused(r.ran, attempt, cap);
      }
    }
    hide SummaryOf, Interpret, FaultOf, Ended;
  }

  /** Every callback ever sent, directly or from an envelope, reports a logged execution.  For
      every kind of job, one whose execution asked to be tried again says SE; for a problem or
      a project, so does one whose run was not over, one whose run was over says what its
      report does, and one killed by a submission's signal says RE; and for a problem it says
      SE whenever the machine was to blame, and CE or RE exactly as the submission was, if its
      report was an ordinary one. */
  lemma CallbacksBlameTheRightSide(limits: Limits, run: seq<Action>, n: nat) returns (m: nat)
    requires n < |Run(Initial(limits), run).uploads|
    ensures var s := Run(Initial(limits), run);
            m < |s.runs| && Reports(s.runs[m], PayloadSent(s.uploads[n]))
            && Blames(s.runs[m], PayloadSent(s.uploads[n]).summary.verdict)
  {
    var s := Run(Initial(limits), run);
    Reachable(limits, run);
    assert UploadOk(s, s.uploads[n]);
    m :| 0 <= m < |s.runs| && PayloadSent(s.uploads[n]) == PayloadOf(s.runs[m].result, s.runs[m].cfg.uid)
         && s.runs[m].result.outcome.status != Retryable;
    assert RunOk(s, s.runs[m]);
    hide Inv, Run, Blames;
    RunBlames(s.runs[m], s.runs[m].lease.attempt, s.limits.cap);
  }

  lemma RetryableHasNoSignal(job: Job, ran: Ran, benched: Outcome)
    requires RawResult(job, ran, benched).outcome.status == Retryable
    ensures RawResult(job, ran, benched).outcome.killedBy.None?
  {
  }

  // ---- the retry budget -------------------------------------------------

  /** What the engine did on one attempt. */
  datatype Try = Try(ran: Ran, benched: Outcome)

  predicate Retried(job: Job, t: Try) { RawResult(job, t.ran, t.benched).outcome.status == Retryable }

  /** One attempt by worker w at message i, with everything outside it working; the
      protocol decides whether the release or the completion is the one that applies. */
  function Attempt(w: nat, i: nat, cfg: Config, t: Try): seq<Action> {
    [Claim(w, i, cfg), Lookup(w, true), Execute(w, t.ran, t.benched), Upload(w, true, true), Release(w, true),
     Complete(w, true)]
  }

  function Attempts(w: nat, i: nat, cfg: Config, tries: seq<Try>): seq<Action>
    decreases |tries|
  {
    if tries == [] then []
    else Attempts(w, i, cfg, tries[..|tries| - 1]) + Attempt(w, i, cfg, tries[|tries| - 1])
  }

  /** A tokenless source job waits, and worker w is free to take it. */
  predicate Waiting(s: State, w: nat, i: nat, cfg: Config, job: Job, attempts: nat) {
    && i < |s.msgs| && i < |s.origins| && w !in s.passes && ConfigOk(cfg) && cfg.enabled
    && s.msgs[i].body == Some(job) && Offered(s.msgs[i], s.now) && s.msgs[i].attempts == attempts
    && job.token.None? && job.delivery.None? && job.bench == cfg.bencher
  }

  ghost function Six(s: State, a: seq<Action>): State
    requires |a| == 6
  {
    Step(Step(Step(Step(Step(Step(s, a[0]), a[1]), a[2]), a[3]), a[4]), a[5])
  }

  lemma RunSix(s: State, a: seq<Action>)
    requires |a| == 6
    ensures Run(s, a) == Six(s, a)
  {
    hide Step;
    assert a[..6] == a && Run(s, a[..0]) == s;
    UnrollOne(s, a, 0);
    UnrollOne(s, a, 1);
    UnrollOne(s, a, 2);
    UnrollOne(s, a, 3);
    UnrollOne(s, a, 4);
    UnrollOne(s, a, 5);
  }

  /** Claimed, looked up and executed: the pass stands before its report. */
  lemma Judged(s: State, w: nat, i: nat, cfg: Config, job: Job, t: Try, done: nat)
    requires Waiting(s, w, i, cfg, job, done) && done < s.limits.cap
    ensures var u := Step(Step(Step(s, Claim(w, i, cfg)), Lookup(w, true)), Execute(w, t.ran, t.benched));
            var result := Given(RawResult(job, t.ran, t.benched), done + 1, s.limits.cap);
            u == s.(msgs := s.msgs[i := Leased(s.msgs[i], s.now)],
                    runs := s.runs + [RunEvent(Lease(i, done + 1), job, cfg, s.store.Keys, t.ran, t.benched, result)],
                    passes := s.passes[w := Pass(Lease(i, done + 1), job, cfg, s.store.Keys, ToReport(result))])
  {
    hide DoWorld, DoPersist, DoDeliver, DoUpload, DoPublish, DoComplete, DoRelease, Load, Find, Given, RawResult;
    var s1 := Step(s, Claim(w, i, cfg));
    assert s1 == s.(msgs := s.msgs[i := Leased(s.msgs[i], s.now)],
                    passes := s.passes[w := Pass(Lease(i, done + 1), job, cfg, s.store.Keys, Started)]);
    var s2 := Step(s1, Lookup(w, true));
    assert s2 == s1.(passes := s.passes[w := Pass(Lease(i, done + 1), job, cfg, s.store.Keys, ToExecute)]);
    var result := Given(RawResult(job, t.ran, t.benched), done + 1, s.limits.cap);
    var u := Step(s2, Execute(w, t.ran, t.benched));
    assert u.passes == s.passes[w := Pass(Lease(i, done + 1), job, cfg, s.store.Keys, ToReport(result))];
  }

  /** The report nobody could judge for. */
  function GivenUp(job: Job, cfg: Config, t: Try, cap: nat): Payload {
    PayloadOf(Given(RawResult(job, t.ran, t.benched), cap, cap), cfg.uid)
  }

  /** With deliveries left, the message goes back as it was, one receive older. */
  lemma AttemptReleases(s: State, w: nat, i: nat, cfg: Config, job: Job, t: Try, done: nat)
    requires Waiting(s, w, i, cfg, job, done) && done + 1 < s.limits.cap && Retried(job, t)
    ensures var u := Run(s, Attempt(w, i, cfg, t));
            Waiting(u, w, i, cfg, job, done + 1) && u.uploads == s.uploads
            && u.limits == s.limits && u.now == s.now && |u.runs| == |s.runs| + 1
  {
    RunSix(s, Attempt(w, i, cfg, t));
    Judged(s, w, i, cfg, job, t, done);
    var s3 := Step(Step(Step(s, Claim(w, i, cfg)), Lookup(w, true)), Execute(w, t.ran, t.benched));
    ReportReleases(s3, w, i, done + 1);
  }

  lemma ReportReleases(s: State, w: nat, i: nat, attempt: nat)
    requires In(s, w) && s.passes[w].phase.ToReport? && s.passes[w].lease == Lease(i, attempt) && attempt < s.limits.cap
    requires s.passes[w].phase.result.outcome.status == Retryable && Held(s.msgs[i], attempt)
    ensures Step(Step(Step(s, Upload(w, true, true)), Release(w, true)), Complete(w, true))
            == s.(passes := s.passes - {w}, msgs := s.msgs[i := Released(s.msgs[i], attempt)])
  {
    var s1 := Step(s, Upload(w, true, true));
    assert s1 == Goto(s, w, ToRelease);
    var s2 := Step(s1, Release(w, true));
    assert s2.passes == s.passes - {w};
  }

  lemma ReportCompletes(s: State, w: nat, i: nat, attempt: nat)
    requires In(s, w) && s.passes[w].phase.ToReport? && s.passes[w].lease == Lease(i, attempt) && s.passes[w].cfg.enabled
    requires s.passes[w].phase.result.outcome.status != Retryable && Held(s.msgs[i], attempt)
    ensures var sent := PayloadOf(s.passes[w].phase.result, s.passes[w].cfg.uid);
            Step(Step(Step(s, Upload(w, true, true)), Release(w, true)), Complete(w, true))
            == s.(passes := s.passes - {w}, msgs := s.msgs[i := Completed(s.msgs[i], attempt)],
                  uploads := s.uploads + [Direct(Lease(i, attempt), sent, true)])
  {
    var s1 := Step(s, Upload(w, true, true));
    var sent := PayloadOf(s.passes[w].phase.result, s.passes[w].cfg.uid);
    assert s1 == Goto(Sent(s, Direct(Lease(i, attempt), sent, true)), w, ToComplete);
    var s2 := Step(s1, Release(w, true));
    assert s2 == s1;
    var s3 := Step(s2, Complete(w, true));
    assert s3.passes == s.passes - {w};
  }

  /** On the last delivery the failure is reported once, as SE, and the message is removed. */
  lemma LastAttemptReports(s: State, w: nat, i: nat, cfg: Config, job: Job, t: Try)
    requires s.limits.cap >= 1 && Waiting(s, w, i, cfg, job, s.limits.cap - 1) && Retried(job, t)
    ensures var u := Run(s, Attempt(w, i, cfg, t));
            i < |u.msgs| && u.msgs[i].place == Done && u.msgs[i].attempts == s.limits.cap
            && u.uploads == s.uploads + [Direct(Lease(i, s.limits.cap), GivenUp(job, cfg, t, s.limits.cap), true)]
            && |u.runs| == |s.runs| + 1
  {
    RunSix(s, Attempt(w, i, cfg, t));
    Judged(s, w, i, cfg, job, t, s.limits.cap - 1);
    var s3 := Step(Step(Step(s, Claim(w, i, cfg)), Lookup(w, true)), Execute(w, t.ran, t.benched));
    ReportCompletes(s3, w, i, s.limits.cap);
  }

  lemma {:induction false} AttemptsRelease(s: State, w: nat, i: nat, cfg: Config, job: Job, tries: seq<Try>)
    requires Waiting(s, w, i, cfg, job, 0) && |tries| < s.limits.cap && forall t :: t in tries ==> Retried(job, t)
    ensures var u := Run(s, Attempts(w, i, cfg, tries));
            Waiting(u, w, i, cfg, job, |tries|) && u.uploads == s.uploads
            && u.limits == s.limits && u.now == s.now && |u.runs| == |s.runs| + |tries|
    decreases |tries|
  {
    if tries != [] {
      var front, last := tries[..|tries| - 1], tries[|tries| - 1];
      AttemptsRelease(s, w, i, cfg, job, front);
      RunAppend(s, Attempts(w, i, cfg, front), Attempt(w, i, cfg, last));
      AttemptReleases(Run(s, Attempts(w, i, cfg, front)), w, i, cfg, job, last, |front|);
    }
  }

  /** After k attempts the message waits again, k receives older, and nothing was sent. */
  ghost predicate StillRetried(s: State, w: nat, i: nat, cfg: Config, tries: seq<Try>, k: nat)
    requires k <= |tries|
  {
    var u := Run(s, Attempts(w, i, cfg, tries[..k]));
    i < |u.msgs| && u.msgs[i].place == Pending && u.msgs[i].attempts == k && u.uploads == s.uploads
  }

  lemma RetriedStill(s: State, w: nat, i: nat, cfg: Config, job: Job, tries: seq<Try>, k: nat)
    requires Waiting(s, w, i, cfg, job, 0) && k < |tries| == s.limits.cap && forall t :: t in tries ==> Retried(job, t)
    ensures StillRetried(s, w, i, cfg, tries, k)
  {
    AttemptsRelease(s, w, i, cfg, job, tries[..k]);
  }

  /** The budget is not only kept but used up: with one worker left to itself, a job that
      every attempt would retry is put back after each attempt but the last, with nothing
      reported, and the last one reports it and removes it. */
  lemma AttemptsFinish(s: State, w: nat, i: nat, cfg: Config, job: Job, tries: seq<Try>)
    requires Waiting(s, w, i, cfg, job, 0) && s.limits.cap >= 1 && |tries| == s.limits.cap
    requires forall t :: t in tries ==> Retried(job, t)
    ensures forall k :: 0 <= k < |tries| ==> StillRetried(s, w, i, cfg, tries, k)
    ensures var u := Run(s, Attempts(w, i, cfg, tries));
            && i < |u.msgs| && u.msgs[i].place == Done
            && |u.runs| == |s.runs| + s.limits.cap
            && |u.uploads| == |s.uploads| + 1 && u.uploads[..|s.uploads|] == s.uploads
            && u.uploads[|s.uploads|].arrived && IdentSent(u.uploads[|s.uploads|]) == IdentOf(job)
            && PayloadSent(u.uploads[|s.uploads|]).summary.verdict == "SE"
  {
    forall k | 0 <= k < |tries|
      ensures StillRetried(s, w, i, cfg, tries, k)
    {
      RetriedStill(s, w, i, cfg, job, tries, k);
    }
    hide StillRetried, Retried, Step;
    var front, last := tries[..|tries| - 1], tries[|tries| - 1];
    AttemptsRelease(s, w, i, cfg, job, front);
    RunAppend(s, Attempts(w, i, cfg, front), Attempt(w, i, cfg, last));
    LastAttemptReports(Run(s, Attempts(w, i, cfg, front)), w, i, cfg, job, last);
  }
}
