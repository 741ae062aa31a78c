/**
 The retry budget over every run: what becomes of a tokenless job that no attempt can
 judge, whatever the other workers and messages do, as long as its own deliveries are not
 cut short.
 */
module RetryBudget {
  import opened Wrappers
  import opened LeaseQueue
  import opened Executor
  import opened VerdictLaws
  import opened Delivery
  import opened Protocol
  import opened Invariants

  predicate Tokenless(job: Job) { job.token.None? && job.delivery.None? }

  /** Worker w's pass is over message i. */
  predicate Holds(s: State, w: nat, i: nat) { w in s.passes && s.passes[w].lease.id == i }

  /** Every attempt at message i asks to be tried again, and nothing cuts a delivery of it
      short: its workers are of its role and talk to a control plane that answers, none of
      them dies over it, its lease does not run out, its file is not lost sight of, and it
      is released and removed when it should be.  Nothing is asked of other messages. */
  predicate Smooth(s: State, a: Action, i: nat, job: Job) {
    match a
    case Claim(_, id, cfg) => id == i ==> cfg.enabled && cfg.bencher == job.bench
    case Quarantine(id) => id == i ==> i < |s.msgs| && Poisoned(s.msgs[i], s.limits.cap)
    case Stick(id, _) => id != i
    case Reclaim(id) => id == i ==> i < |s.msgs| && !Expired(s.msgs[i], s.now, s.limits.visibility)
    case Crash(w) => !Holds(s, w, i)
    case Panic(w) => !Holds(s, w, i)
    case Execute(w, ran, benched) => Holds(s, w, i) ==> RawResult(job, ran, benched).outcome.status == Retryable
    case Upload(w, arrives, acked) => Holds(s, w, i) ==> arrives && acked
    case Complete(w, ok) => Holds(s, w, i) ==> ok
    case Release(w, ok) => Holds(s, w, i) ==> ok
    case _ => true
  }

  // ---- where message i stands -------------------------------------------

  predicate NoneSent(s: State, i: nat) { forall n :: 0 <= n < |s.uploads| ==> s.uploads[n].lease.id != i }

  /** The report nobody could judge for: a failure without a report, recorded as SE. */
  predicate GaveUp(r: JobResult, uid: string) {
    r.outcome.status == Failed && r.outcome.report.None? && PayloadOf(r, uid).summary.verdict == "SE"
  }

  /** Upload n is the last delivery's report of an execution that gave up. */
  ghost predicate Reported(s: State, n: nat, i: nat) {
    && n < |s.uploads| && s.uploads[n].Direct? && s.uploads[n].arrived && s.uploads[n].lease == Lease(i, s.limits.cap)
    && exists m :: 0 <= m < |s.runs| && s.runs[m].lease == Lease(i, s.limits.cap)
                   && GaveUp(s.runs[m].result, s.runs[m].cfg.uid)
                   && PayloadSent(s.uploads[n]) == PayloadOf(s.runs[m].result, s.runs[m].cfg.uid)
  }

  ghost predicate SentOnceFor(s: State, i: nat) {
    exists n: nat :: Reported(s, n, i) && forall k :: 0 <= k < |s.uploads| && s.uploads[k].lease.id == i ==> k == n
  }

  /** The one pass over message i, and what it is about to do. */
  ghost predicate Underway(s: State, p: Pass, i: nat, job: Job)
    requires i < |s.msgs|
  {
    && p.lease == Lease(i, s.msgs[i].attempts) && p.job == job && p.cfg.enabled && p.cfg.bencher == job.bench
    && match p.phase
       case Started => NoneSent(s, i)
       case ToExecute => NoneSent(s, i)
       case ToReport(r) =>
         NoneSent(s, i) && ResultLogged(s, p, r)
         && if p.lease.attempt < s.limits.cap then r.outcome.status == Retryable else GaveUp(r, p.cfg.uid)
       case ToRelease => NoneSent(s, i) && p.lease.attempt < s.limits.cap
       case ToComplete => SentOnceFor(s, i) && p.lease.attempt == s.limits.cap
       case _ => false
  }

  /** After so many releases. */
  ghost predicate OnTrack(s: State, i: nat, job: Job, released: nat)
    requires i < |s.msgs|
  {
    && s.msgs[i].body == Some(job) && Tokenless(job)
    && match s.msgs[i].place
       case Pending =>
         s.msgs[i].attempts == released < s.limits.cap && NoneSent(s, i) && forall w :: w in s.passes ==> !Holds(s, w, i)
       case Inflight =>
         s.msgs[i].attempts == released + 1 <= s.limits.cap
         && exists w :: Holds(s, w, i) && Underway(s, s.passes[w], i, job)
                        && forall v :: v in s.passes && Holds(s, v, i) ==> v == w
       case Done =>
         s.msgs[i].attempts == released + 1 == s.limits.cap && SentOnceFor(s, i)
         && forall w :: w in s.passes ==> !Holds(s, w, i)
       case Dead => false
  }

  // ---- what does not concern it -----------------------------------------

  /** The step may change message i, its pass or its uploads. */
  predicate Touches(s: State, a: Action, i: nat) {
    match a
    case Quarantine(id) => id == i
    case Stick(id, _) => id == i
    case Reclaim(id) => id == i
    case Claim(w, id, _) => id == i
    case _ => Actor(a).Some? && Holds(s, Actor(a).value, i)
  }

  ghost predicate Untouched(s: State, t: State, i: nat)
    requires i < |s.msgs|
  {
    && i < |t.msgs| && t.msgs[i] == s.msgs[i] && t.limits == s.limits && s.runs <= t.runs && s.uploads <= t.uploads
    && (forall n :: |s.uploads| <= n < |t.uploads| ==> t.uploads[n].lease.id != i)
    && (forall w :: w in t.passes && Holds(t, w, i) ==> w in s.passes && t.passes[w] == s.passes[w])
    && (forall w :: w in s.passes && Holds(s, w, i) ==> w in t.passes && t.passes[w] == s.passes[w])
  }

  lemma OthersLeaveTheMessage(s: State, a: Action, i: nat)
    requires i < |s.msgs| && !Touches(s, a, i)
    ensures i < |Step(s, a).msgs| && Step(s, a).msgs[i] == s.msgs[i]
  {
    hide Load, Find, Enveloped, StateOf, Spent, PayloadOf, Given, RawResult, Next, Message;
  }

  lemma OthersLeaveItsPass(s: State, a: Action, i: nat, w: nat)
    requires !Touches(s, a, i)
    ensures var t := Step(s, a);
            (w in t.passes && Holds(t, w, i) ==> w in s.passes && t.passes[w] == s.passes[w])
            && (w in s.passes && Holds(s, w, i) ==> w in t.passes && t.passes[w] == s.passes[w])
  {
    if !a.Claim? {
      PassShape(s, a);
      hide Step;
    }
  }

  lemma OthersLeaveItsUploads(s: State, a: Action, i: nat)
    requires !Touches(s, a, i)
    ensures var t := Step(s, a);
            forall n :: |s.uploads| <= n < |t.uploads| ==> t.uploads[n].lease.id != i
  {
    hide Load, Find, Enveloped, StateOf, Spent, PayloadOf, Given, RawResult, Next, Message;
  }

  lemma OthersLeaveIt(s: State, a: Action, i: nat)
    requires i < |s.msgs| && !Touches(s, a, i)
    ensures Untouched(s, Step(s, a), i)
  {
    hide Step, Touches, Holds;
    OthersLeaveTheMessage(s, a, i);
    OthersLeaveItsUploads(s, a, i);
    StepGrows(s, a);
    forall w
      ensures w in Step(s, a).passes && Holds(Step(s, a), w, i) ==>
                w in s.passes && Step(s, a).passes[w] == s.passes[w]
      ensures w in s.passes && Holds(s, w, i) ==> w in Step(s, a).passes && Step(s, a).passes[w] == s.passes[w]
    {
      OthersLeaveItsPass(s, a, i, w);
    }
  }

  lemma ReportedKept(s: State, t: State, n: nat, i: nat)
    requires Reported(s, n, i) && t.limits == s.limits && s.runs <= t.runs && s.uploads <= t.uploads
    ensures Reported(t, n, i)
  {
    var m :| 0 <= m < |s.runs| && s.runs[m].lease == Lease(i, s.limits.cap)
             && GaveUp(s.runs[m].result, s.runs[m].cfg.uid)
             && PayloadSent(s.uploads[n]) == PayloadOf(s.runs[m].result, s.runs[m].cfg.uid);
    assert t.runs[m] == s.runs[m] && t.uploads[n] == s.uploads[n];
  }

  lemma SentKept(s: State, t: State, i: nat)
    requires i < |s.msgs| && Untouched(s, t, i)
    ensures SentOnceFor(s, i) ==> SentOnceFor(t, i)
    ensures NoneSent(s, i) ==> NoneSent(t, i)
  {
    if SentOnceFor(s, i) {
      var n: nat :| Reported(s, n, i) && forall k :: 0 <= k < |s.uploads| && s.uploads[k].lease.id == i ==> k == n;
      ReportedKept(s, t, n, i);
      forall k | 0 <= k < |t.uploads| && t.uploads[k].lease.id == i
        ensures k == n
      {
        assert k < |s.uploads| && t.uploads[k] == s.uploads[k];
      }
    }
    if NoneSent(s, i) {
      forall k | 0 <= k < |t.uploads|
        ensures t.uploads[k].lease.id != i
      {
        assert k < |s.uploads| ==> t.uploads[k] == s.uploads[k];
      }
    }
  }

  lemma UnderwayKept(s: State, t: State, p: Pass, i: nat, job: Job)
    requires i < |s.msgs| && Untouched(s, t, i) && Underway(s, p, i, job)
    ensures Underway(t, p, i, job)
  {
    SentKept(s, t, i);
    if p.phase.ToReport? {
      var r := p.phase.result;
      var n :| 0 <= n < |s.runs| && s.runs[n].result == r && s.runs[n].cfg == p.cfg && s.runs[n].lease == p.lease;
      assert t.runs[n] == s.runs[n];
    }
  }

  lemma UntouchedKeeps(s: State, t: State, i: nat, job: Job, released: nat)
    requires i < |s.msgs| && Untouched(s, t, i) && OnTrack(s, i, job, released)
    ensures OnTrack(t, i, job, released)
  {
    SentKept(s, t, i);
    hide SentOnceFor, NoneSent;
    if s.msgs[i].place == Inflight {
      var w :| Holds(s, w, i) && Underway(s, s.passes[w], i, job) && forall v :: v in s.passes && Holds(s, v, i) ==> v == w;
      UnderwayKept(s, t, s.passes[w], i, job);
      assert Holds(t, w, i) && Underway(t, t.passes[w], i, job);
    }
  }

  // ---- its own steps ----------------------------------------------------

  lemma HolderIs(s: State, i: nat, job: Job, released: nat, w: nat)
    requires i < |s.msgs| && OnTrack(s, i, job, released) && Holds(s, w, i)
    ensures s.msgs[i].place == Inflight && s.msgs[i].attempts == released + 1 <= s.limits.cap
    ensures Underway(s, s.passes[w], i, job) && forall v :: v in s.passes && Holds(s, v, i) ==> v == w
  {
    assert w in s.passes;
  }

  /** Its pass moves on, and nothing about the message changes. */
  lemma HolderMoves(s: State, t: State, w: nat, q: Pass, i: nat, job: Job, released: nat)
    requires i < |s.msgs| && OnTrack(s, i, job, released) && Holds(s, w, i)
    requires t.msgs == s.msgs && t.limits == s.limits && t.passes == s.passes[w := q]
    requires q.lease == s.passes[w].lease && Underway(t, q, i, job)
    ensures OnTrack(t, i, job, released)
  {
    HolderIs(s, i, job, released, w);
    hide Underway;
    assert Holds(t, w, i) && Underway(t, t.passes[w], i, job);
    forall v | v in t.passes && Holds(t, v, i)
      ensures v == w
    {
      assert v != w ==> v in s.passes && Holds(s, v, i);
    }
  }

  /** An attempt that asked to be tried again: it is, or it is the one that gave up. */
  lemma RetryOrGiveUp(job: Job, ran: Ran, benched: Outcome, attempt: nat, cap: nat, uid: string)
    requires RawResult(job, ran, benched).outcome.status == Retryable
    ensures var r := Given(RawResult(job, ran, benched), attempt, cap);
            if attempt < cap then r.outcome.status == Retryable else GaveUp(r, uid)
  {
    RetryableIsNeverCharged(RawResult(job, ran, benched).outcome, attempt, cap);
  }

  lemma GivenTwice(r: JobResult, attempt: nat, cap: nat, uid: string)
    requires if attempt < cap then r.outcome.status == Retryable else GaveUp(r, uid)
    ensures Given(r, attempt, cap) == r
  {
  }

  lemma LookupKeeps(s: State, w: nat, ok: bool, i: nat, job: Job, released: nat)
    requires Inv(s) && i < |s.msgs| && OnTrack(s, i, job, released) && Holds(s, w, i)
    ensures i < |DoLookup(s, w, ok).msgs| && OnTrack(DoLookup(s, w, ok), i, job, released)
  {
    HolderIs(s, i, job, released, w);
    OneOriginEach(s);
    var p := s.passes[w];
    var t := DoLookup(s, w, ok);
    if p.phase.Started? {
      assert t == Goto(s, w, ToExecute);
      HolderMoves(s, t, w, p.(phase := ToExecute), i, job, released);
    } else {
      assert t == s;
    }
  }

  lemma ExecuteKeeps(s: State, w: nat, ran: Ran, benched: Outcome, i: nat, job: Job, released: nat)
    requires Inv(s) && i < |s.msgs| && OnTrack(s, i, job, released) && Holds(s, w, i)
    requires RawResult(job, ran, benched).outcome.status == Retryable
    ensures i < |DoExecute(s, w, ran, benched).msgs| && OnTrack(DoExecute(s, w, ran, benched), i, job, released)
  {
    HolderIs(s, i, job, released, w);
    OneOriginEach(s);
    var p := s.passes[w];
    var t := DoExecute(s, w, ran, benched);
    if p.phase.ToExecute? {
      var r := Given(RawResult(job, ran, benched), p.lease.attempt, s.limits.cap);
      RetryOrGiveUp(job, ran, benched, p.lease.attempt, s.limits.cap, p.cfg.uid);
      assert t.passes == s.passes[w := p.(phase := ToReport(r))];
      assert t.runs[|s.runs|].result == r && t.runs[|s.runs|].cfg == p.cfg && t.runs[|s.runs|].lease == p.lease;
      HolderMoves(s, t, w, p.(phase := ToReport(r)), i, job, released);
    } else {
      assert t == s;
    }
  }

  lemma UploadKeeps(s: State, w: nat, i: nat, job: Job, released: nat)
    requires Inv(s) && i < |s.msgs| && OnTrack(s, i, job, released) && Holds(s, w, i)
    ensures i < |DoUpload(s, w, true, true).msgs| && OnTrack(DoUpload(s, w, true, true), i, job, released)
  {
    hide Inv, NoneSent, SentOnceFor, GaveUp;
    HolderIs(s, i, job, released, w);
    OneOriginEach(s);
    var p := s.passes[w];
    var t := DoUpload(s, w, true, true);
    if p.phase.ToReport? {
      var r := p.phase.result;
      GivenTwice(r, p.lease.attempt, s.limits.cap, p.cfg.uid);
      if p.lease.attempt < s.limits.cap {
        assert t == Goto(s, w, ToRelease);
        SameLog(s, t, i);
        HolderMoves(s, t, w, p.(phase := ToRelease), i, job, released);
      } else {
        var u := Direct(p.lease, PayloadOf(r, p.cfg.uid), true);
        assert t == Goto(Sent(s, u), w, ToComplete);
        LastReport(s, t, p, r, i);
        HolderMoves(s, t, w, p.(phase := ToComplete), i, job, released);
      }
    } else {
      assert t == s;
    }
  }

  /** The report of the last delivery is the first and only one of its message. */
  lemma LastReport(s: State, t: State, p: Pass, r: JobResult, i: nat)
    requires NoneSent(s, i) && ResultLogged(s, p, r) && GaveUp(r, p.cfg.uid) && p.lease == Lease(i, s.limits.cap)
    requires t.limits == s.limits && t.runs == s.runs
    requires t.uploads == s.uploads + [Direct(p.lease, PayloadOf(r, p.cfg.uid), true)]
    ensures SentOnceFor(t, i)
  {
    var m :| 0 <= m < |s.runs| && s.runs[m].result == r && s.runs[m].cfg == p.cfg && s.runs[m].lease == p.lease;
    assert Reported(t, |s.uploads|, i);
    assert forall k :: 0 <= k < |s.uploads| ==> t.uploads[k] == s.uploads[k];
  }

  /** This step puts message i back. */
  predicate GivesBack(s: State, a: Action, i: nat) {
    a.Release? && a.ok && Holds(s, a.w, i) && s.passes[a.w].phase.ToRelease?
  }

  lemma SameLog(s: State, t: State, i: nat)
    requires t.limits == s.limits && t.runs == s.runs && t.uploads == s.uploads
    ensures NoneSent(s, i) ==> NoneSent(t, i)
    ensures SentOnceFor(s, i) ==> SentOnceFor(t, i)
  {
    if SentOnceFor(s, i) {
      var n: nat :| Reported(s, n, i) && forall k :: 0 <= k < |s.uploads| && s.uploads[k].lease.id == i ==> k == n;
      ReportedKept(s, t, n, i);
    }
  }

  lemma ReleaseKeeps(s: State, w: nat, i: nat, job: Job, released: nat)
    requires Inv(s) && i < |s.msgs| && OnTrack(s, i, job, released) && Holds(s, w, i)
    ensures var t := DoRelease(s, w, true);
            i < |t.msgs| && OnTrack(t, i, job, released + if s.passes[w].phase.ToRelease? then 1 else 0)
  {
    HolderIs(s, i, job, released, w);
    OneOriginEach(s);
    var t := DoRelease(s, w, true);
    if s.passes[w].phase.ToRelease? {
      assert t.msgs == s.msgs[i := Released(s.msgs[i], s.msgs[i].attempts)] && t.passes == s.passes - {w};
      SameLog(s, t, i);
      hide SentOnceFor, NoneSent;
    } else {
      assert t == s;
    }
  }

  lemma CompleteKeeps(s: State, w: nat, i: nat, job: Job, released: nat)
    requires Inv(s) && i < |s.msgs| && OnTrack(s, i, job, released) && Holds(s, w, i)
    ensures i < |DoComplete(s, w, true).msgs| && OnTrack(DoComplete(s, w, true), i, job, released)
  {
    hide Inv, NoneSent, SentOnceFor, GaveUp, ResultLogged;
    HolderIs(s, i, job, released, w);
    OneOriginEach(s);
    var t := DoComplete(s, w, true);
    if s.passes[w].phase.ToComplete? {
      assert t.msgs == s.msgs[i := Completed(s.msgs[i], s.msgs[i].attempts)] && t.passes == s.passes - {w};
      SameLog(s, t, i);
    } else {
      assert t == s;
    }
  }

  lemma ClaimKeeps(s: State, w: nat, cfg: Config, i: nat, job: Job, released: nat)
    requires Inv(s) && i < |s.msgs| && OnTrack(s, i, job, released) && cfg.enabled && cfg.bencher == job.bench
    ensures i < |DoClaim(s, w, i, cfg).msgs| && OnTrack(DoClaim(s, w, i, cfg), i, job, released)
  {
    var t := DoClaim(s, w, i, cfg);
    if t != s {
      assert s.msgs[i].place == Pending;
      SameLog(s, t, i);
      hide SentOnceFor, NoneSent;
      assert Holds(t, w, i) && Underway(t, t.passes[w], i, job);
      forall v | v in t.passes && Holds(t, v, i)
        ensures v == w
      {
        assert v != w ==> v in s.passes && Holds(s, v, i);
      }
    }
  }

  /** The rest of what the pass over it might be asked to do does not apply to it. */
  lemma IdleKeeps(s: State, a: Action, i: nat, job: Job, released: nat)
    requires Inv(s) && i < |s.msgs| && OnTrack(s, i, job, released) && Actor(a).Some? && Holds(s, Actor(a).value, i)
    requires a.Claim? || a.Misroute? || a.Persist? || a.Deliver? || a.Publish?
    ensures Step(s, a) == s
  {
    HolderIs(s, i, job, released, Actor(a).value);
  }

  /** Nor does a quarantine, or a reclaim, that is not called for. */
  lemma UncalledKeeps(s: State, a: Action, i: nat, job: Job, released: nat)
    requires i < |s.msgs| && OnTrack(s, i, job, released) && Smooth(s, a, i, job)
    requires (a.Quarantine? || a.Reclaim?) && a.id == i
    ensures Step(s, a) == s
  {
  }

  lemma StepKeepsTrack(s: State, a: Action, i: nat, job: Job, released: nat)
    requires Inv(s) && i < |s.msgs| && OnTrack(s, i, job, released) && Smooth(s, a, i, job)
    ensures i < |Step(s, a).msgs| && OnTrack(Step(s, a), i, job, released + if GivesBack(s, a, i) then 1 else 0)
  {
    hide OnTrack, Inv, DoLookup, DoExecute, DoUpload, DoRelease, DoComplete, DoClaim, DoPersist, DoDeliver, DoPublish,
         DoWorld;
    if !Touches(s, a, i) {
      OthersLeaveIt(s, a, i);
      UntouchedKeeps(s, Step(s, a), i, job, released);
    } else if a.Claim? && Holds(s, a.w, i) {
      IdleKeeps(s, a, i, job, released);
    } else {
      match a
      case Claim(w, _, cfg) => ClaimKeeps(s, w, cfg, i, job, released);
      case Lookup(w, ok) => LookupKeeps(s, w, ok, i, job, released);
      case Execute(w, ran, benched) => ExecuteKeeps(s, w, ran, benched, i, job, released);
      case Upload(w, _, _) => UploadKeeps(s, w, i, job, released);
      case Release(w, _) => ReleaseKeeps(s, w, i, job, released);
      case Complete(w, _) => CompleteKeeps(s, w, i, job, released);
      case _ =>
        if a.Quarantine? || a.Reclaim? {
          UncalledKeeps(s, a, i, job, released);
        } else {
          IdleKeeps(s, a, i, job, released);
        }
    }
  }

  // ---- every run --------------------------------------------------------

  ghost predicate SmoothRun(s: State, run: seq<Action>, i: nat, job: Job) {
    forall k :: 0 <= k < |run| ==> Smooth(Run(s, run[..k]), run[k], i, job)
  }

  /** How often the run puts message i back. */
  ghost function Releases(s: State, run: seq<Action>, i: nat): nat
    decreases |run|
  {
    if run == [] then 0
    else
      var front := run[..|run| - 1];
      Releases(s, front, i) + if GivesBack(Run(s, front), run[|run| - 1], i) then 1 else 0
  }

  lemma {:induction false} RunKeepsTrack(s: State, run: seq<Action>, i: nat, job: Job)
    requires Inv(s) && i < |s.msgs| && OnTrack(s, i, job, 0) && SmoothRun(s, run, i, job)
    ensures var t := Run(s, run); Inv(t) && i < |t.msgs| && OnTrack(t, i, job, Releases(s, run, i))
    decreases |run|
  {
    if run != [] {
      hide OnTrack, Inv, Smooth, GivesBack, Step;
      var front := run[..|run| - 1];
      forall k | 0 <= k < |front|
        ensures Smooth(Run(s, front[..k]), front[k], i, job)
      {
        assert front[..k] == run[..k] && front[k] == run[k];
      }
      RunKeepsTrack(s, front, i, job);
      assert Smooth(Run(s, run[..|run| - 1]), run[|run| - 1], i, job);
      StepKeepsTrack(Run(s, front), run[|run| - 1], i, job, Releases(s, front, i));
      StepKeeps(Run(s, front), run[|run| - 1]);
    }
  }

  function UploadsOf(s: State, i: nat): set<nat> { set n: nat | n < |s.uploads| && s.uploads[n].lease.id == i }

  lemma SubmittedOnTrack(s: State, job: Job, due: Option<nat>, tier: string)
    requires Inv(s) && Tokenless(job) && s.limits.cap >= 1
    ensures var t := Step(s, Submit(Some(job), due, tier));
            Inv(t) && |t.msgs| == |s.msgs| + 1 && OnTrack(t, |s.msgs|, job, 0)
  {
    var t := Step(s, Submit(Some(job), due, tier));
    StepKeeps(s, Submit(Some(job), due, tier));
    assert t == DoWorld(s, Submit(Some(job), due, tier));
    forall w | w in t.passes
      ensures !Holds(t, w, |s.msgs|)
    {
      PassOf(s, w);
    }
    forall n | 0 <= n < |t.uploads|
      ensures t.uploads[n].lease.id != |s.msgs|
    {
      assert UploadOk(s, s.uploads[n]);
    }
  }

  /** A tokenless job that every attempt would retry, published on any reachable state, and
      whatever else goes on in the system: it never lands in the dead letters, it is
      reported at most once and not before its last delivery, and when it is gone it was
      released exactly cap - 1 times and then reported, by an execution that failed
      without a report and as SE. */
  lemma EveryRunKeepsTheBudget(limits: Limits, before: seq<Action>, job: Job, due: Option<nat>, tier: string,
                               later: seq<Action>)
    requires limits.cap >= 1 && Tokenless(job)
    requires var s := Run(Initial(limits), before);
             SmoothRun(Step(s, Submit(Some(job), due, tier)), later, |s.msgs|, job)
    ensures var i := |Run(Initial(limits), before).msgs|;
            var s := Step(Run(Initial(limits), before), Submit(Some(job), due, tier));
            var t := Run(s, later);
            && i < |t.msgs| && t.msgs[i].place != Dead
            && |UploadsOf(t, i)| <= 1 && Releases(s, later, i) < limits.cap
            && (UploadsOf(t, i) != {} ==> t.msgs[i].attempts == limits.cap)
            && (t.msgs[i].place == Done ==>
                  && t.msgs[i].attempts == limits.cap && Releases(s, later, i) == limits.cap - 1
                  && exists n: nat :: UploadsOf(t, i) == {n} && Reported(t, n, i))
  {
    var s0 := Run(Initial(limits), before);
    Reachable(limits, before);
    RunGrows(Initial(limits), before);
    SubmittedOnTrack(s0, job, due, tier);
    var s := Step(s0, Submit(Some(job), due, tier));
    StepGrows(s0, Submit(Some(job), due, tier));
    RunKeepsTrack(s, later, |s0.msgs|, job);
    RunGrows(s, later);
    Reading(Run(s, later), |s0.msgs|, job, Releases(s, later, |s0.msgs|));
  }

  lemma Reading(t: State, i: nat, job: Job, released: nat)
    requires i < |t.msgs| && OnTrack(t, i, job, released)
    ensures t.msgs[i].place != Dead && |UploadsOf(t, i)| <= 1 && released < t.limits.cap
    ensures UploadsOf(t, i) != {} ==> t.msgs[i].attempts == t.limits.cap
    ensures t.msgs[i].place == Done ==>
              t.msgs[i].attempts == t.limits.cap && released == t.limits.cap - 1
              && exists n: nat :: UploadsOf(t, i) == {n} && Reported(t, n, i)
  {
    if NoneSent(t, i) {
      assert UploadsOf(t, i) == {};
    }
    if SentOnceFor(t, i) {
      var n: nat :| Reported(t, n, i) && forall k :: 0 <= k < |t.uploads| && t.uploads[k].lease.id == i ==> k == n;
      assert UploadsOf(t, i) == {n};
    }
  }
}
