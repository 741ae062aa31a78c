/**
 Judging is bounded: whatever fails, a published job is executed at most as often as
 the delivery cap allows.
 */
module ExecutionBudget {
  import opened Wrappers
  import opened Numbers
  import opened LeaseQueue
  import opened Delivery
  import opened Protocol
  import opened Invariants
  import opened BoundedDelivery
  import LeaseRuns
  import SystemQueue

  // ---- each lease executes at most once ---------------------------------

  predicate MayStillRun(p: Phase) { p.Started? || p.ToExecute? }

  ghost predicate RunnersFresh(s: State) {
    forall v, n :: v in s.passes && 0 <= n < |s.runs| && s.runs[n].lease == s.passes[v].lease
                   ==> !MayStillRun(s.passes[v].phase)
  }

  ghost predicate RanOnce(s: State) {
    forall n, m :: 0 <= n < |s.runs| && 0 <= m < |s.runs| && s.runs[n].lease == s.runs[m].lease ==> n == m
  }

  lemma RunningEnds(s: State, a: Action, v: nat)
    requires Actor(a) == Some(v) && !a.Claim? && v in Step(s, a).passes && v in s.passes
    ensures MayStillRun(Step(s, a).passes[v].phase) ==> MayStillRun(s.passes[v].phase)
  {
    hide DoWorld, Load, Find, Enveloped, StateOf, Spent, PayloadOf, Given, RawResult;
  }

  lemma RunsMove(s: State, a: Action)
    ensures var t := Step(s, a);
            if a.Execute? && |t.runs| != |s.runs| then
              a.w in s.passes && a.w in t.passes && MayStillRun(s.passes[a.w].phase)
              && !MayStillRun(t.passes[a.w].phase)
              && |t.runs| == |s.runs| + 1 && t.runs[|s.runs|].lease == s.passes[a.w].lease
            else t.runs == s.runs
  {
    hide Load, Find, Enveloped, StateOf, Spent, PayloadOf, Given, RawResult;
  }

  ghost predicate RunnersKept(s: State, t: State) {
    forall v :: v in t.passes ==>
      v in s.passes && t.passes[v].lease == s.passes[v].lease
      && (MayStillRun(t.passes[v].phase) ==> MayStillRun(s.passes[v].phase))
  }

  lemma RunnersMove(s: State, a: Action)
    requires !a.Claim?
    ensures RunnersKept(s, Step(s, a))
  {
    PassShape(s, a);
    forall v | v in Step(s, a).passes
      ensures v in s.passes && Step(s, a).passes[v].lease == s.passes[v].lease
      ensures MayStillRun(Step(s, a).passes[v].phase) ==> MayStillRun(s.passes[v].phase)
    {
      hide Step, MayStillRun;
      if Actor(a) == Some(v) {
        RunningEnds(s, a, v);
      }
    }
  }

  lemma RunsNothing(s: State, t: State)
    requires RunnersFresh(s) && RanOnce(s) && RunnersKept(s, t) && t.runs == s.runs
    ensures RunnersFresh(t) && RanOnce(t)
  {
  }

  lemma RunsNow(s: State, t: State, w: nat)
    requires LeasesDiffer(s) && RunnersFresh(s) && RanOnce(s) && RunnersKept(s, t)
    requires w in s.passes && w in t.passes && MayStillRun(s.passes[w].phase) && !MayStillRun(t.passes[w].phase)
    requires s.runs <= t.runs && |t.runs| == |s.runs| + 1 && t.runs[|s.runs|].lease == s.passes[w].lease
    ensures RunnersFresh(t) && RanOnce(t)
  {
    var k := |s.runs|;
    forall n | 0 <= n < k
      ensures t.runs[n] == s.runs[n] && t.runs[n].lease != t.runs[k].lease
    {
    }
    forall v, n | v in t.passes && 0 <= n < |t.runs| && t.runs[n].lease == t.passes[v].lease
      ensures !MayStillRun(t.passes[v].phase)
    {
      if n == k {
        assert v == w;
      } else {
        assert t.runs[n] == s.runs[n];
      }
    }
  }

  /** A lease that is claimed is a new one: nothing has run under it. */
  lemma ClaimRunsNothing(s: State, w: nat, i: nat, cfg: Config)
    requires Inv(s) && RunnersFresh(s) && RanOnce(s)
    ensures var t := DoClaim(s, w, i, cfg); RunnersFresh(t) && RanOnce(t)
  {
    var t := DoClaim(s, w, i, cfg);
    assert t.runs == s.runs;
    forall n | 0 <= n < |s.runs|
      ensures s.runs[n].lease.id < |s.msgs| && s.runs[n].lease.attempt <= s.msgs[s.runs[n].lease.id].attempts
    {
      assert RunOk(s, s.runs[n]);
    }
    forall v | v in t.passes
      ensures (v in s.passes && t.passes[v] == s.passes[v])
              || (v == w && i < |s.msgs| && t.passes[v].lease == Lease(i, s.msgs[i].attempts + 1))
    {
      ClaimMoves(s, w, i, cfg, v);
    }
  }

  lemma StepRunsOnce(s: State, a: Action)
    requires Inv(s) && LeasesDiffer(s) && RunnersFresh(s) && RanOnce(s)
    ensures var t := Step(s, a); RunnersFresh(t) && RanOnce(t)
  {
    if a.Claim? {
      ClaimRunsNothing(s, a.w, a.id, a.cfg);
    } else {
      hide Step, Inv, LeasesDiffer, RunnersFresh, RanOnce;
      var t := Step(s, a);
      RunnersMove(s, a);
      RunsMove(s, a);
      if t.runs == s.runs {
        RunsNothing(s, t);
      } else {
        StepGrows(s, a);
        RunsNow(s, t, a.w);
      }
    }
  }

  lemma {:induction false} EachLeaseRunsOnce(limits: Limits, run: seq<Action>)
    ensures var s := Run(Initial(limits), run); RunnersFresh(s) && RanOnce(s)
    decreases |run|
  {
    if run != [] {
      var front := run[..|run| - 1];
      EachLeaseRunsOnce(limits, front);
      EachLeaseSendsOnce(limits, front);
      Reachable(limits, front);
      StepRunsOnce(Run(Initial(limits), front), run[|run| - 1]);
    }
  }

  // ---- counting the executions of a message -----------------------------

  function RunsOfMessage(s: State, i: nat): set<nat> { set n: nat | n < |s.runs| && s.runs[n].lease.id == i }

  predicate Counted(s: State, ns: set<nat>, c: int) { exists n :: n in ns && n < |s.runs| && s.runs[n].lease.attempt == c }

  lemma {:induction false} CountsOfRuns(s: State, i: nat, ns: set<nat>) returns (counts: set<int>)
    requires RanOnce(s) && ns <= RunsOfMessage(s, i)
    ensures |counts| == |ns| && forall c :: c in counts ==> Counted(s, ns, c)
    decreases |ns|
  {
    if ns == {} {
      counts := {};
    } else {
      var n :| n in ns;
      var others := CountsOfRuns(s, i, ns - {n});
      var c := s.runs[n].lease.attempt;
      forall m | m in ns - {n}
        ensures s.runs[m].lease.attempt != c
      {
        assert s.runs[m].lease != s.runs[n].lease;
      }
      assert c !in others;
      counts := others + {c};
      forall d | d in counts
        ensures Counted(s, ns, d)
      {
        if d == c {
          assert n in ns && s.runs[n].lease.attempt == d;
        } else {
          var m :| m in ns - {n} && m < |s.runs| && s.runs[m].lease.attempt == d;
          assert m in ns;
        }
      }
    }
  }

  /** Over any run, with any failures, one published message is executed at most as often as
      the cap on its deliveries. */
  lemma ExecutionsAreBounded(limits: Limits, run: seq<Action>, i: nat)
    ensures |RunsOfMessage(Run(Initial(limits), run), i)| <= limits.cap
  {
    var s := Run(Initial(limits), run);
    Reachable(limits, run);
    EachLeaseRunsOnce(limits, run);
    SystemQueue.SystemRunsTheQueue(limits, run);
    LeaseRuns.DeliveryBudget(limits, SystemQueue.PartsOf(limits, run), i);
    var ns := RunsOfMessage(s, i);
    var counts := CountsOfRuns(s, i, ns);
    forall c | c in counts
      ensures 1 <= c <= limits.cap
    {
      var n :| n in ns && n < |s.runs| && s.runs[n].lease.attempt == c;
      assert RunOk(s, s.runs[n]);
    }
    AtMostRange(counts, 1, limits.cap);
  }

  // ---- each worker judges in its own role -------------------------------

  /** Only a pass that has yet to look or goes straight back may have the wrong role. */
  predicate InRole(p: Pass) { p.phase.Started? || p.phase.ToRelease? || p.job.bench == p.cfg.bencher }

  ghost predicate AllInRole(s: State) {
    && (forall v :: v in s.passes ==> InRole(s.passes[v]))
    && forall n :: 0 <= n < |s.runs| ==> s.runs[n].job.bench == s.runs[n].cfg.bencher
  }

  lemma RoleKept(s: State, a: Action, v: nat)
    requires Actor(a) == Some(v) && !a.Claim? && v in Step(s, a).passes && v in s.passes && InRole(s.passes[v])
    ensures InRole(Step(s, a).passes[v])
  {
    hide DoWorld, Load, Find, Enveloped, StateOf, Spent, PayloadOf, Given, RawResult;
  }

  lemma RunInRole(s: State, a: Action)
    requires AllInRole(s)
    ensures forall n :: 0 <= n < |Step(s, a).runs| ==> Step(s, a).runs[n].job.bench == Step(s, a).runs[n].cfg.bencher
  {
    hide Load, Find, Enveloped, StateOf, Spent, PayloadOf, Given, RawResult;
  }

  lemma StepInRole(s: State, a: Action)
    requires AllInRole(s)
    ensures AllInRole(Step(s, a))
  {
    RunInRole(s, a);
    var t := Step(s, a);
    if !a.Claim? {
      PassShape(s, a);
      forall v | v in t.passes
        ensures InRole(t.passes[v])
      {
        hide Step;
        if Actor(a) == Some(v) {
          RoleKept(s, a, v);
        }
      }
    }
  }

  /** In every run, a benchmark is only ever executed by a worker that benchmarks, and anything
      else only by one that does not. */
  lemma {:induction false} OnlyOwnRole(limits: Limits, run: seq<Action>)
    ensures AllInRole(Run(Initial(limits), run))
    ensures forall e :: e in Run(Initial(limits), run).runs ==> e.job.bench == e.cfg.bencher
    decreases |run|
  {
    if run != [] {
      OnlyOwnRole(limits, run[..|run| - 1]);
      StepInRole(Run(Initial(limits), run[..|run| - 1]), run[|run| - 1]);
    }
  }
}
