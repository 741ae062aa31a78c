/**
 A claim over the files, seen by the protocol: the same reclaims, quarantines and
 one lease, as steps of its own.
 */
module ClaimSteps {
  import opened Wrappers
  import opened LeaseQueue
  import opened Delivery
  import opened Protocol
  import LeaseRuns
  import SpoolRefinement

  type QueueAction = LeaseRuns.Action<Job>

  type Queue = LeaseRuns.Queue<Job>

  /** The protocol's step for an action of a claim by worker w. */
  function Mapped(w: nat, cfg: Config, a: QueueAction): Action {
    match a
    case Reclaim(i, _) => Reclaim(i)
    case Quarantine(i, _) => Quarantine(i)
    case Take(i, _) => Claim(w, i, cfg)
    case Stick(i, counted, _) => Stick(i, counted)
    case _ => Crash(w)
  }

  function MappedAll(w: nat, cfg: Config, run: seq<QueueAction>): seq<Action>
    decreases |run|
  {
    if run == [] then [] else MappedAll(w, cfg, run[..|run| - 1]) + [Mapped(w, cfg, run[|run| - 1])]
  }

  /** t is s after a claim that left these messages and, if any, handed out this lease. */
  ghost predicate Claimed(s: State, t: State, w: nat, cfg: Config, msgs: seq<Msg<Job>>, lease: Option<Lease>) {
    && t == s.(msgs := msgs, passes := t.passes)
    && match lease
       case None => t.passes == s.passes
       case Some(l) =>
         l.id < |s.msgs| && s.msgs[l.id].body.Some?
         && t.passes == s.passes[w := Pass(l, s.msgs[l.id].body.value, cfg, s.store.Keys, Started)]
  }

  /** The leases a run has handed out, beyond those there were: none or one. */
  ghost predicate AtMostOne(before: Queue, later: Queue, lease: Option<Lease>) {
    later.leases == before.leases + match lease case None => [] case Some(l) => [l]
  }

  lemma StepMapped(s: State, q: Queue, w: nat, cfg: Config, a: QueueAction) returns (lease: Option<Lease>)
    requires q.msgs == s.msgs && SpoolRefinement.AtMoment(a, s.now) && ConfigOk(cfg) && w !in s.passes
    ensures var q' := LeaseRuns.Step(q, s.limits, a);
            AtMostOne(q, q', lease) && Claimed(s, Step(s, Mapped(w, cfg, a)), w, cfg, q'.msgs, lease)
  {
    if a.Take? && LeaseRuns.Enabled(q, s.limits, a) {
      lease := Some(Lease(a.id, s.msgs[a.id].attempts + 1));
    } else {
      lease := None;
      assert q.leases + [] == q.leases;
    }
  }

  /** Once the lease is out, the rest of the claim hands out no other. */
  lemma StepAfter(s: State, q: Queue, w: nat, cfg: Config, a: QueueAction)
    requires q.msgs == s.msgs && SpoolRefinement.AtMoment(a, s.now)
    requires LeaseRuns.Step(q, s.limits, a).leases == q.leases
    ensures var t := Step(s, Mapped(w, cfg, a));
            t == s.(msgs := LeaseRuns.Step(q, s.limits, a).msgs)
  {
    assert a.Take? && LeaseRuns.Enabled(q, s.limits, a) ==> |LeaseRuns.Step(q, s.limits, a).leases| == |q.leases| + 1;
  }

  lemma {:induction false} LeasesGrow(q: Queue, lim: Limits, run: seq<QueueAction>)
    ensures q.leases <= LeaseRuns.Run(q, lim, run).leases
    decreases |run|
  {
    if run != [] {
      LeasesGrow(q, lim, run[..|run| - 1]);
    }
  }

  /** A claim publishes nothing. */
  lemma {:induction false} NothingPublished(run: seq<QueueAction>, now: real)
    requires SpoolRefinement.Moments(run, now)
    ensures LeaseRuns.Publications(run) == 0
    decreases |run|
  {
    if run != [] {
      NothingPublished(run[..|run| - 1], now);
      assert SpoolRefinement.AtMoment(run[|run| - 1], now);
    }
  }

  predicate SameBodies(msgs: seq<Msg<Job>>, later: seq<Msg<Job>>) {
    |later| == |msgs| && forall i :: 0 <= i < |msgs| ==> later[i].body == msgs[i].body
  }

  lemma BodiesStay(q: Queue, lim: Limits, run: seq<QueueAction>, now: real)
    requires SpoolRefinement.Moments(run, now)
    ensures SameBodies(q.msgs, LeaseRuns.Run(q, lim, run).msgs)
  {
    NothingPublished(run, now);
    LeaseRuns.RunKeeps(q, lim, run);
    var later := LeaseRuns.Run(q, lim, run).msgs;
    forall i | 0 <= i < |q.msgs|
      ensures later[i].body == q.msgs[i].body
    {
      assert LeaseRuns.SameMessage(q.msgs[i], later[i]);
    }
  }

  /** A claim's run of the lease queue is a run of the protocol, and its lease a new pass. */
  lemma {:induction false} RunMapped(s: State, q: Queue, w: nat, cfg: Config, run: seq<QueueAction>, lease: Option<Lease>)
    requires q.msgs == s.msgs && SpoolRefinement.Moments(run, s.now) && ConfigOk(cfg) && w !in s.passes
    requires AtMostOne(q, LeaseRuns.Run(q, s.limits, run), lease)
    ensures Claimed(s, Run(s, MappedAll(w, cfg, run)), w, cfg, LeaseRuns.Run(q, s.limits, run).msgs, lease)
    decreases |run|
  {
    hide Claimed, Step;
    if run == [] {
      NothingClaimed(s, q, w, cfg, lease);
    } else {
      var front, a := run[..|run| - 1], run[|run| - 1];
      var mid := LeaseRuns.Run(q, s.limits, front);
      var t := Run(s, MappedAll(w, cfg, front));
      assert LeaseRuns.Run(q, s.limits, run) == LeaseRuns.Step(mid, s.limits, a);
      RunOneMore(s, MappedAll(w, cfg, front), Mapped(w, cfg, a));
      LeasesGrow(q, s.limits, front);
      LeasesGrowOnce(mid, s.limits, a);
      if lease.Some? && |mid.leases| == |q.leases| {
        // the lease is handed out now
        assert mid.leases == q.leases;
        assert AtMostOne(q, mid, None);
        BodiesStay(q, s.limits, front, s.now);
        RunMapped(s, q, w, cfg, front, None);
        ClaimNow(s, t, mid, w, cfg, a, lease.value);
      } else {
        // it was handed out before, or never is
        assert mid.leases == LeaseRuns.Step(mid, s.limits, a).leases;
        RunMapped(s, q, w, cfg, front, lease);
        ClaimBefore(s, t, mid, w, cfg, a, lease);
      }
    }
  }

  lemma NothingClaimed(s: State, q: Queue, w: nat, cfg: Config, lease: Option<Lease>)
    requires q.msgs == s.msgs && AtMostOne(q, q, lease)
    ensures Claimed(s, s, w, cfg, q.msgs, lease)
  {
    forall l: Lease
      ensures q.leases + [l] != q.leases
    {
      assert |q.leases + [l]| == |q.leases| + 1;
    }
  }

  lemma LeasesGrowOnce(q: Queue, lim: Limits, a: QueueAction)
    ensures var later := LeaseRuns.Step(q, lim, a).leases;
            q.leases <= later && |later| <= |q.leases| + 1 && (|later| == |q.leases| ==> later == q.leases)
  {
  }

  lemma ClaimBefore(s: State, t: State, q: Queue, w: nat, cfg: Config, a: QueueAction, lease: Option<Lease>)
    requires Claimed(s, t, w, cfg, q.msgs, lease) && SpoolRefinement.AtMoment(a, s.now)
    requires LeaseRuns.Step(q, s.limits, a).leases == q.leases
    ensures Claimed(s, Step(t, Mapped(w, cfg, a)), w, cfg, LeaseRuns.Step(q, s.limits, a).msgs, lease)
  {
    StepAfter(t, q, w, cfg, a);
  }

  lemma ClaimNow(s: State, t: State, q: Queue, w: nat, cfg: Config, a: QueueAction, l: Lease)
    requires Claimed(s, t, w, cfg, q.msgs, None) && SpoolRefinement.AtMoment(a, s.now) && ConfigOk(cfg) && w !in s.passes
    requires LeaseRuns.Step(q, s.limits, a).leases == q.leases + [l] && SameBodies(s.msgs, q.msgs)
    ensures Claimed(s, Step(t, Mapped(w, cfg, a)), w, cfg, LeaseRuns.Step(q, s.limits, a).msgs, Some(l))
  {
    var lease := StepMapped(t, q, w, cfg, a);
    assert (q.leases + [l])[|q.leases|] == l;
    assert lease.Some? && (q.leases + [lease.value])[|q.leases|] == lease.value;
  }
}
