/**
 Every chain of deliveries ends: a path of receives and successors is no longer than the
 receives its messages have between them until the rounds are spent.
 */
module PathLength {
  import opened Numbers
  import opened LeaseQueue
  import opened Delivery
  import opened Protocol
  import opened Invariants
  import opened Chains
  import opened BoundedDelivery
  import SystemQueue
  import LeaseRuns

  /** The queue has counted this receive. */
  predicate Received(s: State, l: Lease) { l.id < |s.msgs| && 1 <= l.attempt <= s.msgs[l.id].attempts }

  ghost predicate IsBorn(s: State, i: nat) { i < |s.origins| && s.origins[i].birth.Born? }

  /** The receives of every pass started along a run have been counted. */
  lemma {:induction false} ClaimsAreReceived(limits: Limits, run: seq<Action>, l: Lease)
    requires l in SystemQueue.ClaimsOf(limits, run)
    ensures Received(Run(Initial(limits), run), l)
    decreases |run|
  {
    var s, a := Run(Initial(limits), run[..|run| - 1]), run[|run| - 1];
    StepGrows(s, a);
    if l in SystemQueue.StartedBy(s, a) {
      ClaimCounts(s, a);
    } else {
      ClaimsAreReceived(limits, run[..|run| - 1], l);
      hide Step;
      assert Later(s.msgs[l.id], Step(s, a).msgs[l.id]);
    }
  }

  lemma ClaimCounts(s: State, a: Action)
    requires SystemQueue.Starts(s, a)
    ensures Received(Step(s, a), Step(s, a).passes[a.w].lease)
  {
  }

  lemma CountsWithinCap(limits: Limits, run: seq<Action>, l: Lease)
    requires Received(Run(Initial(limits), run), l)
    ensures l.attempt <= Run(Initial(limits), run).limits.cap == limits.cap
  {
    SystemQueue.SystemRunsTheQueue(limits, run);
    LeaseRuns.DeliveryBudget(limits, SystemQueue.PartsOf(limits, run), l.id);
  }

  // ---- paths over one message -------------------------------------------

  /** A path that ends on a message nobody's delivery published never left that message. */
  lemma {:induction false} StaysPut(s: State, artifact: Artifact, path: seq<Lease>, k: nat)
    requires Path(s, artifact, path) && k < |path| && !IsBorn(s, path[|path| - 1].id)
    ensures path[k].id == path[|path| - 1].id && path[k].attempt + (|path| - 1 - k) <= path[|path| - 1].attempt
    decreases |path| - k
  {
    if k < |path| - 1 {
      StaysPut(s, artifact, path, k + 1);
      assert Leads(s, artifact, path[k], path[k + 1]);
    }
  }

  lemma ShortPath(s: State, artifact: Artifact, path: seq<Lease>)
    requires path != [] && Path(s, artifact, path) && !IsBorn(s, path[|path| - 1].id)
    ensures |path| <= path[|path| - 1].attempt
  {
    StaysPut(s, artifact, path, 0);
  }

  // ---- paths through successors -----------------------------------------

  lemma {:induction false} RankClimbs(s: State, artifact: Artifact, path: seq<Lease>, k: nat)
    requires Inv(s) && Path(s, artifact, path) && k < |path|
    ensures Rank(s, artifact, path[0]) + k <= Rank(s, artifact, path[k])
  {
    if k > 0 {
      RankClimbs(s, artifact, path, k - 1);
      RanksGrow(s, artifact, path, k - 1, k);
    }
  }

  /** A received successor is a live one, with rounds left when it was published. */
  lemma BornRank(s: State, artifact: Artifact, l: Lease)
    requires Inv(s) && OnCallback(s, artifact, l) && Received(s, l) && IsBorn(s, l.id)
    ensures 1 <= Rank(s, artifact, l)
              <= Allowed(s, artifact, l) + l.attempt + EnvelopeAt(s, artifact, l).sourceAttempt - 2
    ensures IsMarker(s, l.id) && MarkerOf(s, l.id).round >= 1
  {
    assert MessageOk(s, l.id);
  }

  /** No round on a path to a successor is negative: its marker was read. */
  lemma {:induction false} RoundsAreNatural(s: State, artifact: Artifact, path: seq<Lease>, k: nat)
    requires Inv(s) && Path(s, artifact, path) && k < |path|
    requires Received(s, path[|path| - 1]) && IsBorn(s, path[|path| - 1].id)
    ensures IsMarker(s, path[k].id) ==> MarkerOf(s, path[k].id).round >= 0
    decreases |path| - k
  {
    hide Inv;
    if k == |path| - 1 {
      BornRank(s, artifact, path[k]);
    } else {
      RoundsAreNatural(s, artifact, path, k + 1);
      assert Leads(s, artifact, path[k], path[k + 1]);
      if path[k + 1].id != path[k].id {
        ParentWasRead(s, path[k + 1].id);
      }
    }
  }

  lemma ParentWasRead(s: State, i: nat)
    requires Inv(s) && IsBorn(s, i)
    ensures var p := s.origins[i].birth.parent; IsMarker(s, p) ==> MarkerOf(s, p).round >= 0
  {
    OneOriginEach(s);
    assert MessageOk(s, i);
  }

  lemma FirstRank(s: State, artifact: Artifact, path: seq<Lease>)
    requires Inv(s) && path != [] && Path(s, artifact, path)
    requires Received(s, path[|path| - 1]) && IsBorn(s, path[|path| - 1].id)
    ensures Rank(s, artifact, path[0]) >= 1
  {
    RoundsAreNatural(s, artifact, path, 0);
    EnvelopeFromOne(s, artifact, path[0]);
    hide Inv;
  }

  lemma EnvelopeFromOne(s: State, artifact: Artifact, l: Lease)
    requires Inv(s) && OnCallback(s, artifact, l)
    ensures EnvelopeAt(s, artifact, l).sourceAttempt >= 1
  {
  }

  lemma SuccessorPath(s: State, artifact: Artifact, path: seq<Lease>)
    requires Inv(s) && path != [] && Path(s, artifact, path)
    requires Received(s, path[|path| - 1]) && IsBorn(s, path[|path| - 1].id)
    ensures |path| <= path[|path| - 1].attempt + Allowed(s, artifact, path[0])
                      + EnvelopeAt(s, artifact, path[0]).sourceAttempt - 2
  {
    hide Inv, Path, Rank, Allowed, EnvelopeAt, Received, IsBorn;
    var last := |path| - 1;
    OnPath(s, artifact, path, last);
    FirstRank(s, artifact, path);
    RankClimbs(s, artifact, path, last);
    RanksGrow(s, artifact, path, 0, last);
    BornRank(s, artifact, path[last]);
  }

  lemma OnPath(s: State, artifact: Artifact, path: seq<Lease>, k: nat)
    requires Path(s, artifact, path) && k < |path|
    ensures OnCallback(s, artifact, path[k]) && OnCallback(s, artifact, path[0])
  {
  }

  lemma LengthBound(s: State, artifact: Artifact, path: seq<Lease>, cap: nat)
    requires Inv(s) && path != [] && Path(s, artifact, path)
    requires Received(s, path[|path| - 1]) && path[|path| - 1].attempt <= cap
    ensures OnCallback(s, artifact, path[0])
    ensures |path| <= cap + Max(0, Allowed(s, artifact, path[0]) + EnvelopeAt(s, artifact, path[0]).sourceAttempt - 2)
  {
    OnPath(s, artifact, path, 0);
    hide Inv, Path, Allowed, EnvelopeAt, Received, IsBorn;
    if IsBorn(s, path[|path| - 1].id) {
      SuccessorPath(s, artifact, path);
    } else {
      ShortPath(s, artifact, path);
    }
  }

  /** However deliveries fail, crash and fork, no path of counted receives is longer than the
      delivery cap, plus the rounds its callback is allowed and the receives it took to save
      it less two: so every chain of deliveries is finite. */
  lemma PathsAreFinite(limits: Limits, run: seq<Action>, artifact: Artifact, path: seq<Lease>)
    requires path != [] && Path(Run(Initial(limits), run), artifact, path)
    requires forall k :: 0 <= k < |path| ==> Received(Run(Initial(limits), run), path[k])
    ensures var s := Run(Initial(limits), run);
            |path| <= limits.cap
                      + Max(0, Allowed(s, artifact, path[0]) + EnvelopeAt(s, artifact, path[0]).sourceAttempt - 2)
  {
    Reachable(limits, run);
    CountsWithinCap(limits, run, path[|path| - 1]);
    hide *;
    LengthBound(Run(Initial(limits), run), artifact, path, limits.cap);
  }
}
