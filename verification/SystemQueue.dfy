/**
 The queue inside the whole system is the lease queue: whatever the workers do, its
 messages change by the lease queue's own actions, and the leases they hold are the
 ones it handed out, so its laws hold of them.
 */
module SystemQueue {
  import opened Wrappers
  import opened LeaseQueue
  import opened Delivery
  import opened Protocol
  import opened Invariants
  import LeaseRuns

  type QueueAction = LeaseRuns.Action<Job>

  type Queue = LeaseRuns.Queue<Job>

  /** The lease queue's part in a step of the system, if it has one. */
  ghost function PartOf(s: State, a: Action): Option<QueueAction> {
    var t := Step(s, a);
    if |t.msgs| > |s.msgs| then
      var m := t.msgs[|s.msgs|];
      Some(LeaseRuns.Publish(m.body, m.due, m.place == Dead, s.now))
    else if t.msgs == s.msgs then None
    else
      match a
      case Reclaim(i) => Some(LeaseRuns.Reclaim(i, s.now))
      case Quarantine(i) => Some(LeaseRuns.Quarantine(i, s.now))
      case Stick(i, counted) => Some(LeaseRuns.Stick(i, counted, s.now))
      case Claim(_, i, _) => Some(LeaseRuns.Take(i, s.now))
      case Complete(w, _) => if w in s.passes then Some(LeaseRuns.Complete(s.passes[w].lease)) else None
      case Release(w, _) => if w in s.passes then Some(LeaseRuns.Release(s.passes[w].lease)) else None
      case _ => None
  }

  ghost function PartsOf(limits: Limits, run: seq<Action>): seq<QueueAction>
    decreases |run|
  {
    if run == [] then []
    else
      var front := run[..|run| - 1];
      var part := PartOf(Run(Initial(limits), front), run[|run| - 1]);
      PartsOf(limits, front) + match part case None => [] case Some(q) => [q]
  }

  /** The claim started a pass: it took effect. */
  ghost predicate Starts(s: State, a: Action) { a.Claim? && a.w !in s.passes && a.w in Step(s, a).passes }

  /** The leases of the passes started along a run, in order. */
  ghost function ClaimsOf(limits: Limits, run: seq<Action>): seq<Lease>
    decreases |run|
  {
    if run == [] then []
    else
      var s, a := Run(Initial(limits), run[..|run| - 1]), run[|run| - 1];
      ClaimsOf(limits, run[..|run| - 1]) + StartedBy(s, a)
  }

  ghost function StartedBy(s: State, a: Action): seq<Lease> {
    if Starts(s, a) then [Step(s, a).passes[a.w].lease] else []
  }

  function StepPart(q: Queue, lim: Limits, part: Option<QueueAction>): Queue {
    match part
    case None => q
    case Some(a) => LeaseRuns.Step(q, lim, a)
  }

  lemma PublishPart(s: State, a: Action, q: Queue)
    requires q.msgs == s.msgs && |Step(s, a).msgs| > |s.msgs|
    ensures StepPart(q, s.limits, PartOf(s, a)) == LeaseRuns.Queue(Step(s, a).msgs, q.leases) && !Starts(s, a)
  {
    hide Load, Find, Enveloped, StateOf, Spent, PayloadOf, Given, RawResult, Next, Message;
  }

  lemma ClaimPart(s: State, a: Action, q: Queue)
    requires q.msgs == s.msgs && |Step(s, a).msgs| <= |s.msgs| && (a.Claim? || a.Complete? || a.Release?)
    ensures StepPart(q, s.limits, PartOf(s, a)) == LeaseRuns.Queue(Step(s, a).msgs, q.leases + StartedBy(s, a))
  {
  }

  lemma OtherPart(s: State, a: Action, q: Queue)
    requires q.msgs == s.msgs && |Step(s, a).msgs| <= |s.msgs| && !(a.Claim? || a.Complete? || a.Release?)
    ensures StepPart(q, s.limits, PartOf(s, a)) == LeaseRuns.Queue(Step(s, a).msgs, q.leases)
  {
    hide Load, Find, Enveloped, StateOf, Spent, PayloadOf, Given, RawResult, Next, Message;
  }

  lemma OnePart(s: State, a: Action, q: Queue)
    requires q.msgs == s.msgs
    ensures StepPart(q, s.limits, PartOf(s, a)) == LeaseRuns.Queue(Step(s, a).msgs, q.leases + StartedBy(s, a))
  {
    hide Step, PartOf;
    if |Step(s, a).msgs| > |s.msgs| {
      PublishPart(s, a, q);
    } else if a.Claim? || a.Complete? || a.Release? {
      ClaimPart(s, a, q);
    } else {
      OtherPart(s, a, q);
    }
  }

  /** A claim takes effect exactly when the worker is free and set up within its bounds, and the
      message waits, parses, has receives left and is due; it then starts a pass on that very
      receive, which is counted and stamped with the clock. */
  lemma ClaimedExactlyWhen(s: State, w: nat, i: nat, cfg: Config)
    ensures var t := Step(s, Claim(w, i, cfg));
            if && w !in s.passes && i < |s.msgs| && s.msgs[i].place == Pending && s.msgs[i].body.Some?
               && s.msgs[i].attempts + 1 <= s.limits.cap
               && (s.msgs[i].due.None? || s.msgs[i].due.value <= (s.now * 1000.0).Floor)
               && cfg.maxRounds >= 1 && cfg.maxRounds <= 100 && cfg.window >= 1.0
            then
              && t.msgs == s.msgs[i := Msg(s.msgs[i].body, s.msgs[i].due, Inflight, s.msgs[i].attempts + 1, s.now)]
              && t.passes == s.passes[w := Pass(Lease(i, s.msgs[i].attempts + 1), s.msgs[i].body.value, cfg, s.store.Keys,
                                                Started)]
            else t == s
  {
    hide DoWorld, DoLookup, DoExecute, DoPersist, DoDeliver, DoUpload, DoPublish, DoComplete, DoRelease;
  }

  /** Every run of the system is, for its queue, a run of the lease queue: the same
      messages, and the leases handed out are those of the passes started. */
  lemma {:induction false} SystemRunsTheQueue(limits: Limits, run: seq<Action>)
    ensures LeaseRuns.Run(LeaseRuns.Queue([], []), limits, PartsOf(limits, run))
            == LeaseRuns.Queue(Run(Initial(limits), run).msgs, ClaimsOf(limits, run))
    ensures Run(Initial(limits), run).limits == limits
    decreases |run|
  {
    if run != [] {
      var front, a := run[..|run| - 1], run[|run| - 1];
      SystemRunsTheQueue(limits, front);
      var s := Run(Initial(limits), front);
      var parts := PartsOf(limits, front);
      var q := LeaseRuns.Run(LeaseRuns.Queue([], []), limits, parts);
      OnePart(s, a, q);
      StepGrows(s, a);
      match PartOf(s, a) {
        case None => assert PartsOf(limits, run) == parts;
        case Some(part) => assert PartsOf(limits, run)[..|parts|] == parts;
      }
    }
  }

  // ---- what the lease queue's laws say of the system --------------------

  /** The step gives the leased message back: its holder completes or releases it and the
      call goes through, or the lease has lapsed and is reclaimed. */
  ghost predicate HandsBack(s: State, a: Action, l: Lease)
    requires l.id < |s.msgs|
  {
    match a
    case Complete(w, ok) => ok && In(s, w) && s.passes[w].phase.ToComplete? && s.passes[w].lease == l
    case Release(w, ok) => ok && In(s, w) && s.passes[w].phase.ToRelease? && s.passes[w].lease == l
    case Reclaim(i) => i == l.id && Expired(s.msgs[i], s.now, s.limits.visibility)
    case _ => false
  }

  /** No claim of message `i` takes effect in this step. */
  ghost predicate NoLeaseOf(s: State, a: Action, i: nat) { forall l :: l in StartedBy(s, a) ==> l.id != i }

  lemma HeldThroughClaim(s: State, a: Action, l: Lease)
    requires l.id < |s.msgs| && Held(s.msgs[l.id], l.attempt) && (a.Claim? || a.Complete? || a.Release?)
    ensures l.id < |Step(s, a).msgs|
    ensures Step(s, a).msgs[l.id] == s.msgs[l.id] <==> !HandsBack(s, a, l)
    ensures NoLeaseOf(s, a, l.id)
  {
  }

  lemma HeldThroughOther(s: State, a: Action, l: Lease)
    requires l.id < |s.msgs| && Held(s.msgs[l.id], l.attempt) && !(a.Claim? || a.Complete? || a.Release?)
    ensures l.id < |Step(s, a).msgs|
    ensures Step(s, a).msgs[l.id] == s.msgs[l.id] <==> !HandsBack(s, a, l)
    ensures NoLeaseOf(s, a, l.id)
  {
    hide Load, Find, Enveloped, StateOf, Spent, PayloadOf, Given, RawResult, Next, Message;
  }

  lemma HeldThroughStep(s: State, a: Action, l: Lease)
    requires l.id < |s.msgs| && Held(s.msgs[l.id], l.attempt)
    ensures l.id < |Step(s, a).msgs|
    ensures Step(s, a).msgs[l.id] == s.msgs[l.id] <==> !HandsBack(s, a, l)
    ensures NoLeaseOf(s, a, l.id)
  {
    hide Step, HandsBack, NoLeaseOf;
    if a.Claim? || a.Complete? || a.Release? {
      HeldThroughClaim(s, a, l);
    } else {
      HeldThroughOther(s, a, l);
    }
  }

  /** After the run, the message is as it was before. */
  ghost predicate Unchanged(s: State, later: seq<Action>, i: nat) {
    i < |s.msgs| && i < |Run(s, later).msgs| && Run(s, later).msgs[i] == s.msgs[i]
  }

  /** The step after the run does not give the message back. */
  ghost predicate Kept(s: State, later: seq<Action>, a: Action, l: Lease) {
    l.id < |Run(s, later).msgs| && !HandsBack(Run(s, later), a, l)
  }

  lemma OneMoreHeld(s: State, later: seq<Action>, k: nat, l: Lease)
    requires k < |later| && Unchanged(s, later[..k], l.id) && Held(s.msgs[l.id], l.attempt)
    ensures Unchanged(s, later[..k + 1], l.id) <==> Kept(s, later[..k], later[k], l)
    ensures NoLeaseOf(Run(s, later[..k]), later[k], l.id)
  {
    hide HandsBack, NoLeaseOf;
    UnrollOne(s, later, k);
    HeldThroughStep(Run(s, later[..k]), later[k], l);
  }

  lemma {:induction false} Stays(s: State, later: seq<Action>, l: Lease, k: nat)
    requires l.id < |s.msgs| && Held(s.msgs[l.id], l.attempt) && k <= |later|
    requires forall j :: 0 <= j < k ==> Kept(s, later[..j], later[j], l)
    ensures Unchanged(s, later[..k], l.id)
  {
    hide Kept, HandsBack;
    if k > 0 {
      Stays(s, later, l, k - 1);
      OneMoreHeld(s, later, k - 1, l);
    } else {
      assert later[..0] == [];
    }
  }

  /** A leased message is its holder's alone.  It stays as it is exactly as long as the
      holder does not complete or release it and its lapsed lease is not reclaimed; and
      while it stays, whatever the other workers do, no claim of it takes effect. */
  lemma HolderIsAlone(s: State, later: seq<Action>, l: Lease)
    requires l.id < |s.msgs| && Held(s.msgs[l.id], l.attempt)
    ensures (forall k :: 0 <= k < |later| ==> Kept(s, later[..k], later[k], l))
            <==> (forall k :: 0 <= k <= |later| ==> Unchanged(s, later[..k], l.id))
    ensures (forall k :: 0 <= k < |later| ==> Kept(s, later[..k], later[k], l)) ==>
              forall k :: 0 <= k < |later| ==> NoLeaseOf(Run(s, later[..k]), later[k], l.id)
  {
    hide *;
    if forall k :: 0 <= k < |later| ==> Kept(s, later[..k], later[k], l) {
      forall k | 0 <= k <= |later|
        ensures Unchanged(s, later[..k], l.id)
      {
        Stays(s, later, l, k);
      }
    }
    if forall k :: 0 <= k <= |later| ==> Unchanged(s, later[..k], l.id) {
      forall k | 0 <= k < |later|
        ensures Kept(s, later[..k], later[k], l) && NoLeaseOf(Run(s, later[..k]), later[k], l.id)
      {
        assert Unchanged(s, later[..k], l.id) && Unchanged(s, later[..k + 1], l.id);
        OneMoreHeld(s, later, k, l);
      }
    }
  }

  /** The receives of one message carry strictly increasing counts between 1 and the cap,
      whichever workers they go to. */
  lemma ReceivesAreNumbered(limits: Limits, run: seq<Action>, i: nat)
    ensures var counts := LeaseRuns.CountsOf(ClaimsOf(limits, run), i);
            LeaseRuns.Increasing(counts) && forall k :: 0 <= k < |counts| ==> 1 <= counts[k] <= limits.cap
  {
    SystemRunsTheQueue(limits, run);
    LeaseRuns.DeliveryBudget(limits, PartsOf(limits, run), i);
  }

  /** No lease in the system carries a count above the cap, or a count of zero. */
  lemma LeasesWithinTheCap(limits: Limits, run: seq<Action>, w: nat)
    requires w in Run(Initial(limits), run).passes
    ensures 1 <= Run(Initial(limits), run).passes[w].lease.attempt <= limits.cap
  {
    SystemRunsTheQueue(limits, run);
    Reachable(limits, run);
    var s := Run(Initial(limits), run);
    PassOf(s, w);
    var i := s.passes[w].lease.id;
    LeaseRuns.DeliveryBudget(limits, PartsOf(limits, run), i);
  }
}
