/**
 Runs of the lease queue: what every sequence of its operations keeps.
 */
module LeaseRuns {
  import opened Wrappers
  import opened LeaseQueue

  datatype Action<+B> =
    | Publish(body: Option<B>, due: Option<nat>, dead: bool, now: real)
    | Reclaim(id: nat, now: real)
    | Quarantine(id: nat, now: real)
    | Take(id: nat, now: real)
    | Stick(id: nat, counted: bool, now: real)
    | Complete(lease: Lease)
    | Release(lease: Lease)

  /** The queue and, in order, the leases it has handed out. */
  datatype Queue<+B> = Queue(msgs: seq<Msg<B>>, leases: seq<Lease>)

  function Enabled<B>(q: Queue<B>, lim: Limits, a: Action<B>): bool {
    match a
    case Publish(_, _, _, _) => true
    case Reclaim(i, now) => i < |q.msgs| && Expired(q.msgs[i], now, lim.visibility)
    case Quarantine(i, now) => i < |q.msgs| && Offered(q.msgs[i], now)
    case Take(i, now) => i < |q.msgs| && Offered(q.msgs[i], now) && !Poisoned(q.msgs[i], lim.cap)
    case Stick(i, counted, now) =>
      i < |q.msgs| && Offered(q.msgs[i], now) && (counted ==> !Poisoned(q.msgs[i], lim.cap))
    case Complete(l) => l.id < |q.msgs|
    case Release(l) => l.id < |q.msgs|
  }

  /** One action; one that is not enabled does nothing. */
  function Step<B>(q: Queue<B>, lim: Limits, a: Action<B>): Queue<B> {
    if !Enabled(q, lim, a) then q
    else match a
      case Publish(body, due, dead, now) => q.(msgs := q.msgs + [Fresh(body, due, dead, now)])
      case Reclaim(i, now) => q.(msgs := q.msgs[i := Reclaimed(q.msgs[i])])
      case Quarantine(i, now) => q.(msgs := q.msgs[i := Quarantined(q.msgs[i])])
      case Take(i, now) =>
        q.(msgs := q.msgs[i := Leased(q.msgs[i], now)], leases := q.leases + [Lease(i, q.msgs[i].attempts + 1)])
      case Stick(i, counted, now) => q.(msgs := q.msgs[i := Stuck(q.msgs[i], counted)])
      case Complete(l) => q.(msgs := q.msgs[l.id := Completed(q.msgs[l.id], l.attempt)])
      case Release(l) => q.(msgs := q.msgs[l.id := Released(q.msgs[l.id], l.attempt)])
  }

  function Run<B>(q: Queue<B>, lim: Limits, run: seq<Action<B>>): Queue<B>
    decreases |run|
  {
    if run == [] then q else Step(Run(q, lim, run[..|run| - 1]), lim, run[|run| - 1])
  }

  // ---- conservation -----------------------------------------------------

  predicate SameMessage<B(==)>(m: Msg<B>, m': Msg<B>) {
    m'.body == m.body && m'.due == m.due && m.attempts <= m'.attempts
    && (m.place == Done ==> m' == m) && (m.place == Dead ==> m' == m)
  }

  lemma StepKeeps<B>(q: Queue<B>, lim: Limits, a: Action<B>)
    ensures var q' := Step(q, lim, a);
            |q'.msgs| == |q.msgs| + (if a.Publish? then 1 else 0)
            && forall i :: 0 <= i < |q.msgs| ==> SameMessage(q.msgs[i], q'.msgs[i])
  {
  }

  function Publications<B>(run: seq<Action<B>>): nat {
    if run == [] then 0 else Publications(run[..|run| - 1]) + (if run[|run| - 1].Publish? then 1 else 0)
  }

  /** Messages are never lost, merged or rewritten: a run adds exactly one message
      per publication, every earlier one keeps its body, due time and number, and
      a dead or done message never moves again. */
  lemma {:induction false} RunKeeps<B>(q: Queue<B>, lim: Limits, run: seq<Action<B>>)
    ensures var q' := Run(q, lim, run);
            |q'.msgs| == |q.msgs| + Publications(run)
            && forall i :: 0 <= i < |q.msgs| ==> SameMessage(q.msgs[i], q'.msgs[i])
    decreases |run|
  {
    if run != [] {
      var front := run[..|run| - 1];
      RunKeeps(q, lim, front);
      StepKeeps(Run(q, lim, front), lim, run[|run| - 1]);
    }
  }

  /** Only `complete`, by the holder of the current lease, removes a message. */
  lemma {:induction false} OnlyCompleteRemoves<B>(q: Queue<B>, lim: Limits, run: seq<Action<B>>, i: nat)
    requires i < |q.msgs| && q.msgs[i].place != Done
    requires i < |Run(q, lim, run).msgs| && Run(q, lim, run).msgs[i].place == Done
    ensures exists k :: 0 <= k < |run| && run[k].Complete? && run[k].lease.id == i
              && i < |Run(q, lim, run[..k]).msgs| && Held(Run(q, lim, run[..k]).msgs[i], run[k].lease.attempt)
    decreases |run|
  {
    if run != [] {
      var n := |run| - 1;
      var front := run[..n];
      RunKeeps(q, lim, front);
      if Run(q, lim, front).msgs[i].place == Done {
        OnlyCompleteRemoves(q, lim, front, i);
        var k :| 0 <= k < |front| && front[k].Complete? && front[k].lease.id == i
              && i < |Run(q, lim, front[..k]).msgs| && Held(Run(q, lim, front[..k]).msgs[i], front[k].lease.attempt);
        assert front[..k] == run[..k];
        assert run[k] == front[k];
      } else {
        assert run[n].Complete?;
      }
    }
  }

  // ---- the delivery budget ----------------------------------------------

  /** The receive counts handed out for message `i`, in order. */
  function CountsOf(leases: seq<Lease>, i: nat): seq<nat> {
    if leases == [] then []
    else
      var front := CountsOf(leases[..|leases| - 1], i);
      var l := leases[|leases| - 1];
      if l.id == i then front + [l.attempt] else front
  }

  function UpTo(n: nat): seq<nat> { seq(n, k requires 0 <= k => k + 1) }

  predicate Increasing(s: seq<nat>) { forall j, k :: 0 <= j < k < |s| ==> s[j] < s[k] }

  /** Receives counted but not handed out. */
  function Lost<B>(q: Queue<B>, lim: Limits, run: seq<Action<B>>, i: nat): nat
    decreases |run|
  {
    if run == [] then 0
    else
      var n := |run| - 1;
      var before := Run(q, lim, run[..n]);
      var a := run[n];
      Lost(q, lim, run[..n], i)
      + (if a.Stick? && a.id == i && a.counted && Enabled(before, lim, a) then 1 else 0)
  }

  predicate Budget<B>(q: Queue<B>, cap: nat, i: nat, lost: nat) {
    var counts := CountsOf(q.leases, i);
    && Increasing(counts)
    && (forall k :: 0 <= k < |counts| ==> 1 <= counts[k])
    && (if i < |q.msgs| then
          (forall k :: 0 <= k < |counts| ==> counts[k] <= q.msgs[i].attempts)
          && q.msgs[i].attempts <= cap
          && q.msgs[i].attempts == |counts| + lost
        else counts == [] && lost == 0)
    && (lost == 0 ==> counts == UpTo(|counts|))
  }

  lemma CountsOfAppend(leases: seq<Lease>, l: Lease, i: nat)
    ensures CountsOf(leases + [l], i) == if l.id == i then CountsOf(leases, i) + [l.attempt] else CountsOf(leases, i)
  {
    assert (leases + [l])[..|leases|] == leases;
  }

  lemma OneMoreCount(counts: seq<nat>, c: nat, lost: nat)
    requires Increasing(counts) && (forall k :: 0 <= k < |counts| ==> counts[k] < c)
    requires (lost == 0 ==> counts == UpTo(|counts|)) && c == |counts| + lost + 1
    ensures Increasing(counts + [c]) && (lost == 0 ==> counts + [c] == UpTo(|counts| + 1))
  {
  }

  lemma BudgetTake<B>(q: Queue<B>, lim: Limits, j: nat, now: real, i: nat, lost: nat)
    requires Budget(q, lim.cap, i, lost) && Enabled(q, lim, Take(j, now))
    ensures Budget(Step(q, lim, Take(j, now)), lim.cap, i, lost)
  {
    hide CountsOf, UpTo;
    CountsOfAppend(q.leases, Lease(j, q.msgs[j].attempts + 1), i);
    var counts := CountsOf(q.leases, i);
    if i == j {
      OneMoreCount(counts, q.msgs[j].attempts + 1, lost);
    }
  }

  /** Every other action leaves the leases alone, and counts at most once more. */
  lemma BudgetOther<B>(q: Queue<B>, lim: Limits, a: Action<B>, i: nat, lost: nat)
    requires Budget(q, lim.cap, i, lost) && !(a.Take? && Enabled(q, lim, a))
    ensures Budget(Step(q, lim, a), lim.cap, i,
                   lost + if a.Stick? && a.id == i && a.counted && Enabled(q, lim, a) then 1 else 0)
  {
    hide CountsOf, UpTo;
  }

  lemma NothingCounted<B>(cap: nat, i: nat)
    ensures Budget<B>(Queue([], []), cap, i, 0)
  {
    assert CountsOf([], i) == [];
    assert UpTo(0) == [];
  }

  /** Along every run from the empty queue, the leases of one publication carry
      strictly increasing counts between 1 and the cap; they are exactly
      1, 2, 3, ... when no claim was cut off after counting. */
  lemma {:induction false} DeliveryBudget<B>(lim: Limits, run: seq<Action<B>>, i: nat)
    ensures Budget(Run(Queue([], []), lim, run), lim.cap, i, Lost(Queue([], []), lim, run, i))
    decreases |run|
  {
    hide Budget, Step, Enabled;
    if run == [] {
      NothingCounted<B>(lim.cap, i);
    } else {
      var n := |run| - 1;
      DeliveryBudget(lim, run[..n], i);
      var q, lost := Run(Queue([], []), lim, run[..n]), Lost(Queue([], []), lim, run[..n], i);
      if run[n].Take? && Enabled(q, lim, run[n]) {
        BudgetTake(q, lim, run[n].id, run[n].now, i, lost);
      } else {
        BudgetOther(q, lim, run[n], i, lost);
      }
    }
  }

  // ---- exclusivity and stale leases -------------------------------------

  /** Nothing in the run gives the message back: no release or completion by the
      holder, and no clock reading at which the lease had lapsed. */
  predicate Undisturbed<B>(run: seq<Action<B>>, l: Lease, expiry: real) {
    forall k :: 0 <= k < |run| ==>
      match run[k]
      case Complete(x) => x != l
      case Release(x) => x != l
      case Reclaim(j, now) => j == l.id ==> now < expiry
      case _ => true
  }

  /** A leased message belongs to its holder until it is completed, released or
      its visibility runs out: in between, no other claim returns it. */
  lemma {:induction false} LeaseIsExclusive<B>(q: Queue<B>, lim: Limits, run: seq<Action<B>>, l: Lease)
    requires l.id < |q.msgs| && Held(q.msgs[l.id], l.attempt)
    requires Undisturbed(run, l, q.msgs[l.id].stamp + lim.visibility)
    ensures var q' := Run(q, lim, run);
            l.id < |q'.msgs| && q'.msgs[l.id] == q.msgs[l.id]
            && CountsOf(q'.leases, l.id) == CountsOf(q.leases, l.id)
    decreases |run|
  {
    if run != [] {
      var n := |run| - 1;
      LeaseIsExclusive(q, lim, run[..n], l);
      var mid := Run(q, lim, run[..n]);
      if run[n].Take? && Enabled(mid, lim, run[n]) {
        CountsOfAppend(mid.leases, Lease(run[n].id, mid.msgs[run[n].id].attempts + 1), l.id);
      }
    }
  }

  /** Once a message has been received again, its older leases are powerless for
      ever: completing or releasing with them changes nothing. */
  lemma StaleLeaseIsHarmless<B>(q: Queue<B>, lim: Limits, run: seq<Action<B>>, l: Lease)
    requires l.id < |q.msgs| && l.attempt < q.msgs[l.id].attempts
    ensures var q' := Run(q, lim, run);
            Step(q', lim, Complete(l)) == q' && Step(q', lim, Release(l)) == q'
  {
    RunKeeps(q, lim, run);
    var q' := Run(q, lim, run);
    assert q'.msgs[l.id := q'.msgs[l.id]] == q'.msgs;
  }

  /** A message is never handed out before the millisecond it falls due. */
  lemma NeverEarly<B>(q: Queue<B>, lim: Limits, run: seq<Action<B>>, i: nat, now: real)
    requires i < |q.msgs| && q.msgs[i].due.Some?
    requires Run(q, lim, run + [Take(i, now)]).leases != Run(q, lim, run).leases
    ensures q.msgs[i].due.value <= Millis(now)
  {
    RunKeeps(q, lim, run);
    assert (run + [Take(i, now)])[..|run|] == run;
  }
}
