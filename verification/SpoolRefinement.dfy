/**
 The spool refines the lease queue: whatever a `claim` over the files does, with
 any mixture of failures, is a run of the one-message actions, so everything
 proved about runs of the lease queue holds of the files.
 */
module SpoolRefinement {
  import opened Wrappers
  import opened LeaseQueue
  import opened LeaseRuns
  import opened LocalQueue

  /** One clock reading, and the message that was leased at it, if one was. */
  datatype Moment = Moment(now: real, leased: Option<nat>)

  /** The action, if any, that takes message i from m to m'. */
  ghost function ActionsOf<B>(m: Msg<B>, m': Msg<B>, i: nat, at: Moment): seq<Action<B>> {
    if at.leased == Some(i) then [Take(i, at.now)]
    else if m' == m then []
    else if m.place == Inflight then [Reclaim(i, at.now)]
    else if m'.place == Dead then [Quarantine(i, at.now)]
    else [Stick(i, m'.attempts != m.attempts, at.now)]
  }

  /** The actions a claim consists of, all at one clock reading. */
  predicate AtMoment<B>(a: Action<B>, now: real) {
    match a
    case Reclaim(_, t) => t == now
    case Quarantine(_, t) => t == now
    case Take(_, t) => t == now
    case Stick(_, _, t) => t == now
    case _ => false
  }

  predicate Moments<B>(run: seq<Action<B>>, now: real) { forall k :: 0 <= k < |run| ==> AtMoment(run[k], now) }

  lemma {:induction false} ActionsAtMoment<B>(before: seq<Msg<B>>, after: seq<Msg<B>>, at: Moment, n: nat)
    requires n <= |before| == |after|
    ensures Moments(Actions(before, after, at, n), at.now)
    decreases n
  {
    if n > 0 {
      ActionsAtMoment(before, after, at, n - 1);
    }
  }

  ghost function Granted<B>(m: Msg<B>, i: nat, at: Moment): seq<Lease> {
    if at.leased == Some(i) then [Lease(i, m.attempts + 1)] else []
  }

  ghost predicate Explained<B>(m: Msg<B>, m': Msg<B>, i: nat, at: Moment, lim: Limits) {
    if at.leased == Some(i) then Offered(m, at.now) && !Poisoned(m, lim.cap) && m' == Leased(m, at.now)
    else
      || m' == m
      || (Expired(m, at.now, lim.visibility) && m' == Reclaimed(m))
      || (Offered(m, at.now) && m' == Quarantined(m))
      || (Offered(m, at.now) && !Poisoned(m, lim.cap) && m' == Stuck(m, true))
      || (Offered(m, at.now) && m' == Stuck(m, false))
  }

  ghost function Actions<B>(before: seq<Msg<B>>, after: seq<Msg<B>>, at: Moment, n: nat): seq<Action<B>>
    requires n <= |before| == |after|
    decreases n
  {
    if n == 0 then [] else Actions(before, after, at, n - 1) + ActionsOf(before[n - 1], after[n - 1], n - 1, at)
  }

  ghost function Grants<B>(before: seq<Msg<B>>, at: Moment, n: nat): seq<Lease>
    requires n <= |before|
    decreases n
  {
    if n == 0 then [] else Grants(before, at, n - 1) + Granted(before[n - 1], n - 1, at)
  }

  lemma {:induction false} RunAppend<B>(q: Queue<B>, lim: Limits, run: seq<Action<B>>, more: seq<Action<B>>)
    ensures Run(q, lim, run + more) == Run(Run(q, lim, run), lim, more)
    decreases |more|
  {
    if more == [] {
      assert run + more == run;
    } else {
      var front := more[..|more| - 1];
      RunAppend(q, lim, run, front);
      assert (run + more)[..|run + more| - 1] == run + front;
    }
  }

  lemma OneStep<B>(q: Queue<B>, lim: Limits, i: nat, m': Msg<B>, at: Moment)
    requires i < |q.msgs| && Explained(q.msgs[i], m', i, at, lim)
    ensures Run(q, lim, ActionsOf(q.msgs[i], m', i, at))
         == Queue(q.msgs[i := m'], q.leases + Granted(q.msgs[i], i, at))
  {
    var acts := ActionsOf(q.msgs[i], m', i, at);
    if acts == [] {
      assert q.msgs[i := m'] == q.msgs;
    } else {
      assert acts[..0] == [];
      assert Run(q, lim, acts) == Step(q, lim, acts[0]);
    }
    assert q.leases + [] == q.leases;
  }

  /** One more message explained. */
  lemma ExplainOne<B>(q: Queue<B>, lim: Limits, run: seq<Action<B>>, grants: seq<Lease>, after: seq<Msg<B>>,
                      at: Moment, i: nat)
    requires i < |q.msgs| == |after| && Explained(q.msgs[i], after[i], i, at, lim)
    requires Run(q, lim, run) == Queue(after[..i] + q.msgs[i..], q.leases + grants)
    ensures Run(q, lim, run + ActionsOf(q.msgs[i], after[i], i, at))
         == Queue(after[..i + 1] + q.msgs[i + 1..], q.leases + (grants + Granted(q.msgs[i], i, at)))
  {
    var mid := Run(q, lim, run);
    OneStep(mid, lim, i, after[i], at);
    RunAppend(q, lim, run, ActionsOf(q.msgs[i], after[i], i, at));
    SwapOne(q.msgs, after, i);
    AssocLeases(q.leases, grants, Granted(q.msgs[i], i, at));
  }

  lemma SwapOne<B>(before: seq<Msg<B>>, after: seq<Msg<B>>, i: nat)
    requires i < |before| == |after|
    ensures (after[..i] + before[i..])[i := after[i]] == after[..i + 1] + before[i + 1..]
  {
  }

  lemma AssocLeases(a: seq<Lease>, b: seq<Lease>, c: seq<Lease>)
    ensures (a + b) + c == a + (b + c)
  {
  }

  /** The run built for the first n messages has done their part. */
  ghost predicate DoneUpTo<B>(q: Queue<B>, lim: Limits, after: seq<Msg<B>>, at: Moment, n: nat)
    requires n <= |q.msgs| == |after|
  {
    Run(q, lim, Actions(q.msgs, after, at, n))
    == Queue(after[..n] + q.msgs[n..], q.leases + Grants(q.msgs, at, n))
  }

  lemma NoneDone<B>(q: Queue<B>, lim: Limits, after: seq<Msg<B>>, at: Moment)
    requires |q.msgs| == |after|
    ensures DoneUpTo(q, lim, after, at, 0)
  {
    assert after[..0] + q.msgs[0..] == q.msgs;
    assert q.leases + [] == q.leases;
  }

  lemma OneMoreDone<B>(q: Queue<B>, lim: Limits, after: seq<Msg<B>>, at: Moment, n: nat)
    requires 0 < n <= |q.msgs| == |after| && Explained(q.msgs[n - 1], after[n - 1], n - 1, at, lim)
    requires DoneUpTo(q, lim, after, at, n - 1)
    ensures DoneUpTo(q, lim, after, at, n)
  {
    var i := n - 1;
    var run, grants := Actions(q.msgs, after, at, i), Grants(q.msgs, at, i);
    ExplainOne(q, lim, run, grants, after, at, i);
    assert Actions(q.msgs, after, at, n) == run + ActionsOf(q.msgs[i], after[i], i, at);
    assert Grants(q.msgs, at, n) == grants + Granted(q.msgs[i], i, at);
  }

  lemma {:induction false} RunExplained<B>(q: Queue<B>, lim: Limits, after: seq<Msg<B>>, at: Moment, n: nat)
    requires n <= |q.msgs| == |after|
    requires forall i :: 0 <= i < n ==> Explained(q.msgs[i], after[i], i, at, lim)
    ensures DoneUpTo(q, lim, after, at, n)
    decreases n
  {
    if n == 0 {
      NoneDone(q, lim, after, at);
    } else {
      RunExplained(q, lim, after, at, n - 1);
      OneMoreDone(q, lim, after, at, n);
    }
  }

  lemma {:induction false} GrantsOfOne<B>(before: seq<Msg<B>>, at: Moment, n: nat)
    requires n <= |before|
    ensures Grants(before, at, n)
         == if at.leased.Some? && at.leased.value < n then
              [Lease(at.leased.value, before[at.leased.value].attempts + 1)]
            else []
    decreases n
  {
    if n > 0 {
      GrantsOfOne(before, at, n - 1);
    }
  }

  /** Messages that each changed by one enabled action have all changed by a run. */
  lemma ExplainedIsARun<B>(q: Queue<B>, lim: Limits, after: seq<Msg<B>>, at: Moment)
    returns (run: seq<Action<B>>)
    requires |q.msgs| == |after| && (at.leased.Some? ==> at.leased.value < |after|)
    requires forall i :: 0 <= i < |after| ==> Explained(q.msgs[i], after[i], i, at, lim)
    ensures Moments(run, at.now)
    ensures Run(q, lim, run) == Queue(after, q.leases +
              if at.leased.Some? then [Lease(at.leased.value, q.msgs[at.leased.value].attempts + 1)] else [])
  {
    hide DoneUpTo, Grants, Run, Moments, Explained;
    RunExplained(q, lim, after, at, |after|);
    run := AllDone(q, lim, after, at);
    GrantsOfOne(q.msgs, at, |after|);
  }

  lemma AllDone<B>(q: Queue<B>, lim: Limits, after: seq<Msg<B>>, at: Moment) returns (run: seq<Action<B>>)
    requires |q.msgs| == |after| && DoneUpTo(q, lim, after, at, |after|)
    ensures Moments(run, at.now) && Run(q, lim, run) == Queue(after, q.leases + Grants(q.msgs, at, |after|))
  {
    run := Actions(q.msgs, after, at, |after|);
    ActionsAtMoment(q.msgs, after, at, |after|);
    assert after[..|after|] + q.msgs[|after|..] == after;
  }

  /** A claim is a run: the reclaims, then what the scan did to each candidate, and
      the lease it answers with is the one lease that run hands out. */
  lemma ClaimIsARun<B>(q: Queue<B>, lim: Limits, was: View<B>, v: View<B>, stop: Option<nat>, now: real,
                       unmovable: seq<bool>, faults: map<string, Fault>, r: Result<Option<Handle<B>>, QueueError>)
    requires |q.msgs| == |was.msgs| == |was.names| == |was.origins| == |unmovable|
    requires forall i :: 0 <= i < |q.msgs| ==> was.msgs[i] == Swept(q.msgs[i], now, lim.visibility, unmovable[i])
    requires Scanned(was, v, stop, now, lim.cap, faults) && Leases(was, v, stop, now, lim.cap, faults, r)
    ensures exists run :: Moments(run, now) && Run(q, lim, run) == Queue(v.msgs,
              q.leases + if r.Ok? && r.value.Some? then [Lease(stop.value, r.value.value.attempt)] else [])
  {
    var sweep := SweepIsARun(q, lim, was.msgs, now, unmovable);
    var mid := Queue(was.msgs, q.leases);
    var scan := ScanIsARun(mid, lim, was, v, stop, now, faults, r);
    RunAppend(q, lim, sweep, scan);
    assert Moments(sweep + scan, now);
  }

  lemma SweepIsARun<B>(q: Queue<B>, lim: Limits, after: seq<Msg<B>>, now: real, unmovable: seq<bool>)
    returns (run: seq<Action<B>>)
    requires |q.msgs| == |after| == |unmovable|
    requires forall i :: 0 <= i < |q.msgs| ==> after[i] == Swept(q.msgs[i], now, lim.visibility, unmovable[i])
    ensures Moments(run, now) && Run(q, lim, run) == Queue(after, q.leases)
  {
    assert q.leases + [] == q.leases;
    run := ExplainedIsARun(q, lim, after, Moment(now, None));
  }

  lemma ScanIsARun<B>(q: Queue<B>, lim: Limits, was: View<B>, v: View<B>, stop: Option<nat>, now: real,
                      faults: map<string, Fault>, r: Result<Option<Handle<B>>, QueueError>)
    returns (run: seq<Action<B>>)
    requires q.msgs == was.msgs && |was.msgs| == |was.names| == |was.origins|
    requires Scanned(was, v, stop, now, lim.cap, faults) && Leases(was, v, stop, now, lim.cap, faults, r)
    ensures Moments(run, now)
    ensures Run(q, lim, run) == Queue(v.msgs,
              q.leases + if r.Ok? && r.value.Some? then [Lease(stop.value, r.value.value.attempt)] else [])
  {
    var at := Moment(now, if r.Ok? && r.value.Some? then stop else None);
    forall i | 0 <= i < |v.msgs|
      ensures Explained(was.msgs[i], v.msgs[i], i, at, lim)
    {
      ScanExplains(was, v, stop, now, lim, faults, r, i);
    }
    run := ExplainedIsARun(q, lim, v.msgs, at);
  }

  lemma ScanExplains<B>(was: View<B>, v: View<B>, stop: Option<nat>, now: real, lim: Limits,
                        faults: map<string, Fault>, r: Result<Option<Handle<B>>, QueueError>, i: nat)
    requires |was.msgs| == |was.names| == |was.origins| && i < |v.msgs|
    requires Scanned(was, v, stop, now, lim.cap, faults) && Leases(was, v, stop, now, lim.cap, faults, r)
    ensures Explained(was.msgs[i], v.msgs[i], i,
                      Moment(now, if r.Ok? && r.value.Some? then stop else None), lim)
  {
  }
}
