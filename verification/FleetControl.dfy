/**
 The fleet's size over time: it grows at once and shrinks only after quiet steps.
 */
module FleetControl {
  import opened Wrappers
  import opened Numbers
  import opened Fleet

  const QUIET_STEPS: nat := 3

  /** What one step reads from outside.  `desired` is None for a region without a group. */
  datatype Observation = Observation(waiting: nat, inflight: nat, caps: seq<nat>, desired: seq<Option<nat>>)

  /** The least r with n <= r * d. */
  function CeilDiv(n: nat, d: nat): nat
    requires d >= 1
  {
    if n % d == 0 then n / d else n / d + 1
  }

  lemma CeilDivIsLeast(n: nat, d: nat, r: nat)
    requires d >= 1
    ensures CeilDiv(n, d) <= r <==> n <= r * d
  {
    var q := n / d;
    assert n == q * d + n % d;
    if r <= q {
      assert r * d <= q * d;
    } else {
      assert (q + 1) * d == q * d + d;
      assert r * d >= (q + 1) * d;
    }
  }

  function Current(desired: seq<Option<nat>>): nat
    decreases |desired|
  {
    if desired == [] then 0
    else
      var last := desired[|desired| - 1];
      Current(desired[..|desired| - 1]) + (if last.Some? then last.value else 0)
  }

  function Wanted(o: Observation, backlog: nat): (n: nat)
    requires backlog >= 1
    ensures n <= Sum(o.caps)
    ensures o.inflight > 0 ==> n >= Min(Sum(o.caps), CeilDiv(o.inflight, backlog))
  {
    var byQueue := if o.waiting > 0 then CeilDiv(o.waiting, backlog) else 0;
    var n := if o.inflight > 0 then Max(byQueue, CeilDiv(o.inflight, backlog)) else byQueue;
    Min(n, Sum(o.caps))
  }

  predicate Shrinks(o: Observation, backlog: nat)
    requires backlog >= 1
  {
    Wanted(o, backlog) < Current(o.desired)
  }

  /** The steps up to the last that all wanted to shrink. */
  function Streak(os: seq<Observation>, backlog: nat): nat
    requires backlog >= 1
    decreases |os|
  {
    if os == [] || !Shrinks(os[|os| - 1], backlog) then 0 else Streak(os[..|os| - 1], backlog) + 1
  }

  /** The size decided on at the last of these steps. */
  function Target(os: seq<Observation>, backlog: nat): nat
    requires backlog >= 1 && os != []
  {
    var last := os[|os| - 1];
    if Shrinks(last, backlog) && Streak(os, backlog) % QUIET_STEPS != 0 then Current(last.desired)
    else Wanted(last, backlog)
  }

  // ---- what the size is -------------------------------------------------

  /** So many instances are enough for the jobs waiting, and for those in flight. */
  predicate Covers(n: nat, o: Observation, backlog: nat) { o.waiting <= n * backlog && o.inflight <= n * backlog }

  /** The sizes present, with 0 for a region without a group. */
  function Sizes(desired: seq<Option<nat>>): seq<nat> {
    seq(|desired|, i requires 0 <= i < |desired| => match desired[i] case Some(n) => n case None => 0)
  }

  lemma {:induction false} CurrentIsSum(desired: seq<Option<nat>>)
    ensures Current(desired) == Sum(Sizes(desired))
    decreases |desired|
  {
    if desired != [] {
      var front := desired[..|desired| - 1];
      CurrentIsSum(front);
      assert Sizes(desired)[..|desired| - 1] == Sizes(front);
    }
  }

  /** The size a step wants is the least that covers its jobs, or all there is room for. */
  lemma WantedIsLeast(o: Observation, backlog: nat, n: nat)
    requires backlog >= 1
    ensures Wanted(o, backlog) <= n <==> Covers(n, o, backlog) || Sum(o.caps) <= n
  {
    CeilDivIsLeast(o.waiting, backlog, n);
    CeilDivIsLeast(o.inflight, backlog, n);
    hide CeilDiv, Sum;
    assert n * backlog >= 0;
  }

  /** A step wants to shrink exactly when there is no room for the present size, or one
      instance fewer would still cover its jobs. */
  lemma ShrinksExactlyWhen(o: Observation, backlog: nat)
    requires backlog >= 1
    ensures var current := Sum(Sizes(o.desired));
            Shrinks(o, backlog) <==> Sum(o.caps) < current || (current > 0 && Covers(current - 1, o, backlog))
  {
    CurrentIsSum(o.desired);
    var current := Current(o.desired);
    if current > 0 {
      WantedIsLeast(o, backlog, current - 1);
    }
  }

  /** The step does not make the fleet wait: it does not want to shrink, or is the third,
      sixth, ... in a row that does. */
  predicate Free(os: seq<Observation>, backlog: nat)
    requires backlog >= 1 && os != []
  {
    !Shrinks(os[|os| - 1], backlog) || Streak(os, backlog) % 3 == 0
  }

  /** The size decided on.  A step that does not make the fleet wait gets the least number of
      instances that covers the jobs waiting and those in flight, or the ceiling where that
      is less; one that does leaves the present size. */
  lemma TargetIsLeastCover(os: seq<Observation>, backlog: nat, n: nat)
    requires backlog >= 1 && os != []
    ensures var last, target := os[|os| - 1], Target(os, backlog);
            && (Free(os, backlog) ==> (target <= n <==> Covers(n, last, backlog) || Sum(last.caps) <= n))
            && (!Free(os, backlog) ==> target == Sum(Sizes(last.desired)))
  {
    WantedIsLeast(os[|os| - 1], backlog, n);
    CurrentIsSum(os[|os| - 1].desired);
  }

  // ---- the controller ---------------------------------------------------

  class Controller {
    const backlogPerInstance: nat
    var quiet: nat
    /** The steps this controller has completed. */
    ghost var seen: seq<Observation>

    ghost predicate Valid()
      reads this
    {
      backlogPerInstance >= 1 && quiet == Streak(seen, backlogPerInstance) % QUIET_STEPS
    }

    constructor (backlog: nat)
      requires backlog >= 1
      ensures Valid() && backlogPerInstance == backlog && seen == []
    {
      backlogPerInstance := backlog;
      quiet := 0;
      seen := [];
    }

    /** One step.  A dry run decides and counts like any other, but applies nothing. */
    method Step(o: Observation, dryRun: bool) returns (target: nat, applied: Option<seq<nat>>)
      requires Valid()
      modifies this`quiet, this`seen
      ensures Valid() && seen == old(seen) + [o]
      ensures target == Target(seen, backlogPerInstance)
      ensures Free(seen, backlogPerInstance) ==>
                forall n: nat :: target <= n <==> Covers(n, o, backlogPerInstance) || Sum(o.caps) <= n
      ensures !Free(seen, backlogPerInstance) ==> target == Sum(Sizes(o.desired))
      ensures applied.Some? <==> !dryRun && target != Current(o.desired)
      ensures applied.Some? ==> Filled(applied.value, o.caps, target) && Sum(applied.value) == target
    {
      hide Wanted, CeilDiv, Current, Sum, Covers, Sizes;
      var wanted := Wanted(o, backlogPerInstance);
      var current := Current(o.desired);
      seen := seen + [o];
      assert seen[..|seen| - 1] == old(seen);
      ghost var before := Streak(old(seen), backlogPerInstance);
      if wanted >= current {
        quiet := 0;
        target := wanted;
      } else {
        quiet := quiet + 1;
        NextQuiet(before);
        if quiet < QUIET_STEPS {
          target := current;
        } else {
          target := wanted;
          quiet := 0;
        }
      }
      var plan, stalled := Spread(target, o.caps);
      applied := if !dryRun && target != current then Some(plan) else None;
      forall n: nat
        ensures Free(seen, backlogPerInstance) ==>
                  (target <= n <==> Covers(n, o, backlogPerInstance) || Sum(o.caps) <= n)
      {
        TargetIsLeastCover(seen, backlogPerInstance, n);
      }
      CurrentIsSum(o.desired);
    }
  }

  lemma NextQuiet(streak: nat)
    ensures (streak + 1) % QUIET_STEPS == if streak % QUIET_STEPS + 1 == QUIET_STEPS then 0 else streak % QUIET_STEPS + 1
  {
  }

  /** Growing is immediate, and what is in flight always fits the fleet's size, unless
      there is no room to size it so. */
  lemma GrowsAtOnce(os: seq<Observation>, backlog: nat)
    requires backlog >= 1 && os != []
    ensures !Shrinks(os[|os| - 1], backlog) ==> Target(os, backlog) == Wanted(os[|os| - 1], backlog)
    ensures Target(os, backlog) >= Min(Sum(os[|os| - 1].caps), CeilDiv(os[|os| - 1].inflight, backlog))
    ensures Target(os, backlog) >= Sum(os[|os| - 1].caps) || os[|os| - 1].inflight <= Target(os, backlog) * backlog
  {
    hide CeilDiv, Current, Sum, Streak;
    var last := os[|os| - 1];
    CeilDivIsLeast(last.inflight, backlog, Target(os, backlog));
    CeilDivIsLeast(0, backlog, 0);
  }

  lemma {:induction false} StreakIsTail(os: seq<Observation>, backlog: nat, n: nat)
    requires backlog >= 1 && n <= |os|
    ensures Streak(os, backlog) >= n <==> forall k :: |os| - n <= k < |os| ==> Shrinks(os[k], backlog)
    decreases |os|
  {
    if n > 0 && os != [] {
      var front := os[..|os| - 1];
      StreakIsTail(front, backlog, n - 1);
      if Streak(os, backlog) >= n {
        forall k | |os| - n <= k < |os|
          ensures Shrinks(os[k], backlog)
        {
          if k < |os| - 1 { assert os[k] == front[k]; }
        }
      }
      if forall k :: |os| - n <= k < |os| ==> Shrinks(os[k], backlog) {
        forall k | |front| - (n - 1) <= k < |front|
          ensures Shrinks(front[k], backlog)
        {
          assert front[k] == os[k];
        }
      }
    }
  }

  /** The size goes down exactly at every third step in a row that wants it down: never
      before that step and the two before it all did. */
  lemma ShrinksOnTheThird(os: seq<Observation>, backlog: nat)
    requires backlog >= 1 && os != []
    ensures var last := os[|os| - 1];
            Target(os, backlog) < Current(last.desired) <==> Shrinks(last, backlog) && Streak(os, backlog) % QUIET_STEPS == 0
    ensures Target(os, backlog) < Current(os[|os| - 1].desired) ==>
              |os| >= 3 && Shrinks(os[|os| - 1], backlog) && Shrinks(os[|os| - 2], backlog) && Shrinks(os[|os| - 3], backlog)
  {
    if Target(os, backlog) < Current(os[|os| - 1].desired) {
      StreakBounded(os, backlog);
      StreakIsTail(os, backlog, 3);
    }
  }

  lemma {:induction false} StreakBounded(os: seq<Observation>, backlog: nat)
    requires backlog >= 1
    ensures Streak(os, backlog) <= |os|
    decreases |os|
  {
    if os != [] {
      StreakBounded(os[..|os| - 1], backlog);
    }
  }
}
