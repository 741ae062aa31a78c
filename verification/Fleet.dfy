/**
 Placing instances over regions, and deciding how many there should be.

 Regions are numbered in the order the configuration lists them.
 */
module Fleet {
  import opened Numbers

  function Sum(s: seq<nat>): nat
    decreases |s|
  {
    if s == [] then 0 else Sum(s[..|s| - 1]) + s[|s| - 1]
  }

  lemma {:induction false} SumUpdate(s: seq<nat>, i: nat, v: nat)
    requires i < |s|
    ensures Sum(s[i := v]) == Sum(s) - s[i] + v
    decreases |s|
  {
    var n := |s| - 1;
    if i == n {
      assert s[i := v][..n] == s[..n];
    } else {
      SumUpdate(s[..n], i, v);
      assert s[i := v][..n] == s[..n][i := v];
    }
  }

  lemma {:induction false} SumMonotone(s: seq<nat>, t: seq<nat>)
    requires |s| == |t| && forall i :: 0 <= i < |s| ==> s[i] <= t[i]
    ensures Sum(s) <= Sum(t)
    ensures Sum(s) == Sum(t) ==> s == t
    decreases |s|
  {
    if s != [] {
      var n := |s| - 1;
      SumMonotone(s[..n], t[..n]);
      assert s == s[..n] + [s[n]] && t == t[..n] + [t[n]];
    }
  }

  // ---- the order of a round ---------------------------------------------

  /** Roomiest first; regions with as much room keep their order. */
  predicate Before(room: seq<int>, x: nat, y: nat)
    requires x < |room| && y < |room|
  {
    room[x] > room[y] || (room[x] == room[y] && x < y)
  }

  predicate Indices(order: seq<nat>, n: nat) { forall k :: 0 <= k < |order| ==> order[k] < n }

  predicate Sorted(room: seq<int>, order: seq<nat>)
    requires Indices(order, |room|)
  {
    forall j, k :: 0 <= j < k < |order| ==> Before(room, order[j], order[k])
  }

  function Insert(room: seq<int>, order: seq<nat>, x: nat): (r: seq<nat>)
    requires x < |room| && Indices(order, x)
    ensures Indices(r, x + 1)
    ensures forall y :: y in r <==> y == x || y in order
    decreases |order|
  {
    if order == [] then [x]
    else
      var n := |order| - 1;
      assert order == order[..n] + [order[n]];
      if room[order[n]] >= room[x] then order + [x] else Insert(room, order[..n], x) + [order[n]]
  }

  /** The first n regions, in the order a round visits them. */
  function ByRoom(room: seq<int>, n: nat): (r: seq<nat>)
    requires n <= |room|
    ensures Indices(r, n)
    ensures forall y :: y in r <==> 0 <= y < n
    decreases n
  {
    if n == 0 then [] else Insert(room, ByRoom(room, n - 1), n - 1)
  }

  /** Each region once, roomiest first. */
  ghost predicate IsRound(room: seq<int>, order: seq<nat>) {
    Indices(order, |room|) && Sorted(room, order) && forall y :: 0 <= y < |room| ==> y in order
  }

  lemma {:induction false} InsertSorts(room: seq<int>, order: seq<nat>, x: nat)
    requires x < |room| && Indices(order, x) && Sorted(room, order)
    ensures Sorted(room, Insert(room, order, x))
    decreases |order|
  {
    if order != [] {
      var n := |order| - 1;
      if room[order[n]] >= room[x] {
        forall k | 0 <= k < n + 1
          ensures Before(room, order[k], x)
        {
          if k < n { assert Before(room, order[k], order[n]); }
        }
      } else {
        var rest := Insert(room, order[..n], x);
        InsertSorts(room, order[..n], x);
        forall k | 0 <= k < |rest|
          ensures Before(room, rest[k], order[n])
        {
          assert rest[k] in rest;
          if rest[k] != x {
            var a :| 0 <= a < n && order[..n][a] == rest[k];
            assert Before(room, order[a], order[n]);
          }
        }
      }
    }
  }

  lemma {:induction false} ByRoomSorts(room: seq<int>, n: nat)
    requires n <= |room|
    ensures Sorted(room, ByRoom(room, n))
    decreases n
  {
    if n > 0 {
      ByRoomSorts(room, n - 1);
      InsertSorts(room, ByRoom(room, n - 1), n - 1);
    }
  }

  // ---- what a placement is ----------------------------------------------

  /** Every region stands at level k, up to its cap, or one above. */
  predicate AtLevel(plan: seq<nat>, caps: seq<nat>, k: nat)
    requires |plan| == |caps|
  {
    forall r :: 0 <= r < |caps| ==> Min(caps[r], k) <= plan[r] <= Min(caps[r], k + 1)
  }

  /** The level's last round went to the largest caps, and among equals to the first. */
  predicate LastRoundFair(plan: seq<nat>, caps: seq<nat>, k: nat)
    requires |plan| == |caps|
  {
    forall r, q :: 0 <= r < |caps| && 0 <= q < |caps| && plan[r] == k + 1 && plan[q] == k && caps[q] > k ==>
      caps[r] > caps[q] || (caps[r] == caps[q] && r < q)
  }

  /** A water-filling placement of `total` instances. */
  ghost predicate Filled(plan: seq<nat>, caps: seq<nat>, total: int) {
    |plan| == |caps|
    && (forall r :: 0 <= r < |caps| ==> plan[r] <= caps[r])
    && Sum(plan) == Max(0, Min(total, Sum(caps)))
    && exists k: nat :: AtLevel(plan, caps, k) && LastRoundFair(plan, caps, k)
  }

  // ---- placing ----------------------------------------------------------

  function Level(caps: seq<nat>, k: nat): (s: seq<nat>)
    ensures |s| == |caps| && forall r :: 0 <= r < |caps| ==> s[r] == Min(caps[r], k)
  {
    seq(|caps|, r requires 0 <= r < |caps| => Min(caps[r], k))
  }

  function RoomOf(caps: seq<nat>, plan: seq<nat>): (s: seq<int>)
    requires |plan| == |caps|
    ensures |s| == |caps| && forall r :: 0 <= r < |caps| ==> s[r] == (caps[r] as int) - (plan[r] as int)
  {
    seq(|caps|, r requires 0 <= r < |caps| => (caps[r] as int) - (plan[r] as int))
  }

  predicate Visited(order: seq<nat>, j: nat, r: nat)
    requires j <= |order|
  {
    exists a :: 0 <= a < j && order[a] == r
  }

  /** Part of the way through a round at level k: the regions visited are one up. */
  predicate MidRound(plan: seq<nat>, caps: seq<nat>, k: nat, order: seq<nat>, j: nat)
    requires |plan| == |caps| && j <= |order|
  {
    forall r :: 0 <= r < |caps| ==> plan[r] == Min(caps[r], if Visited(order, j, r) then k + 1 else k)
  }

  lemma RoundStops(plan: seq<nat>, caps: seq<nat>, k: nat, order: seq<nat>, j: nat)
    requires |plan| == |caps| && j <= |order| && IsRound(RoomOf(caps, Level(caps, k)), order)
    requires MidRound(plan, caps, k, order, j)
    ensures AtLevel(plan, caps, k) && LastRoundFair(plan, caps, k)
  {
    forall r, q | 0 <= r < |caps| && 0 <= q < |caps| && plan[r] == k + 1 && plan[q] == k && caps[q] > k
      ensures caps[r] > caps[q] || (caps[r] == caps[q] && r < q)
    {
      assert Visited(order, j, r) && !Visited(order, j, q);
      assert q in order;
      var a :| 0 <= a < j && order[a] == r;
      var b :| 0 <= b < |order| && order[b] == q;
      assert Before(RoomOf(caps, Level(caps, k)), order[a], order[b]);
    }
  }

  lemma {:induction false} NothingPlaced(s: seq<nat>)
    requires forall i :: 0 <= i < |s| ==> s[i] == 0
    ensures Sum(s) == 0
    decreases |s|
  {
    if s != [] {
      NothingPlaced(s[..|s| - 1]);
    }
  }

  /** Raising the region whose turn it is, if it has room, carries the round one further. */
  lemma RoundGoesOn(plan: seq<nat>, caps: seq<nat>, k: nat, order: seq<nat>, j: nat)
    requires |plan| == |caps| && j < |order| && IsRound(RoomOf(caps, Level(caps, k)), order)
    requires MidRound(plan, caps, k, order, j)
    ensures var r := order[j];
            MidRound(if plan[r] < caps[r] then plan[r := plan[r] + 1] else plan, caps, k, order, j + 1)
  {
    var r := order[j];
    var next := if plan[r] < caps[r] then plan[r := plan[r] + 1] else plan;
    forall a | 0 <= a < j
      ensures order[a] != r
    {
      assert Before(RoomOf(caps, Level(caps, k)), order[a], order[j]);
    }
    forall q | 0 <= q < |caps|
      ensures next[q] == Min(caps[q], if Visited(order, j + 1, q) then k + 1 else k)
    {
      assert order[j] == q ==> Visited(order, j + 1, q);
      if Visited(order, j, q) {
        var a :| 0 <= a < j && order[a] == q;
        assert Visited(order, j + 1, q);
      } else if Visited(order, j + 1, q) {
        var a :| 0 <= a < j + 1 && order[a] == q;
        assert a == j;
      }
    }
  }

  /** The loop places everything there is room for, level by level.  It never comes
      to a round that finds no region with room. */
  method Spread(total: int, caps: seq<nat>) returns (plan: seq<nat>, ghost stalled: bool)
    ensures Filled(plan, caps, total)
    ensures !stalled
  {
    hide Filled, AtLevel, LastRoundFair, MidRound, IsRound, Sum, ByRoom, Level, RoomOf;
    stalled := false;
    plan := seq(|caps|, _ => 0);
    NothingPlaced(plan);
    LevelIsFair(caps, 0);
    ZeroIsLevel(caps, plan);
    var remaining := Min(total, Sum(caps));
    ghost var goal := remaining;
    ghost var k: nat := 0;
    while remaining > 0
      invariant |plan| == |caps| && AtLevel(plan, caps, k) && LastRoundFair(plan, caps, k)
      invariant Max(0, remaining) + Sum(plan) == Max(0, goal)
      invariant remaining > 0 ==> plan == Level(caps, k)
      invariant !stalled
      decreases remaining
    {
      var progressed := false;
      var order := ByRoom(RoomOf(caps, plan), |caps|);
      RoundStarts(caps, k);
      ghost var before := remaining;
      var j := 0;
      while j < |order| && remaining > 0
        invariant j <= |order| && |plan| == |caps| && MidRound(plan, caps, k, order, j)
        invariant 0 <= remaining && remaining + Sum(plan) == goal
        invariant if progressed then remaining < before else remaining == before && plan == Level(caps, k)
      {
        var r := order[j];
        RoundGoesOn(plan, caps, k, order, j);
        if plan[r] < caps[r] {
          SumUpdate(plan, r, plan[r] + 1);
          plan := plan[r := plan[r] + 1];
          remaining := remaining - 1;
          progressed := true;
        }
        j := j + 1;
      }
      RoundStops(plan, caps, k, order, j);
      if j == |order| {
        RoundEnds(plan, caps, k, order);
        k := k + 1;
      }
      if !progressed {
        FullRound(caps, k - 1);
        stalled := true;
        break;
      }
    }
    PlacementIsFilled(plan, caps, total, k);
  }

  /** A round that raised nobody found every region full. */
  lemma FullRound(caps: seq<nat>, k: nat)
    requires Level(caps, k) == Level(caps, k + 1)
    ensures Level(caps, k) == caps
  {
    forall r | 0 <= r < |caps|
      ensures Level(caps, k)[r] == caps[r]
    {
      assert Level(caps, k)[r] == Level(caps, k + 1)[r];
    }
  }

  lemma LevelIsFair(caps: seq<nat>, k: nat)
    ensures AtLevel(Level(caps, k), caps, k) && LastRoundFair(Level(caps, k), caps, k)
  {
  }

  lemma ZeroIsLevel(caps: seq<nat>, plan: seq<nat>)
    requires |plan| == |caps| && forall r :: 0 <= r < |plan| ==> plan[r] == 0
    ensures plan == Level(caps, 0)
  {
  }

  lemma RoundStarts(caps: seq<nat>, k: nat)
    ensures var room := RoomOf(caps, Level(caps, k));
            var order := ByRoom(room, |caps|);
            IsRound(room, order) && MidRound(Level(caps, k), caps, k, order, 0)
  {
    ByRoomSorts(RoomOf(caps, Level(caps, k)), |caps|);
  }

  lemma PlacementIsFilled(plan: seq<nat>, caps: seq<nat>, total: int, k: nat)
    requires |plan| == |caps| && AtLevel(plan, caps, k) && LastRoundFair(plan, caps, k)
    requires Sum(plan) == Max(0, Min(total, Sum(caps)))
    ensures Filled(plan, caps, total)
  {
  }

  lemma RoundEnds(plan: seq<nat>, caps: seq<nat>, k: nat, order: seq<nat>)
    requires |plan| == |caps| && IsRound(RoomOf(caps, Level(caps, k)), order)
    requires MidRound(plan, caps, k, order, |order|)
    ensures plan == Level(caps, k + 1)
    ensures AtLevel(plan, caps, k + 1) && LastRoundFair(plan, caps, k + 1)
  {
    forall r: nat | r < |caps|
      ensures plan[r] == Level(caps, k + 1)[r]
    {
      assert r in order;
      assert Visited(order, |order|, r);
    }
  }

  // ---- what decides a placement -----------------------------------------

  /** There is only one such placement: level, cap, fairness and the total say it all. */
  lemma PlacementIsUnique(plan: seq<nat>, other: seq<nat>, caps: seq<nat>, total: int)
    requires Filled(plan, caps, total) && Filled(other, caps, total)
    ensures plan == other
  {
    var k: nat :| AtLevel(plan, caps, k) && LastRoundFair(plan, caps, k);
    var m: nat :| AtLevel(other, caps, m) && LastRoundFair(other, caps, m);
    if k <= m {
      SameLevel(plan, other, caps, k, m);
    } else {
      SameLevel(other, plan, caps, m, k);
    }
  }

  lemma SameLevel(plan: seq<nat>, other: seq<nat>, caps: seq<nat>, k: nat, m: nat)
    requires |plan| == |caps| == |other| && Sum(plan) == Sum(other) && k <= m
    requires AtLevel(plan, caps, k) && LastRoundFair(plan, caps, k)
    requires AtLevel(other, caps, m) && LastRoundFair(other, caps, m)
    ensures plan == other
  {
    if k < m {
      SumMonotone(plan, other);
    } else if r :| 0 <= r < |caps| && plan[r] < other[r] {
      // r is up in `other` only, so whoever is up in `plan` comes before r and is up in both
      forall q | 0 <= q < |caps|
        ensures plan[q] <= other[q]
      {
      }
      SumMonotone(plan, other);
    } else {
      SumMonotone(other, plan);
    }
  }
}
