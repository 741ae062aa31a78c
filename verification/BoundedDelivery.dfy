/**
 Deliveries are bounded: the attempt number grows along each path of receives and
 successors, so that a path makes a bounded number of uploads, even where failed
 deletes have made it fork.
 */
module BoundedDelivery {
  import opened Wrappers
  import opened LeaseQueue
  import opened Delivery
  import opened Protocol
  import opened Invariants
  import opened Chains
  import opened Numbers

  // ---- each lease sends at most once ------------------------------------

  predicate MayStillSend(p: Phase) { !p.ToPublish? && !p.ToComplete? && !p.ToRelease? }

  ghost predicate LeasesDiffer(s: State) {
    forall v, w :: v in s.passes && w in s.passes && s.passes[v].lease == s.passes[w].lease ==> v == w
  }

  ghost predicate SendersFresh(s: State) {
    forall v, n :: v in s.passes && 0 <= n < |s.uploads| && s.uploads[n].lease == s.passes[v].lease
                   ==> !MayStillSend(s.passes[v].phase)
  }

  ghost predicate SentOnce(s: State) {
    forall n, m :: 0 <= n < |s.uploads| && 0 <= m < |s.uploads| && s.uploads[n].lease == s.uploads[m].lease ==> n == m
  }

  /** A pass keeps its lease, and once past sending never comes back to it. */
  lemma PassMoves(s: State, a: Action, v: nat)
    requires v in Step(s, a).passes && !a.Claim?
    ensures var q := Step(s, a).passes[v];
            v in s.passes && q.lease == s.passes[v].lease
            && (MayStillSend(q.phase) ==> MayStillSend(s.passes[v].phase))
  {
    PassShape(s, a);
    if Actor(a) == Some(v) {
      SendingEnds(s, a, v);
    }
  }

  lemma SendingEnds(s: State, a: Action, v: nat)
    requires Actor(a) == Some(v) && !a.Claim? && v in Step(s, a).passes && v in s.passes
    ensures MayStillSend(Step(s, a).passes[v].phase) ==> MayStillSend(s.passes[v].phase)
  {
    hide DoWorld, Load, Find, Enveloped, StateOf, Spent, PayloadOf, Given, RawResult;
  }

  /** An upload is that of a running pass which might still send, and then may not. */
  lemma UploadsMove(s: State, a: Action)
    ensures var t := Step(s, a);
            if a.Upload? && |t.uploads| != |s.uploads| then
              a.w in s.passes && a.w in t.passes && MayStillSend(s.passes[a.w].phase)
              && !MayStillSend(t.passes[a.w].phase)
              && |t.uploads| == |s.uploads| + 1 && t.uploads[|s.uploads|].lease == s.passes[a.w].lease
            else t.uploads == s.uploads
  {
    hide Load, Find, Enveloped, StateOf, Spent, PayloadOf, Given, RawResult;
  }

  lemma ClaimMoves(s: State, w: nat, i: nat, cfg: Config, v: nat)
    requires v in DoClaim(s, w, i, cfg).passes
    ensures var t := DoClaim(s, w, i, cfg);
            (v in s.passes && t.passes[v] == s.passes[v])
            || (v == w && v !in s.passes && i < |s.msgs| && t.passes[v].lease == Lease(i, s.msgs[i].attempts + 1))
  {
  }

  lemma ClaimSendsOnce(s: State, w: nat, i: nat, cfg: Config)
    requires Inv(s) && LeasesDiffer(s) && SendersFresh(s) && SentOnce(s)
    ensures var t := DoClaim(s, w, i, cfg); LeasesDiffer(t) && SendersFresh(t) && SentOnce(t)
  {
    var t := DoClaim(s, w, i, cfg);
    assert t.uploads == s.uploads;
    forall v | v in t.passes && v in s.passes
      ensures t.passes[v] == s.passes[v] && t.passes[v].lease.attempt <= s.msgs[t.passes[v].lease.id].attempts
    {
      ClaimMoves(s, w, i, cfg, v);
      PassOf(s, v);
    }
    forall n | 0 <= n < |s.uploads|
      ensures s.uploads[n].lease.id < |s.msgs| && s.uploads[n].lease.attempt <= s.msgs[s.uploads[n].lease.id].attempts
    {
      assert UploadOk(s, s.uploads[n]);
    }
    forall v | v in t.passes && v !in s.passes
      ensures v == w && i < |s.msgs| && t.passes[v].lease == Lease(i, s.msgs[i].attempts + 1)
    {
      ClaimMoves(s, w, i, cfg, v);
    }
  }

  /** No pass changed its lease or took up sending again. */
  ghost predicate PassesKept(s: State, t: State) {
    forall v :: v in t.passes ==>
      v in s.passes && t.passes[v].lease == s.passes[v].lease
      && (MayStillSend(t.passes[v].phase) ==> MayStillSend(s.passes[v].phase))
  }

  lemma SendsNothing(s: State, t: State)
    requires LeasesDiffer(s) && SendersFresh(s) && SentOnce(s) && PassesKept(s, t) && t.uploads == s.uploads
    ensures LeasesDiffer(t) && SendersFresh(t) && SentOnce(t)
  {
  }

  lemma SendsNow(s: State, t: State, w: nat)
    requires LeasesDiffer(s) && SendersFresh(s) && SentOnce(s) && PassesKept(s, t)
    requires w in s.passes && w in t.passes && MayStillSend(s.passes[w].phase) && !MayStillSend(t.passes[w].phase)
    requires s.uploads <= t.uploads && |t.uploads| == |s.uploads| + 1
    requires t.uploads[|s.uploads|].lease == s.passes[w].lease
    ensures LeasesDiffer(t) && SendersFresh(t) && SentOnce(t)
  {
    var k := |s.uploads|;
    forall n | 0 <= n < k
      ensures t.uploads[n] == s.uploads[n] && t.uploads[n].lease != t.uploads[k].lease
    {
    }
    forall v, n | v in t.passes && 0 <= n < |t.uploads| && t.uploads[n].lease == t.passes[v].lease
      ensures !MayStillSend(t.passes[v].phase)
    {
      if n == k {
        assert v == w;
      } else {
        assert t.uploads[n] == s.uploads[n];
      }
    }
  }

  lemma StepSendsOnce(s: State, a: Action)
    requires Inv(s) && LeasesDiffer(s) && SendersFresh(s) && SentOnce(s)
    ensures var t := Step(s, a); LeasesDiffer(t) && SendersFresh(t) && SentOnce(t)
  {
    if a.Claim? {
      ClaimSendsOnce(s, a.w, a.id, a.cfg);
    } else {
      hide Step, Inv, LeasesDiffer, SendersFresh, SentOnce;
      var t := Step(s, a);
      forall v | v in t.passes
        ensures v in s.passes && t.passes[v].lease == s.passes[v].lease
        ensures MayStillSend(t.passes[v].phase) ==> MayStillSend(s.passes[v].phase)
      {
        PassMoves(s, a, v);
      }
      UploadsMove(s, a);
      if t.uploads == s.uploads {
        SendsNothing(s, t);
      } else {
        StepGrows(s, a);
        SendsNow(s, t, a.w);
      }
    }
  }

  lemma {:induction false} EachLeaseSendsOnce(limits: Limits, run: seq<Action>)
    ensures var s := Run(Initial(limits), run); LeasesDiffer(s) && SendersFresh(s) && SentOnce(s)
    decreases |run|
  {
    if run != [] {
      EachLeaseSendsOnce(limits, run[..|run| - 1]);
      Reachable(limits, run[..|run| - 1]);
      StepSendsOnce(Run(Initial(limits), run[..|run| - 1]), run[|run| - 1]);
    }
  }

  // ---- ranks along a path -----------------------------------------------

  /** The lease is of a job that carries this saved callback, as its source or as a
      marker for it. */
  predicate OnCallback(s: State, artifact: Artifact, l: Lease) {
    l.id < |s.msgs| && l.id < |s.origins| && s.msgs[l.id].body.Some? && l.attempt >= 1
    && var job := s.msgs[l.id].body.value;
       Load(s.store, job, artifact).Some?
       && (job.delivery.Some? ==> job.delivery.value.Fields? && job.delivery.value.state.artifact == artifact)
  }

  function EnvelopeAt(s: State, artifact: Artifact, l: Lease): Envelope
    requires OnCallback(s, artifact, l)
  {
    Load(s.store, s.msgs[l.id].body.value, artifact).value
  }

  /** The rounds the delivery of this lease is allowed. */
  function Allowed(s: State, artifact: Artifact, l: Lease): int
    requires OnCallback(s, artifact, l)
  {
    if IsMarker(s, l.id) then MarkerOf(s, l.id).maxRounds else EnvelopeAt(s, artifact, l).maxRounds
  }

  /** Receives of the source count from its first, those of a marker from its round. */
  function Rank(s: State, artifact: Artifact, l: Lease): int
    requires OnCallback(s, artifact, l)
  {
    if IsMarker(s, l.id) then MarkerOf(s, l.id).round + l.attempt + EnvelopeAt(s, artifact, l).sourceAttempt - 1
    else l.attempt
  }

  /** The next delivery on a path: a later receive of the same message, or a receive of
      a successor this very delivery published. */
  predicate Leads(s: State, artifact: Artifact, l: Lease, l': Lease) {
    OnCallback(s, artifact, l) && OnCallback(s, artifact, l')
    && ((l'.id == l.id && l.attempt < l'.attempt)
        || (s.origins[l'.id].birth.Born? && s.origins[l'.id].birth.parent == l.id
            && s.origins[l'.id].birth.attempt == l.attempt && s.origins[l'.id].birth.turn.artifact == artifact))
  }

  predicate Path(s: State, artifact: Artifact, path: seq<Lease>) {
    (forall k :: 0 <= k < |path| ==> OnCallback(s, artifact, path[k]))
    && forall k :: 0 < k < |path| ==> Leads(s, artifact, path[k - 1], path[k])
  }

  lemma RankGrows(s: State, artifact: Artifact, l: Lease, l': Lease)
    requires Inv(s) && Leads(s, artifact, l, l')
    ensures Rank(s, artifact, l) < Rank(s, artifact, l')
    ensures Allowed(s, artifact, l) == Allowed(s, artifact, l')
    ensures EnvelopeAt(s, artifact, l) == EnvelopeAt(s, artifact, l')
  {
    assert MessageOk(s, l'.id);
  }

  lemma {:induction false} RanksGrow(s: State, artifact: Artifact, path: seq<Lease>, j: nat, k: nat)
    requires Inv(s) && Path(s, artifact, path) && j <= k < |path|
    ensures j < k ==> Rank(s, artifact, path[j]) < Rank(s, artifact, path[k])
    ensures Allowed(s, artifact, path[j]) == Allowed(s, artifact, path[k])
    ensures EnvelopeAt(s, artifact, path[j]) == EnvelopeAt(s, artifact, path[k])
    decreases k
  {
    if j < k {
      RanksGrow(s, artifact, path, j, k - 1);
      assert Leads(s, artifact, path[k - 1], path[k]);
      RankGrows(s, artifact, path[k - 1], path[k]);
    }
  }

  /** An upload's rank is within the rounds allowed, counted from the delivery that
      saved the callback. */
  lemma UploadRank(s: State, n: nat)
    requires Inv(s) && n < |s.uploads| && s.uploads[n].Replay?
    ensures var u := s.uploads[n]; var artifact := u.turn.artifact;
            OnCallback(s, artifact, u.lease)
            && 1 <= Rank(s, artifact, u.lease)
                 <= Allowed(s, artifact, u.lease) + EnvelopeAt(s, artifact, u.lease).sourceAttempt - 1
            && 1 <= u.turn.number <= Min(Allowed(s, artifact, u.lease), u.turn.ceiling)
            && (if IsMarker(s, u.lease.id) || u.lease.attempt >= EnvelopeAt(s, artifact, u.lease).sourceAttempt then
                  u.turn.number == Rank(s, artifact, u.lease) - EnvelopeAt(s, artifact, u.lease).sourceAttempt + 1
                else u.turn.number == 1)
  {
    var u := s.uploads[n];
    assert UploadOk(s, u);
  }

  /** Between two receives of the source the attempt number grows exactly when the later one
      comes after the receive that saved the callback.  (A second copy of the source,
      received fewer times than that, starts at 1 and stays there.) */
  lemma SourceNumberGrows(job: Job, artifact: Artifact, e: Envelope, d: nat, d': nat)
    requires job.delivery.None? && d < d'
    requires StateOf(job, d, artifact, e).Some? && StateOf(job, d', artifact, e).Some?
    ensures var first := AttemptNo(StateOf(job, d, artifact, e).value, false, d);
            var second := AttemptNo(StateOf(job, d', artifact, e).value, false, d');
            first <= second && (first < second <==> d' > e.sourceAttempt)
  {
  }

  // ---- counting the uploads of a path -----------------------------------

  /** The replays of this callback that the deliveries of the path made. */
  function UploadsOn(s: State, artifact: Artifact, path: seq<Lease>): set<nat> {
    set n: nat | n < |s.uploads| && s.uploads[n].Replay? && s.uploads[n].turn.artifact == artifact
                 && s.uploads[n].lease in path
  }

  predicate RankedBy(s: State, artifact: Artifact, n: nat, r: int) {
    n < |s.uploads| && OnCallback(s, artifact, s.uploads[n].lease) && r == Rank(s, artifact, s.uploads[n].lease)
  }

  /** Distinct uploads of a path have distinct ranks, so there are as many of both. */
  lemma {:induction false} RanksOf(s: State, artifact: Artifact, path: seq<Lease>, ns: set<nat>) returns (ranks: set<int>)
    requires Inv(s) && SentOnce(s) && Path(s, artifact, path) && ns <= UploadsOn(s, artifact, path)
    ensures |ranks| == |ns|
    ensures forall r :: r in ranks ==> exists n :: n in ns && RankedBy(s, artifact, n, r)
    decreases |ns|
  {
    hide Inv, SentOnce, Path, Rank, OnCallback;
    if ns == {} {
      ranks := {};
    } else {
      var n :| n in ns;
      var others := RanksOf(s, artifact, path, ns - {n});
      var r := RankOf(s, artifact, n);
      if r in others {
        var m :| m in ns - {n} && RankedBy(s, artifact, m, r);
        DistinctRanks(s, artifact, path, n, m, r);
        assert false;
      }
      ranks := others + {r};
      forall q | q in ranks
        ensures exists n :: n in ns && RankedBy(s, artifact, n, q)
      {
        if q == r {
          assert n in ns && RankedBy(s, artifact, n, q);
        } else {
          var m :| m in ns - {n} && RankedBy(s, artifact, m, q);
          assert m in ns;
        }
      }
    }
  }

  lemma RankOf(s: State, artifact: Artifact, n: nat) returns (r: int)
    requires Inv(s) && n < |s.uploads| && s.uploads[n].Replay? && s.uploads[n].turn.artifact == artifact
    ensures RankedBy(s, artifact, n, r)
  {
    UploadRank(s, n);
    r := Rank(s, artifact, s.uploads[n].lease);
  }

  lemma DistinctRanks(s: State, artifact: Artifact, path: seq<Lease>, n: nat, m: nat, r: int)
    requires Inv(s) && SentOnce(s) && Path(s, artifact, path) && RankedBy(s, artifact, n, r) && n != m
    requires n in UploadsOn(s, artifact, path) && m in UploadsOn(s, artifact, path)
    ensures !RankedBy(s, artifact, m, r)
  {
    var j :| 0 <= j < |path| && path[j] == s.uploads[n].lease;
    var k :| 0 <= k < |path| && path[k] == s.uploads[m].lease;
    if j < k {
      RanksGrow(s, artifact, path, j, k);
    } else {
      RanksGrow(s, artifact, path, k, j);
    }
  }

  /** Uploads made on a receive of a source earlier than the one that saved the callback: a
      second copy of the source, or a pass that had lost its lease. */
  function EarlyOn(s: State, artifact: Artifact, path: seq<Lease>): set<nat>
    requires Path(s, artifact, path)
  {
    set n | n in UploadsOn(s, artifact, path) && !IsMarker(s, s.uploads[n].lease.id)
            && OnCallback(s, artifact, s.uploads[n].lease)
            && s.uploads[n].lease.attempt < EnvelopeAt(s, artifact, s.uploads[n].lease).sourceAttempt
  }

  /** No receive of the source on the path is earlier than the one that saved the callback. */
  predicate FromTheSave(s: State, artifact: Artifact, path: seq<Lease>)
    requires Path(s, artifact, path)
  {
    forall k :: 0 <= k < |path| && !IsMarker(s, path[k].id) ==>
      path[k].attempt >= EnvelopeAt(s, artifact, path[k]).sourceAttempt
  }

  lemma UploadOnPath(s: State, artifact: Artifact, path: seq<Lease>, n: nat, r: int)
    requires Inv(s) && Path(s, artifact, path) && n in UploadsOn(s, artifact, path) && RankedBy(s, artifact, n, r)
    ensures var saved := EnvelopeAt(s, artifact, path[0]).sourceAttempt;
            if n in EarlyOn(s, artifact, path) then 1 <= r < saved && s.uploads[n].turn.number == 1
            else saved <= r < saved + Min(Allowed(s, artifact, path[0]), s.uploads[n].turn.ceiling)
                 && s.uploads[n].turn.number == r - saved + 1
  {
    UploadRank(s, n);
    var k :| 0 <= k < |path| && path[k] == s.uploads[n].lease;
    RanksGrow(s, artifact, path, 0, k);
  }

  /** No worker on the path is configured for more rounds than this. */
  predicate Ceiling(s: State, artifact: Artifact, path: seq<Lease>, ceiling: int) {
    forall n :: n in UploadsOn(s, artifact, path) ==> s.uploads[n].turn.ceiling <= ceiling
  }

  lemma BoundOf(s: State, artifact: Artifact, path: seq<Lease>, ns: set<nat>, early: bool, ceiling: int)
    requires Inv(s) && SentOnce(s) && path != [] && Path(s, artifact, path) && Ceiling(s, artifact, path, ceiling)
    requires ns <= UploadsOn(s, artifact, path) && forall n :: n in ns ==> (n in EarlyOn(s, artifact, path) <==> early)
    ensures if early then |ns| <= EnvelopeAt(s, artifact, path[0]).sourceAttempt - 1 || ns == {}
            else |ns| <= Max(0, Min(Allowed(s, artifact, path[0]), ceiling))
  {
    hide Inv, SentOnce, RankedBy, UploadsOn, EarlyOn, Rank, Allowed, EnvelopeAt;
    var ranks := RanksOf(s, artifact, path, ns);
    var allowed, saved := Allowed(s, artifact, path[0]), EnvelopeAt(s, artifact, path[0]).sourceAttempt;
    forall r | r in ranks
      ensures if early then 1 <= r <= saved - 1 else saved <= r <= saved + Min(allowed, ceiling) - 1
    {
      var n :| n in ns && RankedBy(s, artifact, n, r);
      UploadOnPath(s, artifact, path, n, r);
    }
    if early {
      AtMostRange(ranks, 1, Max(0, saved - 1));
    } else {
      AtMostRange(ranks, saved, Max(saved - 1, saved + Min(allowed, ceiling) - 1));
    }
  }

  /** However deliveries fail, crash and fork, the uploads of a path of receives and
      successors are at most the rounds the callback and its workers allow, not counting
      those on source receives before the one that saved it.  Those are the only excess
      there can be: each of them goes out as number 1, and they are fewer than the receives
      it took to save. */
  lemma PathUploadsAreBounded(limits: Limits, run: seq<Action>, artifact: Artifact, path: seq<Lease>, ceiling: int)
    requires path != [] && Path(Run(Initial(limits), run), artifact, path)
    requires Ceiling(Run(Initial(limits), run), artifact, path, ceiling)
    ensures var s := Run(Initial(limits), run);
            var uploads, early := UploadsOn(s, artifact, path), EarlyOn(s, artifact, path);
            && early <= uploads
            && |uploads - early| <= Max(0, Min(Allowed(s, artifact, path[0]), ceiling))
            && |uploads| == |uploads - early| + |early|
            && (early == {} || |early| < EnvelopeAt(s, artifact, path[0]).sourceAttempt)
            && (forall n :: n in early ==> n < |s.uploads| && s.uploads[n].Replay? && s.uploads[n].turn.number == 1)
            && (FromTheSave(s, artifact, path) ==> early == {})
  {
    var s := Run(Initial(limits), run);
    Reachable(limits, run);
    EachLeaseSendsOnce(limits, run);
    hide *;
    PathBound(s, artifact, path, ceiling);
  }

  lemma PathBound(s: State, artifact: Artifact, path: seq<Lease>, ceiling: int)
    requires Inv(s) && SentOnce(s) && path != [] && Path(s, artifact, path) && Ceiling(s, artifact, path, ceiling)
    ensures var uploads, early := UploadsOn(s, artifact, path), EarlyOn(s, artifact, path);
            && early <= uploads
            && |uploads - early| <= Max(0, Min(Allowed(s, artifact, path[0]), ceiling))
            && |uploads| == |uploads - early| + |early|
            && (early == {} || |early| < EnvelopeAt(s, artifact, path[0]).sourceAttempt)
            && (forall n :: n in early ==> n < |s.uploads| && s.uploads[n].Replay? && s.uploads[n].turn.number == 1)
            && (FromTheSave(s, artifact, path) ==> early == {})
  {
    EarlyIsPart(s, artifact, path);
    hide Inv, SentOnce, Path, Rank, Allowed, OnCallback, EnvelopeAt, EarlyOn, FromTheSave, Ceiling;
    var uploads, early := UploadsOn(s, artifact, path), EarlyOn(s, artifact, path);
    BoundOf(s, artifact, path, uploads - early, false, ceiling);
    BoundOf(s, artifact, path, early, true, ceiling);
    PartSize(early, uploads);
    forall n | n in early
      ensures s.uploads[n].turn.number == 1
    {
      EarlyNumber(s, artifact, path, n);
    }
  }

  lemma EarlyIsPart(s: State, artifact: Artifact, path: seq<Lease>)
    requires Path(s, artifact, path)
    ensures EarlyOn(s, artifact, path) <= UploadsOn(s, artifact, path)
    ensures FromTheSave(s, artifact, path) ==> EarlyOn(s, artifact, path) == {}
  {
    if FromTheSave(s, artifact, path) {
      forall n | n in UploadsOn(s, artifact, path)
        ensures n !in EarlyOn(s, artifact, path)
      {
        var k :| 0 <= k < |path| && path[k] == s.uploads[n].lease;
      }
    }
  }

  lemma EarlyNumber(s: State, artifact: Artifact, path: seq<Lease>, n: nat)
    requires Inv(s) && Path(s, artifact, path) && n in EarlyOn(s, artifact, path)
    ensures s.uploads[n].turn.number == 1
  {
    var r := RankOf(s, artifact, n);
    UploadOnPath(s, artifact, path, n, r);
  }

  // ---- the workers' own limits ------------------------------------------

  predicate ConfiguredFor(a: Action, ceiling: int) { a.Claim? ==> a.cfg.maxRounds <= ceiling }

  ghost predicate PassesWithin(s: State, ceiling: int) {
    forall w :: w in s.passes ==> s.passes[w].cfg.maxRounds <= ceiling
  }

  ghost predicate UploadsWithin(s: State, ceiling: int) {
    forall n :: 0 <= n < |s.uploads| && s.uploads[n].Replay? ==> s.uploads[n].turn.ceiling <= ceiling
  }

  lemma NewUpload(s: State, w: nat, arrives: bool, acked: bool)
    requires |DoUpload(s, w, arrives, acked).uploads| > |s.uploads|
    ensures var u := DoUpload(s, w, arrives, acked).uploads[|s.uploads|];
            w in s.passes && (u.Replay? ==> s.passes[w].phase == Uploading(u.turn))
  {
  }

  lemma PassesStayWithin(s: State, a: Action, ceiling: int)
    requires PassesWithin(s, ceiling) && ConfiguredFor(a, ceiling)
    ensures PassesWithin(Step(s, a), ceiling)
  {
    var t := Step(s, a);
    if !a.Claim? {
      PassShape(s, a);
      hide Step;
      assert PassesWithin(t, ceiling);
    }
  }

  lemma UploadWithin(s: State, w: nat, arrives: bool, acked: bool, ceiling: int)
    requires Inv(s) && PassesWithin(s, ceiling) && UploadsWithin(s, ceiling)
    requires |DoUpload(s, w, arrives, acked).uploads| == |s.uploads| + 1
    ensures UploadsWithin(DoUpload(s, w, arrives, acked), ceiling)
  {
    NewUpload(s, w, arrives, acked);
    PassOf(s, w);
    UploadIsQuiet(s, w, arrives, acked);
    hide DoUpload, Inv;
  }

  lemma UploadsStayWithin(s: State, a: Action, ceiling: int)
    requires Inv(s) && PassesWithin(s, ceiling) && UploadsWithin(s, ceiling)
    ensures UploadsWithin(Step(s, a), ceiling)
  {
    UploadsMove(s, a);
    if a.Upload? && Step(s, a).uploads != s.uploads {
      assert Step(s, a) == DoUpload(s, a.w, a.arrives, a.acked);
      UploadWithin(s, a.w, a.arrives, a.acked, ceiling);
    }
    hide Step, DoUpload, Inv;
  }

  /** Where every worker is configured for at most so many rounds, no path is bounded by more. */
  lemma {:induction false} CeilingOfTheFleet(limits: Limits, run: seq<Action>, ceiling: int)
    requires forall k :: 0 <= k < |run| ==> ConfiguredFor(run[k], ceiling)
    ensures var s := Run(Initial(limits), run); PassesWithin(s, ceiling) && UploadsWithin(s, ceiling)
    ensures forall artifact, path :: Ceiling(Run(Initial(limits), run), artifact, path, ceiling)
    decreases |run|
  {
    if run != [] {
      CeilingOfTheFleet(limits, run[..|run| - 1], ceiling);
      Reachable(limits, run[..|run| - 1]);
      PassesStayWithin(Run(Initial(limits), run[..|run| - 1]), run[|run| - 1], ceiling);
      UploadsStayWithin(Run(Initial(limits), run[..|run| - 1]), run[|run| - 1], ceiling);
    }
  }
}
