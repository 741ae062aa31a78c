/**
 No verdict is lost.

 As long as every pass runs with the control plane enabled, each message ever
 published is still in the queue, or a callback sent on one of its own deliveries
 has reached the plane, or one of its deliveries published a successor of which the
 same holds in turn.
 */
module NothingLost {
  import opened Wrappers
  import opened LeaseQueue
  import opened Executor
  import opened Delivery
  import opened Protocol
  import opened Invariants

  /** Message j is a successor that a delivery of message i published. */
  predicate Succeeds(s: State, j: nat, i: nat) {
    j < |s.origins| && s.origins[j].birth.Born? && s.origins[j].birth.parent == i
  }

  /** A callback sent on a delivery of message i has reached the plane. */
  ghost predicate Delivered(s: State, i: nat) {
    exists n :: 0 <= n < |s.uploads| && s.uploads[n].arrived && s.uploads[n].lease.id == i
  }

  /** What message i was published for is not lost. */
  ghost predicate Safe(s: State, i: nat)
    decreases |s.msgs| - i
  {
    i < |s.msgs|
    && (Live(s, i) || Delivered(s, i) || exists j :: i < j < |s.msgs| && Succeeds(s, j, i) && Safe(s, j))
  }

  /** Message i may go: its callback has arrived, or its successor is published. */
  ghost predicate Covered(s: State, i: nat) {
    Delivered(s, i) || exists j :: i < j < |s.msgs| && Succeeds(s, j, i)
  }

  /** A pass about to complete its message has secured the callback first. */
  ghost predicate Secured(s: State, p: Pass) { p.cfg.enabled && (p.phase.ToComplete? ==> Covered(s, p.lease.id)) }

  ghost predicate AllSecured(s: State) { forall w :: w in s.passes ==> Secured(s, s.passes[w]) }

  ghost predicate AllSafe(s: State) { forall i :: 0 <= i < |s.msgs| ==> Safe(s, i) }

  /** Every pass of the run talks to the control plane. */
  predicate Enabled(a: Action) { a.Claim? ==> a.cfg.enabled }

  // ---- growth preserves evidence ----------------------------------------

  lemma DeliveredKept(s: State, t: State, i: nat)
    requires s.uploads <= t.uploads && Delivered(s, i)
    ensures Delivered(t, i)
  {
    var n :| 0 <= n < |s.uploads| && s.uploads[n].arrived && s.uploads[n].lease.id == i;
    assert t.uploads[n] == s.uploads[n];
  }

  lemma SucceedsKept(s: State, t: State, j: nat, i: nat)
    requires s.origins <= t.origins && Succeeds(s, j, i)
    ensures Succeeds(t, j, i)
  {
    assert t.origins[j] == s.origins[j];
  }

  lemma CoveredKept(s: State, t: State, i: nat)
    requires Grows(s, t) && Covered(s, i)
    ensures Covered(t, i)
  {
    hide Delivered, Succeeds;
    if Delivered(s, i) {
      DeliveredKept(s, t, i);
    } else {
      var j :| i < j < |s.msgs| && Succeeds(s, j, i);
      SucceedsKept(s, t, j, i);
    }
  }

  lemma SafeBy(s: State, i: nat, j: nat)
    requires i < j < |s.msgs| && Succeeds(s, j, i) && Safe(s, j)
    ensures Safe(s, i)
  {
  }

  lemma {:induction false} SafeKept(s: State, t: State, i: nat)
    requires Grows(s, t) && LiveKept(s, t) && Safe(s, i)
    ensures Safe(t, i)
    decreases |s.msgs| - i
  {
    hide Delivered, Succeeds, Later;
    if Live(s, i) {
      assert Live(t, i);
    } else if Delivered(s, i) {
      DeliveredKept(s, t, i);
    } else {
      var j :| i < j < |s.msgs| && Succeeds(s, j, i) && Safe(s, j);
      SafeKept(s, t, j);
      SucceedsKept(s, t, j, i);
      SafeBy(t, i, j);
    }
  }

  /** Only a completion removes anything, and it does so under cover: whoever relied
      on the removed message relies on its cover instead. */
  lemma {:induction false} SafeUnderCompletion(s: State, t: State, d: nat, i: nat)
    requires s.uploads <= t.uploads && s.origins <= t.origins && |t.msgs| == |s.msgs|
    requires AllSafe(s) && Covered(s, d) && i < |s.msgs|
    requires forall k :: 0 <= k < |s.msgs| && k != d ==> t.msgs[k] == s.msgs[k]
    ensures Safe(t, i)
    decreases |s.msgs| - i
  {
    hide Delivered, Succeeds;
    assert Safe(s, i);
    if i != d && Live(s, i) {
      assert Live(t, i);
    } else if Delivered(s, i) {
      DeliveredKept(s, t, i);
    } else {
      var j :| i < j < |s.msgs| && Succeeds(s, j, i);
      SafeUnderCompletion(s, t, d, j);
      SucceedsKept(s, t, j, i);
      SafeBy(t, i, j);
    }
  }

  // ---- cover before completion ------------------------------------------

  /** An acknowledged upload covers its message. */
  lemma UploadCovers(s: State, w: nat)
    requires AllSecured(s) && In(s, w) && (s.passes[w].phase.Uploading? || s.passes[w].phase.ToReport?)
    ensures var t := DoUpload(s, w, true, true);
            w in t.passes && t.passes[w].cfg == s.passes[w].cfg && t.passes[w].lease == s.passes[w].lease
            && (t.passes[w].phase.ToComplete? ==> Covered(t, t.passes[w].lease.id))
  {
    hide Covered, Given, PayloadOf;
    var p, t := s.passes[w], DoUpload(s, w, true, true);
    assert Secured(s, p);
    if t.passes[w].phase.ToComplete? {
      ArrivedCovers(t, |s.uploads|);
    }
  }

  lemma ArrivedCovers(t: State, n: nat)
    requires n < |t.uploads| && t.uploads[n].arrived
    ensures Covered(t, t.uploads[n].lease.id)
  {
  }

  /** So does a successor that was published for sure. */
  lemma PublishCovers(s: State, w: nat)
    requires In(s, w) && s.passes[w].phase.ToPublish? && |s.origins| == |s.msgs|
    ensures Covered(DoPublish(s, w, Written), s.passes[w].lease.id)
  {
    hide Message, Next, DelayOf, DueAt;
    assert Succeeds(DoPublish(s, w, Written), |s.msgs|, s.passes[w].lease.id);
  }

  /** Apart from an upload and a publication, no step sends a pass to complete. */
  predicate KeepsAtIt(before: map<nat, Pass>, later: map<nat, Pass>, w: nat) {
    w in later ==> w in before && later[w].cfg == before[w].cfg && (later[w] == before[w] || !later[w].phase.ToComplete?)
  }

  lemma LookupKeepsAtIt(s: State, w: nat, ok: bool, ran: Ran, benched: Outcome)
    ensures KeepsAtIt(s.passes, DoLookup(s, w, ok).passes, w)
    ensures KeepsAtIt(s.passes, DoExecute(s, w, ran, benched).passes, w)
  {
    hide Load, Find, Given, RawResult;
  }

  lemma SavingKeepsAtIt(s: State, w: nat, leaf: nat, write: Write)
    ensures KeepsAtIt(s.passes, DoPersist(s, w, leaf, write).passes, w)
    ensures KeepsAtIt(s.passes, DoDeliver(s, w).passes, w)
  {
    hide Enveloped, StateOf, Spent;
  }

  lemma EndingKeepsAtIt(s: State, w: nat, ok: bool)
    ensures KeepsAtIt(s.passes, DoComplete(s, w, ok).passes, w) && KeepsAtIt(s.passes, DoRelease(s, w, ok).passes, w)
  {
  }

  lemma StepKeepsAtIt(s: State, a: Action, w: nat)
    requires !a.Claim? && !a.Upload? && !a.Publish? && Actor(a) == Some(w)
    ensures KeepsAtIt(s.passes, Step(s, a).passes, w)
  {
    hide DoWorld, DoLookup, DoExecute, DoPersist, DoDeliver, DoUpload, DoPublish, DoComplete, DoRelease;
    match a
    case Lookup(_, ok) => LookupKeepsAtIt(s, w, ok, NotStarted, Outcome(Retryable, None, None, ""));
    case Execute(_, ran, benched) => LookupKeepsAtIt(s, w, true, ran, benched);
    case Persist(_, leaf, write) => SavingKeepsAtIt(s, w, leaf, write);
    case Deliver(_) => SavingKeepsAtIt(s, w, 0, NotWritten);
    case Complete(_, ok) => EndingKeepsAtIt(s, w, ok);
    case Release(_, ok) => EndingKeepsAtIt(s, w, ok);
    case _ =>
  }

  /** The pass that acts still has cover if it is about to complete. */
  lemma ActorSecured(s: State, a: Action, w: nat)
    requires AllSecured(s) && Enabled(a) && !a.Upload? && !a.Publish?
    requires w in Step(s, a).passes && !(w in s.passes && Step(s, a).passes[w] == s.passes[w])
    ensures Secured(Step(s, a), Step(s, a).passes[w])
  {
    if a.Claim? {
      ClaimSecured(s, a.w, a.id, a.cfg, w);
    } else {
      PassShape(s, a);
      hide Step;
      StepKeepsAtIt(s, a, w);
      assert Secured(s, s.passes[w]);
    }
  }

  lemma ClaimSecured(s: State, w: nat, i: nat, cfg: Config, v: nat)
    requires cfg.enabled && v in DoClaim(s, w, i, cfg).passes
    requires !(v in s.passes && DoClaim(s, w, i, cfg).passes[v] == s.passes[v])
    ensures Secured(DoClaim(s, w, i, cfg), DoClaim(s, w, i, cfg).passes[v])
  {
  }

  lemma UploadSecured(s: State, w: nat, arrives: bool, acked: bool, v: nat)
    requires AllSecured(s)
    requires v in DoUpload(s, w, arrives, acked).passes
    requires !(v in s.passes && DoUpload(s, w, arrives, acked).passes[v] == s.passes[v])
    ensures Secured(DoUpload(s, w, arrives, acked), DoUpload(s, w, arrives, acked).passes[v])
  {
    hide Covered, PayloadOf, Given;
    assert v == w && In(s, w) && (acked ==> arrives);
    assert Secured(s, s.passes[w]);
    if acked {
      UploadCovers(s, w);
    }
  }

  lemma PublishSecured(s: State, w: nat, write: Write, v: nat)
    requires AllSecured(s) && |s.origins| == |s.msgs|
    requires v in DoPublish(s, w, write).passes
    requires !(v in s.passes && DoPublish(s, w, write).passes[v] == s.passes[v])
    ensures Secured(DoPublish(s, w, write), DoPublish(s, w, write).passes[v])
  {
    hide Covered, Next, Message;
    assert v == w && In(s, w) && s.passes[w].phase.ToPublish? && write == Written;
    assert Secured(s, s.passes[w]);
    PublishCovers(s, w);
  }

  lemma StepSecured(s: State, a: Action)
    requires |s.origins| == |s.msgs| && AllSecured(s) && Enabled(a)
    ensures AllSecured(Step(s, a))
  {
    hide DoUpload, DoPublish, Covered;
    var t := Step(s, a);
    StepGrows(s, a);
    forall v | v in t.passes
      ensures Secured(t, t.passes[v])
    {
      if v in s.passes && t.passes[v] == s.passes[v] {
        var p := s.passes[v];
        assert Secured(s, p);
        if p.phase.ToComplete? {
          CoveredKept(s, t, p.lease.id);
        }
      } else if a.Upload? {
        UploadSecured(s, a.w, a.arrives, a.acked, v);
      } else if a.Publish? {
        PublishSecured(s, a.w, a.write, v);
      } else {
        ActorSecured(s, a, v);
      }
    }
  }

  // ---- safety of every step and every run -------------------------------

  lemma CompleteSafe(s: State, w: nat, ok: bool)
    requires AllSecured(s) && AllSafe(s)
    ensures AllSafe(DoComplete(s, w, ok))
  {
    var t := DoComplete(s, w, ok);
    CompleteGrows(s, w, ok);
    if In(s, w) && s.passes[w].phase.ToComplete? && ok {
      assert Secured(s, s.passes[w]);
      hide Covered, Safe;
      forall i | 0 <= i < |t.msgs|
        ensures Safe(t, i)
      {
        SafeUnderCompletion(s, t, s.passes[w].lease.id, i);
      }
    } else {
      assert t.msgs == s.msgs;
      hide Covered, Safe;
      forall i | 0 <= i < |t.msgs|
        ensures Safe(t, i)
      {
        SafeKept(s, t, i);
      }
    }
  }

  lemma StepSafe(s: State, a: Action)
    requires AllSecured(s) && AllSafe(s)
    ensures AllSafe(Step(s, a))
  {
    hide Delivered, Succeeds, Covered;
    var t := Step(s, a);
    if a.Complete? {
      CompleteSafe(s, a.w, a.ok);
    } else {
      StepGrows(s, a);
      forall i | 0 <= i < |t.msgs|
        ensures Safe(t, i)
      {
        if i < |s.msgs| {
          SafeKept(s, t, i);
        } else {
          assert Live(t, i);
        }
      }
    }
  }

  lemma {:induction false} SafeRuns(limits: Limits, run: seq<Action>)
    requires forall k :: 0 <= k < |run| ==> Enabled(run[k])
    ensures AllSecured(Run(Initial(limits), run)) && AllSafe(Run(Initial(limits), run))
    decreases |run|
  {
    if run != [] {
      var mid := Run(Initial(limits), run[..|run| - 1]);
      SafeRuns(limits, run[..|run| - 1]);
      Reachable(limits, run[..|run| - 1]);
      OneOriginEach(mid);
      StepSecured(mid, run[|run| - 1]);
      StepSafe(mid, run[|run| - 1]);
    }
  }

  // ---- what it means for the job ----------------------------------------

  /** Message j is a marker for a saved callback of this very job attempt. */
  ghost predicate RefersTo(s: State, j: nat, id: Ident) {
    j < |s.msgs| && s.msgs[j].body.Some?
    && var job := s.msgs[j].body.value;
       IdentOf(job) == id && job.delivery.Some? && job.delivery.value.Fields?
       && Load(s.store, job, job.delivery.value.state.artifact).Some?
  }

  /** The job attempt of message i is with the plane, or referred to from the queue. */
  ghost predicate Vouched(s: State, i: nat, id: Ident) {
    || Accepted(s, id)
    || exists j :: i < j < |s.msgs| && s.msgs[j].place != Done && RefersTo(s, j, id)
  }

  /** A callback for this job attempt has reached the control plane. */
  ghost predicate Accepted(s: State, id: Ident) {
    exists u :: u in s.uploads && u.arrived && PayloadSent(u).jobUid == id.jobId && PayloadSent(u).token == id.token
  }

  lemma DeliveredIsAccepted(s: State, i: nat)
    requires Inv(s) && i < |s.msgs| && Delivered(s, i) && s.msgs[i].body.Some?
    ensures Accepted(s, IdentOf(s.msgs[i].body.value))
  {
    var n :| 0 <= n < |s.uploads| && s.uploads[n].arrived && s.uploads[n].lease.id == i;
    assert UploadOk(s, s.uploads[n]);
    assert s.uploads[n] in s.uploads && IdentSent(s.uploads[n]) == IdentOf(s.msgs[i].body.value);
  }

  lemma SuccessorRefers(s: State, j: nat, i: nat)
    requires Inv(s) && i < j < |s.msgs| && Succeeds(s, j, i)
    ensures s.msgs[i].body.Some? && RefersTo(s, j, IdentOf(s.msgs[i].body.value))
  {
    assert MessageOk(s, j);
  }

  lemma {:induction false} SafeIsVouched(s: State, i: nat)
    requires Inv(s) && Safe(s, i) && s.msgs[i].body.Some?
    ensures s.msgs[i].place != Done || Vouched(s, i, IdentOf(s.msgs[i].body.value))
    decreases |s.msgs| - i
  {
    hide Inv, Delivered, Succeeds, RefersTo, Accepted;
    var id := IdentOf(s.msgs[i].body.value);
    if Live(s, i) {
    } else if Delivered(s, i) {
      DeliveredIsAccepted(s, i);
    } else {
      var j :| i < j < |s.msgs| && Succeeds(s, j, i) && Safe(s, j);
      SuccessorRefers(s, j, i);
      ReferredIdent(s, j, id);
      SafeIsVouched(s, j);
    }
  }

  lemma ReferredIdent(s: State, j: nat, id: Ident)
    requires RefersTo(s, j, id)
    ensures s.msgs[j].body.Some? && IdentOf(s.msgs[j].body.value) == id
  {
  }

  /** Whatever fails and whoever crashes, in every state of every run each publication is in
      the queue, or was delivered by one of its own deliveries, or lives on in a successor
      they published.  For a job that was removed this means that its verdict is with the
      plane, or referred to from the queue. */
  lemma NoVerdictIsLost(limits: Limits, run: seq<Action>, i: nat)
    requires forall k :: 0 <= k < |run| ==> Enabled(run[k])
    requires i < |Run(Initial(limits), run).msgs|
    ensures var s := Run(Initial(limits), run);
            Safe(s, i)
            && (s.msgs[i].body.Some? ==> s.msgs[i].place != Done || Vouched(s, i, IdentOf(s.msgs[i].body.value)))
  {
    SafeRuns(limits, run);
    Reachable(limits, run);
    var s := Run(Initial(limits), run);
    assert Safe(s, i);
    if s.msgs[i].body.Some? {
      SafeIsVouched(s, i);
    }
  }
}
