/**
 Once a callback is saved, its job attempt is never judged again.
 */
module NoRejudging {
  import opened Wrappers
  import opened LeaseQueue
  import opened Executor
  import opened Delivery
  import opened Protocol
  import opened Invariants

  // ---- where passes and executions come from ----------------------------

  predicate SamePass(p: Pass, q: Pass) { q.lease == p.lease && q.job == p.job && q.cfg == p.cfg && q.seen == p.seen }

  /** A pass after a step either was there before it, or began with it. */
  lemma PassesContinue(s: State, a: Action, v: nat)
    requires v in Step(s, a).passes
    ensures var q := Step(s, a).passes[v];
            (v in s.passes && SamePass(s.passes[v], q))
            || (a.Claim? && a.w == v && v !in s.passes && q.seen == s.store.Keys)
  {
    if !a.Claim? {
      hide Step;
      PassShape(s, a);
    }
  }

  /** A step logs at most one execution, and it is that of a running pass. */
  lemma RunsContinue(s: State, a: Action)
    ensures var t := Step(s, a);
            |t.runs| <= |s.runs| + 1
            && (|t.runs| == |s.runs| + 1 ==>
                  exists v :: v in s.passes && t.runs[|s.runs|].lease == s.passes[v].lease
                              && t.runs[|s.runs|].seen == s.passes[v].seen)
  {
    WorldLeavesPasses(s, a);
    hide DoWorld, Load, Find, Enveloped, StateOf, Spent, PayloadOf, Given, RawResult;
    if a.Execute? && In(s, a.w) {
      assert a.w in s.passes;
    }
  }

  // ---- what a pass that starts later has seen ---------------------------

  predicate UnderWay(s: State, l: Lease) { exists v :: v in s.passes && s.passes[v].lease == l }

  predicate Dated(s: State, l: Lease, seen: set<Key>) { UnderWay(s, l) || s.store.Keys <= seen }

  /** Every pass and every new execution in t either was under way in s, or began
      when all that was stored in s was stored. */
  ghost predicate Since(s: State, t: State) {
    && (forall v :: v in t.passes ==> Dated(s, t.passes[v].lease, t.passes[v].seen))
    && (forall n :: |s.runs| <= n < |t.runs| ==> Dated(s, t.runs[n].lease, t.runs[n].seen))
  }

  lemma SinceStep(s: State, t: State, a: Action)
    requires Grows(s, t) && Since(s, t)
    ensures Since(s, Step(t, a))
  {
    hide Step, Dated;
    var u := Step(t, a);
    StepGrows(t, a);
    forall v | v in u.passes
      ensures Dated(s, u.passes[v].lease, u.passes[v].seen)
    {
      PassesContinue(t, a, v);
      if v !in t.passes { LaterSees(s, t, u.passes[v].lease); }
    }
    forall n | |s.runs| <= n < |u.runs|
      ensures Dated(s, u.runs[n].lease, u.runs[n].seen)
    {
      RunsContinue(t, a);
      if n < |t.runs| { assert u.runs[n] == t.runs[n]; }
    }
  }

  lemma LaterSees(s: State, t: State, l: Lease)
    requires Grows(s, t)
    ensures Dated(s, l, t.store.Keys)
  {
  }

  lemma {:induction false} SinceRun(s: State, run: seq<Action>)
    requires Inv(s)
    ensures Inv(Run(s, run)) && Since(s, Run(s, run))
    decreases |run|
  {
    if run == [] {
      forall v | v in s.passes
        ensures Dated(s, s.passes[v].lease, s.passes[v].seen)
      {
        assert UnderWay(s, s.passes[v].lease);
      }
    } else {
      var front := run[..|run| - 1];
      SinceRun(s, front);
      RunGrows(s, front);
      StepKeeps(Run(s, front), run[|run| - 1]);
      SinceStep(s, Run(s, front), run[|run| - 1]);
    }
  }

  /** Once a callback of a job attempt is stored, no pass that starts later and talks
      to the control plane calls the executor for it, whatever fails, and whether it
      would itself save callbacks or not. */
  lemma NoRejudging(limits: Limits, before: seq<Action>, later: seq<Action>, key: Key, n: nat)
    requires var s := Run(Initial(limits), before);
             var t := Run(s, later);
             |s.runs| <= n < |t.runs| && key in s.store
             && t.runs[n].cfg.enabled && t.runs[n].job.token.Some?
             && IsAttemptKey(key, t.runs[n].job.jobId, t.runs[n].job.token.value)
    ensures UnderWay(Run(Initial(limits), before), Run(Run(Initial(limits), before), later).runs[n].lease)
  {
    var s := Run(Initial(limits), before);
    Reachable(limits, before);
    SinceRun(s, later);
    var r := Run(s, later).runs[n];
    assert RunOk(Run(s, later), r);
    assert Dated(s, r.lease, r.seen);
  }

  /** A marker is never executed, in any configuration. */
  lemma MarkersNeverExecute(limits: Limits, run: seq<Action>, n: nat)
    requires n < |Run(Initial(limits), run).runs|
    ensures Run(Initial(limits), run).runs[n].job.delivery.None?
  {
    Reachable(limits, run);
    assert RunOk(Run(Initial(limits), run), Run(Initial(limits), run).runs[n]);
  }

  // ---- one worker alone -------------------------------------------------

  predicate Solo(a: Action) { a.Claim? ==> a.w == 0 }

  ghost predicate NoneStored(s: State, job: Job) {
    job.token.Some? && forall k :: k in s.store && s.store[k].Envelop? ==> !IsAttemptKey(k, job.jobId, job.token.value)
  }

  ghost predicate SamePlace(k: Key, k': Key) {
    k.jobId == k'.jobId && k.artifact.Saved? && k'.artifact.Saved? && k.artifact.attempt == k'.artifact.attempt
  }

  ghost predicate AtMostOne(s: State) {
    forall k, k' :: k in s.store && k' in s.store && s.store[k].Envelop? && s.store[k'].Envelop? && SamePlace(k, k')
                    ==> k == k'
  }

  /** The pass about to judge, or to save, has nothing saved yet. */
  ghost predicate SoloOk(s: State) {
    && s.passes.Keys <= {0}
    && AtMostOne(s)
    && (0 in s.passes && s.passes[0].phase.ToExecute? && Readable(s.passes[0]) ==> NoneStored(s, s.passes[0].job))
    && (0 in s.passes && s.passes[0].phase.ToPersist? ==> NoneStored(s, s.passes[0].job))
  }

  lemma SoloLookup(s: State, w: nat, ok: bool)
    requires SoloOk(s)
    ensures SoloOk(DoLookup(s, w, ok))
  {
    var t := DoLookup(s, w, ok);
    if w in s.passes && w in t.passes && t.passes[w].phase.ToExecute? && Readable(t.passes[w]) && t != s {
      var job := s.passes[w].job;
      var keys := AttemptKeys(s.store, job.jobId, job.token.value);
      assert keys == {};
      forall k | k in s.store && s.store[k].Envelop?
        ensures !IsAttemptKey(k, job.jobId, job.token.value)
      {
        assert k !in keys;
      }
    }
  }

  lemma SoloPersist(s: State, w: nat, leaf: nat, write: Write)
    requires SoloOk(s)
    ensures SoloOk(DoPersist(s, w, leaf, write))
  {
    var t := DoPersist(s, w, leaf, write);
    if t.store != s.store {
      var job := s.passes[w].job;
      var key := Key(job.jobId, Saved(job.token.value, leaf));
      assert w == 0 && NoneStored(s, job);
      forall k, k' | k in t.store && k' in t.store && t.store[k].Envelop? && t.store[k'].Envelop? && SamePlace(k, k')
        ensures k == k'
      {
        assert k != key ==> k in s.store && t.store[k] == s.store[k];
        assert k' != key ==> k' in s.store && t.store[k'] == s.store[k'];
        var token := job.token.value;
        assert IsAttemptKey(k, job.jobId, token) <==> SamePlace(k, key);
        assert IsAttemptKey(k', job.jobId, token) <==> SamePlace(k', key);
      }
    }
  }

  /** Nobody but `Persist` saves a callback. */
  lemma OnlyPersistSaves(s: State, a: Action, k: Key)
    requires !a.Persist? && k in Step(s, a).store && Step(s, a).store[k].Envelop?
    ensures k in s.store && s.store[k] == Step(s, a).store[k]
  {
    hide Load, Find, Enveloped, StateOf, Spent, PayloadOf, Given, RawResult, DoPersist;
  }

  /** The worker's pass judges or saves afterwards only if it did before, or has now judged. */
  predicate LedFrom(before: map<nat, Pass>, later: map<nat, Pass>) {
    0 in later && (later[0].phase.ToExecute? || later[0].phase.ToPersist?) ==>
      0 in before
      && (before[0].phase == later[0].phase || (before[0].phase.ToExecute? && Readable(before[0])))
  }

  lemma ExecuteLeads(s: State, w: nat, ran: Ran, benched: Outcome)
    ensures LedFrom(s.passes, DoExecute(s, w, ran, benched).passes)
  {
    hide Given, RawResult;
  }

  lemma DeliverLeads(s: State, w: nat)
    ensures LedFrom(s.passes, DoDeliver(s, w).passes)
  {
    hide StateOf, Spent;
  }

  lemma UploadLeads(s: State, w: nat, arrives: bool, acked: bool)
    ensures LedFrom(s.passes, DoUpload(s, w, arrives, acked).passes)
  {
    hide Given, PayloadOf;
  }

  lemma EndsLead(s: State, w: nat, write: Write, ok: bool)
    ensures LedFrom(s.passes, DoPublish(s, w, write).passes) && LedFrom(s.passes, DoComplete(s, w, ok).passes)
    ensures LedFrom(s.passes, DoRelease(s, w, ok).passes)
  {
    hide Next, Message;
  }

  /** Nobody but `Lookup` sends a pass to judge, and only judging leads to saving. */
  lemma OnlyLookupJudges(s: State, a: Action)
    requires !a.Persist? && !a.Lookup? && 0 in Step(s, a).passes
    ensures var q := Step(s, a).passes[0];
            q.phase.ToExecute? || q.phase.ToPersist? ==>
              0 in s.passes && (s.passes[0].phase == q.phase || (s.passes[0].phase.ToExecute? && Readable(s.passes[0])))
  {
    hide DoWorld, DoLookup, DoPersist, DoExecute, DoDeliver, DoUpload, DoPublish, DoComplete, DoRelease;
    match a
    case Execute(w, ran, benched) => ExecuteLeads(s, w, ran, benched);
    case Deliver(w) => DeliverLeads(s, w);
    case Upload(w, arrives, acked) => UploadLeads(s, w, arrives, acked);
    case Publish(w, write) => EndsLead(s, w, write, true);
    case Complete(w, ok) => EndsLead(s, w, NotWritten, ok);
    case Release(w, ok) => EndsLead(s, w, NotWritten, ok);
    case _ => WorldLeavesPasses(s, a);
  }

  /** Where nothing is saved and no pass newly sent to judge, the worker still has at most one. */
  lemma SoloKept(s: State, t: State)
    requires SoloOk(s) && t.passes.Keys <= {0}
    requires forall k :: k in t.store && t.store[k].Envelop? ==> k in s.store && s.store[k] == t.store[k]
    requires 0 in t.passes && (t.passes[0].phase.ToExecute? || t.passes[0].phase.ToPersist?) ==>
               0 in s.passes && SamePass(s.passes[0], t.passes[0])
               && (s.passes[0].phase == t.passes[0].phase || (s.passes[0].phase.ToExecute? && Readable(s.passes[0])))
    ensures SoloOk(t)
  {
  }

  lemma SoloStep(s: State, a: Action)
    requires SoloOk(s) && Solo(a)
    ensures SoloOk(Step(s, a))
  {
    if a.Lookup? {
      SoloLookup(s, a.w, a.ok);
    } else if a.Persist? {
      SoloPersist(s, a.w, a.leaf, a.write);
    } else {
      hide Step, AtMostOne, NoneStored;
      var t := Step(s, a);
      forall v | v in t.passes
        ensures v == 0
      {
        PassesContinue(s, a, v);
      }
      if 0 in t.passes {
        OnlyLookupJudges(s, a);
        PassesContinue(s, a, 0);
      }
      forall k | k in t.store && t.store[k].Envelop?
        ensures k in s.store && s.store[k] == t.store[k]
      {
        OnlyPersistSaves(s, a, k);
      }
      SoloKept(s, t);
    }
  }

  lemma {:induction false} SoloRun(limits: Limits, run: seq<Action>)
    requires forall k :: 0 <= k < |run| ==> Solo(run[k])
    ensures SoloOk(Run(Initial(limits), run))
    decreases |run|
  {
    if run != [] {
      SoloRun(limits, run[..|run| - 1]);
      SoloStep(Run(Initial(limits), run[..|run| - 1]), run[|run| - 1]);
    }
  }

  /** A single worker that takes one lease at a time, in any mix of configurations
      and with any failures, stores at most one envelope per job attempt. */
  lemma OneEnvelopePerAttempt(limits: Limits, run: seq<Action>, k: Key, k': Key)
    requires forall n :: 0 <= n < |run| ==> Solo(run[n])
    requires var s := Run(Initial(limits), run);
             k in s.store && k' in s.store && s.store[k].Envelop? && s.store[k'].Envelop? && SamePlace(k, k')
    ensures k == k'
  {
    SoloRun(limits, run);
  }
}
