/**
 Where a callback's window comes from: it opens when the callback is saved, for the rounds
 and the time its worker is configured for, and again when somebody recovers it.
 */
module Windows {
  import opened Wrappers
  import opened LeaseQueue
  import opened Delivery
  import opened Protocol
  import opened Invariants

  /** The envelope is what a worker of this configuration saves of this receive now. */
  predicate Opened(e: Envelope, p: Pass, now: real) {
    && e.job == p.job && e.sourceAttempt == p.lease.attempt && e.createdAt == now
    && e.deadline == now + p.cfg.window && e.maxRounds == p.cfg.maxRounds && e.payload.workerUid == p.cfg.uid
  }

  /** Step k saved the envelope under this key. */
  ghost predicate SavedAt(limits: Limits, run: seq<Action>, k: nat, key: Key, e: Envelope) {
    && k < |run| && run[k].Persist?
    && var s := Run(Initial(limits), run[..k]);
       In(s, run[k].w) && s.passes[run[k].w].phase.ToPersist? && Opened(e, s.passes[run[k].w], s.now)
       && e.tier == s.origins[s.passes[run[k].w].lease.id].tier
       && key.jobId == e.job.jobId && e.job.token.Some? && key.artifact == Saved(e.job.token.value, run[k].leaf)
  }

  lemma OnlySavingSaves(s: State, a: Action, key: Key)
    requires key in Step(s, a).store && key !in s.store && Step(s, a).store[key].Envelop?
    ensures a.Persist?
  {
    hide Load, Find, StateOf, Spent, Given, RawResult, Next, Message, Enveloped, DoPersist;
  }

  lemma NewEnvelope(s: State, a: Action, key: Key)
    requires key in Step(s, a).store && key !in s.store && Step(s, a).store[key].Envelop?
    ensures a.Persist? && In(s, a.w) && s.passes[a.w].phase.ToPersist?
    ensures var e, p := Step(s, a).store[key].envelope, s.passes[a.w];
            Opened(e, p, s.now) && e.tier == s.origins[p.lease.id].tier
            && key.jobId == e.job.jobId && e.job.token.Some? && key.artifact == Saved(e.job.token.value, a.leaf)
  {
    OnlySavingSaves(s, a, key);
    assert Step(s, a) == DoPersist(s, a.w, a.leaf, a.write);
    hide Step;
  }

  /** Every envelope that is stored was saved by some step, and its window is the one that
      step's worker was configured for, counted from the clock of that step. */
  lemma {:induction false} WindowsOpenAtTheSave(limits: Limits, run: seq<Action>, key: Key)
    requires key in Run(Initial(limits), run).store && Run(Initial(limits), run).store[key].Envelop?
    ensures exists k: nat :: SavedAt(limits, run, k, key, Run(Initial(limits), run).store[key].envelope)
    decreases |run|
  {
    var n := |run| - 1;
    var front, s := run[..n], Run(Initial(limits), run[..n]);
    StepGrows(s, run[n]);
    if key in s.store {
      WindowsOpenAtTheSave(limits, front, key);
      var k: nat :| SavedAt(limits, front, k, key, s.store[key].envelope);
      assert front[..k] == run[..k];
      assert SavedAt(limits, run, k, key, s.store[key].envelope);
    } else {
      hide Step;
      NewEnvelope(s, run[n], key);
      assert SavedAt(limits, run, n, key, Run(Initial(limits), run).store[key].envelope);
    }
  }

  /** Recovery publishes one marker for the stored callback: round 0, a whole new window from
      now for the rounds this worker is configured for, due at once.  It does nothing else, and
      nothing at all where the callback does not load under its own job's key. */
  lemma RecoveryOpensANewWindow(s: State, key: Key, cfg: Config, write: Write)
    ensures var t := Step(s, Recover(key, cfg, write));
            if && key in s.store && s.store[key].Envelop? && s.store[key].envelope.job.jobId == key.jobId
               && Load(s.store, s.store[key].envelope.job, key.artifact).Some?
               && cfg.enabled && cfg.maxRounds >= 1 && cfg.maxRounds <= 100 && cfg.window >= 1.0 && write != NotWritten
            then
              var job := s.store[key].envelope.job;
              var window := DeliveryState(key.artifact, 0, s.now + cfg.window, cfg.maxRounds, false);
              && t.msgs == s.msgs + [Msg(Some(job.(delivery := Some(Fields(window)))), Some(DueAt(s.now, 0)), Pending, 0,
                                         s.now)]
              && t.origins == s.origins + [Origin(Recovery, s.store[key].envelope.tier)]
              && t == s.(msgs := t.msgs, origins := t.origins)
            else t == s
  {
    assert Step(s, Recover(key, cfg, write)) == DoRecover(s, key, cfg, write);
    hide Step;
  }
}
