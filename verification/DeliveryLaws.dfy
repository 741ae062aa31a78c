/**
 What a delivery decides, told by the fields of its message and its envelope: when it is
 uploaded, and when what replaces it is dead for good.
 */
module DeliveryLaws {
  import opened Wrappers
  import opened Numbers
  import opened LeaseQueue
  import opened Executor
  import opened Delivery
  import opened Protocol
  import opened Invariants

  /** The delay after a delivery: 1, 2, 4, ..., 256 seconds, and then 300 for good. */
  lemma BackoffDoublesUpTo(attempt: nat)
    ensures Backoff(0) == 1
    ensures Backoff(attempt + 1) == if 2 * Backoff(attempt) <= 300 then 2 * Backoff(attempt) else 300
  {
    BackoffIsExponential(attempt);
    BackoffIsExponential(attempt + 1);
    BackoffIsExponential(0);
  }

  /** A message is due at the millisecond its delay ends in. */
  lemma DueAtTheMillisecond(now: real, delay: nat)
    requires now >= 0.0
    ensures DueAt(now, delay) as real <= (now + delay as real) * 1000.0 < (DueAt(now, delay) + 1) as real
    ensures DueAt(now, delay) == Millis(now + delay as real)
  {
  }

  // ---- what is read back ------------------------------------------------

  /** A callback is loaded exactly when there is an envelope under this job's key, in the
      directory of its attempt, within its field bounds, final, and of this very job attempt in
      its job, its result and its payload. */
  lemma LoadedExactlyWhen(store: map<Key, Blob>, job: Job, artifact: Artifact, e: Envelope)
    ensures Load(store, job, artifact) == Some(e) <==>
              && job.token.Some? && artifact.Saved? && artifact.attempt == job.token.value
              && Key(job.jobId, artifact) in store && store[Key(job.jobId, artifact)] == Envelop(e)
              && e.sourceAttempt >= 1 && e.maxRounds >= 1 && e.maxRounds <= 100
              && e.job.jobId == job.jobId && e.result.jobId == job.jobId && e.payload.jobUid == job.jobId
              && e.job.token == job.token && e.result.token == job.token && e.payload.token == job.token
              && e.result.outcome.status in {Succeeded, Failed}
  {
  }

  /** The artifacts saved for this job attempt. */
  ghost function SavedFor(store: map<Key, Blob>, jobId: string, token: string): set<Key> {
    set k | k in store && k.jobId == jobId && k.artifact.Saved? && k.artifact.attempt == token
  }

  /** A source finds nothing exactly when it has no token or nothing is saved for its attempt;
      it finds the callback with the first name if at most 32 are saved and that one loads;
      anything else is an error, and no reason to judge again. */
  lemma FoundExactlyWhen(store: map<Key, Blob>, job: Job)
    ensures Find(store, job) == Nothing <==> job.token.None? || SavedFor(store, job.jobId, job.token.value) == {}
    ensures forall artifact, e :: Find(store, job) == Hit(artifact, e) ==>
              && job.token.Some? && |SavedFor(store, job.jobId, job.token.value)| <= 32
              && Key(job.jobId, artifact) in SavedFor(store, job.jobId, job.token.value)
              && (forall k :: k in SavedFor(store, job.jobId, job.token.value) ==> artifact.leaf <= k.artifact.leaf)
              && Load(store, job, artifact) == Some(e)
    ensures Find(store, job) == Unreadable ==>
              && job.token.Some?
              && var saved := SavedFor(store, job.jobId, job.token.value);
                 |saved| > 32
                 || exists k :: k in saved && Load(store, job, k.artifact).None?
                                && forall j :: j in saved ==> k.artifact.leaf <= j.artifact.leaf
  {
    if job.token.Some? {
      var keys := AttemptKeys(store, job.jobId, job.token.value);
      assert keys == SavedFor(store, job.jobId, job.token.value);
      if keys != {} {
        var first := First(keys);
        assert first == Key(job.jobId, first.artifact);
      }
    }
    hide Load;
  }

  // ---- what a delivery starts from --------------------------------------

  /** A marker within its field bounds; a source not received too often since it was saved. */
  predicate ReadsBack(job: Job, attempt: nat, e: Envelope) {
    match job.delivery
    case None => attempt <= e.sourceAttempt + 1000 && 1 <= e.maxRounds <= 100
    case Some(m) => m.Fields? && 0 <= m.state.round <= 1000 && 1 <= m.state.maxRounds <= 100
  }

  /** The number of the delivery: every receive of a marker counts on from its round; those of
      a source count from the one that saved the callback, and are number 1 before it. */
  predicate Numbered(job: Job, attempt: nat, e: Envelope, number: int) {
    match job.delivery
    case None => if attempt <= e.sourceAttempt then number == 1 else number == attempt - e.sourceAttempt + 1
    case Some(m) => m.Fields? && number == m.state.round + attempt
  }

  /** The window is the marker's own, or for a source the one the callback was saved with. */
  predicate Within(job: Job, artifact: Artifact, e: Envelope, st: DeliveryState) {
    match job.delivery
    case None =>
      st.artifact == artifact && st.deadline == e.deadline && st.maxRounds == e.maxRounds && !st.exhausted
    case Some(m) => m.Fields? && st == m.state
  }

  /** The turn a delivery read at this time decides on. */
  predicate TurnIs(job: Job, attempt: nat, cfg: Config, artifact: Artifact, e: Envelope, t: Turn, now: real) {
    && t.artifact == artifact && t.envelope == e && t.readAt == now && t.ceiling == cfg.maxRounds
    && Within(job, artifact, e, t.state) && Numbered(job, attempt, e, t.number)
    && t.maximum <= t.state.maxRounds && t.maximum <= cfg.maxRounds
    && (t.maximum == t.state.maxRounds || t.maximum == cfg.maxRounds)
  }

  /** There is still a turn left to send. */
  predicate MayBeSent(t: Turn) {
    !t.state.exhausted && t.readAt < t.state.deadline && t.number <= t.state.maxRounds && t.number <= t.ceiling
  }

  lemma StateIs(job: Job, attempt: nat, artifact: Artifact, e: Envelope)
    ensures StateOf(job, attempt, artifact, e).Some? <==> ReadsBack(job, attempt, e)
    ensures StateOf(job, attempt, artifact, e).Some? ==>
              var st := StateOf(job, attempt, artifact, e).value;
              && Within(job, artifact, e, st) && AttemptNo(st, job.delivery.Some?, attempt) >= 0
              && Numbered(job, attempt, e, AttemptNo(st, job.delivery.Some?, attempt))
  {
  }

  lemma OverIs(t: Turn)
    requires t.maximum == Min(t.state.maxRounds, t.ceiling)
    ensures Over(t) <==> !MayBeSent(t)
  {
  }

  // ---- what it decides --------------------------------------------------

  lemma DecidesExactly(s: State, w: nat)
    requires In(s, w) && s.passes[w].phase.ToDeliver?
    ensures var p, t := s.passes[w], Step(s, Deliver(w));
            var artifact, e := p.phase.artifact, p.phase.envelope;
            if !ReadsBack(p.job, p.lease.attempt, e) then t.passes == s.passes - {w}
            else
              && w in t.passes && (t.passes[w].phase.Uploading? || t.passes[w].phase.ToPublish?)
              && TurnIs(p.job, p.lease.attempt, p.cfg, artifact, e, t.passes[w].phase.turn, s.now)
              && (t.passes[w].phase.Uploading? <==> MayBeSent(t.passes[w].phase.turn))
  {
    var p := s.passes[w];
    StateIs(p.job, p.lease.attempt, p.phase.artifact, p.phase.envelope);
    hide StateOf, AttemptNo, ReadsBack, Within, Numbered, Over, MayBeSent;
    var t := DoDeliver(s, w);
    assert Step(s, Deliver(w)) == t;
    if w in t.passes {
      OverIs(t.passes[w].phase.turn);
    }
  }

  /** Every delivery of a reachable state is uploaded exactly when its marker is not
      exhausted, its deadline lies ahead and its number is within both its own rounds and the
      worker's; otherwise it goes straight to what replaces it.  Only a state outside its
      bounds ends the pass. */
  lemma SentExactlyWhen(limits: Limits, run: seq<Action>, w: nat)
    requires var s := Run(Initial(limits), run); w in s.passes && s.passes[w].phase.ToDeliver?
    ensures var s := Run(Initial(limits), run);
            var p, t := s.passes[w], Step(s, Deliver(w));
            var artifact, e := p.phase.artifact, p.phase.envelope;
            if !ReadsBack(p.job, p.lease.attempt, e) then t.passes == s.passes - {w}
            else
              && w in t.passes && (t.passes[w].phase.Uploading? || t.passes[w].phase.ToPublish?)
              && TurnIs(p.job, p.lease.attempt, p.cfg, artifact, e, t.passes[w].phase.turn, s.now)
              && (t.passes[w].phase.Uploading? <==> MayBeSent(t.passes[w].phase.turn))
  {
    Reachable(limits, run);
    PassOf(Run(Initial(limits), run), w);
    DecidesExactly(Run(Initial(limits), run), w);
  }

  /** What replaces a delivery keeps its window and counts its number as its round.  It is dead
      for good exactly when the marker was already, its deadline has come or will have come by
      the time it falls due, or its number has reached the rounds allowed. */
  lemma ReplacedBy(t: Turn)
    ensures var next := Next(t);
            && next.artifact == t.state.artifact && next.deadline == t.state.deadline
            && next.maxRounds == t.state.maxRounds && next.round == t.number
            && (next.exhausted <==>
                  || t.state.exhausted || t.readAt >= t.state.deadline || t.number >= t.maximum
                  || t.readAt + Backoff(t.number) as real >= t.state.deadline)
            && DelayOf(next) == if next.exhausted then 0 else Backoff(t.number)
  {
  }
}
