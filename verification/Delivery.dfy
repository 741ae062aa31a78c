/**
 Durable delivery of finished callbacks: what is saved, what is read back, and
 what each delivery decides.
 */
module Delivery {
  import opened Wrappers
  import opened Numbers
  import opened Executor
  import opened Summary

  const LOOKUP_LIMIT := 32

  /** A stored artifact: a saved callback of one judging attempt, or anything else.
      `attempt` is the token itself: its SHA-256 is taken to be injective.  `leaf`
      is the file's unique name, numbered in the order names sort. */
  datatype Artifact = Saved(attempt: string, leaf: nat) | Elsewhere(path: string)

  datatype Key = Key(jobId: string, artifact: Artifact)

  datatype DeliveryState = DeliveryState(artifact: Artifact, round: int, deadline: real, maxRounds: int, exhausted: bool)

  /** `metadata.delivery` as it stands in a message: the marker's fields, or any
      other value. */
  datatype Marker = Fields(state: DeliveryState) | Garbled

  /** `rest` is everything a job carries that delivery never looks at. */
  datatype Job = Job(jobId: string, token: Option<string>, bench: bool, project: bool, rest: string,
                     delivery: Option<Marker>)

  datatype JobResult = JobResult(jobId: string, token: Option<string>, outcome: Outcome)

  datatype Payload = Payload(jobUid: string, workerUid: string, token: Option<string>, summary: Summary)

  datatype Envelope = Envelope(
    job: Job,
    result: JobResult,
    payload: Payload,
    tier: string,
    sourceAttempt: nat,
    createdAt: real,
    deadline: real,
    maxRounds: int)

  /** The bytes of an artifact: an envelope, or something that is not one. */
  datatype Blob = Envelop(envelope: Envelope) | Junk

  /** One worker's settings for one pass. */
  datatype Config = Config(produce: bool, enabled: bool, bencher: bool, uid: string, window: real, maxRounds: int)

  predicate ConfigOk(c: Config) { 1 <= c.maxRounds <= 100 && c.window >= 1.0 }

  // ---- field bounds -----------------------------------------------------

  predicate StateOk(s: DeliveryState) { 0 <= s.round <= 1000 && 1 <= s.maxRounds <= 100 }

  function ParseMarker(m: Marker): Option<DeliveryState> {
    if m.Fields? && StateOk(m.state) then Some(m.state) else None
  }

  predicate EnvelopeOk(e: Envelope) { e.sourceAttempt >= 1 && 1 <= e.maxRounds <= 100 }

  // ---- load and find ----------------------------------------------------

  /** The callback really is this job attempt's, and final. */
  predicate Matches(e: Envelope, job: Job) {
    && e.job.jobId == job.jobId && e.job.token == job.token
    && e.result.jobId == job.jobId && e.result.token == job.token
    && e.payload.jobUid == job.jobId && e.payload.token == job.token
    && e.result.outcome.status != Retryable
  }

  function Load(store: map<Key, Blob>, job: Job, artifact: Artifact): Option<Envelope> {
    var key := Key(job.jobId, artifact);
    if job.token.None? || !artifact.Saved? || artifact.attempt != job.token.value then None
    else if key !in store || !store[key].Envelop? then None
    else
      var e := store[key].envelope;
      if EnvelopeOk(e) && Matches(e, job) then Some(e) else None
  }

  predicate IsAttemptKey(k: Key, jobId: string, token: string) {
    k.jobId == jobId && k.artifact.Saved? && k.artifact.attempt == token
  }

  function AttemptKeys(store: map<Key, Blob>, jobId: string, token: string): set<Key> {
    set k | k in store && IsAttemptKey(k, jobId, token)
  }

  ghost predicate IsFirst(k: Key, keys: set<Key>) {
    k in keys && k.artifact.Saved?
    && forall k' :: k' in keys && k'.artifact.Saved? ==> k.artifact.leaf <= k'.artifact.leaf
  }

  datatype Found = Nothing | Hit(artifact: Artifact, envelope: Envelope) | Unreadable

  lemma FirstExists(keys: set<Key>)
    requires keys != {} && forall k :: k in keys ==> k.artifact.Saved?
    ensures exists k :: IsFirst(k, keys)
  {
    var x :| x in keys;
    if keys == {x} {
      assert IsFirst(x, keys);
    } else {
      FirstExists(keys - {x});
      var k :| IsFirst(k, keys - {x});
      var y := if x.artifact.leaf <= k.artifact.leaf then x else k;
      forall k' | k' in keys
        ensures y.artifact.leaf <= k'.artifact.leaf
      {
        if k' != x { assert k' in keys - {x}; }
      }
      assert IsFirst(y, keys);
    }
  }

  ghost function First(keys: set<Key>): (k: Key)
    requires keys != {} && forall k :: k in keys ==> k.artifact.Saved?
    ensures IsFirst(k, keys)
  {
    FirstExists(keys);
    var k :| IsFirst(k, keys);
    k
  }

  /** The saved callback of a source job, if there is one; more than the limit, or
      one that cannot be read, is an error and not an absence. */
  ghost function Find(store: map<Key, Blob>, job: Job): Found {
    if job.token.None? then Nothing
    else
      var keys := AttemptKeys(store, job.jobId, job.token.value);
      if |keys| > LOOKUP_LIMIT then Unreadable
      else if keys == {} then Nothing
      else
        var artifact := First(keys).artifact;
        match Load(store, job, artifact)
        case Some(e) => Hit(artifact, e)
        case None => Unreadable
  }

  // ---- persist ----------------------------------------------------------

  function PayloadOf(r: JobResult, uid: string): Payload {
    Payload(r.jobId, uid, r.token, Summarise(r.outcome.report, r.outcome.error, r.outcome.killedBy))
  }

  function Enveloped(job: Job, r: JobResult, cfg: Config, tier: string, attempt: nat, now: real): Envelope {
    Envelope(job, r.(outcome := r.outcome.(report := None)), PayloadOf(r, cfg.uid), tier, attempt, now,
             now + cfg.window, cfg.maxRounds)
  }

  // ---- deliver ----------------------------------------------------------

  /** The state a delivery starts from: the marker's own, or a new chain's; either must be
      within the field bounds. */
  function StateOf(job: Job, attempt: nat, artifact: Artifact, e: Envelope): (r: Option<DeliveryState>)
    ensures r.Some? ==> r.value.round >= 0
  {
    if job.delivery.Some? then ParseMarker(job.delivery.value)
    else
      var s := DeliveryState(artifact, Max(0, attempt - e.sourceAttempt), e.deadline, e.maxRounds, false);
      if StateOk(s) then Some(s) else None
  }

  /** Each receive of a successor counts; a source counts from its first delivery. */
  function AttemptNo(s: DeliveryState, isMarker: bool, attempt: nat): int {
    s.round + if isMarker then attempt else 1
  }

  function Pow2(n: nat): nat { if n == 0 then 1 else 2 * Pow2(n - 1) }

  function Backoff(attempt: nat): int { Min(300, Pow2(Min(attempt, 9))) }

  predicate Spent(s: DeliveryState, attempt: int, maximum: int, now: real) {
    s.exhausted || now >= s.deadline || attempt > maximum
  }

  /** What replaces a delivery that did not get through. */
  function Successor(s: DeliveryState, attempt: nat, maximum: int, now: real): DeliveryState {
    var out := Spent(s, attempt, maximum, now) || attempt >= maximum || now + Backoff(attempt) as real >= s.deadline;
    s.(round := attempt, exhausted := out)
  }

  function Message(e: Envelope, s: DeliveryState): Job { e.job.(delivery := Some(Fields(s))) }

  // ---- laws -------------------------------------------------------------

  lemma {:induction false} Pow2Grows(n: nat)
    ensures n >= 9 ==> Pow2(n) >= 512
    decreases n
  {
    if n > 9 {
      Pow2Grows(n - 1);
    } else if n == 9 {
      assert Pow2(4) == 16;
      assert Pow2(8) == 256;
    }
  }

  lemma {:induction false} Pow2Positive(n: nat)
    ensures Pow2(n) >= 1
    decreases n
  {
    if n > 0 {
      Pow2Positive(n - 1);
    }
  }

  /** The capped exponent is only a saving: the delay is min(300, 2^attempt), and
      always one the queue accepts. */
  lemma BackoffIsExponential(attempt: nat)
    ensures Backoff(attempt) == Min(300, Pow2(attempt))
    ensures 1 <= Backoff(attempt) <= 300
  {
    Pow2Grows(attempt);
    Pow2Positive(attempt);
    Pow2Positive(9);
    Pow2Grows(9);
  }

  /** What `persist` writes for a final result of its own job is what `load` reads
      back, for the source job and for every marker `message` builds from it. */
  lemma PersistedIsLoadable(store: map<Key, Blob>, job: Job, r: JobResult, cfg: Config, tier: string, attempt: nat,
                            now: real, leaf: nat, s: DeliveryState)
    requires job.token.Some? && r.jobId == job.jobId && r.token == job.token && r.outcome.status != Retryable
    requires ConfigOk(cfg) && attempt >= 1
    ensures var e := Enveloped(job, r, cfg, tier, attempt, now);
            var artifact := Saved(job.token.value, leaf);
            var store' := store[Key(job.jobId, artifact) := Envelop(e)];
            Load(store', job, artifact) == Some(e) && Load(store', Message(e, s), artifact) == Some(e)
  {
  }

  /** A successor read from its message is the successor that was put there exactly
      when its round is within the field's bound. */
  lemma MarkerRoundTrip(e: Envelope, s: DeliveryState, attempt: nat, maximum: int, now: real, d: nat, artifact: Artifact)
    requires StateOk(s)
    ensures var next := Successor(s, attempt, maximum, now);
            StateOf(Message(e, next), d, artifact, e) == Some(next) <==> attempt <= 1000
    ensures !Successor(s, attempt, maximum, now).exhausted ==> attempt < maximum
  {
  }

  /** A dead-lettered marker can outgrow the bound: its message is then unreadable. */
  lemma ExhaustedMarkerCanBeUnreadable(e: Envelope) returns (s: DeliveryState, next: DeliveryState)
    ensures StateOk(s) && next == Successor(s, AttemptNo(s, true, 1), s.maxRounds, 0.0)
    ensures next.exhausted && StateOf(Message(e, next), 1, s.artifact, e) == None
  {
    s := DeliveryState(Saved("t", 0), 1000, 1.0, 8, true);
    next := Successor(s, 1001, s.maxRounds, 0.0);
  }
}
